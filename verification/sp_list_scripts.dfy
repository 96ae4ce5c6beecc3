/**
 * The list stored-procedure generator (generate-sp_list-scripts.js): per table, one
 * parameter line and one filter line per column (none for the audit columns, two
 * parameters for a date range), the table's custom parameters first, all filled into
 * the shared list template.
 */
module SpList {
  import opened Wrappers
  import opened Strings
  import opened Seqs
  import opened JsObject
  import opened Utils
  import opened DataFromDatabase
  import SpCustom

  /** The fragment templates of the list template, as opaque text. */
  datatype Definitions = Definitions(
    parameter: string,
    filterCriteria: string,
    filterCriteriaDateRange: string,
    filterCriteriaList: string)

  /** Columns that contribute nothing to the list procedure. */
  predicate IsAuditColumn(name: string) {
    name == "Modified_By" || name == "Modified_Date" || name == "Created_By" || name == "Created_Date"
  }

  /** Key columns, filtered by a list of values. */
  predicate IsIdColumn(name: string) {
    Contains(name, "_ID") || name == "ID"
  }

  /** One `@name TYPE = NULL,` line. */
  function ParameterLine(parameterTemplate: string, columnName: string, dataType: string): string {
    Filled(parameterTemplate, [("columnName", columnName), ("dataType", dataType)], true)
  }

  /** One filter line from one of the three filter templates. */
  function FilterLine(template: string, columnName: string): string {
    Filled(template, [("columnName", columnName)], true)
  }

  /** The parameter lines a column asks for, before the duplicate check. */
  function ColumnParameters(defs: Definitions, c: Column): seq<string> {
    var dataType := ToUpper(c.dataTypeSqlWithLength);
    if IsAuditColumn(c.name) then []
    else if IsIdColumn(c.name) then [ParameterLine(defs.parameter, c.name, "VARCHAR(MAX)")]
    else if IsDateTime(c.dataTypeDotNet) then
      [ParameterLine(defs.parameter, c.name + "_From", dataType), ParameterLine(defs.parameter, c.name + "_To", dataType)]
    else [ParameterLine(defs.parameter, c.name, dataType)]
  }

  /** The filter line a column adds, if any. */
  function ColumnFilter(defs: Definitions, c: Column): seq<string> {
    if IsAuditColumn(c.name) then []
    else if IsIdColumn(c.name) then [FilterLine(defs.filterCriteriaList, c.name)]
    else if IsDateTime(c.dataTypeDotNet) then [FilterLine(defs.filterCriteriaDateRange, c.name)]
    else [FilterLine(defs.filterCriteria, c.name)]
  }

  /** The custom parameters configured for a table; none for a table without configuration. */
  function CustomsOf(spConfig: map<string, SpCustom.SpTable>, tableName: string): Entries<SpCustom.CustomParameter> {
    if tableName in spConfig then spConfig[tableName].customParameters else []
  }

  /** The custom parameters' lines, in definition order. */
  function CustomParameterLines(parameterTemplate: string, customs: Entries<SpCustom.CustomParameter>): (r: seq<string>)
    ensures |r| == |customs|
    ensures forall i :: 0 <= i < |customs| ==> r[i] == ParameterLine(parameterTemplate, customs[i].1.name, customs[i].1.sqlType)
  {
    if customs == [] then []
    else
      var last := customs[|customs| - 1].1;
      CustomParameterLines(parameterTemplate, customs[..|customs| - 1]) + [ParameterLine(parameterTemplate, last.name, last.sqlType)]
  }

  /** The custom filters, each put in front of the ones before it: reverse definition order, tabs expanded. */
  function CustomFilterLines(customs: Entries<SpCustom.CustomParameter>): (r: seq<string>)
    ensures |r| == |customs|
    ensures forall i :: 0 <= i < |customs| ==>
      r[i] == ExpandTabs(customs[|customs| - 1 - i].1.filterCriteriaContent)
  {
    if customs == [] then []
    else
      var last := customs[|customs| - 1].1;
      [ExpandTabs(last.filterCriteriaContent)] + CustomFilterLines(customs[..|customs| - 1])
  }

  /** `addParameterContent`: a line already present is not added again. */
  function WithLine(lines: seq<string>, line: string): seq<string> {
    if line in lines then lines else lines + [line]
  }

  function WithLines(lines: seq<string>, added: seq<string>): seq<string> {
    if added == [] then lines
    else WithLine(WithLines(lines, added[..|added| - 1]), added[|added| - 1])
  }

  /** The parameter list after the custom parameters and the given columns. */
  function ParametersOf(defs: Definitions, customs: Entries<SpCustom.CustomParameter>, columns: seq<Column>): seq<string> {
    if columns == [] then CustomParameterLines(defs.parameter, customs)
    else WithLines(ParametersOf(defs, customs, columns[..|columns| - 1]), ColumnParameters(defs, columns[|columns| - 1]))
  }

  /** The filter list after the custom parameters and the given columns. */
  function FiltersOf(defs: Definitions, customs: Entries<SpCustom.CustomParameter>, columns: seq<Column>): seq<string> {
    if columns == [] then CustomFilterLines(customs)
    else FiltersOf(defs, customs, columns[..|columns| - 1]) + ColumnFilter(defs, columns[|columns| - 1])
  }

  /** Every parameter line the columns ask for, duplicates included. */
  function Requested(defs: Definitions, columns: seq<Column>): seq<string> {
    if columns == [] then []
    else Requested(defs, columns[..|columns| - 1]) + ColumnParameters(defs, columns[|columns| - 1])
  }

  /** The columns other than the audit columns. */
  function NonAuditCount(columns: seq<Column>): nat {
    if columns == [] then 0
    else NonAuditCount(columns[..|columns| - 1]) + (if IsAuditColumn(columns[|columns| - 1].name) then 0 else 1)
  }

  /** Every line from position `n` on occurs once in the whole list. */
  ghost predicate UniqueFrom(r: seq<string>, n: nat) {
    forall i, j :: n <= i < |r| && 0 <= j < |r| && i != j ==> r[i] != r[j]
  }

  /** Adding lines with the duplicate check keeps the old list as a prefix, adds only new, distinct lines, and loses none. */
  lemma {:induction false} WithLinesAdds(lines: seq<string>, added: seq<string>, n: nat)
    requires n <= |lines| && UniqueFrom(lines, n)
    ensures var r := WithLines(lines, added);
      && |lines| <= |r| && r[..|lines|] == lines
      && UniqueFrom(r, n)
      && (forall x :: x in r <==> x in lines || x in added)
    decreases |added|
  {
    if added != [] {
      var front := WithLines(lines, added[..|added| - 1]);
      var line := added[|added| - 1];
      WithLinesAdds(lines, added[..|added| - 1], n);
      assert added == added[..|added| - 1] + [line];
      if line !in front {
        var r := front + [line];
        assert r[..|front|] == front;
        assert r[..|lines|] == front[..|lines|];
        forall i, j | n <= i < |r| && 0 <= j < |r| && i != j
          ensures r[i] != r[j]
        {
          if i == |front| {
            assert r[j] in front;
          } else if j == |front| {
            assert r[i] in front;
          }
        }
      }
    }
  }

  /**
   * The parameter list: the custom parameters' lines come first, unchecked; every line
   * after them occurs once in the whole list; the lines present are exactly the custom
   * lines and the lines the columns ask for.
   */
  lemma {:induction false} ParametersDeduplicated(defs: Definitions, customs: Entries<SpCustom.CustomParameter>, columns: seq<Column>)
    ensures var r := ParametersOf(defs, customs, columns);
      && |customs| <= |r| && r[..|customs|] == CustomParameterLines(defs.parameter, customs)
      && UniqueFrom(r, |customs|)
      && (forall x :: x in r <==> x in CustomParameterLines(defs.parameter, customs) || x in Requested(defs, columns))
    decreases |columns|
  {
    if columns != [] {
      var front := columns[..|columns| - 1];
      ParametersDeduplicated(defs, customs, front);
      var before := ParametersOf(defs, customs, front);
      WithLinesAdds(before, ColumnParameters(defs, columns[|columns| - 1]), |customs|);
      var r := ParametersOf(defs, customs, columns);
      assert r[..|customs|] == r[..|before|][..|customs|];
    }
  }

  /** One filter per custom parameter and one per non-audit column. */
  lemma {:induction false} FilterCount(defs: Definitions, customs: Entries<SpCustom.CustomParameter>, columns: seq<Column>)
    ensures |FiltersOf(defs, customs, columns)| == |customs| + NonAuditCount(columns)
    decreases |columns|
  {
    if columns != [] {
      FilterCount(defs, customs, columns[..|columns| - 1]);
    }
  }

  /** The custom filters come before every column filter, in reverse definition order. */
  lemma {:induction false} CustomFiltersFirst(defs: Definitions, customs: Entries<SpCustom.CustomParameter>, columns: seq<Column>)
    ensures var r := FiltersOf(defs, customs, columns);
      |customs| <= |r| && r[..|customs|] == CustomFilterLines(customs)
    decreases |columns|
  {
    if columns != [] {
      var front := columns[..|columns| - 1];
      CustomFiltersFirst(defs, customs, front);
      var before := FiltersOf(defs, customs, front);
      var r := FiltersOf(defs, customs, columns);
      assert r[..|customs|] == before[..|customs|];
    }
  }

  /**
   * What one more column adds: audit columns nothing; key columns a `VARCHAR(MAX)`
   * parameter and a list filter; date columns `_From` and `_To` parameters and one
   * date-range filter; any other column a parameter of its upper-cased SQL type and a
   * plain filter.
   */
  lemma ColumnContribution(defs: Definitions, customs: Entries<SpCustom.CustomParameter>, columns: seq<Column>, c: Column)
    ensures var before := ParametersOf(defs, customs, columns);
      var after := ParametersOf(defs, customs, columns + [c]);
      var filters := FiltersOf(defs, customs, columns);
      var filters' := FiltersOf(defs, customs, columns + [c]);
      var dataType := ToUpper(c.dataTypeSqlWithLength);
      && (IsAuditColumn(c.name) ==> after == before && filters' == filters)
      && (!IsAuditColumn(c.name) && IsIdColumn(c.name) ==>
            ParameterLine(defs.parameter, c.name, "VARCHAR(MAX)") in after
            && filters' == filters + [FilterLine(defs.filterCriteriaList, c.name)])
      && (!IsAuditColumn(c.name) && !IsIdColumn(c.name) && IsDateTime(c.dataTypeDotNet) ==>
            ParameterLine(defs.parameter, c.name + "_From", dataType) in after
            && ParameterLine(defs.parameter, c.name + "_To", dataType) in after
            && filters' == filters + [FilterLine(defs.filterCriteriaDateRange, c.name)])
      && (!IsAuditColumn(c.name) && !IsIdColumn(c.name) && !IsDateTime(c.dataTypeDotNet) ==>
            ParameterLine(defs.parameter, c.name, dataType) in after
            && filters' == filters + [FilterLine(defs.filterCriteria, c.name)])
  {
    assert (columns + [c])[..|columns|] == columns;
    ParametersDeduplicated(defs, customs, columns + [c]);
    assert (columns + [c])[..|columns|] == columns;
  }

  /** The custom-parameter loop: each line pushed, each filter put in front. */
  method CustomFragments(parameterTemplate: string, customs: Entries<SpCustom.CustomParameter>)
    returns (parameters: seq<string>, filters: seq<string>)
    ensures parameters == CustomParameterLines(parameterTemplate, customs)
    ensures filters == CustomFilterLines(customs)
  {
    parameters, filters := [], [];
    for i := 0 to |customs|
      invariant parameters == CustomParameterLines(parameterTemplate, customs[..i])
      invariant filters == CustomFilterLines(customs[..i])
    {
      assert customs[..i + 1][..i] == customs[..i];
      var custom := customs[i].1;
      parameters := parameters + [ParameterLine(parameterTemplate, custom.name, custom.sqlType)];
      filters := [ExpandTabs(custom.filterCriteriaContent)] + filters;
    }
    assert customs[..|customs|] == customs;
  }

  /** `getStoredProcedureContent`'s two loops: the parameter and filter lists of one table. */
  method BuildFragments(defs: Definitions, customs: Entries<SpCustom.CustomParameter>, columns: seq<Column>)
    returns (parameters: seq<string>, filters: seq<string>)
    ensures parameters == ParametersOf(defs, customs, columns)
    ensures filters == FiltersOf(defs, customs, columns)
  {
    parameters, filters := CustomFragments(defs.parameter, customs);
    for j := 0 to |columns|
      invariant parameters == ParametersOf(defs, customs, columns[..j])
      invariant filters == FiltersOf(defs, customs, columns[..j])
    {
      FragmentsStep(defs, customs, columns, j);
      var c := columns[j];
      var dataType := ToUpper(c.dataTypeSqlWithLength);
      if IsAuditColumn(c.name) {
        continue;
      }
      var lines: seq<string>;
      if IsIdColumn(c.name) {
        lines := [ParameterLine(defs.parameter, c.name, "VARCHAR(MAX)")];
        filters := filters + [FilterLine(defs.filterCriteriaList, c.name)];
      } else if IsDateTime(c.dataTypeDotNet) {
        lines := [ParameterLine(defs.parameter, c.name + "_From", dataType), ParameterLine(defs.parameter, c.name + "_To", dataType)];
        filters := filters + [FilterLine(defs.filterCriteriaDateRange, c.name)];
      } else {
        lines := [ParameterLine(defs.parameter, c.name, dataType)];
        filters := filters + [FilterLine(defs.filterCriteria, c.name)];
      }
      parameters := PushLines(parameters, lines);
    }
    assert columns[..|columns|] == columns;
  }

  /** One more column: its parameter lines added without duplicates, its filter appended. */
  lemma FragmentsStep(defs: Definitions, customs: Entries<SpCustom.CustomParameter>, columns: seq<Column>, k: nat)
    requires k < |columns|
    ensures ParametersOf(defs, customs, columns[..k + 1]) == WithLines(ParametersOf(defs, customs, columns[..k]), ColumnParameters(defs, columns[k]))
    ensures FiltersOf(defs, customs, columns[..k + 1]) == FiltersOf(defs, customs, columns[..k]) + ColumnFilter(defs, columns[k])
  {
    assert columns[..k + 1][..k] == columns[..k];
  }

  /** The inner loop: each line pushed unless the list already holds it. */
  method PushLines(parameters: seq<string>, lines: seq<string>) returns (parameters': seq<string>)
    ensures parameters' == WithLines(parameters, lines)
  {
    parameters' := parameters;
    for k := 0 to |lines|
      invariant parameters' == WithLines(parameters, lines[..k])
    {
      assert lines[..k + 1][..k] == lines[..k];
      if lines[k] !in parameters' {
        parameters' := parameters' + [lines[k]];
      }
    }
    assert lines[..|lines|] == lines;
  }

  /** The script of one table: the shared replacements after this table's three assignments, filled in. */
  function ListScript(template: string, defs: Definitions, spConfig: map<string, SpCustom.SpTable>,
                      tableName: string, tableData: TableData): string
  {
    Filled(template, ListReplacements(defs, spConfig, tableName, tableData), true)
  }

  /** The shared replacements after this table's three assignments. */
  function ListReplacements(defs: Definitions, spConfig: map<string, SpCustom.SpTable>, tableName: string, tableData: TableData): Entries<string> {
    var customs := CustomsOf(spConfig, tableName);
    [("Parameters", Join(ParametersOf(defs, customs, tableData.columns), "\n")),
     ("FilterCriterias", Join(FiltersOf(defs, customs, tableData.columns), "\n")),
     ("entityName", tableName)]
  }

  /** The scripts of the walked tables, one per table, in walk order. */
  function ListScripts(template: string, defs: Definitions, spConfig: map<string, SpCustom.SpTable>,
                       tables: Tables, names: seq<string>): seq<string>
    requires forall i :: 0 <= i < |names| ==> names[i] in Keys(tables)
  {
    if names == [] then []
    else
      var t := names[|names| - 1];
      ListScripts(template, defs, spConfig, tables, names[..|names| - 1])
        + [ListScript(template, defs, spConfig, t, Get(tables, t).value)]
  }

  const ReplacementKeys := ["Parameters", "FilterCriterias", "entityName"]

  /** The list template module: constant text and a replacements object shared by every call. */
  class ListTemplate {
    const template: string
    const definitions: Definitions
    var replacements: Entries<string>

    ghost predicate Valid()
      reads this
    {
      Keys(replacements) == ReplacementKeys
    }

    constructor (template: string, definitions: Definitions)
      ensures this.template == template && this.definitions == definitions
      ensures replacements == [("Parameters", ""), ("FilterCriterias", ""), ("entityName", "")]
      ensures Valid()
    {
      this.template := template;
      this.definitions := definitions;
      replacements := [("Parameters", ""), ("FilterCriterias", ""), ("entityName", "")];
    }

    /**
     * `getStoredProcedureContent`: the three shared replacements are overwritten, so the
     * script depends on this table only, never on an earlier call.
     */
    method GetStoredProcedureContent(tableName: string, tableData: TableData, spConfig: map<string, SpCustom.SpTable>)
      returns (script: string)
      requires Valid()
      modifies this
      ensures replacements == ListReplacements(definitions, spConfig, tableName, tableData)
      ensures Valid()
      ensures script == ListScript(template, definitions, spConfig, tableName, tableData)
    {
      var parameters, filters := BuildFragments(definitions, CustomsOf(spConfig, tableName), tableData.columns);
      var r := Put(replacements, "Parameters", Join(parameters, "\n"));
      r := Put(r, "FilterCriterias", Join(filters, "\n"));
      r := Put(r, "entityName", tableName);
      OverwriteAll(replacements, Join(parameters, "\n"), Join(filters, "\n"), tableName);
      replacements := r;
      script := FillTemplate(template, replacements, true);
    }

    /**
     * The whole output file: the walked tables' scripts joined by a blank line. The shared
     * replacements are left holding the last walked table's values, or as they were when
     * no table is walked.
     */
    method Generate(tables: Tables, included: seq<string>, excluded: seq<string>, spConfig: map<string, SpCustom.SpTable>)
      returns (fileContent: string)
      requires Valid()
      modifies this
      ensures Valid()
      ensures fileContent == Join(ListScripts(template, definitions, spConfig, tables,
                                              SelectedTables(Keys(tables), included, excluded)), "\n\n")
      ensures var names := SelectedTables(Keys(tables), included, excluded);
        && (names == [] ==> replacements == old(replacements))
        && (names != [] ==> replacements == ListReplacements(definitions, spConfig, names[|names| - 1], Get(tables, names[|names| - 1]).value))
    {
      var names := WalkthroughTableData(Keys(tables), included, excluded);
      assert forall j :: 0 <= j < |names| ==> names[j] in Keys(tables);
      var scripts: seq<string> := [];
      for i := 0 to |names|
        invariant Valid()
        invariant scripts == ListScripts(template, definitions, spConfig, tables, names[..i])
        invariant i == 0 ==> replacements == old(replacements)
        invariant i > 0 ==> replacements == ListReplacements(definitions, spConfig, names[i - 1], Get(tables, names[i - 1]).value)
      {
        ListScriptsStep(template, definitions, spConfig, tables, names, i);
        var scriptContent := GetStoredProcedureContent(names[i], Get(tables, names[i]).value, spConfig);
        scripts := scripts + [scriptContent];
      }
      assert names[..|names|] == names;
      fileContent := Join(scripts, "\n\n");
    }
  }

  /** Exactly one script per walked table, in walk order, each that table's own. */
  lemma {:induction false} ListScriptsAt(template: string, defs: Definitions, spConfig: map<string, SpCustom.SpTable>,
                                         tables: Tables, names: seq<string>)
    requires forall i :: 0 <= i < |names| ==> names[i] in Keys(tables)
    ensures |ListScripts(template, defs, spConfig, tables, names)| == |names|
    ensures forall i :: 0 <= i < |names| ==>
      ListScripts(template, defs, spConfig, tables, names)[i]
        == ListScript(template, defs, spConfig, names[i], Get(tables, names[i]).value)
    decreases |names|
  {
    if names != [] {
      var front := names[..|names| - 1];
      var t := names[|names| - 1];
      ListScriptsAt(template, defs, spConfig, tables, front);
      var scripts := ListScripts(template, defs, spConfig, tables, front);
      assert ListScripts(template, defs, spConfig, tables, names)
          == scripts + [ListScript(template, defs, spConfig, t, Get(tables, t).value)];
      forall i | 0 <= i < |names|
        ensures ListScripts(template, defs, spConfig, tables, names)[i]
             == ListScript(template, defs, spConfig, names[i], Get(tables, names[i]).value)
      {
        if i < |front| {
          assert front[i] == names[i];
          assert ListScripts(template, defs, spConfig, tables, names)[i] == scripts[i];
        } else {
          assert i == |scripts| && names[i] == t;
        }
      }
    }
  }

  /** The walk over one more table: the earlier scripts, then that table's script. */
  lemma ListScriptsStep(template: string, defs: Definitions, spConfig: map<string, SpCustom.SpTable>,
                        tables: Tables, names: seq<string>, k: nat)
    requires forall i :: 0 <= i < |names| ==> names[i] in Keys(tables)
    requires k < |names|
    ensures ListScripts(template, defs, spConfig, tables, names[..k + 1])
         == ListScripts(template, defs, spConfig, tables, names[..k])
            + [ListScript(template, defs, spConfig, names[k], Get(tables, names[k]).value)]
  {
    assert names[..k + 1][..k] == names[..k];
  }

  /** Assigning the three keys of a replacements object that has exactly those keys. */
  lemma OverwriteAll(old_: Entries<string>, parameters: string, filters: string, entityName: string)
    requires Keys(old_) == ReplacementKeys
    ensures Put(Put(Put(old_, "Parameters", parameters), "FilterCriterias", filters), "entityName", entityName)
         == [("Parameters", parameters), ("FilterCriterias", filters), ("entityName", entityName)]
  {
    assert |old_| == 3;
    assert old_[0].0 == "Parameters" && old_[1].0 == "FilterCriterias" && old_[2].0 == "entityName";
    var e1 := Put(old_, "Parameters", parameters);
    assert e1 == [("Parameters", parameters)] + old_[1..];
    var e2 := Put(e1, "FilterCriterias", filters);
    assert e1[1..] == old_[1..];
    assert Put(old_[1..], "FilterCriterias", filters) == [("FilterCriterias", filters)] + old_[2..];
    assert e2 == [e1[0]] + Put(e1[1..], "FilterCriterias", filters);
    assert e2 == [("Parameters", parameters), ("FilterCriterias", filters), old_[2]];
    assert e2[2..] == [old_[2]];
    assert Put(e2[2..], "entityName", entityName) == [("entityName", entityName)];
    assert Put(e2[1..], "entityName", entityName) == [e2[1]] + Put(e2[2..], "entityName", entityName);
  }
}
