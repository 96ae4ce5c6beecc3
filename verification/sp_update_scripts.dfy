/**
 * The update stored-procedure generator (generate-sp-update-scripts.js): per table one
 * parameter line and one SET line for every column except the key and audit columns.
 * Unlike the insert script, `Is_Default` and `Is_System` get no fixed default.
 */
module SpUpdate {
  import opened Wrappers
  import opened Strings
  import opened JsObject
  import opened Utils
  import opened DataFromDatabase
  import SpInsert
  import Seqs

  /** The two line templates of the update template, as opaque text. */
  datatype Definitions = Definitions(parameter: string, setCommand: string)

  /**
   * The default clause of a kept column: `" = d"` for a truthy default `d`, otherwise
   * `" = NULL"` for a nullable column and nothing at all for the rest.
   */
  function DefaultClause(c: Column): (clause: string)
    ensures SpInsert.IsTruthy(c.defaultValue) ==> clause == " = " + c.defaultValue.value
    ensures !SpInsert.IsTruthy(c.defaultValue) && c.isNullable ==> clause == " = NULL"
    ensures clause == "" <==> !SpInsert.IsTruthy(c.defaultValue) && !c.isNullable
  {
    if SpInsert.IsTruthy(c.defaultValue) then " = " + c.defaultValue.value
    else if c.isNullable then " = NULL"
    else ""
  }

  /** The replacements of one column's two lines. */
  function ColumnReplacements(c: Column): Entries<string> {
    [("columnName", c.name), ("dataType", ToUpper(c.dataTypeSqlWithLength)), ("defaultValue", DefaultClause(c))]
  }

  /** The two lists of a table, side by side. */
  datatype Lines = Lines(parameters: seq<string>, setCommands: seq<string>)

  /** The lines of one column appended to both lists; a skipped column adds nothing. */
  function WithColumn(defs: Definitions, lines: Lines, c: Column): Lines {
    if SpInsert.IsSkipped(c.name) then lines
    else Lines(lines.parameters + [Filled(defs.parameter, ColumnReplacements(c), true)],
               lines.setCommands + [Filled(defs.setCommand, ColumnReplacements(c), true)])
  }

  /** `tableData.columns.forEach`: the two lists, in column order. */
  function UpdateLines(defs: Definitions, columns: seq<Column>): Lines {
    if columns == [] then Lines([], [])
    else WithColumn(defs, UpdateLines(defs, columns[..|columns| - 1]), columns[|columns| - 1])
  }

  /**
   * The two lists are parallel: one entry per column the insert script also keeps, and
   * entry `i` of both lists is made from the same column with the same replacements.
   */
  lemma {:induction false} LinesParallel(defs: Definitions, columns: seq<Column>)
    ensures var lines := UpdateLines(defs, columns);
      var kept := SpInsert.Kept(columns);
      && |lines.parameters| == |kept| && |lines.setCommands| == |kept|
      && forall i :: 0 <= i < |kept| ==>
           && lines.parameters[i] == Filled(defs.parameter, ColumnReplacements(kept[i]), true)
           && lines.setCommands[i] == Filled(defs.setCommand, ColumnReplacements(kept[i]), true)
    decreases |columns|
  {
    if columns != [] {
      LinesParallel(defs, columns[..|columns| - 1]);
    }
  }

  /**
   * `Is_Default` and `Is_System` follow the general rule: without a truthy default a
   * non-nullable one gets no default clause, where the insert script gives `" = 0"`.
   */
  lemma NoSpecialFlags(c: Column)
    requires c.name == "Is_Default" || c.name == "Is_System"
    requires !SpInsert.IsTruthy(c.defaultValue) && !c.isNullable
    ensures !SpInsert.IsSkipped(c.name)
    ensures DefaultClause(c) == "" && SpInsert.DefaultClause(c) == " = 0"
  {
  }

  /** One column of the `forEach`, statement by statement. */
  method ProcessColumn(defs: Definitions, c: Column, lines: Lines) returns (lines': Lines)
    ensures lines' == WithColumn(defs, lines, c)
  {
    var defaultValue := "";
    var dataType := ToUpper(c.dataTypeSqlWithLength);
    if SpInsert.IsSkipped(c.name) {
      return lines;
    }
    if SpInsert.IsTruthy(c.defaultValue) {
      defaultValue := " = " + c.defaultValue.value;
    }
    if c.isNullable && defaultValue == "" {
      defaultValue := " = NULL";
    }
    var replacements := [("columnName", c.name), ("dataType", dataType), ("defaultValue", defaultValue)];
    var parameter := FillTemplate(defs.parameter, replacements, true);
    var setCommand := FillTemplate(defs.setCommand, replacements, true);
    lines' := Lines(lines.parameters + [parameter], lines.setCommands + [setCommand]);
  }

  /** The two lists of a table, built column by column. */
  method BuildLines(defs: Definitions, columns: seq<Column>) returns (lines: Lines)
    ensures lines == UpdateLines(defs, columns)
  {
    lines := Lines([], []);
    for i := 0 to |columns|
      invariant lines == UpdateLines(defs, columns[..i])
    {
      assert columns[..i + 1][..i] == columns[..i];
      lines := ProcessColumn(defs, columns[i], lines);
    }
    assert columns[..|columns|] == columns;
  }

  const ReplacementKeys := ["Parameters", "SetCommands", "entityName"]

  /** The shared replacements after a call for `tableName`. */
  function UpdateReplacements(defs: Definitions, tableName: string, tableData: TableData): Entries<string> {
    var lines := UpdateLines(defs, tableData.columns);
    [("Parameters", Join(lines.parameters, "\n")), ("SetCommands", Join(lines.setCommands, "\n")),
     ("entityName", tableName)]
  }

  /** The script of one table. */
  function UpdateScript(template: string, defs: Definitions, tableName: string, tableData: TableData): string {
    Filled(template, UpdateReplacements(defs, tableName, tableData), true)
  }

  /** The scripts of the walked tables, one per table, in walk order. */
  function UpdateScripts(template: string, defs: Definitions, tables: Tables, names: seq<string>): seq<string>
    requires forall i :: 0 <= i < |names| ==> names[i] in Keys(tables)
  {
    if names == [] then []
    else
      var t := names[|names| - 1];
      UpdateScripts(template, defs, tables, names[..|names| - 1]) + [UpdateScript(template, defs, t, Get(tables, t).value)]
  }

  /** Exactly one script per walked table, in walk order, each that table's own. */
  lemma {:induction false} UpdateScriptsAt(template: string, defs: Definitions, tables: Tables, names: seq<string>)
    requires forall i :: 0 <= i < |names| ==> names[i] in Keys(tables)
    ensures |UpdateScripts(template, defs, tables, names)| == |names|
    ensures forall i :: 0 <= i < |names| ==>
      UpdateScripts(template, defs, tables, names)[i] == UpdateScript(template, defs, names[i], Get(tables, names[i]).value)
    decreases |names|
  {
    if names != [] {
      var front := names[..|names| - 1];
      var t := names[|names| - 1];
      UpdateScriptsAt(template, defs, tables, front);
      var scripts := UpdateScripts(template, defs, tables, front);
      assert UpdateScripts(template, defs, tables, names) == scripts + [UpdateScript(template, defs, t, Get(tables, t).value)];
      forall i | 0 <= i < |names|
        ensures UpdateScripts(template, defs, tables, names)[i] == UpdateScript(template, defs, names[i], Get(tables, names[i]).value)
      {
        if i < |front| {
          assert front[i] == names[i];
          assert UpdateScripts(template, defs, tables, names)[i] == scripts[i];
        } else {
          assert i == |scripts| && names[i] == t;
        }
      }
    }
  }

  /** One more walked table adds its own script at the end. */
  lemma UpdateScriptsStep(template: string, defs: Definitions, tables: Tables, names: seq<string>, k: nat)
    requires forall i :: 0 <= i < |names| ==> names[i] in Keys(tables)
    requires k < |names|
    ensures UpdateScripts(template, defs, tables, names[..k + 1])
      == UpdateScripts(template, defs, tables, names[..k]) + [UpdateScript(template, defs, names[k], Get(tables, names[k]).value)]
  {
    assert names[..k + 1][..k] == names[..k];
  }

  /** The update template module: constant text and a replacements object shared by every call. */
  class UpdateTemplate {
    const template: string
    const definitions: Definitions
    var replacements: Entries<string>

    ghost predicate Valid()
      reads this
    {
      Keys(replacements) == ReplacementKeys
    }

    constructor (template: string, definitions: Definitions)
      ensures this.template == template && this.definitions == definitions
      ensures replacements == [("Parameters", ""), ("SetCommands", ""), ("entityName", "")]
      ensures Valid()
    {
      this.template := template;
      this.definitions := definitions;
      replacements := [("Parameters", ""), ("SetCommands", ""), ("entityName", "")];
    }

    /**
     * `getStoredProcedureContent`: the three shared replacements are overwritten, so the
     * script depends on this table only, never on an earlier call.
     */
    method GetStoredProcedureContent(tableName: string, tableData: TableData) returns (script: string)
      requires Valid()
      modifies this
      ensures Valid()
      ensures replacements == UpdateReplacements(definitions, tableName, tableData)
      ensures script == UpdateScript(template, definitions, tableName, tableData)
    {
      var lines := BuildLines(definitions, tableData.columns);
      var updates := UpdateReplacements(definitions, tableName, tableData);
      var r := Put(replacements, "Parameters", Join(lines.parameters, "\n"));
      r := Put(r, "SetCommands", Join(lines.setCommands, "\n"));
      r := Put(r, "entityName", tableName);
      AssignThree(replacements, updates);
      assert Seqs.NoDuplicates(ReplacementKeys);
      AssignAll(replacements, updates);
      replacements := r;
      script := FillTemplate(template, replacements, true);
    }

    /**
     * The whole output file: the walked tables' scripts joined by a blank line. The shared
     * replacements are left holding the last walked table's values, or as they were when
     * no table is walked.
     */
    method Generate(tables: Tables, included: seq<string>, excluded: seq<string>) returns (fileContent: string)
      requires Valid()
      modifies this
      ensures Valid()
      ensures fileContent == Join(UpdateScripts(template, definitions, tables, SelectedTables(Keys(tables), included, excluded)), "\n\n")
      ensures var names := SelectedTables(Keys(tables), included, excluded);
        && (names == [] ==> replacements == old(replacements))
        && (names != [] ==> replacements == UpdateReplacements(definitions, names[|names| - 1], Get(tables, names[|names| - 1]).value))
    {
      var names := WalkthroughTableData(Keys(tables), included, excluded);
      assert forall j :: 0 <= j < |names| ==> names[j] in Keys(tables);
      var scripts: seq<string> := [];
      for i := 0 to |names|
        invariant Valid()
        invariant scripts == UpdateScripts(template, definitions, tables, names[..i])
        invariant i == 0 ==> replacements == old(replacements)
        invariant i > 0 ==> replacements == UpdateReplacements(definitions, names[i - 1], Get(tables, names[i - 1]).value)
      {
        UpdateScriptsStep(template, definitions, tables, names, i);
        var scriptContent := GetStoredProcedureContent(names[i], Get(tables, names[i]).value);
        scripts := scripts + [scriptContent];
      }
      assert names[..|names|] == names;
      fileContent := Join(scripts, "\n\n");
    }
  }
}
