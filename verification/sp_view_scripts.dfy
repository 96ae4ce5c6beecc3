/**
 * The view stored-procedure generator (generate-sp-view-scripts.js): only Brand, Device
 * and User get a view procedure. It takes the parent's columns, then for each child
 * table one FROM, one SELECT and one keyword clause and the child's own columns, with
 * every filter naming the alias of the column's own table.
 */
module SpView {
  import opened Wrappers
  import opened Strings
  import opened Seqs
  import opened JsObject
  import opened Utils
  import opened DataFromDatabase
  import SpCustom
  import SpList

  /** The fragment templates of the view template, as opaque text. */
  datatype Definitions = Definitions(
    parameter: string,
    filterCriteria: string,
    filterCriteriaDateRange: string,
    filterCriteriaList: string,
    keywordFilterCriteria: string,
    childSelectClause: string,
    childFromClause: string)

  /** Why a view script cannot be made: the source throws a `TypeError` at these points. */
  datatype ViewError =
    | MissingConfig(tableName: string)   // `spCustom` is undefined for an allow-listed table
    | MissingTable(childTable: string)   // `tables[childTable]` is undefined

  const AllowList := ["Brand", "Device", "User"]

  /** Columns filtered by a list of values. */
  predicate IsKeyColumn(name: string) {
    Contains(name, "_ID") || name == "ID" || name == "UID"
  }

  /** Audit columns everywhere; in a child table also its parent key, `ID` and `UID`. */
  predicate IsSkipped(c: Column, parent: string, isChild: bool) {
    SpList.IsAuditColumn(c.name)
    || (IsKeyColumn(c.name) && isChild && (c.name == parent + "_ID" || c.name == "ID" || c.name == "UID"))
  }

  /** `spCustom.alias[name]`; a missing alias is interpolated as the text `undefined`. */
  function AliasOf(sp: SpCustom.SpTable, name: string): string {
    if name in sp.alias then sp.alias[name] else Undefined
  }

  /** One filter line, naming the alias of the column's table. */
  function FilterLine(template: string, columnName: string, entityAlias: string): string {
    Filled(template, [("columnName", columnName), ("entityAlias", entityAlias)], true)
  }

  /** The parameter lines a column adds; every one is added, duplicates included. */
  function ColumnParameters(defs: Definitions, c: Column, parent: string, isChild: bool): seq<string> {
    var dataType := ToUpper(c.dataTypeSqlWithLength);
    if IsSkipped(c, parent, isChild) then []
    else if IsKeyColumn(c.name) then [SpList.ParameterLine(defs.parameter, c.name, "VARCHAR(MAX)")]
    else if IsDateTime(c.dataTypeDotNet) then
      [SpList.ParameterLine(defs.parameter, c.name + "_From", dataType),
       SpList.ParameterLine(defs.parameter, c.name + "_To", dataType)]
    else [SpList.ParameterLine(defs.parameter, c.name, dataType)]
  }

  /** The filter line a column adds, if any. */
  function ColumnFilter(defs: Definitions, c: Column, parent: string, isChild: bool, alias: string): seq<string> {
    if IsSkipped(c, parent, isChild) then []
    else if IsKeyColumn(c.name) then [FilterLine(defs.filterCriteriaList, c.name, alias)]
    else if IsDateTime(c.dataTypeDotNet) then [FilterLine(defs.filterCriteriaDateRange, c.name, alias)]
    else [FilterLine(defs.filterCriteria, c.name, alias)]
  }

  /** `processColumn` over a table's columns: the parameter lines, in column order. */
  function ColumnsParameters(defs: Definitions, columns: seq<Column>, parent: string, isChild: bool): seq<string> {
    if columns == [] then []
    else ColumnsParameters(defs, columns[..|columns| - 1], parent, isChild)
           + ColumnParameters(defs, columns[|columns| - 1], parent, isChild)
  }

  /** `processColumn` over a table's columns: the filter lines, in column order. */
  function ColumnsFilters(defs: Definitions, columns: seq<Column>, parent: string, isChild: bool, alias: string): seq<string> {
    if columns == [] then []
    else ColumnsFilters(defs, columns[..|columns| - 1], parent, isChild, alias)
           + ColumnFilter(defs, columns[|columns| - 1], parent, isChild, alias)
  }

  /** The replacements of one child's three clauses. */
  function ChildReplacements(sp: SpCustom.SpTable, parent: string, child: string): Entries<string> {
    [("childEntityName", child), ("childEntityAlias", AliasOf(sp, child)),
     ("entityName", parent), ("entityAlias", AliasOf(sp, parent))]
  }

  /** One clause per child table, in `childTables` order. */
  function ChildClauses(template: string, sp: SpCustom.SpTable, parent: string, children: seq<string>): (r: seq<string>)
    ensures |r| == |children|
    ensures forall i :: 0 <= i < |children| ==> r[i] == ChildClause(template, sp, parent, children[i])
  {
    if children == [] then []
    else ChildClauses(template, sp, parent, children[..|children| - 1])
           + [ChildClause(template, sp, parent, children[|children| - 1])]
  }

  /** The five lists `getStoredProcedureContent` builds. */
  datatype Fragments = Fragments(
    parameters: seq<string>,
    filters: seq<string>,
    keywordFilters: seq<string>,
    childFroms: seq<string>,
    childSelects: seq<string>)

  /**
   * One child table's share: its FROM, SELECT and keyword clauses, then its columns with
   * the child's alias; a child missing from `tables` throws.
   */
  function ChildShare(defs: Definitions, sp: SpCustom.SpTable, tables: Tables, parent: string,
                      f: Fragments, child: string): Result<Fragments, ViewError>
  {
    match Get(tables, child)
    case None => Failure(MissingTable(child))
    case Some(d) =>
      Success(Fragments(
        f.parameters + ColumnsParameters(defs, d.columns, parent, true),
        f.filters + ColumnsFilters(defs, d.columns, parent, true, AliasOf(sp, child)),
        f.keywordFilters + [ChildClause(defs.keywordFilterCriteria, sp, parent, child)],
        f.childFroms + [ChildClause(defs.childFromClause, sp, parent, child)],
        f.childSelects + [ChildClause(defs.childSelectClause, sp, parent, child)]))
  }

  /** The child tables' shares added to `init`, child after child; the first failure ends it. */
  function ChildrenShares(defs: Definitions, sp: SpCustom.SpTable, tables: Tables, parent: string,
                          init: Fragments, children: seq<string>): Result<Fragments, ViewError>
  {
    if children == [] then Success(init)
    else
      match ChildrenShares(defs, sp, tables, parent, init, children[..|children| - 1])
      case Failure(e) => Failure(e)
      case Success(f) => ChildShare(defs, sp, tables, parent, f, children[|children| - 1])
  }

  /**
   * The lists of an allow-listed table: custom parameters first (their filters in
   * reverse order), then the parent's columns, then each child's clauses and columns.
   */
  function FragmentsOf(defs: Definitions, sp: SpCustom.SpTable, tables: Tables, tableName: string, tableData: TableData): Result<Fragments, ViewError>
  {
    var init := Fragments(
      SpList.CustomParameterLines(defs.parameter, sp.customParameters)
        + ColumnsParameters(defs, tableData.columns, tableName, false),
      SpList.CustomFilterLines(sp.customParameters)
        + ColumnsFilters(defs, tableData.columns, tableName, false, AliasOf(sp, tableName)),
      [], [], []);
    ChildrenShares(defs, sp, tables, tableName, init, sp.childTables)
  }

  /** The keys of the shared replacements object before the first call, and after any call. */
  const InitialKeys := ["Parameters", "FilterCriterias", "entityName", "KeywordFilterCriterias", "PreExecutionStatements"]
  const AllKeys := InitialKeys + ["ChildEntitySelectClause", "ChildEntityFromClause", "entityAlias"]

  /** The shared replacements after a successful call, whichever call it is. */
  function ViewReplacements(sp: SpCustom.SpTable, tableName: string, f: Fragments): (r: Entries<string>)
    ensures Keys(r) == AllKeys
  {
    [("Parameters", Join(f.parameters, "\n")),
     ("FilterCriterias", Join(f.filters, "\n")),
     ("entityName", tableName),
     ("KeywordFilterCriterias", Join(f.keywordFilters, "\n")),
     ("PreExecutionStatements", sp.precondition.GetOr("")),
     ("ChildEntitySelectClause", Join(f.childSelects, "\n")),
     ("ChildEntityFromClause", Join(f.childFroms, "\n")),
     ("entityAlias", AliasOf(sp, tableName))]
  }

  /** What `getStoredProcedureContent` returns: `None` (undefined) outside the allow list. */
  function ViewContent(template: string, defs: Definitions, spConfig: map<string, SpCustom.SpTable>,
                       tables: Tables, tableName: string, tableData: TableData): Result<Option<string>, ViewError>
  {
    if tableName !in AllowList then Success(None)
    else if tableName !in spConfig then Failure(MissingConfig(tableName))
    else
      var sp := spConfig[tableName];
      match FragmentsOf(defs, sp, tables, tableName, tableData)
      case Failure(e) => Failure(e)
      case Success(f) => Success(Some(Filled(template, ViewReplacements(sp, tableName, f), true)))
  }

  /** The scripts kept by the walk: an undefined or empty script is dropped; an error ends the run. */
  function ViewScripts(template: string, defs: Definitions, spConfig: map<string, SpCustom.SpTable>,
                       tables: Tables, names: seq<string>): Result<seq<string>, ViewError>
    requires forall i :: 0 <= i < |names| ==> names[i] in Keys(tables)
  {
    if names == [] then Success([])
    else
      var t := names[|names| - 1];
      match ViewScripts(template, defs, spConfig, tables, names[..|names| - 1])
      case Failure(e) => Failure(e)
      case Success(scripts) =>
        match ViewContent(template, defs, spConfig, tables, t, Get(tables, t).value)
        case Failure(e) => Failure(e)
        case Success(content) =>
          if content.None? || content.value == "" then Success(scripts) else Success(scripts + [content.value])
  }

  /**
   * The shared replacements after the walk over `names`, started from `e`: those of the
   * last table whose script was made. A table outside the allow list, or one whose call
   * fails, leaves them as they were, and no table after a failure is reached.
   */
  function ReplacementsAfter(template: string, defs: Definitions, spConfig: map<string, SpCustom.SpTable>,
                             tables: Tables, names: seq<string>, e: Entries<string>): Entries<string>
    requires forall i :: 0 <= i < |names| ==> names[i] in Keys(tables)
  {
    if names == [] then e
    else
      var t := names[|names| - 1];
      var before := ReplacementsAfter(template, defs, spConfig, tables, names[..|names| - 1], e);
      if ViewScripts(template, defs, spConfig, tables, names[..|names| - 1]).Failure? then before
      else if t !in AllowList || t !in spConfig then before
      else
        match FragmentsOf(defs, spConfig[t], tables, t, Get(tables, t).value)
        case Failure(_) => before
        case Success(f) => ViewReplacements(spConfig[t], t, f)
  }

  /** A table outside the allow list adds nothing to the output. */
  lemma OthersLeftOut(template: string, defs: Definitions, spConfig: map<string, SpCustom.SpTable>,
                      tables: Tables, names: seq<string>, t: string)
    requires forall i :: 0 <= i < |names| ==> names[i] in Keys(tables)
    requires t in Keys(tables) && t !in AllowList
    ensures ViewScripts(template, defs, spConfig, tables, names + [t]) == ViewScripts(template, defs, spConfig, tables, names)
  {
    assert (names + [t])[..|names|] == names;
  }

  /** Every allow-listed table has a configuration, so the real configuration never hits `MissingConfig`. */
  lemma AllowListConfigured(texts: SpCustom.FilterTexts)
    ensures forall i :: 0 <= i < |AllowList| ==> AllowList[i] in SpCustom.SpConfig(texts)
  {
  }

  /** The number of parameter lines a column adds, independent of the lines already there. */
  function ParameterCount(c: Column, parent: string, isChild: bool): nat {
    if IsSkipped(c, parent, isChild) then 0
    else if !IsKeyColumn(c.name) && IsDateTime(c.dataTypeDotNet) then 2
    else 1
  }

  function ParameterCounts(columns: seq<Column>, parent: string, isChild: bool): nat {
    if columns == [] then 0
    else ParameterCounts(columns[..|columns| - 1], parent, isChild) + ParameterCount(columns[|columns| - 1], parent, isChild)
  }

  /** No duplicate check: each column adds its lines whatever is already in the list. */
  lemma {:induction false} ParametersNotDeduplicated(defs: Definitions, columns: seq<Column>, parent: string, isChild: bool)
    ensures |ColumnsParameters(defs, columns, parent, isChild)| == ParameterCounts(columns, parent, isChild)
    decreases |columns|
  {
    if columns != [] {
      ParametersNotDeduplicated(defs, columns[..|columns| - 1], parent, isChild);
    }
  }

  /**
   * What one more column adds: nothing for a skipped column; for a key column a
   * `VARCHAR(MAX)` parameter and a list filter with the alias of its own table; for a date
   * column `_From` and `_To` parameters and a date-range filter; otherwise a parameter and a
   * plain filter.
   */
  lemma ColumnContribution(defs: Definitions, columns: seq<Column>, c: Column, parent: string, isChild: bool, alias: string)
    ensures var ps := ColumnsParameters(defs, columns + [c], parent, isChild);
      var fs := ColumnsFilters(defs, columns + [c], parent, isChild, alias);
      var ps0 := ColumnsParameters(defs, columns, parent, isChild);
      var fs0 := ColumnsFilters(defs, columns, parent, isChild, alias);
      var dataType := ToUpper(c.dataTypeSqlWithLength);
      && (IsSkipped(c, parent, isChild) ==> ps == ps0 && fs == fs0)
      && (!IsSkipped(c, parent, isChild) && IsKeyColumn(c.name) ==>
            ps == ps0 + [SpList.ParameterLine(defs.parameter, c.name, "VARCHAR(MAX)")]
            && fs == fs0 + [FilterLine(defs.filterCriteriaList, c.name, alias)])
      && (!IsSkipped(c, parent, isChild) && !IsKeyColumn(c.name) && IsDateTime(c.dataTypeDotNet) ==>
            ps == ps0 + [SpList.ParameterLine(defs.parameter, c.name + "_From", dataType),
                         SpList.ParameterLine(defs.parameter, c.name + "_To", dataType)]
            && fs == fs0 + [FilterLine(defs.filterCriteriaDateRange, c.name, alias)])
      && (!IsSkipped(c, parent, isChild) && !IsKeyColumn(c.name) && !IsDateTime(c.dataTypeDotNet) ==>
            ps == ps0 + [SpList.ParameterLine(defs.parameter, c.name, dataType)]
            && fs == fs0 + [FilterLine(defs.filterCriteria, c.name, alias)])
  {
    assert (columns + [c])[..|columns|] == columns;
  }

  /** In a child table the parent key, `ID` and `UID` are skipped; audit columns everywhere. */
  lemma SkippedColumns(c: Column, parent: string, isChild: bool)
    ensures SpList.IsAuditColumn(c.name) ==> IsSkipped(c, parent, isChild)
    ensures isChild && (c.name == "ID" || c.name == "UID") ==> IsSkipped(c, parent, isChild)
    ensures isChild && c.name == parent + "_ID" ==> IsSkipped(c, parent, isChild)
    ensures !isChild && !SpList.IsAuditColumn(c.name) ==> !IsSkipped(c, parent, isChild)
  {
    if isChild && c.name == parent + "_ID" {
      assert StartsWith(c.name[|parent|..], "_ID");
      ContainsAt(c.name, |parent|, "_ID");
    }
  }

  /** `processColumn`: one column's parameter and filter lines appended to the two lists. */
  method ProcessColumn(defs: Definitions, c: Column, parent: string, isChild: bool, alias: string,
                       parameters: seq<string>, filters: seq<string>)
    returns (parameters': seq<string>, filters': seq<string>)
    ensures parameters' == parameters + ColumnParameters(defs, c, parent, isChild)
    ensures filters' == filters + ColumnFilter(defs, c, parent, isChild, alias)
  {
    parameters', filters' := parameters, filters;
    var dataType := ToUpper(c.dataTypeSqlWithLength);
    if SpList.IsAuditColumn(c.name) {
      return;
    }
    if Contains(c.name, "_ID") || c.name == "ID" || c.name == "UID" {
      if isChild && (c.name == parent + "_ID" || c.name == "ID" || c.name == "UID") {
        return;
      }
      parameters' := parameters' + [SpList.ParameterLine(defs.parameter, c.name, "VARCHAR(MAX)")];
      filters' := filters' + [FilterLine(defs.filterCriteriaList, c.name, alias)];
    } else if c.dataTypeDotNet == "DateTime" || c.dataTypeDotNet == "DateTime?" {
      parameters' := parameters' + [SpList.ParameterLine(defs.parameter, c.name + "_From", dataType)];
      parameters' := parameters' + [SpList.ParameterLine(defs.parameter, c.name + "_To", dataType)];
      filters' := filters' + [FilterLine(defs.filterCriteriaDateRange, c.name, alias)];
    } else {
      parameters' := parameters' + [SpList.ParameterLine(defs.parameter, c.name, dataType)];
      filters' := filters' + [FilterLine(defs.filterCriteria, c.name, alias)];
    }
  }

  /** `columns.forEach(processColumn)`: the columns' lines appended in column order. */
  method ProcessColumns(defs: Definitions, columns: seq<Column>, parent: string, isChild: bool, alias: string,
                        parameters: seq<string>, filters: seq<string>)
    returns (parameters': seq<string>, filters': seq<string>)
    ensures parameters' == parameters + ColumnsParameters(defs, columns, parent, isChild)
    ensures filters' == filters + ColumnsFilters(defs, columns, parent, isChild, alias)
  {
    parameters', filters' := parameters, filters;
    for i := 0 to |columns|
      invariant parameters' == parameters + ColumnsParameters(defs, columns[..i], parent, isChild)
      invariant filters' == filters + ColumnsFilters(defs, columns[..i], parent, isChild, alias)
    {
      ColumnsStep(defs, columns, parent, isChild, alias, i);
      AppendAssoc(parameters, ColumnsParameters(defs, columns[..i], parent, isChild), ColumnParameters(defs, columns[i], parent, isChild));
      AppendAssoc(filters, ColumnsFilters(defs, columns[..i], parent, isChild, alias), ColumnFilter(defs, columns[i], parent, isChild, alias));
      parameters', filters' := ProcessColumn(defs, columns[i], parent, isChild, alias, parameters', filters');
    }
    assert columns[..|columns|] == columns;
  }

  /** The folds over one more column add that column's lines. */
  lemma ColumnsStep(defs: Definitions, columns: seq<Column>, parent: string, isChild: bool, alias: string, k: nat)
    requires k < |columns|
    ensures ColumnsParameters(defs, columns[..k + 1], parent, isChild)
      == ColumnsParameters(defs, columns[..k], parent, isChild) + ColumnParameters(defs, columns[k], parent, isChild)
    ensures ColumnsFilters(defs, columns[..k + 1], parent, isChild, alias)
      == ColumnsFilters(defs, columns[..k], parent, isChild, alias) + ColumnFilter(defs, columns[k], parent, isChild, alias)
  {
    assert columns[..k + 1][..k] == columns[..k];
  }

  /** The clauses of one child table, in the order the source pushes them. */
  function ChildClause(template: string, sp: SpCustom.SpTable, parent: string, child: string): string {
    Filled(template, ChildReplacements(sp, parent, child), true)
  }

  /**
   * `spCustom.childTables.forEach`: per child one FROM, one SELECT and one keyword
   * clause, then the child's columns; the first child missing from `tables` throws.
   */
  method ProcessChildren(defs: Definitions, sp: SpCustom.SpTable, tables: Tables, tableName: string, init: Fragments)
    returns (r: Result<Fragments, ViewError>)
    ensures r == ChildrenShares(defs, sp, tables, tableName, init, sp.childTables)
  {
    var f := init;
    var children := sp.childTables;
    for j := 0 to |children|
      invariant ChildrenShares(defs, sp, tables, tableName, init, children[..j]) == Success(f)
    {
      assert children[..j + 1][..j] == children[..j];
      var next := ProcessChild(defs, sp, tables, tableName, f, children[j]);
      if next.Failure? {
        FailureStaysShares(defs, sp, tables, tableName, init, children, j + 1);
        return next;
      }
      f := next.value;
    }
    assert children[..|children|] == children;
    r := Success(f);
  }

  /** One child of the `forEach`: its three clauses, then its columns with its own alias. */
  method ProcessChild(defs: Definitions, sp: SpCustom.SpTable, tables: Tables, parent: string, f: Fragments, child: string)
    returns (r: Result<Fragments, ViewError>)
    ensures r == ChildShare(defs, sp, tables, parent, f, child)
  {
    var froms := f.childFroms + [ChildClause(defs.childFromClause, sp, parent, child)];
    var selects := f.childSelects + [ChildClause(defs.childSelectClause, sp, parent, child)];
    var keywords := f.keywordFilters + [ChildClause(defs.keywordFilterCriteria, sp, parent, child)];
    var childData := Get(tables, child);
    if childData.None? {
      return Failure(MissingTable(child));
    }
    var parameters, filters := ProcessColumns(defs, childData.value.columns, parent, true, AliasOf(sp, child),
                                              f.parameters, f.filters);
    r := Success(Fragments(parameters, filters, keywords, froms, selects));
  }

  /** Once a child has failed, the children after it change nothing. */
  lemma {:induction false} FailureStaysShares(defs: Definitions, sp: SpCustom.SpTable, tables: Tables, parent: string,
                                              init: Fragments, children: seq<string>, j: nat)
    requires j <= |children|
    requires ChildrenShares(defs, sp, tables, parent, init, children[..j]).Failure?
    ensures ChildrenShares(defs, sp, tables, parent, init, children) == ChildrenShares(defs, sp, tables, parent, init, children[..j])
    decreases |children|
  {
    if j < |children| {
      var front := children[..|children| - 1];
      assert front[..j] == children[..j];
      FailureStaysShares(defs, sp, tables, parent, init, front, j);
    } else {
      assert children[..j] == children;
    }
  }

  /** The children's clauses follow `childTables` order. */
  lemma {:induction false} ChildrenSharesClauses(defs: Definitions, sp: SpCustom.SpTable, tables: Tables, parent: string,
                                                 init: Fragments, children: seq<string>)
    ensures var r := ChildrenShares(defs, sp, tables, parent, init, children);
      r.Success? ==>
        && r.value.childFroms == init.childFroms + ChildClauses(defs.childFromClause, sp, parent, children)
        && r.value.childSelects == init.childSelects + ChildClauses(defs.childSelectClause, sp, parent, children)
        && r.value.keywordFilters == init.keywordFilters + ChildClauses(defs.keywordFilterCriteria, sp, parent, children)
    decreases |children|
  {
    if children != [] {
      var front, c := children[..|children| - 1], children[|children| - 1];
      ChildrenSharesClauses(defs, sp, tables, parent, init, front);
      var r := ChildrenShares(defs, sp, tables, parent, init, children);
      if r.Success? {
        ChildrenSharesLast(defs, sp, tables, parent, init, children);
        AppendLast(init.childFroms, ChildClauses(defs.childFromClause, sp, parent, front), ChildClause(defs.childFromClause, sp, parent, c));
        AppendLast(init.childSelects, ChildClauses(defs.childSelectClause, sp, parent, front), ChildClause(defs.childSelectClause, sp, parent, c));
        AppendLast(init.keywordFilters, ChildClauses(defs.keywordFilterCriteria, sp, parent, front), ChildClause(defs.keywordFilterCriteria, sp, parent, c));
      }
    }
  }

  /** The lines already in the parameter and filter lists stay first. */
  lemma {:induction false} ChildrenSharesKeepPrefix(defs: Definitions, sp: SpCustom.SpTable, tables: Tables, parent: string,
                                                    init: Fragments, children: seq<string>)
    ensures var r := ChildrenShares(defs, sp, tables, parent, init, children);
      r.Success? ==> init.parameters <= r.value.parameters && init.filters <= r.value.filters
    decreases |children|
  {
    if children != [] {
      var front := children[..|children| - 1];
      ChildrenSharesKeepPrefix(defs, sp, tables, parent, init, front);
      var r := ChildrenShares(defs, sp, tables, parent, init, children);
      if r.Success? {
        var f := ChildrenShares(defs, sp, tables, parent, init, front).value;
        var d := Get(tables, children[|children| - 1]).value;
        var ps := ColumnsParameters(defs, d.columns, parent, true);
        var fs := ColumnsFilters(defs, d.columns, parent, true, AliasOf(sp, children[|children| - 1]));
        assert r.value.parameters == f.parameters + ps;
        assert r.value.filters == f.filters + fs;
        PrefixAppend(init.parameters, f.parameters, ps);
        PrefixAppend(init.filters, f.filters, fs);
      }
    }
  }

  lemma PrefixAppend(a: seq<string>, b: seq<string>, c: seq<string>)
    requires a <= b
    ensures a <= b + c
  {
    assert (b + c)[..|b|] == b;
  }

  /** One more child: a failure stays, otherwise the walk fails exactly when that child is missing. */
  lemma ChildrenSharesLast(defs: Definitions, sp: SpCustom.SpTable, tables: Tables, parent: string,
                           init: Fragments, children: seq<string>)
    requires children != []
    ensures var f := ChildrenShares(defs, sp, tables, parent, init, children[..|children| - 1]);
      var r := ChildrenShares(defs, sp, tables, parent, init, children);
      && (f.Failure? ==> r == f)
      && (f.Success? ==> (r.Failure? <==> children[|children| - 1] !in Keys(tables)))
      && (f.Success? && r.Failure? ==> r.error == MissingTable(children[|children| - 1]))
  {
  }

  /** The walk fails exactly when a child is missing from `tables`. */
  lemma {:induction false} ChildrenSharesFail(defs: Definitions, sp: SpCustom.SpTable, tables: Tables, parent: string,
                                              init: Fragments, children: seq<string>)
    ensures ChildrenShares(defs, sp, tables, parent, init, children).Failure?
      <==> exists i :: 0 <= i < |children| && children[i] !in Keys(tables)
    decreases |children|
  {
    if children != [] {
      var front := children[..|children| - 1];
      ChildrenSharesFail(defs, sp, tables, parent, init, front);
      ChildrenSharesLast(defs, sp, tables, parent, init, children);
      SomeMissingSplit(children, Keys(tables));
    }
  }

  /** Some element is missing from `keys` exactly when one of the front is, or the last one is. */
  lemma SomeMissingSplit(children: seq<string>, keys: seq<string>)
    requires children != []
    ensures var front := children[..|children| - 1];
      (exists i :: 0 <= i < |children| && children[i] !in keys)
      <==> (exists i :: 0 <= i < |front| && front[i] !in keys) || children[|children| - 1] !in keys
  {
    var front := children[..|children| - 1];
    if exists i :: 0 <= i < |front| && front[i] !in keys {
      var i :| 0 <= i < |front| && front[i] !in keys;
      assert children[i] == front[i];
    }
    if exists i :: 0 <= i < |children| && children[i] !in keys {
      var i :| 0 <= i < |children| && children[i] !in keys;
      if i < |front| {
        assert front[i] == children[i];
      }
    }
  }

  /** A failed walk names the first child missing from `tables`. */
  lemma {:induction false} ChildrenSharesFirstMissing(defs: Definitions, sp: SpCustom.SpTable, tables: Tables, parent: string,
                                                      init: Fragments, children: seq<string>)
    ensures var r := ChildrenShares(defs, sp, tables, parent, init, children);
      r.Failure? ==>
        exists k :: 0 <= k < |children| && r.error == MissingTable(children[k])
          && children[k] !in Keys(tables) && forall i :: 0 <= i < k ==> children[i] in Keys(tables)
    decreases |children|
  {
    if children != [] {
      var front := children[..|children| - 1];
      ChildrenSharesFirstMissing(defs, sp, tables, parent, init, front);
      ChildrenSharesFail(defs, sp, tables, parent, init, front);
      ChildrenSharesLast(defs, sp, tables, parent, init, children);
      var r := ChildrenShares(defs, sp, tables, parent, init, children);
      if ChildrenShares(defs, sp, tables, parent, init, front).Failure? {
        var k :| 0 <= k < |front| && r.error == MissingTable(front[k])
          && front[k] !in Keys(tables) && forall i :: 0 <= i < k ==> front[i] in Keys(tables);
        assert children[k] == front[k];
        assert forall i :: 0 <= i < k ==> children[i] == front[i];
      } else if r.Failure? {
        assert forall i :: 0 <= i < |children| - 1 ==> children[i] == front[i];
      }
    }
  }


  /** The lists of one allow-listed table, built as the source's loops build them. */
  method BuildFragments(defs: Definitions, sp: SpCustom.SpTable, tables: Tables, tableName: string, tableData: TableData)
    returns (r: Result<Fragments, ViewError>)
    ensures r == FragmentsOf(defs, sp, tables, tableName, tableData)
  {
    var parameters, filters := SpList.CustomFragments(defs.parameter, sp.customParameters);
    parameters, filters := ProcessColumns(defs, tableData.columns, tableName, false, AliasOf(sp, tableName), parameters, filters);
    r := ProcessChildren(defs, sp, tables, tableName, Fragments(parameters, filters, [], [], []));
  }

  /** The view template module: constant text and a replacements object shared by every call. */
  class ViewTemplate {
    const template: string
    const definitions: Definitions
    var replacements: Entries<string>

    ghost predicate Valid()
      reads this
    {
      Keys(replacements) == InitialKeys || Keys(replacements) == AllKeys
    }

    constructor (template: string, definitions: Definitions)
      ensures this.template == template && this.definitions == definitions
      ensures replacements == [("Parameters", ""), ("FilterCriterias", ""), ("entityName", ""),
                               ("KeywordFilterCriterias", ""), ("PreExecutionStatements", "")]
      ensures Valid()
    {
      this.template := template;
      this.definitions := definitions;
      replacements := [("Parameters", ""), ("FilterCriterias", ""), ("entityName", ""),
                       ("KeywordFilterCriterias", ""), ("PreExecutionStatements", "")];
    }

    /**
     * `getStoredProcedureContent`: after a script is made the shared replacements hold
     * exactly this table's values, so no earlier call shows through; otherwise they are
     * untouched.
     */
    method GetStoredProcedureContent(tableName: string, tableData: TableData, tables: Tables,
                                     spConfig: map<string, SpCustom.SpTable>)
      returns (r: Result<Option<string>, ViewError>)
      requires Valid()
      modifies this
      ensures Valid()
      ensures r == ViewContent(template, definitions, spConfig, tables, tableName, tableData)
      ensures r.Success? && r.value.Some? ==>
        replacements == ViewReplacements(spConfig[tableName], tableName,
                                         FragmentsOf(definitions, spConfig[tableName], tables, tableName, tableData).value)
      ensures !(r.Success? && r.value.Some?) ==> replacements == old(replacements)
    {
      if tableName !in AllowList {
        return Success(None);
      }
      if tableName !in spConfig {
        return Failure(MissingConfig(tableName));
      }
      var sp := spConfig[tableName];
      var fragments := BuildFragments(definitions, sp, tables, tableName, tableData);
      if fragments.Failure? {
        return Failure(fragments.error);
      }
      var f := fragments.value;
      var e := Put(replacements, "PreExecutionStatements", sp.precondition.GetOr(""));
      e := Put(e, "Parameters", Join(f.parameters, "\n"));
      e := Put(e, "FilterCriterias", Join(f.filters, "\n"));
      e := Put(e, "KeywordFilterCriterias", Join(f.keywordFilters, "\n"));
      e := Put(e, "ChildEntitySelectClause", Join(f.childSelects, "\n"));
      e := Put(e, "ChildEntityFromClause", Join(f.childFroms, "\n"));
      e := Put(e, "entityName", tableName);
      e := Put(e, "entityAlias", AliasOf(sp, tableName));
      AssignmentsGiveViewReplacements(replacements, sp, tableName, f);
      replacements := e;
      var script := FillTemplate(template, replacements, true);
      r := Success(Some(script));
    }

    /**
     * The whole output file: the kept scripts joined by a blank line, or the first error.
     * The shared replacements are left holding the values of the last table whose script
     * was made before the walk ended, or as they were when there is none.
     */
    method Generate(tables: Tables, included: seq<string>, excluded: seq<string>, spConfig: map<string, SpCustom.SpTable>)
      returns (fileContent: Result<string, ViewError>)
      requires Valid()
      modifies this
      ensures Valid()
      ensures fileContent == (
        match ViewScripts(template, definitions, spConfig, tables, SelectedTables(Keys(tables), included, excluded))
        case Failure(e) => Failure(e)
        case Success(scripts) => Success(Join(scripts, "\n\n")))
      ensures replacements == ReplacementsAfter(template, definitions, spConfig, tables,
                                                SelectedTables(Keys(tables), included, excluded), old(replacements))
    {
      var names := WalkthroughTableData(Keys(tables), included, excluded);
      assert forall j :: 0 <= j < |names| ==> names[j] in Keys(tables);
      var scripts: seq<string> := [];
      for i := 0 to |names|
        invariant Valid()
        invariant ViewScripts(template, definitions, spConfig, tables, names[..i]) == Success(scripts)
        invariant replacements == ReplacementsAfter(template, definitions, spConfig, tables, names[..i], old(replacements))
      {
        ViewScriptsStep(template, definitions, spConfig, tables, names, i);
        ReplacementsAfterStep(template, definitions, spConfig, tables, names, i, old(replacements));
        var scriptContent := GetStoredProcedureContent(names[i], Get(tables, names[i]).value, tables, spConfig);
        if scriptContent.Failure? {
          FailureStays(template, definitions, spConfig, tables, names, i + 1);
          ReplacementsAfterFailureStays(template, definitions, spConfig, tables, names, i + 1, old(replacements));
          assert names[..|names|] == names;
          return Failure(scriptContent.error);
        }
        if scriptContent.value.None? || scriptContent.value.value == "" {
          continue;
        }
        scripts := scripts + [scriptContent.value.value];
      }
      assert names[..|names|] == names;
      fileContent := Success(Join(scripts, "\n\n"));
    }
  }

  /** The walk over one more table: the earlier outcome, then that table's script. */
  lemma ViewScriptsStep(template: string, defs: Definitions, spConfig: map<string, SpCustom.SpTable>,
                        tables: Tables, names: seq<string>, k: nat)
    requires forall i :: 0 <= i < |names| ==> names[i] in Keys(tables)
    requires k < |names|
    ensures ViewScripts(template, defs, spConfig, tables, names[..k + 1]) ==
      match ViewScripts(template, defs, spConfig, tables, names[..k])
      case Failure(e) => Failure(e)
      case Success(scripts) =>
        match ViewContent(template, defs, spConfig, tables, names[k], Get(tables, names[k]).value)
        case Failure(e) => Failure(e)
        case Success(content) =>
          if content.None? || content.value == "" then Success(scripts) else Success(scripts + [content.value])
  {
    assert names[..k + 1][..k] == names[..k];
  }

  /** The replacements after one more table, as `ReplacementsAfter` extends them. */
  lemma ReplacementsAfterStep(template: string, defs: Definitions, spConfig: map<string, SpCustom.SpTable>,
                              tables: Tables, names: seq<string>, k: nat, e: Entries<string>)
    requires forall i :: 0 <= i < |names| ==> names[i] in Keys(tables)
    requires k < |names|
    ensures var before := ReplacementsAfter(template, defs, spConfig, tables, names[..k], e);
      ReplacementsAfter(template, defs, spConfig, tables, names[..k + 1], e) ==
        if ViewScripts(template, defs, spConfig, tables, names[..k]).Failure? then before
        else if names[k] !in AllowList || names[k] !in spConfig then before
        else
          match FragmentsOf(defs, spConfig[names[k]], tables, names[k], Get(tables, names[k]).value)
          case Failure(_) => before
          case Success(f) => ViewReplacements(spConfig[names[k]], names[k], f)
  {
    assert names[..k + 1][..k] == names[..k];
  }

  /** Once the walk has failed, later tables do not change the shared replacements. */
  lemma {:induction false} ReplacementsAfterFailureStays(template: string, defs: Definitions, spConfig: map<string, SpCustom.SpTable>,
                                                         tables: Tables, names: seq<string>, i: nat, e: Entries<string>)
    requires forall k :: 0 <= k < |names| ==> names[k] in Keys(tables)
    requires i <= |names|
    requires ViewScripts(template, defs, spConfig, tables, names[..i]).Failure?
    ensures ReplacementsAfter(template, defs, spConfig, tables, names, e)
         == ReplacementsAfter(template, defs, spConfig, tables, names[..i], e)
    decreases |names| - i
  {
    if i < |names| {
      assert names[..i + 1][..i] == names[..i];
      FailureStays(template, defs, spConfig, tables, names[..i + 1], i);
      ReplacementsAfterFailureStays(template, defs, spConfig, tables, names, i + 1, e);
    } else {
      assert names[..i] == names;
    }
  }

  /** Once the walk has failed, later tables do not change the outcome. */
  lemma {:induction false} FailureStays(template: string, defs: Definitions, spConfig: map<string, SpCustom.SpTable>,
                                        tables: Tables, names: seq<string>, i: nat)
    requires forall k :: 0 <= k < |names| ==> names[k] in Keys(tables)
    requires i <= |names|
    requires ViewScripts(template, defs, spConfig, tables, names[..i]).Failure?
    ensures ViewScripts(template, defs, spConfig, tables, names)
         == ViewScripts(template, defs, spConfig, tables, names[..i])
    decreases |names| - i
  {
    if i < |names| {
      assert names[..i + 1][..i] == names[..i];
      FailureStays(template, defs, spConfig, tables, names, i + 1);
    } else {
      assert names[..i] == names;
    }
  }

  /**
   * The eight assignments in the source's order turn either valid replacements object
   * into the same list: the key order set by the first call is kept by every later one.
   */
  lemma AssignmentsGiveViewReplacements(e: Entries<string>, sp: SpCustom.SpTable, tableName: string, f: Fragments)
    requires Keys(e) == InitialKeys || Keys(e) == AllKeys
    ensures
      var e1 := Put(e, "PreExecutionStatements", sp.precondition.GetOr(""));
      var e2 := Put(e1, "Parameters", Join(f.parameters, "\n"));
      var e3 := Put(e2, "FilterCriterias", Join(f.filters, "\n"));
      var e4 := Put(e3, "KeywordFilterCriterias", Join(f.keywordFilters, "\n"));
      var e5 := Put(e4, "ChildEntitySelectClause", Join(f.childSelects, "\n"));
      var e6 := Put(e5, "ChildEntityFromClause", Join(f.childFroms, "\n"));
      var e7 := Put(e6, "entityName", tableName);
      Put(e7, "entityAlias", AliasOf(sp, tableName)) == ViewReplacements(sp, tableName, f)
  {
    var e4 := Put(Put(Put(Put(e, "PreExecutionStatements", sp.precondition.GetOr("")),
                          "Parameters", Join(f.parameters, "\n")),
                      "FilterCriterias", Join(f.filters, "\n")),
                  "KeywordFilterCriterias", Join(f.keywordFilters, "\n"));
    FirstFourAssignments(e, sp, f);
    LastFourAssignments(e4, sp, tableName, f);
  }

  /** The first four assignments rewrite four of the five initial keys in place. */
  lemma FirstFourAssignments(e: Entries<string>, sp: SpCustom.SpTable, f: Fragments)
    requires Keys(e) == InitialKeys || Keys(e) == AllKeys
    ensures
      var e4 := Put(Put(Put(Put(e, "PreExecutionStatements", sp.precondition.GetOr("")),
                            "Parameters", Join(f.parameters, "\n")),
                        "FilterCriterias", Join(f.filters, "\n")),
                    "KeywordFilterCriterias", Join(f.keywordFilters, "\n"));
      && Keys(e4) == Keys(e)
      && e4[0].1 == Join(f.parameters, "\n") && e4[1].1 == Join(f.filters, "\n")
      && e4[3].1 == Join(f.keywordFilters, "\n") && e4[4].1 == sp.precondition.GetOr("")
  {
    var ks := Keys(e);
    var v4, v0, v1, v3 := sp.precondition.GetOr(""), Join(f.parameters, "\n"), Join(f.filters, "\n"), Join(f.keywordFilters, "\n");
    FirstTwoAssignments(e, v4, v0);
    var e2 := Put(Put(e, "PreExecutionStatements", v4), "Parameters", v0);
    NextTwoAssignments(e2, v1, v3);
  }

  /** The next two assignments rewrite the second and the fourth initial key in place. */
  lemma NextTwoAssignments(e: Entries<string>, filters: string, keywordFilters: string)
    requires Keys(e) == InitialKeys || Keys(e) == AllKeys
    ensures var e4 := Put(Put(e, "FilterCriterias", filters), "KeywordFilterCriterias", keywordFilters);
      Keys(e4) == Keys(e) && e4[1].1 == filters && e4[3].1 == keywordFilters && e4[0] == e[0] && e4[4] == e[4]
  {
    var ks := Keys(e);
    var e3 := Put(e, "FilterCriterias", filters);
    PutKeyed(e, ks, 1, filters);
    PutKeyed(e3, ks, 3, keywordFilters);
  }

  /** The first two assignments rewrite the last and the first initial key in place. */
  lemma FirstTwoAssignments(e: Entries<string>, precondition: string, parameters: string)
    requires Keys(e) == InitialKeys || Keys(e) == AllKeys
    ensures var e2 := Put(Put(e, "PreExecutionStatements", precondition), "Parameters", parameters);
      Keys(e2) == Keys(e) && e2[0].1 == parameters && e2[4].1 == precondition
  {
    var ks := Keys(e);
    var e1 := Put(e, "PreExecutionStatements", precondition);
    PutKeyed(e, ks, 4, precondition);
    PutKeyed(e1, ks, 0, parameters);
  }

  /** The last four assignments add the three child-era keys on the first call only. */
  lemma LastFourAssignments(e4: Entries<string>, sp: SpCustom.SpTable, tableName: string, f: Fragments)
    requires Keys(e4) == InitialKeys || Keys(e4) == AllKeys
    requires e4[0].1 == Join(f.parameters, "\n") && e4[1].1 == Join(f.filters, "\n")
    requires e4[3].1 == Join(f.keywordFilters, "\n") && e4[4].1 == sp.precondition.GetOr("")
    ensures
      var e5 := Put(e4, "ChildEntitySelectClause", Join(f.childSelects, "\n"));
      var e6 := Put(e5, "ChildEntityFromClause", Join(f.childFroms, "\n"));
      var e7 := Put(e6, "entityName", tableName);
      Put(e7, "entityAlias", AliasOf(sp, tableName)) == ViewReplacements(sp, tableName, f)
  {
    if Keys(e4) == InitialKeys {
      LastFourFirstCall(e4, sp, tableName, f);
    } else {
      LastFourLaterCall(e4, sp, tableName, f);
    }
  }

  /** On the first call the three keys are new and go last, in assignment order. */
  lemma LastFourFirstCall(e4: Entries<string>, sp: SpCustom.SpTable, tableName: string, f: Fragments)
    requires Keys(e4) == InitialKeys
    requires e4[0].1 == Join(f.parameters, "\n") && e4[1].1 == Join(f.filters, "\n")
    requires e4[3].1 == Join(f.keywordFilters, "\n") && e4[4].1 == sp.precondition.GetOr("")
    ensures
      var e5 := Put(e4, "ChildEntitySelectClause", Join(f.childSelects, "\n"));
      var e6 := Put(e5, "ChildEntityFromClause", Join(f.childFroms, "\n"));
      var e7 := Put(e6, "entityName", tableName);
      Put(e7, "entityAlias", AliasOf(sp, tableName)) == ViewReplacements(sp, tableName, f)
  {
    var e6 := e4 + [("ChildEntitySelectClause", Join(f.childSelects, "\n")), ("ChildEntityFromClause", Join(f.childFroms, "\n"))];
    TwoNewKeys(e4, Join(f.childSelects, "\n"), Join(f.childFroms, "\n"));
    NameAndAliasAfterNewKeys(e6, tableName, AliasOf(sp, tableName));
    var e8 := e6[2 := ("entityName", tableName)] + [("entityAlias", AliasOf(sp, tableName))];
    var v := ViewReplacements(sp, tableName, f);
    assert |e8| == |v| == 8;
    assert forall i :: 0 <= i < 8 ==> e8[i] == v[i];
  }

  lemma TwoNewKeys(e4: Entries<string>, selects: string, froms: string)
    requires Keys(e4) == InitialKeys
    ensures Put(Put(e4, "ChildEntitySelectClause", selects), "ChildEntityFromClause", froms)
         == e4 + [("ChildEntitySelectClause", selects), ("ChildEntityFromClause", froms)]
  {
    PutNewKeyed(e4, InitialKeys, "ChildEntitySelectClause", selects);
    assert "ChildEntityFromClause" !in InitialKeys + ["ChildEntitySelectClause"];
    PutNewKeyed(e4 + [("ChildEntitySelectClause", selects)], InitialKeys + ["ChildEntitySelectClause"], "ChildEntityFromClause", froms);
  }

  lemma NameAndAliasAfterNewKeys(e6: Entries<string>, tableName: string, alias: string)
    requires |e6| == 7 && Keys(e6[..5]) == InitialKeys
    requires e6[5].0 == "ChildEntitySelectClause" && e6[6].0 == "ChildEntityFromClause"
    ensures Put(Put(e6, "entityName", tableName), "entityAlias", alias)
         == e6[2 := ("entityName", tableName)] + [("entityAlias", alias)]
  {
    assert e6[2].0 == "entityName" by { assert Keys(e6[..5])[2] == e6[2].0; }
    assert e6[0].0 == "Parameters" && e6[1].0 == "FilterCriterias" by {
      assert Keys(e6[..5])[0] == e6[0].0 && Keys(e6[..5])[1] == e6[1].0;
    }
    PutAt(e6, 2, tableName);
    var e7 := e6[2 := ("entityName", tableName)];
    assert forall j :: 0 <= j < 7 ==> e7[j].0 != "entityAlias" by {
      assert forall j :: 0 <= j < 5 ==> e7[j].0 == InitialKeys[j];
    }
    PutNew(e7, "entityAlias", alias);
  }

  /** On a later call every key is already there and is rewritten in place. */
  lemma LastFourLaterCall(e4: Entries<string>, sp: SpCustom.SpTable, tableName: string, f: Fragments)
    requires Keys(e4) == AllKeys
    requires e4[0].1 == Join(f.parameters, "\n") && e4[1].1 == Join(f.filters, "\n")
    requires e4[3].1 == Join(f.keywordFilters, "\n") && e4[4].1 == sp.precondition.GetOr("")
    ensures
      var e5 := Put(e4, "ChildEntitySelectClause", Join(f.childSelects, "\n"));
      var e6 := Put(e5, "ChildEntityFromClause", Join(f.childFroms, "\n"));
      var e7 := Put(e6, "entityName", tableName);
      Put(e7, "entityAlias", AliasOf(sp, tableName)) == ViewReplacements(sp, tableName, f)
  {
    var e6 := e4[5 := ("ChildEntitySelectClause", Join(f.childSelects, "\n"))][6 := ("ChildEntityFromClause", Join(f.childFroms, "\n"))];
    RewriteInPlace(e4, 5, 6, Join(f.childSelects, "\n"), Join(f.childFroms, "\n"));
    RewriteInPlace(e6, 2, 7, tableName, AliasOf(sp, tableName));
    var e8 := e6[2 := ("entityName", tableName)][7 := ("entityAlias", AliasOf(sp, tableName))];
    var v := ViewReplacements(sp, tableName, f);
    assert |e8| == |v| == 8;
    assert forall i :: 0 <= i < 8 ==> e8[i] == v[i];
  }

  /** Two assignments to keys already present, at `i` and then `j`, rewrite those two entries. */
  lemma RewriteInPlace(e: Entries<string>, i: nat, j: nat, x: string, y: string)
    requires Keys(e) == AllKeys && i < 8 && j < 8
    requires forall k :: 0 <= k < i ==> AllKeys[k] != AllKeys[i]
    requires forall k :: 0 <= k < j ==> AllKeys[k] != AllKeys[j]
    ensures Put(Put(e, AllKeys[i], x), AllKeys[j], y) == e[i := (AllKeys[i], x)][j := (AllKeys[j], y)]
    ensures Keys(e[i := (AllKeys[i], x)][j := (AllKeys[j], y)]) == AllKeys
  {
    PutKeyed(e, AllKeys, i, x);
    PutKeyed(e[i := (AllKeys[i], x)], AllKeys, j, y);
  }

}
