/**
 * The C# filter generator (generate-filters.js): per table one filter class listing the
 * table's custom parameters, its own columns and its child tables' columns, each as a
 * property, a parameter name, a short column and a condition, plus list setters for key
 * columns, the usings the types need and the inherited filter interfaces.
 *
 * The generator rewrites the .NET type of every UID and `_ID` column it handles to
 * `string` on the column record inside the shared `tables` object; the class below keeps
 * that object as state and the walk reads every table from it as it stands.
 */
module Filters {
  import opened Wrappers
  import opened Strings
  import opened Seqs
  import opened JsObject
  import opened Utils
  import opened DataFromDatabase
  import SpCustom

  /** The fragment templates of the filter template, as opaque text. */
  datatype Definitions = Definitions(
    column: string,
    parameter: string,
    shortColumn: string,
    conditionString: string,
    conditionDateTime: string,
    conditionOther: string,
    conditionEncrypted: string,
    listSetter: string,
    setterInterface: string,
    listSetterGuid: string,
    setterGuidInterface: string)

  /** The eight lists one call of the generator pushes to. */
  datatype Lists = Lists(
    usings: seq<string>,
    inheritedInterfaces: seq<string>,
    shortColumnDefinitions: seq<string>,
    parameterNames: seq<string>,
    columnDefinitions: seq<string>,
    conditionDefinitions: seq<string>,
    listSetters: seq<string>,
    setterDefinitions: seq<string>)

  /** The lists at the start of a call: only the `IFilter` interface. */
  const Initial := Lists([], ["IFilter"], [], [], [], [], [], [])

  /** The branches of the `switch` on the column name. */
  datatype ColumnKind = Skipped | DefaultFlag | SystemFlag | Uid | ForeignKey | Plain

  /** Which branch a column name takes: the named cases first, then `_ID` anywhere in the name. */
  function KindOf(name: string): (k: ColumnKind)
    ensures k == Skipped <==> IsBaseEntityColumn(name)
    ensures k == DefaultFlag <==> name == "Is_Default"
    ensures k == SystemFlag <==> name == "Is_System"
    ensures k == Uid <==> name == "UID"
    ensures k == ForeignKey <==>
      !IsBaseEntityColumn(name) && name != "Is_Default" && name != "Is_System" && name != "UID" && Contains(name, "_ID")
  {
    if IsBaseEntityColumn(name) then Skipped
    else if name == "Is_Default" then DefaultFlag
    else if name == "Is_System" then SystemFlag
    else if name == "UID" then Uid
    else if Contains(name, "_ID") then ForeignKey
    else Plain
  }

  /** A column a call leaves out entirely: a skipped name, or the parent's key in a child table. */
  predicate Skips(tableName: string, isChild: bool, c: Column) {
    KindOf(c.name) == Skipped || (isChild && KindOf(c.name) == ForeignKey && c.name == tableName + "_ID")
  }

  /** Key columns the call handles: UID and the `_ID` columns it does not skip. */
  predicate IsKeyColumn(tableName: string, isChild: bool, c: Column) {
    !Skips(tableName, isChild, c) && (KindOf(c.name) == Uid || KindOf(c.name) == ForeignKey)
  }

  /** The column after the call: a handled key column has its .NET type set to `string`. */
  function Rewritten(tableName: string, isChild: bool, c: Column): (r: Column)
    ensures r == c.(dataTypeDotNet := r.dataTypeDotNet)
    ensures r.dataTypeDotNet == (if IsKeyColumn(tableName, isChild, c) then "string" else c.dataTypeDotNet)
  {
    if IsKeyColumn(tableName, isChild, c) then c.(dataTypeDotNet := "string") else c
  }

  /** Every column of a list after the call, in order. */
  function RewrittenAll(tableName: string, isChild: bool, columns: seq<Column>): (r: seq<Column>)
    ensures |r| == |columns|
    ensures forall i :: 0 <= i < |columns| ==> r[i] == Rewritten(tableName, isChild, columns[i])
  {
    if columns == [] then []
    else RewrittenAll(tableName, isChild, columns[..|columns| - 1]) + [Rewritten(tableName, isChild, columns[|columns| - 1])]
  }

  /** The property type: a `?` is added exactly when the type is not `string` and the column is not nullable. */
  function ColumnType(c: Column): (t: string)
    ensures c.dataTypeDotNet != "string" && !c.isNullable ==> t == c.dataTypeDotNet + "?"
    ensures c.dataTypeDotNet == "string" || c.isNullable ==> t == c.dataTypeDotNet
  {
    c.dataTypeDotNet + (if c.dataTypeDotNet != "string" && !c.isNullable then "?" else "")
  }

  /** The replacements of a column's four fragments. */
  function ColumnReplacement(c: Column): Entries<string> {
    [("columnName", c.name), ("columnNamePascal", c.namePascal), ("columnType", ColumnType(c))]
  }

  /**
   * The condition template: an encrypted column always takes the encrypted condition;
   * otherwise `string`, the two DateTime types and everything else each take their own.
   */
  function ConditionTemplate(defs: Definitions, encrypted: bool, dotNetType: string): (t: string)
    ensures encrypted ==> t == defs.conditionEncrypted
    ensures !encrypted && dotNetType == "string" ==> t == defs.conditionString
    ensures !encrypted && IsDateTime(dotNetType) ==> t == defs.conditionDateTime
    ensures !encrypted && dotNetType != "string" && !IsDateTime(dotNetType) ==> t == defs.conditionOther
  {
    if encrypted then defs.conditionEncrypted
    else if dotNetType == "string" then defs.conditionString
    else if IsDateTime(dotNetType) then defs.conditionDateTime
    else defs.conditionOther
  }

  /** `if (!list.includes(x)) list.push(x)`. */
  function AddOnce(s: seq<string>, x: string): (r: seq<string>)
    ensures x in r && s <= r
    ensures Count(r, x) == (if x in s then Count(s, x) else 1)
    ensures forall y :: y != x ==> Count(r, y) == Count(s, y)
  {
    if x in s then s
    else
      assert (s + [x])[..|s|] == s;
      CountZero(s, x);
      s + [x]
  }

  /** The usings after a column of the given .NET type: the two date usings are added together, once. */
  function SystemUsings(usings: seq<string>, dotNetType: string): seq<string> {
    if "System" !in usings && IsDateTime(dotNetType) then usings + ["System", "System.Data.SqlTypes"] else usings
  }

  /** The interfaces after a column: a flag column adds its filter interface once. */
  function FlagInterfaces(interfaces: seq<string>, kind: ColumnKind): seq<string> {
    match kind
    case DefaultFlag => AddOnce(interfaces, "IHasDefaultFilter")
    case SystemFlag => AddOnce(interfaces, "IHasSystemFilter")
    case _ => interfaces
  }

  /** The one setter a key column adds to a list: the GUID form for UID, the plain form for `_ID`. */
  function KeyLines(guidTemplate: string, template: string, kind: ColumnKind, c: Column): seq<string> {
    match kind
    case Uid => [Filled(guidTemplate, [("columnNamePascal", c.namePascal)], true)]
    case ForeignKey => [Filled(template, [("columnNamePascal", c.namePascal)], true)]
    case _ => []
  }

  /** The lists after the `switch` of a handled column: its flag interface and its setters. */
  function Switched(defs: Definitions, l: Lists, kind: ColumnKind, c: Column): Lists {
    l.(inheritedInterfaces := FlagInterfaces(l.inheritedInterfaces, kind),
       listSetters := l.listSetters + KeyLines(defs.listSetterGuid, defs.listSetter, kind, c),
       setterDefinitions := l.setterDefinitions + KeyLines(defs.setterGuidInterface, defs.setterInterface, kind, c))
  }

  /**
   * The lists after the rest of a handled column, given the column as rewritten: its
   * usings, and its property (unless a flag), parameter name, short column and condition.
   */
  function Fragments(defs: Definitions, l: Lists, c': Column, insert: bool): Lists {
    var r := ColumnReplacement(c');
    l.(usings := ColumnUsings(l.usings, c'),
       shortColumnDefinitions := l.shortColumnDefinitions + [Filled(defs.shortColumn, r, true)],
       parameterNames := l.parameterNames + [Filled(defs.parameter, r, true)],
       columnDefinitions := l.columnDefinitions + (if insert then [Filled(defs.column, r, true)] else []),
       conditionDefinitions := l.conditionDefinitions + [Filled(ConditionTemplate(defs, c'.isEncrypted, c'.dataTypeDotNet), r, true)])
  }

  /** The lists after `processColumn(column, isChild)`. */
  function WithColumn(defs: Definitions, tableName: string, isChild: bool, l: Lists, c: Column): Lists {
    if Skips(tableName, isChild, c) then l
    else
      var kind := KindOf(c.name);
      Fragments(defs, Switched(defs, l, kind, c), Rewritten(tableName, isChild, c), kind != DefaultFlag && kind != SystemFlag)
  }

  /** The lists after `columns.forEach((column) => processColumn(column, isChild))`. */
  function ColumnsLists(defs: Definitions, tableName: string, isChild: bool, l: Lists, columns: seq<Column>): Lists {
    if columns == [] then l
    else WithColumn(defs, tableName, isChild, ColumnsLists(defs, tableName, isChild, l, columns[..|columns| - 1]), columns[|columns| - 1])
  }

  /** The replacements of a custom parameter's fragments: its property name and type. */
  function CustomReplacement(p: SpCustom.CustomParameter): Entries<string> {
    [("columnName", p.name), ("columnNamePascal", p.propertyName), ("columnType", p.propertyType)]
  }

  /** The lists after one custom parameter: a property, a parameter, a short column and a condition. */
  function WithCustomParameter(defs: Definitions, l: Lists, p: SpCustom.CustomParameter): Lists {
    var r := CustomReplacement(p);
    l.(columnDefinitions := l.columnDefinitions + [Filled(defs.column, r, true)],
       parameterNames := l.parameterNames + [Filled(defs.parameter, r, true)],
       shortColumnDefinitions := l.shortColumnDefinitions + [Filled(defs.shortColumn, r, true)],
       conditionDefinitions := l.conditionDefinitions + [Filled(ConditionTemplate(defs, false, p.propertyType), r, true)])
  }

  /** The lists after the custom parameters, in key order. */
  function CustomLists(defs: Definitions, l: Lists, parameters: Entries<SpCustom.CustomParameter>): Lists {
    if parameters == [] then l
    else WithCustomParameter(defs, CustomLists(defs, l, parameters[..|parameters| - 1]), parameters[|parameters| - 1].1)
  }

  /** Reading a child table that `tables` does not have fails (`tables[childTable].columns`). */
  datatype FilterError = MissingTable(name: string)

  /** The lists, the shared tables and the error, if any, at some point of a call. */
  datatype Run = Run(lists: Lists, tables: Tables, error: Option<FilterError>)

  /** One child table: its columns processed as a child's, and written back rewritten. */
  function ChildStep(defs: Definitions, parent: string, run: Run, child: string): Run {
    if run.error.Some? then run
    else match Get(run.tables, child)
      case None => run.(error := Some(MissingTable(child)))
      case Some(d) =>
        Run(ColumnsLists(defs, parent, true, run.lists, d.columns),
            Put(run.tables, child, d.(columns := RewrittenAll(parent, true, d.columns))),
            None)
  }

  /** The child tables in order; the first missing one stops the call. */
  function ChildrenRun(defs: Definitions, parent: string, init: Run, children: seq<string>): Run {
    if children == [] then init
    else ChildStep(defs, parent, ChildrenRun(defs, parent, init, children[..|children| - 1]), children[|children| - 1])
  }

  /** One more child: the step applied to the run so far. */
  lemma ChildrenRunStep(defs: Definitions, parent: string, init: Run, children: seq<string>, k: nat)
    requires k < |children|
    ensures ChildrenRun(defs, parent, init, children[..k + 1]) == ChildStep(defs, parent, ChildrenRun(defs, parent, init, children[..k]), children[k])
  {
    assert children[..k + 1][..k] == children[..k];
  }

  /** The custom parameters of a configured table; none for the others. */
  function CustomParametersOf(config: map<string, SpCustom.SpTable>, tableName: string): Entries<SpCustom.CustomParameter> {
    if tableName in config then config[tableName].customParameters else []
  }

  /** The child tables of a configured table; none for the others. */
  function ChildTablesOf(config: map<string, SpCustom.SpTable>, tableName: string): seq<string> {
    if tableName in config then config[tableName].childTables else []
  }

  /** The table's own columns after the custom parameters, then the child tables. */
  function TableRun(defs: Definitions, config: map<string, SpCustom.SpTable>, tables: Tables, tableName: string, tableData: TableData): Run {
    var start := CustomLists(defs, Initial, CustomParametersOf(config, tableName));
    var own := Run(ColumnsLists(defs, tableName, false, start, tableData.columns),
                   Put(tables, tableName, tableData.(columns := RewrittenAll(tableName, false, tableData.columns))),
                   None);
    ChildrenRun(defs, tableName, own, ChildTablesOf(config, tableName))
  }

  /** The replacements a successful call assigns, in assignment order. */
  function FilterUpdates(l: Lists, tableName: string, defaultUsings: seq<string>): Entries<string> {
    [("EntityName", tableName),
     ("ColumnDefinitions", Join(l.columnDefinitions, "\n\n")),
     ("SetterDefinitions", Join(l.setterDefinitions, "\n\n")),
     ("ShortColumnDefinitions", Join(l.shortColumnDefinitions, "\n")),
     ("ParameterNameDefinitions", Join(l.parameterNames, "\n")),
     ("ConditionDefinitions", Join(l.conditionDefinitions, "\n\n")),
     ("ListSetters", Join(l.listSetters, "\n")),
     ("Usings", UsingText(l.usings + defaultUsings)),
     ("InheritedInterfaces", InheritanceText(l.inheritedInterfaces))]
  }

  /** The output path of a table's filter class. */
  function FilterPath(directory: string, suffixFileName: string, tableName: string): string {
    directory + "/" + tableName + "Filter" + suffixFileName + ".cs"
  }

  // ---------------------------------------------------------------------------------
  // Properties of one column

  /** Skipped columns, and the parent's key in a child table, contribute nothing and are not rewritten. */
  lemma SkippedColumn(defs: Definitions, tableName: string, isChild: bool, l: Lists, c: Column)
    requires IsBaseEntityColumn(c.name) || (isChild && c.name == tableName + "_ID")
    ensures WithColumn(defs, tableName, isChild, l, c) == l
    ensures Rewritten(tableName, isChild, c) == c
  {
    if !IsBaseEntityColumn(c.name) {
      assert StartsWith(c.name[|tableName|..], "_ID");
      ContainsAt(c.name, |tableName|, "_ID");
    }
  }

  /**
   * `Is_Default` and `Is_System` add their filter interface, once, and no property, but
   * still a parameter name, a short column and a condition.
   */
  lemma FlagColumn(defs: Definitions, tableName: string, isChild: bool, l: Lists, c: Column)
    requires c.name == "Is_Default" || c.name == "Is_System"
    ensures var r := WithColumn(defs, tableName, isChild, l, c);
      var i := if c.name == "Is_Default" then "IHasDefaultFilter" else "IHasSystemFilter";
      && i in r.inheritedInterfaces
      && Count(r.inheritedInterfaces, i) == (if i in l.inheritedInterfaces then Count(l.inheritedInterfaces, i) else 1)
      && r.columnDefinitions == l.columnDefinitions
      && |r.parameterNames| == |l.parameterNames| + 1
      && |r.shortColumnDefinitions| == |l.shortColumnDefinitions| + 1
      && |r.conditionDefinitions| == |l.conditionDefinitions| + 1
      && r.listSetters == l.listSetters && r.setterDefinitions == l.setterDefinitions
  {
  }

  /**
   * A handled key column is rewritten to `string`, adds exactly one list setter and one
   * setter, never adds the date usings, and gets the string condition unless encrypted.
   */
  lemma KeyColumn(defs: Definitions, tableName: string, isChild: bool, l: Lists, c: Column)
    requires IsKeyColumn(tableName, isChild, c)
    ensures var r := WithColumn(defs, tableName, isChild, l, c);
      && Rewritten(tableName, isChild, c).dataTypeDotNet == "string"
      && |r.listSetters| == |l.listSetters| + 1 && |r.setterDefinitions| == |l.setterDefinitions| + 1
      && Count(r.usings, "System") == Count(l.usings, "System")
      && r.columnDefinitions == l.columnDefinitions + [Filled(defs.column, ColumnReplacement(Rewritten(tableName, isChild, c)), true)]
      && (!c.isEncrypted ==> r.conditionDefinitions[|r.conditionDefinitions| - 1] == Filled(defs.conditionString, ColumnReplacement(Rewritten(tableName, isChild, c)), true))
  {
  }

  /** Any other column adds no setter. */
  lemma NonKeyColumn(defs: Definitions, tableName: string, isChild: bool, l: Lists, c: Column)
    requires !IsKeyColumn(tableName, isChild, c)
    ensures var r := WithColumn(defs, tableName, isChild, l, c);
      r.listSetters == l.listSetters && r.setterDefinitions == l.setterDefinitions
  {
  }

  /**
   * The rewrite never shows in the output: processing a column that an earlier call (in
   * any table, as a child or not) rewrote gives the same lists and the same column as
   * processing the column as it was read from the database; and two rewrites commute.
   */
  lemma RewriteInvisible(defs: Definitions, t1: string, child1: bool, t2: string, child2: bool, l: Lists, c: Column)
    ensures WithColumn(defs, t2, child2, l, Rewritten(t1, child1, c)) == WithColumn(defs, t2, child2, l, c)
    ensures Rewritten(t2, child2, Rewritten(t1, child1, c)) == Rewritten(t1, child1, Rewritten(t2, child2, c))
  {
  }

  // ---------------------------------------------------------------------------------
  // Invariants of the lists

  /**
   * What every call keeps: `IFilter` first, each flag interface at most once, each using
   * at most once, and the two date usings present together.
   */
  ghost predicate Consistent(l: Lists) {
    InterfacesOk(l.inheritedInterfaces) && UsingsOk(l.usings)
  }

  ghost predicate InterfacesOk(interfaces: seq<string>) {
    && |interfaces| > 0 && interfaces[0] == "IFilter"
    && Count(interfaces, "IHasDefaultFilter") <= 1
    && Count(interfaces, "IHasSystemFilter") <= 1
  }

  ghost predicate UsingsOk(usings: seq<string>) {
    && Count(usings, "System") <= 1
    && Count(usings, "System.Data.SqlTypes") <= 1
    && Count(usings, "Jfw.Helpers") <= 1
    && ("System" in usings <==> "System.Data.SqlTypes" in usings)
  }

  /** The usings a handled column leaves. */
  function ColumnUsings(usings: seq<string>, c: Column): seq<string> {
    var u := SystemUsings(usings, c.dataTypeDotNet);
    if c.isEncrypted then AddOnce(u, "Jfw.Helpers") else u
  }

  lemma ColumnUsingsOk(usings: seq<string>, c: Column)
    requires UsingsOk(usings)
    ensures UsingsOk(ColumnUsings(usings, c)) && usings <= ColumnUsings(usings, c)
    ensures "System" in ColumnUsings(usings, c) <==> "System" in usings || IsDateTime(c.dataTypeDotNet)
  {
    if "System" !in usings && IsDateTime(c.dataTypeDotNet) {
      CountZero(usings, "System");
      CountZero(usings, "System.Data.SqlTypes");
      CountPair(usings, "System", "System.Data.SqlTypes", "System");
      CountPair(usings, "System", "System.Data.SqlTypes", "System.Data.SqlTypes");
      CountPair(usings, "System", "System.Data.SqlTypes", "Jfw.Helpers");
    }
  }

  lemma FlagInterfacesOk(interfaces: seq<string>, kind: ColumnKind)
    requires InterfacesOk(interfaces)
    ensures InterfacesOk(FlagInterfaces(interfaces, kind)) && interfaces <= FlagInterfaces(interfaces, kind)
  {
  }

  /** Every list only grows. */
  ghost predicate Grows(l: Lists, r: Lists) {
    && l.usings <= r.usings && l.inheritedInterfaces <= r.inheritedInterfaces
    && l.shortColumnDefinitions <= r.shortColumnDefinitions && l.parameterNames <= r.parameterNames
    && l.columnDefinitions <= r.columnDefinitions && l.conditionDefinitions <= r.conditionDefinitions
    && l.listSetters <= r.listSetters && l.setterDefinitions <= r.setterDefinitions
  }

  lemma GrowsTransitive(a: Lists, b: Lists, c: Lists)
    requires Grows(a, b) && Grows(b, c)
    ensures Grows(a, c)
  {
  }

  lemma CountPair(s: seq<string>, x: string, y: string, z: string)
    requires x != y
    ensures Count(s + [x, y], z) == Count(s, z) + (if z == x || z == y then 1 else 0)
  {
    CountAppend(s, [x, y], z);
    assert [x, y][..1] == [x];
    assert [x][..0] == [];
  }

  /** One column keeps the lists consistent and only lets them grow. */
  lemma WithColumnConsistent(defs: Definitions, tableName: string, isChild: bool, l: Lists, c: Column)
    requires Consistent(l)
    ensures Consistent(WithColumn(defs, tableName, isChild, l, c))
    ensures Grows(l, WithColumn(defs, tableName, isChild, l, c))
  {
    if !Skips(tableName, isChild, c) {
      ColumnUsingsOk(l.usings, Rewritten(tableName, isChild, c));
      FlagInterfacesOk(l.inheritedInterfaces, KindOf(c.name));
    }
  }

  /** A custom parameter touches neither the usings nor the interfaces. */
  lemma {:induction false} CustomListsKeep(defs: Definitions, l: Lists, parameters: Entries<SpCustom.CustomParameter>)
    ensures var r := CustomLists(defs, l, parameters);
      && r.usings == l.usings && r.inheritedInterfaces == l.inheritedInterfaces
      && r.listSetters == l.listSetters && r.setterDefinitions == l.setterDefinitions
      && Grows(l, r)
      && |r.parameterNames| == |l.parameterNames| + |parameters|
      && |r.columnDefinitions| == |l.columnDefinitions| + |parameters|
    decreases |parameters|
  {
    if parameters != [] {
      CustomListsKeep(defs, l, parameters[..|parameters| - 1]);
    }
  }

  /** The columns of a list keep the lists consistent and only let them grow. */
  lemma {:induction false} ColumnsListsConsistent(defs: Definitions, tableName: string, isChild: bool, l: Lists, columns: seq<Column>)
    requires Consistent(l)
    ensures Consistent(ColumnsLists(defs, tableName, isChild, l, columns))
    ensures Grows(l, ColumnsLists(defs, tableName, isChild, l, columns))
    decreases |columns|
  {
    if columns != [] {
      var front := ColumnsLists(defs, tableName, isChild, l, columns[..|columns| - 1]);
      ColumnsListsConsistent(defs, tableName, isChild, l, columns[..|columns| - 1]);
      WithColumnConsistent(defs, tableName, isChild, front, columns[|columns| - 1]);
      GrowsTransitive(l, front, ColumnsLists(defs, tableName, isChild, l, columns));
    }
  }

  /** The columns a call handles, in order. */
  function Handled(tableName: string, isChild: bool, columns: seq<Column>): (r: seq<Column>)
    ensures forall i :: 0 <= i < |r| ==> r[i] in columns && !Skips(tableName, isChild, r[i])
    ensures forall c :: c in columns && !Skips(tableName, isChild, c) ==> c in r
  {
    if columns == [] then []
    else
      var c := columns[|columns| - 1];
      assert columns == columns[..|columns| - 1] + [c];
      Handled(tableName, isChild, columns[..|columns| - 1]) + (if Skips(tableName, isChild, c) then [] else [c])
  }

  /**
   * `Handled` keeps the column order: it distributes over concatenation and keeps a
   * single column exactly when the call does not skip it.
   */
  lemma {:induction false} HandledConcat(tableName: string, isChild: bool, a: seq<Column>, b: seq<Column>)
    ensures Handled(tableName, isChild, a + b) == Handled(tableName, isChild, a) + Handled(tableName, isChild, b)
    decreases |b|
  {
    if b == [] {
      assert a + b == a;
    } else {
      var front, x := b[..|b| - 1], b[|b| - 1];
      var kept := if Skips(tableName, isChild, x) then [] else [x];
      FrontOfAppend(a, b);
      HandledConcat(tableName, isChild, a, front);
      assert Handled(tableName, isChild, a + b) == Handled(tableName, isChild, a + front) + kept;
      assert Handled(tableName, isChild, b) == Handled(tableName, isChild, front) + kept;
      AppendAssoc(Handled(tableName, isChild, a), Handled(tableName, isChild, front), kept);
    }
  }

  /** A single column is handled exactly when the call does not skip it. */
  lemma HandledOne(tableName: string, isChild: bool, c: Column)
    ensures Handled(tableName, isChild, [c]) == (if Skips(tableName, isChild, c) then [] else [c])
  {
    assert [c][..0] == [];
  }

  /** The handled columns that get a property: every handled column but the two flag columns. */
  function PropertyColumns(tableName: string, isChild: bool, columns: seq<Column>): (r: seq<Column>)
    ensures |r| <= |Handled(tableName, isChild, columns)|
    ensures forall i :: 0 <= i < |r| ==>
      r[i] in columns && !Skips(tableName, isChild, r[i]) && KindOf(r[i].name) != DefaultFlag && KindOf(r[i].name) != SystemFlag
  {
    if columns == [] then []
    else
      var c := columns[|columns| - 1];
      var kind := KindOf(c.name);
      assert columns == columns[..|columns| - 1] + [c];
      PropertyColumns(tableName, isChild, columns[..|columns| - 1])
        + (if Skips(tableName, isChild, c) || kind == DefaultFlag || kind == SystemFlag then [] else [c])
  }

  /**
   * One parameter name, one short column and one condition per handled column, and one
   * property per handled column that is not a flag.
   */
  lemma {:induction false} ColumnsListsCounts(defs: Definitions, tableName: string, isChild: bool, l: Lists, columns: seq<Column>)
    ensures var r := ColumnsLists(defs, tableName, isChild, l, columns);
      var n := |Handled(tableName, isChild, columns)|;
      && |r.parameterNames| == |l.parameterNames| + n
      && |r.shortColumnDefinitions| == |l.shortColumnDefinitions| + n
      && |r.conditionDefinitions| == |l.conditionDefinitions| + n
      && |r.columnDefinitions| == |l.columnDefinitions| + |PropertyColumns(tableName, isChild, columns)|
    decreases |columns|
  {
    if columns != [] {
      ColumnsListsCounts(defs, tableName, isChild, l, columns[..|columns| - 1]);
    }
  }

  /** A handled column whose type after the rewrite is a DateTime type. */
  predicate DateTimeColumn(tableName: string, isChild: bool, c: Column) {
    !Skips(tableName, isChild, c) && IsDateTime(Rewritten(tableName, isChild, c).dataTypeDotNet)
  }

  /** Some handled column has a DateTime type after the rewrite. */
  predicate AnyDateTime(tableName: string, isChild: bool, columns: seq<Column>)
  {
    exists i :: 0 <= i < |columns| && DateTimeColumn(tableName, isChild, columns[i])
  }

  lemma AnyDateTimeLast(tableName: string, isChild: bool, columns: seq<Column>)
    requires columns != []
    ensures AnyDateTime(tableName, isChild, columns) <==>
      AnyDateTime(tableName, isChild, columns[..|columns| - 1]) || DateTimeColumn(tableName, isChild, columns[|columns| - 1])
  {
    var front := columns[..|columns| - 1];
    if AnyDateTime(tableName, isChild, front) {
      var i :| 0 <= i < |front| && DateTimeColumn(tableName, isChild, front[i]);
      assert columns[i] == front[i];
    }
    if AnyDateTime(tableName, isChild, columns) {
      var i :| 0 <= i < |columns| && DateTimeColumn(tableName, isChild, columns[i]);
      if i < |front| {
        assert front[i] == columns[i];
      }
    }
  }

  /** One column adds the date usings exactly when it is handled and has a DateTime type after the rewrite. */
  lemma SystemUsingStep(defs: Definitions, tableName: string, isChild: bool, l: Lists, c: Column)
    requires UsingsOk(l.usings)
    ensures "System" in WithColumn(defs, tableName, isChild, l, c).usings <==>
      "System" in l.usings || DateTimeColumn(tableName, isChild, c)
  {
    if !Skips(tableName, isChild, c) {
      ColumnUsingsOk(l.usings, Rewritten(tableName, isChild, c));
    }
  }

  /**
   * The date usings are present after the columns exactly when they were before or a
   * handled column has a DateTime type after the rewrite.
   */
  lemma {:induction false} SystemUsingIffDateTime(defs: Definitions, tableName: string, isChild: bool, l: Lists, columns: seq<Column>)
    requires Consistent(l)
    ensures "System" in ColumnsLists(defs, tableName, isChild, l, columns).usings <==>
      "System" in l.usings || AnyDateTime(tableName, isChild, columns)
    decreases |columns|
  {
    if columns != [] {
      var front := columns[..|columns| - 1];
      SystemUsingIffDateTime(defs, tableName, isChild, l, front);
      ColumnsListsConsistent(defs, tableName, isChild, l, front);
      SystemUsingStep(defs, tableName, isChild, ColumnsLists(defs, tableName, isChild, l, front), columns[|columns| - 1]);
      AnyDateTimeLast(tableName, isChild, columns);
    }
  }

  /** The child tables keep the lists consistent and only let them grow. */
  lemma {:induction false} ChildrenRunConsistent(defs: Definitions, parent: string, init: Run, children: seq<string>)
    requires Consistent(init.lists)
    ensures Consistent(ChildrenRun(defs, parent, init, children).lists)
    ensures Grows(init.lists, ChildrenRun(defs, parent, init, children).lists)
    decreases |children|
  {
    if children != [] {
      var front := ChildrenRun(defs, parent, init, children[..|children| - 1]);
      ChildrenRunConsistent(defs, parent, init, children[..|children| - 1]);
      var child := children[|children| - 1];
      if front.error.None? && Get(front.tables, child).Some? {
        ColumnsListsConsistent(defs, parent, true, front.lists, Get(front.tables, child).value.columns);
        GrowsTransitive(init.lists, front.lists, ChildrenRun(defs, parent, init, children).lists);
      }
    }
  }

  /** One child step: its error and the table keys it leaves. */
  lemma ChildStepShape(defs: Definitions, parent: string, run: Run, child: string)
    ensures var next := ChildStep(defs, parent, run, child);
      && next.error == (if run.error.Some? then run.error else if child in Keys(run.tables) then None else Some(MissingTable(child)))
      && Keys(next.tables) == Keys(run.tables)
  {
    if run.error.None? && child in Keys(run.tables) {
      var d := Get(run.tables, child).value;
      KeysPut(run.tables, child, d.(columns := RewrittenAll(parent, true, d.columns)));
    }
  }

  /** A failed run stays failed, with the same error. */
  lemma {:induction false} ChildrenRunFailureStays(defs: Definitions, parent: string, init: Run, children: seq<string>, n: nat)
    requires n <= |children| && ChildrenRun(defs, parent, init, children[..n]).error.Some?
    ensures ChildrenRun(defs, parent, init, children) == ChildrenRun(defs, parent, init, children[..n])
    decreases |children| - n
  {
    if n < |children| {
      assert children[..n + 1][..n] == children[..n];
      ChildrenRunFailureStays(defs, parent, init, children, n + 1);
    } else {
      assert children[..n] == children;
    }
  }

  /** The child tables only rewrite tables that exist: the table keys never change. */
  lemma {:induction false} ChildrenRunKeys(defs: Definitions, parent: string, init: Run, children: seq<string>)
    ensures Keys(ChildrenRun(defs, parent, init, children).tables) == Keys(init.tables)
    decreases |children|
  {
    if children != [] {
      var front := ChildrenRun(defs, parent, init, children[..|children| - 1]);
      ChildrenRunKeys(defs, parent, init, children[..|children| - 1]);
      ChildStepShape(defs, parent, front, children[|children| - 1]);
    }
  }

  /**
   * A whole call: the lists are consistent, the table keys are unchanged, and the
   * custom parameters come first in every list they touch, before any column.
   */
  lemma TableRunProperties(defs: Definitions, config: map<string, SpCustom.SpTable>, tables: Tables, tableName: string, tableData: TableData)
    requires tableName in Keys(tables)
    ensures var run := TableRun(defs, config, tables, tableName, tableData);
      var start := CustomLists(defs, Initial, CustomParametersOf(config, tableName));
      && Consistent(run.lists)
      && run.lists.inheritedInterfaces[0] == "IFilter"
      && Keys(run.tables) == Keys(tables)
      && Grows(start, run.lists)
      && |start.parameterNames| == |CustomParametersOf(config, tableName)|
      && |start.columnDefinitions| == |CustomParametersOf(config, tableName)|
  {
    var custom := CustomParametersOf(config, tableName);
    var start := CustomLists(defs, Initial, custom);
    CustomListsKeep(defs, Initial, custom);
    assert Consistent(Initial) by {
      assert Initial.inheritedInterfaces == [] + ["IFilter"];
      assert Count(Initial.inheritedInterfaces, "IHasDefaultFilter") == 0;
      assert Count(Initial.inheritedInterfaces, "IHasSystemFilter") == 0;
    }
    ColumnsListsConsistent(defs, tableName, false, start, tableData.columns);
    var own := Run(ColumnsLists(defs, tableName, false, start, tableData.columns),
                   Put(tables, tableName, tableData.(columns := RewrittenAll(tableName, false, tableData.columns))),
                   None);
    KeysPut(tables, tableName, tableData.(columns := RewrittenAll(tableName, false, tableData.columns)));
    ChildrenRunConsistent(defs, tableName, own, ChildTablesOf(config, tableName));
    ChildrenRunKeys(defs, tableName, own, ChildTablesOf(config, tableName));
    GrowsTransitive(start, own.lists, TableRun(defs, config, tables, tableName, tableData).lists);
  }

  /** The first of `children` that is not among `keys`, if any. */
  function FirstMissing(keys: seq<string>, children: seq<string>): (r: Option<string>)
    ensures r.None? <==> forall i :: 0 <= i < |children| ==> children[i] in keys
    ensures r.Some? ==>
      exists i :: 0 <= i < |children| && r.value == children[i] && children[i] !in keys
        && forall j :: 0 <= j < i ==> children[j] in keys
  {
    if children == [] then None
    else
      var front := children[..|children| - 1];
      var child := children[|children| - 1];
      var r := FirstMissing(keys, front);
      if r.Some? then
        assert forall j :: 0 <= j < |front| ==> children[j] == front[j];
        r
      else if child !in keys then
        assert forall j :: 0 <= j < |front| ==> children[j] == front[j];
        Some(child)
      else
        assert forall j :: 0 <= j < |front| ==> children[j] == front[j];
        None
  }

  /**
   * A call fails exactly when a configured child table is missing from `tables`; the
   * error names the first one.
   */
  lemma {:induction false} ChildrenRunFails(defs: Definitions, parent: string, init: Run, children: seq<string>)
    requires init.error.None?
    ensures var missing := FirstMissing(Keys(init.tables), children);
      ChildrenRun(defs, parent, init, children).error == if missing.Some? then Some(MissingTable(missing.value)) else None
    decreases |children|
  {
    if children != [] {
      var front := children[..|children| - 1];
      ChildrenRunFails(defs, parent, init, front);
      ChildrenRunKeys(defs, parent, init, front);
      ChildStepShape(defs, parent, ChildrenRun(defs, parent, init, front), children[|children| - 1]);
    }
  }

  // ---------------------------------------------------------------------------------
  // The generator

  /**
   * The `switch` on the column name: whether the column is left out, the column as it is
   * left, the interfaces and setters it adds, and whether it gets a property.
   */
  method SwitchOnName(defs: Definitions, tableName: string, isChild: bool, lists: Lists, column: Column)
    returns (skip: bool, column': Column, lists': Lists, shouldInsertIntoInterface: bool)
    ensures skip == Skips(tableName, isChild, column)
    ensures !skip ==> column' == Rewritten(tableName, isChild, column)
    ensures !skip ==> lists' == Switched(defs, lists, KindOf(column.name), column)
    ensures shouldInsertIntoInterface <==> KindOf(column.name) != DefaultFlag && KindOf(column.name) != SystemFlag
  {
    var inheritedInterfaces := lists.inheritedInterfaces;
    var listSetters, setterDefinitions := lists.listSetters, lists.setterDefinitions;
    column', lists', skip := column, lists, false;
    shouldInsertIntoInterface := true;
    var name := column.name;
    ghost var kind := KindOf(name);
    if IsBaseEntityColumn(name) {
      skip := true;
      return;
    } else if name == "Is_Default" {
      inheritedInterfaces := PushOnce(inheritedInterfaces, "IHasDefaultFilter");
      assert kind == DefaultFlag;
      shouldInsertIntoInterface := false;
    } else if name == "Is_System" {
      inheritedInterfaces := PushOnce(inheritedInterfaces, "IHasSystemFilter");
      assert kind == SystemFlag;
      shouldInsertIntoInterface := false;
    } else if name == "UID" {
      assert kind == Uid;
      column' := column'.(dataTypeDotNet := "string");
      var uidListSetterContent := FillTemplate(defs.listSetterGuid, [("columnNamePascal", column'.namePascal)], true);
      var uidSetterContent := FillTemplate(defs.setterGuidInterface, [("columnNamePascal", column'.namePascal)], true);
      listSetters := listSetters + [uidListSetterContent];
      setterDefinitions := setterDefinitions + [uidSetterContent];
    } else if Contains(name, "_ID") {
      if isChild && name == tableName + "_ID" {
        skip := true;
        return;
      }
      assert kind == ForeignKey;
      column' := column'.(dataTypeDotNet := "string");
      var listSetterContent := FillTemplate(defs.listSetter, [("columnNamePascal", column'.namePascal)], true);
      var setterContent := FillTemplate(defs.setterInterface, [("columnNamePascal", column'.namePascal)], true);
      listSetters := listSetters + [listSetterContent];
      setterDefinitions := setterDefinitions + [setterContent];
    } else {
      assert kind == Plain;
    }
    lists' := lists.(inheritedInterfaces := inheritedInterfaces, listSetters := listSetters, setterDefinitions := setterDefinitions);
  }

  /** One column of the `forEach`, statement by statement; also returns the column as it is left. */
  method ProcessColumn(defs: Definitions, tableName: string, isChild: bool, lists: Lists, column: Column)
    returns (lists': Lists, column': Column)
    ensures lists' == WithColumn(defs, tableName, isChild, lists, column)
    ensures column' == Rewritten(tableName, isChild, column)
  {
    var skip, switched, shouldInsertIntoInterface;
    skip, column', switched, shouldInsertIntoInterface := SwitchOnName(defs, tableName, isChild, lists, column);
    if skip {
      return lists, column;
    }
    lists' := AddFragments(defs, switched, column', shouldInsertIntoInterface);
  }

  /** The statements after the `switch`, for a handled column as rewritten. */
  method AddFragments(defs: Definitions, lists: Lists, column: Column, shouldInsertIntoInterface: bool)
    returns (lists': Lists)
    ensures lists' == Fragments(defs, lists, column, shouldInsertIntoInterface)
  {
    var usings := lists.usings;
    var columnDefinitions, conditionDefinitions := lists.columnDefinitions, lists.conditionDefinitions;
    var shortColumnDefinitions, parameterNames := lists.shortColumnDefinitions, lists.parameterNames;

    usings := AddDateUsings(usings, column.dataTypeDotNet);

    var nullable := "";
    if column.dataTypeDotNet != "string" && !column.isNullable {
      nullable := "?";
    }
    var replacement := [("columnName", column.name), ("columnNamePascal", column.namePascal),
                        ("columnType", column.dataTypeDotNet + nullable)];
    assert replacement == ColumnReplacement(column);

    var columnDefinitionContent := FillTemplate(defs.column, replacement, true);
    if shouldInsertIntoInterface {
      columnDefinitions := columnDefinitions + [columnDefinitionContent];
    }
    var parameterNameContent := FillTemplate(defs.parameter, replacement, true);
    parameterNames := parameterNames + [parameterNameContent];
    var shortColumnDefinitionContent := FillTemplate(defs.shortColumn, replacement, true);
    shortColumnDefinitions := shortColumnDefinitions + [shortColumnDefinitionContent];

    var conditionTemplate;
    usings, conditionTemplate := ChooseCondition(defs, usings, column);
    var conditionDefinitionContent := FillTemplate(conditionTemplate, replacement, true);
    conditionDefinitions := conditionDefinitions + [conditionDefinitionContent];

    lists' := lists.(usings := usings, shortColumnDefinitions := shortColumnDefinitions, parameterNames := parameterNames,
                     columnDefinitions := columnDefinitions, conditionDefinitions := conditionDefinitions);
  }

  /** `if (!list.includes(x)) list.push(x)`, as a statement. */
  method PushOnce(s: seq<string>, x: string) returns (s': seq<string>)
    ensures s' == AddOnce(s, x)
  {
    s' := s;
    if x !in s' {
      s' := s' + [x];
    }
  }

  /** The first statement of `processColumn`'s fragment part: a DateTime column brings the date usings. */
  method AddDateUsings(usings: seq<string>, dotNetType: string) returns (usings': seq<string>)
    ensures usings' == SystemUsings(usings, dotNetType)
  {
    usings' := usings;
    if "System" !in usings' {
      if dotNetType == "DateTime" || dotNetType == "DateTime?" {
        usings' := usings' + ["System"];
        usings' := usings' + ["System.Data.SqlTypes"];
        AppendAssoc(usings, ["System"], ["System.Data.SqlTypes"]);
        assert ["System"] + ["System.Data.SqlTypes"] == ["System", "System.Data.SqlTypes"];
      }
    }
  }

  /** The condition template of a column; an encrypted one also brings `Jfw.Helpers`. */
  method ChooseCondition(defs: Definitions, usings: seq<string>, column: Column) returns (usings': seq<string>, conditionTemplate: string)
    ensures usings' == (if column.isEncrypted then AddOnce(usings, "Jfw.Helpers") else usings)
    ensures conditionTemplate == ConditionTemplate(defs, column.isEncrypted, column.dataTypeDotNet)
  {
    usings' := usings;
    conditionTemplate := "";
    if column.isEncrypted {
      usings' := PushOnce(usings', "Jfw.Helpers");
      conditionTemplate := defs.conditionEncrypted;
    } else if column.dataTypeDotNet == "string" {
      conditionTemplate := defs.conditionString;
    } else if column.dataTypeDotNet == "DateTime" || column.dataTypeDotNet == "DateTime?" {
      conditionTemplate := defs.conditionDateTime;
    } else {
      conditionTemplate := defs.conditionOther;
    }
  }

  /** `columns.forEach(processColumn)`: the lists, and the columns as they are left. */
  method ProcessColumns(defs: Definitions, tableName: string, isChild: bool, lists: Lists, columns: seq<Column>)
    returns (lists': Lists, columns': seq<Column>)
    ensures lists' == ColumnsLists(defs, tableName, isChild, lists, columns)
    ensures columns' == RewrittenAll(tableName, isChild, columns)
  {
    lists', columns' := lists, [];
    for i := 0 to |columns|
      invariant lists' == ColumnsLists(defs, tableName, isChild, lists, columns[..i])
      invariant columns' == RewrittenAll(tableName, isChild, columns[..i])
    {
      ColumnsStep(defs, tableName, isChild, lists, columns, i);
      var column';
      lists', column' := ProcessColumn(defs, tableName, isChild, lists', columns[i]);
      columns' := columns' + [column'];
    }
    assert columns[..|columns|] == columns;
  }

  /** The folds over one more column: that column's lists and rewritten record come last. */
  lemma ColumnsStep(defs: Definitions, tableName: string, isChild: bool, l: Lists, columns: seq<Column>, k: nat)
    requires k < |columns|
    ensures ColumnsLists(defs, tableName, isChild, l, columns[..k + 1])
      == WithColumn(defs, tableName, isChild, ColumnsLists(defs, tableName, isChild, l, columns[..k]), columns[k])
    ensures RewrittenAll(tableName, isChild, columns[..k + 1])
      == RewrittenAll(tableName, isChild, columns[..k]) + [Rewritten(tableName, isChild, columns[k])]
  {
    assert columns[..k + 1][..k] == columns[..k];
  }

  /** The fold over one more custom parameter. */
  lemma CustomStep(defs: Definitions, l: Lists, parameters: Entries<SpCustom.CustomParameter>, k: nat)
    requires k < |parameters|
    ensures CustomLists(defs, l, parameters[..k + 1]) == WithCustomParameter(defs, CustomLists(defs, l, parameters[..k]), parameters[k].1)
  {
    assert parameters[..k + 1][..k] == parameters[..k];
  }

  /** The custom-parameter loop. */
  method ProcessCustomParameters(defs: Definitions, lists: Lists, parameters: Entries<SpCustom.CustomParameter>)
    returns (lists': Lists)
    ensures lists' == CustomLists(defs, lists, parameters)
  {
    lists' := lists;
    for i := 0 to |parameters|
      invariant lists' == CustomLists(defs, lists, parameters[..i])
    {
      CustomStep(defs, lists, parameters, i);
      var customParameter := parameters[i].1;
      var replacement := [("columnName", customParameter.name), ("columnNamePascal", customParameter.propertyName),
                          ("columnType", customParameter.propertyType)];
      var columnDefinitionContent := FillTemplate(defs.column, replacement, true);
      var parameterNameContent := FillTemplate(defs.parameter, replacement, true);
      var shortColumnDefinitionContent := FillTemplate(defs.shortColumn, replacement, true);
      var conditionTemplate := "";
      if customParameter.propertyType == "string" {
        conditionTemplate := defs.conditionString;
      } else if customParameter.propertyType == "DateTime" || customParameter.propertyType == "DateTime?" {
        conditionTemplate := defs.conditionDateTime;
      } else {
        conditionTemplate := defs.conditionOther;
      }
      var conditionDefinitionContent := FillTemplate(conditionTemplate, replacement, true);
      lists' := lists'.(columnDefinitions := lists'.columnDefinitions + [columnDefinitionContent],
                        parameterNames := lists'.parameterNames + [parameterNameContent],
                        shortColumnDefinitions := lists'.shortColumnDefinitions + [shortColumnDefinitionContent],
                        conditionDefinitions := lists'.conditionDefinitions + [conditionDefinitionContent]);
    }
    assert parameters[..|parameters|] == parameters;
  }

  /** What stays fixed during a run: templates, configuration and output location. */
  datatype Setup = Setup(
    defs: Definitions,
    template: string,
    defaultUsings: seq<string>,
    config: map<string, SpCustom.SpTable>,
    directory: string,
    suffixFileName: string)

  /** The state the walk threads from call to call, and the write requests made so far. */
  datatype Walked = Walked(tables: Tables, replacements: Entries<string>, files: seq<(string, string)>, error: Option<FilterError>)

  /**
   * One callback of the walk: nothing after an error; otherwise the call for the table
   * as `tables` now holds it. (The walk only names tables that `tables` has.)
   */
  function CallStep(setup: Setup, w: Walked, tableName: string): Walked {
    if w.error.Some? then w
    else match Get(w.tables, tableName)
      case None => w
      case Some(d) =>
        var run := TableRun(setup.defs, setup.config, w.tables, tableName, d);
        if run.error.Some? then Walked(run.tables, Put(w.replacements, "EntityName", tableName), w.files, run.error)
        else
          var r := Assign(w.replacements, FilterUpdates(run.lists, tableName, setup.defaultUsings));
          Walked(run.tables, r, w.files + [(FilterPath(setup.directory, setup.suffixFileName, tableName), Filled(setup.template, r, true))], None)
  }

  /** The walk over the selected tables; an error ends it. */
  function WalkRun(setup: Setup, init: Walked, names: seq<string>): Walked {
    if names == [] then init
    else CallStep(setup, WalkRun(setup, init, names[..|names| - 1]), names[|names| - 1])
  }

  /** The walk keeps the table keys, so every selected table is found when its turn comes. */
  lemma {:induction false} WalkRunKeys(setup: Setup, init: Walked, names: seq<string>)
    ensures Keys(WalkRun(setup, init, names).tables) == Keys(init.tables)
    decreases |names|
  {
    if names != [] {
      var w := WalkRun(setup, init, names[..|names| - 1]);
      WalkRunKeys(setup, init, names[..|names| - 1]);
      var t := names[|names| - 1];
      if w.error.None? && t in Keys(w.tables) {
        TableRunProperties(setup.defs, setup.config, w.tables, t, Get(w.tables, t).value);
      }
    }
  }

  /** One callback adds one file at the table's path, or none when it fails. */
  lemma CallStepFiles(setup: Setup, w: Walked, tableName: string)
    requires tableName in Keys(w.tables)
    ensures var next := CallStep(setup, w, tableName);
      && (next.error.None? ==> w.error.None? && Paths(next.files) == Paths(w.files) + [FilterPath(setup.directory, setup.suffixFileName, tableName)])
      && (next.error.Some? ==> next.files == w.files)
  {
    var next := CallStep(setup, w, tableName);
    if w.error.None? && next.error.None? {
      assert next.files[..|w.files|] == w.files;
    }
  }

  /** The last callback of a walk adds the file of its table, unless the walk failed. */
  lemma WalkRunLastFile(setup: Setup, init: Walked, names: seq<string>)
    requires names != [] && names[|names| - 1] in Keys(WalkRun(setup, init, names[..|names| - 1]).tables)
    ensures var w := WalkRun(setup, init, names[..|names| - 1]);
      var next := WalkRun(setup, init, names);
      next.error.None? ==> w.error.None? && Paths(next.files) == Paths(w.files) + [FilterPath(setup.directory, setup.suffixFileName, names[|names| - 1])]
  {
    CallStepFiles(setup, WalkRun(setup, init, names[..|names| - 1]), names[|names| - 1]);
  }

  /** The paths of some files. */
  function Paths(files: seq<(string, string)>): (r: seq<string>)
    ensures |r| == |files|
  {
    if files == [] then [] else Paths(files[..|files| - 1]) + [files[|files| - 1].0]
  }

  /** The output paths of some tables. */
  function PathsOf(setup: Setup, names: seq<string>): (r: seq<string>)
    ensures |r| == |names|
  {
    if names == [] then [] else PathsOf(setup, names[..|names| - 1]) + [FilterPath(setup.directory, setup.suffixFileName, names[|names| - 1])]
  }

  /**
   * Without an error, the walk writes one file per selected table, in walk order, each
   * at the table's filter path.
   */
  lemma {:induction false} WalkRunFiles(setup: Setup, init: Walked, names: seq<string>)
    requires init.error.None?
    requires forall i :: 0 <= i < |names| ==> names[i] in Keys(init.tables)
    ensures var w := WalkRun(setup, init, names);
      w.error.None? ==> Paths(w.files) == Paths(init.files) + PathsOf(setup, names)
    decreases |names|
  {
    if names != [] {
      var front := names[..|names| - 1];
      var t := names[|names| - 1];
      var w := WalkRun(setup, init, front);
      WalkRunFiles(setup, init, front);
      WalkRunKeys(setup, init, front);
      WalkRunLastFile(setup, init, names);
      var p := FilterPath(setup.directory, setup.suffixFileName, t);
      assert PathsOf(setup, names) == PathsOf(setup, front) + [p];
      var next := WalkRun(setup, init, names);
      if next.error.None? {
        var a, b := Paths(init.files), PathsOf(setup, front);
        assert Paths(next.files) == (a + b) + [p];
        AppendLast(a, b, p);
      }
    } else {
      assert Paths(init.files) + PathsOf(setup, names) == Paths(init.files);
    }
  }

  /** The walk over one more table is one more callback. */
  lemma WalkRunStep(setup: Setup, init: Walked, names: seq<string>, k: nat)
    requires k < |names|
    ensures WalkRun(setup, init, names[..k + 1]) == CallStep(setup, WalkRun(setup, init, names[..k]), names[k])
  {
    assert names[..k + 1][..k] == names[..k];
  }

  /**
   * The filter generator: the fixed setup, the shared `tables` object whose column
   * records it rewrites, and the module-level replacements object it assigns to on
   * every call.
   */
  class FilterGenerator {
    const setup: Setup
    var tables: Tables
    var replacements: Entries<string>

    constructor (setup: Setup, tables: Tables, replacements: Entries<string>)
      ensures this.setup == setup && this.tables == tables && this.replacements == replacements
    {
      this.setup := setup;
      this.tables := tables;
      this.replacements := replacements;
    }

    /** The child-table loop, reading and rewriting each child in `tables`. */
    method ProcessChildren(tableName: string, lists: Lists) returns (lists': Lists, error: Option<FilterError>)
      modifies this
      ensures var run := ChildrenRun(setup.defs, tableName, Run(lists, old(tables), None), ChildTablesOf(setup.config, tableName));
        lists' == run.lists && tables == run.tables && error == run.error
      ensures replacements == old(replacements)
    {
      var children := ChildTablesOf(setup.config, tableName);
      lists', error := lists, None;
      for i := 0 to |children|
        invariant replacements == old(replacements)
        invariant ChildrenRun(setup.defs, tableName, Run(lists, old(tables), None), children[..i]) == Run(lists', tables, None)
      {
        ChildrenRunStep(setup.defs, tableName, Run(lists, old(tables), None), children, i);
        var childData := Get(tables, children[i]);
        if childData.None? {
          error := Some(MissingTable(children[i]));
          ChildrenRunFailureStays(setup.defs, tableName, Run(lists, old(tables), None), children, i + 1);
          return;
        }
        var columns';
        lists', columns' := ProcessColumns(setup.defs, tableName, true, lists', childData.value.columns);
        tables := Put(tables, children[i], childData.value.(columns := columns'));
      }
      assert children[..|children|] == children;
    }

    /**
     * `generateFilters(tableName, tables[tableName])`: the file content, or the error of a
     * missing child table, which leaves the entity name assigned and the columns
     * processed so far rewritten.
     */
    method GenerateFilters(tableName: string) returns (content: Result<string, FilterError>)
      requires tableName in Keys(tables)
      modifies this
      ensures var run := TableRun(setup.defs, setup.config, old(tables), tableName, Get(old(tables), tableName).value);
        && tables == run.tables
        && (run.error.None? ==>
              replacements == Assign(old(replacements), FilterUpdates(run.lists, tableName, setup.defaultUsings))
              && content == Success(Filled(setup.template, replacements, true)))
        && (run.error.Some? ==>
              replacements == Put(old(replacements), "EntityName", tableName)
              && content == Failure(run.error.value))
    {
      var tableData := Get(tables, tableName).value;
      replacements := Put(replacements, "EntityName", tableName);
      var lists := ProcessCustomParameters(setup.defs, Initial, CustomParametersOf(setup.config, tableName));
      var columns';
      lists, columns' := ProcessColumns(setup.defs, tableName, false, lists, tableData.columns);
      tables := Put(tables, tableName, tableData.(columns := columns'));
      var error;
      lists, error := ProcessChildren(tableName, lists);
      if error.Some? {
        return Failure(error.value);
      }
      AssignTexts(lists, tableName, old(replacements));
      var text := FillTemplate(setup.template, replacements, true);
      content := Success(text);
    }

    /** The eight template texts assigned after `EntityName`, in the order `FilterUpdates` lists them. */
    method AssignTexts(lists: Lists, tableName: string, ghost e: Entries<string>)
      requires replacements == Put(e, "EntityName", tableName)
      modifies this
      ensures tables == old(tables)
      ensures replacements == Assign(e, FilterUpdates(lists, tableName, setup.defaultUsings))
    {
      var usings := GetUsingTemplate(lists.usings + setup.defaultUsings);
      var interfaces := GetInheritanceTemplate(lists.inheritedInterfaces);
      ghost var updates := FilterUpdates(lists, tableName, setup.defaultUsings);
      var r := replacements;
      r := Put(r, "ColumnDefinitions", Join(lists.columnDefinitions, "\n\n"));
      r := Put(r, "SetterDefinitions", Join(lists.setterDefinitions, "\n\n"));
      r := Put(r, "ShortColumnDefinitions", Join(lists.shortColumnDefinitions, "\n"));
      r := Put(r, "ParameterNameDefinitions", Join(lists.parameterNames, "\n"));
      r := Put(r, "ConditionDefinitions", Join(lists.conditionDefinitions, "\n\n"));
      r := Put(r, "ListSetters", Join(lists.listSetters, "\n"));
      r := Put(r, "Usings", usings);
      r := Put(r, "InheritedInterfaces", interfaces);
      AssignUpdates(e, updates);
      replacements := r;
    }

    /**
     * `walkthroughTableData(tables, (tableName) => generateFilters(...))`: the write requests
     * made, in order, and the error that ended the walk, if any.
     */
    method Generate(included: seq<string>, excluded: seq<string>) returns (files: seq<(string, string)>, error: Option<FilterError>)
      modifies this
      ensures var w := WalkRun(setup, Walked(old(tables), old(replacements), [], None), SelectedTables(Keys(old(tables)), included, excluded));
        tables == w.tables && replacements == w.replacements && files == w.files && error == w.error
    {
      var names := WalkthroughTableData(Keys(tables), included, excluded);
      assert forall j :: 0 <= j < |names| ==> names[j] in Keys(tables);
      ghost var init := Walked(tables, replacements, [], None);
      files, error := [], None;
      for i := 0 to |names|
        invariant WalkRun(setup, init, names[..i]) == Walked(tables, replacements, files, None)
      {
        WalkRunStep(setup, init, names, i);
        WalkRunKeys(setup, init, names[..i]);
        var content := GenerateFilters(names[i]);
        if content.Failure? {
          error := Some(content.error);
          WalkRunFailureStays(setup, init, names, i + 1);
          return;
        }
        files := files + [(FilterPath(setup.directory, setup.suffixFileName, names[i]), content.value)];
      }
      assert names[..|names|] == names;
    }
  }

  /** A walk that met an error stays as it was. */
  lemma {:induction false} WalkRunFailureStays(setup: Setup, init: Walked, names: seq<string>, n: nat)
    requires n <= |names| && WalkRun(setup, init, names[..n]).error.Some?
    ensures WalkRun(setup, init, names) == WalkRun(setup, init, names[..n])
    decreases |names| - n
  {
    if n < |names| {
      FailedCallStays(setup, init, names, n);
      WalkRunFailureStays(setup, init, names, n + 1);
    } else {
      assert names[..n] == names;
    }
  }

  /** A walk that has met an error is left as it is by the next callback. */
  lemma FailedCallStays(setup: Setup, init: Walked, names: seq<string>, n: nat)
    requires n < |names| && WalkRun(setup, init, names[..n]).error.Some?
    ensures WalkRun(setup, init, names[..n + 1]) == WalkRun(setup, init, names[..n])
  {
    assert names[..n + 1][..n] == names[..n];
  }

  /** The nine assignments of a call, one after another. */
  lemma AssignUpdates(e: Entries<string>, u: Entries<string>)
    requires |u| == 9
    ensures Assign(e, u) ==
      Put(Put(Put(Put(Put(Put(Put(Put(Put(e, u[0].0, u[0].1), u[1].0, u[1].1), u[2].0, u[2].1), u[3].0, u[3].1),
        u[4].0, u[4].1), u[5].0, u[5].1), u[6].0, u[6].1), u[7].0, u[7].1), u[8].0, u[8].1)
  {
    var a1 := Put(e, u[0].0, u[0].1);
    assert Assign(e, u[..1]) == a1 by { assert u[..0] == []; AssignStep(e, u, 0); }
    var a2 := Put(a1, u[1].0, u[1].1);
    assert Assign(e, u[..2]) == a2 by { AssignStep(e, u, 1); }
    var a3 := Put(a2, u[2].0, u[2].1);
    assert Assign(e, u[..3]) == a3 by { AssignStep(e, u, 2); }
    var a4 := Put(a3, u[3].0, u[3].1);
    assert Assign(e, u[..4]) == a4 by { AssignStep(e, u, 3); }
    var a5 := Put(a4, u[4].0, u[4].1);
    assert Assign(e, u[..5]) == a5 by { AssignStep(e, u, 4); }
    var a6 := Put(a5, u[5].0, u[5].1);
    assert Assign(e, u[..6]) == a6 by { AssignStep(e, u, 5); }
    var a7 := Put(a6, u[6].0, u[6].1);
    assert Assign(e, u[..7]) == a7 by { AssignStep(e, u, 6); }
    var a8 := Put(a7, u[7].0, u[7].1);
    assert Assign(e, u[..8]) == a8 by { AssignStep(e, u, 7); }
    assert Assign(e, u[..9]) == Put(a8, u[8].0, u[8].1) by { AssignStep(e, u, 8); }
    assert u[..9] == u;
  }
}
