/**
 * The procedure checker (sql-checkers/type-procedure-checker.js). For every table of the
 * table data it compares each stored procedure with the table's columns. It checks two
 * things: the number of parameters the procedure's kind calls for, and, parameter by
 * parameter, the SQL type of the column of the same name. The warnings the script logs
 * are modelled as a list of reports.
 */
module TypeProcedureChecker {
  import opened Wrappers
  import opened Seqs
  import opened JsObject
  import opened DataFromDatabase

  /** What the checker logs. */
  datatype Report =
    | NoProcedures(tableName: string)
    | ShouldHaveOneParameter(tableName: string, procedureName: string, nameWithSchema: string)
    | WrongParameterCount(tableName: string, procedureName: string, nameWithSchema: string, expected: int, actual: nat)
    | TypeMismatch(tableName: string, procedureName: string, parameterName: string, parameterType: string,
                   columnName: string, columnType: string)

  /** The paging and sorting parameters every list procedure adds. */
  const ListExtraColumns: seq<string> := ["Limit", "Page_Size", "Page_Number", "Sort_Data_Field", "Sort_Order"]

  // ---------------------------------------------------------------------------------
  // The expected parameter count

  /** The columns a procedure kind does not take as parameters. */
  predicate IgnoredBy(tableName: string, procedureName: string, c: Column) {
    if procedureName == "List" then c.name == "ID"
    else if procedureName == "Insert" then
      c.name == "ID" || c.name == "Is_System" || c.name == "Created_Date" || c.name == "Modified_Date"
      || (tableName == "BlackList" && c.name == "Blocked_Date")
    else if procedureName == "Update" then
      c.name == "Is_System" || c.name == "Created_By" || c.name == "Created_Date" || c.name == "Modified_Date"
      || (tableName == "BlackList" && c.name == "Blocked_Date")
    else false
  }

  /** The columns a list procedure filters by range, so with two parameters each. */
  predicate IsRangeColumn(c: Column) {
    c.name == "Created_Date" || c.name == "Modified_Date" || c.dataTypeSql == "datetime"
  }

  /** `ignoreColumnsCount` after the column loop. */
  function IgnoreCount(tableName: string, procedureName: string, columns: seq<Column>): nat {
    if columns == [] then 0
    else
      IgnoreCount(tableName, procedureName, columns[..|columns| - 1])
        + (if IgnoredBy(tableName, procedureName, columns[|columns| - 1]) then 1 else 0)
  }

  /** What the column loop adds to `expectedColumns`: one per range column of a list procedure. */
  function RangeCount(procedureName: string, columns: seq<Column>): nat {
    if columns == [] || procedureName != "List" then 0
    else RangeCount(procedureName, columns[..|columns| - 1]) + (if IsRangeColumn(columns[|columns| - 1]) then 1 else 0)
  }

  /** The columns a procedure kind takes, in column order. */
  function ParameterColumns(tableName: string, procedureName: string, columns: seq<Column>): (r: seq<Column>)
    ensures forall i :: 0 <= i < |r| ==> r[i] in columns && !IgnoredBy(tableName, procedureName, r[i])
    ensures forall c :: c in columns && !IgnoredBy(tableName, procedureName, c) ==> c in r
  {
    if columns == [] then []
    else
      var c := columns[|columns| - 1];
      assert columns == columns[..|columns| - 1] + [c];
      ParameterColumns(tableName, procedureName, columns[..|columns| - 1])
        + (if IgnoredBy(tableName, procedureName, c) then [] else [c])
  }

  /** The range columns of a table, in column order. */
  function RangeColumns(columns: seq<Column>): (r: seq<Column>)
    ensures forall i :: 0 <= i < |r| ==> r[i] in columns && IsRangeColumn(r[i])
    ensures forall c :: c in columns && IsRangeColumn(c) ==> c in r
  {
    if columns == [] then []
    else
      var c := columns[|columns| - 1];
      assert columns == columns[..|columns| - 1] + [c];
      RangeColumns(columns[..|columns| - 1]) + (if IsRangeColumn(c) then [c] else [])
  }

  /** Every column is either ignored or taken. */
  lemma {:induction false} IgnoreCountSplit(tableName: string, procedureName: string, columns: seq<Column>)
    ensures IgnoreCount(tableName, procedureName, columns) + |ParameterColumns(tableName, procedureName, columns)| == |columns|
    decreases |columns|
  {
    if columns != [] {
      IgnoreCountSplit(tableName, procedureName, columns[..|columns| - 1]);
    }
  }

  /** A list procedure counts exactly its range columns. */
  lemma {:induction false} RangeCountIsRangeColumns(columns: seq<Column>)
    ensures RangeCount("List", columns) == |RangeColumns(columns)|
    decreases |columns|
  {
    if columns != [] {
      RangeCountIsRangeColumns(columns[..|columns| - 1]);
    }
  }

  /**
   * The expected parameter count of a procedure, as the script computes it after the
   * column loop. An insert takes one parameter per column it does not ignore. An update
   * takes the same, less two for `User`. A list takes one per column but the key, one
   * more per range column, the five paging and sorting parameters, and two more for
   * `EmailTracking` and `Permission`. Any other procedure takes one per column.
   */
  function ExpectedCount(tableName: string, procedureName: string, columns: seq<Column>): (r: int)
    ensures procedureName == "Insert" ==> r == |ParameterColumns(tableName, procedureName, columns)|
    ensures procedureName == "Update" ==>
      r == |ParameterColumns(tableName, procedureName, columns)| - (if tableName == "User" then 2 else 0)
    ensures procedureName == "List" ==>
      r == |ParameterColumns(tableName, procedureName, columns)| + |RangeColumns(columns)| + 5
           + (if tableName == "EmailTracking" || tableName == "Permission" then 2 else 0)
    ensures procedureName !in ["Insert", "Update", "List"] ==> r == |columns|
  {
    IgnoreCountSplit(tableName, procedureName, columns);
    RangeCountIsRangeColumns(columns);
    var expected := |columns| + RangeCount(procedureName, columns);
    var ignored := IgnoreCount(tableName, procedureName, columns);
    if procedureName == "Insert" then expected - ignored
    else if procedureName == "List" then
      expected - ignored + |ListExtraColumns| + (if tableName == "EmailTracking" || tableName == "Permission" then 2 else 0)
    else if procedureName == "Update" then expected - ignored - (if tableName == "User" then 2 else 0)
    else expected
  }

  /** An insert never expects more parameters than the table has columns, nor fewer than none. */
  lemma InsertExpectedBounds(tableName: string, columns: seq<Column>)
    ensures 0 <= ExpectedCount(tableName, "Insert", columns) <= |columns|
  {
    IgnoreCountSplit(tableName, "Insert", columns);
  }

  /** The column loop: the two counters as the script leaves them. */
  method CountColumns(tableName: string, procedureName: string, columns: seq<Column>)
    returns (ignoreColumnsCount: nat, expectedColumns: nat)
    ensures ignoreColumnsCount == IgnoreCount(tableName, procedureName, columns)
    ensures expectedColumns == |columns| + RangeCount(procedureName, columns)
  {
    ignoreColumnsCount := 0;
    expectedColumns := |columns|;
    for i := 0 to |columns|
      invariant ignoreColumnsCount == IgnoreCount(tableName, procedureName, columns[..i])
      invariant expectedColumns == |columns| + RangeCount(procedureName, columns[..i])
    {
      assert columns[..i + 1][..i] == columns[..i];
      var column := columns[i];
      if procedureName == "List" {
        if column.name == "ID" {
          ignoreColumnsCount := ignoreColumnsCount + 1;
        }
        if column.name == "Created_Date" || column.name == "Modified_Date" {
          expectedColumns := expectedColumns + 1;
        } else if column.dataTypeSql == "datetime" {
          expectedColumns := expectedColumns + 1;
        }
      } else if procedureName == "Insert" {
        if column.name == "ID" || column.name == "Is_System" || column.name == "Created_Date" || column.name == "Modified_Date"
          || (tableName == "BlackList" && column.name == "Blocked_Date") {
          ignoreColumnsCount := ignoreColumnsCount + 1;
        }
      } else if procedureName == "Update" {
        if column.name == "Is_System" || column.name == "Created_By" || column.name == "Created_Date" || column.name == "Modified_Date"
          || (tableName == "BlackList" && column.name == "Blocked_Date") {
          ignoreColumnsCount := ignoreColumnsCount + 1;
        }
      }
    }
    assert columns[..|columns|] == columns;
  }

  /** The key-only procedures. */
  predicate IsKeyOnly(procedureName: string) {
    procedureName == "Delete" || procedureName == "Get"
  }

  /**
   * The count warning of one procedure: a key-only procedure is reported exactly when it
   * does not have a single parameter, any other exactly when its count is not the expected one.
   */
  function CountReports(tableName: string, procedureName: string, procedure: Procedure, columns: seq<Column>): (r: seq<Report>)
    ensures |r| <= 1
    ensures IsKeyOnly(procedureName) ==> (r == [] <==> |procedure.parameters| == 1)
    ensures !IsKeyOnly(procedureName) ==> (r == [] <==> |procedure.parameters| == ExpectedCount(tableName, procedureName, columns))
    ensures r != [] && !IsKeyOnly(procedureName) ==>
      r[0] == WrongParameterCount(tableName, procedureName, procedure.nameWithSchema,
                                  ExpectedCount(tableName, procedureName, columns), |procedure.parameters|)
  {
    if IsKeyOnly(procedureName) then
      if |procedure.parameters| != 1 then [ShouldHaveOneParameter(tableName, procedureName, procedure.nameWithSchema)] else []
    else
      var expected := ExpectedCount(tableName, procedureName, columns);
      if |procedure.parameters| != expected
      then [WrongParameterCount(tableName, procedureName, procedure.nameWithSchema, expected, |procedure.parameters|)]
      else []
  }

  // ---------------------------------------------------------------------------------
  // The type check

  /** The paging and sorting parameters, which no column matches. */
  predicate IsPagingParameter(name: string) {
    name == "@Limit" || name == "@Page_Size" || name == "@Page_Number" || name == "@Sort_Data_Field" || name == "@Sort_Order"
  }

  /** Column `i` is the first with the given Pascal-case name. */
  predicate FirstWithPascal(columns: seq<Column>, namePascal: string, i: int) {
    && 0 <= i < |columns|
    && columns[i].namePascal == namePascal
    && forall j :: 0 <= j < i ==> columns[j].namePascal != namePascal
  }

  /** `columns.find`: the first column with the given Pascal-case name. */
  function FindByPascal(columns: seq<Column>, namePascal: string): (r: Option<Column>)
    ensures r.None? <==> forall i :: 0 <= i < |columns| ==> columns[i].namePascal != namePascal
    ensures r.Some? ==> exists i :: FirstWithPascal(columns, namePascal, i) && columns[i] == r.value
  {
    if columns == [] then None
    else if columns[0].namePascal == namePascal then Some(columns[0])
    else
      var r := FindByPascal(columns[1..], namePascal);
      if r.Some? then
        var i :| FirstWithPascal(columns[1..], namePascal, i) && columns[1..][i] == r.value;
        assert forall j :: 1 <= j < i + 1 ==> columns[j] == columns[1..][j - 1];
        assert FirstWithPascal(columns, namePascal, i + 1);
        r
      else r
  }

  /** `columns.find`, as the loop it stands for. */
  method Find(columns: seq<Column>, namePascal: string) returns (column: Option<Column>)
    ensures column == FindByPascal(columns, namePascal)
  {
    var i := 0;
    while i < |columns|
      invariant 0 <= i <= |columns|
      invariant FindByPascal(columns, namePascal) == FindByPascal(columns[i..], namePascal)
    {
      if columns[i].namePascal == namePascal {
        return Some(columns[i]);
      }
      assert columns[i..][1..] == columns[i + 1..];
      i := i + 1;
    }
    return None;
  }

  /** A parameter the type check reports: not paging, matched by a column, and typed differently. */
  predicate Mismatched(columns: seq<Column>, p: Parameter) {
    && !IsPagingParameter(p.name)
    && FindByPascal(columns, p.namePascal).Some?
    && FindByPascal(columns, p.namePascal).value.dataTypeSql != p.dataTypeSql
  }

  /** The type report of one parameter, if any. */
  function TypeReport(tableName: string, procedureName: string, columns: seq<Column>, p: Parameter): (r: seq<Report>)
    ensures |r| <= 1
    ensures r != [] <==> Mismatched(columns, p)
  {
    if IsPagingParameter(p.name) then []
    else
      match FindByPascal(columns, p.namePascal)
      case None => []
      case Some(column) =>
        if column.dataTypeSql != p.dataTypeSql
        then [TypeMismatch(tableName, procedureName, p.name, p.dataTypeSql, column.name, column.dataTypeSql)]
        else []
  }

  /** The type reports of a procedure's parameters, in parameter order. */
  function TypeReports(tableName: string, procedureName: string, columns: seq<Column>, parameters: seq<Parameter>): seq<Report> {
    if parameters == [] then []
    else
      TypeReports(tableName, procedureName, columns, parameters[..|parameters| - 1])
        + TypeReport(tableName, procedureName, columns, parameters[|parameters| - 1])
  }

  /** The parameters the type check reports, in order. */
  function MismatchedParameters(columns: seq<Column>, parameters: seq<Parameter>): (r: seq<Parameter>)
    ensures forall i :: 0 <= i < |r| ==> r[i] in parameters && Mismatched(columns, r[i])
    ensures forall p :: p in parameters && Mismatched(columns, p) ==> p in r
  {
    if parameters == [] then []
    else
      var p := parameters[|parameters| - 1];
      assert parameters == parameters[..|parameters| - 1] + [p];
      MismatchedParameters(columns, parameters[..|parameters| - 1]) + (if Mismatched(columns, p) then [p] else [])
  }

  /**
   * `MismatchedParameters` keeps the parameter order: it distributes over concatenation
   * and keeps a single parameter exactly when it is mismatched.
   */
  lemma {:induction false} MismatchedConcat(columns: seq<Column>, a: seq<Parameter>, b: seq<Parameter>)
    ensures MismatchedParameters(columns, a + b) == MismatchedParameters(columns, a) + MismatchedParameters(columns, b)
    decreases |b|
  {
    if b == [] {
      assert a + b == a;
    } else {
      FrontOfAppend(a, b);
      MismatchedConcat(columns, a, b[..|b| - 1]);
    }
  }

  /** A single parameter is reported exactly when it is mismatched. */
  lemma MismatchedOne(columns: seq<Column>, p: Parameter)
    ensures MismatchedParameters(columns, [p]) == (if Mismatched(columns, p) then [p] else [])
  {
    assert [p][..0] == [];
  }

  /**
   * Exactly one type report per mismatched parameter, in parameter order, naming that
   * parameter and the column's type.
   */
  lemma {:induction false} TypeReportsExact(tableName: string, procedureName: string, columns: seq<Column>, parameters: seq<Parameter>)
    ensures var r := TypeReports(tableName, procedureName, columns, parameters);
      var m := MismatchedParameters(columns, parameters);
      && |r| == |m|
      && forall k :: 0 <= k < |r| ==>
           && r[k].TypeMismatch?
           && r[k].parameterName == m[k].name
           && r[k].parameterType == m[k].dataTypeSql
           && r[k].columnType == FindByPascal(columns, m[k].namePascal).value.dataTypeSql
    decreases |parameters|
  {
    if parameters != [] {
      TypeReportsExact(tableName, procedureName, columns, parameters[..|parameters| - 1]);
    }
  }

  /** A procedure passes the type check exactly when none of its parameters is mismatched. */
  lemma TypeReportsEmpty(tableName: string, procedureName: string, columns: seq<Column>, parameters: seq<Parameter>)
    ensures TypeReports(tableName, procedureName, columns, parameters) == [] <==>
      forall i :: 0 <= i < |parameters| ==> !Mismatched(columns, parameters[i])
  {
    TypeReportsExact(tableName, procedureName, columns, parameters);
    var m := MismatchedParameters(columns, parameters);
    if m != [] {
      assert m[0] in parameters;
    }
    if exists i :: 0 <= i < |parameters| && Mismatched(columns, parameters[i]) {
      var i :| 0 <= i < |parameters| && Mismatched(columns, parameters[i]);
      assert parameters[i] in m;
    }
  }

  /** The parameter loop of one procedure. */
  method CheckParameters(tableName: string, procedureName: string, columns: seq<Column>, parameters: seq<Parameter>)
    returns (reports: seq<Report>)
    ensures reports == TypeReports(tableName, procedureName, columns, parameters)
  {
    reports := [];
    for i := 0 to |parameters|
      invariant reports == TypeReports(tableName, procedureName, columns, parameters[..i])
    {
      assert parameters[..i + 1][..i] == parameters[..i];
      var parameter := parameters[i];
      if IsPagingParameter(parameter.name) {
        continue;
      }
      var column := Find(columns, parameter.namePascal);
      if column.None? {
        continue;
      }
      if column.value.dataTypeSql != parameter.dataTypeSql {
        reports := reports + [TypeMismatch(tableName, procedureName, parameter.name, parameter.dataTypeSql,
                                           column.value.name, column.value.dataTypeSql)];
      }
    }
    assert parameters[..|parameters|] == parameters;
  }

  // ---------------------------------------------------------------------------------
  // Tables and procedures

  /** The reports of one procedure: its count warning, then its type reports. */
  function ProcedureReports(tableName: string, columns: seq<Column>, procedureName: string, procedure: Procedure): seq<Report> {
    CountReports(tableName, procedureName, procedure, columns)
      + TypeReports(tableName, procedureName, columns, procedure.parameters)
  }

  /** The reports of a procedures object, procedure by procedure in key order. */
  function ProceduresReports(tableName: string, columns: seq<Column>, procedures: Entries<Procedure>): seq<Report> {
    if procedures == [] then []
    else
      var last := procedures[|procedures| - 1];
      ProceduresReports(tableName, columns, procedures[..|procedures| - 1]) + ProcedureReports(tableName, columns, last.0, last.1)
  }

  /** The reports of one table: a table without procedures is reported once and nothing else is checked. */
  function TableReports(tableName: string, table: TableData): (r: seq<Report>)
    ensures table.procedures.None? ==> r == [NoProcedures(tableName)]
    ensures table.procedures.Some? ==> forall k :: 0 <= k < |r| ==> !r[k].NoProcedures?
  {
    match table.procedures
    case None => [NoProcedures(tableName)]
    case Some(procedures) =>
      ProceduresReportsNoTable(tableName, table.columns, procedures);
      ProceduresReports(tableName, table.columns, procedures)
  }

  /** Procedure checks never report a missing procedures object. */
  lemma {:induction false} ProceduresReportsNoTable(tableName: string, columns: seq<Column>, procedures: Entries<Procedure>)
    ensures forall k :: 0 <= k < |ProceduresReports(tableName, columns, procedures)| ==>
      !ProceduresReports(tableName, columns, procedures)[k].NoProcedures?
    decreases |procedures|
  {
    if procedures != [] {
      ProceduresReportsNoTable(tableName, columns, procedures[..|procedures| - 1]);
      var last := procedures[|procedures| - 1];
      TypeReportsExact(tableName, last.0, columns, last.1.parameters);
    }
  }

  /** A procedure that passes both checks adds no report to its table. */
  lemma CleanProcedureSilent(tableName: string, columns: seq<Column>, procedures: Entries<Procedure>, procedureName: string, procedure: Procedure)
    requires IsKeyOnly(procedureName) ==> |procedure.parameters| == 1
    requires !IsKeyOnly(procedureName) ==> |procedure.parameters| == ExpectedCount(tableName, procedureName, columns)
    requires forall i :: 0 <= i < |procedure.parameters| ==> !Mismatched(columns, procedure.parameters[i])
    ensures ProceduresReports(tableName, columns, procedures + [(procedureName, procedure)])
      == ProceduresReports(tableName, columns, procedures)
  {
    TypeReportsEmpty(tableName, procedureName, columns, procedure.parameters);
    assert (procedures + [(procedureName, procedure)])[..|procedures|] == procedures;
  }

  /** The column loop, then the adjustment of `expectedColumns` by procedure kind and table. */
  method ExpectedColumns(tableName: string, procedureName: string, columns: seq<Column>) returns (expected: int)
    ensures expected == ExpectedCount(tableName, procedureName, columns)
  {
    var ignoreColumnsCount, expectedColumns := CountColumns(tableName, procedureName, columns);
    expected := expectedColumns;
    if procedureName == "Insert" {
      expected := expected - ignoreColumnsCount;
    } else if procedureName == "List" {
      expected := expected - ignoreColumnsCount + |ListExtraColumns|;
      if tableName == "EmailTracking" || tableName == "Permission" {
        expected := expected + 2;
      }
    } else if procedureName == "Update" {
      expected := expected - ignoreColumnsCount;
      if tableName == "User" {
        expected := expected - 2;
      }
    }
  }

  /** The checks of one procedure: the column loop, the count check, then the parameter loop. */
  method CheckProcedure(tableName: string, columns: seq<Column>, procedureName: string, procedure: Procedure)
    returns (reports: seq<Report>)
    ensures reports == ProcedureReports(tableName, columns, procedureName, procedure)
  {
    var expected := ExpectedColumns(tableName, procedureName, columns);
    reports := [];
    if procedureName == "Delete" || procedureName == "Get" {
      if |procedure.parameters| != 1 {
        reports := [ShouldHaveOneParameter(tableName, procedureName, procedure.nameWithSchema)];
      }
    } else if |procedure.parameters| != expected {
      reports := [WrongParameterCount(tableName, procedureName, procedure.nameWithSchema, expected, |procedure.parameters|)];
    }
    var typeReports := CheckParameters(tableName, procedureName, columns, procedure.parameters);
    reports := reports + typeReports;
  }

  /** The checks of one table. */
  method CheckTable(tableName: string, table: TableData) returns (reports: seq<Report>)
    ensures reports == TableReports(tableName, table)
  {
    if table.procedures.None? {
      return [NoProcedures(tableName)];
    }
    var procedures := table.procedures.value;
    reports := [];
    for i := 0 to |procedures|
      invariant reports == ProceduresReports(tableName, table.columns, procedures[..i])
    {
      assert procedures[..i + 1][..i] == procedures[..i];
      var procedureReports := CheckProcedure(tableName, table.columns, procedures[i].0, procedures[i].1);
      reports := reports + procedureReports;
    }
    assert procedures[..|procedures|] == procedures;
  }

  /** The reports of the named tables, table by table. */
  function AllReports(tables: Tables, names: seq<string>): seq<Report>
    requires forall i :: 0 <= i < |names| ==> names[i] in Keys(tables)
  {
    if names == [] then []
    else
      var last := names[|names| - 1];
      AllReports(tables, names[..|names| - 1]) + TableReports(last, Get(tables, last).value)
  }

  /** One more table adds its own reports at the end. */
  lemma AllReportsStep(tables: Tables, names: seq<string>, k: nat)
    requires forall i :: 0 <= i < |names| ==> names[i] in Keys(tables)
    requires k < |names|
    ensures AllReports(tables, names[..k + 1]) == AllReports(tables, names[..k]) + TableReports(names[k], Get(tables, names[k]).value)
  {
    assert names[..k + 1][..k] == names[..k];
  }

  /** The script: every key of the table data, whatever the include and exclude lists say. */
  method CheckAll(tables: Tables) returns (reports: seq<Report>)
    ensures reports == AllReports(tables, Keys(tables))
  {
    var tableNames := Keys(tables);
    reports := [];
    for i := 0 to |tableNames|
      invariant reports == AllReports(tables, tableNames[..i])
    {
      AllReportsStep(tables, tableNames, i);
      var tableReports := CheckTable(tableNames[i], Get(tables, tableNames[i]).value);
      reports := reports + tableReports;
    }
    assert tableNames[..|tableNames|] == tableNames;
  }
}
