/**
 * The metadata step (generate-data-from-database.js): the flat column rows and
 * procedure-parameter rows read from SQL Server are normalised and grouped into the
 * per-table records every generator reads. The query itself is an input: the two row
 * sequences are what the server returned.
 */
module DataFromDatabase {
  import opened Wrappers
  import opened Strings
  import opened JsObject
  import Config

  /** A row of the column query. `defaultValue` is `None` for SQL `NULL`. */
  datatype ColumnRow = ColumnRow(
    tableName: string,
    columnName: string,
    dataType: string,
    isNullable: bool,
    maxLength: int,
    defaultValue: Option<string>)

  /** A row of the procedure-parameter query. `defaultValue` is `None` for SQL `NULL`. */
  datatype ParameterRow = ParameterRow(
    procedureName: string,
    parameterName: string,
    dataType: string,
    maxLength: int,
    defaultValue: Option<string>)

  /**
   * Every row has a default that is not `NULL`. The second `reduce` calls
   * `DefaultValue.replace` on every row, without the guard the column pass has, so on
   * any other input it throws before a result exists.
   */
  predicate DefaultsPresent(rows: seq<ParameterRow>) {
    forall i :: 0 <= i < |rows| ==> rows[i].defaultValue.Some?
  }

  /**
   * A column of `tables.json`. A SQL type missing from the type table gives the .NET type
   * the text `undefined`, as the scripts that read it print it.
   */
  datatype Column = Column(
    name: string,
    nameCamel: string,
    namePascal: string,
    dataTypeSql: string,
    dataTypeSqlWithLength: string,
    dataTypeDotNet: string,
    defaultValue: Option<string>,
    isNullable: bool,
    isEncrypted: bool,
    isReadOnly: bool,
    isProtected: bool)

  /** A stored-procedure parameter of `tables.json`. */
  datatype Parameter = Parameter(
    name: string,
    nameCamel: string,
    namePascal: string,
    dataTypeSql: string,
    dataTypeSqlWithLength: string,
    dataTypeDotNet: string,
    defaultValue: string,
    isRequired: bool)

  datatype Procedure = Procedure(key: string, name: string, nameWithSchema: string, parameters: seq<Parameter>)

  /** A table of `tables.json`: `procedures` is absent until a parameter row names the table. */
  datatype TableData = TableData(columns: seq<Column>, procedures: Option<Entries<Procedure>>)

  type Tables = Entries<TableData>

  /** The two .NET date types. */
  predicate IsDateTime(dataTypeDotNet: string) {
    dataTypeDotNet == "DateTime" || dataTypeDotNet == "DateTime?"
  }

  /** The key and the four audit columns every entity inherits from its base. */
  predicate IsBaseEntityColumn(name: string) {
    name == "ID" || name == "Created_By" || name == "Created_Date" || name == "Modified_By" || name == "Modified_Date"
  }

  /** What a missing entry of the type table prints as. */
  const Undefined := "undefined"

  /** The SQL types whose declaration carries a length. */
  predicate HasLength(dataType: string) {
    dataType == "nvarchar" || dataType == "varchar" || dataType == "char" || dataType == "nchar"
  }

  /**
   * `toDataTypeSqlWithLength`: the four character types get `(n)`, or `(MAX)` for a
   * negative length; every other type is returned unchanged.
   */
  function ToDataTypeSqlWithLength(dataType: string, maxLength: int): (r: string)
    ensures HasLength(dataType) ==> r == dataType + "(" + (if maxLength < 0 then "MAX" else NatToString(maxLength)) + ")"
    ensures !HasLength(dataType) ==> r == dataType
  {
    if HasLength(dataType) then
      dataType + "(" + (if maxLength < 0 then "MAX" else NatToString(maxLength)) + ")"
    else dataType
  }

  /** The .NET type before the nullable suffix. */
  function BaseDotNetType(dataType: string): string {
    Config.DotNetTypeOf(dataType).GetOr(Undefined)
  }

  /** The bool default rewrite: `0` and `1` become `false` and `true` for bool columns. */
  function BoolDefault(dotNetType: string, d: string): (r: string)
    ensures dotNetType == "bool" && d == "0" ==> r == "false"
    ensures dotNetType == "bool" && d == "1" ==> r == "true"
    ensures dotNetType != "bool" || (d != "0" && d != "1") ==> r == d
  {
    if dotNetType == "bool" && d == "0" then "false"
    else if dotNetType == "bool" && d == "1" then "true"
    else d
  }

  /** Columns that are encrypted: User.Username, User.Password, UserProfile.Email_Address. */
  predicate IsEncryptedColumn(tableName: string, columnName: string) {
    (tableName == "User" && (columnName == "Username" || columnName == "Password"))
    || (tableName == "UserProfile" && columnName == "Email_Address")
  }

  /** Columns that are protected: User.Brand_ID, User.User_Code, UserSetting.Referral_Code. */
  predicate IsProtectedColumn(tableName: string, columnName: string) {
    (tableName == "User" && (columnName == "Brand_ID" || columnName == "User_Code"))
    || (tableName == "UserSetting" && columnName == "Referral_Code")
  }

  /** Columns read-only in every table. */
  predicate IsAlwaysReadOnly(columnName: string) {
    columnName == "ID" || columnName == "Is_System" || columnName == "Modified_Date" || columnName == "Created_Date"
  }

  /** The table-specific read-only columns: the protected ones and BlackList.Blocked_Date. */
  predicate IsTableReadOnly(tableName: string, columnName: string) {
    IsProtectedColumn(tableName, columnName) || (tableName == "BlackList" && columnName == "Blocked_Date")
  }

  /** The first reduce's per-row conversion; `camelCase` and `upperFirst` are lodash's. */
  function NormaliseColumn(row: ColumnRow, camelCase: string -> string, upperFirst: string -> string): Column
  {
    var base := BaseDotNetType(row.dataType);
    var nameCamel := camelCase(ReplaceFirst(row.columnName, "_iOS", "iO_s"));
    var defaultValue := match row.defaultValue
      case None => None
      case Some(d) => Some(BoolDefault(base, StripParentheses(d)));
    var dotNetType := if row.isNullable && base != "string" then base + "?" else base;
    var isEncrypted := IsEncryptedColumn(row.tableName, row.columnName);
    var isProtected := IsProtectedColumn(row.tableName, row.columnName);
    var isReadOnly := IsTableReadOnly(row.tableName, row.columnName) || IsAlwaysReadOnly(row.columnName);
    Column(row.columnName, nameCamel, upperFirst(nameCamel), row.dataType,
           ToDataTypeSqlWithLength(row.dataType, row.maxLength), dotNetType, defaultValue,
           row.isNullable, isEncrypted, isReadOnly, isProtected)
  }

  /** What the per-row conversion makes of a column row. */
  lemma NormaliseColumnSpec(row: ColumnRow, camelCase: string -> string, upperFirst: string -> string)
    ensures var c := NormaliseColumn(row, camelCase, upperFirst);
      c.name == row.columnName && c.dataTypeSql == row.dataType && c.isNullable == row.isNullable
      && c.dataTypeSqlWithLength == ToDataTypeSqlWithLength(row.dataType, row.maxLength)
      && c.nameCamel == camelCase(ReplaceFirst(row.columnName, "_iOS", "iO_s"))
      && c.namePascal == upperFirst(c.nameCamel)
      // The `?` suffix is added exactly for nullable columns whose type is not `string`.
      && c.dataTypeDotNet == BaseDotNetType(row.dataType)
           + (if row.isNullable && BaseDotNetType(row.dataType) != "string" then "?" else "")
      // Defaults lose their parentheses; a bool default `0`/`1` becomes `false`/`true`.
      && (row.defaultValue.None? <==> c.defaultValue.None?)
      && (row.defaultValue.Some? ==>
           c.defaultValue.value == BoolDefault(BaseDotNetType(row.dataType), StripParentheses(row.defaultValue.value)))
      && (c.isEncrypted <==> IsEncryptedColumn(row.tableName, row.columnName))
      && (c.isProtected <==> IsProtectedColumn(row.tableName, row.columnName))
      && (c.isReadOnly <==> IsAlwaysReadOnly(row.columnName) || IsTableReadOnly(row.tableName, row.columnName))
      && (c.isProtected ==> c.isReadOnly)
  {
  }

  /** A normalised .NET type ends in `?` exactly when the column is nullable and not a string. */
  lemma NullableSuffix(row: ColumnRow, camelCase: string -> string, upperFirst: string -> string)
    ensures var t := NormaliseColumn(row, camelCase, upperFirst).dataTypeDotNet;
      t != [] && (t[|t| - 1] == '?' <==> row.isNullable && BaseDotNetType(row.dataType) != "string")
  {
    var base := BaseDotNetType(row.dataType);
    BaseHasNoSuffix(row.dataType);
    var t := if row.isNullable && base != "string" then base + "?" else base;
    assert NormaliseColumn(row, camelCase, upperFirst).dataTypeDotNet == t;
    if row.isNullable && base != "string" {
      assert t[|t| - 1] == '?';
    }
  }

  /** A base .NET type, mapped or `undefined`, is never empty and never ends in `?`. */
  lemma BaseHasNoSuffix(dataType: string)
    ensures var b := BaseDotNetType(dataType); b != [] && b[|b| - 1] != '?'
  {
    Config.NoMappedTypeIsNullable();
    if dataType in Config.SqlDataTypeMapping {
      assert BaseDotNetType(dataType) == Config.SqlDataTypeMapping[dataType];
    }
  }

  /** A normalised default never contains a parenthesis. */
  lemma DefaultHasNoParentheses(row: ColumnRow, camelCase: string -> string, upperFirst: string -> string)
    requires row.defaultValue.Some?
    ensures var d := NormaliseColumn(row, camelCase, upperFirst).defaultValue.value;
      '(' !in d && ')' !in d
  {
  }

  /** The table step: one column per row appended to its table, the first row creating it. */
  function AddColumn(acc: Tables, tableName: string, c: Column): Tables
  {
    match Get(acc, tableName)
    case None => Put(acc, tableName, TableData([c], None))
    case Some(d) => Put(acc, tableName, d.(columns := d.columns + [c]))
  }

  /** The first `reduce` over the column rows. */
  function ColumnsByTable(rows: seq<ColumnRow>, camelCase: string -> string, upperFirst: string -> string): Tables
  {
    if rows == [] then []
    else
      var last := rows[|rows| - 1];
      AddColumn(ColumnsByTable(rows[..|rows| - 1], camelCase, upperFirst), last.tableName,
                NormaliseColumn(last, camelCase, upperFirst))
  }

  /** The normalised columns of the rows of table `t`, in input order. */
  function ColumnsOf(rows: seq<ColumnRow>, t: string, camelCase: string -> string, upperFirst: string -> string): seq<Column>
  {
    if rows == [] then []
    else
      var last := rows[|rows| - 1];
      ColumnsOf(rows[..|rows| - 1], t, camelCase, upperFirst)
        + (if last.tableName == t then [NormaliseColumn(last, camelCase, upperFirst)] else [])
  }

  /** The table names of the rows, each once, in order of first appearance. */
  function TableNamesOf(rows: seq<ColumnRow>): seq<string>
  {
    if rows == [] then []
    else
      var names := TableNamesOf(rows[..|rows| - 1]);
      var t := rows[|rows| - 1].tableName;
      if t in names then names else names + [t]
  }

  /** The table record the rows of `t` make: absent without rows, else their columns and no procedures. */
  function GroupOf(rows: seq<ColumnRow>, t: string, camelCase: string -> string, upperFirst: string -> string): Option<TableData>
  {
    var columns := ColumnsOf(rows, t, camelCase, upperFirst);
    if columns == [] then None else Some(TableData(columns, None))
  }

  /** The first `reduce` keys the tables by name, in order of first appearance. */
  lemma {:induction false} ColumnsKeys(rows: seq<ColumnRow>, camelCase: string -> string, upperFirst: string -> string)
    ensures Keys(ColumnsByTable(rows, camelCase, upperFirst)) == TableNamesOf(rows)
    decreases |rows|
  {
    if rows != [] {
      var front := rows[..|rows| - 1];
      var last := rows[|rows| - 1];
      var acc := ColumnsByTable(front, camelCase, upperFirst);
      var c := NormaliseColumn(last, camelCase, upperFirst);
      ColumnsKeys(front, camelCase, upperFirst);
      match Get(acc, last.tableName)
      case None => KeysPut(acc, last.tableName, TableData([c], None));
      case Some(d) => KeysPut(acc, last.tableName, d.(columns := d.columns + [c]));
    }
  }

  /**
   * The grouping the first `reduce` performs: a table's columns are its rows, normalised,
   * in input order, and no table has procedures yet.
   */
  lemma {:induction false} ColumnsGrouped(rows: seq<ColumnRow>, camelCase: string -> string, upperFirst: string -> string, t: string)
    ensures Get(ColumnsByTable(rows, camelCase, upperFirst), t) == GroupOf(rows, t, camelCase, upperFirst)
    decreases |rows|
  {
    if rows != [] {
      var front := rows[..|rows| - 1];
      var last := rows[|rows| - 1];
      var acc := ColumnsByTable(front, camelCase, upperFirst);
      var c := NormaliseColumn(last, camelCase, upperFirst);
      var r := ColumnsByTable(rows, camelCase, upperFirst);
      ColumnsGrouped(front, camelCase, upperFirst, t);
      assert r == AddColumn(acc, last.tableName, c);
      if t != last.tableName {
        assert ColumnsOf(rows, t, camelCase, upperFirst) == ColumnsOf(front, t, camelCase, upperFirst);
        AddColumnElsewhere(acc, last.tableName, c, t);
        assert Get(r, t) == Get(acc, t);
        assert GroupOf(rows, t, camelCase, upperFirst) == GroupOf(front, t, camelCase, upperFirst);
      } else {
        assert ColumnsOf(rows, t, camelCase, upperFirst) == ColumnsOf(front, t, camelCase, upperFirst) + [c];
        AddColumnHere(acc, t, c);
        assert GroupOf(rows, t, camelCase, upperFirst) == Some(TableData(ColumnsOf(front, t, camelCase, upperFirst) + [c], None));
        var before := ColumnsOf(front, t, camelCase, upperFirst);
        if before == [] {
          assert Get(acc, t) == None;
          assert before + [c] == [c];
        } else {
          assert Get(acc, t) == Some(TableData(before, None));
        }
      }
    } else {
      assert GroupOf(rows, t, camelCase, upperFirst) == None;
    }
  }

  /** Adding a column to one table leaves every other table as it was. */
  lemma AddColumnElsewhere(acc: Tables, tableName: string, c: Column, t: string)
    requires t != tableName
    ensures Get(AddColumn(acc, tableName, c), t) == Get(acc, t)
  {
    match Get(acc, tableName)
    case None => GetPut(acc, tableName, TableData([c], None), t);
    case Some(d) => GetPut(acc, tableName, d.(columns := d.columns + [c]), t);
  }

  /** Adding a column to a table appends it to that table's columns, creating the table if needed. */
  lemma AddColumnHere(acc: Tables, t: string, c: Column)
    ensures Get(AddColumn(acc, t, c), t)
         == Some(match Get(acc, t) case None => TableData([c], None) case Some(d) => d.(columns := d.columns + [c]))
  {
    match Get(acc, t)
    case None => GetPut(acc, t, TableData([c], None), t);
    case Some(d) => GetPut(acc, t, d.(columns := d.columns + [c]), t);
  }

  /** The first `reduce`, as the loop it performs. */
  method CollectColumns(rows: seq<ColumnRow>, camelCase: string -> string, upperFirst: string -> string)
    returns (tables: Tables)
    ensures tables == ColumnsByTable(rows, camelCase, upperFirst)
    ensures forall t :: Get(tables, t) == GroupOf(rows, t, camelCase, upperFirst)
  {
    tables := [];
    for i := 0 to |rows|
      invariant tables == ColumnsByTable(rows[..i], camelCase, upperFirst)
    {
      assert rows[..i + 1][..i] == rows[..i];
      var c := NormaliseColumn(rows[i], camelCase, upperFirst);
      var existing := Get(tables, rows[i].tableName);
      if existing.None? {
        tables := Put(tables, rows[i].tableName, TableData([c], None));
      } else {
        var d := existing.value;
        tables := Put(tables, rows[i].tableName, d.(columns := d.columns + [c]));
      }
    }
    assert rows[..|rows|] == rows;
    forall t ensures Get(tables, t) == GroupOf(rows, t, camelCase, upperFirst) {
      ColumnsGrouped(rows, camelCase, upperFirst, t);
    }
  }

  /** `procedureNameParts[i]`, or the text `undefined` past the end. */
  function PartOrUndefined(parts: seq<string>, i: nat): string {
    if i < |parts| then parts[i] else Undefined
  }

  /** The table part of a procedure name: `sp_User_Get` names table `User`. */
  function TablePart(procedureName: string): string {
    PartOrUndefined(Split(procedureName, '_'), 1)
  }

  /** The procedure key part of a procedure name: `sp_User_Get` has key `Get`. */
  function KeyPart(procedureName: string): string {
    PartOrUndefined(Split(procedureName, '_'), 2)
  }

  /** The second reduce's per-row conversion. */
  function NormaliseParameter(row: ParameterRow, camelCase: string -> string, upperFirst: string -> string): (p: Parameter)
    requires row.defaultValue.Some?
    ensures p.name == row.parameterName && p.dataTypeSql == row.dataType
    ensures p.dataTypeSqlWithLength == ToDataTypeSqlWithLength(row.dataType, row.maxLength)
    ensures p.dataTypeDotNet == BaseDotNetType(row.dataType)
    ensures p.defaultValue == BoolDefault(p.dataTypeDotNet, StripCarriageReturns(row.defaultValue.value))
    ensures '\r' !in p.defaultValue
    // A parameter is required exactly when its default, after removing `\r`, is empty.
    ensures p.isRequired <==> StripCarriageReturns(row.defaultValue.value) == ""
  {
    var base := BaseDotNetType(row.dataType);
    var defaultValue := BoolDefault(base, StripCarriageReturns(row.defaultValue.value));
    var nameCamel := camelCase(ReplaceFirst(row.parameterName, "_iOS", "iO_s"));
    Parameter(row.parameterName, nameCamel, upperFirst(nameCamel), row.dataType,
              ToDataTypeSqlWithLength(row.dataType, row.maxLength), base, defaultValue, defaultValue == "")
  }

  /** The procedure record a row creates: `key` is the table part and the key part in Pascal case. */
  function NewProcedure(row: ParameterRow, schema: string, camelCase: string -> string, upperFirst: string -> string): (p: Procedure)
    requires row.defaultValue.Some?
    ensures p.name == row.procedureName
    ensures p.nameWithSchema == "[" + schema + "].[" + row.procedureName + "]"
    ensures p.parameters == [NormaliseParameter(row, camelCase, upperFirst)]
  {
    var parts := Split(row.procedureName, '_');
    // `_.camelCase(undefined)` is the empty string.
    var keyText := if 2 < |parts| then parts[2] else "";
    Procedure(TablePart(row.procedureName) + upperFirst(camelCase(keyText)), row.procedureName,
              "[" + schema + "].[" + row.procedureName + "]", [NormaliseParameter(row, camelCase, upperFirst)])
  }

  /** The procedure step for one row: a row whose table is unknown is dropped. */
  function AddParameter(acc: Tables, row: ParameterRow, schema: string, camelCase: string -> string, upperFirst: string -> string): Tables
    requires row.defaultValue.Some?
  {
    var tableName := TablePart(row.procedureName);
    var key := KeyPart(row.procedureName);
    var param := NormaliseParameter(row, camelCase, upperFirst);
    match Get(acc, tableName)
    case None => acc
    case Some(d) =>
      match d.procedures
      case None => Put(acc, tableName, d.(procedures := Some([(key, NewProcedure(row, schema, camelCase, upperFirst))])))
      case Some(procs) =>
        match Get(procs, key)
        case None => Put(acc, tableName, d.(procedures := Some(Put(procs, key, NewProcedure(row, schema, camelCase, upperFirst)))))
        case Some(p) => Put(acc, tableName, d.(procedures := Some(Put(procs, key, p.(parameters := p.parameters + [param])))))
  }

  /** The second `reduce`, started from the tables of the first. */
  function ProceduresAdded(acc: Tables, rows: seq<ParameterRow>, schema: string, camelCase: string -> string, upperFirst: string -> string): Tables
    requires DefaultsPresent(rows)
  {
    if rows == [] then acc
    else
      var last := rows[|rows| - 1];
      AddParameter(ProceduresAdded(acc, rows[..|rows| - 1], schema, camelCase, upperFirst), last, schema, camelCase, upperFirst)
  }

  /** The procedure `k` of table `t`, if there is one. */
  function ProcedureAt(tables: Tables, t: string, k: string): Option<Procedure> {
    match Get(tables, t)
    case None => None
    case Some(d) =>
      match d.procedures
      case None => None
      case Some(procs) => Get(procs, k)
  }

  /**
   * The reference grouping of parameter rows: the procedure `(t, k)` is created by its
   * first row (name, key, schema-qualified name) and collects every such row's parameter
   * in input order.
   */
  function ProcedureFor(rows: seq<ParameterRow>, t: string, k: string, schema: string, camelCase: string -> string, upperFirst: string -> string): Option<Procedure>
    requires DefaultsPresent(rows)
  {
    if rows == [] then None
    else
      var last := rows[|rows| - 1];
      var p := ProcedureFor(rows[..|rows| - 1], t, k, schema, camelCase, upperFirst);
      if TablePart(last.procedureName) != t || KeyPart(last.procedureName) != k then p
      else if p.None? then Some(NewProcedure(last, schema, camelCase, upperFirst))
      else Some(p.value.(parameters := p.value.parameters + [NormaliseParameter(last, camelCase, upperFirst)]))
  }

  /** One procedure row adds no table, removes none and leaves every table's columns as they were. */
  lemma AddParameterTables(acc: Tables, row: ParameterRow, schema: string, camelCase: string -> string, upperFirst: string -> string, t: string)
    requires row.defaultValue.Some?
    ensures Keys(AddParameter(acc, row, schema, camelCase, upperFirst)) == Keys(acc)
    ensures Get(AddParameter(acc, row, schema, camelCase, upperFirst), t).Some? <==> Get(acc, t).Some?
    ensures Get(acc, t).Some? ==> Get(AddParameter(acc, row, schema, camelCase, upperFirst), t).value.columns == Get(acc, t).value.columns
  {
    var tableName := TablePart(row.procedureName);
    var key := KeyPart(row.procedureName);
    var np := NewProcedure(row, schema, camelCase, upperFirst);
    match Get(acc, tableName)
    case None =>
    case Some(d) =>
      assert tableName in Keys(acc);
      match d.procedures
      case None =>
        TableReplaced(acc, tableName, d.(procedures := Some([(key, np)])), t);
      case Some(procs) =>
        match Get(procs, key)
        case None =>
          TableReplaced(acc, tableName, d.(procedures := Some(Put(procs, key, np))), t);
        case Some(p) =>
          var param := NormaliseParameter(row, camelCase, upperFirst);
          TableReplaced(acc, tableName, d.(procedures := Some(Put(procs, key, p.(parameters := p.parameters + [param])))), t);
  }

  /** A known table has a `procedures` entry after a row exactly when it had one before or the row names it. */
  lemma AddParameterProcedures(acc: Tables, row: ParameterRow, schema: string, camelCase: string -> string, upperFirst: string -> string, t: string)
    requires row.defaultValue.Some? && Get(acc, t).Some?
    ensures Get(AddParameter(acc, row, schema, camelCase, upperFirst), t).Some?
    ensures Get(AddParameter(acc, row, schema, camelCase, upperFirst), t).value.procedures.Some? <==>
      Get(acc, t).value.procedures.Some? || TablePart(row.procedureName) == t
  {
    var tableName := TablePart(row.procedureName);
    var key := KeyPart(row.procedureName);
    var np := NewProcedure(row, schema, camelCase, upperFirst);
    match Get(acc, tableName)
    case None =>
    case Some(d) =>
      match d.procedures
      case None =>
        GetPut(acc, tableName, d.(procedures := Some([(key, np)])), t);
      case Some(procs) =>
        match Get(procs, key)
        case None =>
          GetPut(acc, tableName, d.(procedures := Some(Put(procs, key, np))), t);
        case Some(p) =>
          var param := NormaliseParameter(row, camelCase, upperFirst);
          GetPut(acc, tableName, d.(procedures := Some(Put(procs, key, p.(parameters := p.parameters + [param])))), t);
  }

  /** Replacing a present table by one with the same columns keeps keys, presence and columns. */
  lemma TableReplaced(acc: Tables, tableName: string, d': TableData, t: string)
    requires Get(acc, tableName).Some? && d'.columns == Get(acc, tableName).value.columns
    ensures Keys(Put(acc, tableName, d')) == Keys(acc)
    ensures Get(Put(acc, tableName, d'), t).Some? <==> Get(acc, t).Some?
    ensures Get(acc, t).Some? ==> Get(Put(acc, tableName, d'), t).value.columns == Get(acc, t).value.columns
  {
    GetPut(acc, tableName, d', t);
    KeysPut(acc, tableName, d');
  }

  /** One procedure row changes only the procedure it names, as `ProcedureFor` extends it. */
  lemma AddParameterAt(acc: Tables, row: ParameterRow, schema: string, camelCase: string -> string, upperFirst: string -> string, t: string, k: string)
    requires row.defaultValue.Some?
    ensures Get(acc, t).Some? ==>
      ProcedureAt(AddParameter(acc, row, schema, camelCase, upperFirst), t, k)
      == (var p := ProcedureAt(acc, t, k);
          if TablePart(row.procedureName) != t || KeyPart(row.procedureName) != k then p
          else if p.None? then Some(NewProcedure(row, schema, camelCase, upperFirst))
          else Some(p.value.(parameters := p.value.parameters + [NormaliseParameter(row, camelCase, upperFirst)])))
  {
    var tableName := TablePart(row.procedureName);
    var key := KeyPart(row.procedureName);
    var param := NormaliseParameter(row, camelCase, upperFirst);
    var np := NewProcedure(row, schema, camelCase, upperFirst);
    match Get(acc, tableName)
    case None =>
    case Some(d) =>
      match d.procedures
      case None =>
        var d' := d.(procedures := Some([(key, np)]));
        GetPut(acc, tableName, d', t);
      case Some(procs) =>
        match Get(procs, key)
        case None =>
          var d' := d.(procedures := Some(Put(procs, key, np)));
          GetPut(acc, tableName, d', t);
          GetPut(procs, key, np, k);
        case Some(p) =>
          var d' := d.(procedures := Some(Put(procs, key, p.(parameters := p.parameters + [param]))));
          GetPut(acc, tableName, d', t);
          GetPut(procs, key, p.(parameters := p.parameters + [param]), k);
  }

  /** Some parameter row names a procedure of table `t`. */
  predicate NamesTable(rows: seq<ParameterRow>, t: string) {
    exists i :: 0 <= i < |rows| && TablePart(rows[i].procedureName) == t
  }

  /**
   * The grouping the second `reduce` performs on tables without procedures: no table is
   * added or removed, columns are untouched, a known table gets a `procedures` entry
   * exactly when some row names it, and each procedure of a known table is the
   * reference grouping of its rows; rows naming an unknown table are dropped.
   */
  lemma {:induction false} ProceduresGrouped(acc: Tables, rows: seq<ParameterRow>, schema: string, camelCase: string -> string, upperFirst: string -> string, t: string, k: string)
    requires NoProcedures(acc) && DefaultsPresent(rows)
    ensures Keys(ProceduresAdded(acc, rows, schema, camelCase, upperFirst)) == Keys(acc)
    ensures Get(ProceduresAdded(acc, rows, schema, camelCase, upperFirst), t).Some? <==> Get(acc, t).Some?
    ensures Get(acc, t).Some? ==>
      && Get(ProceduresAdded(acc, rows, schema, camelCase, upperFirst), t).value.columns == Get(acc, t).value.columns
      && (Get(ProceduresAdded(acc, rows, schema, camelCase, upperFirst), t).value.procedures.Some? <==> NamesTable(rows, t))
      && ProcedureAt(ProceduresAdded(acc, rows, schema, camelCase, upperFirst), t, k)
         == ProcedureFor(rows, t, k, schema, camelCase, upperFirst)
    decreases |rows|
  {
    if rows == [] {
      if Get(acc, t).Some? {
        GetIndex(acc, t);
        var i :| 0 <= i < |acc| && acc[i] == (t, Get(acc, t).value);
        assert acc[i].1.procedures.None?;
      }
    } else {
      var front := rows[..|rows| - 1];
      ProceduresGrouped(acc, front, schema, camelCase, upperFirst, t, k);
      AddParameterTables(ProceduresAdded(acc, front, schema, camelCase, upperFirst), rows[|rows| - 1], schema, camelCase, upperFirst, t);
      AddParameterAt(ProceduresAdded(acc, front, schema, camelCase, upperFirst), rows[|rows| - 1], schema, camelCase, upperFirst, t, k);
      NamesTableStep(rows, t);
      if Get(acc, t).Some? {
        AddParameterProcedures(ProceduresAdded(acc, front, schema, camelCase, upperFirst), rows[|rows| - 1], schema, camelCase, upperFirst, t);
      }
    }
  }

  /** One more row names table `t` exactly when the earlier rows or the new one do. */
  lemma NamesTableStep(rows: seq<ParameterRow>, t: string)
    requires rows != []
    ensures NamesTable(rows, t) <==>
      NamesTable(rows[..|rows| - 1], t) || TablePart(rows[|rows| - 1].procedureName) == t
  {
    var front := rows[..|rows| - 1];
    if NamesTable(front, t) {
      var i :| 0 <= i < |front| && TablePart(front[i].procedureName) == t;
      assert rows[i] == front[i];
    }
    if NamesTable(rows, t) && TablePart(rows[|rows| - 1].procedureName) != t {
      var i :| 0 <= i < |rows| && TablePart(rows[i].procedureName) == t;
      assert front[i] == rows[i];
    }
  }

  /** A key that reads as present reads the value of some entry with that key. */
  lemma {:induction false} GetIndex(acc: Tables, t: string)
    requires Get(acc, t).Some?
    ensures exists i :: 0 <= i < |acc| && acc[i] == (t, Get(acc, t).value)
    decreases |acc|
  {
    if acc[0].0 != t {
      GetIndex(acc[1..], t);
      var i :| 0 <= i < |acc[1..]| && acc[1..][i] == (t, Get(acc[1..], t).value);
      assert acc[i + 1] == (t, Get(acc, t).value);
    } else {
      assert acc[0] == (t, Get(acc, t).value);
    }
  }

  /**
   * The second `reduce`, as the loop it performs over the accumulator. `None` is the
   * `TypeError` a `NULL` parameter default raises, which ends the run with nothing saved.
   */
  method CollectProcedures(tables: Tables, rows: seq<ParameterRow>, schema: string, camelCase: string -> string, upperFirst: string -> string)
    returns (result: Option<Tables>)
    ensures result.None? <==> !DefaultsPresent(rows)
    ensures result.Some? ==> result.value == ProceduresAdded(tables, rows, schema, camelCase, upperFirst)
  {
    var acc := tables;
    for i := 0 to |rows|
      invariant DefaultsPresent(rows[..i])
      invariant acc == ProceduresAdded(tables, rows[..i], schema, camelCase, upperFirst)
    {
      var row := rows[i];
      if row.defaultValue.None? {
        return None;
      }
      CollectStep(tables, rows, i, schema, camelCase, upperFirst);
      ghost var before := acc;
      var tableName := TablePart(row.procedureName);
      var key := KeyPart(row.procedureName);
      var param := NormaliseParameter(row, camelCase, upperFirst);
      var entry := Get(acc, tableName);
      if entry.None? {
        continue;
      }
      var d := entry.value;
      if d.procedures.None? {
        acc := Put(acc, tableName, d.(procedures := Some([(key, NewProcedure(row, schema, camelCase, upperFirst))])));
      } else {
        var procs := d.procedures.value;
        var existing := Get(procs, key);
        if existing.None? {
          acc := Put(acc, tableName, d.(procedures := Some(Put(procs, key, NewProcedure(row, schema, camelCase, upperFirst)))));
        } else {
          var p := existing.value;
          acc := Put(acc, tableName, d.(procedures := Some(Put(procs, key, p.(parameters := p.parameters + [param])))));
        }
      }
      assert acc == AddParameter(before, row, schema, camelCase, upperFirst);
    }
    assert rows[..|rows|] == rows;
    result := Some(acc);
  }

  /** One more row with a default: the reduce over it is one more `AddParameter`. */
  lemma CollectStep(tables: Tables, rows: seq<ParameterRow>, i: nat, schema: string, camelCase: string -> string, upperFirst: string -> string)
    requires i < |rows| && DefaultsPresent(rows[..i]) && rows[i].defaultValue.Some?
    ensures DefaultsPresent(rows[..i + 1])
    ensures ProceduresAdded(tables, rows[..i + 1], schema, camelCase, upperFirst)
         == AddParameter(ProceduresAdded(tables, rows[..i], schema, camelCase, upperFirst), rows[i], schema, camelCase, upperFirst)
  {
    assert rows[..i + 1][..i] == rows[..i];
    assert rows[..i + 1][i] == rows[i];
  }

  /**
   * `processResultData`: the tables with their columns and procedures, or `None` when a
   * parameter default is `NULL` and the second `reduce` throws.
   */
  method ProcessResultData(tableInfo: seq<ColumnRow>, procedureInfo: seq<ParameterRow>, schema: string, camelCase: string -> string, upperFirst: string -> string)
    returns (result: Option<Tables>)
    ensures result.None? <==> !DefaultsPresent(procedureInfo)
    ensures result.Some? ==> Keys(result.value) == TableNamesOf(tableInfo)
    ensures result.Some? ==> forall t :: Get(result.value, t).Some? <==> ColumnsOf(tableInfo, t, camelCase, upperFirst) != []
    ensures result.Some? ==> forall t :: Get(result.value, t).Some? ==> Get(result.value, t).value.columns == ColumnsOf(tableInfo, t, camelCase, upperFirst)
    ensures result.Some? ==> forall t :: Get(result.value, t).Some? ==>
      (Get(result.value, t).value.procedures.Some? <==> NamesTable(procedureInfo, t))
    ensures result.Some? && DefaultsPresent(procedureInfo) ==> forall t, k :: Get(result.value, t).Some? ==>
      ProcedureAt(result.value, t, k) == ProcedureFor(procedureInfo, t, k, schema, camelCase, upperFirst)
  {
    var columns := CollectColumns(tableInfo, camelCase, upperFirst);
    NoProceduresYet(tableInfo, camelCase, upperFirst);
    result := CollectProcedures(columns, procedureInfo, schema, camelCase, upperFirst);
    if result.None? {
      return;
    }
    var tables := result.value;
    ColumnsKeys(tableInfo, camelCase, upperFirst);
    ProceduresGrouped(columns, procedureInfo, schema, camelCase, upperFirst, "", "");
    forall t ensures Get(tables, t).Some? <==> ColumnsOf(tableInfo, t, camelCase, upperFirst) != [] {
      ProceduresGrouped(columns, procedureInfo, schema, camelCase, upperFirst, t, "");
    }
    forall t | Get(tables, t).Some?
      ensures Get(tables, t).value.columns == ColumnsOf(tableInfo, t, camelCase, upperFirst)
      ensures Get(tables, t).value.procedures.Some? <==> NamesTable(procedureInfo, t)
    {
      ProceduresGrouped(columns, procedureInfo, schema, camelCase, upperFirst, t, "");
    }
    forall t, k | Get(tables, t).Some?
      ensures ProcedureAt(tables, t, k) == ProcedureFor(procedureInfo, t, k, schema, camelCase, upperFirst)
    {
      ProceduresGrouped(columns, procedureInfo, schema, camelCase, upperFirst, t, k);
    }
  }

  /** No table has a `procedures` entry. */
  ghost predicate NoProcedures(acc: Tables) {
    forall i :: 0 <= i < |acc| ==> acc[i].1.procedures.None?
  }

  /** The first `reduce` leaves every table without procedures. */
  lemma {:induction false} NoProceduresYet(rows: seq<ColumnRow>, camelCase: string -> string, upperFirst: string -> string)
    ensures NoProcedures(ColumnsByTable(rows, camelCase, upperFirst))
    decreases |rows|
  {
    if rows != [] {
      var front := rows[..|rows| - 1];
      var last := rows[|rows| - 1];
      NoProceduresYet(front, camelCase, upperFirst);
      var acc := ColumnsByTable(front, camelCase, upperFirst);
      var c := NormaliseColumn(last, camelCase, upperFirst);
      match Get(acc, last.tableName)
      case None => PutPreserves(acc, last.tableName, TableData([c], None));
      case Some(d) =>
        GetIndex(acc, last.tableName);
        PutPreserves(acc, last.tableName, d.(columns := d.columns + [c]));
    }
  }

  /** Writing a table without procedures keeps "no table has procedures". */
  lemma {:induction false} PutPreserves(acc: Tables, t: string, d: TableData)
    requires NoProcedures(acc)
    requires d.procedures.None?
    ensures NoProcedures(Put(acc, t, d))
    decreases |acc|
  {
    if acc != [] && acc[0].0 != t {
      PutPreserves(acc[1..], t, d);
      var r := Put(acc, t, d);
      assert r == [acc[0]] + Put(acc[1..], t, d);
      forall i | 0 <= i < |r| ensures r[i].1.procedures.None? {
        if i > 0 {
          assert r[i] == Put(acc[1..], t, d)[i - 1];
        }
      }
    } else if acc != [] {
      var r := Put(acc, t, d);
      assert r == [(t, d)] + acc[1..];
      forall i | 0 <= i < |r| ensures r[i].1.procedures.None? {
        if i > 0 {
          assert r[i] == acc[i];
        }
      }
    }
  }
}
