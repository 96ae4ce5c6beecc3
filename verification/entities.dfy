/**
 * The entity generator (generate-code_entities.js): per table three C# files, the
 * entity interface, the partial entity class (column constants, row parsing and the
 * insert/update parameter lists) and the entity implementation (properties and
 * encrypted backing fields). Each file's parts are collected column by column in a
 * record that is fresh for every table.
 */
module Entities {
  import opened Wrappers
  import opened Strings
  import opened Seqs
  import opened JsObject
  import opened Utils
  import opened DataFromDatabase

  /** The fragment templates of the interface template, as opaque text. */
  datatype InterfaceDefinitions = InterfaceDefinitions(column: string, encryptedColumn: string)

  /** The fragment templates of the partial-class template. */
  datatype PartialDefinitions = PartialDefinitions(
    parameter: string,
    encryptedParameter: string,
    columnParse: string,
    encryptedColumnParse: string,
    columnConstant: string)

  /** The fragment templates of the implementation template. */
  datatype ImplementDefinitions = ImplementDefinitions(column: string, encryptedColumn: string, encryptedField: string)

  /** `type` with a `?` unless it already has one or is `string`. */
  function NullableType(dotNetType: string): (t: string)
    ensures !Contains(dotNetType, "?") && dotNetType != "string" ==> t == dotNetType + "?"
    ensures Contains(dotNetType, "?") || dotNetType == "string" ==> t == dotNetType
  {
    if !Contains(dotNetType, "?") && dotNetType != "string" then dotNetType + "?" else dotNetType
  }

  // ---------------------------------------------------------------------------------
  // The interface

  /** The interface record: usings, inherited interfaces and property definitions. */
  datatype InterfaceParts = InterfaceParts(usings: seq<string>, inheritedInterfaces: seq<string>, columns: seq<string>)

  /** The replacements of an interface property. */
  function InterfaceReplacements(tableName: string, c: Column): Entries<string> {
    [("entityName", tableName), ("columnName", c.name), ("columnNamePascal", c.namePascal),
     ("columnType", NullableType(c.dataTypeDotNet))]
  }

  /** The columns that get an interface property: all but the base columns and `Is_System`. */
  predicate HasInterfaceProperty(name: string) {
    !IsBaseEntityColumn(name) && name != "Is_System"
  }

  /**
   * `handleColumnForInterface`: base columns add nothing, `Is_System` adds the
   * `IHasIsSystem` interface, and every other column one property, plus `System` the
   * first time a date type is seen.
   */
  function WithInterfaceColumn(defs: InterfaceDefinitions, tableName: string, st: InterfaceParts, c: Column): InterfaceParts {
    if IsBaseEntityColumn(c.name) then st
    else if c.name == "Is_System" then st.(inheritedInterfaces := st.inheritedInterfaces + ["IHasIsSystem"])
    else
      var definition := if c.isEncrypted then defs.encryptedColumn else defs.column;
      st.(usings := if "System" !in st.usings && IsDateTime(c.dataTypeDotNet) then st.usings + ["System"] else st.usings,
          columns := st.columns + [Filled(definition, InterfaceReplacements(tableName, c), true)])
  }

  function InterfaceColumns(defs: InterfaceDefinitions, tableName: string, st: InterfaceParts, columns: seq<Column>): InterfaceParts {
    if columns == [] then st
    else WithInterfaceColumn(defs, tableName, InterfaceColumns(defs, tableName, st, columns[..|columns| - 1]), columns[|columns| - 1])
  }

  /** The names of some columns, in order. */
  function Names(columns: seq<Column>): (r: seq<string>)
    ensures |r| == |columns| && forall i :: 0 <= i < |columns| ==> r[i] == columns[i].name
  {
    if columns == [] then [] else Names(columns[..|columns| - 1]) + [columns[|columns| - 1].name]
  }

  /** The columns that get an interface property, in order. */
  function PropertyColumns(columns: seq<Column>): (r: seq<Column>)
    ensures forall i :: 0 <= i < |r| ==> r[i] in columns && HasInterfaceProperty(r[i].name)
    ensures forall c :: c in columns && HasInterfaceProperty(c.name) ==> c in r
  {
    if columns == [] then []
    else
      var c := columns[|columns| - 1];
      assert columns == columns[..|columns| - 1] + [c];
      PropertyColumns(columns[..|columns| - 1]) + (if HasInterfaceProperty(c.name) then [c] else [])
  }

  /**
   * After the columns: one `IHasIsSystem` per `Is_System` column appended to the
   * interfaces, and one property per remaining non-base column, in column order.
   */
  lemma {:induction false} InterfaceColumnsShape(defs: InterfaceDefinitions, tableName: string, st: InterfaceParts, columns: seq<Column>)
    ensures var r := InterfaceColumns(defs, tableName, st, columns);
      var kept := PropertyColumns(columns);
      && st.inheritedInterfaces <= r.inheritedInterfaces
      && |r.inheritedInterfaces| == |st.inheritedInterfaces| + Count(Names(columns), "Is_System")
      && (forall i :: |st.inheritedInterfaces| <= i < |r.inheritedInterfaces| ==> r.inheritedInterfaces[i] == "IHasIsSystem")
      && |r.columns| == |st.columns| + |kept|
      && st.columns <= r.columns
      && forall k :: 0 <= k < |kept| ==>
           r.columns[|st.columns| + k]
             == Filled(if kept[k].isEncrypted then defs.encryptedColumn else defs.column, InterfaceReplacements(tableName, kept[k]), true)
    decreases |columns|
  {
    if columns != [] {
      var front := columns[..|columns| - 1];
      InterfaceColumnsShape(defs, tableName, st, front);
      assert Names(columns) == Names(front) + [columns[|columns| - 1].name];
      CountAppend(Names(front), [columns[|columns| - 1].name], "Is_System");
      assert [columns[|columns| - 1].name][..0] == [];
    }
  }

  /** Some column satisfies `p`. */
  predicate AnyColumn(columns: seq<Column>, p: Column -> bool) {
    exists i :: 0 <= i < |columns| && p(columns[i])
  }

  /** One more column has some column satisfying `p` exactly when the earlier ones did or it does. */
  lemma AnyColumnLast(columns: seq<Column>, p: Column -> bool)
    requires columns != []
    ensures AnyColumn(columns, p) <==> AnyColumn(columns[..|columns| - 1], p) || p(columns[|columns| - 1])
  {
    var front := columns[..|columns| - 1];
    if AnyColumn(front, p) {
      var i :| 0 <= i < |front| && p(front[i]);
      assert columns[i] == front[i];
    }
    if AnyColumn(columns, p) {
      var i :| 0 <= i < |columns| && p(columns[i]);
      if i < |front| {
        assert front[i] == columns[i];
      }
    }
  }

  /** A column whose interface property has a date type. */
  predicate DatedProperty(c: Column) {
    HasInterfaceProperty(c.name) && IsDateTime(c.dataTypeDotNet)
  }

  /** `push(x)` raises the count of `x` by one and leaves every other count alone. */
  lemma CountAppendOne(s: seq<string>, x: string, y: string)
    ensures Count(s + [x], y) == Count(s, y) + (if x == y then 1 else 0)
  {
    CountAppend(s, [x], y);
    assert [x][..0] == [];
  }

  /** `System` is added to the interface usings only when it is not there yet. */
  lemma {:induction false} InterfaceSystemOnce(defs: InterfaceDefinitions, tableName: string, st: InterfaceParts, columns: seq<Column>)
    requires Count(st.usings, "System") <= 1
    ensures Count(InterfaceColumns(defs, tableName, st, columns).usings, "System") <= 1
    decreases |columns|
  {
    if columns != [] {
      var before := InterfaceColumns(defs, tableName, st, columns[..|columns| - 1]);
      InterfaceSystemOnce(defs, tableName, st, columns[..|columns| - 1]);
      CountAppendOne(before.usings, "System", "System");
      CountZero(before.usings, "System");
    }
  }

  /** `System` is in the interface usings exactly when it was at the start or a property column has a date type. */
  lemma {:induction false} InterfaceSystemUsing(defs: InterfaceDefinitions, tableName: string, st: InterfaceParts, columns: seq<Column>)
    ensures "System" in InterfaceColumns(defs, tableName, st, columns).usings <==>
      "System" in st.usings || AnyColumn(columns, DatedProperty)
    decreases |columns|
  {
    if columns != [] {
      InterfaceSystemUsing(defs, tableName, st, columns[..|columns| - 1]);
      AnyColumnLast(columns, DatedProperty);
    }
  }

  /** `handleColumnForInterface`, statement by statement. */
  method HandleColumnForInterface(defs: InterfaceDefinitions, tableName: string, st: InterfaceParts, column: Column)
    returns (st': InterfaceParts)
    ensures st' == WithInterfaceColumn(defs, tableName, st, column)
  {
    st' := st;
    if IsBaseEntityColumn(column.name) {
      return;
    } else if column.name == "Is_System" {
      st' := st'.(inheritedInterfaces := st'.inheritedInterfaces + ["IHasIsSystem"]);
      return;
    }
    if "System" !in st'.usings {
      if column.dataTypeDotNet == "DateTime" || column.dataTypeDotNet == "DateTime?" {
        st' := st'.(usings := st'.usings + ["System"]);
      }
    }
    var columnDefinition;
    if column.isEncrypted {
      columnDefinition := defs.encryptedColumn;
    } else {
      columnDefinition := defs.column;
    }
    var columnType := column.dataTypeDotNet;
    if !Contains(columnType, "?") && column.dataTypeDotNet != "string" {
      columnType := columnType + "?";
    }
    var replacements := [("entityName", tableName), ("columnName", column.name),
                         ("columnNamePascal", column.namePascal), ("columnType", columnType)];
    var content := FillTemplate(columnDefinition, replacements, true);
    st' := st'.(columns := st'.columns + [content]);
  }

  // ---------------------------------------------------------------------------------
  // The partial class

  /** The partial-class record: column constants, parse lines and the two parameter lists. */
  datatype PartialParts = PartialParts(columns: seq<string>, parsings: seq<string>)

  /** The column constant of a column (`handleColumns`). */
  function ColumnConstant(defs: PartialDefinitions, c: Column): string {
    Filled(defs.columnConstant, [("columnName", c.name), ("columnNamePascal", c.namePascal)], true)
  }

  /** The parse line of a column (`handleParsings`). */
  function ColumnParse(defs: PartialDefinitions, c: Column): string {
    Filled(if c.isEncrypted then defs.encryptedColumnParse else defs.columnParse,
           [("columnNamePascal", c.namePascal), ("columnType", c.dataTypeDotNet)], true)
  }

  /** `handleColumnForPartial`: a constant for every column but `ID`, and a parse line for every column. */
  function WithPartialColumn(defs: PartialDefinitions, st: PartialParts, c: Column): PartialParts {
    PartialParts(if c.name == "ID" then st.columns else st.columns + [ColumnConstant(defs, c)],
                 st.parsings + [ColumnParse(defs, c)])
  }

  function PartialColumns(defs: PartialDefinitions, st: PartialParts, columns: seq<Column>): PartialParts {
    if columns == [] then st
    else WithPartialColumn(defs, PartialColumns(defs, st, columns[..|columns| - 1]), columns[|columns| - 1])
  }

  /** The columns other than `ID`, in order. */
  function NonKeyColumns(columns: seq<Column>): (r: seq<Column>)
    ensures forall i :: 0 <= i < |r| ==> r[i] in columns && r[i].name != "ID"
    ensures forall c :: c in columns && c.name != "ID" ==> c in r
  {
    if columns == [] then []
    else
      var c := columns[|columns| - 1];
      assert columns == columns[..|columns| - 1] + [c];
      NonKeyColumns(columns[..|columns| - 1]) + (if c.name == "ID" then [] else [c])
  }

  /** Every column, `ID` included, gets a parse line, in column order. */
  lemma {:induction false} PartialParsings(defs: PartialDefinitions, st: PartialParts, columns: seq<Column>)
    ensures var r := PartialColumns(defs, st, columns);
      && |r.parsings| == |st.parsings| + |columns| && st.parsings <= r.parsings
      && forall k :: 0 <= k < |columns| ==> r.parsings[|st.parsings| + k] == ColumnParse(defs, columns[k])
    decreases |columns|
  {
    if columns != [] {
      PartialParsings(defs, st, columns[..|columns| - 1]);
    }
  }

  /** Every column but `ID` gets a constant, in column order. */
  lemma {:induction false} PartialConstants(defs: PartialDefinitions, st: PartialParts, columns: seq<Column>)
    ensures var r := PartialColumns(defs, st, columns);
      var kept := NonKeyColumns(columns);
      && |r.columns| == |st.columns| + |kept| && st.columns <= r.columns
      && forall k :: 0 <= k < |kept| ==> r.columns[|st.columns| + k] == ColumnConstant(defs, kept[k])
    decreases |columns|
  {
    if columns != [] {
      PartialConstants(defs, st, columns[..|columns| - 1]);
    }
  }

  /** `handleColumnForPartial`, statement by statement. */
  method HandleColumnForPartial(defs: PartialDefinitions, st: PartialParts, column: Column) returns (st': PartialParts)
    ensures st' == WithPartialColumn(defs, st, column)
  {
    st' := st;
    if column.name != "ID" {
      var content := FillTemplate(defs.columnConstant, [("columnName", column.name), ("columnNamePascal", column.namePascal)], true);
      st' := st'.(columns := st'.columns + [content]);
    }
    var definition;
    if column.isEncrypted {
      definition := defs.encryptedColumnParse;
    } else {
      definition := defs.columnParse;
    }
    var content := FillTemplate(definition, [("columnNamePascal", column.namePascal), ("columnType", column.dataTypeDotNet)], true);
    st' := st'.(parsings := st'.parsings + [content]);
  }

  /** `columns.find((column) => column.namePascal === namePascal)`. */
  function FindColumn(columns: seq<Column>, namePascal: string): (r: Option<Column>)
    ensures r.None? <==> forall i :: 0 <= i < |columns| ==> columns[i].namePascal != namePascal
    ensures r.Some? ==>
      exists i :: 0 <= i < |columns| && r.value == columns[i] && columns[i].namePascal == namePascal
        && forall j :: 0 <= j < i ==> columns[j].namePascal != namePascal
  {
    if columns == [] then None
    else if columns[0].namePascal == namePascal then
      assert columns[0] == columns[0];
      Some(columns[0])
    else
      var r := FindColumn(columns[1..], namePascal);
      if r.Some? then
        var i :| 0 <= i < |columns[1..]| && r.value == columns[1..][i] && columns[1..][i].namePascal == namePascal
          && forall j :: 0 <= j < i ==> columns[1..][j].namePascal != namePascal;
        assert columns[i + 1] == r.value;
        assert forall j :: 0 < j < i + 1 ==> columns[j] == columns[1..][j - 1];
        r
      else
        assert forall i :: 0 < i < |columns| ==> columns[i] == columns[1..][i - 1];
        None
  }

  /** The `find` loop. */
  method Find(columns: seq<Column>, namePascal: string) returns (r: Option<Column>)
    ensures r == FindColumn(columns, namePascal)
  {
    var i := 0;
    while i < |columns|
      invariant 0 <= i <= |columns|
      invariant FindColumn(columns, namePascal) == FindColumn(columns[i..], namePascal)
    {
      if columns[i].namePascal == namePascal {
        return Some(columns[i]);
      }
      assert columns[i..][1..] == columns[i + 1..];
      i := i + 1;
    }
    return None;
  }

  /**
   * The default clause of a parameter's column: nothing for `Is_System` and for a
   * non-nullable column without a default; otherwise `" ?? "` and the default, or
   * `(object)DBNull.Value` when there is none.
   */
  function ParameterDefault(c: Column): (clause: string)
    ensures c.name == "Is_System" ==> clause == ""
    ensures c.name != "Is_System" && !c.isNullable && c.defaultValue.None? ==> clause == ""
    ensures c.name != "Is_System" && c.defaultValue.Some? ==> clause == " ?? " + c.defaultValue.value
    ensures c.name != "Is_System" && c.isNullable && c.defaultValue.None? ==> clause == " ?? (object)DBNull.Value"
  {
    if c.name == "Is_System" then ""
    else if !c.isNullable && c.defaultValue.None? then ""
    else " ?? " + (match c.defaultValue case Some(d) => d case None => "(object)DBNull.Value")
  }

  /** `processParameter`: the parameter line, or `undefined` when no column has the parameter's name. */
  function ParameterEntry(defs: PartialDefinitions, columns: seq<Column>, p: Parameter): Option<string> {
    match FindColumn(columns, p.namePascal)
    case None => None
    case Some(c) =>
      Some(Filled(if c.isEncrypted then defs.encryptedParameter else defs.parameter,
                  [("columnNamePascal", p.namePascal), ("defaultValue", ParameterDefault(c))], true))
  }

  /** `parameters.map(processParameter)`. */
  function ParameterEntries(defs: PartialDefinitions, columns: seq<Column>, parameters: seq<Parameter>): (r: seq<Option<string>>)
    ensures |r| == |parameters|
    ensures forall i :: 0 <= i < |parameters| ==> r[i] == ParameterEntry(defs, columns, parameters[i])
  {
    if parameters == [] then []
    else ParameterEntries(defs, columns, parameters[..|parameters| - 1]) + [ParameterEntry(defs, columns, parameters[|parameters| - 1])]
  }

  /** One entry per procedure parameter; an entry is missing exactly when no column has the parameter's name. */
  lemma ParameterEntriesMatch(defs: PartialDefinitions, columns: seq<Column>, parameters: seq<Parameter>, i: nat)
    requires i < |parameters|
    ensures ParameterEntries(defs, columns, parameters)[i].None? <==>
      forall j :: 0 <= j < |columns| ==> columns[j].namePascal != parameters[i].namePascal
  {
  }

  /** `array.join(sep)`: a missing entry prints as the empty string. */
  function JoinEntries(entries: seq<Option<string>>, sep: string): string {
    Join(EntryTexts(entries), sep)
  }

  function EntryTexts(entries: seq<Option<string>>): (r: seq<string>)
    ensures |r| == |entries|
    ensures forall i :: 0 <= i < |entries| ==> r[i] == entries[i].GetOr("")
  {
    if entries == [] then [] else EntryTexts(entries[..|entries| - 1]) + [entries[|entries| - 1].GetOr("")]
  }

  /**
   * The insert or update parameter list: the mapped parameters of that procedure when the
   * table has procedures and that one among them, otherwise the empty list it starts as.
   */
  function ProcedureEntries(defs: PartialDefinitions, tableData: TableData, key: string): seq<Option<string>> {
    match tableData.procedures
    case None => []
    case Some(procedures) =>
      match Get(procedures, key)
      case None => []
      case Some(p) => ParameterEntries(defs, tableData.columns, p.parameters)
  }

  /** `processParameter`, statement by statement. */
  method ProcessParameter(defs: PartialDefinitions, columns: seq<Column>, parameter: Parameter) returns (entry: Option<string>)
    ensures entry == ParameterEntry(defs, columns, parameter)
  {
    var found := Find(columns, parameter.namePascal);
    if found.None? {
      return None;
    }
    var column := found.value;
    var defaultValue := "";
    if column.name != "Is_System" {
      if !column.isNullable && column.defaultValue.None? {
        defaultValue := "";
      } else {
        defaultValue := " ?? ";
        if column.defaultValue.Some? {
          defaultValue := defaultValue + column.defaultValue.value;
        } else {
          defaultValue := defaultValue + "(object)DBNull.Value";
        }
      }
    }
    var definition;
    if column.isEncrypted {
      definition := defs.encryptedParameter;
    } else {
      definition := defs.parameter;
    }
    var text := FillTemplate(definition, [("columnNamePascal", parameter.namePascal), ("defaultValue", defaultValue)], true);
    entry := Some(text);
  }

  /** `insertProcedure.parameters.map(processParameter)`. */
  method MapParameters(defs: PartialDefinitions, columns: seq<Column>, parameters: seq<Parameter>) returns (entries: seq<Option<string>>)
    ensures entries == ParameterEntries(defs, columns, parameters)
  {
    entries := [];
    for i := 0 to |parameters|
      invariant entries == ParameterEntries(defs, columns, parameters[..i])
    {
      assert parameters[..i + 1][..i] == parameters[..i];
      var entry := ProcessParameter(defs, columns, parameters[i]);
      entries := entries + [entry];
    }
    assert parameters[..|parameters|] == parameters;
  }

  /** `handleParametersForPartial`: the insert and the update parameter lists. */
  method HandleParametersForPartial(defs: PartialDefinitions, tableData: TableData)
    returns (insertParameters: seq<Option<string>>, updateParameters: seq<Option<string>>)
    ensures insertParameters == ProcedureEntries(defs, tableData, "Insert")
    ensures updateParameters == ProcedureEntries(defs, tableData, "Update")
  {
    insertParameters, updateParameters := [], [];
    if tableData.procedures.Some? {
      var insertProcedure := Get(tableData.procedures.value, "Insert");
      var updateProcedure := Get(tableData.procedures.value, "Update");
      if insertProcedure.Some? {
        insertParameters := MapParameters(defs, tableData.columns, insertProcedure.value.parameters);
      }
      if updateProcedure.Some? {
        updateParameters := MapParameters(defs, tableData.columns, updateProcedure.value.parameters);
      }
    }
  }

  // ---------------------------------------------------------------------------------
  // The implementation

  /** The implementation record: usings, properties and backing fields. */
  datatype ImplementParts = ImplementParts(usings: seq<string>, columns: seq<string>, fields: seq<string>)

  /** The names whose property keeps the column type as it is. */
  predicate KeepsType(name: string) {
    name == "ID" || name == "Is_System" || name == "Modified_Date" || name == "Created_Date"
  }

  /** The names whose value is lower-cased on assignment. */
  predicate IsLowerCased(name: string) {
    name == "Username" || name == "Email_Address"
  }

  /** The implementation property type: the `?` rule applies to every column but the fixed and lower-cased ones. */
  function ImplementType(c: Column): (t: string)
    ensures KeepsType(c.name) || IsLowerCased(c.name) ==> t == c.dataTypeDotNet
    ensures !KeepsType(c.name) && !IsLowerCased(c.name) ==> t == NullableType(c.dataTypeDotNet)
  {
    if KeepsType(c.name) || IsLowerCased(c.name) then c.dataTypeDotNet else NullableType(c.dataTypeDotNet)
  }

  function ImplementReplacements(c: Column): Entries<string> {
    [("columnType", ImplementType(c)), ("columnNamePascal", c.namePascal), ("columnNameCamel", c.nameCamel),
     ("toLower", if IsLowerCased(c.name) then ".ToLower()" else "")]
  }

  /** The usings after a column: `Jfw.Helpers` and then `System` put in front, each only once. */
  function ImplementUsings(usings: seq<string>, c: Column): seq<string> {
    var u := if "Jfw.Helpers" !in usings && c.isEncrypted then ["Jfw.Helpers"] + usings else usings;
    if "System" !in u && IsDateTime(c.dataTypeDotNet) then ["System"] + u else u
  }

  /** `handleColumnForImplement`: every column gets a property; an encrypted one also a backing field. */
  function WithImplementColumn(defs: ImplementDefinitions, st: ImplementParts, c: Column): ImplementParts {
    var r := ImplementReplacements(c);
    ImplementParts(
      ImplementUsings(st.usings, c),
      st.columns + [Filled(if c.isEncrypted then defs.encryptedColumn else defs.column, r, true)],
      st.fields + (if c.isEncrypted then [Filled(defs.encryptedField, r, true)] else []))
  }

  function ImplementColumns(defs: ImplementDefinitions, st: ImplementParts, columns: seq<Column>): ImplementParts {
    if columns == [] then st
    else WithImplementColumn(defs, ImplementColumns(defs, st, columns[..|columns| - 1]), columns[|columns| - 1])
  }

  /** The encrypted columns, in order. */
  function EncryptedColumns(columns: seq<Column>): (r: seq<Column>)
    ensures forall i :: 0 <= i < |r| ==> r[i] in columns && r[i].isEncrypted
    ensures forall c :: c in columns && c.isEncrypted ==> c in r
  {
    if columns == [] then []
    else
      var c := columns[|columns| - 1];
      assert columns == columns[..|columns| - 1] + [c];
      EncryptedColumns(columns[..|columns| - 1]) + (if c.isEncrypted then [c] else [])
  }

  /**
   * One property per column; the fields gain exactly the encrypted columns' backing
   * fields, in order.
   */
  lemma {:induction false} ImplementColumnsShape(defs: ImplementDefinitions, st: ImplementParts, columns: seq<Column>)
    ensures var r := ImplementColumns(defs, st, columns);
      var enc := EncryptedColumns(columns);
      && |r.columns| == |st.columns| + |columns| && st.columns <= r.columns
      && |r.fields| == |st.fields| + |enc| && st.fields <= r.fields
      && forall k :: 0 <= k < |enc| ==> r.fields[|st.fields| + k] == Filled(defs.encryptedField, ImplementReplacements(enc[k]), true)
    decreases |columns|
  {
    if columns != [] {
      ImplementColumnsShape(defs, st, columns[..|columns| - 1]);
    }
  }

  /** `unshift(x)` raises the count of `x` by one and leaves every other count alone. */
  lemma CountFront(s: seq<string>, x: string, y: string)
    ensures Count([x] + s, y) == Count(s, y) + (if x == y then 1 else 0)
  {
    CountAppend([x], s, y);
    assert [x][..0] == [];
  }

  /** An encrypted column. */
  predicate Encrypted(c: Column) {
    c.isEncrypted
  }

  /** A column with a date type. */
  predicate Dated(c: Column) {
    IsDateTime(c.dataTypeDotNet)
  }

  /** Putting `x` in front when asked and absent: `x` at most once, and no other name changes. */
  lemma FrontOnce(usings: seq<string>, x: string, add: bool, y: string)
    requires Count(usings, x) <= 1 && y != x
    ensures var u := if x !in usings && add then [x] + usings else usings;
      && Count(u, x) <= 1 && (x in u <==> x in usings || add)
      && Count(u, y) == Count(usings, y) && (y in u <==> y in usings)
  {
    CountFront(usings, x, x);
    CountFront(usings, x, y);
    CountZero(usings, x);
    assert ([x] + usings)[1..] == usings;
  }

  /** One column puts `Jfw.Helpers` and `System` in front only when absent, and keeps what was there. */
  lemma ImplementUsingsStep(usings: seq<string>, c: Column)
    requires Count(usings, "Jfw.Helpers") <= 1 && Count(usings, "System") <= 1
    ensures var u := ImplementUsings(usings, c);
      && Count(u, "Jfw.Helpers") <= 1 && Count(u, "System") <= 1
      && ("Jfw.Helpers" in u <==> "Jfw.Helpers" in usings || Encrypted(c))
      && ("System" in u <==> "System" in usings || Dated(c))
  {
    FrontOnce(usings, "Jfw.Helpers", c.isEncrypted, "System");
    var u := if "Jfw.Helpers" !in usings && c.isEncrypted then ["Jfw.Helpers"] + usings else usings;
    FrontOnce(u, "System", IsDateTime(c.dataTypeDotNet), "Jfw.Helpers");
  }

  /**
   * `Jfw.Helpers` and `System` are put in front at most once each: each is in the usings
   * exactly when it was at the start or a column asked for it.
   */
  lemma {:induction false} ImplementUsingsOnce(defs: ImplementDefinitions, st: ImplementParts, columns: seq<Column>)
    requires Count(st.usings, "Jfw.Helpers") <= 1 && Count(st.usings, "System") <= 1
    ensures var r := ImplementColumns(defs, st, columns);
      && Count(r.usings, "Jfw.Helpers") <= 1 && Count(r.usings, "System") <= 1
      && ("Jfw.Helpers" in r.usings <==> "Jfw.Helpers" in st.usings || AnyColumn(columns, Encrypted))
      && ("System" in r.usings <==> "System" in st.usings || AnyColumn(columns, Dated))
    decreases |columns|
  {
    if columns != [] {
      var front := columns[..|columns| - 1];
      ImplementUsingsOnce(defs, st, front);
      ImplementUsingsStep(ImplementColumns(defs, st, front).usings, columns[|columns| - 1]);
      AnyColumnLast(columns, Encrypted);
      AnyColumnLast(columns, Dated);
    }
  }

  /** `handleColumnForImplement`, statement by statement. */
  method HandleColumnForImplement(defs: ImplementDefinitions, st: ImplementParts, column: Column) returns (st': ImplementParts)
    ensures st' == WithImplementColumn(defs, st, column)
  {
    var columnType := column.dataTypeDotNet;
    var toLower := "";
    if KeepsType(column.name) {
    } else if column.name == "Username" || column.name == "Email_Address" {
      toLower := ".ToLower()";
    } else if !Contains(columnType, "?") && column.dataTypeDotNet != "string" {
      columnType := columnType + "?";
    }
    var replacement := [("columnType", columnType), ("columnNamePascal", column.namePascal),
                        ("columnNameCamel", column.nameCamel), ("toLower", toLower)];
    var usings := st.usings;
    if "Jfw.Helpers" !in usings {
      if column.isEncrypted {
        usings := ["Jfw.Helpers"] + usings;
      }
    }
    if "System" !in usings {
      if column.dataTypeDotNet == "DateTime" || column.dataTypeDotNet == "DateTime?" {
        usings := ["System"] + usings;
      }
    }
    var definition;
    var fields := st.fields;
    if column.isEncrypted {
      definition := defs.encryptedColumn;
      var content := FillTemplate(defs.encryptedField, replacement, true);
      fields := fields + [content];
    } else {
      definition := defs.column;
    }
    var content := FillTemplate(definition, replacement, true);
    st' := ImplementParts(usings, st.columns + [content], fields);
  }

  /** The fields after the columns: padded with `""` at the end only when a field was added. */
  function PaddedFields(fields: seq<string>): seq<string> {
    if |fields| > 1 then fields + [""] else fields
  }

  /**
   * The implementation's fields: an empty line, the encrypted columns' fields, and a
   * closing empty line only if there is at least one.
   */
  lemma FieldsShape(defs: ImplementDefinitions, usings: seq<string>, columns: seq<Column>)
    ensures var fields := PaddedFields(ImplementColumns(defs, ImplementParts(usings, [], [""]), columns).fields);
      var enc := EncryptedColumns(columns);
      && |fields| == (if enc == [] then 1 else |enc| + 2)
      && fields[0] == ""
      && (enc != [] ==> fields[|fields| - 1] == "")
  {
    ImplementColumnsShape(defs, ImplementParts(usings, [], [""]), columns);
  }

  // ---------------------------------------------------------------------------------
  // The three files

  /**
   * Templates, fragments, output locations, and the usings and interfaces each file starts
   * from (the template modules' `defaultUsings` and `defaultInterfaces`).
   */
  datatype Setup = Setup(
    interfaceDefs: InterfaceDefinitions,
    partialDefs: PartialDefinitions,
    implementDefs: ImplementDefinitions,
    interfaceTemplate: string,
    partialTemplate: string,
    implementTemplate: string,
    interfacesDirectory: string,
    implementsDirectory: string,
    suffixFileName: string,
    interfaceUsings: seq<string>,
    defaultInterfaces: seq<string>,
    partialUsings: seq<string>,
    implementUsings: seq<string>)

  /** The base-entity interface, added first unless the defaults already have `IBaseEntity`. */
  function InitialInterfaces(setup: Setup, tableName: string): seq<string> {
    var defaults := setup.defaultInterfaces;
    if "IBaseEntity" !in defaults then defaults + ["IBaseEntity<I" + tableName + "Entity>"] else defaults
  }

  function InterfaceResult(setup: Setup, tableName: string, columns: seq<Column>): InterfaceParts {
    InterfaceColumns(setup.interfaceDefs, tableName, InterfaceParts(setup.interfaceUsings, InitialInterfaces(setup, tableName), []), columns)
  }

  function PartialResult(setup: Setup, columns: seq<Column>): PartialParts {
    PartialColumns(setup.partialDefs, PartialParts([], []), columns)
  }

  function ImplementResult(setup: Setup, columns: seq<Column>): ImplementParts {
    ImplementColumns(setup.implementDefs, ImplementParts(setup.implementUsings, [], [""]), columns)
  }

  /** The interface file: `I{table}Entity{suffix}.cs` in the interfaces directory. */
  function InterfaceFile(setup: Setup, tableName: string, tableData: TableData): (file: (string, string))
    ensures file.0 == setup.interfacesDirectory + "/I" + tableName + "Entity" + setup.suffixFileName + ".cs"
  {
    var i := InterfaceResult(setup, tableName, tableData.columns);
    (setup.interfacesDirectory + "/I" + tableName + "Entity" + setup.suffixFileName + ".cs",
     Filled(setup.interfaceTemplate,
            [("EntityName", tableName), ("Usings", UsingText(i.usings)),
             ("InheritedInterfaces", InheritanceText(i.inheritedInterfaces)),
             ("ColumnDefinitions", Join(i.columns, "\n\n"))], true))
  }

  /** The partial-class file: `{table}Entity{suffix}.cs` in the implementations directory. */
  function PartialFile(setup: Setup, tableName: string, tableData: TableData): (file: (string, string))
    ensures file.0 == setup.implementsDirectory + "/" + tableName + "Entity" + setup.suffixFileName + ".cs"
  {
    var p := PartialResult(setup, tableData.columns);
    (setup.implementsDirectory + "/" + tableName + "Entity" + setup.suffixFileName + ".cs",
     Filled(setup.partialTemplate,
            [("EntityName", tableName), ("Usings", UsingText(setup.partialUsings)),
             ("ColumnDefinitions", Join(p.columns, "\n\n")), ("ColumnParseDefinitions", Join(p.parsings, "\n")),
             ("InsertParameters", JoinEntries(ProcedureEntries(setup.partialDefs, tableData, "Insert"), ",\n")),
             ("UpdateParameters", JoinEntries(ProcedureEntries(setup.partialDefs, tableData, "Update"), ",\n"))], true))
  }

  /** The implementation file: `{table}Entity.cs` in the implementations directory, without the suffix. */
  function ImplementFile(setup: Setup, tableName: string, tableData: TableData): (file: (string, string))
    ensures file.0 == setup.implementsDirectory + "/" + tableName + "Entity.cs"
  {
    var m := ImplementResult(setup, tableData.columns);
    (setup.implementsDirectory + "/" + tableName + "Entity.cs",
     Filled(setup.implementTemplate,
            [("EntityName", tableName), ("Usings", UsingText(m.usings)),
             ("ColumnDefinitions", Join(m.columns, "\n\n")), ("EncryptedFields", Join(PaddedFields(m.fields), "\n"))], true))
  }

  /** The three files of a table: interface, partial class, implementation. */
  function EntityFiles(setup: Setup, tableName: string, tableData: TableData): seq<(string, string)> {
    [InterfaceFile(setup, tableName, tableData), PartialFile(setup, tableName, tableData), ImplementFile(setup, tableName, tableData)]
  }

  /**
   * With an empty suffix the partial class and the implementation are both requested at the
   * same path, the implementation last.
   */
  lemma EmptySuffixCollides(setup: Setup, tableName: string, tableData: TableData)
    requires setup.suffixFileName == ""
    ensures EntityFiles(setup, tableName, tableData)[1].0 == EntityFiles(setup, tableName, tableData)[2].0
  {
  }

  /** With a non-empty suffix the partial class and the implementation get different paths. */
  lemma SuffixSeparates(setup: Setup, tableName: string, tableData: TableData)
    requires setup.suffixFileName != ""
    ensures EntityFiles(setup, tableName, tableData)[1].0 != EntityFiles(setup, tableName, tableData)[2].0
  {
    var files := EntityFiles(setup, tableName, tableData);
    var base := setup.implementsDirectory + "/" + tableName + "Entity";
    assert files[1].0 == base + (setup.suffixFileName + ".cs");
    assert files[2].0 == base + ".cs";
  }

  /**
   * The interface's inherited interfaces: the template's defaults, the base-entity
   * interface, then one `IHasIsSystem` per `Is_System` column.
   */
  lemma InheritedInterfacesOrder(setup: Setup, tableName: string, columns: seq<Column>)
    requires "IBaseEntity" !in setup.defaultInterfaces
    ensures var ii := InterfaceResult(setup, tableName, columns).inheritedInterfaces;
      var n := |setup.defaultInterfaces|;
      && |ii| == n + 1 + Count(Names(columns), "Is_System")
      && ii[..n] == setup.defaultInterfaces
      && ii[n] == "IBaseEntity<I" + tableName + "Entity>"
      && forall i :: n + 1 <= i < |ii| ==> ii[i] == "IHasIsSystem"
  {
    InterfaceColumnsShape(setup.interfaceDefs, tableName, InterfaceParts(setup.interfaceUsings, InitialInterfaces(setup, tableName), []), columns);
  }

  /** The per-column loop: the three handlers for each column, in column order. */
  method HandleColumns(setup: Setup, tableName: string, columns: seq<Column>)
    returns (i: InterfaceParts, p: PartialParts, m: ImplementParts)
    ensures i == InterfaceResult(setup, tableName, columns)
    ensures p == PartialResult(setup, columns)
    ensures m == ImplementResult(setup, columns)
  {
    var interfaces := setup.defaultInterfaces;
    if "IBaseEntity" !in interfaces {
      interfaces := interfaces + ["IBaseEntity<I" + tableName + "Entity>"];
    }
    i := InterfaceParts(setup.interfaceUsings, interfaces, []);
    p := PartialParts([], []);
    m := ImplementParts(setup.implementUsings, [], [""]);
    for k := 0 to |columns|
      invariant i == InterfaceColumns(setup.interfaceDefs, tableName, InterfaceParts(setup.interfaceUsings, InitialInterfaces(setup, tableName), []), columns[..k])
      invariant p == PartialColumns(setup.partialDefs, PartialParts([], []), columns[..k])
      invariant m == ImplementColumns(setup.implementDefs, ImplementParts(setup.implementUsings, [], [""]), columns[..k])
    {
      assert columns[..k + 1][..k] == columns[..k];
      i := HandleColumnForInterface(setup.interfaceDefs, tableName, i, columns[k]);
      p := HandleColumnForPartial(setup.partialDefs, p, columns[k]);
      m := HandleColumnForImplement(setup.implementDefs, m, columns[k]);
    }
    assert columns[..|columns|] == columns;
  }

  /** `generateEntities(tableName, tableData)`: the three files it saves, in order. */
  method GenerateEntities(setup: Setup, tableName: string, tableData: TableData) returns (files: seq<(string, string)>)
    ensures files == EntityFiles(setup, tableName, tableData)
  {
    var i, p, m := HandleColumns(setup, tableName, tableData.columns);
    var insertParameters, updateParameters := HandleParametersForPartial(setup.partialDefs, tableData);
    var fields := m.fields;
    if |fields| > 1 {
      fields := fields + [""];
    }
    var interfaceUsings := GetUsingTemplate(i.usings);
    var inherited := GetInheritanceTemplate(i.inheritedInterfaces);
    var interfaceContent := FillTemplate(setup.interfaceTemplate,
      [("EntityName", tableName), ("Usings", interfaceUsings), ("InheritedInterfaces", inherited),
       ("ColumnDefinitions", Join(i.columns, "\n\n"))], true);
    var partialUsings := GetUsingTemplate(setup.partialUsings);
    var partialContent := FillTemplate(setup.partialTemplate,
      [("EntityName", tableName), ("Usings", partialUsings),
       ("ColumnDefinitions", Join(p.columns, "\n\n")), ("ColumnParseDefinitions", Join(p.parsings, "\n")),
       ("InsertParameters", JoinEntries(insertParameters, ",\n")), ("UpdateParameters", JoinEntries(updateParameters, ",\n"))], true);
    var implementUsings := GetUsingTemplate(m.usings);
    var implementContent := FillTemplate(setup.implementTemplate,
      [("EntityName", tableName), ("Usings", implementUsings),
       ("ColumnDefinitions", Join(m.columns, "\n\n")), ("EncryptedFields", Join(fields, "\n"))], true);
    files := [(setup.interfacesDirectory + "/I" + tableName + "Entity" + setup.suffixFileName + ".cs", interfaceContent),
              (setup.implementsDirectory + "/" + tableName + "Entity" + setup.suffixFileName + ".cs", partialContent),
              (setup.implementsDirectory + "/" + tableName + "Entity.cs", implementContent)];
  }
}
