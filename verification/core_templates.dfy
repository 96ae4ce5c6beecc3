/**
 * The entity-class generator (generate-code_core-templates.js). Every walked table gets
 * its fixed class templates filled with its name and then a `.Properties` partial class,
 * with one property and its accessor methods per column. A parent of child tables gets
 * one more partial class per child table, covering that child's columns. A table that is
 * itself a child table gets no properties file of its own.
 */
module CoreTemplates {
  import opened Wrappers
  import opened Seqs
  import opened Strings
  import opened JsObject
  import opened Utils
  import opened DataFromDatabase
  import Config
  import SpCustom

  /**
   * The fragment templates of the properties template, as opaque text. The template
   * module defines no protected getter, so `methodGetProtected` is `None` there.
   */
  datatype Definitions = Definitions(
    partialClass: string,
    partialClassChild: string,
    propertyExtendedId: string,
    propertyExtend: string,
    propertyEncrypted: string,
    propertyFullAccessor: string,
    propertyExtendedFullAccessor: string,
    propertyProtected: string,
    propertyReadOnly: string,
    methodGet: string,
    methodGetEncrypted: string,
    methodGetProtected: Option<string>,
    methodSet: string)

  /**
   * The class templates as `(outputSuffix, template)` pairs, the properties template with
   * its fragments and default usings, the output directory and `spConfig`.
   */
  datatype Setup = Setup(
    classTemplates: seq<(string, string)>,
    template: string,
    defs: Definitions,
    defaultUsings: seq<string>,
    entityClassesDirectory: string,
    config: map<string, SpCustom.SpTable>)

  /** A write request: the path of the file and its text. */
  type File = (string, string)

  // ---------------------------------------------------------------------------------
  // generateTemplate

  /** `<entityClasses>/<prefix>/<table><suffix>.cs`, the prefix from the table dictionary or empty. */
  function ClassTemplatePath(setup: Setup, tableName: string, outputSuffix: string): string {
    setup.entityClassesDirectory + "/" + Config.PrefixPath(tableName) + "/" + tableName + outputSuffix + ".cs"
  }

  /** One file per class template, in template order, each with the table name filled in. */
  function ClassTemplateFiles(setup: Setup, tableName: string, templates: seq<(string, string)>): (files: seq<File>)
    ensures |files| == |templates|
    ensures forall i :: 0 <= i < |templates| ==>
      && files[i].0 == ClassTemplatePath(setup, tableName, templates[i].0)
      && files[i].1 == Filled(templates[i].1, [("entityName", tableName)], true)
  {
    if templates == [] then []
    else
      var t := templates[|templates| - 1];
      ClassTemplateFiles(setup, tableName, templates[..|templates| - 1])
        + [(ClassTemplatePath(setup, tableName, t.0), Filled(t.1, [("entityName", tableName)], true))]
  }

  /** `generateTemplate`: the loop over the class templates. */
  method GenerateTemplate(setup: Setup, tableName: string) returns (files: seq<File>)
    ensures files == ClassTemplateFiles(setup, tableName, setup.classTemplates)
  {
    files := [];
    var templates := setup.classTemplates;
    for i := 0 to |templates|
      invariant files == ClassTemplateFiles(setup, tableName, templates[..i])
    {
      assert templates[..i + 1][..i] == templates[..i];
      var prefixPath := Config.PrefixPath(tableName);
      var outputPath := setup.entityClassesDirectory + "/" + prefixPath + "/" + tableName + templates[i].0 + ".cs";
      var content := FillTemplate(templates[i].1, [("entityName", tableName)], true);
      files := files + [(outputPath, content)];
    }
    assert templates[..|templates|] == templates;
  }

  // ---------------------------------------------------------------------------------
  // processColumn

  /** The columns whose property type is never made nullable. */
  predicate KeepsType(name: string) {
    name == "Is_System" || name == "Modified_Date" || name == "Created_Date"
  }

  /** The property type: the .NET type, with a `?` added exactly when it has none, is not `string` and the column is not exempt. */
  function ColumnType(c: Column): (t: string)
    ensures t == c.dataTypeDotNet || t == c.dataTypeDotNet + "?"
    ensures t == c.dataTypeDotNet + "?" <==>
      !KeepsType(c.name) && !Contains(c.dataTypeDotNet, "?") && c.dataTypeDotNet != "string"
  {
    if !KeepsType(c.name) && !Contains(c.dataTypeDotNet, "?") && c.dataTypeDotNet != "string" then c.dataTypeDotNet + "?"
    else c.dataTypeDotNet
  }

  /**
   * What `processColumn` sees besides the column: the table whose file is written, its
   * child tables and whether it has any, whether the column belongs to a child table and
   * which one, and the columns ignored for child tables so far.
   */
  datatype Context = Context(
    tableName: string,
    childTables: seq<string>,
    hasChildTables: bool,
    isChild: bool,
    childName: string,
    ignored: seq<string>)

  /** The replacements of a column's property and methods. */
  function Replacement(ctx: Context, c: Column): Entries<string> {
    [("entityName", ctx.tableName), ("childTable", if ctx.isChild then ctx.childName else ""),
     ("columnNamePascal", c.namePascal), ("columnType", ColumnType(c))]
  }

  /** `getExtraSetters`: one setter per child table, in order. */
  function ExtraSetters(defs: Definitions, entityName: string, c: Column, childTables: seq<string>): (r: seq<string>)
    ensures |r| == |childTables|
    ensures forall i :: 0 <= i < |childTables| ==>
      r[i] == Filled(defs.propertyExtend, [("entityName", entityName), ("childTable", childTables[i]), ("columnNamePascal", c.namePascal)], true)
  {
    if childTables == [] then []
    else
      ExtraSetters(defs, entityName, c, childTables[..|childTables| - 1])
        + [Filled(defs.propertyExtend, [("entityName", entityName), ("childTable", childTables[|childTables| - 1]), ("columnNamePascal", c.namePascal)], true)]
  }

  /** The property and method texts collected for one file. */
  datatype Parts = Parts(properties: seq<string>, methods: seq<string>)

  /** The columns that produce nothing: `ID` of a table without child tables, and a child table's ignored columns. */
  predicate Skipped(ctx: Context, c: Column) {
    (c.name == "ID" && !ctx.hasChildTables) || (ctx.isChild && c.name in ctx.ignored)
  }

  /** The parent's key column, which gets the extended key property and nothing else. */
  predicate IsExtendedId(ctx: Context, c: Column) {
    ctx.hasChildTables && !ctx.isChild && c.name == "ID"
  }

  /** The parent's audit-author columns, whose property is extended with the child tables' setters. */
  predicate IsExtendedAudit(ctx: Context, c: Column) {
    ctx.hasChildTables && !ctx.isChild && (c.name == "Modified_By" || c.name == "Created_By")
  }

  /** The extended key property of a parent table. */
  function ExtendedIdProperty(defs: Definitions, ctx: Context, c: Column): string {
    Filled(defs.propertyExtendedId, [("ExtraSetters", Join(ExtraSetters(defs, ctx.tableName, c, ctx.childTables), "\n"))], true)
  }

  /** The property template: the extended one for the parent's audit authors, otherwise by encrypted, protected, read-only. */
  function PropertyTemplate(defs: Definitions, ctx: Context, c: Column): string {
    if IsExtendedAudit(ctx, c) then
      Filled(defs.propertyExtendedFullAccessor, [("ExtraSetters", Join(ExtraSetters(defs, "", c, ctx.childTables), "\n"))], true)
    else if c.isEncrypted then defs.propertyEncrypted
    else if c.isProtected then defs.propertyProtected
    else if c.isReadOnly then defs.propertyReadOnly
    else defs.propertyFullAccessor
  }

  /** The getter and setter templates: only a column that is none of encrypted, protected, read-only has a setter. */
  function MethodTemplates(defs: Definitions, c: Column): (Option<string>, Option<string>) {
    if c.isEncrypted then (Some(defs.methodGetEncrypted), None)
    else if c.isProtected then (defs.methodGetProtected, None)
    else if c.isReadOnly then (Some(defs.methodGet), None)
    else (Some(defs.methodGet), Some(defs.methodSet))
  }

  /** A template JavaScript treats as present: defined and not empty. */
  predicate Truthy(o: Option<string>) {
    o.Some? && o.value != ""
  }

  /** The filled template appended when it is present. */
  function Pushed(list: seq<string>, o: Option<string>, r: Entries<string>): seq<string> {
    if Truthy(o) then list + [Filled(o.value, r, true)] else list
  }

  /** `processColumn`: what one column adds to the properties and methods. */
  function WithColumn(defs: Definitions, ctx: Context, st: Parts, c: Column): Parts {
    if Skipped(ctx, c) then st
    else if IsExtendedId(ctx, c) then st.(properties := st.properties + [ExtendedIdProperty(defs, ctx, c)])
    else
      var r := Replacement(ctx, c);
      var (getter, setter) := MethodTemplates(defs, c);
      Parts(Pushed(st.properties, Some(PropertyTemplate(defs, ctx, c)), r), Pushed(Pushed(st.methods, getter, r), setter, r))
  }

  /** `columns.forEach(processColumn)`. */
  function ColumnsParts(defs: Definitions, ctx: Context, st: Parts, columns: seq<Column>): Parts {
    if columns == [] then st
    else WithColumn(defs, ctx, ColumnsParts(defs, ctx, st, columns[..|columns| - 1]), columns[|columns| - 1])
  }

  /**
   * The key column: nothing without child tables; for a parent, one extended key property
   * carrying one setter per child table, and no method.
   */
  lemma IdColumn(defs: Definitions, ctx: Context, st: Parts, c: Column)
    requires c.name == "ID" && !ctx.isChild
    ensures !ctx.hasChildTables ==> WithColumn(defs, ctx, st, c) == st
    ensures ctx.hasChildTables ==>
      && WithColumn(defs, ctx, st, c).methods == st.methods
      && WithColumn(defs, ctx, st, c).properties
           == st.properties + [Filled(defs.propertyExtendedId, [("ExtraSetters", Join(ExtraSetters(defs, ctx.tableName, c, ctx.childTables), "\n"))], true)]
      && |ExtraSetters(defs, ctx.tableName, c, ctx.childTables)| == |ctx.childTables|
  {
  }

  /** The property a handled column gets. */
  function PropertyOf(defs: Definitions, ctx: Context, c: Column): seq<string> {
    Pushed([], Some(PropertyTemplate(defs, ctx, c)), Replacement(ctx, c))
  }

  /** An encrypted column gets the encrypted property (unless extended) and the encrypted getter only. */
  lemma EncryptedColumn(defs: Definitions, ctx: Context, st: Parts, c: Column)
    requires !Skipped(ctx, c) && !IsExtendedId(ctx, c) && c.isEncrypted
    ensures var r := WithColumn(defs, ctx, st, c);
      && r.properties == st.properties + PropertyOf(defs, ctx, c)
      && (!IsExtendedAudit(ctx, c) ==> PropertyTemplate(defs, ctx, c) == defs.propertyEncrypted)
      && r.methods == st.methods + (if defs.methodGetEncrypted != "" then [Filled(defs.methodGetEncrypted, Replacement(ctx, c), true)] else [])
  {
  }

  /** A read-only column gets the read-only property (unless extended) and the plain getter only. */
  lemma ReadOnlyColumn(defs: Definitions, ctx: Context, st: Parts, c: Column)
    requires !Skipped(ctx, c) && !IsExtendedId(ctx, c) && !c.isEncrypted && !c.isProtected && c.isReadOnly
    ensures var r := WithColumn(defs, ctx, st, c);
      && r.properties == st.properties + PropertyOf(defs, ctx, c)
      && (!IsExtendedAudit(ctx, c) ==> PropertyTemplate(defs, ctx, c) == defs.propertyReadOnly)
      && r.methods == st.methods + (if defs.methodGet != "" then [Filled(defs.methodGet, Replacement(ctx, c), true)] else [])
  {
  }

  /** Any other column gets the full-accessor property (unless extended), the getter and the setter. */
  lemma FullAccessorColumn(defs: Definitions, ctx: Context, st: Parts, c: Column)
    requires !Skipped(ctx, c) && !IsExtendedId(ctx, c) && !c.isEncrypted && !c.isProtected && !c.isReadOnly
    requires defs.methodGet != "" && defs.methodSet != ""
    ensures var r := WithColumn(defs, ctx, st, c);
      && r.properties == st.properties + PropertyOf(defs, ctx, c)
      && (!IsExtendedAudit(ctx, c) ==> PropertyTemplate(defs, ctx, c) == defs.propertyFullAccessor)
      && r.methods == st.methods + [Filled(defs.methodGet, Replacement(ctx, c), true), Filled(defs.methodSet, Replacement(ctx, c), true)]
  {
  }

  /** With no protected getter defined, a protected column that is not encrypted gets its property and no method. */
  lemma ProtectedColumnHasNoMethod(defs: Definitions, ctx: Context, st: Parts, c: Column)
    requires defs.methodGetProtected == None
    requires !Skipped(ctx, c) && !IsExtendedId(ctx, c) && !c.isEncrypted && c.isProtected
    ensures var r := WithColumn(defs, ctx, st, c);
      && r.properties == st.properties + PropertyOf(defs, ctx, c)
      && (!IsExtendedAudit(ctx, c) ==> PropertyTemplate(defs, ctx, c) == defs.propertyProtected)
      && r.methods == st.methods
  {
  }

  /** The two lists only grow, by at most one property and two methods per column. */
  lemma {:induction false} ColumnsPartsGrow(defs: Definitions, ctx: Context, st: Parts, columns: seq<Column>)
    ensures var r := ColumnsParts(defs, ctx, st, columns);
      && st.properties <= r.properties && |r.properties| <= |st.properties| + |columns|
      && st.methods <= r.methods && |r.methods| <= |st.methods| + 2 * |columns|
    decreases |columns|
  {
    if columns != [] {
      ColumnsPartsGrow(defs, ctx, st, columns[..|columns| - 1]);
    }
  }

  /** A table's skipped columns add nothing: with every column skipped, the lists are unchanged. */
  lemma {:induction false} AllSkippedAddNothing(defs: Definitions, ctx: Context, st: Parts, columns: seq<Column>)
    requires forall i :: 0 <= i < |columns| ==> Skipped(ctx, columns[i])
    ensures ColumnsParts(defs, ctx, st, columns) == st
    decreases |columns|
  {
    if columns != [] {
      AllSkippedAddNothing(defs, ctx, st, columns[..|columns| - 1]);
    }
  }

  /** The property template, step by step as in the source's `switch` and `??` chain. */
  method ChooseTemplates(defs: Definitions, ctx: Context, column: Column)
    returns (definitionProperty: Option<string>, definitionGetMethod: Option<string>, definitionSetMethod: Option<string>)
    requires !IsExtendedId(ctx, column)
    ensures definitionProperty == Some(PropertyTemplate(defs, ctx, column))
    ensures (definitionGetMethod, definitionSetMethod) == MethodTemplates(defs, column)
  {
    definitionProperty, definitionGetMethod, definitionSetMethod := None, None, None;
    if ctx.hasChildTables && !ctx.isChild {
      if column.name == "Modified_By" || column.name == "Created_By" {
        var extraSetters := GetExtraSetters(defs, "", column, ctx.childTables);
        var text := FillTemplate(defs.propertyExtendedFullAccessor, [("ExtraSetters", Join(extraSetters, "\n"))], true);
        definitionProperty := Some(text);
      }
    }
    if column.isEncrypted {
      definitionProperty := Some(definitionProperty.GetOr(defs.propertyEncrypted));
      definitionGetMethod := Some(defs.methodGetEncrypted);
    } else {
      if column.isProtected {
        definitionProperty := Some(definitionProperty.GetOr(defs.propertyProtected));
        definitionGetMethod := defs.methodGetProtected;
      } else if column.isReadOnly {
        definitionProperty := Some(definitionProperty.GetOr(defs.propertyReadOnly));
        definitionGetMethod := Some(defs.methodGet);
      } else {
        definitionProperty := Some(definitionProperty.GetOr(defs.propertyFullAccessor));
        definitionGetMethod := Some(defs.methodGet);
        definitionSetMethod := Some(defs.methodSet);
      }
    }
  }

  /** `getExtraSetters`: the loop over the child tables. */
  method GetExtraSetters(defs: Definitions, entityName: string, column: Column, childTables: seq<string>) returns (extraSetters: seq<string>)
    ensures extraSetters == ExtraSetters(defs, entityName, column, childTables)
  {
    extraSetters := [];
    for i := 0 to |childTables|
      invariant extraSetters == ExtraSetters(defs, entityName, column, childTables[..i])
    {
      assert childTables[..i + 1][..i] == childTables[..i];
      var extraContent := FillTemplate(defs.propertyExtend,
        [("entityName", entityName), ("childTable", childTables[i]), ("columnNamePascal", column.namePascal)], true);
      extraSetters := extraSetters + [extraContent];
    }
    assert childTables[..|childTables|] == childTables;
  }

  /** `processColumn`, statement by statement. */
  method ProcessColumn(defs: Definitions, ctx: Context, st: Parts, column: Column) returns (st': Parts)
    ensures st' == WithColumn(defs, ctx, st, column)
  {
    if column.name == "ID" && !ctx.hasChildTables {
      return st;
    }
    if ctx.isChild && column.name in ctx.ignored {
      return st;
    }
    var columnType := column.dataTypeDotNet;
    if !KeepsType(column.name) {
      if !Contains(columnType, "?") && column.dataTypeDotNet != "string" {
        columnType := columnType + "?";
      }
    }
    var replacement := [("entityName", ctx.tableName), ("childTable", if ctx.isChild then ctx.childName else ""),
                        ("columnNamePascal", column.namePascal), ("columnType", columnType)];
    if ctx.hasChildTables && !ctx.isChild && column.name == "ID" {
      var extraSetters := GetExtraSetters(defs, ctx.tableName, column, ctx.childTables);
      var text := FillTemplate(defs.propertyExtendedId, [("ExtraSetters", Join(extraSetters, "\n"))], true);
      return st.(properties := st.properties + [text]);
    }
    var definitionProperty, definitionGetMethod, definitionSetMethod := ChooseTemplates(defs, ctx, column);
    st' := st;
    if Truthy(definitionProperty) {
      var propertyContent := FillTemplate(definitionProperty.value, replacement, true);
      st' := st'.(properties := st'.properties + [propertyContent]);
    }
    if Truthy(definitionGetMethod) {
      var getMethodContent := FillTemplate(definitionGetMethod.value, replacement, true);
      st' := st'.(methods := st'.methods + [getMethodContent]);
    }
    if Truthy(definitionSetMethod) {
      var setMethodContent := FillTemplate(definitionSetMethod.value, replacement, true);
      st' := st'.(methods := st'.methods + [setMethodContent]);
    }
  }

  /** `tableData.columns.forEach((column) => processColumn(...))`. */
  method ProcessColumns(defs: Definitions, ctx: Context, columns: seq<Column>) returns (parts: Parts)
    ensures parts == ColumnsParts(defs, ctx, Parts([], []), columns)
  {
    parts := Parts([], []);
    for i := 0 to |columns|
      invariant parts == ColumnsParts(defs, ctx, Parts([], []), columns[..i])
    {
      assert columns[..i + 1][..i] == columns[..i];
      parts := ProcessColumn(defs, ctx, parts, columns[i]);
    }
    assert columns[..|columns|] == columns;
  }

  // ---------------------------------------------------------------------------------
  // removeItem

  /** `arr.indexOf(item)`: the first position of `item`, or -1. */
  function IndexOf(s: seq<string>, x: string): (i: int)
    ensures -1 <= i < |s|
    ensures i == -1 <==> x !in s
    ensures 0 <= i ==> s[i] == x && x !in s[..i]
  {
    if s == [] then -1
    else if s[0] == x then 0
    else
      var j := IndexOf(s[1..], x);
      if j == -1 then -1
      else
        assert s[..j + 1] == [s[0]] + s[1..][..j];
        j + 1
  }

  /** `removeItem`: without the first occurrence of `x`; unchanged when there is none. */
  function Removed(s: seq<string>, x: string): seq<string> {
    var i := IndexOf(s, x);
    if i >= 0 then s[..i] + s[i + 1..] else s
  }

  /** Removing an absent item changes nothing. */
  lemma RemovedAbsent(s: seq<string>, x: string)
    requires x !in s
    ensures Removed(s, x) == s
  {
  }

  /** Removing a present item takes out exactly one occurrence, the first, and keeps every other element in order. */
  lemma RemovedFirstOnly(s: seq<string>, x: string)
    requires x in s
    ensures var i := IndexOf(s, x);
      && |Removed(s, x)| == |s| - 1
      && Removed(s, x)[..i] == s[..i]
      && Removed(s, x)[i..] == s[i + 1..]
  {
    var i := IndexOf(s, x);
    var r := Removed(s, x);
    assert r[..i] == s[..i];
    assert r[i..] == s[i + 1..];
  }

  /** Removing a present item lowers its count by exactly one. */
  lemma RemovedCount(s: seq<string>, x: string)
    requires x in s
    ensures Count(Removed(s, x), x) == Count(s, x) - 1
  {
    var i := IndexOf(s, x);
    var a, b := s[..i], s[i + 1..];
    SplitAt(s, i);
    assert Removed(s, x) == a + b;
    CountWithout(a, x, b);
  }

  /** Taking one `x` out of the middle lowers its count by one. */
  lemma CountWithout(a: seq<string>, x: string, b: seq<string>)
    ensures Count(a + [x] + b, x) == Count(a + b, x) + 1
  {
    CountAppend(a + [x], b, x);
    CountAppend(a, [x], x);
    CountAppend(a, b, x);
    assert [x][..0] == [];
  }

  /** `removeItem(arr, item)`: the `indexOf` scan, then the splice. */
  method RemoveItem(arr: seq<string>, item: string) returns (arr': seq<string>)
    ensures arr' == Removed(arr, item)
  {
    var index := -1;
    var i := 0;
    while i < |arr| && index == -1
      invariant 0 <= i <= |arr|
      invariant index == -1 ==> item !in arr[..i]
      invariant index != -1 ==> index == IndexOf(arr, item)
    {
      if arr[i] == item {
        assert item !in arr[..i];
        index := i;
        assert IndexOf(arr, item) == index by {
          IndexOfIs(arr, item, i);
        }
      }
      assert arr[..i + 1] == arr[..i] + [arr[i]];
      i := i + 1;
    }
    if index == -1 {
      assert arr[..|arr|] == arr;
    }
    if index > -1 {
      arr' := arr[..index] + arr[index + 1..];
    } else {
      arr' := arr;
    }
  }

  /** The first position is characterised by holding `x` with no `x` before it. */
  lemma {:induction false} IndexOfIs(s: seq<string>, x: string, i: nat)
    requires i < |s| && s[i] == x && x !in s[..i]
    ensures IndexOf(s, x) == i
  {
  }

  // ---------------------------------------------------------------------------------
  // generateImplementTemplate

  /** A table with child tables in `spConfig`. */
  predicate HasChildTables(setup: Setup, tableName: string) {
    tableName in setup.config && setup.config[tableName].childTables != []
  }

  /** The child tables of a table, empty when it has none. */
  function ChildTablesOf(setup: Setup, tableName: string): seq<string> {
    if tableName in setup.config then setup.config[tableName].childTables else []
  }

  /** The context of the table's own columns. */
  function ParentContext(setup: Setup, tableName: string): Context {
    Context(tableName, ChildTablesOf(setup, tableName), HasChildTables(setup, tableName), false, "", ["ID"])
  }

  /** The properties file of a table: `<entityClasses>/<prefix>/<table>.Properties.cs`. */
  function PropertiesFile(setup: Setup, tableName: string, parts: Parts): (file: File)
    ensures file.0 == setup.entityClassesDirectory + "/" + Config.PrefixPath(tableName) + "/" + tableName + ".Properties.cs"
  {
    (setup.entityClassesDirectory + "/" + Config.PrefixPath(tableName) + "/" + tableName + ".Properties.cs",
     Filled(setup.template,
            [("EntityName", tableName), ("PartialClass", Filled(setup.defs.partialClass, [("EntityName", tableName)], true)),
             ("Usings", UsingText(setup.defaultUsings)),
             ("PropertyDefinitions", Join(parts.properties, "\n\n")), ("MethodDefinitions", Join(parts.methods, "\n\n"))], true))
  }

  /** A child table's properties file: `<entityClasses>/<prefix>/<parent>.Properties.<suffix>.cs`. */
  function ChildFile(setup: Setup, parent: string, child: string, suffix: string, usings: seq<string>, parts: Parts): (file: File)
    ensures file.0 == setup.entityClassesDirectory + "/" + Config.PrefixPath(parent) + "/" + parent + ".Properties." + suffix + ".cs"
  {
    (setup.entityClassesDirectory + "/" + Config.PrefixPath(parent) + "/" + parent + ".Properties." + suffix + ".cs",
     Filled(setup.template,
            [("EntityName", child),
             ("PartialClass", Filled(setup.defs.partialClassChild, [("EntityName", child), ("ParentEntityName", parent)], true)),
             ("Usings", UsingText(usings)),
             ("PropertyDefinitions", Join(parts.properties, "\n\n")), ("MethodDefinitions", Join(parts.methods, "\n\n"))], true))
  }

  /**
   * The ways the generator stops: a child table named in `spConfig` that is not in
   * `spChildTables` (reading its `suffix` fails), or one that is not in the table data
   * (reading its `columns` fails).
   */
  datatype CoreError = MissingChildConfig(child: string) | MissingChildTable(child: string)

  /** The state of the loop over a parent's child tables. */
  datatype ChildRun = ChildRun(ignored: seq<string>, files: seq<File>, error: Option<CoreError>)

  /** The usings of the child files: the defaults without the two interface namespaces. */
  function ChildUsings(setup: Setup): seq<string> {
    Removed(Removed(setup.defaultUsings, "Jfw.Core.EntityClasses.Interfaces"), "Jfw.Repositories.Interfaces")
  }

  /** One child table: its ignored columns join the list, then its columns fill its file. */
  function ChildStep(setup: Setup, tables: Tables, parent: string, st: ChildRun, child: string): ChildRun {
    if st.error.Some? then st
    else if child !in SpCustom.SpChildTables then st.(error := Some(MissingChildConfig(child)))
    else
      var ignored := st.ignored + SpCustom.SpChildTables[child].ignoredColumns;
      match Get(tables, child)
      case None => ChildRun(ignored, st.files, Some(MissingChildTable(child)))
      case Some(childData) =>
        var ctx := Context(parent, ChildTablesOf(setup, parent), true, true, child, ignored);
        var parts := ColumnsParts(setup.defs, ctx, Parts([], []), childData.columns);
        ChildRun(ignored, st.files + [ChildFile(setup, parent, child, SpCustom.SpChildTables[child].suffix, ChildUsings(setup), parts)], None)
  }

  function ChildrenRun(setup: Setup, tables: Tables, parent: string, init: ChildRun, children: seq<string>): ChildRun {
    if children == [] then init
    else ChildStep(setup, tables, parent, ChildrenRun(setup, tables, parent, init, children[..|children| - 1]), children[|children| - 1])
  }

  /**
   * The ignored columns only grow: every column ignored for an earlier child table is
   * still ignored for every later one.
   */
  lemma {:induction false} IgnoredGrows(setup: Setup, tables: Tables, parent: string, init: ChildRun, children: seq<string>, k: nat)
    requires k <= |children|
    ensures ChildrenRun(setup, tables, parent, init, children[..k]).ignored <= ChildrenRun(setup, tables, parent, init, children).ignored
    decreases |children|
  {
    if k < |children| {
      var front := children[..|children| - 1];
      assert children[..k] == front[..k];
      IgnoredGrows(setup, tables, parent, init, front, k);
    } else {
      assert children[..k] == children;
    }
  }

  /** Once the loop has failed it stays failed and writes nothing more. */
  lemma {:induction false} ChildrenRunFailureStays(setup: Setup, tables: Tables, parent: string, init: ChildRun, children: seq<string>)
    requires init.error.Some?
    ensures ChildrenRun(setup, tables, parent, init, children) == init
    decreases |children|
  {
    if children != [] {
      ChildrenRunFailureStays(setup, tables, parent, init, children[..|children| - 1]);
    }
  }

  /** The path of a child table's properties file. */
  function ChildPath(setup: Setup, parent: string, child: string): string
    requires child in SpCustom.SpChildTables
  {
    setup.entityClassesDirectory + "/" + Config.PrefixPath(parent) + "/" + parent + ".Properties." + SpCustom.SpChildTables[child].suffix + ".cs"
  }

  /** One file per child table, in order, each at that child's path. */
  predicate ChildFilesAt(setup: Setup, parent: string, files: seq<File>, children: seq<string>) {
    && |files| == |children|
    && forall i :: 0 <= i < |children| ==>
         children[i] in SpCustom.SpChildTables && files[i].0 == ChildPath(setup, parent, children[i])
  }

  lemma ChildFilesAtExtend(setup: Setup, parent: string, files: seq<File>, children: seq<string>, f: File, child: string)
    requires ChildFilesAt(setup, parent, files, children)
    requires child in SpCustom.SpChildTables && f.0 == ChildPath(setup, parent, child)
    ensures ChildFilesAt(setup, parent, files + [f], children + [child])
  {
  }

  /** Appending a child's file keeps the files before and extends the ones after the first `|init|`. */
  lemma ChildFilesAppend(setup: Setup, parent: string, init: seq<File>, files: seq<File>, children: seq<string>, f: File, child: string)
    requires |init| <= |files| && files[..|init|] == init
    requires ChildFilesAt(setup, parent, files[|init|..], children)
    requires child in SpCustom.SpChildTables && f.0 == ChildPath(setup, parent, child)
    ensures |init| <= |files + [f]| && (files + [f])[..|init|] == init
    ensures ChildFilesAt(setup, parent, (files + [f])[|init|..], children + [child])
  {
    SliceAppend(files, [f], |init|);
    ChildFilesAtExtend(setup, parent, files[|init|..], children, f, child);
  }

  /** Without a failure, one file per child table is appended, in order, each at its suffix's path. */
  lemma {:induction false} ChildrenRunFiles(setup: Setup, tables: Tables, parent: string, init: ChildRun, children: seq<string>)
    requires init.error.None?
    ensures var r := ChildrenRun(setup, tables, parent, init, children);
      r.error.None? ==>
        && |init.files| <= |r.files|
        && r.files[..|init.files|] == init.files
        && ChildFilesAt(setup, parent, r.files[|init.files|..], children)
    decreases |children|
  {
    if children != [] {
      var front := children[..|children| - 1];
      var child := children[|children| - 1];
      var before := ChildrenRun(setup, tables, parent, init, front);
      var r := ChildStep(setup, tables, parent, before, child);
      assert ChildrenRun(setup, tables, parent, init, children) == r;
      ChildStepFile(setup, tables, parent, before, child);
      if r.error.None? {
        ChildrenRunFiles(setup, tables, parent, init, front);
        var f := r.files[|before.files|];
        ChildFilesAppend(setup, parent, init.files, before.files, front, f, child);
        assert r.files == before.files + [f];
        FrontLast(children);
      }
    }
  }

  /** One child step that does not fail appends exactly the child's file. */
  lemma ChildStepFile(setup: Setup, tables: Tables, parent: string, st: ChildRun, child: string)
    ensures var r := ChildStep(setup, tables, parent, st, child);
      r.error.None? ==>
        && st.error.None?
        && child in SpCustom.SpChildTables
        && |r.files| == |st.files| + 1
        && r.files == st.files + [r.files[|st.files|]]
        && r.files[|st.files|].0 == ChildPath(setup, parent, child)
  {
  }

  /** The result of `generateImplementTemplate` for one table: the write requests made and how it stopped. */
  datatype TableOutput = TableOutput(files: seq<File>, error: Option<CoreError>)

  /** `generateImplementTemplate(tableName, tableData)`. */
  function ImplementOutput(setup: Setup, tables: Tables, tableName: string, tableData: TableData): TableOutput {
    if tableName in SpCustom.SpChildTables then TableOutput([], None)
    else
      var parts := ColumnsParts(setup.defs, ParentContext(setup, tableName), Parts([], []), tableData.columns);
      var file := PropertiesFile(setup, tableName, parts);
      if !HasChildTables(setup, tableName) then TableOutput([file], None)
      else
        var run := ChildrenRun(setup, tables, tableName, ChildRun(["ID"], [file], None), ChildTablesOf(setup, tableName));
        TableOutput(run.files, run.error)
  }

  /** A child table gets no properties file of its own. */
  lemma ChildTableWritesNothing(setup: Setup, tables: Tables, tableName: string, tableData: TableData)
    requires tableName in SpCustom.SpChildTables
    ensures ImplementOutput(setup, tables, tableName, tableData) == TableOutput([], None)
  {
  }

  /** Any other table gets its properties file first; without child tables that is its only file. */
  lemma PropertiesFileFirst(setup: Setup, tables: Tables, tableName: string, tableData: TableData)
    requires tableName !in SpCustom.SpChildTables
    ensures var out := ImplementOutput(setup, tables, tableName, tableData);
      && |out.files| >= 1
      && out.files[0].0 == setup.entityClassesDirectory + "/" + Config.PrefixPath(tableName) + "/" + tableName + ".Properties.cs"
      && (!HasChildTables(setup, tableName) ==> |out.files| == 1 && out.error.None?)
  {
    var parts := ColumnsParts(setup.defs, ParentContext(setup, tableName), Parts([], []), tableData.columns);
    var file := PropertiesFile(setup, tableName, parts);
    if HasChildTables(setup, tableName) {
      ChildrenRunPrefix(setup, tables, tableName, ChildRun(["ID"], [file], None), ChildTablesOf(setup, tableName));
    }
  }

  /** The loop over the child tables keeps the files it started with. */
  lemma {:induction false} ChildrenRunPrefix(setup: Setup, tables: Tables, parent: string, init: ChildRun, children: seq<string>)
    ensures init.files <= ChildrenRun(setup, tables, parent, init, children).files
    decreases |children|
  {
    if children != [] {
      ChildrenRunPrefix(setup, tables, parent, init, children[..|children| - 1]);
    }
  }

  /**
   * When the generator is given the shipped `spConfig`, for each of its families (whose
   * child tables all ignore the parent key and the four audit columns) those columns
   * and `ID` never reach a child file.
   */
  lemma FamilyChildColumnsIgnored(setup: Setup, texts: SpCustom.FilterTexts, parent: string, st: ChildRun, child: string, c: Column)
    requires setup.config == SpCustom.SpConfig(texts)
    requires parent in setup.config && child in setup.config[parent].childTables
    requires "ID" in st.ignored
    requires c.name == "ID" || c.name == parent + "_ID" || c.name in SpCustom.AuditColumns
    ensures child in SpCustom.SpChildTables
    ensures c.name in st.ignored + SpCustom.SpChildTables[child].ignoredColumns
  {
    SpCustom.FamilyInvariant(texts, parent);
  }

  /** The loop over the child tables. */
  method ProcessChildren(setup: Setup, tables: Tables, parent: string, init: ChildRun, children: seq<string>) returns (run: ChildRun)
    requires init.error.None?
    ensures run == ChildrenRun(setup, tables, parent, init, children)
  {
    var usings := RemoveItem(setup.defaultUsings, "Jfw.Core.EntityClasses.Interfaces");
    usings := RemoveItem(usings, "Jfw.Repositories.Interfaces");
    var ignoredChildColumns := init.ignored;
    var files := init.files;
    for i := 0 to |children|
      invariant ChildrenRun(setup, tables, parent, init, children[..i]) == ChildRun(ignoredChildColumns, files, None)
    {
      assert children[..i + 1][..i] == children[..i];
      var childTable := children[i];
      if childTable !in SpCustom.SpChildTables {
        run := ChildRun(ignoredChildColumns, files, Some(MissingChildConfig(childTable)));
        ChildrenRunFailureStays(setup, tables, parent, run, children[i + 1..]);
        ChildrenRunSplit(setup, tables, parent, init, children, i + 1);
        return;
      }
      var childData := SpCustom.SpChildTables[childTable];
      ignoredChildColumns := ignoredChildColumns + childData.ignoredColumns;
      var childTableData := Get(tables, childTable);
      if childTableData.None? {
        run := ChildRun(ignoredChildColumns, files, Some(MissingChildTable(childTable)));
        ChildrenRunFailureStays(setup, tables, parent, run, children[i + 1..]);
        ChildrenRunSplit(setup, tables, parent, init, children, i + 1);
        return;
      }
      var ctx := Context(parent, ChildTablesOf(setup, parent), true, true, childTable, ignoredChildColumns);
      var parts := ProcessColumns(setup.defs, ctx, childTableData.value.columns);
      var usingsText := GetUsingTemplate(usings);
      var partialClass := FillTemplate(setup.defs.partialClassChild, [("EntityName", childTable), ("ParentEntityName", parent)], true);
      var content := FillTemplate(setup.template,
        [("EntityName", childTable), ("PartialClass", partialClass), ("Usings", usingsText),
         ("PropertyDefinitions", Join(parts.properties, "\n\n")), ("MethodDefinitions", Join(parts.methods, "\n\n"))], true);
      var path := setup.entityClassesDirectory + "/" + Config.PrefixPath(parent) + "/" + parent + ".Properties." + childData.suffix + ".cs";
      files := files + [(path, content)];
    }
    assert children[..|children|] == children;
    run := ChildRun(ignoredChildColumns, files, None);
  }

  /** Running the loop over a prefix and then over the rest is running it over everything. */
  lemma {:induction false} ChildrenRunSplit(setup: Setup, tables: Tables, parent: string, init: ChildRun, children: seq<string>, k: nat)
    requires k <= |children|
    ensures ChildrenRun(setup, tables, parent, init, children)
      == ChildrenRun(setup, tables, parent, ChildrenRun(setup, tables, parent, init, children[..k]), children[k..])
    decreases |children|
  {
    if k < |children| {
      var front := children[..|children| - 1];
      ChildrenRunSplit(setup, tables, parent, init, front, k);
      FrontSlices(children, k);
    } else {
      assert children[..k] == children;
    }
  }

  /** `generateImplementTemplate`, statement by statement. */
  method GenerateImplementTemplate(setup: Setup, tables: Tables, tableName: string, tableData: TableData) returns (out: TableOutput)
    ensures out == ImplementOutput(setup, tables, tableName, tableData)
  {
    if tableName in SpCustom.SpChildTables {
      return TableOutput([], None);
    }
    var hasChildTables := HasChildTables(setup, tableName);
    var ctx := ParentContext(setup, tableName);
    var parts := ProcessColumns(setup.defs, ctx, tableData.columns);
    var partialClass := FillTemplate(setup.defs.partialClass, [("EntityName", tableName)], true);
    var usingsText := GetUsingTemplate(setup.defaultUsings);
    var content := FillTemplate(setup.template,
      [("EntityName", tableName), ("PartialClass", partialClass), ("Usings", usingsText),
       ("PropertyDefinitions", Join(parts.properties, "\n\n")), ("MethodDefinitions", Join(parts.methods, "\n\n"))], true);
    var file := (setup.entityClassesDirectory + "/" + Config.PrefixPath(tableName) + "/" + tableName + ".Properties.cs", content);
    if !hasChildTables {
      return TableOutput([file], None);
    }
    var run := ProcessChildren(setup, tables, tableName, ChildRun(["ID"], [file], None), ChildTablesOf(setup, tableName));
    out := TableOutput(run.files, run.error);
  }

  // ---------------------------------------------------------------------------------
  // The walk

  /** One table of the walk: its class templates, then its properties files. */
  function TableStep(setup: Setup, tables: Tables, out: TableOutput, tableName: string): TableOutput
    requires tableName in Keys(tables)
  {
    if out.error.Some? then out
    else
      var implement := ImplementOutput(setup, tables, tableName, Get(tables, tableName).value);
      TableOutput(out.files + ClassTemplateFiles(setup, tableName, setup.classTemplates) + implement.files, implement.error)
  }

  /** The walk over the selected tables; a failure ends the run, keeping the write requests already made. */
  function WalkOutput(setup: Setup, tables: Tables, names: seq<string>): TableOutput
    requires forall i :: 0 <= i < |names| ==> names[i] in Keys(tables)
  {
    if names == [] then TableOutput([], None)
    else TableStep(setup, tables, WalkOutput(setup, tables, names[..|names| - 1]), names[|names| - 1])
  }

  /** One more walked table: the step applied to the output so far. */
  lemma WalkOutputStep(setup: Setup, tables: Tables, names: seq<string>, k: nat)
    requires forall i :: 0 <= i < |names| ==> names[i] in Keys(tables)
    requires k < |names|
    ensures WalkOutput(setup, tables, names[..k + 1]) == TableStep(setup, tables, WalkOutput(setup, tables, names[..k]), names[k])
  {
    assert names[..k + 1][..k] == names[..k];
  }

  /** Write requests once made are kept: those of an earlier point of the walk are a prefix of the final ones. */
  lemma {:induction false} WalkOutputPrefix(setup: Setup, tables: Tables, names: seq<string>, k: nat)
    requires forall i :: 0 <= i < |names| ==> names[i] in Keys(tables)
    requires k <= |names|
    ensures WalkOutput(setup, tables, names[..k]).files <= WalkOutput(setup, tables, names).files
    decreases |names|
  {
    if k < |names| {
      var front := names[..|names| - 1];
      assert names[..k] == front[..k];
      WalkOutputPrefix(setup, tables, front, k);
    } else {
      assert names[..k] == names;
    }
  }

  /** After a failure no further write request is made and the failure is the one reported. */
  lemma {:induction false} WalkOutputStops(setup: Setup, tables: Tables, names: seq<string>, k: nat)
    requires forall i :: 0 <= i < |names| ==> names[i] in Keys(tables)
    requires k <= |names| && WalkOutput(setup, tables, names[..k]).error.Some?
    ensures WalkOutput(setup, tables, names) == WalkOutput(setup, tables, names[..k])
    decreases |names|
  {
    if k < |names| {
      var front := names[..|names| - 1];
      assert names[..k] == front[..k];
      WalkOutputStops(setup, tables, front, k);
    } else {
      assert names[..k] == names;
    }
  }

  /** Every table reached without failure appends its class-template files first, one per template, at their paths. */
  lemma TableStepTemplates(setup: Setup, tables: Tables, out: TableOutput, tableName: string)
    requires tableName in Keys(tables) && out.error.None?
    ensures var r := TableStep(setup, tables, out, tableName);
      && |out.files| + |setup.classTemplates| <= |r.files|
      && r.files[..|out.files| + |setup.classTemplates|] == out.files + ClassTemplateFiles(setup, tableName, setup.classTemplates)
  {
    var ct := ClassTemplateFiles(setup, tableName, setup.classTemplates);
    var implement := ImplementOutput(setup, tables, tableName, Get(tables, tableName).value);
    assert (out.files + ct + implement.files)[..|out.files| + |ct|] == out.files + ct;
  }

  /** The script: `walkthroughTableData` calling `generateTemplate` and `generateImplementTemplate` per table. */
  method GenerateCoreTemplates(setup: Setup, tables: Tables, included: seq<string>, excluded: seq<string>) returns (out: TableOutput)
    ensures out == WalkOutput(setup, tables, SelectedTables(Keys(tables), included, excluded))
  {
    var names := WalkthroughTableData(Keys(tables), included, excluded);
    assert forall j :: 0 <= j < |names| ==> names[j] in Keys(tables);
    out := TableOutput([], None);
    for i := 0 to |names|
      invariant out == WalkOutput(setup, tables, names[..i])
    {
      WalkOutputStep(setup, tables, names, i);
      if out.error.None? {
        var templateFiles := GenerateTemplate(setup, names[i]);
        var implement := GenerateImplementTemplate(setup, tables, names[i], Get(tables, names[i]).value);
        out := TableOutput(out.files + templateFiles + implement.files, implement.error);
      }
    }
    assert names[..|names|] == names;
  }
}
