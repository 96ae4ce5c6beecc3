/**
 * The model-interface generator (generate-core-models.js). One file declares an interface
 * for every table of the table data, whatever the include and exclude lists say. Then every
 * walked table gets its model interface, with one property per column that is not ignored.
 */
module CoreModels {
  import opened Wrappers
  import opened Strings
  import opened JsObject
  import opened Utils
  import opened DataFromDatabase
  import SpCustom
  import Seqs

  /**
   * The interfaces template and its per-table definition, the model-interface template and
   * its two column definitions, the two output directories, the file-name suffix and
   * `spConfig`.
   */
  datatype Setup = Setup(
    interfacesTemplate: string,
    interfaceDefinition: string,
    modelTemplate: string,
    columnDefinition: string,
    encryptedColumnDefinition: string,
    interfacesDirectory: string,
    modelInterfacesDirectory: string,
    suffixFileName: string,
    config: map<string, SpCustom.SpTable>)

  /** A write request: the path of the file and its text. */
  type File = (string, string)

  // ---------------------------------------------------------------------------------
  // generateInterfaces

  /** One interface per table name, in order. */
  function InterfaceContents(setup: Setup, names: seq<string>): (r: seq<string>)
    ensures |r| == |names|
    ensures forall i :: 0 <= i < |names| ==> r[i] == Filled(setup.interfaceDefinition, [("entityName", names[i])], true)
  {
    if names == [] then []
    else InterfaceContents(setup, names[..|names| - 1]) + [Filled(setup.interfaceDefinition, [("entityName", names[|names| - 1])], true)]
  }

  /** The path of the interfaces file. */
  function InterfacesPath(setup: Setup): string {
    setup.interfacesDirectory + "/IEntityClassInterfaces.Generated.cs"
  }

  /** The interfaces file: every key of the table data, not only the selected ones. */
  function InterfacesFile(setup: Setup, tables: Tables): File {
    (InterfacesPath(setup),
     Filled(setup.interfacesTemplate, [("InterfaceDefinitions", Join(InterfaceContents(setup, Keys(tables)), "\n\n"))], true))
  }

  /** Every selected table, and every excluded one too, has its interface among the definitions. */
  lemma EveryTableHasInterface(setup: Setup, tables: Tables, tableName: string)
    requires tableName in Keys(tables)
    ensures Filled(setup.interfaceDefinition, [("entityName", tableName)], true) in InterfaceContents(setup, Keys(tables))
  {
    var i :| 0 <= i < |Keys(tables)| && Keys(tables)[i] == tableName;
    assert InterfaceContents(setup, Keys(tables))[i] == Filled(setup.interfaceDefinition, [("entityName", tableName)], true);
  }

  /** `generateInterfaces`: the loop over the keys of the table data. */
  method GenerateInterfaces(setup: Setup, tables: Tables) returns (file: File)
    ensures file == InterfacesFile(setup, tables)
  {
    var outputPath := setup.interfacesDirectory + "/IEntityClassInterfaces.Generated.cs";
    var interfaceContents: seq<string> := [];
    var names := Keys(tables);
    for i := 0 to |names|
      invariant interfaceContents == InterfaceContents(setup, names[..i])
    {
      assert names[..i + 1][..i] == names[..i];
      var content := FillTemplate(setup.interfaceDefinition, [("entityName", names[i])], true);
      interfaceContents := interfaceContents + [content];
    }
    assert names[..|names|] == names;
    var fileContent := FillTemplate(setup.interfacesTemplate, [("InterfaceDefinitions", Join(interfaceContents, "\n\n"))], true);
    file := (outputPath, fileContent);
  }

  // ---------------------------------------------------------------------------------
  // generateModelInterface

  /** `I<child>Model` for each child table, in order. */
  function ModelNames(children: seq<string>): (r: seq<string>)
    ensures |r| == |children|
    ensures forall i :: 0 <= i < |children| ==> r[i] == "I" + children[i] + "Model"
  {
    if children == [] then [] else ModelNames(children[..|children| - 1]) + ["I" + children[|children| - 1] + "Model"]
  }

  /** The inherited interfaces: the child tables' models for a table of `spConfig`, none otherwise. */
  function InheritedInterfaces(setup: Setup, tableName: string): (r: seq<string>)
    ensures tableName !in setup.config ==> r == []
    ensures tableName in setup.config ==>
      && |r| == |setup.config[tableName].childTables|
      && forall i :: 0 <= i < |r| ==> r[i] == "I" + setup.config[tableName].childTables[i] + "Model"
  {
    if tableName in setup.config then ModelNames(setup.config[tableName].childTables) else []
  }

  /** `ID`, then the table's ignored columns when it is a child table. */
  function IgnoredColumns(tableName: string): (r: seq<string>)
    ensures |r| >= 1 && r[0] == "ID"
    ensures tableName in SpCustom.SpChildTables ==> r[1..] == SpCustom.SpChildTables[tableName].ignoredColumns
    ensures tableName !in SpCustom.SpChildTables ==> r == ["ID"]
  {
    ["ID"] + (if tableName in SpCustom.SpChildTables then SpCustom.SpChildTables[tableName].ignoredColumns else [])
  }

  /** The setter text: none for a read-only column. */
  function Setter(c: Column): (r: string)
    ensures r == "" <==> c.isReadOnly
    ensures !c.isReadOnly ==> r == "set; "
  {
    if c.isReadOnly then "" else "set; "
  }

  /** The columns whose type is never made nullable. */
  predicate KeepsType(name: string) {
    name == "Is_System" || name == "Modified_Date" || name == "Created_Date"
  }

  /** The property type: `?` is appended exactly for a non-nullable, non-`string` column that is not exempt. */
  function ModelColumnType(c: Column): (t: string)
    ensures t == c.dataTypeDotNet || t == c.dataTypeDotNet + "?"
    ensures t == c.dataTypeDotNet + "?" <==> !c.isNullable && c.dataTypeDotNet != "string" && !KeepsType(c.name)
  {
    if !KeepsType(c.name) && !c.isNullable && c.dataTypeDotNet != "string" then c.dataTypeDotNet + "?" else c.dataTypeDotNet
  }

  /** The property of one column: the encrypted or plain definition, filled. */
  function ColumnText(setup: Setup, tableName: string, c: Column): string {
    Filled(if c.isEncrypted then setup.encryptedColumnDefinition else setup.columnDefinition,
           [("entityName", tableName), ("columnName", c.name), ("columnNamePascal", c.namePascal),
            ("columnType", ModelColumnType(c)), ("setter", Setter(c))], true)
  }

  /** The usings and property texts collected over the columns. */
  datatype ModelParts = ModelParts(usings: seq<string>, columns: seq<string>)

  /** One column: nothing if ignored; otherwise `System` on the first date column, and its property. */
  function WithModelColumn(setup: Setup, tableName: string, ignored: seq<string>, st: ModelParts, c: Column): ModelParts {
    if c.name in ignored then st
    else
      var usings := if "System" !in st.usings && IsDateTime(c.dataTypeDotNet) then st.usings + ["System"] else st.usings;
      ModelParts(usings, st.columns + [ColumnText(setup, tableName, c)])
  }

  function ModelColumns(setup: Setup, tableName: string, ignored: seq<string>, st: ModelParts, columns: seq<Column>): ModelParts {
    if columns == [] then st
    else WithModelColumn(setup, tableName, ignored, ModelColumns(setup, tableName, ignored, st, columns[..|columns| - 1]), columns[|columns| - 1])
  }

  /** The columns that are not ignored, in order. */
  function Kept(ignored: seq<string>, columns: seq<Column>): (r: seq<Column>)
    ensures |r| <= |columns|
    ensures forall i :: 0 <= i < |r| ==> r[i] in columns && r[i].name !in ignored
    ensures forall c :: c in columns && c.name !in ignored ==> c in r
  {
    if columns == [] then []
    else
      var last := columns[|columns| - 1];
      var front := Kept(ignored, columns[..|columns| - 1]);
      assert forall c :: c in columns ==> c in columns[..|columns| - 1] || c == last;
      front + (if last.name in ignored then [] else [last])
  }

  /**
   * `Kept` keeps the column order: it distributes over concatenation and keeps a single
   * column exactly when it is not ignored, which together determine it on every list.
   */
  lemma {:induction false} KeptConcat(ignored: seq<string>, a: seq<Column>, b: seq<Column>)
    ensures Kept(ignored, a + b) == Kept(ignored, a) + Kept(ignored, b)
    decreases |b|
  {
    if b == [] {
      assert a + b == a;
    } else {
      Seqs.FrontOfAppend(a, b);
      KeptConcat(ignored, a, b[..|b| - 1]);
    }
  }

  /** A single column is kept exactly when it is not ignored. */
  lemma KeptOne(ignored: seq<string>, c: Column)
    ensures Kept(ignored, [c]) == (if c.name in ignored then [] else [c])
  {
    assert [c][..0] == [];
  }

  /** The property texts of a list of columns, one each, in order. */
  function ColumnTexts(setup: Setup, tableName: string, columns: seq<Column>): (r: seq<string>)
    ensures |r| == |columns|
    ensures forall i :: 0 <= i < |columns| ==> r[i] == ColumnText(setup, tableName, columns[i])
  {
    if columns == [] then [] else ColumnTexts(setup, tableName, columns[..|columns| - 1]) + [ColumnText(setup, tableName, columns[|columns| - 1])]
  }

  /** Exactly one property per column that is not ignored, in column order, and nothing else. */
  lemma {:induction false} ModelColumnsTexts(setup: Setup, tableName: string, ignored: seq<string>, st: ModelParts, columns: seq<Column>)
    ensures ModelColumns(setup, tableName, ignored, st, columns).columns == st.columns + ColumnTexts(setup, tableName, Kept(ignored, columns))
    decreases |columns|
  {
    if columns != [] {
      var front := columns[..|columns| - 1];
      var last := columns[|columns| - 1];
      ModelColumnsTexts(setup, tableName, ignored, st, front);
      if last.name !in ignored {
        assert ColumnTexts(setup, tableName, Kept(ignored, front) + [last])
          == ColumnTexts(setup, tableName, Kept(ignored, front)) + [ColumnText(setup, tableName, last)];
      }
    }
  }

  /** Some column that is not ignored has a date type. */
  predicate HasDateColumn(ignored: seq<string>, columns: seq<Column>) {
    exists i :: 0 <= i < |columns| && columns[i].name !in ignored && IsDateTime(columns[i].dataTypeDotNet)
  }

  lemma HasDateColumnLast(ignored: seq<string>, columns: seq<Column>)
    requires columns != []
    ensures HasDateColumn(ignored, columns) <==>
      HasDateColumn(ignored, columns[..|columns| - 1])
      || (columns[|columns| - 1].name !in ignored && IsDateTime(columns[|columns| - 1].dataTypeDotNet))
  {
    var front := columns[..|columns| - 1];
    if HasDateColumn(ignored, front) {
      var i :| 0 <= i < |front| && front[i].name !in ignored && IsDateTime(front[i].dataTypeDotNet);
      assert columns[i] == front[i];
    }
    if HasDateColumn(ignored, columns) {
      var i :| 0 <= i < |columns| && columns[i].name !in ignored && IsDateTime(columns[i].dataTypeDotNet);
      if i < |front| {
        assert front[i] == columns[i];
      }
    }
  }

  /**
   * Starting from no usings, `System` is the only using ever added, it is added at most
   * once, and it is there exactly when some column that is not ignored has a date type.
   */
  lemma {:induction false} ModelUsings(setup: Setup, tableName: string, ignored: seq<string>, columns: seq<Column>)
    ensures var u := ModelColumns(setup, tableName, ignored, ModelParts([], []), columns).usings;
      && (u == [] || u == ["System"])
      && (u == ["System"] <==> HasDateColumn(ignored, columns))
    decreases |columns|
  {
    if columns != [] {
      ModelUsings(setup, tableName, ignored, columns[..|columns| - 1]);
      HasDateColumnLast(ignored, columns);
    }
  }

  /** The path of a table's model interface. */
  function ModelPath(setup: Setup, tableName: string): string {
    setup.modelInterfacesDirectory + "/I" + tableName + "Model" + setup.suffixFileName + ".cs"
  }

  /** The model interface of one table. */
  function ModelFile(setup: Setup, tableName: string, tableData: TableData): (file: File)
    ensures file.0 == ModelPath(setup, tableName)
  {
    var parts := ModelColumns(setup, tableName, IgnoredColumns(tableName), ModelParts([], []), tableData.columns);
    (ModelPath(setup, tableName),
     Filled(setup.modelTemplate,
            [("EntityName", tableName), ("Usings", UsingText(parts.usings)),
             ("ColumnDefinitions", Join(parts.columns, "\n\n")),
             ("InheritedInterfaces", InheritanceText(InheritedInterfaces(setup, tableName)))], true))
  }

  /**
   * A child table of a `spConfig` family never shows the parent key or the audit columns,
   * nor its own key.
   */
  lemma FamilyChildIgnores(texts: SpCustom.FilterTexts, parent: string, child: string, name: string)
    requires parent in SpCustom.SpConfig(texts) && child in SpCustom.SpConfig(texts)[parent].childTables
    requires name == "ID" || name == parent + "_ID" || name in SpCustom.AuditColumns
    ensures name in IgnoredColumns(child)
  {
    SpCustom.FamilyInvariant(texts, parent);
  }

  /** `processColumn` of the model interface. */
  method HandleModelColumn(setup: Setup, tableName: string, ignored: seq<string>, st: ModelParts, column: Column) returns (st': ModelParts)
    ensures st' == WithModelColumn(setup, tableName, ignored, st, column)
  {
    if column.name in ignored {
      return st;
    }
    var setter := if column.isReadOnly then "" else "set; ";
    var columnType := column.dataTypeDotNet;
    if !KeepsType(column.name) {
      if !column.isNullable && columnType != "string" {
        columnType := columnType + "?";
      }
    }
    var usings := st.usings;
    if "System" !in usings {
      if column.dataTypeDotNet == "DateTime" || column.dataTypeDotNet == "DateTime?" {
        usings := usings + ["System"];
      }
    }
    var replacements := [("entityName", tableName), ("columnName", column.name), ("columnNamePascal", column.namePascal),
                         ("columnType", columnType), ("setter", setter)];
    var columnDefinition := if column.isEncrypted then setup.encryptedColumnDefinition else setup.columnDefinition;
    var content := FillTemplate(columnDefinition, replacements, true);
    st' := ModelParts(usings, st.columns + [content]);
  }

  /** `generateModelInterface`. */
  method GenerateModelInterface(setup: Setup, tableName: string, tableData: TableData) returns (file: File)
    ensures file == ModelFile(setup, tableName, tableData)
  {
    var outputPath := setup.modelInterfacesDirectory + "/I" + tableName + "Model" + setup.suffixFileName + ".cs";
    var inheritedInterfaces: seq<string> := [];
    var ignoredColumns := ["ID"];
    if tableName in setup.config {
      var childTables := setup.config[tableName].childTables;
      for i := 0 to |childTables|
        invariant inheritedInterfaces == ModelNames(childTables[..i])
      {
        assert childTables[..i + 1][..i] == childTables[..i];
        inheritedInterfaces := inheritedInterfaces + ["I" + childTables[i] + "Model"];
      }
      assert childTables[..|childTables|] == childTables;
    }
    if tableName in SpCustom.SpChildTables {
      ignoredColumns := ignoredColumns + SpCustom.SpChildTables[tableName].ignoredColumns;
    }
    var parts := ModelParts([], []);
    var columns := tableData.columns;
    for i := 0 to |columns|
      invariant parts == ModelColumns(setup, tableName, ignoredColumns, ModelParts([], []), columns[..i])
    {
      assert columns[..i + 1][..i] == columns[..i];
      parts := HandleModelColumn(setup, tableName, ignoredColumns, parts, columns[i]);
    }
    assert columns[..|columns|] == columns;
    var usingsText := GetUsingTemplate(parts.usings);
    var inheritanceText := GetInheritanceTemplate(inheritedInterfaces);
    var content := FillTemplate(setup.modelTemplate,
      [("EntityName", tableName), ("Usings", usingsText), ("ColumnDefinitions", Join(parts.columns, "\n\n")),
       ("InheritedInterfaces", inheritanceText)], true);
    file := (outputPath, content);
  }

  // ---------------------------------------------------------------------------------
  // The script

  /** The model interfaces of the walked tables, one per table, in walk order. */
  function ModelFiles(setup: Setup, tables: Tables, names: seq<string>): (r: seq<File>)
    requires forall i :: 0 <= i < |names| ==> names[i] in Keys(tables)
    ensures |r| == |names|
  {
    if names == [] then []
    else
      var last := names[|names| - 1];
      ModelFiles(setup, tables, names[..|names| - 1]) + [ModelFile(setup, last, Get(tables, last).value)]
  }

  /** The i-th file of the walk is the model interface of the i-th walked table, at its own path. */
  lemma {:induction false} ModelFilesAt(setup: Setup, tables: Tables, names: seq<string>)
    requires forall i :: 0 <= i < |names| ==> names[i] in Keys(tables)
    ensures forall i :: 0 <= i < |names| ==>
      && ModelFiles(setup, tables, names)[i] == ModelFile(setup, names[i], Get(tables, names[i]).value)
      && ModelFiles(setup, tables, names)[i].0 == ModelPath(setup, names[i])
    decreases |names|
  {
    if names != [] {
      var front := names[..|names| - 1];
      var last := names[|names| - 1];
      ModelFilesAt(setup, tables, front);
      var files := ModelFiles(setup, tables, front);
      assert ModelFiles(setup, tables, names) == files + [ModelFile(setup, last, Get(tables, last).value)];
      forall i | 0 <= i < |names|
        ensures ModelFiles(setup, tables, names)[i] == ModelFile(setup, names[i], Get(tables, names[i]).value)
      {
        if i < |front| {
          assert front[i] == names[i];
          assert ModelFiles(setup, tables, names)[i] == files[i];
        } else {
          assert i == |files| && names[i] == last;
        }
      }
    }
  }

  /** One more walked table adds its own file at the end. */
  lemma ModelFilesStep(setup: Setup, tables: Tables, names: seq<string>, k: nat)
    requires forall i :: 0 <= i < |names| ==> names[i] in Keys(tables)
    requires k < |names|
    ensures ModelFiles(setup, tables, names[..k + 1])
         == ModelFiles(setup, tables, names[..k]) + [ModelFile(setup, names[k], Get(tables, names[k]).value)]
  {
    assert names[..k + 1][..k] == names[..k];
  }

  /** The script: the interfaces file, then the walk writing one model interface per selected table. */
  method GenerateCoreModels(setup: Setup, tables: Tables, included: seq<string>, excluded: seq<string>)
    returns (interfaces: File, models: seq<File>)
    ensures interfaces == InterfacesFile(setup, tables)
    ensures models == ModelFiles(setup, tables, SelectedTables(Keys(tables), included, excluded))
  {
    interfaces := GenerateInterfaces(setup, tables);
    var names := WalkthroughTableData(Keys(tables), included, excluded);
    assert forall j :: 0 <= j < |names| ==> names[j] in Keys(tables);
    models := [];
    for i := 0 to |names|
      invariant models == ModelFiles(setup, tables, names[..i])
    {
      ModelFilesStep(setup, tables, names, i);
      var file := GenerateModelInterface(setup, names[i], Get(tables, names[i]).value);
      models := models + [file];
    }
    assert names[..|names|] == names;
  }
}
