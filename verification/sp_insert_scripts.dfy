/**
 * The insert stored-procedure generator (generate-sp-insert-scripts.js): per table one
 * parameter line, one column line and one value line for every column except the key
 * and audit columns, each line carrying the column's default clause.
 */
module SpInsert {
  import opened Wrappers
  import opened Strings
  import opened JsObject
  import opened Utils
  import opened DataFromDatabase
  import Seqs

  /** The three line templates of the insert template, as opaque text. */
  datatype Definitions = Definitions(parameter: string, column: string, value: string)

  /** The columns the insert and update procedures never take: the keys and the audit columns. */
  predicate IsSkipped(name: string) {
    name == "ID" || name == "UID" || name == "Modified_By" || name == "Modified_Date"
    || name == "Created_By" || name == "Created_Date"
  }

  /** `${column.defaultValue}`: a missing default prints as `null`. */
  function DefaultText(d: Option<string>): string {
    match d
    case Some(s) => s
    case None => "null"
  }

  /** JavaScript truthiness of a default value: present and not empty. */
  predicate IsTruthy(d: Option<string>) {
    d.Some? && d.value != ""
  }

  /**
   * The default clause of a kept column: `" = 0"` for `Is_Default` and `Is_System`,
   * otherwise `" = "` followed by the default as text, whatever the column's type and
   * nullability.
   */
  function DefaultClause(c: Column): string {
    if c.name == "Is_Default" || c.name == "Is_System" then " = 0"
    else " = " + DefaultText(c.defaultValue)
  }

  /** The replacements of one column's three lines. */
  function ColumnReplacements(c: Column, defaultValue: string): Entries<string> {
    [("columnName", c.name), ("dataType", ToUpper(c.dataTypeSqlWithLength)), ("defaultValue", defaultValue)]
  }

  /** The three lists of a table, side by side. */
  datatype Lines = Lines(parameters: seq<string>, columns: seq<string>, values: seq<string>)

  /** The lines of one kept column appended to each list. */
  function WithColumn(defs: Definitions, lines: Lines, c: Column): Lines {
    var replacements := ColumnReplacements(c, DefaultClause(c));
    Lines(lines.parameters + [Filled(defs.parameter, replacements, true)],
          lines.columns + [Filled(defs.column, replacements, true)],
          lines.values + [Filled(defs.value, replacements, true)])
  }

  /** `tableData.columns.forEach`: the three lists, in column order. */
  function InsertLines(defs: Definitions, columns: seq<Column>): Lines {
    if columns == [] then Lines([], [], [])
    else
      var front := InsertLines(defs, columns[..|columns| - 1]);
      var c := columns[|columns| - 1];
      if IsSkipped(c.name) then front else WithColumn(defs, front, c)
  }

  /** The columns that get lines, in column order. */
  function Kept(columns: seq<Column>): (r: seq<Column>)
    ensures forall i :: 0 <= i < |r| ==> r[i] in columns && !IsSkipped(r[i].name)
    ensures forall c :: c in columns && !IsSkipped(c.name) ==> c in r
  {
    if columns == [] then []
    else
      var c := columns[|columns| - 1];
      assert columns == columns[..|columns| - 1] + [c];
      if IsSkipped(c.name) then Kept(columns[..|columns| - 1]) else Kept(columns[..|columns| - 1]) + [c]
  }

  /**
   * `Kept` keeps the column order: it distributes over concatenation and keeps a single
   * column exactly when its name is not skipped.
   */
  lemma {:induction false} KeptConcat(a: seq<Column>, b: seq<Column>)
    ensures Kept(a + b) == Kept(a) + Kept(b)
    decreases |b|
  {
    if b == [] {
      assert a + b == a;
    } else {
      Seqs.FrontOfAppend(a, b);
      KeptConcat(a, b[..|b| - 1]);
    }
  }

  /** A single column is kept exactly when its name is not skipped. */
  lemma KeptOne(c: Column)
    ensures Kept([c]) == (if IsSkipped(c.name) then [] else [c])
  {
    assert [c][..0] == [];
  }

  /**
   * The three lists are parallel: the same length, one entry per kept column, and entry
   * `i` of each list is made from the same column with the same replacements.
   */
  lemma {:induction false} LinesParallel(defs: Definitions, columns: seq<Column>)
    ensures var lines := InsertLines(defs, columns);
      var kept := Kept(columns);
      && |lines.parameters| == |kept| && |lines.columns| == |kept| && |lines.values| == |kept|
      && forall i :: 0 <= i < |kept| ==>
           var replacements := ColumnReplacements(kept[i], DefaultClause(kept[i]));
           && lines.parameters[i] == Filled(defs.parameter, replacements, true)
           && lines.columns[i] == Filled(defs.column, replacements, true)
           && lines.values[i] == Filled(defs.value, replacements, true)
    decreases |columns|
  {
    if columns != [] {
      LinesParallel(defs, columns[..|columns| - 1]);
    }
  }

  /**
   * One column of the `forEach`, statement by statement. The bit test of the source reads
   * `column.dataType`, which the column record does not have, so it never holds; and the
   * unconditional assignment after it replaces whatever it chose.
   */
  method ProcessColumn(defs: Definitions, c: Column, lines: Lines) returns (lines': Lines)
    ensures lines' == if IsSkipped(c.name) then lines else WithColumn(defs, lines, c)
  {
    var defaultValue := "";
    var dataType := ToUpper(c.dataTypeSqlWithLength);
    if IsSkipped(c.name) {
      return lines;
    }
    if c.name == "Is_Default" || c.name == "Is_System" {
      defaultValue := " = 0";
    } else {
      if IsTruthy(c.defaultValue) {
        defaultValue := " = '" + c.defaultValue.value + "'";
      }
      defaultValue := " = " + DefaultText(c.defaultValue);
      if c.isNullable && defaultValue == "" {
        defaultValue := " = NULL";
      }
    }
    var replacements := [("columnName", c.name), ("dataType", dataType), ("defaultValue", defaultValue)];
    var parameter := FillTemplate(defs.parameter, replacements, true);
    var column := FillTemplate(defs.column, replacements, true);
    var value := FillTemplate(defs.value, replacements, true);
    lines' := Lines(lines.parameters + [parameter], lines.columns + [column], lines.values + [value]);
  }

  /** The three lists of a table, built column by column. */
  method BuildLines(defs: Definitions, columns: seq<Column>) returns (lines: Lines)
    ensures lines == InsertLines(defs, columns)
  {
    lines := Lines([], [], []);
    for i := 0 to |columns|
      invariant lines == InsertLines(defs, columns[..i])
    {
      assert columns[..i + 1][..i] == columns[..i];
      lines := ProcessColumn(defs, columns[i], lines);
    }
    assert columns[..|columns|] == columns;
  }

  /** A nullable column without a default gets `" = null"`, never the `" = NULL"` fallback. */
  lemma NullableWithoutDefault(c: Column)
    requires c.isNullable && c.defaultValue.None? && !IsSkipped(c.name)
    requires c.name != "Is_Default" && c.name != "Is_System"
    ensures DefaultClause(c) == " = null"
  {
  }

  /** The default clause is never empty, so every kept column's lines carry one. */
  lemma DefaultClauseNotEmpty(c: Column)
    ensures |DefaultClause(c)| >= 3 && DefaultClause(c)[..3] == " = "
  {
  }

  const ReplacementKeys := ["Parameters", "Columns", "Values", "entityName"]

  /** The shared replacements after a call for `tableName`. */
  function InsertReplacements(defs: Definitions, tableName: string, tableData: TableData): Entries<string> {
    var lines := InsertLines(defs, tableData.columns);
    [("Parameters", Join(lines.parameters, "\n")), ("Columns", Join(lines.columns, "\n")),
     ("Values", Join(lines.values, "\n")), ("entityName", tableName)]
  }

  /** The script of one table. */
  function InsertScript(template: string, defs: Definitions, tableName: string, tableData: TableData): string {
    Filled(template, InsertReplacements(defs, tableName, tableData), true)
  }

  /** The scripts of the walked tables, one per table, in walk order. */
  function InsertScripts(template: string, defs: Definitions, tables: Tables, names: seq<string>): seq<string>
    requires forall i :: 0 <= i < |names| ==> names[i] in Keys(tables)
  {
    if names == [] then []
    else
      var t := names[|names| - 1];
      InsertScripts(template, defs, tables, names[..|names| - 1]) + [InsertScript(template, defs, t, Get(tables, t).value)]
  }

  /** Exactly one script per walked table, in walk order, each that table's own. */
  lemma {:induction false} InsertScriptsAt(template: string, defs: Definitions, tables: Tables, names: seq<string>)
    requires forall i :: 0 <= i < |names| ==> names[i] in Keys(tables)
    ensures |InsertScripts(template, defs, tables, names)| == |names|
    ensures forall i :: 0 <= i < |names| ==>
      InsertScripts(template, defs, tables, names)[i] == InsertScript(template, defs, names[i], Get(tables, names[i]).value)
    decreases |names|
  {
    if names != [] {
      var front := names[..|names| - 1];
      var t := names[|names| - 1];
      InsertScriptsAt(template, defs, tables, front);
      var scripts := InsertScripts(template, defs, tables, front);
      assert InsertScripts(template, defs, tables, names) == scripts + [InsertScript(template, defs, t, Get(tables, t).value)];
      forall i | 0 <= i < |names|
        ensures InsertScripts(template, defs, tables, names)[i] == InsertScript(template, defs, names[i], Get(tables, names[i]).value)
      {
        if i < |front| {
          assert front[i] == names[i];
          assert InsertScripts(template, defs, tables, names)[i] == scripts[i];
        } else {
          assert i == |scripts| && names[i] == t;
        }
      }
    }
  }

  /** One more walked table adds its own script at the end. */
  lemma InsertScriptsStep(template: string, defs: Definitions, tables: Tables, names: seq<string>, k: nat)
    requires forall i :: 0 <= i < |names| ==> names[i] in Keys(tables)
    requires k < |names|
    ensures InsertScripts(template, defs, tables, names[..k + 1])
      == InsertScripts(template, defs, tables, names[..k]) + [InsertScript(template, defs, names[k], Get(tables, names[k]).value)]
  {
    assert names[..k + 1][..k] == names[..k];
  }

  /** The four keys of the replacements are distinct, so each assignment rewrites its own entry. */
  /** The four assignments of `getStoredProcedureContent`, on an object with exactly the four keys, give the table's replacements. */
  lemma FourPuts(e: Entries<string>, defs: Definitions, tableName: string, tableData: TableData)
    requires Keys(e) == ReplacementKeys
    ensures var lines := InsertLines(defs, tableData.columns);
      Put(Put(Put(Put(e, "Parameters", Join(lines.parameters, "\n")), "Columns", Join(lines.columns, "\n")),
              "Values", Join(lines.values, "\n")), "entityName", tableName)
      == InsertReplacements(defs, tableName, tableData)
  {
    var updates := InsertReplacements(defs, tableName, tableData);
    AssignFour(e, updates);
    ReplacementKeysDistinct();
    AssignAll(e, updates);
  }

  /** A table's replacements have exactly the four keys. */
  lemma InsertKeys(defs: Definitions, tableName: string, tableData: TableData)
    ensures Keys(InsertReplacements(defs, tableName, tableData)) == ReplacementKeys
  {
  }

  lemma ReplacementKeysDistinct()
    ensures Seqs.NoDuplicates(ReplacementKeys)
  {
  }

  /** The insert template module: constant text and a replacements object shared by every call. */
  class InsertTemplate {
    const template: string
    const definitions: Definitions
    var replacements: Entries<string>

    ghost predicate Valid()
      reads this
    {
      Keys(replacements) == ReplacementKeys
    }

    constructor (template: string, definitions: Definitions)
      ensures this.template == template && this.definitions == definitions
      ensures replacements == [("Parameters", ""), ("Columns", ""), ("Values", ""), ("entityName", "")]
      ensures Valid()
    {
      this.template := template;
      this.definitions := definitions;
      replacements := [("Parameters", ""), ("Columns", ""), ("Values", ""), ("entityName", "")];
    }

    /**
     * `getStoredProcedureContent`: the four shared replacements are overwritten, so the
     * script depends on this table only, never on an earlier call.
     */
    method GetStoredProcedureContent(tableName: string, tableData: TableData) returns (script: string)
      requires Valid()
      modifies this
      ensures Valid()
      ensures replacements == InsertReplacements(definitions, tableName, tableData)
      ensures script == InsertScript(template, definitions, tableName, tableData)
    {
      var lines := BuildLines(definitions, tableData.columns);
      var r := Put(replacements, "Parameters", Join(lines.parameters, "\n"));
      r := Put(r, "Columns", Join(lines.columns, "\n"));
      r := Put(r, "Values", Join(lines.values, "\n"));
      r := Put(r, "entityName", tableName);
      FourPuts(replacements, definitions, tableName, tableData);
      InsertKeys(definitions, tableName, tableData);
      replacements := r;
      script := FillTemplate(template, replacements, true);
    }

    /**
     * The whole output file: the walked tables' scripts joined by a blank line. The shared
     * replacements are left holding the last walked table's values.
     */
    method Generate(tables: Tables, included: seq<string>, excluded: seq<string>) returns (fileContent: string)
      requires Valid()
      modifies this
      ensures Valid()
      ensures fileContent == Join(InsertScripts(template, definitions, tables, SelectedTables(Keys(tables), included, excluded)), "\n\n")
      ensures var names := SelectedTables(Keys(tables), included, excluded);
        && (names == [] ==> replacements == old(replacements))
        && (names != [] ==> replacements == InsertReplacements(definitions, names[|names| - 1], Get(tables, names[|names| - 1]).value))
    {
      var names := WalkthroughTableData(Keys(tables), included, excluded);
      var scripts := Walk(tables, names);
      fileContent := Join(scripts, "\n\n");
    }

    /** `walkthroughTableData` with the callback that pushes each table's script. */
    method Walk(tables: Tables, names: seq<string>) returns (scripts: seq<string>)
      requires Valid()
      requires forall i :: 0 <= i < |names| ==> names[i] in Keys(tables)
      modifies this
      ensures Valid()
      ensures scripts == InsertScripts(template, definitions, tables, names)
      ensures names == [] ==> replacements == old(replacements)
      ensures names != [] ==> replacements == InsertReplacements(definitions, names[|names| - 1], Get(tables, names[|names| - 1]).value)
    {
      scripts := [];
      for i := 0 to |names|
        invariant Valid()
        invariant scripts == InsertScripts(template, definitions, tables, names[..i])
        invariant i == 0 ==> replacements == old(replacements)
        invariant i > 0 ==> replacements == InsertReplacements(definitions, names[i - 1], Get(tables, names[i - 1]).value)
      {
        InsertScriptsStep(template, definitions, tables, names, i);
        var scriptContent := GetStoredProcedureContent(names[i], Get(tables, names[i]).value);
        scripts := scripts + [scriptContent];
      }
      assert names[..|names|] == names;
    }
  }
}
