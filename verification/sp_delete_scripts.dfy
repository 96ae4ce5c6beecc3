/**
 * The delete stored-procedure generator (generate-sp-delete-scripts.js): one script per
 * table, built from one of three templates that share their head and tail and differ
 * only in the statement between them.
 */
module SpDelete {
  import opened Wrappers
  import opened Strings
  import opened JsObject
  import opened Utils
  import opened DataFromDatabase
  import SpCustom

  /** The tables whose rows are deleted by setting their status. */
  const SoftDeleteTables := ["Brand", "Device", "User", "Payment"]

  /** Which of the three templates a table gets. */
  datatype Variant = ByStatus | Commented | Plain

  /**
   * The soft-delete list is checked first, then the child-table configuration; every
   * other table gets the plain `DELETE`.
   */
  function VariantOf(tableName: string, childTables: map<string, SpCustom.ChildTable>): (v: Variant)
    ensures v == ByStatus <==> tableName in SoftDeleteTables
    ensures v == Commented <==> tableName !in SoftDeleteTables && tableName in childTables
    ensures v == Plain <==> tableName !in SoftDeleteTables && tableName !in childTables
  {
    if tableName in SoftDeleteTables then ByStatus
    else if tableName in childTables then Commented
    else Plain
  }

  /** The template parts: one head, one tail and the three statements. */
  datatype Templates = Templates(
    prefix: string,
    suffix: string,
    plainStatement: string,
    byStatusStatement: string,
    commentedStatement: string)

  /** The whole template of a variant: head, the variant's statement, tail. */
  function TemplateFor(t: Templates, v: Variant): (r: string)
    ensures |t.prefix| + |t.suffix| <= |r|
    ensures r[..|t.prefix|] == t.prefix && r[|r| - |t.suffix|..] == t.suffix
  {
    var statement := match v
      case ByStatus => t.byStatusStatement
      case Commented => t.commentedStatement
      case Plain => t.plainStatement;
    var r := t.prefix + statement + t.suffix;
    assert r[..|t.prefix|] == t.prefix;
    assert r[|r| - |t.suffix|..] == t.suffix;
    r
  }

  /** The script of one table: its template with the table name filled in. */
  function DeleteScript(t: Templates, childTables: map<string, SpCustom.ChildTable>, tableName: string): string {
    Filled(TemplateFor(t, VariantOf(tableName, childTables)), [("entityName", tableName)], true)
  }

  /** The scripts of the walked tables: exactly one per table, in walk order. */
  function DeleteScripts(t: Templates, childTables: map<string, SpCustom.ChildTable>, names: seq<string>): (r: seq<string>)
    ensures |r| == |names|
    ensures forall i :: 0 <= i < |names| ==> r[i] == DeleteScript(t, childTables, names[i])
  {
    if names == [] then []
    else DeleteScripts(t, childTables, names[..|names| - 1]) + [DeleteScript(t, childTables, names[|names| - 1])]
  }

  /** One more walked table adds its own script at the end. */
  lemma DeleteScriptsStep(t: Templates, childTables: map<string, SpCustom.ChildTable>, names: seq<string>, k: nat)
    requires k < |names|
    ensures DeleteScripts(t, childTables, names[..k + 1]) == DeleteScripts(t, childTables, names[..k]) + [DeleteScript(t, childTables, names[k])]
  {
    assert names[..k + 1][..k] == names[..k];
  }

  /** In the real configuration no soft-delete table is a child table, so the check order never matters. */
  lemma SoftDeleteAndChildTablesDisjoint()
    ensures forall i :: 0 <= i < |SoftDeleteTables| ==> SoftDeleteTables[i] !in SpCustom.SpChildTables
  {
  }

  /** Every child table of a `spConfig` family gets the commented-out template. */
  lemma ConfiguredChildrenCommented(texts: SpCustom.FilterTexts, parent: string, child: string)
    requires parent in SpCustom.SpConfig(texts) && child in SpCustom.SpConfig(texts)[parent].childTables
    ensures VariantOf(child, SpCustom.SpChildTables) == Commented
  {
    SpCustom.FamilyInvariant(texts, parent);
    SoftDeleteAndChildTablesDisjoint();
  }

  /** The delete template module: the template parts and a replacements object shared by every call. */
  class DeleteTemplate {
    const templates: Templates
    var replacements: Entries<string>

    ghost predicate Valid()
      reads this
    {
      Keys(replacements) == ["entityName"]
    }

    constructor (templates: Templates)
      ensures this.templates == templates
      ensures replacements == [("entityName", "")]
      ensures Valid()
    {
      this.templates := templates;
      replacements := [("entityName", "")];
    }

    /** `getStoredProcedureContent`: the table name is stored, then the chosen template filled. */
    method GetStoredProcedureContent(tableName: string) returns (script: string)
      requires Valid()
      modifies this
      ensures Valid()
      ensures replacements == [("entityName", tableName)]
      ensures script == DeleteScript(templates, SpCustom.SpChildTables, tableName)
    {
      replacements := Put(replacements, "entityName", tableName);
      assert replacements == [("entityName", tableName)];
      if tableName in SoftDeleteTables {
        script := FillTemplate(templates.prefix + templates.byStatusStatement + templates.suffix, replacements, true);
        return;
      }
      if tableName in SpCustom.SpChildTables {
        script := FillTemplate(templates.prefix + templates.commentedStatement + templates.suffix, replacements, true);
        return;
      }
      script := FillTemplate(templates.prefix + templates.plainStatement + templates.suffix, replacements, true);
    }

    /**
     * The whole output file: one script per walked table, joined by a blank line. The
     * shared `entityName` is left holding the last walked table, or as it was when no
     * table is walked.
     */
    method Generate(tables: Tables, included: seq<string>, excluded: seq<string>) returns (fileContent: string)
      requires Valid()
      modifies this
      ensures Valid()
      ensures fileContent == Join(DeleteScripts(templates, SpCustom.SpChildTables, SelectedTables(Keys(tables), included, excluded)), "\n\n")
      ensures var names := SelectedTables(Keys(tables), included, excluded);
        && (names == [] ==> replacements == old(replacements))
        && (names != [] ==> replacements == [("entityName", names[|names| - 1])])
    {
      var names := WalkthroughTableData(Keys(tables), included, excluded);
      var scripts := Walk(names);
      fileContent := Join(scripts, "\n\n");
    }

    /** `walkthroughTableData` with the callback that pushes each table's script. */
    method Walk(names: seq<string>) returns (scripts: seq<string>)
      requires Valid()
      modifies this
      ensures Valid()
      ensures scripts == DeleteScripts(templates, SpCustom.SpChildTables, names)
      ensures names == [] ==> replacements == old(replacements)
      ensures names != [] ==> replacements == [("entityName", names[|names| - 1])]
    {
      scripts := [];
      for i := 0 to |names|
        invariant Valid()
        invariant scripts == DeleteScripts(templates, SpCustom.SpChildTables, names[..i])
        invariant i == 0 ==> replacements == old(replacements)
        invariant i > 0 ==> replacements == [("entityName", names[i - 1])]
      {
        DeleteScriptsStep(templates, SpCustom.SpChildTables, names, i);
        var scriptContent := GetStoredProcedureContent(names[i]);
        scripts := scripts + [scriptContent];
      }
      assert names[..|names|] == names;
    }
  }
}
