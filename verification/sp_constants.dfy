/**
 * The stored-procedure constants generator (generate-code_sp-constants.js). For every
 * table of the table data that has procedures, each procedure becomes one C# constant
 * and one documentation node. The constants fill one class file. The nodes make up an
 * XML document, whose serialisation is not part of this model.
 */
module SpConstants {
  import opened Wrappers
  import opened Strings
  import opened JsObject
  import opened Utils
  import opened DataFromDatabase

  /** The class template, the per-procedure definition, the entities directory and the file-name suffix. */
  datatype Setup = Setup(template: string, definition: string, entitiesDirectory: string, suffixFileName: string)

  /** A file written: its path and its text. */
  type File = (string, string)

  /** The constant of one procedure: its `key` and its schema-qualified name. */
  function ProcedureConstant(setup: Setup, p: Procedure): string {
    Filled(setup.definition, [("key", p.key), ("name", p.nameWithSchema)], true)
  }

  /** The constants of a procedures object, one per procedure, in key order. */
  function ProcedureConstants(setup: Setup, procedures: Entries<Procedure>): (r: seq<string>)
    ensures |r| == |procedures|
    ensures forall i :: 0 <= i < |procedures| ==> r[i] == ProcedureConstant(setup, procedures[i].1)
  {
    if procedures == [] then []
    else ProcedureConstants(setup, procedures[..|procedures| - 1]) + [ProcedureConstant(setup, procedures[|procedures| - 1].1)]
  }

  /**
   * `getStoredProceduresConstantsContent`: `undefined` (here `None`) for a table without
   * procedures, otherwise one constant per procedure. The emptiness test on `length`
   * never holds for an object, so an empty procedures object gives an empty list.
   */
  function ConstantsContent(setup: Setup, tableData: TableData): (r: Option<seq<string>>)
    ensures r.None? <==> tableData.procedures.None?
    ensures tableData.procedures.Some? ==> r.value == ProcedureConstants(setup, tableData.procedures.value)
  {
    match tableData.procedures
    case None => None
    case Some(procedures) => Some(ProcedureConstants(setup, procedures))
  }

  /** `getStoredProceduresConstantsContent`, with the `map` over the keys as a loop. */
  method GetStoredProceduresConstantsContent(setup: Setup, tableData: TableData) returns (r: Option<seq<string>>)
    ensures r == ConstantsContent(setup, tableData)
  {
    if tableData.procedures.None? {
      return None;
    }
    var procedures := tableData.procedures.value;
    var constants: seq<string> := [];
    for i := 0 to |procedures|
      invariant constants == ProcedureConstants(setup, procedures[..i])
    {
      assert procedures[..i + 1][..i] == procedures[..i];
      var procedure := procedures[i].1;
      var text := FillTemplate(setup.definition, [("key", procedure.key), ("name", procedure.nameWithSchema)], true);
      constants := constants + [text];
    }
    assert procedures[..|procedures|] == procedures;
    r := Some(constants);
  }

  /** The constants of the named tables, each table's in turn; tables without procedures add nothing. */
  function AllConstants(setup: Setup, tables: Tables, names: seq<string>): seq<string>
    requires forall i :: 0 <= i < |names| ==> names[i] in Keys(tables)
  {
    if names == [] then []
    else
      var last := names[|names| - 1];
      AllConstants(setup, tables, names[..|names| - 1]) + ConstantsContent(setup, Get(tables, last).value).GetOr([])
  }

  /** The number of procedures the named tables hold. */
  function ProcedureCount(tables: Tables, names: seq<string>): nat
    requires forall i :: 0 <= i < |names| ==> names[i] in Keys(tables)
  {
    if names == [] then 0
    else
      var procedures := Get(tables, names[|names| - 1]).value.procedures;
      ProcedureCount(tables, names[..|names| - 1]) + (if procedures.Some? then |procedures.value| else 0)
  }

  /** Exactly one constant per procedure of every table: none lost, none doubled. */
  lemma {:induction false} AllConstantsCount(setup: Setup, tables: Tables, names: seq<string>)
    requires forall i :: 0 <= i < |names| ==> names[i] in Keys(tables)
    ensures |AllConstants(setup, tables, names)| == ProcedureCount(tables, names)
    decreases |names|
  {
    if names != [] {
      var front := names[..|names| - 1];
      AllConstantsCount(setup, tables, front);
      var d := Get(tables, names[|names| - 1]).value;
      var added := ConstantsContent(setup, d).GetOr([]);
      assert AllConstants(setup, tables, names) == AllConstants(setup, tables, front) + added;
      assert |added| == if d.procedures.Some? then |d.procedures.value| else 0;
    }
  }

  /** Tables are visited in order: the constants of an earlier table come before those of a later one. */
  lemma {:induction false} AllConstantsPrefix(setup: Setup, tables: Tables, names: seq<string>, k: nat)
    requires forall i :: 0 <= i < |names| ==> names[i] in Keys(tables)
    requires k <= |names|
    ensures AllConstants(setup, tables, names[..k]) <= AllConstants(setup, tables, names)
    decreases |names|
  {
    if k < |names| {
      var front := names[..|names| - 1];
      assert names[..k] == front[..k];
      AllConstantsPrefix(setup, tables, front, k);
    } else {
      assert names[..k] == names;
    }
  }

  /** The path of the constants class file. */
  function ConstantsPath(setup: Setup): string {
    setup.entitiesDirectory + "/../StoredProcedureConstants" + setup.suffixFileName + ".cs"
  }

  /** The constants class file, all constants separated by a blank line. */
  function ConstantsFile(setup: Setup, tables: Tables): File {
    (ConstantsPath(setup),
     Filled(setup.template, [("ProcedureDefinitions", Join(AllConstants(setup, tables, Keys(tables)), "\n\n"))], true))
  }

  // ---------------------------------------------------------------------------------
  // The documentation nodes

  /** The documentation term of a parameter: its name, starred when it is required. */
  function XmlTerm(p: Parameter): (term: string)
    ensures term == p.name + "*" <==> p.isRequired
    ensures !p.isRequired ==> term == p.name
    ensures term[..|p.name|] == p.name
  {
    if p.isRequired then
      assert (p.name + "*")[..|p.name|] == p.name;
      p.name + "*"
    else p.name
  }

  /** The `item` of a parameter: its term and its declared SQL type. */
  function XmlItem(p: Parameter): (string, string) {
    (XmlTerm(p), p.dataTypeSqlWithLength)
  }

  /** The items of a procedure, one per parameter, in order. */
  function XmlItems(parameters: seq<Parameter>): (r: seq<(string, string)>)
    ensures |r| == |parameters|
    ensures forall i :: 0 <= i < |parameters| ==> r[i] == XmlItem(parameters[i])
  {
    if parameters == [] then [] else XmlItems(parameters[..|parameters| - 1]) + [XmlItem(parameters[|parameters| - 1])]
  }

  /** A `procedure` node: its key and the items of its parameter list (the summary text is fixed). */
  datatype ProcedureNode = ProcedureNode(key: string, items: seq<(string, string)>)

  /** The nodes of a procedures object, one per procedure, in key order. */
  function XmlNodes(procedures: Entries<Procedure>): (r: seq<ProcedureNode>)
    ensures |r| == |procedures|
    ensures forall i :: 0 <= i < |procedures| ==>
      r[i].key == procedures[i].1.key && r[i].items == XmlItems(procedures[i].1.parameters)
  {
    if procedures == [] then []
    else
      var p := procedures[|procedures| - 1].1;
      XmlNodes(procedures[..|procedures| - 1]) + [ProcedureNode(p.key, XmlItems(p.parameters))]
  }

  /** The parameter loop of one procedure. */
  method ProcedureItems(parameters: seq<Parameter>) returns (items: seq<(string, string)>)
    ensures items == XmlItems(parameters)
  {
    items := [];
    for i := 0 to |parameters|
      invariant items == XmlItems(parameters[..i])
    {
      assert parameters[..i + 1][..i] == parameters[..i];
      var param := parameters[i];
      var txtTerm := if param.isRequired then param.name + "*" else param.name;
      items := items + [(txtTerm, param.dataTypeSqlWithLength)];
    }
    assert parameters[..|parameters|] == parameters;
  }

  /** `generateStoredProcedureXmlNodes`, called only for a table that has procedures. */
  method GenerateStoredProcedureXmlNodes(procedures: Entries<Procedure>) returns (nodes: seq<ProcedureNode>)
    ensures nodes == XmlNodes(procedures)
  {
    nodes := [];
    for i := 0 to |procedures|
      invariant nodes == XmlNodes(procedures[..i])
    {
      assert procedures[..i + 1][..i] == procedures[..i];
      var items := ProcedureItems(procedures[i].1.parameters);
      nodes := nodes + [ProcedureNode(procedures[i].1.key, items)];
    }
    assert procedures[..|procedures|] == procedures;
  }

  /** The nodes of the named tables, each table's in turn. */
  function AllNodes(tables: Tables, names: seq<string>): (r: seq<ProcedureNode>)
    requires forall i :: 0 <= i < |names| ==> names[i] in Keys(tables)
  {
    if names == [] then []
    else
      var procedures := Get(tables, names[|names| - 1]).value.procedures;
      AllNodes(tables, names[..|names| - 1]) + (if procedures.Some? then XmlNodes(procedures.value) else [])
  }

  /** Every constant has its documentation node: there are as many nodes as constants. */
  lemma {:induction false} NodesMatchConstants(setup: Setup, tables: Tables, names: seq<string>)
    requires forall i :: 0 <= i < |names| ==> names[i] in Keys(tables)
    ensures |AllNodes(tables, names)| == |AllConstants(setup, tables, names)|
    decreases |names|
  {
    if names != [] {
      var front := names[..|names| - 1];
      NodesMatchConstants(setup, tables, front);
      var d := Get(tables, names[|names| - 1]).value;
      var added := ConstantsContent(setup, d).GetOr([]);
      assert AllConstants(setup, tables, names) == AllConstants(setup, tables, front) + added;
      assert |added| == if d.procedures.Some? then |d.procedures.value| else 0;
    }
  }

  /** The constants and nodes of one more table follow those of the earlier ones. */
  lemma AllStep(setup: Setup, tables: Tables, names: seq<string>, k: nat)
    requires forall i :: 0 <= i < |names| ==> names[i] in Keys(tables)
    requires k < |names|
    ensures var d := Get(tables, names[k]).value;
      && AllConstants(setup, tables, names[..k + 1]) == AllConstants(setup, tables, names[..k]) + ConstantsContent(setup, d).GetOr([])
      && AllNodes(tables, names[..k + 1]) == AllNodes(tables, names[..k]) + (if d.procedures.Some? then XmlNodes(d.procedures.value) else [])
  {
    assert names[..k + 1][..k] == names[..k];
  }

  /**
   * The script: every key of the table data, with or without procedures, in key order.
   * The constants are computed a second time before they are added; both calls give the
   * same list.
   */
  method GenerateSpConstants(setup: Setup, tables: Tables) returns (csFile: File, nodes: seq<ProcedureNode>)
    ensures csFile == ConstantsFile(setup, tables)
    ensures nodes == AllNodes(tables, Keys(tables))
  {
    var names := Keys(tables);
    var constantsText: seq<string> := [];
    nodes := [];
    for i := 0 to |names|
      invariant constantsText == AllConstants(setup, tables, names[..i])
      invariant nodes == AllNodes(tables, names[..i])
    {
      AllStep(setup, tables, names, i);
      var tableData := Get(tables, names[i]).value;
      var constantText := GetStoredProceduresConstantsContent(setup, tableData);
      if constantText.None? {
        continue;
      }
      var again := GetStoredProceduresConstantsContent(setup, tableData);
      constantsText := constantsText + again.value;
      var tableNodes := GenerateStoredProcedureXmlNodes(tableData.procedures.value);
      nodes := nodes + tableNodes;
    }
    assert names[..|names|] == names;
    var fileContent := FillTemplate(setup.template, [("ProcedureDefinitions", Join(constantsText, "\n\n"))], true);
    csFile := (setup.entitiesDirectory + "/../StoredProcedureConstants" + setup.suffixFileName + ".cs", fileContent);
  }
}
