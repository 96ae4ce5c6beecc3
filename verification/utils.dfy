/**
 * Text-assembly primitives shared by all generators (utils.js): placeholder
 * substitution, `using` and inheritance lists, and the table include/exclude walk.
 */
module Utils {
  import opened Wrappers
  import opened Strings
  import opened Seqs
  import opened JsObject

  /** The literal placeholder `{{key}}`. */
  function Placeholder(key: string): string
  {
    "{{" + key + "}}"
  }

  /** The template after every key's placeholder has been replaced, one key after another in key order. */
  function Substituted(template: string, replacement: Entries<string>): string
  {
    if replacement == [] then template
    else
      var last := replacement[|replacement| - 1];
      ReplaceAll(Substituted(template, replacement[..|replacement| - 1]), Placeholder(last.0), last.1)
  }

  /** What `replaceTemplate(template, replacement, replaceTab)` returns for a string template. */
  function Filled(template: string, replacement: Entries<string>, replaceTab: bool): string
  {
    var s := Substituted(template, replacement);
    if replaceTab then ExpandTabs(s) else s
  }

  /** The value passed as a template: only a string is accepted. */
  datatype TemplateValue = StringValue(text: string) | OtherValue

  const NotAStringError := "The template must be a string"

  /** `replaceTemplate`: a template that is not a string is rejected with an error. */
  method ReplaceTemplate(template: TemplateValue, replacement: Entries<string>, replaceTab: bool)
    returns (r: Result<string, string>)
    ensures template.OtherValue? ==> r == Failure(NotAStringError)
    ensures template.StringValue? ==> r == Success(Filled(template.text, replacement, replaceTab))
  {
    if template.OtherValue? {
      return Failure(NotAStringError);
    }
    var text := FillTemplate(template.text, replacement, replaceTab);
    r := Success(text);
  }

  /** The body of `replaceTemplate` once the template is known to be a string. */
  method FillTemplate(template: string, replacement: Entries<string>, replaceTab: bool)
    returns (result: string)
    ensures result == Filled(template, replacement, replaceTab)
  {
    result := template;
    var i := 0;
    while i < |replacement|
      invariant 0 <= i <= |replacement|
      invariant result == Substituted(template, replacement[..i])
    {
      var key, value := replacement[i].0, replacement[i].1;
      assert replacement[..i + 1][..i] == replacement[..i];
      result := ReplaceAll(result, Placeholder(key), value);
      i := i + 1;
    }
    assert replacement[..|replacement|] == replacement;
    if replaceTab {
      ReplaceTabIsExpandTabs(result);
      result := ReplaceAll(result, "\t", "    ");
    }
  }

  /** With `replaceTab`, the result contains no tab character. */
  lemma FilledHasNoTab(template: string, replacement: Entries<string>)
    ensures '\t' !in Filled(template, replacement, true)
  {
    ExpandTabsHasNoTab(Substituted(template, replacement));
  }

  /** A key that can appear in a placeholder without being confused with its braces. */
  predicate BraceFree(key: string) {
    '{' !in key && '}' !in key
  }

  /** A brace-free key's placeholder starts with another's only when the keys are equal. */
  lemma PlaceholderPrefixSameKey(a: string, b: string)
    requires BraceFree(a) && BraceFree(b)
    requires StartsWith(Placeholder(a), Placeholder(b))
    ensures a == b
  {
    var pa, pb := Placeholder(a), Placeholder(b);
    assert pa[..|pb|] == pb;
    assert pa[2 + |b|] == pb[2 + |b|] == '}';
    assert forall i :: 0 <= i < |a| ==> pa[2 + i] == a[i] != '}';
    assert |a| == |b|;
    assert forall i :: 0 <= i < |b| ==> a[i] == pa[2 + i] == pb[2 + i] == b[i];
  }

  /** The placeholder of one brace-free key does not occur in the placeholder of another. */
  lemma PlaceholderNotInOther(a: string, b: string)
    requires a != b && BraceFree(a) && BraceFree(b)
    ensures !Contains(Placeholder(a), Placeholder(b))
  {
    var pa, pb := Placeholder(a), Placeholder(b);
    if StartsWith(pa, pb) {
      PlaceholderPrefixSameKey(a, b);
    }
    var rest := pa[1..];
    if Contains(rest, pb) {
      assert pb == "{{" + (b + "}}");
      ContainsPrefixOf(rest, "{{", b + "}}");
      assert rest[1] != '{' by {
        if a != [] { assert rest[1] == a[0]; } else { assert rest[1] == '}'; }
      }
      assert rest[1..] == a + "}}";
      NoDoubleBrace(rest[1..]);
    }
  }

  /**
   * Keys are substituted one after another in key order, so the order of the keys
   * decides the text: a value holding another key's placeholder is rewritten by that
   * key when it comes later, and survives as it is when that key came earlier.
   */
  lemma KeyOrderMatters(a: string, b: string, x: string)
    requires a != b && BraceFree(a) && BraceFree(b)
    ensures Filled(Placeholder(a), [(a, Placeholder(b)), (b, x)], false) == x
    ensures Filled(Placeholder(a), [(b, x), (a, Placeholder(b))], false) == Placeholder(b)
  {
    var later: Entries<string> := [(a, Placeholder(b)), (b, x)];
    assert later[..1] == [(a, Placeholder(b))] && later[..1][..0] == [];
    ReplaceAllWhole(Placeholder(a), Placeholder(b));
    ReplaceAllWhole(Placeholder(b), x);
    assert Substituted(Placeholder(a), later[..1]) == Placeholder(b);
    assert Substituted(Placeholder(a), later) == x;
    var earlier: Entries<string> := [(b, x), (a, Placeholder(b))];
    assert earlier[..1] == [(b, x)] && earlier[..1][..0] == [];
    PlaceholderNotInOther(a, b);
    ReplaceAllAbsent(Placeholder(a), Placeholder(b), x);
    assert Substituted(Placeholder(a), earlier[..1]) == Placeholder(a);
    assert Substituted(Placeholder(a), earlier) == Placeholder(b);
  }

  /** A template with no `{{` and no tab is returned unchanged, whatever the replacements. */
  lemma {:induction false} PlainTemplateUnchanged(template: string, replacement: Entries<string>, replaceTab: bool)
    requires !Contains(template, "{{")
    requires '\t' !in template
    ensures Filled(template, replacement, replaceTab) == template
    decreases |replacement|
  {
    if replacement != [] {
      var last := replacement[|replacement| - 1];
      PlainTemplateUnchanged(template, replacement[..|replacement| - 1], false);
      assert Placeholder(last.0) == "{{" + (last.0 + "}}");
      if Contains(template, Placeholder(last.0)) {
        ContainsPrefixOf(template, "{{", last.0 + "}}");
      }
      ReplaceAllAbsent(template, Placeholder(last.0), last.1);
    }
    if replaceTab {
      ExpandTabsNoTab(template);
    }
  }

  /** One `using X;` line per element, in order. */
  function UsingLines(usings: seq<string>): string
  {
    if usings == [] then ""
    else UsingLines(usings[..|usings| - 1]) + "using " + usings[|usings| - 1] + ";\n"
  }

  /** The text `getUsingTemplate` returns: nothing for no usings, else the lines and a blank line. */
  function UsingText(usings: seq<string>): (r: string)
    ensures r == "" <==> usings == []
  {
    if usings == [] then "" else UsingLines(usings) + "\n"
  }

  /**
   * `getUsingTemplate`: empty for no usings; otherwise one line per using and a final
   * blank line. The one-element shortcut agrees with the general form.
   */
  method GetUsingTemplate(usings: seq<string>) returns (result: string)
    ensures usings == [] ==> result == ""
    ensures usings != [] ==> result == UsingLines(usings) + "\n"
    ensures result == UsingText(usings)
  {
    if |usings| == 0 {
      return "";
    }
    if |usings| == 1 {
      assert usings[..0] == [];
      return "using " + usings[0] + ";\n\n";
    }
    result := "";
    for i := 0 to |usings|
      invariant result == UsingLines(usings[..i]) + (if i == |usings| then "\n" else "")
    {
      assert usings[..i + 1][..i] == usings[..i];
      result := result + "using " + usings[i] + ";\n";
      if i >= |usings| - 1 {
        result := result + "\n";
      }
    }
    assert usings[..|usings|] == usings;
  }

  /**
   * `getInheritanceTemplate`: empty for no interfaces; otherwise `" : "` and the names
   * joined with `", "`, duplicates included.
   */
  method GetInheritanceTemplate(interfaces: seq<string>) returns (result: string)
    ensures interfaces == [] ==> result == ""
    ensures interfaces != [] ==> result == " : " + Join(interfaces, ", ")
    ensures result == InheritanceText(interfaces)
  {
    if |interfaces| == 0 {
      return "";
    }
    result := " : ";
    for i := 0 to |interfaces|
      invariant result == " : " + (if i == 0 then "" else
        Join(interfaces[..i], ", ") + (if i < |interfaces| then ", " else ""))
    {
      assert interfaces[..i + 1][..i] == interfaces[..i];
      result := result + interfaces[i];
      if i < |interfaces| - 1 {
        result := result + ", ";
      }
    }
    assert interfaces[..|interfaces|] == interfaces;
  }

  /** The text `getInheritanceTemplate` returns: nothing for no interfaces, else `" : "` and the list. */
  function InheritanceText(interfaces: seq<string>): (r: string)
    ensures r == "" <==> interfaces == []
  {
    if interfaces == [] then "" else " : " + Join(interfaces, ", ")
  }

  /** The include/exclude rule of `walkthroughTableData`. */
  predicate IsSelected(table: string, included: seq<string>, excluded: seq<string>) {
    (|included| == 0 || table in included) && !(|excluded| > 0 && table in excluded)
  }

  /** The tables the callback is called for, in key order. */
  function SelectedTables(tableKeys: seq<string>, included: seq<string>, excluded: seq<string>): (r: seq<string>)
    ensures forall i :: 0 <= i < |r| ==> r[i] in tableKeys && IsSelected(r[i], included, excluded)
  {
    if tableKeys == [] then []
    else
      var last := tableKeys[|tableKeys| - 1];
      SelectedTables(tableKeys[..|tableKeys| - 1], included, excluded)
        + (if IsSelected(last, included, excluded) then [last] else [])
  }

  /**
   * `walkthroughTableData`: the callback invocations are returned as the sequence of
   * table names it is called with.
   */
  method WalkthroughTableData(tableKeys: seq<string>, included: seq<string>, excluded: seq<string>)
    returns (visited: seq<string>)
    ensures visited == SelectedTables(tableKeys, included, excluded)
  {
    visited := [];
    for i := 0 to |tableKeys|
      invariant visited == SelectedTables(tableKeys[..i], included, excluded)
    {
      var tableName := tableKeys[i];
      assert tableKeys[..i + 1][..i] == tableKeys[..i];
      if |included| > 0 && tableName !in included {
        continue;
      }
      if |excluded| > 0 && tableName in excluded {
        continue;
      }
      visited := visited + [tableName];
    }
    assert tableKeys[..|tableKeys|] == tableKeys;
  }

  /**
   * The callback runs once per occurrence of a selected table and never for another:
   * for object keys, which are distinct, exactly once per selected table.
   */
  lemma {:induction false} SelectedTablesCount(tableKeys: seq<string>, included: seq<string>, excluded: seq<string>, t: string)
    ensures Count(SelectedTables(tableKeys, included, excluded), t)
         == if IsSelected(t, included, excluded) then Count(tableKeys, t) else 0
    decreases |tableKeys|
  {
    if tableKeys != [] {
      var front := tableKeys[..|tableKeys| - 1];
      var last := tableKeys[|tableKeys| - 1];
      SelectedTablesCount(front, included, excluded, t);
      CountAppend(SelectedTables(front, included, excluded),
                  if IsSelected(last, included, excluded) then [last] else [], t);
      assert ([last] + [])[..0] == [];
    }
  }
}
