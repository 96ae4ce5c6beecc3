/**
 * The JavaScript string operations the generators rely on, over `seq<char>`:
 * `includes`, `replaceAll` and `replace` with a string pattern, `join`, `split`,
 * `toUpperCase` (on ASCII), number-to-text, and the `/[()]/g` and `/\t/g` rewrites.
 */
module Strings {

  predicate StartsWith(s: string, p: string) {
    |p| <= |s| && s[..|p|] == p
  }

  /** `s.includes(p)`: `p` occurs at some position of `s`. */
  predicate Contains(s: string, p: string)
    decreases |s|
  {
    StartsWith(s, p) || (s != [] && Contains(s[1..], p))
  }

  /** A string containing `p + q` contains `p`. */
  lemma {:induction false} ContainsPrefixOf(s: string, p: string, q: string)
    requires Contains(s, p + q)
    ensures Contains(s, p)
    decreases |s|
  {
    if StartsWith(s, p + q) {
      assert s[..|p|] == (p + q)[..|p|] == p;
    } else {
      ContainsPrefixOf(s[1..], p, q);
    }
  }

  /** A string has every pattern that starts at one of its positions. */
  lemma {:induction false} ContainsAt(s: string, i: nat, p: string)
    requires i <= |s| && StartsWith(s[i..], p)
    ensures Contains(s, p)
    decreases i
  {
    if i > 0 {
      assert s[1..][i - 1..] == s[i..];
      ContainsAt(s[1..], i - 1, p);
    } else {
      assert s[0..] == s;
    }
  }

  /** A string without `{` does not contain `{{`. */
  lemma NoDoubleBrace(s: string)
    requires '{' !in s
    ensures !Contains(s, "{{")
  {
    if Contains(s, "{{") {
      assert "{{" == "{" + "{";
      ContainsPrefixOf(s, "{", "{");
      ContainsChar(s, '{');
    }
  }

  /** A one-character pattern occurs exactly when the character does. */
  lemma {:induction false} ContainsChar(s: string, c: char)
    ensures Contains(s, [c]) <==> c in s
    decreases |s|
  {
    if s != [] {
      ContainsChar(s[1..], c);
      assert s == [s[0]] + s[1..];
    }
  }

  /**
   * `s.replaceAll(pat, rep)` for a non-empty string pattern: occurrences are found
   * from left to right and do not overlap; `rep` is inserted literally.
   */
  function ReplaceAll(s: string, pat: string, rep: string): string
    requires pat != []
    decreases |s|
  {
    if |s| < |pat| then s
    else if s[..|pat|] == pat then rep + ReplaceAll(s[|pat|..], pat, rep)
    else [s[0]] + ReplaceAll(s[1..], pat, rep)
  }

  /** Replacing a pattern that does not occur leaves the string unchanged. */
  lemma {:induction false} ReplaceAllAbsent(s: string, pat: string, rep: string)
    requires pat != []
    requires !Contains(s, pat)
    ensures ReplaceAll(s, pat, rep) == s
    decreases |s|
  {
    if |s| >= |pat| {
      ReplaceAllAbsent(s[1..], pat, rep);
      assert s == [s[0]] + s[1..];
    }
  }

  /** A string that is exactly the pattern is replaced as a whole. */
  lemma ReplaceAllWhole(pat: string, rep: string)
    requires pat != []
    ensures ReplaceAll(pat, pat, rep) == rep
  {
    assert pat[..|pat|] == pat;
    assert rep + [] == rep;
  }

  /** `s.replace(pat, rep)` with a string pattern: only the first occurrence. */
  function ReplaceFirst(s: string, pat: string, rep: string): string
    requires pat != []
    decreases |s|
  {
    if |s| < |pat| then s
    else if s[..|pat|] == pat then rep + s[|pat|..]
    else [s[0]] + ReplaceFirst(s[1..], pat, rep)
  }

  /** Each tab replaced by four spaces, everything else kept. */
  function ExpandTabs(s: string): (r: string)
  {
    if s == [] then []
    else (if s[0] == '\t' then "    " else [s[0]]) + ExpandTabs(s[1..])
  }

  lemma {:induction false} ExpandTabsHasNoTab(s: string)
    ensures '\t' !in ExpandTabs(s)
    decreases |s|
  {
    if s != [] {
      ExpandTabsHasNoTab(s[1..]);
    }
  }

  /** Every tab becomes exactly four spaces: the length grows by three per tab. */
  lemma {:induction false} ExpandTabsLength(s: string)
    ensures |ExpandTabs(s)| == |s| + 3 * CountChar(s, '\t')
    decreases |s|
  {
    if s != [] {
      ExpandTabsLength(s[1..]);
    }
  }

  function CountChar(s: string, c: char): nat
    decreases |s|
  {
    if s == [] then 0 else (if s[0] == c then 1 else 0) + CountChar(s[1..], c)
  }

  /** `s.replaceAll("\t", "    ")` and `s.replace(/\t/g, "    ")` are the tab expansion. */
  lemma {:induction false} ReplaceTabIsExpandTabs(s: string)
    ensures ReplaceAll(s, "\t", "    ") == ExpandTabs(s)
    decreases |s|
  {
    if s != [] {
      ReplaceTabIsExpandTabs(s[1..]);
      assert s[..1] == [s[0]];
    }
  }

  /** A string without tabs is its own tab expansion. */
  lemma {:induction false} ExpandTabsNoTab(s: string)
    requires '\t' !in s
    ensures ExpandTabs(s) == s
    decreases |s|
  {
    if s != [] {
      ExpandTabsNoTab(s[1..]);
      assert s == [s[0]] + s[1..];
    }
  }

  /** `parts.join(sep)`. */
  function Join(parts: seq<string>, sep: string): string
  {
    if parts == [] then ""
    else if |parts| == 1 then parts[0]
    else Join(parts[..|parts| - 1], sep) + sep + parts[|parts| - 1]
  }

  /** `s.split(d)` for a one-character separator: at least one part, none containing `d`. */
  function Split(s: string, d: char): (parts: seq<string>)
    ensures |parts| >= 1
    ensures forall i :: 0 <= i < |parts| ==> d !in parts[i]
    decreases |s|
  {
    if s == [] then [""]
    else
      var rest := Split(s[1..], d);
      if s[0] == d then [""] + rest
      else [[s[0]] + rest[0]] + rest[1..]
  }

  /** Joining the parts of a split with the separator gives back the string. */
  lemma {:induction false} SplitJoin(s: string, d: char)
    ensures Join(Split(s, d), [d]) == s
    decreases |s|
  {
    if s != [] {
      var rest := Split(s[1..], d);
      SplitJoin(s[1..], d);
      if s[0] == d {
        JoinPrepend("", rest, [d]);
        assert s == [d] + s[1..];
      } else {
        JoinHead([s[0]], rest, [d]);
        assert s == [s[0]] + s[1..];
      }
    }
  }

  /** Joining `[x] + rest` puts `x` and the separator in front of the join of `rest`. */
  lemma {:induction false} JoinPrepend(x: string, rest: seq<string>, sep: string)
    requires rest != []
    ensures Join([x] + rest, sep) == x + sep + Join(rest, sep)
    decreases |rest|
  {
    if |rest| == 1 {
      assert [x] + rest == [x, rest[0]];
      assert ([x] + rest)[..1] == [x];
    } else {
      var front := rest[..|rest| - 1];
      assert ([x] + rest)[..|rest|] == [x] + front;
      JoinPrepend(x, front, sep);
    }
  }

  /** Extending the first part extends the join by the same prefix. */
  lemma {:induction false} JoinHead(p: string, rest: seq<string>, sep: string)
    requires rest != []
    ensures Join([p + rest[0]] + rest[1..], sep) == p + Join(rest, sep)
  {
    if |rest| == 1 {
      assert [p + rest[0]] + rest[1..] == [p + rest[0]];
    } else {
      JoinPrepend(p + rest[0], rest[1..], sep);
      JoinPrepend(rest[0], rest[1..], sep);
      assert rest == [rest[0]] + rest[1..];
    }
  }

  /** `s.toUpperCase()` for ASCII letters; other characters are kept. */
  function ToUpper(s: string): (r: string)
    ensures |r| == |s|
  {
    seq(|s|, i requires 0 <= i < |s| => if 'a' <= s[i] <= 'z' then (s[i] as int - 32) as char else s[i])
  }

  /** `s.replace(/[()]/g, "")`: every parenthesis removed. */
  function StripParentheses(s: string): (r: string)
    ensures '(' !in r && ')' !in r
    decreases |s|
  {
    if s == [] then []
    else (if s[0] == '(' || s[0] == ')' then [] else [s[0]]) + StripParentheses(s[1..])
  }

  /** `s.replace(/\r/g, "")`. */
  function StripCarriageReturns(s: string): (r: string)
    ensures '\r' !in r
    decreases |s|
  {
    if s == [] then []
    else (if s[0] == '\r' then [] else [s[0]]) + StripCarriageReturns(s[1..])
  }

  /** Decimal text of a non-negative number, as `${n}` prints it. */
  function NatToString(n: nat): (r: string)
    ensures r != []
    ensures forall i :: 0 <= i < |r| ==> '0' <= r[i] <= '9'
  {
    if n < 10 then [Digit(n)] else NatToString(n / 10) + [Digit(n % 10)]
  }

  function Digit(d: nat): (c: char)
    requires d < 10
    ensures '0' <= c <= '9'
  {
    "0123456789"[d]
  }
}
