/**
 * A JavaScript object with string keys, as its entries in key order. `Object.keys`
 * and `for ... in` visit keys in the order they were first assigned; assigning an
 * existing key changes its value in place, assigning a new key appends it.
 */
module JsObject {
  import opened Wrappers
  import opened Seqs

  type Entries<V> = seq<(string, V)>

  /** `Object.keys(o)`. */
  function Keys<V>(e: Entries<V>): (ks: seq<string>)
    ensures |ks| == |e|
    ensures forall i :: 0 <= i < |e| ==> ks[i] == e[i].0
  {
    if e == [] then [] else [e[0].0] + Keys(e[1..])
  }

  ghost predicate DistinctKeys<V>(e: Entries<V>) {
    NoDuplicates(Keys(e))
  }

  /** `o[k]`, `None` standing for `undefined`. */
  function Get<V>(e: Entries<V>, k: string): (r: Option<V>)
    ensures r.None? <==> k !in Keys(e)
  {
    if e == [] then None
    else if e[0].0 == k then Some(e[0].1)
    else Get(e[1..], k)
  }

  /** `o[k] = v`. */
  function Put<V>(e: Entries<V>, k: string, v: V): (r: Entries<V>)
  {
    if e == [] then [(k, v)]
    else if e[0].0 == k then [(k, v)] + e[1..]
    else [e[0]] + Put(e[1..], k, v)
  }

  /** After `o[k] = v`, reading `k` gives `v` and every other key reads as before. */
  lemma {:induction false} GetPut<V>(e: Entries<V>, k: string, v: V, k': string)
    ensures Get(Put(e, k, v), k') == if k' == k then Some(v) else Get(e, k')
    decreases |e|
  {
    if e != [] && e[0].0 != k {
      GetPut(e[1..], k, v, k');
      assert Put(e, k, v)[1..] == Put(e[1..], k, v);
    }
  }

  /** Assignment keeps the key order: an existing key stays where it is, a new key goes last. */
  lemma {:induction false} KeysPut<V>(e: Entries<V>, k: string, v: V)
    ensures Keys(Put(e, k, v)) == if k in Keys(e) then Keys(e) else Keys(e) + [k]
    decreases |e|
  {
    if e != [] {
      KeysPut(e[1..], k, v);
      assert Put(e, k, v)[1..] == Put(e[1..], k, v) || e[0].0 == k;
      assert Keys(e) == [e[0].0] + Keys(e[1..]);
    }
  }

  /** Assignment never creates a duplicate key. */
  lemma DistinctKeysPut<V>(e: Entries<V>, k: string, v: V)
    requires DistinctKeys(e)
    ensures DistinctKeys(Put(e, k, v))
  {
    KeysPut(e, k, v);
  }

  /** Assigning a key whose first entry is at `i` rewrites that entry in place. */
  lemma {:induction false} PutAt<V>(e: Entries<V>, i: nat, v: V)
    requires i < |e|
    requires forall j :: 0 <= j < i ==> e[j].0 != e[i].0
    ensures Put(e, e[i].0, v) == e[i := (e[i].0, v)]
    decreases i
  {
    if i > 0 {
      PutAt(e[1..], i - 1, v);
      assert e[1..][i - 1 := (e[i].0, v)] == e[i := (e[i].0, v)][1..];
    }
  }

  /** Assigning a new key appends it. */
  lemma {:induction false} PutNew<V>(e: Entries<V>, k: string, v: V)
    requires k !in Keys(e)
    ensures Put(e, k, v) == e + [(k, v)]
    decreases |e|
  {
    if e != [] {
      assert Keys(e) == [e[0].0] + Keys(e[1..]);
      PutNew(e[1..], k, v);
      assert e == [e[0]] + e[1..];
    }
  }

  /** `PutAt` for an object whose key list is known: the keys stay the same. */
  lemma PutKeyed<V>(e: Entries<V>, ks: seq<string>, i: nat, v: V)
    requires Keys(e) == ks && i < |ks|
    requires forall j :: 0 <= j < i ==> ks[j] != ks[i]
    ensures Put(e, ks[i], v) == e[i := (ks[i], v)]
    ensures Keys(Put(e, ks[i], v)) == ks
  {
    PutAt(e, i, v);
    assert Keys(e[i := (ks[i], v)]) == ks;
  }

  /** `PutNew` for an object whose key list is known: the new key goes last. */
  lemma PutNewKeyed<V>(e: Entries<V>, ks: seq<string>, k: string, v: V)
    requires Keys(e) == ks && k !in ks
    ensures Put(e, k, v) == e + [(k, v)]
    ensures Keys(Put(e, k, v)) == ks + [k]
  {
    PutNew(e, k, v);
    assert Keys(e + [(k, v)]) == ks + [k];
  }

  /** The assignments `o[k1] = v1; o[k2] = v2; ...` made one after another. */
  function Assign<V>(e: Entries<V>, updates: Entries<V>): Entries<V>
  {
    if updates == [] then e
    else
      var last := updates[|updates| - 1];
      Put(Assign(e, updates[..|updates| - 1]), last.0, last.1)
  }

  /**
   * Assigning every key of an object, once each and in the object's own key order,
   * leaves exactly the assigned values: nothing of the old values survives.
   */
  lemma AssignAll<V>(e: Entries<V>, updates: Entries<V>)
    requires Keys(e) == Keys(updates) && NoDuplicates(Keys(updates))
    ensures Assign(e, updates) == updates
  {
    AssignPrefix(e, updates, |updates|);
    assert e[|updates|..] == [];
    assert updates[..|updates|] == updates;
  }

  lemma {:induction false} AssignPrefix<V>(e: Entries<V>, updates: Entries<V>, n: nat)
    requires Keys(e) == Keys(updates) && NoDuplicates(Keys(updates)) && n <= |updates|
    ensures Assign(e, updates[..n]) == updates[..n] + e[n..]
    decreases n
  {
    if n > 0 {
      AssignPrefix(e, updates, n - 1);
      AssignPrefixStep(e, updates, n);
    }
  }

  /** The induction step of `AssignPrefix`: the `n`-th assignment rewrites the `n`-th entry. */
  lemma AssignPrefixStep<V>(e: Entries<V>, updates: Entries<V>, n: nat)
    requires Keys(e) == Keys(updates) && NoDuplicates(Keys(updates)) && 0 < n <= |updates|
    requires Assign(e, updates[..n - 1]) == updates[..n - 1] + e[n - 1..]
    ensures Assign(e, updates[..n]) == updates[..n] + e[n..]
  {
    var before := updates[..n - 1] + e[n - 1..];
    var ks := Keys(updates);
    MixedKeys(e, updates, n - 1);
    assert Assign(e, updates[..n]) == Put(before, updates[n - 1].0, updates[n - 1].1) by {
      assert updates[..n][..n - 1] == updates[..n - 1];
    }
    assert forall j :: 0 <= j < n - 1 ==> ks[j] != ks[n - 1];
    PutKeyed(before, ks, n - 1, updates[n - 1].1);
    assert (ks[n - 1], updates[n - 1].1) == updates[n - 1];
    ReplaceAt(updates[..n - 1], e, n - 1, updates[n - 1]);
    TakeOneMore(updates, n - 1);
    AppendAssoc(updates[..n - 1], [updates[n - 1]], e[n..]);
  }

  /** The first `m` entries taken from `updates`, the rest from `e`: the keys are the common ones. */
  lemma MixedKeys<V>(e: Entries<V>, updates: Entries<V>, m: nat)
    requires Keys(e) == Keys(updates) && m <= |updates|
    ensures Keys(updates[..m] + e[m..]) == Keys(updates)
  {
    var mixed := updates[..m] + e[m..];
    assert forall i :: 0 <= i < |mixed| ==> mixed[i].0 == updates[i].0;
  }

  /** One more assignment after the first `n`. */
  lemma AssignStep<V>(e: Entries<V>, updates: Entries<V>, n: nat)
    requires n < |updates|
    ensures Assign(e, updates[..n + 1]) == Put(Assign(e, updates[..n]), updates[n].0, updates[n].1)
  {
    assert updates[..n + 1][..n] == updates[..n];
  }

  /** Three assignments made one after another. */
  lemma AssignThree<V>(e: Entries<V>, u: Entries<V>)
    requires |u| == 3
    ensures Assign(e, u) == Put(Put(Put(e, u[0].0, u[0].1), u[1].0, u[1].1), u[2].0, u[2].1)
  {
    var a1 := Put(e, u[0].0, u[0].1);
    assert Assign(e, u[..1]) == a1 by { assert u[..0] == []; AssignStep(e, u, 0); }
    var a2 := Put(a1, u[1].0, u[1].1);
    assert Assign(e, u[..2]) == a2 by { AssignStep(e, u, 1); }
    assert Assign(e, u[..3]) == Put(a2, u[2].0, u[2].1) by { AssignStep(e, u, 2); }
    assert u[..3] == u;
  }

  /** Four assignments made one after another. */
  lemma AssignFour<V>(e: Entries<V>, u: Entries<V>)
    requires |u| == 4
    ensures Assign(e, u) == Put(Put(Put(Put(e, u[0].0, u[0].1), u[1].0, u[1].1), u[2].0, u[2].1), u[3].0, u[3].1)
  {
    var a1 := Put(e, u[0].0, u[0].1);
    assert Assign(e, u[..1]) == a1 by { assert u[..0] == []; AssignStep(e, u, 0); }
    var a2 := Put(a1, u[1].0, u[1].1);
    assert Assign(e, u[..2]) == a2 by { AssignStep(e, u, 1); }
    var a3 := Put(a2, u[2].0, u[2].1);
    assert Assign(e, u[..3]) == a3 by { AssignStep(e, u, 2); }
    assert Assign(e, u[..4]) == Put(a3, u[3].0, u[3].1) by { AssignStep(e, u, 3); }
    assert u[..4] == u;
  }

  /** Reading an object with one more entry appended: the new entry is seen only when the key is new. */
  lemma {:induction false} GetAppend<V>(e: Entries<V>, k: string, v: V, k': string)
    ensures Get(e + [(k, v)], k') == if k' in Keys(e) then Get(e, k') else if k' == k then Some(v) else None
    decreases |e|
  {
    if e != [] {
      assert (e + [(k, v)])[1..] == e[1..] + [(k, v)];
      assert Keys(e) == [e[0].0] + Keys(e[1..]);
      GetAppend(e[1..], k, v, k');
    }
  }

  /**
   * After assignments to distinct keys, a key reads as its assigned value, and a key
   * that was not assigned reads as before.
   */
  lemma {:induction false} AssignGet<V>(e: Entries<V>, updates: Entries<V>, k: string)
    requires NoDuplicates(Keys(updates))
    ensures Get(Assign(e, updates), k) == if k in Keys(updates) then Get(updates, k) else Get(e, k)
    decreases |updates|
  {
    if updates != [] {
      var front := updates[..|updates| - 1];
      var last := updates[|updates| - 1];
      assert updates == front + [last];
      assert Keys(updates) == Keys(front) + [last.0];
      assert NoDuplicates(Keys(front)) by {
        forall i, j | 0 <= i < j < |front| ensures Keys(front)[i] != Keys(front)[j] {
          assert Keys(front)[i] == Keys(updates)[i] && Keys(front)[j] == Keys(updates)[j];
        }
      }
      AssignGet(e, front, k);
      GetPut(Assign(e, front), last.0, last.1, k);
      GetAppend(front, last.0, last.1, k);
      if k == last.0 {
        assert k !in Keys(front) by {
          forall i | 0 <= i < |front| ensures Keys(front)[i] != k {
            assert Keys(updates)[i] != Keys(updates)[|updates| - 1];
          }
        }
      }
    }
  }

  /** Assignments to keys the object already has keep its key list. */
  lemma {:induction false} AssignKeys<V>(e: Entries<V>, updates: Entries<V>)
    requires forall i :: 0 <= i < |updates| ==> updates[i].0 in Keys(e)
    ensures Keys(Assign(e, updates)) == Keys(e)
    decreases |updates|
  {
    if updates != [] {
      var front := updates[..|updates| - 1];
      var last := updates[|updates| - 1];
      AssignKeys(e, front);
      KeysPut(Assign(e, front), last.0, last.1);
    }
  }
}
