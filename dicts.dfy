/** Python's `dict` as an insertion-ordered association list. Assignment to an
    absent key appends the entry; assignment to a present key replaces its value
    in place, keeping its position; `update` assigns entry by entry; a dict
    comprehension with a condition keeps the entries that pass it, in order. */
module Dicts {
  import opened Wrappers
  import opened Seqs

  type Dict<K, V> = seq<(K, V)>

  function Keys<K, V>(d: Dict<K, V>): (ks: seq<K>)
    ensures |ks| == |d|
    ensures forall i :: 0 <= i < |d| ==> ks[i] == d[i].0
  {
    if d == [] then [] else [d[0].0] + Keys(d[1..])
  }

  ghost predicate Distinct<K>(ks: seq<K>)
  {
    forall i, j :: 0 <= i < j < |ks| ==> ks[i] != ks[j]
  }

  /** Every Python dict has distinct keys. */
  ghost predicate Wf<K, V>(d: Dict<K, V>)
  {
    Distinct(Keys(d))
  }

  /** `dict(zip(ks, vs))` for keys and values given position by position. */
  function Zip<K, V>(ks: seq<K>, vs: seq<V>): (d: Dict<K, V>)
    requires |ks| == |vs|
    ensures |d| == |ks| && Keys(d) == ks
    ensures forall i :: 0 <= i < |d| ==> d[i] == (ks[i], vs[i])
  {
    seq(|ks|, i requires 0 <= i < |ks| => (ks[i], vs[i]))
  }

  /** `d.get(k)`: the value of the first entry with key `k`. */
  function Get<K(==), V>(d: Dict<K, V>, k: K): (r: Option<V>)
    ensures r.None? <==> k !in Keys(d)
  {
    if d == [] then None else if d[0].0 == k then Some(d[0].1) else Get(d[1..], k)
  }

  /** An entry whose key no earlier entry has is what its key looks up. */
  lemma {:induction false} GetFirstEntry<K, V>(d: Dict<K, V>, i: nat)
    requires i < |d| && forall j :: 0 <= j < i ==> d[j].0 != d[i].0
    ensures Get(d, d[i].0) == Some(d[i].1)
  {
    if i > 0 {
      assert d[0].0 != d[i].0;
      GetFirstEntry(d[1..], i - 1);
    }
  }

  /** In a zipped dict a key no earlier key equals looks up the value at its position. */
  lemma ZipLookup<K, V>(ks: seq<K>, vs: seq<V>, i: nat)
    requires |ks| == |vs| && i < |ks| && forall j :: 0 <= j < i ==> ks[j] != ks[i]
    ensures Get(Zip(ks, vs), ks[i]) == Some(vs[i])
  {
    GetFirstEntry(Zip(ks, vs), i);
  }

  /** In a dict with distinct keys every entry is what its key looks up. */
  lemma GetEntry<K, V>(d: Dict<K, V>, i: nat)
    requires Wf(d) && i < |d|
    ensures Get(d, d[i].0) == Some(d[i].1)
  {
    forall j | 0 <= j < i ensures d[j].0 != d[i].0 {
      assert Keys(d)[j] != Keys(d)[i];
    }
    GetFirstEntry(d, i);
  }

  /** The position of the first entry with key `k`. */
  function IndexOf<K(==), V>(d: Dict<K, V>, k: K): (i: nat)
    requires k in Keys(d)
    ensures i < |d| && d[i].0 == k
    ensures forall j :: 0 <= j < i ==> d[j].0 != k
  {
    if d[0].0 == k then 0 else 1 + IndexOf(d[1..], k)
  }

  /** `d[k] = v`: a present key keeps its position and takes the new value, an absent
      key is appended. */
  function Put<K(==,!new), V>(d: Dict<K, V>, k: K, v: V): (r: Dict<K, V>)
    ensures Get(r, k) == Some(v)
    ensures forall k' :: k' != k ==> Get(r, k') == Get(d, k')
    ensures Keys(r) == if k in Keys(d) then Keys(d) else Keys(d) + [k]
  {
    if k in Keys(d) then
      var i := IndexOf(d, k);
      ReplaceFacts(d, k, v, i);
      d[i := (k, v)]
    else
      AppendFacts(d, k, v);
      d + [(k, v)]
  }

  lemma ReplaceFacts<K, V>(d: Dict<K, V>, k: K, v: V, i: nat)
    requires i < |d| && d[i].0 == k && forall j :: 0 <= j < i ==> d[j].0 != k
    ensures Get(d[i := (k, v)], k) == Some(v)
    ensures forall k' :: k' != k ==> Get(d[i := (k, v)], k') == Get(d, k')
    ensures Keys(d[i := (k, v)]) == Keys(d)
  {
    GetFirstEntry(d[i := (k, v)], i);
    GetReplaced(d, i, v);
  }

  lemma AppendFacts<K, V>(d: Dict<K, V>, k: K, v: V)
    requires k !in Keys(d)
    ensures Get(d + [(k, v)], k) == Some(v)
    ensures forall k' :: k' != k ==> Get(d + [(k, v)], k') == Get(d, k')
    ensures Keys(d + [(k, v)]) == Keys(d) + [k]
  {
    GetFirstEntry(d + [(k, v)], |d|);
    GetAppended(d, k, v);
    KeysAppend(d, [(k, v)]);
  }

  /** Replacing the value of an entry changes no other key's lookup. */
  lemma {:induction false} GetReplaced<K, V>(d: Dict<K, V>, i: nat, v: V)
    requires i < |d|
    ensures forall k' :: k' != d[i].0 ==> Get(d[i := (d[i].0, v)], k') == Get(d, k')
    decreases |d|
  {
    var r := d[i := (d[i].0, v)];
    if i > 0 {
      GetReplaced(d[1..], i - 1, v);
      assert r[1..] == d[1..][i - 1 := (d[i].0, v)];
    }
    forall k' | k' != d[i].0 ensures Get(r, k') == Get(d, k') {
      if i == 0 {
        assert r[1..] == d[1..];
      }
    }
  }

  /** Appending an entry changes no other key's lookup. */
  lemma {:induction false} GetAppended<K, V>(d: Dict<K, V>, k: K, v: V)
    ensures forall k' :: k' != k ==> Get(d + [(k, v)], k') == Get(d, k')
    decreases |d|
  {
    if d != [] {
      GetAppended(d[1..], k, v);
      assert (d + [(k, v)])[1..] == d[1..] + [(k, v)];
    }
  }

  /** Assignment leaves every other key's value alone. */
  lemma PutOther<K(!new), V>(d: Dict<K, V>, k: K, v: V, k': K)
    requires k' != k
    ensures Get(Put(d, k, v), k') == Get(d, k')
  {
  }

  /** Appending entries appends their keys. */
  lemma {:induction false} KeysAppend<K, V>(a: Dict<K, V>, b: Dict<K, V>)
    ensures Keys(a + b) == Keys(a) + Keys(b)
  {
    assert |Keys(a + b)| == |Keys(a) + Keys(b)|;
    forall i | 0 <= i < |a + b| ensures Keys(a + b)[i] == (Keys(a) + Keys(b))[i] {
      if i < |a| { assert (a + b)[i] == a[i]; } else { assert (a + b)[i] == b[i - |a|]; }
    }
  }

  /** Entries appended after a key do not change what it looks up. */
  lemma {:induction false} GetPrefix<K, V>(a: Dict<K, V>, b: Dict<K, V>, k: K)
    requires k in Keys(a)
    ensures Get(a + b, k) == Get(a, k)
    decreases |a|
  {
    if a[0].0 != k {
      assert Keys(a) == [a[0].0] + Keys(a[1..]);
      assert (a + b)[1..] == a[1..] + b;
      GetPrefix(a[1..], b, k);
    }
  }

  /** Assigning a key the dict lacks appends the entry. */
  lemma PutNew<K(!new), V>(d: Dict<K, V>, k: K, v: V)
    requires k !in Keys(d)
    ensures Put(d, k, v) == d + [(k, v)]
  {
  }

  /** Assignment keeps the existing keys first and in order. */
  lemma PutKeepsOrder<K(!new), V>(d: Dict<K, V>, k: K, v: V)
    ensures |d| <= |Put(d, k, v)| && Keys(Put(d, k, v))[..|d|] == Keys(d)
  {
  }

  lemma PutWf<K(!new), V>(d: Dict<K, V>, k: K, v: V)
    requires Wf(d)
    ensures Wf(Put(d, k, v))
  {
    if k !in Keys(d) {
      DistinctSnoc(Keys(d), k);
    }
  }

  lemma DistinctSnoc<K>(ks: seq<K>, k: K)
    requires Distinct(ks) && k !in ks
    ensures Distinct(ks + [k])
  {
    forall i, j | 0 <= i < j < |ks + [k]| ensures (ks + [k])[i] != (ks + [k])[j] {
      if j < |ks| {
        assert (ks + [k])[i] == ks[i] && (ks + [k])[j] == ks[j];
      } else {
        assert (ks + [k])[i] == ks[i] && (ks + [k])[j] == k;
      }
    }
  }

  /** `d.update(e)`: every entry of `e`, in order, is assigned into a copy of `d`. */
  function Update<K(==,!new), V>(d: Dict<K, V>, e: Dict<K, V>): (r: Dict<K, V>)
    requires Wf(e)
    ensures forall k :: Get(r, k) == if k in Keys(e) then Get(e, k) else Get(d, k)
    ensures |d| <= |r| && Keys(r)[..|d|] == Keys(d)
    ensures Wf(d) ==> Wf(r)
  {
    UpdateFacts(d, e);
    PutAll(d, e)
  }

  lemma UpdateFacts<K(!new), V>(d: Dict<K, V>, e: Dict<K, V>)
    requires Wf(e)
    ensures forall k :: Get(PutAll(d, e), k) == if k in Keys(e) then Get(e, k) else Get(d, k)
    ensures |d| <= |PutAll(d, e)| && Keys(PutAll(d, e))[..|d|] == Keys(d)
    ensures Wf(d) ==> Wf(PutAll(d, e))
  {
    forall k ensures Get(PutAll(d, e), k) == if k in Keys(e) then Get(e, k) else Get(d, k) {
      if k in Keys(e) {
        var i :| 0 <= i < |e| && Keys(e)[i] == k;
        forall j | i < j < |e| ensures e[j].0 != e[i].0 {
          assert Keys(e)[i] != Keys(e)[j];
        }
        PutAllLast(d, e, i);
        GetEntry(e, i);
      } else {
        PutAllUntouched(d, e, k);
      }
    }
    PutAllPrefix(d, e);
    if Wf(d) { PutAllWf(d, e); }
  }

  /** `{k: v for k, v in d.items() if keep(k)}`. */
  function Filter<K(==,!new), V(!new)>(d: Dict<K, V>, keep: K -> bool): Dict<K, V>
  {
    if d == [] then []
    else if keep(d[0].0) then [d[0]] + Filter(d[1..], keep)
    else Filter(d[1..], keep)
  }

  /** The kept dict answers every kept key as the original does and no other; it keeps
      exactly the entries that pass, and has distinct keys when the original has. */
  lemma FilterFacts<K(!new), V(!new)>(d: Dict<K, V>, keep: K -> bool)
    ensures forall k :: Get(Filter(d, keep), k) == if keep(k) then Get(d, k) else None
    ensures forall i :: 0 <= i < |Filter(d, keep)| ==> keep(Filter(d, keep)[i].0)
    ensures forall p :: p in Filter(d, keep) <==> p in d && keep(p.0)
    ensures Wf(d) ==> Wf(Filter(d, keep))
  {
    FilterGet(d, keep);
    FilterMembers(d, keep);
    if Wf(d) { FilterWf(d, keep); }
    var r := Filter(d, keep);
    forall i | 0 <= i < |r| ensures keep(r[i].0) {
      assert r[i] in r;
    }
  }

  lemma {:induction false} FilterMembers<K(!new), V(!new)>(d: Dict<K, V>, keep: K -> bool)
    ensures forall p :: p in Filter(d, keep) <==> p in d && keep(p.0)
    decreases |d|
  {
    if d != [] {
      FilterMembers(d[1..], keep);
      assert d == [d[0]] + d[1..];
      ConsFacts(d[0], d[1..]);
      if keep(d[0].0) {
        ConsFacts(d[0], Filter(d[1..], keep));
      }
    }
  }

  lemma {:induction false} FilterGet<K(!new), V(!new)>(d: Dict<K, V>, keep: K -> bool)
    ensures forall k :: Get(Filter(d, keep), k) == if keep(k) then Get(d, k) else None
    decreases |d|
  {
    if d != [] {
      FilterGet(d[1..], keep);
      assert d == [d[0]] + d[1..];
      ConsFacts(d[0], d[1..]);
      if keep(d[0].0) {
        ConsFacts(d[0], Filter(d[1..], keep));
      }
    }
  }

  lemma {:induction false} FilterWf<K(!new), V(!new)>(d: Dict<K, V>, keep: K -> bool)
    requires Wf(d)
    ensures Wf(Filter(d, keep))
    decreases |d|
  {
    if d != [] {
      WfTail(d);
      FilterWf(d[1..], keep);
      if keep(d[0].0) {
        var rest := Filter(d[1..], keep);
        FilterGet(d[1..], keep);
        assert Get(rest, d[0].0) == None;
        ConsFacts(d[0], rest);
      }
    }
  }

  /** A dict with one entry put in front. */
  lemma ConsFacts<K, V>(e: (K, V), rest: Dict<K, V>)
    ensures Keys([e] + rest) == [e.0] + Keys(rest)
    ensures forall k :: Get([e] + rest, k) == if k == e.0 then Some(e.1) else Get(rest, k)
    ensures forall p :: p in [e] + rest <==> p == e || p in rest
    ensures Wf(rest) && e.0 !in Keys(rest) ==> Wf([e] + rest)
  {
    var r := [e] + rest;
    assert r[1..] == rest;
    if Wf(rest) && e.0 !in Keys(rest) {
      forall a, b | 0 <= a < b < |r| ensures Keys(r)[a] != Keys(r)[b] {
        if a > 0 {
          assert Keys(rest)[a - 1] != Keys(rest)[b - 1];
        } else {
          assert Keys(r)[b] == Keys(rest)[b - 1];
        }
      }
    }
  }

  /** The entries after the first of a dict with distinct keys have distinct keys, none
      of them the first's. */
  lemma WfTail<K, V>(d: Dict<K, V>)
    requires Wf(d) && d != []
    ensures Wf(d[1..]) && d[0].0 !in Keys(d[1..])
  {
    forall a, b | 0 <= a < b < |d[1..]| ensures Keys(d[1..])[a] != Keys(d[1..])[b] {
      assert Keys(d)[a + 1] != Keys(d)[b + 1];
    }
    forall a | 0 <= a < |d[1..]| ensures Keys(d[1..])[a] != d[0].0 {
      assert Keys(d)[a + 1] != Keys(d)[0];
    }
  }

  /** The dict built by assigning `es` one after another into `d`
      (a dict comprehension, or a loop of `d[k] = v`). */
  function PutAll<K(==,!new), V>(d: Dict<K, V>, es: seq<(K, V)>): Dict<K, V>
    decreases |es|
  {
    if es == [] then d else Put(PutAll(d, es[..|es| - 1]), es[|es| - 1].0, es[|es| - 1].1)
  }

  lemma {:induction false} PutAllWf<K(!new), V>(d: Dict<K, V>, es: seq<(K, V)>)
    requires Wf(d)
    ensures Wf(PutAll(d, es))
    decreases |es|
  {
    if es != [] {
      PutAllWf(d, es[..|es| - 1]);
      PutWf(PutAll(d, es[..|es| - 1]), es[|es| - 1].0, es[|es| - 1].1);
    }
  }

  /** Later assignments win: a key ends up with the value of its last entry in `es`. */
  lemma {:induction false} PutAllLast<K(!new), V>(d: Dict<K, V>, es: seq<(K, V)>, i: nat)
    requires i < |es|
    requires forall j :: i < j < |es| ==> es[j].0 != es[i].0
    ensures Get(PutAll(d, es), es[i].0) == Some(es[i].1)
    decreases |es|
  {
    var n := |es| - 1;
    var p := PutAll(d, es[..n]);
    assert PutAll(d, es) == Put(p, es[n].0, es[n].1);
    if i < n {
      assert Get(p, es[i].0) == Some(es[i].1) by {
        var front := es[..n];
        assert front[i] == es[i];
        forall j | i < j < |front| ensures front[j].0 != front[i].0 {
          assert front[j] == es[j];
        }
        PutAllLast(d, front, i);
      }
      PutOther(p, es[n].0, es[n].1, es[i].0);
    }
  }

  /** Keys that `es` never assigns keep their value from `d`. */
  lemma {:induction false} PutAllUntouched<K(!new), V>(d: Dict<K, V>, es: seq<(K, V)>, k: K)
    requires forall j :: 0 <= j < |es| ==> es[j].0 != k
    ensures Get(PutAll(d, es), k) == Get(d, k)
    decreases |es|
  {
    if es != [] {
      var n := |es| - 1;
      PutAllUntouched(d, es[..n], k);
      PutOther(PutAll(d, es[..n]), es[n].0, es[n].1, k);
    }
  }

  /** `d`'s keys lead the result in their order; assignments only add keys. */
  lemma {:induction false} PutAllPrefix<K(!new), V>(d: Dict<K, V>, es: seq<(K, V)>)
    ensures |d| <= |PutAll(d, es)| && Keys(PutAll(d, es))[..|d|] == Keys(d)
    decreases |es|
  {
    if es != [] {
      var n := |es| - 1;
      PutAllPrefix(d, es[..n]);
      var p := PutAll(d, es[..n]);
      var k := es[n].0;
      assert PutAll(d, es) == Put(p, k, es[n].1);
      if k !in Keys(p) {
        assert (Keys(p) + [k])[..|p|] == Keys(p);
      }
      PrefixTrans(Keys(d), Keys(p), Keys(PutAll(d, es)));
    }
  }

  lemma PutAllSnoc<K(!new), V>(d: Dict<K, V>, es: seq<(K, V)>, e: (K, V))
    ensures PutAll(d, es + [e]) == Put(PutAll(d, es), e.0, e.1)
  {
    assert (es + [e])[..|es|] == es;
  }

  /** Every entry after an assignment is an old entry or the assigned one. */
  lemma PutFrom<K(!new), V>(d: Dict<K, V>, k: K, v: V)
    ensures forall p :: p in Put(d, k, v) ==> p in d || p == (k, v)
  {
    var r := Put(d, k, v);
    forall p | p in r ensures p in d || p == (k, v) {
      var j :| 0 <= j < |r| && r[j] == p;
      if k !in Keys(d) && j < |d| {
        assert r[j] == d[j];
      }
    }
  }

  /** Every entry after a run of assignments is an old entry or one of the assigned. */
  lemma {:induction false} PutAllFrom<K(!new), V>(d: Dict<K, V>, es: seq<(K, V)>)
    ensures forall p :: p in PutAll(d, es) ==> p in d || p in es
    decreases |es|
  {
    if es != [] {
      var n := |es| - 1;
      var q := PutAll(d, es[..n]);
      assert PutAll(d, es) == Put(q, es[n].0, es[n].1);
      PutAllFrom(d, es[..n]);
      PutFrom(q, es[n].0, es[n].1);
      forall p | p in PutAll(d, es) ensures p in d || p in es {
        if p != es[n] && p !in d {
          assert p in q && p in es[..n];
          var i :| 0 <= i < n && es[..n][i] == p;
          assert es[i] == p;
        }
      }
    }
  }
}
