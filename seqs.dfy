/** Generic sequence combinators with failure: Python loops and comprehensions that
    stop at the first exception. */
module Seqs {
  import opened Wrappers

  /** `[f(x) for x in xs]` where evaluating `f` may raise (`None`). */
  function MapOpt<A, B>(xs: seq<A>, f: A -> Option<B>): (r: Option<seq<B>>)
    ensures r.Some? ==> |r.value| == |xs|
    ensures r.Some? ==> forall i :: 0 <= i < |xs| ==> f(xs[i]) == Some(r.value[i])
    ensures r.None? ==> exists i :: 0 <= i < |xs| && f(xs[i]).None?
    decreases |xs|
  {
    if xs == [] then Some([])
    else
      match MapOpt(xs[..|xs| - 1], f)
      case None => None
      case Some(ys) =>
        match f(xs[|xs| - 1])
        case None => None
        case Some(y) => Some(ys + [y])
  }

  lemma MapOptSnoc<A, B>(xs: seq<A>, x: A, f: A -> Option<B>)
    ensures MapOpt(xs + [x], f) ==
      match MapOpt(xs, f)
      case None => None
      case Some(ys) => (match f(x) case None => None case Some(y) => Some(ys + [y]))
  {
    assert (xs + [x])[..|xs + [x]| - 1] == xs;
  }

  /** One step of a loop computing `MapOpt`: a failing element fails the whole map,
      any other extends the prefix's result by one. */
  lemma MapOptStep<A, B>(xs: seq<A>, j: nat, f: A -> Option<B>)
    requires j < |xs| && MapOpt(xs[..j], f).Some?
    ensures f(xs[j]).None? ==> MapOpt(xs, f).None?
    ensures f(xs[j]).Some? ==>
      MapOpt(xs[..j + 1], f) == Some(MapOpt(xs[..j], f).value + [f(xs[j]).value])
  {
    var p := xs[..j + 1];
    assert p[..|p| - 1] == xs[..j];
    assert p[|p| - 1] == xs[j];
    if f(xs[j]).None? {
      MapOptFailurePersists(xs, j + 1, f);
    }
  }

  /** A left fold whose step may raise; the first failure ends it. */
  function FoldOpt<S, A>(s: S, xs: seq<A>, step: (S, A) -> Option<S>): Option<S>
    decreases |xs|
  {
    if xs == [] then Some(s)
    else
      match FoldOpt(s, xs[..|xs| - 1], step)
      case None => None
      case Some(t) => step(t, xs[|xs| - 1])
  }

  lemma FoldOptSnoc<S, A>(s: S, xs: seq<A>, x: A, step: (S, A) -> Option<S>)
    ensures FoldOpt(s, xs + [x], step) ==
      match FoldOpt(s, xs, step) case None => None case Some(t) => step(t, x)
  {
    assert (xs + [x])[..|xs + [x]| - 1] == xs;
  }

  /** Once a prefix of the fold has failed, the whole fold fails. */
  lemma {:induction false} FoldOptFailurePersists<S, A>(s: S, xs: seq<A>, k: nat, step: (S, A) -> Option<S>)
    requires k <= |xs|
    requires FoldOpt(s, xs[..k], step).None?
    ensures FoldOpt(s, xs, step).None?
    decreases |xs| - k
  {
    if k < |xs| {
      FoldOptSnoc(s, xs[..k], xs[k], step);
      assert xs[..k] + [xs[k]] == xs[..k + 1];
      FoldOptFailurePersists(s, xs, k + 1, step);
    } else {
      assert xs[..k] == xs;
    }
  }

  /** One step of a loop computing `FoldOpt`: the step on the prefix's state gives the
      next prefix's result, and a failing step fails the whole fold. */
  lemma FoldOptStep<S, A>(s: S, xs: seq<A>, j: nat, step: (S, A) -> Option<S>, t: S)
    requires j < |xs| && FoldOpt(s, xs[..j], step) == Some(t)
    ensures FoldOpt(s, xs[..j + 1], step) == step(t, xs[j])
    ensures step(t, xs[j]).None? ==> FoldOpt(s, xs, step).None?
  {
    FoldOptSnoc(s, xs[..j], xs[j], step);
    assert xs[..j] + [xs[j]] == xs[..j + 1];
    if step(t, xs[j]).None? {
      FoldOptFailurePersists(s, xs, j + 1, step);
    }
  }

  /** Once a prefix of the map has failed, the whole map fails. */
  lemma MapOptFailurePersists<A, B>(xs: seq<A>, k: nat, f: A -> Option<B>)
    requires k <= |xs|
    requires MapOpt(xs[..k], f).None?
    ensures MapOpt(xs, f).None?
  {
    var i :| 0 <= i < |xs[..k]| && f(xs[..k][i]).None?;
    assert f(xs[i]).None?;
  }

  /** Concatenation of a sequence of sequences. */
  function Flatten<T>(xss: seq<seq<T>>): (r: seq<T>)
    decreases |xss|
  {
    if xss == [] then [] else Flatten(xss[..|xss| - 1]) + xss[|xss| - 1]
  }

  lemma FlattenSnoc<T>(xss: seq<seq<T>>, xs: seq<T>)
    ensures Flatten(xss + [xs]) == Flatten(xss) + xs
  {
    assert (xss + [xs])[..|xss + [xs]| - 1] == xss;
  }

  lemma SnocPrefix<T>(s: seq<T>, x: T)
    ensures |s + [x]| == |s| + 1 && (s + [x])[..|s|] == s && (s + [x])[|s|] == x
  {
  }

  lemma SnocAssoc<T>(a: seq<T>, b: seq<T>, x: T)
    ensures a + b + [x] == a + (b + [x])
  {
  }

  lemma PrefixTrans<T>(a: seq<T>, b: seq<T>, c: seq<T>)
    requires |a| <= |b| <= |c| && c[..|b|] == b && b[..|a|] == a
    ensures c[..|a|] == a
  {
    assert c[..|a|] == c[..|b|][..|a|];
  }
}
