/** Keeping the present results of a partial map over a sequence, in order: the shape of
    every loop in the drivers that appends to a list only for some elements. */
module Collect {
  import opened Text

  /** An optional value as a sequence of zero or one elements. */
  function Listed<T>(r: Option<T>): (s: seq<T>)
    ensures r.Some? ==> s == [r.value]
    ensures r.None? ==> s == []
  {
    if r.Some? then [r.value] else []
  }

  /** The `Some` results of `f` over `xs`, in order. */
  function Keep<A, B>(xs: seq<A>, f: A -> Option<B>): seq<B>
  {
    if |xs| == 0 then [] else Keep(xs[..|xs| - 1], f) + Listed(f(xs[|xs| - 1]))
  }

  /** The last element adds what `f` keeps of it. */
  lemma KeepLast<A, B>(xs: seq<A>, f: A -> Option<B>)
    requires |xs| > 0
    ensures Keep(xs, f) == Keep(xs[..|xs| - 1], f) + Listed(f(xs[|xs| - 1]))
  {
  }

  lemma {:induction false} KeepAppend<A, B>(a: seq<A>, b: seq<A>, f: A -> Option<B>)
    ensures Keep(a + b, f) == Keep(a, f) + Keep(b, f)
    decreases |b|
  {
    if |b| > 0 {
      var ab := a + b;
      assert ab[..|ab| - 1] == a + b[..|b| - 1];
      assert ab[|ab| - 1] == b[|b| - 1];
      KeepAppend(a, b[..|b| - 1], f);
    } else {
      assert a + b == a;
    }
  }

  /** When `f` keeps every element, mapped to `ys`, the kept results are `ys`. */
  lemma {:induction false} KeepAll<A, B>(xs: seq<A>, f: A -> Option<B>, ys: seq<B>)
    requires |ys| == |xs|
    requires forall j :: 0 <= j < |xs| ==> f(xs[j]) == Some(ys[j])
    ensures Keep(xs, f) == ys
    decreases |xs|
  {
    if |xs| > 0 {
      var m := |xs| - 1;
      KeepAll(xs[..m], f, ys[..m]);
      assert f(xs[m]) == Some(ys[m]);
      assert ys == ys[..m] + [ys[m]];
    }
  }

  /** One more element adds what `f` keeps of it. */
  lemma KeepStep<A, B>(xs: seq<A>, k: nat, f: A -> Option<B>)
    requires k < |xs|
    ensures Keep(xs[..k + 1], f) == Keep(xs[..k], f) + Listed(f(xs[k]))
  {
    assert xs[..k + 1][..k] == xs[..k];
  }

  /** One more element at the end adds what `f` keeps of it. */
  lemma KeepSnoc<A, B>(xs: seq<A>, x: A, f: A -> Option<B>)
    ensures Keep(xs + [x], f) == Keep(xs, f) + Listed(f(x))
  {
    assert (xs + [x])[..|xs|] == xs;
  }

  /** A longer input keeps at least as much: a prefix keeps a prefix. */
  lemma KeepPrefix<A, B>(a: seq<A>, b: seq<A>, f: A -> Option<B>)
    requires a <= b
    ensures Keep(a, f) <= Keep(b, f)
  {
    assert b == a + b[|a|..];
    KeepAppend(a, b[|a|..], f);
  }


  /** An element `f` drops adds nothing. */
  lemma KeepSkip<A, B>(xs: seq<A>, x: A, f: A -> Option<B>)
    requires f(x).None?
    ensures Keep(xs + [x], f) == Keep(xs, f)
  {
    KeepSnoc(xs, x, f);
  }

  /** The first element contributes first. */
  lemma KeepFront<A, B>(xs: seq<A>, j: nat, f: A -> Option<B>)
    requires j < |xs|
    ensures Keep(xs[j..], f) == Listed(f(xs[j])) + Keep(xs[j + 1..], f)
  {
    assert xs[j..] == [xs[j]] + xs[j + 1..];
    KeepAppend([xs[j]], xs[j + 1..], f);
    assert [xs[j]][..0] == [];
  }

  /** Nothing kept from elements `f` drops. */
  lemma {:induction false} KeepNone<A, B>(xs: seq<A>, f: A -> Option<B>)
    requires forall j :: 0 <= j < |xs| ==> f(xs[j]).None?
    ensures Keep(xs, f) == []
    decreases |xs|
  {
    if |xs| > 0 {
      KeepNone(xs[..|xs| - 1], f);
    }
  }
}
