/** Left-to-right runs of a step function that also appends to an output. The
    step sees the lookup list up to and including the item it is given. */
module Folds {

  function Fold<S, E, O>(step: (S, seq<E>, E) -> (S, seq<O>), st: S,
                         lookup: seq<E>, off: nat, items: seq<E>): (S, seq<O>)
    requires off + |items| <= |lookup|
  {
    if items == [] then (st, [])
    else
      var n := |items| - 1;
      var (s, out) := Fold(step, st, lookup, off, items[..n]);
      var (s', more) := step(s, lookup[..off + n + 1], items[n]);
      (s', out + more)
  }

  lemma FoldExtends<S, E, O>(step: (S, seq<E>, E) -> (S, seq<O>), st: S,
                             lookup: seq<E>, off: nat, items: seq<E>, n: nat)
    requires off + |items| <= |lookup| && n < |items|
    ensures
      var (s, out) := Fold(step, st, lookup, off, items[..n]);
      var (s', more) := step(s, lookup[..off + n + 1], items[n]);
      Fold(step, st, lookup, off, items[..n + 1]) == (s', out + more)
  {
    assert items[..n + 1][..n] == items[..n];
  }

  lemma {:induction false} FoldSplits<S, E, O>(step: (S, seq<E>, E) -> (S, seq<O>), st: S,
                                               lookup: seq<E>, off: nat, a: seq<E>, b: seq<E>)
    requires off + |a| + |b| <= |lookup|
    ensures
      var (s, out) := Fold(step, st, lookup, off, a);
      var (s', more) := Fold(step, s, lookup, off + |a|, b);
      Fold(step, st, lookup, off, a + b) == (s', out + more)
  {
    if b == [] {
      assert a + b == a;
      assert Fold(step, st, lookup, off, a).1 + [] == Fold(step, st, lookup, off, a).1;
    } else {
      var n := |b| - 1;
      FoldSplits(step, st, lookup, off, a, b[..n]);
      assert (a + b)[..|a + b| - 1] == a + b[..n];
      var (s, out) := Fold(step, st, lookup, off, a);
      var (s1, more) := Fold(step, s, lookup, off + |a|, b[..n]);
      var (s2, last) := step(s1, lookup[..off + |a| + n + 1], b[n]);
      assert out + more + last == out + (more + last);
    }
  }

  /** A run sees no further into its lookup list than its own last item. */
  lemma {:induction false} FoldLocal<S, E, O>(step: (S, seq<E>, E) -> (S, seq<O>), st: S,
                                              l1: seq<E>, l2: seq<E>, off: nat, items: seq<E>)
    requires off + |items| <= |l1| && off + |items| <= |l2|
    requires l1[..off + |items|] == l2[..off + |items|]
    ensures Fold(step, st, l1, off, items) == Fold(step, st, l2, off, items)
  {
    if items != [] {
      var n := |items| - 1;
      assert l1[..off + n] == l1[..off + |items|][..off + n];
      assert l2[..off + n] == l2[..off + |items|][..off + n];
      FoldLocal(step, st, l1, l2, off, items[..n]);
    }
  }

  /** A list up to an end that may lie outside it: past its end, or before its start and
      then counted from its end. */
  function UpTo<E>(events: seq<E>, end: int): seq<E> {
    if end >= |events| then events
    else if end >= 0 then events[..end]
    else if |events| + end >= 0 then events[..|events| + end]
    else []
  }

  /** A run whose items may lie anywhere relative to the lookup list. */
  function LooseFold<S, E, O>(step: (S, seq<E>, E) -> (S, seq<O>), st: S,
                              lookup: seq<E>, off: int, items: seq<E>): (S, seq<O>)
  {
    if items == [] then (st, [])
    else
      var n := |items| - 1;
      var (s, out) := LooseFold(step, st, lookup, off, items[..n]);
      var (s', more) := step(s, UpTo(lookup, off + n + 1), items[n]);
      (s', out + more)
  }

  lemma LooseExtends<S, E, O>(step: (S, seq<E>, E) -> (S, seq<O>), st: S,
                              lookup: seq<E>, off: int, items: seq<E>, n: nat)
    requires n < |items|
    ensures
      var (s, out) := LooseFold(step, st, lookup, off, items[..n]);
      var (s', more) := step(s, UpTo(lookup, off + n + 1), items[n]);
      LooseFold(step, st, lookup, off, items[..n + 1]) == (s', out + more)
  {
    assert items[..n + 1][..n] == items[..n];
  }

  lemma {:induction false} LooseIsFold<S, E, O>(step: (S, seq<E>, E) -> (S, seq<O>), st: S,
                                                lookup: seq<E>, off: nat, items: seq<E>)
    requires off + |items| <= |lookup|
    ensures LooseFold(step, st, lookup, off, items) == Fold(step, st, lookup, off, items)
  {
    if items != [] {
      var n := |items| - 1;
      LooseIsFold(step, st, lookup, off, items[..n]);
      assert UpTo(lookup, off + n + 1) == lookup[..off + n + 1];
    }
  }

  /** A run over items that follow a past. */
  function FoldAfter<S, E, O>(step: (S, seq<E>, E) -> (S, seq<O>), st: S, past: seq<E>, items: seq<E>): (S, seq<O>) {
    Fold(step, st, past + items, |past|, items)
  }

  lemma FoldAfterNothing<S, E, O>(step: (S, seq<E>, E) -> (S, seq<O>), st: S, past: seq<E>)
    ensures FoldAfter(step, st, past, []) == (st, [])
  {
  }

  lemma FoldAfterExtends<S, E, O>(step: (S, seq<E>, E) -> (S, seq<O>), st: S, past: seq<E>, items: seq<E>, e: E)
    ensures
      var (s, out) := FoldAfter(step, st, past, items);
      var (s', more) := step(s, past + items + [e], e);
      FoldAfter(step, st, past, items + [e]) == (s', out + more)
  {
    var all := items + [e];
    FoldExtends(step, st, past + all, |past|, all, |items|);
    assert all[..|items|] == items && all[..|items| + 1] == all;
    assert (past + all)[..|past| + |items| + 1] == past + items + [e];
    FoldLocal(step, st, past + all, past + items, |past|, items);
  }

  lemma FoldAfterSplits<S, E, O>(step: (S, seq<E>, E) -> (S, seq<O>), st: S, past: seq<E>, a: seq<E>, b: seq<E>)
    ensures
      var (s, out) := FoldAfter(step, st, past, a);
      var (s', more) := FoldAfter(step, s, past + a, b);
      FoldAfter(step, st, past, a + b) == (s', out + more)
  {
    var all := past + (a + b);
    assert all == past + a + b;
    FoldSplits(step, st, all, |past|, a, b);
    FoldLocal(step, st, all, past + a, |past|, a);
  }

  /** A first item that says nothing only moves the state. */
  lemma FoldAfterSilent<S, E, O>(step: (S, seq<E>, E) -> (S, seq<O>), st: S, past: seq<E>, first: E, rest: seq<E>, s: S)
    requires step(st, past + [first], first) == (s, [])
    ensures FoldAfter(step, st, past, [first] + rest) == FoldAfter(step, s, past + [first], rest)
  {
    var nothing: seq<O> := [];
    FoldAfterExtends(step, st, past, [], first);
    assert [] + [first] == [first] && past + [] + [first] == past + [first];
    assert nothing + nothing == nothing;
    assert FoldAfter(step, st, past, [first]) == (s, nothing);
    FoldAfterSplits(step, st, past, [first], rest);
    var out := FoldAfter(step, s, past + [first], rest).1;
    assert nothing + out == out;
  }

  /** What each item contributes, joined in order. */
  function Gather<E, O>(f: E -> seq<O>, items: seq<E>): seq<O> {
    if items == [] then [] else Gather(f, items[..|items| - 1]) + f(items[|items| - 1])
  }

  lemma GatherOne<E, O>(f: E -> seq<O>, e: E)
    ensures Gather(f, [e]) == f(e)
  {
    GatherExtends(f, [], e);
    assert [] + [e] == [e] && [] + f(e) == f(e);
  }

  lemma GatherExtends<E, O>(f: E -> seq<O>, items: seq<E>, e: E)
    ensures Gather(f, items + [e]) == Gather(f, items) + f(e)
  {
    assert (items + [e])[..|items|] == items;
  }

  lemma GatherSilent<E, O>(f: E -> seq<O>, items: seq<E>, e: E)
    requires f(e) == []
    ensures Gather(f, items + [e]) == Gather(f, items)
  {
    GatherExtends(f, items, e);
    assert Gather(f, items) + [] == Gather(f, items);
  }

  lemma GatherMore<E, O>(f: E -> seq<O>, items: seq<E>, e: E)
    ensures Gather(f, items + [e]) == if f(e) == [] then Gather(f, items) else Gather(f, items) + f(e)
  {
    GatherExtends(f, items, e);
    assert Gather(f, items) + [] == Gather(f, items);
  }

  lemma {:induction false} GatherAppend<E, O>(f: E -> seq<O>, a: seq<E>, b: seq<E>)
    ensures Gather(f, a + b) == Gather(f, a) + Gather(f, b)
  {
    if b == [] {
      assert a + b == a;
    } else {
      var n := |b| - 1;
      GatherAppend(f, a, b[..n]);
      assert (a + b)[..|a + b| - 1] == a + b[..n];
    }
  }

  /** When every item contributes exactly one value, the values stand in order. */
  lemma {:induction false} GatherEach<E, O>(f: E -> seq<O>, items: seq<E>)
    requires forall x | x in items :: |f(x)| == 1
    ensures |Gather(f, items)| == |items|
    ensures forall k | 0 <= k < |items| :: Gather(f, items)[k] == f(items[k])[0]
  {
    if items != [] {
      GatherEach(f, items[..|items| - 1]);
    }
  }

  /** Encoding every item and decoding the list gives back the list exactly when
      every single item survives. */
  lemma {:induction false} EachSurvives<E, J>(encode: E -> seq<J>, decode: J -> seq<E>, trip: E -> E, items: seq<E>)
    requires forall x | x in items :: |encode(x)| == 1 && decode(encode(x)[0]) == [trip(x)]
    ensures |Gather(decode, Gather(encode, items))| == |items|
    ensures Gather(decode, Gather(encode, items)) == items <==> forall x | x in items :: trip(x) == x
  {
    if items != [] {
      var init, last := items[..|items| - 1], items[|items| - 1];
      assert items == init + [last];
      EachSurvives(encode, decode, trip, init);
      GatherExtends(encode, init, last);
      assert encode(last) == [encode(last)[0]];
      GatherExtends(decode, Gather(encode, init), encode(last)[0]);
    }
  }
}
