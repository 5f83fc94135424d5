/** Two ways of selecting from a list of items with distinct ids, compared. */
module Selections {
  import opened Folds
  import opened Text

  function First(ids: seq<string>, limit: nat): seq<string> {
    if |ids| > limit then ids[..limit] else ids
  }

  /** Item `e` has at most one id, which `f` takes or leaves. */
  predicate Selects<E>(all: E -> seq<string>, f: E -> seq<string>, e: E) {
    |all(e)| <= 1 && (f(e) == [] || f(e) == all(e))
  }

  ghost predicate Selection<E>(all: E -> seq<string>, f: E -> seq<string>, items: seq<E>) {
    forall n | 0 <= n < |items| :: Selects(all, f, items[n])
  }

  lemma {:induction false} Selected<E>(all: E -> seq<string>, f: E -> seq<string>, items: seq<E>, id: string)
    requires Selection(all, f, items) && id in Gather(f, items)
    ensures id in Gather(all, items)
  {
    var n := |items| - 1;
    var init, e := items[..n], items[n];
    assert Selects(all, f, e);
    if id !in f(e) {
      Selected(all, f, init, id);
    }
  }

  /** The id of the last item was not selected before. */
  lemma NotBefore<E>(all: E -> seq<string>, f: E -> seq<string>, init: seq<E>, e: E)
    requires Selection(all, f, init) && NoDup(Gather(all, init + [e])) && |all(e)| == 1
    ensures all(e)[0] !in Gather(f, init)
  {
    GatherExtends(all, init, e);
    var before, both := Gather(all, init), Gather(all, init + [e]);
    forall k | 0 <= k < |before| ensures before[k] != all(e)[0] {
      assert both[k] == before[k] && both[|before|] == all(e)[0];
    }
    if all(e)[0] in Gather(f, init) {
      Selected(all, f, init, all(e)[0]);
    }
  }

  /** One more id, new to both lists and taken or left by each. */
  lemma OneMore(a: seq<string>, b: seq<string>, x: seq<string>, y: seq<string>, id: string, limit: nat)
    requires (x == [] || x == [id]) && (y == [] || y == [id]) && id !in a && id !in b
    ensures First(a + x, limit) == First(b + y, limit) ==>
      First(a, limit) == First(b, limit) && (|b| < limit ==> x == y)
  {
    if First(a + x, limit) == First(b + y, limit) {
      if |a| >= limit && |b| >= limit {
        assert (a + x)[..limit] == a[..limit] && (b + y)[..limit] == b[..limit];
      } else {
        AloneEqual(a, b, x, y, id, limit);
      }
    }
  }

  lemma AloneEqual(a: seq<string>, b: seq<string>, x: seq<string>, y: seq<string>, id: string, limit: nat)
    requires (x == [] || x == [id]) && (y == [] || y == [id]) && id !in a && id !in b
    requires First(a + x, limit) == First(b + y, limit) && (|a| < limit || |b| < limit)
    ensures a == b && x == y
  {
    var u, v := First(a + x, limit), First(b + y, limit);
    assert |a| < limit ==> u == a + x;
    assert |b| < limit ==> v == b + y;
    assert x != [] && |a| < limit ==> u[|a|] == id;
    assert y != [] && |b| < limit ==> v[|b|] == id;
    assert forall k | 0 <= k < |u| && k < |a| :: u[k] == a[k];
    assert forall k | 0 <= k < |v| && k < |b| :: v[k] == b[k];
    assert x == y;
    assert a == (a + x)[..|a|] && b == (b + y)[..|b|];
  }

  lemma SameOnes(a: seq<string>, b: seq<string>, x: seq<string>, y: seq<string>, limit: nat)
    requires First(a, limit) == First(b, limit) && |x| <= 1 && |y| <= 1 && (|b| < limit ==> x == y)
    ensures First(a + x, limit) == First(b + y, limit)
  {
    if |b| < limit {
      assert a == b;
    } else {
      assert (a + x)[..limit] == a[..limit] && (b + y)[..limit] == b[..limit];
    }
  }

  /** The selections agree on every item that comes before the second has `limit`. */
  ghost predicate AgreeUpTo<E>(f: E -> seq<string>, g: E -> seq<string>, items: seq<E>, limit: nat) {
    forall n: nat {:trigger items[n]} | n < |items| && |Gather(g, items[..n])| < limit :: f(items[n]) == g(items[n])
  }

  /** Two selections from distinct ids start with the same `limit` ids exactly when they
      agree on every item before the second one has its `limit`. */
  lemma {:induction false} SameFirst<E>(all: E -> seq<string>, f: E -> seq<string>, g: E -> seq<string>,
                                        items: seq<E>, limit: nat)
    requires Selection(all, f, items) && Selection(all, g, items) && NoDup(Gather(all, items))
    ensures First(Gather(f, items), limit) == First(Gather(g, items), limit) <==> AgreeUpTo(f, g, items, limit)
  {
    if items != [] {
      var n := |items| - 1;
      var init, e := items[..n], items[n];
      assert items == init + [e];
      assert NoDup(Gather(all, init)) by {
        assert Gather(all, init) == Gather(all, items)[..|Gather(all, init)|];
      }
      SameFirst(all, f, g, init, limit);
      AgreeMore(f, g, init, e, limit);
      assert Selects(all, f, e) && Selects(all, g, e);
      LastOne(all, f, g, init, e, limit);
    }
  }

  lemma AgreeMore<E>(f: E -> seq<string>, g: E -> seq<string>, init: seq<E>, e: E, limit: nat)
    ensures AgreeUpTo(f, g, init + [e], limit) <==>
      AgreeUpTo(f, g, init, limit) && (|Gather(g, init)| < limit ==> f(e) == g(e))
  {
    var items := init + [e];
    assert items[..|init|] == init && items[|init|] == e;
    forall n: nat | n < |init| ensures items[..n] == init[..n] && items[n] == init[n] { }
  }

  lemma LastOne<E>(all: E -> seq<string>, f: E -> seq<string>, g: E -> seq<string>, init: seq<E>, e: E, limit: nat)
    requires Selection(all, f, init) && Selection(all, g, init) && NoDup(Gather(all, init + [e]))
    requires Selects(all, f, e) && Selects(all, g, e)
    ensures
      var a, b := Gather(f, init), Gather(g, init);
      First(Gather(f, init + [e]), limit) == First(Gather(g, init + [e]), limit) <==>
        First(a, limit) == First(b, limit) && (|b| < limit ==> f(e) == g(e))
  {
    var a, b := Gather(f, init), Gather(g, init);
    GatherExtends(f, init, e);
    GatherExtends(g, init, e);
    if all(e) == [] {
      assert a + [] == a && b + [] == b;
    } else {
      NotBefore(all, f, init, e);
      NotBefore(all, g, init, e);
      assert all(e) == [all(e)[0]];
      OneMore(a, b, f(e), g(e), all(e)[0], limit);
      if First(a, limit) == First(b, limit) && (|b| < limit ==> f(e) == g(e)) {
        SameOnes(a, b, f(e), g(e), limit);
      }
    }
  }
}
