/** One test drains the completions of everyone on its queue. What it does to
    the others, and why it does not matter who tests first. */
module Orders {
  import opened Types
  import opened Psm2
  import opened Plugin
  import opened Invariants

  /** test frees the tested slot at most. Any other slot stays as it is, or goes
      from not done to done and keeps all the rest. */
  lemma TestFrame(s: Proc, x: ReqPtr, y: ReqPtr)
    requires Live(s, x) && Live(s, y) && x != y
    ensures SameConnections(s, Test(s, x).0) && Live(Test(s, x).0, y)
    ensures
      var before, after := At(s, y), At(Test(s, x).0, y);
      after == before ||
      (before.used && !before.done && after == before.(done := true, recvSize := after.recvSize)
       && (before.kind.ReqSend? ==> after.recvSize == before.recvSize))
  {
    var t := Test(s, x).0;
    forall a ensures SameConnection(s, t, a) { }
    assert t.comms.Keys == s.comms.Keys;
    assert Live(t, y);
  }

  /** Which slots that is: those whose request is complete in the queue of the
      tested comm's endpoint, and they get that request's size; the library is
      rid of exactly what was complete there. */
  lemma TestDrains(s: Proc, x: ReqPtr, y: ReqPtr)
    requires Inv(s) && Live(s, x) && Live(s, y) && x != y && At(s, x).used
    ensures Live(Test(s, x).0, y)
    ensures
      var t, before, ep := Test(s, x).0, At(s, y), s.comms[x.comm].ep;
      && (before.used && !before.done ==> before.req in s.lib.posts)
      && At(t, y) == (if before.used && !before.done && s.comms[y.comm].ep == ep
                         && s.lib.posts[before.req].comp.Some?
                      then before.(done := true, recvSize := if before.kind.ReqRecv?
                                                             then s.lib.posts[before.req].comp.value else 0)
                      else before)
      && forall p :: p in t.lib.posts <==>
                     p in s.lib.posts && !(s.lib.posts[p].ep == ep && s.lib.posts[p].comp.Some?)
  {
    TestFrame(s, x, y);
    assert SlotOk(s, y);
    if At(s, y).used && !At(s, y).done { assert PostOk(s, At(s, y).req); }
  }

  // ------------------------------------------------------ many tests in a row

  function TestAll(s: Proc, xs: seq<ReqPtr>): (r: (Proc, seq<TestOut>))
    requires forall x :: x in xs ==> Live(s, x)
    ensures |r.1| == |xs|
    ensures forall y :: Live(s, y) ==> Live(r.0, y)
  {
    if xs == [] then (s, [])
    else
      var (t, outs) := TestAll(s, xs[..|xs| - 1]);
      var (u, out) := Test(t, xs[|xs| - 1]);
      (u, outs + [out])
  }

  /** The completions waiting on the endpoints that the comms of `xs` use. */
  function ReadyFor(s: Proc, xs: set<ReqPtr>): set<nat> {
    set p | p in s.lib.posts && s.lib.posts[p].comp.Some?
            && exists x :: x in xs && x.comm in s.comms && s.comms[x.comm].ep == s.lib.posts[p].ep
  }

  function Freed(d: Slot, tested: bool): Slot {
    if tested && d.done then FREE else d
  }

  /** A slot when the requests `xs` have been tested. */
  function FinalSlot(s: Proc, xs: set<ReqPtr>, y: ReqPtr): Slot
    requires Live(s, y)
  {
    Freed(DrainSlot(s.lib, ReadyFor(s, xs), At(s, y)), y in xs)
  }

  /** `t` is the outcome of testing the set of requests `xs`. */
  ghost predicate Final(s: Proc, xs: set<ReqPtr>, t: Proc) {
    && SameConnections(s, t)
    && t.lib == Retire(s.lib, ReadyFor(s, xs))
    && forall y :: FinalAt(s, xs, t, y)
  }

  ghost predicate FinalAt(s: Proc, xs: set<ReqPtr>, t: Proc, y: ReqPtr) {
    (Live(s, y) <==> Live(t, y)) && (Live(s, y) ==> At(t, y) == FinalSlot(s, xs, y))
  }

  lemma FinalUnique(s: Proc, xs: set<ReqPtr>, t: Proc, u: Proc)
    requires Final(s, xs, t) && Final(s, xs, u)
    ensures t == u
  {
    forall a | a in s.comms ensures t.comms[a] == u.comms[a] {
      assert SameConnection(s, t, a) && SameConnection(s, u, a);
      forall i | 0 <= i < |s.comms[a].requests| ensures t.comms[a].requests[i] == u.comms[a].requests[i] {
        assert FinalAt(s, xs, t, ReqPtr(a, i)) && FinalAt(s, xs, u, ReqPtr(a, i));
      }
      assert t.comms[a].requests == u.comms[a].requests;
    }
    assert t.comms == u.comms;
  }

  lemma FinalNone(s: Proc)
    ensures Final(s, {}, s)
  {
    assert s.lib.posts - ReadyFor(s, {}) == s.lib.posts;
  }

  lemma ReadyForMore(s: Proc, xs: set<ReqPtr>, y: ReqPtr)
    requires y.comm in s.comms
    ensures ReadyFor(s, xs + {y}) == ReadyFor(s, xs) + Ready(s.lib, s.comms[y.comm].ep)
  {
  }

  /** A slot drained for `xs`, then for `y`, is drained for both; one freed for
      `xs` has nothing left to drain. */
  lemma DrainedSlot(s: Proc, xs: set<ReqPtr>, y: ReqPtr, z: ReqPtr)
    requires ReqInv(s) && Live(s, y) && y !in xs && Live(s, z)
    ensures
      var ep := s.comms[y.comm].ep;
      var l := Retire(s.lib, ReadyFor(s, xs));
      Freed(DrainSlot(l, Ready(l, ep), FinalSlot(s, xs, z)), z == y) == FinalSlot(s, xs + {y}, z)
  {
    assert SlotOk(s, z) && PostOk(s, At(s, z).req);
    ReadyForMore(s, xs, y);
  }

  /** What the next test leaves in every slot. */
  lemma NextSlot(s: Proc, xs: set<ReqPtr>, t: Proc, y: ReqPtr, z: ReqPtr)
    requires ReqInv(s) && Final(s, xs, t) && Live(s, y) && y !in xs && At(s, y).used
    ensures Live(t, y) && At(t, y).used
    ensures FinalAt(s, xs + {y}, Test(t, y).0, z)
  {
    assert FinalAt(s, xs, t, y) && FinalAt(s, xs, t, z) && SameConnection(s, t, y.comm);
    if Live(s, z) { DrainedSlot(s, xs, y, z); }
  }

  lemma NextOut(s: Proc, xs: set<ReqPtr>, t: Proc, y: ReqPtr)
    requires ReqInv(s) && Final(s, xs, t) && Live(s, y) && y !in xs && At(s, y).used
    ensures Live(t, y) && Test(t, y).1 == Test(s, y).1
  {
    assert FinalAt(s, xs, t, y) && SameConnection(s, t, y.comm);
    assert SlotOk(s, y) && PostOk(s, At(s, y).req);
  }

  lemma NextFinal(s: Proc, xs: set<ReqPtr>, t: Proc, y: ReqPtr)
    requires ReqInv(s) && Final(s, xs, t) && Live(s, y) && y !in xs && At(s, y).used
    ensures Live(t, y) && Final(s, xs + {y}, Test(t, y).0)
  {
    NextSlot(s, xs, t, y, y);
    var u := Test(t, y).0;
    forall z ensures FinalAt(s, xs + {y}, u, z) { NextSlot(s, xs, t, y, z); }
    forall a ensures SameConnection(s, u, a) { assert SameConnection(s, t, a); }
    assert SameConnection(s, t, y.comm);
    assert u.comms.Keys == s.comms.Keys;
    ReadyForMore(s, xs, y);
    assert u.lib.posts == s.lib.posts - ReadyFor(s, xs + {y});
  }

  function Elems(xs: seq<ReqPtr>): set<ReqPtr> {
    set x | x in xs
  }

  lemma SameElems(xs: seq<ReqPtr>, ys: seq<ReqPtr>)
    requires multiset(xs) == multiset(ys)
    ensures Elems(xs) == Elems(ys)
  {
    forall x ensures x in Elems(xs) <==> x in Elems(ys) {
      assert x in multiset(xs) <==> x in multiset(ys);
    }
  }

  predicate Batch(s: Proc, xs: seq<ReqPtr>) {
    && (forall x :: x in xs ==> Live(s, x) && At(s, x).used)
    && (forall i, j :: 0 <= i < j < |xs| ==> xs[i] != xs[j])
  }

  /** The i-th test says what it would say alone. */
  ghost predicate SaysAsAlone(s: Proc, xs: seq<ReqPtr>, i: nat)
    requires forall x :: x in xs ==> Live(s, x)
  {
    i < |xs| ==> TestAll(s, xs).1[i] == Test(s, xs[i]).1
  }

  /** Each of the tests says what it would say alone, and together they leave
      what depends only on which requests were tested. */
  lemma {:induction false} TestAllFinal(s: Proc, xs: seq<ReqPtr>)
    requires ReqInv(s) && Batch(s, xs)
    ensures Final(s, Elems(xs), TestAll(s, xs).0)
    ensures forall i :: SaysAsAlone(s, xs, i)
    decreases |xs|
  {
    if xs == [] {
      FinalNone(s);
      assert Elems(xs) == {};
    } else {
      var before, y := xs[..|xs| - 1], xs[|xs| - 1];
      TestAllFinal(s, before);
      TestAllStep(s, xs, before, y);
    }
  }

  lemma {:induction false} TestAllStep(s: Proc, xs: seq<ReqPtr>, before: seq<ReqPtr>, y: ReqPtr)
    requires ReqInv(s) && Batch(s, xs) && xs != [] && before == xs[..|xs| - 1] && y == xs[|xs| - 1]
    requires Batch(s, before) && Final(s, Elems(before), TestAll(s, before).0)
    requires forall i :: SaysAsAlone(s, before, i)
    ensures Final(s, Elems(xs), TestAll(s, xs).0)
    ensures forall i :: SaysAsAlone(s, xs, i)
  {
    var t := TestAll(s, before).0;
    assert Elems(xs) == Elems(before) + {y};
    NextFinal(s, Elems(before), t, y);
    NextOut(s, Elems(before), t, y);
    forall i: nat ensures SaysAsAlone(s, xs, i) { assert SaysAsAlone(s, before, i); }
  }

  /** Whatever the order in which a batch of requests is tested, across comms
      and endpoints, each gets the same answer and the process ends in the same
      state. A completion drained by another's test is not lost. */
  lemma {:induction false} OrderIndependence(s: Proc, xs: seq<ReqPtr>, ys: seq<ReqPtr>)
    requires Inv(s) && Batch(s, xs) && Batch(s, ys) && multiset(xs) == multiset(ys)
    ensures TestAll(s, xs).0 == TestAll(s, ys).0
    ensures forall i, j :: 0 <= i < |xs| && 0 <= j < |ys| && xs[i] == ys[j] ==>
      TestAll(s, xs).1[i] == TestAll(s, ys).1[j]
  {
    TestAllFinal(s, xs);
    TestAllFinal(s, ys);
    SameElems(xs, ys);
    FinalUnique(s, Elems(xs), TestAll(s, xs).0, TestAll(s, ys).0);
    forall i, j | 0 <= i < |xs| && 0 <= j < |ys| && xs[i] == ys[j]
      ensures TestAll(s, xs).1[i] == TestAll(s, ys).1[j]
    {
      assert SaysAsAlone(s, xs, i) && SaysAsAlone(s, ys, j);
    }
  }
}
