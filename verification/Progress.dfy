/** The progress loop takes completions one by one while the network goes on
    delivering. These lemmas are the algebra behind "it might as well have
    waited for the network and then taken all of them at once". */
module Progress {
  import opened Types
  import opened Psm2
  import opened Plugin
  import opened Invariants

  /** Taking two batches one after the other is taking both at once. */
  lemma DrainTwice(s: Proc, ps: set<nat>, qs: set<nat>)
    ensures Drain(Drain(s, ps), qs) == Drain(s, ps + qs)
  {
    var a, b := Drain(Drain(s, ps), qs), Drain(s, ps + qs);
    assert a.lib.posts == b.lib.posts;
    forall c | c in s.comms ensures a.comms[c] == b.comms[c] {
      assert a.comms[c].requests == b.comms[c].requests;
    }
    assert a.comms == b.comms;
  }

  /** Completions already waiting are not affected by what the network does. */
  lemma NetThenDrain(s: Proc, ps: set<nat>, es: seq<NetEvent>)
    requires AllComplete(s.lib, ps)
    ensures AllComplete(NetAll(s.lib, es), ps)
    ensures Drain(s.(lib := NetAll(s.lib, es)), ps) == Drain(s, ps).(lib := NetAll(Retire(s.lib, ps), es))
  {
    if es == [] {
      assert s.(lib := NetAll(s.lib, es)) == s;
    } else {
      var before, e := es[..|es| - 1], es[|es| - 1];
      NetThenDrain(s, ps, before);
      var t := s.(lib := NetAll(s.lib, before));
      NetThenDrainOne(t, ps, e);
    }
  }

  lemma NetThenDrainOne(s: Proc, ps: set<nat>, e: NetEvent)
    requires AllComplete(s.lib, ps)
    ensures AllComplete(Net(s.lib, e), ps)
    ensures Drain(s.(lib := Net(s.lib, e)), ps) == Drain(s, ps).(lib := Net(Retire(s.lib, ps), e))
  {
    var a, b := Drain(s.(lib := Net(s.lib, e)), ps), Drain(s, ps).(lib := Net(Retire(s.lib, ps), e));
    assert a.lib.posts == b.lib.posts;
    forall c | c in s.comms ensures a.comms[c] == b.comms[c] {
      assert a.comms[c].requests == b.comms[c].requests;
    }
    assert a.comms == b.comms;
  }

  /** What one turn of the loop does through the completion's context pointer. */
  function Dispatch(s: Proc, p: nat): Proc
    requires p in s.lib.posts && s.lib.posts[p].comp.Some? && Live(s, s.lib.posts[p].ctx)
  {
    var x := s.lib.posts[p].ctx;
    var sl := At(s, x).(done := true);
    var marked := if sl.kind.ReqRecv? then sl.(recvSize := s.lib.posts[p].comp.value) else sl;
    SetSlot(s, x, marked).(lib := Retire(s.lib, {p}))
  }

  /** Following the context pointer reaches the slot that holds the completed
      posting, and no other slot holds it. */
  lemma DispatchIsDrain(s: Proc, p: nat)
    requires ReqInv(s) && p in s.lib.posts && s.lib.posts[p].comp.Some?
    ensures Live(s, s.lib.posts[p].ctx)
    ensures Dispatch(s, p) == Drain(s, {p})
  {
    assert PostOk(s, p);
    var x := s.lib.posts[p].ctx;
    var a, b := Dispatch(s, p), Drain(s, {p});
    forall c | c in s.comms ensures a.comms[c] == b.comms[c] {
      forall i | 0 <= i < |s.comms[c].requests| ensures a.comms[c].requests[i] == b.comms[c].requests[i] {
        assert Unshared(s, x, ReqPtr(c, i));
        assert SlotOk(s, ReqPtr(c, i));
        assert At(s, ReqPtr(c, i)) == s.comms[c].requests[i];
      }
      assert a.comms[c].requests == b.comms[c].requests;
    }
    assert a.comms == b.comms;
  }

  // ------------------------------------------------ how long the loop runs

  /** Requests on `ep` the library still has, completed or not. */
  function Outstanding(l: Lib, ep: Ep): set<nat> {
    set p | p in l.posts && l.posts[p].ep == ep
  }

  function CommsOn(s: Proc, ep: Ep): set<Addr> {
    set a | a in s.comms && s.comms[a].ep == ep
  }

  lemma {:induction false} NetKeepsOutstanding(l: Lib, es: seq<NetEvent>, ep: Ep)
    ensures Outstanding(NetAll(l, es), ep) == Outstanding(l, ep)
    ensures NetAll(l, es) == l.(posts := NetAll(l, es).posts)
  {
    if es != [] {
      NetKeepsOutstanding(l, es[..|es| - 1], ep);
    }
  }

  function Image<T, U>(xs: set<T>, f: T -> U): set<U> {
    set x | x in xs :: f(x)
  }

  /** An injective image has as many elements as the set. */
  lemma {:induction false} ImageCard<T(!new), U>(xs: set<T>, f: T -> U)
    requires forall x, y :: x in xs && y in xs && f(x) == f(y) ==> x == y
    ensures |Image(xs, f)| == |xs|
  {
    if xs != {} {
      var x :| x in xs;
      ImageCard(xs - {x}, f);
      assert Image(xs, f) == Image(xs - {x}, f) + {f(x)};
      assert f(x) !in Image(xs - {x}, f);
    }
  }

  lemma {:induction false} SubsetCard<T>(xs: set<T>, ys: set<T>)
    requires xs <= ys
    ensures |xs| <= |ys|
    ensures |xs| == |ys| ==> xs == ys
  {
    assert ys == xs + (ys - xs);
  }

  function Below(n: nat): (r: set<nat>)
    ensures |r| == n
    ensures forall i: nat :: i in r <==> i < n
  {
    if n == 0 then {} else Below(n - 1) + {n - 1}
  }

  function OutstandingOf(l: Lib, cs: set<Addr>): set<nat> {
    set p | p in l.posts && l.posts[p].ctx.comm in cs
  }

  function IndexOf(l: Lib, p: nat): nat {
    if p in l.posts then l.posts[p].ctx.idx else 0
  }

  lemma SameSlotSamePost(s: Proc, p: nat, q: nat)
    requires ReqInv(s) && p in s.lib.posts && q in s.lib.posts && s.lib.posts[p].ctx == s.lib.posts[q].ctx
    ensures p == q
  {
    assert PostOk(s, p) && PostOk(s, q);
  }

  lemma OutstandingOfOne(s: Proc, a: Addr)
    requires ReqInv(s) && CommOk(s, a) && a in s.comms
    ensures |OutstandingOf(s.lib, {a})| <= NUM_REQUESTS
  {
    var mine, l := OutstandingOf(s.lib, {a}), s.lib;
    var f := (p: nat) => IndexOf(l, p);
    forall p | p in mine ensures f(p) in Below(NUM_REQUESTS) { assert PostOk(s, p); }
    forall p, q | p in mine && q in mine && f(p) == f(q) ensures p == q { SameSlotSamePost(s, p, q); }
    ImageCard(mine, f);
    SubsetCard(Image(mine, f), Below(NUM_REQUESTS));
  }

  lemma {:induction false} OutstandingPerComms(s: Proc, cs: set<Addr>)
    requires Inv(s) && cs <= s.comms.Keys
    ensures |OutstandingOf(s.lib, cs)| <= NUM_REQUESTS * |cs|
  {
    if cs == {} {
      assert OutstandingOf(s.lib, cs) == {};
    } else {
      var a :| a in cs;
      OutstandingPerComms(s, cs - {a});
      assert CommOk(s, a);
      OutstandingOfOne(s, a);
      assert OutstandingOf(s.lib, cs) == OutstandingOf(s.lib, {a}) + OutstandingOf(s.lib, cs - {a});
    }
  }

  /** At most NUM_REQUESTS requests per comm of an endpoint are outstanding. */
  lemma OutstandingBound(s: Proc, ep: Ep)
    requires Inv(s)
    ensures |Outstanding(s.lib, ep)| <= NUM_REQUESTS * |CommsOn(s, ep)|
  {
    var cs := CommsOn(s, ep);
    OutstandingPerComms(s, cs);
    forall p ensures p in Outstanding(s.lib, ep) <==> p in OutstandingOf(s.lib, cs) {
      assert PostOk(s, p);
    }
    assert Outstanding(s.lib, ep) == OutstandingOf(s.lib, cs);
  }

  // ------------------------------------------------- the loop's invariant

  /** `cur` is the loop's state: of what the network did since `s`, the
      completions in `taken` have been taken off the queue of `ep`. */
  ghost predicate Draining(s: Proc, ep: Ep, seen: seq<NetEvent>, taken: set<nat>, completed: nat, cur: Proc) {
    && Inv(cur) && cur.lib.mqs == s.lib.mqs
    && taken <= Ready(NetAll(s.lib, seen), ep)
    && cur == Drain(s.(lib := NetAll(s.lib, seen)), taken)
    && completed + |Outstanding(cur.lib, ep)| <= |Outstanding(s.lib, ep)|
  }

  lemma DrainNothing(s: Proc)
    ensures Drain(s, {}) == s
  {
    var d := Drain(s, {});
    forall a | a in s.comms ensures d.comms[a] == s.comms[a] {
      assert d.comms[a].requests == s.comms[a].requests;
    }
    assert d.comms == s.comms && d.lib.posts == s.lib.posts;
  }

  lemma DrainingStart(s: Proc, ep: Ep)
    requires Inv(s)
    ensures Draining(s, ep, [], {}, 0, s)
  {
    DrainNothing(s);
    assert s.(lib := NetAll(s.lib, [])) == s;
  }

  lemma DrainingNet(s: Proc, ep: Ep, seen: seq<NetEvent>, taken: set<nat>, completed: nat, cur: Proc,
                    more: seq<NetEvent>)
    requires Draining(s, ep, seen, taken, completed, cur)
    ensures Draining(s, ep, seen + more, taken, completed, cur.(lib := NetAll(cur.lib, more)))
    ensures Outstanding(NetAll(cur.lib, more), ep) == Outstanding(cur.lib, ep)
  {
    var l := NetAll(s.lib, seen);
    NetAllInv(cur, more);
    NetAllAppend(s.lib, seen, more);
    NetThenDrain(s.(lib := l), taken, more);
    NetKeepsOutstanding(cur.lib, more, ep);
    NetKeepsOutstanding(l, more, ep);
    assert taken <= Outstanding(l, ep);
  }

  lemma {:induction false} DrainingTake(s: Proc, ep: Ep, seen: seq<NetEvent>, taken: set<nat>, completed: nat,
                                        cur: Proc, p: nat)
    requires Draining(s, ep, seen, taken, completed, cur) && p in Ready(cur.lib, ep)
    ensures Draining(s, ep, seen, taken + {p}, completed + 1, Drain(cur, {p}))
    ensures |Outstanding(Drain(cur, {p}).lib, ep)| < |Outstanding(cur.lib, ep)|
  {
    DrainInv(cur, {p});
    DrainTwice(s.(lib := NetAll(s.lib, seen)), taken, {p});
    assert Outstanding(Drain(cur, {p}).lib, ep) == Outstanding(cur.lib, ep) - {p};
  }

  lemma DrainingEnd(s: Proc, ep: Ep, seen: seq<NetEvent>, taken: set<nat>, completed: nat, cur: Proc)
    requires Inv(s) && Draining(s, ep, seen, taken, completed, cur) && Ready(cur.lib, ep) == {}
    ensures cur == DrainQueue(s.(lib := NetAll(s.lib, seen)), ep)
    ensures completed <= NUM_REQUESTS * |CommsOn(s, ep)|
  {
    var l := NetAll(s.lib, seen);
    forall p | p in Ready(l, ep) ensures p in taken {
      assert p in taken || p in Ready(Retire(l, taken), ep);
    }
    assert taken == Ready(l, ep);
    OutstandingBound(s, ep);
  }

  lemma {:induction false} DrainingTurn(s: Proc, ep: Ep, seen: seq<NetEvent>, taken: set<nat>, completed: nat,
                                        cur: Proc, more: seq<NetEvent>, p: Option<nat>, r: Proc)
    requires Inv(s) && Draining(s, ep, seen, taken, completed, cur)
    requires
      var t := cur.(lib := NetAll(cur.lib, more));
      if p.None? then r == t && Ready(t.lib, ep) == {}
      else p.value in Ready(t.lib, ep) && r == Drain(t, {p.value})
    ensures p.Some? ==>
      && Draining(s, ep, seen + more, taken + {p.value}, completed + 1, r)
      && |Outstanding(r.lib, ep)| < |Outstanding(cur.lib, ep)|
    ensures p.None? ==>
      && Inv(r) && r == DrainQueue(s.(lib := NetAll(s.lib, seen + more)), ep)
      && completed <= NUM_REQUESTS * |CommsOn(s, ep)|
  {
    var t := cur.(lib := NetAll(cur.lib, more));
    DrainingNet(s, ep, seen, taken, completed, cur, more);
    if p.None? {
      DrainingEnd(s, ep, seen + more, taken, completed, t);
    } else {
      DrainingTake(s, ep, seen + more, taken, completed, t, p.value);
    }
  }
}
