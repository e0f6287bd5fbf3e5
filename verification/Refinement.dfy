/** The slot arrays, their flags and the library's queues refine the ledger. */
module Refinement {
  import opened Types
  import opened Psm2
  import opened Plugin
  import opened Invariants
  import opened Progress
  import opened Runs
  import opened Ledgers

  // ------------------------------------------------------ the abstraction

  function Used(s: Proc): set<ReqPtr> {
    set a, i | a in s.comms && 0 <= i < |s.comms[a].requests| && s.comms[a].requests[i].used :: ReqPtr(a, i)
  }

  lemma UsedIs(s: Proc, x: ReqPtr)
    ensures x in Used(s) <==> Live(s, x) && At(s, x).used
  {
    if Live(s, x) && At(s, x).used {
      assert s.comms[x.comm].requests[x.idx].used;
    }
  }

  /** The entry a used slot stands for: a slot marked done knows its size, one
      that is not has it at the library if at all. */
  ghost function EntryOf(s: Proc, x: ReqPtr): Entry
    requires Live(s, x) && (!At(s, x).done ==> At(s, x).req in s.lib.posts)
  {
    var sl := At(s, x);
    Entry(x, sl.kind,
          if sl.done then Some(sl.recvSize)
          else match s.lib.posts[sl.req].comp
            case None => None
            case Some(n) => Some(Sized(sl.kind, n)))
  }

  /** `x` is the slot that holds posting `p`. */
  ghost predicate Holds(s: Proc, x: ReqPtr, p: nat) {
    Live(s, x) && At(s, x).used && At(s, x).req == p
  }

  lemma OneHolder(s: Proc, x: ReqPtr, y: ReqPtr, p: nat)
    requires ReqInv(s) && Holds(s, x, p) && Holds(s, y, p)
    ensures x == y
  {
    assert Unshared(s, x, y);
  }

  ghost function Holder(s: Proc, p: nat): (x: ReqPtr)
    requires exists y :: Holds(s, y, p)
    ensures Holds(s, x, p)
  {
    var y :| Holds(s, y, p); y
  }

  ghost function Held(s: Proc): (ps: set<nat>)
    ensures forall p :: p in ps <==> exists x :: Holds(s, x, p)
  {
    var ps := set x | x in Used(s) :: (UsedIs(s, x); At(s, x).req);
    assert forall p :: p in ps <==> exists x :: Holds(s, x, p) by {
      forall p | p in ps ensures exists x :: Holds(s, x, p) {
        var x :| x in Used(s) && (UsedIs(s, x); At(s, x).req) == p;
        UsedIs(s, x);
        assert Holds(s, x, p);
      }
      forall x, p | Holds(s, x, p) ensures p in ps { UsedIs(s, x); }
    }
    ps
  }

  /** What the slots and the library of a process mean. */
  ghost function Abs(s: Proc): Ledger
    requires ReqInv(s)
  {
    map p | p in Held(s) :: (assert SlotOk(s, Holder(s, p)); EntryOf(s, Holder(s, p)))
  }

  /** `l` is the ledger of `s` at posting `p`. */
  ghost predicate AbsAt(s: Proc, l: Ledger, p: nat)
    requires ReqInv(s)
  {
    if p in l then Holds(s, l[p].ctx, p) && (assert SlotOk(s, l[p].ctx); l[p] == EntryOf(s, l[p].ctx))
    else forall x :: !Holds(s, x, p)
  }

  lemma AbsIs(s: Proc, l: Ledger)
    requires ReqInv(s)
    ensures (forall p :: AbsAt(s, l, p)) <==> l == Abs(s)
  {
    if forall p :: AbsAt(s, l, p) {
      forall p ensures p in l <==> p in Abs(s) {
        assert AbsAt(s, l, p);
      }
      forall p | p in l ensures l[p] == Abs(s)[p] {
        assert AbsAt(s, l, p);
        OneHolder(s, l[p].ctx, Holder(s, p), p);
      }
    }
    forall p ensures AbsAt(s, Abs(s), p) {
    }
  }

  /** A used slot and the entry it stands for. */
  lemma AbsOfSlot(s: Proc, x: ReqPtr)
    requires ReqInv(s) && Live(s, x) && At(s, x).used
    ensures SlotOk(s, x) && At(s, x).req in Abs(s) && Abs(s)[At(s, x).req] == EntryOf(s, x)
  {
    assert SlotOk(s, x);
    var p := At(s, x).req;
    assert Holds(s, x, p);
    OneHolder(s, x, Holder(s, p), p);
  }

  // ---------------------------------------------------- a bounded ledger

  function UsedIn(s: Proc, a: Addr): set<nat> {
    set i: nat | a in s.comms && i < |s.comms[a].requests| && s.comms[a].requests[i].used
  }

  /** Slots in use and unreported postings of a comm are equally many. */
  lemma UsedCount(s: Proc, a: Addr)
    requires Inv(s) && a in s.comms
    ensures |UsedIn(s, a)| == |Of(Abs(s), a)| <= NUM_REQUESTS
  {
    var l, ps := Abs(s), Of(Abs(s), a);
    AbsIs(s, l);
    var f := (p: nat) => if p in l then l[p].ctx.idx else 0;
    forall p, q | p in ps && q in ps && f(p) == f(q) ensures p == q {
      assert AbsAt(s, l, p) && AbsAt(s, l, q);
    }
    forall i: nat ensures i in Image(ps, f) <==> i in UsedIn(s, a) {
      if i in UsedIn(s, a) {
        AbsOfSlot(s, ReqPtr(a, i));
        var p := At(s, ReqPtr(a, i)).req;
        assert p in ps && f(p) == i;
      }
      if i in Image(ps, f) {
        var p :| p in ps && f(p) == i;
        assert AbsAt(s, l, p);
      }
    }
    assert Image(ps, f) == UsedIn(s, a);
    ImageCard(ps, f);
    assert CommOk(s, a);
    SubsetCard(UsedIn(s, a), Below(NUM_REQUESTS));
  }

  lemma UsedIsOf(s: Proc, a: Addr)
    requires Inv(s)
    ensures |UsedIn(s, a)| == |Of(Abs(s), a)|
  {
    if a in s.comms {
      UsedCount(s, a);
    } else {
      var l := Abs(s);
      AbsIs(s, l);
      forall p ensures p !in Of(l, a) { assert AbsAt(s, l, p); }
      assert Of(l, a) == {} == UsedIn(s, a);
    }
  }

  /** A comm all of whose requests have been reported can be closed. */
  lemma ReportedIsIdle(s: Proc, a: Addr)
    requires Inv(s) && a in s.comms && Of(Abs(s), a) == {}
    ensures Idle(s, a)
  {
    UsedIsOf(s, a);
    assert UsedIn(s, a) == {};
    forall i | 0 <= i < |s.comms[a].requests| ensures !s.comms[a].requests[i].used { assert i !in UsedIn(s, a); }
    CloseNeedsIdle(s, a);
  }

  lemma AllUsedIffFull(s: Proc, a: Addr)
    requires a in s.comms && |s.comms[a].requests| == NUM_REQUESTS
    ensures FirstFree(s.comms[a].requests) == NUM_REQUESTS <==> |UsedIn(s, a)| == NUM_REQUESTS
  {
    var i := FirstFree(s.comms[a].requests);
    SubsetCard(UsedIn(s, a), Below(NUM_REQUESTS));
    if i == NUM_REQUESTS {
      assert UsedIn(s, a) == Below(NUM_REQUESTS);
    } else {
      assert i !in UsedIn(s, a) && i in Below(NUM_REQUESTS);
    }
  }

  /** The scan finds no slot exactly when 32 postings are unreported. */
  lemma FullIffAllUsed(s: Proc, a: Addr)
    requires Inv(s) && a in s.comms
    ensures FirstFree(s.comms[a].requests) == |s.comms[a].requests| <==> |Of(Abs(s), a)| == NUM_REQUESTS
  {
    UsedCount(s, a);
    assert CommOk(s, a);
    AllUsedIffFull(s, a);
  }

  // ------------------------------------------------- each call, refined

  /** isend and irecv. A NULL request with success means exactly that 32
      postings are unreported; a library failure changes nothing at all; and
      otherwise a new posting enters, under a pointer no other one has. */
  lemma PostRefines(s: Proc, a: Addr, kind: ReqType, len: nat, env: PostEnv)
    requires Inv(s) && a in s.comms && !kind.NoType? && len <= INT_MAX
    ensures ReqInv(Post(s, a, kind, len, env).0)
    ensures
      var (r, out) := Post(s, a, kind, len, env);
      && (out == PostOut(NcclSuccess, None) <==> |Of(Abs(s), a)| == NUM_REQUESTS)
      && (out == PostOut(NcclInternalError, None) <==> |Of(Abs(s), a)| < NUM_REQUESTS && env.rc.Failed?)
      && (out.rc.NcclInternalError? <==> |Of(Abs(s), a)| < NUM_REQUESTS && env.rc.Failed?)
      && (out.req.Some? <==> |Of(Abs(s), a)| < NUM_REQUESTS && env.rc.Ok?)
      && (out.req.None? ==> r == s)
      && (out.req.Some? ==>
            && out.req.value.comm == a && s.lib.nextPost !in Abs(s)
            && (forall p :: p in Abs(s) ==> Abs(s)[p].ctx != out.req.value)
            && Abs(r) == Abs(s)[s.lib.nextPost := Entry(out.req.value, kind, None)])
  {
    PostedInv(s, a, kind, len, env);
    FullIffAllUsed(s, a);
    UsedCount(s, a);
    var (r, out) := Post(s, a, kind, len, env);
    if out.req.Some? {
      var x0, l := out.req.value, Abs(s);
      var m := l[s.lib.nextPost := Entry(x0, kind, None)];
      AbsIs(s, l);
      forall p | p in l ensures l[p].ctx != x0 { assert AbsAt(s, l, p); }
      forall x ensures !Holds(s, x, s.lib.nextPost) { assert SlotOk(s, x); }
      assert AbsAt(s, l, s.lib.nextPost);
      forall p ensures AbsAt(r, m, p) { PostedAbsAt(s, a, kind, len, env, p); }
      AbsIs(r, m);
    }
  }

  lemma PostedAbsAt(s: Proc, a: Addr, kind: ReqType, len: nat, env: PostEnv, p: nat)
    requires ReqInv(s) && a in s.comms && Posts(s, a, env)
    requires ReqInv(Post(s, a, kind, len, env).0)
    ensures
      var (r, out) := Post(s, a, kind, len, env);
      AbsAt(r, Abs(s)[s.lib.nextPost := Entry(out.req.value, kind, None)], p)
  {
    var (r, out) := Post(s, a, kind, len, env);
    AbsIs(s, Abs(s));
    assert AbsAt(s, Abs(s), p);
    forall x ensures Holds(r, x, p) <==> Holds(s, x, p) || (x == out.req.value && p == s.lib.nextPost) {
      PostedHolds(s, a, kind, len, env, x, p);
    }
  }

  lemma PostedHolds(s: Proc, a: Addr, kind: ReqType, len: nat, env: PostEnv, x: ReqPtr, p: nat)
    requires a in s.comms && Posts(s, a, env) && SlotOk(s, x)
    ensures
      var (r, out) := Post(s, a, kind, len, env);
      Holds(r, x, p) <==> Holds(s, x, p) || (x == out.req.value && p == s.lib.nextPost)
  {
  }

  lemma NetRefines(s: Proc, e: NetEvent)
    requires Inv(s)
    ensures ReqInv(s.(lib := Net(s.lib, e)))
    ensures Abs(s.(lib := Net(s.lib, e))) ==
            if NetEnabled(s.lib, e) then After(Abs(s), Completes(e.post, e.nbytes)) else Abs(s)
    ensures NetEnabled(s.lib, e) ==> e.post in Abs(s) && Abs(s)[e.post].size.None?
  {
    NetInv(s, e);
    var r, l := s.(lib := Net(s.lib, e)), Abs(s);
    AbsIs(s, l);
    if NetEnabled(s.lib, e) {
      assert PostOk(s, e.post);
      AbsOfSlot(s, s.lib.posts[e.post].ctx);
      var m := After(l, Completes(e.post, e.nbytes));
      forall p ensures AbsAt(r, m, p) {
        assert AbsAt(s, l, p);
        assert forall x :: Holds(r, x, p) <==> Holds(s, x, p);
        if p in l { assert SlotOk(s, l[p].ctx); }
      }
      AbsIs(r, m);
    }
  }

  /** Moving completions from the library's queue into slots means nothing. */
  lemma {:induction false} DrainRefines(s: Proc, ps: set<nat>)
    requires Inv(s) && AllComplete(s.lib, ps)
    ensures ReqInv(Drain(s, ps)) && Abs(Drain(s, ps)) == Abs(s)
  {
    DrainInv(s, ps);
    var r, l := Drain(s, ps), Abs(s);
    AbsIs(s, l);
    forall p ensures AbsAt(r, l, p) {
      assert AbsAt(s, l, p);
      assert forall x :: Holds(r, x, p) <==> Holds(s, x, p);
      if p in l {
        assert SlotOk(s, l[p].ctx) && PostOk(s, p);
      }
    }
    AbsIs(r, l);
  }

  lemma {:induction false} FreeRefines(s: Proc, x0: ReqPtr)
    requires Inv(s) && Live(s, x0) && At(s, x0).done
    ensures ReqInv(SetSlot(s, x0, FREE)) && SlotOk(s, x0)
    ensures Abs(SetSlot(s, x0, FREE)) == Abs(s) - {At(s, x0).req}
  {
    FreeSlotInv(s, x0);
    assert SlotOk(s, x0);
    var r, l, p0 := SetSlot(s, x0, FREE), Abs(s), At(s, x0).req;
    var m := l - {p0};
    AbsIs(s, l);
    forall p ensures AbsAt(r, m, p) {
      assert AbsAt(s, l, p);
      forall x ensures Holds(r, x, p) <==> Holds(s, x, p) && p != p0 {
        if Holds(s, x, p) && p == p0 { OneHolder(s, x, x0, p); }
      }
      if p in m { assert SlotOk(s, l[p].ctx); }
    }
    AbsIs(r, m);
  }

  /** test. Of a slot in use it reports the very posting the slot holds: done
      exactly if that posting is complete - wherever the completion waits and
      whichever test drained it - with its own size, and then the posting is
      gone. Otherwise nothing changes. */
  lemma TestRefines(s: Proc, x: ReqPtr)
    requires Inv(s) && Live(s, x)
    ensures ReqInv(Test(s, x).0)
    ensures !At(s, x).used ==> Test(s, x) == (s, TestOut(NcclInternalError, false, None))
    ensures At(s, x).used ==>
      var p := At(s, x).req;
      var (r, out) := Test(s, x);
      && p in Abs(s) && Abs(s)[p].ctx == x && out.rc.NcclSuccess?
      && (out.done <==> Abs(s)[p].size.Some?)
      && Abs(r) == (if out.done then Abs(s) - {p} else Abs(s))
      && out.size == (if out.done && Abs(s)[p].kind.ReqRecv? then Abs(s)[p].size else None)
  {
    TestInv(s, x);
    if At(s, x).used {
      var ps := Ready(s.lib, s.comms[x.comm].ep);
      var d := Drain(s, ps);
      AbsOfSlot(s, x);
      assert PostOk(s, At(s, x).req);
      DrainInv(s, ps);
      DrainRefines(s, ps);
      AbsOfSlot(d, x);
      if At(d, x).done { FreeRefines(d, x); }
    }
  }

  /** Closing a comm forgets its postings, all of them complete. */
  lemma CloseRefines(s: Proc, a: Addr)
    requires ReqInv(s) && Releasable(s, a) && Idle(s, a)
    ensures ReqInv(Release(s, a))
    ensures Abs(Release(s, a)) == Abs(s) - Of(Abs(s), a)
    ensures forall p :: p in Of(Abs(s), a) ==> Abs(s)[p].size.Some?
  {
    ReleasedReqInv(s, a);
    var r, l := Release(s, a), Abs(s);
    var m := l - Of(l, a);
    AbsIs(s, l);
    forall p ensures AbsAt(r, m, p) && (p in Of(l, a) ==> l[p].size.Some?) {
      assert AbsAt(s, l, p);
      forall x ensures Holds(r, x, p) <==> Holds(s, x, p) && x.comm != a { }
      if p in l {
        assert SlotOk(s, l[p].ctx);
        forall x | Holds(s, x, p) ensures x == l[p].ctx { OneHolder(s, x, l[p].ctx, p); }
      }
    }
    AbsIs(r, m);
  }

  /** Creating comms, or failing to, means nothing. */
  lemma {:induction false} SameSlotsRefine(s: Proc, r: Proc)
    requires ReqInv(s) && ReqInv(r) && r.lib.posts == s.lib.posts
    requires forall x :: Live(s, x) ==> Live(r, x) && At(r, x) == At(s, x)
    requires forall x :: Live(r, x) && At(r, x).used ==> Live(s, x)
    ensures Abs(r) == Abs(s)
  {
    var l := Abs(s);
    AbsIs(s, l);
    forall p ensures AbsAt(r, l, p) {
      assert AbsAt(s, l, p);
      assert forall x :: Holds(r, x, p) <==> Holds(s, x, p);
      if p in l { assert SlotOk(s, l[p].ctx); }
    }
    AbsIs(r, l);
  }

  // ------------------------------------------------------- any call at all

  /** What a call means to the ledger. */
  function EffectOf(s: Proc, c: Call): Effect {
    match c
    case IsendCall(a, size, env) => PostEffect(s, a, ReqSend, size, env)
    case IrecvCall(a, size, env) => PostEffect(s, a, ReqRecv, size, env)
    case TestCall(x) => TestEffect(s, x)
    case CloseCall(a) => Forgets(a)
    case NetworkActs(e) => if NetEnabled(s.lib, e) then Completes(e.post, e.nbytes) else NoEffect
    case _ => NoEffect
  }

  function PostEffect(s: Proc, a: Addr, kind: ReqType, size: nat, env: PostEnv): Effect {
    if a in s.comms && Post(s, a, kind, size, env).1.req.Some?
    then Enters(s.lib.nextPost, Post(s, a, kind, size, env).1.req.value, kind)
    else NoEffect
  }

  function TestEffect(s: Proc, x: ReqPtr): Effect {
    if Live(s, x) && Test(s, x).1.done
    then Leaves(At(s, x).req, x, Test(s, x).1.size)
    else NoEffect
  }

  /** Every call is a step of the ledger, with the results the ledger says. */
  lemma NextRefines(s: Proc, c: Call, t: Proc)
    requires Inv(s) && Next(s, c, t)
    ensures Inv(t) && EffectOk(Abs(s), s.lib.nextPost, EffectOf(s, c))
    ensures Abs(t) == After(Abs(s), EffectOf(s, c))
    ensures t.lib.nextPost == s.lib.nextPost + (if EffectOf(s, c).Enters? then 1 else 0)
  {
    NextInv(s, c, t);
    NumbersIssued(s);
    match c
    case ListenCall(dev, env) => CreateRefines(s, c, t);
    case ConnectCall(dev, h, env, conn) => CreateRefines(s, c, t);
    case IsendCall(a, size, env) => PostStep(s, a, ReqSend, size, env);
    case IrecvCall(a, size, env) => PostStep(s, a, ReqRecv, size, env);
    case TestCall(x) => TestRefines(s, x);
    case CloseCall(a) => CloseRefines(s, a);
    case NetworkActs(e) => NetRefines(s, e);
    case AcceptCall(_) =>
    case CloseListenCall(_) =>
  }

  lemma PostStep(s: Proc, a: Addr, kind: ReqType, size: nat, env: PostEnv)
    requires Inv(s) && a in s.comms && !kind.NoType? && size <= INT_MAX
    ensures
      var (t, e) := (Post(s, a, kind, size, env).0, PostEffect(s, a, kind, size, env));
      && ReqInv(t) && EffectOk(Abs(s), s.lib.nextPost, e) && Abs(t) == After(Abs(s), e)
      && t.lib.nextPost == s.lib.nextPost + (if e.Enters? then 1 else 0)
  {
    NumbersIssued(s);
    PostRefines(s, a, kind, size, env);
    UsedCount(s, a);
  }

  lemma NumbersIssued(s: Proc)
    requires ReqInv(s)
    ensures forall p :: p in Abs(s) ==> p < s.lib.nextPost
  {
    AbsIs(s, Abs(s));
    forall p | p in Abs(s) ensures p < s.lib.nextPost {
      assert AbsAt(s, Abs(s), p) && SlotOk(s, Abs(s)[p].ctx);
    }
  }

  lemma {:induction false} CreateRefines(s: Proc, c: Call, t: Proc)
    requires Inv(s) && Inv(t) && Next(s, c, t) && (c.ListenCall? || c.ConnectCall?)
    ensures Abs(t) == Abs(s) && t.lib.nextPost == s.lib.nextPost
  {
    CreateKeepsOthers(s, c, t);
    SameSlotsRefine(s, t);
  }

  lemma InitialLedger(cfg: Config, me: nat)
    ensures ReqInv(Initial(cfg, me)) && Abs(Initial(cfg, me)) == map[]
  {
    InitialInv(cfg, me);
    AbsIs(Initial(cfg, me), map[]);
  }

  function FlyingOf(s: Proc, a: Addr): set<nat> {
    set p | p in s.lib.posts && s.lib.posts[p].ctx.comm == a && s.lib.posts[p].comp.None?
  }

  function QueuedOf(s: Proc, a: Addr): set<nat> {
    set p | p in s.lib.posts && s.lib.posts[p].ctx.comm == a && s.lib.posts[p].comp.Some?
  }

  function MarkedIn(s: Proc, a: Addr): set<nat> {
    set i: nat | a in s.comms && i < |s.comms[a].requests| && s.comms[a].requests[i].done
  }

  /** Slots in use are the requests in flight, those waiting completed in the
      library's queue, and those marked done. */
  lemma SlotsInUse(s: Proc, a: Addr)
    requires ReqInv(s) && a in s.comms
    ensures |UsedIn(s, a)| == |FlyingOf(s, a)| + |QueuedOf(s, a)| + |MarkedIn(s, a)|
  {
    var l, out := s.lib, FlyingOf(s, a) + QueuedOf(s, a);
    var f := (p: nat) => IndexOf(l, p);
    forall p, q | p in out && q in out && f(p) == f(q) ensures p == q { SameSlotSamePost(s, p, q); }
    ImageCard(out, f);
    forall i: nat ensures i in UsedIn(s, a) <==> i in Image(out, f) || i in MarkedIn(s, a) {
      OutOrMarked(s, a, i, out, f);
    }
    forall i: nat ensures !(i in Image(out, f) && i in MarkedIn(s, a)) {
      OutOrMarked(s, a, i, out, f);
    }
    assert UsedIn(s, a) == Image(out, f) + MarkedIn(s, a);
    assert Image(out, f) !! MarkedIn(s, a) && FlyingOf(s, a) !! QueuedOf(s, a);
  }

  lemma OutOrMarked(s: Proc, a: Addr, i: nat, out: set<nat>, f: nat -> nat)
    requires ReqInv(s) && a in s.comms && out == FlyingOf(s, a) + QueuedOf(s, a)
    requires forall p :: p in out ==> f(p) == IndexOf(s.lib, p)
    ensures i in UsedIn(s, a) <==> i in Image(out, f) || i in MarkedIn(s, a)
    ensures !(i in Image(out, f) && i in MarkedIn(s, a))
  {
    assert SlotOk(s, ReqPtr(a, i));
    if i in UsedIn(s, a) && i !in MarkedIn(s, a) {
      var p := s.comms[a].requests[i].req;
      assert p in out && f(p) == i;
    }
    forall p | p in out && f(p) == i ensures i in UsedIn(s, a) && i !in MarkedIn(s, a) { assert PostOk(s, p); }
  }
}
