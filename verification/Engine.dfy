/** psm2_nccl_api.c in its own form: comms on a heap, globals updated in place,
    a scan for a free slot, a loop over the completion queue. Every method is
    proved to have the effect that Plugin gives to its call. */
module Engine {
  import opened Types
  import opened Psm2
  import opened Plugin
  import opened Invariants
  import opened Progress
  import Runs

  /** psm2comm_t as calloc leaves it, with its slot array. */
  class Comm {
    var ep: Ep
    var epid: Epid
    var mq: Mq
    var sharedRef: bool
    var remEpid: Epid
    var remAddr: Option<Epid>
    var tag: nat
    const requests: array<Slot>

    constructor ()
      ensures fresh(requests)
      ensures View() == BlankComm()
    {
      ep, epid, mq, sharedRef := NULL, NO_EPID, NULL, false;
      remEpid, remAddr, tag := NO_EPID, None, 0;
      requests := new Slot[NUM_REQUESTS](_ => FREE);
    }

    ghost function View(): CommRec
      reads this, requests
    {
      CommRec(ep, epid, mq, sharedRef, remEpid, remAddr, tag, requests[..])
    }

    /** get_req; `self` is the comm's own address. */
    method GetReq(self: Addr, kind: ReqType) returns (r: Option<nat>)
      modifies requests
      ensures r == (if FirstFree(old(requests[..])) < requests.Length then Some(FirstFree(old(requests[..]))) else None)
      ensures r.None? ==> requests[..] == old(requests[..])
      ensures r.Some? ==>
        requests[..] == old(requests[..])[r.value := Slot(true, self, ep, mq, 0, kind, false, 0)]
    {
      r := None;
      for i := 0 to requests.Length
        invariant r.None? && requests[..] == old(requests[..])
        invariant forall k :: 0 <= k < i ==> requests[..][k].used
      {
        if !requests[i].used {
          r := Some(i);
          assert !requests[..][i].used;
          break;
        }
      }
      if r.None? {
        return;
      }
      requests[r.value] := FREE;
      requests[r.value] := requests[r.value].(kind := kind);
      requests[r.value] := requests[r.value].(used := true);
      requests[r.value] := requests[r.value].(comm := self);
      requests[r.value] := requests[r.value].(ep := ep);
      requests[r.value] := requests[r.value].(mq := mq);
    }

    /** put_req */
    method PutReq(i: nat)
      requires i < requests.Length
      modifies requests
      ensures requests[..] == old(requests[..])[i := FREE]
    {
      requests[i] := FREE;
    }
  }

  /** One process: the static variables of psm2_nccl_api.c, the comms it has
      allocated, and the library it talks to. `comms` shadows the comms on the
      heap as values. */
  class Process {
    const cfg: Config
    const me: nat
    var sharedEp: SharedEp
    var nextTag: nat
    var heap: map<Addr, Comm>
    var lib: Lib
    ghost var comms: map<Addr, CommRec>

    constructor (cfg: Config, me: nat)
      ensures Valid() && View() == Initial(cfg, me) && Inv(View())
    {
      this.cfg, this.me := cfg, me;
      sharedEp, nextTag, heap, lib, comms := NO_SHARED, 0, map[], INITIAL, map[];
      new;
      InitialInv(cfg, me);
    }

    ghost function Slots(): set<object> reads `heap { set a | a in heap :: heap[a].requests }

    /** Distinct addresses are distinct objects with distinct slot arrays. */
    ghost predicate Separate(a: Addr, b: Addr)
      reads `heap
    {
      a in heap && b in heap && a != b ==> heap[a] != heap[b] && heap[a].requests != heap[b].requests
    }

    ghost predicate Layout()
      reads `heap
    {
      forall a, b :: Separate(a, b)
    }

    ghost predicate Coupled(a: Addr)
      reads this, heap.Values, Slots()
    {
      if a in heap then a in comms && heap[a].View() == comms[a] else a !in comms
    }

    ghost predicate Valid()
      reads this, heap.Values, Slots()
    {
      Layout() && forall a :: Coupled(a)
    }

    ghost function View(): Proc
      reads this
    {
      Proc(cfg, me, sharedEp, nextTag, comms, lib)
    }

    // ---------------------------------------------------------- endpoints

    /** psm2comm_init_ep */
    method InitEp(dev: int, env: InitEnv, comm: Comm) returns (rc: NcclResult)
      requires SharedUsable(View())
      modifies this`sharedEp, this`lib, comm`ep, comm`epid, comm`sharedRef
      ensures rc.NcclSuccess? <==> EpGranted(old(View()), dev, env)
      ensures rc.NcclSuccess? ==>
        && sharedEp == GrantShared(old(View()), dev, env) && lib == GrantLib(old(View()), dev, env)
        && comm.ep == GrantedEp(old(View())) && comm.epid == GrantedEpid(old(View()), env)
        && (comm.sharedRef <==> cfg.useShared || old(comm.sharedRef))
      ensures rc.NcclInternalError? ==>
        sharedEp == old(sharedEp) && lib == old(lib) && unchanged(comm)
    {
      if cfg.useDev && cfg.useShared && sharedEp.refcount != 0 && sharedEp.unit != dev {
        match cfg.policy
        case MultiError => return NcclInternalError;
        case MultiWarn =>
      }
      var ep: Ep, epid: Epid;
      if !cfg.useShared || sharedEp.refcount == 0 {
        if env.opts.Failed? {
          return NcclInternalError;
        }
        var unit: Option<int> := None;
        if cfg.useDev {
          unit := Some(dev);
        }
        if env.open.Failed? {
          return NcclInternalError;
        }
        ep, epid := lib.nextEp, Epid(me, env.inst);
        lib := EpOpen(lib, EpInfo(epid, unit));
        if cfg.useShared {
          sharedEp := sharedEp.(ep := ep);
          sharedEp := sharedEp.(epid := epid);
          if cfg.useDev {
            sharedEp := sharedEp.(unit := dev);
          }
        }
      } else {
        ep, epid := sharedEp.ep, sharedEp.epid;
      }
      comm.ep := ep;
      comm.epid := epid;
      if cfg.useShared {
        comm.sharedRef := true;
        sharedEp := sharedEp.(refcount := sharedEp.refcount + 1);
      }
      return NcclSuccess;
    }

    /** psm2comm_fini: finalize the MQ, give up the reference, close the
        endpoint with the last one, free the comm. */
    method Fini(a: Addr, mqrc: Rc, eprc: Rc) returns (rc: NcclResult)
      requires Valid() && Releasable(View(), a) && a in heap
      modifies this`sharedEp, this`lib, this`heap, this`comms, heap[a]
      ensures Valid() && View() == Release(old(View()), a)
      ensures heap == old(heap) - {a}
      ensures rc == (if (old(comms[a].mq) != NULL ==> mqrc.Ok?) &&
                        (old(comms[a].ep) != NULL && LastRef(old(View()), a) ==> eprc.Ok?)
                     then NcclSuccess else NcclInternalError)
    {
      assert Coupled(a);
      var comm := heap[a];
      var mqOk, epOk := true, true;
      if comm.mq != NULL {
        mqOk := mqrc.Ok?;
        lib := MqFinalize(lib, comm.mq);
        comm.mq := NULL;
      }
      if comm.sharedRef {
        sharedEp := sharedEp.(refcount := sharedEp.refcount - 1);
      }
      if comm.ep != NULL && (!comm.sharedRef || sharedEp.refcount == 0) {
        epOk := eprc.Ok?;
        lib := EpClose(lib, comm.ep);
        if comm.sharedRef {
          sharedEp := NO_SHARED;
        }
      }
      heap := heap - {a};
      comms := comms - {a};
      forall b ensures Coupled(b) { assert old(Coupled(b)) && old(Separate(a, b)); }
      forall b, c ensures Separate(b, c) { assert old(Separate(b, c)); }
      return if mqOk && epOk then NcclSuccess else NcclInternalError;
    }

    /** calloc: a zeroed comm at an address not in use. */
    method Calloc(a: Addr) returns (c: Comm)
      requires Valid() && a !in heap
      modifies this`heap, this`comms
      ensures Valid() && fresh(c) && fresh(c.requests) && heap == old(heap)[a := c]
      ensures comms == old(comms)[a := c.View()]
      ensures c.View() == BlankComm()
    {
      c := new Comm();
      heap := heap[a := c];
      comms := comms[a := c.View()];
      forall b ensures Coupled(b) { assert old(Coupled(b)); }
      forall b, d ensures Separate(b, d) { assert old(Separate(b, d)); }
    }

    /** Bring the shadow of `a` up to date with its fields. */
    ghost method Sync(a: Addr)
      requires a in heap && a in comms
      requires Layout() && forall b :: b == a || Coupled(b)
      modifies this`comms
      ensures Valid() && comms == old(comms)[a := heap[a].View()]
    {
      comms := comms[a := heap[a].View()];
      forall b ensures Coupled(b) { assert b == a || old(Coupled(b)); }
    }

    /** psm2comm_init up to its error path: calloc, the endpoint, the MQ. */
    method SetUp(dev: int, env: InitEnv) returns (rc: NcclResult)
      requires Valid() && SharedUsable(View()) && env.addr !in heap
      modifies this`sharedEp, this`lib, this`heap, this`comms
      ensures Valid() && env.addr in heap && fresh(heap[env.addr]) && fresh(heap[env.addr].requests)
      ensures IsSetUp(old(View()), dev, env, View())
      ensures rc.NcclSuccess? <==> EpGranted(old(View()), dev, env) && env.mq.Ok?
    {
      ghost var s := View();
      var c := Calloc(env.addr);
      ghost var s0 := View();
      label zeroed:
      rc := InitEp(dev, env, c);
      if rc.NcclSuccess? {
        if env.mq.Ok? {
          c.mq := lib.nextMq;
          lib := MqInit(lib, c.ep);
        } else {
          rc := NcclInternalError;
        }
      }
      forall b ensures b == env.addr || Coupled(b) { assert old@zeroed(Coupled(b) && Separate(env.addr, b)); }
      Sync(env.addr);
      SetUpDone(s, s0, dev, env, View());
    }

    /** psm2comm_init; `*comm` is NULL unless the call succeeds. */
    method Init(dev: int, env: InitEnv, mqrc: Rc, eprc: Rc) returns (rc: NcclResult, comm: Addr)
      requires Valid() && EpInv(View()) && FreshAddr(View(), env)
      modifies this`sharedEp, this`lib, this`heap, this`comms
      ensures Valid() && SharedUsable(old(View())) && View() == Create(old(View()), dev, env)
      ensures if Creates(old(View()), dev, env)
              then rc.NcclSuccess? && comm == env.addr && comm in heap && fresh(heap[comm])
              else rc.NcclInternalError? && comm == NULL
    {
      ghost var s := View();
      SharedIsUsable(s);
      if env.addr == NULL {
        return NcclInternalError, NULL;
      }
      assert Coupled(env.addr);
      rc := SetUp(dev, env);
      if rc.NcclSuccess? {
        return NcclSuccess, env.addr;
      }
      BailIsReleasable(s, dev, env, View());
      var frc := Fini(env.addr, mqrc, eprc);
      return NcclInternalError, NULL;
    }

    // ---------------------------------------------------- listen, connect

    /** psm2_nccl_listen */
    method Listen(dev: int, env: InitEnv, mqrc: Rc, eprc: Rc) returns (out: ListenOut)
      requires Valid() && Inv(View()) && FreshAddr(View(), env)
      modifies this`sharedEp, this`lib, this`heap, this`comms, this`nextTag
      ensures Valid() && SharedUsable(old(View()))
      ensures (View(), out) == Plugin.Listen(old(View()), dev, env)
    {
      ghost var s := View();
      SharedIsUsable(s);
      if Succ64(nextTag) >= ULLONG_MAX {
        return ListenOut(NcclInternalError, NULL, None);
      }
      var rc, comm := Init(dev, env, mqrc, eprc);
      var handle: Option<Handle> := None;
      label created:
      if comm != NULL {
        assert Coupled(comm);
        var c := heap[comm];
        c.tag := nextTag;
        nextTag := Succ64(nextTag);
        handle := Some(Handle(c.epid, c.tag));
        forall b ensures b == comm || Coupled(b) { assert old@created(Coupled(b) && Separate(comm, b)); }
        Sync(comm);
        ListenDone(s, dev, env, View());
      }
      return ListenOut(rc, comm, handle);
    }

    /** psm2_nccl_connect */
    method Connect(dev: int, h: Handle, env: InitEnv, conn: ConnEnv, mqrc: Rc, eprc: Rc) returns (out: ConnectOut)
      requires Valid() && Inv(View()) && FreshAddr(View(), env)
      requires h.tag <= ULLONG_MAX
      modifies this`sharedEp, this`lib, this`heap, this`comms
      ensures Valid() && SharedUsable(old(View()))
      ensures (View(), out) == Plugin.Connect(old(View()), dev, h, env, conn)
    {
      ghost var s := View();
      SharedIsUsable(s);
      var rc, comm := Init(dev, env, mqrc, eprc);
      if rc.NcclInternalError? {
        return ConnectOut(rc, NULL);
      }
      label created:
      assert Coupled(comm);
      var c := heap[comm];
      c.remEpid := h.epid;
      c.tag := h.tag;
      if conn.rc.Ok? && conn.peer.Ok? {
        c.remAddr := Some(c.remEpid);
      }
      forall b ensures b == comm || Coupled(b) { assert old@created(Coupled(b) && Separate(comm, b)); }
      Sync(comm);
      if conn.rc.Ok? && conn.peer.Ok? {
        ConnectDone(s, dev, h, env, View());
        return ConnectOut(NcclSuccess, comm);
      }
      ConnectingReleasable(s, dev, h, env, View());
      UndoneConnection(s, dev, h, env, conn, View());
      var frc := Fini(comm, mqrc, eprc);
      return ConnectOut(NcclInternalError, NULL);
    }

    /** psm2_nccl_accept: the listener becomes the receiver. */
    method Accept(listenComm: Addr) returns (rc: NcclResult, recvComm: Addr)
      ensures rc.NcclSuccess? && recvComm == listenComm
    {
      recvComm := listenComm;
      return NcclSuccess, recvComm;
    }

    /** psm2_nccl_closeSend and psm2_nccl_closeRecv */
    method Close(a: Addr, mqrc: Rc, eprc: Rc) returns (rc: NcclResult)
      requires Valid() && Inv(View()) && a in heap
      modifies this`sharedEp, this`lib, this`heap, this`comms, heap[a]
      ensures Valid() && Releasable(old(View()), a) && View() == Release(old(View()), a)
      ensures rc.NcclSuccess? <==> mqrc.Ok? && (LastRef(old(View()), a) ==> eprc.Ok?)
    {
      assert Coupled(a);
      LiveIsReleasable(View(), a);
      assert CommOk(View(), a) && EpOk(View(), NULL) && MqOk(View(), NULL);
      rc := Fini(a, mqrc, eprc);
    }

    /** psm2_nccl_closeListen */
    method CloseListen(a: Addr) returns (rc: NcclResult)
      ensures rc.NcclSuccess?
    {
      return NcclSuccess;
    }

    // ----------------------------------------------------------- requests

    /** psm2_nccl_isend */
    method Isend(a: Addr, size: nat, env: PostEnv) returns (out: PostOut)
      requires Valid() && Inv(View()) && a in heap && a in comms && heap[a].remAddr.Some? && size <= INT_MAX
      modifies this`lib, this`comms, heap[a].requests
      ensures Valid() && (View(), out) == Post(old(View()), a, ReqSend, size, env)
    {
      assert Coupled(a) && CommOk(View(), a);
      ghost var s := View();
      var c := heap[a];
      var r := c.GetReq(a, ReqSend);
      if r.Some? {
        var i := r.value;
        assert SlotOk(s, ReqPtr(a, i));
        if env.rc.Failed? {
          c.requests[i] := c.requests[i].(req := env.junk);
          c.PutReq(i);
          assert c.requests[..] == s.comms[a].requests;
          out := PostOut(NcclInternalError, None);
        } else {
          c.requests[i] := c.requests[i].(req := lib.nextPost);
          lib := Enqueue(lib, Posting(lib.mqs[c.mq], ReqPtr(a, i), ReqSend, c.tag, ULLONG_MAX, c.remAddr, size, None));
          assert c.requests[..] == s.comms[a].requests[i := PostedSlot(s, a, ReqSend)];
          out := PostOut(NcclSuccess, Some(ReqPtr(a, i)));
        }
      } else {
        out := PostOut(NcclSuccess, None);
      }
      forall b ensures b == a || Coupled(b) { assert old(Coupled(b) && Separate(a, b)); }
      Sync(a);
      assert r.None? || env.rc.Failed? ==> comms == s.comms;
    }

    /** psm2_nccl_irecv_v4 */
    method Irecv(a: Addr, size: nat, env: PostEnv) returns (out: PostOut)
      requires Valid() && Inv(View()) && a in heap && a in comms && size <= INT_MAX
      modifies this`lib, this`comms, heap[a].requests
      ensures Valid() && (View(), out) == Post(old(View()), a, ReqRecv, size, env)
    {
      assert Coupled(a) && CommOk(View(), a);
      ghost var s := View();
      var c := heap[a];
      var r := c.GetReq(a, ReqRecv);
      if r.Some? {
        var i := r.value;
        assert SlotOk(s, ReqPtr(a, i));
        if env.rc.Failed? {
          c.requests[i] := c.requests[i].(req := env.junk);
          c.PutReq(i);
          assert c.requests[..] == s.comms[a].requests;
          out := PostOut(NcclInternalError, None);
        } else {
          c.requests[i] := c.requests[i].(req := lib.nextPost);
          lib := Enqueue(lib, Posting(lib.mqs[c.mq], ReqPtr(a, i), ReqRecv, c.tag, ULLONG_MAX, None, size, None));
          assert c.requests[..] == s.comms[a].requests[i := PostedSlot(s, a, ReqRecv)];
          out := PostOut(NcclSuccess, Some(ReqPtr(a, i)));
        }
      } else {
        out := PostOut(NcclSuccess, None);
      }
      forall b ensures b == a || Coupled(b) { assert old(Coupled(b) && Separate(a, b)); }
      Sync(a);
      assert r.None? || env.rc.Failed? ==> comms == s.comms;
    }

    /** The network at work. */
    method Deliver(es: seq<NetEvent>)
      requires Valid()
      modifies this`lib
      ensures Valid() && View() == old(View()).(lib := NetAll(old(lib), es))
    {
      lib := NetAll(lib, es);
      forall b ensures Coupled(b) { assert old(Coupled(b)); }
    }

    /** psm2_mq_ipeek: some completed request on the MQ's endpoint, if any. */
    method Ipeek(mq: Mq) returns (p: Option<nat>)
      requires mq in lib.mqs
      ensures p.Some? ==> p.value in Ready(lib, lib.mqs[mq])
      ensures p.None? ==> Ready(lib, lib.mqs[mq]) == {}
    {
      var ready := Ready(lib, lib.mqs[mq]);
      if ready == {} {
        return None;
      }
      var q :| q in ready;
      return Some(q);
    }

    /** The part of the loop that retires one completed request and marks the
        slot its context points to. The code's own asserts hold here. */
    method Complete(p: nat)
      requires Valid() && Inv(View()) && p in lib.posts && lib.posts[p].comp.Some?
      modifies this`lib, this`comms, Slots()
      ensures Valid() && Inv(View()) && View() == Drain(old(View()), {p})
    {
      ghost var s := View();
      assert PostOk(s, p) && Coupled(s.lib.posts[p].ctx.comm);
      var context, nbytes := lib.posts[p].ctx, lib.posts[p].comp.value;
      lib := Retire(lib, {p});
      var c, i := heap[context.comm], context.idx;
      assert c.requests[i] == At(s, context);
      assert c.requests[i].used;
      assert !c.requests[i].done;
      c.requests[i] := c.requests[i].(done := true);
      if c.requests[i].kind.ReqRecv? {
        assert nbytes <= INT_MAX;
        c.requests[i] := c.requests[i].(recvSize := nbytes);
      }
      forall b ensures b == context.comm || Coupled(b) { assert old(Coupled(b) && Separate(context.comm, b)); }
      Sync(context.comm);
      DispatchIsDrain(s, p);
      assert comms[context.comm].requests == s.comms[context.comm].requests[i := c.requests[i]];
      assert View() == Dispatch(s, p);
      DrainInv(s, {p});
    }

    /** One turn of the loop: the network acts, the queue is peeked at, and a
        completed request, if there is one, is taken. */
    method Turn(mq: Mq, es: seq<NetEvent>) returns (p: Option<nat>)
      requires Valid() && Inv(View()) && mq in lib.mqs
      modifies this`lib, this`comms, Slots()
      ensures Valid()
      ensures
        var s := old(View()).(lib := NetAll(old(lib), es));
        if p.None? then View() == s && Ready(lib, old(lib).mqs[mq]) == {}
        else p.value in Ready(s.lib, old(lib).mqs[mq]) && View() == Drain(s, {p.value})
    {
      NetAllInv(View(), es);
      NetKeepsOutstanding(lib, es, 0);
      Deliver(es);
      p := Ipeek(mq);
      if p.Some? {
        Complete(p.value);
      }
    }

    /** mq_progress_loop. `net(k)` is what the network does before the k-th
        psm2_mq_ipeek, `seen` all it did until the loop ended. */
    method MqProgressLoop(mq: Mq, net: nat -> seq<NetEvent>) returns (completed: nat, ghost seen: seq<NetEvent>)
      requires Valid() && Inv(View()) && mq in lib.mqs
      modifies this`lib, this`comms, Slots()
      ensures Valid() && Inv(View())
      ensures View() == DrainQueue(old(View()).(lib := NetAll(old(lib), seen)), old(lib).mqs[mq])
      ensures Ready(lib, old(lib).mqs[mq]) == {}
      ensures completed <= NUM_REQUESTS * |CommsOn(old(View()), old(lib).mqs[mq])|
    {
      completed, seen := 0, [];
      ghost var s, ep := View(), lib.mqs[mq];
      ghost var taken: set<nat> := {};
      DrainingStart(s, ep);
      while true
        invariant Valid() && Draining(s, ep, seen, taken, completed, View())
        decreases |Outstanding(lib, ep)|
      {
        ghost var cur := View();
        var mqr := Turn(mq, net(completed));
        DrainingTurn(s, ep, seen, taken, completed, cur, net(completed), mqr, View());
        seen := seen + net(completed);
        if mqr.None? {
          return;
        }
        completed, taken := completed + 1, taken + {mqr.value};
      }
    }

    /** psm2_nccl_test. The whole call, with the network running all the time,
        is one step taken at the moment the loop found the queue empty. */
    method Test(x: ReqPtr, net: nat -> seq<NetEvent>) returns (out: TestOut, ghost seen: seq<NetEvent>)
      requires Valid() && Inv(View()) && Live(View(), x)
      modifies this`lib, this`comms, Slots()
      ensures Valid()
      ensures !out.rc.NcclSuccess? ==> seen == []
      ensures var s := old(View()).(lib := NetAll(old(lib), seen)); Live(s, x) && (View(), out) == Plugin.Test(s, x)
    {
      seen := [];
      ghost var s := View();
      assert Coupled(x.comm) && CommOk(s, x.comm) && SlotOk(s, x);
      var c := heap[x.comm];
      assert c.requests[x.idx] == At(s, x);
      if !c.requests[x.idx].used {
        return TestOut(NcclInternalError, false, None), seen;
      }
      var completed: nat;
      completed, seen := MqProgressLoop(c.requests[x.idx].mq, net);
      label drained:
      ghost var d := View();
      NetKeepsOutstanding(s.lib, seen, 0);
      assert Coupled(x.comm);
      assert c.requests[x.idx] == At(d, x);
      if !c.requests[x.idx].done {
        return TestOut(NcclSuccess, false, None), seen;
      }
      var size: Option<nat> := None;
      if c.requests[x.idx].kind.ReqRecv? {
        size := Some(c.requests[x.idx].recvSize);
      }
      c.PutReq(x.idx);
      forall b ensures b == x.comm || Coupled(b) { assert old@drained(Coupled(b) && Separate(x.comm, b)); }
      Sync(x.comm);
      return TestOut(NcclSuccess, true, size), seen;
    }

    // ------------------------------------------------------------- any call

    /** Every allowed call of the class is a step of Runs. For a test, `seen` is
        what the network did meanwhile; for the others it is empty. */
    method Perform(c: Runs.Call, mqrc: Rc, eprc: Rc, net: nat -> seq<NetEvent>) returns (ghost seen: seq<NetEvent>)
      requires Valid() && Inv(View()) && Runs.Allowed(View(), c)
      modifies this, heap.Values, Slots()
      ensures Valid() && Inv(View())
      ensures Runs.Next(old(View()).(lib := NetAll(old(lib), seen)), c, View())
      ensures !c.TestCall? ==> seen == []
    {
      seen := [];
      ghost var s := View();
      assert s.(lib := NetAll(s.lib, [])) == s;
      match c {
        case ListenCall(dev, env) => var out := Listen(dev, env, mqrc, eprc);
        case ConnectCall(dev, h, env, conn) => var out := Connect(dev, h, env, conn, mqrc, eprc);
        case AcceptCall(a) => var rc, b := Accept(a);
        case IsendCall(a, size, post) =>
          assert Coupled(a);
          var out := Isend(a, size, post);
        case IrecvCall(a, size, post) =>
          assert Coupled(a);
          var out := Irecv(a, size, post);
        case TestCall(x) =>
          var out: TestOut;
          out, seen := Test(x, net);
          NetAllInv(s, seen);
        case CloseCall(a) =>
          assert Coupled(a);
          var rc := Close(a, mqrc, eprc);
        case CloseListenCall(a) => var rc := CloseListen(a);
        case NetworkActs(e) =>
          Deliver([e]);
          assert NetAll(s.lib, [e]) == Net(s.lib, e);
      }
      Runs.NextInv(s.(lib := NetAll(s.lib, seen)), c, View());
    }
  }

  /** `t` is `s` with a comm at env.addr that psm2comm_init has got as far with
      as the environment allows. */
  ghost predicate IsSetUp(s: Proc, dev: int, env: InitEnv, t: Proc)
    requires SharedUsable(s)
  {
    var blank := BlankComm();
    if !EpGranted(s, dev, env) then
      t == s.(comms := s.comms[env.addr := blank])
    else
      var c := blank.(ep := GrantedEp(s), epid := GrantedEpid(s, env), sharedRef := s.cfg.useShared);
      var l := GrantLib(s, dev, env);
      t == s.(shared := GrantShared(s, dev, env),
              comms := s.comms[env.addr := if env.mq.Ok? then c.(mq := l.nextMq) else c],
              lib := if env.mq.Ok? then MqInit(l, c.ep) else l)
  }

  lemma SetUpDone(s: Proc, s0: Proc, dev: int, env: InitEnv, t: Proc)
    requires SharedUsable(s) && env.addr in t.comms
    requires s0 == s.(comms := s0.comms) && t.comms == s0.comms[env.addr := t.comms[env.addr]]
    requires s0.comms == s.comms[env.addr := BlankComm()]
    requires
      var blank := s0.comms[env.addr];
      var c := blank.(ep := GrantedEp(s0), epid := GrantedEpid(s0, env), sharedRef := s0.cfg.useShared);
      var l := GrantLib(s0, dev, env);
      if !EpGranted(s0, dev, env) then t == s0.(comms := t.comms) && t.comms[env.addr] == blank
      else
        && t == s0.(shared := GrantShared(s0, dev, env), comms := t.comms, lib := t.lib)
        && t.comms[env.addr] == (if env.mq.Ok? then c.(mq := l.nextMq) else c)
        && t.lib == (if env.mq.Ok? then MqInit(l, c.ep) else l)
    ensures IsSetUp(s, dev, env, t)
  {
  }

  /** The comm psm2comm_init tears down on its error path has no endpoint, or
      one and no MQ on it yet. */
  lemma BailIsReleasable(s: Proc, dev: int, env: InitEnv, t: Proc)
    requires EpInv(s) && FreshAddr(s, env) && env.addr != NULL
    requires SharedUsable(s) && IsSetUp(s, dev, env, t) && !Creates(s, dev, env)
    ensures Releasable(t, env.addr)
    ensures Release(t, env.addr) == Create(s, dev, env)
  {
    assert MqOk(s, NULL) && EpOk(s, s.lib.nextEp) && EpOk(s, NULL);
    assert t.comms - {env.addr} == s.comms;
    forall m | m in s.lib.mqs ensures s.lib.mqs[m] != s.lib.nextEp {
      assert MqOk(s, m);
      var b :| UsesMq(s, b, m);
      assert CommOk(s, b);
    }
    assert s.lib.eps[s.lib.nextEp := OpenInfo(s, dev, env)] - {s.lib.nextEp} == s.lib.eps;
  }

  lemma ListenDone(s: Proc, dev: int, env: InitEnv, r: Proc)
    requires SharedUsable(s) && Creates(s, dev, env) && TagsLeft(s)
    requires
      var t := Create(s, dev, env);
      r == t.(comms := t.comms[env.addr := t.comms[env.addr].(tag := s.nextTag)],
              nextTag := Succ64(s.nextTag))
    ensures r == Plugin.Listen(s, dev, env).0
  {
    assert r.comms == Plugin.Listen(s, dev, env).0.comms;
  }

  lemma ConnectDone(s: Proc, dev: int, h: Handle, env: InitEnv, r: Proc)
    requires SharedUsable(s) && Creates(s, dev, env)
    requires
      var t := Create(s, dev, env);
      var c := t.comms[env.addr].(remEpid := h.epid, tag := h.tag, remAddr := Some(h.epid));
      r == t.(comms := t.comms[env.addr := c])
    ensures r == Plugin.Connect(s, dev, h, env, ConnEnv(Ok, Ok)).0
  {
    assert r.comms == s.comms[env.addr := r.comms[env.addr]];
  }

  /** A comm that could not connect is torn down like any live one. */
  lemma ConnectingReleasable(s: Proc, dev: int, h: Handle, env: InitEnv, t: Proc)
    requires EpInv(s) && FreshAddr(s, env) && SharedUsable(s) && Creates(s, dev, env) && h.tag <= ULLONG_MAX
    requires
      var u := Create(s, dev, env);
      t == u.(comms := u.comms[env.addr := u.comms[env.addr].(remEpid := h.epid, tag := h.tag)])
    ensures t == Connecting(s, dev, h, env) && Releasable(t, env.addr)
  {
    assert t.comms == s.comms[env.addr := t.comms[env.addr]];
    CreatedEpInv(s, dev, env, t.comms[env.addr], t);
    LiveIsReleasable(t, env.addr);
  }

  /** Tearing down what a failed connection set up takes it all back. */
  lemma {:induction false} UndoneConnection(s: Proc, dev: int, h: Handle, env: InitEnv, conn: ConnEnv, t: Proc)
    requires EpInv(s) && FreshAddr(s, env) && SharedUsable(s) && Creates(s, dev, env)
    requires t == Connecting(s, dev, h, env) && Releasable(t, env.addr)
    requires !(conn.rc.Ok? && conn.peer.Ok?)
    ensures (Release(t, env.addr), ConnectOut(NcclInternalError, NULL)) == Plugin.Connect(s, dev, h, env, conn)
  {
    assert EpOk(s, s.lib.nextEp) && MqOk(s, s.lib.nextMq) && EpOk(s, NULL);
    UndoneRecord(s, dev, h, env, t);
    UndoneLib(s, dev, h, env, t);
  }

  lemma UndoneRecord(s: Proc, dev: int, h: Handle, env: InitEnv, t: Proc)
    requires SharedOk(s) && FreshAddr(s, env) && SharedUsable(s) && Creates(s, dev, env)
    requires t == Connecting(s, dev, h, env) && Releasable(t, env.addr) && GrantedEp(s) != NULL
    ensures LastRef(t, env.addr) <==> Opens(s)
    ensures Release(t, env.addr).comms == s.comms && Release(t, env.addr).shared == s.shared
  {
  }

  lemma UndoneLib(s: Proc, dev: int, h: Handle, env: InitEnv, t: Proc)
    requires FreshAddr(s, env) && SharedUsable(s) && Creates(s, dev, env)
    requires t == Connecting(s, dev, h, env) && Releasable(t, env.addr) && GrantedEp(s) != NULL
    requires LastRef(t, env.addr) <==> Opens(s)
    requires s.lib.nextEp !in s.lib.eps && s.lib.nextMq !in s.lib.mqs && s.lib.nextMq != NULL
    ensures Release(t, env.addr).lib == Plugin.Connect(s, dev, h, env, ConnEnv(Failed, Failed)).0.lib
  {
    var r := Release(t, env.addr);
    assert r.lib.mqs == s.lib.mqs;
    assert r.lib.eps == s.lib.eps;
  }
}
