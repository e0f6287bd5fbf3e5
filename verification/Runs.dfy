/** Calls as steps, what their callers owe, and what holds over every run. */
module Runs {
  import opened Types
  import opened Psm2
  import opened Plugin
  import opened Invariants

  datatype Call =
    | ListenCall(dev: int, env: InitEnv)
    | ConnectCall(dev: int, h: Handle, env: InitEnv, conn: ConnEnv)
    | AcceptCall(listener: Addr)
    | IsendCall(comm: Addr, size: nat, post: PostEnv)
    | IrecvCall(comm: Addr, size: nat, post: PostEnv)
    | TestCall(req: ReqPtr)
    | CloseCall(comm: Addr)
    | CloseListenCall(comm: Addr)
    | NetworkActs(event: NetEvent)

  /** What the callers owe: comms that are live, senders for isend and
      listeners for irecv, int sizes, handles some listen issued, and no comm
      closed while the library has a request of it. */
  predicate Allowed(s: Proc, c: Call) {
    match c
    case ListenCall(_, env) => FreshAddr(s, env)
    case ConnectCall(_, h, env, _) => FreshAddr(s, env) && h.tag <= ULLONG_MAX
    case IsendCall(a, size, _) => a in s.comms && s.comms[a].remAddr.Some? && size <= INT_MAX
    case IrecvCall(a, size, _) => a in s.comms && s.comms[a].remAddr.None? && size <= INT_MAX
    case TestCall(x) => Live(s, x)
    case CloseCall(a) => a in s.comms && Idle(s, a)
    case _ => true
  }

  ghost predicate Next(s: Proc, c: Call, t: Proc) {
    Allowed(s, c) &&
    match c
    case ListenCall(dev, env) => SharedUsable(s) && t == Listen(s, dev, env).0
    case ConnectCall(dev, h, env, conn) => SharedUsable(s) && t == Connect(s, dev, h, env, conn).0
    case IsendCall(a, size, env) => t == Post(s, a, ReqSend, size, env).0
    case IrecvCall(a, size, env) => t == Post(s, a, ReqRecv, size, env).0
    case TestCall(x) => t == Test(s, x).0
    case CloseCall(a) => Releasable(s, a) && t == Release(s, a)
    case AcceptCall(_) => t == s
    case CloseListenCall(_) => t == s
    case NetworkActs(e) => t == s.(lib := Net(s.lib, e))
  }

  // ------------------------------------------------------------- rollback

  predicate ListenWorks(s: Proc, dev: int, env: InitEnv) {
    TagsLeft(s) && Creates(s, dev, env)
  }

  predicate ConnectWorks(s: Proc, dev: int, env: InitEnv, conn: ConnEnv) {
    Creates(s, dev, env) && conn.rc.Ok? && conn.peer.Ok?
  }

  // What a caller can say beforehand of a creation: whether an endpoint must be
  // opened for it, and whether the device is one it may have.

  predicate NeedsEndpoint(s: Proc) {
    !s.cfg.useShared || s.comms == map[]
  }

  predicate DeviceFits(s: Proc, dev: int) {
    NeedsEndpoint(s) || !s.cfg.useDev || s.cfg.policy.MultiWarn? || s.shared.unit == dev
  }

  predicate EndpointComes(s: Proc, env: InitEnv) {
    NeedsEndpoint(s) ==> env.opts.Ok? && env.open.Ok?
  }

  predicate Obtainable(s: Proc, dev: int, env: InitEnv) {
    env.addr != NULL && env.mq.Ok? && DeviceFits(s, dev) && EndpointComes(s, env)
  }

  /** The endpoint was opened before the call failed. */
  predicate OpenedInVain(s: Proc, env: InitEnv) {
    env.addr != NULL && NeedsEndpoint(s) && EndpointComes(s, env)
  }

  lemma EndpointNeeded(s: Proc)
    requires EpInv(s)
    ensures Opens(s) <==> NeedsEndpoint(s)
  {
    assert |s.comms| == 0 <==> s.comms == map[];
  }

  /** A comm is created exactly if there is memory, the policy allows the device
      and the library plays along; under WARN any device will do. */
  lemma CreatesIffObtainable(s: Proc, dev: int, env: InitEnv)
    requires EpInv(s)
    ensures Creates(s, dev, env) <==> Obtainable(s, dev, env)
    ensures EpGranted(s, dev, env) <==> DeviceFits(s, dev) && EndpointComes(s, env)
  {
    EndpointNeeded(s);
  }

  /** When listen succeeds: as long as there are tags. */
  lemma ListenSucceeds(s: Proc, dev: int, env: InitEnv)
    requires EpInv(s)
    ensures SharedUsable(s)
    ensures Listen(s, dev, env).1.rc.NcclSuccess? <==>
      && s.nextTag + 1 < ULLONG_MAX && env.addr != NULL && env.mq.Ok?
      && (s.cfg.useShared && s.comms != map[] ==>
            !s.cfg.useDev || s.cfg.policy.MultiWarn? || s.shared.unit == dev)
      && (!s.cfg.useShared || s.comms == map[] ==> env.opts.Ok? && env.open.Ok?)
    ensures Listen(s, dev, env).1.rc.NcclSuccess? <==> ListenWorks(s, dev, env)
  {
    SharedIsUsable(s);
    CreatesIffObtainable(s, dev, env);
  }

  /** When connect succeeds: if the peer can be reached, too. */
  lemma ConnectSucceeds(s: Proc, dev: int, h: Handle, env: InitEnv, conn: ConnEnv)
    requires EpInv(s)
    ensures SharedUsable(s)
    ensures Connect(s, dev, h, env, conn).1.rc.NcclSuccess? <==>
      && env.addr != NULL && env.mq.Ok? && conn.rc.Ok? && conn.peer.Ok?
      && (s.cfg.useShared && s.comms != map[] ==>
            !s.cfg.useDev || s.cfg.policy.MultiWarn? || s.shared.unit == dev)
      && (!s.cfg.useShared || s.comms == map[] ==> env.opts.Ok? && env.open.Ok?)
    ensures Connect(s, dev, h, env, conn).1.rc.NcclSuccess? <==> ConnectWorks(s, dev, env, conn)
  {
    SharedIsUsable(s);
    CreatesIffObtainable(s, dev, env);
  }

  /** A listen that fails, wherever it fails, leaves everything as it was; an
      endpoint it opened has been closed, and it issues nothing. */
  lemma ListenRollsBack(s: Proc, dev: int, env: InitEnv)
    requires EpInv(s)
    ensures SharedUsable(s)
    ensures !ListenWorks(s, dev, env) ==>
      var (r, out) := Listen(s, dev, env);
      && SameButLogs(s, r) && out == ListenOut(NcclInternalError, NULL, None)
      && r.lib.finalized == s.lib.finalized
      && (r.lib.closed == s.lib.closed + [s.lib.nextEp] <==>
            s.nextTag + 1 < ULLONG_MAX && OpenedInVain(s, env))
  {
    SharedIsUsable(s);
    EndpointNeeded(s);
    assert |s.lib.closed| != |s.lib.closed + [s.lib.nextEp]|;
  }

  /** A connect that fails, be it in psm2_ep_connect, likewise; its MQ has been
      finalized before the endpoint was closed. */
  lemma ConnectRollsBack(s: Proc, dev: int, h: Handle, env: InitEnv, conn: ConnEnv)
    requires EpInv(s)
    ensures SharedUsable(s)
    ensures !ConnectWorks(s, dev, env, conn) ==>
      var (r, out) := Connect(s, dev, h, env, conn);
      && SameButLogs(s, r) && out == ConnectOut(NcclInternalError, NULL)
      && (r.lib.finalized == s.lib.finalized + [s.lib.nextMq] <==> Obtainable(s, dev, env))
      && (r.lib.closed == s.lib.closed + [s.lib.nextEp] <==> OpenedInVain(s, env))
  {
    SharedIsUsable(s);
    EndpointNeeded(s);
    assert |s.lib.closed| != |s.lib.closed + [s.lib.nextEp]|;
    assert |s.lib.finalized| != |s.lib.finalized + [s.lib.nextMq]|;
  }

  lemma {:induction false} ListenExtends(s: Proc, dev: int, env: InitEnv)
    requires EpInv(s) && FreshAddr(s, env) && ListenWorks(s, dev, env)
    ensures SharedUsable(s)
    ensures Succ64(s.nextTag) == s.nextTag + 1 < ULLONG_MAX
    ensures
      var (r, out) := Listen(s, dev, env);
      && Extends(s, dev, env, NewComm(s, env).(tag := s.nextTag), r)
      && r.nextTag == s.nextTag + 1
      && out == ListenOut(NcclSuccess, env.addr, Some(Handle(r.comms[env.addr].epid, s.nextTag)))
  {
    SharedIsUsable(s);
  }

  lemma ConnectExtends(s: Proc, dev: int, h: Handle, env: InitEnv, conn: ConnEnv)
    requires EpInv(s) && FreshAddr(s, env) && ConnectWorks(s, dev, env, conn) && h.tag <= ULLONG_MAX
    ensures SharedUsable(s)
    ensures
      var (r, out) := Connect(s, dev, h, env, conn);
      && Extends(s, dev, env, NewComm(s, env).(remEpid := h.epid, tag := h.tag, remAddr := Some(h.epid)), r)
      && r.nextTag == s.nextTag
      && out == ConnectOut(NcclSuccess, env.addr)
  {
    SharedIsUsable(s);
  }

  // ---------------------------------------------------- every call, any run

  lemma NextInv(s: Proc, c: Call, t: Proc)
    requires Inv(s) && Next(s, c, t)
    ensures Inv(t)
  {
    match c
    case ListenCall(dev, env) =>
      ListenRollsBack(s, dev, env);
      if ListenWorks(s, dev, env) {
        ListenExtends(s, dev, env);
        CreatedEpInv(s, dev, env, NewComm(s, env).(tag := s.nextTag), t);
        CreatedReqInv(s, dev, env, NewComm(s, env).(tag := s.nextTag), t);
      } else {
        SameButLogsInv(s, t);
      }
    case ConnectCall(dev, h, env, conn) =>
      ConnectRollsBack(s, dev, h, env, conn);
      if ConnectWorks(s, dev, env, conn) {
        var d := NewComm(s, env).(remEpid := h.epid, tag := h.tag, remAddr := Some(h.epid));
        ConnectExtends(s, dev, h, env, conn);
        CreatedEpInv(s, dev, env, d, t);
        CreatedReqInv(s, dev, env, d, t);
      } else {
        SameButLogsInv(s, t);
      }
    case IsendCall(a, size, env) => PostedInv(s, a, ReqSend, size, env);
    case IrecvCall(a, size, env) => PostedInv(s, a, ReqRecv, size, env);
    case TestCall(x) => TestInv(s, x);
    case CloseCall(a) =>
      ReleasedEpInv(s, a);
      ReleasedReqInv(s, a);
    case NetworkActs(e) => NetInv(s, e);
    case AcceptCall(_) =>
    case CloseListenCall(_) =>
  }

  /** No allowed call finds the process in a state its code could not cope with. */
  lemma NeverStuck(s: Proc, c: Call)
    requires Inv(s) && Allowed(s, c)
    ensures exists t :: Next(s, c, t)
  {
    SharedIsUsable(s);
    match c
    case ListenCall(dev, env) => assert Next(s, c, Listen(s, dev, env).0);
    case ConnectCall(dev, h, env, conn) => assert Next(s, c, Connect(s, dev, h, env, conn).0);
    case IsendCall(a, size, env) => assert Next(s, c, Post(s, a, ReqSend, size, env).0);
    case IrecvCall(a, size, env) => assert Next(s, c, Post(s, a, ReqRecv, size, env).0);
    case TestCall(x) => assert Next(s, c, Test(s, x).0);
    case CloseCall(a) =>
      LiveIsReleasable(s, a);
      assert Next(s, c, Release(s, a));
    case NetworkActs(e) => assert Next(s, c, s.(lib := Net(s.lib, e)));
    case AcceptCall(_) => assert Next(s, c, s);
    case CloseListenCall(_) => assert Next(s, c, s);
  }

  ghost predicate StepOk(ss: seq<Proc>, cs: seq<Call>, i: nat) {
    i < |cs| && i + 1 < |ss| ==> Next(ss[i], cs[i], ss[i + 1])
  }

  /** A run of a process from its start: `ss[i]` is its state before `cs[i]`. */
  ghost predicate Run(ss: seq<Proc>, cs: seq<Call>) {
    && |ss| == |cs| + 1
    && ss[0] == Initial(ss[0].cfg, ss[0].me)
    && forall i :: StepOk(ss, cs, i)
  }

  lemma {:induction false} RunInv(ss: seq<Proc>, cs: seq<Call>, n: nat)
    requires Run(ss, cs) && n < |ss|
    ensures Inv(ss[n])
  {
    if n == 0 {
      InitialInv(ss[0].cfg, ss[0].me);
    } else {
      RunInv(ss, cs, n - 1);
      assert StepOk(ss, cs, n - 1);
      NextInv(ss[n - 1], cs[n - 1], ss[n]);
    }
  }

  lemma RunStarts(cfg: Config, me: nat)
    ensures Run([Initial(cfg, me)], [])
  {
  }

  lemma RunGrows(ss: seq<Proc>, cs: seq<Call>, c: Call, t: Proc)
    requires Run(ss, cs) && Next(ss[|cs|], c, t)
    ensures Run(ss + [t], cs + [c])
  {
    forall i ensures StepOk(ss + [t], cs + [c], i) { assert StepOk(ss, cs, i); }
  }

  /** What the network is asked to do. */
  function Acts(es: seq<NetEvent>): seq<Call> {
    seq(|es|, i requires 0 <= i < |es| => NetworkActs(es[i]))
  }

  /** Whatever the network does at the end of a run makes a longer run. */
  lemma {:induction false} NetworkRun(ss: seq<Proc>, cs: seq<Call>, es: seq<NetEvent>) returns (ts: seq<Proc>)
    requires Run(ss, cs)
    ensures Run(ts, cs + Acts(es)) && ss <= ts
    ensures ts[|ts| - 1] == ss[|cs|].(lib := NetAll(ss[|cs|].lib, es))
    decreases |es|
  {
    if es == [] {
      ts := ss;
      assert cs + Acts(es) == cs;
    } else {
      var most, e := es[..|es| - 1], es[|es| - 1];
      ts := NetworkRun(ss, cs, most);
      var s := ts[|ts| - 1];
      RunGrows(ts, cs + Acts(most), NetworkActs(e), s.(lib := Net(s.lib, e)));
      ts := ts + [s.(lib := Net(s.lib, e))];
      assert cs + Acts(most) + [NetworkActs(e)] == cs + Acts(es);
    }
  }

  /** A call that took effect after the network had done `es` - as
      Engine.Process.Perform promises of every call - continues a run by those
      events and the call. */
  lemma PerformedRun(ss: seq<Proc>, cs: seq<Call>, es: seq<NetEvent>, c: Call, t: Proc) returns (ts: seq<Proc>)
    requires Run(ss, cs) && Next(ss[|cs|].(lib := NetAll(ss[|cs|].lib, es)), c, t)
    ensures Run(ts, cs + Acts(es) + [c]) && ss <= ts && ts[|ts| - 1] == t
  {
    ts := NetworkRun(ss, cs, es);
    RunGrows(ts, cs + Acts(es), c, t);
    ts := ts + [t];
  }

  // ----------------------------------------------------------------- tags

  predicate IssuesTag(s: Proc, c: Call) {
    c.ListenCall? && ListenWorks(s, c.dev, c.env)
  }

  lemma {:induction false} NextTagGrows(s: Proc, c: Call, t: Proc)
    requires Inv(s) && Next(s, c, t)
    ensures t.nextTag == s.nextTag + (if IssuesTag(s, c) then 1 else 0)
  {
    match c
    case ListenCall(dev, env) =>
      ListenRollsBack(s, dev, env);
      if ListenWorks(s, dev, env) { ListenExtends(s, dev, env); }
    case ConnectCall(dev, h, env, conn) => ConnectRollsBack(s, dev, h, env, conn);
    case _ =>
  }

  lemma {:induction false} NextTagMonotone(ss: seq<Proc>, cs: seq<Call>, i: nat, j: nat)
    requires Run(ss, cs) && i <= j < |ss|
    ensures ss[i].nextTag <= ss[j].nextTag
    decreases j
  {
    if i < j {
      NextTagMonotone(ss, cs, i, j - 1);
      RunInv(ss, cs, j - 1);
      assert StepOk(ss, cs, j - 1);
      NextTagGrows(ss[j - 1], cs[j - 1], ss[j]);
    }
  }

  /** How many of the first n calls were listens that succeeded. */
  function Issued(ss: seq<Proc>, cs: seq<Call>, n: nat): nat
    requires n <= |ss| && n <= |cs|
  {
    if n == 0 then 0 else Issued(ss, cs, n - 1) + if IssuesTag(ss[n - 1], cs[n - 1]) then 1 else 0
  }

  /** Tags are issued one by one from 0 on, and they run out exactly after
      ULLONG_MAX - 1 successful listens. */
  lemma {:induction false} TagCount(ss: seq<Proc>, cs: seq<Call>, n: nat)
    requires Run(ss, cs) && n < |ss|
    ensures ss[n].nextTag == Issued(ss, cs, n) < ULLONG_MAX
    ensures TagsLeft(ss[n]) <==> Issued(ss, cs, n) != ULLONG_MAX - 1
    ensures n < |cs| && IssuesTag(ss[n], cs[n]) ==>
      && cs[n].env.addr in ss[n + 1].comms
      && ss[n + 1].comms[cs[n].env.addr].tag == Issued(ss, cs, n)
      && SharedUsable(ss[n])
      && var out := Listen(ss[n], cs[n].dev, cs[n].env).1;
         out.handle.Some? && out.handle.value.tag == Issued(ss, cs, n)
  {
    TagTotal(ss, cs, n);
    RunInv(ss, cs, n);
    if n < |cs| && IssuesTag(ss[n], cs[n]) {
      assert StepOk(ss, cs, n);
      ListenExtends(ss[n], cs[n].dev, cs[n].env);
    }
  }

  lemma {:induction false} TagTotal(ss: seq<Proc>, cs: seq<Call>, n: nat)
    requires Run(ss, cs) && n < |ss|
    ensures ss[n].nextTag == Issued(ss, cs, n)
  {
    if n > 0 {
      TagTotal(ss, cs, n - 1);
      RunInv(ss, cs, n - 1);
      assert StepOk(ss, cs, n - 1);
      NextTagGrows(ss[n - 1], cs[n - 1], ss[n]);
    }
  }

  /** Whatever happens between two listens, endpoints closed and reopened
      included, the later one issues the larger tag; none exceeds
      ULLONG_MAX - 2, and the guard's addition never wraps. */
  lemma {:induction false} TagsIncrease(ss: seq<Proc>, cs: seq<Call>, i: nat, j: nat)
    requires Run(ss, cs) && i < j < |cs| && IssuesTag(ss[i], cs[i]) && IssuesTag(ss[j], cs[j])
    ensures cs[i].env.addr in ss[i + 1].comms && cs[j].env.addr in ss[j + 1].comms
    ensures ss[i + 1].comms[cs[i].env.addr].tag < ss[j + 1].comms[cs[j].env.addr].tag <= ULLONG_MAX - 2
  {
    assert StepOk(ss, cs, i) && StepOk(ss, cs, j);
    RunInv(ss, cs, i);
    RunInv(ss, cs, j);
    ListenExtends(ss[i], cs[i].dev, cs[i].env);
    ListenExtends(ss[j], cs[j].dev, cs[j].env);
    NextTagGrows(ss[i], cs[i], ss[i + 1]);
    NextTagMonotone(ss, cs, i + 1, j);
  }

  lemma {:induction false} GuardNeverWraps(ss: seq<Proc>, cs: seq<Call>, n: nat)
    requires Run(ss, cs) && n < |ss|
    ensures Succ64(ss[n].nextTag) == ss[n].nextTag + 1
    ensures TagsLeft(ss[n]) <==> ss[n].nextTag + 1 < ULLONG_MAX
  {
    RunInv(ss, cs, n);
  }

  // ---------------------------------------------- creates, closes, refcount

  predicate CreatesComm(s: Proc, c: Call) {
    match c
    case ListenCall(dev, env) => ListenWorks(s, dev, env)
    case ConnectCall(dev, _, env, conn) => ConnectWorks(s, dev, env, conn)
    case _ => false
  }

  function Created(ss: seq<Proc>, cs: seq<Call>, n: nat): nat
    requires n <= |ss| && n <= |cs|
  {
    if n == 0 then 0 else Created(ss, cs, n - 1) + if CreatesComm(ss[n - 1], cs[n - 1]) then 1 else 0
  }

  function Closed(cs: seq<Call>, n: nat): nat
    requires n <= |cs|
  {
    if n == 0 then 0 else Closed(cs, n - 1) + if cs[n - 1].CloseCall? then 1 else 0
  }

  /** listen and connect leave the other comms and every request alone. */
  lemma CreateKeepsOthers(s: Proc, c: Call, t: Proc)
    requires Inv(s) && Next(s, c, t) && (c.ListenCall? || c.ConnectCall?)
    ensures t.cfg == s.cfg && t.me == s.me
    ensures t.lib.posts == s.lib.posts && t.lib.nextPost == s.lib.nextPost
    ensures forall a :: a in s.comms ==> a in t.comms && t.comms[a] == s.comms[a]
    ensures !CreatesComm(s, c) ==> t.comms == s.comms
    ensures CreatesComm(s, c) ==>
      && t.comms == s.comms[c.env.addr := t.comms[c.env.addr]] && c.env.addr !in s.comms
      && t.comms[c.env.addr].requests == EmptyRequests()
      && t.comms[c.env.addr].epid.owner == s.me
      && if c.ListenCall? then t.comms[c.env.addr].remAddr.None? && t.comms[c.env.addr].tag == s.nextTag
         else t.comms[c.env.addr].remAddr == Some(c.h.epid) && t.comms[c.env.addr].tag == c.h.tag
  {
    match c
    case ListenCall(dev, env) =>
      ListenRollsBack(s, dev, env);
      if ListenWorks(s, dev, env) { ListenExtends(s, dev, env); }
    case ConnectCall(dev, h, env, conn) =>
      ConnectRollsBack(s, dev, h, env, conn);
      if ConnectWorks(s, dev, env, conn) { ConnectExtends(s, dev, h, env, conn); }
  }

  /** The live comms after a call: one more, one fewer, or the same. */
  predicate LiveAfter(s: Proc, c: Call, t: Proc) {
    if CreatesComm(s, c) then c.env.addr !in s.comms && t.comms.Keys == s.comms.Keys + {c.env.addr}
    else if c.CloseCall? then c.comm in s.comms && t.comms.Keys == s.comms.Keys - {c.comm}
    else t.comms.Keys == s.comms.Keys
  }

  lemma NextComms(s: Proc, c: Call, t: Proc)
    requires Inv(s) && Next(s, c, t)
    ensures LiveAfter(s, c, t) && t.cfg == s.cfg && t.me == s.me
  {
    if c.ListenCall? || c.ConnectCall? {
      CreateKeepsOthers(s, c, t);
    } else {
      RequestsKeepComms(s, c, t);
    }
  }

  lemma RequestsKeepComms(s: Proc, c: Call, t: Proc)
    requires Next(s, c, t) && !c.ListenCall? && !c.ConnectCall?
    ensures t.cfg == s.cfg && t.me == s.me
    ensures t.comms.Keys == if c.CloseCall? then s.comms.Keys - {c.comm} else s.comms.Keys
  {
  }

  lemma {:induction false} LiveCount(ss: seq<Proc>, cs: seq<Call>, n: nat)
    requires Run(ss, cs) && n < |ss|
    ensures |ss[n].comms| == Created(ss, cs, n) - Closed(cs, n)
    ensures ss[n].cfg == ss[0].cfg
  {
    if n > 0 {
      LiveCount(ss, cs, n - 1);
      RunInv(ss, cs, n - 1);
      assert StepOk(ss, cs, n - 1);
      NextComms(ss[n - 1], cs[n - 1], ss[n]);
      assert |ss[n].comms.Keys| == |ss[n].comms| && |ss[n - 1].comms.Keys| == |ss[n - 1].comms|;
    }
  }

  /** The reference count is the number of successful listens and connects
      less the number of closes, so it never underflows; closing listeners
      with closeListen alone does not lower it. */
  lemma RefcountConservation(ss: seq<Proc>, cs: seq<Call>, n: nat)
    requires Run(ss, cs) && n < |ss| && ss[0].cfg.useShared
    ensures ss[n].shared.refcount == Created(ss, cs, n) - Closed(cs, n)
    ensures ss[n].shared == NO_SHARED <==> ss[n].comms == map[]
    ensures forall a :: a in ss[n].comms ==>
      && ss[n].comms[a].ep == ss[n].shared.ep && ss[n].comms[a].epid == ss[n].shared.epid
  {
    RunInv(ss, cs, n);
    LiveCount(ss, cs, n);
    assert ss[n].comms == map[] <==> |ss[n].comms| == 0;
    forall a | a in ss[n].comms
      ensures ss[n].comms[a].ep == ss[n].shared.ep && ss[n].comms[a].epid == ss[n].shared.epid
    {
      assert CommOk(ss[n], a);
    }
  }

  /** A comm lives until it is closed. */
  lemma {:induction false} StaysOpen(ss: seq<Proc>, cs: seq<Call>, a: Addr, m: nat, n: nat)
    requires Run(ss, cs) && m <= n < |ss| && a in ss[m].comms
    requires forall i :: m <= i < n ==> cs[i] != CloseCall(a)
    ensures a in ss[n].comms
    decreases n
  {
    if m < n {
      StaysOpen(ss, cs, a, m, n - 1);
      RunInv(ss, cs, n - 1);
      assert StepOk(ss, cs, n - 1);
      NextComms(ss[n - 1], cs[n - 1], ss[n]);
    }
  }

  // ----------------------------------------------------- endpoint lifetime

  /** In every reachable state: an endpoint is handed to psm2_ep_close at most
      once, and then no comm holds it and no MQ is on it; the same for MQs; and
      in shared mode at most one endpoint is open. */
  lemma EndpointLifetime(ss: seq<Proc>, cs: seq<Call>, n: nat)
    requires Run(ss, cs) && n < |ss|
    ensures NoDup(ss[n].lib.closed) && NoDup(ss[n].lib.finalized)
    ensures forall a :: a in ss[n].comms ==>
      ss[n].comms[a].ep !in ss[n].lib.closed && ss[n].comms[a].mq !in ss[n].lib.finalized
    ensures forall m :: m in ss[n].lib.mqs ==> ss[n].lib.mqs[m] !in ss[n].lib.closed
    ensures ss[n].cfg.useShared ==> ss[n].lib.eps.Keys <= {ss[n].shared.ep}
  {
    var s := ss[n];
    RunInv(ss, cs, n);
    forall a | a in s.comms ensures s.comms[a].ep !in s.lib.closed && s.comms[a].mq !in s.lib.finalized {
      assert CommOk(s, a) && EpOk(s, s.comms[a].ep) && MqOk(s, s.comms[a].mq);
    }
    forall m | m in s.lib.mqs ensures s.lib.mqs[m] !in s.lib.closed {
      assert MqOk(s, m);
      var a :| UsesMq(s, a, m);
      assert CommOk(s, a) && EpOk(s, s.comms[a].ep);
    }
    forall e | s.cfg.useShared && e in s.lib.eps ensures e == s.shared.ep {
      assert EpOk(s, e);
      var a :| UsesEp(s, a, e);
      assert CommOk(s, a);
    }
  }

  ghost predicate AllReleased(s: Proc) {
    && s.comms == map[] && s.shared == NO_SHARED
    && s.lib.eps == map[] && s.lib.mqs == map[] && s.lib.posts == map[]
    && (forall e :: 0 < e < s.lib.nextEp ==> e in s.lib.closed) && NoDup(s.lib.closed)
    && (forall m :: 0 < m < s.lib.nextMq ==> m in s.lib.finalized) && NoDup(s.lib.finalized)
  }

  /** A run ends with everything given back - every endpoint ever opened closed
      and every MQ finalized, each exactly once - if and only if it has made as
      many closeSend and closeRecv calls as successful listens and connects.
      accept and closeListen, wherever they come, make no difference, and a
      listener that only sees closeListen is never given back. */
  lemma ReleasedIffAllClosed(ss: seq<Proc>, cs: seq<Call>, n: nat)
    requires Run(ss, cs) && n < |ss|
    ensures AllReleased(ss[n]) <==> Created(ss, cs, n) == Closed(cs, n)
  {
    var s := ss[n];
    RunInv(ss, cs, n);
    LiveCount(ss, cs, n);
    if |s.comms| == 0 {
      assert s.comms == map[];
      forall e: Ep ensures e !in s.lib.eps && (0 < e < s.lib.nextEp ==> e in s.lib.closed) { assert EpOk(s, e); }
      forall m: Mq ensures m !in s.lib.mqs && (0 < m < s.lib.nextMq ==> m in s.lib.finalized) { assert MqOk(s, m); }
      forall p: nat ensures p !in s.lib.posts { assert PostOk(s, p); }
      assert s.lib.eps == map[] && s.lib.mqs == map[] && s.lib.posts == map[];
    }
  }

  // -------------------------------------------------------------- devices

  function DevicesAfter(s: Proc, c: Call, before: map<Addr, int>): map<Addr, int> {
    if CreatesComm(s, c) then before[c.env.addr := c.dev]
    else if c.CloseCall? then before - {c.comm}
    else before
  }

  /** The device each live comm was created with. */
  function Devices(ss: seq<Proc>, cs: seq<Call>, n: nat): map<Addr, int>
    requires n <= |ss| && n <= |cs|
  {
    if n == 0 then map[] else DevicesAfter(ss[n - 1], cs[n - 1], Devices(ss, cs, n - 1))
  }

  predicate OneDevice(cfg: Config) {
    cfg.useShared && cfg.useDev && cfg.policy.MultiError?
  }

  /** What a step does to the shared record's unit. */
  predicate UnitAfter(s: Proc, c: Call, t: Proc) {
    if CreatesComm(s, c) then
      if s.shared.refcount == 0 then t.shared.unit == c.dev
      else t.shared.unit == s.shared.unit && (s.cfg.policy.MultiError? ==> s.shared.unit == c.dev)
    else t.shared.refcount != 0 ==> t.shared.unit == s.shared.unit
  }

  lemma NextUnit(s: Proc, c: Call, t: Proc)
    requires Inv(s) && Next(s, c, t) && s.cfg.useShared && s.cfg.useDev
    ensures UnitAfter(s, c, t)
  {
    match c
    case ListenCall(dev, env) =>
      ListenRollsBack(s, dev, env);
      if ListenWorks(s, dev, env) { ListenExtends(s, dev, env); }
    case ConnectCall(dev, h, env, conn) =>
      ConnectRollsBack(s, dev, h, env, conn);
      if ConnectWorks(s, dev, env, conn) { ConnectExtends(s, dev, h, env, conn); }
    case _ =>
  }

  ghost predicate Agree(s: Proc, ds: map<Addr, int>) {
    && ds.Keys == s.comms.Keys
    && forall a :: a in ds ==> ds[a] == s.shared.unit
  }

  lemma NextAgrees(s: Proc, c: Call, t: Proc, ds: map<Addr, int>)
    requires SharedOk(s) && SharedOk(t) && t.cfg == s.cfg && OneDevice(s.cfg) && Agree(s, ds)
    requires LiveAfter(s, c, t) && UnitAfter(s, c, t)
    ensures Agree(t, DevicesAfter(s, c, ds))
  {
    NoRefNoComm(s);
    NoRefNoComm(t);
    var after := DevicesAfter(s, c, ds);
    assert after.Keys == t.comms.Keys;
    forall a | a in after ensures after[a] == t.shared.unit {
      assert a in t.comms.Keys;
      if !(CreatesComm(s, c) && a == c.env.addr) { assert a in ds && ds[a] == s.shared.unit; }
    }
  }

  lemma NoRefNoComm(s: Proc)
    requires SharedOk(s) && s.cfg.useShared
    ensures s.shared.refcount == 0 <==> s.comms.Keys == {}
  {
    assert |s.comms.Keys| == |s.comms|;
  }

  /** Under the ERROR policy all live comms were created for the device of the
      shared endpoint, whatever was closed and reopened before. */
  lemma {:induction false} DeviceAgreement(ss: seq<Proc>, cs: seq<Call>, n: nat)
    requires Run(ss, cs) && n < |ss| && OneDevice(ss[0].cfg)
    ensures Agree(ss[n], Devices(ss, cs, n))
  {
    if n > 0 {
      DeviceAgreement(ss, cs, n - 1);
      LiveCount(ss, cs, n - 1);
      RunInv(ss, cs, n - 1);
      RunInv(ss, cs, n);
      assert StepOk(ss, cs, n - 1);
      NextComms(ss[n - 1], cs[n - 1], ss[n]);
      NextUnit(ss[n - 1], cs[n - 1], ss[n]);
      NextAgrees(ss[n - 1], cs[n - 1], ss[n], Devices(ss, cs, n - 1));
    }
  }

  /** The device of the call that opened the endpoint now shared. */
  function FirstDevice(ss: seq<Proc>, cs: seq<Call>, n: nat): int
    requires n <= |ss| && n <= |cs|
  {
    if n == 0 then 0
    else if CreatesComm(ss[n - 1], cs[n - 1]) && ss[n - 1].shared.refcount == 0 then cs[n - 1].dev
    else FirstDevice(ss, cs, n - 1)
  }

  /** Under either policy every live comm, whatever device it was asked for, is
      on the endpoint opened for the first of them. */
  lemma {:induction false} FirstDeviceShared(ss: seq<Proc>, cs: seq<Call>, n: nat, a: Addr)
    requires Run(ss, cs) && n < |ss| && ss[0].cfg.useShared && ss[0].cfg.useDev && a in ss[n].comms
    ensures ss[n].shared.unit == FirstDevice(ss, cs, n)
    ensures ss[n].comms[a].ep in ss[n].lib.eps
    ensures ss[n].lib.eps[ss[n].comms[a].ep] == EpInfo(ss[n].comms[a].epid, Some(FirstDevice(ss, cs, n)))
  {
    RunInv(ss, cs, n);
    LiveCount(ss, cs, n);
    assert CommOk(ss[n], a);
    assert n > 0;
    var s, c, t := ss[n - 1], cs[n - 1], ss[n];
    RunInv(ss, cs, n - 1);
    LiveCount(ss, cs, n - 1);
    assert StepOk(ss, cs, n - 1);
    NextComms(s, c, t);
    NextUnit(s, c, t);
    if b :| b in s.comms {
      FirstDeviceShared(ss, cs, n - 1, b);
    }
    assert t.shared.refcount == 0 ==> t.comms == map[];
    assert s.shared.refcount == 0 <==> s.comms == map[];
  }

  /** The endpoint a new comm is on: one opened for its device, if it needs one,
      with the id the library gave; else the one all the others are on. */
  lemma {:induction false} CreatedEndpoint(s: Proc, c: Call, t: Proc)
    requires Inv(s) && Next(s, c, t) && (c.ListenCall? || c.ConnectCall?) && CreatesComm(s, c)
    ensures c.env.addr in t.comms
    ensures
      var d := t.comms[c.env.addr];
      if !s.cfg.useShared || s.comms == map[] then
        && d.ep !in s.lib.eps && d.epid == Epid(s.me, c.env.inst)
        && t.lib.eps == s.lib.eps[d.ep := EpInfo(d.epid, if s.cfg.useDev then Some(c.dev) else None)]
      else
        t.lib.eps == s.lib.eps && forall a :: a in s.comms ==> s.comms[a].ep == d.ep && s.comms[a].epid == d.epid
  {
    EndpointNeeded(s);
    assert EpOk(s, s.lib.nextEp);
    CreateKeepsOthers(s, c, t);
    forall a | a in s.comms && s.cfg.useShared
      ensures s.comms[a].ep == s.shared.ep && s.comms[a].epid == s.shared.epid
    {
      assert CommOk(s, a);
    }
  }

  /** No call changes what an open endpoint was opened for. */
  lemma {:induction false} EndpointsKept(s: Proc, c: Call, t: Proc, e: Ep)
    requires Inv(s) && Next(s, c, t) && e in s.lib.eps && e in t.lib.eps
    ensures t.lib.eps[e] == s.lib.eps[e]
  {
    if c.ListenCall? || c.ConnectCall? {
      if CreatesComm(s, c) { CreatedEndpoint(s, c, t); }
      else if c.ListenCall? { ListenRollsBack(s, c.dev, c.env); }
      else { ConnectRollsBack(s, c.dev, c.h, c.env, c.conn); }
    }
  }

  /** The endpoint of comm `a` was opened for the device the comm was created for. */
  ghost predicate OnItsDevice(s: Proc, ds: map<Addr, int>, a: Addr) {
    a in s.comms ==>
      && a in ds && s.comms[a].ep in s.lib.eps
      && s.lib.eps[s.comms[a].ep].unit == if s.cfg.useDev then Some(ds[a]) else None
  }

  /** Without sharing, every live comm's endpoint was opened for the very device
      the comm was created for, or for none if device numbers are not used. */
  lemma {:induction false} PrivateDevices(ss: seq<Proc>, cs: seq<Call>, n: nat, a: Addr)
    requires Run(ss, cs) && n < |ss| && !ss[0].cfg.useShared
    ensures OnItsDevice(ss[n], Devices(ss, cs, n), a)
  {
    LiveCount(ss, cs, n);
    if n > 0 && a in ss[n].comms {
      PrivateDevices(ss, cs, n - 1, a);
      LiveCount(ss, cs, n - 1);
      RunInv(ss, cs, n - 1);
      RunInv(ss, cs, n);
      assert StepOk(ss, cs, n - 1);
      PrivateStep(ss[n - 1], cs[n - 1], ss[n], Devices(ss, cs, n - 1), a);
    }
  }

  lemma PrivateStep(s: Proc, c: Call, t: Proc, ds: map<Addr, int>, a: Addr)
    requires Inv(s) && Inv(t) && Next(s, c, t) && !s.cfg.useShared && OnItsDevice(s, ds, a)
    ensures OnItsDevice(t, DevicesAfter(s, c, ds), a)
  {
    NextComms(s, c, t);
    assert CommOk(t, a);
    if a in s.comms && a in t.comms {
      EndpointOfComm(s, c, t, a);
      EndpointsKept(s, c, t, t.comms[a].ep);
      if CreatesComm(s, c) { CreateKeepsOthers(s, c, t); }
    } else if CreatesComm(s, c) && a == c.env.addr {
      CreatedEndpoint(s, c, t);
    }
  }

  lemma EndpointOfComm(s: Proc, c: Call, t: Proc, a: Addr)
    requires Inv(s) && Next(s, c, t) && a in s.comms && a in t.comms
    ensures t.comms[a].ep == s.comms[a].ep
  {
    if c.ListenCall? || c.ConnectCall? { CreateKeepsOthers(s, c, t); }
  }

  /** What listen and connect need, in what their callers have seen: how many
      tags were issued, whether a comm is open, and which device came first. */
  lemma CreationInRun(ss: seq<Proc>, cs: seq<Call>, n: nat, dev: int, h: Handle, env: InitEnv, conn: ConnEnv)
    requires Run(ss, cs) && n < |ss|
    ensures SharedUsable(ss[n]) && Closed(cs, n) <= Created(ss, cs, n)
    ensures
      var (cfg, alone) := (ss[0].cfg, !ss[0].cfg.useShared || Created(ss, cs, n) == Closed(cs, n));
      var works :=
        && env.addr != NULL && env.mq.Ok?
        && (alone ==> env.opts.Ok? && env.open.Ok?)
        && (!alone && cfg.useDev && cfg.policy.MultiError? ==> FirstDevice(ss, cs, n) == dev);
      && (Listen(ss[n], dev, env).1.rc.NcclSuccess? <==> works && Issued(ss, cs, n) < ULLONG_MAX - 1)
      && (Connect(ss[n], dev, h, env, conn).1.rc.NcclSuccess? <==> works && conn.rc.Ok? && conn.peer.Ok?)
  {
    RunInv(ss, cs, n);
    LiveCount(ss, cs, n);
    TagCount(ss, cs, n);
    ListenSucceeds(ss[n], dev, env);
    ConnectSucceeds(ss[n], dev, h, env, conn);
    assert ss[n].comms == map[] <==> |ss[n].comms| == 0;
    if a :| a in ss[n].comms && ss[0].cfg.useShared && ss[0].cfg.useDev {
      FirstDeviceShared(ss, cs, n, a);
    }
  }

  // ----------------------------------------------- why close must be idle

  /** Every context pointer the library may hand back points into a live comm. */
  predicate ContextsLive(s: Proc) {
    forall p :: p in s.lib.posts ==> Live(s, s.lib.posts[p].ctx)
  }

  /** Every request pointer the comm has handed out is free or marked done. */
  predicate AllDone(s: Proc, a: Addr)
    requires a in s.comms
  {
    forall i :: 0 <= i < |s.comms[a].requests| && s.comms[a].requests[i].used ==> s.comms[a].requests[i].done
  }

  /** Closing a comm keeps the library's context pointers valid if and only if
      every slot of it in use is marked done: a done request that was not
      tested does no harm, one merely complete at the library does. */
  lemma CloseNeedsIdle(s: Proc, a: Addr)
    requires Inv(s) && a in s.comms
    ensures Releasable(s, a)
    ensures ContextsLive(Release(s, a)) <==> AllDone(s, a)
    ensures Idle(s, a) <==> AllDone(s, a)
  {
    LiveIsReleasable(s, a);
    var r := Release(s, a);
    forall p | p in s.lib.posts ensures Live(r, s.lib.posts[p].ctx) <==> s.lib.posts[p].ctx.comm != a {
      assert PostOk(s, p);
    }
    assert ContextsLive(r) <==> Idle(s, a);
    if AllDone(s, a) {
      forall p | p in s.lib.posts ensures s.lib.posts[p].ctx.comm != a { assert PostOk(s, p); }
    }
    if Idle(s, a) {
      forall i | 0 <= i < |s.comms[a].requests| && s.comms[a].requests[i].used
        ensures s.comms[a].requests[i].done
      {
        assert SlotOk(s, ReqPtr(a, i));
      }
    }
  }

  /** A comm closed too early, another one on its endpoint: once the request
      completes, the other comm's progress loop is handed a context pointer
      into the freed comm. */
  predicate Dangles(s: Proc, b: Addr, p: nat) {
    b in s.comms && p in Ready(s.lib, s.comms[b].ep) && !Live(s, s.lib.posts[p].ctx)
  }

  ghost predicate Endangers(s: Proc, e: NetEvent, b: Addr, p: nat) {
    Dangles(s.(lib := Net(s.lib, e)), b, p)
  }

  /** That can come about exactly when a slot in use was not done and another
      comm is on the endpoint. */
  lemma EarlyCloseDangles(s: Proc, a: Addr)
    requires Inv(s) && a in s.comms
    ensures Releasable(s, a)
    ensures (exists e, b, p :: Endangers(Release(s, a), e, b, p)) <==>
            !AllDone(s, a) && exists b :: b != a && UsesEp(s, b, s.comms[a].ep)
  {
    LiveIsReleasable(s, a);
    var r := Release(s, a);
    forall e, b, p | Endangers(r, e, b, p) ensures !AllDone(s, a) && b != a && UsesEp(s, b, s.comms[a].ep) {
      assert PostOk(s, p);
    }
    if b, i: nat :| b != a && UsesEp(s, b, s.comms[a].ep)
                    && i < |s.comms[a].requests| && s.comms[a].requests[i].used && !s.comms[a].requests[i].done {
      assert SlotOk(s, ReqPtr(a, i));
      var p := s.comms[a].requests[i].req;
      assert PostOk(s, p);
      assert Endangers(r, Complete(p, 0), b, p);
    }
  }

  /** Two listeners on one endpoint. */
  lemma TwoListeners() returns (ss: seq<Proc>, cs: seq<Call>)
    ensures Run(ss, cs) && |cs| == 2
    ensures
      var s := ss[2];
      && 1 in s.comms && 2 in s.comms && s.comms[1].ep == s.comms[2].ep
      && s.comms[1].remAddr.None? && s.comms[1].requests == EmptyRequests() && s.lib.nextPost == 0
  {
    var s0 := Initial(Config(true, false, MultiError), 0);
    RunStarts(s0.cfg, 0);
    var l1 := ListenCall(0, InitEnv(1, Ok, Ok, 1, Ok));
    var s1 := Listen(s0, l1.dev, l1.env).0;
    RunGrows([s0], [], l1, s1);
    ss, cs := [s0] + [s1], [] + [l1];
    RunInv(ss, cs, 1);
    SharedIsUsable(s1);
    var l2 := ListenCall(0, InitEnv(2, Ok, Ok, 1, Ok));
    var s2 := Listen(s1, l2.dev, l2.env).0;
    RunGrows(ss, cs, l2, s2);
    ss, cs := ss + [s2], cs + [l2];
  }

  /** Such a state is reached: two listeners share an endpoint, the first one's
      receive is complete and was not tested when its comm is closed, and the
      second one's next test is handed that context pointer. */
  lemma DanglingRun() returns (ss: seq<Proc>, cs: seq<Call>)
    ensures Run(ss, cs)
    ensures
      var s := ss[|cs|];
      && 1 in s.comms && 2 in s.comms && !Allowed(s, CloseCall(1))
      && Releasable(s, 1) && Dangles(Release(s, 1), 2, 0)
  {
    ss, cs := TwoListeners();
    var s2 := ss[2];
    var r := IrecvCall(1, 8, PostEnv(Ok, 0));
    var s3 := Post(s2, 1, ReqRecv, 8, r.post).0;
    RunGrows(ss, cs, r, s3);
    ss, cs := ss + [s3], cs + [r];
    ss := NetworkRun(ss, cs, [Complete(0, 8)]);
    cs := cs + Acts([Complete(0, 8)]);
    RunInv(ss, cs, 4);
    assert NetAll(s3.lib, [Complete(0, 8)]) == Net(s3.lib, Complete(0, 8));
    LiveIsReleasable(ss[4], 1);
    assert 0 in ss[4].lib.posts && ss[4].lib.posts[0].ctx == ReqPtr(1, 0);
  }

  // ------------------------------------------------- slots and the library

  /** The requests the library has under a context pointer. */
  function RequestsUnder(l: Lib, x: ReqPtr): set<nat> {
    set p | p in l.posts && l.posts[p].ctx == x
  }

  /** In every reachable state a slot that is in use and not done is the context
      of exactly one request of the library, one on its comm's endpoint, and a
      slot that is free or done of none. A free slot is all zero. */
  lemma SlotLibraryAgreement(ss: seq<Proc>, cs: seq<Call>, n: nat, x: ReqPtr)
    requires Run(ss, cs) && n < |ss| && Live(ss[n], x)
    ensures
      var s, sl := ss[n], At(ss[n], x);
      && RequestsUnder(s.lib, x) == (if sl.used && !sl.done then {sl.req} else {})
      && (sl.used && !sl.done ==> s.lib.posts[sl.req].ep == s.comms[x.comm].ep)
      && (!sl.used ==> sl == FREE)
      && x.idx < NUM_REQUESTS
  {
    RunInv(ss, cs, n);
    var s := ss[n];
    assert SlotOk(s, x) && CommOk(s, x.comm);
    forall p ensures p in RequestsUnder(s.lib, x) <==> At(s, x).used && !At(s, x).done && p == At(s, x).req {
      assert PostOk(s, p);
    }
    if At(s, x).used && !At(s, x).done { assert PostOk(s, At(s, x).req); }
  }
}
