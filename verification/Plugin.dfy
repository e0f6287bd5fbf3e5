/** The state of one process and the effect of each API call on it.

    A call's effect is given in one step, without the order in which the code
    acquires and gives back; what the environment decides (return codes, the
    address calloc finds, endpoint ids) comes in as a parameter. */
module Plugin {
  import opened Types
  import opened Psm2

  datatype Proc = Proc(cfg: Config, me: nat, shared: SharedEp, nextTag: nat,
                       comms: map<Addr, CommRec>, lib: Lib)

  function Initial(cfg: Config, me: nat): Proc {
    Proc(cfg, me, NO_SHARED, 0, map[], INITIAL)
  }

  // ------------------------------------------------------------ creation

  /** `addr` is what calloc returns, NULL included; the rest are return codes
      of the library and the `inst` of an endpoint id it hands out. */
  datatype InitEnv = InitEnv(addr: Addr, opts: Rc, open: Rc, inst: nat, mq: Rc)

  predicate Opens(s: Proc) {
    !s.cfg.useShared || s.shared.refcount == 0
  }

  predicate Mismatch(s: Proc, dev: int) {
    s.cfg.useDev && s.cfg.useShared && s.shared.refcount != 0 && s.shared.unit != dev
  }

  predicate EpGranted(s: Proc, dev: int, env: InitEnv) {
    && !(Mismatch(s, dev) && s.cfg.policy.MultiError?)
    && (Opens(s) ==> env.opts.Ok? && env.open.Ok?)
  }

  function OpenInfo(s: Proc, dev: int, env: InitEnv): EpInfo {
    EpInfo(Epid(s.me, env.inst), if s.cfg.useDev then Some(dev) else None)
  }

  /** The endpoint a new comm gets, and what acquiring it does to the library
      and to the shared record. */
  function GrantedEp(s: Proc): Ep {
    if Opens(s) then s.lib.nextEp else s.shared.ep
  }

  function GrantedEpid(s: Proc, env: InitEnv): Epid {
    if Opens(s) then Epid(s.me, env.inst) else s.shared.epid
  }

  function GrantLib(s: Proc, dev: int, env: InitEnv): Lib {
    if Opens(s) then EpOpen(s.lib, OpenInfo(s, dev, env)) else s.lib
  }

  function GrantShared(s: Proc, dev: int, env: InitEnv): SharedEp {
    if !s.cfg.useShared then s.shared
    else SharedEp(GrantedEp(s), GrantedEpid(s, env),
                  if Opens(s) && s.cfg.useDev then dev else s.shared.unit,
                  s.shared.refcount + 1)
  }

  function EmptyRequests(): seq<Slot> {
    seq(NUM_REQUESTS, _ => FREE)
  }

  /** A comm as calloc leaves it. */
  function BlankComm(): CommRec {
    CommRec(NULL, NO_EPID, NULL, false, NO_EPID, None, 0, EmptyRequests())
  }

  function NewComm(s: Proc, env: InitEnv): CommRec {
    CommRec(GrantedEp(s), GrantedEpid(s, env), s.lib.nextMq, s.cfg.useShared,
            NO_EPID, None, 0, EmptyRequests())
  }

  /** psm2comm_init: a comm with an endpoint and an MQ, or nothing but an
      endpoint opened and closed again. */
  predicate Creates(s: Proc, dev: int, env: InitEnv) {
    env.addr != NULL && EpGranted(s, dev, env) && env.mq.Ok?
  }

  /** What a shared record in use must refer to for a comm to be put on it. */
  predicate SharedUsable(s: Proc) {
    !Opens(s) ==> s.shared.ep in s.lib.eps
  }

  function Create(s: Proc, dev: int, env: InitEnv): Proc
    requires SharedUsable(s)
  {
    if Creates(s, dev, env) then
      s.(shared := GrantShared(s, dev, env),
         comms := s.comms[env.addr := NewComm(s, env)],
         lib := MqInit(GrantLib(s, dev, env), GrantedEp(s)))
    else if env.addr != NULL && EpGranted(s, dev, env) && Opens(s) then
      s.(lib := s.lib.(closed := s.lib.closed + [s.lib.nextEp], nextEp := s.lib.nextEp + 1))
    else
      s
  }

  // ------------------------------------------------------------ teardown

  /** The comm's reference is the last one to its endpoint. */
  predicate LastRef(s: Proc, a: Addr)
    requires a in s.comms
  {
    s.comms[a].sharedRef ==> s.shared.refcount == 1
  }

  /** Tearing `a` down is sound: its MQ is live, its reference is counted, and
      if the endpoint goes with it, nobody else has an MQ on it. */
  predicate Releasable(s: Proc, a: Addr) {
    && a in s.comms && NULL !in s.lib.mqs
    && (s.comms[a].mq != NULL ==> s.comms[a].mq in s.lib.mqs)
    && (s.comms[a].sharedRef ==> s.shared.refcount > 0)
    && (s.comms[a].ep != NULL && LastRef(s, a) ==>
          && s.comms[a].ep in s.lib.eps
          && forall m :: m in s.lib.mqs && s.lib.mqs[m] == s.comms[a].ep ==> m == s.comms[a].mq)
  }

  /** psm2comm_fini; its return code depends on the library alone. */
  function Release(s: Proc, a: Addr): Proc
    requires Releasable(s, a)
  {
    var c := s.comms[a];
    var l := if c.mq != NULL then MqFinalize(s.lib, c.mq) else s.lib;
    var closes := c.ep != NULL && LastRef(s, a);
    s.(shared := if !c.sharedRef then s.shared
                 else if closes then NO_SHARED
                 else s.shared.(refcount := s.shared.refcount - 1),
       comms := s.comms - {a},
       lib := if closes then EpClose(l, c.ep) else l)
  }

  // ------------------------------------------------------- listen, connect

  predicate TagsLeft(s: Proc) {
    Succ64(s.nextTag) < ULLONG_MAX
  }

  datatype ListenOut = ListenOut(rc: NcclResult, comm: Addr, handle: Option<Handle>)

  function Listen(s: Proc, dev: int, env: InitEnv): (Proc, ListenOut)
    requires SharedUsable(s)
  {
    if !TagsLeft(s) then (s, ListenOut(NcclInternalError, NULL, None))
    else if !Creates(s, dev, env) then
      (Create(s, dev, env), ListenOut(NcclInternalError, NULL, None))
    else
      var c := NewComm(s, env).(tag := s.nextTag);
      (Create(s, dev, env).(comms := s.comms[env.addr := c],
                            nextTag := Succ64(s.nextTag)),
       ListenOut(NcclSuccess, env.addr, Some(Handle(c.epid, c.tag))))
  }

  /** psm2_ep_connect returns a code, a code for the one peer, and its address. */
  datatype ConnEnv = ConnEnv(rc: Rc, peer: Rc)

  datatype ConnectOut = ConnectOut(rc: NcclResult, comm: Addr)

  /** The state in which psm2_nccl_connect has its comm set up for `h`. */
  function Connecting(s: Proc, dev: int, h: Handle, env: InitEnv): Proc
    requires SharedUsable(s) && Creates(s, dev, env)
  {
    Create(s, dev, env).(comms := s.comms[env.addr := NewComm(s, env).(remEpid := h.epid, tag := h.tag)])
  }

  /** After a failed connection only the endpoint's open and close remain, and
      the MQ's init and finalize. */
  function Connect(s: Proc, dev: int, h: Handle, env: InitEnv, conn: ConnEnv): (Proc, ConnectOut)
    requires SharedUsable(s)
  {
    if !Creates(s, dev, env) then
      (Create(s, dev, env), ConnectOut(NcclInternalError, NULL))
    else if conn.rc.Ok? && conn.peer.Ok? then
      var c := NewComm(s, env).(remEpid := h.epid, tag := h.tag, remAddr := Some(h.epid));
      (Create(s, dev, env).(comms := s.comms[env.addr := c]), ConnectOut(NcclSuccess, env.addr))
    else
      var l := s.lib.(nextMq := s.lib.nextMq + 1, finalized := s.lib.finalized + [s.lib.nextMq]);
      (s.(lib := if Opens(s) then l.(closed := l.closed + [l.nextEp], nextEp := l.nextEp + 1) else l),
       ConnectOut(NcclInternalError, NULL))
  }

  // ------------------------------------------------------------- requests

  predicate Live(s: Proc, x: ReqPtr) {
    x.comm in s.comms && x.idx < |s.comms[x.comm].requests|
  }

  function At(s: Proc, x: ReqPtr): Slot
    requires Live(s, x)
  {
    s.comms[x.comm].requests[x.idx]
  }

  function SetSlot(s: Proc, x: ReqPtr, sl: Slot): (r: Proc)
    requires Live(s, x)
    ensures Live(r, x)
  {
    var c := s.comms[x.comm];
    s.(comms := s.comms[x.comm := c.(requests := c.requests[x.idx := sl])])
  }

  /** The lowest free slot, or the number of slots when all are in use. */
  function FirstFree(rs: seq<Slot>): (i: nat)
    ensures i <= |rs|
    ensures i < |rs| ==> !rs[i].used
    ensures forall k :: 0 <= k < i ==> rs[k].used
  {
    if rs == [] || !rs[0].used then 0 else 1 + FirstFree(rs[1..])
  }

  /** The library's return code, and what it leaves in `r->req` when it fails. */
  datatype PostEnv = PostEnv(rc: Rc, junk: nat)

  datatype PostOut = PostOut(rc: NcclResult, req: Option<ReqPtr>)

  function PostedSlot(s: Proc, a: Addr, kind: ReqType): Slot
    requires a in s.comms
  {
    Slot(true, a, s.comms[a].ep, s.comms[a].mq, s.lib.nextPost, kind, false, 0)
  }

  function PostedPosting(s: Proc, a: Addr, i: nat, kind: ReqType, len: nat): Posting
    requires a in s.comms
  {
    Posting(s.comms[a].ep, ReqPtr(a, i), kind, s.comms[a].tag, ULLONG_MAX,
            if kind.ReqSend? then s.comms[a].remAddr else None, len, None)
  }

  predicate Posts(s: Proc, a: Addr, env: PostEnv)
    requires a in s.comms
  {
    FirstFree(s.comms[a].requests) < |s.comms[a].requests| && env.rc.Ok?
  }

  /** isend and irecv: the lowest free slot carries the request, unless there is
      none (success with a NULL request) or the library refuses it. */
  function Post(s: Proc, a: Addr, kind: ReqType, len: nat, env: PostEnv): (Proc, PostOut)
    requires a in s.comms
  {
    var i := FirstFree(s.comms[a].requests);
    if i == |s.comms[a].requests| then (s, PostOut(NcclSuccess, None))
    else if env.rc.Failed? then (s, PostOut(NcclInternalError, None))
    else
      (SetSlot(s, ReqPtr(a, i), PostedSlot(s, a, kind))
       .(lib := Enqueue(s.lib, PostedPosting(s, a, i, kind, len))),
       PostOut(NcclSuccess, Some(ReqPtr(a, i))))
  }

  // ------------------------------------------------------------- progress

  /** A slot when the completions of `ps` have been taken from the library: it
      is done if the posting it holds is among them, and then has its size. */
  function DrainSlot(l: Lib, ps: set<nat>, sl: Slot): Slot {
    if sl.used && !sl.done && sl.req in ps && sl.req in l.posts && l.posts[sl.req].comp.Some?
    then sl.(done := true,
             recvSize := if sl.kind.ReqRecv? then l.posts[sl.req].comp.value else sl.recvSize)
    else sl
  }

  function DrainComm(l: Lib, ps: set<nat>, c: CommRec): (r: CommRec)
    ensures |r.requests| == |c.requests|
    ensures forall i :: 0 <= i < |c.requests| ==> r.requests[i] == DrainSlot(l, ps, c.requests[i])
  {
    c.(requests := seq(|c.requests|, i requires 0 <= i < |c.requests| => DrainSlot(l, ps, c.requests[i])))
  }

  function Drain(s: Proc, ps: set<nat>): Proc {
    s.(comms := map a | a in s.comms :: DrainComm(s.lib, ps, s.comms[a]), lib := Retire(s.lib, ps))
  }

  /** A progress loop on a queue that stays as it is until the loop ends. */
  function DrainQueue(s: Proc, ep: Ep): Proc {
    Drain(s, Ready(s.lib, ep))
  }

  /** `size` is None when `*size` is not written. */
  datatype TestOut = TestOut(rc: NcclResult, done: bool, size: Option<nat>)

  function Test(s: Proc, x: ReqPtr): (Proc, TestOut)
    requires Live(s, x)
  {
    if !At(s, x).used then (s, TestOut(NcclInternalError, false, None))
    else
      var d := DrainQueue(s, s.comms[x.comm].ep);
      var sl := At(d, x);
      if !sl.done then (d, TestOut(NcclSuccess, false, None))
      else (SetSlot(d, x, FREE),
            TestOut(NcclSuccess, true, if sl.kind.ReqRecv? then Some(sl.recvSize) else None))
  }
}
