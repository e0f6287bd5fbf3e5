/** Any number of processes, one network.

    A comm's address is reused after free, an endpoint id may come back after a
    reopen; so every comm ever created gets a serial number here, and the
    history says which listen issued the handle a sender was connected with. */
module World {
  import opened Types
  import opened Psm2
  import opened Plugin
  import opened Invariants
  import opened Runs

  // ----------------------------------------------------------- tag matching

  /** The library compares the bits of two tags that are set in the mask. */
  predicate TagMatch(a: nat, b: nat, mask: nat) {
    mask == 0 || ((mask % 2 == 1 ==> a % 2 == b % 2) && TagMatch(a / 2, b / 2, mask / 2))
  }

  function Pow2(n: nat): (r: nat)
    ensures 1 <= r
  {
    if n == 0 then 1 else 2 * Pow2(n - 1)
  }

  /** With all n bits in the mask, tags of n bits match only if equal. */
  lemma {:induction false} FullMask(a: nat, b: nat, n: nat)
    requires a < Pow2(n) && b < Pow2(n)
    ensures TagMatch(a, b, Pow2(n) - 1) <==> a == b
  {
    if n > 0 {
      assert (Pow2(n) - 1) / 2 == Pow2(n - 1) - 1;
      FullMask(a / 2, b / 2, n - 1);
    }
  }

  lemma {:induction false} Pow2Sum(a: nat, b: nat)
    ensures Pow2(a + b) == Pow2(a) * Pow2(b)
  {
    if a > 0 { Pow2Sum(a - 1, b); }
  }

  lemma Pow2Twice(n: nat, v: nat)
    requires Pow2(n) == v
    ensures Pow2(2 * n) == v * v
  {
    Pow2Sum(n, n);
  }

  lemma FullMask64(a: nat, b: nat)
    requires a <= ULLONG_MAX && b <= ULLONG_MAX
    ensures TagMatch(a, b, ULLONG_MAX) <==> a == b
  {
    Pow2Twice(2, 4);
    Pow2Twice(4, 16);
    Pow2Twice(8, 0x100);
    Pow2Twice(16, 0x1_0000);
    Pow2Twice(32, 0x1_0000_0000);
    FullMask(a, b, 64);
  }

  // ------------------------------------------------------------------ state

  /** What a comm was created for: a listener with the handle it issued, or a
      sender connected with the handle that comm number `peer` issued. */
  datatype Role = Listener(handle: Handle) | Sender(peer: nat)

  datatype Message = Message(from: nat, dst: Epid, tag: nat, len: nat)

  /** A message of comm number `from` consumed by a receive of comm number `to`. */
  datatype Match = Match(from: nat, to: nat)

  datatype Place = Place(proc: nat, addr: Addr)
  datatype PostId = PostId(proc: nat, post: nat)

  datatype State = State(procs: map<nat, Proc>,
                         serial: map<Place, nat>, roles: map<nat, Role>, nextSerial: nat,
                         poster: map<PostId, nat>,
                         wire: map<nat, Message>, nextMessage: nat,
                         log: seq<Match>)

  ghost predicate Start(w: State) {
    && (forall p :: p in w.procs ==> w.procs[p] == Initial(w.procs[p].cfg, p))
    && w == State(w.procs, map[], map[], 0, map[], map[], 0, [])
  }

  /** A call in process `proc` - connect with the handle that comm number `via`
      issued - or the network completing a send, or handing message `msg` to a
      receive. */
  datatype Event =
    | Calls(proc: nat, call: Call, via: nat)
    | SendDone(proc: nat, post: nat)
    | Deliver(proc: nat, post: nat, msg: nat)

  function CreatedRole(w: State, c: Call, t: Proc, via: nat): Role
    requires c.ListenCall? || c.ConnectCall?
  {
    if c.ListenCall? && c.env.addr in t.comms
    then Listener(Handle(t.comms[c.env.addr].epid, t.comms[c.env.addr].tag))
    else Sender(via)
  }

  /** The history after a call that takes process `p` to `t`. */
  function Record(w: State, p: nat, c: Call, t: Proc, via: nat): State
    requires p in w.procs
  {
    var s, v := w.procs[p], w.(procs := w.procs[p := t]);
    var q := s.lib.nextPost;
    if CreatesComm(s, c) then
      v.(serial := w.serial[Place(p, c.env.addr) := w.nextSerial],
         roles := w.roles[w.nextSerial := CreatedRole(w, c, t, via)],
         nextSerial := w.nextSerial + 1)
    else if c.CloseCall? then
      v.(serial := w.serial - {Place(p, c.comm)})
    else if q in t.lib.posts && Place(p, t.lib.posts[q].ctx.comm) in w.serial then
      var post := t.lib.posts[q];
      var u := w.serial[Place(p, post.ctx.comm)];
      var v' := v.(poster := w.poster[PostId(p, q) := u]);
      if post.kind.ReqSend? && post.dst.Some?
      then v'.(wire := w.wire[w.nextMessage := Message(u, post.dst.value, post.tag, post.len)],
               nextMessage := w.nextMessage + 1)
      else v'
    else v
  }

  function Min(a: nat, b: nat): nat { if a < b then a else b }

  /** A receive in flight takes a message for its endpoint whose tag matches. */
  predicate Matches(l: Lib, q: nat, m: Message) {
    && q in l.posts && l.posts[q].kind.ReqRecv? && l.posts[q].comp.None?
    && l.posts[q].ep in l.eps && l.eps[l.posts[q].ep].epid == m.dst
    && TagMatch(l.posts[q].tag, m.tag, l.posts[q].mask)
  }

  ghost predicate Next(w: State, e: Event, v: State) {
    e.proc in w.procs && e.proc in v.procs &&
    match e
    case Calls(p, c, via) =>
      && !c.NetworkActs? && Runs.Next(w.procs[p], c, v.procs[p])
      && (c.ConnectCall? ==> via in w.roles && w.roles[via].Listener? && w.roles[via].handle == c.h)
      && v == Record(w, p, c, v.procs[p], via)
    case SendDone(p, q) =>
      var s := w.procs[p];
      && q in s.lib.posts && s.lib.posts[q].kind.ReqSend? && s.lib.posts[q].comp.None?
      && v == w.(procs := w.procs[p := s.(lib := Net(s.lib, Complete(q, s.lib.posts[q].len)))])
    case Deliver(p, q, m) =>
      var s := w.procs[p];
      && m in w.wire && Matches(s.lib, q, w.wire[m]) && PostId(p, q) in w.poster
      && v == w.(procs := w.procs[p := s.(lib := Net(s.lib, Complete(q, Min(w.wire[m].len, s.lib.posts[q].len))))],
                 wire := w.wire - {m},
                 log := w.log + [Match(w.wire[m].from, w.poster[PostId(p, q)])])
  }

  // -------------------------------------------------------------- invariant

  ghost predicate ProcOk(w: State, p: nat) {
    p in w.procs ==> Inv(w.procs[p]) && w.procs[p].me == p
  }

  /** A listener is on the endpoint and has the tag of the handle it issued, a
      sender the destination and the tag of the handle it was given. */
  ghost predicate CommRole(w: State, p: nat, a: Addr) {
    if p in w.procs && a in w.procs[p].comms then
      var c := w.procs[p].comms[a];
      && Place(p, a) in w.serial && w.serial[Place(p, a)] in w.roles
      && var r := w.roles[w.serial[Place(p, a)]];
         if r.Listener? then c.remAddr.None? && r.handle == Handle(c.epid, c.tag) && c.epid.owner == p
         else
           && r.peer in w.roles && w.roles[r.peer].Listener?
           && c.remAddr == Some(w.roles[r.peer].handle.epid) && c.tag == w.roles[r.peer].handle.tag
    else Place(p, a) !in w.serial
  }

  /** A listener's tag was issued by the process its handle names. */
  ghost predicate RoleOk(w: State, u: nat) {
    u in w.roles ==>
      && u < w.nextSerial
      && (w.roles[u].Listener? ==>
            var h := w.roles[u].handle;
            h.epid.owner in w.procs && h.tag < w.procs[h.epid.owner].nextTag)
      && (w.roles[u].Sender? ==> w.roles[u].peer in w.roles && w.roles[w.roles[u].peer].Listener?)
  }

  /** No process issues a tag twice, to whatever endpoint. */
  ghost predicate TagsApart(w: State, u: nat, v: nat) {
    u in w.roles && v in w.roles && u != v && w.roles[u].Listener? && w.roles[v].Listener?
    && w.roles[u].handle.epid.owner == w.roles[v].handle.epid.owner
    ==> w.roles[u].handle.tag != w.roles[v].handle.tag
  }

  /** A posting was made by the comm its context points to, a receive by a
      listener, a send by a sender. */
  ghost predicate PosterOk(w: State, p: nat, q: nat) {
    p in w.procs && q in w.procs[p].lib.posts ==>
      var s := w.procs[p];
      var post := s.lib.posts[q];
      && Place(p, post.ctx.comm) in w.serial && post.ctx.comm in s.comms
      && PostId(p, q) in w.poster && w.poster[PostId(p, q)] == w.serial[Place(p, post.ctx.comm)]
      && (post.kind.ReqRecv? <==> s.comms[post.ctx.comm].remAddr.None?)
      && post.tag == s.comms[post.ctx.comm].tag
  }

  /** A message carries the handle its sender was connected with. */
  ghost predicate MessageOk(w: State, m: nat) {
    m in w.wire ==>
      && m < w.nextMessage
      && w.wire[m].from in w.roles && w.roles[w.wire[m].from].Sender?
      && var peer := w.roles[w.wire[m].from].peer;
         && peer in w.roles && w.roles[peer].Listener?
         && w.wire[m].dst == w.roles[peer].handle.epid && w.wire[m].tag == w.roles[peer].handle.tag
  }

  /** The message came from a sender connected with a handle of the receiver. */
  ghost predicate Routed(w: State, m: Match) {
    m.from in w.roles && m.to in w.roles && w.roles[m.from] == Sender(m.to) && w.roles[m.to].Listener?
  }

  ghost predicate LogOk(w: State, i: nat) {
    i < |w.log| ==> Routed(w, w.log[i])
  }

  ghost predicate WInv(w: State) {
    && (forall p :: ProcOk(w, p))
    && (forall p, a :: CommRole(w, p, a))
    && (forall u :: RoleOk(w, u))
    && (forall u, v :: TagsApart(w, u, v))
    && (forall p, q :: PosterOk(w, p, q))
    && (forall m :: MessageOk(w, m))
    && (forall i :: LogOk(w, i))
  }

  lemma StartInv(w: State)
    requires Start(w)
    ensures WInv(w)
  {
    forall p ensures ProcOk(w, p) {
      if p in w.procs { InitialInv(w.procs[p].cfg, p); }
    }
  }

  // ------------------------------------------------------ one process moves

  /** What any call keeps of a comm and of a posting. */
  ghost predicate Keeps(s: Proc, t: Proc, a: Addr, q: nat) {
    && (a in s.comms && a in t.comms ==>
          t.comms[a] == s.comms[a].(requests := t.comms[a].requests))
    && (q in t.lib.posts && q in s.lib.posts ==>
          t.lib.posts[q] == s.lib.posts[q].(comp := t.lib.posts[q].comp))
    && (q in t.lib.posts && q !in s.lib.posts ==> q == s.lib.nextPost)
  }

  /** A comm just created has the tag and the peer it was created for. */
  ghost predicate CreatedFor(s: Proc, c: Call, t: Proc) {
    CreatesComm(s, c) ==>
      var a := c.env.addr;
      && (c.ListenCall? || c.ConnectCall?) && a in t.comms && t.comms[a].epid.owner == s.me
      && (c.ListenCall? ==> t.comms[a].remAddr.None? && t.comms[a].tag == s.nextTag && t.nextTag == s.nextTag + 1)
      && (c.ConnectCall? ==> t.comms[a].remAddr == Some(c.h.epid) && t.comms[a].tag == c.h.tag)
      && s.lib.nextPost !in t.lib.posts
  }

  /** A new posting is the one isend or irecv asked for. */
  ghost predicate PostedFor(s: Proc, c: Call, t: Proc) {
    s.lib.nextPost in t.lib.posts ==>
      var post := t.lib.posts[s.lib.nextPost];
      && (c.IsendCall? || c.IrecvCall?) && c.comm in s.comms
      && post.ctx.comm == c.comm && post.tag == s.comms[c.comm].tag && post.len == c.size
      && (post.kind.ReqRecv? <==> s.comms[c.comm].remAddr.None?)
      && (post.kind.ReqSend? <==> s.comms[c.comm].remAddr.Some?)
      && (post.kind.ReqSend? ==> post.dst == s.comms[c.comm].remAddr)
  }

  /** What the rest of the world can see of a call. */
  ghost predicate Moves(s: Proc, c: Call, t: Proc) {
    && s.nextTag <= t.nextTag
    && LiveAfter(s, c, t) && (c.CloseCall? ==> Idle(t, c.comm)) && CreatedFor(s, c, t) && PostedFor(s, c, t)
    && forall a, q :: Keeps(s, t, a, q)
  }

  lemma NextMoves(s: Proc, c: Call, t: Proc)
    requires Inv(s) && Runs.Next(s, c, t)
    ensures Moves(s, c, t)
  {
    assert PostOk(s, s.lib.nextPost);
    NextComms(s, c, t);
    NextTagGrows(s, c, t);
    if c.ListenCall? || c.ConnectCall? { CreateKeepsOthers(s, c, t); }
    forall a, q ensures Keeps(s, t, a, q) { NextKeeps(s, c, t, a, q); }
  }

  lemma NextKeeps(s: Proc, c: Call, t: Proc, a: Addr, q: nat)
    requires Inv(s) && Runs.Next(s, c, t)
    ensures Keeps(s, t, a, q)
  {
    if c.ListenCall? || c.ConnectCall? {
      CreateKeepsOthers(s, c, t);
    } else {
      assert PostOk(s, s.lib.nextPost);
      RequestsKeep(s, c, t, a, q);
    }
  }

  lemma RequestsKeep(s: Proc, c: Call, t: Proc, a: Addr, q: nat)
    requires s.lib.nextPost !in s.lib.posts && Runs.Next(s, c, t) && !c.ListenCall? && !c.ConnectCall?
    ensures Keeps(s, t, a, q)
  {
    if c.TestCall? { TestKeeps(s, c.req, a, q); }
  }

  lemma TestKeeps(s: Proc, x: ReqPtr, a: Addr, q: nat)
    requires Live(s, x)
    ensures Keeps(s, Test(s, x).0, a, q)
  {
  }

  // ------------------------------------------------------- a call, world-wide

  ghost predicate CallStep(w: State, p: nat, c: Call, via: nat, v: State) {
    && p in w.procs && p in v.procs
    && Moves(w.procs[p], c, v.procs[p])
    && (c.ConnectCall? ==> via in w.roles && w.roles[via].Listener? && w.roles[via].handle == c.h)
    && v == Record(w, p, c, v.procs[p], via)
    && WInv(w)
  }

  /** Roles are never changed or forgotten. */
  lemma CallRoles(w: State, p: nat, c: Call, via: nat, v: State)
    requires CallStep(w, p, c, via, v)
    ensures forall u :: u in w.roles ==> u in v.roles && v.roles[u] == w.roles[u]
    ensures CreatesComm(w.procs[p], c) ==> w.nextSerial !in w.roles && v.roles.Keys == w.roles.Keys + {w.nextSerial}
    ensures !CreatesComm(w.procs[p], c) ==> v.roles == w.roles
  {
    assert RoleOk(w, w.nextSerial);
  }

  /** The role of a comm just created. */
  lemma NewRole(w: State, p: nat, c: Call, via: nat, v: State)
    requires CallStep(w, p, c, via, v) && CreatesComm(w.procs[p], c)
    ensures v.roles[w.nextSerial] == CreatedRole(w, c, v.procs[p], via)
    ensures c.ListenCall? ==>
      && v.roles[w.nextSerial].Listener? && v.roles[w.nextSerial].handle.epid.owner == p
      && v.roles[w.nextSerial].handle.tag == w.procs[p].nextTag
    ensures c.ConnectCall? ==> v.roles[w.nextSerial] == Sender(via)
  {
    assert ProcOk(w, p);
  }

  lemma CallComm(w: State, p: nat, c: Call, via: nat, v: State, p': nat, a: Addr)
    requires CallStep(w, p, c, via, v)
    ensures CommRole(v, p', a)
  {
    CallRoles(w, p, c, via, v);
    if p' == p && CreatesComm(w.procs[p], c) && a == c.env.addr {
      CallNewComm(w, p, c, via, v);
    } else {
      CallOldComm(w, p, c, via, v, p', a);
    }
  }

  lemma CallNewComm(w: State, p: nat, c: Call, via: nat, v: State)
    requires CallStep(w, p, c, via, v) && CreatesComm(w.procs[p], c)
    ensures CommRole(v, p, c.env.addr)
  {
    assert ProcOk(w, p);
    NewRole(w, p, c, via, v);
    CallRoles(w, p, c, via, v);
  }

  lemma CallOldComm(w: State, p: nat, c: Call, via: nat, v: State, p': nat, a: Addr)
    requires CallStep(w, p, c, via, v) && !(p' == p && CreatesComm(w.procs[p], c) && a == c.env.addr)
    requires forall u :: u in w.roles ==> u in v.roles && v.roles[u] == w.roles[u]
    ensures CommRole(v, p', a)
  {
    assert CommRole(w, p', a);
    if p' == p {
      assert Keeps(w.procs[p], v.procs[p], a, 0);
    } else if p' in w.procs {
      assert v.procs[p'] == w.procs[p'];
    }
  }

  lemma CallRole(w: State, p: nat, c: Call, via: nat, v: State, u: nat)
    requires CallStep(w, p, c, via, v)
    ensures RoleOk(v, u)
  {
    assert RoleOk(w, u) && RoleOk(w, w.nextSerial);
    CallRoles(w, p, c, via, v);
    if CreatesComm(w.procs[p], c) { NewRole(w, p, c, via, v); }
  }

  lemma CallTags(w: State, p: nat, c: Call, via: nat, v: State, u: nat, u': nat)
    requires CallStep(w, p, c, via, v)
    ensures TagsApart(v, u, u')
  {
    assert TagsApart(w, u, u') && RoleOk(w, u) && RoleOk(w, u');
    CallRoles(w, p, c, via, v);
    if CreatesComm(w.procs[p], c) { NewRole(w, p, c, via, v); }
  }

  lemma CallOldPoster(w: State, p: nat, c: Call, via: nat, v: State, q: nat)
    requires CallStep(w, p, c, via, v) && q != w.procs[p].lib.nextPost
    ensures PosterOk(v, p, q)
  {
    var s, t := w.procs[p], v.procs[p];
    assert PosterOk(w, p, q);
    if q in t.lib.posts { assert Keeps(s, t, t.lib.posts[q].ctx.comm, q); }
  }

  lemma CallNewPoster(w: State, p: nat, c: Call, via: nat, v: State)
    requires CallStep(w, p, c, via, v)
    ensures PosterOk(v, p, w.procs[p].lib.nextPost)
  {
    var s, t := w.procs[p], v.procs[p];
    if s.lib.nextPost in t.lib.posts {
      assert CommRole(w, p, c.comm) && Keeps(s, t, c.comm, 0);
    }
  }

  lemma CallPoster(w: State, p: nat, c: Call, via: nat, v: State, p': nat, q: nat)
    requires CallStep(w, p, c, via, v)
    ensures PosterOk(v, p', q)
  {
    if p' != p {
      assert PosterOk(w, p', q);
    } else if q == w.procs[p].lib.nextPost {
      CallNewPoster(w, p, c, via, v);
    } else {
      CallOldPoster(w, p, c, via, v, q);
    }
  }

  lemma CallMessage(w: State, p: nat, c: Call, via: nat, v: State, m: nat)
    requires CallStep(w, p, c, via, v)
    ensures MessageOk(v, m)
  {
    assert MessageOk(w, m);
    var s, t := w.procs[p], v.procs[p];
    CallRoles(w, p, c, via, v);
    if s.lib.nextPost in t.lib.posts { assert CommRole(w, p, c.comm); }
  }

  lemma CallProc(w: State, p: nat, c: Call, via: nat, v: State, p': nat)
    requires p in w.procs && p in v.procs && v == Record(w, p, c, v.procs[p], via)
    requires ProcOk(w, p') && ProcOk(v, p)
    ensures ProcOk(v, p')
  {
    if p' != p && p' in w.procs { assert v.procs[p'] == w.procs[p']; }
  }

  lemma CallLog(w: State, p: nat, c: Call, via: nat, v: State, i: nat)
    requires CallStep(w, p, c, via, v)
    ensures LogOk(v, i)
  {
    assert LogOk(w, i);
    CallRoles(w, p, c, via, v);
  }

  lemma CallInv(w: State, p: nat, c: Call, via: nat, v: State)
    requires CallStep(w, p, c, via, v) && ProcOk(v, p)
    ensures WInv(v)
  {
    forall p' ensures ProcOk(v, p') {
      assert ProcOk(w, p');
      CallProc(w, p, c, via, v, p');
    }
    forall p', a ensures CommRole(v, p', a) { CallComm(w, p, c, via, v, p', a); }
    forall u ensures RoleOk(v, u) { CallRole(w, p, c, via, v, u); }
    forall u, u' ensures TagsApart(v, u, u') { CallTags(w, p, c, via, v, u, u'); }
    forall p', q ensures PosterOk(v, p', q) { CallPoster(w, p, c, via, v, p', q); }
    forall m ensures MessageOk(v, m) { CallMessage(w, p, c, via, v, m); }
    forall i: nat ensures LogOk(v, i) { CallLog(w, p, c, via, v, i); }
  }

  lemma CallsInv(w: State, e: Event, v: State)
    requires WInv(w) && Next(w, e, v) && e.Calls?
    ensures WInv(v)
  {
    var p := e.proc;
    assert ProcOk(w, p);
    NextMoves(w.procs[p], e.call, v.procs[p]);
    NextInv(w.procs[p], e.call, v.procs[p]);
    NextComms(w.procs[p], e.call, v.procs[p]);
    CallInv(w, p, e.call, e.via, v);
  }

  // ---------------------------------------------------------- the network

  /** The call a world event is for its process. */
  function CallOf(w: State, e: Event): Call
    requires e.proc in w.procs
    requires e.Deliver? ==> e.msg in w.wire
    requires !e.Calls? ==> e.post in w.procs[e.proc].lib.posts
  {
    match e
    case Calls(_, c, _) => c
    case SendDone(p, q) => NetworkActs(Complete(q, w.procs[p].lib.posts[q].len))
    case Deliver(p, q, m) => NetworkActs(Complete(q, Min(w.wire[m].len, w.procs[p].lib.posts[q].len)))
  }

  /** A receive in flight is on the endpoint and has the tag of the handle that
      its comm issued, and compares all the bits. */
  lemma ReceiverHandle(w: State, p: nat, q: nat)
    requires WInv(w) && p in w.procs && q in w.procs[p].lib.posts && w.procs[p].lib.posts[q].kind.ReqRecv?
    ensures PostId(p, q) in w.poster && w.poster[PostId(p, q)] in w.roles
    ensures
      var l := w.procs[p].lib;
      var post := l.posts[q];
      && post.ep in l.eps && post.mask == ULLONG_MAX && post.tag <= ULLONG_MAX
      && w.roles[w.poster[PostId(p, q)]] == Listener(Handle(l.eps[post.ep].epid, post.tag))
  {
    var s := w.procs[p];
    var a := s.lib.posts[q].ctx.comm;
    assert ProcOk(w, p) && PosterOk(w, p, q) && PostOk(s, q);
    assert CommOk(s, a) && CommRole(w, p, a);
  }

  lemma IssuedTag(w: State, u: nat)
    requires WInv(w) && u in w.roles && w.roles[u].Listener?
    ensures w.roles[u].handle.tag < ULLONG_MAX
  {
    assert RoleOk(w, u) && ProcOk(w, w.roles[u].handle.epid.owner);
  }

  /** The library's test - the endpoint id, and the tags under the mask - lets a
      receive in flight take a message exactly if the sender was connected with
      the handle of the receive's own comm. */
  lemma MatchIsRight(w: State, p: nat, q: nat, m: nat)
    requires WInv(w) && p in w.procs && m in w.wire
    requires q in w.procs[p].lib.posts && w.procs[p].lib.posts[q].kind.ReqRecv? && w.procs[p].lib.posts[q].comp.None?
    ensures PostId(p, q) in w.poster
    ensures Matches(w.procs[p].lib, q, w.wire[m]) <==> Routed(w, Match(w.wire[m].from, w.poster[PostId(p, q)]))
  {
    assert MessageOk(w, m);
    ReceiverHandle(w, p, q);
    var u, peer := w.poster[PostId(p, q)], w.roles[w.wire[m].from].peer;
    IssuedTag(w, peer);
    assert TagsApart(w, u, peer);
    FullMask64(w.procs[p].lib.posts[q].tag, w.wire[m].tag);
  }

  lemma NetworkInv(w: State, e: Event, v: State)
    requires WInv(w) && Next(w, e, v) && !e.Calls?
    ensures WInv(v)
  {
    var p := e.proc;
    var s, t := w.procs[p], v.procs[p];
    assert ProcOk(w, p);
    NetInv(s, CallOf(w, e).event);
    forall p' ensures ProcOk(v, p') { assert ProcOk(w, p'); }
    forall p', a ensures CommRole(v, p', a) { assert CommRole(w, p', a); }
    forall u ensures RoleOk(v, u) { assert RoleOk(w, u); }
    forall u, u' ensures TagsApart(v, u, u') { assert TagsApart(w, u, u'); }
    forall p', q ensures PosterOk(v, p', q) { assert PosterOk(w, p', q); }
    forall m ensures MessageOk(v, m) { assert MessageOk(w, m); }
    if e.Deliver? { MatchIsRight(w, p, e.post, e.msg); }
    forall i: nat ensures LogOk(v, i) { assert LogOk(w, i); }
  }

  // ------------------------------------------------------------------ runs

  /** A step of the world is a step of one process. */
  lemma WorldStepsProcess(w: State, e: Event, v: State)
    requires Next(w, e, v)
    ensures Runs.Next(w.procs[e.proc], CallOf(w, e), v.procs[e.proc])
    ensures v.procs == w.procs[e.proc := v.procs[e.proc]]
    ensures !e.Calls? ==> NetEnabled(w.procs[e.proc].lib, CallOf(w, e).event)
  {
  }

  // ---------------------------------------------------------- the wire

  /** An isend that returns a request puts one message on the wire: of its size,
      from its comm, to the handle that comm was connected with. */
  lemma IsendSends(w: State, e: Event, v: State)
    requires WInv(w) && Next(w, e, v) && e.Calls? && e.call.IsendCall?
    ensures Place(e.proc, e.call.comm) in w.serial && e.call.comm in w.procs[e.proc].comms
    ensures
      var u := w.serial[Place(e.proc, e.call.comm)];
      && u in w.roles && w.roles[u].Sender? && w.roles[u].peer in w.roles && w.roles[w.roles[u].peer].Listener?
      && w.nextMessage !in w.wire
      && var h := w.roles[w.roles[u].peer].handle;
         if Post(w.procs[e.proc], e.call.comm, ReqSend, e.call.size, e.call.post).1.req.Some?
         then v.wire == w.wire[w.nextMessage := Message(u, h.epid, h.tag, e.call.size)]
              && v.nextMessage == w.nextMessage + 1
         else v.wire == w.wire && v.nextMessage == w.nextMessage
  {
    var s, t := w.procs[e.proc], v.procs[e.proc];
    assert ProcOk(w, e.proc) && CommRole(w, e.proc, e.call.comm) && MessageOk(w, w.nextMessage);
    assert PostOk(s, s.lib.nextPost);
  }

  /** Nothing else puts a message on the wire, and only its delivery takes one
      off; every delivery is logged. */
  lemma WireElse(w: State, e: Event, v: State)
    requires WInv(w) && Next(w, e, v) && !(e.Calls? && e.call.IsendCall?)
    ensures v.nextMessage == w.nextMessage
    ensures v.wire == (if e.Deliver? then w.wire - {e.msg} else w.wire)
    ensures |v.log| == |w.log| + (if e.Deliver? then 1 else 0)
  {
    if e.Calls? {
      assert ProcOk(w, e.proc);
      NextMoves(w.procs[e.proc], e.call, v.procs[e.proc]);
      if e.call.IrecvCall? { assert CommRole(w, e.proc, e.call.comm); }
    }
  }

  // ------------------------------------------------- what can always happen

  /** Any call its caller may make can be made; a connect, with a handle that
      was issued. */
  lemma CallPossible(w: State, p: nat, c: Call, via: nat)
    requires WInv(w) && p in w.procs && !c.NetworkActs? && Allowed(w.procs[p], c)
    requires c.ConnectCall? ==> via in w.roles && w.roles[via] == Listener(c.h)
    ensures exists v :: Next(w, Calls(p, c, via), v)
  {
    assert ProcOk(w, p);
    NeverStuck(w.procs[p], c);
    var t :| Runs.Next(w.procs[p], c, t);
    RecordProcs(w, p, c, t, via);
    var v := Record(w, p, c, t, via);
    assert Next(w, Calls(p, c, via), v);
  }

  lemma RecordProcs(w: State, p: nat, c: Call, t: Proc, via: nat)
    requires p in w.procs
    ensures Record(w, p, c, t, via).procs == w.procs[p := t]
  {
  }

  /** The library may complete any send in flight, and then a test of it says
      done, with no size. */
  lemma SendCompletes(w: State, p: nat, q: nat) returns (v: State)
    requires WInv(w) && p in w.procs && q in w.procs[p].lib.posts
    requires w.procs[p].lib.posts[q].kind.ReqSend? && w.procs[p].lib.posts[q].comp.None?
    ensures Next(w, SendDone(p, q), v) && p in v.procs
    ensures
      var x := w.procs[p].lib.posts[q].ctx;
      Live(v.procs[p], x) && Test(v.procs[p], x).1 == TestOut(NcclSuccess, true, None)
  {
    var s := w.procs[p];
    var t := s.(lib := Net(s.lib, Complete(q, s.lib.posts[q].len)));
    v := w.(procs := w.procs[p := t]);
    assert ProcOk(w, p) && PostOk(s, q);
    CompletedTest(s, q, s.lib.posts[q].len);
  }

  /** A message can be handed to a receive in flight exactly if it is from a
      sender connected with the handle of the receive's comm. Then the message
      is gone, and a test of the receive says done, with the message's length
      or the length it was posted for. */
  lemma MessageArrives(w: State, p: nat, q: nat, m: nat)
    requires WInv(w) && p in w.procs && m in w.wire
    requires q in w.procs[p].lib.posts && w.procs[p].lib.posts[q].kind.ReqRecv? && w.procs[p].lib.posts[q].comp.None?
    ensures PostId(p, q) in w.poster
    ensures (exists v :: Next(w, Deliver(p, q, m), v)) <==>
            Routed(w, Match(w.wire[m].from, w.poster[PostId(p, q)]))
    ensures
      var post, len := w.procs[p].lib.posts[q], w.wire[m].len;
      forall v :: Next(w, Deliver(p, q, m), v) ==>
        && v.wire == w.wire - {m}
        && v.log == w.log + [Match(w.wire[m].from, w.poster[PostId(p, q)])]
        && Live(v.procs[p], post.ctx)
        && Test(v.procs[p], post.ctx).1 ==
           TestOut(NcclSuccess, true, Some(if len < post.len then len else post.len))
  {
    MatchIsRight(w, p, q, m);
    var s := w.procs[p];
    var n := Min(w.wire[m].len, s.lib.posts[q].len);
    var t := s.(lib := Net(s.lib, Complete(q, n)));
    var v := w.(procs := w.procs[p := t], wire := w.wire - {m},
                log := w.log + [Match(w.wire[m].from, w.poster[PostId(p, q)])]);
    assert ProcOk(w, p) && PostOk(s, q);
    if Matches(s.lib, q, w.wire[m]) { assert Next(w, Deliver(p, q, m), v); }
    CompletedTest(s, q, n);
  }

  lemma CompletedTest(s: Proc, q: nat, n: nat)
    requires ReqInv(s) && q in s.lib.posts && s.lib.posts[q].comp.None? && n <= s.lib.posts[q].len
    ensures
      var t, x := s.(lib := Net(s.lib, Complete(q, n))), s.lib.posts[q].ctx;
      Live(t, x) &&
      Test(t, x).1 == TestOut(NcclSuccess, true, if s.lib.posts[q].kind.ReqRecv? then Some(n) else None)
  {
    assert PostOk(s, q);
  }

  ghost predicate WStep(ws: seq<State>, es: seq<Event>, i: nat) {
    i < |es| && i + 1 < |ws| ==> Next(ws[i], es[i], ws[i + 1])
  }

  ghost predicate WRun(ws: seq<State>, es: seq<Event>) {
    |ws| == |es| + 1 && Start(ws[0]) && forall i :: WStep(ws, es, i)
  }

  lemma {:induction false} WRunInv(ws: seq<State>, es: seq<Event>, n: nat)
    requires WRun(ws, es) && n < |ws|
    ensures WInv(ws[n])
  {
    if n == 0 {
      StartInv(ws[0]);
    } else {
      WRunInv(ws, es, n - 1);
      assert WStep(ws, es, n - 1);
      var w, e, v := ws[n - 1], es[n - 1], ws[n];
      if e.Calls? { CallsInv(w, e, v); } else { NetworkInv(w, e, v); }
    }
  }

  /** Routing. In every run of any processes, every message consumed so far was
      sent on a comm connected with a handle, and consumed by a receive posted
      on the comm whose listen issued that handle. */
  lemma Routing(ws: seq<State>, es: seq<Event>, n: nat, i: nat)
    requires WRun(ws, es) && n < |ws| && i < |ws[n].log|
    ensures Routed(ws[n], ws[n].log[i])
  {
    WRunInv(ws, es, n);
    assert LogOk(ws[n], i);
  }

  /** Two listens never issue the same handle, whichever endpoints they are on,
      so a handle names one listener for good. */
  lemma HandlesDistinct(ws: seq<State>, es: seq<Event>, n: nat, u: nat, v: nat)
    requires WRun(ws, es) && n < |ws| && u in ws[n].roles && v in ws[n].roles && u != v
    requires ws[n].roles[u].Listener? && ws[n].roles[v].Listener?
    ensures ws[n].roles[u].handle != ws[n].roles[v].handle
  {
    WRunInv(ws, es, n);
    assert TagsApart(ws[n], u, v);
  }
}
