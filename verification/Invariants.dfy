/** What holds between any two API calls, and that every call keeps it.

    Each clause is a predicate of one comm, endpoint, MQ, slot or posting, and
    the invariants quantify over these predicates. */
module Invariants {
  import opened Types
  import opened Psm2
  import opened Plugin

  // ------------------------------------------------------ endpoints and MQs

  /** A live comm holds an open endpoint and a live MQ on it. */
  ghost predicate CommOk(s: Proc, a: Addr) {
    a in s.comms ==>
      var c := s.comms[a];
      && a != NULL
      && c.ep in s.lib.eps && s.lib.eps[c.ep].epid == c.epid && c.epid.owner == s.me
      && c.mq in s.lib.mqs && s.lib.mqs[c.mq] == c.ep
      && c.sharedRef == s.cfg.useShared
      && (c.sharedRef ==> c.ep == s.shared.ep)
      && c.tag <= ULLONG_MAX
      && |c.requests| == NUM_REQUESTS
  }

  /** Two comms never have one MQ, and in private mode never one endpoint. */
  ghost predicate Apart(s: Proc, a: Addr, b: Addr) {
    a in s.comms && b in s.comms && a != b ==>
      && s.comms[a].mq != s.comms[b].mq
      && (!s.cfg.useShared ==> s.comms[a].ep != s.comms[b].ep)
  }

  ghost predicate UsesEp(s: Proc, a: Addr, e: Ep) { a in s.comms && s.comms[a].ep == e }
  ghost predicate UsesMq(s: Proc, a: Addr, m: Mq) { a in s.comms && s.comms[a].mq == m }

  /** An endpoint number is not issued yet, or open and in use by a live comm,
      or closed and in use by none. */
  ghost predicate EpOk(s: Proc, e: Ep) {
    if e in s.lib.eps then 0 < e < s.lib.nextEp && e !in s.lib.closed && exists a :: UsesEp(s, a, e)
    else 0 < e < s.lib.nextEp <==> e in s.lib.closed
  }

  ghost predicate MqOk(s: Proc, m: Mq) {
    if m in s.lib.mqs then 0 < m < s.lib.nextMq && m !in s.lib.finalized && exists a :: UsesMq(s, a, m)
    else 0 < m < s.lib.nextMq <==> m in s.lib.finalized
  }

  ghost predicate NoDup(xs: seq<nat>) {
    forall i, j :: 0 <= i < j < |xs| ==> xs[i] != xs[j]
  }

  /** refcount counts the live comms, and the record is zero exactly when there
      is none. In private mode it always is. */
  ghost predicate SharedOk(s: Proc) {
    if s.cfg.useShared then
      && s.shared.refcount == |s.comms|
      && (s.shared.refcount == 0 <==> s.shared == NO_SHARED)
      && (s.shared.refcount != 0 ==>
            && s.shared.ep in s.lib.eps
            && s.lib.eps[s.shared.ep] == EpInfo(s.shared.epid, if s.cfg.useDev then Some(s.shared.unit) else None))
      && (!s.cfg.useDev ==> s.shared.unit == 0)
      && s.shared.epid.owner == (if s.shared.refcount == 0 then 0 else s.me)
    else
      s.shared == NO_SHARED
  }

  ghost predicate EpInv(s: Proc) {
    && (forall a :: CommOk(s, a))
    && (forall a, b :: Apart(s, a, b))
    && (forall e :: EpOk(s, e))
    && (forall m :: MqOk(s, m))
    && NoDup(s.lib.closed) && NoDup(s.lib.finalized)
    && SharedOk(s)
    && s.nextTag < ULLONG_MAX && s.lib.nextEp > 0 && s.lib.nextMq > 0
  }

  // --------------------------------------------------- slots and the library

  /** A free slot is all zero. A used one names its comm and holds a posting,
      which the library still has exactly if the slot is not done. */
  ghost predicate SlotOk(s: Proc, x: ReqPtr) {
    Live(s, x) && At(s, x) != FREE ==>
      var sl := At(s, x);
      && sl.used && sl.comm == x.comm && !sl.kind.NoType?
      && sl.ep == s.comms[x.comm].ep && sl.mq == s.comms[x.comm].mq
      && sl.req < s.lib.nextPost
      && (sl.done <==> sl.req !in s.lib.posts)
      && (!sl.done ==> sl.recvSize == 0 && s.lib.posts[sl.req].ctx == x)
      && (sl.kind.ReqSend? ==> sl.recvSize == 0)
      && sl.recvSize <= INT_MAX
  }

  /** A posting the library has: its context is a used slot, not done, that
      holds this very posting, on the endpoint and with the tag of its comm. */
  ghost predicate PostOk(s: Proc, p: nat) {
    p in s.lib.posts ==>
      var post := s.lib.posts[p];
      && p < s.lib.nextPost
      && Live(s, post.ctx)
      && At(s, post.ctx).used && !At(s, post.ctx).done && At(s, post.ctx).req == p
      && At(s, post.ctx).kind == post.kind
      && post.ep == s.comms[post.ctx.comm].ep
      && post.tag == s.comms[post.ctx.comm].tag && post.mask == ULLONG_MAX
      && post.len <= INT_MAX
      && (post.comp.Some? ==> post.comp.value <= post.len)
  }

  /** No two slots hold one posting. */
  ghost predicate Unshared(s: Proc, x: ReqPtr, y: ReqPtr) {
    Live(s, x) && Live(s, y) && x != y && At(s, x).used && At(s, y).used ==> At(s, x).req != At(s, y).req
  }

  ghost predicate ReqInv(s: Proc) {
    && (forall x :: SlotOk(s, x))
    && (forall p :: PostOk(s, p))
    && (forall x, y :: Unshared(s, x, y))
  }

  ghost predicate Inv(s: Proc) {
    EpInv(s) && ReqInv(s)
  }

  lemma InitialInv(cfg: Config, me: nat)
    ensures Inv(Initial(cfg, me))
    ensures
      var s := Initial(cfg, me);
      && s.cfg == cfg && s.me == me && s.nextTag == 0 && s.comms == map[] && s.shared == SharedEp(NULL, NO_EPID, 0, 0)
      && s.lib.eps == map[] && s.lib.mqs == map[] && s.lib.posts == map[]
  {
  }

  // ------------------------------------------------------------- creation

  /** The allocator hands out no address in use. */
  predicate FreshAddr(s: Proc, env: InitEnv) {
    env.addr !in s.comms
  }

  lemma SharedIsUsable(s: Proc)
    requires EpInv(s)
    ensures SharedUsable(s)
  {
  }

  /** `r` is `s` with a comm created, its tag and peer set, and possibly a tag
      issued. */
  ghost predicate Extends(s: Proc, dev: int, env: InitEnv, c: CommRec, r: Proc) {
    && SharedUsable(s) && Creates(s, dev, env) && FreshAddr(s, env)
    && c == NewComm(s, env).(tag := c.tag, remEpid := c.remEpid, remAddr := c.remAddr)
    && c.tag <= ULLONG_MAX && r.nextTag < ULLONG_MAX
    && r == Create(s, dev, env).(comms := s.comms[env.addr := c], nextTag := r.nextTag)
  }

  lemma CreatedComm(s: Proc, dev: int, env: InitEnv, c: CommRec, r: Proc, a: Addr)
    requires EpInv(s) && Extends(s, dev, env, c, r)
    ensures CommOk(r, a)
  {
    assert CommOk(s, a);
    assert EpOk(s, s.lib.nextEp) && MqOk(s, s.lib.nextMq);
  }

  lemma CreatedApart(s: Proc, dev: int, env: InitEnv, c: CommRec, r: Proc, a: Addr, b: Addr)
    requires EpInv(s) && Extends(s, dev, env, c, r)
    ensures Apart(r, a, b)
  {
    assert CommOk(s, a) && CommOk(s, b) && Apart(s, a, b);
    assert EpOk(s, s.lib.nextEp) && MqOk(s, s.lib.nextMq);
  }

  lemma CreatedEp(s: Proc, dev: int, env: InitEnv, c: CommRec, r: Proc, e: Ep)
    requires EpInv(s) && Extends(s, dev, env, c, r)
    ensures EpOk(r, e)
  {
    assert EpOk(s, e);
    assert UsesEp(r, env.addr, GrantedEp(s));
    if e in s.lib.eps {
      var a :| UsesEp(s, a, e);
      assert UsesEp(r, a, e);
    }
  }

  lemma CreatedMq(s: Proc, dev: int, env: InitEnv, c: CommRec, r: Proc, m: Mq)
    requires EpInv(s) && Extends(s, dev, env, c, r)
    ensures MqOk(r, m)
  {
    assert MqOk(s, m);
    assert UsesMq(r, env.addr, s.lib.nextMq);
    if m in s.lib.mqs {
      var a :| UsesMq(s, a, m);
      assert UsesMq(r, a, m);
    }
  }

  lemma CreatedEpInv(s: Proc, dev: int, env: InitEnv, c: CommRec, r: Proc)
    requires EpInv(s) && Extends(s, dev, env, c, r)
    ensures EpInv(r)
  {
    forall a ensures CommOk(r, a) { CreatedComm(s, dev, env, c, r, a); }
    forall a, b ensures Apart(r, a, b) { CreatedApart(s, dev, env, c, r, a, b); }
    forall e ensures EpOk(r, e) { CreatedEp(s, dev, env, c, r, e); }
    forall m ensures MqOk(r, m) { CreatedMq(s, dev, env, c, r, m); }
    assert r.comms.Keys == s.comms.Keys + {env.addr};
    assert EpOk(s, s.lib.nextEp);
  }

  lemma CreatedReqInv(s: Proc, dev: int, env: InitEnv, c: CommRec, r: Proc)
    requires ReqInv(s) && Extends(s, dev, env, c, r)
    ensures ReqInv(r)
  {
    forall x ensures SlotOk(r, x) { assert SlotOk(s, x); }
    forall p ensures PostOk(r, p) { assert PostOk(s, p); }
    forall x, y ensures Unshared(r, x, y) { assert Unshared(s, x, y); }
  }

  /** Failed calls leave no more than endpoints closed and MQs finalized. */
  ghost predicate SameButLogs(s: Proc, r: Proc) {
    && r == s.(lib := s.lib.(closed := r.lib.closed, nextEp := r.lib.nextEp,
                             finalized := r.lib.finalized, nextMq := r.lib.nextMq))
    && r.lib.closed == s.lib.closed + (if r.lib.nextEp == s.lib.nextEp then [] else [s.lib.nextEp])
    && s.lib.nextEp <= r.lib.nextEp <= s.lib.nextEp + 1
    && r.lib.finalized == s.lib.finalized + (if r.lib.nextMq == s.lib.nextMq then [] else [s.lib.nextMq])
    && s.lib.nextMq <= r.lib.nextMq <= s.lib.nextMq + 1
  }

  lemma SameButLogsInv(s: Proc, r: Proc)
    requires Inv(s) && SameButLogs(s, r)
    ensures Inv(r)
  {
    forall a ensures CommOk(r, a) { assert CommOk(s, a); }
    forall a, b ensures Apart(r, a, b) { assert Apart(s, a, b); }
    forall e ensures EpOk(r, e) {
      assert EpOk(s, e);
      assert forall a :: UsesEp(r, a, e) == UsesEp(s, a, e);
    }
    forall m ensures MqOk(r, m) {
      assert MqOk(s, m);
      assert forall a :: UsesMq(r, a, m) == UsesMq(s, a, m);
    }
    assert EpOk(s, s.lib.nextEp) && MqOk(s, s.lib.nextMq);
    SameRequests(s, r);
  }

  /** Slots and postings unchanged, whatever else happened. */
  lemma SameRequests(s: Proc, r: Proc)
    requires ReqInv(s) && r.comms == s.comms && r.lib.posts == s.lib.posts && r.lib.nextPost == s.lib.nextPost
    ensures ReqInv(r)
  {
    forall x ensures SlotOk(r, x) { assert SlotOk(s, x); }
    forall p ensures PostOk(r, p) { assert PostOk(s, p); }
    forall x, y ensures Unshared(r, x, y) { assert Unshared(s, x, y); }
  }

  // ------------------------------------------------------------- teardown

  /** No request of the comm is still with the library. */
  predicate Idle(s: Proc, a: Addr) {
    forall p :: p in s.lib.posts ==> s.lib.posts[p].ctx.comm != a
  }

  lemma TwoKeys<V>(m: map<Addr, V>, a: Addr, b: Addr)
    requires a in m && b in m && a != b
    ensures |m| >= 2
  {
    assert m.Keys == (m.Keys - {a, b}) + {a, b};
    assert |m.Keys| == |m.Keys - {a, b}| + |{a, b}|;
  }

  /** The last reference to an endpoint is held by its only user. */
  lemma LastUser(s: Proc, a: Addr, b: Addr)
    requires EpInv(s) && a in s.comms && LastRef(s, a) && UsesEp(s, b, s.comms[a].ep)
    ensures a == b
  {
    assert CommOk(s, a) && CommOk(s, b) && Apart(s, a, b);
    if a != b { TwoKeys(s.comms, a, b); }
  }

  lemma LiveIsReleasable(s: Proc, a: Addr)
    requires EpInv(s) && a in s.comms
    ensures Releasable(s, a)
  {
    assert CommOk(s, a) && MqOk(s, NULL);
    forall m | LastRef(s, a) && m in s.lib.mqs && s.lib.mqs[m] == s.comms[a].ep ensures m == s.comms[a].mq {
      assert MqOk(s, m);
      var b :| UsesMq(s, b, m);
      assert CommOk(s, b);
      LastUser(s, a, b);
    }
  }

  lemma ReleasedComm(s: Proc, a: Addr, b: Addr)
    requires EpInv(s) && Releasable(s, a)
    ensures CommOk(Release(s, a), b)
  {
    assert CommOk(s, a) && CommOk(s, b) && Apart(s, a, b);
    if b in s.comms && b != a && LastRef(s, a) {
      if s.comms[a].ep == s.comms[b].ep { LastUser(s, a, b); }
    }
  }

  lemma ReleasedEp(s: Proc, a: Addr, e: Ep)
    requires EpInv(s) && Releasable(s, a)
    ensures EpOk(Release(s, a), e)
  {
    var r := Release(s, a);
    assert CommOk(s, a) && EpOk(s, e) && EpOk(s, s.comms[a].ep);
    if e in r.lib.eps {
      var b :| UsesEp(s, b, e);
      if b == a {
        assert s.comms.Keys == (s.comms.Keys - {a}) + {a};
        var d :| d in s.comms.Keys - {a};
        assert CommOk(s, d);
        assert UsesEp(r, d, e);
      } else {
        assert UsesEp(r, b, e);
      }
    }
  }

  lemma ReleasedMq(s: Proc, a: Addr, m: Mq)
    requires EpInv(s) && Releasable(s, a)
    ensures MqOk(Release(s, a), m)
  {
    var r := Release(s, a);
    assert CommOk(s, a) && MqOk(s, m) && MqOk(s, s.comms[a].mq);
    if m in r.lib.mqs {
      var b :| UsesMq(s, b, m);
      assert UsesMq(r, b, m);
    }
  }

  lemma ReleasedEpInv(s: Proc, a: Addr)
    requires EpInv(s) && Releasable(s, a)
    ensures EpInv(Release(s, a))
  {
    var r := Release(s, a);
    forall b ensures CommOk(r, b) { ReleasedComm(s, a, b); }
    forall b, c ensures Apart(r, b, c) { assert Apart(s, b, c); }
    forall e ensures EpOk(r, e) { ReleasedEp(s, a, e); }
    forall m ensures MqOk(r, m) { ReleasedMq(s, a, m); }
    assert CommOk(s, a) && EpOk(s, s.comms[a].ep) && MqOk(s, s.comms[a].mq);
    assert r.comms.Keys == s.comms.Keys - {a};
  }

  lemma ReleasedReqInv(s: Proc, a: Addr)
    requires ReqInv(s) && Releasable(s, a) && Idle(s, a)
    ensures ReqInv(Release(s, a))
  {
    var r := Release(s, a);
    forall x ensures SlotOk(r, x) { assert SlotOk(s, x); }
    forall p ensures PostOk(r, p) { assert PostOk(s, p); }
    forall x, y ensures Unshared(r, x, y) { assert Unshared(s, x, y); }
  }

  // ------------------------------------------------------------- requests

  /** Requests come and go without touching endpoints. */
  ghost predicate SameConnections(s: Proc, r: Proc) {
    && r == s.(comms := r.comms, lib := s.lib.(posts := r.lib.posts, nextPost := r.lib.nextPost))
    && r.comms.Keys == s.comms.Keys
    && (forall a :: SameConnection(s, r, a))
  }

  ghost predicate SameConnection(s: Proc, r: Proc, a: Addr) {
    a in s.comms && a in r.comms ==>
      && r.comms[a] == s.comms[a].(requests := r.comms[a].requests)
      && |r.comms[a].requests| == |s.comms[a].requests|
  }

  lemma SameConnectionsEpInv(s: Proc, r: Proc)
    requires EpInv(s) && SameConnections(s, r)
    ensures EpInv(r)
  {
    forall a ensures CommOk(r, a) { assert CommOk(s, a) && SameConnection(s, r, a); }
    forall a, b ensures Apart(r, a, b) {
      assert Apart(s, a, b) && SameConnection(s, r, a) && SameConnection(s, r, b);
    }
    forall e ensures EpOk(r, e) {
      assert EpOk(s, e);
      forall a ensures UsesEp(r, a, e) == UsesEp(s, a, e) { assert SameConnection(s, r, a); }
    }
    forall m ensures MqOk(r, m) {
      assert MqOk(s, m);
      forall a ensures UsesMq(r, a, m) == UsesMq(s, a, m) { assert SameConnection(s, r, a); }
    }
    assert |r.comms.Keys| == |s.comms.Keys|;
  }

  lemma PostedReqInv(s: Proc, a: Addr, kind: ReqType, len: nat, env: PostEnv)
    requires ReqInv(s) && a in s.comms && Posts(s, a, env) && !kind.NoType? && len <= INT_MAX
    ensures ReqInv(Post(s, a, kind, len, env).0)
  {
    var r := Post(s, a, kind, len, env).0;
    var x0 := ReqPtr(a, FirstFree(s.comms[a].requests));
    assert SlotOk(s, x0) && PostOk(s, s.lib.nextPost);
    forall x ensures SlotOk(r, x) { assert SlotOk(s, x); }
    forall p ensures PostOk(r, p) { assert PostOk(s, p); }
    forall x, y ensures Unshared(r, x, y) { assert Unshared(s, x, y) && SlotOk(s, x) && SlotOk(s, y); }
  }

  lemma PostedInv(s: Proc, a: Addr, kind: ReqType, len: nat, env: PostEnv)
    requires Inv(s) && a in s.comms && !kind.NoType? && len <= INT_MAX
    ensures Inv(Post(s, a, kind, len, env).0)
  {
    if Posts(s, a, env) {
      PostedReqInv(s, a, kind, len, env);
      SameConnectionsEpInv(s, Post(s, a, kind, len, env).0);
    }
  }

  lemma NetInv(s: Proc, e: NetEvent)
    requires Inv(s)
    ensures Inv(s.(lib := Net(s.lib, e)))
  {
    var r := s.(lib := Net(s.lib, e));
    SameConnectionsEpInv(s, r);
    forall x ensures SlotOk(r, x) { assert SlotOk(s, x); }
    forall p ensures PostOk(r, p) { assert PostOk(s, p); }
    forall x, y ensures Unshared(r, x, y) { assert Unshared(s, x, y); }
  }

  lemma NetAllInv(s: Proc, es: seq<NetEvent>)
    requires Inv(s)
    ensures Inv(s.(lib := NetAll(s.lib, es)))
  {
    if es != [] {
      NetAllInv(s, es[..|es| - 1]);
      NetInv(s.(lib := NetAll(s.lib, es[..|es| - 1])), es[|es| - 1]);
    }
  }

  predicate AllComplete(l: Lib, ps: set<nat>) {
    forall p :: p in ps ==> p in l.posts && l.posts[p].comp.Some?
  }

  lemma DrainReqInv(s: Proc, ps: set<nat>)
    requires ReqInv(s) && AllComplete(s.lib, ps)
    ensures ReqInv(Drain(s, ps))
  {
    var r := Drain(s, ps);
    forall x ensures SlotOk(r, x) {
      assert SlotOk(s, x);
      if Live(s, x) { assert PostOk(s, At(s, x).req); }
    }
    forall p ensures PostOk(r, p) { assert PostOk(s, p); }
    forall x, y ensures Unshared(r, x, y) { assert Unshared(s, x, y); }
  }

  lemma DrainInv(s: Proc, ps: set<nat>)
    requires Inv(s) && AllComplete(s.lib, ps)
    ensures Inv(Drain(s, ps))
  {
    DrainReqInv(s, ps);
    SameConnectionsEpInv(s, Drain(s, ps));
  }

  lemma FreeSlotInv(s: Proc, x0: ReqPtr)
    requires Inv(s) && Live(s, x0) && At(s, x0).done
    ensures Inv(SetSlot(s, x0, FREE))
  {
    var r := SetSlot(s, x0, FREE);
    SameConnectionsEpInv(s, r);
    forall x ensures SlotOk(r, x) { assert SlotOk(s, x); }
    forall p ensures PostOk(r, p) { assert PostOk(s, p); }
    forall x, y ensures Unshared(r, x, y) { assert Unshared(s, x, y); }
  }

  lemma TestInv(s: Proc, x: ReqPtr)
    requires Inv(s) && Live(s, x)
    ensures Inv(Test(s, x).0)
  {
    if At(s, x).used {
      var ps := Ready(s.lib, s.comms[x.comm].ep);
      DrainInv(s, ps);
      if At(Drain(s, ps), x).done { FreeSlotInv(Drain(s, ps), x); }
    }
  }
}
