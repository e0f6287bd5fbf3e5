/** What the plugin relies on PSM2 for. Nothing of the library is visible in the
    repository, so this is a contract: one matching engine and one completion
    queue per endpoint, whatever number of MQ handles the endpoint has. */
module Psm2 {
  import opened Types

  /** A posted and not yet retired request; `comp` is its byte count once the
      network has completed it and the request waits in the completion queue. */
  datatype Posting = Posting(ep: Ep, ctx: ReqPtr, kind: ReqType, tag: nat, mask: nat,
                             dst: Option<Epid>, len: nat, comp: Option<nat>)

  datatype EpInfo = EpInfo(epid: Epid, unit: Option<int>)

  /** `eps` are the endpoints not yet handed to psm2_ep_close, `closed` the log
      of those calls; `mqs` are the live MQ handles, `finalized` the log of
      psm2_mq_finalize calls. */
  datatype Lib = Lib(eps: map<Ep, EpInfo>, closed: seq<Ep>, nextEp: Ep,
                     mqs: map<Mq, Ep>, finalized: seq<Mq>, nextMq: Mq,
                     posts: map<nat, Posting>, nextPost: nat)
  const INITIAL := Lib(map[], [], 1, map[], [], 1, map[], 0)

  function EpOpen(l: Lib, info: EpInfo): Lib {
    l.(eps := l.eps[l.nextEp := info], nextEp := l.nextEp + 1)
  }

  /** psm2_ep_close, whatever it returns; an endpoint must not be closed under
      a live MQ. */
  function EpClose(l: Lib, ep: Ep): Lib
    requires ep in l.eps && forall m :: m in l.mqs ==> l.mqs[m] != ep
  {
    l.(eps := l.eps - {ep}, closed := l.closed + [ep])
  }

  function MqInit(l: Lib, ep: Ep): Lib
    requires ep in l.eps
  {
    l.(mqs := l.mqs[l.nextMq := ep], nextMq := l.nextMq + 1)
  }

  function MqFinalize(l: Lib, mq: Mq): Lib
    requires mq in l.mqs
  {
    l.(mqs := l.mqs - {mq}, finalized := l.finalized + [mq])
  }

  /** A successful psm2_mq_isend or psm2_mq_irecv. */
  function Enqueue(l: Lib, p: Posting): Lib {
    l.(posts := l.posts[l.nextPost := p], nextPost := l.nextPost + 1)
  }

  /** The network may at any time complete a request in flight, with at most
      the bytes it was posted for. Every other event is without effect. */
  datatype NetEvent = Complete(post: nat, nbytes: nat)

  predicate NetEnabled(l: Lib, e: NetEvent) {
    e.post in l.posts && l.posts[e.post].comp.None? && e.nbytes <= l.posts[e.post].len
  }

  function Net(l: Lib, e: NetEvent): Lib {
    if NetEnabled(l, e)
    then l.(posts := l.posts[e.post := l.posts[e.post].(comp := Some(e.nbytes))])
    else l
  }

  function NetAll(l: Lib, es: seq<NetEvent>): Lib {
    if es == [] then l else Net(NetAll(l, es[..|es| - 1]), es[|es| - 1])
  }

  /** The requests waiting in the completion queue of `ep`; psm2_mq_ipeek shows
      any one of them, and PSM2_MQ_INCOMPLETE when there is none. */
  function Ready(l: Lib, ep: Ep): set<nat> {
    set p | p in l.posts && l.posts[p].ep == ep && l.posts[p].comp.Some?
  }

  /** psm2_mq_test on completed requests frees the library's request objects. */
  function Retire(l: Lib, ps: set<nat>): Lib {
    l.(posts := l.posts - ps)
  }

  lemma NetAllAppend(l: Lib, a: seq<NetEvent>, b: seq<NetEvent>)
    ensures NetAll(l, a + b) == NetAll(NetAll(l, a), b)
    decreases |b|
  {
    if b == [] {
      assert a + b == a;
    } else {
      NetAllAppend(l, a, b[..|b| - 1]);
      assert (a + b)[..|a + b| - 1] == a + b[..|b| - 1];
    }
  }
}
