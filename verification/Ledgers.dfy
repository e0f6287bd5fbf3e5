/** Requests without slots.

    A ledger lists the postings not yet reported. It has no slots, no queue and
    no reuse: a posting enters under a number that is never given twice, is
    completed by the network, and leaves when a test reports it. What a request
    engine is for is proved here, and carried over to the code by refinement. */
module Ledgers {
  import opened Types

  /** The request pointer the caller holds, and the size to report once the
      posting is complete (0 for a send). */
  datatype Entry = Entry(ctx: ReqPtr, kind: ReqType, size: Option<nat>)

  type Ledger = map<nat, Entry>

  function Sized(kind: ReqType, n: nat): nat { if kind.ReqRecv? then n else 0 }

  /** The entries of one comm. */
  function Of(l: Ledger, a: Addr): set<nat> {
    set p | p in l && l[p].ctx.comm == a
  }

  datatype Effect =
    | NoEffect
    | Enters(p: nat, x: ReqPtr, kind: ReqType)
    | Completes(p: nat, nbytes: nat)
    | Leaves(p: nat, x: ReqPtr, size: Option<nat>)
    | Forgets(comm: Addr)

  function After(l: Ledger, e: Effect): Ledger {
    match e
    case NoEffect => l
    case Enters(p, x, kind) => l[p := Entry(x, kind, None)]
    case Completes(p, n) => if p in l then l[p := l[p].(size := Some(Sized(l[p].kind, n)))] else l
    case Leaves(p, _, _) => l - {p}
    case Forgets(a) => l - Of(l, a)
  }

  /** A posting gets a new number, a pointer no other one has, and room in its
      comm's ledger; only a posting not complete is completed; and only a
      complete one is reported, to the pointer it was given, with its size. */
  predicate EffectOk(l: Ledger, next: nat, e: Effect) {
    && (forall p :: p in l ==> p < next)
    && match e
       case NoEffect => true
       case Enters(p, x, kind) =>
         p == next && |Of(l, x.comm)| < NUM_REQUESTS && forall q :: q in l ==> l[q].ctx != x
       case Completes(p, _) => p in l && l[p].size.None?
       case Leaves(p, x, size) =>
         && p in l && l[p].ctx == x && l[p].size.Some?
         && size == (if l[p].kind.ReqRecv? then l[p].size else None)
       case Forgets(a) => forall p :: p in Of(l, a) ==> l[p].size.Some?
  }

  // ------------------------------------------------------------------ runs

  ghost predicate StepOk(ls: seq<Ledger>, ns: seq<nat>, es: seq<Effect>, i: nat)
    requires |ls| == |ns| == |es| + 1
  {
    i < |es| ==>
      && EffectOk(ls[i], ns[i], es[i])
      && ls[i + 1] == After(ls[i], es[i])
      && ns[i + 1] == ns[i] + (if es[i].Enters? then 1 else 0)
  }

  ghost predicate LedgerRun(ls: seq<Ledger>, ns: seq<nat>, es: seq<Effect>) {
    && |ls| == |ns| == |es| + 1
    && ls[0] == map[]
    && forall i :: StepOk(ls, ns, es, i)
  }

  lemma {:induction false} NumbersGrow(ls: seq<Ledger>, ns: seq<nat>, es: seq<Effect>, j: nat, n: nat)
    requires LedgerRun(ls, ns, es) && j <= n < |ls|
    ensures ns[j] <= ns[n]
    decreases n
  {
    if j < n {
      NumbersGrow(ls, ns, es, j, n - 1);
      assert StepOk(ls, ns, es, n - 1);
    }
  }

  /** A posting has been in the ledger, under one pointer, ever since its number
      was issued. */
  lemma {:induction false} Persists(ls: seq<Ledger>, ns: seq<nat>, es: seq<Effect>, j: nat, n: nat, p: nat)
    requires LedgerRun(ls, ns, es) && j <= n < |ls| && p in ls[n] && p < ns[j]
    ensures p in ls[j] && ls[j][p].ctx == ls[n][p].ctx
    decreases n
  {
    if j < n {
      NumbersGrow(ls, ns, es, j, n - 1);
      assert StepOk(ls, ns, es, n - 1);
      Persists(ls, ns, es, j, n - 1, p);
    }
  }

  lemma {:induction false} Origin(ls: seq<Ledger>, ns: seq<nat>, es: seq<Effect>, n: nat, p: nat) returns (k: nat)
    requires LedgerRun(ls, ns, es) && n < |ls| && p in ls[n]
    ensures k < n && ns[k] == p && es[k] == Enters(p, ls[n][p].ctx, ls[n][p].kind)
    decreases n
  {
    assert n > 0;
    assert StepOk(ls, ns, es, n - 1);
    if p in ls[n - 1] {
      k := Origin(ls, ns, es, n - 1, p);
    } else {
      k := n - 1;
    }
  }

  lemma {:induction false} Delivery(ls: seq<Ledger>, ns: seq<nat>, es: seq<Effect>, n: nat, p: nat)
    returns (d: nat, nbytes: nat)
    requires LedgerRun(ls, ns, es) && n < |ls| && p in ls[n] && ls[n][p].size.Some?
    ensures d < n && es[d] == Completes(p, nbytes) && p < ns[d]
    ensures ls[n][p].size == Some(Sized(ls[n][p].kind, nbytes))
    decreases n
  {
    assert n > 0;
    assert StepOk(ls, ns, es, n - 1);
    if es[n - 1].Completes? && es[n - 1].p == p {
      d, nbytes := n - 1, es[n - 1].nbytes;
    } else {
      d, nbytes := Delivery(ls, ns, es, n - 1, p);
    }
  }

  /** What is reported through a pointer is the last posting that was given the
      pointer, after the network completed it, with that completion's size. */
  lemma ReportsLastPosting(ls: seq<Ledger>, ns: seq<nat>, es: seq<Effect>, i: nat)
    returns (k: nat, d: nat, kind: ReqType, nbytes: nat)
    requires LedgerRun(ls, ns, es) && i < |es| && es[i].Leaves?
    ensures k < d < i && es[k] == Enters(es[i].p, es[i].x, kind) && es[d] == Completes(es[i].p, nbytes)
    ensures forall j :: k < j < i && es[j].Enters? ==> es[j].x != es[i].x
    ensures forall j :: k < j < i ==> es[j] != Forgets(es[i].x.comm)
    ensures es[i].size == if kind.ReqRecv? then Some(nbytes) else None
  {
    var p := es[i].p;
    assert StepOk(ls, ns, es, i);
    kind := ls[i][p].kind;
    k := Origin(ls, ns, es, i, p);
    d, nbytes := Delivery(ls, ns, es, i, p);
    if d <= k { NumbersGrow(ls, ns, es, d, k); }
    assert StepOk(ls, ns, es, k);
    forall j | k < j < i && es[j].Enters? ensures es[j].x != es[i].x {
      NumbersGrow(ls, ns, es, k + 1, j);
      Persists(ls, ns, es, j, i, p);
      assert StepOk(ls, ns, es, j);
    }
    forall j | k < j < i ensures es[j] != Forgets(es[i].x.comm) {
      NumbersGrow(ls, ns, es, k + 1, j);
      assert StepOk(ls, ns, es, j);
      Persists(ls, ns, es, j + 1, i, p);
      assert es[j] == Forgets(es[i].x.comm) ==> p !in Of(ls[j], es[i].x.comm);
      Persists(ls, ns, es, j, i, p);
    }
  }

  lemma ReportedOnce(ls: seq<Ledger>, ns: seq<nat>, es: seq<Effect>, i: nat, j: nat)
    requires LedgerRun(ls, ns, es) && i < j < |es| && es[i].Leaves? && es[j].Leaves?
    ensures es[i].p != es[j].p
  {
    assert StepOk(ls, ns, es, i) && StepOk(ls, ns, es, j);
    if es[i].p == es[j].p {
      Persists(ls, ns, es, i + 1, j, es[i].p);
    }
  }

  function PostingsOn(es: seq<Effect>, a: Addr): nat {
    if es == [] then 0
    else PostingsOn(es[..|es| - 1], a) + if es[|es| - 1].Enters? && es[|es| - 1].x.comm == a then 1 else 0
  }

  function ReportsOn(es: seq<Effect>, a: Addr): nat {
    if es == [] then 0
    else ReportsOn(es[..|es| - 1], a) + if es[|es| - 1].Leaves? && es[|es| - 1].x.comm == a then 1 else 0
  }

  /** Between any two moments at which the comm was not forgotten: what was
      unreported before and what was posted since is what was reported since
      and what is unreported now. */
  lemma {:induction false} Conservation(ls: seq<Ledger>, ns: seq<nat>, es: seq<Effect>, a: Addr, m: nat, n: nat)
    requires LedgerRun(ls, ns, es) && m <= n < |ls|
    requires forall i :: m <= i < n ==> es[i] != Forgets(a)
    ensures |Of(ls[m], a)| + PostingsOn(es[m..n], a) == ReportsOn(es[m..n], a) + |Of(ls[n], a)|
    decreases n
  {
    if m < n {
      Conservation(ls, ns, es, a, m, n - 1);
      assert StepOk(ls, ns, es, n - 1);
      assert es[m..n][..n - m - 1] == es[m..n - 1];
      CountAfter(ls[n - 1], ns[n - 1], es[n - 1], a);
    }
  }

  /** A comm's entries after an effect. */
  lemma OfAfter(l: Ledger, next: nat, e: Effect, a: Addr, q: nat)
    requires EffectOk(l, next, e) && e != Forgets(a)
    ensures q in Of(After(l, e), a) <==>
      if e.Enters? && e.x.comm == a then q in Of(l, a) || q == e.p
      else if e.Leaves? then q in Of(l, a) && q != e.p
      else q in Of(l, a)
  {
  }

  lemma CountAfter(l: Ledger, next: nat, e: Effect, a: Addr)
    requires EffectOk(l, next, e) && e != Forgets(a)
    ensures |Of(After(l, e), a)| == |Of(l, a)|
              + (if e.Enters? && e.x.comm == a then 1 else 0)
              - (if e.Leaves? && e.x.comm == a then 1 else 0)
  {
    var before, after := Of(l, a), Of(After(l, e), a);
    forall q ensures q in after <==>
      if e.Enters? && e.x.comm == a then q in before || q == e.p
      else if e.Leaves? then q in before && q != e.p
      else q in before
    {
      OfAfter(l, next, e, a, q);
    }
    if e.Enters? && e.x.comm == a {
      assert after == before + {e.p} && e.p !in before;
    } else if e.Leaves? {
      assert after == before - {e.p};
      assert e.p in before <==> e.x.comm == a;
    } else {
      assert after == before;
    }
  }
}
