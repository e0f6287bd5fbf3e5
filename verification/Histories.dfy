/** Slots are reused all the time. Over every run of a process, a test
    nonetheless reports the posting its caller means, once, with that posting's
    own size. */
module Histories {
  import opened Types
  import opened Psm2
  import opened Plugin
  import opened Runs
  import opened Refinement
  import L = Ledgers

  ghost function LedgerOf(ss: seq<Proc>, cs: seq<Call>, n: nat): L.Ledger
    requires Run(ss, cs) && n < |ss|
  {
    RunInv(ss, cs, n);
    Abs(ss[n])
  }

  function Effects(ss: seq<Proc>, cs: seq<Call>): seq<L.Effect>
    requires |ss| == |cs| + 1
  {
    seq(|cs|, i requires 0 <= i < |cs| => EffectOf(ss[i], cs[i]))
  }

  /** Every run of the code is a run of the ledger. */
  lemma RunRefines(ss: seq<Proc>, cs: seq<Call>) returns (ls: seq<L.Ledger>, ns: seq<nat>)
    requires Run(ss, cs)
    ensures |ls| == |ss| && L.LedgerRun(ls, ns, Effects(ss, cs))
    ensures forall i :: 0 <= i < |ss| ==> ls[i] == LedgerOf(ss, cs, i)
  {
    ls := seq(|ss|, i requires 0 <= i < |ss| => LedgerOf(ss, cs, i));
    ns := seq(|ss|, i requires 0 <= i < |ss| => ss[i].lib.nextPost);
    InitialLedger(ss[0].cfg, ss[0].me);
    forall i: nat ensures L.StepOk(ls, ns, Effects(ss, cs), i) {
      if i < |cs| { StepRefines(ss, cs, i); }
    }
  }

  lemma StepRefines(ss: seq<Proc>, cs: seq<Call>, i: nat)
    requires Run(ss, cs) && i < |cs|
    ensures L.EffectOk(LedgerOf(ss, cs, i), ss[i].lib.nextPost, EffectOf(ss[i], cs[i]))
    ensures LedgerOf(ss, cs, i + 1) == L.After(LedgerOf(ss, cs, i), EffectOf(ss[i], cs[i]))
    ensures ss[i + 1].lib.nextPost == ss[i].lib.nextPost + (if EffectOf(ss[i], cs[i]).Enters? then 1 else 0)
  {
    RunInv(ss, cs, i);
    assert StepOk(ss, cs, i);
    NextRefines(ss[i], cs[i], ss[i + 1]);
  }

  /** The call posts, and returns request pointer `x`. */
  predicate Posts(s: Proc, c: Call, x: ReqPtr) {
    || (c.IsendCall? && c.comm in s.comms && Post(s, c.comm, ReqSend, c.size, c.post).1.req == Some(x))
    || (c.IrecvCall? && c.comm in s.comms && Post(s, c.comm, ReqRecv, c.size, c.post).1.req == Some(x))
  }

  /** The call is a test that says done. */
  predicate SaysDone(s: Proc, c: Call) {
    c.TestCall? && Live(s, c.req) && Test(s, c.req).1.done
  }

  /** No ABA. When the test at step i says done, an earlier step k returned the
      pointer tested, no step in between returned it again or closed its comm, and
      in between the network completed the posting that step k made: the one the slot holds,
      and for a receive the size reported is the byte count of that completion. */
  lemma TestReportsItsPosting(ss: seq<Proc>, cs: seq<Call>, i: nat) returns (k: nat, d: nat, nbytes: nat)
    requires Run(ss, cs) && i < |cs| && SaysDone(ss[i], cs[i])
    ensures k < d < i && Posts(ss[k], cs[k], cs[i].req)
    ensures At(ss[i], cs[i].req).req == ss[k].lib.nextPost
    ensures forall j :: k < j < i ==> !Posts(ss[j], cs[j], cs[i].req) && cs[j] != CloseCall(cs[i].req.comm)
    ensures cs[d] == NetworkActs(Complete(ss[k].lib.nextPost, nbytes)) && NetEnabled(ss[d].lib, cs[d].event)
    ensures Test(ss[i], cs[i].req).1.size == (if cs[k].IrecvCall? then Some(nbytes) else None)
  {
    var es := Effects(ss, cs);
    var ls, ns := RunRefines(ss, cs);
    assert es[i] == L.Leaves(At(ss[i], cs[i].req).req, cs[i].req, Test(ss[i], cs[i].req).1.size);
    var kind: ReqType;
    k, d, kind, nbytes := L.ReportsLastPosting(ls, ns, es, i);
    assert es[k] == EffectOf(ss[k], cs[k]) && es[d] == EffectOf(ss[d], cs[d]);
    forall j | k < j < i ensures !Posts(ss[j], cs[j], cs[i].req) && cs[j] != CloseCall(cs[i].req.comm) {
      assert es[j] == EffectOf(ss[j], cs[j]);
    }
  }

  /** Each posting is reported at most once. */
  lemma ReportedOnce(ss: seq<Proc>, cs: seq<Call>, i: nat, j: nat)
    requires Run(ss, cs) && i < j < |cs| && SaysDone(ss[i], cs[i]) && SaysDone(ss[j], cs[j])
    ensures At(ss[i], cs[i].req).req != At(ss[j], cs[j].req).req
  {
    var es := Effects(ss, cs);
    var ls, ns := RunRefines(ss, cs);
    assert es[i] == EffectOf(ss[i], cs[i]) && es[j] == EffectOf(ss[j], cs[j]);
    L.ReportedOnce(ls, ns, es, i, j);
  }

  /** Over any stretch of a run in which no comm at the address is closed, the
      requests its slots held before and those handed out are those reported
      done and those its slots hold now. */
  lemma RequestConservation(ss: seq<Proc>, cs: seq<Call>, a: Addr, m: nat, n: nat)
    requires Run(ss, cs) && m <= n < |ss|
    requires forall i :: m <= i < n ==> cs[i] != CloseCall(a)
    ensures
      var es := Effects(ss, cs)[m..n];
      |UsedIn(ss[m], a)| + L.PostingsOn(es, a) == L.ReportsOn(es, a) + |UsedIn(ss[n], a)|
  {
    var es := Effects(ss, cs);
    var ls, ns := RunRefines(ss, cs);
    forall i | m <= i < n ensures es[i] != L.Forgets(a) { assert es[i] == EffectOf(ss[i], cs[i]); }
    L.Conservation(ls, ns, es, a, m, n);
    RunInv(ss, cs, m);
    RunInv(ss, cs, n);
    UsedIsOf(ss[m], a);
    UsedIsOf(ss[n], a);
  }

  /** Since a comm was created - be it on an address that an earlier comm was
      closed at - and until it is closed, the requests it has handed out are
      those reported done and those its slots still hold. */
  lemma RequestsOfComm(ss: seq<Proc>, cs: seq<Call>, k: nat, n: nat)
    requires Run(ss, cs) && k < n < |ss| && CreatesComm(ss[k], cs[k])
    requires forall i :: k < i < n ==> cs[i] != CloseCall(cs[k].env.addr)
    ensures
      var es, a := Effects(ss, cs)[k + 1..n], cs[k].env.addr;
      && a in ss[n].comms
      && L.PostingsOn(es, a) == L.ReportsOn(es, a) + |UsedIn(ss[n], a)|
  {
    RunInv(ss, cs, k);
    assert StepOk(ss, cs, k);
    CreateKeepsOthers(ss[k], cs[k], ss[k + 1]);
    assert UsedIn(ss[k + 1], cs[k].env.addr) == {};
    RequestConservation(ss, cs, cs[k].env.addr, k + 1, n);
    StaysOpen(ss, cs, cs[k].env.addr, k + 1, n);
  }

  /** A caller who has been told done as often as it was handed a request since
      the comm was created may close the comm. */
  lemma CloseWhenAllReported(ss: seq<Proc>, cs: seq<Call>, k: nat, n: nat)
    requires Run(ss, cs) && k < n < |ss| && CreatesComm(ss[k], cs[k])
    requires forall i :: k < i < n ==> cs[i] != CloseCall(cs[k].env.addr)
    requires
      var es, a := Effects(ss, cs)[k + 1..n], cs[k].env.addr;
      L.PostingsOn(es, a) == L.ReportsOn(es, a)
    ensures Allowed(ss[n], CloseCall(cs[k].env.addr))
  {
    var a := cs[k].env.addr;
    RequestsOfComm(ss, cs, k, n);
    RunInv(ss, cs, n);
    UsedIsOf(ss[n], a);
    ReportedIsIdle(ss[n], a);
  }
}
