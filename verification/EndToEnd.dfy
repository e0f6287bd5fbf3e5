/** From one comm to another. A process of a world run goes through a run of its
    own, so what a test reports can be followed back through the network to the
    isend that the message came from. */
module EndToEnd {
  import opened Types
  import opened Psm2
  import opened Plugin
  import opened Invariants
  import opened World
  import Runs
  import H = Histories

  // ------------------------------------------- the run of one process

  /** How many of the first i events are events of process `p`. */
  function Rank(es: seq<Event>, p: nat, i: nat): nat
    requires i <= |es|
  {
    if i == 0 then 0 else Rank(es, p, i - 1) + if es[i - 1].proc == p then 1 else 0
  }

  lemma {:induction false} RankGrows(es: seq<Event>, p: nat, i: nat, j: nat)
    requires i <= j <= |es|
    ensures Rank(es, p, i) <= Rank(es, p, j)
    decreases j
  {
    if i < j { RankGrows(es, p, i, j - 1); }
  }

  lemma {:induction false} Unrank(es: seq<Event>, p: nat, n: nat, k: nat) returns (i: nat)
    requires n <= |es| && k < Rank(es, p, n)
    ensures i < n && es[i].proc == p && Rank(es, p, i) == k
  {
    if es[n - 1].proc == p && k == Rank(es, p, n - 1) {
      i := n - 1;
    } else {
      i := Unrank(es, p, n - 1, k);
    }
  }

  ghost function CallAt(ws: seq<State>, es: seq<Event>, i: nat): Runs.Call
    requires WRun(ws, es) && i < |es|
  {
    assert WStep(ws, es, i);
    CallOf(ws[i], es[i])
  }

  /** Process `p` before event i is the `Rank`th state of its run, and if the
      event is one of `p`, the `Rank`th call is what the event is for `p`. */
  ghost predicate Shows(ws: seq<State>, es: seq<Event>, p: nat, n: nat, ss: seq<Proc>, cs: seq<Runs.Call>, i: nat)
    requires WRun(ws, es) && n < |ws|
  {
    i <= n ==>
      var k := Rank(es, p, i);
      && k < |ss| && p in ws[i].procs && ss[k] == ws[i].procs[p]
      && (i < n && es[i].proc == p ==> k < |cs| && cs[k] == CallAt(ws, es, i))
  }

  /** Every process of a world run goes through a run as Runs has it, so what
      holds over the runs of a process holds for each process of the world. */
  lemma {:induction false} Projects(ws: seq<State>, es: seq<Event>, p: nat, n: nat)
    returns (ss: seq<Proc>, cs: seq<Runs.Call>)
    requires WRun(ws, es) && n < |ws| && p in ws[0].procs
    ensures Runs.Run(ss, cs) && |cs| == Rank(es, p, n)
    ensures forall i :: Shows(ws, es, p, n, ss, cs, i)
    ensures p in ws[n].procs && ss[|cs|] == ws[n].procs[p]
  {
    if n == 0 {
      ss, cs := [ws[0].procs[p]], [];
      Runs.RunStarts(ss[0].cfg, p);
    } else {
      var ss', cs' := Projects(ws, es, p, n - 1);
      ss, cs := ss', cs';
      assert WStep(ws, es, n - 1);
      WorldStepsProcess(ws[n - 1], es[n - 1], ws[n]);
      if es[n - 1].proc == p {
        Runs.RunGrows(ss', cs', CallAt(ws, es, n - 1), ws[n].procs[p]);
        ss, cs := ss' + [ws[n].procs[p]], cs' + [CallAt(ws, es, n - 1)];
      }
      forall i: nat ensures Shows(ws, es, p, n, ss, cs, i) {
        assert Shows(ws, es, p, n - 1, ss', cs', i);
        if i < n { RankGrows(es, p, i, n - 1); }
        if i < n - 1 { RankGrows(es, p, i + 1, n - 1); }
      }
    }
  }

  lemma {:induction false} ProcsKept(ws: seq<State>, es: seq<Event>, n: nat)
    requires WRun(ws, es) && n < |ws|
    ensures ws[n].procs.Keys == ws[0].procs.Keys
  {
    if n > 0 {
      ProcsKept(ws, es, n - 1);
      assert WStep(ws, es, n - 1);
      WorldStepsProcess(ws[n - 1], es[n - 1], ws[n]);
    }
  }

  // ----------------------------------------------------------- histories

  /** A request keeps its context, kind, tag and length while the library has it. */
  lemma {:induction false} PostKept(ss: seq<Proc>, cs: seq<Runs.Call>, k: nat, d: nat, q: nat)
    requires Runs.Run(ss, cs) && k <= d < |ss| && q in ss[d].lib.posts && q < ss[k].lib.nextPost
    ensures q in ss[k].lib.posts
    ensures ss[d].lib.posts[q] == ss[k].lib.posts[q].(comp := ss[d].lib.posts[q].comp)
    decreases d
  {
    if k < d {
      Runs.RunInv(ss, cs, d - 1);
      assert Runs.StepOk(ss, cs, d - 1);
      NextKeeps(ss[d - 1], cs[d - 1], ss[d], NULL, q);
      PostNumbersGrow(ss, cs, k, d - 1);
      PostKept(ss, cs, k, d - 1, q);
    }
  }

  lemma {:induction false} PostNumbersGrow(ss: seq<Proc>, cs: seq<Runs.Call>, k: nat, d: nat)
    requires Runs.Run(ss, cs) && k <= d < |ss|
    ensures ss[k].lib.nextPost <= ss[d].lib.nextPost
    decreases d
  {
    if k < d {
      PostNumbersGrow(ss, cs, k, d - 1);
      H.StepRefines(ss, cs, d - 1);
    }
  }

  /** What the library has of a posting is what isend or irecv asked for. */
  lemma DeliveredSize(ss: seq<Proc>, cs: seq<Runs.Call>, k: nat, d: nat)
    requires Runs.Run(ss, cs) && k < d < |cs| && ss[k].lib.nextPost in ss[d].lib.posts
    requires exists x :: H.Posts(ss[k], cs[k], x)
    ensures
      var post := ss[d].lib.posts[ss[k].lib.nextPost];
      && H.Posts(ss[k], cs[k], post.ctx) && post.len == cs[k].size
      && post.kind == (if cs[k].IrecvCall? then ReqRecv else ReqSend)
  {
    Runs.RunInv(ss, cs, k);
    assert PostOk(ss[k], ss[k].lib.nextPost);
    assert Runs.StepOk(ss, cs, k);
    PostKept(ss, cs, k + 1, d, ss[k].lib.nextPost);
  }

  /** Roles are never changed or forgotten. */
  lemma {:induction false} RolesGrow(ws: seq<State>, es: seq<Event>, i: nat, j: nat, u: nat)
    requires WRun(ws, es) && i <= j < |ws| && u in ws[i].roles
    ensures u in ws[j].roles && ws[j].roles[u] == ws[i].roles[u]
    decreases j
  {
    if i < j {
      RolesGrow(ws, es, i, j - 1, u);
      WRunInv(ws, es, j - 1);
      assert WStep(ws, es, j - 1);
      assert RoleOk(ws[j - 1], u);
    }
  }

  /** A comm keeps its number until it is closed. */
  lemma {:induction false} SerialKept(ws: seq<State>, es: seq<Event>, x: Place, i: nat, j: nat)
    requires WRun(ws, es) && i <= j < |ws| && x in ws[i].serial
    requires forall k :: i <= k < j && es[k].Calls? && es[k].proc == x.proc ==> es[k].call != Runs.CloseCall(x.addr)
    ensures x in ws[j].serial && ws[j].serial[x] == ws[i].serial[x]
    decreases j
  {
    if i < j {
      SerialKept(ws, es, x, i, j - 1);
      WRunInv(ws, es, j - 1);
      assert WStep(ws, es, j - 1);
      SerialStep(ws[j - 1], es[j - 1], ws[j], x);
    }
  }

  lemma SerialStep(w: State, e: Event, v: State, x: Place)
    requires WInv(w) && Next(w, e, v) && x in w.serial
    requires !(e.Calls? && e.proc == x.proc && e.call == Runs.CloseCall(x.addr))
    ensures x in v.serial && v.serial[x] == w.serial[x]
  {
    assert CommRole(w, x.proc, x.addr) && ProcOk(w, e.proc);
    if e.Calls? { Runs.NextComms(w.procs[e.proc], e.call, v.procs[e.proc]); }
  }

  /** The event is an isend that put message `m` on the wire. */
  ghost predicate Sends(w: State, e: Event, m: nat, msg: Message) {
    && e.Calls? && e.call.IsendCall? && e.call.size == msg.len && w.nextMessage == m
    && e.proc in w.procs && (exists x :: H.Posts(w.procs[e.proc], e.call, x))
    && Place(e.proc, e.call.comm) in w.serial && w.serial[Place(e.proc, e.call.comm)] == msg.from
  }

  lemma {:induction false} MessageOrigin(ws: seq<State>, es: seq<Event>, n: nat, m: nat) returns (g: nat)
    requires WRun(ws, es) && n < |ws| && m in ws[n].wire
    ensures g < n && Sends(ws[g], es[g], m, ws[n].wire[m])
  {
    assert n > 0;
    WRunInv(ws, es, n - 1);
    assert WStep(ws, es, n - 1) && MessageOk(ws[n - 1], m);
    if m in ws[n - 1].wire {
      SameMessage(ws[n - 1], es[n - 1], ws[n], m);
      g := MessageOrigin(ws, es, n - 1, m);
    } else {
      g := n - 1;
      NewMessage(ws[n - 1], es[n - 1], ws[n], m);
    }
  }

  lemma SameMessage(w: State, e: Event, v: State, m: nat)
    requires Next(w, e, v) && MessageOk(w, m) && m in w.wire && m in v.wire
    ensures v.wire[m] == w.wire[m]
  {
  }

  lemma NewMessage(w: State, e: Event, v: State, m: nat)
    requires WInv(w) && Next(w, e, v) && m !in w.wire && m in v.wire
    ensures Sends(w, e, m, v.wire[m])
  {
    var s, t := w.procs[e.proc], v.procs[e.proc];
    assert ProcOk(w, e.proc);
    NextMoves(s, e.call, t);
    assert PostOk(s, s.lib.nextPost);
    assert H.Posts(s, e.call, t.lib.posts[s.lib.nextPost].ctx);
  }

  // -------------------------------------------------------------- delivery

  /** A test in the world that says done for a receive. */
  ghost predicate ReportsReceive(w: State, e: Event) {
    && e.Calls? && e.proc in w.procs && H.SaysDone(w.procs[e.proc], e.call)
    && Test(w.procs[e.proc], e.call.req).1.size.Some?
  }

  /** The event is the irecv that returned `x`, for posting `q`. */
  ghost predicate Receives(w: State, e: Event, x: ReqPtr, q: nat) {
    && e.Calls? && e.proc in w.procs && e.call.IrecvCall? && e.call.comm == x.comm
    && H.Posts(w.procs[e.proc], e.call, x) && w.procs[e.proc].lib.nextPost == q
  }

  /** What step of its process's run a world event is. */
  lemma Located(ws: seq<State>, es: seq<Event>, ss: seq<Proc>, cs: seq<Runs.Call>, p: nat, k: nat) returns (i: nat)
    requires WRun(ws, es) && k < |cs| == Rank(es, p, |es|)
    requires forall i :: Shows(ws, es, p, |es|, ss, cs, i)
    ensures i < |es| && es[i].proc == p && Rank(es, p, i) == k
    ensures k < |ss| && p in ws[i].procs && ss[k] == ws[i].procs[p] && cs[k] == CallAt(ws, es, i)
  {
    i := Unrank(es, p, |es|, k);
    assert Shows(ws, es, p, |es|, ss, cs, i);
  }

  lemma RankOrder(es: seq<Event>, p: nat, i: nat, j: nat)
    requires i < |es| && j < |es| && es[i].proc == p && es[j].proc == p
    ensures Rank(es, p, i) < Rank(es, p, j) <==> i < j
  {
    if i < j { RankGrows(es, p, i + 1, j); }
    if j <= i { RankGrows(es, p, j, i); }
  }

  /** Back from the report to the completion and the irecv it is about; the comm
      was not closed in between. */
  lemma ReportedSteps(ws: seq<State>, es: seq<Event>, i: nat) returns (h: nat, j: nat, nbytes: nat)
    requires WRun(ws, es) && i < |es| && ReportsReceive(ws[i], es[i])
    ensures h < j < i && es[h].proc == es[j].proc == es[i].proc
    ensures
      var s, x := ws[i].procs[es[i].proc], es[i].call.req;
      && Receives(ws[h], es[h], x, At(s, x).req)
      && CallAt(ws, es, j) == Runs.NetworkActs(Complete(At(s, x).req, nbytes))
      && Test(s, x).1.size == Some(nbytes)
      && es[j].proc in ws[j].procs && At(s, x).req in ws[j].procs[es[j].proc].lib.posts
      && var post := ws[j].procs[es[j].proc].lib.posts[At(s, x).req];
         post.ctx == x && post.len == es[h].call.size && post.kind.ReqRecv?
    ensures NotClosed(ws, es, es[i].proc, es[i].call.req.comm, h, i)
  {
    var p, x := es[i].proc, es[i].call.req;
    ProcsKept(ws, es, i);
    var ss, cs := Projects(ws, es, p, |es|);
    assert Shows(ws, es, p, |es|, ss, cs, i);
    var k, d;
    k, d, nbytes := H.TestReportsItsPosting(ss, cs, Rank(es, p, i));
    h := Located(ws, es, ss, cs, p, k);
    j := Located(ws, es, ss, cs, p, d);
    RankOrder(es, p, h, j);
    RankOrder(es, p, j, i);
    PostedCall(ws, es, h);
    DeliveredSize(ss, cs, k, d);
    NeverClosed(ws, es, ss, cs, p, x.comm, h, i);
  }

  lemma PostedCall(ws: seq<State>, es: seq<Event>, h: nat)
    requires WRun(ws, es) && h < |es|
    ensures CallAt(ws, es, h).IrecvCall? ==> es[h].Calls? && es[h].call == CallAt(ws, es, h)
  {
    assert WStep(ws, es, h);
  }

  ghost predicate NotClosed(ws: seq<State>, es: seq<Event>, p: nat, a: Addr, h: nat, i: nat)
    requires i <= |es|
  {
    forall n :: h < n < i && es[n].Calls? && es[n].proc == p ==> es[n].call != Runs.CloseCall(a)
  }

  lemma NeverClosed(ws: seq<State>, es: seq<Event>, ss: seq<Proc>, cs: seq<Runs.Call>, p: nat, a: Addr, h: nat, i: nat)
    requires WRun(ws, es) && h < i < |es| && es[h].proc == es[i].proc == p
    requires Rank(es, p, i) < |cs|
    requires forall n :: Shows(ws, es, p, |es|, ss, cs, n)
    requires forall c :: Rank(es, p, h) < c < Rank(es, p, i) ==> cs[c] != Runs.CloseCall(a)
    ensures NotClosed(ws, es, p, a, h, i)
  {
    forall n | h < n < i && es[n].Calls? && es[n].proc == p ensures es[n].call != Runs.CloseCall(a) {
      assert Shows(ws, es, p, |es|, ss, cs, n);
      RankOrder(es, p, h, n);
      RankOrder(es, p, n, i);
    }
  }

  /** The completion that a receive reports was a delivery. */
  lemma ReportedDelivery(ws: seq<State>, es: seq<Event>, i: nat) returns (h: nat, j: nat)
    requires WRun(ws, es) && i < |es| && ReportsReceive(ws[i], es[i])
    ensures h < j < i && es[h].proc == es[j].proc == es[i].proc
    ensures
      var s, x := ws[i].procs[es[i].proc], es[i].call.req;
      && Receives(ws[h], es[h], x, At(s, x).req)
      && es[j].Deliver? && es[j].post == At(s, x).req && es[j].msg in ws[j].wire
      && Test(s, x).1.size == Some(Min(ws[j].wire[es[j].msg].len, es[h].call.size))
      && es[j].proc in ws[j].procs && es[j].post in ws[j].procs[es[j].proc].lib.posts
      && ws[j].procs[es[j].proc].lib.posts[es[j].post].ctx == x
    ensures NotClosed(ws, es, es[i].proc, es[i].call.req.comm, h, i)
  {
    var nbytes;
    h, j, nbytes := ReportedSteps(ws, es, i);
    assert WStep(ws, es, j);
  }

  /** Event g is an isend on comm number `from`, which was connected with the
      handle that the listen of comm number `to` issued; event h an irecv on comm
      `to`; event j hands the message of the one to the receive of the other; and
      the test at event i reports that receive, with the message's length or, if
      it was posted for less, the length it was posted for. */
  ghost predicate Delivered(ws: seq<State>, es: seq<Event>, g: nat, h: nat, j: nat, i: nat)
    requires WRun(ws, es) && i < |es| && ReportsReceive(ws[i], es[i])
  {
    var p, x := es[i].proc, es[i].call.req;
    var q := At(ws[i].procs[p], x).req;
    && g < j && h < j < i
    && es[h].proc == p && Receives(ws[h], es[h], x, q)
    && es[j].Deliver? && es[j].proc == p && es[j].post == q && es[j].msg in ws[j].wire
    && Sends(ws[g], es[g], es[j].msg, ws[j].wire[es[j].msg])
    && Test(ws[i].procs[p], x).1.size == Some(Min(es[g].call.size, es[h].call.size))
    && Place(p, x.comm) in ws[i].serial
    && Routed(ws[i], Match(ws[g].serial[Place(es[g].proc, es[g].call.comm)], ws[i].serial[Place(p, x.comm)]))
  }

  /** Whatever a test says done for a receive, in any run of any processes, was
      sent to it: by an isend on a comm connected with the handle of the very
      comm tested, delivered to the posting that the irecv made, and of the size
      reported. */
  lemma ReportsADelivery(ws: seq<State>, es: seq<Event>, i: nat) returns (g: nat, h: nat, j: nat)
    requires WRun(ws, es) && i < |es| && ReportsReceive(ws[i], es[i])
    ensures Delivered(ws, es, g, h, j, i)
  {
    h, j := ReportedDelivery(ws, es, i);
    g := MessageOrigin(ws, es, j, es[j].msg);
    DeliveryRoute(ws, es, j, i, es[i].call.req.comm);
  }

  /** A delivery to a comm that is not closed until event i. */
  lemma DeliveryRoute(ws: seq<State>, es: seq<Event>, j: nat, i: nat, a: Addr)
    requires WRun(ws, es) && j < i < |es| && es[j].Deliver?
    requires es[j].proc in ws[j].procs && es[j].post in ws[j].procs[es[j].proc].lib.posts && es[j].msg in ws[j].wire
    requires ws[j].procs[es[j].proc].lib.posts[es[j].post].ctx.comm == a
    requires forall n :: j < n < i && es[n].Calls? && es[n].proc == es[j].proc ==> es[n].call != Runs.CloseCall(a)
    ensures Place(es[j].proc, a) in ws[i].serial
    ensures Routed(ws[i], Match(ws[j].wire[es[j].msg].from, ws[i].serial[Place(es[j].proc, a)]))
  {
    var p, q, m := es[j].proc, es[j].post, es[j].msg;
    WRunInv(ws, es, j);
    assert WStep(ws, es, j) && PosterOk(ws[j], p, q);
    MatchIsRight(ws[j], p, q, m);
    SerialKept(ws, es, Place(p, a), j, i);
    RolesGrow(ws, es, j, i, ws[j].wire[m].from);
    RolesGrow(ws, es, j, i, ws[j].serial[Place(p, a)]);
  }

  // ------------------------------------------------------------ once only

  lemma {:induction false} MessageGone(ws: seq<State>, es: seq<Event>, j: nat, n: nat, m: nat)
    requires WRun(ws, es) && j <= n < |ws| && m < ws[j].nextMessage && m !in ws[j].wire
    ensures m < ws[n].nextMessage && m !in ws[n].wire
    decreases n
  {
    if j < n {
      MessageGone(ws, es, j, n - 1, m);
      assert WStep(ws, es, n - 1);
    }
  }

  lemma DeliveredOnce(ws: seq<State>, es: seq<Event>, j: nat, j': nat)
    requires WRun(ws, es) && j < j' < |es| && es[j].Deliver? && es[j'].Deliver?
    ensures es[j].msg != es[j'].msg
  {
    WRunInv(ws, es, j);
    assert WStep(ws, es, j) && WStep(ws, es, j') && MessageOk(ws[j], es[j].msg);
    if es[j].msg == es[j'].msg { MessageGone(ws, es, j + 1, j', es[j].msg); }
  }

  lemma ReportsApart(ws: seq<State>, es: seq<Event>, i: nat, i': nat)
    requires WRun(ws, es) && i < i' < |es| && es[i].proc == es[i'].proc
    requires ReportsReceive(ws[i], es[i]) && ReportsReceive(ws[i'], es[i'])
    ensures At(ws[i].procs[es[i].proc], es[i].call.req).req != At(ws[i'].procs[es[i].proc], es[i'].call.req).req
  {
    var p := es[i].proc;
    ProcsKept(ws, es, i);
    var ss, cs := Projects(ws, es, p, |es|);
    assert Shows(ws, es, p, |es|, ss, cs, i) && Shows(ws, es, p, |es|, ss, cs, i');
    RankOrder(es, p, i, i');
    H.ReportedOnce(ss, cs, Rank(es, p, i), Rank(es, p, i'));
  }

  /** Two reports, wherever in the world, are of different irecvs and of messages
      of different isends: nothing sent is ever reported received twice. */
  lemma EachSendReportedOnce(ws: seq<State>, es: seq<Event>, i: nat, g: nat, h: nat, j: nat,
                             i': nat, g': nat, h': nat, j': nat)
    requires WRun(ws, es) && i < i' < |es|
    requires ReportsReceive(ws[i], es[i]) && ReportsReceive(ws[i'], es[i'])
    requires Delivered(ws, es, g, h, j, i) && Delivered(ws, es, g', h', j', i')
    ensures g != g' && h != h'
  {
    if es[i].proc == es[i'].proc { ReportsApart(ws, es, i, i'); }
    if j < j' { DeliveredOnce(ws, es, j, j'); }
    if j' < j { DeliveredOnce(ws, es, j', j); }
  }

  // ---------------------------------------------------------- nothing lost

  /** The event is an isend that returned a request. */
  ghost predicate Isends(w: State, e: Event) {
    && e.Calls? && e.proc in w.procs && e.call.IsendCall? && e.call.comm in w.procs[e.proc].comms
    && Post(w.procs[e.proc], e.call.comm, ReqSend, e.call.size, e.call.post).1.req.Some?
  }

  /** What an isend put on the wire is there, as it was sent, exactly until it is
      delivered. */
  lemma {:induction false} NothingLost(ws: seq<State>, es: seq<Event>, g: nat, n: nat)
    requires WRun(ws, es) && g < n < |ws| && Isends(ws[g], es[g])
    ensures
      var m := ws[g].nextMessage;
      && (m in ws[n].wire <==> forall j :: g < j < n && es[j].Deliver? ==> es[j].msg != m)
      && (m in ws[n].wire ==> Sends(ws[g], es[g], m, ws[n].wire[m]))
      && m < ws[n].nextMessage
    decreases n
  {
    WRunInv(ws, es, n - 1);
    assert WStep(ws, es, n - 1);
    var w, e, v, m := ws[n - 1], es[n - 1], ws[n], ws[g].nextMessage;
    if n == g + 1 {
      IsendSends(w, e, v);
      assert H.Posts(w.procs[e.proc], e.call,
                     Post(w.procs[e.proc], e.call.comm, ReqSend, e.call.size, e.call.post).1.req.value);
    } else {
      NothingLost(ws, es, g, n - 1);
      StaysOnWire(w, e, v, m);
    }
  }

  lemma StaysOnWire(w: State, e: Event, v: State, m: nat)
    requires WInv(w) && Next(w, e, v) && m < w.nextMessage
    ensures m < v.nextMessage
    ensures m in v.wire <==> m in w.wire && !(e.Deliver? && e.msg == m)
    ensures m in v.wire ==> v.wire[m] == w.wire[m]
  {
    if e.Calls? && e.call.IsendCall? { IsendSends(w, e, v); } else { WireElse(w, e, v); }
  }
}
