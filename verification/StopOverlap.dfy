/**
 * How many stops go through. `LifecycleService.stop` takes no lock, so stops that overlap can each tear the worker down
 * and report; which callers can bring that about is stated exactly.
 */
module StopOverlap {
  import opened Wrappers
  import opened StopProtocol

  /** A stop that asks nobody: a local one, or that of a completed job. */
  predicate Own(c: Caller) {
    c.LocalStop? || (c.Guarded? && c.work.JobCompletionStop?)
  }

  predicate Requests(c: Caller) {
    c.Http? || c.Sigterm? || c.Grpc?
  }

  /**
   * Two callers that stand for two stops. Requests exclude each other, and HTTP stops and SIGTERM share the shutdown
   * thread; but a SIGTERM that is refused because of a gRPC stop starts that thread all the same.
   */
  predicate TwoStops(c: Caller, d: Caller) {
    (Own(c) && (Own(d) || Requests(d))) || (c.Grpc? && d.Sigterm?)
  }

  predicate CanSupplyTwo(callers: seq<Caller>) {
    exists i, j :: 0 <= i < |callers| && 0 <= j < |callers| && i != j && TwoStops(callers[i], callers[j])
  }

  // ----- Who can report -----

  predicate InStop(pc: Pc) {
    match pc
    case StopEntry | StopReason | SetComplete | Finished(Stopped(_)) => true
    case StopMessage(_) | StopMark(_) | Teardown(_) | ReportFinal(_) => true
    case _ => false
  }

  predicate HasReported(pc: Pc) {
    pc.SetComplete? || pc == Finished(Stopped(true))
  }

  predicate AcceptedOf(sh: Shared, t: nat) {
    |sh.acceptances| == 1 && sh.acceptances[0].thread == t
  }

  /** Why a thread may be inside `stop`. */
  predicate Entitled(sh: Shared, t: nat, th: Thread) {
    InStop(th.pc) ==> Own(th.caller) || th.caller.ShutdownThread? || (th.caller.Grpc? && AcceptedOf(sh, t))
  }

  lemma StepKeepsEntitled(pol: Policy, sh: Shared, t: nat, th: Thread, ch: Choice, newId: nat)
    requires ThreadOk(pol, sh, t, th) && RoleFits(th) && Entitled(sh, t, th)
    requires Grows(sh, After(pol, sh, t, th, ch, newId), t) && SharedOk(pol, sh)
    ensures Entitled(After(pol, sh, t, th, ch, newId), t, th.(pc := StepOf(pol, sh, t, th, ch).pc))
  {
    hide SourceFits, AnswerFits, OutcomeFits, Settled, PostedFor;
  }

  lemma OtherStaysEntitled(sh: Shared, sh': Shared, t: nat, u: nat, other: Thread)
    requires Grows(sh, sh', t) && Entitled(sh, u, other)
    ensures Entitled(sh', u, other)
  {
  }

  /** The shutdown thread is started for a SIGTERM or for the accepted HTTP stop. */
  predicate StarterFits(sh: Shared, t: nat, th: Thread) {
    sh.starter == Some(t) ==> th.caller.Sigterm? || (th.caller.Http? && AcceptedOf(sh, t))
  }

  lemma StepKeepsStarter(pol: Policy, sh: Shared, t: nat, th: Thread, ch: Choice, newId: nat)
    requires ThreadOk(pol, sh, t, th) && RoleFits(th) && StarterFits(sh, t, th)
    requires Grows(sh, After(pol, sh, t, th, ch, newId), t) && SharedOk(pol, sh)
    ensures StarterFits(After(pol, sh, t, th, ch, newId), t, th.(pc := StepOf(pol, sh, t, th, ch).pc))
  {
    hide SourceFits, OutcomeFits, Settled, PostedFor;
  }

  lemma OtherStaysStarter(sh: Shared, sh': Shared, t: nat, u: nat, other: Thread)
    requires Grows(sh, sh', t) && StarterFits(sh, u, other) && t != u
    ensures StarterFits(sh', u, other)
  {
  }

  predicate Accounted(sh: Shared, t: nat, th: Thread) {
    Entitled(sh, t, th) && StarterFits(sh, t, th)
  }

  /** Nobody reports twice, and the threads are the callers and the shutdown thread. */
  ghost predicate Books(callers: seq<Caller>, m: Machine) {
    && |callers| <= |m.threads|
    && (forall t :: 0 <= t < |m.threads| ==>
          && m.threads[t].caller == (if t < |callers| then callers[t] else ShutdownThread)
          && Accounted(m.shared, t, m.threads[t]))
    && ReportedOnce(m)
  }

  ghost predicate ReportedOnce(m: Machine) {
    && (forall i :: 0 <= i < |m.shared.finals| ==>
          m.shared.finals[i].thread < |m.threads| && HasReported(m.threads[m.shared.finals[i].thread].pc))
    && (forall i, j :: 0 <= i < j < |m.shared.finals| ==> m.shared.finals[i].thread != m.shared.finals[j].thread)
  }

  lemma ReportedStays(pol: Policy, sh: Shared, t: nat, th: Thread, ch: Choice)
    requires HasReported(th.pc) || th.pc.ReportFinal?
    ensures HasReported(StepOf(pol, sh, t, th, ch).pc)
  {
  }

  lemma StepKeepsReports(pol: Policy, m: Machine, t: nat, ch: Choice)
    requires t < |m.threads| && ReportedOnce(m)
    requires FinalsGrow(m.shared, Stepped(pol, m, t, ch).shared, t, m.threads[t])
    ensures ReportedOnce(Stepped(pol, m, t, ch))
  {
    var m', th, n := Stepped(pol, m, t, ch), m.threads[t], |m.shared.finals|;
    if HasReported(th.pc) || th.pc.ReportFinal? {
      ReportedStays(pol, m.shared, t, th, ch);
    }
    assert m'.threads[t].pc == StepOf(pol, m.shared, t, th, ch).pc;
    assert forall u :: 0 <= u < |m.threads| && u != t ==> m'.threads[u] == m.threads[u];
    assert forall i :: 0 <= i < n ==> m'.shared.finals[i] == m'.shared.finals[..n][i] == m.shared.finals[i];
  }

  lemma StepKeepsBooks(pol: Policy, callers: seq<Caller>, m: Machine, t: nat, ch: Choice)
    requires Consistent(pol) && MachineOk(pol, m) && Books(callers, m)
    requires t < |m.threads| && RoleFits(m.threads[t])
    ensures Books(callers, Stepped(pol, m, t, ch))
  {
    hide PcFits, SharedOk, FinalsFit, ReportedOnce;
    var m', n := Stepped(pol, m, t, ch), |m.threads|;
    StepKeeps(pol, m.shared, t, m.threads[t], ch, n);
    StepKeepsReports(pol, m, t, ch);
    StepKeepsEntitled(pol, m.shared, t, m.threads[t], ch, n);
    StepKeepsStarter(pol, m.shared, t, m.threads[t], ch, n);
    forall u | 0 <= u < n && u != t ensures Accounted(m'.shared, u, m'.threads[u]) {
      assert m'.threads[u] == m.threads[u];
      OtherStaysEntitled(m.shared, m'.shared, t, u, m.threads[u]);
      OtherStaysStarter(m.shared, m'.shared, t, u, m.threads[u]);
    }
  }

  lemma {:induction false} RunKeepsBooks(pol: Policy, callers: seq<Caller>, moves: seq<Move>)
    requires Consistent(pol) && Outside(callers)
    ensures Books(callers, Ran(pol, Begin(callers), moves))
  {
    if moves != [] {
      var before, last := moves[..|moves| - 1], moves[|moves| - 1];
      RunKeepsBooks(pol, callers, before);
      RunKeepsMachine(pol, callers, before);
      RunKeepsRoles(pol, callers, before);
      var m := Ran(pol, Begin(callers), before);
      if last.thread < |m.threads| {
        StepKeepsBooks(pol, callers, m, last.thread, last.choice);
      }
    }
  }

  /** A shutdown thread has a caller behind it: a SIGTERM, or the accepted HTTP stop. */
  lemma StarterOf(pol: Policy, callers: seq<Caller>, m: Machine, a: nat) returns (i: nat)
    requires MachineOk(pol, m) && Books(callers, m) && Outside(callers)
    requires a < |m.threads| && m.threads[a].caller.ShutdownThread?
    ensures i < |callers| && (callers[i].Sigterm? || (callers[i].Http? && AcceptedOf(m.shared, i)))
  {
    assert ThreadOk(pol, m.shared, a, m.threads[a]);
    i := m.shared.starter.value;
    assert Accounted(m.shared, i, m.threads[i]);
  }

  /** Two different reporters are two callers that stand for two stops. */
  lemma ReportersAreTwoStops(pol: Policy, callers: seq<Caller>, m: Machine, a: nat, b: nat)
    requires MachineOk(pol, m) && Books(callers, m) && Outside(callers)
    requires a < |m.threads| && b < |m.threads| && a != b
    requires InStop(m.threads[a].pc) && InStop(m.threads[b].pc)
    ensures CanSupplyTwo(callers)
  {
    assert Accounted(m.shared, a, m.threads[a]) && Accounted(m.shared, b, m.threads[b]);
    assert ThreadOk(pol, m.shared, a, m.threads[a]) && ThreadOk(pol, m.shared, b, m.threads[b]);
    if m.threads[a].caller.ShutdownThread? {
      var i := StarterOf(pol, callers, m, a);
      assert TwoStops(callers[b], callers[i]);
    } else if m.threads[b].caller.ShutdownThread? {
      var i := StarterOf(pol, callers, m, b);
      assert TwoStops(callers[a], callers[i]);
    } else if Own(callers[a]) {
      assert TwoStops(callers[a], callers[b]);
    } else {
      assert TwoStops(callers[b], callers[a]);
    }
  }

  // ----- Two stops going through -----

  const YES := Choice(true, false)

  /** Left to itself from here, a stop reports after this many steps. */
  function StepsToReport(sh: Shared): nat {
    if sh.canonical.Some? then 5 else 4
  }

  lemma StopReports(pol: Policy, m: Machine, t: nat)
    requires t < |m.threads| && m.threads[t].pc.StopReason?
    ensures |Alone(pol, m, t, YES, StepsToReport(m.shared)).shared.finals| == |m.shared.finals| + 1
  {
    var m1 := Stepped(pol, m, t, YES);
    var m2 := if m.shared.canonical.Some? then Stepped(pol, m1, t, YES) else m1;
    assert m2.threads[t].pc.StopMark? && m2.shared == m.shared;
    MarkReports(pol, m2, t);
  }

  lemma MarkReports(pol: Policy, m: Machine, t: nat)
    requires t < |m.threads| && m.threads[t].pc.StopMark?
    ensures |Alone(pol, m, t, YES, 3).shared.finals| == |m.shared.finals| + 1
  {
    var m1 := Stepped(pol, m, t, YES);
    assert m1.threads[t].pc.Teardown?;
    var m2 := Stepped(pol, m1, t, YES);
    assert m2.threads[t].pc.ReportFinal?;
    assert Alone(pol, m2, t, YES, 1) == Stepped(pol, m2, t, YES);
  }

  /** Two threads at the beginning of `stop` can both pass the check and both report. */
  lemma BothReport(pol: Policy, start: Machine, m: Machine, a: nat, b: nat)
    requires Reaches(pol, start, m) && a < |m.threads| && b < |m.threads| && a != b
    requires m.threads[a].pc.StopEntry? && m.threads[b].pc.StopEntry? && !m.shared.complete
    ensures exists m' :: Reaches(pol, start, m') && |m'.shared.finals| >= 2
  {
    var m1 := Alone(pol, m, a, YES, 1);
    assert m1 == Stepped(pol, m, a, YES);
    ReachesOn(pol, start, m, a, YES, 1);
    var m2 := Alone(pol, m1, b, YES, 1);
    assert m2 == Stepped(pol, m1, b, YES);
    ReachesOn(pol, start, m1, b, YES, 1);
    StopReports(pol, m2, b);
    var n := StepsToReport(m2.shared);
    var m3 := Alone(pol, m2, b, YES, n);
    ReachesOn(pol, start, m2, b, YES, n);
    AloneLeavesOthers(pol, m2, b, YES, n, a);
    StopReports(pol, m3, a);
    ReachesOn(pol, start, m3, a, YES, StepsToReport(m3.shared));
  }

  /** Nothing stands in the way of a request, except perhaps an accepted one. */
  predicate Open(sh: Shared) {
    sh.lock.None? && !sh.complete && !sh.threadStarted && !sh.handlerInvoked
  }

  lemma OwnArrives(pol: Policy, start: Machine, m: Machine, t: nat, c: Caller) returns (m': Machine)
    requires Reaches(pol, start, m) && In(m, t, m.shared, c, FirstPc(c)) && Own(c)
    requires Open(m.shared) && !m.shared.inProgress
    ensures Reaches(pol, start, m') && m'.threads == m.threads[t := Thread(c, StopEntry)]
    ensures m'.shared == m.shared.(begun := m'.shared.begun)
  {
    if c.LocalStop? {
      m' := m;
    } else {
      m' := Alone(pol, m, t, YES, 1);
      ReachesOn(pol, start, m, t, YES, 1);
      assert m' == Stepped(pol, m, t, YES);
    }
  }

  lemma GrpcArrives(pol: Policy, start: Machine, m: Machine, t: nat, c: Caller) returns (m': Machine)
    requires Reaches(pol, start, m) && In(m, t, m.shared, c, FirstPc(c)) && c.Grpc?
    requires Open(m.shared) && !m.shared.inProgress && !m.shared.accepted
    ensures Reaches(pol, start, m') && t < |m'.threads| && m'.threads[t].pc.StopEntry? && Open(m'.shared)
    ensures forall u :: 0 <= u < |m.threads| && u != t ==> u < |m'.threads| && m'.threads[u] == m.threads[u]
  {
    m' := Alone(pol, m, t, YES, 8);
    UndisturbedRequest(pol, m, t, m.shared, c, YES);
    ReachesOn(pol, start, m, t, YES, 8);
    forall u | 0 <= u < |m.threads| && u != t ensures u < |m'.threads| && m'.threads[u] == m.threads[u] {
      AloneLeavesOthers(pol, m, t, YES, 8, u);
    }
  }

  /** A thread about to ensure the shutdown thread starts it. */
  lemma EnsureStarts(pol: Policy, start: Machine, m: Machine, t: nat, c: Caller, answer: Option<Posted>)
      returns (m': Machine)
    requires Reaches(pol, start, m) && In(m, t, m.shared, c, Ensure(answer))
    requires !m.shared.threadStarted && !m.shared.complete
    ensures Reaches(pol, start, m') && |m'.threads| == |m.threads| + 1 && !m'.shared.complete
    ensures m'.threads[|m.threads|].pc.StopEntry?
    ensures forall u :: 0 <= u < |m.threads| && u != t ==> m'.threads[u] == m.threads[u]
  {
    var m1 := Alone(pol, m, t, YES, 1);
    assert m1 == Stepped(pol, m, t, YES);
    ReachesOn(pol, start, m, t, YES, 1);
    assert In(m1, t, m1.shared, c, StartThread(answer));
    m' := Alone(pol, m1, t, YES, 1);
    assert m' == Stepped(pol, m1, t, YES);
    ReachesOn(pol, start, m1, t, YES, 1);
  }

  /** An HTTP stop that can be accepted, or any first SIGTERM, gets the shutdown thread started. */
  lemma ShutdownArrives(pol: Policy, start: Machine, m: Machine, t: nat, c: Caller) returns (m': Machine, b: nat)
    requires Reaches(pol, start, m) && In(m, t, m.shared, c, FirstPc(c)) && Open(m.shared)
    requires c.Sigterm? || (c.Http? && !m.shared.inProgress && !m.shared.accepted)
    ensures Reaches(pol, start, m') && |m.threads| <= b < |m'.threads| && !m'.shared.complete
    ensures m'.threads[b].pc.StopEntry?
    ensures forall u :: 0 <= u < |m.threads| && u != t ==> m'.threads[u] == m.threads[u]
  {
    var asking := m;
    if c.Sigterm? {
      asking := Alone(pol, m, t, YES, 1);
      assert asking == Stepped(pol, m, t, YES);
      ReachesOn(pol, start, m, t, YES, 1);
    }
    var n := RequestSteps(asking.shared, true);
    var ensuring := Alone(pol, asking, t, YES, n);
    UndisturbedRequest(pol, asking, t, asking.shared, c, YES);
    ReachesOn(pol, start, asking, t, YES, n);
    m' := EnsureStarts(pol, start, ensuring, t, c, ensuring.threads[t].pc.answer);
    b := |ensuring.threads|;
    forall u | 0 <= u < |m.threads| && u != t ensures u < b && m'.threads[u] == m.threads[u] {
      AloneLeavesOthers(pol, asking, t, YES, n, u);
    }
  }

  /** Any two callers that stand for two stops can both be at the beginning of `stop`, and so both report. */
  lemma TwoCanReport(pol: Policy, callers: seq<Caller>, i: nat, j: nat)
    requires i < |callers| && j < |callers| && i != j && TwoStops(callers[i], callers[j])
    ensures exists m' :: Reaches(pol, Begin(callers), m') && |m'.shared.finals| >= 2
  {
    var c, d, start := callers[i], callers[j], Begin(callers);
    assert Ran(pol, start, []) == start;
    var m: Machine;
    if Own(c) {
      m := OwnArrives(pol, start, start, i, c);
    } else {
      m := GrpcArrives(pol, start, start, i, c);
    }
    assert start.threads[j] == Thread(d, FirstPc(d));
    SecondCanReport(pol, start, m, i, j, d);
  }

  lemma SecondCanReport(pol: Policy, start: Machine, m: Machine, i: nat, j: nat, d: Caller)
    requires Reaches(pol, start, m) && i < |m.threads| && m.threads[i].pc.StopEntry? && i != j
    requires In(m, j, m.shared, d, FirstPc(d)) && Open(m.shared) && (Own(d) || Requests(d))
    requires d.Sigterm? || (!m.shared.inProgress && !m.shared.accepted)
    ensures exists m' :: Reaches(pol, start, m') && |m'.shared.finals| >= 2
  {
    if Own(d) {
      var both := OwnArrives(pol, start, m, j, d);
      BothReport(pol, start, both, i, j);
    } else if d.Grpc? {
      var both := GrpcArrives(pol, start, m, j, d);
      BothReport(pol, start, both, i, j);
    } else {
      var both, b := ShutdownArrives(pol, start, m, j, d);
      BothReport(pol, start, both, i, b);
    }
  }

  // ----- Exactly when stops cannot overlap -----

  ghost predicate AtMostOneReport(pol: Policy, callers: seq<Caller>) {
    forall moves :: |Ran(pol, Begin(callers), moves).shared.finals| <= 1
  }

  /** In every run at most one stop goes through to its final report exactly when the callers cannot supply two. */
  lemma OneReportExactly(pol: Policy, callers: seq<Caller>)
    requires Consistent(pol) && Outside(callers)
    ensures AtMostOneReport(pol, callers) <==> !CanSupplyTwo(callers)
  {
    if i, j :| 0 <= i < |callers| && 0 <= j < |callers| && i != j && TwoStops(callers[i], callers[j]) {
      TwoCanReport(pol, callers, i, j);
      var m :| Reaches(pol, Begin(callers), m) && |m.shared.finals| >= 2;
      var moves :| Ran(pol, Begin(callers), moves) == m;
      assert |Ran(pol, Begin(callers), moves).shared.finals| > 1;
    } else {
      forall moves ensures |Ran(pol, Begin(callers), moves).shared.finals| <= 1 {
        var m := Ran(pol, Begin(callers), moves);
        RunKeepsMachine(pol, callers, moves);
        RunKeepsBooks(pol, callers, moves);
        if |m.shared.finals| > 1 {
          ReportersAreTwoStops(pol, callers, m, m.shared.finals[0].thread, m.shared.finals[1].thread);
        }
      }
    }
  }
}
