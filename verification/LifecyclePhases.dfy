/** The phases of a worker and their journal (lifecycle_service.py, runtime_state.py, worker_app.py). */
module LifecyclePhases {
  import opened Wrappers

  datatype Phase = Initializing | Ready | Running | Degraded | Stopping | Stopped | Completed | Failed

  const ALLOWED_PHASE_TRANSITIONS: map<Phase, set<Phase>> := map[
    Initializing := {Ready, Running, Failed, Stopping},
    Ready := {Running, Stopping, Failed},
    Running := {Degraded, Stopping, Failed},
    Degraded := {Running, Stopping, Failed},
    Stopping := {Stopped, Failed, Completed},
    Stopped := {},
    Completed := {},
    Failed := {}]

  predicate IsTerminal(p: Phase) {
    p in {Stopped, Completed, Failed}
  }

  predicate CanTransition(from: Phase, to: Phase) {
    from != to && !IsTerminal(from) && from in ALLOWED_PHASE_TRANSITIONS && to in ALLOWED_PHASE_TRANSITIONS[from]
  }

  datatype TransitionError = SelfTransition | TerminalResurrection | EdgeNotAllowed

  function ValidateTransition(from: Phase, to: Phase): Option<TransitionError> {
    if from == to then Some(SelfTransition)
    else if IsTerminal(from) then Some(TerminalResurrection)
    else if from !in ALLOWED_PHASE_TRANSITIONS || to !in ALLOWED_PHASE_TRANSITIONS[from] then Some(EdgeNotAllowed)
    else None
  }

  /** The two checks accept the same edges, and the table never leads on from a terminal phase. */
  lemma ChecksAgree(from: Phase, to: Phase)
    ensures CanTransition(from, to) <==> ValidateTransition(from, to).None?
    ensures CanTransition(from, to) <==> to in ALLOWED_PHASE_TRANSITIONS[from]
  {
  }

  datatype Row = Row(previous: Option<Phase>, phase: Phase)

  /** The fields that decide about phases, and the journal's phase rows. */
  datatype State = State(phase: Phase, started: bool, complete: bool, inProgress: bool, rows: seq<Row>)

  const CREATED := State(Initializing, false, false, false, [Row(None, Initializing)])

  function Entered(s: State, phase: Phase): State {
    s.(phase := phase, rows := s.rows + [Row(Some(s.phase), phase)])
  }

  /** Where startup raises; a rollback that raises in turn leaves the flags alone. */
  datatype StartOutcome =
    | Succeeds
    | FailsBeforeReady(rollbackRaises: bool)
    | FailsAfterReady(rollbackRaises: bool)

  /** Where a stop raises. */
  datatype StopOutcome = Performed | AbortsBeforeStopping | AbortsBeforeFinal

  datatype Op =
    | Start(outcome: StartOutcome)
    | Run(outcome: StartOutcome)
    | Stop(jobCompleted: bool, result: StopOutcome)

  function FailedStart(s: State, rollbackRaises: bool): State {
    var failed := Entered(s, Failed);
    if rollbackRaises then failed else failed.(started := false, complete := false)
  }

  function AfterStart(s: State, outcome: StartOutcome): State {
    if s.started then s
    else
      match outcome
      case Succeeds => Entered(s, Ready).(started := true, complete := false)
      case FailsBeforeReady(raises) => FailedStart(s, raises)
      case FailsAfterReady(raises) => FailedStart(Entered(s, Ready).(started := true, complete := false), raises)
  }

  /** `run` goes on to RUNNING unless startup raised. */
  function AfterRun(s: State, outcome: StartOutcome): State {
    var started := AfterStart(s, outcome);
    if (s.started || outcome.Succeeds?) && started.phase == Ready then Entered(started, Running) else started
  }

  function FinalPhase(backtest: bool, jobCompleted: bool): Phase {
    if jobCompleted && backtest then Completed else Stopped
  }

  function AfterStop(backtest: bool, s: State, jobCompleted: bool, result: StopOutcome): State {
    if s.complete then s
    else
      var latched := s.(inProgress := true);
      match result
      case AbortsBeforeStopping => latched
      case AbortsBeforeFinal => Entered(latched, Stopping)
      case Performed =>
        Entered(Entered(latched, Stopping), FinalPhase(backtest, jobCompleted)).(complete := true, started := false)
  }

  function AfterOp(backtest: bool, s: State, op: Op): State {
    match op
    case Start(outcome) => AfterStart(s, outcome)
    case Run(outcome) => AfterRun(s, outcome)
    case Stop(jobCompleted, result) => AfterStop(backtest, s, jobCompleted, result)
  }

  function AfterOps(backtest: bool, s: State, ops: seq<Op>): State {
    if ops == [] then s else AfterOp(backtest, AfterOps(backtest, s, ops[..|ops| - 1]), ops[|ops| - 1])
  }

  class LifecycleService {
    const backtest: bool
    var phase: Phase
    var started: bool
    var shutdownComplete: bool
    var shutdownInProgress: bool
    var phaseRows: seq<Row>

    constructor (backtest: bool)
      ensures this.backtest == backtest && Snapshot() == CREATED
    {
      this.backtest := backtest;
      phase, started, shutdownComplete, shutdownInProgress := Initializing, false, false, false;
      phaseRows := [Row(None, Initializing)];
    }

    ghost function Snapshot(): State
      reads this
    {
      State(phase, started, shutdownComplete, shutdownInProgress, phaseRows)
    }

    method SetPhase(next: Phase)
      modifies this`phase, this`phaseRows
      ensures Snapshot() == Entered(old(Snapshot()), next)
    {
      var previous := phase;
      phase := next;
      phaseRows := phaseRows + [Row(Some(previous), next)];
    }

    /** What `start` does with an exception before it raises it again. */
    method RollBack(rollbackRaises: bool)
      modifies this
      ensures Snapshot() == FailedStart(old(Snapshot()), rollbackRaises)
    {
      SetPhase(Failed);
      if !rollbackRaises {
        started, shutdownComplete := false, false;
      }
    }

    /** `raises` says whether the caller sees an exception. */
    method DoStart(outcome: StartOutcome) returns (raises: bool)
      modifies this
      ensures Snapshot() == AfterStart(old(Snapshot()), outcome)
      ensures raises == (!old(started) && !outcome.Succeeds?)
    {
      if started {
        return false;
      }
      if outcome.FailsBeforeReady? {
        RollBack(outcome.rollbackRaises);
        return true;
      }
      SetPhase(Ready);
      started := true;
      shutdownComplete := false;
      if outcome.FailsAfterReady? {
        RollBack(outcome.rollbackRaises);
        return true;
      }
      return false;
    }

    method DoRun(outcome: StartOutcome) returns (raises: bool)
      modifies this
      ensures Snapshot() == AfterRun(old(Snapshot()), outcome)
      ensures raises == (!old(started) && !outcome.Succeeds?)
    {
      raises := DoStart(outcome);
      if !raises && phase == Ready {
        SetPhase(Running);
      }
    }

    /** False when there was nothing left to stop; `result` says where the teardown raises. */
    method DoStop(jobCompleted: bool, result: StopOutcome) returns (performed: bool)
      modifies this
      ensures Snapshot() == AfterStop(backtest, old(Snapshot()), jobCompleted, result)
      ensures performed == (!old(shutdownComplete) && result.Performed?)
    {
      if shutdownComplete {
        return false;
      }
      if !shutdownInProgress {
        shutdownInProgress := true;
      }
      if result.AbortsBeforeStopping? {
        return false;
      }
      SetPhase(Stopping);
      if result.AbortsBeforeFinal? {
        return false;
      }
      var finalPhase := Stopped;
      if jobCompleted && backtest {
        finalPhase := Completed;
      }
      SetPhase(finalPhase);
      shutdownComplete := true;
      started := false;
      return true;
    }
  }

  // ----- The journal -----

  /** Every row continues the one before it, and the last one says where the worker is. */
  predicate Chained(s: State) {
    && s.rows != [] && s.rows[0] == Row(None, Initializing)
    && s.rows[|s.rows| - 1].phase == s.phase
    && forall i :: 0 < i < |s.rows| ==> s.rows[i].previous == Some(s.rows[i - 1].phase)
  }

  lemma EnteringKeepsChain(s: State, next: Phase)
    requires Chained(s)
    ensures Chained(Entered(s, next))
  {
  }

  lemma OpKeepsChain(backtest: bool, s: State, op: Op)
    requires Chained(s)
    ensures Chained(AfterOp(backtest, s, op))
  {
    match op
    case Start(outcome) => StartKeepsChain(s, outcome);
    case Run(outcome) =>
      StartKeepsChain(s, outcome);
      EnteringKeepsChain(AfterStart(s, outcome), Running);
    case Stop(jobCompleted, _) =>
      var latched := s.(inProgress := true);
      EnteringKeepsChain(latched, Stopping);
      EnteringKeepsChain(Entered(latched, Stopping), FinalPhase(backtest, jobCompleted));
  }

  lemma StartKeepsChain(s: State, outcome: StartOutcome)
    requires Chained(s)
    ensures Chained(AfterStart(s, outcome))
  {
    var ready := Entered(s, Ready).(started := true, complete := false);
    EnteringKeepsChain(s, Ready);
    EnteringKeepsChain(s, Failed);
    EnteringKeepsChain(ready, Failed);
  }

  /** Whatever is called in whatever order, with whatever failures, the journal is one unbroken chain. */
  lemma {:induction false} JournalIsAChain(backtest: bool, ops: seq<Op>)
    ensures Chained(AfterOps(backtest, CREATED, ops))
  {
    if ops != [] {
      JournalIsAChain(backtest, ops[..|ops| - 1]);
      OpKeepsChain(backtest, AfterOps(backtest, CREATED, ops[..|ops| - 1]), ops[|ops| - 1]);
    }
  }

  // ----- Runs with one start, before any stop -----

  predicate Stops(ops: seq<Op>) {
    forall op :: op in ops ==> op.Stop?
  }

  /** A worker that is started at most once, before any stop; `first` is that start. */
  function AfterLife(backtest: bool, first: Option<Op>, stops: seq<Op>): State {
    AfterOps(backtest, if first.Some? then AfterOp(backtest, CREATED, first.value) else CREATED, stops)
  }

  predicate OneStart(first: Option<Op>, stops: seq<Op>) {
    (first.Some? ==> !first.value.Stop?) && Stops(stops)
  }

  /** An edge of the table, or one of the two a stop adds: after a failed start, and after a stop that was aborted. */
  predicate EdgeOk(r: Row) {
    match r.previous
    case None => r.phase == Initializing
    case Some(p) => CanTransition(p, r.phase) || (r.phase == Stopping && (p == Failed || p == Stopping))
  }

  predicate EdgesOk(rows: seq<Row>) {
    forall i :: 0 <= i < |rows| ==> EdgeOk(rows[i])
  }

  predicate TableKept(rows: seq<Row>) {
    forall i :: 0 < i < |rows| ==> rows[i].previous.Some? && CanTransition(rows[i].previous.value, rows[i].phase)
  }

  predicate StartFails(first: Option<Op>) {
    first.Some? && !first.value.Stop? && !first.value.outcome.Succeeds?
  }

  predicate StopPerformed(stops: seq<Op>) {
    stops != [] && (StopPerformed(stops[..|stops| - 1])
        || (stops[|stops| - 1].Stop? && stops[|stops| - 1].result.Performed?))
  }

  /** Whether the first stop that goes through is for a completed job. */
  predicate JobCompletes(stops: seq<Op>) {
    stops != [] &&
    if StopPerformed(stops[..|stops| - 1]) then JobCompletes(stops[..|stops| - 1])
    else stops[|stops| - 1].Stop? && stops[|stops| - 1].result.Performed? && stops[|stops| - 1].jobCompleted
  }

  /** How many of the stops enter STOPPING: those that get that far, up to the first that goes through. */
  function StoppingEntries(stops: seq<Op>): nat {
    if stops == [] then 0
    else
      var before, last := stops[..|stops| - 1], stops[|stops| - 1];
      StoppingEntries(before) + if last.Stop? && !StopPerformed(before) && !last.result.AbortsBeforeStopping? then 1
          else 0
  }

  /** What is known about a life after some of its stops. */
  predicate Tracks(backtest: bool, first: Option<Op>, stops: seq<Op>, s: State) {
    var n := StoppingEntries(stops);
    && s.rows != [] && s.rows[0] == Row(None, Initializing) && EdgesOk(s.rows)
    && s.complete == StopPerformed(stops)
    && (s.complete ==> n > 0 && s.phase == FinalPhase(backtest, JobCompletes(stops)))
    && (!s.complete && n > 0 ==> s.phase == Stopping)
    && (n == 0 ==> s.phase in {Initializing, Ready, Running, Failed} && (s.phase == Failed <==> StartFails(first)))
    && (TableKept(s.rows) <==> n <= if StartFails(first) then 0 else 1)
  }

  lemma EnteringEdges(s: State, next: Phase)
    requires s.rows != []
    ensures EdgesOk(Entered(s, next).rows) <==> EdgesOk(s.rows) && EdgeOk(Row(Some(s.phase), next))
    ensures TableKept(Entered(s, next).rows) <==> TableKept(s.rows) && CanTransition(s.phase, next)
  {
    var rows := Entered(s, next).rows;
    assert rows[|s.rows|] == Row(Some(s.phase), next);
    assert forall i :: 0 <= i < |s.rows| ==> rows[i] == s.rows[i];
  }

  lemma EdgesOfStart()
    ensures CanTransition(Initializing, Ready) && CanTransition(Initializing, Failed)
    ensures CanTransition(Ready, Running) && CanTransition(Ready, Failed)
  {
  }

  lemma StartTracks(backtest: bool, first: Option<Op>)
    requires OneStart(first, [])
    ensures Tracks(backtest, first, [], AfterLife(backtest, first, []))
  {
    hide CanTransition;
    EdgesOfStart();
    assert EdgeOk(CREATED.rows[0]);
    var ready := Entered(CREATED, Ready).(started := true);
    EnteringEdges(CREATED, Ready);
    EnteringEdges(CREATED, Failed);
    EnteringEdges(ready, Failed);
    EnteringEdges(ready, Running);
  }

  /** What the list functions make of one more stop. */
  lemma OneMoreStop(stops: seq<Op>, stop: Op)
    requires stop.Stop?
    ensures StopPerformed(stops + [stop]) <==> StopPerformed(stops) || stop.result.Performed?
    ensures !StopPerformed(stops) && stop.result.Performed? ==> JobCompletes(stops + [stop]) == stop.jobCompleted
    ensures StoppingEntries(stops + [stop])
         == StoppingEntries(stops) + if !StopPerformed(stops) && !stop.result.AbortsBeforeStopping? then 1 else 0
  {
    assert (stops + [stop])[..|stops|] == stops;
  }

  lemma PerformedStopRows(backtest: bool, s: State, jobCompleted: bool)
    requires s.rows != [] && EdgesOk(s.rows) && EdgeOk(Row(Some(s.phase), Stopping)) && !s.complete
    ensures var s' := AfterStop(backtest, s, jobCompleted, Performed);
      && s'.rows != [] && s'.rows[0] == s.rows[0] && EdgesOk(s'.rows)
      && (TableKept(s'.rows) <==> TableKept(s.rows) && CanTransition(s.phase, Stopping))
  {
    var latched := s.(inProgress := true);
    EnteringEdges(latched, Stopping);
    EnteringEdges(Entered(latched, Stopping), FinalPhase(backtest, jobCompleted));
  }

  lemma PerformedStopTracks(backtest: bool, first: Option<Op>, stops: seq<Op>, s: State, jobCompleted: bool)
    requires Tracks(backtest, first, stops, s) && !s.complete
    ensures var stop := Stop(jobCompleted, Performed); Tracks(backtest, first, stops + [stop],
        AfterOp(backtest, s, stop))
  {
    OneMoreStop(stops, Stop(jobCompleted, Performed));
    PerformedStopRows(backtest, s, jobCompleted);
  }

  lemma AbortedStopTracks(backtest: bool, first: Option<Op>, stops: seq<Op>, s: State, stop: Op)
    requires Tracks(backtest, first, stops, s) && stop.Stop? && (s.complete || !stop.result.Performed?)
    ensures Tracks(backtest, first, stops + [stop], AfterOp(backtest, s, stop))
  {
    assert (stops + [stop])[..|stops|] == stops;
    if !s.complete {
      EnteringEdges(s.(inProgress := true), Stopping);
    }
  }

  lemma {:induction false} LifeTracks(backtest: bool, first: Option<Op>, stops: seq<Op>)
    requires OneStart(first, stops)
    ensures Tracks(backtest, first, stops, AfterLife(backtest, first, stops))
  {
    if stops == [] {
      StartTracks(backtest, first);
    } else {
      var before, last := stops[..|stops| - 1], stops[|stops| - 1];
      assert last in stops && stops == before + [last];
      LifeTracks(backtest, first, before);
      var s := AfterLife(backtest, first, before);
      if s.complete || !last.result.Performed? {
        AbortedStopTracks(backtest, first, before, s, last);
      } else {
        PerformedStopTracks(backtest, first, before, s, last.jobCompleted);
      }
    }
  }

  /** The phases a start goes through. */
  function StartPhases(first: Option<Op>): seq<Phase> {
    match first
    case Some(Start(Succeeds)) => [Ready]
    case Some(Run(Succeeds)) => [Ready, Running]
    case Some(Start(FailsBeforeReady(_))) => [Failed]
    case Some(Run(FailsBeforeReady(_))) => [Failed]
    case Some(Start(FailsAfterReady(_))) => [Ready, Failed]
    case Some(Run(FailsAfterReady(_))) => [Ready, Failed]
    case _ => []
  }

  function Phases(rows: seq<Row>): seq<Phase> {
    seq(|rows|, i requires 0 <= i < |rows| => rows[i].phase)
  }

  function LastPhases(backtest: bool, stops: seq<Op>): seq<Phase> {
    seq(StoppingEntries(stops), _ => Stopping)
    + if !StopPerformed(stops) then [] else if backtest && JobCompletes(stops) then [Completed] else [Stopped]
  }

  lemma EnteringAddsPhase(s: State, next: Phase)
    ensures Phases(Entered(s, next).rows) == Phases(s.rows) + [next]
  {
  }

  lemma PhasesOfStart(backtest: bool, first: Option<Op>)
    requires OneStart(first, [])
    ensures var s := AfterLife(backtest, first, []);
      && Phases(s.rows) == [Initializing] + StartPhases(first) + LastPhases(backtest, [])
      && !s.complete && !s.inProgress
  {
    var ready := Entered(CREATED, Ready).(started := true);
    assert Phases(CREATED.rows) == [Initializing];
    EnteringAddsPhase(CREATED, Ready);
    EnteringAddsPhase(CREATED, Failed);
    EnteringAddsPhase(ready, Failed);
    EnteringAddsPhase(ready, Running);
  }

  lemma OneMoreLastPhase(backtest: bool, stops: seq<Op>, stop: Op)
    requires stop.Stop?
    ensures LastPhases(backtest, stops + [stop]) ==
      if StopPerformed(stops) || stop.result.AbortsBeforeStopping? then LastPhases(backtest, stops)
      else if stop.result.AbortsBeforeFinal? then LastPhases(backtest, stops) + [Stopping]
      else LastPhases(backtest, stops) + [Stopping, if backtest && stop.jobCompleted then Completed else Stopped]
  {
    OneMoreStop(stops, stop);
    assert (stops + [stop])[..|stops|] == stops;
  }

  lemma StopAddsPhases(backtest: bool, s: State, stop: Op)
    requires stop.Stop?
    ensures var s' := AfterOp(backtest, s, stop);
      && s'.complete == (s.complete || stop.result.Performed?)
      && s'.inProgress == (s.inProgress || !s.complete)
      && Phases(s'.rows) ==
         if s.complete || stop.result.AbortsBeforeStopping? then Phases(s.rows)
         else if stop.result.AbortsBeforeFinal? then Phases(s.rows) + [Stopping]
         else Phases(s.rows) + [Stopping, if backtest && stop.jobCompleted then Completed else Stopped]
  {
    var latched := s.(inProgress := true);
    EnteringAddsPhase(latched, Stopping);
    EnteringAddsPhase(Entered(latched, Stopping), FinalPhase(backtest, stop.jobCompleted));
  }

  /**
   * The phases of a life in order: those of its start, STOPPING once for every stop that gets there, and the final
   * phase of the first stop that goes through. The worker is complete once one has, and shutting down from the first.
   */
  lemma {:induction false} PhasesOfALife(backtest: bool, first: Option<Op>, stops: seq<Op>)
    requires OneStart(first, stops)
    ensures var s := AfterLife(backtest, first, stops);
      && Phases(s.rows) == [Initializing] + StartPhases(first) + LastPhases(backtest, stops)
      && s.complete == StopPerformed(stops)
      && s.inProgress == (stops != [])
  {
    hide Phases, LastPhases, AfterOp;
    if stops == [] {
      PhasesOfStart(backtest, first);
    } else {
      var before, last := stops[..|stops| - 1], stops[|stops| - 1];
      assert last in stops && stops == before + [last];
      PhasesOfALife(backtest, first, before);
      OneMoreStop(before, last);
      OneMoreLastPhase(backtest, before, last);
      StopAddsPhases(backtest, AfterLife(backtest, first, before), last);
    }
  }

  /**
   * Every phase change of such a life is an edge of the table, except that a stop may lead on from FAILED or from an
   * aborted stop; the table is kept exactly when at most one stop enters STOPPING, and none after a failed start.
   */
  lemma EdgesOfALife(backtest: bool, first: Option<Op>, stops: seq<Op>)
    requires OneStart(first, stops)
    ensures var s := AfterLife(backtest, first, stops);
      EdgesOk(s.rows) && (TableKept(s.rows) <==> StoppingEntries(stops) <= if StartFails(first) then 0 else 1)
  {
    LifeTracks(backtest, first, stops);
  }

  /** COMPLETED is reached exactly by a backtest whose first stop to go through is for its completed job. */
  lemma CompletedExactlyByBacktestJobs(backtest: bool, first: Option<Op>, stops: seq<Op>)
    requires OneStart(first, stops)
    ensures AfterLife(backtest, first, stops).phase == Completed <==> backtest && JobCompletes(stops)
  {
    LifeTracks(backtest, first, stops);
    JobCompletesMeansPerformed(stops);
  }

  lemma {:induction false} JobCompletesMeansPerformed(stops: seq<Op>)
    ensures JobCompletes(stops) ==> StopPerformed(stops)
  {
    if stops != [] {
      JobCompletesMeansPerformed(stops[..|stops| - 1]);
    }
  }

  /** Once a stop has gone through, later stops change nothing. */
  lemma {:induction false} LaterStopsChangeNothing(backtest: bool, first: Option<Op>, stops: seq<Op>, later: seq<Op>)
    requires OneStart(first, stops) && Stops(later) && StopPerformed(stops)
    ensures AfterLife(backtest, first, stops + later) == AfterLife(backtest, first, stops)
  {
    if later == [] {
      assert stops + later == stops;
    } else {
      var n := |later| - 1;
      assert (stops + later)[..|stops| + n] == stops + later[..n];
      assert later[n] in later;
      LaterStopsChangeNothing(backtest, first, stops, later[..n]);
      LifeTracks(backtest, first, stops);
    }
  }

  /** A second start leaves the table: it leads on from STOPPED, COMPLETED or FAILED. */
  lemma RestartLeavesTheTable(backtest: bool, first: Option<Op>, stops: seq<Op>, outcome: StartOutcome)
    requires OneStart(first, stops) && StopPerformed(stops)
    ensures !TableKept(AfterStart(AfterLife(backtest, first, stops), outcome).rows)
  {
    LifeTracks(backtest, first, stops);
    StoppedLifeIsNotStarted(backtest, first, stops);
    var s := AfterLife(backtest, first, stops);
    var ready := Entered(s, Ready).(started := true, complete := false);
    EnteringEdges(s, Ready);
    EnteringEdges(s, Failed);
    EnteringEdges(ready, Failed);
  }

  lemma {:induction false} StoppedLifeIsNotStarted(backtest: bool, first: Option<Op>, stops: seq<Op>)
    requires OneStart(first, stops)
    ensures var s := AfterLife(backtest, first, stops); s.complete ==> !s.started
  {
    if stops != [] {
      assert stops[|stops| - 1] in stops;
      StoppedLifeIsNotStarted(backtest, first, stops[..|stops| - 1]);
    }
  }

  // ----- The worker's waiting loops -----

  /** What the waiting loops look at. */
  datatype View = View(state: State, firstData: bool, replayComplete: bool)

  /** What other threads do during one sleep. */
  datatype Sleep = Sleep(calls: seq<Op>, firstData: bool, replayDone: bool)

  function Slept(backtest: bool, v: View, sleep: Sleep): View {
    View(AfterOps(backtest, v.state, sleep.calls), v.firstData || sleep.firstData, v.replayComplete || sleep.replayDone)
  }

  predicate ShouldStopForCompletedBacktestJob(backtest: bool, v: View) {
    !v.state.complete && !v.state.inProgress && backtest && v.replayComplete && v.state.phase in {Ready, Running}
  }

  /** First waiting for data, then for the end; `result` is how the stop for a completed job would go. */
  function Waited(backtest: bool, v: View, sleeps: seq<Sleep>, forData: bool, result: StopOutcome): View
    decreases |sleeps|, forData
  {
    if forData && !(v.state.phase in {Ready, Running} && !v.firstData) then Waited(backtest, v, sleeps, false, result)
    else if v.state.phase !in {Ready, Running, Failed} then v
    else if ShouldStopForCompletedBacktestJob(backtest, v) then v.(state := AfterStop(backtest, v.state, true, result))
    else if sleeps == [] then v
    else Waited(backtest, Slept(backtest, v, sleeps[0]), sleeps[1..], forData, result)
  }

  class WorkerApp {
    const lifecycle: LifecycleService
    var firstDataReceived: bool
    var backtestReplayComplete: bool

    constructor (lifecycle: LifecycleService)
      ensures this.lifecycle == lifecycle && !firstDataReceived && !backtestReplayComplete
    {
      this.lifecycle := lifecycle;
      firstDataReceived, backtestReplayComplete := false, false;
    }

    ghost function Sight(): View
      reads this, lifecycle
    {
      View(lifecycle.Snapshot(), firstDataReceived, backtestReplayComplete)
    }

    method ShouldStop() returns (b: bool)
      ensures b == ShouldStopForCompletedBacktestJob(lifecycle.backtest, Sight())
    {
      b := !lifecycle.shutdownComplete && !lifecycle.shutdownInProgress && lifecycle.backtest && backtestReplayComplete
        && lifecycle.phase in {Ready, Running};
    }

    /** A sleep, with what happens meanwhile. */
    method DoSleep(sleep: Sleep)
      modifies this, lifecycle
      ensures Sight() == Slept(lifecycle.backtest, old(Sight()), sleep)
    {
      for i := 0 to |sleep.calls|
        invariant lifecycle.Snapshot() == AfterOps(lifecycle.backtest, old(lifecycle.Snapshot()), sleep.calls[..i])
        invariant firstDataReceived == old(firstDataReceived) && backtestReplayComplete == old(backtestReplayComplete)
      {
        assert sleep.calls[..i + 1][..i] == sleep.calls[..i];
        match sleep.calls[i] {
          case Start(outcome) => var _ := lifecycle.DoStart(outcome);
          case Run(outcome) => var _ := lifecycle.DoRun(outcome);
          case Stop(jobCompleted, result) => var _ := lifecycle.DoStop(jobCompleted, result);
        }
      }
      assert sleep.calls[..|sleep.calls|] == sleep.calls;
      firstDataReceived := firstDataReceived || sleep.firstData;
      backtestReplayComplete := backtestReplayComplete || sleep.replayDone;
    }

    /** The second loop; the script of sleeps may end before it does. */
    method WaitForEnd(sleeps: seq<Sleep>, result: StopOutcome)
      modifies this, lifecycle
      ensures Sight() == Waited(lifecycle.backtest, old(Sight()), sleeps, false, result)
    {
      var i := 0;
      while lifecycle.phase in {Ready, Running, Failed}
        invariant 0 <= i <= |sleeps|
        invariant Waited(lifecycle.backtest, Sight(), sleeps[i..], false, result)
               == Waited(lifecycle.backtest, old(Sight()), sleeps, false, result)
        decreases |sleeps| - i
      {
        var stop := ShouldStop();
        if stop {
          var _ := lifecycle.DoStop(true, result);
          return;
        }
        if i == |sleeps| {
          return;
        }
        DoSleep(sleeps[i]);
        i := i + 1;
      }
    }

    /** The two loops after startup. */
    method Wait(startupFailed: bool, sleeps: seq<Sleep>, result: StopOutcome)
      modifies this, lifecycle
      ensures Sight() == Waited(lifecycle.backtest, old(Sight()), sleeps, !startupFailed, result)
    {
      if startupFailed {
        WaitForEnd(sleeps, result);
        return;
      }
      var i := 0;
      while lifecycle.phase in {Ready, Running} && !firstDataReceived
        invariant 0 <= i <= |sleeps|
        invariant Waited(lifecycle.backtest, Sight(), sleeps[i..], true, result)
               == Waited(lifecycle.backtest, old(Sight()), sleeps, true, result)
        decreases |sleeps| - i
      {
        var stop := ShouldStop();
        if stop {
          var _ := lifecycle.DoStop(true, result);
          return;
        }
        if i == |sleeps| {
          return;
        }
        DoSleep(sleeps[i]);
        i := i + 1;
      }
      WaitForEnd(sleeps[i..], result);
    }
  }

  predicate FlagsOnly(sleeps: seq<Sleep>) {
    forall i :: 0 <= i < |sleeps| ==> sleeps[i].calls == []
  }

  predicate ReplayDone(sleeps: seq<Sleep>) {
    exists i :: 0 <= i < |sleeps| && sleeps[i].replayDone
  }

  /**
   * Left to itself, a waiting worker stops exactly when it is a backtest whose replay gets done, and ends COMPLETED.
   */
  lemma {:induction false} WaitingStopsExactlyFinishedBacktests(backtest: bool, v: View, sleeps: seq<Sleep>,
      forData: bool)
    requires v.state.phase in {Ready, Running} && !v.state.complete && !v.state.inProgress && FlagsOnly(sleeps)
    ensures var s := Waited(backtest, v, sleeps, forData, Performed).state;
      if backtest && (v.replayComplete || ReplayDone(sleeps))
      then s.phase == Completed
          && s.rows == v.state.rows + [Row(Some(v.state.phase), Stopping), Row(Some(Stopping), Completed)]
      else s == v.state
    decreases |sleeps|, forData
  {
    if forData && v.firstData {
      WaitingStopsExactlyFinishedBacktests(backtest, v, sleeps, false);
    } else if !ShouldStopForCompletedBacktestJob(backtest, v) && sleeps != [] {
      assert forall i :: 0 <= i < |sleeps| - 1 ==> sleeps[1..][i] == sleeps[i + 1];
      assert ReplayDone(sleeps) <==> sleeps[0].replayDone || ReplayDone(sleeps[1..]);
      WaitingStopsExactlyFinishedBacktests(backtest, Slept(backtest, v, sleeps[0]), sleeps[1..], forData);
    }
  }
}
