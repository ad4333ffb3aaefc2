/**
 * Stopping a worker from several threads at once: HTTP stop requests, SIGTERM, gRPC stop commands and local stops
 * (lifecycle_service.py, cooperative_shutdown.py, worker_control_application.py). Every step below is one access to
 * the shared state, and any interleaving of the steps of any number of threads is a run.
 */
module StopProtocol {
  import opened Wrappers

  /** The reason code and the message of a status report. */
  type Report = (string, string)

  /** How reasons become reports; `local` is what a stop of its own reports for its code, in FAILED phase or not. */
  datatype Policy = Policy(
    canonicalOf: string -> string,
    stoppingMessage: string -> Option<string>,
    report: (string, Option<string>) -> Report,
    local: (Option<string>, bool) -> (string, Option<string>))

  /** The STOPPING report of an accepted request. */
  datatype Posted = Posted(canonical: string, body: Report)

  function PostedFor(p: Policy, reason: string): Posted {
    var canonical := p.canonicalOf(reason);
    Posted(canonical, p.report(canonical, p.stoppingMessage(canonical)))
  }

  /** Work that must not begin during shutdown. */
  datatype Work = Heartbeat | LiveTick | BalanceUpdate | JobCompletionStop

  datatype Caller =
    | Http(reason: string)
    | Sigterm(reason: string)
    | Grpc(reason: string, stopCode: string)
    | LocalStop(code: Option<string>, message: Option<string>)
    | ShutdownThread
    | Guarded(work: Work, stopCode: string)

  datatype Refusal = AlreadyStopped | AlreadyInProgress | PostFailed

  datatype Outcome = Body(posted: Posted) | Refused(refusal: Refusal) | Stopped(performed: bool) | Ignored

  /** What a thread does next. */
  datatype Pc =
    | Handler
    | WantLock
    | CheckStopped
    | CheckInProgress
    | Post
    | SetAccepted(posted: Posted)
    | SetCanonical(posted: Posted)
    | SetMessage(posted: Posted)
    | SetInProgress(posted: Posted)
    | Ensure(answer: Option<Posted>)
    | StartThread(answer: Option<Posted>)
    | StopEntry
    | StopReason
    | StopMessage(canonical: string)
    | StopMark(source: Source)
    | Teardown(source: Source)
    | ReportFinal(source: Source)
    | SetComplete
    | Guard
    | Finished(outcome: Outcome)

  /** Where a stop has its reason from, and the message it is going to report. */
  datatype Source = Source(fromRequest: bool, canonical: string, own: bool, message: Option<string>)

  datatype Thread = Thread(caller: Caller, pc: Pc)

  datatype FinalReport = FinalReport(thread: nat, source: Source, report: Report)

  datatype Acceptance = Acceptance(thread: nat, reason: string, posted: Posted)

  /** The shared fields, and what happened so far: acceptances, marks, thread starts, final reports, begun work. */
  datatype Shared = Shared(
    complete: bool,
    accepted: bool,
    canonical: Option<string>,
    message: Option<string>,
    inProgress: bool,
    lock: Option<nat>,
    handlerInvoked: bool,
    threadStarted: bool,
    acceptances: seq<Acceptance>,
    marked: bool,
    starter: Option<nat>,
    starts: seq<nat>,
    finals: seq<FinalReport>,
    begun: seq<Work>)

  const INITIAL := Shared(false, false, None, None, false, None, false, false, [], false, None, [], [], [])

  datatype Machine = Machine(shared: Shared, threads: seq<Thread>)

  /** What the environment decides at a step: failures, the worker's phase, and a flag of no interest to the stop. */
  datatype Choice = Choice(ok: bool, failedPhase: bool)

  datatype Effect = Effect(shared: Shared, pc: Pc, spawns: bool)

  function FirstPc(c: Caller): Pc {
    match c
    case Http(_) => WantLock
    case Sigterm(_) => Handler
    case Grpc(_, _) => WantLock
    case LocalStop(_, _) => StopEntry
    case ShutdownThread => StopEntry
    case Guarded(_, _) => Guard
  }

  function ReasonOf(c: Caller): string {
    if c.Http? || c.Sigterm? || c.Grpc? then c.reason else []
  }

  /** How a caller goes on when its stop request is refused: SIGTERM shuts down unless the worker is stopped. */
  function AfterRefusal(c: Caller, r: Refusal): Pc {
    if c.Sigterm? then (if r.AlreadyStopped? then Finished(Ignored) else Ensure(None)) else Finished(Refused(r))
  }

  function AfterAcceptance(c: Caller, p: Posted): Pc {
    if c.Grpc? then StopEntry else Ensure(if c.Http? then Some(p) else None)
  }

  /** A step of `initiate_stop_from_request`; the lock covers everything up to the last assignment. */
  function InitiateStep(pol: Policy, sh: Shared, t: nat, th: Thread, ch: Choice): Effect {
    match th.pc
    case WantLock =>
      if sh.lock.Some? then Effect(sh, WantLock, false) else Effect(sh.(lock := Some(t)), CheckStopped, false)
    case CheckStopped =>
      if sh.complete then Effect(sh.(lock := None), AfterRefusal(th.caller, AlreadyStopped), false)
      else Effect(sh, CheckInProgress, false)
    case CheckInProgress =>
      if sh.accepted || sh.inProgress then Effect(sh.(lock := None), AfterRefusal(th.caller, AlreadyInProgress), false)
      else Effect(sh, Post, false)
    case Post =>
      if ch.ok then Effect(sh, SetAccepted(PostedFor(pol, ReasonOf(th.caller))), false)
      else Effect(sh.(lock := None), AfterRefusal(th.caller, PostFailed), false)
    case SetAccepted(p) =>
      Effect(sh.(accepted := true, acceptances := sh.acceptances + [Acceptance(t, ReasonOf(th.caller), p)]),
          SetCanonical(p), false)
    case SetCanonical(p) => Effect(sh.(canonical := Some(p.canonical)), SetMessage(p), false)
    case SetMessage(p) => Effect(sh.(message := Some(p.body.1)), SetInProgress(p), false)
    case SetInProgress(p) =>
      Effect(sh.(inProgress := true, lock := None), AfterAcceptance(th.caller, p), false)
    case _ => Effect(sh, th.pc, false)
  }

  /** A step of the SIGTERM handler or of `_ensure_shutdown_thread`, whose lock covers one test-and-set. */
  function CoordinatorStep(sh: Shared, t: nat, th: Thread): Effect {
    match th.pc
    case Handler =>
      if sh.handlerInvoked then Effect(sh, Finished(Ignored), false)
      else Effect(sh.(handlerInvoked := true), WantLock, false)
    case Ensure(answer) =>
      if sh.threadStarted then Effect(sh, Answered(answer), false)
      else Effect(sh.(threadStarted := true, starter := Some(t)), StartThread(answer), false)
    case StartThread(answer) => Effect(sh, Answered(answer), true)
    case _ => Effect(sh, th.pc, false)
  }

  function Answered(answer: Option<Posted>): Pc {
    Finished(if answer.Some? then Body(answer.value) else Ignored)
  }

  function CodeOf(c: Caller): Option<string> {
    match c
    case Grpc(_, code) => Some(code)
    case LocalStop(code, _) => code
    case Guarded(_, code) => Some(code)
    case _ => None
  }

  function OwnMessage(c: Caller): Option<string> {
    if c.LocalStop? then c.message else None
  }

  /** A step of `LifecycleService.stop`, which takes no lock; anything in its teardown may raise. */
  function StopStep(pol: Policy, sh: Shared, t: nat, th: Thread, ch: Choice): Effect {
    match th.pc
    case StopEntry => Effect(sh, if sh.complete then Finished(Stopped(false)) else StopReason, false)
    case StopReason =>
      if sh.canonical.Some? then Effect(sh, StopMessage(sh.canonical.value), false)
      else
        var (reason, message) := pol.local(CodeOf(th.caller), ch.failedPhase);
        var own := OwnMessage(th.caller);
        Effect(sh, StopMark(Source(false, reason, own.Some?, if own.Some? then own else message)), false)
    case StopMessage(canonical) =>
      var own := OwnMessage(th.caller);
      Effect(sh, StopMark(Source(true, canonical, own.Some?, if own.Some? then own else sh.message)), false)
    case StopMark(source) => Effect(sh.(inProgress := true, marked := true), Teardown(source), false)
    case Teardown(source) => Effect(sh, if ch.ok then ReportFinal(source) else Finished(Stopped(false)), false)
    case ReportFinal(source) =>
      Effect(sh.(finals := sh.finals + [FinalReport(t, source, pol.report(source.canonical, source.message))]),
          SetComplete, false)
    case SetComplete => Effect(sh.(complete := true), Finished(Stopped(true)), false)
    case _ => Effect(sh, th.pc, false)
  }

  /** Guarded work looks at the latch first; a completed job is stopped through `stop`. */
  function GuardStep(sh: Shared, th: Thread, ch: Choice): Effect {
    if th.pc.Guard? && th.caller.Guarded? then
      if sh.inProgress || (th.caller.work.JobCompletionStop? && sh.complete) || !ch.ok
          then Effect(sh, Finished(Ignored), false)
      else
        Effect(sh.(begun := sh.begun + [th.caller.work]),
               if th.caller.work.JobCompletionStop? then StopEntry else Finished(Ignored), false)
    else Effect(sh, th.pc, false)
  }

  predicate InCritical(pc: Pc) {
    match pc
    case CheckStopped | CheckInProgress | Post => true
    case SetAccepted(_) | SetCanonical(_) | SetMessage(_) | SetInProgress(_) => true
    case _ => false
  }

  predicate InCoordinator(pc: Pc) {
    pc.Handler? || pc.Ensure? || pc.StartThread?
  }

  function StepOf(pol: Policy, sh: Shared, t: nat, th: Thread, ch: Choice): Effect {
    if InCritical(th.pc) || th.pc.WantLock? then InitiateStep(pol, sh, t, th, ch)
    else if InCoordinator(th.pc) then CoordinatorStep(sh, t, th)
    else if th.pc.Guard? then GuardStep(sh, th, ch)
    else StopStep(pol, sh, t, th, ch)
  }

  /** One step of thread t; a started thread joins at the end. */
  function Stepped(pol: Policy, m: Machine, t: nat, ch: Choice): Machine {
    if t >= |m.threads| then m
    else
      var e := StepOf(pol, m.shared, t, m.threads[t], ch);
      var moved := m.threads[t := m.threads[t].(pc := e.pc)];
      if e.spawns then
        Machine(e.shared.(starts := e.shared.starts + [|m.threads|]),
            moved + [Thread(ShutdownThread, FirstPc(ShutdownThread))])
      else Machine(e.shared, moved)
  }

  datatype Move = Move(thread: nat, choice: Choice)

  function Ran(pol: Policy, m: Machine, moves: seq<Move>): Machine {
    if moves == [] then m
    else
      var last := moves[|moves| - 1];
      Stepped(pol, Ran(pol, m, moves[..|moves| - 1]), last.thread, last.choice)
  }

  function Begin(callers: seq<Caller>): Machine {
    Machine(INITIAL, seq(|callers|, i requires 0 <= i < |callers| => Thread(callers[i], FirstPc(callers[i]))))
  }

  /** Nobody but the coordinator runs as its shutdown thread. */
  predicate Outside(callers: seq<Caller>) {
    ShutdownThread !in callers
  }

  // ----- The invariant -----

  /** An acceptance, if there was one, has been written down completely. */
  predicate Settled(sh: Shared) {
    sh.accepted ==> sh.canonical.Some? && sh.message.Some? && sh.inProgress
  }

  predicate AcceptedBy(sh: Shared, t: nat, p: Posted) {
    |sh.acceptances| == 1 && sh.acceptances[0].thread == t && sh.acceptances[0].posted == p
  }

  predicate SourceFits(sh: Shared, s: Source) {
    s.fromRequest ==>
      && sh.acceptances != []
      && s.canonical == sh.acceptances[0].posted.canonical
      && (!s.own ==> s.message == None || s.message == Some(sh.acceptances[0].posted.body.1))
  }

  predicate FinalFits(sh: Shared, f: FinalReport) {
    f.source.fromRequest ==>
      && sh.acceptances != []
      && f.report.0 == sh.acceptances[0].posted.body.0
      && (!f.source.own ==> f.report == sh.acceptances[0].posted.body)
  }

  predicate FinalsFit(sh: Shared) {
    forall f :: f in sh.finals ==> FinalFits(sh, f)
  }

  /** The fields against the history of acceptances, marks and thread starts. */
  predicate SharedOk(pol: Policy, sh: Shared) {
    && |sh.acceptances| <= 1
    && sh.accepted == (sh.acceptances != [])
    && (sh.accepted ==> sh.acceptances[0].posted == PostedFor(pol, sh.acceptances[0].reason))
    && (sh.canonical.Some? ==> sh.accepted && sh.canonical.value == sh.acceptances[0].posted.canonical)
    && (sh.message.Some? ==> sh.accepted && sh.message.value == sh.acceptances[0].posted.body.1)
    && (sh.inProgress ==> sh.accepted || sh.marked)
    && (sh.marked ==> sh.inProgress)
    && (sh.complete ==> sh.marked)
    && (sh.lock.None? ==> Settled(sh))
    && sh.threadStarted == sh.starter.Some?
    && |sh.starts| <= (if sh.threadStarted then 1 else 0)
  }

  predicate AnswerFits(sh: Shared, t: nat, answer: Option<Posted>) {
    answer.Some? ==> AcceptedBy(sh, t, answer.value) && sh.inProgress
  }

  predicate PcFits(pol: Policy, sh: Shared, t: nat, th: Thread) {
    match th.pc
    case CheckStopped | CheckInProgress => Settled(sh)
    case Post => !sh.accepted
    case SetAccepted(p) => !sh.accepted && p == PostedFor(pol, ReasonOf(th.caller))
    case SetCanonical(p) => AcceptedBy(sh, t, p)
    case SetMessage(p) => AcceptedBy(sh, t, p) && sh.canonical.Some?
    case SetInProgress(p) => AcceptedBy(sh, t, p) && sh.canonical.Some? && sh.message.Some?
    case Ensure(answer) => AnswerFits(sh, t, answer)
    case StartThread(answer) => AnswerFits(sh, t, answer) && sh.starter == Some(t) && sh.starts == []
    case StopMessage(canonical) => sh.acceptances != [] && canonical == sh.acceptances[0].posted.canonical
    case StopMark(source) => SourceFits(sh, source)
    case Teardown(source) => SourceFits(sh, source) && sh.marked
    case ReportFinal(source) => SourceFits(sh, source) && sh.marked
    case SetComplete => sh.marked
    case Finished(outcome) => OutcomeFits(sh, t, outcome)
    case _ => true
  }

  /** What an answer to a caller means. */
  predicate OutcomeFits(sh: Shared, t: nat, outcome: Outcome) {
    match outcome
    case Body(p) => AcceptedBy(sh, t, p) && sh.inProgress && sh.threadStarted
    case Refused(AlreadyStopped) => sh.complete
    case Refused(AlreadyInProgress) => sh.accepted || sh.marked
    case _ => true
  }

  /** Thread t, alone, against the shared state. */
  predicate ThreadOk(pol: Policy, sh: Shared, t: nat, th: Thread) {
    && (InCritical(th.pc) <==> sh.lock == Some(t))
    && (sh.starter == Some(t) && sh.starts == [] ==> th.pc.StartThread?)
    && (th.caller.ShutdownThread? ==> sh.starts == [t])
    && PcFits(pol, sh, t, th)
  }

  /** Passing on no message, or the message already reported, gives the report of the stop request. */
  predicate ReportsAgree(pol: Policy, c: string, m: Option<string>) {
    var first := pol.report(c, pol.stoppingMessage(c));
    && pol.report(c, m).0 == first.0
    && (m == None || m == Some(first.1) ==> pol.report(c, m) == first)
  }

  ghost predicate Consistent(pol: Policy) {
    forall c: string, m: Option<string> :: ReportsAgree(pol, c, m)
  }

  /** The shared state after a step of thread t. */
  function After(pol: Policy, sh: Shared, t: nat, th: Thread, ch: Choice, newId: nat): Shared {
    var e := StepOf(pol, sh, t, th, ch);
    if e.spawns then e.shared.(starts := e.shared.starts + [newId]) else e.shared
  }

  /** What a step of thread t may do to the shared state. */
  predicate Grows(sh: Shared, sh': Shared, t: nat) {
    && (sh'.lock == sh.lock || (sh.lock.None? && sh'.lock == Some(t)) || (sh.lock == Some(t) && sh'.lock.None?))
    && (sh'.acceptances == sh.acceptances || (sh.acceptances == [] && sh.lock == Some(t)))
    && (sh.lock != Some(t) ==> sh'.canonical == sh.canonical && sh'.message == sh.message)
    && (sh.canonical.Some? ==> sh'.canonical == sh.canonical)
    && (sh.accepted ==> sh'.accepted && sh'.acceptances == sh.acceptances)
    && (sh.inProgress ==> sh'.inProgress)
    && (sh.marked ==> sh'.marked)
    && (sh.complete ==> sh'.complete)
    && (sh.threadStarted ==> sh'.threadStarted)
    && (sh'.starter == sh.starter || (sh.starter.None? && sh'.starter == Some(t)))
    && (sh'.starts == sh.starts || (sh.starts == [] && sh.starter == Some(t) && sh'.starts != []))
    && (sh.inProgress ==> sh'.begun == sh.begun)
  }

  /** Only a stop's own final step adds a final report. */
  predicate FinalsGrow(sh: Shared, sh': Shared, t: nat, th: Thread) {
    if th.pc.ReportFinal? then
      && |sh'.finals| == |sh.finals| + 1 && sh'.finals[..|sh.finals|] == sh.finals
      && sh'.finals[|sh.finals|].thread == t && sh'.finals[|sh.finals|].source == th.pc.source
    else sh'.finals == sh.finals
  }

  /** A step of another thread takes nothing away from what thread u relies on. */
  lemma OtherThreadKept(pol: Policy, sh: Shared, sh': Shared, t: nat, u: nat, other: Thread)
    requires SharedOk(pol, sh) && SharedOk(pol, sh') && ThreadOk(pol, sh, u, other) && u != t && Grows(sh, sh', t)
    ensures ThreadOk(pol, sh', u, other)
  {
  }

  ghost predicate Good(pol: Policy, sh: Shared, t: nat, th: Thread) {
    SharedOk(pol, sh) && FinalsFit(sh) && ThreadOk(pol, sh, t, th)
  }

  /** The step keeps the shared state and the thread in order and is one of those others can live with. */
  ghost predicate Keeps(pol: Policy, sh: Shared, t: nat, th: Thread, ch: Choice, newId: nat) {
    var sh' := After(pol, sh, t, th, ch, newId);
    Good(pol, sh', t, th.(pc := StepOf(pol, sh, t, th, ch).pc)) && Grows(sh, sh', t) && FinalsGrow(sh, sh', t, th)
  }

  lemma WantLockKeeps(pol: Policy, sh: Shared, t: nat, th: Thread, ch: Choice, newId: nat)
    requires Good(pol, sh, t, th) && th.pc.WantLock?
    ensures Keeps(pol, sh, t, th, ch, newId)
  {
    if sh.lock.None? {
      assert After(pol, sh, t, th, ch, newId) == sh.(lock := Some(t));
    } else {
      assert After(pol, sh, t, th, ch, newId) == sh;
    }
  }

  lemma FirstCheckKeeps(pol: Policy, sh: Shared, t: nat, th: Thread, ch: Choice, newId: nat)
    requires Good(pol, sh, t, th) && th.pc.CheckStopped?
    ensures Keeps(pol, sh, t, th, ch, newId)
  {
  }

  lemma PostKeeps(pol: Policy, sh: Shared, t: nat, th: Thread, ch: Choice, newId: nat)
    requires Good(pol, sh, t, th)
    requires th.pc.CheckInProgress? || th.pc.Post?
    ensures Keeps(pol, sh, t, th, ch, newId)
  {
  }

  lemma AcceptanceKeeps(pol: Policy, sh: Shared, t: nat, th: Thread, ch: Choice, newId: nat)
    requires Good(pol, sh, t, th)
    requires th.pc.SetAccepted? || th.pc.SetCanonical? || th.pc.SetMessage? || th.pc.SetInProgress?
    ensures Keeps(pol, sh, t, th, ch, newId)
  {
  }

  lemma CoordinatorKeeps(pol: Policy, sh: Shared, t: nat, th: Thread, ch: Choice, newId: nat)
    requires Good(pol, sh, t, th) && (th.pc.Handler? || th.pc.Ensure?)
    ensures Keeps(pol, sh, t, th, ch, newId)
  {
  }

  lemma StartKeeps(pol: Policy, sh: Shared, t: nat, th: Thread, ch: Choice, newId: nat)
    requires Good(pol, sh, t, th) && th.pc.StartThread?
    ensures Keeps(pol, sh, t, th, ch, newId)
  {
  }

  lemma StopReadsKeep(pol: Policy, sh: Shared, t: nat, th: Thread, ch: Choice, newId: nat)
    requires Good(pol, sh, t, th)
    requires th.pc.StopEntry? || th.pc.StopReason? || th.pc.StopMessage? || th.pc.Teardown? || th.pc.Finished?
    ensures Keeps(pol, sh, t, th, ch, newId)
  {
    hide AnswerFits, Settled, PostedFor, FinalFits;
  }

  lemma StopWritesKeep(pol: Policy, sh: Shared, t: nat, th: Thread, ch: Choice, newId: nat)
    requires Good(pol, sh, t, th)
    requires th.pc.StopMark? || th.pc.SetComplete?
    ensures Keeps(pol, sh, t, th, ch, newId)
  {
  }

  lemma FinalReportKeeps(pol: Policy, sh: Shared, t: nat, th: Thread, ch: Choice, newId: nat)
    requires Good(pol, sh, t, th) && th.pc.ReportFinal? && Consistent(pol)
    ensures Keeps(pol, sh, t, th, ch, newId)
  {
    assert ReportsAgree(pol, th.pc.source.canonical, th.pc.source.message);
  }

  lemma GuardKeeps(pol: Policy, sh: Shared, t: nat, th: Thread, ch: Choice, newId: nat)
    requires Good(pol, sh, t, th) && th.pc.Guard?
    ensures Keeps(pol, sh, t, th, ch, newId)
  {
  }

  lemma StepKeeps(pol: Policy, sh: Shared, t: nat, th: Thread, ch: Choice, newId: nat)
    requires Good(pol, sh, t, th) && Consistent(pol)
    ensures Keeps(pol, sh, t, th, ch, newId)
  {
    match th.pc
    case WantLock => WantLockKeeps(pol, sh, t, th, ch, newId);
    case CheckStopped => FirstCheckKeeps(pol, sh, t, th, ch, newId);
    case CheckInProgress | Post => PostKeeps(pol, sh, t, th, ch, newId);
    case SetAccepted(_) | SetCanonical(_) | SetMessage(_) | SetInProgress(_) =>
      AcceptanceKeeps(pol, sh, t, th, ch, newId);
    case Handler | Ensure(_) => CoordinatorKeeps(pol, sh, t, th, ch, newId);
    case StartThread(_) => StartKeeps(pol, sh, t, th, ch, newId);
    case StopEntry | StopReason | StopMessage(_) | Teardown(_) | Finished(_) =>
      StopReadsKeep(pol, sh, t, th, ch, newId);
    case StopMark(_) | SetComplete => StopWritesKeep(pol, sh, t, th, ch, newId);
    case ReportFinal(_) => FinalReportKeeps(pol, sh, t, th, ch, newId);
    case Guard => GuardKeeps(pol, sh, t, th, ch, newId);
  }

  // ----- Runs -----

  ghost predicate MachineOk(pol: Policy, m: Machine) {
    && SharedOk(pol, m.shared) && FinalsFit(m.shared)
    && (m.shared.lock.Some? ==> m.shared.lock.value < |m.threads|)
    && (m.shared.starter.Some? ==> m.shared.starter.value < |m.threads|)
    && forall t :: 0 <= t < |m.threads| ==> ThreadOk(pol, m.shared, t, m.threads[t])
  }

  lemma NewThreadOk(pol: Policy, m: Machine, t: nat, ch: Choice)
    requires t < |m.threads| && m.threads[t].pc.StartThread? && MachineOk(pol, m)
    ensures var n := |m.threads|;
      ThreadOk(pol, After(pol, m.shared, t, m.threads[t], ch, n), n, Thread(ShutdownThread, FirstPc(ShutdownThread)))
  {
  }

  lemma OtherKept(pol: Policy, m: Machine, t: nat, ch: Choice, u: nat)
    requires MachineOk(pol, m) && t < |m.threads| && Keeps(pol, m.shared, t, m.threads[t], ch, |m.threads|)
    requires u < |Stepped(pol, m, t, ch).threads| && u != t
    ensures ThreadOk(pol, Stepped(pol, m, t, ch).shared, u, Stepped(pol, m, t, ch).threads[u])
  {
    hide PcFits, FinalsFit, SharedOk, ThreadOk;
    var m' := Stepped(pol, m, t, ch);
    if u == |m.threads| {
      NewThreadOk(pol, m, t, ch);
    } else {
      assert m'.threads[u] == m.threads[u];
      OtherThreadKept(pol, m.shared, m'.shared, t, u, m.threads[u]);
    }
  }

  lemma StepKeepsMachine(pol: Policy, m: Machine, t: nat, ch: Choice)
    requires MachineOk(pol, m) && Consistent(pol)
    ensures MachineOk(pol, Stepped(pol, m, t, ch))
    ensures t < |m.threads| ==> Grows(m.shared, Stepped(pol, m, t, ch).shared, t)
  {
    hide PcFits, FinalsFit, ThreadOk;
    if t < |m.threads| {
      var m' := Stepped(pol, m, t, ch);
      StepKeeps(pol, m.shared, t, m.threads[t], ch, |m.threads|);
      forall u | 0 <= u < |m'.threads| ensures ThreadOk(pol, m'.shared, u, m'.threads[u]) {
        if u != t {
          OtherKept(pol, m, t, ch, u);
        }
      }
    }
  }

  lemma {:induction false} RunKeepsMachine(pol: Policy, callers: seq<Caller>, moves: seq<Move>)
    requires Consistent(pol) && Outside(callers)
    ensures MachineOk(pol, Ran(pol, Begin(callers), moves))
  {
    if moves != [] {
      RunKeepsMachine(pol, callers, moves[..|moves| - 1]);
      var last := moves[|moves| - 1];
      StepKeepsMachine(pol, Ran(pol, Begin(callers), moves[..|moves| - 1]), last.thread, last.choice);
    }
  }

  /** In every run at most one stop request is accepted and at most one shutdown thread is started. */
  lemma OneAcceptanceOneShutdownThread(pol: Policy, callers: seq<Caller>, moves: seq<Move>)
    requires Consistent(pol) && Outside(callers)
    ensures var sh := Ran(pol, Begin(callers), moves).shared;
      |sh.acceptances| <= 1 && |sh.starts| <= 1
  {
    RunKeepsMachine(pol, callers, moves);
  }

  /**
   * An answered HTTP request is the accepted one, shutdown is in progress, and the shutdown thread has been started
   * unless some thread is just about to start it.
   */
  lemma AnsweredRequestIsShuttingDown(pol: Policy, callers: seq<Caller>, moves: seq<Move>, t: nat)
    requires Consistent(pol) && Outside(callers)
    requires var m := Ran(pol, Begin(callers), moves);
      t < |m.threads| && m.threads[t].pc.Finished? && m.threads[t].pc.outcome.Body?
    ensures var m := Ran(pol, Begin(callers), moves);
      && AcceptedBy(m.shared, t, m.threads[t].pc.outcome.posted)
      && m.shared.inProgress
      && (m.shared.starts == [] <==> exists u :: 0 <= u < |m.threads| && m.threads[u].pc.StartThread?)
  {
    RunKeepsMachine(pol, callers, moves);
    var m := Ran(pol, Begin(callers), moves);
    forall u | 0 <= u < |m.threads| && m.threads[u].pc.StartThread? ensures m.shared.starts == [] {
      assert ThreadOk(pol, m.shared, u, m.threads[u]);
    }
    assert ThreadOk(pol, m.shared, t, m.threads[t]);
    assert ThreadOk(pol, m.shared, m.shared.starter.value, m.threads[m.shared.starter.value]);
  }

  /** As long as nothing was accepted and no stop went ahead, failed posts have left the lifecycle as it was. */
  lemma FailedPostsLeaveNoTrace(pol: Policy, callers: seq<Caller>, moves: seq<Move>)
    requires Consistent(pol) && Outside(callers)
    ensures var sh := Ran(pol, Begin(callers), moves).shared;
      sh.acceptances == [] && !sh.marked ==>
        !sh.accepted && sh.canonical.None? && sh.message.None? && !sh.inProgress && !sh.complete
  {
    RunKeepsMachine(pol, callers, moves);
  }

  /** A caller is refused only when another one was accepted or a stop has gone ahead, or for its own failed post. */
  lemma RefusalsAreJustified(pol: Policy, callers: seq<Caller>, moves: seq<Move>, t: nat)
    requires Consistent(pol) && Outside(callers)
    requires var m := Ran(pol, Begin(callers), moves);
      t < |m.threads| && m.threads[t].pc.Finished? && m.threads[t].pc.outcome.Refused?
    ensures var m := Ran(pol, Begin(callers), moves);
      match m.threads[t].pc.outcome.refusal
      case AlreadyStopped => m.shared.complete && m.shared.marked
      case AlreadyInProgress => m.shared.acceptances != [] || m.shared.marked
      case PostFailed => true
  {
    RunKeepsMachine(pol, callers, moves);
    var m := Ran(pol, Begin(callers), moves);
    assert ThreadOk(pol, m.shared, t, m.threads[t]);
  }

  lemma {:induction false} LatchHolds(pol: Policy, m: Machine, moves: seq<Move>)
    requires Consistent(pol) && MachineOk(pol, m) && m.shared.inProgress
    ensures var m' := Ran(pol, m, moves);
      MachineOk(pol, m') && m'.shared.inProgress && m'.shared.begun == m.shared.begun
  {
    if moves != [] {
      LatchHolds(pol, m, moves[..|moves| - 1]);
      var last := moves[|moves| - 1];
      StepKeepsMachine(pol, Ran(pol, m, moves[..|moves| - 1]), last.thread, last.choice);
    }
  }

  /** A thread that has not yet looked up its reason, or has it from the request. */
  predicate ReasonFromRequest(th: Thread) {
    match th.pc
    case StopMark(s) => s.fromRequest && s.own == OwnMessage(th.caller).Some?
    case Teardown(s) => s.fromRequest && s.own == OwnMessage(th.caller).Some?
    case ReportFinal(s) => s.fromRequest && s.own == OwnMessage(th.caller).Some?
    case _ => true
  }

  predicate ReportsRequest(finals: seq<FinalReport>, t: nat, own: bool, from: nat) {
    forall i :: from <= i < |finals| && finals[i].thread == t ==>
      finals[i].source.fromRequest && finals[i].source.own == own
  }

  lemma ReasonStaysFromRequest(pol: Policy, sh: Shared, t: nat, th: Thread, ch: Choice)
    requires sh.canonical.Some? && ReasonFromRequest(th)
    ensures ReasonFromRequest(th.(pc := StepOf(pol, sh, t, th, ch).pc))
  {
  }

  lemma StepReportsRequest(pol: Policy, m: Machine, t: nat, ch: Choice, u: nat, from: nat)
    requires Consistent(pol) && MachineOk(pol, m) && m.shared.canonical.Some?
    requires t < |m.threads| && u < |m.threads| && ReasonFromRequest(m.threads[u])
    requires from <= |m.shared.finals|
        && ReportsRequest(m.shared.finals, u, OwnMessage(m.threads[u].caller).Some?, from)
    ensures var m' := Stepped(pol, m, t, ch);
      && |m.threads| <= |m'.threads| && m'.threads[u].caller == m.threads[u].caller
      && ReasonFromRequest(m'.threads[u])
      && |m.shared.finals| <= |m'.shared.finals|
      && ReportsRequest(m'.shared.finals, u, OwnMessage(m.threads[u].caller).Some?, from)
  {
    if t == u {
      ReasonStaysFromRequest(pol, m.shared, t, m.threads[t], ch);
    }
    StepKeeps(pol, m.shared, t, m.threads[t], ch, |m.threads|);
  }

  lemma {:induction false} RunReportsRequest(pol: Policy, m: Machine, moves: seq<Move>, u: nat)
    requires Consistent(pol) && MachineOk(pol, m) && m.shared.canonical.Some?
    requires u < |m.threads| && ReasonFromRequest(m.threads[u])
    ensures var m' := Ran(pol, m, moves);
      && MachineOk(pol, m') && m'.shared.canonical == m.shared.canonical
          && m'.shared.acceptances == m.shared.acceptances
      && |m.threads| <= |m'.threads| && m'.threads[u].caller == m.threads[u].caller && ReasonFromRequest(m'.threads[u])
      && |m.shared.finals| <= |m'.shared.finals|
      && ReportsRequest(m'.shared.finals, u, OwnMessage(m.threads[u].caller).Some?, |m.shared.finals|)
  {
    if moves != [] {
      var before, last := moves[..|moves| - 1], moves[|moves| - 1];
      RunReportsRequest(pol, m, before, u);
      var m1 := Ran(pol, m, before);
      StepKeepsMachine(pol, m1, last.thread, last.choice);
      if last.thread < |m1.threads| {
        StepReportsRequest(pol, m1, last.thread, last.choice, u, |m.shared.finals|);
      }
    }
  }

  /**
   * A stop that looks up its reason after a request was accepted reports that request's reason code in the end, and
   * without a message of its own exactly the request's STOPPING report.
   */
  lemma LaterStopReportsTheRequest(pol: Policy, m: Machine, moves: seq<Move>, u: nat, i: nat)
    requires Consistent(pol) && MachineOk(pol, m) && m.shared.canonical.Some?
    requires u < |m.threads| && ReasonFromRequest(m.threads[u])
    requires |m.shared.finals| <= i < |Ran(pol, m, moves).shared.finals|
    requires Ran(pol, m, moves).shared.finals[i].thread == u
    ensures |m.shared.acceptances| == 1
    ensures var first, final := m.shared.acceptances[0].posted.body, Ran(pol, m, moves).shared.finals[i].report;
      && final.0 == first.0
      && (OwnMessage(m.threads[u].caller).None? ==> final == first)
  {
    RunReportsRequest(pol, m, moves, u);
    assert FinalFits(Ran(pol, m, moves).shared, Ran(pol, m, moves).shared.finals[i]);
  }

  // ----- Undisturbed requests -----

  /** The fields and the answer of `initiate_stop_from_request` when no other thread gets in between. */
  function Initiated(pol: Policy, sh: Shared, t: nat, reason: string, ok: bool): (Shared, Outcome) {
    if sh.complete then (sh, Refused(AlreadyStopped))
    else if sh.accepted || sh.inProgress then (sh, Refused(AlreadyInProgress))
    else if !ok then (sh, Refused(PostFailed))
    else
      var p := PostedFor(pol, reason);
      (sh.(accepted := true, acceptances := sh.acceptances + [Acceptance(t, reason, p)],
           canonical := Some(p.canonical), message := Some(p.body.1), inProgress := true),
       Body(p))
  }

  function ContinueWith(c: Caller, answer: Outcome): Pc {
    match answer
    case Body(p) => AfterAcceptance(c, p)
    case Refused(r) => AfterRefusal(c, r)
    case _ => Finished(answer)
  }

  /** Thread t takes n steps in a row. */
  function Alone(pol: Policy, m: Machine, t: nat, ch: Choice, n: nat): Machine
    decreases n
  {
    if n == 0 then m else Alone(pol, Stepped(pol, m, t, ch), t, ch, n - 1)
  }

  lemma {:induction false} AloneIsRun(pol: Policy, m: Machine, t: nat, ch: Choice, n: nat)
    ensures Alone(pol, m, t, ch, n) == Ran(pol, m, seq(n, _ => Move(t, ch)))
    decreases n
  {
    if n > 0 {
      var moves, fewer := seq(n, _ => Move(t, ch)), seq(n - 1, _ => Move(t, ch));
      AloneIsRun(pol, Stepped(pol, m, t, ch), t, ch, n - 1);
      FirstMove(pol, m, Move(t, ch), fewer);
      assert moves == [Move(t, ch)] + fewer;
    } else {
      assert seq(n, _ => Move(t, ch)) == [];
    }
  }

  lemma {:induction false} FirstMove(pol: Policy, m: Machine, first: Move, moves: seq<Move>)
    ensures Ran(pol, m, [first] + moves) == Ran(pol, Stepped(pol, m, first.thread, first.choice), moves)
    decreases |moves|
  {
    var all := [first] + moves;
    if moves == [] {
      assert all[..0] == [];
    } else {
      assert all[..|all| - 1] == [first] + moves[..|moves| - 1];
      FirstMove(pol, m, first, moves[..|moves| - 1]);
    }
  }

  predicate In(m: Machine, t: nat, sh: Shared, c: Caller, pc: Pc) {
    t < |m.threads| && m.shared == sh && m.threads[t] == Thread(c, pc)
  }

  lemma InitiateStepAlone(pol: Policy, m: Machine, t: nat, sh: Shared, c: Caller, pc: Pc, ch: Choice, n: nat)
    requires In(m, t, sh, c, pc) && (InCritical(pc) || pc.WantLock?) && n > 0
    ensures var e := InitiateStep(pol, sh, t, Thread(c, pc), ch);
      In(Stepped(pol, m, t, ch), t, e.shared, c, e.pc)
    ensures Alone(pol, m, t, ch, n) == Alone(pol, Stepped(pol, m, t, ch), t, ch, n - 1)
  {
  }

  /** How many steps an undisturbed request takes. */
  function RequestSteps(sh: Shared, ok: bool): nat {
    if sh.complete then 2 else if sh.accepted || sh.inProgress then 3 else if !ok then 4 else 8
  }

  lemma AcceptanceAlone(pol: Policy, m: Machine, t: nat, sh: Shared, c: Caller, ch: Choice)
    requires In(m, t, sh.(lock := Some(t)), c, SetAccepted(PostedFor(pol, ReasonOf(c)))) && sh.lock.None?
    requires !sh.complete && !sh.accepted && !sh.inProgress && ch.ok
    ensures var e := Initiated(pol, sh, t, ReasonOf(c), true); In(Alone(pol, m, t, ch, 4), t, e.0, c,
        ContinueWith(c, e.1))
  {
    var p, held := PostedFor(pol, ReasonOf(c)), sh.(lock := Some(t));
    InitiateStepAlone(pol, m, t, held, c, SetAccepted(p), ch, 4);
    var m1 := Stepped(pol, m, t, ch);
    InitiateStepAlone(pol, m1, t, m1.shared, c, SetCanonical(p), ch, 3);
    var m2 := Stepped(pol, m1, t, ch);
    InitiateStepAlone(pol, m2, t, m2.shared, c, SetMessage(p), ch, 2);
    var m3 := Stepped(pol, m2, t, ch);
    InitiateStepAlone(pol, m3, t, m3.shared, c, SetInProgress(p), ch, 1);
  }

  lemma FirstCheckAlone(pol: Policy, m: Machine, t: nat, sh: Shared, c: Caller, ch: Choice, n: nat)
      returns (m': Machine)
    requires In(m, t, sh, c, WantLock) && sh.lock.None? && n >= 2
    ensures Alone(pol, m, t, ch, n) == Alone(pol, m', t, ch, n - 2)
    ensures if sh.complete then In(m', t, sh, c, AfterRefusal(c, AlreadyStopped))
            else In(m', t, sh.(lock := Some(t)), c, CheckInProgress)
  {
    InitiateStepAlone(pol, m, t, sh, c, WantLock, ch, n);
    var m1 := Stepped(pol, m, t, ch);
    InitiateStepAlone(pol, m1, t, sh.(lock := Some(t)), c, CheckStopped, ch, n - 1);
    m' := Stepped(pol, m1, t, ch);
  }

  lemma SecondCheckAlone(pol: Policy, m: Machine, t: nat, sh: Shared, c: Caller, ch: Choice, n: nat)
      returns (m': Machine)
    requires In(m, t, sh.(lock := Some(t)), c, CheckInProgress) && sh.lock.None? && n >= 1
    ensures Alone(pol, m, t, ch, n) == Alone(pol, m', t, ch, n - 1)
    ensures if sh.accepted || sh.inProgress then In(m', t, sh, c, AfterRefusal(c, AlreadyInProgress))
            else In(m', t, sh.(lock := Some(t)), c, Post)
  {
    InitiateStepAlone(pol, m, t, sh.(lock := Some(t)), c, CheckInProgress, ch, n);
    m' := Stepped(pol, m, t, ch);
  }

  lemma PostAlone(pol: Policy, m: Machine, t: nat, sh: Shared, c: Caller, ch: Choice, n: nat) returns (m': Machine)
    requires In(m, t, sh.(lock := Some(t)), c, Post) && sh.lock.None? && n >= 1
    ensures Alone(pol, m, t, ch, n) == Alone(pol, m', t, ch, n - 1)
    ensures if !ch.ok then In(m', t, sh, c, AfterRefusal(c, PostFailed))
            else In(m', t, sh.(lock := Some(t)), c, SetAccepted(PostedFor(pol, ReasonOf(c))))
  {
    InitiateStepAlone(pol, m, t, sh.(lock := Some(t)), c, Post, ch, n);
    m' := Stepped(pol, m, t, ch);
  }

  /** A request nobody interferes with has the effect the code has when read from top to bottom. */
  lemma UndisturbedRequest(pol: Policy, m: Machine, t: nat, sh: Shared, c: Caller, ch: Choice)
    requires In(m, t, sh, c, WantLock) && sh.lock.None?
    ensures var e := Initiated(pol, sh, t, ReasonOf(c), ch.ok);
      In(Alone(pol, m, t, ch, RequestSteps(sh, ch.ok)), t, e.0, c, ContinueWith(c, e.1))
  {
    var n := RequestSteps(sh, ch.ok);
    var m2 := FirstCheckAlone(pol, m, t, sh, c, ch, n);
    if !sh.complete {
      var m3 := SecondCheckAlone(pol, m2, t, sh, c, ch, n - 2);
      if !sh.accepted && !sh.inProgress {
        var m4 := PostAlone(pol, m3, t, sh, c, ch, n - 3);
        if ch.ok {
          AcceptanceAlone(pol, m4, t, sh, c, ch);
        }
      }
    }
  }

  /** After any number of failed posts an undisturbed request is accepted. */
  lemma FailedRequestCanBeRetried(pol: Policy, callers: seq<Caller>, moves: seq<Move>, t: nat, ch: Choice)
    requires Consistent(pol) && Outside(callers) && ch.ok
    requires var m := Ran(pol, Begin(callers), moves);
      && m.shared.acceptances == [] && !m.shared.marked && m.shared.lock.None?
      && t < |m.threads| && m.threads[t].pc.WantLock?
    ensures var m := Ran(pol, Begin(callers), moves);
      var sh := Alone(pol, m, t, ch, 8).shared;
      AcceptedBy(sh, t, PostedFor(pol, ReasonOf(m.threads[t].caller))) && sh.inProgress && sh.lock.None?
  {
    FailedPostsLeaveNoTrace(pol, callers, moves);
    var m := Ran(pol, Begin(callers), moves);
    UndisturbedRequest(pol, m, t, m.shared, m.threads[t].caller, ch);
  }

  lemma {:induction false} RanConcat(pol: Policy, m: Machine, a: seq<Move>, b: seq<Move>)
    ensures Ran(pol, m, a + b) == Ran(pol, Ran(pol, m, a), b)
  {
    if b == [] {
      assert a + b == a;
    } else {
      assert (a + b)[..|a + b| - 1] == a + b[..|b| - 1];
      RanConcat(pol, m, a, b[..|b| - 1]);
    }
  }

  /** When SIGTERM's request fails and it sets the thread flag. */
  lemma SigtermSetsFlag(pol: Policy, m: Machine, t: nat, c: Caller)
    requires c.Sigterm? && In(m, t, INITIAL, c, Handler)
    ensures var m' := Alone(pol, m, t, Choice(false, false), 6);
      In(m', t, INITIAL.(handlerInvoked := true, threadStarted := true, starter := Some(t)), c, StartThread(None))
  {
    var ch := Choice(false, false);
    var m1 := Stepped(pol, m, t, ch);
    var sh1 := INITIAL.(handlerInvoked := true);
    assert In(m1, t, sh1, c, WantLock);
    InitiateStepAlone(pol, m1, t, sh1, c, WantLock, ch, 5);
    var m2 := Stepped(pol, m1, t, ch);
    InitiateStepAlone(pol, m2, t, m2.shared, c, CheckStopped, ch, 4);
    var m3 := Stepped(pol, m2, t, ch);
    InitiateStepAlone(pol, m3, t, m3.shared, c, CheckInProgress, ch, 3);
    var m4 := Stepped(pol, m3, t, ch);
    InitiateStepAlone(pol, m4, t, m4.shared, c, Post, ch, 2);
    var m5 := Stepped(pol, m4, t, ch);
    assert In(m5, t, sh1, c, Ensure(None));
    assert Alone(pol, m5, t, ch, 1) == Stepped(pol, m5, t, ch);
  }

  lemma {:induction false} AloneLeavesOthers(pol: Policy, m: Machine, t: nat, ch: Choice, n: nat, u: nat)
    requires u < |m.threads| && u != t
    ensures var m' := Alone(pol, m, t, ch, n); u < |m'.threads| && m'.threads[u] == m.threads[u]
    decreases n
  {
    if n > 0 {
      AloneLeavesOthers(pol, Stepped(pol, m, t, ch), t, ch, n - 1, u);
    }
  }

  lemma AnswerWithFlagSet(pol: Policy, m: Machine, t: nat, sh: Shared, c: Caller, p: Posted, ch: Choice)
    requires In(m, t, sh, c, Ensure(Some(p))) && sh.threadStarted
    ensures In(Stepped(pol, m, t, ch), t, sh, c, Finished(Body(p)))
  {
  }

  ghost predicate Reaches(pol: Policy, m: Machine, m': Machine) {
    exists moves :: Ran(pol, m, moves) == m'
  }

  lemma ReachesOn(pol: Policy, m: Machine, m': Machine, t: nat, ch: Choice, n: nat)
    requires Reaches(pol, m, m')
    ensures Reaches(pol, m, Alone(pol, m', t, ch, n))
  {
    var moves :| Ran(pol, m, moves) == m';
    var more := seq(n, _ => Move(t, ch));
    AloneIsRun(pol, m', t, ch, n);
    RanConcat(pol, m, moves, more);
    assert Ran(pol, m, moves + more) == Alone(pol, m', t, ch, n);
  }

  /**
   * With a SIGTERM and an HTTP stop among the callers, wherever they are, the HTTP body can be returned before any
   * shutdown thread runs: SIGTERM has set the flag and not yet started the thread.
   */
  lemma BodyBeforeThreadStart(pol: Policy, callers: seq<Caller>, i: nat, j: nat)
    requires i < |callers| && j < |callers| && callers[i].Sigterm? && callers[j].Http?
    ensures exists m ::
      && Reaches(pol, Begin(callers), m)
      && In(m, j, m.shared, callers[j], Finished(Body(PostedFor(pol, callers[j].reason)))) && m.shared.starts == []
  {
    var c, d, no, yes := callers[i], callers[j], Choice(false, false), Choice(true, false);
    var m := Begin(callers);
    assert In(m, i, INITIAL, c, Handler) && In(m, j, INITIAL, d, WantLock);
    SigtermSetsFlag(pol, m, i, c);
    var m1 := Alone(pol, m, i, no, 6);
    AloneLeavesOthers(pol, m, i, no, 6, j);
    UndisturbedRequest(pol, m1, j, m1.shared, d, yes);
    var m2 := Alone(pol, m1, j, yes, 8);
    AnswerWithFlagSet(pol, m2, j, m2.shared, d, PostedFor(pol, d.reason), yes);
    var m3 := Alone(pol, m2, j, yes, 1);
    assert Ran(pol, m, []) == m;
    ReachesOn(pol, m, m, i, no, 6);
    ReachesOn(pol, m, m1, j, yes, 8);
    ReachesOn(pol, m, m2, j, yes, 1);
  }

  // ----- Which callers make a body mean a started thread -----

  /** Who can be where: only HTTP callers carry an answer, and only SIGTERM ensures the thread without one. */
  predicate RoleFits(th: Thread) {
    match th.pc
    case WantLock | CheckStopped | CheckInProgress | Post => th.caller.Http? || th.caller.Sigterm? || th.caller.Grpc?
    case SetAccepted(_) | SetCanonical(_) | SetMessage(_) | SetInProgress(_) =>
      th.caller.Http? || th.caller.Sigterm? || th.caller.Grpc?
    case Ensure(answer) => if answer.Some? then th.caller.Http? else th.caller.Sigterm?
    case StartThread(answer) => if answer.Some? then th.caller.Http? else th.caller.Sigterm?
    case Handler => th.caller.Sigterm?
    case Finished(Body(_)) => th.caller.Http?
    case _ => true
  }

  lemma StepKeepsRole(pol: Policy, sh: Shared, t: nat, th: Thread, ch: Choice)
    requires RoleFits(th)
    ensures RoleFits(th.(pc := StepOf(pol, sh, t, th, ch).pc))
  {
  }

  ghost predicate RolesFit(callers: seq<Caller>, m: Machine) {
    forall t :: 0 <= t < |m.threads| ==>
      RoleFits(m.threads[t]) && (m.threads[t].caller in callers || m.threads[t].caller.ShutdownThread?)
  }

  lemma {:induction false} RunKeepsRoles(pol: Policy, callers: seq<Caller>, moves: seq<Move>)
    ensures RolesFit(callers, Ran(pol, Begin(callers), moves))
  {
    if moves != [] {
      var before, last := moves[..|moves| - 1], moves[|moves| - 1];
      RunKeepsRoles(pol, callers, before);
      var m := Ran(pol, Begin(callers), before);
      if last.thread < |m.threads| {
        StepKeepsRole(pol, m.shared, last.thread, m.threads[last.thread], last.choice);
      }
    }
  }

  /** Every body is returned after a shutdown thread was started. */
  ghost predicate BodiesMeanStarted(pol: Policy, callers: seq<Caller>) {
    forall moves, t :: 0 <= t < |Ran(pol, Begin(callers), moves).threads|
        ==> BodyMeansStarted(Ran(pol, Begin(callers), moves), t)
  }

  predicate BodyMeansStarted(m: Machine, t: nat)
    requires t < |m.threads|
  {
    m.threads[t].pc.Finished? && m.threads[t].pc.outcome.Body? ==> |m.shared.starts| == 1
  }

  /** Without SIGTERM the one that returns a body is the one that started the thread. */
  lemma BodyWithoutSigterm(pol: Policy, callers: seq<Caller>, moves: seq<Move>, t: nat)
    requires Consistent(pol) && Outside(callers) && forall c :: c in callers ==> !c.Sigterm?
    requires t < |Ran(pol, Begin(callers), moves).threads|
    ensures BodyMeansStarted(Ran(pol, Begin(callers), moves), t)
  {
    var m := Ran(pol, Begin(callers), moves);
    if m.threads[t].pc.Finished? && m.threads[t].pc.outcome.Body? {
      AnsweredRequestIsShuttingDown(pol, callers, moves, t);
      OneAcceptanceOneShutdownThread(pol, callers, moves);
      RunKeepsMachine(pol, callers, moves);
      RunKeepsRoles(pol, callers, moves);
      forall u | 0 <= u < |m.threads| ensures !m.threads[u].pc.StartThread? {
        assert ThreadOk(pol, m.shared, u, m.threads[u]);
      }
    }
  }

  lemma NoBodyWithoutHttp(pol: Policy, callers: seq<Caller>, moves: seq<Move>, t: nat)
    requires forall c :: c in callers ==> !c.Http?
    requires t < |Ran(pol, Begin(callers), moves).threads|
    ensures BodyMeansStarted(Ran(pol, Begin(callers), moves), t)
  {
    RunKeepsRoles(pol, callers, moves);
  }

  /**
   * In every run each returned body means a started shutdown thread exactly when the callers do not include both an
   * HTTP stop and a SIGTERM.
   */
  lemma BodiesMeanStartedExactly(pol: Policy, callers: seq<Caller>)
    requires Consistent(pol) && Outside(callers)
    ensures BodiesMeanStarted(pol, callers) <==>
      !((exists i :: 0 <= i < |callers| && callers[i].Sigterm?) && exists j :: 0 <= j < |callers| && callers[j].Http?)
  {
    if i, j :| 0 <= i < |callers| && callers[i].Sigterm? && 0 <= j < |callers| && callers[j].Http? {
      BodyBeforeThreadStart(pol, callers, i, j);
      var m :| Reaches(pol, Begin(callers), m)
        && In(m, j, m.shared, callers[j], Finished(Body(PostedFor(pol, callers[j].reason)))) && m.shared.starts == [];
      var moves :| Ran(pol, Begin(callers), moves) == m;
      assert !BodyMeansStarted(Ran(pol, Begin(callers), moves), j);
    } else {
      forall moves, t | 0 <= t < |Ran(pol, Begin(callers), moves).threads|
        ensures BodyMeansStarted(Ran(pol, Begin(callers), moves), t)
      {
        if forall c :: c in callers ==> !c.Sigterm? {
          BodyWithoutSigterm(pol, callers, moves, t);
        } else {
          NoBodyWithoutHttp(pol, callers, moves, t);
        }
      }
    }
  }

  /** Once in progress, shutdown stays so, and no guarded work begins any more. */
  lemma ShutdownLatch(pol: Policy, callers: seq<Caller>, moves: seq<Move>, later: seq<Move>)
    requires Consistent(pol) && Outside(callers) && Ran(pol, Begin(callers), moves).shared.inProgress
    ensures var sh, sh' := Ran(pol, Begin(callers), moves).shared, Ran(pol, Begin(callers), moves + later).shared;
      sh'.inProgress && sh'.begun == sh.begun
  {
    RunKeepsMachine(pol, callers, moves);
    LatchHolds(pol, Ran(pol, Begin(callers), moves), later);
    RanConcat(pol, Begin(callers), moves, later);
  }

  // ----- The objects, used by one thread at a time -----

  /** The part of the lifecycle service that stop requests touch; `past` keeps the history. */
  class StoppableService {
    const policy: Policy
    var shutdownComplete: bool
    var shutdownInProgress: bool
    var stopRequestAccepted: bool
    var stopCanonicalReason: Option<string>
    var stopResolvedMessage: Option<string>
    ghost var past: Shared

    constructor (policy: Policy)
      ensures this.policy == policy && State() == INITIAL
    {
      this.policy := policy;
      shutdownComplete, shutdownInProgress, stopRequestAccepted := false, false, false;
      stopCanonicalReason, stopResolvedMessage := None, None;
      past := INITIAL;
    }

    ghost function State(): Shared
      reads this
    {
      past.(complete := shutdownComplete, inProgress := shutdownInProgress, accepted := stopRequestAccepted,
            canonical := stopCanonicalReason, message := stopResolvedMessage)
    }

    /** `posted` says whether the STOPPING post goes through. */
    method InitiateStopFromRequest(reason: string, posted: bool, ghost caller: nat) returns (answer: Outcome)
      modifies this
      ensures (State(), answer) == Initiated(policy, old(State()), caller, reason, posted)
    {
      if shutdownComplete {
        return Refused(AlreadyStopped);
      }
      if stopRequestAccepted || shutdownInProgress {
        return Refused(AlreadyInProgress);
      }
      if !posted {
        return Refused(PostFailed);
      }
      var update := PostedFor(policy, reason);
      stopRequestAccepted := true;
      past := past.(acceptances := past.acceptances + [Acceptance(caller, reason, update)]);
      stopCanonicalReason := Some(update.canonical);
      stopResolvedMessage := Some(update.body.1);
      shutdownInProgress := true;
      return Body(update);
    }
  }

  class CooperativeShutdownCoordinator {
    const lifecycle: StoppableService
    var shutdownThreadStarted: bool
    var handlerInvoked: bool

    constructor (lifecycle: StoppableService)
      ensures this.lifecycle == lifecycle && !shutdownThreadStarted && !handlerInvoked
    {
      this.lifecycle := lifecycle;
      shutdownThreadStarted, handlerInvoked := false, false;
    }

    /** True when the caller is the one that starts the thread. */
    method EnsureShutdownThread() returns (starts: bool)
      modifies this`shutdownThreadStarted
      ensures shutdownThreadStarted && starts == !old(shutdownThreadStarted)
    {
      starts := !shutdownThreadStarted;
      shutdownThreadStarted := true;
    }

    method RequestHttpStop(reason: string, posted: bool, ghost caller: nat) returns (answer: Outcome, starts: bool)
      modifies this`shutdownThreadStarted, lifecycle
      ensures (lifecycle.State(), answer) == Initiated(lifecycle.policy, old(lifecycle.State()), caller, reason, posted)
      ensures shutdownThreadStarted == (old(shutdownThreadStarted) || answer.Body?)
      ensures starts == (shutdownThreadStarted && !old(shutdownThreadStarted))
    {
      starts := false;
      answer := lifecycle.InitiateStopFromRequest(reason, posted, caller);
      if answer.Body? {
        starts := EnsureShutdownThread();
      }
    }

    /** The signal handler: the first signal only, and it shuts down even when its own request is refused. */
    method OnSigterm(reason: string, posted: bool, ghost caller: nat) returns (starts: bool)
      modifies this, lifecycle
      ensures handlerInvoked
      ensures var request := Initiated(lifecycle.policy, old(lifecycle.State()), caller, reason, posted);
        && lifecycle.State() == (if old(handlerInvoked) then old(lifecycle.State()) else request.0)
        && starts == (!old(handlerInvoked) && !old(shutdownThreadStarted) && request.1 != Refused(AlreadyStopped))
        && shutdownThreadStarted == (old(shutdownThreadStarted) || starts)
    {
      if handlerInvoked {
        return false;
      }
      handlerInvoked := true;
      var answer := lifecycle.InitiateStopFromRequest(reason, posted, caller);
      if answer == Refused(AlreadyStopped) {
        return false;
      }
      starts := EnsureShutdownThread();
    }
  }
}
