/** What a gateway's reports come to, stated over their signals and payload fields. */
module LifecycleReports {
  import opened Wrappers
  import opened Text
  import opened Events
  import opened Dedupe
  import opened Gateway

  datatype Report = Report(signal: Signal, payload: Payload)

  /** A fingerprint is "signal:digest": not empty and without padding. */
  ghost predicate Prints(f: Fingerprint) {
    forall s: Signal, p: Payload :: f(s, p) != "" && Strip(f(s, p)) == f(s, p)
  }

  predicate Named(id: WorkerIdentity) {
    Strip(id.runtimeId) != "" && id.attempt >= 1 && Strip(id.worker) != ""
  }

  /** The trimmed event id, else the trimmed observation id, else the fingerprint. */
  function ReportId(f: Fingerprint, r: Report): string {
    match (r.payload.eventId, r.payload.observationId)
    case (Some(event), _) => Strip(event)
    case (None, Some(observation)) => Strip(observation)
    case (None, None) => f(r.signal, r.payload)
  }

  /** The fields that a report of each signal has to carry. */
  predicate Complete(f: Fingerprint, r: Report) {
    && (r.signal != BootstrapFailed ==> ReportId(f, r) != "")
    && match r.signal
       case Heartbeat => r.payload.observedAt.Some?
       case Terminated =>
         r.payload.occurredAt.None? ==>
           && r.payload.localState.Some? && Strip(r.payload.localState.value) != ""
           && r.payload.reasonCode.Some? && Strip(r.payload.reasonCode.value) != ""
       case _ => r.payload.occurredAt.Some?
  }

  /** Launch failures of one attempt are all the same report, others when they have one signal and one id. */
  predicate SameReport(f: Fingerprint, a: Report, b: Report) {
    a.signal == b.signal && (a.signal == BootstrapFailed || ReportId(f, a) == ReportId(f, b))
  }

  predicate IsNew(f: Fingerprint, earlier: seq<Report>, r: Report) {
    forall i :: 0 <= i < |earlier| ==> !SameReport(f, earlier[i], r)
  }

  /** The reports without the repetitions. */
  function Firsts(f: Fingerprint, reports: seq<Report>): seq<Report> {
    if reports == [] then []
    else
      var earlier, last := reports[..|reports| - 1], reports[|reports| - 1];
      Firsts(f, earlier) + if IsNew(f, earlier, last) then [last] else []
  }

  /** The world after one gateway emitted the reports one after the other and no send raised. */
  function Reported(f: Fingerprint, id: WorkerIdentity, reports: seq<Report>): World {
    if reports == [] then NEW_WORLD
    else
      var last := reports[|reports| - 1];
      Emitted(f, Reported(f, id, reports[..|reports| - 1]), last.signal, id, last.payload, true).world
  }

  function OutcomeOf(f: Fingerprint, id: WorkerIdentity, earlier: seq<Report>, r: Report): Outcome {
    Emitted(f, Reported(f, id, earlier), r.signal, id, r.payload, true).outcome
  }

  // ----- The event of a report -----

  function EventOf(f: Fingerprint, id: WorkerIdentity, r: Report): Event {
    var key := if r.signal == BootstrapFailed then FAILURE_KEY else ReportId(f, r);
    Event(Strip(id.runtimeId), id.attempt, r.signal, key, r.payload)
  }

  lemma StripTwice(s: string)
    ensures Strip(Strip(s)) == Strip(s)
  {
    StripFixed(Strip(s));
  }

  lemma ReportIdIsTrimmed(f: Fingerprint, r: Report)
    requires Prints(f)
    ensures Strip(ReportId(f, r)) == ReportId(f, r)
  {
    hide Strip;
    if r.payload.eventId.Some? {
      StripTwice(r.payload.eventId.value);
    } else if r.payload.observationId.Some? {
      StripTwice(r.payload.observationId.value);
    }
  }

  /** A report makes an event exactly when it is complete and its sender is named. */
  lemma PreparedExactly(f: Fingerprint, id: WorkerIdentity, r: Report)
    requires Prints(f)
    ensures Prepared(f, r.signal, id, r.payload)
      == if Named(id) && Complete(f, r) then Some(EventOf(f, id, r)) else None
  {
    hide Strip, EventName;
    ReportIdIsTrimmed(f, r);
    FailureKeyIsTrimmed(FAILURE_KEY);
    assert FAILURE_KEY != "";
  }

  /** An incomplete report is rejected and leaves no trace; a complete one never is. */
  lemma RejectedExactly(f: Fingerprint, w: World, id: WorkerIdentity, r: Report, sendOk: bool)
    requires Prints(f)
    ensures var e := Emitted(f, w, r.signal, id, r.payload, sendOk);
      && (e.outcome == Rejected <==> !(Named(id) && Complete(f, r)))
      && (e.outcome == Rejected ==> e.world == w)
  {
    hide Strip;
    PreparedExactly(f, id, r);
  }

  // ----- One gateway's reports -----

  /** The table knows the reports so far, and only this gateway's attempt. */
  ghost predicate Tracks(f: Fingerprint, id: WorkerIdentity, w: World, reports: seq<Report>) {
    && (forall i :: 0 <= i < |reports| ==> KeyOf(EventOf(f, id, reports[i])) in w.table.seen)
    && (forall k :: k in w.table.seen ==> exists i :: 0 <= i < |reports| && KeyOf(EventOf(f, id, reports[i])) == k)
    && (Strip(id.runtimeId) in w.table.latest ==> w.table.latest[Strip(id.runtimeId)] == id.attempt)
  }

  lemma SameKeyExactly(f: Fingerprint, id: WorkerIdentity, a: Report, b: Report)
    ensures KeyOf(EventOf(f, id, a)) == KeyOf(EventOf(f, id, b)) <==> SameReport(f, a, b)
  {
    hide Strip;
  }

  lemma JudgedByHistory(f: Fingerprint, id: WorkerIdentity, w: World, reports: seq<Report>, r: Report)
    requires Tracks(f, id, w, reports)
    ensures var v := Judge(w.table, EventOf(f, id, r), id.attempt);
      && v.decision == (if IsNew(f, reports, r) then Accept else DropDuplicate)
      && Tracks(f, id, w.(table := v.table), reports + [r])
  {
    hide Strip, ReportId;
    var v, key, all := Judge(w.table, EventOf(f, id, r), id.attempt), KeyOf(EventOf(f, id, r)), reports + [r];
    forall i | 0 <= i < |reports| ensures KeyOf(EventOf(f, id, reports[i])) == key <==> SameReport(f, reports[i], r) {
      SameKeyExactly(f, id, reports[i], r);
    }
    assert key in w.table.seen <==> !IsNew(f, reports, r);
    assert all[|reports|] == r && forall i :: 0 <= i < |reports| ==> all[i] == reports[i];
    forall k | k in v.table.seen ensures exists i :: 0 <= i < |all| && KeyOf(EventOf(f, id, all[i])) == k {
      if k in w.table.seen {
        var i :| 0 <= i < |reports| && KeyOf(EventOf(f, id, reports[i])) == k;
        assert KeyOf(EventOf(f, id, all[i])) == k;
      } else {
        assert KeyOf(EventOf(f, id, all[|reports|])) == k;
      }
    }
  }

  lemma {:induction false} ReportedTracks(f: Fingerprint, id: WorkerIdentity, reports: seq<Report>)
    requires Prints(f) && Named(id) && forall r :: r in reports ==> Complete(f, r)
    ensures Tracks(f, id, Reported(f, id, reports), reports)
  {
    hide Strip, Complete, EventOf, KeyOf;
    if reports != [] {
      var earlier, last := reports[..|reports| - 1], reports[|reports| - 1];
      assert last in reports;
      ReportedTracks(f, id, earlier);
      PreparedExactly(f, id, last);
      JudgedByHistory(f, id, Reported(f, id, earlier), earlier, last);
      assert reports == earlier + [last];
    }
  }

  /**
   * A complete report is delivered exactly when it does not repeat an earlier one of this gateway, and is dropped as a
   * duplicate otherwise.
   */
  lemma DeliveredExactlyWhenNew(f: Fingerprint, id: WorkerIdentity, earlier: seq<Report>, r: Report)
    requires Prints(f) && Named(id) && Complete(f, r) && forall e :: e in earlier ==> Complete(f, e)
    ensures OutcomeOf(f, id, earlier, r) == if IsNew(f, earlier, r) then Delivered else Suppressed(DropDuplicate)
  {
    hide Strip, Complete, EventOf, KeyOf, IsNew;
    ReportedTracks(f, id, earlier);
    PreparedExactly(f, id, r);
    JudgedByHistory(f, id, Reported(f, id, earlier), earlier, r);
  }

  /** An event as the manager sees it. */
  predicate Shows(id: WorkerIdentity, e: Event, r: Report) {
    e.runtimeId == Strip(id.runtimeId) && e.attempt == id.attempt && e.signal == r.signal && e.payload == r.payload
  }

  // ----- A later attempt -----

  /** All keys in the table are of this gateway's runtime and attempt. */
  ghost predicate OwnKeys(id: WorkerIdentity, w: World) {
    forall k :: k in w.table.seen ==> k.runtimeId == Strip(id.runtimeId) && k.attempt == id.attempt
  }

  lemma TrackedKeysAreOwn(f: Fingerprint, id: WorkerIdentity, w: World, reports: seq<Report>)
    requires Tracks(f, id, w, reports)
    ensures OwnKeys(id, w)
  {
    hide Strip, ReportId;
  }

  /**
   * After any reports of one attempt a gateway of the same runtime with a later attempt is heard afresh, even with a
   * report that was sent before; from then on the earlier attempt is stale.
   */
  lemma LaterAttemptSupersedes(f: Fingerprint, id: WorkerIdentity, reports: seq<Report>, later: WorkerIdentity,
      first: Report, old': Report)
    requires Prints(f) && Named(id) && Named(later) && forall r :: r in reports ==> Complete(f, r)
    requires Strip(later.runtimeId) == Strip(id.runtimeId) && later.attempt > id.attempt
    requires Complete(f, first) && Complete(f, old')
    ensures var e := Emitted(f, Reported(f, id, reports), first.signal, later, first.payload, true);
      && e.outcome == Delivered
      && Emitted(f, e.world, old'.signal, id, old'.payload, true).outcome == Suppressed(DropStaleAttempt)
  {
    hide Strip, ReportId, Complete, Reported;
    var w := Reported(f, id, reports);
    ReportedTracks(f, id, reports);
    TrackedKeysAreOwn(f, id, w, reports);
    PreparedExactly(f, later, first);
    PreparedExactly(f, id, old');
    assert KeyOf(EventOf(f, later, first)) !in w.table.seen;
  }

  predicate ShowsAll(id: WorkerIdentity, events: seq<Event>, reports: seq<Report>) {
    |events| == |reports| && forall i :: 0 <= i < |reports| ==> Shows(id, events[i], reports[i])
  }

  lemma ShowsOneMore(f: Fingerprint, id: WorkerIdentity, events: seq<Event>, reports: seq<Report>, r: Report)
    requires ShowsAll(id, events, reports)
    ensures ShowsAll(id, events + [EventOf(f, id, r)], reports + [r])
  {
    hide Strip, ReportId;
  }

  lemma ReportedOneMore(f: Fingerprint, id: WorkerIdentity, earlier: seq<Report>, r: Report)
    requires Prints(f) && Named(id) && Complete(f, r) && forall e :: e in earlier ==> Complete(f, e)
    ensures var w, w' := Reported(f, id, earlier), Reported(f, id, earlier + [r]);
      && w'.journal == w.journal + [EventOf(f, id, r)]
      && w'.wire == if IsNew(f, earlier, r) then w.wire + [EventOf(f, id, r)] else w.wire
  {
    hide Strip, Complete, EventOf, KeyOf, IsNew;
    assert (earlier + [r])[..|earlier|] == earlier;
    ReportedTracks(f, id, earlier);
    PreparedExactly(f, id, r);
    JudgedByHistory(f, id, Reported(f, id, earlier), earlier, r);
  }

  /** The manager receives the reports without their repetitions, in order; the journal has them all. */
  lemma {:induction false} ManagerReceivesFirsts(f: Fingerprint, id: WorkerIdentity, reports: seq<Report>)
    requires Prints(f) && Named(id) && forall r :: r in reports ==> Complete(f, r)
    ensures var w := Reported(f, id, reports);
      ShowsAll(id, w.wire, Firsts(f, reports)) && ShowsAll(id, w.journal, reports)
  {
    hide Complete, IsNew, EventOf, Emitted;
    if reports != [] {
      var earlier, last := reports[..|reports| - 1], reports[|reports| - 1];
      assert last in reports && reports == earlier + [last];
      ManagerReceivesFirsts(f, id, earlier);
      ReportedOneMore(f, id, earlier, last);
      ShowsOneMore(f, id, Reported(f, id, earlier).wire, Firsts(f, earlier), last);
      ShowsOneMore(f, id, Reported(f, id, earlier).journal, earlier, last);
    }
  }

  /** No report repeats an earlier one. */
  predicate AllDifferent(f: Fingerprint, reports: seq<Report>) {
    forall i, j :: 0 <= i < j < |reports| ==> !SameReport(f, reports[i], reports[j])
  }

  lemma LastIsNew(f: Fingerprint, reports: seq<Report>)
    requires AllDifferent(f, reports) && reports != []
    ensures var n := |reports| - 1; AllDifferent(f, reports[..n]) && IsNew(f, reports[..n], reports[n])
  {
    hide SameReport;
    assert forall i :: 0 <= i < |reports| - 1 ==> reports[..|reports| - 1][i] == reports[i];
  }

  lemma {:induction false} FirstsOfDifferent(f: Fingerprint, reports: seq<Report>)
    requires AllDifferent(f, reports)
    ensures Firsts(f, reports) == reports
  {
    hide AllDifferent, IsNew;
    if reports != [] {
      var n := |reports| - 1;
      LastIsNew(f, reports);
      FirstsOfDifferent(f, reports[..n]);
      assert reports == reports[..n] + [reports[n]];
    }
  }

  /** Reports that are pairwise different are all delivered, and the manager receives all of them in order. */
  lemma DifferentReportsAllArrive(f: Fingerprint, id: WorkerIdentity, reports: seq<Report>)
    requires Prints(f) && Named(id) && forall r :: r in reports ==> Complete(f, r)
    requires AllDifferent(f, reports)
    ensures forall i :: 0 <= i < |reports| ==> OutcomeOf(f, id, reports[..i], reports[i]) == Delivered
    ensures ShowsAll(id, Reported(f, id, reports).wire, reports)
  {
    hide Complete, SameReport, ShowsAll, OutcomeOf, Reported;
    forall i | 0 <= i < |reports| ensures OutcomeOf(f, id, reports[..i], reports[i]) == Delivered {
      assert reports[i] in reports;
      assert forall k :: 0 <= k < i ==> reports[..i][k] == reports[k];
      DeliveredExactlyWhenNew(f, id, reports[..i], reports[i]);
    }
    FirstsOfDifferent(f, reports);
    ManagerReceivesFirsts(f, id, reports);
  }
}
