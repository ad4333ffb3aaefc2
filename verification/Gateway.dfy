/** Signal emission towards the runtime manager (runtime/integration/manager_gateway.py). */
module Gateway {
  import opened Wrappers
  import opened Text
  import opened Events
  import opened Dedupe

  /** What all gateways that share one dedupe table act on. */
  datatype World = World(table: Table, journal: seq<Event>, wire: seq<Event>)

  const NEW_WORLD := World(EMPTY_TABLE, [], [])

  datatype Outcome =
    | Rejected                          // ValueError before anything happened
    | Suppressed(decision: Decision)    // dropped by the dedupe
    | Delivered
    | SendFailed                        // the manager client raised

  predicate Blank(o: Option<string>) {
    o.None? || Strip(o.value) == ""
  }

  /** The fields each signal must carry. */
  predicate HasRequiredFields(s: Signal, id: WorkerIdentity, p: Payload) {
    && Strip(id.runtimeId) != ""
    && id.attempt >= 1
    && Strip(id.worker) != ""
    && if s.Heartbeat? then p.observedAt.Some?
       else if s.Terminated? && p.localState.Some? && p.reasonCode.Some? && p.occurredAt.None? then
         !Blank(p.localState) && !Blank(p.reasonCode)
       else p.occurredAt.Some?
  }

  datatype Emission = Emission(world: World, outcome: Outcome)

  /** A created event is journalled, judged, and sent when accepted. */
  function Forwarded(w: World, e: Event, current: int, sendOk: bool): Emission {
    var v := Judge(w.table, e, current);
    var w' := w.(table := v.table, journal := w.journal + [e]);
    if v.decision != Accept then Emission(w', Suppressed(v.decision))
    else if sendOk then Emission(w'.(wire := w.wire + [e]), Delivered)
    else Emission(w', SendFailed)
  }

  function Prepared(f: Fingerprint, s: Signal, id: WorkerIdentity, p: Payload): (r: Option<Event>)
    ensures r.Some? ==> WellKeyed(r.value)
  {
    if HasRequiredFields(s, id, p) then
      var r := Create(f, s, id, p);
      assert r.Some? ==> WellKeyed(r.value) by {
        if r.Some? && IsLaunchFailure(r.value) {
          FailureIdentityIgnoresPayload(f, id, p);
        }
      }
      r
    else None
  }

  function Emitted(f: Fingerprint, w: World, s: Signal, id: WorkerIdentity, p: Payload, sendOk: bool): Emission {
    match Prepared(f, s, id, p)
    case None => Emission(w, Rejected)
    case Some(e) => Forwarded(w, e, id.attempt, sendOk)
  }

  predicate IsLaunchFailure(e: Event) {
    e.signal == BootstrapFailed
  }

  /** A launch failure is keyed by its runtime and attempt alone. */
  predicate WellKeyed(e: Event) {
    IsLaunchFailure(e) ==> e.identityKey == FAILURE_KEY
  }

  class EventLog {
    var events: seq<Event>

    constructor ()
      ensures events == []
    {
      events := [];
    }

    method Append(e: Event)
      modifies this
      ensures events == old(events) + [e]
    {
      events := events + [e];
    }
  }

  class ManagerGateway {
    const fingerprint: Fingerprint
    const identity: WorkerIdentity
    const dedupe: LifecycleSignalDedupe
    const journal: EventLog
    const client: EventLog

    constructor (fingerprint: Fingerprint, identity: WorkerIdentity, dedupe: LifecycleSignalDedupe, journal: EventLog,
        client: EventLog)
      requires journal != client
      ensures Valid()
      ensures this.fingerprint == fingerprint && this.identity == identity
      ensures this.dedupe == dedupe && this.journal == journal && this.client == client
    {
      this.fingerprint, this.identity := fingerprint, identity;
      this.dedupe, this.journal, this.client := dedupe, journal, client;
    }

    ghost predicate Valid() {
      journal != client
    }

    ghost function Shared(): World
      reads dedupe, journal, client
    {
      World(dedupe.Contents(), journal.events, client.events)
    }

    /** `sendOk` says whether the manager client accepts the message or raises. */
    method Emit(signal: Signal, payload: Payload, sendOk: bool) returns (outcome: Outcome)
      requires Valid()
      modifies dedupe, journal, client
      ensures Emission(Shared(), outcome) == Emitted(fingerprint, old(Shared()), signal, identity, payload, sendOk)
    {
      if !HasRequiredFields(signal, identity, payload) {
        return Rejected;
      }
      var created := Create(fingerprint, signal, identity, payload);
      if created.None? {
        return Rejected;
      }
      var event := created.value;
      journal.Append(event);
      var decision := dedupe.Decide(event, identity.attempt);
      if decision != Accept {
        return Suppressed(decision);
      }
      if !sendOk {
        return SendFailed;
      }
      client.Append(event);
      return Delivered;
    }
  }

  // ----- Whole runs of any number of gateways sharing the world -----

  datatype Emit = Emit(signal: Signal, id: WorkerIdentity, payload: Payload, sendOk: bool)

  /** An emit as it reaches the shared world: the event its gateway prepared, if any, with the gateway's attempt. */
  datatype Submission = Submission(event: Option<Event>, current: int, sendOk: bool)

  function Submitted(f: Fingerprint, m: Emit): (s: Submission)
    ensures s.event.Some? ==> WellKeyed(s.event.value)
  {
    Submission(Prepared(f, m.signal, m.id, m.payload), m.id.attempt, m.sendOk)
  }

  /** Every launch failure among the submissions has the one key; `Submitted` makes no others. */
  predicate Keyed(subs: seq<Submission>) {
    forall i :: 0 <= i < |subs| && subs[i].event.Some? ==> WellKeyed(subs[i].event.value)
  }

  function Received(w: World, s: Submission): World {
    match s.event
    case None => w
    case Some(e) => Forwarded(w, e, s.current, s.sendOk).world
  }

  function WorldAfter(subs: seq<Submission>): World {
    if subs == [] then NEW_WORLD else Received(WorldAfter(subs[..|subs| - 1]), subs[|subs| - 1])
  }

  /** A gateway's emit acts on the world as its submission does. */
  lemma EmitIsSubmission(f: Fingerprint, w: World, m: Emit)
    ensures Emitted(f, w, m.signal, m.id, m.payload, m.sendOk).world == Received(w, Submitted(f, m))
  {
  }

  /** `a` is obtained from `b` by leaving elements out, in order. */
  ghost predicate Subsequence<T>(a: seq<T>, b: seq<T>) {
    if a == [] then true
    else if b == [] then false
    else
      || Subsequence(a, b[..|b| - 1])
      || (a[|a| - 1] == b[|b| - 1] && Subsequence(a[..|a| - 1], b[..|b| - 1]))
  }

  /** What the shared table knows about the wire. */
  ghost predicate Known(w: World) {
    forall e :: e in w.wire ==>
      WellKeyed(e) && KeyOf(e) in w.table.seen && e.runtimeId in w.table.latest
          && e.attempt <= w.table.latest[e.runtimeId]
  }

  ghost predicate Ordered(wire: seq<Event>) {
    forall i, j :: 0 <= i < j < |wire| ==>
      KeyOf(wire[i]) != KeyOf(wire[j])
          && (wire[i].runtimeId == wire[j].runtimeId ==> wire[i].attempt <= wire[j].attempt)
  }

  ghost predicate Sound(w: World) {
    Known(w) && Ordered(w.wire) && Subsequence(w.wire, w.journal)
  }

  /** An accepted event is new to the wire and not older than anything of its runtime there. */
  lemma AcceptedFitsWire(w: World, e: Event, current: int)
    requires Known(w) && Judge(w.table, e, current).decision == Accept
    ensures forall x :: x in w.wire ==> KeyOf(x) != KeyOf(e) && (x.runtimeId == e.runtimeId ==> x.attempt <= e.attempt)
  {
  }

  lemma ForwardKeepsKnown(w: World, e: Event, current: int, sendOk: bool)
    requires Known(w) && WellKeyed(e)
    ensures Known(Forwarded(w, e, current, sendOk).world)
  {
  }

  lemma ForwardKeepsSubsequence(w: World, e: Event, current: int, sendOk: bool)
    requires Subsequence(w.wire, w.journal)
    ensures var w' := Forwarded(w, e, current, sendOk).world;
      Subsequence(w'.wire, w'.journal)
  {
    assert (w.journal + [e])[..|w.journal|] == w.journal;
    assert (w.wire + [e])[..|w.wire|] == w.wire;
  }

  lemma ForwardKeepsSound(w: World, e: Event, current: int, sendOk: bool)
    requires Sound(w) && WellKeyed(e)
    ensures Sound(Forwarded(w, e, current, sendOk).world)
  {
    ForwardKeepsKnown(w, e, current, sendOk);
    ForwardKeepsSubsequence(w, e, current, sendOk);
    if Judge(w.table, e, current).decision == Accept {
      AcceptedFitsWire(w, e, current);
      assert forall i :: 0 <= i < |w.wire| ==> w.wire[i] in w.wire;
    }
  }

  lemma {:induction false} WorldStaysSound(subs: seq<Submission>)
    requires Keyed(subs)
    ensures Sound(WorldAfter(subs))
  {
    if subs != [] {
      var before, last := subs[..|subs| - 1], subs[|subs| - 1];
      WorldStaysSound(before);
      if last.event.Some? {
        ForwardKeepsSound(WorldAfter(before), last.event.value, last.current, last.sendOk);
      }
    }
  }

  /** The manager receives at most one launch failure per runtime and launch attempt. */
  lemma AtMostOneLaunchFailure(subs: seq<Submission>, i: nat, j: nat)
    requires Keyed(subs) && i < j < |WorldAfter(subs).wire|
    ensures var a, b := WorldAfter(subs).wire[i], WorldAfter(subs).wire[j];
      IsLaunchFailure(a) && IsLaunchFailure(b) ==> a.runtimeId != b.runtimeId || a.attempt != b.attempt
  {
    WorldStaysSound(subs);
    var wire := WorldAfter(subs).wire;
    assert wire[i] in wire && wire[j] in wire;
    assert KeyOf(wire[i]) != KeyOf(wire[j]);
  }

  /** Attempts on the wire never decrease per runtime, and the wire is an in-order part of the journal. */
  lemma WireIsOrderedPartOfJournal(subs: seq<Submission>)
    requires Keyed(subs)
    ensures var w := WorldAfter(subs);
      && Subsequence(w.wire, w.journal)
      && forall i, j :: 0 <= i < j < |w.wire| && w.wire[i].runtimeId == w.wire[j].runtimeId ==>
           w.wire[i].attempt <= w.wire[j].attempt
  {
    WorldStaysSound(subs);
  }

  // ----- What reaches the manager -----

  /** The submissions with an event, as calls of the dedupe. */
  function CallsOf(subs: seq<Submission>): seq<Call> {
    if subs == [] then []
    else
      var before, last := CallsOf(subs[..|subs| - 1]), subs[|subs| - 1];
      if last.event.None? then before else before + [Call(last.event.value, last.current)]
  }

  /** The last submission's event is accepted by the history of calls before it. */
  predicate AcceptsLast(subs: seq<Submission>)
    requires subs != []
  {
    var accepted, last := Accepted(CallsOf(subs[..|subs| - 1])), subs[|subs| - 1];
    last.event.Some? && !Stale(accepted, last.event.value, last.current) && !Repeated(accepted, last.event.value)
  }

  /** The accepted events whose send did not raise. */
  function Sent(subs: seq<Submission>): seq<Event> {
    if subs == [] then []
    else
      var before, last := Sent(subs[..|subs| - 1]), subs[|subs| - 1];
      if AcceptsLast(subs) && last.sendOk then before + [last.event.value] else before
  }

  /** The world against the history of calls. */
  ghost predicate FollowsHistory(w: World, calls: seq<Call>, sent: seq<Event>) {
    && w.table == TableAfter(calls)
    && w.wire == sent
    && |w.journal| == |calls|
    && forall i :: 0 <= i < |calls| ==> w.journal[i] == calls[i].event
  }

  lemma ForwardFollowsHistory(w: World, calls: seq<Call>, sent: seq<Event>, e: Event, current: int, sendOk: bool)
    requires FollowsHistory(w, calls, sent)
    ensures var accepts := !Stale(Accepted(calls), e, current) && !Repeated(Accepted(calls), e);
      FollowsHistory(Forwarded(w, e, current, sendOk).world, calls + [Call(e, current)],
                     if accepts && sendOk then sent + [e] else sent)
  {
    TableDescribesHistory(calls);
    JudgeMatchesHistory(TableAfter(calls), Accepted(calls), e, current);
    assert (calls + [Call(e, current)])[..|calls|] == calls;
  }

  /**
   * The journal is the submitted events, and the wire is exactly those the history of calls accepts whose send did
   * not raise, in order.
   */
  lemma {:induction false} WireIsAcceptedAndSent(subs: seq<Submission>)
    ensures FollowsHistory(WorldAfter(subs), CallsOf(subs), Sent(subs))
  {
    if subs != [] {
      var before, last := subs[..|subs| - 1], subs[|subs| - 1];
      WireIsAcceptedAndSent(before);
      if last.event.Some? {
        ForwardFollowsHistory(
          WorldAfter(before), CallsOf(before), Sent(before), last.event.value, last.current, last.sendOk);
      }
    }
  }

  lemma AcceptedGrows(subs: seq<Submission>)
    requires subs != []
    ensures Accepted(CallsOf(subs)) == Accepted(CallsOf(subs[..|subs| - 1]))
      + if AcceptsLast(subs) then [subs[|subs| - 1].event.value] else []
  {
    var calls, last := CallsOf(subs[..|subs| - 1]), subs[|subs| - 1];
    if last.event.Some? {
      assert (calls + [Call(last.event.value, last.current)])[..|calls|] == calls;
    }
  }

  /** Submission i was accepted and its send raised. */
  predicate LosesSend(subs: seq<Submission>, i: nat)
    requires i < |subs|
  {
    AcceptsLast(subs[..i + 1]) && !subs[i].sendOk
  }

  /** The events sent are those accepted, short of the ones whose send raised. */
  lemma {:induction false} SentAgainstAccepted(subs: seq<Submission>)
    ensures if exists i :: 0 <= i < |subs| && LosesSend(subs, i) then |Sent(subs)| < |Accepted(CallsOf(subs))|
            else Sent(subs) == Accepted(CallsOf(subs))
  {
    if subs != [] {
      var n := |subs| - 1;
      SentAgainstAccepted(subs[..n]);
      AcceptedGrows(subs);
      assert subs[..n + 1] == subs;
      forall i | 0 <= i < n ensures LosesSend(subs, i) == LosesSend(subs[..n], i) {
        assert subs[..n][..i + 1] == subs[..i + 1];
      }
      assert LosesSend(subs, n) <==> AcceptsLast(subs) && !subs[n].sendOk;
    }
  }

  /** Every event the history accepts reaches the manager, in order, exactly when the send of none of them raises. */
  lemma AllAcceptedReachManagerExactly(subs: seq<Submission>)
    ensures WorldAfter(subs).wire == Accepted(CallsOf(subs)) <==>
      forall i :: 0 <= i < |subs| ==> !LosesSend(subs, i)
  {
    WireIsAcceptedAndSent(subs);
    SentAgainstAccepted(subs);
  }

  // ----- After a failed send -----

  /** The key is known to the table and nothing with that key was received. */
  ghost predicate Spent(w: World, k: Key) {
    k in w.table.seen && forall x :: x in w.wire ==> KeyOf(x) != k
  }

  lemma ForwardKeepsSpent(w: World, e: Event, current: int, sendOk: bool, k: Key)
    requires Spent(w, k)
    ensures Spent(Forwarded(w, e, current, sendOk).world, k)
  {
  }

  lemma {:induction false} SpentKeyStaysOffWire(subs: seq<Submission>, more: seq<Submission>, k: Key)
    requires Spent(WorldAfter(subs), k)
    ensures Spent(WorldAfter(subs + more), k)
  {
    if more == [] {
      assert subs + more == subs;
    } else {
      var n, all := |more| - 1, subs + more;
      assert all[..|all| - 1] == subs + more[..n];
      SpentKeyStaysOffWire(subs, more[..n], k);
      if more[n].event.Some? {
        ForwardKeepsSpent(WorldAfter(subs + more[..n]), more[n].event.value, more[n].current, more[n].sendOk, k);
      }
    }
  }

  /** A signal whose send raised counts as sent: no later emit of the same key reaches the manager. */
  lemma FailedSendIsNeverRetried(subs: seq<Submission>, last: Submission, more: seq<Submission>)
    requires Keyed(subs) && last.event.Some?
    requires Forwarded(WorldAfter(subs), last.event.value, last.current, last.sendOk).outcome == SendFailed
    ensures Spent(WorldAfter(subs + [last] + more), KeyOf(last.event.value))
  {
    WorldStaysSound(subs);
    assert (subs + [last])[..|subs|] == subs;
    SpentKeyStaysOffWire(subs + [last], more, KeyOf(last.event.value));
  }
}
