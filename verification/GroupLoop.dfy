/** The acknowledging reader `_run_xreadgroup_loop`. */
module GroupLoop {
  import opened Basics
  import opened Wrappers
  import opened StreamKeys
  import opened StreamEntries
  import opened GroupServer
  import opened FieldProcessing

  datatype Poll = Poll(arrivals: seq<Arrival>, outcome: Outcome)

  /** `crashed` says that an exception ended the loop; `waits` are the backoffs in seconds. */
  datatype System = System(
    server: Server, steps: seq<Step>, attempt: nat, waits: seq<nat>, stopped: bool, crashed: bool)

  function ConsumedEntry(f: Feed, sys: System, stream: string, e: Entry): System {
    sys.(server := Acknowledged(sys.server, stream, e.id),
         steps := sys.steps + EntrySteps(f, stream, e) + [Acked(stream, e.id)])
  }

  function ConsumedEntries(f: Feed, sys: System, stream: string, entries: seq<Entry>): System {
    if entries == [] then sys
    else ConsumedEntry(f, ConsumedEntries(f, sys, stream, entries[..|entries| - 1]), stream, entries[|entries| - 1])
  }

  function ConsumedAll(f: Feed, sys: System, batches: seq<Batch>): System {
    if batches == [] then sys
    else
      var last := batches[|batches| - 1];
      ConsumedEntries(f, ConsumedAll(f, sys, batches[..|batches| - 1]), last.stream, last.entries)
  }

  /** After a failed read: the backoff, a new connection, the groups again. */
  function Retried(names: seq<string>, sys: System, reconnect: Reconnect): System {
    var waited := sys.(waits := sys.waits + [BackoffSeconds(sys.attempt)]);
    if reconnect.StopDuringBackoff? then waited.(stopped := true)
    else
      waited.(attempt := sys.attempt + 1,
              server := GroupsEnsured(sys.server, Reached(names, reconnect)),
              stopped := reconnect.ReconnectFails?,
              crashed := reconnect.ReconnectFails?)
  }

  function Turned(f: Feed, names: seq<string>, count: nat, sys: System, outcome: Outcome): System {
    if sys.stopped then sys
    else
      match outcome
      case StopSeen => sys.(stopped := true)
      case Refused(reconnect) => Retried(names, sys, reconnect)
      case ReplyLost(picks, reconnect) =>
        Retried(names, sys.(server := ServedPicks(sys.server, Members(names), count, picks, false).server), reconnect)
      case Answered(picks) =>
        var r := ServedPicks(sys.server, Members(names), count, picks, true);
        ConsumedAll(f, sys.(server := r.server, attempt := 0), r.batches)
  }

  /** The effect of one poll: the arrivals before it and the turn. */
  function AfterPoll(f: Feed, names: seq<string>, count: nat, sys: System, poll: Poll): System {
    Turned(f, names, count, sys.(server := AddedAll(sys.server, poll.arrivals)), poll.outcome)
  }

  function Polled(f: Feed, names: seq<string>, count: nat, sys: System, polls: seq<Poll>): System {
    if polls == [] then sys
    else
      AfterPoll(f, names, count, Polled(f, names, count, sys, polls[..|polls| - 1]), polls[|polls| - 1])
  }

  function Begun(server: Server, names: seq<string>): System {
    System(GroupsEnsured(server, names), [], 0, [], false, false)
  }

  class GroupConsumer {
    const feed: Feed
    const names: seq<string>
    const count: nat
    const server: GroupRedis
    const trail: Trail
    var reconnectAttempt: nat
    var waits: seq<nat>
    var stopped: bool
    var crashed: bool

    constructor (feed: Feed, names: seq<string>, count: int, server: GroupRedis, trail: Trail)
      requires trail.steps == []
      modifies server
      ensures this.feed == feed && this.names == names && this.server == server && this.trail == trail
      ensures this.count == if count >= 1 then count else 1
      ensures State() == Begun(old(server.streams), names)
    {
      this.feed, this.names, this.server, this.trail := feed, names, server, trail;
      this.count := if count >= 1 then count else 1;
      reconnectAttempt, waits, stopped, crashed := 0, [], false, false;
      new;
      server.EnsureGroups(names);
    }

    ghost function State(): System
      reads this, server, trail
    {
      System(server.streams, trail.steps, reconnectAttempt, waits, stopped, crashed)
    }

    /** One entry: its fields, then exactly one acknowledgement; the fallback after the field loop never runs. */
    method ConsumeEntry(stream: string, e: Entry)
      modifies server, trail
      ensures State() == ConsumedEntry(feed, old(State()), stream, e)
    {
      if e.fields.None? || e.fields.value == [] {
        server.Xack(stream, e.id);
        trail.Note(Acked(stream, e.id));
        return;
      }
      var fields := e.fields.value;
      ghost var initial := AckState(server.streams, trail.steps, Names(fields));
      var tracker := new AckTracker(server, trail, stream, e.id, Names(fields));
      for k := 0 to |fields|
        invariant fresh(tracker) && tracker.server == server && tracker.trail == trail
        invariant tracker.stream == stream && tracker.id == e.id
        invariant tracker.State() == FieldsSettled(feed, initial, stream, e.id, fields[..k])
      {
        ProcessOneStreamField(feed, stream, e.id, fields[k], trail, tracker);
        assert fields[..k + 1][..k] == fields[..k];
      }
      LastFieldAcknowledges(feed, initial.server, initial.steps, stream, e.id, fields, |fields|);
      assert fields[..|fields|] == fields;
      if tracker.pending != [] {
        assert false;
      }
    }

    method ConsumeBatch(b: Batch)
      modifies server, trail
      ensures State() == ConsumedEntries(feed, old(State()), b.stream, b.entries)
    {
      for m := 0 to |b.entries|
        invariant State() == ConsumedEntries(feed, old(State()), b.stream, b.entries[..m])
      {
        ConsumeEntry(b.stream, b.entries[m]);
        assert b.entries[..m + 1][..m] == b.entries[..m];
      }
      assert b.entries[..|b.entries|] == b.entries;
    }

    /** What follows a failed read; the loop goes on unless it sets `stopped`. */
    method Retry(reconnect: Reconnect)
      requires !stopped && !crashed
      modifies this, server
      ensures State() == Retried(names, old(State()), reconnect)
    {
      waits := waits + [BackoffSeconds(reconnectAttempt)];
      if reconnect.StopDuringBackoff? {
        stopped := true;
        return;
      }
      reconnectAttempt := reconnectAttempt + 1;
      crashed := server.ReconnectAndEnsureGroups(names, reconnect);
      if crashed {
        stopped := true;
      }
    }

    method ConsumeReply(batches: seq<Batch>)
      modifies server, trail
      ensures State() == ConsumedAll(feed, old(State()), batches)
    {
      for k := 0 to |batches|
        invariant State() == ConsumedAll(feed, old(State()), batches[..k])
      {
        ConsumeBatch(batches[k]);
        assert batches[..k + 1][..k] == batches[..k];
      }
      assert batches[..|batches|] == batches;
    }

    /** One turn after the look at the stop event. */
    method Turn(outcome: Outcome)
      requires !stopped && !crashed && !outcome.StopSeen?
      modifies this, server, trail
      ensures State() == Turned(feed, names, count, old(State()), outcome)
    {
      var resp := server.Xreadgroup(names, count, outcome);
      if resp.None? {
        Retry(outcome.reconnect);
      } else {
        reconnectAttempt := 0;
        ConsumeReply(resp.value);
      }
    }

    method Run(polls: seq<Poll>)
      requires !stopped && !crashed
      modifies this, server, trail
      ensures SameLoop(State(), Polled(feed, names, count, old(State()), polls))
      ensures stopped || State() == Polled(feed, names, count, old(State()), polls)
    {
      ghost var initial := State();
      var i := 0;
      while i < |polls|
        invariant 0 <= i <= |polls|
        invariant !stopped && !crashed && State() == Polled(feed, names, count, initial, polls[..i])
      {
        assert polls[..i + 1][..i] == polls[..i];
        server.AddAll(polls[i].arrivals);
        if polls[i].outcome.StopSeen? {
          stopped := true;
        } else {
          TurnEnds(feed, names, count, State(), polls[i].outcome);
          Turn(polls[i].outcome);
        }
        i := i + 1;
        if stopped {
          StoppedStays(feed, names, count, initial, polls, i);
          return;
        }
      }
      assert polls[..|polls|] == polls;
    }
  }

  /** The same but for what the server has. */
  predicate SameLoop(a: System, b: System) {
    b == a.(server := b.server)
  }

  lemma StoppedStands(f: Feed, names: seq<string>, count: nat, sys: System, poll: Poll)
    requires sys.stopped
    ensures SameLoop(sys, AfterPoll(f, names, count, sys, poll))
  {
  }

  lemma {:induction false} StoppedStays(f: Feed, names: seq<string>, count: nat, sys: System, polls: seq<Poll>, i: nat)
    requires i <= |polls|
    requires Polled(f, names, count, sys, polls[..i]).stopped
    ensures SameLoop(Polled(f, names, count, sys, polls[..i]), Polled(f, names, count, sys, polls))
    decreases |polls|
  {
    hide AfterPoll;
    if i == |polls| {
      assert polls[..i] == polls;
    } else {
      var n := |polls| - 1;
      assert polls[..n][..i] == polls[..i];
      StoppedStays(f, names, count, sys, polls[..n], i);
      StoppedStands(f, names, count, Polled(f, names, count, sys, polls[..n]), polls[n]);
    }
  }

  // ----- When the loop goes on -----

  predicate EndsLoop(o: Outcome) {
    match o
    case StopSeen => true
    case Refused(reconnect) => !reconnect.Reconnected?
    case ReplyLost(_, reconnect) => !reconnect.Reconnected?
    case Answered(_) => false
  }

  /** An exception of the groups' creation ends the loop. */
  predicate CrashesLoop(o: Outcome) {
    match o
    case Refused(reconnect) => reconnect.ReconnectFails?
    case ReplyLost(_, reconnect) => reconnect.ReconnectFails?
    case _ => false
  }

  lemma {:induction false} ConsumingEntriesKeepsLoop(f: Feed, sys: System, stream: string, entries: seq<Entry>)
    ensures var s := ConsumedEntries(f, sys, stream, entries);
      s.(server := sys.server, steps := sys.steps) == sys
  {
    if entries != [] {
      ConsumingEntriesKeepsLoop(f, sys, stream, entries[..|entries| - 1]);
    }
  }

  lemma {:induction false} ConsumingKeepsLoop(f: Feed, sys: System, batches: seq<Batch>)
    ensures var s := ConsumedAll(f, sys, batches); s.(server := sys.server, steps := sys.steps) == sys
  {
    if batches != [] {
      var last := batches[|batches| - 1];
      ConsumingKeepsLoop(f, sys, batches[..|batches| - 1]);
      ConsumingEntriesKeepsLoop(f, ConsumedAll(f, sys, batches[..|batches| - 1]), last.stream, last.entries);
    }
  }

  /** Failures since the last successful read. */
  function TrailingFailures(polls: seq<Poll>): nat {
    if polls == [] then 0
    else
      var last := polls[|polls| - 1].outcome;
      if last.Refused? || last.ReplyLost? then 1 + TrailingFailures(polls[..|polls| - 1]) else 0
  }

  predicate RunsUntil(polls: seq<Poll>, i: nat)
    requires i <= |polls|
  {
    forall k :: 0 <= k < i ==> !EndsLoop(polls[k].outcome)
  }

  /**
   * A failed read is survived exactly when the stop event stays away and every group can be created again; what ends
   * the loop first decides whether an exception leaves it. While it runs, the attempt counter is the failures since
   * the last successful read.
   */
  lemma {:induction false} LoopSurvivesExactly(f: Feed, server: Server, names: seq<string>, count: nat,
      polls: seq<Poll>)
    ensures var sys := Polled(f, names, count, Begun(server, names), polls);
      && (!sys.stopped <==> RunsUntil(polls, |polls|))
      && (sys.crashed <==>
            exists i :: 0 <= i < |polls| && CrashesLoop(polls[i].outcome) && RunsUntil(polls, i))
      && (sys.stopped || sys.attempt == TrailingFailures(polls))
      && (sys.crashed ==> sys.stopped)
  {
    hide Turned, AddedAll, GroupsEnsured;
    if polls != [] {
      var n := |polls| - 1;
      LoopSurvivesExactly(f, server, names, count, polls[..n]);
      assert forall i :: 0 <= i < n ==> polls[..n][i] == polls[i];
      var before := Polled(f, names, count, Begun(server, names), polls[..n]);
      var sys := before.(server := AddedAll(before.server, polls[n].arrivals));
      TurnEnds(f, names, count, sys, polls[n].outcome);
    }
  }

  lemma TurnEnds(f: Feed, names: seq<string>, count: nat, sys: System, outcome: Outcome)
    ensures var s := Turned(f, names, count, sys, outcome);
      if sys.stopped then s == sys
      else
        && s.stopped == EndsLoop(outcome)
        && (!sys.crashed ==> s.crashed == CrashesLoop(outcome) && (s.crashed ==> s.stopped))
        && (!s.stopped ==> s.attempt == if outcome.Answered? then 0 else sys.attempt + 1)
  {
    if outcome.Answered? {
      var r := ServedPicks(sys.server, Members(names), count, outcome.picks, true);
      ConsumingKeepsLoop(f, sys.(server := r.server, attempt := 0), r.batches);
    }
  }

  /** A failed read, and nothing else, adds a wait: the backoff of the failures before it since the last success. */
  lemma WaitsAreBackoffs(f: Feed, server: Server, names: seq<string>, count: nat, polls: seq<Poll>, p: Poll)
    ensures var before := Polled(f, names, count, Begun(server, names), polls);
      Polled(f, names, count, Begun(server, names), polls + [p]).waits ==
        if before.stopped || !(p.outcome.Refused? || p.outcome.ReplyLost?) then before.waits
        else before.waits + [BackoffSeconds(TrailingFailures(polls))]
  {
    PolledOneMore(f, names, count, Begun(server, names), polls, p);
    LoopSurvivesExactly(f, server, names, count, polls);
    var before := Polled(f, names, count, Begun(server, names), polls);
    if p.outcome.Answered? {
      var sys := before.(server := AddedAll(before.server, p.arrivals));
      var r := ServedPicks(sys.server, Members(names), count, p.outcome.picks, true);
      ConsumingKeepsLoop(f, sys.(server := r.server, attempt := 0), r.batches);
    }
  }

  // ----- Accounting over whole runs -----

  /** The entries whose flag has the given value, in order. */
  function Select(entries: seq<Entry>, flags: seq<bool>, value: bool): seq<Entry>
    requires |entries| == |flags|
  {
    if entries == [] then []
    else
      var n := |entries| - 1;
      Select(entries[..n], flags[..n], value) + if flags[n] == value then [entries[n]] else []
  }

  lemma {:induction false} SelectMore(entries: seq<Entry>, flags: seq<bool>, more: seq<Entry>, flag: bool, value: bool)
    requires |entries| == |flags|
    ensures Select(entries + more, flags + seq(|more|, i => flag), value) ==
      if flag == value then Select(entries, flags, value) + more else Select(entries, flags, value)
  {
    if more == [] {
      assert entries + more == entries && flags + seq(|more|, i => flag) == flags;
    } else {
      var n, e, b := |more| - 1, entries + more, flags + seq(|more|, i => flag);
      SelectMore(entries, flags, more[..n], flag, value);
      assert e[..|e| - 1] == entries + more[..n];
      assert b[..|b| - 1] == flags + seq(n, i => flag);
    }
  }

  lemma {:induction false} SelectIsPart(entries: seq<Entry>, flags: seq<bool>, value: bool)
    requires |entries| == |flags|
    ensures forall e :: e in Select(entries, flags, value) ==> e in entries
  {
    if entries != [] {
      SelectIsPart(entries[..|entries| - 1], flags[..|flags| - 1], value);
    }
  }

  ghost predicate Settable(s: Stream) {
    Ordered(s.log) && s.group.Some? && Next(s) <= |s.log|
  }

  /** The entries the group has handed out. */
  function HandedSoFar(s: Stream): seq<Entry>
    requires s.group.Some? && Next(s) <= |s.log|
  {
    s.log[s.group.value..Next(s)]
  }

  /**
   * The books of one stream balance: what was handed out in replies that arrived was processed and acknowledged,
   * entry by entry and in order; what is pending is exactly what was pending before and what lost replies handed out.
   */
  ghost predicate Balanced(f: Feed, sys: System, name: string, older: set<StreamId>) {
    BalancedStream(f, At(sys.server, name), OnStream(sys.steps, name), name, older)
  }

  ghost predicate BalancedStream(f: Feed, s: Stream, steps: seq<Step>, name: string, older: set<StreamId>) {
    && Settable(s)
    && steps == Steps(f, name, Select(HandedSoFar(s), s.reached, true), true)
    && s.pending == older + Ids(Select(HandedSoFar(s), s.reached, false))
    && older <= Ids(s.log[..s.group.value])
  }

  lemma AddedKeepsBalanced(f: Feed, sys: System, a: Arrival, name: string, older: set<StreamId>)
    requires Balanced(f, sys, name, older)
    ensures Balanced(f, sys.(server := Added(sys.server, a)), name, older)
  {
    var s := At(sys.server, name);
    if At(Added(sys.server, a), name) != s {
      LaterEntryKeepsOrder(s.log, a.entry);
      LongerLogKeepsBalanced(f, s, OnStream(sys.steps, name), name, a.entry, older);
    }
  }

  lemma LongerLogKeepsBalanced(f: Feed, s: Stream, steps: seq<Step>, name: string, e: Entry, older: set<StreamId>)
    requires BalancedStream(f, s, steps, name, older) && Ordered(s.log + [e])
    ensures BalancedStream(f, s.(log := s.log + [e]), steps, name, older)
  {
    assert HandedSoFar(s.(log := s.log + [e])) == HandedSoFar(s);
    assert (s.log + [e])[..s.group.value] == s.log[..s.group.value];
  }

  lemma LaterEntryKeepsOrder(log: seq<Entry>, e: Entry)
    requires Ordered(log) && (log == [] || Before(log[|log| - 1].id, e.id))
    ensures Ordered(log + [e])
  {
    assert forall i :: 0 <= i < |log| - 1 ==> Before(log[i].id, log[|log| - 1].id);
  }

  lemma {:induction false} ArrivalsKeepBalanced(f: Feed, sys: System, arrivals: seq<Arrival>, name: string,
      older: set<StreamId>)
    requires Balanced(f, sys, name, older)
    ensures Balanced(f, sys.(server := AddedAll(sys.server, arrivals)), name, older)
  {
    if arrivals != [] {
      var n := |arrivals| - 1;
      ArrivalsKeepBalanced(f, sys, arrivals[..n], name, older);
      AddedKeepsBalanced(f, sys.(server := AddedAll(sys.server, arrivals[..n])), arrivals[n], name, older);
    }
  }

  lemma {:induction false} EnsuringLeavesGroups(server: Server, names: seq<string>, name: string)
    requires At(server, name).group.Some?
    ensures At(GroupsEnsured(server, names), name) == At(server, name)
  {
    if names != [] {
      EnsuringLeavesGroups(server, names[..|names| - 1], name);
    }
  }

  function OwnEntries(batches: seq<Batch>, name: string): seq<Entry> {
    if batches == [] then []
    else
      var last := batches[|batches| - 1];
      OwnEntries(batches[..|batches| - 1], name) + if last.stream == name then last.entries else []
  }

  /** The next `entries` of a stream are handed out and are the stream's share of the reply. */
  ghost predicate Shared(before: Stream, r: Served, name: string, reached: bool, entries: seq<Entry>)
    requires Settable(before)
  {
    && Next(before) + |entries| <= |before.log|
    && entries == before.log[Next(before)..Next(before) + |entries|]
    && At(r.server, name) == HandedOut(before, entries, reached)
    && OwnEntries(r.batches, name) == entries
    && (Covers(r.batches, name) <==> entries != [])
  }

  lemma PickShared(before: Stream, r: Served, names: set<string>, count: nat, pick: Pick, reached: bool, name: string,
      entries: seq<Entry>)
    returns (shared: seq<Entry>)
    requires Settable(before) && Shared(before, r, name, reached, entries)
    ensures Shared(before, ServedPick(r, names, count, pick, reached), name, reached, shared)
    ensures |shared| == if entries != [] || pick.stream != name || name !in names then |entries|
      else Min(Min(pick.limit, count), |before.log| - Next(before))
  {
    shared := entries;
    var r' := ServedPick(r, names, count, pick, reached);
    if r' != r {
      var b := r'.batches[|r.batches|];
      assert r'.batches[..|r'.batches| - 1] == r.batches;
      if pick.stream == name {
        assert At(r.server, name) == before by {
          assert before.reached + seq(|entries|, i => reached) == before.reached;
          assert before.pending + Ids(entries) == before.pending;
        }
        shared := b.entries;
      }
    }
  }

  lemma {:induction false} PicksShared(server: Server, names: set<string>, count: nat, picks: seq<Pick>, reached: bool,
      name: string)
    returns (entries: seq<Entry>)
    requires Settable(At(server, name))
    ensures Shared(At(server, name), ServedPicks(server, names, count, picks, reached), name, reached, entries)
    ensures name in names ==>
      |entries| == Offered(picks, name, count, |At(server, name).log| - Next(At(server, name)))
  {
    if picks == [] {
      entries := [];
      var s := At(server, name);
      assert s.reached + seq(0, i => reached) == s.reached && s.pending + Ids([]) == s.pending;
    } else {
      var n := |picks| - 1;
      entries := PicksShared(server, names, count, picks[..n], reached, name);
      entries := PickShared(At(server, name), ServedPicks(server, names, count, picks[..n], reached), names, count,
          picks[n], reached, name, entries);
    }
  }

  lemma IdsConcat(a: seq<Entry>, b: seq<Entry>, ids: set<StreamId>)
    ensures Ids(a + b) == Ids(a) + Ids(b)
    ensures ids - Ids(a) - Ids(b) == ids - Ids(a + b)
  {
  }

  /** Consuming one stream's entries shows on that stream only. */
  lemma {:induction false} EntriesOnStream(f: Feed, sys: System, own: string, entries: seq<Entry>, name: string)
    ensures var sys' := ConsumedEntries(f, sys, own, entries);
      && sys'.steps == sys.steps + Steps(f, own, entries, true)
      && At(sys'.server, name) ==
         (var s := At(sys.server, name); if own == name then s.(pending := s.pending - Ids(entries)) else s)
  {
    if entries == [] {
      assert At(sys.server, name).pending - Ids(entries) == At(sys.server, name).pending;
    } else {
      var n := |entries| - 1;
      EntriesOnStream(f, sys, own, entries[..n], name);
      assert entries == entries[..n] + [entries[n]];
      IdsConcat(entries[..n], [entries[n]], At(sys.server, name).pending);
      assert Ids([entries[n]]) == {entries[n].id};
    }
  }

  /** From sys to sys' the given entries of one stream were processed and acknowledged. */
  ghost predicate Processed(f: Feed, sys: System, sys': System, name: string, entries: seq<Entry>) {
    && OnStream(sys'.steps, name) == OnStream(sys.steps, name) + Steps(f, name, entries, true)
    && At(sys'.server, name) == At(sys.server, name).(pending := At(sys.server, name).pending - Ids(entries))
  }

  lemma BatchProcessed(f: Feed, sys: System, b: Batch, name: string)
    ensures Processed(f, sys, ConsumedEntries(f, sys, b.stream, b.entries), name,
        if b.stream == name then b.entries else [])
  {
    EntriesOnStream(f, sys, b.stream, b.entries, name);
    OnStreamAppend(f, sys.steps, b.stream, b.entries, true, name);
    assert At(sys.server, name).pending - Ids([]) == At(sys.server, name).pending;
  }

  lemma ProcessedInTurn(f: Feed, a: System, b: System, c: System, name: string, first: seq<Entry>, second: seq<Entry>)
    requires Processed(f, a, b, name, first) && Processed(f, b, c, name, second)
    ensures Processed(f, a, c, name, first + second)
  {
    StepsConcat(f, name, first, second, true);
    IdsConcat(first, second, At(a.server, name).pending);
  }

  lemma {:induction false} BatchesProcessed(f: Feed, sys: System, batches: seq<Batch>, name: string)
    ensures Processed(f, sys, ConsumedAll(f, sys, batches), name, OwnEntries(batches, name))
  {
    if batches == [] {
      assert At(sys.server, name).pending - Ids([]) == At(sys.server, name).pending;
    } else {
      var n, last := |batches| - 1, batches[|batches| - 1];
      var mid := ConsumedAll(f, sys, batches[..n]);
      BatchesProcessed(f, sys, batches[..n], name);
      BatchProcessed(f, mid, last, name);
      ProcessedInTurn(f, sys, mid, ConsumedEntries(f, mid, last.stream, last.entries), name,
                      OwnEntries(batches[..n], name), if last.stream == name then last.entries else []);
    }
  }

  lemma SharingExtends(s: Stream, entries: seq<Entry>, reached: bool)
    requires Settable(s) && Next(s) + |entries| <= |s.log| && entries == s.log[Next(s)..Next(s) + |entries|]
    ensures var s' := HandedOut(s, entries, reached);
      && Settable(s')
      && Select(HandedSoFar(s'), s'.reached, reached) == Select(HandedSoFar(s), s.reached, reached) + entries
      && Select(HandedSoFar(s'), s'.reached, !reached) == Select(HandedSoFar(s), s.reached, !reached)
  {
    var s' := HandedOut(s, entries, reached);
    assert HandedSoFar(s') == HandedSoFar(s) + entries;
    SelectMore(HandedSoFar(s), s.reached, entries, reached, reached);
    SelectMore(HandedSoFar(s), s.reached, entries, reached, !reached);
  }

  lemma LostEntriesStayPending(f: Feed, s: Stream, steps: seq<Step>, name: string, entries: seq<Entry>,
      older: set<StreamId>)
    requires BalancedStream(f, s, steps, name, older)
    requires Next(s) + |entries| <= |s.log| && entries == s.log[Next(s)..Next(s) + |entries|]
    ensures BalancedStream(f, HandedOut(s, entries, false), steps, name, older)
  {
    SharingExtends(s, entries, false);
    var lost := Select(HandedSoFar(s), s.reached, false);
    assert Ids(lost + entries) == Ids(lost) + Ids(entries);
    assert older + (Ids(lost) + Ids(entries)) == older + Ids(lost) + Ids(entries);
  }

  /** Only the pending set of a stream changes; the rest of the balance carries over. */
  lemma PendingAside(f: Feed, s: Stream, pending: set<StreamId>, steps: seq<Step>, name: string, older: set<StreamId>)
    requires Settable(s)
    requires steps == Steps(f, name, Select(HandedSoFar(s), s.reached, true), true)
    requires pending == older + Ids(Select(HandedSoFar(s), s.reached, false)) && older <= Ids(s.log[..s.group.value])
    ensures BalancedStream(f, s.(pending := pending), steps, name, older)
  {
  }

  /** Later ids of an ordered log are new. */
  lemma IdsApart(log: seq<Entry>, m: nat, n: nat)
    requires Ordered(log) && m <= n <= |log|
    ensures forall id :: id in Ids(log[..m]) ==> id !in Ids(log[m..n])
  {
    forall e, l | e in log[m..n] && l in log[..m] ensures e.id != l.id {
      var i :| 0 <= i < n - m && log[m..n][i] == e;
      var j :| 0 <= j < m && log[..m][j] == l;
      assert log[m + i] == e && log[j] == l;
    }
  }

  lemma PendingApart(s: Stream, entries: seq<Entry>, older: set<StreamId>)
    requires Settable(s) && older <= Ids(s.log[..s.group.value])
    requires s.pending == older + Ids(Select(HandedSoFar(s), s.reached, false))
    requires Next(s) + |entries| <= |s.log| && entries == s.log[Next(s)..Next(s) + |entries|]
    ensures s.pending * Ids(entries) == {}
  {
    SelectIsPart(HandedSoFar(s), s.reached, false);
    IdsApart(s.log, Next(s), Next(s) + |entries|);
    assert s.log[..Next(s)] == s.log[..s.group.value] + HandedSoFar(s);
    assert s.pending <= Ids(s.log[..Next(s)]);
  }

  lemma ReceivedSteps(f: Feed, s: Stream, name: string, entries: seq<Entry>)
    requires Settable(s) && Next(s) + |entries| <= |s.log| && entries == s.log[Next(s)..Next(s) + |entries|]
    ensures var s' := HandedOut(s, entries, true);
      && Settable(s')
      && Steps(f, name, Select(HandedSoFar(s), s.reached, true), true) + Steps(f, name, entries, true)
         == Steps(f, name, Select(HandedSoFar(s'), s'.reached, true), true)
      && Select(HandedSoFar(s'), s'.reached, false) == Select(HandedSoFar(s), s.reached, false)
  {
    SharingExtends(s, entries, true);
    StepsConcat(f, name, Select(HandedSoFar(s), s.reached, true), entries, true);
  }

  lemma ReceivedEntriesSettle(f: Feed, s: Stream, steps: seq<Step>, name: string, entries: seq<Entry>,
      older: set<StreamId>)
    requires BalancedStream(f, s, steps, name, older)
    requires Next(s) + |entries| <= |s.log| && entries == s.log[Next(s)..Next(s) + |entries|]
    ensures var s' := HandedOut(s, entries, true);
      BalancedStream(f, s'.(pending := s'.pending - Ids(entries)), steps + Steps(f, name, entries, true), name, older)
  {
    var s' := HandedOut(s, entries, true);
    ReceivedSteps(f, s, name, entries);
    PendingApart(s, entries, older);
    AddedThenRemoved(s.pending, Ids(entries));
    PendingAside(f, s', s.pending, steps + Steps(f, name, entries, true), name, older);
  }

  lemma AddedThenRemoved<T>(a: set<T>, b: set<T>)
    requires a * b == {}
    ensures a + b - b == a
  {
    assert forall x :: x in b ==> x !in a by {
      assert forall x :: x in b && x in a ==> x in a * b;
    }
  }

  lemma LostReplyKeepsBalanced(f: Feed, names: seq<string>, count: nat, sys: System, picks: seq<Pick>, name: string,
      older: set<StreamId>)
    requires Balanced(f, sys, name, older)
    ensures var r := ServedPicks(sys.server, Members(names), count, picks, false);
      Balanced(f, sys.(server := r.server), name, older)
  {
    hide ServedPicks, StreamEntries.OnStream, StreamEntries.Steps;
    var entries := PicksShared(sys.server, Members(names), count, picks, false, name);
    LostEntriesStayPending(f, At(sys.server, name), OnStream(sys.steps, name), name, entries, older);
    assert At(ServedPicks(sys.server, Members(names), count, picks, false).server, name)
      == HandedOut(At(sys.server, name), entries, false);
  }

  lemma ReplyKeepsBalanced(f: Feed, names: seq<string>, count: nat, sys: System, picks: seq<Pick>, name: string,
      older: set<StreamId>)
    requires Balanced(f, sys, name, older)
    ensures var r := ServedPicks(sys.server, Members(names), count, picks, true);
      Balanced(f, ConsumedAll(f, sys.(server := r.server, attempt := 0), r.batches), name, older)
  {
    hide ServedPicks, ConsumedAll, StreamEntries.OnStream, StreamEntries.Steps;
    var r := ServedPicks(sys.server, Members(names), count, picks, true);
    var entries := PicksShared(sys.server, Members(names), count, picks, true, name);
    BatchesProcessed(f, sys.(server := r.server, attempt := 0), r.batches, name);
    ReceivedEntriesSettle(f, At(sys.server, name), OnStream(sys.steps, name), name, entries, older);
  }

  lemma TurnKeepsBalanced(f: Feed, names: seq<string>, count: nat, sys: System, outcome: Outcome, name: string,
      older: set<StreamId>)
    requires Balanced(f, sys, name, older)
    ensures Balanced(f, Turned(f, names, count, sys, outcome), name, older)
  {
    match outcome
    case StopSeen =>
    case Refused(reconnect) =>
      EnsuringLeavesGroups(sys.server, Reached(names, reconnect), name);
    case ReplyLost(picks, reconnect) =>
      LostReplyKeepsBalanced(f, names, count, sys, picks, name, older);
      EnsuringLeavesGroups(
        ServedPicks(sys.server, Members(names), count, picks, false).server, Reached(names, reconnect), name);
    case Answered(picks) =>
      ReplyKeepsBalanced(f, names, count, sys, picks, name, older);
  }

  /**
   * A stream the consumer can start on: its group does not exist, or it exists and entries handed out before may still
   * be pending.
   */
  ghost predicate Resumable(s: Stream) {
    && Ordered(s.log) && s.reached == []
    && match s.group
       case None => s.pending == {}
       case Some(at) => at <= |s.log| && s.pending <= Ids(s.log[..at])
  }

  lemma {:induction false} EnsuringCreatesGroup(server: Server, names: seq<string>, name: string)
    requires name in names
    ensures At(GroupsEnsured(server, names), name) ==
      var s := At(server, name); if s.group.Some? then s else s.(group := Some(|s.log|))
  {
    var n := |names| - 1;
    if name in names[..n] {
      EnsuringCreatesGroup(server, names[..n], name);
    } else {
      assert names[n] == name;
      EnsuringSkips(server, names[..n], name);
    }
  }

  lemma {:induction false} EnsuringSkips(server: Server, names: seq<string>, name: string)
    requires name !in names
    ensures At(GroupsEnsured(server, names), name) == At(server, name)
  {
    if names != [] {
      EnsuringSkips(server, names[..|names| - 1], name);
    }
  }

  /**
   * For every run: on each stream the steps are those of the entries whose replies arrived, each entry's fields first
   * and then its one acknowledgement, and the server's pending entries are exactly the older ones and those of the
   * lost replies.
   */
  lemma {:induction false} EveryRunBalances(f: Feed, server: Server, names: seq<string>, count: nat, polls: seq<Poll>,
      name: string)
    requires name in names && Resumable(At(server, name))
    ensures Balanced(f, Polled(f, names, count, Begun(server, names), polls), name, At(server, name).pending)
  {
    if polls == [] {
      EnsuringCreatesGroup(server, names, name);
      var s := At(GroupsEnsured(server, names), name);
      assert HandedSoFar(s) == [];
    } else {
      var n := |polls| - 1;
      EveryRunBalances(f, server, names, count, polls[..n], name);
      var sys := Polled(f, names, count, Begun(server, names), polls[..n]);
      ArrivalsKeepBalanced(f, sys, polls[n].arrivals, name, At(server, name).pending);
      TurnKeepsBalanced(f, names, count, sys.(server := AddedAll(sys.server, polls[n].arrivals)), polls[n].outcome,
          name, At(server, name).pending);
    }
  }

  lemma {:induction false} NoAckAmongFields(f: Feed, stream: string, id: StreamId, fields: seq<(string, string)>,
      ack: Step)
    requires ack.Acked?
    ensures multiset(FieldSteps(f, stream, id, fields))[ack] == 0
  {
    if fields != [] {
      NoAckAmongFields(f, stream, id, fields[..|fields| - 1], ack);
    }
  }

  lemma CountInThree(a: seq<Step>, b: seq<Step>, c: seq<Step>, x: Step)
    ensures multiset(a + b + c)[x] == multiset(a)[x] + multiset(b)[x] + multiset(c)[x]
  {
  }

  /** Each entry of an ordered batch is acknowledged once, and nothing else is. */
  lemma {:induction false} OneAckEach(f: Feed, stream: string, entries: seq<Entry>, id: StreamId)
    requires Ordered(entries)
    ensures multiset(Steps(f, stream, entries, true))[Acked(stream, id)] == if id in Ids(entries) then 1 else 0
  {
    if entries != [] {
      var front, e, ack := entries[..|entries| - 1], entries[|entries| - 1], Acked(stream, id);
      OneAckEach(f, stream, front, id);
      NoAckAmongFields(f, stream, e.id, e.fields.GetOr([]), ack);
      CountInThree(Steps(f, stream, front, true), EntrySteps(f, stream, e), [Acked(stream, e.id)], ack);
      LastIdIsNew(entries);
    }
  }

  lemma LastIdIsNew(entries: seq<Entry>)
    requires entries != [] && Ordered(entries)
    ensures var front, e := entries[..|entries| - 1], entries[|entries| - 1];
      Ids(entries) == Ids(front) + {e.id} && e.id !in Ids(front)
  {
    assert entries == entries[..|entries| - 1] + [entries[|entries| - 1]];
  }

  lemma {:induction false} SelectKeepsOrder(entries: seq<Entry>, flags: seq<bool>, value: bool)
    requires |entries| == |flags| && Ordered(entries)
    ensures Ordered(Select(entries, flags, value))
  {
    if entries != [] {
      var n := |entries| - 1;
      SelectKeepsOrder(entries[..n], flags[..n], value);
      SelectIsPart(entries[..n], flags[..n], value);
      assert forall e :: e in entries[..n] ==> Before(e.id, entries[n].id);
    }
  }

  lemma {:induction false} SelectedOrNot(entries: seq<Entry>, flags: seq<bool>, i: nat, value: bool)
    requires |entries| == |flags| && Ordered(entries) && i < |entries|
    ensures entries[i].id in Ids(Select(entries, flags, value)) <==> flags[i] == value
  {
    var n := |entries| - 1;
    var front := Select(entries[..n], flags[..n], value);
    SelectIsPart(entries[..n], flags[..n], value);
    var all := Select(entries, flags, value);
    assert all == front + if flags[n] == value then [entries[n]] else [];
    assert forall e :: e in all <==> e in front || (flags[n] == value && e == entries[n]);
    if i < n {
      SelectedOrNot(entries[..n], flags[..n], i, value);
      assert Before(entries[i].id, entries[n].id);
      if e :| e in front && e.id == entries[i].id { assert e in all; }
      if e :| e in all && e.id == entries[i].id { assert e in front; }
    } else {
      assert forall e :: e in entries[..n] ==> Before(e.id, entries[n].id);
      if flags[n] == value { assert entries[n] in all; }
    }
  }

  /** What the group hands out to this consumer was not handed out before. */
  lemma HandedIsNotOlder(s: Stream, i: nat, older: set<StreamId>)
    requires Settable(s) && i < |HandedSoFar(s)| && older <= Ids(s.log[..s.group.value])
    ensures HandedSoFar(s)[i].id !in older
  {
    IdsApart(s.log, s.group.value, Next(s));
    assert HandedSoFar(s)[i] in HandedSoFar(s);
    assert HandedSoFar(s)[i].id in Ids(HandedSoFar(s));
  }

  lemma SettledOrPending(f: Feed, s: Stream, steps: seq<Step>, name: string, older: set<StreamId>, i: nat)
    requires BalancedStream(f, s, steps, name, older) && i < |s.reached|
    ensures var id := HandedSoFar(s)[i].id;
      && multiset(steps)[Acked(name, id)] == (if s.reached[i] then 1 else 0)
      && (id in s.pending <==> !s.reached[i])
  {
    var handed := HandedSoFar(s);
    assert forall k :: 0 <= k < |handed| ==> handed[k] == s.log[s.group.value + k];
    HandedIsNotOlder(s, i, older);
    SelectKeepsOrder(handed, s.reached, true);
    OneAckEach(f, name, Select(handed, s.reached, true), handed[i].id);
    SelectedOrNot(handed, s.reached, i, true);
    SelectedOrNot(handed, s.reached, i, false);
  }

  /**
   * Every entry handed out is acknowledged exactly once if its reply arrived; otherwise never, and it stays pending.
   */
  lemma AckedOnceOrPending(f: Feed, server: Server, names: seq<string>, count: nat, polls: seq<Poll>, name: string,
      i: nat)
    requires name in names && Resumable(At(server, name))
    requires var s := At(Polled(f, names, count, Begun(server, names), polls).server, name);
      i < |s.reached|
    ensures var sys := Polled(f, names, count, Begun(server, names), polls);
      var s := At(sys.server, name);
      && Settable(s)
      && var id := HandedSoFar(s)[i].id;
         && multiset(OnStream(sys.steps, name))[Acked(name, id)] == (if s.reached[i] then 1 else 0)
         && (id in s.pending <==> !s.reached[i])
  {
    EveryRunBalances(f, server, names, count, polls, name);
    var sys := Polled(f, names, count, Begun(server, names), polls);
    SettledOrPending(f, At(sys.server, name), OnStream(sys.steps, name), name, At(server, name).pending, i);
  }

  /**
   * A successful read makes progress: of a stream exactly as many of the entries not handed out yet are handed out and
   * reach the worker as the server offers, up to the count that is asked for and to what is there.
   */
  lemma AnsweredTurnHandsOut(f: Feed, names: seq<string>, count: nat, sys: System, picks: seq<Pick>, name: string,
      k: nat)
    requires Settable(At(sys.server, name)) && name in names && !sys.stopped
    requires k < |picks| && picks[k].stream == name && picks[k].limit > 0 && count > 0
    requires forall i :: 0 <= i < k ==> picks[i].stream != name
    ensures var s := At(sys.server, name);
      At(Turned(f, names, count, sys, Answered(picks)).server, name).reached
        == s.reached + seq(Min(Min(picks[k].limit, count), |s.log| - Next(s)), _ => true)
  {
    hide ServedPicks, ConsumedAll, StreamEntries.Steps, StreamEntries.OnStream;
    var s := At(sys.server, name);
    var r := ServedPicks(sys.server, Members(names), count, picks, true);
    var entries := PicksShared(sys.server, Members(names), count, picks, true, name);
    BatchesProcessed(f, sys.(server := r.server, attempt := 0), r.batches, name);
    if |s.log| > Next(s) {
      FirstPickDecides(picks, name, count, |s.log| - Next(s), k);
    }
    assert |entries| == Min(Min(picks[k].limit, count), |s.log| - Next(s));
    assert seq(|entries|, i => true) == seq(|entries|, _ => true);
  }

  // ----- After a lost reply -----

  /** How a stream can change during a run once its group exists. */
  predicate GrowsTo(s: Stream, s': Stream) {
    s.group == s'.group && s.log <= s'.log && s.reached <= s'.reached
  }

  lemma {:induction false} ArrivalsGrow(server: Server, arrivals: seq<Arrival>, name: string)
    ensures GrowsTo(At(server, name), At(AddedAll(server, arrivals), name))
  {
    if arrivals != [] {
      ArrivalsGrow(server, arrivals[..|arrivals| - 1], name);
    }
  }

  lemma TurnGrows(f: Feed, names: seq<string>, count: nat, sys: System, outcome: Outcome, name: string)
    requires Settable(At(sys.server, name))
    ensures GrowsTo(At(sys.server, name), At(Turned(f, names, count, sys, outcome).server, name))
  {
    match outcome
    case StopSeen =>
    case Refused(reconnect) =>
      EnsuringLeavesGroups(sys.server, Reached(names, reconnect), name);
    case ReplyLost(picks, reconnect) =>
      var entries := PicksShared(sys.server, Members(names), count, picks, false, name);
      EnsuringLeavesGroups(
        ServedPicks(sys.server, Members(names), count, picks, false).server, Reached(names, reconnect), name);
    case Answered(picks) =>
      var r := ServedPicks(sys.server, Members(names), count, picks, true);
      var entries := PicksShared(sys.server, Members(names), count, picks, true, name);
      BatchesProcessed(f, sys.(server := r.server, attempt := 0), r.batches, name);
  }

  lemma GrowsOn(a: Stream, b: Stream, c: Stream)
    requires GrowsTo(a, b) && GrowsTo(b, c)
    ensures GrowsTo(a, c)
  {
  }

  lemma PollGrows(f: Feed, names: seq<string>, count: nat, sys: System, poll: Poll, name: string, older: set<StreamId>)
    requires Balanced(f, sys, name, older)
    ensures GrowsTo(At(sys.server, name), At(AfterPoll(f, names, count, sys, poll).server, name))
  {
    var server := AddedAll(sys.server, poll.arrivals);
    ArrivalsGrow(sys.server, poll.arrivals, name);
    ArrivalsKeepBalanced(f, sys, poll.arrivals, name, older);
    TurnGrows(f, names, count, sys.(server := server), poll.outcome, name);
    GrowsOn(At(sys.server, name), At(server, name), At(AfterPoll(f, names, count, sys, poll).server, name));
  }

  lemma PolledOneMore(f: Feed, names: seq<string>, count: nat, sys: System, polls: seq<Poll>, poll: Poll)
    ensures Polled(f, names, count, sys, polls + [poll])
         == AfterPoll(f, names, count, Polled(f, names, count, sys, polls), poll)
  {
    assert (polls + [poll])[..|polls|] == polls;
  }

  lemma {:induction false} RunGrows(f: Feed, server: Server, names: seq<string>, count: nat, polls: seq<Poll>,
      more: seq<Poll>, name: string)
    requires name in names && Resumable(At(server, name))
    ensures GrowsTo(At(Polled(f, names, count, Begun(server, names), polls).server, name),
                    At(Polled(f, names, count, Begun(server, names), polls + more).server, name))
  {
    var begun := Begun(server, names);
    if more == [] {
      assert polls + more == polls;
    } else {
      var n := |more| - 1;
      assert polls + more == polls + more[..n] + [more[n]];
      RunGrows(f, server, names, count, polls, more[..n], name);
      EveryRunBalances(f, server, names, count, polls + more[..n], name);
      var sys := Polled(f, names, count, begun, polls + more[..n]);
      PollGrows(f, names, count, sys, more[n], name, At(server, name).pending);
      PolledOneMore(f, names, count, begun, polls + more[..n], more[n]);
      GrowsOn(At(Polled(f, names, count, begun, polls).server, name), At(sys.server, name),
              At(AfterPoll(f, names, count, sys, more[n]).server, name));
    }
  }

  lemma {:induction false} StepIds(f: Feed, stream: string, entries: seq<Entry>)
    ensures forall step :: step in Steps(f, stream, entries, true) ==> step.id in Ids(entries)
  {
    if entries != [] {
      var n := |entries| - 1;
      StepIds(f, stream, entries[..n]);
      FieldStepIds(f, stream, entries[n].id, entries[n].fields.GetOr([]));
      assert entries == entries[..n] + [entries[n]];
    }
  }

  lemma LostStaysLost(f: Feed, s: Stream, s': Stream, steps: seq<Step>, name: string, older: set<StreamId>, i: nat)
    requires Settable(s) && BalancedStream(f, s', steps, name, older) && GrowsTo(s, s')
    requires i < |s.reached| && !s.reached[i]
    ensures HandedSoFar(s)[i].id in s'.pending
    ensures forall step :: step in steps ==> step.id != HandedSoFar(s)[i].id
  {
    var handed := HandedSoFar(s');
    assert handed[i] == s'.log[s'.group.value + i] == HandedSoFar(s)[i];
    assert forall k :: 0 <= k < |handed| ==> handed[k] == s'.log[s'.group.value + k];
    SelectedOrNot(handed, s'.reached, i, true);
    SelectedOrNot(handed, s'.reached, i, false);
    StepIds(f, name, Select(handed, s'.reached, true));
  }

  /** An entry whose reply was lost stays pending, and whatever happens later, no field of it is ever looked at. */
  lemma LostIsNeverAskedFor(f: Feed, server: Server, names: seq<string>, count: nat, polls: seq<Poll>,
      more: seq<Poll>, name: string, i: nat)
    requires name in names && Resumable(At(server, name))
    requires var s := At(Polled(f, names, count, Begun(server, names), polls).server, name);
      i < |s.reached| && !s.reached[i]
    ensures var s := At(Polled(f, names, count, Begun(server, names), polls).server, name);
      var sys := Polled(f, names, count, Begun(server, names), polls + more);
      && Settable(s)
      && HandedSoFar(s)[i].id in At(sys.server, name).pending
      && forall step :: step in OnStream(sys.steps, name) ==> step.id != HandedSoFar(s)[i].id
  {
    EveryRunBalances(f, server, names, count, polls, name);
    EveryRunBalances(f, server, names, count, polls + more, name);
    RunGrows(f, server, names, count, polls, more, name);
    var s := At(Polled(f, names, count, Begun(server, names), polls).server, name);
    var sys := Polled(f, names, count, Begun(server, names), polls + more);
    LostStaysLost(f, s, At(sys.server, name), OnStream(sys.steps, name), name, At(server, name).pending, i);
  }

  /** The stream and the group created for it, one entry on it, and that entry handed out. */
  lemma FirstEntryHandedOut(name: string, e: Entry, count: nat)
    requires count >= 1
    ensures var server := AddedAll(GroupsEnsured(map[], [name]), [Arrival(name, e)]);
      At(ServedPicks(server, Members([name]), count, [Pick(name, 1)], false).server, name) ==
        Stream([e], Some(0), [false], {e.id})
  {
    var arrival, pick := Arrival(name, e), Pick(name, 1);
    var created := GroupEnsured(map[], name);
    assert [name][..0] == [] && GroupsEnsured(map[], []) == map[];
    assert GroupsEnsured(map[], [name]) == created;
    var server := Added(created, arrival);
    assert [arrival][..0] == [] && AddedAll(created, []) == created;
    assert AddedAll(created, [arrival]) == server;
    assert At(server, name) == Stream([e], Some(0), [], {});
    assert Handout(At(server, name), 1) == [e];
    assert [pick][..0] == [] && ServedPicks(server, Members([name]), count, [], false) == Served(server, []);
    assert name in Members([name]) && !Covers([], name);
    var served := ServedPick(Served(server, []), Members([name]), count, pick, false);
    assert ServedPicks(server, Members([name]), count, [pick], false) == served;
    assert At(served.server, name) == HandedOut(At(server, name), [e], false);
    assert [] + seq(1, i => false) == [false] && {} + Ids([e]) == {e.id};
  }

  /** The concrete run: a stream's only entry is handed out in a reply that breaks on the way; then anything follows. */
  lemma LostReplyRun(f: Feed, name: string, e: Entry, count: nat, more: seq<Poll>)
    requires count >= 1
    ensures var lost := Poll([Arrival(name, e)], ReplyLost([Pick(name, 1)], Reconnected));
      var sys := Polled(f, [name], count, Begun(map[], [name]), [lost] + more);
      && e.id in At(sys.server, name).pending
      && forall step :: step in OnStream(sys.steps, name) ==> step.id != e.id
  {
    var lost := Poll([Arrival(name, e)], ReplyLost([Pick(name, 1)], Reconnected));
    var begun := Begun(map[], [name]);
    assert [lost][..0] == [];
    var server := AddedAll(begun.server, lost.arrivals);
    var served := ServedPicks(server, Members([name]), count, [Pick(name, 1)], false).server;
    FirstEntryHandedOut(name, e, count);
    EnsuringLeavesGroups(served, [name], name);
    assert At(Polled(f, [name], count, begun, [lost]).server, name) == Stream([e], Some(0), [false], {e.id});
    LostIsNeverAskedFor(f, map[], [name], count, [lost], more, name, 0);
  }

  // ----- Runs without a lost reply -----

  lemma {:induction false} SelectAll(entries: seq<Entry>, flags: seq<bool>)
    requires |entries| == |flags| && false !in flags
    ensures Select(entries, flags, true) == entries && Select(entries, flags, false) == []
  {
    if entries != [] {
      var n := |entries| - 1;
      SelectAll(entries[..n], flags[..n]);
      assert flags[n] in flags;
    }
  }

  lemma TurnReaches(f: Feed, names: seq<string>, count: nat, sys: System, outcome: Outcome, name: string)
    requires Settable(At(sys.server, name)) && !outcome.ReplyLost?
    requires false !in At(sys.server, name).reached
    ensures false !in At(Turned(f, names, count, sys, outcome).server, name).reached
  {
    match outcome
    case StopSeen =>
    case Refused(reconnect) =>
      EnsuringLeavesGroups(sys.server, Reached(names, reconnect), name);
    case Answered(picks) =>
      var r := ServedPicks(sys.server, Members(names), count, picks, true);
      var entries := PicksShared(sys.server, Members(names), count, picks, true, name);
      BatchesProcessed(f, sys.(server := r.server, attempt := 0), r.batches, name);
  }

  lemma {:induction false} ArrivalsKeepReached(server: Server, arrivals: seq<Arrival>, name: string)
    ensures At(AddedAll(server, arrivals), name).reached == At(server, name).reached
  {
    if arrivals != [] {
      ArrivalsKeepReached(server, arrivals[..|arrivals| - 1], name);
    }
  }

  lemma {:induction false} EveryReplyReaches(f: Feed, server: Server, names: seq<string>, count: nat, polls: seq<Poll>,
      name: string)
    requires name in names && Resumable(At(server, name))
    requires forall p :: p in polls ==> !p.outcome.ReplyLost?
    ensures false !in At(Polled(f, names, count, Begun(server, names), polls).server, name).reached
  {
    if polls == [] {
      EnsuringCreatesGroup(server, names, name);
    } else {
      var n := |polls| - 1;
      EveryReplyReaches(f, server, names, count, polls[..n], name);
      EveryRunBalances(f, server, names, count, polls[..n], name);
      var sys := Polled(f, names, count, Begun(server, names), polls[..n]);
      ArrivalsKeepBalanced(f, sys, polls[n].arrivals, name, At(server, name).pending);
      ArrivalsKeepReached(sys.server, polls[n].arrivals, name);
      TurnReaches(f, names, count, sys.(server := AddedAll(sys.server, polls[n].arrivals)), polls[n].outcome, name);
    }
  }

  /**
   * When no reply is lost, every entry handed out is processed and acknowledged once, in log order; none of
   * them is pending.
   */
  lemma ExactlyOnceWithoutLostReplies(f: Feed, server: Server, names: seq<string>, count: nat, polls: seq<Poll>,
      name: string)
    requires name in names && Resumable(At(server, name))
    requires forall p :: p in polls ==> !p.outcome.ReplyLost?
    ensures var sys := Polled(f, names, count, Begun(server, names), polls);
      var s := At(sys.server, name);
      && Settable(s) && s.pending == At(server, name).pending
      && OnStream(sys.steps, name) == Steps(f, name, HandedSoFar(s), true)
  {
    EveryRunBalances(f, server, names, count, polls, name);
    EveryReplyReaches(f, server, names, count, polls, name);
    var s := At(Polled(f, names, count, Begun(server, names), polls).server, name);
    SelectAll(HandedSoFar(s), s.reached);
  }
}
