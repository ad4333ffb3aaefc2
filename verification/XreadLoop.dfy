/** The position-tracking reader `run_market_data_redis_loop` in XREAD mode. */
module XreadLoop {
  import opened Basics
  import opened Wrappers
  import opened StreamEntries
  import opened FieldProcessing

  // ----- The server -----

  type Log = map<string, seq<Entry>>

  function Entries(log: Log, stream: string): seq<Entry> {
    if stream in log then log[stream] else []
  }

  const ZERO_ID := StreamId(0, 0)

  function LastId(entries: seq<Entry>): StreamId {
    if entries == [] then ZERO_ID else entries[|entries| - 1].id
  }

  /** XADD refuses an id that is not above the last one. */
  function Added(log: Log, a: Arrival): Log {
    var entries := Entries(log, a.stream);
    if Before(LastId(entries), a.entry.id) then log[a.stream := entries + [a.entry]] else log
  }

  function AddedAll(log: Log, arrivals: seq<Arrival>): Log {
    if arrivals == [] then log
    else Added(AddedAll(log, arrivals[..|arrivals| - 1]), arrivals[|arrivals| - 1])
  }

  ghost predicate WellFormed(log: Log) {
    forall s :: s in log ==> Ordered(log[s]) && forall i :: 0 <= i < |log[s]| ==> Before(ZERO_ID, log[s][i].id)
  }

  /** Where a stream is read from: the entries that arrive during the call, or those after an id. */
  datatype Position = Latest | After(id: StreamId)

  /** What a stream can deliver to a call that began with `before` and ends with `now`. */
  function Unread(before: Log, now: Log, stream: string, from: Position): seq<Entry> {
    var entries := Entries(now, stream);
    match from
    case After(id) => entries[Rank(entries, id)..]
    case Latest =>
      var known := |Entries(before, stream)|;
      if known <= |entries| then entries[known..] else []
  }

  function Take(entries: seq<Entry>, n: nat): seq<Entry> {
    if n < |entries| then entries[..n] else entries
  }

  /** One pick adds a batch if its stream is requested, not yet answered and has something to deliver. */
  function Extended(rest: seq<Batch>, before: Log, now: Log, positions: map<string, Position>, count: nat,
      pick: Pick): seq<Batch> {
    if pick.stream !in positions || Covers(rest, pick.stream) then rest
    else
      var entries := Take(Unread(before, now, pick.stream, positions[pick.stream]), Min(pick.limit, count));
      if entries == [] then rest else rest + [Batch(pick.stream, entries)]
  }

  /** The reply: each requested stream at most once, non-empty, at most `count` entries. */
  function Reply(before: Log, now: Log, positions: map<string, Position>, count: nat, picks: seq<Pick>): seq<Batch> {
    if picks == [] then []
    else Extended(Reply(before, now, positions, count, picks[..|picks| - 1]), before, now, positions, count,
        picks[|picks| - 1])
  }

  // ----- The client -----

  datatype Client = Client(
    positions: map<string, Position>,
    attempt: nat,
    waits: seq<nat>,
    steps: seq<Step>,
    stopped: bool)

  datatype System = System(log: Log, client: Client)

  /** The environment's choices for one turn of the loop. */
  datatype Poll = Poll(before: seq<Arrival>, during: seq<Arrival>, outcome: Outcome)

  datatype Outcome =
    | StopSeen
    | ConnectionLost(stopDuringBackoff: bool)
    | Answered(picks: seq<Pick>)

  function Consumed(f: Feed, start: Position, c: Client, b: Batch): Client {
    var current := if b.stream in c.positions then c.positions[b.stream] else start;
    c.(positions := c.positions[b.stream := if b.entries == [] then current else After(LastId(b.entries))],
       steps := c.steps + Steps(f, b.stream, b.entries, false))
  }

  function ConsumedAll(f: Feed, start: Position, c: Client, batches: seq<Batch>): Client {
    if batches == [] then c
    else Consumed(f, start, ConsumedAll(f, start, c, batches[..|batches| - 1]), batches[|batches| - 1])
  }

  /** What the client makes of one turn in which the log grew from `before` to `now`. */
  function Turned(f: Feed, start: Position, count: nat, c: Client, before: Log, now: Log, outcome: Outcome): Client {
    if c.stopped then c
    else
      match outcome
      case StopSeen => c.(stopped := true)
      case ConnectionLost(stop) =>
        var waited := c.(waits := c.waits + [BackoffSeconds(c.attempt)]);
        if stop then waited.(stopped := true) else waited.(attempt := c.attempt + 1)
      case Answered(picks) =>
        ConsumedAll(f, start, c.(attempt := 0), Reply(before, now, c.positions, count, picks))
  }

  function PolledOnce(f: Feed, start: Position, count: nat, sys: System, p: Poll): System {
    var before := AddedAll(sys.log, p.before);
    var now := AddedAll(before, p.during);
    System(now, Turned(f, start, count, sys.client, before, now, p.outcome))
  }

  function Polled(f: Feed, start: Position, count: nat, sys: System, polls: seq<Poll>): System {
    if polls == [] then sys
    else PolledOnce(f, start, count, Polled(f, start, count, sys, polls[..|polls| - 1]), polls[|polls| - 1])
  }

  function Starting(names: seq<string>, start: Position): map<string, Position> {
    map s | s in names :: start
  }

  function Begun(log: Log, names: seq<string>, start: Position): System {
    System(log, Client(Starting(names, start), 0, [], [], false))
  }

  class RedisServer {
    var log: Log

    constructor (log: Log)
      ensures this.log == log
    {
      this.log := log;
    }

    method AddAll(arrivals: seq<Arrival>)
      modifies this
      ensures log == AddedAll(old(log), arrivals)
    {
      for i := 0 to |arrivals|
        invariant log == AddedAll(old(log), arrivals[..i])
      {
        log := Added(log, arrivals[i]);
        assert arrivals[..i + 1][..i] == arrivals[..i];
      }
      assert arrivals[..|arrivals|] == arrivals;
    }

    /** XREAD; None stands for a connection error. */
    method Xread(p: Poll, positions: map<string, Position>, count: nat) returns (resp: Option<seq<Batch>>)
      modifies this
      ensures var before := AddedAll(old(log), p.before);
        && log == AddedAll(before, p.during)
        && resp == if p.outcome.Answered? then Some(Reply(before, log, positions, count, p.outcome.picks)) else None
    {
      AddAll(p.before);
      var before := log;
      AddAll(p.during);
      return if p.outcome.Answered? then Some(Reply(before, log, positions, count, p.outcome.picks)) else None;
    }
  }

  class XreadConsumer {
    const feed: Feed
    const startId: Position
    const count: nat
    const trail: Trail
    var positions: map<string, Position>
    var reconnectAttempt: nat
    var waits: seq<nat>
    var stopped: bool

    /** At least one entry is asked for per read, whatever was configured. */
    constructor (feed: Feed, names: seq<string>, startId: Position, count: int, trail: Trail)
      requires trail.steps == []
      ensures this.feed == feed && this.startId == startId && this.trail == trail
      ensures this.count == if count >= 1 then count else 1
      ensures State() == Begun(map[], names, startId).client
    {
      this.feed, this.startId, this.trail := feed, startId, trail;
      this.count := if count >= 1 then count else 1;
      positions := map s | s in names :: startId;
      reconnectAttempt, waits, stopped := 0, [], false;
    }

    ghost function State(): Client
      reads this, trail
    {
      Client(positions, reconnectAttempt, waits, trail.steps, stopped)
    }

    method ConsumeEntry(stream: string, e: Entry)
      modifies trail
      ensures trail.steps == old(trail.steps) + EntrySteps(feed, stream, e)
    {
      if e.fields.None? {
        return;
      }
      var fields := e.fields.value;
      for k := 0 to |fields|
        invariant trail.steps == old(trail.steps) + FieldSteps(feed, stream, e.id, fields[..k])
      {
        ProcessOneStreamField(feed, stream, e.id, fields[k], trail, null);
        assert fields[..k + 1][..k] == fields[..k];
      }
      assert fields[..|fields|] == fields;
    }

    method ConsumeBatch(b: Batch)
      modifies this, trail
      ensures State() == Consumed(feed, startId, old(State()), b)
    {
      var last := if b.stream in positions then positions[b.stream] else startId;
      for m := 0 to |b.entries|
        invariant unchanged(this)
        invariant m > 0 ==> last == After(b.entries[m - 1].id)
        invariant m == 0 ==> last == if b.stream in positions then positions[b.stream] else startId
        invariant trail.steps == old(trail.steps) + Steps(feed, b.stream, b.entries[..m], false)
      {
        last := After(b.entries[m].id);
        ConsumeEntry(b.stream, b.entries[m]);
        assert b.entries[..m + 1][..m] == b.entries[..m];
      }
      assert b.entries[..|b.entries|] == b.entries;
      positions := positions[b.stream := last];
    }

    method ConsumeReply(batches: seq<Batch>)
      modifies this, trail
      ensures State() == ConsumedAll(feed, startId, old(State()), batches)
    {
      for k := 0 to |batches|
        invariant State() == ConsumedAll(feed, startId, old(State()), batches[..k])
      {
        ConsumeBatch(batches[k]);
        assert batches[..k + 1][..k] == batches[..k];
      }
      assert batches[..|batches|] == batches;
    }

    /** One turn after the look at the stop event. */
    method Turn(server: RedisServer, p: Poll)
      requires !stopped && !p.outcome.StopSeen?
      modifies this, trail, server
      ensures System(server.log, State()) == PolledOnce(feed, startId, count, old(System(server.log, State())), p)
    {
      var resp := server.Xread(p, positions, count);
      if resp.None? {
        waits := waits + [BackoffSeconds(reconnectAttempt)];
        if p.outcome.stopDuringBackoff {
          stopped := true;
        } else {
          reconnectAttempt := reconnectAttempt + 1;
        }
      } else {
        reconnectAttempt := 0;
        ConsumeReply(resp.value);
      }
    }

    /** The reading loop; it ends with the stop event or with the environment's script. */
    method Run(server: RedisServer, polls: seq<Poll>)
      requires !stopped
      modifies this, trail, server
      ensures stopped || System(server.log, State())
          == Polled(feed, startId, count, old(System(server.log, State())), polls)
      ensures State() == Polled(feed, startId, count, old(System(server.log, State())), polls).client
    {
      ghost var initial := System(server.log, State());
      var i := 0;
      while i < |polls|
        invariant 0 <= i <= |polls|
        invariant !stopped && System(server.log, State()) == Polled(feed, startId, count, initial, polls[..i])
      {
        assert polls[..i + 1][..i] == polls[..i];
        if polls[i].outcome.StopSeen? {
          stopped := true;
        } else {
          Turn(server, polls[i]);
        }
        i := i + 1;
        if stopped {
          StoppedStays(feed, startId, count, initial, polls, i);
          return;
        }
      }
      assert polls[..|polls|] == polls;
    }
  }

  lemma {:induction false} StoppedStays(f: Feed, start: Position, count: nat, sys: System, polls: seq<Poll>, i: nat)
    requires i <= |polls|
    requires Polled(f, start, count, sys, polls[..i]).client.stopped
    ensures Polled(f, start, count, sys, polls).client == Polled(f, start, count, sys, polls[..i]).client
    decreases |polls|
  {
    if i == |polls| {
      assert polls[..i] == polls;
    } else {
      var n := |polls| - 1;
      assert polls[..n][..i] == polls[..i];
      StoppedStays(f, start, count, sys, polls[..n], i);
      var before := Polled(f, start, count, sys, polls[..n]);
      StoppedStands(f, start, count, before, polls[n]);
      assert Polled(f, start, count, sys, polls) == PolledOnce(f, start, count, before, polls[n]);
    }
  }

  lemma StoppedStands(f: Feed, start: Position, count: nat, sys: System, p: Poll)
    requires sys.client.stopped
    ensures PolledOnce(f, start, count, sys, p).client == sys.client
  {
  }

  // ----- Exactly-once, in-order processing over whole runs -----

  lemma AddedKeepsOrder(log: Log, a: Arrival)
    requires WellFormed(log)
    ensures WellFormed(Added(log, a))
  {
    var entries := Entries(log, a.stream);
    if Before(LastId(entries), a.entry.id) {
      assert forall i :: 0 <= i < |entries| ==> !Before(LastId(entries), entries[i].id) by {
        assert forall i :: 0 <= i < |entries| - 1 ==> Before(entries[i].id, entries[|entries| - 1].id);
      }
    }
  }

  lemma {:induction false} AddedAllGrows(log: Log, arrivals: seq<Arrival>, s: string)
    requires WellFormed(log)
    ensures WellFormed(AddedAll(log, arrivals)) && Entries(log, s) <= Entries(AddedAll(log, arrivals), s)
  {
    if arrivals != [] {
      AddedAllGrows(log, arrivals[..|arrivals| - 1], s);
      AddedKeepsOrder(AddedAll(log, arrivals[..|arrivals| - 1]), arrivals[|arrivals| - 1]);
    }
  }

  lemma RankMonotone(entries: seq<Entry>, a: StreamId, b: StreamId)
    requires Ordered(entries) && (a == b || Before(a, b))
    ensures Rank(entries, a) <= Rank(entries, b)
  {
    RankSplits(entries, a);
    RankSplits(entries, b);
    var r := Rank(entries, a);
    if r > 0 {
      assert !Before(a, entries[r - 1].id);
    }
  }

  /** Ranks of ids already in the log do not change when the log grows. */
  lemma RankInPrefix(entries: seq<Entry>, more: seq<Entry>, i: nat)
    requires entries <= more && Ordered(more) && i < |entries|
    ensures Ordered(entries) && Rank(more, entries[i].id) == Rank(entries, entries[i].id) == i + 1
  {
    assert forall k :: 0 <= k < |entries| ==> entries[k] == more[k];
    RankOfOwnId(entries, i);
    RankOfOwnId(more, i);
  }

  /** The position of stream s is where `lo` or some later entry of its log is. */
  ghost predicate At(entries: seq<Entry>, lo: StreamId, p: StreamId) {
    p == lo || (Before(lo, p) && exists i :: 0 <= i < |entries| && entries[i].id == p)
  }

  /** On stream s exactly the entries after `lo` up to the position were processed, once each, in order. */
  ghost predicate ReadFrom(f: Feed, sys: System, s: string, lo: StreamId) {
    && s in sys.client.positions && sys.client.positions[s].After?
    && At(Entries(sys.log, s), lo, sys.client.positions[s].id)
    && OnStream(sys.client.steps, s) == Steps(f, s, Between(Entries(sys.log, s), lo, sys.client.positions[s].id), false)
  }

  lemma GrowthKeepsBetween(entries: seq<Entry>, more: seq<Entry>, lo: StreamId, p: StreamId)
    requires entries <= more && Ordered(more) && At(entries, lo, p)
    ensures At(more, lo, p) && Between(more, lo, p) == Between(entries, lo, p)
  {
    assert forall k :: 0 <= k < |entries| ==> entries[k] == more[k];
    if p != lo {
      var i :| 0 <= i < |entries| && entries[i].id == p;
      assert more[i].id == p;
      RankInPrefix(entries, more, i);
      RankSplits(entries, lo);
      RankSplits(more, lo);
      var r := Rank(entries, lo);
      assert r <= i;
      assert Before(lo, entries[r].id) && Before(lo, more[r].id);
      assert r > 0 ==> !Before(lo, entries[r - 1].id) && !Before(lo, more[r - 1].id);
      assert Rank(more, lo) == r;
    }
  }

  /** Reading the next n unread entries extends the range by exactly those. */
  lemma ReadingExtendsBetween(entries: seq<Entry>, lo: StreamId, p: StreamId, n: nat)
    requires Ordered(entries) && At(entries, lo, p)
    requires 0 < n <= |entries| - Rank(entries, p)
    ensures var q := entries[Rank(entries, p) + n - 1].id;
      && At(entries, lo, q) && Before(p, q)
      && Between(entries, lo, q) == Between(entries, lo, p) + entries[Rank(entries, p)..][..n]
  {
    var r := Rank(entries, p);
    RankSplits(entries, p);
    assert Before(p, entries[r + n - 1].id);
    RankOfOwnId(entries, r + n - 1);
    RankMonotone(entries, lo, p);
    SliceInTwo(entries, Rank(entries, lo), r, n);
  }

  lemma SliceInTwo<T>(s: seq<T>, a: nat, r: nat, n: nat)
    requires a <= r && r + n <= |s|
    ensures s[a..r + n] == s[a..r] + s[r..][..n]
  {
  }

  /** Between c and c' stream s advanced over the first n of its unread entries and nothing else. */
  ghost predicate Advanced(f: Feed, c: Client, c': Client, s: string, unread: seq<Entry>, n: nat)
    requires n <= |unread|
  {
    && s in c.positions && s in c'.positions
    && c'.positions[s] == (if n == 0 then c.positions[s] else After(unread[n - 1].id))
    && OnStream(c'.steps, s) == OnStream(c.steps, s) + Steps(f, s, unread[..n], false)
  }

  lemma BatchElsewhere(f: Feed, start: Position, c: Client, c': Client, b: Batch, s: string, unread: seq<Entry>, n: nat)
    requires n <= |unread| && Advanced(f, c, c', s, unread, n) && b.stream != s
    ensures Advanced(f, c, Consumed(f, start, c', b), s, unread, n)
  {
    OnStreamAppend(f, c'.steps, b.stream, b.entries, false, s);
  }

  lemma BatchHere(f: Feed, start: Position, c: Client, c': Client, b: Batch, unread: seq<Entry>)
    requires Advanced(f, c, c', b.stream, unread, 0)
    requires b.entries != [] && b.entries <= unread
    ensures Advanced(f, c, Consumed(f, start, c', b), b.stream, unread, |b.entries|)
  {
    OnStreamAppend(f, c'.steps, b.stream, b.entries, false, b.stream);
    assert unread[..0] == [] && Steps(f, b.stream, [], false) == [];
    assert unread[..|b.entries|] == b.entries;
    assert OnStream(c'.steps, b.stream) == OnStream(c.steps, b.stream);
  }

  lemma PickOnStream(f: Feed, start: Position, c: Client, before: Log, now: Log, count: nat, rest: seq<Batch>,
      pick: Pick, s: string, m: nat)
    returns (n: nat)
    requires s in c.positions
    requires m <= |Unread(before, now, s, c.positions[s])| && (Covers(rest, s) <==> m > 0)
    requires Advanced(f, c, ConsumedAll(f, start, c, rest), s, Unread(before, now, s, c.positions[s]), m)
    ensures n <= |Unread(before, now, s, c.positions[s])|
    ensures n == if m > 0 || pick.stream != s then m
      else Min(Min(pick.limit, count), |Unread(before, now, s, c.positions[s])|)
    ensures var batches := Extended(rest, before, now, c.positions, count, pick);
      && (Covers(batches, s) <==> n > 0)
      && Advanced(f, c, ConsumedAll(f, start, c, batches), s, Unread(before, now, s, c.positions[s]), n)
  {
    n := m;
    var unread, batches := Unread(before, now, s, c.positions[s]),
        Extended(rest, before, now, c.positions, count, pick);
    if batches != rest {
      var b := batches[|batches| - 1];
      assert batches == rest + [b] && batches[..|batches| - 1] == rest;
      if b.stream == s {
        BatchHere(f, start, c, ConsumedAll(f, start, c, rest), b, unread);
        n := |b.entries|;
      } else {
        BatchElsewhere(f, start, c, ConsumedAll(f, start, c, rest), b, s, unread, m);
      }
    }
  }

  /** What one reply does to one stream: it advances over some of the unread entries, or not at all. */
  lemma {:induction false} ReplyOnStream(f: Feed, start: Position, c: Client, before: Log, now: Log, count: nat,
      picks: seq<Pick>, s: string)
    returns (n: nat)
    requires s in c.positions
    ensures n <= |Unread(before, now, s, c.positions[s])|
    ensures n == Offered(picks, s, count, |Unread(before, now, s, c.positions[s])|)
    ensures var batches := Reply(before, now, c.positions, count, picks);
      && (Covers(batches, s) <==> n > 0)
      && Advanced(f, c, ConsumedAll(f, start, c, batches), s, Unread(before, now, s, c.positions[s]), n)
  {
    if picks == [] {
      n := 0;
    } else {
      var m := ReplyOnStream(f, start, c, before, now, count, picks[..|picks| - 1], s);
      n := PickOnStream(f, start, c, before, now, count, Reply(before, now, c.positions, count, picks[..|picks| - 1]),
                        picks[|picks| - 1], s, m);
    }
  }

  /** Advancing from an exactly read position leaves the stream exactly read up to the new one. */
  lemma AdvanceKeepsReadFrom(f: Feed, log: Log, c: Client, c': Client, s: string, lo: StreamId, n: nat)
    requires WellFormed(log) && ReadFrom(f, System(log, c), s, lo)
    requires n <= |Entries(log, s)[Rank(Entries(log, s), c.positions[s].id)..]|
    requires Advanced(f, c, c', s, Entries(log, s)[Rank(Entries(log, s), c.positions[s].id)..], n)
    ensures ReadFrom(f, System(log, c'), s, lo)
    ensures n > 0 ==> Before(c.positions[s].id, c'.positions[s].id)
  {
    var entries, at := Entries(log, s), c.positions[s].id;
    var unread := entries[Rank(entries, at)..];
    if n > 0 {
      ReadingExtendsBetween(entries, lo, at, n);
      StepsConcat(f, s, Between(entries, lo, at), unread[..n], false);
    }
  }

  /** Any turn of the loop keeps a stream exactly read, and its position never goes back. */
  lemma TurnKeepsReadFrom(f: Feed, start: Position, count: nat, sys: System, p: Poll, s: string, lo: StreamId)
    requires WellFormed(sys.log) && ReadFrom(f, sys, s, lo)
    ensures var sys' := PolledOnce(f, start, count, sys, p);
      && WellFormed(sys'.log) && ReadFrom(f, sys', s, lo)
      && (sys'.client.positions[s] == sys.client.positions[s]
          || Before(sys.client.positions[s].id, sys'.client.positions[s].id))
  {
    ArrivalsKeepReadFrom(f, sys, p, s, lo);
    var before := AddedAll(sys.log, p.before);
    TurnedKeepsReadFrom(f, start, count, sys.client, before, AddedAll(before, p.during), p.outcome, s, lo);
  }

  lemma TurnedKeepsReadFrom(f: Feed, start: Position, count: nat, c: Client, before: Log, now: Log, outcome: Outcome,
      s: string, lo: StreamId)
    requires WellFormed(now) && ReadFrom(f, System(now, c), s, lo)
    ensures var c' := Turned(f, start, count, c, before, now, outcome);
      && ReadFrom(f, System(now, c'), s, lo)
      && (c'.positions[s] == c.positions[s] || Before(c.positions[s].id, c'.positions[s].id))
  {
    if !c.stopped && outcome.Answered? {
      var connected := c.(attempt := 0);
      var n := ReplyOnStream(f, start, connected, before, now, count, outcome.picks, s);
      AdvanceKeepsReadFrom(f, now, connected, Turned(f, start, count, c, before, now, outcome), s, lo, n);
    }
  }

  lemma ArrivalsKeepReadFrom(f: Feed, sys: System, p: Poll, s: string, lo: StreamId)
    requires WellFormed(sys.log) && ReadFrom(f, sys, s, lo)
    ensures var now := AddedAll(AddedAll(sys.log, p.before), p.during);
      WellFormed(now) && ReadFrom(f, System(now, sys.client), s, lo)
  {
    var before := AddedAll(sys.log, p.before);
    AddedAllGrows(sys.log, p.before, s);
    AddedAllGrows(before, p.during, s);
    GrowthKeepsBetween(Entries(sys.log, s), Entries(AddedAll(before, p.during), s), lo, sys.client.positions[s].id);
  }

  /**
   * For a concrete start id, whatever arrives, however much each reply carries, whichever reads fail and
   * whenever the strategy raises: each subscribed stream's fields are processed exactly for the entries in
   * (start, position], in log order, each once.
   */
  lemma {:induction false} ExactlyOnce(f: Feed, log: Log, names: seq<string>, start: StreamId, count: nat,
      polls: seq<Poll>, s: string)
    requires WellFormed(log) && s in names
    ensures var sys := Polled(f, After(start), count, Begun(log, names, After(start)), polls);
      WellFormed(sys.log) && ReadFrom(f, sys, s, start)
  {
    if polls != [] {
      var n := |polls| - 1;
      ExactlyOnce(f, log, names, start, count, polls[..n], s);
      TurnKeepsReadFrom(f, After(start), count,
          Polled(f, After(start), count, Begun(log, names, After(start)), polls[..n]), polls[n], s, start);
    }
  }

  /**
   * A successful read makes progress: a stream is advanced by exactly as many of its unread entries as the server
   * offers of it, up to the count that is asked for and to what is there.
   */
  lemma AnsweredTurnAdvances(f: Feed, start: Position, count: nat, sys: System, p: Poll, s: string, lo: StreamId,
      k: nat)
    requires WellFormed(sys.log) && ReadFrom(f, sys, s, lo) && !sys.client.stopped && p.outcome.Answered?
    requires k < |p.outcome.picks| && p.outcome.picks[k].stream == s && p.outcome.picks[k].limit > 0 && count > 0
    requires forall i :: 0 <= i < k ==> p.outcome.picks[i].stream != s
    ensures var sys' := PolledOnce(f, start, count, sys, p);
      var entries := Entries(sys'.log, s);
      && s in sys'.client.positions && sys'.client.positions[s].After?
      && var at := Rank(entries, sys.client.positions[s].id);
         Rank(entries, sys'.client.positions[s].id) == at + Min(Min(p.outcome.picks[k].limit, count), |entries| - at)
  {
    hide ConsumedAll, Reply, AddedAll, StreamEntries.Steps, StreamEntries.OnStream, StreamEntries.Rank, WellFormed;
    ArrivalsKeepReadFrom(f, sys, p, s, lo);
    var before := AddedAll(sys.log, p.before);
    var now := AddedAll(before, p.during);
    TurnedKeepsReadFrom(f, start, count, sys.client, before, now, p.outcome, s, lo);
    ReplyAdvances(f, start, count, sys.client.(attempt := 0), before, now, p.outcome.picks, s, k);
  }

  lemma ReplyAdvances(f: Feed, start: Position, count: nat, c: Client, before: Log, now: Log, picks: seq<Pick>,
      s: string,
      k: nat)
    requires WellFormed(now) && s in c.positions && c.positions[s].After?
    requires k < |picks| && picks[k].stream == s && picks[k].limit > 0 && count > 0
    requires forall i :: 0 <= i < k ==> picks[i].stream != s
    ensures var c' := ConsumedAll(f, start, c, Reply(before, now, c.positions, count, picks));
      var entries := Entries(now, s);
      var at := Rank(entries, c.positions[s].id);
      && s in c'.positions && c'.positions[s].After?
      && Rank(entries, c'.positions[s].id) == at + Min(Min(picks[k].limit, count), |entries| - at)
  {
    hide ConsumedAll, Reply, StreamEntries.Steps, StreamEntries.OnStream, StreamEntries.Rank;
    var entries := Entries(now, s);
    var at := Rank(entries, c.positions[s].id);
    var n := ReplyOnStream(f, start, c, before, now, count, picks, s);
    assert Unread(before, now, s, c.positions[s]) == entries[at..];
    if at < |entries| {
      FirstPickDecides(picks, s, count, |entries| - at, k);
      assert entries[at..][n - 1] == entries[at + n - 1];
      RankOfOwnId(entries, at + n - 1);
    } else {
      assert n == 0 && |entries| - at == 0;
    }
  }

  /** Connection failures since the last successful read. */
  function TrailingFailures(polls: seq<Poll>): nat {
    if polls == [] || !polls[|polls| - 1].outcome.ConnectionLost? then 0
    else 1 + TrailingFailures(polls[..|polls| - 1])
  }

  lemma {:induction false} ConsumingKeepsAttempt(f: Feed, start: Position, c: Client, batches: seq<Batch>)
    ensures var c' := ConsumedAll(f, start, c, batches);
      c'.attempt == c.attempt && c'.stopped == c.stopped && c'.waits == c.waits
  {
    if batches != [] {
      ConsumingKeepsAttempt(f, start, c, batches[..|batches| - 1]);
    }
  }

  /** While the reader runs, the next wait is the backoff of the failures since the last success. */
  lemma {:induction false} AttemptCountsFailures(f: Feed, log: Log, names: seq<string>, start: Position, count: nat,
      polls: seq<Poll>)
    ensures var c := Polled(f, start, count, Begun(log, names, start), polls).client;
      c.stopped || c.attempt == TrailingFailures(polls)
  {
    if polls != [] {
      var n := |polls| - 1;
      AttemptCountsFailures(f, log, names, start, count, polls[..n]);
      var sys := Polled(f, start, count, Begun(log, names, start), polls[..n]);
      if polls[n].outcome.Answered? {
        var before := AddedAll(sys.log, polls[n].before);
        var now := AddedAll(before, polls[n].during);
        ConsumingKeepsAttempt(f, start, sys.client.(attempt := 0),
                              Reply(before, now, sys.client.positions, count, polls[n].outcome.picks));
      }
    }
  }

  /** A failed read, and nothing else, adds a wait: the backoff of the failures before it since the last success. */
  lemma WaitsAreBackoffs(f: Feed, log: Log, names: seq<string>, start: Position, count: nat, polls: seq<Poll>, p: Poll)
    ensures var before := Polled(f, start, count, Begun(log, names, start), polls).client;
      Polled(f, start, count, Begun(log, names, start), polls + [p]).client.waits ==
        if before.stopped || !p.outcome.ConnectionLost? then before.waits
        else before.waits + [BackoffSeconds(TrailingFailures(polls))]
  {
    assert (polls + [p])[..|polls|] == polls;
    AttemptCountsFailures(f, log, names, start, count, polls);
    var sys := Polled(f, start, count, Begun(log, names, start), polls);
    if p.outcome.Answered? {
      var before := AddedAll(sys.log, p.before);
      ConsumingKeepsAttempt(f, start, sys.client.(attempt := 0),
        Reply(before, AddedAll(before, p.during), sys.client.positions, count, p.outcome.picks));
    }
  }

  // ----- The start id "$" -----

  ghost predicate NothingRead(sys: System, s: string) {
    s in sys.client.positions && sys.client.positions[s] == Latest && OnStream(sys.client.steps, s) == []
  }

  /** From "$" a stream is exactly read from the call on that first delivers something, and from nowhere earlier. */
  lemma TurnFromLatest(f: Feed, count: nat, sys: System, p: Poll, s: string)
    requires WellFormed(sys.log) && NothingRead(sys, s)
    ensures var sys' := PolledOnce(f, Latest, count, sys, p);
      && WellFormed(sys'.log)
      && (NothingRead(sys', s) || ReadFrom(f, sys', s, LastId(Entries(AddedAll(sys.log, p.before), s))))
  {
    var before := AddedAll(sys.log, p.before);
    AddedAllGrows(sys.log, p.before, s);
    AddedAllGrows(before, p.during, s);
    TurnedFromLatest(f, count, sys.client, before, AddedAll(before, p.during), p.outcome, s);
  }

  lemma TurnedFromLatest(f: Feed, count: nat, c: Client, before: Log, now: Log, outcome: Outcome, s: string)
    requires WellFormed(now) && Entries(before, s) <= Entries(now, s) && NothingRead(System(now, c), s)
    ensures var sys' := System(now, Turned(f, Latest, count, c, before, now, outcome));
      NothingRead(sys', s) || ReadFrom(f, sys', s, LastId(Entries(before, s)))
  {
    if !c.stopped && outcome.Answered? {
      var connected := c.(attempt := 0);
      var n := ReplyOnStream(f, Latest, connected, before, now, count, outcome.picks, s);
      if n > 0 {
        FirstAdvance(f, before, now, connected, Turned(f, Latest, count, c, before, now, outcome), s, n);
      }
    }
  }

  /** In an ordered log the entries up to the last of the first n are the first n. */
  lemma RankOfLast(entries: seq<Entry>, n: nat)
    requires n <= |entries| && Ordered(entries)
    requires forall i :: 0 <= i < |entries| ==> Before(ZERO_ID, entries[i].id)
    ensures Rank(entries, LastId(entries[..n])) == n
  {
    RankSplits(entries, LastId(entries[..n]));
    if n > 0 {
      RankOfOwnId(entries, n - 1);
    } else if entries != [] {
      assert Before(ZERO_ID, entries[0].id);
    }
  }

  lemma FirstAdvance(f: Feed, before: Log, now: Log, c: Client, c': Client, s: string, n: nat)
    requires WellFormed(now) && Entries(before, s) <= Entries(now, s)
    requires OnStream(c.steps, s) == []
    requires 0 < n <= |Entries(now, s)[|Entries(before, s)|..]|
    requires Advanced(f, c, c', s, Entries(now, s)[|Entries(before, s)|..], n)
    ensures ReadFrom(f, System(now, c'), s, LastId(Entries(before, s)))
  {
    var entries, known, lo := Entries(now, s), |Entries(before, s)|, LastId(Entries(before, s));
    assert entries[..known] == Entries(before, s);
    RankOfLast(entries, known);
    RankSplits(entries, lo);
    assert Before(lo, entries[known + n - 1].id);
    ReadingExtendsBetween(entries, lo, lo, n);
    assert Between(entries, lo, entries[known + n - 1].id) == entries[known..][..n];
  }

  /** The system before the k-th turn of a run from "$". */
  function LatestRun(f: Feed, log: Log, names: seq<string>, count: nat, polls: seq<Poll>): System {
    Polled(f, Latest, count, Begun(log, names, Latest), polls)
  }

  /** What stream s holds when the call of turn k begins. */
  function HeldAt(f: Feed, log: Log, names: seq<string>, count: nat, polls: seq<Poll>, k: nat, s: string): seq<Entry>
    requires k < |polls|
  {
    Entries(AddedAll(LatestRun(f, log, names, count, polls[..k]).log, polls[k].before), s)
  }

  /** Turn k is the first to deliver something of stream s. */
  ghost predicate DeliversFirst(f: Feed, log: Log, names: seq<string>, count: nat, polls: seq<Poll>, k: nat, s: string)
    requires k < |polls|
  {
    && NothingRead(LatestRun(f, log, names, count, polls[..k]), s)
    && !NothingRead(LatestRun(f, log, names, count, polls[..k + 1]), s)
  }

  lemma {:induction false} LatestGrows(f: Feed, log: Log, names: seq<string>, count: nat, polls: seq<Poll>, s: string)
    requires WellFormed(log)
    ensures var sys := LatestRun(f, log, names, count, polls);
      WellFormed(sys.log) && Entries(log, s) <= Entries(sys.log, s)
  {
    if polls != [] {
      var n := |polls| - 1;
      LatestGrows(f, log, names, count, polls[..n], s);
      var sys := LatestRun(f, log, names, count, polls[..n]);
      AddedAllGrows(sys.log, polls[n].before, s);
      AddedAllGrows(AddedAll(sys.log, polls[n].before), polls[n].during, s);
    }
  }

  /** What is looked up in a shorter run is the same in a longer one. */
  lemma HeldAtPrefix(f: Feed, log: Log, names: seq<string>, count: nat, polls: seq<Poll>, n: nat, k: nat, s: string)
    requires k < n <= |polls|
    ensures HeldAt(f, log, names, count, polls[..n], k, s) == HeldAt(f, log, names, count, polls, k, s)
    ensures DeliversFirst(f, log, names, count, polls[..n], k, s) == DeliversFirst(f, log, names, count, polls, k, s)
  {
    assert polls[..n][..k] == polls[..k] && polls[..n][..k + 1] == polls[..k + 1];
  }

  /** The turn that delivers first. */
  lemma FirstDeliveryReads(f: Feed, log: Log, names: seq<string>, count: nat, polls: seq<Poll>, s: string)
    requires WellFormed(log) && polls != [] && DeliversFirst(f, log, names, count, polls, |polls| - 1, s)
    ensures ReadFrom(f, LatestRun(f, log, names, count, polls), s,
        LastId(HeldAt(f, log, names, count, polls, |polls| - 1, s)))
  {
    var n := |polls| - 1;
    LatestGrows(f, log, names, count, polls[..n], s);
    assert polls[..n + 1] == polls;
    TurnFromLatest(f, count, LatestRun(f, log, names, count, polls[..n]), polls[n], s);
  }

  lemma LaterTurnReads(f: Feed, log: Log, names: seq<string>, count: nat, polls: seq<Poll>, s: string, lo: StreamId)
    requires WellFormed(log) && polls != [] && ReadFrom(f, LatestRun(f, log, names, count, polls[..|polls| - 1]), s, lo)
    ensures ReadFrom(f, LatestRun(f, log, names, count, polls), s, lo)
  {
    var n := |polls| - 1;
    LatestGrows(f, log, names, count, polls[..n], s);
    TurnKeepsReadFrom(f, Latest, count, LatestRun(f, log, names, count, polls[..n]), polls[n], s, lo);
  }

  lemma {:induction false} ReadStays(
    f: Feed, log: Log, names: seq<string>, count: nat, polls: seq<Poll>, s: string, k: nat, lo: StreamId)
    requires WellFormed(log) && k <= |polls| && ReadFrom(f, LatestRun(f, log, names, count, polls[..k]), s, lo)
    ensures ReadFrom(f, LatestRun(f, log, names, count, polls), s, lo)
  {
    if k == |polls| {
      assert polls[..k] == polls;
    } else {
      assert polls[..|polls| - 1][..k] == polls[..k];
      ReadStays(f, log, names, count, polls[..|polls| - 1], s, k, lo);
      LaterTurnReads(f, log, names, count, polls, s, lo);
    }
  }

  /** From its first delivery on a stream is exactly read. */
  lemma FirstDeliveryDecides(f: Feed, log: Log, names: seq<string>, count: nat, polls: seq<Poll>, s: string, k: nat)
    requires WellFormed(log) && k < |polls| && DeliversFirst(f, log, names, count, polls, k, s)
    ensures ReadFrom(f, LatestRun(f, log, names, count, polls), s, LastId(HeldAt(f, log, names, count, polls, k, s)))
  {
    HeldAtPrefix(f, log, names, count, polls, k + 1, k, s);
    FirstDeliveryReads(f, log, names, count, polls[..k + 1], s);
    ReadStays(f, log, names, count, polls, s, k + 1, LastId(HeldAt(f, log, names, count, polls, k, s)));
  }

  /** Some turn delivers first, or nothing has been read. */
  lemma {:induction false} FirstDelivery(f: Feed, log: Log, names: seq<string>, count: nat, polls: seq<Poll>, s: string)
    returns (k: nat)
    requires s in names && !NothingRead(LatestRun(f, log, names, count, polls), s)
    ensures k < |polls| && DeliversFirst(f, log, names, count, polls, k, s)
  {
    assert polls != [];
    var n := |polls| - 1;
    if NothingRead(LatestRun(f, log, names, count, polls[..n]), s) {
      k := n;
      assert polls[..n + 1] == polls;
    } else {
      k := FirstDelivery(f, log, names, count, polls[..n], s);
      HeldAtPrefix(f, log, names, count, polls, n, k, s);
    }
  }

  /**
   * From "$" a stream has either delivered nothing or is exactly read, over all turns since, from what it held when
   * the call that first delivered something began.
   */
  lemma LatestIsExactFromFirstReply(f: Feed, log: Log, names: seq<string>, count: nat, polls: seq<Poll>, s: string)
    returns (k: nat)
    requires WellFormed(log) && s in names
    ensures var sys := LatestRun(f, log, names, count, polls);
      || NothingRead(sys, s)
      || (k < |polls| && DeliversFirst(f, log, names, count, polls, k, s)
          && ReadFrom(f, sys, s, LastId(HeldAt(f, log, names, count, polls, k, s))))
  {
    k := 0;
    if !NothingRead(LatestRun(f, log, names, count, polls), s) {
      k := FirstDelivery(f, log, names, count, polls, s);
      FirstDeliveryDecides(f, log, names, count, polls, s, k);
    }
  }

  /** An entry without fields leaves no step behind. */
  predicate Carries(e: Entry) {
    e.fields.GetOr([]) != []
  }

  lemma {:induction false} StepsCount(f: Feed, s: string, entries: seq<Entry>)
    ensures Steps(f, s, entries, false) == [] <==> forall i :: 0 <= i < |entries| ==> !Carries(entries[i])
  {
    if entries != [] {
      StepsCount(f, s, entries[..|entries| - 1]);
    }
  }

  /** Leaving out entries at the beginning leaves the steps alone when those have no fields. */
  lemma StepsWithout(f: Feed, s: string, entries: seq<Entry>, m: nat, n: nat, r: nat)
    requires m <= n <= r <= |entries|
    ensures Steps(f, s, entries[m..r], false) == Steps(f, s, entries[n..r], false)
      <==> forall i :: m <= i < n ==> !Carries(entries[i])
  {
    var skipped, rest := entries[m..n], entries[n..r];
    assert entries[m..r] == skipped + rest;
    StepsConcat(f, s, skipped, rest, false);
    StepsCount(f, s, skipped);
    assert forall i :: m <= i < n ==> skipped[i - m] == entries[i];
  }

  /** Reading exactly from a later point is reading exactly from an earlier one when nothing in between has fields. */
  lemma ReadFromEarlier(f: Feed, sys: System, s: string, m: nat, n: nat)
    requires WellFormed(sys.log) && m <= n <= |Entries(sys.log, s)|
    requires ReadFrom(f, sys, s, LastId(Entries(sys.log, s)[..n]))
    ensures ReadFrom(f, sys, s, LastId(Entries(sys.log, s)[..m]))
      <==> forall i :: m <= i < n ==> !Carries(Entries(sys.log, s)[i])
  {
    var entries, p := Entries(sys.log, s), sys.client.positions[s].id;
    RankOfLast(entries, m);
    RankOfLast(entries, n);
    LaterPosition(entries, m, n, p);
    var r := Rank(entries, p);
    assert Between(entries, LastId(entries[..m]), p) == entries[m..r];
    assert Between(entries, LastId(entries[..n]), p) == entries[n..r];
    StepsWithout(f, s, entries, m, n, r);
  }

  lemma LaterPosition(entries: seq<Entry>, m: nat, n: nat, p: StreamId)
    requires Ordered(entries) && forall i :: 0 <= i < |entries| ==> Before(ZERO_ID, entries[i].id)
    requires m <= n <= |entries| && At(entries, LastId(entries[..n]), p)
    ensures At(entries, LastId(entries[..m]), p) && n <= Rank(entries, p)
  {
    var lo, hi := LastId(entries[..m]), LastId(entries[..n]);
    RankOfLast(entries, n);
    RankMonotone(entries, hi, p);
    if m < n {
      assert entries[n - 1].id == hi;
      RankOfLast(entries, m);
      RankSplits(entries, lo);
      assert Before(lo, hi);
    }
  }

  /**
   * A run from "$" that has delivered something of a stream loses nothing that arrived since the beginning exactly
   * when no entry with fields arrived before the call that first delivered something.
   */
  lemma LatestLosesNothingExactly(
    f: Feed, log: Log, names: seq<string>, count: nat, polls: seq<Poll>, s: string, k: nat)
    requires WellFormed(log) && k < |polls| && DeliversFirst(f, log, names, count, polls, k, s)
    ensures |Entries(log, s)| <= |HeldAt(f, log, names, count, polls, k, s)|
    ensures ReadFrom(f, LatestRun(f, log, names, count, polls), s, LastId(Entries(log, s)))
      <==> forall i :: |Entries(log, s)| <= i < |HeldAt(f, log, names, count, polls, k, s)| ==>
             !Carries(HeldAt(f, log, names, count, polls, k, s)[i])
  {
    var sys, held, m := LatestRun(f, log, names, count, polls), HeldAt(f, log, names, count, polls, k, s),
        |Entries(log, s)|;
    FirstDeliveryDecides(f, log, names, count, polls, s, k);
    HeldGrows(f, log, names, count, polls, s, k);
    var entries := Entries(sys.log, s);
    assert entries[..|held|] == held && entries[..m] == Entries(log, s);
    ReadFromEarlier(f, sys, s, m, |held|);
  }

  lemma HeldGrows(f: Feed, log: Log, names: seq<string>, count: nat, polls: seq<Poll>, s: string, k: nat)
    requires WellFormed(log) && k < |polls|
    ensures var sys := LatestRun(f, log, names, count, polls);
      && WellFormed(sys.log)
      && Entries(log, s) <= HeldAt(f, log, names, count, polls, k, s) <= Entries(sys.log, s)
  {
    LatestGrows(f, log, names, count, polls, s);
    LatestGrows(f, log, names, count, polls[..k], s);
    var sys := LatestRun(f, log, names, count, polls[..k]);
    AddedAllGrows(sys.log, polls[k].before, s);
    AddedAllGrows(AddedAll(sys.log, polls[k].before), polls[k].during, s);
    assert polls[..k + 1][..k] == polls[..k];
    LaterLogsGrow(f, log, names, count, polls, s, k + 1);
  }

  lemma {:induction false} LaterLogsGrow(f: Feed, log: Log, names: seq<string>, count: nat, polls: seq<Poll>, s: string,
      k: nat)
    requires WellFormed(log) && k <= |polls|
    ensures Entries(LatestRun(f, log, names, count, polls[..k]).log, s)
        <= Entries(LatestRun(f, log, names, count, polls).log, s)
  {
    hide Turned, AddedAll, StreamEntries.Ordered;
    var n := |polls| - 1;
    if k <= n {
      assert polls[..n][..k] == polls[..k];
      LaterLogsGrow(f, log, names, count, polls[..n], s, k);
      LatestGrows(f, log, names, count, polls[..n], s);
      var sys := LatestRun(f, log, names, count, polls[..n]);
      AddedAllGrows(sys.log, polls[n].before, s);
      AddedAllGrows(AddedAll(sys.log, polls[n].before), polls[n].during, s);
    } else {
      assert polls[..k] == polls;
    }
  }

  lemma OneArrival(log: Log, a: Arrival)
    ensures AddedAll(log, [a]) == Added(log, a)
  {
    assert [a][..0] == [];
  }

  lemma TwoPolls(f: Feed, start: Position, count: nat, sys: System, p: Poll, q: Poll)
    ensures Polled(f, start, count, sys, [p, q]) == PolledOnce(f, start, count, PolledOnce(f, start, count, sys, p), q)
  {
    assert [p][..0] == [];
    assert Polled(f, start, count, sys, [p]) == PolledOnce(f, start, count, sys, p);
    assert [p, q][..1] == [p];
  }

  /** "$" is not exactly-once from the start: an entry that arrives while a call fails is never processed. */
  lemma LatestLosesEntries(f: Feed, s: string, e: Entry, e': Entry)
    requires Before(ZERO_ID, e.id) && Before(e.id, e'.id)
    ensures var polls := [Poll([], [Arrival(s, e)], ConnectionLost(false)),
                          Poll([], [Arrival(s, e')], Answered([Pick(s, 1)]))];
      var sys := Polled(f, Latest, 1, Begun(map[], [s], Latest), polls);
      && Entries(sys.log, s) == [e, e']
      && s in sys.client.positions && sys.client.positions[s] == After(e'.id)
      && sys.client.steps == EntrySteps(f, s, e')
  {
    var lost := Poll([], [Arrival(s, e)], ConnectionLost(false));
    var answered := Poll([], [Arrival(s, e')], Answered([Pick(s, 1)]));
    var sys0 := Begun(map[], [s], Latest);
    TwoPolls(f, Latest, 1, sys0, lost, answered);
    OneArrival(map[], Arrival(s, e));
    var sys1 := PolledOnce(f, Latest, 1, sys0, lost);
    assert Entries(map[], s) + [e] == [e];
    assert sys1.log == map[s := [e]];
    assert s in [s] && sys1.client.positions[s] == Latest;
    OneArrival(sys1.log, Arrival(s, e'));
    var now := AddedAll(sys1.log, answered.during);
    assert Entries(sys1.log, s) + [e'] == [e, e'];
    assert now == map[s := [e, e']];
    assert [e, e'][1..] == [e'];
    OneBatchReply(f, sys1.log, now, sys1.client.(attempt := 0), s, [e'], 1);
    assert [e'][..0] == [];
    assert Steps(f, s, [e'], false) == EntrySteps(f, s, e');
  }

  lemma OneBatchReply(f: Feed, before: Log, now: Log, c: Client, s: string, entries: seq<Entry>, count: nat)
    requires s in c.positions && Unread(before, now, s, c.positions[s]) == entries && |entries| == count > 0
    ensures ConsumedAll(f, Latest, c, Reply(before, now, c.positions, count, [Pick(s, count)]))
        == Consumed(f, Latest, c, Batch(s, entries))
  {
    assert [Pick(s, count)][..0] == [];
    assert Reply(before, now, c.positions, count, [Pick(s, count)]) == [Batch(s, entries)];
    assert [Batch(s, entries)][..0] == [];
    assert ConsumedAll(f, Latest, c, [Batch(s, entries)])
        == Consumed(f, Latest, ConsumedAll(f, Latest, c, []), Batch(s, entries));
  }
}
