/**
 * Which fields of which entries reach the strategy, and as what: stated over the messages themselves, for one field and
 * for whole runs of both readers.
 */
module FieldDelivery {
  import opened Wrappers
  import opened Text
  import opened Basics
  import opened StreamKeys
  import opened StreamEntries
  import X = XreadLoop
  import G = GroupLoop
  import S = GroupServer

  /** No feed's base is another feed's base, alone or followed by a colon. */
  ghost predicate Separated(f: Feed) {
    && f.bars != f.trades && f.bars != f.quotes && f.trades != f.quotes
    && forall a, b :: a in Bases(f) && b in Bases(f) ==> !Extends(a, b)
  }

  /** The stream carries the feed `own`, partitioned or not. */
  ghost predicate Carries(stream: string, own: string) {
    stream == own || exists p: nat :: stream == Key(own, p)
  }

  // ----- One field -----

  predicate Says(m: Message, name: string, x: real) {
    if name in m.numbers then x == m.numbers[name] else x == 0.0
  }

  predicate BarSays(f: Feed, m: Message, id: StreamId, field: string, symbol: string, ts: int, tick: Tick) {
    && tick.BarTick?
    && tick.eventId == "md:bar:" + Decimal(id.ms) + "-" + Decimal(id.sequence) + ":" + field
    && tick.symbol == symbol && tick.tsMs == ts && tick.eventTime == Strip(m.timeUtc)
    && tick.timeframe == (if Strip(f.timeframe) == "" then "1m" else Strip(f.timeframe))
    && Says(m, "open", tick.open) && Says(m, "high", tick.high) && Says(m, "low", tick.low)
    && Says(m, "close", tick.close) && Says(m, "volume", tick.volume)
  }

  predicate TradeSays(m: Message, id: StreamId, field: string, symbol: string, ts: int, tick: Tick) {
    && tick.TradeTick?
    && tick.eventId == "md:trade:" + Decimal(id.ms) + "-" + Decimal(id.sequence) + ":" + field
    && tick.symbol == symbol && tick.tsMs == ts && tick.eventTime == Strip(m.timeUtc)
    && Says(m, "price", tick.price) && Says(m, "size", tick.size)
  }

  predicate QuoteSays(m: Message, id: StreamId, field: string, symbol: string, ts: int, tick: Tick) {
    && tick.QuoteTick?
    && tick.eventId == "md:quote:" + Decimal(id.ms) + "-" + Decimal(id.sequence) + ":" + field
    && tick.symbol == symbol && tick.tsMs == ts && tick.eventTime == Strip(m.timeUtc)
    && Says(m, "bid_price", tick.bid) && Says(m, "ask_price", tick.ask)
    && Says(m, "bid_size", tick.bidSize) && Says(m, "ask_size", tick.askSize)
  }

  /** The tick that a message of the feed `own` stands for. */
  predicate TickSays(f: Feed, own: string, m: Message, id: StreamId, field: string, symbol: string, ts: int,
      tick: Tick) {
    if own == f.bars then BarSays(f, m, id, field, symbol, ts, tick)
    else if own == f.trades then TradeSays(m, id, field, symbol, ts, tick)
    else QuoteSays(m, id, field, symbol, ts, tick)
  }

  /** The strategy trades everything, or the field names its symbol up to padding and case. */
  predicate ForStrategy(f: Feed, field: string) {
    var traded := f.codec.upper(Strip(f.symbol.GetOr("")));
    traded == "" || traded == f.codec.upper(Strip(field))
  }

  /** The parts of a payload that make a tick of it. */
  predicate Parses(f: Feed, field: string, payload: string) {
    && f.codec.decode(payload).Some?
    && var m := f.codec.decode(payload).value;
       f.codec.epochMs(Strip(m.timeUtc)).Some? && Strip(if m.symbol == "" then field else m.symbol) != ""
  }

  /** The payload is of the feed `own`, and `tick` says what it says. */
  predicate PayloadSays(f: Feed, own: string, id: StreamId, field: string, payload: string, tick: Tick) {
    && Parses(f, field, payload)
    && var m := f.codec.decode(payload).value;
       TickSays(f, own, m, id, field, Strip(if m.symbol == "" then field else m.symbol),
           f.codec.epochMs(Strip(m.timeUtc)).value, tick)
  }

  /**
   * The payload decodes, its time parses, it names a symbol (its own or else the field's), it is the strategy's, and
   * `tick` says what it says.
   */
  predicate Delivers(f: Feed, own: string, id: StreamId, field: string, payload: string, tick: Tick) {
    ForStrategy(f, field) && PayloadSays(f, own, id, field, payload, tick)
  }

  lemma OnlyOwnFeedMatches(f: Feed, own: string, stream: string, other: string)
    requires Separated(f) && own in Bases(f) && other in Bases(f) && Carries(stream, own)
    ensures FeedMatches(stream, other) <==> other == own
  {
    if stream != own {
      var p: nat :| stream == Key(own, p);
      KeyBelongsToOneFeed(own, p, other);
    }
  }

  lemma LabelIsTrimmed(timeframe: string)
    ensures var tag := Strip(if timeframe != "" then timeframe else "1m");
      (if tag == "" then "1m" else tag) == if Strip(timeframe) == "" then "1m" else Strip(timeframe)
  {
    hide Strip;
    StripFixed("");
    StripFixed("1m");
  }

  lemma EventIdText(kind: string, ms: string, sequence: string, field: string)
    ensures kind + (ms + "-" + sequence + ":" + field) == kind + ms + "-" + sequence + ":" + field
  {
    assert kind + ms + "-" == kind + (ms + "-");
    assert kind + (ms + "-") + sequence == kind + (ms + "-" + sequence);
    assert kind + (ms + "-" + sequence) + ":" == kind + (ms + "-" + sequence + ":");
    assert kind + (ms + "-" + sequence + ":") + field == kind + (ms + "-" + sequence + ":" + field);
  }

  lemma OneTickEach(f: Feed, own: string, m: Message, id: StreamId, field: string, symbol: string, ts: int, a: Tick,
      b: Tick)
    requires TickSays(f, own, m, id, field, symbol, ts, a) && TickSays(f, own, m, id, field, symbol, ts, b)
    ensures a == b
  {
  }

  lemma PayloadTick(f: Feed, own: string, stream: string, id: StreamId, field: string, payload: string)
    requires Separated(f) && own in Bases(f) && Carries(stream, own)
    ensures var t := StreamPayloadToTick(f, stream, field, payload, id);
      && t.Some? == Parses(f, field, payload)
      && (t.Some? ==> PayloadSays(f, own, id, field, payload, t.value))
  {
    hide Separated, Carries, FeedMatches, Strip, Decimal;
    OnlyOwnFeedMatches(f, own, stream, f.bars);
    OnlyOwnFeedMatches(f, own, stream, f.trades);
    OnlyOwnFeedMatches(f, own, stream, f.quotes);
    LabelIsTrimmed(f.timeframe);
    EventIdText("md:bar:", Decimal(id.ms), Decimal(id.sequence), field);
    EventIdText("md:trade:", Decimal(id.ms), Decimal(id.sequence), field);
    EventIdText("md:quote:", Decimal(id.ms), Decimal(id.sequence), field);
  }

  /** A field is sent, as the tick its message stands for, exactly when it delivers one; else it is dropped. */
  lemma FieldIsSentExactly(f: Feed, own: string, stream: string, id: StreamId, field: string, payload: string,
      tick: Tick)
    requires Separated(f) && own in Bases(f) && Carries(stream, own)
    ensures var step := FieldStep(f, stream, id, (field, payload));
      && (step == Sent(stream, id, field, tick) <==> Delivers(f, own, id, field, payload, tick))
      && (if step.Sent? then step == Sent(stream, id, field, step.tick) else step == Dropped(stream, id, field))
  {
    hide StreamPayloadToTick, TickSays, Strip, Separated, Carries;
    PayloadTick(f, own, stream, id, field, payload);
    var t := StreamPayloadToTick(f, stream, field, payload, id);
    if t.Some? && Delivers(f, own, id, field, payload, tick) {
      var m := f.codec.decode(payload).value;
      OneTickEach(f, own, m, id, field, Strip(if m.symbol == "" then field else m.symbol),
                  f.codec.epochMs(Strip(m.timeUtc)).value, tick, t.value);
    }
  }

  // ----- Entries -----

  /** Field k of an entry delivers the tick. */
  predicate FieldDelivers(f: Feed, own: string, e: Entry, k: nat, field: string, tick: Tick) {
    && e.fields.Some? && k < |e.fields.value| && e.fields.value[k].0 == field
    && Delivers(f, own, e.id, field, e.fields.value[k].1, tick)
  }

  ghost predicate EntryDelivers(f: Feed, own: string, e: Entry, field: string, tick: Tick) {
    exists k: nat :: FieldDelivers(f, own, e, k, field, tick)
  }

  lemma {:induction false} FieldStepsPointwise(f: Feed, stream: string, id: StreamId, fields: seq<(string, string)>)
    ensures |FieldSteps(f, stream, id, fields)| == |fields|
    ensures forall k :: 0 <= k < |fields| ==>
      FieldSteps(f, stream, id, fields)[k] == FieldStep(f, stream, id, fields[k])
  {
    hide FieldStep;
    if fields != [] {
      var n := |fields| - 1;
      FieldStepsPointwise(f, stream, id, fields[..n]);
      assert forall k :: 0 <= k < n ==> fields[..n][k] == fields[k];
    }
  }

  lemma EntrySends(f: Feed, own: string, stream: string, e: Entry, field: string, tick: Tick)
    requires Separated(f) && own in Bases(f) && Carries(stream, own)
    ensures Sent(stream, e.id, field, tick) in EntrySteps(f, stream, e) <==> EntryDelivers(f, own, e, field, tick)
  {
    hide FieldStep, Delivers, Carries, Separated;
    var fields, step := e.fields.GetOr([]), Sent(stream, e.id, field, tick);
    FieldStepsPointwise(f, stream, e.id, fields);
    if step in EntrySteps(f, stream, e) {
      var k :| 0 <= k < |fields| && FieldStep(f, stream, e.id, fields[k]) == step;
      FieldIsSentExactly(f, own, stream, e.id, fields[k].0, fields[k].1, tick);
      assert FieldDelivers(f, own, e, k, field, tick);
    }
    if k: nat :| FieldDelivers(f, own, e, k, field, tick) {
      FieldIsSentExactly(f, own, stream, e.id, fields[k].0, fields[k].1, tick);
      assert EntrySteps(f, stream, e)[k] == step;
    }
  }

  ghost predicate DeliversAs(f: Feed, own: string, e: Entry, id: StreamId, field: string, tick: Tick) {
    e.id == id && EntryDelivers(f, own, e, field, tick)
  }

  ghost predicate SomeEntryDelivers(f: Feed, own: string, entries: seq<Entry>, id: StreamId, field: string,
      tick: Tick) {
    exists i :: 0 <= i < |entries| && DeliversAs(f, own, entries[i], id, field, tick)
  }

  lemma {:induction false} StepsSend(f: Feed, own: string, stream: string, entries: seq<Entry>, acked: bool,
      id: StreamId,
      field: string, tick: Tick)
    requires Separated(f) && own in Bases(f) && Carries(stream, own)
    ensures Sent(stream, id, field, tick) in Steps(f, stream, entries, acked)
      <==> SomeEntryDelivers(f, own, entries, id, field, tick)
  {
    if entries != [] {
      var n, step := |entries| - 1, Sent(stream, id, field, tick);
      StepsSend(f, own, stream, entries[..n], acked, id, field, tick);
      EntrySends(f, own, stream, entries[n], field, tick);
      FieldStepIds(f, stream, entries[n].id, entries[n].fields.GetOr([]));
      assert step in Steps(f, stream, entries, acked) <==>
        step in Steps(f, stream, entries[..n], acked) || step in EntrySteps(f, stream, entries[n]);
      LastDelivers(f, own, entries, id, field, tick);
    }
  }

  lemma LastDelivers(f: Feed, own: string, entries: seq<Entry>, id: StreamId, field: string, tick: Tick)
    requires entries != []
    ensures var n := |entries| - 1;
      SomeEntryDelivers(f, own, entries, id, field, tick) <==>
        || SomeEntryDelivers(f, own, entries[..n], id, field, tick)
        || DeliversAs(f, own, entries[n], id, field, tick)
  {
    hide EntryDelivers;
    var n := |entries| - 1;
    if i :| 0 <= i < n && DeliversAs(f, own, entries[..n][i], id, field, tick) {
      assert entries[i] == entries[..n][i];
    }
    if i :| 0 <= i < |entries| && DeliversAs(f, own, entries[i], id, field, tick) {
      if i < n {
        assert entries[..n][i] == entries[i];
      }
    }
  }

  // ----- Runs -----

  /**
   * After any run from a concrete start id, exactly the ticks that fields of the entries in (start, position] deliver
   * have been handed to the strategy.
   */
  lemma ReaderSendsExactly(f: Feed, own: string, log: X.Log, names: seq<string>, start: StreamId, count: nat,
      polls: seq<X.Poll>, s: string, id: StreamId, field: string, tick: Tick)
    requires Separated(f) && own in Bases(f) && Carries(s, own) && X.WellFormed(log) && s in names
    ensures var sys := X.Polled(f, X.After(start), count, X.Begun(log, names, X.After(start)), polls);
      && s in sys.client.positions && sys.client.positions[s].After?
      && (Sent(s, id, field, tick) in OnStream(sys.client.steps, s) <==>
            && Before(start, id) && !Before(sys.client.positions[s].id, id)
            && SomeEntryDelivers(f, own, X.Entries(sys.log, s), id, field, tick))
  {
    X.ExactlyOnce(f, log, names, start, count, polls, s);
    var sys := X.Polled(f, X.After(start), count, X.Begun(log, names, X.After(start)), polls);
    var entries, position := X.Entries(sys.log, s), sys.client.positions[s].id;
    var range := Between(entries, start, position);
    BetweenIsTheRange(entries, start, position);
    StepsSend(f, own, s, range, false, id, field, tick);
    PartDelivers(f, own, entries, range, start, position, id, field, tick);
  }

  /** Which entries deliver can be asked of the range or, together with the bounds, of the whole log. */
  lemma PartDelivers(f: Feed, own: string, entries: seq<Entry>, range: seq<Entry>, lo: StreamId, hi: StreamId,
      id: StreamId, field: string, tick: Tick)
    requires forall e :: e in range <==> e in entries && Before(lo, e.id) && !Before(hi, e.id)
    ensures SomeEntryDelivers(f, own, range, id, field, tick)
      <==> Before(lo, id) && !Before(hi, id) && SomeEntryDelivers(f, own, entries, id, field, tick)
  {
    hide EntryDelivers;
    if SomeEntryDelivers(f, own, range, id, field, tick) {
      var i :| 0 <= i < |range| && DeliversAs(f, own, range[i], id, field, tick);
      assert range[i] in entries;
    }
    if Before(lo, id) && !Before(hi, id) && SomeEntryDelivers(f, own, entries, id, field, tick) {
      var i :| 0 <= i < |entries| && DeliversAs(f, own, entries[i], id, field, tick);
      assert entries[i] in range;
    }
  }

  /** The consumer-group reader: exactly what the entries of replies that arrived deliver has been handed over. */
  lemma ConsumerSendsExactly(f: Feed, own: string, server: S.Server, names: seq<string>, count: nat,
      polls: seq<G.Poll>, s: string, id: StreamId, field: string, tick: Tick)
    requires Separated(f) && own in Bases(f) && Carries(s, own) && s in names && G.Resumable(S.At(server, s))
    ensures var sys := G.Polled(f, names, count, G.Begun(server, names), polls);
      var stream := S.At(sys.server, s);
      && G.Settable(stream)
      && (Sent(s, id, field, tick) in OnStream(sys.steps, s) <==>
            ReachedDelivers(f, own, stream, id, field, tick))
  {
    hide SomeEntryDelivers, ReachedDelivers, StreamEntries.Steps;
    G.EveryRunBalances(f, server, names, count, polls, s);
    var stream := S.At(G.Polled(f, names, count, G.Begun(server, names), polls).server, s);
    StepsSend(f, own, s, G.Select(G.HandedSoFar(stream), stream.reached, true), true, id, field, tick);
    ReachedAreSelected(f, own, stream, id, field, tick);
  }

  /** Some entry that the group handed out, in a reply that arrived, delivers the tick. */
  ghost predicate ReachedDelivers(f: Feed, own: string, s: S.Stream, id: StreamId, field: string, tick: Tick)
    requires G.Settable(s)
  {
    exists i :: 0 <= i < |s.reached| && s.reached[i] && DeliversAs(f, own, G.HandedSoFar(s)[i], id, field, tick)
  }

  lemma {:induction false} SelectedExactly(entries: seq<Entry>, flags: seq<bool>, e: Entry)
    requires |entries| == |flags|
    ensures e in G.Select(entries, flags, true) <==> exists i :: 0 <= i < |flags| && flags[i] && entries[i] == e
  {
    if entries != [] {
      var n := |entries| - 1;
      SelectedExactly(entries[..n], flags[..n], e);
      if i :| 0 <= i < |flags| && flags[i] && entries[i] == e {
        assert i < n ==> flags[..n][i] && entries[..n][i] == e;
      }
      if i :| 0 <= i < n && flags[..n][i] && entries[..n][i] == e {
        assert flags[i] && entries[i] == e;
      }
    }
  }

  lemma ReachedAreSelected(f: Feed, own: string, s: S.Stream, id: StreamId, field: string, tick: Tick)
    requires G.Settable(s)
    ensures ReachedDelivers(f, own, s, id, field, tick)
      <==> SomeEntryDelivers(f, own, G.Select(G.HandedSoFar(s), s.reached, true), id, field, tick)
  {
    hide DeliversAs;
    var handed := G.HandedSoFar(s);
    var chosen := G.Select(handed, s.reached, true);
    if i :| 0 <= i < |s.reached| && s.reached[i] && DeliversAs(f, own, handed[i], id, field, tick) {
      SelectedExactly(handed, s.reached, handed[i]);
      var k :| 0 <= k < |chosen| && chosen[k] == handed[i];
    }
    if k :| 0 <= k < |chosen| && DeliversAs(f, own, chosen[k], id, field, tick) {
      SelectedExactly(handed, s.reached, chosen[k]);
      var i :| 0 <= i < |s.reached| && s.reached[i] && handed[i] == chosen[k];
    }
  }

  // ----- Order and multiplicity -----

  /** Steps come in the order of their entries. */
  ghost predicate InOrder(steps: seq<Step>) {
    forall i, j :: 0 <= i < j < |steps| ==> !Before(steps[j].id, steps[i].id)
  }

  lemma InOrderWith(front: seq<Step>, more: seq<Step>, id: StreamId)
    requires InOrder(front) && forall step :: step in front ==> Before(step.id, id)
    requires forall step :: step in more ==> step.id == id
    ensures InOrder(front + more)
  {
    forall i, j | 0 <= i < j < |front + more| ensures !Before((front + more)[j].id, (front + more)[i].id) {
      if j >= |front| {
        assert (front + more)[j] in more;
        assert if i < |front| then (front + more)[i] in front else (front + more)[i] in more;
      }
    }
  }

  /** The steps of an entry: those of its fields and, in the consumer-group reader, its acknowledgement. */
  function OwnSteps(f: Feed, stream: string, e: Entry, acked: bool): seq<Step> {
    EntrySteps(f, stream, e) + if acked then [Acked(stream, e.id)] else []
  }

  lemma StepsOneMore(f: Feed, stream: string, entries: seq<Entry>, acked: bool)
    requires entries != [] && Ordered(entries)
    ensures var n := |entries| - 1;
      && Steps(f, stream, entries, acked) == Steps(f, stream, entries[..n], acked)
          + OwnSteps(f, stream, entries[n], acked)
      && (forall e :: e in entries[..n] ==> Before(e.id, entries[n].id))
      && (forall step :: step in OwnSteps(f, stream, entries[n], acked) ==> step.id == entries[n].id)
  {
    hide FieldStep;
    FieldStepIds(f, stream, entries[|entries| - 1].id, entries[|entries| - 1].fields.GetOr([]));
  }

  lemma {:induction false} StepsInOrder(f: Feed, stream: string, entries: seq<Entry>, acked: bool)
    requires Ordered(entries)
    ensures InOrder(Steps(f, stream, entries, acked))
    ensures forall step :: step in Steps(f, stream, entries, acked) ==> exists e :: e in entries && e.id == step.id
  {
    hide OwnSteps, InOrder;
    if entries == [] {
      assert InOrder([]) by { EmptyInOrder(); }
    } else {
      var n := |entries| - 1;
      StepsInOrder(f, stream, entries[..n], acked);
      StepsOneMore(f, stream, entries, acked);
      assert entries[n] in entries;
      InOrderWith(Steps(f, stream, entries[..n], acked), OwnSteps(f, stream, entries[n], acked), entries[n].id);
    }
  }

  lemma EmptyInOrder()
    ensures InOrder([])
  {
  }

  ghost predicate DistinctFields(entries: seq<Entry>) {
    forall e :: e in entries && e.fields.Some? ==> DistinctNames(e.fields.value)
  }

  predicate DistinctNames(fields: seq<(string, string)>) {
    forall a, b :: 0 <= a < b < |fields| ==> fields[a].0 != fields[b].0
  }

  lemma OwnStepsAreDistinct(f: Feed, stream: string, e: Entry, acked: bool)
    requires e.fields.Some? ==> DistinctNames(e.fields.value)
    ensures Distinct(OwnSteps(f, stream, e, acked))
  {
    hide StreamPayloadToTick, MatchesStrategy;
    var fields := e.fields.GetOr([]);
    FieldStepsPointwise(f, stream, e.id, fields);
    forall k | 0 <= k < |fields| ensures !EntrySteps(f, stream, e)[k].Acked?
        && EntrySteps(f, stream, e)[k].field == fields[k].0 {
      assert EntrySteps(f, stream, e)[k] == FieldStep(f, stream, e.id, fields[k]);
    }
  }

  lemma DistinctWith(front: seq<Step>, more: seq<Step>, id: StreamId)
    requires Distinct(front) && forall step :: step in front ==> step.id != id
    requires Distinct(more) && forall step :: step in more ==> step.id == id
    ensures Distinct(front + more)
  {
    forall i, j | 0 <= i < j < |front + more| ensures (front + more)[i] != (front + more)[j] {
      if i < |front| <= j {
        assert (front + more)[i] in front && (front + more)[j] in more;
      }
    }
  }

  /** With distinct field names, as a dictionary has them, no step occurs twice. */
  lemma {:induction false} StepsAreDistinct(f: Feed, stream: string, entries: seq<Entry>, acked: bool)
    requires Ordered(entries) && DistinctFields(entries)
    ensures Distinct(Steps(f, stream, entries, acked))
  {
    hide OwnSteps;
    if entries != [] {
      var n := |entries| - 1;
      var front := Steps(f, stream, entries[..n], acked);
      StepsAreDistinct(f, stream, entries[..n], acked);
      StepsInOrder(f, stream, entries[..n], acked);
      StepsOneMore(f, stream, entries, acked);
      assert entries[n] in entries;
      OwnStepsAreDistinct(f, stream, entries[n], acked);
      DistinctWith(front, OwnSteps(f, stream, entries[n], acked), entries[n].id);
    }
  }

  /** In every run the reader's steps on a stream follow the order of its entries, and none occurs twice. */
  lemma ReaderStepsOnceInOrder(f: Feed, log: X.Log, names: seq<string>, start: StreamId, count: nat,
      polls: seq<X.Poll>, s: string)
    requires X.WellFormed(log) && s in names
    requires DistinctFields(X.Entries(X.Polled(f, X.After(start), count, X.Begun(log, names, X.After(start)),
        polls).log, s))
    ensures var steps := OnStream(X.Polled(f, X.After(start), count, X.Begun(log, names, X.After(start)),
        polls).client.steps, s);
      InOrder(steps) && Distinct(steps)
  {
    hide StreamEntries.Steps, DistinctNames, InOrder;
    X.ExactlyOnce(f, log, names, start, count, polls, s);
    var sys := X.Polled(f, X.After(start), count, X.Begun(log, names, X.After(start)), polls);
    BetweenIsTheRange(X.Entries(sys.log, s), start, sys.client.positions[s].id);
    var range := Between(X.Entries(sys.log, s), start, sys.client.positions[s].id);
    StepsInOrder(f, s, range, false);
    StepsAreDistinct(f, s, range, false);
  }
}
