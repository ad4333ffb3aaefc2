/** Stream entries, and what happens to one field of an entry (market_data_redis_feed.py). */
module StreamEntries {
  import opened Basics
  import opened Wrappers
  import opened Text
  import opened StreamKeys

  /** Redis entry ids, ordered first by milliseconds and then by sequence number. */
  datatype StreamId = StreamId(ms: nat, sequence: nat)

  predicate Before(a: StreamId, b: StreamId) {
    a.ms < b.ms || (a.ms == b.ms && a.sequence < b.sequence)
  }

  function IdText(id: StreamId): string {
    Decimal(id.ms) + "-" + Decimal(id.sequence)
  }

  /** `fields` is None when the client library did not hand out a dictionary. */
  datatype Entry = Entry(id: StreamId, fields: Option<seq<(string, string)>>)

  ghost predicate Ordered(entries: seq<Entry>) {
    forall i, j :: 0 <= i < j < |entries| ==> Before(entries[i].id, entries[j].id)
  }

  datatype Arrival = Arrival(stream: string, entry: Entry)

  /** One stream's part of a reply. */
  datatype Batch = Batch(stream: string, entries: seq<Entry>)

  /** How many of a stream's unread entries the server is going to hand out. */
  datatype Pick = Pick(stream: string, limit: nat)

  predicate Covers(batches: seq<Batch>, stream: string) {
    batches != [] && (batches[|batches| - 1].stream == stream || Covers(batches[..|batches| - 1], stream))
  }

  /** How many of a stream's unread entries a reply carries: what the first pick that offers any offers. */
  function Offered(picks: seq<Pick>, s: string, count: nat, unread: nat): nat {
    if picks == [] then 0
    else
      var earlier, last := Offered(picks[..|picks| - 1], s, count, unread), picks[|picks| - 1];
      if earlier > 0 || last.stream != s then earlier else Min(Min(last.limit, count), unread)
  }

  lemma {:induction false} FirstPickDecides(picks: seq<Pick>, s: string, count: nat, unread: nat, k: nat)
    requires k < |picks| && picks[k].stream == s && forall i :: 0 <= i < k ==> picks[i].stream != s
    requires Min(Min(picks[k].limit, count), unread) > 0
    ensures Offered(picks, s, count, unread) == Min(Min(picks[k].limit, count), unread)
  {
    if k < |picks| - 1 {
      FirstPickDecides(picks[..|picks| - 1], s, count, unread, k);
    } else {
      NoPickNothing(picks[..k], s, count, unread);
    }
  }

  lemma {:induction false} NoPickNothing(picks: seq<Pick>, s: string, count: nat, unread: nat)
    requires forall i :: 0 <= i < |picks| ==> picks[i].stream != s
    ensures Offered(picks, s, count, unread) == 0
  {
    if picks != [] {
      NoPickNothing(picks[..|picks| - 1], s, count, unread);
    }
  }

  /** Capped exponential backoff in seconds. */
  function BackoffSeconds(attempt: nat): (s: nat)
    ensures 1 <= s <= 30
  {
    if attempt >= 5 then 30 else [1, 2, 4, 8, 16][attempt]
  }

  /** Each wait doubles the one before it, up to half a minute. */
  lemma BackoffDoubles(attempt: nat)
    ensures BackoffSeconds(0) == 1
    ensures BackoffSeconds(attempt + 1) == if 2 * BackoffSeconds(attempt) <= 30 then 2 * BackoffSeconds(attempt) else 30
  {
  }

  // ----- Payloads to ticks -----

  /** A decoded JSON object: two texts and the numeric members that are present. */
  datatype Message = Message(timeUtc: string, symbol: string, numbers: map<string, real>)

  function Number(m: Message, name: string): real {
    if name in m.numbers then m.numbers[name] else 0.0
  }

  /** JSON decoding, time parsing and upper-casing are left uninterpreted. */
  datatype Codec = Codec(decode: string -> Option<Message>, epochMs: string -> Option<int>, upper: string -> string)

  datatype Feed = Feed(codec: Codec, bars: string, trades: string, quotes: string, timeframe: string,
      symbol: Option<string>)

  datatype Tick =
    | BarTick(eventId: string, symbol: string, timeframe: string, open: real, high: real, low: real, close: real,
              volume: real, tsMs: int, eventTime: string)
    | TradeTick(eventId: string, symbol: string, price: real, size: real, tsMs: int, eventTime: string)
    | QuoteTick(eventId: string, symbol: string, bid: real, ask: real, bidSize: real, askSize: real,
                tsMs: int, eventTime: string)

  function SymbolOf(m: Message, field: string): string {
    Strip(if m.symbol != "" then m.symbol else field)
  }

  function StreamPayloadToTick(f: Feed, stream: string, field: string, raw: string, id: StreamId): Option<Tick> {
    match f.codec.decode(raw)
    case None => None
    case Some(m) =>
      var time, symbol := Strip(m.timeUtc), SymbolOf(m, field);
      var ts := f.codec.epochMs(time);
      var suffix := IdText(id) + ":" + field;
      if ts.None? || symbol == "" then None
      else if FeedMatches(stream, f.bars) then
        var timeframe := Strip(if f.timeframe != "" then f.timeframe else "1m");
        Some(BarTick("md:bar:" + suffix, symbol, if timeframe == "" then "1m" else timeframe,
                     Number(m, "open"), Number(m, "high"), Number(m, "low"), Number(m, "close"),
                     Number(m, "volume"), ts.value, time))
      else if FeedMatches(stream, f.trades) then
        Some(TradeTick("md:trade:" + suffix, symbol, Number(m, "price"), Number(m, "size"), ts.value, time))
      else if FeedMatches(stream, f.quotes) then
        Some(QuoteTick("md:quote:" + suffix, symbol, Number(m, "bid_price"), Number(m, "ask_price"),
                       Number(m, "bid_size"), Number(m, "ask_size"), ts.value, time))
      else None
  }

  function Bases(f: Feed): set<string> {
    {f.bars, f.trades, f.quotes}
  }

  /** On a key of one feed's own stream only that feed's kind of tick is ever produced. */
  lemma KeyDecidesTickKind(f: Feed, own: string, p: nat, field: string, raw: string, id: StreamId)
    requires own in Bases(f)
    requires forall a, b :: a in Bases(f) && b in Bases(f) ==> !Extends(a, b)
    ensures var tick := StreamPayloadToTick(f, Key(own, p), field, raw, id);
      tick.Some? ==>
        && (own == f.bars <==> tick.value.BarTick?)
        && (own == f.trades && own != f.bars <==> tick.value.TradeTick?)
        && (own == f.quotes && own != f.bars && own != f.trades <==> tick.value.QuoteTick?)
  {
    KeyBelongsToOneFeed(own, p, f.bars);
    KeyBelongsToOneFeed(own, p, f.trades);
    KeyBelongsToOneFeed(own, p, f.quotes);
  }

  // ----- Observable steps -----

  /** What the outside sees: a tick handed to the strategy, a field dropped, or an entry acknowledged. */
  datatype Step =
    | Sent(stream: string, id: StreamId, field: string, tick: Tick)
    | Dropped(stream: string, id: StreamId, field: string)
    | Acked(stream: string, id: StreamId)

  predicate MatchesStrategy(f: Feed, field: string) {
    var traded := f.codec.upper(Strip(f.symbol.GetOr("")));
    traded == "" || f.codec.upper(Strip(field)) == traded
  }

  function FieldStep(f: Feed, stream: string, id: StreamId, field: (string, string)): Step {
    var tick := StreamPayloadToTick(f, stream, field.0, field.1, id);
    if tick.Some? && MatchesStrategy(f, field.0) then Sent(stream, id, field.0, tick.value)
    else Dropped(stream, id, field.0)
  }

  function FieldSteps(f: Feed, stream: string, id: StreamId, fields: seq<(string, string)>): seq<Step> {
    if fields == [] then []
    else FieldSteps(f, stream, id, fields[..|fields| - 1]) + [FieldStep(f, stream, id, fields[|fields| - 1])]
  }

  function EntrySteps(f: Feed, stream: string, e: Entry): seq<Step> {
    FieldSteps(f, stream, e.id, e.fields.GetOr([]))
  }

  /** The steps of several entries of one stream; `acked` adds the acknowledgement after each entry. */
  function Steps(f: Feed, stream: string, entries: seq<Entry>, acked: bool): seq<Step> {
    if entries == [] then []
    else
      var last := entries[|entries| - 1];
      Steps(f, stream, entries[..|entries| - 1], acked) + EntrySteps(f, stream, last)
      + if acked then [Acked(stream, last.id)] else []
  }

  function OnStream(steps: seq<Step>, stream: string): seq<Step> {
    if steps == [] then []
    else
      var last := steps[|steps| - 1];
      OnStream(steps[..|steps| - 1], stream) + if last.stream == stream then [last] else []
  }

  lemma {:induction false} StepsConcat(f: Feed, stream: string, a: seq<Entry>, b: seq<Entry>, acked: bool)
    ensures Steps(f, stream, a + b, acked) == Steps(f, stream, a, acked) + Steps(f, stream, b, acked)
  {
    if b == [] {
      assert a + b == a;
    } else {
      var ab := a + b;
      StepsConcat(f, stream, a, b[..|b| - 1], acked);
      assert ab[..|ab| - 1] == a + b[..|b| - 1];
    }
  }

  lemma {:induction false} OnStreamConcat(a: seq<Step>, b: seq<Step>, stream: string)
    ensures OnStream(a + b, stream) == OnStream(a, stream) + OnStream(b, stream)
  {
    if b == [] {
      assert a + b == a;
    } else {
      var ab := a + b;
      OnStreamConcat(a, b[..|b| - 1], stream);
      assert ab[..|ab| - 1] == a + b[..|b| - 1];
    }
  }

  lemma {:induction false} OnStreamPure(steps: seq<Step>, own: string, stream: string)
    requires forall i :: 0 <= i < |steps| ==> steps[i].stream == own
    ensures OnStream(steps, stream) == if stream == own then steps else []
  {
    if steps != [] {
      OnStreamPure(steps[..|steps| - 1], own, stream);
    }
  }

  lemma {:induction false} FieldStepsStream(f: Feed, stream: string, id: StreamId, fields: seq<(string, string)>)
    ensures forall s :: s in FieldSteps(f, stream, id, fields) ==> s.stream == stream
  {
    if fields != [] {
      FieldStepsStream(f, stream, id, fields[..|fields| - 1]);
    }
  }

  lemma {:induction false} FieldStepIds(f: Feed, stream: string, id: StreamId, fields: seq<(string, string)>)
    ensures forall step :: step in FieldSteps(f, stream, id, fields) ==> step.id == id
  {
    if fields != [] {
      FieldStepIds(f, stream, id, fields[..|fields| - 1]);
    }
  }

  lemma {:induction false} StepsStream(f: Feed, stream: string, entries: seq<Entry>, acked: bool)
    ensures forall s :: s in Steps(f, stream, entries, acked) ==> s.stream == stream
  {
    if entries != [] {
      StepsStream(f, stream, entries[..|entries| - 1], acked);
      var last := entries[|entries| - 1];
      FieldStepsStream(f, stream, last.id, last.fields.GetOr([]));
    }
  }

  /** Appending one stream's steps shows on that stream only. */
  lemma OnStreamAppend(f: Feed, before: seq<Step>, own: string, entries: seq<Entry>, acked: bool, stream: string)
    ensures OnStream(before + Steps(f, own, entries, acked), stream) ==
      OnStream(before, stream) + if stream == own then Steps(f, own, entries, acked) else []
  {
    var more := Steps(f, own, entries, acked);
    OnStreamConcat(before, more, stream);
    StepsStream(f, own, entries, acked);
    OnStreamPure(more, own, stream);
  }

  // ----- Positions in an ordered log -----

  /** How many entries have an id up to and including `id`. */
  function Rank(entries: seq<Entry>, id: StreamId): (r: nat)
    ensures r <= |entries|
  {
    if entries == [] then 0
    else Rank(entries[..|entries| - 1], id) + if Before(id, entries[|entries| - 1].id) then 0 else 1
  }

  /** In an ordered log the entries up to `id` are the first Rank(id) ones. */
  lemma {:induction false} RankSplits(entries: seq<Entry>, id: StreamId)
    requires Ordered(entries)
    ensures forall i :: 0 <= i < |entries| ==> (i < Rank(entries, id) <==> !Before(id, entries[i].id))
  {
    if entries != [] {
      var n := |entries| - 1;
      RankSplits(entries[..n], id);
      forall i | 0 <= i < |entries| ensures i < Rank(entries, id) <==> !Before(id, entries[i].id) {
        if i < n {
          assert entries[..n][i] == entries[i];
        }
      }
    }
  }

  lemma RankOfOwnId(entries: seq<Entry>, i: nat)
    requires Ordered(entries) && i < |entries|
    ensures Rank(entries, entries[i].id) == i + 1
  {
    RankSplits(entries, entries[i].id);
    if i + 1 < |entries| {
      assert Before(entries[i].id, entries[i + 1].id);
    }
  }

  /** The log entries after `lo`, up to and including `hi`. */
  function Between(entries: seq<Entry>, lo: StreamId, hi: StreamId): seq<Entry> {
    var a, b := Rank(entries, lo), Rank(entries, hi);
    if a <= b then entries[a..b] else []
  }

  /** Between means what it says: exactly the entries with lo < id <= hi, in log order. */
  lemma BetweenIsTheRange(entries: seq<Entry>, lo: StreamId, hi: StreamId)
    requires Ordered(entries)
    ensures Ordered(Between(entries, lo, hi))
    ensures forall e :: e in Between(entries, lo, hi) <==> e in entries && Before(lo, e.id) && !Before(hi, e.id)
  {
    RankSplits(entries, lo);
    RankSplits(entries, hi);
    var range, a, b := Between(entries, lo, hi), Rank(entries, lo), Rank(entries, hi);
    forall e | e in entries && Before(lo, e.id) && !Before(hi, e.id) ensures e in range {
      var i :| 0 <= i < |entries| && entries[i] == e;
      assert a <= i < b;
      assert range[i - a] == e;
    }
  }
}
