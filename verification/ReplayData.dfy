/** In-memory market data of a replay and the coordinator that fills it (replay_sdk_bridge.py). */
module ReplayData {
  import opened Wrappers

  datatype Bar = Bar(
    symbol: string, instrumentId: string, timeframe: string,
    open: real, high: real, low: real, close: real, volume: real, timestamp: int)

  datatype Quote = Quote(symbol: string, instrumentId: string, bid: real, ask: real, timestamp: int) {
    function MidPrice(): real {
      (bid + ask) / 2.0
    }
  }

  datatype Tick = Tick(symbol: string, instrumentId: string, price: real, size: real, timestamp: int)

  /** What an event amounts to once it has been applied. */
  datatype Item = BarItem(bar: Bar) | QuoteItem(quote: Quote) | TickItem(tick: Tick) | TimerItem(at: int) {
    function Timestamp(): int {
      match this
      case BarItem(b) => b.timestamp
      case QuoteItem(q) => q.timestamp
      case TickItem(t) => t.timestamp
      case TimerItem(at) => at
    }
  }

  /** The fields of a raw event that are looked at; `symbol` and `wireId` are already trimmed. */
  datatype Raw = Raw(symbol: string, wireId: string, nestedBar: bool, timeframe: string, barTimeframe: string)

  datatype Event =
    | BarEvent(raw: Raw, open: real, high: real, low: real, close: real, volume: real, tsMs: int)
    | QuoteEvent(raw: Raw, bid: real, ask: real, tsMs: int)
    | TickEvent(raw: Raw, price: real, size: real, tsMs: int)
    | TimerEvent(scheduledAtMs: int)

  datatype Settings = Settings(defaultTimeframe: string, validTimeframes: set<string>)

  function ResolveTimeframe(c: Settings, r: Raw): string {
    var raw := if r.timeframe != [] then r.timeframe else r.barTimeframe;
    if raw in c.validTimeframes then raw else c.defaultTimeframe
  }

  /** A nested bar is known by the id on the wire, everything else by its symbol, as far as they are given. */
  function ResolveInstrumentId(r: Raw): string {
    if r.nestedBar then (if r.wireId != [] then r.wireId else r.symbol)
    else if r.symbol != [] then r.symbol
    else r.wireId
  }

  /** An ask below the bid is raised to it. */
  function ItemOf(c: Settings, e: Event): (i: Item)
    ensures i.QuoteItem? ==> i.quote.bid <= i.quote.ask
  {
    match e
    case BarEvent(r, open, high, low, close, volume, ts) =>
      BarItem(Bar(r.symbol, ResolveInstrumentId(r), ResolveTimeframe(c, r), open, high, low, close, volume, ts))
    case QuoteEvent(r, bid, ask, ts) =>
      QuoteItem(Quote(r.symbol, ResolveInstrumentId(r), bid, if ask < bid then bid else ask, ts))
    case TickEvent(r, price, size, ts) => TickItem(Tick(r.symbol, ResolveInstrumentId(r), price, size, ts))
    case TimerEvent(ts) => TimerItem(ts)
  }

  /** The data service and the simulated clock, as a value. */
  datatype Store = Store(
    byKey: map<(string, string), seq<Bar>>,
    quotes: map<string, Quote>,
    ticks: map<string, Tick>,
    clock: Option<int>)

  const EMPTY := Store(map[], map[], map[], None)

  function Series(s: Store, id: string, timeframe: string): seq<Bar> {
    if (id, timeframe) in s.byKey then s.byKey[(id, timeframe)] else []
  }

  /** The last n elements, or all when there are fewer; what a negative slice start yields for n > 0. */
  function LastN<T>(xs: seq<T>, n: nat): (r: seq<T>)
    ensures |r| <= n && |r| <= |xs| && (|r| == n || |r| == |xs|)
    ensures r == xs[|xs| - |r|..]
  {
    if n < |xs| then xs[|xs| - n..] else xs
  }

  function Last<T>(xs: seq<T>): Option<T> {
    if xs == [] then None else Some(xs[|xs| - 1])
  }

  function Lookup<T>(m: map<string, T>, id: string): Option<T> {
    if id in m then Some(m[id]) else None
  }

  function Applied(s: Store, i: Item): Store {
    var timed := s.(clock := Some(i.Timestamp()));
    match i
    case BarItem(b) =>
      timed.(byKey := s.byKey[(b.instrumentId, b.timeframe) := Series(s, b.instrumentId, b.timeframe) + [b]])
    case QuoteItem(q) => timed.(quotes := s.quotes[q.instrumentId := q])
    case TickItem(t) => timed.(ticks := s.ticks[t.instrumentId := t])
    case TimerItem(_) => timed
  }

  class InMemoryReplayDataService {
    const primaryTimeframe: string
    var byKey: map<(string, string), seq<Bar>>
    var quotes: map<string, Quote>
    var ticks: map<string, Tick>

    constructor (primaryTimeframe: string)
      ensures this.primaryTimeframe == primaryTimeframe && Contents(None) == EMPTY
    {
      this.primaryTimeframe := primaryTimeframe;
      byKey, quotes, ticks := map[], map[], map[];
    }

    ghost function Contents(clock: Option<int>): Store
      reads this
    {
      Store(byKey, quotes, ticks, clock)
    }

    method AppendBar(bar: Bar)
      modifies this`byKey
      ensures byKey == old(byKey)[(bar.instrumentId, bar.timeframe) :=
        Series(old(Contents(None)), bar.instrumentId, bar.timeframe) + [bar]]
    {
      var key := (bar.instrumentId, bar.timeframe);
      var series := if key in byKey then byKey[key] else [];
      byKey := byKey[key := series + [bar]];
    }

    method RecordQuote(quote: Quote)
      modifies this`quotes
      ensures quotes == old(quotes)[quote.instrumentId := quote]
    {
      quotes := quotes[quote.instrumentId := quote];
    }

    method RecordTick(tick: Tick)
      modifies this`ticks
      ensures ticks == old(ticks)[tick.instrumentId := tick]
    {
      ticks := ticks[tick.instrumentId := tick];
    }

    method Bars(id: string, timeframe: string) returns (bars: seq<Bar>)
      ensures bars == Series(Contents(None), id, timeframe)
    {
      var key := (id, timeframe);
      return if key in byKey then byKey[key] else [];
    }

    method History(id: string, timeframe: string, lookback: int) returns (bars: seq<Bar>)
      ensures bars == if lookback <= 0 then [] else LastN(Series(Contents(None), id, timeframe), lookback)
    {
      var series := Bars(id, timeframe);
      if series == [] || lookback <= 0 {
        return [];
      }
      return if lookback < |series| then series[|series| - lookback..] else series;
    }

    method LatestBar(id: string, timeframe: string) returns (bar: Option<Bar>)
      ensures bar == Last(Series(Contents(None), id, timeframe))
    {
      var series := Bars(id, timeframe);
      return if series == [] then None else Some(series[|series| - 1]);
    }

    /** The last tick's price, else the last quote's middle, else the close of the last primary bar. */
    method LatestPrice(id: string) returns (price: Option<real>)
      ensures price == PriceOf(Contents(None), id, primaryTimeframe)
    {
      if id in ticks {
        return Some(ticks[id].price);
      }
      if id in quotes {
        return Some(quotes[id].MidPrice());
      }
      var bar := LatestBar(id, primaryTimeframe);
      return if bar.None? then None else Some(bar.value.close);
    }
  }

  function PriceOf(s: Store, id: string, timeframe: string): Option<real> {
    if id in s.ticks then Some(s.ticks[id].price)
    else if id in s.quotes then Some(s.quotes[id].MidPrice())
    else
      match Last(Series(s, id, timeframe))
      case None => None
      case Some(b) => Some(b.close)
  }

  class ReplayStateCoordinator {
    const settings: Settings
    const data: InMemoryReplayDataService
    var clock: Option<int>

    constructor (settings: Settings, data: InMemoryReplayDataService)
      ensures this.settings == settings && this.data == data && clock == None
    {
      this.settings, this.data := settings, data;
      clock := None;
    }

    ghost function State(): Store
      reads this, data
    {
      data.Contents(clock)
    }

    /** `apply_bar`, `apply_quote`, `apply_tick` and `apply_timer`: the clock moves before the state does. */
    method Apply(e: Event) returns (i: Item)
      modifies this, data
      ensures i == ItemOf(settings, e) && State() == Applied(old(State()), i)
    {
      i := ItemOf(settings, e);
      clock := Some(i.Timestamp());
      match i {
        case BarItem(bar) => data.AppendBar(bar);
        case QuoteItem(quote) => data.RecordQuote(quote);
        case TickItem(tick) => data.RecordTick(tick);
        case TimerItem(_) =>
      }
    }
  }

  // ----- The indexes against the log of applied items -----

  function StoreAfter(log: seq<Item>): Store {
    if log == [] then EMPTY else Applied(StoreAfter(log[..|log| - 1]), log[|log| - 1])
  }

  /** The bars of one key in the order they were applied. */
  function BarsOf(log: seq<Item>, id: string, timeframe: string): seq<Bar> {
    if log == [] then []
    else
      var before, last := BarsOf(log[..|log| - 1], id, timeframe), log[|log| - 1];
      if last.BarItem? && last.bar.instrumentId == id && last.bar.timeframe == timeframe then before + [last.bar]
          else before
  }

  function LastQuote(log: seq<Item>, id: string): Option<Quote> {
    if log == [] then None
    else if log[|log| - 1].QuoteItem? && log[|log| - 1].quote.instrumentId == id then Some(log[|log| - 1].quote)
    else LastQuote(log[..|log| - 1], id)
  }

  function LastTick(log: seq<Item>, id: string): Option<Tick> {
    if log == [] then None
    else if log[|log| - 1].TickItem? && log[|log| - 1].tick.instrumentId == id then Some(log[|log| - 1].tick)
    else LastTick(log[..|log| - 1], id)
  }

  /** What one item does to each index. */
  lemma IndexesAfterOne(s: Store, i: Item, id: string, timeframe: string)
    ensures Series(Applied(s, i), id, timeframe)
         == if i.BarItem? && i.bar.instrumentId == id && i.bar.timeframe == timeframe
             then Series(s, id, timeframe) + [i.bar]
            else Series(s, id, timeframe)
    ensures Lookup(Applied(s, i).quotes, id)
         == if i.QuoteItem? && i.quote.instrumentId == id then Some(i.quote) else Lookup(s.quotes, id)
    ensures Lookup(Applied(s, i).ticks, id)
         == if i.TickItem? && i.tick.instrumentId == id then Some(i.tick) else Lookup(s.ticks, id)
  {
  }

  /** After any items, every index is what the plain log says, and the clock stands at the last item. */
  lemma {:induction false} IndexesAgreeWithLog(log: seq<Item>, id: string, timeframe: string)
    ensures var s := StoreAfter(log);
      && Series(s, id, timeframe) == BarsOf(log, id, timeframe)
      && Lookup(s.quotes, id) == LastQuote(log, id)
      && Lookup(s.ticks, id) == LastTick(log, id)
      && s.clock == if log == [] then None else Some(log[|log| - 1].Timestamp())
  {
    if log != [] {
      IndexesAgreeWithLog(log[..|log| - 1], id, timeframe);
      IndexesAfterOne(StoreAfter(log[..|log| - 1]), log[|log| - 1], id, timeframe);
    }
  }

  /** After any items the latest price is the last tick's, else the last quote's middle, else the last bar's close. */
  lemma PriceFollowsLog(log: seq<Item>, id: string, timeframe: string)
    ensures var price, bars := PriceOf(StoreAfter(log), id, timeframe), BarsOf(log, id, timeframe);
      match LastTick(log, id)
      case Some(t) => price == Some(t.price)
      case None =>
        match LastQuote(log, id)
        case Some(q) => price == Some(q.MidPrice())
        case None => if bars == [] then price == None else price == Some(bars[|bars| - 1].close)
  {
    IndexesAgreeWithLog(log, id, timeframe);
  }

  lemma {:induction false} TickStaysLast(log: seq<Item>, more: seq<Item>, id: string)
    requires forall i :: i in more && i.TickItem? ==> i.tick.instrumentId != id
    ensures LastTick(log + more, id) == LastTick(log, id)
  {
    if more == [] {
      assert log + more == log;
    } else {
      var all := log + more;
      assert all[..|all| - 1] == log + more[..|more| - 1];
      assert more[|more| - 1] in more;
      TickStaysLast(log, more[..|more| - 1], id);
    }
  }

  /** Once there was a tick, no bar and no quote moves the latest price any more, however much later it is. */
  lemma OnlyTicksMoveTickedPrice(log: seq<Item>, more: seq<Item>, id: string, timeframe: string)
    requires LastTick(log, id).Some?
    requires forall i :: i in more && i.TickItem? ==> i.tick.instrumentId != id
    ensures PriceOf(StoreAfter(log + more), id, timeframe) == PriceOf(StoreAfter(log), id, timeframe)
  {
    TickStaysLast(log, more, id);
    PriceFollowsLog(log, id, timeframe);
    PriceFollowsLog(log + more, id, timeframe);
  }

  /** Every bar of a key's series was applied, at a place in the log that grows with its place in the series. */
  lemma {:induction false} SeriesFollowsLog(log: seq<Item>, id: string, timeframe: string, i: nat, j: nat)
      returns (m: nat, n: nat)
    requires i < j < |BarsOf(log, id, timeframe)|
    ensures m < n < |log|
    ensures log[m] == BarItem(BarsOf(log, id, timeframe)[i]) && log[n] == BarItem(BarsOf(log, id, timeframe)[j])
  {
    var before := BarsOf(log[..|log| - 1], id, timeframe);
    if j < |before| {
      m, n := SeriesFollowsLog(log[..|log| - 1], id, timeframe, i, j);
    } else {
      m := PlaceInLog(log[..|log| - 1], id, timeframe, i);
      n := |log| - 1;
    }
  }

  lemma {:induction false} PlaceInLog(log: seq<Item>, id: string, timeframe: string, i: nat) returns (m: nat)
    requires i < |BarsOf(log, id, timeframe)|
    ensures m < |log| && log[m] == BarItem(BarsOf(log, id, timeframe)[i])
  {
    if i < |BarsOf(log[..|log| - 1], id, timeframe)| {
      m := PlaceInLog(log[..|log| - 1], id, timeframe, i);
    } else {
      m := |log| - 1;
    }
  }

  /** And none is left out. */
  lemma {:induction false} SeriesIsComplete(log: seq<Item>, m: nat)
    requires m < |log| && log[m].BarItem?
    ensures log[m].bar in BarsOf(log, log[m].bar.instrumentId, log[m].bar.timeframe)
  {
    if m < |log| - 1 {
      SeriesIsComplete(log[..|log| - 1], m);
    }
  }

  /** The item is what the store calls the latest of its kind for its instrument, and it is now. */
  predicate IsCurrent(s: Store, i: Item) {
    && s.clock == Some(i.Timestamp())
    && match i
       case BarItem(b) => Last(Series(s, b.instrumentId, b.timeframe)) == Some(b)
       case QuoteItem(q) => Lookup(s.quotes, q.instrumentId) == Some(q) && q.bid <= q.ask
       case TickItem(t) => Lookup(s.ticks, t.instrumentId) == Some(t)
       case TimerItem(_) => true
  }

  lemma AppliedIsCurrent(c: Settings, s: Store, e: Event)
    ensures IsCurrent(Applied(s, ItemOf(c, e)), ItemOf(c, e))
  {
  }

  /** Quotes are never crossed, whatever bids and asks arrive. */
  lemma {:induction false} QuotesAreNeverCrossed(c: Settings, events: seq<Event>, id: string)
    ensures var q := LastQuote(Items(c, events), id); q.Some? ==> q.value.bid <= q.value.ask
  {
    if events != [] {
      assert Items(c, events)[..|events| - 1] == Items(c, events[..|events| - 1]);
      QuotesAreNeverCrossed(c, events[..|events| - 1], id);
    }
  }

  function Items(c: Settings, events: seq<Event>): seq<Item> {
    seq(|events|, i requires 0 <= i < |events| => ItemOf(c, events[i]))
  }
}
