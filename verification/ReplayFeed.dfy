/** Replayed market data stated over the raw events, and which events reach the indicators. */
module ReplayFeed {
  import opened Wrappers
  import opened ReplayData
  import I = Indicators
  import B = ReplayBridge

  /** A nested bar goes by the id on the wire before its symbol, everything else by the symbol before the id. */
  function KnownAs(r: Raw): string {
    if r.symbol == "" then r.wireId
    else if r.wireId == "" then r.symbol
    else if r.nestedBar then r.wireId
    else r.symbol
  }

  /** The timeframe an event names, itself or in its bar, if it is a valid one, else the default. */
  function NamedTimeframe(c: Settings, r: Raw): string {
    if r.timeframe != "" then (if r.timeframe in c.validTimeframes then r.timeframe else c.defaultTimeframe)
    else if r.barTimeframe in c.validTimeframes then r.barTimeframe
    else c.defaultTimeframe
  }

  /** The bars of one instrument and timeframe among the events, in order. */
  function BarsAmong(c: Settings, events: seq<Event>, id: string, timeframe: string): seq<Bar> {
    if events == [] then []
    else
      var before := BarsAmong(c, events[..|events| - 1], id, timeframe);
      match events[|events| - 1]
      case BarEvent(r, open, high, low, close, volume, ts) =>
        if KnownAs(r) == id && NamedTimeframe(c, r) == timeframe
            then before + [Bar(r.symbol, id, timeframe, open, high, low, close, volume, ts)]
        else before
      case _ => before
  }

  function LastTickPrice(events: seq<Event>, id: string): Option<real> {
    if events == [] then None
    else
      match events[|events| - 1]
      case TickEvent(r, price, _, _) =>
        if KnownAs(r) == id then Some(price) else LastTickPrice(events[..|events| - 1], id)
      case _ => LastTickPrice(events[..|events| - 1], id)
  }

  /** The middle of the last quote, whose ask counts as at least its bid. */
  function LastMiddle(events: seq<Event>, id: string): Option<real> {
    if events == [] then None
    else
      match events[|events| - 1]
      case QuoteEvent(r, bid, ask, _) =>
        if KnownAs(r) != id then LastMiddle(events[..|events| - 1], id)
        else Some(if ask <= bid then bid else (bid + ask) / 2.0)
      case _ => LastMiddle(events[..|events| - 1], id)
  }

  function TimeOf(e: Event): int {
    match e
    case BarEvent(_, _, _, _, _, _, ts) => ts
    case QuoteEvent(_, _, _, ts) => ts
    case TickEvent(_, _, _, ts) => ts
    case TimerEvent(at) => at
  }

  lemma ItemsOneMore(c: Settings, events: seq<Event>)
    requires events != []
    ensures var n := |events| - 1;
      Items(c, events) == Items(c, events[..n]) + [ItemOf(c, events[n])]
  {
  }

  lemma SameNames(c: Settings, r: Raw)
    ensures ResolveInstrumentId(r) == KnownAs(r) && ResolveTimeframe(c, r) == NamedTimeframe(c, r)
  {
  }

  lemma {:induction false} ItemsAreEvents(c: Settings, events: seq<Event>, id: string, timeframe: string)
    ensures BarsOf(Items(c, events), id, timeframe) == BarsAmong(c, events, id, timeframe)
  {
    hide KnownAs, NamedTimeframe, ResolveInstrumentId, ResolveTimeframe;
    if events != [] {
      var n := |events| - 1;
      ItemsAreEvents(c, events[..n], id, timeframe);
      ItemsOneMore(c, events);
      var items := Items(c, events);
      assert items[..|items| - 1] == Items(c, events[..n]);
      if events[n].BarEvent? {
        SameNames(c, events[n].raw);
      }
    }
  }

  lemma {:induction false} TicksAreEvents(c: Settings, events: seq<Event>, id: string)
    ensures var t := LastTick(Items(c, events), id);
      LastTickPrice(events, id) == if t.Some? then Some(t.value.price) else None
  {
    hide KnownAs, ResolveInstrumentId;
    if events != [] {
      var n := |events| - 1;
      TicksAreEvents(c, events[..n], id);
      ItemsOneMore(c, events);
      var items := Items(c, events);
      assert items[..|items| - 1] == Items(c, events[..n]);
      if events[n].TickEvent? {
        SameNames(c, events[n].raw);
      }
    }
  }

  lemma {:induction false} QuotesAreEvents(c: Settings, events: seq<Event>, id: string)
    ensures var q := LastQuote(Items(c, events), id);
      LastMiddle(events, id) == if q.Some? then Some(q.value.MidPrice()) else None
  {
    hide KnownAs, ResolveInstrumentId;
    if events != [] {
      var n := |events| - 1;
      QuotesAreEvents(c, events[..n], id);
      ItemsOneMore(c, events);
      var items := Items(c, events);
      assert items[..|items| - 1] == Items(c, events[..n]);
      if events[n].QuoteEvent? {
        SameNames(c, events[n].raw);
      }
    }
  }

  /** After any events a series is the bars of its instrument and timeframe among them, and the clock is the last's. */
  lemma SeriesOfEvents(c: Settings, events: seq<Event>, id: string, timeframe: string)
    ensures var s := StoreAfter(Items(c, events));
      && Series(s, id, timeframe) == BarsAmong(c, events, id, timeframe)
      && s.clock == if events == [] then None else Some(TimeOf(events[|events| - 1]))
  {
    IndexesAgreeWithLog(Items(c, events), id, timeframe);
    ItemsAreEvents(c, events, id, timeframe);
  }

  /** After any events the price is the last tick's, else the middle of the last quote, else the last bar's close. */
  lemma PriceOfEvents(c: Settings, events: seq<Event>, id: string, timeframe: string)
    ensures var bars := BarsAmong(c, events, id, timeframe);
      PriceOf(StoreAfter(Items(c, events)), id, timeframe) ==
        if LastTickPrice(events, id).Some? then LastTickPrice(events, id)
        else if LastMiddle(events, id).Some? then LastMiddle(events, id)
        else if bars != [] then Some(bars[|bars| - 1].close)
        else None
  {
    hide LastTickPrice, LastMiddle, BarsAmong, PriceOf;
    PriceFollowsLog(Items(c, events), id, timeframe);
    TicksAreEvents(c, events, id);
    QuotesAreEvents(c, events, id);
    ItemsAreEvents(c, events, id, timeframe);
  }

  // ----- Indicators -----

  /** Bars, quotes and ticks reach the indicators of their own source, timers none. */
  function IndicatorFeed(c: Settings, actions: seq<B.Action>): seq<I.Op<Item>> {
    if actions == [] then []
    else
      var before := IndicatorFeed(c, actions[..|actions| - 1]);
      match actions[|actions| - 1]
      case Register(r) => before + [I.Register(r)]
      case Dispatch(e) =>
        match e
        case BarEvent(_, _, _, _, _, _, _) => before + [I.Event(I.BAR, ItemOf(c, e))]
        case QuoteEvent(_, _, _, _) => before + [I.Event(I.QUOTE, ItemOf(c, e))]
        case TickEvent(_, _, _, _) => before + [I.Event(I.TICK, ItemOf(c, e))]
        case TimerEvent(_) => before
  }

  lemma {:induction false} FeedIsOps(c: Settings, actions: seq<B.Action>)
    ensures B.IndicatorOps(c, actions) == IndicatorFeed(c, actions)
  {
    if actions != [] {
      FeedIsOps(c, actions[..|actions| - 1]);
    }
  }

  /** In any session every indicator has seen exactly the events of its source since it was registered. */
  lemma SessionValuesAreFolds<S>(c: Settings, kind: I.Kind<S, Item>, actions: seq<B.Action>, k: nat)
    requires var rs := I.Registrations(IndicatorFeed(c, actions)); I.NoneShared(rs) && k < |rs|
    ensures var r := I.Registrations(IndicatorFeed(c, actions))[k];
      var events, board := I.EventsFor(IndicatorFeed(c, actions), r), B.After(c, kind, actions).board;
      && r.name in board.values
      && board.values[r.name] == if events == [] then None else kind.value(I.Fold(kind, r.obj, events))
  {
    FeedIsOps(c, actions);
    B.SessionSplits(c, kind, actions);
    I.ValuesAreFolds(kind, IndicatorFeed(c, actions), k);
  }
}
