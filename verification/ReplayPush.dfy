/** Backtest ingress of pushed replay events (`push_replay_context` in lifecycle_service.py). */
module ReplayPush {
  import opened Wrappers
  import opened ReplayGateway
  import opened Text
  import BarTimeframe

  /**
   * A pushed event: the times found under its own event_time and under its payload's event_time, timestamp, ts and
   * time keys, the labels of its payload, and whether the strategy's callback would raise on it.
   */
  datatype Event = Event(
    id: string, eventTime: Option<int>, payloadTimes: (Option<int>, Option<int>, Option<int>, Option<int>),
    eventType: string, timeframe: string, raises: bool)

  function OrElse(a: Option<int>, b: Option<int>): Option<int> {
    if a.Some? then a else b
  }

  function MarketTimestamp(e: Event): Option<int> {
    var p := e.payloadTimes;
    OrElse(e.eventTime, OrElse(p.0, OrElse(p.1, OrElse(p.2, p.3))))
  }

  /** An event as it is handed on, with its effective time. */
  datatype Delivered = Delivered(event: Event, time: Option<int>)

  /** `window` is there when both ends of the backtest can be parsed; `skip` is the bar and timeframe filter. */
  datatype Config = Config(backtest: bool, window: Option<(int, int)>, skip: Event -> bool)

  datatype Call = Call(cursor: string, events: seq<Event>, simulatedTime: Option<int>, endOfStream: bool)

  datatype State = State(
    gateway: Gateway<Delivered>, lastCursor: string, lastDataTimestamp: Option<int>, complete: bool)

  function Deliver(call: Call, e: Event): Delivered {
    Delivered(e, OrElse(MarketTimestamp(e), call.simulatedTime))
  }

  predicate InWindow(c: Config, time: Option<int>) {
    c.backtest && c.window.Some? && time.Some? ==> c.window.value.0 <= time.value <= c.window.value.1
  }

  /** What passes the window and the filter. */
  predicate Admits(c: Config, d: Delivered) {
    InWindow(c, d.time) && !(c.backtest && c.skip(d.event))
  }

  /** The events of a list that are handed on, in order. */
  function Admitted(c: Config, call: Call, events: seq<Event>): seq<Delivered> {
    if events == [] then []
    else
      var before, d := Admitted(c, call, events[..|events| - 1]), Deliver(call, events[|events| - 1]);
      if Admits(c, d) then before + [d] else before
  }

  /** The last time among what was handed on. */
  function LastTime(ds: seq<Delivered>): Option<int> {
    if ds == [] then None else OrElse(ds[|ds| - 1].time, LastTime(ds[..|ds| - 1]))
  }

  function IngestedAll(g: Gateway<Delivered>, wired: bool, ds: seq<Delivered>): Gateway<Delivered> {
    if ds == [] then g
    else Ingested(IngestedAll(g, wired, ds[..|ds| - 1]), wired, ds[|ds| - 1], ds[|ds| - 1].time)
  }

  /** How many events are looked at: all, or those up to the first on which the callback raises. */
  function LookedAt(c: Config, call: Call, i: nat): nat
    requires i <= |call.events|
    decreases |call.events| - i
  {
    if i == |call.events| then i
    else if Admits(c, Deliver(call, call.events[i])) && call.events[i].raises then i + 1
    else LookedAt(c, call, i + 1)
  }

  lemma {:induction false} LookedAtBounds(c: Config, call: Call, i: nat)
    requires i <= |call.events|
    ensures i <= LookedAt(c, call, i) <= |call.events|
    decreases |call.events| - i
  {
    if i < |call.events| {
      LookedAtBounds(c, call, i + 1);
    }
  }

  predicate Raises(c: Config, call: Call) {
    exists i :: 0 <= i < |call.events| && call.events[i].raises && Admits(c, Deliver(call, call.events[i]))
  }

  /** What a call hands on. */
  function HandedOn(c: Config, call: Call): seq<Delivered> {
    LookedAtBounds(c, call, 0);
    Admitted(c, call, call.events[..LookedAt(c, call, 0)])
  }

  /** A call's effect and its consumed count; None when the callback's exception reaches the caller. */
  function Pushed(c: Config, wired: bool, s: State, call: Call): (State, Option<nat>) {
    var s1 := s.(lastCursor := call.cursor);
    if c.backtest && s.complete then (s1, Some(0))
    else
      var ds := HandedOn(c, call);
      var s2 := s1.(gateway := IngestedAll(s.gateway, wired, ds));
      if Raises(c, call) then (s2, None)
      else
        (s2.(lastDataTimestamp := OrElse(LastTime(ds), s.lastDataTimestamp),
             complete := s.complete || (c.backtest && call.endOfStream)),
         Some(|ds|))
  }

  class ReplayIngressService {
    const config: Config
    const gateway: ReplayIngress<Delivered>
    var lastReplayCursor: string
    var lastDataEventTimestamp: Option<int>
    var backtestReplayComplete: bool

    constructor (config: Config, gateway: ReplayIngress<Delivered>)
      requires gateway.State() == Gateway(None, [], false)
      ensures this.config == config && this.gateway == gateway
      ensures Snapshot() == State(Gateway(None, [], false), [], None, false)
    {
      this.config, this.gateway := config, gateway;
      lastReplayCursor, lastDataEventTimestamp, backtestReplayComplete := [], None, false;
    }

    ghost function Snapshot(): State
      reads this, gateway
    {
      State(gateway.State(), lastReplayCursor, lastDataEventTimestamp, backtestReplayComplete)
    }

    /** One event of a call: handed on if it is admitted. */
    method PushOne(call: Call, e: Event) returns (admitted: bool)
      modifies gateway
      ensures var d := Deliver(call, e);
        && admitted == Admits(config, d)
        && gateway.State() == if admitted then Ingested(old(gateway.State()), gateway.wired, d, d.time)
            else old(gateway.State())
    {
      var d := Deliver(call, e);
      if config.backtest && config.window.Some? && d.time.Some? {
        if d.time.value < config.window.value.0 || d.time.value > config.window.value.1 {
          return false;
        }
      }
      if config.backtest && config.skip(d.event) {
        return false;
      }
      var _ := gateway.IngestReplayTick(d, d.time);
      return true;
    }

    /** The loop over the events of a call. */
    method PushEvents(call: Call) returns (raised: bool, consumed: nat, lastEffectiveSim: Option<int>)
      modifies gateway
      ensures raised == Raises(config, call)
      ensures gateway.State() == IngestedAll(old(gateway.State()), gateway.wired, HandedOn(config, call))
      ensures !raised ==> consumed == |HandedOn(config, call)| && lastEffectiveSim == LastTime(HandedOn(config, call))
    {
      hide Admits, MarketTimestamp;
      raised, consumed, lastEffectiveSim := false, 0, None;
      for i := 0 to |call.events|
        invariant LookedAt(config, call, i) == LookedAt(config, call, 0)
        invariant forall k :: 0 <= k < i ==> !(call.events[k].raises && Admits(config, Deliver(call, call.events[k])))
        invariant gateway.State()
            == IngestedAll(old(gateway.State()), gateway.wired, Admitted(config, call, call.events[..i]))
        invariant !raised && consumed == |Admitted(config, call, call.events[..i])|
        invariant lastEffectiveSim == LastTime(Admitted(config, call, call.events[..i]))
      {
        OneMoreEvent(config, call, i);
        ghost var before := Admitted(config, call, call.events[..i]);
        var d := Deliver(call, call.events[i]);
        var admitted := PushOne(call, call.events[i]);
        if !admitted {
          continue;
        }
        assert (before + [d])[..|before|] == before;
        if d.event.raises {
          return true, consumed, lastEffectiveSim;
        }
        consumed := consumed + 1;
        if d.time.Some? {
          lastEffectiveSim := d.time;
        }
      }
      assert call.events[..|call.events|] == call.events;
    }

    method PushReplayContext(call: Call) returns (consumed: Option<nat>)
      modifies this, gateway
      ensures (Snapshot(), consumed) == Pushed(config, gateway.wired, old(Snapshot()), call)
    {
      lastReplayCursor := call.cursor;
      if config.backtest && backtestReplayComplete {
        return Some(0);
      }
      var raised, count, lastEffectiveSim := PushEvents(call);
      if raised {
        return None;
      }
      if lastEffectiveSim.Some? {
        lastDataEventTimestamp := lastEffectiveSim;
      }
      if config.backtest && call.endOfStream {
        backtestReplayComplete := true;
      }
      return Some(count);
    }
  }

  lemma OneMoreEvent(c: Config, call: Call, i: nat)
    requires i < |call.events|
    ensures var before, d := Admitted(c, call, call.events[..i]), Deliver(call, call.events[i]);
      && Admitted(c, call, call.events[..i + 1]) == (if Admits(c, d) then before + [d] else before)
      && LookedAt(c, call, i) == if Admits(c, d) && d.event.raises then i + 1 else LookedAt(c, call, i + 1)
  {
    assert call.events[..i + 1][..i] == call.events[..i];
  }

  // ----- Whole runs -----

  const CREATED := State(Gateway(None, [], false), [], None, false)

  function After(c: Config, wired: bool, calls: seq<Call>): State {
    if calls == [] then CREATED else Pushed(c, wired, After(c, wired, calls[..|calls| - 1]), calls[|calls| - 1]).0
  }

  lemma {:induction false} IngestingAppends(g: Gateway<Delivered>, wired: bool, ds: seq<Delivered>)
    ensures IngestedAll(g, wired, ds).ticks == g.ticks + ds
  {
    if ds != [] {
      IngestingAppends(g, wired, ds[..|ds| - 1]);
    }
  }

  lemma {:induction false} AdmittedAreAdmissible(c: Config, call: Call, events: seq<Event>, i: nat)
    requires i < |Admitted(c, call, events)|
    ensures Admits(c, Admitted(c, call, events)[i])
  {
    if i < |Admitted(c, call, events[..|events| - 1])| {
      AdmittedAreAdmissible(c, call, events[..|events| - 1], i);
    }
  }

  lemma {:induction false} LastTimeIsOfOne(ds: seq<Delivered>) returns (i: nat)
    requires LastTime(ds).Some?
    ensures i < |ds| && ds[i].time == LastTime(ds)
  {
    if ds[|ds| - 1].time.Some? {
      i := |ds| - 1;
    } else {
      i := LastTimeIsOfOne(ds[..|ds| - 1]);
    }
  }

  /** A call that returns has ingested exactly as many ticks as it says, at the end of what was there. */
  lemma ConsumedIsIngested(c: Config, wired: bool, s: State, call: Call)
    ensures var (s', consumed) := Pushed(c, wired, s, call);
      && s.gateway.ticks <= s'.gateway.ticks
      && (consumed.Some? ==> consumed.value == |s'.gateway.ticks| - |s.gateway.ticks|)
      && (c.backtest && s.complete ==> s'.gateway == s.gateway && s'.complete && consumed == Some(0))
  {
    IngestingAppends(s.gateway, wired, HandedOn(c, call));
  }

  /** What a backtest has ingested lies in its window and passes the filter, and so does its last data time. */
  ghost predicate Sound(c: Config, s: State) {
    && (forall i :: 0 <= i < |s.gateway.ticks| ==> Admits(c, s.gateway.ticks[i]))
    && InWindow(c, s.lastDataTimestamp)
  }

  lemma CallKeepsSound(c: Config, wired: bool, s: State, call: Call)
    requires Sound(c, s)
    ensures Sound(c, Pushed(c, wired, s, call).0)
  {
    var ds := HandedOn(c, call);
    LookedAtBounds(c, call, 0);
    IngestingAppends(s.gateway, wired, ds);
    forall i | 0 <= i < |ds| ensures Admits(c, ds[i]) {
      AdmittedAreAdmissible(c, call, call.events[..LookedAt(c, call, 0)], i);
    }
    if LastTime(ds).Some? {
      var i := LastTimeIsOfOne(ds);
    }
  }

  /** Over any calls nothing outside the window or of the wrong kind is ever ingested. */
  lemma {:induction false} RunsStaySound(c: Config, wired: bool, calls: seq<Call>)
    ensures Sound(c, After(c, wired, calls))
  {
    if calls != [] {
      RunsStaySound(c, wired, calls[..|calls| - 1]);
      CallKeepsSound(c, wired, After(c, wired, calls[..|calls| - 1]), calls[|calls| - 1]);
    }
  }

  /** After one call that ended the stream of a backtest and returned, no later call ingests anything. */
  lemma {:induction false} NothingAfterEndOfStream(c: Config, wired: bool, calls: seq<Call>, last: Call,
      later: seq<Call>)
    requires c.backtest && last.endOfStream && Pushed(c, wired, After(c, wired, calls), last).1.Some?
    ensures var ended, s := After(c, wired, calls + [last]), After(c, wired, calls + [last] + later);
      s.complete && s.gateway == ended.gateway && s.lastDataTimestamp == ended.lastDataTimestamp
  {
    assert (calls + [last])[..|calls|] == calls;
    var all := calls + [last] + later;
    if later == [] {
      assert all == calls + [last];
    } else {
      assert all[..|all| - 1] == calls + [last] + later[..|later| - 1];
      NothingAfterEndOfStream(c, wired, calls, last, later[..|later| - 1]);
    }
  }

  /** A backtest worker's configuration. */
  function BacktestConfig(window: Option<(int, int)>, expected: string): Config {
    Config(true, window, (e: Event) => BarTimeframe.SkipForIngest(e.eventType, e.timeframe, expected))
  }

  /**
   * What a backtest ingests are bars of the expected timeframe, or without one, and those with a time lie in the
   * window.
   */
  lemma BacktestsIngestExpectedBars(window: Option<(int, int)>, expected: string, wired: bool, calls: seq<Call>, i: nat)
    requires i < |After(BacktestConfig(window, expected), wired, calls).gateway.ticks|
    ensures var d := After(BacktestConfig(window, expected), wired, calls).gateway.ticks[i];
      && Lower(Strip(d.event.eventType)) == "market.bar"
      && (Strip(d.event.timeframe) == "" || BarTimeframe.SameTimeframe(d.event.timeframe, expected))
      && (window.Some? && d.time.Some? ==> window.value.0 <= d.time.value <= window.value.1)
  {
    hide Strip, Lower, BarTimeframe.NormalizeLabel;
    RunsStaySound(BacktestConfig(window, expected), wired, calls);
    var d := After(BacktestConfig(window, expected), wired, calls).gateway.ticks[i];
    BarTimeframe.NormalizedExactly(d.event.timeframe, expected);
  }
}
