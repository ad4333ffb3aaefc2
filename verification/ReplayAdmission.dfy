/** Which pushed events reach the strategy, stated over their labels and times. */
module ReplayAdmission {
  import opened Wrappers
  import opened Text
  import opened ReplayGateway
  import opened ReplayPush
  import BarTimeframe

  // ----- Which events pass -----

  /** The first time that is there. */
  function FirstOf(times: seq<Option<int>>): Option<int> {
    if times == [] then None else if times[0].Some? then times[0] else FirstOf(times[1..])
  }

  /** An event's own time, else one of its payload's, else the batch's. */
  function EffectiveTime(e: Event, simulatedTime: Option<int>): Option<int> {
    FirstOf([e.eventTime, e.payloadTimes.0, e.payloadTimes.1, e.payloadTimes.2, e.payloadTimes.3, simulatedTime])
  }

  /** A bar, of the expected timeframe or of an unnamed one, with a time in the closed window or none. */
  predicate Passes(window: Option<(int, int)>, expected: string, e: Event, simulatedTime: Option<int>) {
    && Lower(Strip(e.eventType)) == "market.bar"
    && (Strip(e.timeframe) == "" || BarTimeframe.SameTimeframe(e.timeframe, expected))
    && match (window, EffectiveTime(e, simulatedTime))
       case (Some((first, last)), Some(time)) => first <= time <= last
       case _ => true
  }

  /** The events among the first n that a backtest passes on, with their times. */
  function Passing(window: Option<(int, int)>, expected: string, call: Call, n: nat): seq<Delivered>
    requires n <= |call.events|
  {
    if n == 0 then []
    else
      var before, e := Passing(window, expected, call, n - 1), call.events[n - 1];
      if Passes(window, expected, e, call.simulatedTime)
          then before + [Delivered(e, EffectiveTime(e, call.simulatedTime))]
      else before
  }

  lemma EffectiveTimeIsTheFirst(e: Event, simulatedTime: Option<int>)
    ensures EffectiveTime(e, simulatedTime) == OrElse(MarketTimestamp(e), simulatedTime)
  {
    var times := [e.eventTime, e.payloadTimes.0, e.payloadTimes.1, e.payloadTimes.2, e.payloadTimes.3, simulatedTime];
    assert times[1..] == [times[1], times[2], times[3], times[4], times[5]];
    assert times[1..][1..] == [times[2], times[3], times[4], times[5]];
    assert times[1..][1..][1..] == [times[3], times[4], times[5]];
    assert times[1..][1..][1..][1..] == [times[4], times[5]];
    assert times[1..][1..][1..][1..][1..] == [times[5]];
    FirstSteps(times);
    FirstSteps(times[1..]);
    FirstSteps(times[1..][1..]);
    FirstSteps(times[1..][1..][1..]);
    FirstSteps(times[1..][1..][1..][1..]);
    FirstSteps([times[5]]);
    assert FirstOf([times[5]][1..]) == None;
  }

  lemma FirstSteps(times: seq<Option<int>>)
    requires times != []
    ensures FirstOf(times) == if times[0].Some? then times[0] else FirstOf(times[1..])
  {
  }

  lemma PassesExactly(window: Option<(int, int)>, expected: string, call: Call, e: Event)
    ensures Deliver(call, e) == Delivered(e, EffectiveTime(e, call.simulatedTime))
    ensures Admits(BacktestConfig(window, expected), Deliver(call, e))
        <==> Passes(window, expected, e, call.simulatedTime)
  {
    hide Strip, Lower, EffectiveTime, BarTimeframe.SameTimeframe, BarTimeframe.NormalizeLabel;
    EffectiveTimeIsTheFirst(e, call.simulatedTime);
    BarTimeframe.NormalizedExactly(e.timeframe, expected);
  }

  lemma {:induction false} AdmittedArePassing(window: Option<(int, int)>, expected: string, call: Call, n: nat)
    requires n <= |call.events|
    ensures Admitted(BacktestConfig(window, expected), call, call.events[..n]) == Passing(window, expected, call, n)
  {
    hide Admits, Passes, Deliver, EffectiveTime;
    if n > 0 {
      assert call.events[..n][..n - 1] == call.events[..n - 1];
      AdmittedArePassing(window, expected, call, n - 1);
      PassesExactly(window, expected, call, call.events[n - 1]);
    }
  }

  // ----- Calls -----

  /** The strategy's callback raises on event i, which is passed on, and on none before it. */
  ghost predicate FirstRaises(window: Option<(int, int)>, expected: string, call: Call, i: nat) {
    && i < |call.events| && call.events[i].raises && Passes(window, expected, call.events[i], call.simulatedTime)
    && NoneRaises(window, expected, call, i)
  }

  predicate NoneRaises(window: Option<(int, int)>, expected: string, call: Call, n: nat)
    requires n <= |call.events|
  {
    forall k :: 0 <= k < n ==>
      !(call.events[k].raises && Passes(window, expected, call.events[k], call.simulatedTime))
  }

  lemma {:induction false} LooksUpTo(window: Option<(int, int)>, expected: string, call: Call, i: nat)
    requires i <= |call.events| && NoneRaises(window, expected, call, i)
    ensures var n := LookedAt(BacktestConfig(window, expected), call, i);
      if NoneRaises(window, expected, call, |call.events|) then n == |call.events|
      else 0 < n <= |call.events| && FirstRaises(window, expected, call, n - 1)
    decreases |call.events| - i
  {
    hide Passes, Admits, Deliver;
    if i < |call.events| {
      PassesExactly(window, expected, call, call.events[i]);
      if !(call.events[i].raises && Passes(window, expected, call.events[i], call.simulatedTime)) {
        LooksUpTo(window, expected, call, i + 1);
      } else {
        assert !NoneRaises(window, expected, call, |call.events|);
      }
    }
  }

  lemma RaisesExactly(window: Option<(int, int)>, expected: string, call: Call)
    ensures Raises(BacktestConfig(window, expected), call) <==> !NoneRaises(window, expected, call, |call.events|)
  {
    hide Passes, Admits, Deliver;
    forall i | 0 <= i < |call.events|
      ensures Admits(BacktestConfig(window, expected), Deliver(call, call.events[i]))
          <==> Passes(window, expected, call.events[i], call.simulatedTime)
    {
      PassesExactly(window, expected, call, call.events[i]);
    }
  }

  /**
   * A call on a backtest that is not complete, on none of whose passing events the callback raises, passes on exactly
   * the events that pass, in order and with their times, and returns their number.
   */
  lemma BacktestCallReturns(window: Option<(int, int)>, expected: string, wired: bool, s: State, call: Call)
    requires !s.complete && NoneRaises(window, expected, call, |call.events|)
    ensures var (s', consumed) := Pushed(BacktestConfig(window, expected), wired, s, call);
      var passing := Passing(window, expected, call, |call.events|);
      && consumed == Some(|passing|) && s'.gateway.ticks == s.gateway.ticks + passing
      && s'.complete == call.endOfStream
      && s'.lastDataTimestamp == OrElse(LastTime(passing), s.lastDataTimestamp)
      && s'.gateway.clock == OrElse(LastTime(passing), s.gateway.clock)
  {
    hide Passes, Admits, Deliver, Passing, NoneRaises;
    var c := BacktestConfig(window, expected);
    NothingRaisesBeforeTheFirst(window, expected, call);
    LooksUpTo(window, expected, call, 0);
    RaisesExactly(window, expected, call);
    AdmittedArePassing(window, expected, call, |call.events|);
    IngestingAppends(s.gateway, wired, HandedOn(c, call));
    ClockFollowsLastTime(s.gateway, wired, HandedOn(c, call));
  }

  /**
   * Otherwise it passes on those up to the first on which the callback raises, and the exception reaches the caller.
   */
  lemma BacktestCallRaises(window: Option<(int, int)>, expected: string, wired: bool, s: State, call: Call)
    returns (i: nat)
    requires !s.complete && !NoneRaises(window, expected, call, |call.events|)
    ensures FirstRaises(window, expected, call, i)
    ensures var (s', consumed) := Pushed(BacktestConfig(window, expected), wired, s, call);
      && consumed == None && !s'.complete && s'.lastDataTimestamp == s.lastDataTimestamp
      && s'.gateway.ticks == s.gateway.ticks + Passing(window, expected, call, i + 1)
  {
    hide Passes, Admits, Deliver, Passing, NoneRaises;
    var c := BacktestConfig(window, expected);
    NothingRaisesBeforeTheFirst(window, expected, call);
    LooksUpTo(window, expected, call, 0);
    RaisesExactly(window, expected, call);
    var n := LookedAt(c, call, 0);
    i := n - 1;
    AdmittedArePassing(window, expected, call, n);
    IngestingAppends(s.gateway, wired, HandedOn(c, call));
  }

  lemma NothingRaisesBeforeTheFirst(window: Option<(int, int)>, expected: string, call: Call)
    ensures NoneRaises(window, expected, call, 0)
  {
  }

  /** The last time among events handed on; the simulated clock stands there too, or where it stood. */
  lemma {:induction false} LastTimeExactly(ds: seq<Delivered>) returns (k: nat)
    ensures if forall i :: 0 <= i < |ds| ==> ds[i].time.None? then LastTime(ds) == None
      else k < |ds| && ds[k].time.Some? && LastTime(ds) == ds[k].time && forall i :: k < i < |ds| ==> ds[i].time.None?
  {
    k := 0;
    if ds != [] {
      var n := |ds| - 1;
      if ds[n].time.Some? {
        k := n;
      } else {
        k := LastTimeExactly(ds[..n]);
        assert forall i :: 0 <= i < n ==> ds[..n][i] == ds[i];
      }
    }
  }

  lemma {:induction false} ClockFollowsLastTime(g: Gateway<Delivered>, wired: bool, ds: seq<Delivered>)
    ensures IngestedAll(g, wired, ds).clock == OrElse(LastTime(ds), g.clock)
  {
    if ds != [] {
      ClockFollowsLastTime(g, wired, ds[..|ds| - 1]);
    }
  }

  /** Event i is among what a call passes on exactly when it passes. */
  lemma {:induction false} PassingHasExactly(window: Option<(int, int)>, expected: string, call: Call, n: nat, e: Event)
    requires n <= |call.events|
    ensures (exists d :: d in Passing(window, expected, call, n) && d.event == e)
      <==> e in call.events[..n] && Passes(window, expected, e, call.simulatedTime)
  {
    hide Passes, EffectiveTime;
    if n > 0 {
      PassingHasExactly(window, expected, call, n - 1, e);
      var last := call.events[n - 1];
      assert call.events[..n] == call.events[..n - 1] + [last];
      var before, after := Passing(window, expected, call, n - 1), Passing(window, expected, call, n);
      var d := Delivered(last, EffectiveTime(last, call.simulatedTime));
      assert forall x :: x in after <==> x in before || (Passes(window, expected, last, call.simulatedTime) && x == d);
    }
  }

  /** Outside backtests every event is passed on. */
  lemma {:induction false} LiveAdmitsAll(c: Config, call: Call, n: nat)
    requires !c.backtest && n <= |call.events|
    ensures |Admitted(c, call, call.events[..n])| == n
    ensures forall i :: 0 <= i < n ==>
      Admitted(c, call, call.events[..n])[i]
          == Delivered(call.events[i], EffectiveTime(call.events[i], call.simulatedTime))
  {
    hide EffectiveTime;
    if n > 0 {
      assert call.events[..n][..n - 1] == call.events[..n - 1];
      LiveAdmitsAll(c, call, n - 1);
      EffectiveTimeIsTheFirst(call.events[n - 1], call.simulatedTime);
    }
  }

  // ----- Runs -----

  ghost predicate Ended(calls: seq<Call>) {
    exists i :: 0 <= i < |calls| && calls[i].endOfStream
  }

  /** What the calls pass on: nothing after one that ended the stream. */
  ghost function PassingAll(window: Option<(int, int)>, expected: string, calls: seq<Call>): seq<Delivered> {
    if calls == [] then []
    else
      var earlier, last := calls[..|calls| - 1], calls[|calls| - 1];
      PassingAll(window, expected, earlier)
      + if Ended(earlier) then [] else Passing(window, expected, last, |last.events|)
  }

  /**
   * Over any calls on whose passing events the callback never raises, a backtest ingests exactly the passing events.
   */
  lemma {:induction false} BacktestRunExactly(window: Option<(int, int)>, expected: string, wired: bool,
      calls: seq<Call>)
    requires forall call :: call in calls ==> NoneRaises(window, expected, call, |call.events|)
    ensures var s := After(BacktestConfig(window, expected), wired, calls);
      s.gateway.ticks == PassingAll(window, expected, calls) && s.complete == Ended(calls)
  {
    hide Passes, Passing, NoneRaises;
    if calls != [] {
      var earlier, last := calls[..|calls| - 1], calls[|calls| - 1];
      assert last in calls;
      BacktestRunExactly(window, expected, wired, earlier);
      EndedOneMore(earlier, last);
      assert calls == earlier + [last];
      var s := After(BacktestConfig(window, expected), wired, earlier);
      if !s.complete {
        BacktestCallReturns(window, expected, wired, s, last);
      }
    }
  }

  lemma EndedOneMore(calls: seq<Call>, last: Call)
    ensures Ended(calls + [last]) <==> Ended(calls) || last.endOfStream
  {
    if i :| 0 <= i < |calls| && calls[i].endOfStream {
      assert (calls + [last])[i].endOfStream;
    }
    if last.endOfStream {
      assert (calls + [last])[|calls|].endOfStream;
    }
  }
}
