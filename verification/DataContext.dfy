/** What a strategy reads of the bars so far (runtime_data_context.py). */
module DataContext {
  import opened Wrappers
  import opened ReplayData

  /** `stamp` finds the time of an element, if it has one. */
  predicate Within(stamp: Option<int>, start: Option<int>, end: Option<int>) {
    stamp.Some? && (start.Some? ==> stamp.value >= start.value) && (end.Some? ==> stamp.value <= end.value)
  }

  function TimeFiltered<T>(series: seq<T>, stamp: T -> Option<int>, start: Option<int>, end: Option<int>): seq<T> {
    if series == [] then []
    else
      var before, last := TimeFiltered(series[..|series| - 1], stamp, start, end), series[|series| - 1];
      if Within(stamp(last), start, end) then before + [last] else before
  }

  /** A limit keeps the newest elements; a negative one is no limit. */
  function Limited<T>(xs: seq<T>, limit: Option<int>): seq<T> {
    if limit.Some? && limit.value >= 0 then LastN(xs, limit.value) else xs
  }

  class RuntimeDataContext {
    const data: InMemoryReplayDataService

    constructor (data: InMemoryReplayDataService)
      ensures this.data == data
    {
      this.data := data;
    }

    static method FilterSeries<T>(
      series: seq<T>, stamp: T -> Option<int>, start: Option<int>, end: Option<int>, limit: Option<int>)
      returns (out: seq<T>)
      ensures out == Limited(TimeFiltered(series, stamp, start, end), limit)
    {
      out := [];
      for i := 0 to |series|
        invariant out == TimeFiltered(series[..i], stamp, start, end)
      {
        assert series[..i + 1][..i] == series[..i];
        var ts := stamp(series[i]);
        if ts.None? {
          continue;
        }
        if start.Some? && ts.value < start.value {
          continue;
        }
        if end.Some? && ts.value > end.value {
          continue;
        }
        out := out + [series[i]];
      }
      assert series[..|series|] == series;
      if limit.Some? && limit.value >= 0 {
        if limit.value == 0 {
          return [];
        }
        return if limit.value < |out| then out[|out| - limit.value..] else out;
      }
    }

    method GetBars(id: string, timeframe: string, start: Option<int>, end: Option<int>, limit: Option<int>)
      returns (bars: seq<Bar>)
      ensures bars == BarsWithin(data.Contents(None), id, timeframe, start, end, limit)
    {
      var series := data.Bars(id, timeframe);
      bars := FilterSeries(series, (b: Bar) => Some(b.timestamp), start, end, limit);
    }
  }

  function BarsWithin(s: Store, id: string, timeframe: string, start: Option<int>, end: Option<int>,
      limit: Option<int>): seq<Bar> {
    Limited(TimeFiltered(Series(s, id, timeframe), (b: Bar) => Some(b.timestamp), start, end), limit)
  }

  function HistoryOf(s: Store, id: string, timeframe: string, lookback: int): seq<Bar> {
    if lookback <= 0 then [] else LastN(Series(s, id, timeframe), lookback)
  }

  lemma {:induction false} NoBoundsKeepAll<T>(series: seq<T>, stamp: T -> Option<int>)
    requires forall x :: x in series ==> stamp(x).Some?
    ensures TimeFiltered(series, stamp, None, None) == series
  {
    if series != [] {
      assert series[|series| - 1] in series;
      NoBoundsKeepAll(series[..|series| - 1], stamp);
    }
  }

  /**
   * Asking for the last n bars and for the history of n bars is the same exactly when n is not negative or there are no
   * bars.
   */
  lemma GetBarsIsHistory(s: Store, id: string, timeframe: string, n: int)
    ensures BarsWithin(s, id, timeframe, None, None, Some(n)) == HistoryOf(s, id, timeframe, n)
      <==> n >= 0 || Series(s, id, timeframe) == []
  {
    NoBoundsKeepAll(Series(s, id, timeframe), (b: Bar) => Some(b.timestamp));
  }

  /** Filtering is local: what is kept of a part does not depend on the rest. */
  lemma {:induction false} FilterOfConcat<T>(a: seq<T>, b: seq<T>, stamp: T -> Option<int>, start: Option<int>,
      end: Option<int>)
    ensures TimeFiltered(a + b, stamp, start, end) == TimeFiltered(a, stamp, start, end)
        + TimeFiltered(b, stamp, start, end)
  {
    if b == [] {
      assert a + b == a;
    } else {
      assert (a + b)[..|a + b| - 1] == a + b[..|b| - 1];
      FilterOfConcat(a, b[..|b| - 1], stamp, start, end);
    }
  }

  /** Exactly the elements within the bounds are kept, as often as they occur. */
  lemma {:induction false} FilterKeepsExactlyWithin<T>(series: seq<T>, stamp: T -> Option<int>, start: Option<int>,
      end: Option<int>, x: T)
    ensures multiset(TimeFiltered(series, stamp, start, end))[x]
         == if || stamp(x).None?
               || (start.Some? && stamp(x).value < start.value)
               || (end.Some? && end.value < stamp(x).value)
            then 0 else multiset(series)[x]
  {
    if series != [] {
      FilterKeepsExactlyWithin(series[..|series| - 1], stamp, start, end, x);
      assert series == series[..|series| - 1] + [series[|series| - 1]];
    }
  }

  /** Splitting a window in two at an instant splits a chronological result in two. */
  lemma {:induction false} WindowsCompose<T>(series: seq<T>, stamp: T -> Option<int>, start: Option<int>, mid: int,
      end: Option<int>)
    requires forall i, j :: 0 <= i <= j < |series| && stamp(series[i]).Some? && stamp(series[j]).Some? ==>
      stamp(series[i]).value <= stamp(series[j]).value
    requires (start.Some? ==> start.value <= mid) && (end.Some? ==> mid < end.value)
    ensures TimeFiltered(series, stamp, start, end)
         == TimeFiltered(series, stamp, start, Some(mid)) + TimeFiltered(series, stamp, Some(mid + 1), end)
  {
    if series != [] {
      var before, last := series[..|series| - 1], series[|series| - 1];
      WindowsCompose(before, stamp, start, mid, end);
      if Within(stamp(last), start, Some(mid)) {
        NothingAfter(before, stamp, mid, end, stamp(last).value);
      }
    }
  }

  lemma {:induction false} NothingAfter<T>(series: seq<T>, stamp: T -> Option<int>, mid: int, end: Option<int>,
      top: int)
    requires top <= mid
    requires forall i :: 0 <= i < |series| && stamp(series[i]).Some? ==> stamp(series[i]).value <= top
    ensures TimeFiltered(series, stamp, Some(mid + 1), end) == []
  {
    if series != [] {
      NothingAfter(series[..|series| - 1], stamp, mid, end, top);
    }
  }
}
