/** The backtest driver against a server that holds a plain list of pages, one cursor from each to the next. */
module PagedHistory {
  import opened Wrappers
  import opened ReplayGateway
  import opened HistoricalDriver

  /** The server answers page after page: each but the last says that there is more and names the next one's cursor. */
  ghost predicate Serves(w: World, ps: seq<Page>, cs: seq<string>) {
    && |ps| == |cs| + 1
    && w.answer(None) == ps[0]
    && (forall k :: 0 <= k < |cs| ==>
          ps[k].metadata == Some((true, cs[k])) && w.strip(cs[k]) != "" && w.answer(Some(w.strip(cs[k]))) == ps[k + 1])
    && (match ps[|cs|].metadata
        case None => true
        case Some((more, cursor)) => !more || w.strip(cursor) == "")
  }

  /** What the k-th page is asked for with: no cursor, then the trimmed cursors in order. */
  function Cursors(w: World, cs: seq<string>): (r: seq<Option<string>>)
    ensures |r| == |cs| + 1
  {
    [None] + seq(|cs|, i requires 0 <= i < |cs| => Some(w.strip(cs[i])))
  }

  /** The first n bars that have a parseable time, numbered by their places. */
  function Converted(c: Config, bars: seq<Bar>, n: nat): seq<Tick>
    requires n <= |bars|
  {
    if n == 0 then []
    else
      var before, bar := Converted(c, bars, n - 1), bars[n - 1];
      var epoch := c.epochMs(bar.timeUtc);
      if epoch.None? then before else before + [Tick(bar, c.symbol, c.timeframe, n - 1, epoch.value)]
  }

  /** The ticks of all pages, one page after the other. */
  function Flat(c: Config, ps: seq<Page>): seq<Tick> {
    if ps == [] then []
    else
      var last := ps[|ps| - 1];
      Flat(c, ps[..|ps| - 1]) + Converted(c, last.bars, |last.bars|)
  }

  // ----- The driver's own notions on such a server -----

  lemma {:induction false} ConvertedAreTicks(c: Config, bars: seq<Bar>, n: nat)
    requires n <= |bars|
    ensures Ticks(c, bars, n) == Converted(c, bars, n)
  {
    if n > 0 {
      ConvertedAreTicks(c, bars, n - 1);
    }
  }

  lemma {:induction false} PagesInOrder(w: World, ps: seq<Page>, cs: seq<string>, k: nat)
    requires Serves(w, ps, cs) && k <= |cs|
    ensures CursorAt(w, k) == Cursors(w, cs)[k] && PageAt(w, k) == ps[k] && Continues(w, k)
    ensures Next(w, PageAt(w, k)) == if k < |cs| then Some(w.strip(cs[k])) else None
  {
    if k > 0 {
      PagesInOrder(w, ps, cs, k - 1);
    }
  }

  lemma {:induction false} FlatIsAllTicks(c: Config, w: World, ps: seq<Page>, cs: seq<string>, k: nat)
    requires Serves(w, ps, cs) && k <= |ps|
    ensures AllTicks(c, w, k) == Flat(c, ps[..k])
  {
    if k > 0 {
      FlatIsAllTicks(c, w, ps, cs, k - 1);
      PagesInOrder(w, ps, cs, k - 1);
      ConvertedAreTicks(c, ps[k - 1].bars, |ps[k - 1].bars|);
      assert ps[..k][..k - 1] == ps[..k - 1];
    }
  }

  // ----- The order of the requests -----

  function Asked(requests: seq<Request>): seq<Option<string>> {
    seq(|requests|, i requires 0 <= i < |requests| => requests[i].cursor)
  }

  /** Everything wanted was asked for, in order, each one time or several times in a row. */
  predicate InTurn(asked: seq<Option<string>>, wanted: seq<Option<string>>) {
    if wanted == [] then asked == []
    else
      && asked != [] && asked[|asked| - 1] == wanted[|wanted| - 1]
      && (InTurn(asked[..|asked| - 1], wanted) || InTurn(asked[..|asked| - 1], wanted[..|wanted| - 1]))
  }

  function FirstCursors(w: World, n: nat): seq<Option<string>> {
    seq(n, i requires 0 <= i < n => CursorAt(w, i))
  }

  /** The pages before the current one were asked for in turn, and perhaps the current one. */
  predicate AskedUpTo(w: World, s: Progress) {
    InTurn(Asked(s.requests), FirstCursors(w, s.page)) || InTurn(Asked(s.requests), FirstCursors(w, s.page + 1))
  }

  lemma AskingOnce(w: World, s: Progress, warmupBars: nat)
    requires AskedUpTo(w, s) && s.cursor == CursorAt(w, s.page)
    ensures InTurn(Asked(s.requests + [Request(s.cursor, warmupBars)]), FirstCursors(w, s.page + 1))
  {
    var all, wanted := Asked(s.requests + [Request(s.cursor, warmupBars)]), FirstCursors(w, s.page + 1);
    assert all[..|all| - 1] == Asked(s.requests);
    assert wanted[..|wanted| - 1] == FirstCursors(w, s.page);
  }

  /** A turn that asks does so with the current cursor, and goes on at most to the next page. */
  ghost predicate AsksOnce(c: Config, s: Progress, t: Turn) {
    && t.run.requests == s.requests + [Request(s.cursor, WarmupFor(c, s))]
    && (t.run.page == s.page || (t.run.page == s.page + 1 && t.control == Again))
  }

  lemma ReplyAsksNothing(c: Config, w: World, s: Progress, p: Page)
    requires Announced(s)
    ensures var t := Replied(c, true, w, s, p);
      t.run.requests == s.requests && (t.run.page == s.page || (t.run.page == s.page + 1 && t.control == Again))
  {
    if p.bars != [] {
      var base := s.gateway.ticks;
      assert base + [] == base;
      var j := BarsReplayedAppend(c, w, s, p.bars, 0, base);
    }
  }

  lemma TurnAsks(c: Config, w: World, s: Progress)
    requires Announced(s)
    ensures var t := Queried(c, true, w, s);
      AsksOnce(c, s, t) || (t.control == Return && t.run.requests == s.requests && t.run.page == s.page)
  {
    var admitted := Admitted(w, s);
    if admitted.control == Again {
      var asked := HistoricalDriver.Asked(c, admitted.run);
      ReplyAsksNothing(c, w, Tock(asked), if asked.time >= w.readyAt then w.answer(asked.cursor) else EMPTY_PAGE);
    }
  }

  /** How the loop leaves the requests; leaving it by itself means that the last page was asked for. */
  ghost predicate LeavesAsked(w: World, t: Turn) {
    && AskedUpTo(w, t.run)
    && (t.control == Leave && t.run.time > 0 && !StopSet(w, t.run.time - 1) ==>
          InTurn(Asked(t.run.requests), FirstCursors(w, t.run.page + 1)))
  }

  lemma TurnKeepsAsked(c: Config, w: World, s: Progress)
    requires OnTrack(c, w, s) && AskedUpTo(w, s) && !StopSet(w, s.time)
    ensures var t := Queried(c, true, w, Tock(s));
      LeavesAsked(w, t)
  {
    TurnAsks(c, w, Tock(s));
    AskingOnce(w, s, WarmupFor(c, Tock(s)));
  }

  lemma {:induction false} LoopKeepsAsked(c: Config, w: World, s: Progress)
    requires OnTrack(c, w, s) && AskedUpTo(w, s)
    ensures LeavesAsked(w, Paged(c, true, w, s))
    decreases if s.time < w.stopAt then w.stopAt - s.time else 0
  {
    hide InTurn;
    PagedOnce(c, true, w, s);
    if !StopSet(w, s.time) {
      TurnKeepsAsked(c, w, s);
      TurnKeepsTrack(c, w, s);
      var t := Queried(c, true, w, Tock(s));
      if t.control == Again {
        LoopKeepsAsked(c, w, t.run);
      }
    }
  }

  lemma AskedIgnoresLatch(w: World, s: Progress)
    ensures AskedUpTo(w, s.(complete := true)) == AskedUpTo(w, s)
  {
  }

  lemma NothingAsked(w: World, s: Progress)
    requires s.requests == [] && s.page == 0
    ensures AskedUpTo(w, s)
  {
    assert Asked(s.requests) == [] && FirstCursors(w, 0) == [];
  }

  lemma RunKeepsAsked(c: Config, w: World)
    ensures var r := Driven(c, true, w, FRESH_RUN);
      && AskedUpTo(w, r)
      && (r.complete && r.time > 0 && !StopSet(w, r.time - 1) ==>
            InTurn(Asked(r.requests), FirstCursors(w, r.page + 1)))
  {
    var s := HistoricalDriver.Admitted(w, Tock(FRESH_RUN)).run;
    FreshRunOnTrack(c, w, FRESH_RUN);
    AskingKeepsTrack(c, w, FRESH_RUN, s);
    hide InTurn, AskedUpTo;
    NothingAsked(w, FRESH_RUN);
    NothingAsked(w, Tock(FRESH_RUN));
    NothingAsked(w, s);
    LoopKeepsAsked(c, w, s);
    LoopKeepsTrack(c, w, s);
    assert AskedUpTo(w, Paged(c, true, w, s).run) ==> AskedUpTo(w, Paged(c, true, w, s).run.(complete := true)) by {
      AskedIgnoresLatch(w, Paged(c, true, w, s).run);
    }
  }

  lemma CursorsAgree(w: World, ps: seq<Page>, cs: seq<string>, k: nat)
    requires Serves(w, ps, cs) && k <= |ps|
    ensures FirstCursors(w, k) == Cursors(w, cs)[..k]
  {
    forall i | 0 <= i < k ensures FirstCursors(w, k)[i] == Cursors(w, cs)[i] {
      PagesInOrder(w, ps, cs, i);
    }
  }

  // ----- Main results -----

  /**
   * Whatever fails, is not ready or is stopped: the ingested ticks are a prefix of the ticks of the listed pages, and
   * the requests ask for an initial part of the pages in turn.
   */
  lemma RunFollowsPages(c: Config, w: World, ps: seq<Page>, cs: seq<string>)
    requires Serves(w, ps, cs)
    ensures var r := Driven(c, true, w, FRESH_RUN);
      && r.page <= |cs|
      && Flat(c, ps[..r.page]) <= r.gateway.ticks <= Flat(c, ps)
      && (InTurn(Asked(r.requests), Cursors(w, cs)[..r.page])
          || InTurn(Asked(r.requests), Cursors(w, cs)[..r.page + 1]))
  {
    hide InTurn, Driven, AllTicks, Flat, Asked, CursorAt, FirstCursors;
    var r := Driven(c, true, w, FRESH_RUN);
    PagesInOrder(w, ps, cs, |cs|);
    IngestsPrefixOfAllPages(c, w, |cs|);
    FlatIsAllTicks(c, w, ps, cs, r.page);
    FlatIsAllTicks(c, w, ps, cs, |ps|);
    assert ps[..|ps|] == ps;
    RunKeepsAsked(c, w);
    CursorsAgree(w, ps, cs, r.page);
    CursorsAgree(w, ps, cs, r.page + 1);
  }

  /**
   * A run that completes without having seen the stop event last has ingested the ticks of all pages, and asked for
   * them without a cursor and then with every cursor in turn. If it has, it has ingested the pages before the current.
   */
  lemma CompletionMeansEveryPage(c: Config, w: World, ps: seq<Page>, cs: seq<string>)
    requires Serves(w, ps, cs)
    ensures var r := Driven(c, true, w, FRESH_RUN);
      r.complete ==>
        if r.time > 0 && StopSet(w, r.time - 1) then r.page <= |cs| && r.gateway.ticks == Flat(c, ps[..r.page])
        else r.gateway.ticks == Flat(c, ps) && InTurn(Asked(r.requests), Cursors(w, cs))
  {
    hide InTurn, Driven, AllTicks, Flat, Asked, CursorAt, FirstCursors;
    var r := Driven(c, true, w, FRESH_RUN);
    PagesInOrder(w, ps, cs, |cs|);
    CompletionMeansAllPages(c, w, |cs|);
    IngestsPrefixOfAllPages(c, w, |cs|);
    FlatIsAllTicks(c, w, ps, cs, r.page);
    FlatIsAllTicks(c, w, ps, cs, |ps|);
    assert ps[..|ps|] == ps;
    RunKeepsAsked(c, w);
    CursorsAgree(w, ps, cs, |ps|);
    assert Cursors(w, cs)[..|ps|] == Cursors(w, cs);
  }

  /**
   * When queries stop failing, the data become ready and the worker is left alone for long enough, and there is any
   * tick at all, the run completes with the ticks of all pages exactly when the first page has a convertible bar.
   */
  lemma EveryPageExactlyWithFirstTick(c: Config, w: World, ps: seq<Page>, cs: seq<string>, calm: nat, b: nat)
    requires Serves(w, ps, cs) && c.backtest && calm > 3 && Recovers(w, calm)
    requires forall p :: p in ps ==> |p.bars| <= b
    requires calm + TurnTime(b) * (|cs| + 2) <= w.stopAt && Flat(c, ps) != []
    ensures var r := Driven(c, true, w, FRESH_RUN);
      r.complete && r.gateway.ticks == Flat(c, ps) <==> Flat(c, ps[..1]) != []
  {
    PagesInOrder(w, ps, cs, |cs|);
    PagesInOrder(w, ps, cs, 0);
    FlatIsAllTicks(c, w, ps, cs, |ps|);
    FlatIsAllTicks(c, w, ps, cs, 1);
    assert ps[..|ps|] == ps;
    forall k | 0 <= k <= |cs| ensures |PageAt(w, k).bars| <= b {
      PagesInOrder(w, ps, cs, k);
      assert ps[k] in ps;
    }
    assert AllTicks(c, w, 1) == PageTicks(c, PageAt(w, 0));
    RecoversExactlyWithFirstTick(c, w, calm, |cs|, b);
  }

  // ----- The simulated clock -----

  /** The time of the last tick that has one for the clock. */
  function LastTime(c: Config, ticks: seq<Tick>): Option<int> {
    if ticks == [] then None
    else
      var time := c.parseTime(ticks[|ticks| - 1].bar.timeUtc);
      if time.Some? then time else LastTime(c, ticks[..|ticks| - 1])
  }

  predicate ClockFits(c: Config, s: Progress) {
    s.gateway.clock == LastTime(c, s.gateway.ticks)
  }

  lemma BarKeepsClock(c: Config, wired: bool, w: World, s: Progress, bar: Bar, i: nat)
    requires ClockFits(c, s)
    ensures ClockFits(c, BarTurn(c, wired, w, s, bar, i).run)
  {
    var tick := TickOf(c, bar, i);
    if tick.Some? {
      ClockAfterTick(c, wired, s.gateway, tick.value);
    }
  }

  lemma ClockAfterTick(c: Config, wired: bool, g: Gateway<Tick>, tick: Tick)
    requires g.clock == LastTime(c, g.ticks)
    ensures var g' := Ingested(g, wired, tick, c.parseTime(tick.bar.timeUtc)); g'.clock == LastTime(c, g'.ticks)
  {
    assert (g.ticks + [tick])[..|g.ticks|] == g.ticks;
  }

  lemma {:induction false} BarsKeepClock(c: Config, wired: bool, w: World, s: Progress, bars: seq<Bar>, i: nat)
    requires i <= |bars| && ClockFits(c, s)
    ensures ClockFits(c, BarsReplayed(c, wired, w, s, bars, i).run)
    decreases |bars| - i
  {
    if i < |bars| {
      BarKeepsClock(c, wired, w, s, bars[i], i);
      var t := BarTurn(c, wired, w, s, bars[i], i);
      if t.control == Again {
        BarsKeepClock(c, wired, w, t.run, bars, i + 1);
      }
    }
  }

  lemma TurnKeepsClock(c: Config, wired: bool, w: World, s: Progress)
    requires ClockFits(c, s)
    ensures ClockFits(c, Queried(c, wired, w, s).run)
  {
    var admitted := HistoricalDriver.Admitted(w, s);
    var asked := HistoricalDriver.Asked(c, admitted.run);
    var p := if asked.time >= w.readyAt then w.answer(asked.cursor) else EMPTY_PAGE;
    BarsKeepClock(c, wired, w, Tock(asked), p.bars, 0);
  }

  lemma {:induction false} LoopKeepsClock(c: Config, wired: bool, w: World, s: Progress)
    requires ClockFits(c, s)
    ensures ClockFits(c, Paged(c, wired, w, s).run)
    decreases if s.time < w.stopAt then w.stopAt - s.time else 0
  {
    PagedOnce(c, wired, w, s);
    if !StopSet(w, s.time) {
      TurnKeepsClock(c, wired, w, Tock(s));
      var t := Queried(c, wired, w, Tock(s));
      if t.control == Again {
        LoopKeepsClock(c, wired, w, t.run);
      }
    }
  }

  /** In every run the simulated clock stands at the time of the last ingested tick that has one. */
  lemma ClockFollowsTicks(c: Config, wired: bool, w: World)
    ensures ClockFits(c, Driven(c, wired, w, FRESH_RUN))
  {
    LoopKeepsClock(c, wired, w, HistoricalDriver.Admitted(w, Tock(FRESH_RUN)).run);
  }
}
