/** The historical backtest driver (`_historical_backtest_driver_worker` in lifecycle_service.py). */
module HistoricalDriver {
  import opened Wrappers
  import opened ReplayGateway

  datatype Bar = Bar(timeUtc: string, instrumentId: int, open: real, high: real, low: real, close: real, volume: real)

  /** Metadata is what the server said about further pages: (has_more, next_cursor). */
  datatype Page = Page(bars: seq<Bar>, metadata: Option<(bool, string)>)

  const EMPTY_PAGE := Page([], None)

  datatype Tick = Tick(bar: Bar, symbol: string, timeframe: string, sequence: nat, tsMs: int)

  datatype Request = Request(cursor: Option<string>, warmupBars: nat)

  /** `epochMs` and `parseTime` stand for the two time parsers. */
  datatype Config = Config(
    symbol: string,
    timeframe: string,
    warmupTotal: nat,
    paced: bool,
    backtest: bool,
    epochMs: string -> Option<int>,
    parseTime: string -> Option<int>)

  /**
   * The driver's surroundings. Time counts the driver's own observations. The server is a fixed function of the
   * cursor, but replies are empty before `readyAt` and any query may fail; the stop event is set from `stopAt` on.
   * `strip` stands for the trimming of a cursor.
   */
  datatype World = World(
    answer: Option<string> -> Page,
    strip: string -> string,
    readyAt: nat,
    stopAt: nat,
    fails: nat -> bool,
    shutdown: nat -> bool,
    active: nat -> bool)

  predicate StopSet(w: World, t: nat) {
    t >= w.stopAt
  }

  /** None stands for the ValueError of a bar without a parseable time. */
  function TickOf(c: Config, bar: Bar, i: nat): Option<Tick> {
    match c.epochMs(bar.timeUtc)
    case None => None
    case Some(ts) => Some(Tick(bar, c.symbol, c.timeframe, i, ts))
  }

  /** The cursor a reply asks to go on with, if it says that there is more and names one. */
  function Next(w: World, p: Page): (cursor: Option<string>)
    ensures cursor.Some? ==> cursor.value != ""
  {
    if p.metadata.Some? && p.metadata.value.0 && w.strip(p.metadata.value.1) != ""
        then Some(w.strip(p.metadata.value.1))
    else None
  }

  /** Everything the driver and its gateway change, and how many pages it has left behind. */
  datatype Progress = Progress(
    time: nat,
    page: nat,
    cursor: Option<string>,
    veryFirstPage: bool,
    firstData: bool,
    gateway: Gateway<Tick>,
    requests: seq<Request>,
    failures: nat,
    retries: nat,
    complete: bool)

  function Tock(s: Progress): Progress {
    s.(time := s.time + 1)
  }

  const FRESH_RUN := Progress(0, 0, None, true, false, Gateway(None, [], false), [], 0, 0, false)

  datatype Control = Again | Return | Leave

  datatype Turn = Turn(run: Progress, control: Control)

  /** One bar: skipped when it cannot be converted, else handed to the gateway. */
  function BarReplayed(c: Config, wired: bool, s: Progress, bar: Bar, i: nat): Progress {
    match TickOf(c, bar, i)
    case None => s
    case Some(tick) =>
      s.(gateway := Ingested(s.gateway, wired, tick, c.parseTime(bar.timeUtc)),
         firstData := s.firstData || (wired && !s.gateway.announced))
  }

  /** A wait on the stop event. */
  function Waited(w: World, s: Progress, otherwise: Control): Turn {
    Turn(Tock(s), if StopSet(w, s.time) then Return else otherwise)
  }

  /** One bar's turn; Return when the driver was told to stop before it or in the pause after it. */
  function BarTurn(c: Config, wired: bool, w: World, s: Progress, bar: Bar, i: nat): Turn {
    if StopSet(w, s.time) || w.shutdown(s.time) then Turn(Tock(s), Return)
    else
      var s' := BarReplayed(c, wired, Tock(s), bar, i);
      if TickOf(c, bar, i).Some? && c.paced then Waited(w, s', Again) else Turn(s', Again)
  }

  /** The bars of a page from index i on. */
  function BarsReplayed(c: Config, wired: bool, w: World, s: Progress, bars: seq<Bar>, i: nat): Turn
    requires i <= |bars|
    decreases |bars| - i
  {
    if i == |bars| then Turn(s, Again)
    else
      var t := BarTurn(c, wired, w, s, bars[i], i);
      if t.control == Again then BarsReplayed(c, wired, w, t.run, bars, i + 1) else t
  }

  function Advanced(s: Progress, next: Option<string>): Progress {
    s.(page := s.page + 1, cursor := next)
  }

  /** After the last bar of a page. */
  function PageDone(w: World, s: Progress, next: Option<string>): Turn {
    if !s.firstData then Waited(w, s.(retries := s.retries + 1), Again)
    else if next.Some? then Turn(Advanced(s.(veryFirstPage := false), next), Again)
    else Turn(s.(veryFirstPage := false), Leave)
  }

  /** A reply that arrived. */
  function Replied(c: Config, wired: bool, w: World, s: Progress, p: Page): Turn {
    if p.bars == [] then
      if !s.firstData then Waited(w, s.(retries := s.retries + 1), Again)
      else if Next(w, p).Some? then Turn(Advanced(s, Next(w, p)), Again)
      else Waited(w, s, Leave)
    else
      var replayed := BarsReplayed(c, wired, w, s, p.bars, 0);
      if replayed.control == Return then replayed else PageDone(w, replayed.run, Next(w, p))
  }

  function WarmupFor(c: Config, s: Progress): nat {
    if s.veryFirstPage && (s.cursor.None? || s.cursor.value == "") then c.warmupTotal else 0
  }

  function Asked(c: Config, s: Progress): Progress {
    s.(requests := s.requests + [Request(s.cursor, WarmupFor(c, s))])
  }

  /** The checks of the shutdown flag and of the phase. */
  function Admitted(w: World, s: Progress): Turn {
    if w.shutdown(s.time) then Turn(Tock(s), Return)
    else Turn(Tock(Tock(s)), if w.active(s.time + 1) then Again else Return)
  }

  /** One turn of the inner loop after its guard. */
  function Queried(c: Config, wired: bool, w: World, s: Progress): Turn {
    var admitted := Admitted(w, s);
    if admitted.control == Return then admitted
    else
      var asked := Asked(c, admitted.run);
      var at := asked.time;
      if w.fails(at) then Waited(w, Tock(asked).(failures := asked.failures + 1), Again)
      else Replied(c, wired, w, Tock(asked), if at >= w.readyAt then w.answer(asked.cursor) else EMPTY_PAGE)
  }

  /** The inner loop; its guard is one observation of the stop event. */
  function Paged(c: Config, wired: bool, w: World, s: Progress): Turn
    decreases if s.time < w.stopAt then w.stopAt - s.time else 0
  {
    if StopSet(w, s.time) then Turn(Tock(s), Leave)
    else
      var t := Queried(c, wired, w, Tock(s));
      TimePasses(c, wired, w, Tock(s));
      if t.control == Again then Paged(c, wired, w, t.run) else t
  }

  /** Leaving the inner loop without a return completes a backtest. */
  function Finished(c: Config, t: Turn): Progress {
    if t.control == Leave && c.backtest then t.run.(complete := true) else t.run
  }

  function Driven(c: Config, wired: bool, w: World, s: Progress): Progress {
    if StopSet(w, s.time) then Tock(s)
    else
      var admitted := Admitted(w, Tock(s));
      if admitted.control == Return then admitted.run else Finished(c, Paged(c, wired, w, admitted.run))
  }

  lemma {:induction false} BarsTakeTime(c: Config, wired: bool, w: World, s: Progress, bars: seq<Bar>, i: nat)
    requires i <= |bars|
    ensures s.time <= BarsReplayed(c, wired, w, s, bars, i).run.time <= s.time + 2 * (|bars| - i)
    decreases |bars| - i
  {
    if i < |bars| {
      var t := BarTurn(c, wired, w, s, bars[i], i);
      assert s.time < t.run.time <= s.time + 2;
      if t.control == Again {
        BarsTakeTime(c, wired, w, t.run, bars, i + 1);
      }
    }
  }

  lemma TimePasses(c: Config, wired: bool, w: World, s: Progress)
    ensures s.time < Queried(c, wired, w, s).run.time
  {
    var asked := Tock(Asked(c, Tock(Tock(s))));
    BarsTakeTime(c, wired, w, asked, w.answer(asked.cursor).bars, 0);
  }

  lemma PagedOnce(c: Config, wired: bool, w: World, s: Progress)
    ensures StopSet(w, s.time) ==> Paged(c, wired, w, s) == Turn(Tock(s), Leave)
    ensures !StopSet(w, s.time) ==>
      var t := Queried(c, wired, w, Tock(s));
      s.time < t.run.time && Paged(c, wired, w, s) == if t.control == Again then Paged(c, wired, w, t.run) else t
  {
    TimePasses(c, wired, w, Tock(s));
  }

  // ----- The driver itself -----

  class Driver {
    const config: Config
    const world: World
    const gateway: ReplayIngress<Tick>
    var time: nat
    var firstDataReceived: bool
    var replayComplete: bool
    var requests: seq<Request>
    ghost var page: nat
    ghost var failures: nat
    ghost var retries: nat

    constructor (config: Config, world: World, gateway: ReplayIngress<Tick>)
      requires gateway.State() == Gateway(None, [], false)
      ensures this.config == config && this.world == world && this.gateway == gateway
      ensures State(None, true) == FRESH_RUN
    {
      this.config, this.world, this.gateway := config, world, gateway;
      time, firstDataReceived, replayComplete, requests := 0, false, false, [];
      page, failures, retries := 0, 0, 0;
    }

    ghost function State(cursor: Option<string>, veryFirstPage: bool): Progress
      reads this, gateway
    {
      Progress(time, page, cursor, veryFirstPage, firstDataReceived, gateway.State(), requests, failures, retries,
          replayComplete)
    }

    /** One look at the stop event, also the one at the end of a wait. */
    method StopSeen() returns (stop: bool)
      modifies this`time
      ensures stop == StopSet(world, old(time)) && time == old(time) + 1
    {
      stop := StopSet(world, time);
      time := time + 1;
    }

    method MayContinue(ghost cursor: Option<string>, ghost veryFirstPage: bool) returns (admitted: bool)
      modifies this`time
      ensures Turn(State(cursor, veryFirstPage), if admitted then Again else Return)
           == Admitted(world, old(State(cursor, veryFirstPage)))
    {
      var shutdown := world.shutdown(time);
      time := time + 1;
      if shutdown {
        return false;
      }
      admitted := world.active(time);
      time := time + 1;
    }

    /** One pass of the loop over the bars; `stopped` when the driver has to leave. */
    method ReplayBar(bar: Bar, i: nat, ghost cursor: Option<string>, ghost veryFirstPage: bool) returns (stopped: bool)
      modifies this, gateway
      ensures var t := BarTurn(config, gateway.wired, world, old(State(cursor, veryFirstPage)), bar, i);
        State(cursor, veryFirstPage) == t.run && stopped == (t.control == Return)
    {
      hide TickOf, Ingested;
      var shutdown := world.shutdown(time);
      stopped := StopSeen();
      if stopped || shutdown {
        return true;
      }
      var tick := TickOf(config, bar, i);
      if tick.None? {
        return false;
      }
      var announce := gateway.IngestReplayTick(tick.value, config.parseTime(bar.timeUtc));
      if announce {
        firstDataReceived := true;
      }
      if config.paced {
        stopped := StopSeen();
      }
    }

    method ReplayBars(bars: seq<Bar>, ghost cursor: Option<string>, ghost veryFirstPage: bool) returns (stopped: bool)
      modifies this, gateway
      ensures var t := BarsReplayed(config, gateway.wired, world, old(State(cursor, veryFirstPage)), bars, 0);
        State(cursor, veryFirstPage) == t.run && stopped == (t.control == Return)
    {
      ghost var whole := BarsReplayed(config, gateway.wired, world, State(cursor, veryFirstPage), bars, 0);
      for i := 0 to |bars|
        invariant BarsReplayed(config, gateway.wired, world, State(cursor, veryFirstPage), bars, i) == whole
      {
        stopped := ReplayBar(bars[i], i, cursor, veryFirstPage);
        if stopped {
          return;
        }
      }
      return false;
    }

    method FinishPage(next: Option<string>, cursor: Option<string>, veryFirstPage: bool)
      returns (control: Control, cursor': Option<string>, veryFirstPage': bool)
      modifies this
      ensures Turn(State(cursor', veryFirstPage'), control) == PageDone(world, old(State(cursor, veryFirstPage)), next)
    {
      cursor', veryFirstPage' := cursor, veryFirstPage;
      if !firstDataReceived {
        retries := retries + 1;
        var stop := StopSeen();
        return if stop then Return else Again, cursor', veryFirstPage';
      }
      if veryFirstPage {
        veryFirstPage' := false;
      }
      if next.Some? {
        cursor' := next;
        page := page + 1;
        return Again, cursor', veryFirstPage';
      }
      return Leave, cursor', veryFirstPage';
    }

    /** What the inner loop does with a reply; also the cursor and the flag it goes on with. */
    method TakeReply(reply: Page, cursor: Option<string>, veryFirstPage: bool)
      returns (control: Control, cursor': Option<string>, veryFirstPage': bool)
      modifies this, gateway
      ensures Turn(State(cursor', veryFirstPage'), control)
           == Replied(config, gateway.wired, world, old(State(cursor, veryFirstPage)), reply)
    {
      cursor', veryFirstPage' := cursor, veryFirstPage;
      var stop: bool;
      var next := Next(world, reply);
      if reply.bars == [] {
        if !firstDataReceived {
          retries := retries + 1;
          stop := StopSeen();
          return if stop then Return else Again, cursor', veryFirstPage';
        }
        if next.Some? {
          cursor' := next;
          page := page + 1;
          return Again, cursor', veryFirstPage';
        }
        stop := StopSeen();
        return if stop then Return else Leave, cursor', veryFirstPage';
      }
      stop := ReplayBars(reply.bars, cursor, veryFirstPage);
      if stop {
        return Return, cursor', veryFirstPage';
      }
      control, cursor', veryFirstPage' := FinishPage(next, cursor, veryFirstPage);
    }

    /** One turn of the inner loop, after its guard. */
    method Query(cursor: Option<string>, veryFirstPage: bool)
      returns (control: Control, cursor': Option<string>, veryFirstPage': bool)
      modifies this, gateway
      ensures Turn(State(cursor', veryFirstPage'), control)
           == Queried(config, gateway.wired, world, old(State(cursor, veryFirstPage)))
    {
      hide Replied, Admitted;
      cursor', veryFirstPage' := cursor, veryFirstPage;
      var admitted := MayContinue(cursor, veryFirstPage);
      if !admitted {
        return Return, cursor', veryFirstPage';
      }
      ghost var s := State(cursor, veryFirstPage);
      var warmupBars := if veryFirstPage && (cursor.None? || cursor.value == "") then config.warmupTotal else 0;
      requests := requests + [Request(cursor, warmupBars)];
      var at := time;
      time := time + 1;
      if world.fails(at) {
        failures := failures + 1;
        var stop := StopSeen();
        return if stop then Return else Again, cursor', veryFirstPage';
      }
      assert State(cursor, veryFirstPage) == Tock(Asked(config, s));
      control, cursor', veryFirstPage' :=
        TakeReply(if at >= world.readyAt then world.answer(cursor) else EMPTY_PAGE, cursor, veryFirstPage);
    }

    /** One turn of the inner loop with its guard: the rest of the loop starts from the new state. */
    method PageTurn(cursor: Option<string>, veryFirstPage: bool)
      returns (control: Control, cursor': Option<string>, veryFirstPage': bool)
      modifies this, gateway
      ensures var before, after := old(State(cursor, veryFirstPage)), State(cursor', veryFirstPage');
        var rest := Paged(config, gateway.wired, world, before);
        if control == Again then
          before.time < world.stopAt && before.time < after.time && Paged(config, gateway.wired, world, after) == rest
        else Turn(after, control) == rest
    {
      ghost var s := State(cursor, veryFirstPage);
      PagedOnce(config, gateway.wired, world, s);
      var stop := StopSeen();
      if stop {
        return Leave, cursor, veryFirstPage;
      }
      control, cursor', veryFirstPage' := Query(cursor, veryFirstPage);
    }

    method PageThrough(cursor: Option<string>, veryFirstPage: bool)
      returns (control: Control, cursor': Option<string>, veryFirstPage': bool)
      modifies this, gateway
      ensures Turn(State(cursor', veryFirstPage'), control)
           == Paged(config, gateway.wired, world, old(State(cursor, veryFirstPage)))
    {
      cursor', veryFirstPage' := cursor, veryFirstPage;
      control := Again;
      while control == Again
        invariant control == Again ==>
          Paged(config, gateway.wired, world, State(cursor', veryFirstPage'))
          == Paged(config, gateway.wired, world, old(State(cursor, veryFirstPage)))
        invariant control != Again ==>
          Turn(State(cursor', veryFirstPage'), control)
          == Paged(config, gateway.wired, world, old(State(cursor, veryFirstPage)))
        decreases control == Again, if time < world.stopAt then world.stopAt - time else 0
      {
        control, cursor', veryFirstPage' := PageTurn(cursor', veryFirstPage');
      }
    }

    /** The worker thread's body; returns the two local variables it ends with. */
    method Drive() returns (cursor: Option<string>, veryFirstPage: bool)
      modifies this, gateway
      ensures State(cursor, veryFirstPage) == Driven(config, gateway.wired, world, old(State(None, true)))
    {
      cursor, veryFirstPage := None, true;
      var stop := StopSeen();
      if stop {
        return;
      }
      var admitted := MayContinue(cursor, veryFirstPage);
      if !admitted {
        return;
      }
      var control: Control;
      control, cursor, veryFirstPage := PageThrough(cursor, veryFirstPage);
      if control == Leave && config.backtest {
        replayComplete := true;
      }
    }
  }

  // ----- The run against the concatenation of all pages -----

  /** The cursor of the k-th page, without any failure or repetition, and the page itself. */
  function CursorAt(w: World, k: nat): Option<string> {
    if k == 0 then None else Next(w, w.answer(CursorAt(w, k - 1)))
  }

  function PageAt(w: World, k: nat): Page {
    w.answer(CursorAt(w, k))
  }

  /** Each of the first k pages names a next one. */
  predicate Continues(w: World, k: nat) {
    k == 0 || (Next(w, PageAt(w, k - 1)).Some? && Continues(w, k - 1))
  }

  /** The ticks of the first n bars. */
  function Ticks(c: Config, bars: seq<Bar>, n: nat): seq<Tick>
    requires n <= |bars|
  {
    if n == 0 then []
    else
      var before, tick := Ticks(c, bars, n - 1), TickOf(c, bars[n - 1], n - 1);
      if tick.Some? then before + [tick.value] else before
  }

  function PageTicks(c: Config, p: Page): seq<Tick> {
    Ticks(c, p.bars, |p.bars|)
  }

  /** The ticks of the first k pages. */
  function AllTicks(c: Config, w: World, k: nat): seq<Tick> {
    if k == 0 then [] else AllTicks(c, w, k - 1) + PageTicks(c, PageAt(w, k - 1))
  }

  lemma {:induction false} TicksGrow(c: Config, bars: seq<Bar>, i: nat, j: nat)
    requires i <= j <= |bars|
    ensures Ticks(c, bars, i) <= Ticks(c, bars, j)
  {
    if i < j {
      TicksGrow(c, bars, i, j - 1);
    }
  }

  /** Appending one bar's tick, if it has one, to the ticks before it. */
  lemma TicksOneMore(c: Config, bars: seq<Bar>, i: nat, base: seq<Tick>)
    requires i < |bars|
    ensures base + Ticks(c, bars, i + 1)
         == if TickOf(c, bars[i], i).Some? then base + Ticks(c, bars, i) + [TickOf(c, bars[i], i).value]
             else base + Ticks(c, bars, i)
  {
  }

  lemma {:induction false} AllTicksGrow(c: Config, w: World, i: nat, j: nat)
    requires i <= j
    ensures AllTicks(c, w, i) <= AllTicks(c, w, j)
  {
    if i < j {
      AllTicksGrow(c, w, i, j - 1);
    }
  }

  /** Replaying bars touches nothing but the gateway, the time and the first-data flag. */
  predicate SameBooks(s: Progress, s': Progress) {
    && s'.page == s.page && s'.cursor == s.cursor && s'.veryFirstPage == s.veryFirstPage
    && s'.requests == s.requests && s'.failures == s.failures && s'.retries == s.retries && s'.complete == s.complete
  }

  /** First data was announced exactly when something was ingested. */
  predicate Announced(s: Progress) {
    s.firstData == s.gateway.announced == (s.gateway.ticks != [])
  }

  /** A turn t that began at s has brought the ingested ticks to `end` and changed nothing it should not. */
  predicate Ingesting(w: World, s: Progress, t: Turn, end: seq<Tick>) {
    && Announced(t.run) && SameBooks(s, t.run) && t.run.gateway.ticks == end
    && s.time < t.run.time && t.control != Leave
    && (t.control == Again ==> !StopSet(w, t.run.time - 1))
  }

  lemma BarTurnAppends(c: Config, w: World, s: Progress, bar: Bar, i: nat)
    requires Announced(s)
    ensures var t, tick := BarTurn(c, true, w, s, bar, i), TickOf(c, bar, i);
      && Ingesting(w, s, t, t.run.gateway.ticks)
      && (t.run.gateway.ticks == s.gateway.ticks
          || (tick.Some? && t.run.gateway.ticks == s.gateway.ticks + [tick.value]))
      && (t.control == Again && tick.Some? ==> t.run.gateway.ticks == s.gateway.ticks + [tick.value])
  {
  }

  lemma BarsReplayedOnce(c: Config, wired: bool, w: World, s: Progress, bars: seq<Bar>, i: nat)
    requires i < |bars|
    ensures var t := BarTurn(c, wired, w, s, bars[i], i);
      BarsReplayed(c, wired, w, s, bars, i)
      == if t.control == Again then BarsReplayed(c, wired, w, t.run, bars, i + 1) else t
  {
  }

  /** The turn of one bar, against the ticks of the bars up to it. */
  lemma BarTurnIngests(c: Config, w: World, s: Progress, bars: seq<Bar>, i: nat, base: seq<Tick>) returns (j: nat)
    requires i < |bars| && Announced(s) && s.gateway.ticks == base + Ticks(c, bars, i)
    ensures i <= j <= i + 1
    ensures var t := BarTurn(c, true, w, s, bars[i], i);
      Ingesting(w, s, t, base + Ticks(c, bars, j)) && (t.control == Again ==> j == i + 1)
  {
    var t := BarTurn(c, true, w, s, bars[i], i);
    BarTurnAppends(c, w, s, bars[i], i);
    TicksOneMore(c, bars, i, base);
    j := if t.control != Again && t.run.gateway.ticks == s.gateway.ticks then i else i + 1;
  }

  lemma IngestingOn(w: World, s: Progress, t: Turn, u: Turn, middle: seq<Tick>, end: seq<Tick>)
    requires Ingesting(w, s, t, middle) && Ingesting(w, t.run, u, end)
    ensures Ingesting(w, s, u, end)
  {
  }

  /** Replaying from bar i on, with the ticks of the bars before it ingested, stops at some bar j. */
  lemma {:induction false} BarsReplayedAppend(c: Config, w: World, s: Progress, bars: seq<Bar>, i: nat, base: seq<Tick>)
    returns (j: nat)
    requires i < |bars| && Announced(s) && s.gateway.ticks == base + Ticks(c, bars, i)
    ensures i <= j <= |bars|
    ensures var t := BarsReplayed(c, true, w, s, bars, i);
      Ingesting(w, s, t, base + Ticks(c, bars, j)) && (t.control == Again ==> j == |bars|)
    decreases |bars| - i
  {
    var t := BarTurn(c, true, w, s, bars[i], i);
    j := BarTurnIngests(c, w, s, bars, i, base);
    BarsReplayedOnce(c, true, w, s, bars, i);
    if t.control == Again && i + 1 < |bars| {
      j := BarsReplayedAppend(c, w, t.run, bars, i + 1, base);
      IngestingOn(w, s, t, BarsReplayed(c, true, w, t.run, bars, i + 1), base + Ticks(c, bars, i + 1),
          base + Ticks(c, bars, j));
    }
  }

  /** Between two turns: everything before the current page was ingested and nothing else. */
  ghost predicate OnTrack(c: Config, w: World, s: Progress) {
    && s.cursor == CursorAt(w, s.page)
    && s.gateway.ticks == AllTicks(c, w, s.page)
    && Announced(s)
    && s.firstData == (s.page > 0)
    && (s.page > 0 ==> s.time >= w.readyAt)
    && Continues(w, s.page)
    && !s.complete
  }

  /** How the loop ends: part of one more page was ingested; without a return either nothing or all of the last one. */
  ghost predicate Ended(c: Config, w: World, t: Turn) {
    var s := t.run;
    && AllTicks(c, w, s.page) <= s.gateway.ticks <= AllTicks(c, w, s.page + 1)
    && Continues(w, s.page)
    && !s.complete
    && (t.control == Leave ==> Left(c, w, s))
  }

  ghost predicate Left(c: Config, w: World, s: Progress) {
    s.time > 0 &&
    if StopSet(w, s.time - 1) then s.gateway.ticks == AllTicks(c, w, s.page)
    else s.gateway.ticks == AllTicks(c, w, s.page + 1) && Next(w, PageAt(w, s.page)).None?
  }

  /** One more request does not matter to where the run is. */
  lemma AskingKeepsTrack(c: Config, w: World, s: Progress, t: Progress)
    requires OnTrack(c, w, s)
    requires t.(time := s.time, requests := s.requests, failures := s.failures, retries := s.retries) == s
        && t.time >= s.time
    ensures OnTrack(c, w, t) && Ended(c, w, Turn(t, Return))
  {
    AllTicksGrow(c, w, s.page, s.page + 1);
  }

  lemma OnePageMore(c: Config, w: World, k: nat)
    ensures CursorAt(w, k + 1) == Next(w, PageAt(w, k))
    ensures AllTicks(c, w, k + 1) == AllTicks(c, w, k) + PageTicks(c, PageAt(w, k))
    ensures Continues(w, k + 1) == (Continues(w, k) && Next(w, PageAt(w, k)).Some?)
  {
  }

  lemma AdvancingKeepsTrack(c: Config, w: World, s: Progress, t: Progress)
    requires OnTrack(c, w, s)
    requires t.page == s.page + 1 && t.cursor == Next(w, PageAt(w, s.page)) && t.cursor.Some?
    requires t.gateway.ticks == AllTicks(c, w, s.page) + PageTicks(c, PageAt(w, s.page))
    requires Announced(t) && t.firstData && t.time >= w.readyAt && !t.complete
    ensures OnTrack(c, w, t)
  {
    OnePageMore(c, w, s.page);
  }

  ghost predicate KeepsTrack(c: Config, w: World, t: Turn) {
    if t.control == Again then OnTrack(c, w, t.run) else Ended(c, w, t)
  }

  lemma EmptyReply(c: Config, w: World, s: Progress, p: Page)
    requires OnTrack(c, w, s) && p.bars == []
    requires p == PageAt(w, s.page) || s.page == 0
    ensures KeepsTrack(c, w, Replied(c, true, w, s, p))
  {
    var t := Replied(c, true, w, s, p);
    if !s.firstData {
      AskingKeepsTrack(c, w, s, t.run);
    } else {
      assert PageTicks(c, p) == [];
      assert AllTicks(c, w, s.page + 1) == AllTicks(c, w, s.page);
      if Next(w, p).Some? {
        AdvancingKeepsTrack(c, w, s, t.run);
      }
    }
  }

  lemma PageReply(c: Config, w: World, s: Progress, p: Page)
    requires OnTrack(c, w, s) && s.time >= w.readyAt
    requires p == PageAt(w, s.page) && p.bars != []
    ensures KeepsTrack(c, w, Replied(c, true, w, s, p))
  {
    var base := s.gateway.ticks;
    assert base + [] == base;
    var j := BarsReplayedAppend(c, w, s, p.bars, 0, base);
    TicksGrow(c, p.bars, j, |p.bars|);
    var replayed := BarsReplayed(c, true, w, s, p.bars, 0);
    if replayed.control == Again {
      PageFinished(c, w, s, replayed.run, p);
    }
  }

  lemma PageFinished(c: Config, w: World, s: Progress, s': Progress, p: Page)
    requires OnTrack(c, w, s) && p == PageAt(w, s.page)
    requires Announced(s') && SameBooks(s, s')
    requires s'.gateway.ticks == AllTicks(c, w, s.page) + PageTicks(c, p)
    requires s'.time > s.time && s'.time >= w.readyAt && !StopSet(w, s'.time - 1)
    ensures KeepsTrack(c, w, PageDone(w, s', Next(w, p)))
  {
    var t := PageDone(w, s', Next(w, p));
    if !s'.firstData {
      assert s.page == 0 && s'.gateway.ticks == [];
      assert OnTrack(c, w, t.run);
      AllTicksGrow(c, w, 0, 1);
    } else if Next(w, p).Some? {
      AdvancingKeepsTrack(c, w, s, t.run);
    }
  }

  lemma TurnKeepsTrack(c: Config, w: World, s: Progress)
    requires OnTrack(c, w, s) && !StopSet(w, s.time)
    ensures KeepsTrack(c, w, Queried(c, true, w, Tock(s)))
  {
    var admitted := Admitted(w, Tock(s));
    AskingKeepsTrack(c, w, s, admitted.run);
    if admitted.control == Again {
      var asked := Asked(c, admitted.run);
      AskingKeepsTrack(c, w, s, Tock(asked));
      if w.fails(asked.time) {
        AskingKeepsTrack(c, w, s, Queried(c, true, w, Tock(s)).run);
      } else {
        var p := if asked.time >= w.readyAt then w.answer(asked.cursor) else EMPTY_PAGE;
        if p.bars == [] {
          EmptyReply(c, w, Tock(asked), p);
        } else {
          PageReply(c, w, Tock(asked), p);
        }
      }
    }
  }

  lemma {:induction false} LoopKeepsTrack(c: Config, w: World, s: Progress)
    requires OnTrack(c, w, s)
    ensures Ended(c, w, Paged(c, true, w, s))
    decreases if s.time < w.stopAt then w.stopAt - s.time else 0
  {
    PagedOnce(c, true, w, s);
    if StopSet(w, s.time) {
      AskingKeepsTrack(c, w, s, Tock(s));
    } else {
      TurnKeepsTrack(c, w, s);
      var t := Queried(c, true, w, Tock(s));
      if t.control == Again {
        LoopKeepsTrack(c, w, t.run);
      }
    }
  }

  lemma ContinuesOnce(w: World, k: nat)
    ensures Continues(w, k + 1) == (Continues(w, k) && Next(w, PageAt(w, k)).Some?)
  {
  }

  /** Page n is the last one. */
  predicate LastPage(w: World, n: nat) {
    Continues(w, n) && Next(w, PageAt(w, n)).None?
  }

  lemma {:induction false} LastPageBounds(w: World, k: nat, n: nat)
    requires Continues(w, k) && LastPage(w, n)
    ensures k <= n
  {
    if k > n {
      ContinuesOnce(w, k - 1);
      if k - 1 > n {
        LastPageBounds(w, k - 1, n);
      }
    }
  }

  lemma FreshRunOnTrack(c: Config, w: World, s: Progress)
    requires s == FRESH_RUN.(time := s.time)
    ensures OnTrack(c, w, s)
  {
  }

  lemma DrivenEnds(c: Config, w: World)
    ensures var r := Driven(c, true, w, FRESH_RUN);
      && AllTicks(c, w, r.page) <= r.gateway.ticks <= AllTicks(c, w, r.page + 1)
      && Continues(w, r.page)
      && (r.complete ==> c.backtest && Left(c, w, r))
  {
    var admitted := Admitted(w, Tock(FRESH_RUN));
    FreshRunOnTrack(c, w, FRESH_RUN);
    AskingKeepsTrack(c, w, FRESH_RUN, Tock(FRESH_RUN));
    AskingKeepsTrack(c, w, FRESH_RUN, admitted.run);
    LoopKeepsTrack(c, w, admitted.run);
  }

  /**
   * Whatever fails, is not ready or is stopped, what was ingested is the beginning of the ticks of all pages, each
   * once and in order.
   */
  lemma IngestsPrefixOfAllPages(c: Config, w: World, n: nat)
    requires LastPage(w, n)
    ensures var r := Driven(c, true, w, FRESH_RUN);
      r.page <= n && AllTicks(c, w, r.page) <= r.gateway.ticks <= AllTicks(c, w, n + 1)
  {
    DrivenEnds(c, w);
    var page := Driven(c, true, w, FRESH_RUN).page;
    LastPageBounds(w, page, n);
    AllTicksGrow(c, w, page + 1, n + 1);
  }

  /** The completion latch means that all pages were ingested, unless the last thing seen was the stop event. */
  lemma CompletionMeansAllPages(c: Config, w: World, n: nat)
    requires LastPage(w, n)
    ensures var r := Driven(c, true, w, FRESH_RUN);
      r.complete ==>
        && c.backtest && r.time > 0
        && (!StopSet(w, r.time - 1) ==> r.page == n && r.gateway.ticks == AllTicks(c, w, n + 1))
        && (StopSet(w, r.time - 1) ==> r.gateway.ticks == AllTicks(c, w, r.page))
  {
    DrivenEnds(c, w);
    var r := Driven(c, true, w, FRESH_RUN);
    LastPageBounds(w, r.page, n);
    if r.complete && !StopSet(w, r.time - 1) {
      LastPageUnique(w, r.page, n);
    }
  }

  lemma {:induction false} LastPageUnique(w: World, m: nat, n: nat)
    requires LastPage(w, m) && LastPage(w, n)
    ensures m == n
  {
    LastPageBounds(w, m, n);
    LastPageBounds(w, n, m);
  }

  /** The exception is real: a stop event first seen by the inner guard completes the run with nothing ingested. */
  lemma StopAtInnerGuardCompletes(c: Config, w: World)
    requires c.backtest && w.stopAt == 3 && !w.shutdown(1) && w.active(2)
    ensures var r := Driven(c, true, w, FRESH_RUN); r.complete && r.gateway.ticks == []
  {
    PagedOnce(c, true, w, Admitted(w, Tock(FRESH_RUN)).run);
  }

  // ----- Requests -----

  /** Warm-up bars are asked for exactly by the requests without a cursor. */
  predicate WarmupOnlyAtFirst(c: Config, requests: seq<Request>) {
    forall r :: r in requests ==> r.warmupBars == if r.cursor.None? then c.warmupTotal else 0
  }

  /** `open` counts the request that is still being worked on. */
  predicate Counted(c: Config, s: Progress, open: nat) {
    |s.requests| == s.page + s.failures + s.retries + open && WarmupOnlyAtFirst(c, s.requests)
  }

  predicate Bookkept(c: Config, s: Progress, open: nat) {
    && Announced(s)
    && s.veryFirstPage == s.cursor.None? == (s.page == 0)
    && s.firstData == (s.page > 0)
    && (s.cursor.Some? ==> s.cursor.value != "")
    && Counted(c, s, open)
  }

  predicate KeepsBooks(c: Config, t: Turn) {
    if t.control == Again then Bookkept(c, t.run, 0) else Counted(c, t.run, 0) || Counted(c, t.run, 1)
  }

  lemma PageDoneKeepsBooks(c: Config, w: World, s: Progress, s': Progress, next: Option<string>)
    requires Bookkept(c, s, 1) && Announced(s')
    requires SameBooks(s, s')
    requires s.firstData ==> s'.firstData
    requires next.Some? ==> next.value != ""
    ensures KeepsBooks(c, PageDone(w, s', next))
  {
  }

  lemma ReplyKeepsBooks(c: Config, w: World, s: Progress, p: Page)
    requires Bookkept(c, s, 1)
    ensures KeepsBooks(c, Replied(c, true, w, s, p))
  {
    if p.bars != [] {
      var base := s.gateway.ticks;
      assert base + [] == base;
      var j := BarsReplayedAppend(c, w, s, p.bars, 0, base);
      var replayed := BarsReplayed(c, true, w, s, p.bars, 0);
      if replayed.control == Again {
        PageDoneKeepsBooks(c, w, s, replayed.run, Next(w, p));
      }
    }
  }

  lemma AskingKeepsBooks(c: Config, s: Progress)
    requires Bookkept(c, s, 0)
    ensures Bookkept(c, Asked(c, s), 1)
  {
  }

  lemma TurnKeepsBooks(c: Config, w: World, s: Progress)
    requires Bookkept(c, s, 0)
    ensures KeepsBooks(c, Queried(c, true, w, s))
  {
    var admitted := Admitted(w, s);
    if admitted.control == Again {
      AskingKeepsBooks(c, admitted.run);
      var asked := Asked(c, admitted.run);
      if !w.fails(asked.time) {
        ReplyKeepsBooks(c, w, Tock(asked), if asked.time >= w.readyAt then w.answer(asked.cursor) else EMPTY_PAGE);
      }
    }
  }

  lemma {:induction false} LoopKeepsBooks(c: Config, w: World, s: Progress)
    requires Bookkept(c, s, 0)
    ensures Counted(c, Paged(c, true, w, s).run, 0) || Counted(c, Paged(c, true, w, s).run, 1)
    decreases if s.time < w.stopAt then w.stopAt - s.time else 0
  {
    PagedOnce(c, true, w, s);
    if !StopSet(w, s.time) {
      TurnKeepsBooks(c, w, Tock(s));
      var t := Queried(c, true, w, Tock(s));
      if t.control == Again {
        LoopKeepsBooks(c, w, t.run);
      }
    }
  }

  /**
   * In every run the requests with warm-up bars are exactly those without a cursor, and besides failed queries and
   * queries before first data every page is asked for once.
   */
  lemma RequestsOfARun(c: Config, w: World)
    ensures var r := Driven(c, true, w, FRESH_RUN);
      && WarmupOnlyAtFirst(c, r.requests)
      && 0 <= |r.requests| - (r.page + r.failures + r.retries) <= 1
  {
    var admitted := Admitted(w, Tock(FRESH_RUN));
    assert Counted(c, admitted.run, 0);
    LoopKeepsBooks(c, w, admitted.run);
  }

  // ----- Liveness -----

  /** From time `calm` on nothing fails, and the worker is never shut down. */
  ghost predicate Recovers(w: World, calm: nat) {
    && w.readyAt <= calm
    && (forall t: nat :: !w.shutdown(t) && w.active(t))
    && (forall t: nat :: t >= calm ==> !w.fails(t))
  }

  /** The longest a turn can take when no page up to n has more than b bars. */
  function TurnTime(b: nat): nat {
    6 + 2 * b
  }

  ghost predicate PagesUpTo(w: World, n: nat, b: nat) {
    forall k :: 0 <= k <= n ==> |PageAt(w, k).bars| <= b
  }

  lemma {:induction false} CalmBars(c: Config, w: World, s: Progress, bars: seq<Bar>, i: nat)
    requires i <= |bars| && s.time + 2 * (|bars| - i) <= w.stopAt && forall t: nat :: !w.shutdown(t)
    ensures BarsReplayed(c, true, w, s, bars, i).control == Again
    decreases |bars| - i
  {
    if i < |bars| {
      CalmBars(c, w, BarTurn(c, true, w, s, bars[i], i).run, bars, i + 1);
    }
  }

  lemma CalmReply(c: Config, w: World, s: Progress, p: Page)
    requires OnTrack(c, w, s) && p == PageAt(w, s.page) && s.time >= w.readyAt
    requires s.time + 2 * |p.bars| + 1 <= w.stopAt && forall t: nat :: !w.shutdown(t)
    requires PageTicks(c, PageAt(w, 0)) != []
    ensures var t := Replied(c, true, w, s, p);
      && t.control == (if Next(w, p).Some? then Again else Leave)
      && (t.control == Again ==> t.run.page == s.page + 1)
      && t.run.time <= s.time + 2 * |p.bars| + 1
  {
    if p.bars == [] {
      assert PageTicks(c, p) == [];
      assert s.page > 0;
    } else {
      var base := s.gateway.ticks;
      assert base + [] == base;
      CalmBars(c, w, s, p.bars, 0);
      BarsTakeTime(c, true, w, s, p.bars, 0);
      var j := BarsReplayedAppend(c, w, s, p.bars, 0, base);
    }
  }

  /** One turn ends in time, and when nothing fails any more it deals with its page. */
  lemma CalmTurn(c: Config, w: World, s: Progress, calm: nat, b: nat)
    requires OnTrack(c, w, s) && Recovers(w, calm) && |PageAt(w, s.page).bars| <= b
    requires PageTicks(c, PageAt(w, 0)) != []
    requires s.time + TurnTime(b) <= w.stopAt
    ensures var t := Queried(c, true, w, Tock(s));
      && s.time < t.run.time <= s.time + TurnTime(b)
      && (t.control == Leave || (t.control == Again && s.page <= t.run.page <= s.page + 1))
      && (s.time >= calm && t.control == Again ==> t.run.page == s.page + 1)
  {
    TimePasses(c, true, w, Tock(s));
    var admitted := Admitted(w, Tock(s));
    assert admitted.control == Again;
    var asked := Asked(c, admitted.run);
    AskingKeepsTrack(c, w, s, Tock(asked));
    if w.fails(asked.time) {
      assert Queried(c, true, w, Tock(s)).control == Again;
    } else if asked.time >= w.readyAt {
      var p := PageAt(w, s.page);
      CalmReply(c, w, Tock(asked), p);
    } else {
      assert !asked.firstData;
    }
  }

  lemma TurnLeavesWhole(c: Config, w: World, s: Progress)
    requires OnTrack(c, w, s) && !StopSet(w, s.time)
    requires var t := Queried(c, true, w, Tock(s)); t.control == Leave && t.run.time <= w.stopAt
    ensures var t := Queried(c, true, w, Tock(s)); t.run.time > 0 && !StopSet(w, t.run.time - 1)
  {
    TimePasses(c, true, w, Tock(s));
  }

  /** The time by which a run at s is done with page n, when no turn takes longer than `turn`. */
  function Deadline(s: Progress, calm: nat, n: nat, turn: nat): nat
    requires s.page <= n
  {
    (if s.time < calm then calm + turn else s.time) + turn * (n - s.page + 1)
  }

  lemma DeadlineKept(s: Progress, s': Progress, calm: nat, n: nat, turn: nat)
    requires s.page <= s'.page <= n && s.time < s'.time <= s.time + turn
    requires s.time >= calm ==> s'.page == s.page + 1
    ensures Deadline(s', calm, n, turn) <= Deadline(s, calm, n, turn)
  {
    if s'.page == s.page + 1 {
      assert turn * (n - s.page + 1) == turn * (n - s'.page + 1) + turn;
    } else {
      assert turn * (n - s.page + 1) >= turn * (n - s'.page + 1) by {
        MulMonotone(turn, n - s'.page + 1, n - s.page + 1);
      }
    }
  }

  lemma MulMonotone(x: nat, a: nat, b: nat)
    requires a <= b
    ensures x * a <= x * b
  {
  }

  lemma DeadlineLeavesTurn(s: Progress, calm: nat, n: nat, turn: nat)
    requires s.page <= n
    ensures s.time + turn <= Deadline(s, calm, n, turn)
  {
    MulMonotone(turn, 1, n - s.page + 1);
  }

  /** Everything that lets the driver finish by itself. */
  ghost predicate Calm(c: Config, w: World, s: Progress, calm: nat, n: nat, b: nat) {
    && OnTrack(c, w, s) && s.page <= n && Deadline(s, calm, n, TurnTime(b)) <= w.stopAt
    && Recovers(w, calm) && LastPage(w, n) && PagesUpTo(w, n, b)
    && PageTicks(c, PageAt(w, 0)) != []
  }

  lemma CalmTurnStaysCalm(c: Config, w: World, s: Progress, calm: nat, n: nat, b: nat)
    requires Calm(c, w, s, calm, n, b)
    ensures !StopSet(w, s.time)
    ensures var t := Queried(c, true, w, Tock(s));
      match t.control
      case Again => Calm(c, w, t.run, calm, n, b)
      case Leave => t.run.time > 0 && !StopSet(w, t.run.time - 1)
      case Return => false
  {
    DeadlineLeavesTurn(s, calm, n, TurnTime(b));
    CalmTurn(c, w, s, calm, b);
    var t := Queried(c, true, w, Tock(s));
    if t.control == Again {
      TurnKeepsTrack(c, w, s);
      LastPageBounds(w, t.run.page, n);
      DeadlineKept(s, t.run, calm, n, TurnTime(b));
    } else {
      TurnLeavesWhole(c, w, s);
    }
  }

  lemma {:induction false} CalmLoop(c: Config, w: World, s: Progress, calm: nat, n: nat, b: nat)
    requires Calm(c, w, s, calm, n, b)
    ensures var t := Paged(c, true, w, s);
      t.control == Leave && t.run.time > 0 && !StopSet(w, t.run.time - 1)
    decreases if s.time < w.stopAt then w.stopAt - s.time else 0
  {
    PagedOnce(c, true, w, s);
    CalmTurnStaysCalm(c, w, s, calm, n, b);
    var t := Queried(c, true, w, Tock(s));
    if t.control == Again {
      CalmLoop(c, w, t.run, calm, n, b);
    }
  }

  lemma DrivenFromStart(c: Config, w: World, s: Progress)
    requires w.stopAt > 0 && !w.shutdown(1) && w.active(2) && s == FRESH_RUN.(time := 3)
    ensures Admitted(w, Tock(FRESH_RUN)) == Turn(s, Again)
    ensures Driven(c, true, w, FRESH_RUN) == Finished(c, Paged(c, true, w, s))
  {
  }

  /**
   * If queries stop failing, the data become ready and the worker is left alone for long enough, every run completes
   * with all pages ingested, provided that the first page has a bar that can be converted.
   */
  lemma CompletesAfterRecovery(c: Config, w: World, calm: nat, n: nat, b: nat)
    requires c.backtest && calm > 3 && Recovers(w, calm) && LastPage(w, n) && PagesUpTo(w, n, b)
    requires PageTicks(c, PageAt(w, 0)) != []
    requires calm + TurnTime(b) * (n + 2) <= w.stopAt
    ensures var r := Driven(c, true, w, FRESH_RUN); r.complete && r.gateway.ticks == AllTicks(c, w, n + 1)
  {
    var s := Admitted(w, Tock(FRESH_RUN)).run;
    FreshRunOnTrack(c, w, s);
    assert TurnTime(b) * (n + 2) == TurnTime(b) * (n + 1) + TurnTime(b);
    assert Calm(c, w, s, calm, n, b);
    CalmLoop(c, w, s, calm, n, b);
    DrivenFromStart(c, w, s);
    CompletionMeansAllPages(c, w, n);
  }

  // ----- A first page without a single tick -----

  lemma BarelessReply(c: Config, w: World, s: Progress, p: Page)
    requires OnTrack(c, w, s) && s.page == 0 && PageTicks(c, PageAt(w, 0)) == [] && (p == PageAt(w, 0) || p.bars == [])
    ensures var t := Replied(c, true, w, s, p); t.run.page == 0 && t.control != Leave
  {
    if p.bars != [] {
      var base := s.gateway.ticks;
      assert base + [] == base;
      var j := BarsReplayedAppend(c, w, s, p.bars, 0, base);
      TicksGrow(c, p.bars, j, |p.bars|);
    }
  }

  lemma BarelessTurn(c: Config, w: World, s: Progress)
    requires OnTrack(c, w, s) && s.page == 0 && PageTicks(c, PageAt(w, 0)) == []
    ensures var t := Queried(c, true, w, Tock(s)); t.run.page == 0 && t.control != Leave
  {
    var admitted := Admitted(w, Tock(s));
    if admitted.control == Again {
      var asked := Asked(c, admitted.run);
      AskingKeepsTrack(c, w, s, Tock(asked));
      if !w.fails(asked.time) {
        BarelessReply(c, w, Tock(asked), if asked.time >= w.readyAt then w.answer(asked.cursor) else EMPTY_PAGE);
      }
    }
  }

  lemma {:induction false} BarelessLoop(c: Config, w: World, s: Progress)
    requires OnTrack(c, w, s) && s.page == 0 && PageTicks(c, PageAt(w, 0)) == []
    ensures Paged(c, true, w, s).run.page == 0
    decreases if s.time < w.stopAt then w.stopAt - s.time else 0
  {
    PagedOnce(c, true, w, s);
    if !StopSet(w, s.time) {
      BarelessTurn(c, w, s);
      TurnKeepsTrack(c, w, s);
      var t := Queried(c, true, w, Tock(s));
      if t.control == Again {
        BarelessLoop(c, w, t.run);
      }
    }
  }

  /** Such a page is asked for until the driver is stopped, and later pages are never reached. */
  lemma BarelessFirstPageIsNeverPassed(c: Config, w: World)
    requires PageTicks(c, PageAt(w, 0)) == []
    ensures var r := Driven(c, true, w, FRESH_RUN); r.page == 0 && r.gateway.ticks == []
  {
    var s := Admitted(w, Tock(FRESH_RUN)).run;
    FreshRunOnTrack(c, w, FRESH_RUN);
    AskingKeepsTrack(c, w, FRESH_RUN, s);
    BarelessLoop(c, w, s);
    DrivenEnds(c, w);
    OnePageMore(c, w, 0);
  }

  /**
   * When queries stop failing, the data become ready and the worker is left alone for long enough, and there is any
   * tick at all, the run completes with all pages ingested exactly when the first page has a bar that can be converted.
   */
  lemma RecoversExactlyWithFirstTick(c: Config, w: World, calm: nat, n: nat, b: nat)
    requires c.backtest && calm > 3 && Recovers(w, calm) && LastPage(w, n) && PagesUpTo(w, n, b)
    requires calm + TurnTime(b) * (n + 2) <= w.stopAt && AllTicks(c, w, n + 1) != []
    ensures var r := Driven(c, true, w, FRESH_RUN);
      r.complete && r.gateway.ticks == AllTicks(c, w, n + 1) <==> PageTicks(c, PageAt(w, 0)) != []
  {
    if PageTicks(c, PageAt(w, 0)) == [] {
      BarelessFirstPageIsNeverPassed(c, w);
    } else {
      CompletesAfterRecovery(c, w, calm, n, b);
    }
  }

  // ----- Without a first-data callback -----

  lemma {:induction false} UnwiredBars(c: Config, w: World, s: Progress, bars: seq<Bar>, i: nat, base: seq<Tick>)
    requires i <= |bars| && s.gateway.ticks == base + Ticks(c, bars, i)
    requires s.time + 2 * (|bars| - i) <= w.stopAt && forall t: nat :: !w.shutdown(t)
    ensures var t := BarsReplayed(c, false, w, s, bars, i);
      && t.control == Again
      && t.run.(time := s.time, gateway := s.gateway) == s
      && t.run.gateway.ticks == base + Ticks(c, bars, |bars|)
    decreases |bars| - i
  {
    if i < |bars| {
      var t := BarTurn(c, false, w, s, bars[i], i);
      TicksOneMore(c, bars, i, base);
      UnwiredBars(c, w, t.run, bars, i + 1, base);
    }
  }

  /** A gateway that announces nothing makes every turn ingest the first page once more. */
  lemma UnwiredTurnRepeatsFirstPage(c: Config, w: World, s: Progress)
    requires !s.firstData && s.cursor.None? && s.page == 0 && PageAt(w, 0).bars != []
    requires Recovers(w, s.time) && s.time + TurnTime(|PageAt(w, 0).bars|) <= w.stopAt
    ensures var t := Queried(c, false, w, Tock(s));
      && t.control == Again
      && !t.run.firstData && t.run.cursor.None? && t.run.page == 0
      && t.run.gateway.ticks == s.gateway.ticks + PageTicks(c, PageAt(w, 0))
  {
    var base := s.gateway.ticks;
    assert base + [] == base;
    var asked := Tock(Asked(c, Admitted(w, Tock(s)).run));
    BarsTakeTime(c, false, w, asked, PageAt(w, 0).bars, 0);
    UnwiredBars(c, w, asked, PageAt(w, 0).bars, 0, base);
  }
}
