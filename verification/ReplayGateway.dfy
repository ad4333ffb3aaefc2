/** The gateway every replayed tick goes through (runtime/integration/replay_gateway.py). */
module ReplayGateway {
  import opened Wrappers

  /** The simulated clock, the ticks handed on so far, and whether first data was announced. */
  datatype Gateway<T> = Gateway(clock: Option<int>, ticks: seq<T>, announced: bool)

  /** `wired` says whether a first-data callback is installed. */
  function Ingested<T>(g: Gateway<T>, wired: bool, tick: T, time: Option<int>): Gateway<T> {
    Gateway(if time.Some? then time else g.clock, g.ticks + [tick], g.announced || wired)
  }

  /** What an ingest does, in this order. */
  datatype Effect<T> = SetClock(time: int) | AnnounceData | HandOver(tick: T)

  function EffectsOf<T>(announced: bool, wired: bool, tick: T, time: Option<int>): seq<Effect<T>> {
    (if time.Some? then [SetClock(time.value)] else [])
    + (if wired && !announced then [AnnounceData] else [])
    + [HandOver(tick)]
  }

  class ReplayIngress<T> {
    const wired: bool
    var clock: Option<int>
    var ticks: seq<T>
    var firstDataMarked: bool
    ghost var effects: seq<Effect<T>>

    constructor (wired: bool)
      ensures this.wired == wired && State() == Gateway(None, [], false)
    {
      this.wired := wired;
      clock, ticks, firstDataMarked, effects := None, [], false, [];
    }

    ghost function State(): Gateway<T>
      reads this
    {
      Gateway(clock, ticks, firstDataMarked)
    }

    /** The clock moves first, then first data is announced, then the tick is handed on. */
    method IngestReplayTick(tick: T, simulatedTime: Option<int>) returns (announce: bool)
      modifies this
      ensures State() == Ingested(old(State()), wired, tick, simulatedTime)
      ensures announce == (wired && !old(firstDataMarked))
      ensures effects == old(effects) + EffectsOf(old(firstDataMarked), wired, tick, simulatedTime)
    {
      if simulatedTime.Some? {
        clock := simulatedTime;
        effects := effects + [SetClock(simulatedTime.value)];
      }
      announce := false;
      if !firstDataMarked && wired {
        announce := true;
        effects := effects + [AnnounceData];
        firstDataMarked := true;
      }
      ticks := ticks + [tick];
      effects := effects + [HandOver(tick)];
    }
  }
}
