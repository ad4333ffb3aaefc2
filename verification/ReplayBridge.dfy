/** Dispatching replayed events to a strategy's hooks (`ReplaySdkBridge` in replay_sdk_bridge.py). */
module ReplayBridge {
  import opened Wrappers
  import opened ReplayData
  import I = Indicators

  /** What a hook is called with, and all it can look at while it runs. */
  datatype Hook<S> = Hook(item: Item, store: Store, board: I.Board<S>)

  /** What happens in a session: an indicator is registered or an event is dispatched. */
  datatype Action = Register(registration: I.Registration) | Dispatch(event: Event)

  datatype Session<S> = Session(store: Store, board: I.Board<S>, hooks: seq<Hook<S>>)

  function SourceOf(i: Item): Option<I.DataSource> {
    match i
    case BarItem(_) => Some(I.BAR)
    case QuoteItem(_) => Some(I.QUOTE)
    case TickItem(_) => Some(I.TICK)
    case TimerItem(_) => None
  }

  /** A timer reaches no indicator. */
  function Indicated<S>(kind: I.Kind<S, Item>, b: I.Board<S>, i: Item): I.Board<S> {
    match SourceOf(i)
    case None => b
    case Some(source) => I.Advanced(kind, b, b.registrations, source, i)
  }

  function Dispatched<S>(c: Settings, kind: I.Kind<S, Item>, s: Session<S>, e: Event): Session<S> {
    var item := ItemOf(c, e);
    var store, board := Applied(s.store, item), Indicated(kind, s.board, item);
    Session(store, board, s.hooks + [Hook(item, store, board)])
  }

  function Acted<S>(c: Settings, kind: I.Kind<S, Item>, s: Session<S>, a: Action): Session<S> {
    match a
    case Register(r) => s.(board := I.Registered(s.board, r))
    case Dispatch(e) => Dispatched(c, kind, s, e)
  }

  function After<S>(c: Settings, kind: I.Kind<S, Item>, actions: seq<Action>): Session<S> {
    if actions == [] then Session(EMPTY, I.Board([], map[], map[]), [])
    else Acted(c, kind, After(c, kind, actions[..|actions| - 1]), actions[|actions| - 1])
  }

  class ReplaySdkBridge<S> {
    const coordinator: ReplayStateCoordinator
    const indicators: I.IndicatorService<S, Item>
    ghost var hooks: seq<Hook<S>>

    constructor (coordinator: ReplayStateCoordinator, indicators: I.IndicatorService<S, Item>)
      ensures this.coordinator == coordinator && this.indicators == indicators && hooks == []
    {
      this.coordinator, this.indicators := coordinator, indicators;
      hooks := [];
    }

    ghost function State(): Session<S>
      reads this, coordinator, coordinator.data, indicators
    {
      Session(coordinator.State(), indicators.Contents(), hooks)
    }

    /** `dispatch_on_bar`, `_quote`, `_tick` and `_timer`: state first, indicators next, the hook last. */
    method DispatchOn(e: Event) returns (payload: Item)
      modifies this`hooks, coordinator, coordinator.data, indicators
      ensures State() == Dispatched(coordinator.settings, indicators.kind, old(State()), e)
      ensures payload == ItemOf(coordinator.settings, e)
    {
      payload := coordinator.Apply(e);
      match payload {
        case BarItem(_) => indicators.Advance(I.BAR, payload);
        case QuoteItem(_) => indicators.Advance(I.QUOTE, payload);
        case TickItem(_) => indicators.Advance(I.TICK, payload);
        case TimerItem(_) =>
      }
      hooks := hooks + [Hook(payload, coordinator.State(), indicators.Contents())];
    }
  }

  // ----- What hooks see -----

  /** The events dispatched by a list of actions. */
  function Events(actions: seq<Action>): seq<Event> {
    if actions == [] then []
    else
      var before, last := Events(actions[..|actions| - 1]), actions[|actions| - 1];
      if last.Dispatch? then before + [last.event] else before
  }

  /** The actions up to and including the i-th dispatch. */
  function UpTo(actions: seq<Action>, i: nat): seq<Action>
    requires i < |Events(actions)|
  {
    if i < |Events(actions[..|actions| - 1])| then UpTo(actions[..|actions| - 1], i) else actions
  }

  /** The indicator service's view of the actions. */
  function IndicatorOps(c: Settings, actions: seq<Action>): seq<I.Op<Item>> {
    if actions == [] then []
    else
      var before, last := IndicatorOps(c, actions[..|actions| - 1]), actions[|actions| - 1];
      match last
      case Register(r) => before + [I.Register(r)]
      case Dispatch(e) =>
        var item := ItemOf(c, e);
        if SourceOf(item).Some? then before + [I.Event(SourceOf(item).value, item)] else before
  }

  /** The session is the data of its events and the indicators of its operations, each by itself. */
  lemma {:induction false} SessionSplits<S>(c: Settings, kind: I.Kind<S, Item>, actions: seq<Action>)
    ensures var s := After(c, kind, actions);
      && s.store == StoreAfter(Items(c, Events(actions)))
      && s.board == I.AfterOps(kind, IndicatorOps(c, actions))
      && |s.hooks| == |Events(actions)|
  {
    if actions != [] {
      var before, last := actions[..|actions| - 1], actions[|actions| - 1];
      SessionSplits(c, kind, before);
      if last.Dispatch? {
        var items, more := Items(c, Events(before)), Items(c, Events(actions));
        assert more[..|more| - 1] == items;
      }
      var ops := IndicatorOps(c, actions);
      assert |ops| > 0 ==> ops[..|ops| - 1] == IndicatorOps(c, before) || ops == IndicatorOps(c, before);
    }
  }

  /**
   * When the i-th hook runs it sees the data of the events dispatched so far, its own included, and of no later one:
   * its item is the latest of its key, the clock stands at its time, and the indicators have taken it in.
   */
  lemma {:induction false} HookSeesExactlyThePast<S>(c: Settings, kind: I.Kind<S, Item>, actions: seq<Action>, i: nat)
    requires i < |Events(actions)|
    ensures |After(c, kind, actions).hooks| == |Events(actions)|
    ensures var h := After(c, kind, actions).hooks[i];
      && h.item == ItemOf(c, Events(actions)[i])
      && IsCurrent(h.store, h.item)
      && h.store == StoreAfter(Items(c, Events(actions)[..i + 1]))
      && h.board == I.AfterOps(kind, IndicatorOps(c, UpTo(actions, i)))
  {
    var before, last := actions[..|actions| - 1], actions[|actions| - 1];
    SessionSplits(c, kind, actions);
    SessionSplits(c, kind, before);
    if i < |Events(before)| {
      HookSeesExactlyThePast(c, kind, before, i);
      assert Events(before)[..i + 1] == Events(actions)[..i + 1];
    } else {
      AppliedIsCurrent(c, After(c, kind, before).store, last.event);
      assert Events(actions)[..i + 1] == Events(actions);
    }
  }

  /** No look-ahead: two sessions that agree up to the i-th dispatch show the i-th hook the same. */
  lemma NoLookAhead<S>(c: Settings, kind: I.Kind<S, Item>, a: seq<Action>, b: seq<Action>, i: nat)
    requires i < |Events(a)| && i < |Events(b)| && UpTo(a, i) == UpTo(b, i)
    ensures |After(c, kind, a).hooks| == |Events(a)| && |After(c, kind, b).hooks| == |Events(b)|
    ensures After(c, kind, a).hooks[i] == After(c, kind, b).hooks[i]
  {
    HookSeesExactlyThePast(c, kind, a, i);
    HookSeesExactlyThePast(c, kind, b, i);
    EventsUpTo(a, i);
    EventsUpTo(b, i);
  }

  lemma {:induction false} EventsUpTo(actions: seq<Action>, i: nat)
    requires i < |Events(actions)|
    ensures Events(UpTo(actions, i)) == Events(actions)[..i + 1]
  {
    var before := actions[..|actions| - 1];
    if i < |Events(before)| {
      EventsUpTo(before, i);
      assert Events(before)[..i + 1] == Events(actions)[..i + 1];
    } else {
      assert Events(actions)[..i + 1] == Events(actions);
    }
  }
}
