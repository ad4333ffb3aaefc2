/**
 * Incremental indicators of a replay (`IndicatorService` in replay_runtime_support.py). Indicator objects are named by
 * numbers; two registrations with the same number share one object.
 */
module Indicators {
  import opened Wrappers

  datatype DataSource = BAR | QUOTE | TICK

  /** How indicators of some kind start, change and are read; `value` may be missing. */
  datatype Kind<!S, !E> = Kind(start: nat -> S, update: (S, E) -> S, value: S -> Option<real>)

  datatype Registration = Registration(name: string, obj: nat, source: DataSource)

  /** Registrations in order, values by name, and the states of all indicator objects touched so far. */
  datatype Board<S> = Board(registrations: seq<Registration>, values: map<string, Option<real>>, objects: map<nat, S>)

  function ObjectState<S, E>(kind: Kind<S, E>, b: Board<S>, obj: nat): S {
    if obj in b.objects then b.objects[obj] else kind.start(obj)
  }

  function Registered<S>(b: Board<S>, r: Registration): Board<S> {
    b.(registrations := b.registrations + [r], values := b.values[r.name := None])
  }

  /** One registration sees an event of the given source. */
  function AdvancedOne<S, E>(kind: Kind<S, E>, b: Board<S>, r: Registration, source: DataSource, event: E): Board<S> {
    if r.source != source then b
    else
      var state := kind.update(ObjectState(kind, b, r.obj), event);
      b.(objects := b.objects[r.obj := state], values := b.values[r.name := kind.value(state)])
  }

  function Advanced<S, E>(kind: Kind<S, E>, b: Board<S>, rs: seq<Registration>, source: DataSource,
    event: E): Board<S>
  {
    if rs == [] then b
    else AdvancedOne(kind, Advanced(kind, b, rs[..|rs| - 1], source, event), rs[|rs| - 1], source, event)
  }

  class IndicatorService<S, E> {
    const kind: Kind<S, E>
    var registrations: seq<Registration>
    var values: map<string, Option<real>>
    var objects: map<nat, S>

    constructor (kind: Kind<S, E>)
      ensures this.kind == kind && Contents() == Board([], map[], map[])
    {
      this.kind := kind;
      registrations, values, objects := [], map[], map[];
    }

    ghost function Contents(): Board<S>
      reads this
    {
      Board(registrations, values, objects)
    }

    method RegisterIndicator(name: string, obj: nat, source: DataSource)
      modifies this
      ensures Contents() == Registered(old(Contents()), Registration(name, obj, source))
    {
      registrations := registrations + [Registration(name, obj, source)];
      values := values[name := None];
    }

    /** `advance_on_bar`, `advance_on_quote` and `advance_on_tick`, which differ in the source only. */
    method Advance(source: DataSource, event: E)
      modifies this
      ensures Contents() == Advanced(kind, old(Contents()), old(registrations), source, event)
    {
      for i := 0 to |registrations|
        invariant registrations == old(registrations)
        invariant Contents() == Advanced(kind, old(Contents()), registrations[..i], source, event)
      {
        var r := registrations[i];
        assert registrations[..i + 1][..i] == registrations[..i];
        if r.source != source {
          continue;
        }
        var state := if r.obj in objects then objects[r.obj] else kind.start(r.obj);
        state := kind.update(state, event);
        objects := objects[r.obj := state];
        values := values[r.name := kind.value(state)];
      }
      assert registrations[..|registrations|] == registrations;
    }

    function GetIndicatorValue(name: string): Option<real>
      reads this
    {
      if name in values then values[name] else None
    }
  }

  // ----- Values as folds -----

  datatype Op<E> = Register(registration: Registration) | Event(source: DataSource, event: E)

  function AfterOp<S, E>(kind: Kind<S, E>, b: Board<S>, op: Op<E>): Board<S> {
    match op
    case Register(r) => Registered(b, r)
    case Event(source, event) => Advanced(kind, b, b.registrations, source, event)
  }

  function AfterOps<S, E>(kind: Kind<S, E>, ops: seq<Op<E>>): Board<S> {
    if ops == [] then Board([], map[], map[])
    else AfterOp(kind, AfterOps(kind, ops[..|ops| - 1]), ops[|ops| - 1])
  }

  function Registrations<E>(ops: seq<Op<E>>): seq<Registration> {
    if ops == [] then []
    else
      Registrations(ops[..|ops| - 1])
      + if ops[|ops| - 1].Register? then [ops[|ops| - 1].registration] else []
  }

  /** The events of r's source since r was registered. */
  function EventsFor<E>(ops: seq<Op<E>>, r: Registration): seq<E> {
    if ops == [] then []
    else
      var before, last := ops[..|ops| - 1], ops[|ops| - 1];
      match last
      case Register(other) => if other == r then [] else EventsFor(before, r)
      case Event(source, event) =>
        if r in Registrations(before) && r.source == source then EventsFor(before, r) + [event]
            else EventsFor(before, r)
  }

  function Fold<S, E>(kind: Kind<S, E>, obj: nat, events: seq<E>): S {
    if events == [] then kind.start(obj)
    else kind.update(Fold(kind, obj, events[..|events| - 1]), events[|events| - 1])
  }

  /** No name and no object is registered twice. */
  predicate NoneShared(rs: seq<Registration>) {
    forall i, j :: 0 <= i < j < |rs| ==> rs[i].name != rs[j].name && rs[i].obj != rs[j].obj
  }

  /** Registration r is up to date with the events it has seen. */
  ghost predicate UpToDate<S, E>(kind: Kind<S, E>, b: Board<S>, r: Registration, events: seq<E>) {
    && ObjectState(kind, b, r.obj) == Fold(kind, r.obj, events)
    && r.name in b.values
    && b.values[r.name] == if events == [] then None else kind.value(Fold(kind, r.obj, events))
  }

  lemma AdvancingOthers<S, E>(
    kind: Kind<S, E>, b: Board<S>, rs: seq<Registration>, source: DataSource, event: E, r: Registration)
    requires forall i :: 0 <= i < |rs| ==> rs[i].name != r.name && rs[i].obj != r.obj
    ensures var b' := Advanced(kind, b, rs, source, event);
      && b'.registrations == b.registrations
      && ObjectState(kind, b', r.obj) == ObjectState(kind, b, r.obj)
      && (r.name in b'.values <==> r.name in b.values)
      && (r.name in b.values ==> b'.values[r.name] == b.values[r.name])
  {
    if rs != [] {
      AdvancingOthers(kind, b, rs[..|rs| - 1], source, event, r);
    }
  }

  lemma {:induction false} AdvancingKeepsUpToDate<S, E>(
    kind: Kind<S, E>, b: Board<S>, rs: seq<Registration>, source: DataSource, event: E, k: nat, events: seq<E>)
    requires k < |rs| && NoneShared(rs) && UpToDate(kind, b, rs[k], events)
    ensures var b' := Advanced(kind, b, rs, source, event);
      && b'.registrations == b.registrations
      && UpToDate(kind, b', rs[k], if rs[k].source == source then events + [event] else events)
  {
    var n := |rs| - 1;
    if k < n {
      AdvancingKeepsUpToDate(kind, b, rs[..n], source, event, k, events);
    } else {
      AdvancingOthers(kind, b, rs[..n], source, event, rs[k]);
      assert (events + [event])[..|events|] == events;
    }
  }

  lemma {:induction false} AdvancingKeepsRegistrations<S, E>(
    kind: Kind<S, E>, b: Board<S>, rs: seq<Registration>, source: DataSource, event: E)
    ensures Advanced(kind, b, rs, source, event).registrations == b.registrations
  {
    if rs != [] {
      AdvancingKeepsRegistrations(kind, b, rs[..|rs| - 1], source, event);
    }
  }

  lemma {:induction false} BoardHasRegistrations<S, E>(kind: Kind<S, E>, ops: seq<Op<E>>)
    ensures AfterOps(kind, ops).registrations == Registrations(ops)
  {
    if ops != [] {
      BoardHasRegistrations(kind, ops[..|ops| - 1]);
      if ops[|ops| - 1].Event? {
        var b := AfterOps(kind, ops[..|ops| - 1]);
        AdvancingKeepsRegistrations(kind, b, b.registrations, ops[|ops| - 1].source, ops[|ops| - 1].event);
      }
    }
  }

  /** An object nobody has registered is still in its start state. */
  lemma {:induction false} UnregisteredIsFresh<S, E>(kind: Kind<S, E>, ops: seq<Op<E>>, r: Registration)
    requires forall i :: 0 <= i < |Registrations(ops)| ==>
      Registrations(ops)[i].name != r.name && Registrations(ops)[i].obj != r.obj
    ensures ObjectState(kind, AfterOps(kind, ops), r.obj) == kind.start(r.obj)
  {
    if ops != [] {
      var before, last := ops[..|ops| - 1], ops[|ops| - 1];
      assert Registrations(before) <= Registrations(ops);
      assert forall i :: 0 <= i < |Registrations(before)| ==> Registrations(before)[i] == Registrations(ops)[i];
      UnregisteredIsFresh(kind, before, r);
      BoardHasRegistrations(kind, before);
      if last.Event? {
        AdvancingOthers(kind, AfterOps(kind, before), Registrations(before), last.source, last.event, r);
      }
    }
  }

  /**
   * With distinct names and distinct objects, the value under a name is the fold of the events of its source since
   * its registration, and missing while there were none.
   */
  lemma {:induction false} ValuesAreFolds<S, E>(kind: Kind<S, E>, ops: seq<Op<E>>, k: nat)
    requires k < |Registrations(ops)| && NoneShared(Registrations(ops))
    ensures UpToDate(kind, AfterOps(kind, ops), Registrations(ops)[k], EventsFor(ops, Registrations(ops)[k]))
  {
    var before, last := ops[..|ops| - 1], ops[|ops| - 1];
    var rs, r := Registrations(before), Registrations(ops)[k];
    assert forall i :: 0 <= i < |rs| ==> rs[i] == Registrations(ops)[i];
    BoardHasRegistrations(kind, before);
    if k == |rs| {
      UnregisteredIsFresh(kind, before, r);
    } else {
      ValuesAreFolds(kind, before, k);
      assert r == rs[k] && r in rs;
      if last.Register? {
        assert Registrations(ops)[|rs|] == last.registration;
      }
      if last.Event? {
        AdvancingKeepsUpToDate(kind, AfterOps(kind, before), rs, last.source, last.event, k, EventsFor(before, r));
      }
    }
  }

  // ----- Exactly when values are folds -----

  /** The registrations in order, and then events. */
  function Setup<E>(rs: seq<Registration>, events: seq<(DataSource, E)>): seq<Op<E>> {
    if events != [] then Setup(rs, events[..|events| - 1]) + [Event(events[|events| - 1].0, events[|events| - 1].1)]
    else if rs != [] then Setup(rs[..|rs| - 1], []) + [Register(rs[|rs| - 1])]
    else []
  }

  function OfSource<E>(events: seq<(DataSource, E)>, source: DataSource): seq<E> {
    if events == [] then []
    else
      var before, last := OfSource(events[..|events| - 1], source), events[|events| - 1];
      if last.0 == source then before + [last.1] else before
  }

  lemma {:induction false} SetupRegisters<E>(rs: seq<Registration>, events: seq<(DataSource, E)>)
    ensures Registrations(Setup(rs, events)) == rs
    decreases |events|, |rs|
  {
    if events != [] {
      var before, last := Setup(rs, events[..|events| - 1]), Event(events[|events| - 1].0, events[|events| - 1].1);
      SetupRegisters(rs, events[..|events| - 1]);
      assert (before + [last])[..|before|] == before;
    } else if rs != [] {
      var before: seq<Op<E>>, last: Op<E> := Setup(rs[..|rs| - 1], []), Register(rs[|rs| - 1]);
      SetupRegisters<E>(rs[..|rs| - 1], []);
      assert (before + [last])[..|before|] == before;
    }
  }

  lemma {:induction false} SetupEvents<E>(rs: seq<Registration>, events: seq<(DataSource, E)>, r: Registration)
    requires r in rs
    ensures EventsFor(Setup(rs, events), r) == OfSource(events, r.source)
    decreases |events|
  {
    if events != [] {
      var before, last := Setup(rs, events[..|events| - 1]), Event(events[|events| - 1].0, events[|events| - 1].1);
      SetupEvents(rs, events[..|events| - 1], r);
      SetupRegisters(rs, events[..|events| - 1]);
      assert (before + [last])[..|before|] == before;
    } else {
      NoEventsYet<E>(rs, r);
    }
  }

  lemma {:induction false} NoEventsYet<E>(rs: seq<Registration>, r: Registration)
    ensures EventsFor(Setup<E>(rs, []), r) == []
  {
    if rs != [] {
      var before: seq<Op<E>>, last: Op<E> := Setup(rs[..|rs| - 1], []), Register(rs[|rs| - 1]);
      NoEventsYet<E>(rs[..|rs| - 1], r);
      assert (before + [last])[..|before|] == before;
    }
  }

  /** What registration r should show after the given events of its source. */
  function Expected<S, E>(kind: Kind<S, E>, r: Registration, events: seq<E>): Option<real> {
    if events == [] then None else kind.value(Fold(kind, r.obj, events))
  }

  /** After the registrations and the events, the value under every name is what its registration should show. */
  predicate ValuesFit<S, E>(kind: Kind<S, E>, rs: seq<Registration>, events: seq<(DataSource, E)>) {
    var values := AfterOps(kind, Setup(rs, events)).values;
    forall k :: 0 <= k < |rs| ==>
      rs[k].name in values && values[rs[k].name] == Expected(kind, rs[k], OfSource(events, rs[k].source))
  }

  lemma DistinctValuesFit<S, E>(kind: Kind<S, E>, rs: seq<Registration>, events: seq<(DataSource, E)>)
    requires NoneShared(rs)
    ensures ValuesFit(kind, rs, events)
  {
    SetupRegisters(rs, events);
    forall k | 0 <= k < |rs|
      ensures var values := AfterOps(kind, Setup(rs, events)).values;
        rs[k].name in values && values[rs[k].name] == Expected(kind, rs[k], OfSource(events, rs[k].source))
    {
      ValuesAreFolds(kind, Setup(rs, events), k);
      SetupEvents(rs, events, rs[k]);
    }
  }

  /** An indicator that counts its events, and one that shows which object it is. */
  const COUNT: Kind<int, int> := Kind((o: nat) => 0, (n: int, e: int) => n + 1, (n: int) => Some(n as real))

  const NAME_TAG: Kind<int, int> := Kind((o: nat) => o as int, (n: int, e: int) => n, (n: int) => Some(n as real))

  /** How many registrations of a source share an object. */
  function Hits(rs: seq<Registration>, obj: nat, source: DataSource): nat {
    if rs == [] then 0
    else
      Hits(rs[..|rs| - 1], obj, source)
      + if rs[|rs| - 1].obj == obj && rs[|rs| - 1].source == source then 1 else 0
  }

  lemma {:induction false} HitsOf(rs: seq<Registration>, j: nat)
    requires j < |rs|
    ensures Hits(rs, rs[j].obj, rs[j].source) >= 1
    ensures forall i :: 0 <= i < j && rs[i].obj == rs[j].obj && rs[i].source == rs[j].source ==>
      Hits(rs, rs[j].obj, rs[j].source) >= 2
  {
    var n := |rs| - 1;
    if j < n {
      HitsOf(rs[..n], j);
    } else {
      forall i | 0 <= i < j && rs[i].obj == rs[j].obj && rs[i].source == rs[j].source
        ensures Hits(rs, rs[j].obj, rs[j].source) >= 2
      {
        HitsOf(rs[..n], i);
      }
    }
  }

  lemma {:induction false} CountGrows(b: Board<int>, rs: seq<Registration>, source: DataSource, obj: nat)
    ensures ObjectState(COUNT, Advanced(COUNT, b, rs, source, 0), obj) == ObjectState(COUNT, b, obj)
        + Hits(rs, obj, source)
  {
    if rs != [] {
      CountGrows(b, rs[..|rs| - 1], source, obj);
    }
  }

  /** The count under a name, when all registrations of that name have the one object. */
  lemma {:induction false} CountShown(b: Board<int>, rs: seq<Registration>, j: nat) returns (n: int)
    requires j < |rs| && forall i :: 0 <= i < |rs| && rs[i].name == rs[j].name ==> rs[i].obj == rs[j].obj
    ensures var r := rs[j];
      var values := Advanced(COUNT, b, rs, r.source, 0).values;
      && r.name in values && values[r.name] == Some(n as real)
      && n >= ObjectState(COUNT, b, r.obj) + Hits(rs[..j + 1], r.obj, r.source)
  {
    var r, last := rs[j], rs[|rs| - 1];
    CountGrows(b, rs, r.source, r.obj);
    HitsGrow(rs, j + 1, r.obj, r.source);
    if last.name == r.name && last.source == r.source {
      n := ObjectState(COUNT, Advanced(COUNT, b, rs, r.source, 0), r.obj);
    } else {
      assert rs[..|rs| - 1][..j + 1] == rs[..j + 1];
      n := CountShown(b, rs[..|rs| - 1], j);
    }
  }

  lemma {:induction false} HitsGrow(rs: seq<Registration>, j: nat, obj: nat, source: DataSource)
    requires j <= |rs|
    ensures Hits(rs[..j], obj, source) <= Hits(rs, obj, source)
  {
    if j == |rs| {
      assert rs[..j] == rs;
    } else {
      assert rs[..|rs| - 1][..j] == rs[..j];
      HitsGrow(rs[..|rs| - 1], j, obj, source);
    }
  }

  /** All objects still carry their own number. */
  ghost predicate Tagged(b: Board<int>) {
    forall o: nat :: ObjectState(NAME_TAG, b, o) == o
  }

  /** The object shown under a name is that of some registration of that name and source. */
  lemma {:induction false} TagShown(b: Board<int>, rs: seq<Registration>, j: nat) returns (m: nat)
    requires j < |rs| && Tagged(b)
    ensures Tagged(Advanced(NAME_TAG, b, rs, rs[j].source, 0))
    ensures m < |rs| && rs[m].name == rs[j].name && rs[m].source == rs[j].source
    ensures var values := Advanced(NAME_TAG, b, rs, rs[j].source, 0).values;
      rs[j].name in values && values[rs[j].name] == Some(rs[m].obj as real)
  {
    var n := |rs| - 1;
    TagsStay(b, rs[..n], rs[j].source);
    TagsStay(b, rs, rs[j].source);
    assert ObjectState(NAME_TAG, Advanced(NAME_TAG, b, rs[..n], rs[j].source, 0), rs[n].obj) == rs[n].obj;
    if rs[n].name == rs[j].name && rs[n].source == rs[j].source {
      m := n;
    } else {
      m := TagShown(b, rs[..n], j);
    }
  }

  lemma TagStays(b: Board<int>, r: Registration, source: DataSource)
    requires Tagged(b)
    ensures Tagged(AdvancedOne(NAME_TAG, b, r, source, 0))
  {
    var b' := AdvancedOne(NAME_TAG, b, r, source, 0);
    forall o: nat ensures ObjectState(NAME_TAG, b', o) == o {
      assert ObjectState(NAME_TAG, b, o) == o && ObjectState(NAME_TAG, b, r.obj) == r.obj;
    }
  }

  lemma {:induction false} TagsStay(b: Board<int>, rs: seq<Registration>, source: DataSource)
    requires Tagged(b)
    ensures Tagged(Advanced(NAME_TAG, b, rs, source, 0))
  {
    if rs != [] {
      TagsStay(b, rs[..|rs| - 1], source);
      TagStays(Advanced(NAME_TAG, b, rs[..|rs| - 1], source, 0), rs[|rs| - 1], source);
    }
  }

  /** The board after the registrations alone. */
  lemma {:induction false} FreshBoard<S, E>(kind: Kind<S, E>, rs: seq<Registration>)
    ensures var b := AfterOps(kind, Setup(rs, [])); b.registrations == rs && b.objects == map[]
  {
    if rs != [] {
      var before: seq<Op<E>>, last: Op<E> := Setup(rs[..|rs| - 1], []), Register(rs[|rs| - 1]);
      FreshBoard(kind, rs[..|rs| - 1]);
      assert (before + [last])[..|before|] == before;
    }
  }

  lemma OneMoreEvent<S, E>(
    kind: Kind<S, E>, rs: seq<Registration>, events: seq<(DataSource, E)>, source: DataSource, event: E)
    ensures var b := AfterOps(kind, Setup(rs, events));
      b.registrations == rs
          && AfterOps(kind, Setup(rs, events + [(source, event)])) == Advanced(kind, b, rs, source, event)
    ensures forall s ::
      OfSource(events + [(source, event)], s)
          == (if s == source then OfSource(events, s) + [event] else OfSource(events, s))
  {
    var before, last := Setup(rs, events), Event(source, event);
    assert (events + [(source, event)])[..|events|] == events;
    assert (before + [last])[..|before|] == before;
    SetupRegisters(rs, events);
    BoardHasRegistrations(kind, before);
  }

  /** Two objects under one name: the name shows only one of them. */
  lemma SharedNameShows(rs: seq<Registration>, i: nat, j: nat)
    requires i < j < |rs| && rs[i].name == rs[j].name && rs[i].obj != rs[j].obj
    ensures !ValuesFit(NAME_TAG, rs, [(rs[j].source, 0)])
  {
    var source := rs[j].source;
    FreshBoard(NAME_TAG, rs);
    OneMoreEvent(NAME_TAG, rs, [], source, 0);
    assert [] + [(source, 0)] == [(source, 0)];
    var m := TagShown(AfterOps(NAME_TAG, Setup(rs, [])), rs, j);
    assert Fold(NAME_TAG, rs[i].obj, [0]) == rs[i].obj && Fold(NAME_TAG, rs[j].obj, [0]) == rs[j].obj by {
      assert [0][..0] == [];
    }
    assert OfSource([(source, 0)], source) == [0];
    assert rs[i].source != source ==> OfSource([(source, 0)], rs[i].source) == [];
    if rs[m].obj == rs[j].obj {
      assert Some(rs[m].obj as real) != Expected(NAME_TAG, rs[i], OfSource([(source, 0)], rs[i].source));
    } else {
      assert Some(rs[m].obj as real) != Expected(NAME_TAG, rs[j], OfSource([(source, 0)], source));
    }
  }

  lemma {:induction false} FoldCounts(obj: nat, events: seq<int>)
    ensures Fold(COUNT, obj, events) == |events|
  {
    if events != [] {
      FoldCounts(obj, events[..|events| - 1]);
    }
  }

  /** One object registered twice: it counts more events than there were of either source. */
  lemma SharedObjectCounts(rs: seq<Registration>, i: nat, j: nat)
    requires i < j < |rs| && rs[i].obj == rs[j].obj
    requires forall m :: 0 <= m < |rs| && rs[m].name == rs[j].name ==> rs[m].obj == rs[j].obj
    ensures !ValuesFit(COUNT, rs, [(rs[i].source, 0), (rs[j].source, 0)])
  {
    var s, t, o := rs[i].source, rs[j].source, rs[j].obj;
    FreshBoard(COUNT, rs);
    OneMoreEvent(COUNT, rs, [], s, 0);
    OneMoreEvent(COUNT, rs, [(s, 0)], t, 0);
    assert [] + [(s, 0)] == [(s, 0)] && [(s, 0)] + [(t, 0)] == [(s, 0), (t, 0)];
    var b0, b1 := AfterOps(COUNT, Setup(rs, [])), AfterOps(COUNT, Setup(rs, [(s, 0)]));
    CountGrows(b0, rs, s, o);
    HitsOf(rs, i);
    HitsOf(rs, j);
    HitsOf(rs[..j + 1], j);
    var n := CountShown(b1, rs, j);
    var events := OfSource([(s, 0), (t, 0)], t);
    assert |events| == if s == t then 2 else 1;
    FoldCounts(o, events);
    assert n > |events|;
  }

  /**
   * Whatever the indicators and the events, all values are the folds they should be, exactly when no name and no
   * object is registered twice.
   */
  lemma ValuesAreFoldsExactly(rs: seq<Registration>)
    ensures NoneShared(rs) <==>
      forall kind: Kind<int, int>, events: seq<(DataSource, int)> :: ValuesFit(kind, rs, events)
  {
    if NoneShared(rs) {
      forall kind: Kind<int, int>, events: seq<(DataSource, int)> ensures ValuesFit(kind, rs, events) {
        DistinctValuesFit(kind, rs, events);
      }
    } else if i, j :| 0 <= i < j < |rs| && rs[i].name == rs[j].name && rs[i].obj != rs[j].obj {
      SharedNameShows(rs, i, j);
    } else {
      var i, j :| 0 <= i < j < |rs| && (rs[i].name == rs[j].name || rs[i].obj == rs[j].obj);
      SharedObjectCounts(rs, i, j);
    }
  }
}
