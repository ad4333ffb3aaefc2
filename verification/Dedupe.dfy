/** Duplicate and stale-attempt suppression (runtime/events/dedupe.py). */
module Dedupe {
  import opened Events

  datatype Decision = Accept | DropDuplicate | DropStaleAttempt

  datatype Key = Key(runtimeId: string, attempt: int, signal: Signal, identityKey: string)

  function KeyOf(e: Event): Key {
    Key(e.runtimeId, e.attempt, e.signal, e.identityKey)
  }

  function Max(a: int, b: int): int {
    if a >= b then a else b
  }

  /** The table the class keeps, as a value. */
  datatype Table = Table(latest: map<string, int>, seen: set<Key>)

  const EMPTY_TABLE := Table(map[], {})

  datatype Verdict = Verdict(decision: Decision, table: Table)

  function Judge(t: Table, e: Event, current: int): Verdict {
    var latestSeen := if e.runtimeId in t.latest then t.latest[e.runtimeId] else current;
    if e.attempt < Max(current, latestSeen) then Verdict(DropStaleAttempt, t)
    else if KeyOf(e) in t.seen then Verdict(DropDuplicate, t)
    else Verdict(Accept, Table(t.latest[e.runtimeId := Max(e.attempt, latestSeen)], t.seen + {KeyOf(e)}))
  }

  class LifecycleSignalDedupe {
    var latestAttemptByRuntime: map<string, int>
    var seenIdentityKeys: set<Key>

    ghost function Contents(): Table
      reads this
    {
      Table(latestAttemptByRuntime, seenIdentityKeys)
    }

    constructor ()
      ensures Contents() == EMPTY_TABLE
    {
      latestAttemptByRuntime, seenIdentityKeys := map[], {};
    }

    method Decide(envelope: Event, currentLaunchAttempt: int) returns (d: Decision)
      modifies this
      ensures Verdict(d, Contents()) == Judge(old(Contents()), envelope, currentLaunchAttempt)
    {
      var latestSeen := currentLaunchAttempt;
      if envelope.runtimeId in latestAttemptByRuntime {
        latestSeen := latestAttemptByRuntime[envelope.runtimeId];
      }
      var effectiveCurrent := Max(currentLaunchAttempt, latestSeen);
      if envelope.attempt < effectiveCurrent {
        return DropStaleAttempt;
      }
      var key := KeyOf(envelope);
      if key in seenIdentityKeys {
        return DropDuplicate;
      }
      latestAttemptByRuntime := latestAttemptByRuntime[envelope.runtimeId := Max(envelope.attempt, latestSeen)];
      seenIdentityKeys := seenIdentityKeys + {key};
      return Accept;
    }
  }

  // ----- Decisions against the history of calls -----

  datatype Call = Call(event: Event, current: int)

  function TableAfter(calls: seq<Call>): Table {
    if calls == [] then EMPTY_TABLE
    else
      var last := calls[|calls| - 1];
      Judge(TableAfter(calls[..|calls| - 1]), last.event, last.current).table
  }

  function DecisionAt(calls: seq<Call>, i: nat): Decision
    requires i < |calls|
  {
    Judge(TableAfter(calls[..i]), calls[i].event, calls[i].current).decision
  }

  /** Too old: below the caller's attempt or below an attempt of the same runtime accepted earlier. */
  predicate Stale(accepted: seq<Event>, e: Event, current: int) {
    || e.attempt < current
    || exists a :: a in accepted && a.runtimeId == e.runtimeId && e.attempt < a.attempt
  }

  predicate Repeated(accepted: seq<Event>, e: Event) {
    exists a :: a in accepted && KeyOf(a) == KeyOf(e)
  }

  /** What the history alone prescribes: the events accepted among the calls, without any table. */
  function Accepted(calls: seq<Call>): seq<Event> {
    if calls == [] then []
    else
      var before, last := Accepted(calls[..|calls| - 1]), calls[|calls| - 1];
      if Stale(before, last.event, last.current) || Repeated(before, last.event) then before
      else before + [last.event]
  }

  /** The table holds the keys and the highest attempts of the accepted events and nothing else. */
  ghost predicate Describes(t: Table, accepted: seq<Event>) {
    && (forall a :: a in accepted ==>
          && KeyOf(a) in t.seen
          && a.runtimeId in t.latest
          && a.attempt <= t.latest[a.runtimeId])
    && (forall k :: k in t.seen ==> exists a :: a in accepted && KeyOf(a) == k)
    && (forall r :: r in t.latest ==> exists a :: a in accepted && a.runtimeId == r && a.attempt == t.latest[r])
  }

  /** One call decided against a table that describes the events accepted before it. */
  lemma JudgeMatchesHistory(t: Table, accepted: seq<Event>, e: Event, current: int)
    requires Describes(t, accepted)
    ensures var v := Judge(t, e, current);
      && (v.decision == DropStaleAttempt <==> Stale(accepted, e, current))
      && (v.decision == Accept <==> !Stale(accepted, e, current) && !Repeated(accepted, e))
      && Describes(v.table, if v.decision == Accept then accepted + [e] else accepted)
  {
    var v := Judge(t, e, current);
    assert KeyOf(e) in t.seen <==> Repeated(accepted, e);
    if v.decision == Accept {
      AcceptanceKeepsDescription(t, accepted, e, current);
    }
  }

  lemma AcceptanceKeepsDescription(t: Table, accepted: seq<Event>, e: Event, current: int)
    requires Describes(t, accepted) && Judge(t, e, current).decision == Accept
    ensures Describes(Judge(t, e, current).table, accepted + [e])
  {
    var v, after := Judge(t, e, current), accepted + [e];
    assert e in after;
    forall k | k in v.table.seen ensures exists a :: a in after && KeyOf(a) == k {
      if k != KeyOf(e) {
        var a :| a in accepted && KeyOf(a) == k;
        assert a in after;
      }
    }
    forall r | r in v.table.latest
      ensures exists a :: a in after && a.runtimeId == r && a.attempt == v.table.latest[r]
    {
      if r != e.runtimeId {
        var a :| a in accepted && a.runtimeId == r && a.attempt == t.latest[r];
        assert a in after;
      }
    }
  }

  lemma {:induction false} TableDescribesHistory(calls: seq<Call>)
    ensures Describes(TableAfter(calls), Accepted(calls))
  {
    if calls != [] {
      var before, last := calls[..|calls| - 1], calls[|calls| - 1];
      TableDescribesHistory(before);
      JudgeMatchesHistory(TableAfter(before), Accepted(before), last.event, last.current);
    }
  }

  /** Every decision of every call sequence is the one the history of accepted events prescribes. */
  lemma DecisionsEqualHistory(calls: seq<Call>, i: nat)
    requires i < |calls|
    ensures var before, e := Accepted(calls[..i]), calls[i].event;
      DecisionAt(calls, i) ==
      if Stale(before, e, calls[i].current) then DropStaleAttempt
      else if Repeated(before, e) then DropDuplicate
      else Accept
  {
    TableDescribesHistory(calls[..i]);
    JudgeMatchesHistory(TableAfter(calls[..i]), Accepted(calls[..i]), calls[i].event, calls[i].current);
  }

  /** Accepted attempts of one runtime never decrease and no key is accepted twice. */
  lemma {:induction false} AcceptedAreMonotoneAndDistinct(calls: seq<Call>, i: nat, j: nat)
    requires i < j < |Accepted(calls)|
    ensures var a, b := Accepted(calls)[i], Accepted(calls)[j];
      && (a.runtimeId == b.runtimeId ==> a.attempt <= b.attempt)
      && KeyOf(a) != KeyOf(b)
  {
    var before := calls[..|calls| - 1];
    if j < |Accepted(before)| {
      AcceptedAreMonotoneAndDistinct(before, i, j);
    } else {
      assert Accepted(before)[i] in Accepted(before);
    }
  }

  // ----- A garbage-collected table -----

  predicate Live(t: Table, k: Key) {
    k.runtimeId in t.latest ==> k.attempt >= t.latest[k.runtimeId]
  }

  /** Forgets every key below its runtime's high-water attempt. */
  function Collect(t: Table): Table {
    t.(seen := set k | k in t.seen && Live(t, k))
  }

  /** Two tables that differ at most in keys below the high-water attempt. */
  ghost predicate SameLiveKeys(t: Table, u: Table) {
    t.latest == u.latest && Collect(t).seen == Collect(u).seen
  }

  lemma DecideKeepsLiveKeys(t: Table, u: Table, e: Event, current: int)
    requires SameLiveKeys(t, u)
    ensures Judge(t, e, current).decision == Judge(u, e, current).decision
    ensures SameLiveKeys(Judge(t, e, current).table, Judge(u, e, current).table)
  {
    var v, w := Judge(t, e, current), Judge(u, e, current);
    var k := KeyOf(e);
    if v.decision != DropStaleAttempt {
      assert k in t.seen <==> k in Collect(t).seen;
      assert k in u.seen <==> k in Collect(u).seen;
    }
    forall x ensures x in Collect(v.table).seen <==> x in Collect(w.table).seen {
      assert x in Collect(t).seen <==> x in Collect(u).seen;
    }
  }

  lemma CollectKeepsLiveKeys(t: Table)
    ensures SameLiveKeys(t, Collect(t))
  {
    assert Collect(Collect(t)).seen == Collect(t).seen;
  }

  /** The table when a collection runs after call i whenever gc[i] is set. */
  function CollectedAfter(calls: seq<Call>, gc: seq<bool>): Table
    requires |gc| == |calls|
  {
    if calls == [] then EMPTY_TABLE
    else
      var n := |calls| - 1;
      var t := Judge(CollectedAfter(calls[..n], gc[..n]), calls[n].event, calls[n].current).table;
      if gc[n] then Collect(t) else t
  }

  lemma {:induction false} CollectedSimulatesFull(calls: seq<Call>, gc: seq<bool>)
    requires |gc| == |calls|
    ensures SameLiveKeys(TableAfter(calls), CollectedAfter(calls, gc))
  {
    if calls != [] {
      var n := |calls| - 1;
      CollectedSimulatesFull(calls[..n], gc[..n]);
      var t, u := TableAfter(calls[..n]), CollectedAfter(calls[..n], gc[..n]);
      DecideKeepsLiveKeys(t, u, calls[n].event, calls[n].current);
      CollectKeepsLiveKeys(Judge(u, calls[n].event, calls[n].current).table);
    }
  }

  /** Collecting at any moments changes no decision of any call sequence. */
  lemma CollectionChangesNoDecision(calls: seq<Call>, gc: seq<bool>, e: Event, current: int)
    requires |gc| == |calls|
    ensures Judge(CollectedAfter(calls, gc), e, current).decision == Judge(TableAfter(calls), e, current).decision
  {
    CollectedSimulatesFull(calls, gc);
    DecideKeepsLiveKeys(TableAfter(calls), CollectedAfter(calls, gc), e, current);
  }

  /** And nothing more can be forgotten: losing a live key changes some decision. */
  lemma CollectionIsTight(t: Table, u: Table)
    requires t.latest == u.latest
    ensures SameLiveKeys(t, u) <==>
      forall e: Event, current: int :: Judge(t, e, current).decision == Judge(u, e, current).decision
  {
    if SameLiveKeys(t, u) {
      forall e: Event, current: int ensures Judge(t, e, current).decision == Judge(u, e, current).decision {
        DecideKeepsLiveKeys(t, u, e, current);
      }
    } else {
      var k :| (k in Collect(t).seen) != (k in Collect(u).seen);
      var p: Payload :| true;
      var e := Event(k.runtimeId, k.attempt, k.signal, k.identityKey, p);
      assert KeyOf(e) == k;
      assert Judge(t, e, k.attempt).decision != Judge(u, e, k.attempt).decision;
    }
  }
}
