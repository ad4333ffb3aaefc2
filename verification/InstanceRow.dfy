/** The worker's instance row and its event table (runtime/persistence/repositories.py). */
module InstanceRow {
  import opened Wrappers

  /**
   * An instance row: `owner` stands for the columns that only an upsert writes (worker, tenant, trader, account,
   * strategy version), `status` for those that a state update writes too (attempt, state, reason code, time, causes).
   */
  datatype Instance<O, S> = Instance(owner: O, status: S, observedAt: int, lastHeartbeat: Option<int>)

  datatype Op<O, S> =
    | Upsert(id: string, instance: Instance<O, S>)
    | UpdateState(id: string, status: S, observedAt: int)
    | RecordHeartbeat(id: string, heartbeatAt: int, observedAt: int)
    | EnsureStub(id: string, stub: Instance<O, S>)

  type Table<O, S> = map<string, Instance<O, S>>

  function Applied<O, S>(t: Table<O, S>, op: Op<O, S>): Table<O, S> {
    match op
    case Upsert(id, i) => if id in t then t[id := i.(lastHeartbeat := t[id].lastHeartbeat)] else t[id := i]
    case UpdateState(id, status, observedAt) =>
      if id in t then t[id := t[id].(status := status, observedAt := observedAt)] else t
    case RecordHeartbeat(id, at, observedAt) =>
      if id in t && (t[id].lastHeartbeat.None? || at >= t[id].lastHeartbeat.value)
      then t[id := t[id].(lastHeartbeat := Some(at), observedAt := observedAt)]
      else t
    case EnsureStub(id, stub) => if id in t then t else t[id := stub.(lastHeartbeat := None)]
  }

  class SQLiteWorkerInstanceRepository<O, S> {
    var rows: map<string, Instance<O, S>>

    constructor ()
      ensures rows == map[]
    {
      rows := map[];
    }

    /** An update writes every column but the last heartbeat; only an insert writes that too. */
    method UpsertInstance(id: string, instance: Instance<O, S>)
      modifies this
      ensures rows == Applied(old(rows), Upsert(id, instance))
    {
      if id in rows {
        rows := rows[id := Instance(instance.owner, instance.status, instance.observedAt, rows[id].lastHeartbeat)];
      } else {
        rows := rows[id := instance];
      }
    }

    method DoUpdateState(id: string, status: S, observedAt: int)
      modifies this
      ensures rows == Applied(old(rows), UpdateState(id, status, observedAt))
    {
      if id in rows {
        rows := rows[id := rows[id].(status := status, observedAt := observedAt)];
      }
    }

    method DoRecordHeartbeat(id: string, heartbeatAt: int, observedAt: int)
      modifies this
      ensures rows == Applied(old(rows), RecordHeartbeat(id, heartbeatAt, observedAt))
    {
      if id !in rows {
        return;
      }
      var current := rows[id].lastHeartbeat;
      var accepted := current.None? || heartbeatAt >= current.value;
      if !accepted {
        return;
      }
      rows := rows[id := rows[id].(lastHeartbeat := Some(heartbeatAt), observedAt := observedAt)];
    }

    method EnsureWorkerInstanceStub(id: string, stub: Instance<O, S>)
      modifies this
      ensures rows == Applied(old(rows), EnsureStub(id, stub))
    {
      if id !in rows {
        rows := rows[id := stub.(lastHeartbeat := None)];
      }
    }
  }

  function After<O, S>(ops: seq<Op<O, S>>): Table<O, S> {
    if ops == [] then map[] else Applied(After(ops[..|ops| - 1]), ops[|ops| - 1])
  }

  predicate Exists<O, S>(ops: seq<Op<O, S>>, id: string) {
    exists i :: 0 <= i < |ops| && ops[i].id == id && (ops[i].Upsert? || ops[i].EnsureStub?)
  }

  /** The heartbeats of a runtime since its row exists, with the one the row was inserted with. */
  function Heartbeats<O, S>(ops: seq<Op<O, S>>, id: string): set<int> {
    if ops == [] then {}
    else
      var before, last := ops[..|ops| - 1], ops[|ops| - 1];
      if last.id != id then Heartbeats(before, id)
      else
        match last
        case Upsert(_, i) =>
          if !Exists(before, id) && i.lastHeartbeat.Some? then Heartbeats(before, id) + {i.lastHeartbeat.value}
              else Heartbeats(before, id)
        case RecordHeartbeat(_, at, _) => if Exists(before, id) then Heartbeats(before, id) + {at}
            else Heartbeats(before, id)
        case _ => Heartbeats(before, id)
  }

  predicate IsMaximum(m: Option<int>, xs: set<int>) {
    match m
    case None => xs == {}
    case Some(x) => x in xs && forall y :: y in xs ==> y <= x
  }

  lemma MaximumOfMore(m: Option<int>, xs: set<int>, x: int)
    requires IsMaximum(m, xs)
    ensures IsMaximum(if m.None? || x >= m.value then Some(x) else m, xs + {x})
  {
  }

  lemma {:induction false} NoRowNoHeartbeats<O, S>(ops: seq<Op<O, S>>, id: string)
    requires !Exists(ops, id)
    ensures Heartbeats(ops, id) == {}
  {
    if ops != [] {
      var before := ops[..|ops| - 1];
      assert forall i :: 0 <= i < |before| ==> before[i] == ops[i];
      NoRowNoHeartbeats(before, id);
      var last := ops[|ops| - 1];
      assert !(last.id == id && (last.Upsert? || last.EnsureStub?));
    }
  }

  /** Over any mix of operations, the last heartbeat of a row is the maximum of those recorded since the row exists. */
  lemma {:induction false} LastHeartbeatIsMaximum<O, S>(ops: seq<Op<O, S>>, id: string)
    ensures id in After(ops) <==> Exists(ops, id)
    ensures id in After(ops) ==> IsMaximum(After(ops)[id].lastHeartbeat, Heartbeats(ops, id))
  {
    if ops != [] {
      var before, last := ops[..|ops| - 1], ops[|ops| - 1];
      LastHeartbeatIsMaximum(before, id);
      ExistsOnce(ops, id);
      if !Exists(before, id) {
        NoRowNoHeartbeats(before, id);
      } else if last.RecordHeartbeat? && last.id == id {
        MaximumOfMore(After(before)[id].lastHeartbeat, Heartbeats(before, id), last.heartbeatAt);
      }
    }
  }

  lemma ExistsOnce<O, S>(ops: seq<Op<O, S>>, id: string)
    requires ops != []
    ensures var last := ops[|ops| - 1];
      Exists(ops, id) <==> Exists(ops[..|ops| - 1], id) || (last.id == id && (last.Upsert? || last.EnsureStub?))
  {
    var before := ops[..|ops| - 1];
    assert forall i :: 0 <= i < |before| ==> before[i] == ops[i];
    if Exists(ops, id) {
      var i :| 0 <= i < |ops| && ops[i].id == id && (ops[i].Upsert? || ops[i].EnsureStub?);
      assert i < |before| ==> before[i] == ops[i];
    }
  }

  /** The owner of a row is that of the last upsert, or of the stub it was created with. */
  function LastOwner<O, S>(ops: seq<Op<O, S>>, id: string): Option<O> {
    if ops == [] then None
    else
      var before, last := ops[..|ops| - 1], ops[|ops| - 1];
      if last.id == id && last.Upsert? then Some(last.instance.owner)
      else if last.id == id && last.EnsureStub? && !Exists(before, id) then Some(last.stub.owner)
      else LastOwner(before, id)
  }

  /** Its status is that of the last upsert or state update since it exists, or of that stub. */
  function LastStatus<O, S>(ops: seq<Op<O, S>>, id: string): Option<S> {
    if ops == [] then None
    else
      var before, last := ops[..|ops| - 1], ops[|ops| - 1];
      if last.id == id && last.Upsert? then Some(last.instance.status)
      else if last.id == id && last.UpdateState? && Exists(before, id) then Some(last.status)
      else if last.id == id && last.EnsureStub? && !Exists(before, id) then Some(last.stub.status)
      else LastStatus(before, id)
  }

  /** Its time of observation is that of the last of these or of a heartbeat not older than any before it. */
  function LastObserved<O, S>(ops: seq<Op<O, S>>, id: string): Option<int> {
    if ops == [] then None
    else
      var before, last := ops[..|ops| - 1], ops[|ops| - 1];
      if last.id != id then LastObserved(before, id)
      else
        match last
        case Upsert(_, i) => Some(i.observedAt)
        case UpdateState(_, _, at) => if Exists(before, id) then Some(at) else LastObserved(before, id)
        case RecordHeartbeat(_, beat, at) =>
          if Exists(before, id) && (forall y :: y in Heartbeats(before, id) ==> y <= beat) then Some(at)
          else LastObserved(before, id)
        case EnsureStub(_, stub) => if Exists(before, id) then LastObserved(before, id) else Some(stub.observedAt)
  }

  /** Over any mix of operations every column of a row holds what was last written to it. */
  lemma {:induction false} ColumnsAreLastWritten<O, S>(ops: seq<Op<O, S>>, id: string)
    ensures id in After(ops) <==> Exists(ops, id)
    ensures id in After(ops) ==>
      && LastOwner(ops, id) == Some(After(ops)[id].owner)
      && LastStatus(ops, id) == Some(After(ops)[id].status)
      && LastObserved(ops, id) == Some(After(ops)[id].observedAt)
  {
    if ops != [] {
      var before := ops[..|ops| - 1];
      ColumnsAreLastWritten(before, id);
      LastHeartbeatIsMaximum(before, id);
      ExistsOnce(ops, id);
      LastHeartbeatIsMaximum(ops, id);
    }
  }

  // ----- The event table -----

  datatype Event<T> = Event(id: string, runtimeId: string, body: T)

  datatype Appended = Inserted | AlreadyThere | Rejected

  /** The first event under an id stays; an event of an unknown runtime is rejected unless its id is taken. */
  function AppendResult<T>(events: map<string, Event<T>>, runtimes: set<string>, e: Event<T>): Appended {
    if e.id in events then AlreadyThere else if e.runtimeId in runtimes then Inserted else Rejected
  }

  class SQLiteWorkerEventRepository<T> {
    var events: map<string, Event<T>>

    constructor ()
      ensures events == map[]
    {
      events := map[];
    }

    /** `runtimes` are the ids with an instance row. */
    method AppendEvent(e: Event<T>, runtimes: set<string>) returns (r: Appended)
      modifies this
      ensures r == AppendResult(old(events), runtimes, e)
      ensures events == if r.Inserted? then old(events)[e.id := e] else old(events)
    {
      var integrityError := e.id in events || e.runtimeId !in runtimes;
      if !integrityError {
        events := events[e.id := e];
        return Inserted;
      }
      if e.id in events {
        return AlreadyThere;
      }
      return Rejected;
    }
  }

  datatype Append<T> = Append(event: Event<T>, runtimes: set<string>)

  function Events<T>(appends: seq<Append<T>>): map<string, Event<T>> {
    if appends == [] then map[]
    else
      var before, last := Events(appends[..|appends| - 1]), appends[|appends| - 1];
      if AppendResult(before, last.runtimes, last.event).Inserted? then before[last.event.id := last.event] else before
  }

  function ResultAt<T>(appends: seq<Append<T>>, i: nat): Appended
    requires i < |appends|
  {
    AppendResult(Events(appends[..i]), appends[i].runtimes, appends[i].event)
  }

  /** An id is in the table exactly when an append of it was accepted, and then with the event of that append. */
  lemma {:induction false} TableHoldsAccepted<T>(appends: seq<Append<T>>, i: nat)
    requires i < |appends| && ResultAt(appends, i).Inserted?
    ensures appends[i].event.id in Events(appends) && Events(appends)[appends[i].event.id] == appends[i].event
  {
    var n := |appends| - 1;
    if i < n {
      assert appends[..n][..i] == appends[..i];
      TableHoldsAccepted(appends[..n], i);
    }
  }

  /** Some append before i was accepted under the id. */
  ghost predicate TakenBefore<T>(appends: seq<Append<T>>, i: nat, id: string)
    requires i <= |appends|
  {
    exists j :: 0 <= j < i && appends[j].event.id == id && ResultAt(appends, j).Inserted?
  }

  lemma {:induction false} TakenExactly<T>(appends: seq<Append<T>>, i: nat, id: string)
    requires i <= |appends|
    ensures id in Events(appends[..i]) <==> TakenBefore(appends, i, id)
  {
    if i > 0 {
      TakenExactly(appends, i - 1, id);
      assert appends[..i][..i - 1] == appends[..i - 1];
      assert appends[..i][i - 1] == appends[i - 1];
      if appends[i - 1].event.id == id && ResultAt(appends, i - 1).Inserted? {
        assert TakenBefore(appends, i, id);
      }
    }
  }

  /** An append finds its id taken by an accepted one, or is accepted if its runtime is known, or else is rejected. */
  lemma ResultsAreExact<T>(appends: seq<Append<T>>, i: nat)
    requires i < |appends|
    ensures ResultAt(appends, i) ==
      if TakenBefore(appends, i, appends[i].event.id) then AlreadyThere
      else if appends[i].event.runtimeId in appends[i].runtimes then Inserted
      else Rejected
  {
    TakenExactly(appends, i, appends[i].event.id);
  }

  /** No id is accepted twice. */
  lemma EventsAreAcceptedOnce<T>(appends: seq<Append<T>>, i: nat, j: nat)
    requires i < j < |appends| && ResultAt(appends, i).Inserted? && ResultAt(appends, j).Inserted?
    ensures appends[i].event.id != appends[j].event.id
  {
    assert appends[..j][..i] == appends[..i];
    TableHoldsAccepted(appends[..j], i);
  }
}
