/** Processing one field of an entry, with or without an acknowledging callback (`_process_one_stream_field`). */
module FieldProcessing {
  import opened StreamEntries
  import opened GroupServer

  function Names(fields: seq<(string, string)>): seq<string> {
    seq(|fields|, i requires 0 <= i < |fields| => fields[i].0)
  }

  /** `list.remove`: without the first occurrence. */
  function Removed(s: seq<string>, x: string): seq<string> {
    if s == [] then [] else if s[0] == x then s[1..] else [s[0]] + Removed(s[1..], x)
  }

  lemma {:induction false} RemovedAbsent(s: seq<string>, x: string)
    ensures x !in s ==> Removed(s, x) == s
  {
    if s != [] {
      RemovedAbsent(s[1..], x);
      assert s == [s[0]] + s[1..];
    }
  }

  /** What an acknowledging callback reads and writes. */
  datatype AckState = AckState(server: Server, steps: seq<Step>, pending: seq<string>)

  /** One field is settled; settling the last one acknowledges the entry. */
  function Settled(a: AckState, stream: string, id: StreamId, field: string): AckState {
    var rest := Removed(a.pending, field);
    if field in a.pending && rest == [] then
      AckState(Acknowledged(a.server, stream, id), a.steps + [Acked(stream, id)], rest)
    else a.(pending := rest)
  }

  /** A field is processed: its step is seen and then it is settled. */
  function FieldSettled(f: Feed, a: AckState, stream: string, id: StreamId, field: (string, string)): AckState {
    Settled(a.(steps := a.steps + [FieldStep(f, stream, id, field)]), stream, id, field.0)
  }

  function FieldsSettled(f: Feed, a: AckState, stream: string, id: StreamId, fields: seq<(string, string)>): AckState {
    if fields == [] then a
    else FieldSettled(f, FieldsSettled(f, a, stream, id, fields[..|fields| - 1]), stream, id, fields[|fields| - 1])
  }

  /** Field k of an entry is settled after the ones before it. */
  lemma NextSettles(f: Feed, a: AckState, stream: string, id: StreamId, fields: seq<(string, string)>, k: nat)
    requires k < |fields| && a.pending == Names(fields)[k..]
    ensures var done := a.steps + [FieldStep(f, stream, id, fields[k])];
      FieldSettled(f, a, stream, id, fields[k]) ==
        if k + 1 < |fields| then AckState(a.server, done, Names(fields)[k + 1..])
        else AckState(Acknowledged(a.server, stream, id), done + [Acked(stream, id)], [])
  {
    assert a.pending[0] == fields[k].0;
    assert Removed(a.pending, fields[k].0) == Names(fields)[k + 1..];
  }

  /** The last of an entry's fields acknowledges it, and none before. */
  lemma {:induction false} LastFieldAcknowledges(f: Feed, server: Server, steps: seq<Step>, stream: string,
      id: StreamId, fields: seq<(string, string)>, k: nat)
    requires k <= |fields| && fields != []
    ensures var done := steps + FieldSteps(f, stream, id, fields[..k]);
      FieldsSettled(f, AckState(server, steps, Names(fields)), stream, id, fields[..k]) ==
        if k < |fields| then AckState(server, done, Names(fields)[k..])
        else AckState(Acknowledged(server, stream, id), done + [Acked(stream, id)], [])
  {
    var initial := AckState(server, steps, Names(fields));
    if k == 0 {
      assert fields[..0] == [] && Names(fields)[0..] == Names(fields);
    } else {
      var front := fields[..k - 1];
      assert fields[..k][..k - 1] == front;
      LastFieldAcknowledges(f, server, steps, stream, id, fields, k - 1);
      NextSettles(f, FieldsSettled(f, initial, stream, id, front), stream, id, fields, k - 1);
      assert FieldSteps(f, stream, id, fields[..k])
        == FieldSteps(f, stream, id, front) + [FieldStep(f, stream, id, fields[k - 1])];
    }
  }

  /** Everything the worker does, in order. */
  class Trail {
    var steps: seq<Step>
    /** Which calls of the tick handler raise. */
    const raises: nat -> bool

    constructor (raises: nat -> bool)
      ensures steps == []
    {
      this.raises := raises;
      steps := [];
    }

    method OnTick(stream: string, id: StreamId, field: string, tick: Tick) returns (raised: bool)
      modifies this
      ensures steps == old(steps) + [Sent(stream, id, field, tick)]
    {
      raised := raises(|steps|);
      steps := steps + [Sent(stream, id, field, tick)];
    }

    method Note(step: Step)
      modifies this
      ensures steps == old(steps) + [step]
    {
      steps := steps + [step];
    }
  }

  /** The `pending` list of one entry together with its acknowledging callback. */
  class AckTracker {
    const server: GroupRedis
    const trail: Trail
    const stream: string
    const id: StreamId
    var pending: seq<string>

    constructor (server: GroupRedis, trail: Trail, stream: string, id: StreamId, pending: seq<string>)
      ensures this.server == server && this.trail == trail && this.stream == stream && this.id == id
      ensures this.pending == pending
    {
      this.server, this.trail, this.stream, this.id := server, trail, stream, id;
      this.pending := pending;
    }

    ghost function State(): AckState
      reads this, server, trail
    {
      AckState(server.streams, trail.steps, pending)
    }

    method AckOne(field: string)
      modifies this, server, trail
      ensures State() == Settled(old(State()), stream, id, field)
    {
      RemovedAbsent(pending, field);
      if field !in pending {
        return;
      }
      pending := Removed(pending, field);
      if pending == [] {
        server.Xack(stream, id);
        trail.Note(Acked(stream, id));
      }
    }
  }

  /** The step of a field is seen and then the callback runs. */
  method Conclude(step: Step, trail: Trail, tracker: AckTracker?, field: string)
    requires tracker != null ==> tracker.trail == trail
    modifies trail, if tracker == null then {} else {tracker, tracker.server}
    ensures tracker == null ==> trail.steps == old(trail.steps) + [step]
    ensures tracker != null ==>
      var before := old(tracker.State());
      tracker.State() == Settled(before.(steps := before.steps + [step]), tracker.stream, tracker.id, field)
  {
    if step.Sent? {
      var raised := trail.OnTick(step.stream, step.id, step.field, step.tick);
    } else {
      trail.Note(step);
    }
    if tracker != null {
      tracker.AckOne(field);
    }
  }

  /**
   * Parse failure, foreign symbol, dispatched and dispatched-but-raised: each path runs the callback once, if there
   * is one, and a raising tick handler changes nothing.
   */
  method ProcessOneStreamField(f: Feed, stream: string, id: StreamId, field: (string, string), trail: Trail,
      tracker: AckTracker?)
    requires tracker != null ==> tracker.trail == trail && tracker.stream == stream && tracker.id == id
    modifies trail, if tracker == null then {} else {tracker, tracker.server}
    ensures tracker == null ==> trail.steps == old(trail.steps) + [FieldStep(f, stream, id, field)]
    ensures tracker != null ==> tracker.State() == FieldSettled(f, old(tracker.State()), stream, id, field)
  {
    var tick := StreamPayloadToTick(f, stream, field.0, field.1, id);
    if tick.None? {
      Conclude(Dropped(stream, id, field.0), trail, tracker, field.0);
      return;
    }
    if !MatchesStrategy(f, field.0) {
      Conclude(Dropped(stream, id, field.0), trail, tracker, field.0);
      return;
    }
    Conclude(Sent(stream, id, field.0, tick.value), trail, tracker, field.0);
  }
}
