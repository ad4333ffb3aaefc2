/** A Redis consumer group, as far as one consumer can tell: hand-outs, pending entries, acknowledgements. */
module GroupServer {
  import opened Basics
  import opened Wrappers
  import opened StreamKeys
  import opened StreamEntries

  /**
   * One stream: its log, where the group was created, the entries handed out since and, for each of these,
   * whether the reply reached the worker. `pending` is the server's list of unacknowledged ids.
   */
  datatype Stream = Stream(log: seq<Entry>, group: Option<nat>, reached: seq<bool>, pending: set<StreamId>)

  type Server = map<string, Stream>

  const NO_STREAM := Stream([], None, [], {})

  function At(server: Server, name: string): Stream {
    if name in server then server[name] else NO_STREAM
  }

  function Added(server: Server, a: Arrival): Server {
    var s := At(server, a.stream);
    if s.log == [] || Before(s.log[|s.log| - 1].id, a.entry.id) then server[a.stream := s.(log := s.log + [a.entry])]
    else server
  }

  function AddedAll(server: Server, arrivals: seq<Arrival>): Server {
    if arrivals == [] then server
    else Added(AddedAll(server, arrivals[..|arrivals| - 1]), arrivals[|arrivals| - 1])
  }

  /** XGROUP CREATE ... $ MKSTREAM; an existing group (BUSYGROUP) is left alone. */
  function GroupEnsured(server: Server, name: string): Server {
    var s := At(server, name);
    if s.group.Some? then server else server[name := s.(group := Some(|s.log|))]
  }

  function GroupsEnsured(server: Server, names: seq<string>): Server {
    if names == [] then server
    else GroupEnsured(GroupsEnsured(server, names[..|names| - 1]), names[|names| - 1])
  }

  /** The first entry the group has not handed out yet. */
  function Next(s: Stream): nat {
    s.group.GetOr(0) + |s.reached|
  }

  function Handout(s: Stream, n: nat): seq<Entry> {
    if s.group.None? || Next(s) > |s.log| then []
    else if Next(s) + n < |s.log| then s.log[Next(s)..Next(s) + n]
    else s.log[Next(s)..]
  }

  function Ids(entries: seq<Entry>): set<StreamId> {
    set e | e in entries :: e.id
  }

  /** Handing out marks the entries as delivered and pending, whether or not the reply arrives. */
  function HandedOut(s: Stream, entries: seq<Entry>, reached: bool): Stream {
    s.(reached := s.reached + seq(|entries|, i => reached), pending := s.pending + Ids(entries))
  }

  datatype Served = Served(server: Server, batches: seq<Batch>)

  function ServedPick(r: Served, names: set<string>, count: nat, pick: Pick, reached: bool): Served {
    var s := At(r.server, pick.stream);
    var entries := Handout(s, if pick.limit < count then pick.limit else count);
    if pick.stream !in names || Covers(r.batches, pick.stream) || entries == [] then r
    else Served(r.server[pick.stream := HandedOut(s, entries, reached)], r.batches + [Batch(pick.stream, entries)])
  }

  /** XREADGROUP ... ">" on all streams. */
  function ServedPicks(server: Server, names: set<string>, count: nat, picks: seq<Pick>, reached: bool): Served {
    if picks == [] then Served(server, [])
    else ServedPick(ServedPicks(server, names, count, picks[..|picks| - 1], reached), names, count, picks[|picks| - 1],
        reached)
  }

  function Acknowledged(server: Server, name: string, id: StreamId): Server {
    var s := At(server, name);
    server[name := s.(pending := s.pending - {id})]
  }

  /** How a reconnect goes; one that fails has created the groups of the first few streams only. */
  datatype Reconnect = StopDuringBackoff | Reconnected | ReconnectFails(created: nat)

  datatype Outcome =
    | StopSeen
    | Refused(reconnect: Reconnect)                       // failed before the server handed anything out
    | ReplyLost(lost: seq<Pick>, reconnect: Reconnect)    // failed after the server handed entries out
    | Answered(picks: seq<Pick>)

  /** The streams whose groups a reconnect gets to. */
  function Reached(names: seq<string>, reconnect: Reconnect): seq<string> {
    match reconnect
    case StopDuringBackoff => []
    case Reconnected => names
    case ReconnectFails(created) => names[..Min(created, |names|)]
  }

  class GroupRedis {
    var streams: Server

    constructor (streams: Server)
      ensures this.streams == streams
    {
      this.streams := streams;
    }

    method AddAll(arrivals: seq<Arrival>)
      modifies this
      ensures streams == AddedAll(old(streams), arrivals)
    {
      for i := 0 to |arrivals|
        invariant streams == AddedAll(old(streams), arrivals[..i])
      {
        streams := Added(streams, arrivals[i]);
        assert arrivals[..i + 1][..i] == arrivals[..i];
      }
      assert arrivals[..|arrivals|] == arrivals;
    }

    method EnsureGroups(names: seq<string>)
      modifies this
      ensures streams == GroupsEnsured(old(streams), names)
    {
      for i := 0 to |names|
        invariant streams == GroupsEnsured(old(streams), names[..i])
      {
        streams := GroupEnsured(streams, names[i]);
        assert names[..i + 1][..i] == names[..i];
      }
      assert names[..|names|] == names;
    }

    /** `_ensure_consumer_groups` on a new connection, which may break in between. */
    method ReconnectAndEnsureGroups(names: seq<string>, reconnect: Reconnect) returns (raised: bool)
      requires !reconnect.StopDuringBackoff?
      modifies this
      ensures streams == GroupsEnsured(old(streams), Reached(names, reconnect))
      ensures raised == reconnect.ReconnectFails?
    {
      if reconnect.ReconnectFails? {
        EnsureGroups(names[..Min(reconnect.created, |names|)]);
        return true;
      }
      EnsureGroups(names);
      return false;
    }

    /** None stands for a connection error. */
    method Xreadgroup(names: seq<string>, count: nat, outcome: Outcome) returns (resp: Option<seq<Batch>>)
      modifies this
      ensures match outcome
        case Answered(picks) =>
          var r := ServedPicks(old(streams), Members(names), count, picks, true);
          streams == r.server && resp == Some(r.batches)
        case ReplyLost(picks, _) =>
          streams == ServedPicks(old(streams), Members(names), count, picks, false).server && resp == None
        case _ => streams == old(streams) && resp == None
    {
      match outcome
      case Answered(picks) =>
        var r := ServedPicks(streams, Members(names), count, picks, true);
        streams := r.server;
        resp := Some(r.batches);
      case ReplyLost(picks, _) =>
        streams := ServedPicks(streams, Members(names), count, picks, false).server;
        resp := None;
      case _ =>
        resp := None;
    }

    method Xack(stream: string, id: StreamId)
      modifies this
      ensures streams == Acknowledged(old(streams), stream, id)
    {
      streams := Acknowledged(streams, stream, id);
    }
  }
}
