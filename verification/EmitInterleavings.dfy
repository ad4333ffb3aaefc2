/**
 * Emitting from several threads at once: the heartbeat thread and the others share one gateway and one dedupe table
 * without a lock (manager_gateway.py, dedupe.py). Every step is one access to the shared state.
 */
module EmitInterleavings {
  import opened Events
  import opened Dedupe
  import opened Gateway

  /** An emit whose event was prepared; `current` is the gateway's launch attempt. */
  datatype Planned = Planned(event: Event, current: int, sendOk: bool)

  /** Where a thread is within its current emit: before it, or between two accesses of `_emit` and `decide`. */
  datatype Pc =
    | Idle
    | ReadLatest
    | CheckSeen(latest: int)
    | WriteLatest(latest: int)
    | AddSeen
    | Send

  /** A thread makes the emits of its program one after the other. */
  datatype Thread = Thread(program: seq<Planned>, next: nat, pc: Pc)

  datatype Entry = Entry(thread: nat, event: Event)

  /** `sends` are the calls of the manager client, also those that raise; `wire` is what the client received. */
  datatype Shared = Shared(table: Table, journal: seq<Entry>, sends: seq<Entry>, wire: seq<Entry>)

  datatype Machine = Machine(shared: Shared, threads: seq<Thread>)

  function Ended(th: Thread): Thread {
    th.(next := th.next + 1, pc := Idle)
  }

  function LatestOf(t: Table, e: Event, current: int): int {
    if e.runtimeId in t.latest then t.latest[e.runtimeId] else current
  }

  /** One access of thread t to the shared state. */
  function StepOf(sh: Shared, t: nat, th: Thread): (Shared, Thread) {
    if th.next >= |th.program| then (sh, th)
    else
      var p := th.program[th.next];
      var e := p.event;
      match th.pc
      case Idle => (sh.(journal := sh.journal + [Entry(t, e)]), th.(pc := ReadLatest))
      case ReadLatest =>
        var latest := LatestOf(sh.table, e, p.current);
        (sh, if e.attempt < Max(p.current, latest) then Ended(th) else th.(pc := CheckSeen(latest)))
      case CheckSeen(latest) => (sh, if KeyOf(e) in sh.table.seen then Ended(th) else th.(pc := WriteLatest(latest)))
      case WriteLatest(latest) =>
        (sh.(table := sh.table.(latest := sh.table.latest[e.runtimeId := Max(e.attempt, latest)])), th.(pc := AddSeen))
      case AddSeen => (sh.(table := sh.table.(seen := sh.table.seen + {KeyOf(e)})), th.(pc := Send))
      case Send =>
        (sh.(sends := sh.sends + [Entry(t, e)], wire := if p.sendOk then sh.wire + [Entry(t, e)] else sh.wire),
            Ended(th))
  }

  function Stepped(m: Machine, t: nat): Machine {
    if t >= |m.threads| then m
    else
      var (sh, th) := StepOf(m.shared, t, m.threads[t]);
      Machine(sh, m.threads[t := th])
  }

  /** A run lets the threads of `moves` take one step each. */
  function Ran(m: Machine, moves: seq<nat>): Machine {
    if moves == [] then m else Stepped(Ran(m, moves[..|moves| - 1]), moves[|moves| - 1])
  }

  const NOTHING := Shared(EMPTY_TABLE, [], [], [])

  function Begin(programs: seq<seq<Planned>>): Machine {
    Machine(NOTHING, seq(|programs|, i requires 0 <= i < |programs| => Thread(programs[i], 0, Idle)))
  }

  // ----- Each thread by itself -----

  function OfThread(entries: seq<Entry>, t: nat): seq<Event> {
    if entries == [] then []
    else
      var before, last := OfThread(entries[..|entries| - 1], t), entries[|entries| - 1];
      if last.thread == t then before + [last.event] else before
  }

  lemma OneMoreEntry(entries: seq<Entry>, e: Entry, t: nat)
    ensures OfThread(entries + [e], t) == if e.thread == t then OfThread(entries, t) + [e.event]
        else OfThread(entries, t)
  {
    assert (entries + [e])[..|entries|] == entries;
  }

  /** The events of the first n emits of a program. */
  function Begun(program: seq<Planned>, n: nat): seq<Event>
    requires n <= |program|
  {
    seq(n, i requires 0 <= i < n => program[i].event)
  }

  /** Thread t has journalled the beginning of its program, and the client received a part of that in its order. */
  ghost predicate OwnOrder(sh: Shared, t: nat, th: Thread) {
    && (th.pc.Idle? ==> th.next <= |th.program|)
    && (!th.pc.Idle? ==> th.next < |th.program|)
    && OfThread(sh.journal, t) == Begun(th.program, if th.pc.Idle? then th.next else th.next + 1)
    && Subsequence(OfThread(sh.wire, t), Begun(th.program, th.next))
  }

  lemma SubsequenceOfMore(a: seq<Event>, b: seq<Event>, e: Event)
    requires Subsequence(a, b)
    ensures Subsequence(a, b + [e]) && Subsequence(a + [e], b + [e])
  {
    assert (b + [e])[..|b|] == b && (a + [e])[..|a|] == a;
  }

  lemma JournalKeepsOwnOrder(sh: Shared, t: nat, th: Thread)
    requires OwnOrder(sh, t, th) && th.next < |th.program| && th.pc.Idle?
    ensures OwnOrder(sh.(journal := sh.journal + [Entry(t, th.program[th.next].event)]), t, th.(pc := ReadLatest))
  {
    var e := th.program[th.next].event;
    OneMoreEntry(sh.journal, Entry(t, e), t);
    assert Begun(th.program, th.next + 1) == Begun(th.program, th.next) + [e];
  }

  lemma EndKeepsOwnOrder(sh: Shared, t: nat, th: Thread)
    requires OwnOrder(sh, t, th) && !th.pc.Idle?
    ensures OwnOrder(sh, t, Ended(th))
  {
    var e := th.program[th.next].event;
    assert Begun(th.program, th.next + 1) == Begun(th.program, th.next) + [e];
    SubsequenceOfMore(OfThread(sh.wire, t), Begun(th.program, th.next), e);
  }

  lemma ReceiptKeepsOwnOrder(sh: Shared, t: nat, th: Thread)
    requires OwnOrder(sh, t, th) && !th.pc.Idle?
    ensures OwnOrder(sh.(wire := sh.wire + [Entry(t, th.program[th.next].event)]), t, Ended(th))
  {
    var e, received, begun := th.program[th.next].event, OfThread(sh.wire, t), Begun(th.program, th.next);
    OneMoreEntry(sh.wire, Entry(t, e), t);
    SubsequenceOfMore(received, begun, e);
    assert Begun(th.program, th.next + 1) == begun + [e];
    assert OfThread(sh.wire + [Entry(t, e)], t) == received + [e];
  }

  lemma StepKeepsOwnOrder(sh: Shared, t: nat, th: Thread)
    requires OwnOrder(sh, t, th)
    ensures var (sh', th') := StepOf(sh, t, th); OwnOrder(sh', t, th')
  {
    if th.next < |th.program| {
      match th.pc
      case Idle => JournalKeepsOwnOrder(sh, t, th);
      case ReadLatest => EndKeepsOwnOrder(sh, t, th);
      case CheckSeen(_) => EndKeepsOwnOrder(sh, t, th);
      case WriteLatest(_) =>
      case AddSeen =>
      case Send =>
        EndKeepsOwnOrder(sh, t, th);
        ReceiptKeepsOwnOrder(sh, t, th);
    }
  }

  lemma StepLeavesOthersAlone(sh: Shared, t: nat, th: Thread, u: nat)
    requires u != t
    ensures var sh' := StepOf(sh, t, th).0;
      OfThread(sh'.journal, u) == OfThread(sh.journal, u) && OfThread(sh'.wire, u) == OfThread(sh.wire, u)
  {
    if th.next < |th.program| {
      OneMoreEntry(sh.journal, Entry(t, th.program[th.next].event), u);
      OneMoreEntry(sh.wire, Entry(t, th.program[th.next].event), u);
    }
  }

  /** Programs do not change. */
  predicate Runs(m: Machine, programs: seq<seq<Planned>>) {
    |m.threads| == |programs| && forall t :: 0 <= t < |programs| ==> m.threads[t].program == programs[t]
  }

  /**
   * In every interleaving each thread has journalled the emits it has begun, in order, and what the client received of
   * it is a part of those in that order.
   */
  lemma {:induction false} EachThreadKeepsItsOrder(programs: seq<seq<Planned>>, moves: seq<nat>, t: nat)
    requires t < |programs|
    ensures var m := Ran(Begin(programs), moves); Runs(m, programs) && OwnOrder(m.shared, t, m.threads[t])
  {
    if moves != [] {
      var before, last := moves[..|moves| - 1], moves[|moves| - 1];
      EachThreadKeepsItsOrder(programs, before, t);
      var m := Ran(Begin(programs), before);
      if last < |programs| {
        if last == t {
          StepKeepsOwnOrder(m.shared, t, m.threads[t]);
        } else {
          StepLeavesOthersAlone(m.shared, last, m.threads[last], t);
        }
      }
    }
  }

  // ----- Keys that only one thread emits -----

  predicate HasKey(program: seq<Planned>, k: Key) {
    exists i :: 0 <= i < |program| && KeyOf(program[i].event) == k
  }

  /** At most one thread emits key k. */
  predicate OneSource(programs: seq<seq<Planned>>, k: Key) {
    forall i, j :: 0 <= i < j < |programs| && HasKey(programs[i], k) ==> !HasKey(programs[j], k)
  }

  predicate SentOnce(sends: seq<Entry>, k: Key) {
    forall i, j :: 0 <= i < j < |sends| && KeyOf(sends[i].event) == k ==> KeyOf(sends[j].event) != k
  }

  predicate NotSent(sends: seq<Entry>, k: Key) {
    forall i :: 0 <= i < |sends| ==> KeyOf(sends[i].event) != k
  }

  /** If k was sent it is in the table, and it was not sent twice. */
  predicate SendsOk(sh: Shared, k: Key) {
    SentOnce(sh.sends, k) && (k in sh.table.seen || NotSent(sh.sends, k))
  }

  /** A thread that has found k to be new has not sent it, and adds it before it sends. */
  predicate KeyOk(sh: Shared, th: Thread, k: Key) {
    th.next < |th.program| && KeyOf(th.program[th.next].event) == k ==>
      && (th.pc.WriteLatest? || th.pc.AddSeen? || th.pc.Send? ==> NotSent(sh.sends, k))
      && (th.pc.Send? ==> k in sh.table.seen)
  }

  lemma StepKeepsKey(sh: Shared, t: nat, th: Thread, k: Key)
    requires SendsOk(sh, k) && KeyOk(sh, th, k)
    ensures var (sh', th') := StepOf(sh, t, th); SendsOk(sh', k) && KeyOk(sh', th', k)
  {
  }

  lemma StepKeepsOtherKey(sh: Shared, t: nat, th: Thread, other: Thread, k: Key)
    requires KeyOk(sh, other, k)
    requires !HasKey(th.program, k) || !HasKey(other.program, k)
    ensures KeyOk(StepOf(sh, t, th).0, other, k)
  {
  }

  ghost predicate KeysOk(m: Machine, programs: seq<seq<Planned>>, k: Key) {
    && Runs(m, programs) && SendsOk(m.shared, k)
    && forall t :: 0 <= t < |programs| ==> KeyOk(m.shared, m.threads[t], k)
  }

  lemma {:induction false} RunKeepsKey(programs: seq<seq<Planned>>, moves: seq<nat>, k: Key)
    requires OneSource(programs, k)
    ensures KeysOk(Ran(Begin(programs), moves), programs, k)
  {
    if moves != [] {
      var before, t := moves[..|moves| - 1], moves[|moves| - 1];
      RunKeepsKey(programs, before, k);
      var m := Ran(Begin(programs), before);
      if t < |programs| {
        var th, sh' := m.threads[t], StepOf(m.shared, t, m.threads[t]).0;
        StepKeepsKey(m.shared, t, th, k);
        forall u | 0 <= u < |programs| && u != t ensures KeyOk(sh', m.threads[u], k) {
          StepKeepsOtherKey(m.shared, t, th, m.threads[u], k);
        }
      }
    }
  }

  // ----- A thread that nobody interferes with -----

  /** Thread t takes n steps in a row. */
  function Solo(sh: Shared, t: nat, th: Thread, n: nat): (Shared, Thread)
    decreases n
  {
    if n == 0 then (sh, th) else var (sh', th') := StepOf(sh, t, th); Solo(sh', t, th', n - 1)
  }

  function AfterSolo(m: Machine, t: nat, n: nat): Machine
    requires t < |m.threads|
  {
    var (sh, th) := Solo(m.shared, t, m.threads[t], n);
    Machine(sh, m.threads[t := th])
  }

  lemma {:induction false} FirstMove(m: Machine, first: nat, moves: seq<nat>)
    ensures Ran(m, [first] + moves) == Ran(Stepped(m, first), moves)
    decreases |moves|
  {
    var all := [first] + moves;
    if moves == [] {
      assert all[..0] == [];
    } else {
      assert all[..|all| - 1] == [first] + moves[..|moves| - 1];
      FirstMove(m, first, moves[..|moves| - 1]);
    }
  }

  lemma {:induction false} RanConcat(m: Machine, a: seq<nat>, b: seq<nat>)
    ensures Ran(m, a + b) == Ran(Ran(m, a), b)
  {
    if b == [] {
      assert a + b == a;
    } else {
      assert (a + b)[..|a + b| - 1] == a + b[..|b| - 1];
      RanConcat(m, a, b[..|b| - 1]);
    }
  }

  lemma {:induction false} SoloIsRun(m: Machine, t: nat, n: nat)
    requires t < |m.threads|
    ensures Ran(m, seq(n, _ => t)) == AfterSolo(m, t, n)
    decreases n
  {
    if n == 0 {
      assert m.threads[t := m.threads[t]] == m.threads;
    } else {
      var m', fewer := Stepped(m, t), seq(n - 1, _ => t);
      SoloIsRun(m', t, n - 1);
      FirstMove(m, t, fewer);
      assert seq(n, _ => t) == [t] + fewer;
      assert m'.threads[t := AfterSolo(m', t, n - 1).threads[t]] == m.threads[t := AfterSolo(m', t, n - 1).threads[t]];
    }
  }

  ghost predicate Reaches(m: Machine, m': Machine) {
    exists moves :: Ran(m, moves) == m'
  }

  lemma ReachesOn(m: Machine, m': Machine, t: nat, n: nat)
    requires Reaches(m, m') && t < |m'.threads|
    ensures Reaches(m, AfterSolo(m', t, n))
  {
    var moves :| Ran(m, moves) == m';
    SoloIsRun(m', t, n);
    RanConcat(m, moves, seq(n, _ => t));
    assert Ran(m, moves + seq(n, _ => t)) == AfterSolo(m', t, n);
  }

  /** The shared state once thread t has journalled its emit p. */
  function Journalled(sh: Shared, t: nat, p: Planned): Shared {
    sh.(journal := sh.journal + [Entry(t, p.event)])
  }

  /** And once its new key is in the table. */
  function Recorded(sh: Shared, t: nat, p: Planned): Shared {
    var e := p.event;
    Journalled(sh, t, p).(table := Table(
      sh.table.latest[e.runtimeId := Max(e.attempt, LatestOf(sh.table, e, p.current))], sh.table.seen + {KeyOf(e)}))
  }

  function Delivered(sh: Shared, t: nat, p: Planned): Shared {
    sh.(sends := sh.sends + [Entry(t, p.event)], wire := if p.sendOk then sh.wire + [Entry(t, p.event)] else sh.wire)
  }

  lemma SoloOnce(sh: Shared, t: nat, th: Thread, n: nat)
    requires n > 0
    ensures Solo(sh, t, th, n) == Solo(StepOf(sh, t, th).0, t, StepOf(sh, t, th).1, n - 1)
  {
  }

  predicate IsStale(sh: Shared, p: Planned) {
    p.event.attempt < Max(p.current, LatestOf(sh.table, p.event, p.current))
  }

  /** From the beginning of an emit up to the decision on its key. */
  lemma SoloToDecision(sh: Shared, t: nat, th: Thread, n: nat)
    requires th.next < |th.program| && th.pc.Idle? && n >= 2 && !IsStale(sh, th.program[th.next])
    ensures var p := th.program[th.next];
      Solo(sh, t, th, n)
      == Solo(Journalled(sh, t, p), t, th.(pc := CheckSeen(LatestOf(sh.table, p.event, p.current))), n - 2)
  {
    SoloOnce(sh, t, th, n);
    var p := th.program[th.next];
    SoloOnce(Journalled(sh, t, p), t, th.(pc := ReadLatest), n - 1);
  }

  /** Before the two writes of a new key. */
  lemma SoloToWrite(sh: Shared, t: nat, th: Thread)
    requires th.next < |th.program| && th.pc.Idle? && !IsStale(sh, th.program[th.next])
    requires KeyOf(th.program[th.next].event) !in sh.table.seen
    ensures var p := th.program[th.next];
      Solo(sh, t, th, 3) == (Journalled(sh, t, p), th.(pc := WriteLatest(LatestOf(sh.table, p.event, p.current))))
  {
    SoloToDecision(sh, t, th, 3);
    var p := th.program[th.next];
    SoloOnce(Journalled(sh, t, p), t, th.(pc := CheckSeen(LatestOf(sh.table, p.event, p.current))), 1);
  }

  /** From there to the send, and past it. */
  lemma SoloFromWrite(sh: Shared, t: nat, th: Thread, latest: int)
    requires th.next < |th.program| && th.pc == WriteLatest(latest)
    ensures var p := th.program[th.next];
      var e := p.event;
      var sh' := sh.(table := Table(sh.table.latest[e.runtimeId := Max(e.attempt, latest)],
          sh.table.seen + {KeyOf(e)}));
      && Solo(sh, t, th, 2) == (sh', th.(pc := Send))
      && Solo(sh, t, th, 3) == (Delivered(sh', t, p), Ended(th))
  {
    var e := th.program[th.next].event;
    var sh1 := sh.(table := sh.table.(latest := sh.table.latest[e.runtimeId := Max(e.attempt, latest)]));
    var sh2 := sh1.(table := sh1.table.(seen := sh1.table.seen + {KeyOf(e)}));
    SoloOnce(sh, t, th, 2);
    SoloOnce(sh1, t, th.(pc := AddSeen), 1);
    SoloOnce(sh, t, th, 3);
    SoloOnce(sh1, t, th.(pc := AddSeen), 2);
    SoloOnce(sh2, t, th.(pc := Send), 1);
  }

  lemma {:induction false} SoloTwice(sh: Shared, t: nat, th: Thread, a: nat, b: nat)
    ensures var (sh', th') := Solo(sh, t, th, a); Solo(sh, t, th, a + b) == Solo(sh', t, th', b)
    decreases a
  {
    if a > 0 {
      var (sh', th') := StepOf(sh, t, th);
      SoloTwice(sh', t, th', a - 1, b);
    }
  }

  lemma SoloToSend(sh: Shared, t: nat, th: Thread)
    requires th.next < |th.program| && th.pc.Idle? && !IsStale(sh, th.program[th.next])
    requires KeyOf(th.program[th.next].event) !in sh.table.seen
    ensures Solo(sh, t, th, 5) == (Recorded(sh, t, th.program[th.next]), th.(pc := Send))
  {
    SoloToWrite(sh, t, th);
    SoloTwice(sh, t, th, 3, 2);
    var p := th.program[th.next];
    var latest := LatestOf(sh.table, p.event, p.current);
    SoloFromWrite(Journalled(sh, t, p), t, th.(pc := WriteLatest(latest)), latest);
  }

  /** How many steps an emit takes by itself. */
  function EmitSteps(sh: Shared, p: Planned): nat {
    if IsStale(sh, p) then 2 else if KeyOf(p.event) in sh.table.seen then 3 else 6
  }

  function EmitResult(sh: Shared, t: nat, p: Planned): Shared {
    if IsStale(sh, p) || KeyOf(p.event) in sh.table.seen then Journalled(sh, t, p)
    else Delivered(Recorded(sh, t, p), t, p)
  }

  lemma SoloEmit(sh: Shared, t: nat, th: Thread)
    requires th.next < |th.program| && th.pc.Idle?
    ensures var p := th.program[th.next];
      Solo(sh, t, th, EmitSteps(sh, p)) == (EmitResult(sh, t, p), Ended(th))
  {
    var p := th.program[th.next];
    if IsStale(sh, p) {
      SoloOnce(sh, t, th, 2);
      SoloOnce(Journalled(sh, t, p), t, th.(pc := ReadLatest), 1);
    } else if KeyOf(p.event) in sh.table.seen {
      SoloToDecision(sh, t, th, 3);
      SoloOnce(Journalled(sh, t, p), t, th.(pc := CheckSeen(LatestOf(sh.table, p.event, p.current))), 1);
    } else {
      SoloToWrite(sh, t, th);
      SoloTwice(sh, t, th, 3, 3);
      var latest := LatestOf(sh.table, p.event, p.current);
      SoloFromWrite(Journalled(sh, t, p), t, th.(pc := WriteLatest(latest)), latest);
    }
  }

  function EventsOf(entries: seq<Entry>): seq<Event> {
    seq(|entries|, i requires 0 <= i < |entries| => entries[i].event)
  }

  /** An undisturbed emit does to table, journal and wire what `Forwarded` says of an emit in one piece. */
  lemma UndisturbedEmitIsForwarded(sh: Shared, t: nat, th: Thread)
    requires th.next < |th.program| && th.pc.Idle?
    ensures var p := th.program[th.next];
      var sh' := Solo(sh, t, th, EmitSteps(sh, p)).0;
      World(sh'.table, EventsOf(sh'.journal), EventsOf(sh'.wire))
      == Forwarded(World(sh.table, EventsOf(sh.journal), EventsOf(sh.wire)), p.event, p.current, p.sendOk).world
  {
    var p := th.program[th.next];
    SoloEmit(sh, t, th);
    assert EventsOf(sh.journal + [Entry(t, p.event)]) == EventsOf(sh.journal) + [p.event];
    assert EventsOf(sh.wire + [Entry(t, p.event)]) == EventsOf(sh.wire) + [p.event];
  }

  // ----- Exactly when no key is sent twice -----

  predicate Occurs(programs: seq<seq<Planned>>, p: Planned) {
    exists i :: 0 <= i < |programs| && p in programs[i]
  }

  /** The gateways of a process have one launch attempt, and their events carry it. */
  ghost predicate OneAttempt(programs: seq<seq<Planned>>) {
    && (forall p :: Occurs(programs, p) ==> p.current == p.event.attempt)
    && forall p, q :: Occurs(programs, p) && Occurs(programs, q) && p.event.runtimeId == q.event.runtimeId ==>
         p.event.attempt == q.event.attempt
  }

  ghost predicate LatestFits(t: Table, programs: seq<seq<Planned>>) {
    forall p :: Occurs(programs, p) && p.event.runtimeId in t.latest ==> t.latest[p.event.runtimeId] == p.event.attempt
  }

  lemma NothingIsStale(sh: Shared, programs: seq<seq<Planned>>, p: Planned)
    requires OneAttempt(programs) && Occurs(programs, p) && LatestFits(sh.table, programs)
    ensures !IsStale(sh, p)
    ensures LatestFits(Recorded(sh, 0, p).table, programs)
    ensures LatestFits(sh.table.(latest := sh.table.latest[p.event.runtimeId := p.event.attempt]), programs)
  {
  }

  /** Thread t is about to begin emit n of its program. */
  predicate At(m: Machine, programs: seq<seq<Planned>>, t: nat, n: nat) {
    Runs(m, programs) && t < |programs| && m.threads[t] == Thread(programs[t], n, Idle)
  }

  lemma EmitAlone(m: Machine, programs: seq<seq<Planned>>, t: nat, n: nat) returns (m': Machine)
    requires OneAttempt(programs) && At(m, programs, t, n) && n < |programs[t]| && LatestFits(m.shared.table, programs)
    ensures exists k :: m' == AfterSolo(m, t, k)
    ensures At(m', programs, t, n + 1) && LatestFits(m'.shared.table, programs)
    ensures forall u :: 0 <= u < |programs| && u != t ==> m'.threads[u] == m.threads[u]
    ensures m'.shared.table.seen == m.shared.table.seen + {KeyOf(programs[t][n].event)}
  {
    var p := programs[t][n];
    assert p in programs[t] && Occurs(programs, p);
    NothingIsStale(m.shared, programs, p);
    SoloEmit(m.shared, t, m.threads[t]);
    m' := AfterSolo(m, t, EmitSteps(m.shared, p));
    assert m'.shared.table.seen == m.shared.table.seen + {KeyOf(p.event)};
  }

  predicate KeyAmong(program: seq<Planned>, n: nat, k: Key)
    requires n <= |program|
  {
    exists i :: 0 <= i < n && KeyOf(program[i].event) == k
  }

  /** Thread t makes its first n emits, none of them of key k. */
  lemma {:induction false} EmitsAlone(m0: Machine, m: Machine, programs: seq<seq<Planned>>, t: nat, n: nat, k: Key)
    returns (m': Machine)
    requires OneAttempt(programs) && Reaches(m0, m) && At(m, programs, t, 0) && LatestFits(m.shared.table, programs)
    requires n <= |programs[t]| && !KeyAmong(programs[t], n, k) && k !in m.shared.table.seen
    ensures Reaches(m0, m') && At(m', programs, t, n) && LatestFits(m'.shared.table, programs)
    ensures forall u :: 0 <= u < |programs| && u != t ==> m'.threads[u] == m.threads[u]
    ensures k !in m'.shared.table.seen
  {
    if n == 0 {
      m' := m;
    } else {
      var m1 := EmitsAlone(m0, m, programs, t, n - 1, k);
      m' := EmitAlone(m1, programs, t, n - 1);
      var steps :| m' == AfterSolo(m1, t, steps);
      ReachesOn(m0, m1, t, steps);
    }
  }

  lemma FirstOfKey(program: seq<Planned>, k: Key) returns (n: nat)
    requires HasKey(program, k)
    ensures n < |program| && KeyOf(program[n].event) == k && !KeyAmong(program, n, k)
  {
    var i :| 0 <= i < |program| && KeyOf(program[i].event) == k;
    n := 0;
    while KeyOf(program[n].event) != k
      invariant n <= i && !KeyAmong(program, n, k)
      decreases i - n
    {
      n := n + 1;
    }
  }

  /** Both threads find the key to be new before either of them adds it. */
  lemma BothSend(m0: Machine, m: Machine, programs: seq<seq<Planned>>, i: nat, p: nat, j: nat, q: nat)
    requires OneAttempt(programs) && Reaches(m0, m) && LatestFits(m.shared.table, programs)
    requires i != j && At(m, programs, i, p) && At(m, programs, j, q) && p < |programs[i]| && q < |programs[j]|
    requires KeyOf(programs[i][p].event) == KeyOf(programs[j][q].event)
    requires KeyOf(programs[i][p].event) !in m.shared.table.seen
    ensures exists moves :: !SentOnce(Ran(m0, moves).shared.sends, KeyOf(programs[i][p].event))
  {
    var a, b := programs[i][p], programs[j][q];
    assert a in programs[i] && b in programs[j] && Occurs(programs, a) && Occurs(programs, b);
    NothingIsStale(m.shared, programs, a);
    SoloToWrite(m.shared, i, m.threads[i]);
    var m1 := AfterSolo(m, i, 3);
    ReachesOn(m0, m, i, 3);
    NothingIsStale(m1.shared, programs, b);
    SoloEmit(m1.shared, j, m1.threads[j]);
    var m2 := AfterSolo(m1, j, 6);
    ReachesOn(m0, m1, j, 6);
    assert m2.threads[i] == m1.threads[i];
    SoloFromWrite(m2.shared, i, m2.threads[i], m2.threads[i].pc.latest);
    var m3 := AfterSolo(m2, i, 3);
    ReachesOn(m0, m2, i, 3);
    var sends, n := m3.shared.sends, |m.shared.sends|;
    assert sends[n] == Entry(j, b.event) && sends[n + 1] == Entry(i, a.event);
    var moves :| Ran(m0, moves) == m3;
  }

  ghost predicate NeverSentTwice(programs: seq<seq<Planned>>, k: Key) {
    forall moves :: SentOnce(Ran(Begin(programs), moves).shared.sends, k)
  }

  lemma SharedKeyIsSentTwice(programs: seq<seq<Planned>>, i: nat, j: nat, k: Key)
    requires OneAttempt(programs) && i < j < |programs| && HasKey(programs[i], k) && HasKey(programs[j], k)
    ensures !NeverSentTwice(programs, k)
  {
    var m := Begin(programs);
    assert Ran(m, []) == m;
    var p := FirstOfKey(programs[i], k);
    var q := FirstOfKey(programs[j], k);
    var m1 := EmitsAlone(m, m, programs, i, p, k);
    var m2 := EmitsAlone(m, m1, programs, j, q, k);
    BothSend(m, m2, programs, i, p, j, q);
  }

  /**
   * With one launch attempt, a key is sent at most once in every interleaving exactly when no two threads emit it;
   * whatever the attempts, that is enough.
   */
  lemma KeyIsSentOnceExactly(programs: seq<seq<Planned>>, k: Key)
    ensures OneSource(programs, k) ==> NeverSentTwice(programs, k)
    ensures OneAttempt(programs) && NeverSentTwice(programs, k) ==> OneSource(programs, k)
  {
    if OneSource(programs, k) {
      forall moves ensures SentOnce(Ran(Begin(programs), moves).shared.sends, k) {
        RunKeepsKey(programs, moves, k);
      }
    } else if OneAttempt(programs) {
      var i, j :| 0 <= i < j < |programs| && HasKey(programs[i], k) && HasKey(programs[j], k);
      SharedKeyIsSentTwice(programs, i, j, k);
    }
  }

  // ----- Exactly when the wire follows the journal -----

  ghost predicate WireFollowsJournal(sh: Shared) {
    Subsequence(EventsOf(sh.wire), EventsOf(sh.journal))
  }

  /** No two threads have anything to emit. */
  predicate OneEmitter(programs: seq<seq<Planned>>) {
    forall i, j :: 0 <= i < j < |programs| && programs[i] != [] ==> programs[j] == []
  }

  lemma {:induction false} AllOfOneThread(entries: seq<Entry>, t: nat)
    requires forall i :: 0 <= i < |entries| ==> entries[i].thread == t
    ensures OfThread(entries, t) == EventsOf(entries)
  {
    if entries != [] {
      AllOfOneThread(entries[..|entries| - 1], t);
      assert EventsOf(entries) == EventsOf(entries[..|entries| - 1]) + [entries[|entries| - 1].event];
    }
  }

  lemma {:induction false} EntriesAreOf(programs: seq<seq<Planned>>, moves: seq<nat>, t: nat)
    requires forall u :: 0 <= u < |programs| && u != t ==> programs[u] == []
    ensures var m := Ran(Begin(programs), moves);
      && Runs(m, programs)
      && (forall i :: 0 <= i < |m.shared.journal| ==> m.shared.journal[i].thread == t)
      && forall i :: 0 <= i < |m.shared.wire| ==> m.shared.wire[i].thread == t
  {
    if moves != [] {
      EntriesAreOf(programs, moves[..|moves| - 1], t);
    }
  }

  lemma OneEmitterFollows(programs: seq<seq<Planned>>, moves: seq<nat>, t: nat)
    requires t < |programs| && forall u :: 0 <= u < |programs| && u != t ==> programs[u] == []
    ensures WireFollowsJournal(Ran(Begin(programs), moves).shared)
  {
    var m := Ran(Begin(programs), moves);
    EntriesAreOf(programs, moves, t);
    EachThreadKeepsItsOrder(programs, moves, t);
    AllOfOneThread(m.shared.journal, t);
    AllOfOneThread(m.shared.wire, t);
    var th := m.threads[t];
    if !th.pc.Idle? {
      var e := th.program[th.next].event;
      assert Begun(th.program, th.next + 1) == Begun(th.program, th.next) + [e];
      SubsequenceOfMore(EventsOf(m.shared.wire), Begun(th.program, th.next), e);
    }
  }

  /** Thread j makes a whole emit while thread i is about to send. */
  lemma CrossOver(m: Machine, i: nat, j: nat, a: Planned, b: Planned)
    requires i < |m.threads| && j < |m.threads| && i != j && a.sendOk && b.sendOk
    requires m.threads[i].pc == Send && m.threads[i].next < |m.threads[i].program|
    requires m.threads[j].pc == Idle && m.threads[j].next < |m.threads[j].program|
    requires m.threads[i].program[m.threads[i].next] == a && m.threads[j].program[m.threads[j].next] == b
    requires !IsStale(m.shared, b) && KeyOf(b.event) !in m.shared.table.seen
    ensures var sh := AfterSolo(AfterSolo(m, j, 6), i, 1).shared;
      && sh.journal == m.shared.journal + [Entry(j, b.event)]
      && sh.wire == m.shared.wire + [Entry(j, b.event)] + [Entry(i, a.event)]
  {
    SoloEmit(m.shared, j, m.threads[j]);
    var m' := AfterSolo(m, j, 6);
    assert m'.threads[i] == m.threads[i];
    SoloOnce(m'.shared, i, m'.threads[i], 1);
  }

  /** One thread journals first and sends last. */
  lemma TwoEmittersCross(programs: seq<seq<Planned>>, i: nat, j: nat)
    requires OneAttempt(programs) && i < j < |programs|
    requires programs[i] != [] && programs[j] != [] && programs[i][0].sendOk && programs[j][0].sendOk
    requires KeyOf(programs[i][0].event) != KeyOf(programs[j][0].event)
    ensures exists moves :: !WireFollowsJournal(Ran(Begin(programs), moves).shared)
  {
    hide Subsequence;
    var a, b, m := programs[i][0], programs[j][0], Begin(programs);
    assert a in programs[i] && b in programs[j] && Occurs(programs, a) && Occurs(programs, b);
    assert Ran(m, []) == m;
    NothingIsStale(m.shared, programs, a);
    SoloToSend(m.shared, i, m.threads[i]);
    var m1 := AfterSolo(m, i, 5);
    ReachesOn(m, m, i, 5);
    assert m1.shared.table == Table(map[a.event.runtimeId := a.event.attempt], {KeyOf(a.event)});
    NothingIsStale(m1.shared, programs, b);
    CrossOver(m1, i, j, a, b);
    var m2 := AfterSolo(m1, j, 6);
    ReachesOn(m, m1, j, 6);
    var m3 := AfterSolo(m2, i, 1);
    ReachesOn(m, m2, i, 1);
    CrossedOrder(EventsOf(m3.shared.journal), EventsOf(m3.shared.wire), a.event, b.event);
    var moves :| Ran(m, moves) == m3;
  }

  lemma CrossedOrder(journal: seq<Event>, wire: seq<Event>, a: Event, b: Event)
    requires journal == [a, b] && wire == [b, a] && a != b
    ensures !Subsequence(wire, journal)
  {
    assert journal[..1] == [a] && wire[..1] == [b] && journal[..1][..0] == [];
    assert !Subsequence(wire, journal[..1]) by {
      assert !Subsequence(wire, []);
      assert !Subsequence([b], []);
    }
  }

  ghost predicate AlwaysFollows(programs: seq<seq<Planned>>) {
    forall moves :: WireFollowsJournal(Ran(Begin(programs), moves).shared)
  }

  /**
   * When no send raises, the client receives an in-order part of the journal in every interleaving exactly when at
   * most one thread emits anything.
   */
  lemma WireFollowsJournalExactly(programs: seq<seq<Planned>>)
    requires OneAttempt(programs) && forall k :: OneSource(programs, k)
    requires forall p :: Occurs(programs, p) ==> p.sendOk
    ensures AlwaysFollows(programs) <==> OneEmitter(programs)
  {
    if OneEmitter(programs) {
      forall moves ensures WireFollowsJournal(Ran(Begin(programs), moves).shared) {
        if t :| 0 <= t < |programs| && programs[t] != [] {
          OneEmitterFollows(programs, moves, t);
        } else {
          NobodyEmits(programs, moves);
        }
      }
    } else {
      var i, j :| 0 <= i < j < |programs| && programs[i] != [] && programs[j] != [];
      assert programs[i][0] in programs[i] && programs[j][0] in programs[j];
      assert Occurs(programs, programs[i][0]) && Occurs(programs, programs[j][0]);
      assert HasKey(programs[i], KeyOf(programs[i][0].event)) && HasKey(programs[j], KeyOf(programs[j][0].event));
      assert OneSource(programs, KeyOf(programs[i][0].event));
      TwoEmittersCross(programs, i, j);
    }
  }

  lemma {:induction false} NobodyEmits(programs: seq<seq<Planned>>, moves: seq<nat>)
    requires forall t :: 0 <= t < |programs| ==> programs[t] == []
    ensures Ran(Begin(programs), moves) == Begin(programs)
  {
    if moves != [] {
      NobodyEmits(programs, moves[..|moves| - 1]);
      var m, t := Begin(programs), moves[|moves| - 1];
      assert t < |programs| ==> m.threads[t := m.threads[t]] == m.threads;
    }
  }
}
