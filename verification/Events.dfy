/** Lifecycle events and the factory that builds them (runtime/events). */
module Events {
  import opened Wrappers
  import opened Text

  datatype Signal =
    | BootstrapSucceeded
    | BootstrapFailed
    | Heartbeat
    | Unhealthy
    | ControlledStop
    | Terminated

  /** The part of a signal payload the gateway looks at; `text` stands for everything else in it. */
  datatype Payload = Payload(
    eventId: Option<string>,
    observationId: Option<string>,
    occurredAt: Option<int>,
    observedAt: Option<int>,
    localState: Option<string>,
    reasonCode: Option<string>,
    text: string)

  /** Family and name are fixed by the signal, so an event carries the signal instead of the two strings. */
  datatype Event = Event(runtimeId: string, attempt: int, signal: Signal, identityKey: string, payload: Payload)

  /** `fingerprint` is the key "signal:digest" of the canonical payload; the hash is left uninterpreted. */
  type Fingerprint = (Signal, Payload) -> string

  datatype WorkerIdentity = WorkerIdentity(runtimeId: string, attempt: int, worker: string)

  function EventName(s: Signal): string {
    match s
    case BootstrapSucceeded => "runtime.launch_succeeded"
    case BootstrapFailed => "runtime.launch_failed"
    case Heartbeat => "runtime.heartbeat"
    case Unhealthy => "runtime.unhealthy"
    case ControlledStop => "runtime.controlled_stop"
    case Terminated => "runtime.terminated"
  }

  /** Event names tell signals apart, so a key with the signal is a key with family and name. */
  lemma NameDeterminesSignal(s: Signal, t: Signal)
    requires EventName(s) == EventName(t)
    ensures s == t
  {
    assert "runtime.launch_succeeded"[15] == 's' && "runtime.launch_failed"[15] == 'f';
    assert "runtime.heartbeat"[8] == 'h' && "runtime.unhealthy"[8] == 'u';
    assert "runtime.controlled_stop"[8] == 'c' && "runtime.terminated"[8] == 't';
    assert "runtime.launch_failed"[8] == 'l' && "runtime.launch_succeeded"[8] == 'l';
  }

  const FAILURE_KEY := "bootstrap_failed"

  function IdentityKey(f: Fingerprint, s: Signal, p: Payload): string {
    if s.BootstrapFailed? then FAILURE_KEY
    else if p.eventId.Some? then Strip(p.eventId.value)
    else if p.observationId.Some? then Strip(p.observationId.value)
    else f(s, p)
  }

  /** None stands for the ValueError raised by the envelope's own checks. */
  function Create(f: Fingerprint, s: Signal, id: WorkerIdentity, p: Payload): (r: Option<Event>)
    ensures r.Some? ==> r.value.attempt == id.attempt >= 1 && r.value.signal == s
  {
    var runtimeId := Strip(id.runtimeId);
    var key := Strip(IdentityKey(f, s, p));
    if runtimeId == "" || key == "" || id.attempt < 1 then None
    else Some(Event(runtimeId, id.attempt, s, key, p))
  }

  lemma FailureKeyIsTrimmed(key: string)
    requires key == FAILURE_KEY
    ensures Strip(key) == key
  {
    assert !IsSpace(key[0]) && !IsSpace(key[15]);
    StripFixed(key);
  }

  /** A launch failure has one identity per runtime and attempt, whatever its payload says. */
  lemma FailureIdentityIgnoresPayload(f: Fingerprint, id: WorkerIdentity, p: Payload)
    ensures var e := Create(f, BootstrapFailed, id, p); e.Some? ==> e.value.identityKey == FAILURE_KEY
  {
    FailureKeyIsTrimmed(IdentityKey(f, BootstrapFailed, p));
  }
}
