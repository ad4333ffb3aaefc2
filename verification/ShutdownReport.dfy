/** The reason codes and messages of shutdown reports (runtime/bootstrap/srm_env_status_report.py). */
module ShutdownReport {
  import opened Wrappers
  import opened Text
  import StopProtocol

  const KUBERNETES_TERMINATION_REASON := "KUBERNETES_TERMINATION"

  const SWR_SHUTDOWN := "SWR_SHUTDOWN"

  function UpperChar(c: char): char {
    if 'a' <= c <= 'z' then ('A' as int + (c as int - 'a' as int)) as char else c
  }

  /** `str.upper()` on ASCII text. */
  function Upper(s: string): (r: string)
    ensures |r| == |s| && forall i :: 0 <= i < |s| ==> r[i] == UpperChar(s[i])
  {
    seq(|s|, i requires 0 <= i < |s| => UpperChar(s[i]))
  }

  function SwrReasonCode(canonical: string): string {
    var raw := Upper(Strip(if canonical == "" then SWR_SHUTDOWN else canonical));
    if "SWR_" <= raw then raw else "SWR_" + raw
  }

  function DefaultMessage(canonical: string): string {
    MessageFor(Upper(Strip(canonical)))
  }

  function MessageFor(normalized: string): (message: string)
    ensures |message| > 1 && !IsSpace(message[0]) && message[|message| - 1] == '.'
  {
    if normalized == "STOP_REQUESTED" then "Worker shutdown requested."
    else if normalized == "MANUAL_STOP_REQUESTED" then "Worker shutdown complete."
    else if normalized == "RUNTIME_JOB_COMPLETED" then "Runtime job completed."
    else if normalized == "LOCAL_TERMINATION_OBSERVED" then "Local termination observed."
    else if normalized == "ERROR_DETECTED" then "Shutdown after runtime detected failure."
    else if normalized == "UNHEALTHY_EXECUTION_DETECTED" then "Shutdown after unhealthy execution."
    else if normalized == "CONTROLLED_SHUTDOWN_INITIATED" then "Controlled shutdown initiated."
    else if normalized == KUBERNETES_TERMINATION_REASON then "Worker received Kubernetes SIGTERM."
    else "Worker shutdown (" + normalized + ")."
  }

  /** A report with the given message, or with the default one when that is blank or missing. */
  function Resolved(code: string, message: Option<string>, default: string): StopProtocol.Report {
    var text := if message.Some? then Strip(message.value) else [];
    (code, if text == [] then default else text)
  }

  function ResolveReport(canonical: string, message: Option<string>): StopProtocol.Report {
    Resolved(SwrReasonCode(canonical), message, DefaultMessage(canonical))
  }

  lemma ResolvedByDefault(code: string, message: Option<string>, default: string)
    requires default != [] && Strip(default) == default
    requires message == None || message == Some(default)
    ensures Resolved(code, message, default) == (code, default)
  {
  }

  lemma DefaultMessageIsTrimmed(canonical: string)
    ensures var d := DefaultMessage(canonical); d != "" && Strip(d) == d
  {
    StripFixed(MessageFor(Upper(Strip(canonical))));
  }

  /** Passing on the default message or none at all makes no difference. */
  lemma ReportOfDefault(canonical: string, message: Option<string>)
    requires message == None || message == Some(DefaultMessage(canonical))
    ensures ResolveReport(canonical, message) == (SwrReasonCode(canonical), DefaultMessage(canonical))
  {
    DefaultMessageIsTrimmed(canonical);
    ResolvedByDefault(SwrReasonCode(canonical), message, DefaultMessage(canonical));
  }

  /** Only a Kubernetes termination passes its default message on itself. */
  function StoppingMessage(canonical: string): (message: Option<string>)
    ensures message == None || message == Some(DefaultMessage(canonical))
  {
    if canonical == KUBERNETES_TERMINATION_REASON then Some(DefaultMessage(canonical)) else None
  }

  /** How `stop` finds its reason when there was no accepted request; `normalize` stands for the reason code table. */
  function LocalReason(normalize: string -> string, code: Option<string>, failedPhase: bool): (string, Option<string>) {
    match code
    case None =>
      if failedPhase then (normalize("ERROR_DETECTED"), Some("Shutdown after runtime detected failure."))
      else (normalize("MANUAL_STOP_REQUESTED"), Some("Worker shutdown complete."))
    case Some(c) =>
      if c == "RUNTIME_JOB_COMPLETED" then (normalize(c), Some("Runtime job completed."))
      else (normalize(c), None)
  }

  /** The canonical reason of a stop request; `known` says which reason codes the runtime has. */
  function CanonicalReason(normalize: string -> string, known: string -> bool, reason: string): string {
    var text := Strip(reason);
    var upper := Upper(text);
    if text == "" then normalize("STOP_REQUESTED")
    else if upper == KUBERNETES_TERMINATION_REASON || upper == "SWR_KUBERNETES_TERMINATION" || upper == "SIGTERM"
    then KUBERNETES_TERMINATION_REASON
    else if upper == "ERROR_DETECTED" || upper == "ERROR" || upper == "FAILED" then normalize("ERROR_DETECTED")
    else if upper == "RUNTIME_JOB_COMPLETED" then normalize("RUNTIME_JOB_COMPLETED")
    else if normalize(text) == "POLICY_VIOLATION" && !known(upper) then normalize("STOP_REQUESTED")
    else normalize(text)
  }

  function WorkerPolicy(normalize: string -> string, known: string -> bool): StopProtocol.Policy {
    StopProtocol.Policy(
      r => CanonicalReason(normalize, known, r), StoppingMessage, ResolveReport,
      (code, failedPhase) => LocalReason(normalize, code, failedPhase))
  }

  /** The worker's reports agree in the sense the stop protocol relies on, whatever its reason code table is. */
  lemma WorkerPolicyIsConsistent(normalize: string -> string, known: string -> bool)
    ensures StopProtocol.Consistent(WorkerPolicy(normalize, known))
  {
    var pol := WorkerPolicy(normalize, known);
    forall c: string, m: Option<string> ensures StopProtocol.ReportsAgree(pol, c, m) {
      ReportOfDefault(c, StoppingMessage(c));
      if m == None || m == Some(DefaultMessage(c)) {
        ReportOfDefault(c, m);
      }
    }
  }
}
