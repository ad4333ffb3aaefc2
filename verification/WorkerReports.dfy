/** What the worker's stops report and which of its work begins, on the worker's own reason and message functions. */
module WorkerReports {
  import opened Wrappers
  import opened Text
  import opened StopProtocol
  import opened ShutdownReport

  // ----- Reasons -----

  const SIGTERM_WORDS: set<string> := {"KUBERNETES_TERMINATION", "SWR_KUBERNETES_TERMINATION", "SIGTERM"}

  const FAILURE_WORDS: set<string> := {"ERROR_DETECTED", "ERROR", "FAILED"}

  /** The reason code a request stands for: by its word in any case and padding, else by the reason code table. */
  function RequestedCode(normalize: string -> string, known: string -> bool, reason: string): string {
    var text := Strip(reason);
    var word := Upper(text);
    if word in SIGTERM_WORDS then "KUBERNETES_TERMINATION"
    else if word in FAILURE_WORDS then normalize("ERROR_DETECTED")
    else if word == "RUNTIME_JOB_COMPLETED" then normalize("RUNTIME_JOB_COMPLETED")
    else if word == "" || (normalize(text) == "POLICY_VIOLATION" && !known(word)) then normalize("STOP_REQUESTED")
    else normalize(text)
  }

  lemma RequestIsPosted(normalize: string -> string, known: string -> bool, reason: string)
    ensures var posted := PostedFor(WorkerPolicy(normalize, known), reason);
      var code := RequestedCode(normalize, known, reason);
      && posted.canonical == code
      && posted.body == (SwrReasonCode(code), DefaultMessage(code))
  {
    hide Strip, SwrReasonCode, DefaultMessage;
    assert "" !in SIGTERM_WORDS && "" !in FAILURE_WORDS;
    var code := CanonicalReason(normalize, known, reason);
    ReportOfDefault(code, StoppingMessage(code));
  }

  /** A SIGTERM, however it is spelled, is reported as a Kubernetes termination. */
  lemma SigtermIsPosted(normalize: string -> string, known: string -> bool, reason: string)
    requires Upper(Strip(reason)) in SIGTERM_WORDS
    ensures PostedFor(WorkerPolicy(normalize, known), reason).body
         == ("SWR_" + "KUBERNETES_TERMINATION", "Worker received Kubernetes SIGTERM.")
  {
    hide PostedFor, Strip, RequestedCode;
    RequestIsPosted(normalize, known, reason);
    assert RequestedCode(normalize, known, reason) == "KUBERNETES_TERMINATION" by {
      SigtermCode(normalize, known, reason);
    }
    TerminationIsWritten();
  }

  lemma SigtermCode(normalize: string -> string, known: string -> bool, reason: string)
    requires Upper(Strip(reason)) in SIGTERM_WORDS
    ensures RequestedCode(normalize, known, reason) == "KUBERNETES_TERMINATION"
  {
    hide Strip, Upper;
  }

  lemma TerminationIsWritten()
    ensures SwrReasonCode("KUBERNETES_TERMINATION") == "SWR_" + "KUBERNETES_TERMINATION"
    ensures DefaultMessage("KUBERNETES_TERMINATION") == "Worker received Kubernetes SIGTERM."
  {
    hide Strip;
    var code := "KUBERNETES_TERMINATION";
    StripFixed(code);
    assert Upper(code) == code;
    CodeIsPrefixed(code);
  }

  lemma CodeIsPrefixed(code: string)
    requires code != "" && Upper(code) == code && Strip(code) == code && code[0] != 'S'
    ensures SwrReasonCode(code) == "SWR_" + code
  {
    hide Strip;
    assert "SWR_"[0] == 'S';
  }

  /** Every reported code carries the worker's prefix, once. */
  lemma CodesCarryPrefixOnce(canonical: string)
    ensures "SWR_" <= SwrReasonCode(canonical)
    ensures SwrReasonCode(SwrReasonCode(canonical)) == SwrReasonCode(canonical)
  {
    hide Strip;
    var text := if canonical == "" then "SWR_SHUTDOWN" else canonical;
    UpperStaysTrimmed(text);
    UpperTwice(Strip(text));
    PrefixedIsStable(Upper(Strip(text)));
  }

  lemma UpperTwice(s: string)
    ensures Upper(Upper(s)) == Upper(s)
  {
  }

  lemma PrefixedIsStable(word: string)
    requires Upper(word) == word && (word == "" || !IsSpace(word[|word| - 1]))
    ensures var code := if "SWR_" <= word then word else "SWR_" + word;
      "SWR_" <= code && code != "" && Strip(code) == code && Upper(code) == code
  {
    hide Strip;
    var prefix := "SWR_";
    assert |prefix| == 4 && prefix[0] == 'S' && prefix[1] == 'W' && prefix[2] == 'R' && prefix[3] == '_';
    var code := if prefix <= word then word else prefix + word;
    assert code[0] == 'S' && (word != "" ==> code[|code| - 1] == word[|word| - 1]);
    forall i | 0 <= i < |code| ensures Upper(code)[i] == code[i] {
      if !(prefix <= word) && i >= 4 {
        assert code[i] == word[i - 4] && Upper(word)[i - 4] == UpperChar(word[i - 4]);
      } else if prefix <= word {
        assert Upper(word)[i] == UpperChar(word[i]);
      }
    }
    StripFixed(code);
  }

  lemma UpperStaysTrimmed(s: string)
    ensures var r := Upper(Strip(s)); r != "" ==> !IsSpace(r[0]) && !IsSpace(r[|r| - 1])
  {
    var t := Strip(s);
    if t != "" {
      assert Upper(t)[0] == UpperChar(t[0]) && Upper(t)[|t| - 1] == UpperChar(t[|t| - 1]);
    }
  }

  // ----- A stop of the worker's own -----

  /** The code a local stop reports: its own, else a failure's in FAILED phase, else a manual stop's. */
  function LocalCode(normalize: string -> string, code: Option<string>, failedPhase: bool): string {
    normalize(if code.Some? then code.value else if failedPhase then "ERROR_DETECTED" else "MANUAL_STOP_REQUESTED")
  }

  /** Its text: the caller's if it says anything, else that of the situation, else that of the code. */
  function LocalText(normalize: string -> string, code: Option<string>, message: Option<string>, failedPhase: bool):
    string
  {
    if message.Some? && Strip(message.value) != "" then Strip(message.value)
    else if message.Some? then DefaultMessage(LocalCode(normalize, code, failedPhase))
    else if code == Some("RUNTIME_JOB_COMPLETED") then "Runtime job completed."
    else if code.Some? then DefaultMessage(LocalCode(normalize, code, failedPhase))
    else if failedPhase then "Shutdown after runtime detected failure."
    else "Worker shutdown complete."
  }

  lemma TextsAreTrimmed()
    ensures Strip("Runtime job completed.") == "Runtime job completed."
    ensures Strip("Shutdown after runtime detected failure.") == "Shutdown after runtime detected failure."
    ensures Strip("Worker shutdown complete.") == "Worker shutdown complete."
  {
    hide Strip;
    StripFixed("Runtime job completed.");
    StripFixed("Shutdown after runtime detected failure.");
    StripFixed("Worker shutdown complete.");
  }

  lemma LocalReport(normalize: string -> string, code: Option<string>, message: Option<string>, failedPhase: bool)
    ensures var (canonical, text) := LocalReason(normalize, code, failedPhase);
      ResolveReport(canonical, if message.Some? then message else text)
        == (SwrReasonCode(LocalCode(normalize, code, failedPhase)), LocalText(normalize, code, message, failedPhase))
  {
    hide Strip, SwrReasonCode, DefaultMessage;
    TextsAreTrimmed();
    assert "Runtime job completed." != "" && "Worker shutdown complete." != "";
    assert "Shutdown after runtime detected failure." != "";
  }

  /** What a stop with nothing from a request goes on to report. */
  function OwnSource(pol: Policy, c: Caller, failedPhase: bool): Source {
    var (reason, message) := pol.local(CodeOf(c), failedPhase);
    var own := OwnMessage(c);
    Source(false, reason, own.Some?, if own.Some? then own else message)
  }

  lemma StopReadsAlone(pol: Policy, m: Machine, t: nat, sh: Shared, c: Caller, ch: Choice) returns (m': Machine)
    requires In(m, t, sh, c, StopEntry) && !sh.complete && sh.canonical.None?
    ensures In(m', t, sh, c, StopMark(OwnSource(pol, c, ch.failedPhase)))
    ensures Alone(pol, m, t, ch, 6) == Alone(pol, m', t, ch, 4)
  {
    var m1 := Stepped(pol, m, t, ch);
    assert In(m1, t, sh, c, StopReason);
    m' := Stepped(pol, m1, t, ch);
    AloneTwice(pol, m, t, ch, 6);
  }

  lemma StopWritesAlone(pol: Policy, m: Machine, t: nat, sh: Shared, c: Caller, ch: Choice, source: Source)
    requires In(m, t, sh, c, StopMark(source)) && ch.ok
    ensures In(Alone(pol, m, t, ch, 4), t,
        sh.(inProgress := true, marked := true, complete := true,
            finals := sh.finals + [FinalReport(t, source, pol.report(source.canonical, source.message))]),
        c, Finished(Stopped(true)))
  {
    var m1 := Stepped(pol, m, t, ch);
    var sh1 := sh.(inProgress := true, marked := true);
    assert In(m1, t, sh1, c, Teardown(source));
    var m2 := Stepped(pol, m1, t, ch);
    assert In(m2, t, sh1, c, ReportFinal(source));
    var m3 := Stepped(pol, m2, t, ch);
    assert m3.threads[t] == Thread(c, SetComplete);
    var m4 := Stepped(pol, m3, t, ch);
    AloneTwice(pol, m, t, ch, 4);
    AloneTwice(pol, m2, t, ch, 2);
    assert Alone(pol, m, t, ch, 4) == m4;
  }

  /**
   * A local stop that nobody interferes with and that does not raise: what it reports, and that the worker is stopped.
   */
  lemma UndisturbedLocalStop(normalize: string -> string, known: string -> bool, code: Option<string>,
      message: Option<string>, failedPhase: bool)
    ensures var m := Alone(WorkerPolicy(normalize, known), Begin([LocalStop(code, message)]), 0,
        Choice(true, failedPhase), 6);
      && |m.threads| > 0 && m.threads[0].pc == Finished(Stopped(true))
      && m.shared.complete && m.shared.inProgress && |m.shared.finals| == 1
      && m.shared.finals[0].report
         == (SwrReasonCode(LocalCode(normalize, code, failedPhase)), LocalText(normalize, code, message, failedPhase))
  {
    hide LocalReason, ResolveReport, LocalText, SwrReasonCode, DefaultMessage, Alone, Stepped;
    var pol, c, ch := WorkerPolicy(normalize, known), LocalStop(code, message), Choice(true, failedPhase);
    LocalReport(normalize, code, message, failedPhase);
    var m := Begin([c]);
    assert In(m, 0, INITIAL, c, StopEntry);
    var m' := StopReadsAlone(pol, m, 0, INITIAL, c, ch);
    StopWritesAlone(pol, m', 0, INITIAL, c, ch, OwnSource(pol, c, failedPhase));
  }

  /** A shutdown thread at the beginning of `stop`, after a request was accepted. */
  lemma StopFromRequestAlone(pol: Policy, m: Machine, t: nat, sh: Shared, posted: Posted, ch: Choice)
    requires In(m, t, sh, ShutdownThread, StopEntry) && ch.ok && !sh.complete
    requires sh.canonical == Some(posted.canonical) && sh.message == Some(posted.body.1)
    ensures var m' := Alone(pol, m, t, ch, 7);
      && t < |m'.threads| && m'.threads[t].pc == Finished(Stopped(true)) && m'.shared.complete
      && m'.shared.finals == sh.finals +
           [FinalReport(t, Source(true, posted.canonical, false, Some(posted.body.1)),
              pol.report(posted.canonical, Some(posted.body.1)))]
  {
    var c, source := ShutdownThread, Source(true, posted.canonical, false, Some(posted.body.1));
    var m1 := Stepped(pol, m, t, ch);
    assert In(m1, t, sh, c, StopReason);
    var m2 := Stepped(pol, m1, t, ch);
    assert In(m2, t, sh, c, StopMessage(posted.canonical));
    var m3 := Stepped(pol, m2, t, ch);
    assert In(m3, t, sh, c, StopMark(source));
    AloneTwice(pol, m, t, ch, 7);
    AloneOnce(pol, m2, t, ch, 5);
    StopWritesAlone(pol, m3, t, sh, c, ch, source);
  }

  /** The body is returned, and the last thread, left alone, stops the worker and reports the body. */
  predicate AnsweredAndStops(pol: Policy, m: Machine, posted: Posted) {
    && |m.threads| >= 2 && m.threads[0].pc == Finished(Body(posted))
    && var stopped := Alone(pol, m, |m.threads| - 1, Choice(true, false), 7).shared;
       stopped.complete && |stopped.finals| == 1 && stopped.finals[0].report == posted.body
  }

  /**
   * An HTTP stop that nobody interferes with and that does not raise: its body is returned, and the shutdown thread it
   * started stops the worker and finally reports the very same.
   */
  lemma UndisturbedHttpStop(pol: Policy, reason: string)
    requires Consistent(pol)
    ensures AnsweredAndStops(
      pol, Alone(pol, Begin([Http(reason)]), 0, Choice(true, false), 10), PostedFor(pol, reason))
  {
    hide PostedFor, Alone, Stepped, Consistent;
    var ch, c, posted := Choice(true, false), Http(reason), PostedFor(pol, reason);
    var m := Begin([c]);
    assert In(m, 0, INITIAL, c, WantLock);
    UndisturbedRequest(pol, m, 0, INITIAL, c, ch);
    AloneOnward(pol, m, 0, ch, 8, 2);
    var sh := Initiated(pol, INITIAL, 0, reason, true).0;
    ThreadStartsAlone(pol, Alone(pol, m, 0, ch, 8), sh, c, posted, ch);
    var answered := Alone(pol, m, 0, ch, 10);
    StopFromRequestAlone(pol, answered, |answered.threads| - 1, answered.shared, posted, ch);
    ReportIsPosted(pol, reason);
  }

  lemma ReportIsPosted(pol: Policy, reason: string)
    requires Consistent(pol)
    ensures var posted := PostedFor(pol, reason); pol.report(posted.canonical, Some(posted.body.1)) == posted.body
  {
    var code := pol.canonicalOf(reason);
    assert ReportsAgree(pol, code, Some(pol.report(code, pol.stoppingMessage(code)).1));
  }

  lemma {:induction false} AloneOnward(pol: Policy, m: Machine, t: nat, ch: Choice, a: nat, b: nat)
    ensures Alone(pol, m, t, ch, a + b) == Alone(pol, Alone(pol, m, t, ch, a), t, ch, b)
    decreases a
  {
    hide Stepped;
    if a > 0 {
      AloneOnward(pol, Stepped(pol, m, t, ch), t, ch, a - 1, b);
    }
  }

  lemma ThreadStartsAlone(pol: Policy, m: Machine, sh: Shared, c: Caller, posted: Posted, ch: Choice)
    requires In(m, 0, sh, c, Ensure(Some(posted))) && !sh.threadStarted
    ensures Alone(pol, m, 0, ch, 2) == Machine(
      sh.(threadStarted := true, starter := Some(0), starts := sh.starts + [|m.threads|]),
      m.threads[0 := Thread(c, Finished(Body(posted)))] + [Thread(ShutdownThread, StopEntry)])
  {
    var m1 := Stepped(pol, m, 0, ch);
    assert In(m1, 0, sh.(threadStarted := true, starter := Some(0)), c, StartThread(Some(posted)));
    AloneTwice(pol, m, 0, ch, 2);
  }

  /** The stop of a completed job that nobody interferes with reports its own code and the completion. */
  lemma UndisturbedJobStop(normalize: string -> string, known: string -> bool, failedPhase: bool)
    ensures var m := Alone(WorkerPolicy(normalize, known), Begin([Guarded(JobCompletionStop, "RUNTIME_JOB_COMPLETED")]),
        0, Choice(true, failedPhase), 7);
      && m.shared.complete && m.shared.begun == [JobCompletionStop] && |m.shared.finals| == 1
      && m.shared.finals[0].report
         == (SwrReasonCode(normalize("RUNTIME_JOB_COMPLETED")), "Runtime job completed.")
  {
    hide LocalReason, ResolveReport, SwrReasonCode, DefaultMessage, Alone;
    var pol, c := WorkerPolicy(normalize, known), Guarded(JobCompletionStop, "RUNTIME_JOB_COMPLETED");
    var ch := Choice(true, failedPhase);
    LocalReport(normalize, Some("RUNTIME_JOB_COMPLETED"), None, failedPhase);
    var m := Begin([c]);
    var m1 := Stepped(pol, m, 0, ch);
    var sh := INITIAL.(begun := [JobCompletionStop]);
    assert In(m1, 0, sh, c, StopEntry);
    AloneOnce(pol, m, 0, ch, 7);
    var m' := StopReadsAlone(pol, m1, 0, sh, c, ch);
    StopWritesAlone(pol, m', 0, sh, c, ch, OwnSource(pol, c, failedPhase));
  }

  lemma AloneOnce(pol: Policy, m: Machine, t: nat, ch: Choice, n: nat)
    requires n >= 1
    ensures Alone(pol, m, t, ch, n) == Alone(pol, Stepped(pol, m, t, ch), t, ch, n - 1)
  {
    hide Stepped;
  }

  lemma AloneTwice(pol: Policy, m: Machine, t: nat, ch: Choice, n: nat)
    requires n >= 2
    ensures Alone(pol, m, t, ch, n) == Alone(pol, Stepped(pol, Stepped(pol, m, t, ch), t, ch), t, ch, n - 2)
    ensures Alone(pol, m, t, ch, 0) == m
  {
    hide Stepped;
  }

  // ----- Guarded work -----

  /**
   * In every run guarded work whose turn it is begins exactly when no shutdown is in progress and nothing else keeps it
   * from beginning; the stop of a completed job also asks that the worker is not stopped yet.
   */
  lemma GuardedWorkBeginsExactly(pol: Policy, callers: seq<Caller>, moves: seq<Move>, t: nat, ch: Choice)
    requires var m := Ran(pol, Begin(callers), moves);
      t < |m.threads| && m.threads[t].pc.Guard? && m.threads[t].caller.Guarded?
    ensures var m := Ran(pol, Begin(callers), moves);
      var work := m.threads[t].caller.work;
      var begins := ch.ok && !m.shared.inProgress && !(work == JobCompletionStop && m.shared.complete);
      && Stepped(pol, m, t, ch).shared.begun == (if begins then m.shared.begun + [work] else m.shared.begun)
      && Stepped(pol, m, t, ch).threads[t].pc ==
         (if begins && work == JobCompletionStop then StopEntry else Finished(Ignored))
  {
    hide Ran;
  }

  /** As long as nothing was accepted and no stop went ahead, all of it begins. */
  lemma WorkBeginsWithoutStops(pol: Policy, callers: seq<Caller>, moves: seq<Move>, t: nat, ch: Choice)
    requires Consistent(pol) && Outside(callers) && ch.ok
    requires var m := Ran(pol, Begin(callers), moves);
      && t < |m.threads| && m.threads[t].pc.Guard? && m.threads[t].caller.Guarded?
      && m.shared.acceptances == [] && !m.shared.marked
    ensures var m := Ran(pol, Begin(callers), moves);
      Stepped(pol, m, t, ch).shared.begun == m.shared.begun + [m.threads[t].caller.work]
  {
    FailedPostsLeaveNoTrace(pol, callers, moves);
    GuardedWorkBeginsExactly(pol, callers, moves, t, ch);
  }
}
