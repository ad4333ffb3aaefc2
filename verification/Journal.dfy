/** The journal's retried dual write of a database row and a text line (runtime_journal_sink.py). */
module Journal {
  import opened Basics

  const RETRIES: nat := 4

  const FIRST_DELAY_MS: nat := 50

  /**
   * How one try of a write goes: the transaction meets a lock and is rolled back, fails otherwise and is rolled back,
   * or commits, after which the text file may still refuse its line.
   */
  datatype Try = Locked | Fails | Commits(textFails: bool)

  datatype Outcome = Written | Raised

  datatype Files<R> = Files(rows: seq<R>, lines: seq<R>, sleptMs: nat, attempts: nat)

  /** The index of the first try that meets no lock, or one past the last. */
  function FirstUnlocked(tries: nat -> Try, from: nat): nat
    decreases RETRIES + 1 - from
  {
    if from > RETRIES || !tries(from).Locked? then from else FirstUnlocked(tries, from + 1)
  }

  function Power2(n: nat): nat {
    if n == 0 then 1 else 2 * Power2(n - 1)
  }

  lemma {:induction false} FirstUnlockedIs(tries: nat -> Try, from: nat)
    requires from <= RETRIES + 1
    ensures from <= FirstUnlocked(tries, from) <= RETRIES + 1
    ensures forall i :: from <= i < FirstUnlocked(tries, from) ==> tries(i).Locked?
    ensures FirstUnlocked(tries, from) <= RETRIES ==> !tries(FirstUnlocked(tries, from)).Locked?
    decreases RETRIES + 1 - from
  {
    if from <= RETRIES && tries(from).Locked? {
      FirstUnlockedIs(tries, from + 1);
    }
  }

  /** A record's fate: the first try without a lock decides, and there are five. */
  predicate RowStays(tries: nat -> Try) {
    var n := FirstUnlocked(tries, 0);
    n <= RETRIES && tries(n).Commits?
  }

  predicate LineStays(tries: nat -> Try) {
    RowStays(tries) && !tries(FirstUnlocked(tries, 0)).textFails
  }

  function Recorded<R>(f: Files<R>, record: R, tries: nat -> Try): Files<R> {
    var n := Min(FirstUnlocked(tries, 0), RETRIES);
    Files(
      if RowStays(tries) then f.rows + [record] else f.rows,
      if LineStays(tries) then f.lines + [record] else f.lines,
      f.sleptMs + FIRST_DELAY_MS * (Power2(n) - 1),
      f.attempts + n + 1)
  }

  class RuntimeStateJournal<R> {
    var rows: seq<R>
    var lines: seq<R>
    ghost var sleptMs: nat
    ghost var attempts: nat

    constructor ()
      ensures Contents() == Files([], [], 0, 0)
    {
      rows, lines, sleptMs, attempts := [], [], 0, 0;
    }

    ghost function Contents(): Files<R>
      reads this
    {
      Files(rows, lines, sleptMs, attempts)
    }

    /** `_with_sqlite_lock_retry` around the write of one record. */
    method Record(record: R, tries: nat -> Try) returns (outcome: Outcome)
      modifies this
      ensures Contents() == Recorded(old(Contents()), record, tries)
      ensures outcome.Written? <==> LineStays(tries)
    {
      var retries := 4;
      var delayMs := 50;
      var attempt: nat := 0;
      while true
        invariant attempt <= RETRIES && retries == RETRIES
        invariant FirstUnlocked(tries, attempt) == FirstUnlocked(tries, 0)
        invariant delayMs == FIRST_DELAY_MS * Power2(attempt)
        invariant rows == old(rows) && lines == old(lines)
        invariant sleptMs == old(sleptMs) + delayMs - FIRST_DELAY_MS
        invariant attempts == old(attempts) + attempt
        decreases RETRIES - attempt
      {
        attempts := attempts + 1;
        match tries(attempt) {
          case Commits(textFails) =>
            rows := rows + [record];
            if textFails {
              return Raised;
            }
            lines := lines + [record];
            return Written;
          case Fails => return Raised;
          case Locked =>
            if attempt >= retries {
              return Raised;
            }
            sleptMs := sleptMs + delayMs;
            delayMs := delayMs * 2;
            attempt := attempt + 1;
        }
      }
    }
  }

  // ----- Whole runs -----

  datatype Write<R> = Write(record: R, tries: nat -> Try)

  function After<R>(writes: seq<Write<R>>): Files<R> {
    if writes == [] then Files([], [], 0, 0)
    else Recorded(After(writes[..|writes| - 1]), writes[|writes| - 1].record, writes[|writes| - 1].tries)
  }

  /** The records of the writes a predicate holds of, in order. */
  function Kept<R>(writes: seq<Write<R>>, keeps: (nat -> Try) -> bool): seq<R> {
    if writes == [] then []
    else
      Kept(writes[..|writes| - 1], keeps)
      + if keeps(writes[|writes| - 1].tries) then [writes[|writes| - 1].record] else []
  }

  lemma {:induction false} KeptGrows<R>(writes: seq<Write<R>>, fewer: (nat -> Try) -> bool, more: (nat -> Try) -> bool)
    requires forall t :: fewer(t) ==> more(t)
    ensures |Kept(writes, fewer)| <= |Kept(writes, more)|
    ensures |Kept(writes, fewer)| == |Kept(writes, more)| <==>
      forall i :: 0 <= i < |writes| && more(writes[i].tries) ==> fewer(writes[i].tries)
    ensures |Kept(writes, fewer)| == |Kept(writes, more)| ==> Kept(writes, fewer) == Kept(writes, more)
  {
    if writes != [] {
      var n := |writes| - 1;
      KeptGrows(writes[..n], fewer, more);
      assert forall i :: 0 <= i < n ==> writes[..n][i] == writes[i];
      assert more(writes[n].tries) && !fewer(writes[n].tries) ==> |Kept(writes, fewer)| < |Kept(writes, more)|;
    }
  }

  /** Rows and lines are each the records that got through, once and in order. */
  lemma {:induction false} FilesKeepOrder<R>(writes: seq<Write<R>>)
    ensures After(writes).rows == Kept(writes, t => RowStays(t))
    ensures After(writes).lines == Kept(writes, t => LineStays(t))
  {
    if writes != [] {
      FilesKeepOrder(writes[..|writes| - 1]);
    }
  }

  /** A write left a row behind but no line. */
  predicate LostLine(tries: nat -> Try) {
    RowStays(tries) && !LineStays(tries)
  }

  /**
   * Both files hold the same records in the same order exactly when no line was refused after its row was committed;
   * no pattern of lock errors can part them.
   */
  lemma FilesAgreeExactlyWithoutLostLines<R>(writes: seq<Write<R>>)
    ensures After(writes).rows == After(writes).lines <==>
      forall i :: 0 <= i < |writes| ==> !LostLine(writes[i].tries)
  {
    FilesKeepOrder(writes);
    KeptGrows(writes, t => LineStays(t), t => RowStays(t));
  }

  lemma {:induction false} Power2Monotone(a: nat, b: nat)
    requires a <= b
    ensures Power2(a) <= Power2(b)
  {
    if a < b {
      Power2Monotone(a, b - 1);
    }
  }

  /**
   * One record takes at most five attempts and 0.75 s of sleeping, which is used up exactly when four tries were
   * locked.
   */
  lemma RetryBudget<R>(f: Files<R>, record: R, tries: nat -> Try)
    ensures var f' := Recorded(f, record, tries);
      && 1 <= f'.attempts - f.attempts <= 5
      && f'.sleptMs - f.sleptMs <= 750
      && (f'.sleptMs - f.sleptMs == 750 <==> forall i :: 0 <= i < RETRIES ==> tries(i).Locked?)
  {
    FirstUnlockedIs(tries, 0);
    var n := Min(FirstUnlocked(tries, 0), RETRIES);
    assert Power2(4) == 16 && Power2(3) == 8;
    if n < RETRIES {
      Power2Monotone(n, 3);
      assert !tries(n).Locked?;
    }
  }

  /** Lock errors alone never lose a record that a later one of the five tries can commit. */
  lemma LocksLoseNothing<R>(f: Files<R>, record: R, tries: nat -> Try, n: nat)
    requires n <= RETRIES && tries(n) == Commits(false) && forall i :: 0 <= i < n ==> tries(i).Locked?
    ensures var f' := Recorded(f, record, tries); f'.rows == f.rows + [record] && f'.lines == f.lines + [record]
  {
    FirstUnlockedIs(tries, 0);
    assert FirstUnlocked(tries, 0) == n;
  }
}
