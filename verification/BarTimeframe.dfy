/** Timeframe labels and the backtest ingress filter (bar_timeframe.py, backtest_replay_tick_filter.py). */
module BarTimeframe {
  import opened Text

  const ALIASES: set<string> := {"1min", "60s", "60sec", "m1"}

  function Unaliased(name: string): string {
    if name in ALIASES then "1m" else name
  }

  function NormalizeLabel(raw: string): string {
    Unaliased(Lower(Strip(raw)))
  }

  /** Only bars are ingested, and those of another timeframe than the expected one are not. */
  predicate SkipForIngest(eventType: string, timeframe: string, expected: string) {
    Lower(Strip(eventType)) != "market.bar"
        || (Strip(timeframe) != "" && NormalizeLabel(timeframe) != NormalizeLabel(expected))
  }

  // ----- Labels -----

  const MINUTE: set<string> := {"1m", "1min", "60s", "60sec", "m1"}

  /** Two labels name one timeframe when they differ in case and padding only, or are both names of the minute. */
  predicate SameTimeframe(a: string, b: string) {
    var x, y := Lower(Strip(a)), Lower(Strip(b));
    x == y || (x in MINUTE && y in MINUTE)
  }

  lemma NormalizedExactly(a: string, b: string)
    ensures NormalizeLabel(a) == NormalizeLabel(b) <==> SameTimeframe(a, b)
  {
    hide Strip, Lower;
  }

  /** A label up to padding and case. */
  ghost predicate Spells(text: string, name: string) {
    exists left, core, right ::
      Blank(left) && Blank(right) && text == left + core + right && Trimmed(core) && Lower(core) == name
  }

  predicate Trimmed(s: string) {
    s == [] || (!IsSpace(s[0]) && !IsSpace(s[|s| - 1]))
  }

  lemma SpelledOut(text: string, name: string)
    requires Spells(text, name)
    ensures Lower(Strip(text)) == name
  {
    hide Lower, Strip, Blank;
    var left, core, right :|
      Blank(left) && Blank(right) && text == left + core + right && Trimmed(core) && Lower(core) == name;
    StripUnpads(left, core, right);
  }

  /** All spellings of the minute's names are one timeframe; a spelling of five minutes is another one. */
  lemma MinuteAndFiveMinutes(a: string, b: string, x: string, y: string)
    requires Spells(a, x) && Spells(b, y) && x in MINUTE
    ensures y in MINUTE ==> SameTimeframe(a, b)
    ensures y == "5m" ==> !SameTimeframe(a, b)
  {
    hide Lower, Strip, Spells;
    SpelledOut(a, x);
    SpelledOut(b, y);
    FiveIsNoMinute();
  }

  lemma FiveIsNoMinute()
    ensures "5m" !in MINUTE && "5m" != "1m"
  {
    assert "5m"[0] == '5' && "1m"[0] == '1' && "1min"[0] == '1' && "60s"[0] == '6' && "60sec"[0] == '6'
        && "m1"[0] == 'm';
  }

  // ----- Normalizing twice -----

  lemma LowerIdempotent(s: string)
    ensures Lower(Lower(s)) == Lower(s)
  {
  }

  lemma LowerStaysTrimmed(s: string)
    requires s == [] || (!IsSpace(s[0]) && !IsSpace(s[|s| - 1]))
    ensures Strip(Lower(s)) == Lower(s)
  {
    var r := Lower(s);
    if s != [] {
      assert r[0] == LowerChar(s[0]) && r[|s| - 1] == LowerChar(s[|s| - 1]);
    }
    StripFixed(r);
  }

  lemma UnaliasedIdempotent(name: string)
    ensures Unaliased(Unaliased(name)) == Unaliased(name)
  {
    assert |"1m"| == 2 && "1m"[0] == '1' && "m1"[0] == 'm';
  }

  lemma OneMinuteIsNormal()
    ensures NormalizeLabel("1m") == "1m"
  {
    var name := "1m";
    assert name[0] == '1' && name[1] == 'm';
    StripFixed(name);
    assert Lower(name) == name;
    UnaliasedIdempotent("m1");
  }

  lemma OutsideAliases(name: string)
    requires Strip(name) == name && Lower(name) == name && name !in ALIASES
    ensures NormalizeLabel(name) == name
  {
  }

  /** A label is normalized in one go. */
  lemma NormalizeIdempotent(raw: string)
    ensures NormalizeLabel(NormalizeLabel(raw)) == NormalizeLabel(raw)
  {
    var trimmed := Strip(raw);
    LowerIdempotent(trimmed);
    LowerStaysTrimmed(trimmed);
    if Lower(trimmed) in ALIASES {
      OneMinuteIsNormal();
    } else {
      OutsideAliases(Lower(trimmed));
    }
  }

  /** How the expected timeframe is spelled makes no difference to what is skipped. */
  lemma SkipIgnoresSpelling(eventType: string, timeframe: string, expected: string)
    ensures SkipForIngest(eventType, timeframe, NormalizeLabel(expected))
        == SkipForIngest(eventType, timeframe, expected)
  {
    NormalizeIdempotent(expected);
  }
}
