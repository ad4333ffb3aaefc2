/** Physical stream keys `base:partition` (market_data_redis_feed.py, market_data_partition.py). */
module StreamKeys {
  import opened Basics
  import opened Wrappers
  import opened Text

  /** IEEE CRC32 over the UTF-8 bytes of a string, left uninterpreted; only its range matters. */
  type Crc32 = string -> nat

  function Partition(crc: Crc32, symbol: string, count: int): (p: nat)
    requires count >= 1
    ensures p < count
  {
    crc(Strip(symbol)) % count
  }

  /** The partition is that of the trimmed symbol's hash, so padding never moves a symbol to another stream. */
  lemma PartitionIgnoresPadding(crc: Crc32, left: string, symbol: string, right: string, count: int)
    requires count >= 1 && Blank(left) && Blank(right)
    requires symbol == [] || (!IsSpace(symbol[0]) && !IsSpace(symbol[|symbol| - 1]))
    ensures Partition(crc, left + symbol + right, count) == crc(symbol) % count
  {
    StripUnpads(left, symbol, right);
  }

  predicate Increasing(s: seq<nat>) {
    forall i, j :: 0 <= i < j < |s| ==> s[i] < s[j]
  }

  function Members<T>(s: seq<T>): set<T> {
    set x | x in s
  }

  lemma MembersOfFront(s: seq<nat>)
    requires s != [] && Increasing(s)
    ensures Members(s[..|s| - 1]) == Members(s) - {s[|s| - 1]}
    ensures s[|s| - 1] in Members(s) && forall x :: x in Members(s) ==> x <= s[|s| - 1]
  {
    assert s == s[..|s| - 1] + [s[|s| - 1]];
  }

  /** A set of numbers has only one increasing listing, so the set's iteration order cannot show. */
  lemma {:induction false} IncreasingListingIsUnique(s: seq<nat>, t: seq<nat>)
    requires Increasing(s) && Increasing(t) && Members(s) == Members(t)
    ensures s == t
  {
    assert (s != [] ==> s[0] in Members(t)) && (t != [] ==> t[0] in Members(s));
    if s != [] {
      MembersOfFront(s);
      MembersOfFront(t);
      IncreasingListingIsUnique(s[..|s| - 1], t[..|t| - 1]);
      assert s == s[..|s| - 1] + [s[|s| - 1]] && t == t[..|t| - 1] + [t[|t| - 1]];
    }
  }

  lemma MembersConcat<T>(s: seq<T>, t: seq<T>)
    ensures Members(s + t) == Members(s) + Members(t)
  {
  }

  lemma AppendNew<T>(s: seq<T>, x: T)
    requires Distinct(s) && x !in Members(s)
    ensures Distinct(s + [x]) && Members(s + [x]) == Members(s) + {x}
  {
    assert forall i :: 0 <= i < |s| ==> s[i] in Members(s);
    MembersConcat(s, [x]);
  }

  /** The built-in `sorted` on distinct numbers below `bound`. */
  method Sorted(xs: seq<nat>, bound: nat) returns (r: seq<nat>)
    requires forall x :: x in xs ==> x < bound
    ensures Increasing(r) && Members(r) == Members(xs)
  {
    r := [];
    for p := 0 to bound
      invariant Increasing(r) && forall i :: 0 <= i < |r| ==> r[i] < p
      invariant forall x :: x in r <==> x in xs && x < p
    {
      if p in xs {
        r := r + [p];
      }
    }
  }

  function UpTo(n: nat): seq<nat> {
    seq(n, i => i)
  }

  /** The partitions a subscription must open: all of them, or those of the filtered symbols. */
  function Wanted(crc: Crc32, count: int, filter: Option<set<string>>): set<nat> {
    if count < 1 then {}
    else if filter.GetOr({}) == {} then Members(UpTo(count))
    else PartitionsOf(crc, filter.value, count)
  }

  function PartitionsOf(crc: Crc32, symbols: set<string>, count: int): set<nat>
    requires count >= 1
  {
    set symbol | symbol in symbols :: Partition(crc, symbol, count)
  }

  lemma PartitionsOfOneMore(crc: Crc32, symbols: set<string>, symbol: string, count: int)
    requires count >= 1
    ensures PartitionsOf(crc, symbols + {symbol}, count) == PartitionsOf(crc, symbols, count)
        + {Partition(crc, symbol, count)}
  {
  }

  method DistinctPartitions(crc: Crc32, symbols: set<string>, count: int) returns (ordered: seq<nat>)
    requires count >= 1
    ensures Distinct(ordered) && Members(ordered) == PartitionsOf(crc, symbols, count)
  {
    var rest := symbols;
    ghost var done: set<string> := {};
    var seen: set<nat>;
    seen, ordered := {}, [];
    while rest != {}
      invariant done + rest == symbols
      invariant Distinct(ordered) && Members(ordered) == seen
      invariant seen == PartitionsOf(crc, done, count)
      decreases rest
    {
      var symbol :| symbol in rest;
      var p := Partition(crc, symbol, count);
      PartitionsOfOneMore(crc, done, symbol, count);
      if p !in seen {
        AppendNew(ordered, p);
        seen, ordered := seen + {p}, ordered + [p];
      }
      rest, done := rest - {symbol}, done + {symbol};
    }
    assert done == symbols;
  }

  method PartitionsForRealtimeSubscribe(crc: Crc32, count: int, filter: Option<set<string>>) returns (r: seq<nat>)
    ensures Increasing(r) && Members(r) == Wanted(crc, count, filter)
  {
    if count < 1 {
      return [];
    }
    if filter.GetOr({}) == {} {
      r := [];
      for p := 0 to count
        invariant r == UpTo(p)
      {
        r := r + [p];
      }
      return;
    }
    var ordered := DistinctPartitions(crc, filter.value, count);
    assert forall x :: x in ordered ==> x in Members(ordered);
    r := Sorted(ordered, count);
  }

  function Key(base: string, p: nat): string {
    base + ":" + Decimal(p)
  }

  function KeysOf(base: string, parts: seq<nat>): seq<string> {
    seq(|parts|, i requires 0 <= i < |parts| => Key(base, parts[i]))
  }

  /** One base's keys after the other's, partitions in order. */
  function Expanded(bases: seq<string>, parts: seq<nat>): seq<string> {
    if bases == [] then []
    else Expanded(bases[..|bases| - 1], parts) + KeysOf(bases[|bases| - 1], parts)
  }

  /** `parts` lists the wanted partitions in increasing order. */
  predicate ListsWanted(crc: Crc32, count: int, filter: Option<set<string>>, parts: seq<nat>) {
    Increasing(parts) && Members(parts) == Wanted(crc, count, filter)
  }

  method ExpandMarketDataStreamKeys(crc: Crc32, bases: seq<string>, count: int, filter: Option<set<string>>)
    returns (out: seq<string>)
    ensures count < 1 ==> out == bases
    ensures count >= 1 ==> exists parts :: ListsWanted(crc, count, filter, parts) && out == Expanded(bases, parts)
  {
    if count < 1 {
      return bases;
    }
    var parts := PartitionsForRealtimeSubscribe(crc, count, filter);
    WantedIsNonEmpty(crc, count, filter);
    if parts == [] {
      return bases;
    }
    out := [];
    for b := 0 to |bases|
      invariant out == Expanded(bases[..b], parts)
    {
      ghost var before := out;
      for i := 0 to |parts|
        invariant out == before + KeysOf(bases[b], parts[..i])
      {
        out := out + [Key(bases[b], parts[i])];
        assert KeysOf(bases[b], parts[..i + 1]) == KeysOf(bases[b], parts[..i]) + [Key(bases[b], parts[i])];
      }
      assert parts[..|parts|] == parts;
      assert bases[..b + 1][..b] == bases[..b];
    }
    assert bases[..|bases|] == bases;
    assert ListsWanted(crc, count, filter, parts);
  }

  lemma WantedIsNonEmpty(crc: Crc32, count: int, filter: Option<set<string>>)
    requires count >= 1
    ensures Wanted(crc, count, filter) != {}
  {
    if filter.GetOr({}) == {} {
      assert UpTo(count)[0] in Members(UpTo(count));
    } else {
      var symbol :| symbol in filter.value;
      assert Partition(crc, symbol, count) in Wanted(crc, count, filter);
    }
  }

  // ----- Printed keys are unambiguous -----

  lemma KeyIsInjective(a: string, p: nat, b: string, q: nat)
    requires Key(a, p) == Key(b, q)
    ensures a == b && p == q
  {
    SplitAtLast(a, Decimal(p), b, Decimal(q), ':');
    DecimalInjective(p, q);
  }

  /** The keys are exactly `base:p` for the given bases and the given partitions. */
  lemma {:induction false} ExpandedKeysAreComplete(bases: seq<string>, parts: seq<nat>, key: string)
    ensures key in Expanded(bases, parts) <==>
      exists b, p :: b in bases && p in parts && key == Key(b, p)
  {
    if bases != [] {
      var init, last := bases[..|bases| - 1], bases[|bases| - 1];
      ExpandedKeysAreComplete(init, parts, key);
      assert bases == init + [last];
      assert key in KeysOf(last, parts) <==> exists p :: p in parts && key == Key(last, p) by {
        if p :| p in parts && key == Key(last, p) {
          var i :| 0 <= i < |parts| && parts[i] == p;
          assert KeysOf(last, parts)[i] == key;
        }
      }
    }
  }

  /** Distinct bases give pairwise distinct keys: no stream is read twice. */
  lemma {:induction false} ExpandedKeysAreDistinct(bases: seq<string>, parts: seq<nat>)
    requires Distinct(bases) && Increasing(parts)
    ensures Distinct(Expanded(bases, parts))
  {
    if bases != [] {
      var n := |bases| - 1;
      var front, back := Expanded(bases[..n], parts), KeysOf(bases[n], parts);
      ExpandedKeysAreDistinct(bases[..n], parts);
      forall i, j | 0 <= i < j < |front + back| ensures (front + back)[i] != (front + back)[j] {
        if i < |front| <= j {
          ExpandedKeysAreComplete(bases[..n], parts, front[i]);
          var b, p :| b in bases[..n] && p in parts && front[i] == Key(b, p);
          KeyClash(b, p, bases[n], parts[j - |front|]);
        } else if |front| <= i {
          KeyClash(bases[n], parts[i - |front|], bases[n], parts[j - |front|]);
        }
      }
    }
  }

  lemma KeyClash(a: string, p: nat, b: string, q: nat)
    ensures Key(a, p) == Key(b, q) <==> a == b && p == q
  {
    if Key(a, p) == Key(b, q) {
      KeyIsInjective(a, p, b, q);
    }
  }

  /**
   * A symbol's own stream of every base is read, whenever the filter names the symbol or there is none; with a filter
   * every stream that is read is that of some symbol in it.
   */
  lemma SubscribedExactly(crc: Crc32, bases: seq<string>, count: int, filter: Option<set<string>>, parts: seq<nat>,
      base: string, symbol: string, p: nat)
    requires count >= 1 && ListsWanted(crc, count, filter, parts) && base in bases
    ensures filter.GetOr({}) == {} || symbol in filter.value ==>
      Key(base, crc(Strip(symbol)) % count) in Expanded(bases, parts)
    ensures filter.GetOr({}) != {} ==>
      (Key(base, p) in Expanded(bases, parts) <==> exists s :: s in filter.value && crc(Strip(s)) % count == p)
  {
    hide Strip;
    var own := Partition(crc, symbol, count);
    ExpandedKeysAreComplete(bases, parts, Key(base, own));
    ExpandedKeysAreComplete(bases, parts, Key(base, p));
    if filter.GetOr({}) == {} {
      assert UpTo(count)[own] == own;
    }
    assert own in Members(parts) <==> own in parts;
    assert p in Members(parts) <==> p in parts;
    if b, q :| b in bases && q in parts && Key(base, p) == Key(b, q) {
      KeyIsInjective(base, p, b, q);
    }
  }

  // ----- Which feed a key belongs to -----

  /** The base `inner` is `outer` followed by ":...". */
  predicate Extends(inner: string, outer: string) {
    outer + ":" <= inner
  }

  predicate FeedMatches(stream: string, base: string) {
    stream == base || Extends(stream, base)
  }

  lemma KeyMatchesOwnBase(base: string, p: nat)
    ensures FeedMatches(Key(base, p), base)
  {
    assert Key(base, p)[..|base| + 1] == base + ":";
  }

  /** Exactly when a key of one base is also taken for a key of another. */
  lemma KeyMatchesOther(own: string, p: nat, other: string)
    ensures FeedMatches(Key(own, p), other) <==>
      other == own || Extends(own, other) || other == Key(own, p)
  {
    var key := Key(own, p);
    KeyMatchesOwnBase(own, p);
    if |other| < |own| {
      assert key[..|other| + 1] == own[..|other| + 1];
    } else if |other| == |own| {
      assert key[..|other|] == own;
      assert (other + ":")[..|other|] == other;
    } else if |other| < |key| {
      assert key[|other|] == Decimal(p)[|other| - |own| - 1];
      assert (other + ":")[|other|] == ':';
    }
  }

  /** When no base is another base followed by ":...", every key belongs to one feed only. */
  lemma KeyBelongsToOneFeed(own: string, p: nat, other: string)
    requires !Extends(own, other) && !Extends(other, own)
    ensures FeedMatches(Key(own, p), other) <==> other == own
  {
    KeyMatchesOther(own, p, other);
    KeyMatchesOwnBase(own, p);
  }
}
