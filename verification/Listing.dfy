/** Sorting names the way Python sorts strings, by code points. */
module Listing {
  import opened Basics

  predicate Less(a: string, b: string) {
    b != [] && (a == [] || a[0] < b[0] || (a[0] == b[0] && Less(a[1..], b[1..])))
  }

  /** The names agree before place i, where a ends or has the smaller character. */
  predicate DecidedAt(a: string, b: string, i: nat) {
    i <= |a| && i < |b| && a[..i] == b[..i] && (i == |a| || a[i] < b[i])
  }

  lemma DecidedLater(a: string, b: string, i: nat)
    requires a != [] && b != [] && a[0] == b[0]
    ensures DecidedAt(a[1..], b[1..], i) <==> DecidedAt(a, b, i + 1)
  {
    if i < |a| && i < |b| {
      assert a[..i + 1] == [a[0]] + a[1..][..i] && b[..i + 1] == [b[0]] + b[1..][..i];
    }
  }

  /** The first place where two names differ decides; a name comes before its continuations. */
  lemma {:induction false} LessExactly(a: string, b: string)
    ensures Less(a, b) <==> exists i :: DecidedAt(a, b, i)
  {
    if b != [] && a != [] && a[0] == b[0] {
      LessExactly(a[1..], b[1..]);
      if i: nat :| DecidedAt(a[1..], b[1..], i) {
        DecidedLater(a, b, i);
      }
      if i: nat :| DecidedAt(a, b, i) {
        assert i > 0;
        DecidedLater(a, b, i - 1);
      }
    } else if Less(a, b) {
      assert a[..0] == b[..0];
      assert DecidedAt(a, b, 0);
    } else {
      forall i: nat ensures !DecidedAt(a, b, i) {
        if 0 < i <= |a| && i < |b| {
          assert a[..i][0] == a[0] && b[..i][0] == b[0];
        }
      }
    }
  }

  lemma {:induction false} LessIrreflexive(a: string)
    ensures !Less(a, a)
  {
    if a != [] {
      LessIrreflexive(a[1..]);
    }
  }

  lemma {:induction false} LessTransitive(a: string, b: string, c: string)
    requires Less(a, b) && Less(b, c)
    ensures Less(a, c)
  {
    if a != [] && a[0] == b[0] == c[0] {
      LessTransitive(a[1..], b[1..], c[1..]);
    }
  }

  lemma {:induction false} LessTotal(a: string, b: string)
    ensures a == b || Less(a, b) || Less(b, a)
  {
    if a != [] && b != [] && a[0] == b[0] {
      LessTotal(a[1..], b[1..]);
      assert a == [a[0]] + a[1..] && b == [b[0]] + b[1..];
    }
  }

  /** A common prefix does not matter to the order. */
  lemma {:induction false} LessPrefix(p: string, a: string, b: string)
    ensures Less(p + a, p + b) <==> Less(a, b)
  {
    if p == [] {
      assert p + a == a && p + b == b;
    } else {
      assert (p + a)[1..] == p[1..] + a && (p + b)[1..] == p[1..] + b;
      LessPrefix(p[1..], a, b);
    }
  }

  /** Inserts by the key `prefix + name`. */
  function Insert(prefix: string, x: string, xs: seq<string>): seq<string> {
    if xs == [] then [x]
    else if Less(prefix + x, prefix + xs[0]) then [x] + xs
    else [xs[0]] + Insert(prefix, x, xs[1..])
  }

  function SortedBy(prefix: string, xs: seq<string>): seq<string> {
    if xs == [] then [] else Insert(prefix, xs[|xs| - 1], SortedBy(prefix, xs[..|xs| - 1]))
  }

  predicate Ascending(xs: seq<string>) {
    forall i, j :: 0 <= i < j < |xs| ==> Less(xs[i], xs[j])
  }

  lemma {:induction false} InsertIgnoresPrefix(prefix: string, x: string, xs: seq<string>)
    ensures Insert(prefix, x, xs) == Insert([], x, xs)
  {
    if xs != [] {
      LessPrefix(prefix, x, xs[0]);
      LessPrefix([], x, xs[0]);
      InsertIgnoresPrefix(prefix, x, xs[1..]);
    }
  }

  lemma {:induction false} SortIgnoresPrefix(prefix: string, xs: seq<string>)
    ensures SortedBy(prefix, xs) == SortedBy([], xs)
  {
    if xs != [] {
      SortIgnoresPrefix(prefix, xs[..|xs| - 1]);
      InsertIgnoresPrefix(prefix, xs[|xs| - 1], SortedBy([], xs[..|xs| - 1]));
    }
  }

  lemma {:induction false} InsertKeepsAscending(x: string, xs: seq<string>)
    requires Ascending(xs) && x !in xs
    ensures Ascending(Insert([], x, xs)) && multiset(Insert([], x, xs)) == multiset(xs) + multiset{x}
  {
    if xs != [] {
      var y, rest := xs[0], xs[1..];
      assert xs == [y] + rest;
      LessPrefix([], x, y);
      if Less(x, y) {
        forall i | 0 <= i < |xs| ensures Less(x, xs[i]) {
          if i > 0 {
            LessTransitive(x, y, xs[i]);
          }
        }
      } else {
        LessTotal(x, y);
        InsertKeepsAscending(x, rest);
        var r := Insert([], x, rest);
        forall i | 0 <= i < |r| ensures Less(y, r[i]) {
          assert r[i] in multiset(r);
          assert r[i] == x || r[i] in rest;
        }
      }
    }
  }

  lemma {:induction false} SortSorts(xs: seq<string>)
    requires Distinct(xs)
    ensures Ascending(SortedBy([], xs)) && multiset(SortedBy([], xs)) == multiset(xs)
  {
    if xs != [] {
      var before, last := xs[..|xs| - 1], xs[|xs| - 1];
      SortSorts(before);
      assert xs == before + [last];
      assert last !in before;
      assert last !in multiset(SortedBy([], before));
      InsertKeepsAscending(last, SortedBy([], before));
    }
  }

  lemma AscendingFirst(xs: seq<string>, ys: seq<string>)
    requires Ascending(xs) && Ascending(ys) && multiset(xs) == multiset(ys) && xs != []
    ensures ys != [] && xs[0] == ys[0]
  {
    assert xs[0] in multiset(ys);
    assert ys[0] in multiset(xs);
    if xs[0] != ys[0] {
      var i :| 0 <= i < |ys| && ys[i] == xs[0];
      var j :| 0 <= j < |xs| && xs[j] == ys[0];
      LessTransitive(xs[0], ys[0], xs[0]);
      LessIrreflexive(xs[0]);
    }
  }

  lemma {:induction false} AscendingIsUnique(xs: seq<string>, ys: seq<string>)
    requires Ascending(xs) && Ascending(ys) && multiset(xs) == multiset(ys)
    ensures xs == ys
  {
    if xs == [] {
      assert |multiset(ys)| == 0;
    } else {
      AscendingFirst(xs, ys);
      assert xs == [xs[0]] + xs[1..] && ys == [ys[0]] + ys[1..];
      assert multiset(xs[1..]) == multiset(xs) - multiset{xs[0]} == multiset(ys[1..]);
      AscendingIsUnique(xs[1..], ys[1..]);
    }
  }

  /** Sorting full paths below any two roots lists the same names in the same order. */
  lemma SortedListingsAgree(prefix: string, xs: seq<string>, prefix': string, ys: seq<string>)
    requires Distinct(xs) && Distinct(ys) && multiset(xs) == multiset(ys)
    ensures SortedBy(prefix, xs) == SortedBy(prefix', ys)
    ensures Ascending(SortedBy(prefix, xs)) && multiset(SortedBy(prefix, xs)) == multiset(xs)
  {
    SortIgnoresPrefix(prefix, xs);
    SortIgnoresPrefix(prefix', ys);
    SortSorts(xs);
    SortSorts(ys);
    AscendingIsUnique(SortedBy([], xs), SortedBy([], ys));
  }
}
