/** What a digest's bytes are and that they depend on every byte of every file. */
module DigestContents {
  import opened Basics
  import opened Wrappers
  import opened Listing
  import opened Digest

  /** A file's place in the bytes: after the files before it, its encoded name, a zero byte and what it holds. */
  lemma {:induction false} FileIsFed(encode: string -> Bytes, show: string -> string, t: Tree, names: seq<string>,
      i: nat)
    requires i < |names| && names[i] in t
    ensures Stream(encode, show, t, names)
         == Stream(encode, show, t, names[..i])
            + (encode(show(names[i])) + [0] + t[names[i]])
            + Stream(encode, show, t, names[i + 1..])
    ensures Stream(encode, show, t, []) == []
  {
    if i > 0 {
      FileIsFed(encode, show, t, names[1..], i - 1);
      assert names[1..][..i - 1] == names[..i][1..] && names[1..][i..] == names[i + 1..];
      assert names[..i][0] == names[0];
      Regroup(Block(encode, show(names[0]), Content(t, names[0])), Stream(encode, show, t, names[..i][1..]),
              encode(show(names[i])) + [0] + t[names[i]], Stream(encode, show, t, names[i + 1..]));
    } else {
      assert names[..0] == [];
      assert [] + (encode(show(names[0])) + [0] + t[names[0]]) == encode(show(names[0])) + [0] + t[names[0]];
    }
  }

  lemma Regroup(a: Bytes, b: Bytes, c: Bytes, d: Bytes)
    ensures a + (b + c + d) == (a + b) + c + d
  {
  }

  /** The names of a tree, each once and in ascending order. */
  ghost predicate InOrder(names: seq<string>, t: Tree) {
    Ascending(names) && forall p :: p in names <==> p in t
  }

  lemma ListedInOrder(prefix: string, walk: seq<string>, t: Tree)
    requires Lists(walk, t)
    ensures InOrder(SortedBy(prefix, walk), t)
  {
    SortedListingsAgree(prefix, walk, prefix, walk);
    SameMembers(SortedBy(prefix, walk), walk);
  }

  /** The files are fed in ascending order of their names, below any root and for any order of walking. */
  lemma DirectoryIsFedInOrder(encode: string -> Bytes, root: string, t: Tree, walk: seq<string>)
    returns (names: seq<string>)
    requires Lists(walk, t)
    ensures InOrder(names, t)
    ensures LoaderStream(encode, root, t, walk) == Stream(encode, Slashes, t, names)
    ensures VerifierStream(encode, root, t, walk) == Stream(encode, Same, t, names)
  {
    names := SortedBy(WithSeparator(root), walk);
    ListedInOrder(WithSeparator(root), walk, t);
  }

  // ----- Every byte counts -----

  predicate SameLengths(t: Tree, u: Tree, names: seq<string>) {
    forall i :: 0 <= i < |names| ==> names[i] in t && names[i] in u && |t[names[i]]| == |u[names[i]]|
  }

  predicate SameContents(t: Tree, u: Tree, names: seq<string>)
    requires SameLengths(t, u, names)
  {
    forall i :: 0 <= i < |names| ==> t[names[i]] == u[names[i]]
  }

  lemma EqualLengthsSplit(a: Bytes, x: Bytes, b: Bytes, y: Bytes)
    requires |a| == |b|
    ensures a + x == b + y <==> a == b && x == y
  {
    if a + x == b + y {
      assert a == (a + x)[..|a|] && b == (b + y)[..|b|];
      assert x == (a + x)[|a|..] && y == (b + y)[|b|..];
    }
  }

  lemma {:induction false} ContentsShow(encode: string -> Bytes, show: string -> string, t: Tree, u: Tree,
      names: seq<string>)
    requires SameLengths(t, u, names)
    ensures Stream(encode, show, t, names) == Stream(encode, show, u, names) <==> SameContents(t, u, names)
  {
    if names != [] {
      var first, rest := names[0], names[1..];
      assert forall i :: 0 <= i < |rest| ==> rest[i] == names[i + 1];
      ContentsShow(encode, show, t, u, rest);
      EqualLengthsSplit(Block(encode, show(first), t[first]), Stream(encode, show, t, rest),
                        Block(encode, show(first), u[first]), Stream(encode, show, u, rest));
      EqualLengthsSplit(encode(show(first)) + [0], t[first], encode(show(first)) + [0], u[first]);
      assert SameContents(t, u, names) <==> t[first] == u[first] && SameContents(t, u, rest) by {
        assert forall i :: 1 <= i < |names| ==> names[i] == rest[i - 1];
      }
    }
  }

  ghost predicate SameShape(t: Tree, u: Tree) {
    t.Keys == u.Keys && forall p :: p in t ==> |t[p]| == |u[p]|
  }

  lemma TreesByNames(t: Tree, u: Tree, names: seq<string>)
    requires SameShape(t, u) && InOrder(names, t)
    ensures SameLengths(t, u, names)
    ensures SameContents(t, u, names) <==> t == u
  {
    assert forall i :: 0 <= i < |names| ==> names[i] in names;
    if SameContents(t, u, names) {
      forall p | p in t ensures t[p] == u[p] {
        var i :| 0 <= i < |names| && names[i] == p;
      }
    }
  }

  /**
   * For trees with the same names and lengths, either digest's bytes are equal exactly when the trees are, whatever the
   * roots and the walks; and the loader's on the source equal the verifier's on a copy exactly when the copy is the
   * source, if no name holds a backslash.
   */
  lemma DirectoryBytesMeanTrees(encode: string -> Bytes, t: Tree, root: string, walk: seq<string>, u: Tree,
      otherRoot: string, otherWalk: seq<string>)
    requires Lists(walk, t) && Lists(otherWalk, u) && SameShape(t, u)
    ensures LoaderStream(encode, root, t, walk) == LoaderStream(encode, otherRoot, u, otherWalk) <==> t == u
    ensures VerifierStream(encode, root, t, walk) == VerifierStream(encode, otherRoot, u, otherWalk) <==> t == u
    ensures Encodes(encode) && NoNulNames(t) && CleanNames(t) ==>
      (LoaderStream(encode, root, t, walk) == VerifierStream(encode, otherRoot, u, otherWalk) <==> t == u)
  {
    var names := SortedBy(WithSeparator(root), walk);
    ListedInOrder(WithSeparator(root), walk, t);
    ListingsAreEqualAsMultisets(walk, otherWalk);
    SortedListingsAgree(WithSeparator(root), walk, WithSeparator(otherRoot), otherWalk);
    TreesByNames(t, u, names);
    ContentsShow(encode, Slashes, t, u, names);
    ContentsShow(encode, Same, t, u, names);
    if Encodes(encode) && NoNulNames(t) && CleanNames(t) {
      DirectoryDigestsAgree(encode, t, root, walk, otherRoot, otherWalk);
    }
  }

  /**
   * A single module: where source and faithful copy agree, the verifier's bytes of a copy with files of the same
   * lengths are the loader's exactly when every file in scope is the source's.
   */
  lemma FileBytesMeanFiles(encode: string -> Bytes, parent: string, dir: Tree, name: string, copy: Tree,
      scope: seq<string>)
    requires Encodes(encode) && name in dir && name != [] && NoNulNames(dir) && Resolved(parent)
    requires parent != "/" && !EndsInYaml(name) && forall p :: p in DigestNames(dir, name) ==> '\\' !in p
    requires Distinct(scope) && forall p :: p in scope <==> p in DigestNames(dir, name)
    requires forall p :: p in scope ==> p in dir && p in copy && |copy[p]| == |dir[p]|
    ensures Stream(encode, LoaderShows(parent), dir, SortedBy([], LoaderFiles(dir, name)))
         == Stream(encode, Same, copy, SortedBy([], scope))
      <==> forall p :: p in scope ==> copy[p] == dir[p]
  {
    hide DigestNames, LoaderFiles, EndsInYaml, Stream, SortedBy, Encodes;
    FileDigestsAgree(encode, parent, dir, name, scope);
    SortedListingsAgree([], scope, [], scope);
    SameMembers(SortedBy([], scope), scope);
    ScopedBytesMeanFiles(encode, dir, DigestNames(dir, name), copy, SortedBy([], scope));
  }

  lemma ScopedBytesMeanFiles(encode: string -> Bytes, dir: Tree, kept: set<string>, copy: Tree, names: seq<string>)
    requires forall p :: p in names ==> p in kept && p in dir && p in copy && |copy[p]| == |dir[p]|
    ensures Stream(encode, Same, OnlyFiles(dir, kept), names) == Stream(encode, Same, copy, names)
      <==> forall p :: p in names ==> copy[p] == dir[p]
  {
    hide Stream;
    assert forall i :: 0 <= i < |names| ==> names[i] in names;
    StreamOnCopy(encode, Same, dir, kept, names);
    ContentsShow(encode, Same, copy, dir, names);
    if SameContents(copy, dir, names) {
      forall p | p in names ensures copy[p] == dir[p] {
        var i :| 0 <= i < |names| && names[i] == p;
      }
    }
  }
}
