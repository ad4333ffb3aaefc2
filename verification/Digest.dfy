/**
 * Two digests of one artifact: of its source by the bundle loader (strategy_bundle_loader.py) and of the materialized
 * copy by the verifier (artifact_verifier.py, artifact_fetcher.py). A hasher is the bytes it was fed.
 */
module Digest {
  import opened Basics
  import opened Wrappers
  import opened Listing

  type byte = x: int | 0 <= x < 256

  type Bytes = seq<byte>

  /** The files of a directory tree by their path below its root, components joined by slashes. */
  type Tree = map<string, Bytes>

  const CHUNK: nat := 64 * 1024

  function Slashed(c: char): char {
    if c == '\\' then '/' else c
  }

  /** `str.replace("\\", "/")` */
  function Slashes(s: string): (r: string)
    ensures |r| == |s| && forall i :: 0 <= i < |s| ==> r[i] == if s[i] == '\\' then '/' else s[i]
  {
    seq(|s|, i requires 0 <= i < |s| => Slashed(s[i]))
  }

  function Block(encode: string -> Bytes, name: string, content: Bytes): Bytes {
    encode(name) + [0] + content
  }

  function Content(t: Tree, name: string): Bytes {
    if name in t then t[name] else []
  }

  /** The bytes fed for a list of files whose names are shown as `show` says. */
  function Stream(encode: string -> Bytes, show: string -> string, t: Tree, names: seq<string>): Bytes {
    if names == [] then []
    else Block(encode, show(names[0]), Content(t, names[0])) + Stream(encode, show, t, names[1..])
  }

  class Hasher {
    var fed: Bytes

    constructor ()
      ensures fed == []
    {
      fed := [];
    }

    method Update(data: Bytes)
      modifies this
      ensures fed == old(fed) + data
    {
      fed := fed + data;
    }
  }

  /** Reads and hashes chunk by chunk. */
  method HashFile(hasher: Hasher, content: Bytes)
    modifies hasher
    ensures hasher.fed == old(hasher.fed) + content
  {
    var position := 0;
    while true
      invariant 0 <= position <= |content| && hasher.fed == old(hasher.fed) + content[..position]
      decreases |content| - position
    {
      var end := if position + CHUNK <= |content| then position + CHUNK else |content|;
      var chunk := content[position..end];
      if chunk == [] {
        break;
      }
      hasher.Update(chunk);
      assert content[..end] == content[..position] + chunk;
      position := end;
    }
    assert content[..position] == content;
  }

  /** `walk` lists every file once, in any order. */
  ghost predicate Lists(walk: seq<string>, t: Tree) {
    Distinct(walk) && forall p :: p in walk <==> p in t
  }

  lemma StreamOneMore(encode: string -> Bytes, show: string -> string, t: Tree, names: seq<string>, i: nat)
    requires i < |names|
    ensures Stream(encode, show, t, names[..i + 1])
         == Stream(encode, show, t, names[..i]) + Block(encode, show(names[i]), Content(t, names[i]))
  {
    hide Block, Content;
    if i == 0 {
      assert names[..1][1..] == [] && names[..0] == [];
    } else {
      StreamOneMore(encode, show, t, names[1..], i - 1);
      assert names[..i + 1][1..] == names[1..][..i] && names[..i][1..] == names[1..][..i - 1];
    }
  }

  /** Streams of names that are shown alike are equal. */
  lemma {:induction false} ShownAlike(encode: string -> Bytes, f: string -> string, g: string -> string, t: Tree,
      names: seq<string>)
    requires forall i :: 0 <= i < |names| ==> f(names[i]) == g(names[i])
    ensures Stream(encode, f, t, names) == Stream(encode, g, t, names)
  {
    if names != [] {
      assert forall i :: 0 <= i < |names| - 1 ==> names[1..][i] == names[i + 1];
      ShownAlike(encode, f, g, t, names[1..]);
    }
  }

  function WithSeparator(root: string): string {
    if root != [] && root[|root| - 1] == '/' then root else root + ['/']
  }

  /** `path[k:]` */
  function From(path: string, k: nat): string {
    if k <= |path| then path[k..] else []
  }

  /** How the loader shows a name below a root: the full path without its first `cut` characters, with slashes. */
  function ShownBelow(root: string, cut: nat): string -> string {
    name => Slashes(From(WithSeparator(root) + name, cut))
  }

  // ----- Directories -----

  /** The loader's loop over full paths: the shown name, a zero byte, the content. */
  method HashListing(encode: string -> Bytes, root: string, cut: nat, t: Tree, names: seq<string>) returns (fed: Bytes)
    ensures fed == Stream(encode, ShownBelow(root, cut), t, names)
  {
    var hasher := new Hasher();
    for i := 0 to |names|
      invariant hasher.fed == Stream(encode, ShownBelow(root, cut), t, names[..i])
    {
      var path := WithSeparator(root) + names[i];
      HashShown(encode, hasher, From(path, cut), Content(t, names[i]));
      StreamOneMore(encode, ShownBelow(root, cut), t, names, i);
    }
    assert names[..|names|] == names;
    return hasher.fed;
  }

  method HashShown(encode: string -> Bytes, hasher: Hasher, rel: string, content: Bytes)
    modifies hasher
    ensures hasher.fed == old(hasher.fed) + Block(encode, Slashes(rel), content)
  {
    hasher.Update(encode(Slashes(rel)));
    hasher.Update([0]);
    hasher.Update(content);
  }

  /** `_tree_digest` of a directory. */
  method TreeDigest(encode: string -> Bytes, root: string, t: Tree, walk: seq<string>) returns (fed: Bytes)
    requires Lists(walk, t)
    ensures fed == Stream(encode, Slashes, t, SortedBy(WithSeparator(root), walk))
  {
    var prefix := WithSeparator(root);
    fed := HashListing(encode, root, |prefix|, t, SortedBy(prefix, walk));
    assert forall name :: From(prefix + name, |prefix|) == name;
    ShownAlike(encode, ShownBelow(root, |prefix|), Slashes, t, SortedBy(prefix, walk));
  }

  /** The part of a path before its first slash. */
  function Head(path: string): string {
    if path == [] || path[0] == '/' then [] else [path[0]] + Head(path[1..])
  }

  /** The first component of a path, or the whole path when it has only one. */
  lemma {:induction false} HeadIsFirstComponent(first: string, rest: string)
    requires '/' !in first
    ensures Head(first + "/" + rest) == first && Head(first) == first
  {
    if first != [] {
      assert (first + "/" + rest)[1..] == first[1..] + "/" + rest;
      HeadIsFirstComponent(first[1..], rest);
    } else {
      assert first + "/" + rest == "/" + rest;
    }
  }

  class ArtifactDirectory {
    var files: Tree

    constructor (files: Tree)
      ensures this.files == files
    {
      this.files := files;
    }

    /** `_materialize` of a directory: the target is cleared, then every entry is copied with all below it. */
    method Materialize(source: Tree, entries: seq<string>)
      requires forall p :: p in source ==> Head(p) in entries
      modifies this
      ensures files == source
    {
      files := map[];
      for i := 0 to |entries|
        invariant files == map p | p in source && Head(p) in entries[..i] :: source[p]
      {
        files := files + map p | p in source && Head(p) == entries[i] :: source[p];
        assert entries[..i + 1] == entries[..i] + [entries[i]];
      }
      assert entries[..|entries|] == entries;
    }

    /** `_materialize` of a single file, with the parameter file found next to it. */
    method MaterializeFile(source: Tree, name: string)
      requires name in source
      modifies this
      ensures files == OnlyFiles(source, DigestNames(source, name))
    {
      files := map[name := source[name]];
      var sibling := DiscoverParams(source, name);
      if sibling.Some? {
        files := files[sibling.value := source[sibling.value]];
      }
    }

    /** `_compute_digest` without a scope. */
    method ComputeDigest(encode: string -> Bytes, root: string, walk: seq<string>) returns (fed: Bytes)
      requires Lists(walk, files)
      ensures fed == Stream(encode, Same, files, SortedBy(WithSeparator(root), walk))
    {
      var listed := SortedBy(WithSeparator(root), walk);
      fed := HashNames(encode, listed);
    }

    /** `_compute_digest` of the files in scope; None when one of them is missing. */
    method ComputeScopedDigest(encode: string -> Bytes, scope: seq<string>) returns (fed: Option<Bytes>)
      requires Distinct(scope)
      ensures fed == if forall p :: p in scope ==> p in files
          then Some(Stream(encode, Same, files, SortedBy([], scope))) else None
    {
      SortSorts(scope);
      var listed := SortedBy([], scope);
      forall p ensures p in listed <==> p in scope {
        assert p in multiset(listed) <==> p in multiset(scope);
      }
      var hasher := new Hasher();
      for i := 0 to |listed|
        invariant hasher.fed == Stream(encode, Same, files, listed[..i])
        invariant forall k :: 0 <= k < i ==> listed[k] in files
      {
        if listed[i] !in files {
          return None;
        }
        HashNamed(encode, hasher, listed[i]);
        StreamOneMore(encode, Same, files, listed, i);
      }
      assert listed[..|listed|] == listed;
      return Some(hasher.fed);
    }

    method HashNamed(encode: string -> Bytes, hasher: Hasher, name: string)
      modifies hasher
      ensures hasher.fed == old(hasher.fed) + Block(encode, name, Content(files, name))
    {
      hasher.Update(encode(name));
      hasher.Update([0]);
      HashFile(hasher, Content(files, name));
    }

    method HashNames(encode: string -> Bytes, names: seq<string>) returns (fed: Bytes)
      ensures fed == Stream(encode, Same, files, names)
    {
      var hasher := new Hasher();
      for i := 0 to |names|
        invariant hasher.fed == Stream(encode, Same, files, names[..i])
      {
        HashNamed(encode, hasher, names[i]);
        StreamOneMore(encode, Same, files, names, i);
      }
      assert names[..|names|] == names;
      return hasher.fed;
    }
  }

  function Same(s: string): string {
    s
  }

  // ----- Single files -----

  const YAML: string := ".yaml"

  const LEGACY_PARAMS: string := "params.yaml"

  /** The index of the last dot, or the length when there is none. */
  function LastDot(name: string, i: nat): nat
    requires i <= |name|
  {
    if i == 0 then |name| else if name[i - 1] == '.' then i - 1 else LastDot(name, i - 1)
  }

  /** A name without its suffix; a leading or final dot starts none. */
  function Stem(name: string): string {
    var dot := LastDot(name, |name|);
    if 0 < dot < |name| - 1 then name[..dot] else name
  }

  /** The parameter file of a module: the one with its stem, else the legacy one. */
  function DiscoverParams(dir: Tree, name: string): (r: Option<string>)
    ensures r.Some? ==> r.value in dir
  {
    if Stem(name) + YAML in dir then Some(Stem(name) + YAML)
    else if LEGACY_PARAMS in dir then Some(LEGACY_PARAMS)
    else None
  }

  function DigestNames(dir: Tree, name: string): set<string> {
    match DiscoverParams(dir, name)
    case None => {name}
    case Some(y) => {name, y}
  }

  function OnlyFiles(dir: Tree, names: set<string>): Tree {
    map p | p in names && p in dir :: dir[p]
  }

  /** `_tree_digest` of a single file: a list of files, in which the module may occur twice. */
  function LoaderFiles(dir: Tree, name: string): seq<string> {
    match DiscoverParams(dir, name)
    case None => [name]
    case Some(y) => [name, y]
  }

  /** The text of a resolved path: only the filesystem root ends in a slash. */
  predicate Resolved(path: string) {
    path != [] && (path[|path| - 1] == '/' ==> path == "/")
  }

  /** A name without its first character, with slashes. */
  function Beheaded(name: string): string {
    Slashes(From(name, 1))
  }

  function LoaderShows(parent: string): string -> string {
    if parent == "/" then Beheaded else Slashes
  }

  /**
   * The loader cuts one character more than the parent has, but below the filesystem root there is no further
   * separator: a name there loses its first character.
   */
  method FileTreeDigest(encode: string -> Bytes, parent: string, dir: Tree, name: string) returns (fed: Bytes)
    requires name in dir && Resolved(parent)
    ensures fed == Stream(encode, LoaderShows(parent), dir, SortedBy([], LoaderFiles(dir, name)))
  {
    var files := [name];
    var params := DiscoverParams(dir, name);
    if params.Some? {
      files := files + [params.value];
    }
    assert files == LoaderFiles(dir, name);
    fed := HashListing(encode, parent, |parent| + 1, dir, SortedBy([], files));
    forall n ensures ShownBelow(parent, |parent| + 1)(n) == LoaderShows(parent)(n) {
      CutIsSeparator(parent, n);
    }
    ShownAlike(encode, ShownBelow(parent, |parent| + 1), LoaderShows(parent), dir, SortedBy([], files));
  }

  lemma CutIsSeparator(parent: string, name: string)
    requires Resolved(parent)
    ensures From(WithSeparator(parent) + name, |parent| + 1) == if parent == "/" then From(name, 1) else name
  {
    var path := WithSeparator(parent) + name;
    if parent == "/" {
      assert |name| >= 1 ==> path[2..] == name[1..];
    } else {
      assert path[|parent| + 1..] == name;
    }
  }

  // ----- Agreement -----

  /** An encoding that tells names apart and uses no zero byte for a name without a zero character. */
  ghost predicate Encodes(encode: string -> Bytes) {
    && (forall s, t :: encode(s) == encode(t) ==> s == t)
    && (forall s :: '\0' !in s ==> 0 !in encode(s))
  }

  predicate NoNul(names: seq<string>) {
    forall i :: 0 <= i < |names| ==> '\0' !in names[i]
  }

  predicate NoBackslash(names: seq<string>) {
    forall i :: 0 <= i < |names| ==> '\\' !in names[i]
  }

  lemma SlashesKeep(s: string)
    ensures Slashes(s) == s <==> '\\' !in s
    ensures '\0' !in s ==> '\0' !in Slashes(s)
  {
    if Slashes(s) == s {
      forall i | 0 <= i < |s| ensures s[i] != '\\' {
        assert Slashes(s)[i] == Slashed(s[i]);
      }
    }
  }

  /** Up to their first zero byte two streams that are equal have equal names. */
  lemma FirstZero(a: Bytes, x: Bytes, b: Bytes, y: Bytes)
    requires 0 !in a && 0 !in b && a + [0] + x == b + [0] + y
    ensures a == b && x == y
  {
    var s := a + [0] + x;
    assert s[|a|] == 0 && s[|b|] == 0;
    assert forall i :: 0 <= i < |a| ==> s[i] == a[i];
    assert forall i :: 0 <= i < |b| ==> s[i] == b[i];
    assert |a| == |b|;
    assert a == s[..|a|] && b == s[..|b|];
    assert x == s[|a| + 1..] && y == s[|b| + 1..];
  }

  lemma BlocksAgree(a: Bytes, x: Bytes, b: Bytes, y: Bytes, content: Bytes)
    requires 0 !in a && 0 !in b
    ensures a + [0] + content + x == b + [0] + content + y <==> a == b && x == y
  {
    assert a + [0] + content + x == a + [0] + (content + x);
    assert b + [0] + content + y == b + [0] + (content + y);
    if a + [0] + content + x == b + [0] + content + y {
      FirstZero(a, content + x, b, content + y);
      assert x == (content + x)[|content|..] && y == (content + y)[|content|..];
    }
  }

  /** Showing names with slashes gives the same stream exactly when no name has a backslash. */
  lemma {:induction false} StreamsAgree(encode: string -> Bytes, t: Tree, names: seq<string>)
    requires Encodes(encode) && NoNul(names)
    ensures Stream(encode, Slashes, t, names) == Stream(encode, Same, t, names) <==> NoBackslash(names)
  {
    if names != [] {
      var first, rest := names[0], names[1..];
      assert forall i :: 0 <= i < |rest| ==> rest[i] == names[i + 1];
      assert NoBackslash(names) <==> '\\' !in first && NoBackslash(rest) by {
        assert forall i :: 1 <= i < |names| ==> names[i] == rest[i - 1];
      }
      StreamsAgree(encode, t, rest);
      SlashesKeep(first);
      BlocksAgree(encode(Slashes(first)), Stream(encode, Slashes, t, rest),
                  encode(first), Stream(encode, Same, t, rest), Content(t, first));
    }
  }

  /** What the loader and the verifier feed their hashers for a directory, whatever the roots and the walks. */
  function LoaderStream(encode: string -> Bytes, root: string, t: Tree, walk: seq<string>): Bytes {
    Stream(encode, Slashes, t, SortedBy(WithSeparator(root), walk))
  }

  function VerifierStream(encode: string -> Bytes, root: string, t: Tree, walk: seq<string>): Bytes {
    Stream(encode, Same, t, SortedBy(WithSeparator(root), walk))
  }

  lemma {:induction false} DistinctCount(xs: seq<string>, x: string)
    requires Distinct(xs)
    ensures multiset(xs)[x] == if x in xs then 1 else 0
  {
    if xs != [] {
      var n := |xs| - 1;
      assert xs == xs[..n] + [xs[n]];
      DistinctCount(xs[..n], x);
    }
  }

  lemma ListingsAreEqualAsMultisets(xs: seq<string>, ys: seq<string>)
    requires Distinct(xs) && Distinct(ys) && forall x :: x in xs <==> x in ys
    ensures multiset(xs) == multiset(ys)
  {
    forall x ensures multiset(xs)[x] == multiset(ys)[x] {
      DistinctCount(xs, x);
      DistinctCount(ys, x);
    }
  }

  lemma SameMembers(xs: seq<string>, ys: seq<string>)
    requires multiset(xs) == multiset(ys)
    ensures forall x :: x in xs <==> x in ys
  {
    forall x ensures x in xs <==> x in ys {
      assert x in multiset(xs) <==> x in multiset(ys);
    }
  }

  ghost predicate CleanNames(t: Tree) {
    forall p :: p in t ==> '\\' !in p
  }

  ghost predicate NoNulNames(t: Tree) {
    forall p :: p in t ==> '\0' !in p
  }

  /** A directory's source and its copy have the same digest input exactly when no file name holds a backslash. */
  lemma DirectoryDigestsAgree(
    encode: string -> Bytes, source: Tree, sourceRoot: string, walk: seq<string>, copyRoot: string,
        copyWalk: seq<string>)
    requires Encodes(encode) && NoNulNames(source) && Lists(walk, source) && Lists(copyWalk, source)
    ensures LoaderStream(encode, sourceRoot, source, walk) == VerifierStream(encode, copyRoot, source, copyWalk)
      <==> CleanNames(source)
  {
    ListingsAreEqualAsMultisets(walk, copyWalk);
    SortedListingsAgree(WithSeparator(sourceRoot), walk, WithSeparator(copyRoot), copyWalk);
    var names := SortedBy(WithSeparator(sourceRoot), walk);
    SameMembers(names, walk);
    StreamsAgree(encode, source, names);
    if NoBackslash(names) {
      forall p | p in source ensures '\\' !in p {
        assert p in names;
      }
    }
  }

  predicate EndsInYaml(name: string) {
    |name| > |YAML| && name[|name| - |YAML|..] == YAML
  }

  lemma StemOfYaml(name: string)
    requires EndsInYaml(name)
    ensures Stem(name) + YAML == name
  {
    var n := |name|;
    assert name[n - 5..][0] == '.' && name[n - 5..][1] == 'y' && name[n - 5..][2] == 'a' && name[n - 5..][3] == 'm'
        && name[n - 5..][4] == 'l';
    assert LastDot(name, n) == LastDot(name, n - 1) == LastDot(name, n - 2);
    assert LastDot(name, n - 2) == LastDot(name, n - 3) == LastDot(name, n - 4) == n - 5;
    assert name == name[..n - 5] + name[n - 5..];
  }

  lemma {:induction false} LastDotBounds(name: string, i: nat)
    requires i <= |name|
    ensures LastDot(name, i) <= |name|
  {
    if i > 0 {
      LastDotBounds(name, i - 1);
    }
  }

  lemma StemIsNotEmpty(name: string)
    requires name != []
    ensures Stem(name) != []
  {
    LastDotBounds(name, |name|);
  }

  /** A module is its own parameter file exactly when it is a YAML file. */
  lemma OwnParamsExactlyYaml(dir: Tree, name: string)
    requires name in dir && name != []
    ensures DiscoverParams(dir, name) == Some(name) <==> EndsInYaml(name)
  {
    if EndsInYaml(name) {
      StemOfYaml(name);
    } else {
      StemIsNotEmpty(name);
      assert (Stem(name) + YAML)[|Stem(name)|..] == YAML;
      LegacyEndsInYaml();
    }
  }

  lemma {:induction false} LastDotBefore(base: string, suffix: string, i: nat)
    requires '.' !in suffix && |base| < i <= |base| + 1 + |suffix|
    ensures LastDot(base + "." + suffix, i) == |base|
    decreases i
  {
    var name := base + "." + suffix;
    if i == |base| + 1 {
      assert name[|base|] == '.';
    } else {
      assert name[i - 1] == suffix[i - 2 - |base|];
      LastDotBefore(base, suffix, i - 1);
    }
  }

  /** The parameter file of `base.suffix` is `base.yaml` if there is one next to it, else `params.yaml`, else none. */
  lemma ParamsOfModule(dir: Tree, base: string, suffix: string)
    requires base != [] && suffix != [] && '.' !in suffix
    ensures DiscoverParams(dir, base + "." + suffix) ==
      if base + ".yaml" in dir then Some(base + ".yaml")
      else if "params.yaml" in dir then Some("params.yaml")
      else None
  {
    var name := base + "." + suffix;
    LastDotBefore(base, suffix, |name|);
    assert name[..|base|] == base;
  }

  lemma LegacyEndsInYaml()
    ensures EndsInYaml(LEGACY_PARAMS)
  {
    var name := LEGACY_PARAMS;
    assert name[6..] == YAML by {
      assert name[6] == '.' && name[7] == 'y' && name[8] == 'a' && name[9] == 'm' && name[10] == 'l';
    }
  }

  lemma {:induction false} StreamOnCopy(encode: string -> Bytes, show: string -> string, dir: Tree, kept: set<string>,
      names: seq<string>)
    requires forall i :: 0 <= i < |names| ==> names[i] in kept
    ensures Stream(encode, show, OnlyFiles(dir, kept), names) == Stream(encode, show, dir, names)
  {
    if names != [] {
      assert names[0] in kept;
      assert forall i :: 0 <= i < |names| - 1 ==> names[1..][i] == names[i + 1];
      StreamOnCopy(encode, show, dir, kept, names[1..]);
    }
  }

  /** A file hashed twice is not the same as once. */
  lemma HashedTwiceDiffers(encode: string -> Bytes, t: Tree, name: string)
    requires Encodes(encode) && '\0' !in name
    ensures SortedBy([], [name, name]) == [name, name]
    ensures Stream(encode, Slashes, t, [name, name]) != Stream(encode, Same, t, [name])
  {
    assert [name, name][..1] == [name] && [name][..0] == [];
    LessIrreflexive(name);
    LessPrefix([], name, name);
    assert [name, name][1..] == [name] && [name][1..] == [];
    assert SortedBy([], [name]) == Insert([], name, []) == [name];
    assert Insert([], name, [name]) == [name] + Insert([], name, []) == [name, name];
    SlashesKeep(name);
    var once := Stream(encode, Slashes, t, [name]);
    assert |once| > 0;
    var content, two, one := Content(t, name), [name, name], [name];
    assert two[1..] == one && one[1..] == [];
    assert Stream(encode, Slashes, t, two) == Block(encode, Slashes(name), content) + once;
    assert Stream(encode, Same, t, one) == Block(encode, name, content) + Stream(encode, Same, t, one[1..]);
    BlocksAgree(encode(Slashes(name)), once, encode(name), Stream(encode, Same, t, one[1..]), content);
  }

  lemma DistinctFilesAgree(encode: string -> Bytes, dir: Tree, kept: set<string>, files: seq<string>,
      scope: seq<string>)
    requires Encodes(encode) && forall p :: p in kept ==> '\0' !in p
    requires Distinct(files) && forall p :: p in files <==> p in kept
    requires Distinct(scope) && forall p :: p in scope <==> p in kept
    ensures Stream(encode, Slashes, dir, SortedBy([], files))
        == Stream(encode, Same, OnlyFiles(dir, kept), SortedBy([], scope))
      <==> forall p :: p in kept ==> '\\' !in p
  {
    ListingsAreEqualAsMultisets(files, scope);
    SortedListingsAgree([], files, [], scope);
    var names := SortedBy([], files);
    SameMembers(names, files);
    StreamOnCopy(encode, Same, dir, kept, names);
    StreamsAgree(encode, dir, names);
    if NoBackslash(names) {
      forall p | p in kept ensures '\\' !in p {
        assert p in names;
      }
    }
  }

  /** In the filesystem root the first name is shown too short, whatever comes after it. */
  lemma RootDiffers(encode: string -> Bytes, t: Tree, copy: Tree, names: seq<string>, others: seq<string>)
    requires Encodes(encode) && names != [] && others != [] && names[0] == others[0] != [] && '\0' !in names[0]
    requires Content(t, names[0]) == Content(copy, names[0])
    ensures Stream(encode, Beheaded, t, names) != Stream(encode, Same, copy, others)
  {
    var first := names[0];
    SlashesKeep(From(first, 1));
    assert |Beheaded(first)| < |first|;
    BlocksAgree(encode(Beheaded(first)), Stream(encode, Beheaded, t, names[1..]),
                encode(first), Stream(encode, Same, copy, others[1..]), Content(t, first));
  }

  lemma YamlFileDiffers(encode: string -> Bytes, parent: string, dir: Tree, name: string)
    requires Encodes(encode) && name in dir && name != [] && '\0' !in name
    ensures Stream(encode, LoaderShows(parent), dir, SortedBy([], [name, name]))
         != Stream(encode, Same, OnlyFiles(dir, {name}), [name])
  {
    HashedTwiceDiffers(encode, dir, name);
    if parent == "/" {
      RootDiffers(encode, dir, OnlyFiles(dir, {name}), [name, name], [name]);
    } else {
      StreamOnCopy(encode, Same, dir, {name}, [name]);
    }
  }

  lemma DistinctRootFilesDiffer(encode: string -> Bytes, dir: Tree, kept: set<string>, files: seq<string>,
      scope: seq<string>)
    requires Encodes(encode) && files != [] && forall p :: p in kept ==> p != [] && '\0' !in p
    requires Distinct(files) && forall p :: p in files <==> p in kept
    requires Distinct(scope) && forall p :: p in scope <==> p in kept
    ensures Stream(encode, Beheaded, dir, SortedBy([], files))
         != Stream(encode, Same, OnlyFiles(dir, kept), SortedBy([], scope))
  {
    ListingsAreEqualAsMultisets(files, scope);
    SortedListingsAgree([], files, [], scope);
    var names := SortedBy([], files);
    SameMembers(names, files);
    assert files[0] in names;
    assert names[0] in kept;
    RootDiffers(encode, dir, OnlyFiles(dir, kept), names, SortedBy([], scope));
  }

  lemma DigestNamesAreNotEmpty(dir: Tree, name: string)
    requires name != []
    ensures forall p :: p in DigestNames(dir, name) ==> p != []
  {
    assert |YAML| == 5 && |LEGACY_PARAMS| == 11;
  }

  /**
   * A single module's source and its copy have the same digest input exactly when it does not lie in the filesystem
   * root, is no YAML file itself and neither its name nor its parameter file's holds a backslash.
   */
  lemma FileDigestsAgree(encode: string -> Bytes, parent: string, dir: Tree, name: string, scope: seq<string>)
    requires Encodes(encode) && name in dir && name != [] && NoNulNames(dir) && Resolved(parent)
    requires Distinct(scope) && forall p :: p in scope <==> p in DigestNames(dir, name)
    ensures Stream(encode, LoaderShows(parent), dir, SortedBy([], LoaderFiles(dir, name)))
         == Stream(encode, Same, OnlyFiles(dir, DigestNames(dir, name)), SortedBy([], scope))
      <==> parent != "/" && !EndsInYaml(name) && forall p :: p in DigestNames(dir, name) ==> '\\' !in p
  {
    OwnParamsExactlyYaml(dir, name);
    if EndsInYaml(name) {
      assert LoaderFiles(dir, name) == [name, name] && DigestNames(dir, name) == {name};
      ListingsAreEqualAsMultisets(scope, [name]);
      SortedListingsAgree([], scope, [], [name]);
      assert [name][..0] == [];
      assert SortedBy([], [name]) == [name];
      YamlFileDiffers(encode, parent, dir, name);
    } else if parent == "/" {
      DigestNamesAreNotEmpty(dir, name);
      DistinctRootFilesDiffer(encode, dir, DigestNames(dir, name), LoaderFiles(dir, name), scope);
    } else {
      DistinctFilesAgree(encode, dir, DigestNames(dir, name), LoaderFiles(dir, name), scope);
    }
  }
}
