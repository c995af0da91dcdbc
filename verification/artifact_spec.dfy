/**
 The plain identity of an artifact tree, free of caches, budgets and traversal order: which
 regular files it holds, and under which limits hashing it may succeed.
 A directory is a map from names to nodes, so listing order is not part of a tree.
 */
module ArtifactSpec {
  import opened Basics
  import Ordering
  import Text

  type Bytes = seq<bv8>

  /** The stat fields that must not change between observations. */
  datatype Stat = Stat(dev: nat, ino: nat, mode: nat, size: nat, mtimeNs: int, ctimeNs: int, nlink: nat)

  datatype Node =
    | File(stat: Stat, content: Bytes)
    | Directory(children: map<string, Node>)
    | Link
    | Special

  const HARD_MAX_FILES: nat := 100_000
  const HARD_MAX_TOTAL_BYTES: nat := 2_199_023_255_552
  const HARD_MAX_DEPTH: nat := 64
  const HARD_MAX_FILE_BYTES: nat := 2_199_023_255_552

  datatype Limits = Limits(maxFiles: nat, maxTotalBytes: nat, maxDepth: nat, maxFileBytes: nat)
  {
    predicate Valid() {
      && 0 < maxFiles <= HARD_MAX_FILES && 0 < maxTotalBytes <= HARD_MAX_TOTAL_BYTES
      && 0 < maxDepth <= HARD_MAX_DEPTH && 0 < maxFileBytes <= HARD_MAX_FILE_BYTES
    }
  }

  /** What every stable file system guarantees: sizes are content lengths, names hold no slash. */
  predicate OnDisk(node: Node) {
    match node
    case File(stat, content) => |content| == stat.size
    case Directory(children) => forall name | name in children :: '/' !in name && OnDisk(children[name])
    case Link => true
    case Special => true
  }

  // ----- the files of a tree

  /** One regular file, with the names leading to it. */
  datatype FileRecord = FileRecord(parts: seq<string>, stat: Stat, content: Bytes)

  function Self(s: string): string { s }

  ghost function Enumerate(names: set<string>): (s: seq<string>)
    ensures forall x :: x in s <==> x in names
    ensures Ordering.DistinctKeys(s, Self)
    ensures |s| == |names|
  {
    if names == {} then [] else
      var x :| x in names;
      var rest := Enumerate(names - {x});
      assert forall i | 0 <= i < |rest| :: rest[i] in rest;
      [x] + rest
  }

  /** The names of a directory in the order the walk visits them. */
  ghost function SortedNames(names: set<string>): (s: seq<string>)
    ensures forall x :: x in s <==> x in names
    ensures Ordering.Canonical(s, Self)
    ensures |s| == |names|
  {
    Ordering.SortCanonical(Enumerate(names), Self);
    Ordering.Sort(Enumerate(names), Self)
  }

  ghost function FilesAt(node: Node, parts: seq<string>): seq<FileRecord>
    decreases node
  {
    match node
    case File(stat, content) => [FileRecord(parts, stat, content)]
    case Directory(children) => FilesIn(node, SortedNames(children.Keys), parts)
    case Link => []
    case Special => []
  }

  /** The files below the given names of a directory, name by name. */
  ghost function FilesIn(dir: Node, names: seq<string>, parts: seq<string>): seq<FileRecord>
    requires dir.Directory? && forall n | n in names :: n in dir.children
    decreases dir, |names|
  {
    if names == [] then []
    else FilesIn(dir, names[..|names| - 1], parts)
         + FilesAt(dir.children[names[|names| - 1]], parts + [names[|names| - 1]])
  }

  /** Directory entries of every kind, at every level. */
  ghost function EntriesAt(node: Node): nat
    decreases node
  {
    if node.Directory? then |node.children| + EntriesIn(node, SortedNames(node.children.Keys)) else 0
  }

  ghost function EntriesIn(dir: Node, names: seq<string>): nat
    requires dir.Directory? && forall n | n in names :: n in dir.children
    decreases dir, |names|
  {
    if names == [] then 0
    else EntriesIn(dir, names[..|names| - 1]) + EntriesAt(dir.children[names[|names| - 1]])
  }

  // ----- conditions on the shape

  predicate NameOk(name: string) { name != "" && name != "." && name != ".." }

  /** Only real directories and regular files, with usable names. */
  predicate ShapeOk(node: Node) {
    match node
    case File(_, _) => true
    case Directory(children) => forall name | name in children :: NameOk(name) && ShapeOk(children[name])
    case Link => false
    case Special => false
  }

  /** No entry lies deeper than `maxDepth` levels below a directory at `depth`. */
  predicate DepthOk(node: Node, depth: nat, maxDepth: nat) {
    node.Directory? ==>
      forall name | name in node.children :: depth < maxDepth && DepthOk(node.children[name], depth + 1, maxDepth)
  }

  /** The path text holds no backslash and no NUL. */
  predicate PathOk(parts: seq<string>) {
    forall i | 0 <= i < |parts| :: '\\' !in parts[i] && '\0' !in parts[i]
  }

  // ----- conditions on the bytes, file by file

  function SumSizes(fs: seq<FileRecord>): nat {
    if fs == [] then 0 else SumSizes(fs[..|fs| - 1]) + fs[|fs| - 1].stat.size
  }

  /** The hard-link identity, when a file has one. */
  function LinkKey(s: Stat): Option<(nat, nat)> {
    if s.dev != 0 && s.ino != 0 && s.nlink > 1 then Some((s.dev, s.ino)) else None
  }

  /** Some file of `seen` is the same inode. */
  predicate Cached(seen: seq<FileRecord>, s: Stat) {
    LinkKey(s).Some? && exists i | 0 <= i < |seen| :: LinkKey(seen[i].stat) == LinkKey(s)
  }

  /** Files met under the same inode so far had exactly these stat fields. */
  predicate AgreesWith(seen: seq<FileRecord>, s: Stat) {
    forall i | 0 <= i < |seen| :: LinkKey(s).Some? && LinkKey(seen[i].stat) == LinkKey(s) ==> seen[i].stat == s
  }

  /** The file may follow `seen` within the limits. An inode met for the first time needs at
      least one byte of budget left, even when it is empty. */
  predicate StepOk(seen: seq<FileRecord>, f: FileRecord, limits: Limits) {
    && f.stat.size <= limits.maxFileBytes
    && SumSizes(seen) + f.stat.size <= limits.maxTotalBytes
    && (if Cached(seen, f.stat) then AgreesWith(seen, f.stat) else SumSizes(seen) < limits.maxTotalBytes)
    && PathOk(f.parts)
  }

  predicate StepsOk(seen: seq<FileRecord>, fs: seq<FileRecord>, limits: Limits) {
    forall i | 0 <= i < |fs| :: StepOk(seen + fs[..i], fs[i], limits)
  }

  /** Bytes that are really read: each inode once. */
  function HashedBytes(fs: seq<FileRecord>): nat {
    if fs == [] then 0
    else
      var front, last := fs[..|fs| - 1], fs[|fs| - 1];
      HashedBytes(front) + if Cached(front, last.stat) then 0 else last.stat.size
  }

  /** On a stable tree, an inode whose stat fields did not change has one content. */
  ghost predicate Coherent(fs: seq<FileRecord>) {
    forall i, j | 0 <= i < |fs| && 0 <= j < |fs| ::
      LinkKey(fs[i].stat).Some? && fs[i].stat == fs[j].stat ==> fs[i].content == fs[j].content
  }

  // ----- the whole tree

  /** The tree is of the right shape and within every configured limit. */
  ghost predicate WithinLimits(root: Node, limits: Limits) {
    var fs := FilesAt(root, []);
    && ShapeOk(root) && DepthOk(root, 0, limits.maxDepth) && EntriesAt(root) <= limits.maxFiles
    && fs != []
    && SumSizes(fs) <= limits.maxTotalBytes
    && EachFileOk(fs, limits) && LinksAgree(fs)
  }

  /** Declarative admission: what a caller can check of a tree before hashing it. */
  ghost predicate Admissible(root: Node, limits: Limits) {
    WithinLimits(root, limits) && BudgetLeftForEmptyFiles(FilesAt(root, []), limits)
  }

  /** No empty file is met for the first time once the byte budget is exactly used up. */
  ghost predicate BudgetLeftForEmptyFiles(fs: seq<FileRecord>, limits: Limits) {
    forall i | 0 <= i < |fs| ::
      fs[i].stat.size == 0 && !Cached(fs[..i], fs[i].stat) ==> SumSizes(fs[..i]) < limits.maxTotalBytes
  }

  lemma {:induction false} SumAppend(a: seq<FileRecord>, b: seq<FileRecord>)
    ensures SumSizes(a + b) == SumSizes(a) + SumSizes(b)
  {
    if b == [] {
      assert a + b == a;
    } else {
      SumAppend(a, b[..|b| - 1]);
      assert (a + b)[..|a + b| - 1] == a + b[..|b| - 1];
    }
  }

  lemma {:induction false} SumPrefix(fs: seq<FileRecord>, i: nat)
    requires i < |fs|
    ensures SumSizes(fs[..i]) + fs[i].stat.size <= SumSizes(fs)
  {
    assert fs == fs[..i + 1] + fs[i + 1..];
    SumAppend(fs[..i + 1], fs[i + 1..]);
    assert fs[..i + 1][..i] == fs[..i];
  }

  /** Steps over a concatenation are the steps over both parts. */
  lemma {:induction false} StepsAppend(seen: seq<FileRecord>, a: seq<FileRecord>, b: seq<FileRecord>, limits: Limits)
    ensures StepsOk(seen, a + b, limits) <==> StepsOk(seen, a, limits) && StepsOk(seen + a, b, limits)
  {
    var c := a + b;
    forall i | 0 <= i < |a| ensures seen + c[..i] == seen + a[..i] && c[i] == a[i] {
      assert c[..i] == a[..i];
    }
    forall i | 0 <= i < |b| ensures seen + c[..|a| + i] == (seen + a) + b[..i] && c[|a| + i] == b[i] {
      assert c[..|a| + i] == a + b[..i];
    }
    if StepsOk(seen, a, limits) && StepsOk(seen + a, b, limits) {
      forall i | 0 <= i < |c| ensures StepOk(seen + c[..i], c[i], limits) {
        if i >= |a| { assert StepOk((seen + a) + b[..i - |a|], b[i - |a|], limits); }
      }
    }
    if StepsOk(seen, c, limits) {
      forall i | 0 <= i < |b| ensures StepOk((seen + a) + b[..i], b[i], limits) {
        assert StepOk(seen + c[..|a| + i], c[|a| + i], limits);
      }
    }
  }

  /** Hard links of one inode agree on their stat fields. */
  ghost predicate LinksAgree(fs: seq<FileRecord>) {
    forall i, j | 0 <= i < j < |fs| ::
      LinkKey(fs[i].stat).Some? && LinkKey(fs[i].stat) == LinkKey(fs[j].stat) ==> fs[i].stat == fs[j].stat
  }

  ghost predicate EachFileOk(fs: seq<FileRecord>, limits: Limits) {
    forall i | 0 <= i < |fs| :: fs[i].stat.size <= limits.maxFileBytes && PathOk(fs[i].parts)
  }

  lemma {:induction false} StepsAreSound(fs: seq<FileRecord>, limits: Limits)
    requires limits.Valid() && StepsOk([], fs, limits)
    ensures SumSizes(fs) <= limits.maxTotalBytes && EachFileOk(fs, limits)
    ensures LinksAgree(fs) && BudgetLeftForEmptyFiles(fs, limits)
  {
    forall i | 0 <= i < |fs| ensures StepOk(fs[..i], fs[i], limits) {
      assert [] + fs[..i] == fs[..i];
      assert StepOk([] + fs[..i], fs[i], limits);
    }
    if fs != [] { assert StepOk(fs[..|fs| - 1], fs[|fs| - 1], limits); }
    forall i, j | 0 <= i < j < |fs| && LinkKey(fs[i].stat).Some? && LinkKey(fs[i].stat) == LinkKey(fs[j].stat)
      ensures fs[i].stat == fs[j].stat
    {
      assert StepOk(fs[..j], fs[j], limits);
      assert fs[..j][i] == fs[i];
      assert Cached(fs[..j], fs[j].stat);
    }
  }

  lemma {:induction false} StepIsPossible(fs: seq<FileRecord>, i: nat, limits: Limits)
    requires i < |fs| && SumSizes(fs) <= limits.maxTotalBytes && EachFileOk(fs, limits)
    requires LinksAgree(fs) && BudgetLeftForEmptyFiles(fs, limits)
    ensures StepOk(fs[..i], fs[i], limits)
  {
    var seen, f := fs[..i], fs[i];
    SumPrefix(fs, i);
    if Cached(seen, f.stat) {
      forall j | 0 <= j < |seen| && LinkKey(seen[j].stat) == LinkKey(f.stat) ensures seen[j].stat == f.stat {
        assert seen[j] == fs[j];
      }
    }
  }

  /** The step conditions of the walk, taken together, are the declarative ones. */
  lemma {:induction false} StepsAreDeclarative(fs: seq<FileRecord>, limits: Limits)
    requires limits.Valid()
    ensures StepsOk([], fs, limits) <==>
      SumSizes(fs) <= limits.maxTotalBytes && EachFileOk(fs, limits)
      && LinksAgree(fs) && BudgetLeftForEmptyFiles(fs, limits)
  {
    if StepsOk([], fs, limits) {
      StepsAreSound(fs, limits);
    } else if SumSizes(fs) <= limits.maxTotalBytes && EachFileOk(fs, limits)
              && LinksAgree(fs) && BudgetLeftForEmptyFiles(fs, limits) {
      forall i | 0 <= i < |fs| ensures StepOk([] + fs[..i], fs[i], limits) {
        StepIsPossible(fs, i, limits);
        assert [] + fs[..i] == fs[..i];
      }
    }
  }

  lemma {:induction false} HashedAtMostTotal(fs: seq<FileRecord>)
    ensures HashedBytes(fs) <= SumSizes(fs)
  {
    if fs != [] { HashedAtMostTotal(fs[..|fs| - 1]); }
  }

  // ----- the file list is the tree's reachable files, each once

  function Lookup(node: Node, parts: seq<string>): Option<Node>
    decreases |parts|
  {
    if parts == [] then Some(node)
    else if node.Directory? && parts[0] in node.children then Lookup(node.children[parts[0]], parts[1..])
    else None
  }

  /** A file listed below a directory is listed below one of its names. */
  lemma {:induction false} ListedUnder(dir: Node, names: seq<string>, parts: seq<string>, f: FileRecord)
    returns (name: string)
    requires dir.Directory? && (forall n | n in names :: n in dir.children) && f in FilesIn(dir, names, parts)
    ensures name in names && f in FilesAt(dir.children[name], parts + [name])
    decreases |names|
  {
    var front, last := names[..|names| - 1], names[|names| - 1];
    name := last;
    if f in FilesIn(dir, front, parts) {
      name := ListedUnder(dir, front, parts, f);
      assert names == front + [last];
    }
  }

  /** Every listed file is found in the tree under its own names. */
  lemma {:induction false} FilesAreReachable(node: Node, parts: seq<string>, f: FileRecord)
    returns (tail: seq<string>)
    requires f in FilesAt(node, parts)
    ensures f.parts == parts + tail && Lookup(node, tail) == Some(File(f.stat, f.content))
    decreases node
  {
    match node
    case File(_, _) =>
      tail := [];
      assert f.parts == parts + [];
    case Directory(children) =>
      var names := SortedNames(children.Keys);
      assert f in FilesIn(node, names, parts);
      var name := ListedUnder(node, names, parts, f);
      var rest := FilesAreReachable(children[name], parts + [name], f);
      tail := [name] + rest;
      LookupStep(node, name, rest);
      Reassociate(parts, name, rest);
  }

  lemma {:induction false} Reassociate(parts: seq<string>, name: string, rest: seq<string>)
    ensures (parts + [name]) + rest == parts + ([name] + rest)
  {
  }

  lemma {:induction false} LookupStep(dir: Node, name: string, rest: seq<string>)
    requires dir.Directory? && name in dir.children
    ensures Lookup(dir, [name] + rest) == Lookup(dir.children[name], rest)
  {
    assert ([name] + rest)[1..] == rest;
  }

  /** Every regular file of the tree is listed. */
  lemma {:induction false} ReachableAreFiles(node: Node, parts: seq<string>, tail: seq<string>)
    requires Lookup(node, tail).Some? && Lookup(node, tail).value.File?
    ensures var file := Lookup(node, tail).value;
      FileRecord(parts + tail, file.stat, file.content) in FilesAt(node, parts)
    decreases |tail|
  {
    var file := Lookup(node, tail).value;
    if tail == [] {
      assert parts + tail == parts;
    } else {
      var name, rest := tail[0], tail[1..];
      ReachableAreFiles(node.children[name], parts + [name], rest);
      assert (parts + [name]) + rest == parts + tail;
      ChildFilesIncluded(node, SortedNames(node.children.Keys), parts, name);
    }
  }

  lemma {:induction false} ChildFilesIncluded(dir: Node, names: seq<string>, parts: seq<string>, name: string)
    requires dir.Directory? && (forall n | n in names :: n in dir.children) && name in names
    ensures forall f | f in FilesAt(dir.children[name], parts + [name]) :: f in FilesIn(dir, names, parts)
    decreases |names|
  {
    var front, last := names[..|names| - 1], names[|names| - 1];
    assert names == front + [last];
    if name != last { ChildFilesIncluded(dir, front, parts, name); }
  }

  ghost predicate DistinctParts(fs: seq<FileRecord>) {
    forall i, j | 0 <= i < j < |fs| :: fs[i].parts != fs[j].parts
  }

  lemma {:induction false} FilesAreDistinct(node: Node, parts: seq<string>)
    ensures DistinctParts(FilesAt(node, parts))
    decreases node
  {
    if node.Directory? { FilesInDistinct(node, SortedNames(node.children.Keys), parts); }
  }

  lemma {:induction false} FilesInDistinct(dir: Node, names: seq<string>, parts: seq<string>)
    requires dir.Directory? && Ordering.Canonical(names, Self) && forall n | n in names :: n in dir.children
    ensures DistinctParts(FilesIn(dir, names, parts))
    decreases dir, |names|
  {
    if names != [] {
      var front, last := names[..|names| - 1], names[|names| - 1];
      FilesInDistinct(dir, front, parts);
      FilesAreDistinct(dir.children[last], parts + [last]);
      var a, b := FilesIn(dir, front, parts), FilesAt(dir.children[last], parts + [last]);
      forall i, j | 0 <= i < |a| && 0 <= j < |b| ensures a[i].parts != b[j].parts {
        assert a[i] in a && b[j] in b;
        var name := ListedUnder(dir, front, parts, a[i]);
        var t := FilesAreReachable(dir.children[name], parts + [name], a[i]);
        var u := FilesAreReachable(dir.children[last], parts + [last], b[j]);
        assert a[i].parts[|parts|] == name && b[j].parts[|parts|] == last;
        LastIsNew(names, name);
      }
    }
  }

  lemma {:induction false} LastIsNew(names: seq<string>, name: string)
    requires names != [] && Ordering.Canonical(names, Self) && name in names[..|names| - 1]
    ensures name != names[|names| - 1]
  {
    var k :| 0 <= k < |names| - 1 && names[k] == name;
    assert Ordering.Less(Self(names[k]), Self(names[|names| - 1]));
    Ordering.LessIrreflexive(name);
  }
}
