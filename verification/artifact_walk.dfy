/**
 The budgeted, hard-link-cached walk and the identity it builds, proved against the plain
 file list of the tree. The hash is any function of the bytes.
 */
module ArtifactWalk {
  import opened Basics
  import opened ArtifactSpec
  import Ordering
  import Text

  datatype Entry = Entry(path: string, sizeBytes: nat, sha256: string)

  datatype Walked = Done | LimitExceeded | ContractViolated

  function EntryOf(f: FileRecord, sha: Bytes -> string): Entry {
    Entry(Text.Join(f.parts), f.stat.size, sha(f.content))
  }

  function EntriesOf(fs: seq<FileRecord>, sha: Bytes -> string): seq<Entry> {
    seq(|fs|, i requires 0 <= i < |fs| => EntryOf(fs[i], sha))
  }

  lemma {:induction false} CoherentPrefix(fs: seq<FileRecord>, prefix: seq<FileRecord>)
    requires Coherent(fs) && prefix <= fs
    ensures Coherent(prefix)
  {
    assert forall i | 0 <= i < |prefix| :: prefix[i] == fs[i];
  }

  lemma {:induction false} CoherentSplit(
      seen: seq<FileRecord>, before: seq<FileRecord>, here: seq<FileRecord>, all: seq<FileRecord>)
    requires Coherent(seen + all) && before + here <= all
    ensures Coherent(seen + before + here)
  {
    assert seen + before + here == seen + (before + here);
    CoherentPrefix(seen + all, seen + (before + here));
  }

  /** Everything the walk of one directory needs in order to succeed. */
  ghost predicate WalkOk(
      dir: Node, parts: seq<string>, depth: nat, seen: seq<FileRecord>, visited: nat, limits: Limits) {
    && ShapeOk(dir) && DepthOk(dir, depth, limits.maxDepth)
    && visited + EntriesAt(dir) <= limits.maxFiles
    && StepsOk(seen, FilesAt(dir, parts), limits)
  }

  /** The same for one entry called `name`. */
  ghost predicate EntryOk(node: Node, name: string, parts: seq<string>, depth: nat,
                          seen: seq<FileRecord>, visited: nat, limits: Limits) {
    && NameOk(name) && depth < limits.maxDepth
    && ShapeOk(node) && DepthOk(node, depth + 1, limits.maxDepth)
    && visited + EntriesAt(node) <= limits.maxFiles
    && StepsOk(seen, FilesAt(node, parts + [name]), limits)
  }

  /** What a node at a path needs, by kind. */
  ghost predicate NodePasses(
      node: Node, path: seq<string>, depth: nat, seen: seq<FileRecord>, visited: nat, limits: Limits) {
    match node
    case File(stat, content) => StepOk(seen, FileRecord(path, stat, content), limits)
    case Directory(_) => WalkOk(node, path, depth, seen, visited, limits)
    case Link => false
    case Special => false
  }

  ghost predicate EntryPasses(node: Node, name: string, path: seq<string>, depth: nat,
                              seen: seq<FileRecord>, visited: nat, limits: Limits) {
    NameOk(name) && depth < limits.maxDepth && NodePasses(node, path, depth + 1, seen, visited, limits)
  }

  lemma {:induction false} PrefixOfFiles(dir: Node, names: seq<string>, i: nat, parts: seq<string>)
    requires dir.Directory? && (forall n | n in names :: n in dir.children) && i <= |names|
    ensures FilesIn(dir, names[..i], parts) <= FilesIn(dir, names, parts)
    ensures EntriesIn(dir, names[..i]) <= EntriesIn(dir, names)
    decreases |names|
  {
    if i == |names| {
      assert names[..i] == names;
    } else {
      var front := names[..|names| - 1];
      PrefixOfFiles(dir, front, i, parts);
      assert front[..i] == names[..i];
    }
  }

  lemma {:induction false} ExtendFiles(dir: Node, names: seq<string>, i: nat, parts: seq<string>)
    requires dir.Directory? && (forall n | n in names :: n in dir.children) && i < |names|
    ensures FilesIn(dir, names[..i + 1], parts)
            == FilesIn(dir, names[..i], parts) + FilesAt(dir.children[names[i]], parts + [names[i]])
    ensures EntriesIn(dir, names[..i + 1]) == EntriesIn(dir, names[..i]) + EntriesAt(dir.children[names[i]])
  {
    assert names[..i + 1][..i] == names[..i];
  }

  lemma {:induction false} ChildSteps(
      dir: Node, names: seq<string>, i: nat, parts: seq<string>, seen: seq<FileRecord>, limits: Limits)
    requires dir.Directory? && (forall n | n in names :: n in dir.children) && i < |names|
    requires StepsOk(seen, FilesIn(dir, names, parts), limits)
    ensures StepsOk(seen + FilesIn(dir, names[..i], parts), FilesAt(dir.children[names[i]], parts + [names[i]]), limits)
    ensures EntriesIn(dir, names[..i]) + EntriesAt(dir.children[names[i]]) <= EntriesIn(dir, names)
  {
    ExtendFiles(dir, names, i, parts);
    PrefixOfFiles(dir, names, i + 1, parts);
    var upTo, all := FilesIn(dir, names[..i + 1], parts), FilesIn(dir, names, parts);
    assert all == upTo + all[|upTo|..];
    StepsAppend(seen, upTo, all[|upTo|..], limits);
    StepsAppend(seen, FilesIn(dir, names[..i], parts), FilesAt(dir.children[names[i]], parts + [names[i]]), limits);
  }

  /** The walk of `dir` after its first `i` names. */
  ghost predicate Progress(dir: Node, names: seq<string>, i: nat, parts: seq<string>, depth: nat, limits: Limits,
                           seen0: seq<FileRecord>, visited0: nat, seen: seq<FileRecord>, visited: nat)
    requires dir.Directory? && (forall n | n in names :: n in dir.children) && i <= |names|
  {
    && seen == seen0 + FilesIn(dir, names[..i], parts)
    && visited == visited0 + |dir.children| + EntriesIn(dir, names[..i])
    && StepsOk(seen0, FilesIn(dir, names[..i], parts), limits)
    && ShapesUpTo(dir, names, i, depth, limits)
  }

  ghost predicate ShapesUpTo(dir: Node, names: seq<string>, i: nat, depth: nat, limits: Limits)
    requires dir.Directory? && (forall n | n in names :: n in dir.children) && i <= |names|
  {
    forall j | 0 <= j < i ::
      NameOk(names[j]) && depth < limits.maxDepth && ShapeOk(dir.children[names[j]])
      && DepthOk(dir.children[names[j]], depth + 1, limits.maxDepth)
  }

  lemma {:induction false} ShapesOfAll(dir: Node, names: seq<string>, depth: nat, limits: Limits)
    requires dir.Directory? && names == SortedNames(dir.children.Keys) && ShapesUpTo(dir, names, |names|, depth, limits)
    ensures ShapeOk(dir) && DepthOk(dir, depth, limits.maxDepth)
  {
    forall name | name in dir.children
      ensures NameOk(name) && ShapeOk(dir.children[name])
              && depth < limits.maxDepth && DepthOk(dir.children[name], depth + 1, limits.maxDepth)
    {
      assert name in names;
      var i :| 0 <= i < |names| && names[i] == name;
    }
  }

  /** An entry that fails makes the whole directory fail. */
  lemma {:induction false} EntryDecides(
      dir: Node, names: seq<string>, i: nat, parts: seq<string>, depth: nat, limits: Limits, seen0: seq<FileRecord>,
      visited0: nat, seen: seq<FileRecord>, visited: nat)
    requires dir.Directory? && names == SortedNames(dir.children.Keys) && i < |names|
    requires Progress(dir, names, i, parts, depth, limits, seen0, visited0, seen, visited)
    requires WalkOk(dir, parts, depth, seen0, visited0, limits)
    ensures EntryOk(dir.children[names[i]], names[i], parts, depth, seen, visited, limits)
  {
    assert names[i] in dir.children;
    ChildSteps(dir, names, i, parts, seen0, limits);
  }

  lemma {:induction false} Advance(
      dir: Node, names: seq<string>, i: nat, parts: seq<string>, depth: nat, limits: Limits, seen0: seq<FileRecord>,
      visited0: nat, seen: seq<FileRecord>, visited: nat)
    requires dir.Directory? && (forall n | n in names :: n in dir.children) && i < |names|
    requires Progress(dir, names, i, parts, depth, limits, seen0, visited0, seen, visited)
    requires EntryOk(dir.children[names[i]], names[i], parts, depth, seen, visited, limits)
    ensures Progress(
      dir, names, i + 1, parts, depth, limits, seen0, visited0,
      seen + FilesAt(dir.children[names[i]], parts + [names[i]]), visited + EntriesAt(dir.children[names[i]]))
  {
    AdvanceFiles(dir, names, i, parts, limits, seen0);
    assert ShapesUpTo(dir, names, i + 1, depth, limits);
  }

  lemma {:induction false} AdvanceFiles(
      dir: Node, names: seq<string>, i: nat, parts: seq<string>, limits: Limits, seen0: seq<FileRecord>)
    requires dir.Directory? && (forall n | n in names :: n in dir.children) && i < |names|
    requires StepsOk(seen0, FilesIn(dir, names[..i], parts), limits)
    requires StepsOk(
      seen0 + FilesIn(dir, names[..i], parts), FilesAt(dir.children[names[i]], parts + [names[i]]), limits)
    ensures StepsOk(seen0, FilesIn(dir, names[..i + 1], parts), limits)
    ensures seen0 + FilesIn(dir, names[..i + 1], parts)
            == seen0 + FilesIn(dir, names[..i], parts) + FilesAt(dir.children[names[i]], parts + [names[i]])
    ensures EntriesIn(dir, names[..i + 1]) == EntriesIn(dir, names[..i]) + EntriesAt(dir.children[names[i]])
  {
    ExtendFiles(dir, names, i, parts);
    var before, here := FilesIn(dir, names[..i], parts), FilesAt(dir.children[names[i]], parts + [names[i]]);
    StepsAppend(seen0, before, here, limits);
    assert (seen0 + before) + here == seen0 + (before + here);
  }

  lemma {:induction false} NextFiles(dir: Node, names: seq<string>, i: nat, parts: seq<string>)
    requires dir.Directory? && (forall n | n in names :: n in dir.children) && i < |names|
    ensures FilesIn(dir, names[..i], parts) + FilesAt(dir.children[names[i]], parts + [names[i]])
      <= FilesIn(dir, names, parts)
  {
    ExtendFiles(dir, names, i, parts);
    PrefixOfFiles(dir, names, i + 1, parts);
  }

  /** The files of the next entry stay coherent with those already taken in. */
  lemma {:induction false} CoherentNext(
      dir: Node, names: seq<string>, i: nat, parts: seq<string>, seen0: seq<FileRecord>)
    requires dir.Directory? && names == SortedNames(dir.children.Keys) && i < |names|
    requires Coherent(seen0 + FilesAt(dir, parts))
    ensures Coherent(seen0 + FilesIn(dir, names[..i], parts) + FilesAt(dir.children[names[i]], parts + [names[i]]))
  {
    NextFiles(dir, names, i, parts);
    CoherentSplit(seen0, FilesIn(dir, names[..i], parts), FilesAt(dir.children[names[i]], parts + [names[i]]),
                  FilesIn(dir, names, parts));
  }

  /** If every entry succeeds in turn, so does the directory. */
  lemma {:induction false} EntriesSuffice(dir: Node, names: seq<string>, parts: seq<string>, depth: nat, limits: Limits,
                       seen0: seq<FileRecord>, visited0: nat, seen: seq<FileRecord>, visited: nat)
    requires dir.Directory? && names == SortedNames(dir.children.Keys) && visited <= limits.maxFiles
    requires Progress(dir, names, |names|, parts, depth, limits, seen0, visited0, seen, visited)
    ensures WalkOk(dir, parts, depth, seen0, visited0, limits)
    ensures seen == seen0 + FilesAt(dir, parts) && visited == visited0 + EntriesAt(dir)
  {
    assert names[..|names|] == names;
    ShapesOfAll(dir, names, depth, limits);
  }

  type Cache = map<(nat, nat), (string, nat, Stat)>

  /** The cache knows exactly the linked inodes met so far, with their digest and stat fields. */
  ghost predicate CacheHolds(cache: Cache, seen: seq<FileRecord>, sha: Bytes -> string) {
    && (forall i | 0 <= i < |seen| :: LinkKey(seen[i].stat).Some? ==>
          LinkKey(seen[i].stat).value in cache
          && cache[LinkKey(seen[i].stat).value] == (sha(seen[i].content), seen[i].stat.size, seen[i].stat))
    && (forall key | key in cache :: exists i :: 0 <= i < |seen| && LinkKey(seen[i].stat) == Some(key))
  }

  /** The cache after one more file, as `DigestOf` leaves it. */
  function Remember(cache: Cache, known: bool, f: FileRecord, sha: Bytes -> string): Cache {
    if known || LinkKey(f.stat).None? then cache
    else cache[LinkKey(f.stat).value := (sha(f.content), f.stat.size, f.stat)]
  }

  lemma {:induction false} CacheExtends(cache: Cache, seen: seq<FileRecord>, f: FileRecord, sha: Bytes -> string)
    requires CacheHolds(cache, seen, sha) && Coherent(seen + [f])
    requires Cached(seen, f.stat) ==> AgreesWith(seen, f.stat)
    ensures CacheHolds(Remember(cache, Cached(seen, f.stat), f, sha), seen + [f], sha)
  {
    var more, cache' := seen + [f], Remember(cache, Cached(seen, f.stat), f, sha);
    assert forall i | 0 <= i < |seen| :: more[i] == seen[i];
    if Cached(seen, f.stat) {
      var i :| 0 <= i < |seen| && LinkKey(seen[i].stat) == LinkKey(f.stat);
      assert more[i].content == more[|seen|].content;
    }
    forall key | key in cache' ensures exists i :: 0 <= i < |more| && LinkKey(more[i].stat) == Some(key) {
      if key in cache {
        var i :| 0 <= i < |seen| && LinkKey(seen[i].stat) == Some(key);
        assert LinkKey(more[i].stat) == Some(key);
      } else {
        assert LinkKey(more[|seen|].stat) == Some(key);
      }
    }
  }

  lemma {:induction false} OneMoreFile(seen: seq<FileRecord>, f: FileRecord, sha: Bytes -> string)
    ensures EntriesOf(seen + [f], sha) == EntriesOf(seen, sha) + [EntryOf(f, sha)]
    ensures SumSizes(seen + [f]) == SumSizes(seen) + f.stat.size
    ensures HashedBytes(seen + [f]) == HashedBytes(seen) + if Cached(seen, f.stat) then 0 else f.stat.size
  {
    assert (seen + [f])[..|seen|] == seen;
  }

  class Walker {
    const limits: Limits
    const sha: Bytes -> string
    var entries: seq<Entry>
    var observations: seq<(seq<string>, Stat)>
    var hardlinks: Cache
    var totalBytes: nat
    var hashedBytes: nat
    var visited: nat
    /** The files taken in so far. */
    ghost var seen: seq<FileRecord>

    ghost predicate Valid()
      reads this
    {
      ListsHold() && hashedBytes == HashedBytes(seen) && CacheHolds(hardlinks, seen, sha)
    }

    constructor (limits: Limits, sha: Bytes -> string)
      requires limits.Valid()
      ensures Valid() && seen == [] && visited == 0 && this.limits == limits && this.sha == sha
    {
      this.limits, this.sha := limits, sha;
      entries, observations, hardlinks, totalBytes, hashedBytes, visited := [], [], map[], 0, 0, 0;
      seen := [];
    }

    /** Look the inode up, or hash the file and remember it. */
    method DigestOf(f: FileRecord) returns (r: Walked, digest: string)
      requires Valid() && Coherent(seen + [f])
      modifies this`hardlinks, this`hashedBytes
      ensures r.Done? <==>
        if Cached(seen, f.stat) then AgreesWith(seen, f.stat) else SumSizes(seen) < limits.maxTotalBytes
      ensures r.Done? ==> digest == sha(f.content)
      ensures r.Done? ==> hashedBytes == old(hashedBytes) + if Cached(seen, f.stat) then 0 else f.stat.size
      ensures r.Done? ==> hardlinks == Remember(old(hardlinks), Cached(seen, f.stat), f, sha)
      ensures r.ContractViolated? ==> Cached(seen, f.stat) && !AgreesWith(seen, f.stat)
      ensures r.LimitExceeded? ==> !Cached(seen, f.stat) && SumSizes(seen) >= limits.maxTotalBytes
    {
      digest := "";
      var key := LinkKey(f.stat);
      if key.Some? && key.value in hardlinks {
        var (cachedDigest, cachedSize, cachedStat) := hardlinks[key.value];
        ghost var i :| 0 <= i < |seen| && LinkKey(seen[i].stat) == key;
        if cachedSize != f.stat.size || cachedStat != f.stat { return ContractViolated, digest; }
        ghost var all := seen + [f];
        assert all[i] == seen[i] && all[|seen|] == f;
        return Done, cachedDigest;
      }
      if limits.maxTotalBytes - totalBytes < 1 { return LimitExceeded, digest; }
      digest := sha(f.content);
      hashedBytes := hashedBytes + f.stat.size;
      if key.Some? { hardlinks := hardlinks[key.value := (digest, f.stat.size, f.stat)]; }
      return Done, digest;
    }

    ghost predicate ListsHold()
      reads this
    {
      && limits.Valid() && visited <= limits.maxFiles
      && entries == EntriesOf(seen, sha)
      && |observations| == |seen|
      && (forall i | 0 <= i < |seen| :: observations[i] == (seen[i].parts, seen[i].stat))
      && totalBytes == SumSizes(seen)
    }

    /** Append the entry and the observation of a file whose digest is settled. */
    method Append(f: FileRecord, digest: string)
      requires ListsHold() && digest == sha(f.content)
      requires hashedBytes == HashedBytes(seen + [f]) && CacheHolds(hardlinks, seen + [f], sha)
      modifies this`entries, this`observations, this`totalBytes, this`seen
      ensures Valid() && seen == old(seen) + [f]
    {
      OneMoreFile(seen, f, sha);
      entries := entries + [Entry(Text.Join(f.parts), f.stat.size, digest)];
      observations := observations + [(f.parts, f.stat)];
      totalBytes := totalBytes + f.stat.size;
      seen := seen + [f];
    }

    /** The digest of a file, with the cache and the byte count brought up to date. */
    method Settle(f: FileRecord) returns (r: Walked, digest: string)
      requires Valid() && |f.content| == f.stat.size && Coherent(seen + [f])
      modifies this`hardlinks, this`hashedBytes
      ensures r.Done? <==>
        if Cached(seen, f.stat) then AgreesWith(seen, f.stat) else SumSizes(seen) < limits.maxTotalBytes
      ensures r.Done? ==> ListsHold() && digest == sha(f.content)
      ensures r.Done? ==> hashedBytes == HashedBytes(seen + [f]) && CacheHolds(hardlinks, seen + [f], sha)
    {
      ghost var cache := hardlinks;
      r, digest := DigestOf(f);
      if r.Done? {
        CacheExtends(cache, seen, f, sha);
        OneMoreFile(seen, f, sha);
      }
    }

    /** No part holds a backslash or a NUL. */
    static predicate CleanPath(parts: seq<string>)
      ensures CleanPath(parts) <==> PathOk(parts)
    {
      !exists i | 0 <= i < |parts| :: '\\' in parts[i] || '\0' in parts[i]
    }

    /** Settle a file within the byte limits and append it. */
    method SettleAndAppend(f: FileRecord) returns (r: Walked)
      requires Valid() && |f.content| == f.stat.size && Coherent(seen + [f])
      modifies this`entries, this`observations, this`totalBytes, this`seen, this`hardlinks, this`hashedBytes
      ensures r.Done? <==>
        (if Cached(old(seen), f.stat) then AgreesWith(old(seen), f.stat)
         else SumSizes(old(seen)) < limits.maxTotalBytes)
        && PathOk(f.parts)
      ensures r.Done? ==> Valid() && seen == old(seen) + [f]
    {
      var digest;
      r, digest := Settle(f);
      if !r.Done? { return; }
      if !CleanPath(f.parts) { return ContractViolated; }
      Append(f, digest);
    }

    /** One regular file. */
    method TakeFile(f: FileRecord) returns (r: Walked)
      requires Valid() && |f.content| == f.stat.size && Coherent(seen + [f])
      modifies this`entries, this`observations, this`totalBytes, this`seen, this`hardlinks, this`hashedBytes
      ensures r.Done? <==> StepOk(old(seen), f, limits)
      ensures r.Done? ==> Valid() && seen == old(seen) + [f]
    {
      if f.stat.size > limits.maxFileBytes || totalBytes + f.stat.size > limits.maxTotalBytes {
        return LimitExceeded;
      }
      r := SettleAndAppend(f);
    }

    /** Enumerate a directory in whatever order the system returns it, then sort. */
    method Scan(dir: Node) returns (r: Walked, names: seq<string>)
      requires dir.Directory? && visited <= limits.maxFiles
      modifies this`visited
      ensures r.Done? <==> old(visited) + |dir.children| <= limits.maxFiles
      ensures r.Done? ==> visited == old(visited) + |dir.children| && names == SortedNames(dir.children.Keys)
    {
      names := [];
      var remaining := dir.children.Keys;
      while remaining != {}
        invariant remaining <= dir.children.Keys
        invariant |remaining| + |names| == |dir.children|
        invariant visited == old(visited) + |names|
        invariant visited <= limits.maxFiles
        invariant forall x :: x in names <==> x in dir.children.Keys - remaining
        invariant Ordering.DistinctKeys(names, Self)
        decreases |remaining|
      {
        var name :| name in remaining;
        if visited >= limits.maxFiles {
          assert |remaining| > 0;
          return LimitExceeded, names;
        }
        visited := visited + 1;
        assert forall i | 0 <= i < |names| :: names[i] in names;
        names := names + [name];
        remaining := remaining - {name};
      }
      assert |remaining| == 0;
      Ordering.SortCanonical(names, Self);
      var sorted := Ordering.Sort(names, Self);
      Ordering.CanonicalUnique(sorted, SortedNames(dir.children.Keys), Self);
      return Done, sorted;
    }

    /** The recursive walk: it succeeds exactly when the directory meets its conditions, and then
        it has taken in exactly the files below it, in order. */
    method WalkDirectory(dir: Node, parts: seq<string>, depth: nat) returns (r: Walked)
      requires dir.Directory? && OnDisk(dir) && Valid()
      requires Coherent(seen + FilesAt(dir, parts))
      modifies this
      ensures r.Done? <==> WalkOk(dir, parts, depth, old(seen), old(visited), limits)
      ensures r.Done? ==>
        Valid() && seen == old(seen) + FilesAt(dir, parts) && visited == old(visited) + EntriesAt(dir)
      decreases dir, 0
    {
      var names;
      r, names := Scan(dir);
      if !r.Done? { return; }
      for i := 0 to |names|
        invariant Valid()
        invariant Progress(dir, names, i, parts, depth, limits, old(seen), old(visited), seen, visited)
      {
        CoherentNext(dir, names, i, parts, old(seen));
        ghost var before, count := seen, visited;
        EntryCases(dir.children[names[i]], names[i], parts, depth, before, count, limits);
        r := VisitEntry(dir.children[names[i]], names[i], parts + [names[i]], depth);
        if !r.Done? {
          if WalkOk(dir, parts, depth, old(seen), old(visited), limits) {
            EntryDecides(dir, names, i, parts, depth, limits, old(seen), old(visited), before, count);
          }
          return;
        }
        Advance(dir, names, i, parts, depth, limits, old(seen), old(visited), before, count);
      }
      EntriesSuffice(dir, names, parts, depth, limits, old(seen), old(visited), seen, visited);
      return Done;
    }

    /** An entry that is a regular file. */
    method VisitFile(node: Node, parts: seq<string>) returns (r: Walked)
      requires node.File? && OnDisk(node) && Valid() && Coherent(seen + FilesAt(node, parts))
      modifies this`entries, this`observations, this`totalBytes, this`seen, this`hardlinks, this`hashedBytes
      ensures r.Done? <==> StepOk(old(seen), FileRecord(parts, node.stat, node.content), limits)
      ensures r.Done? ==> Valid() && seen == old(seen) + FilesAt(node, parts)
    {
      r := TakeFile(FileRecord(parts, node.stat, node.content));
    }

    /** A node at its path, by kind. */
    method VisitNode(node: Node, path: seq<string>, depth: nat) returns (r: Walked)
      requires OnDisk(node) && Valid() && Coherent(seen + FilesAt(node, path))
      modifies this
      ensures r.Done? <==> NodePasses(node, path, depth, old(seen), old(visited), limits)
      ensures r.Done? ==>
        Valid() && seen == old(seen) + FilesAt(node, path) && visited == old(visited) + EntriesAt(node)
      decreases node, 1
    {
      match node
      case Link => return ContractViolated;
      case Special => return ContractViolated;
      case Directory(_) => r := WalkDirectory(node, path, depth);
      case File(_, _) =>
        FileFiles(node, path);
        r := VisitFile(node, path);
    }

    /** One step of the loop over a directory's names. */
    method VisitEntry(node: Node, name: string, path: seq<string>, depth: nat) returns (r: Walked)
      requires OnDisk(node) && Valid() && Coherent(seen + FilesAt(node, path))
      modifies this
      ensures r.Done? <==> EntryPasses(node, name, path, depth, old(seen), old(visited), limits)
      ensures r.Done? ==>
        Valid() && seen == old(seen) + FilesAt(node, path) && visited == old(visited) + EntriesAt(node)
      decreases node, 2
    {
      if !NameOk(name) { return ContractViolated; }
      if depth + 1 > limits.maxDepth { return LimitExceeded; }
      r := VisitNode(node, path, depth + 1);
    }
  }

  lemma {:induction false} FileFiles(node: Node, parts: seq<string>)
    requires node.File?
    ensures FilesAt(node, parts) == [FileRecord(parts, node.stat, node.content)] && EntriesAt(node) == 0
  {
  }

  /** The conditions on an entry are the same when split by kind. */
  lemma {:induction false} EntryCases(node: Node, name: string, parts: seq<string>, depth: nat,
                   seen: seq<FileRecord>, visited: nat, limits: Limits)
    requires visited <= limits.maxFiles
    ensures EntryPasses(node, name, parts + [name], depth, seen, visited, limits)
       <==> EntryOk(node, name, parts, depth, seen, visited, limits)
  {
    if node.File? { OneStep(seen, FileRecord(parts + [name], node.stat, node.content), limits); }
  }

  lemma {:induction false} OneStep(seen: seq<FileRecord>, f: FileRecord, limits: Limits)
    ensures StepsOk(seen, [f], limits) <==> StepOk(seen, f, limits)
  {
    assert seen + [f][..0] == seen;
    if StepsOk(seen, [f], limits) { assert StepOk(seen + [f][..0], [f][0], limits); }
  }

  // ----- the identity

  datatype Identity = Identity(entries: seq<Entry>, fileCount: nat, totalBytes: nat, hashedBytes: nat)
  {
    /** The identity constructor's checks on a directory. */
    ghost predicate Valid() {
      && Ordering.Canonical(entries, PathOf)
      && fileCount == |entries| <= HARD_MAX_FILES
      && totalBytes == SumEntries(entries) <= HARD_MAX_TOTAL_BYTES
      && hashedBytes <= totalBytes
    }
  }

  function PathOf(e: Entry): string { e.path }

  function SumEntries(es: seq<Entry>): nat {
    if es == [] then 0 else es[0].sizeBytes + SumEntries(es[1..])
  }

  /** The identity of an admissible tree: its files, sorted by path, one entry each. */
  ghost predicate Identifies(id: Identity, root: Node, sha: Bytes -> string) {
    var fs := FilesAt(root, []);
    && id.Valid() && id.fileCount == |fs| && id.totalBytes == SumSizes(fs) && id.hashedBytes == HashedBytes(fs)
    && forall e :: e in id.entries <==> exists f :: f in fs && e == EntryOf(f, sha)
  }

  /** Two identities of one tree are equal: nothing depends on enumeration order. */
  lemma {:induction false} IdentityIsUnique(a: Identity, b: Identity, root: Node, sha: Bytes -> string)
    requires Identifies(a, root, sha) && Identifies(b, root, sha)
    ensures a == b
  {
    assert forall e :: e in a.entries <==> e in b.entries;
    Ordering.CanonicalUnique(a.entries, b.entries, PathOf);
  }

  lemma {:induction false} SumOfInsert(e: Entry, es: seq<Entry>)
    ensures SumEntries(Ordering.Insert(e, es, PathOf)) == e.sizeBytes + SumEntries(es)
  {
    var r := Ordering.Insert(e, es, PathOf);
    if es == [] || !Ordering.Less(PathOf(es[0]), PathOf(e)) {
      assert r[1..] == es;
    } else {
      SumOfInsert(e, es[1..]);
      assert r[1..] == Ordering.Insert(e, es[1..], PathOf);
    }
  }

  lemma {:induction false} SumOfSort(es: seq<Entry>)
    ensures SumEntries(Ordering.Sort(es, PathOf)) == SumEntries(es)
  {
    if es != [] {
      SumOfSort(es[1..]);
      SumOfInsert(es[0], Ordering.Sort(es[1..], PathOf));
    }
  }

  lemma {:induction false} SumOfEntries(fs: seq<FileRecord>, sha: Bytes -> string)
    ensures SumEntries(EntriesOf(fs, sha)) == SumSizes(fs)
  {
    if fs != [] {
      var tail := fs[1..];
      SumOfEntries(tail, sha);
      SumAppend([fs[0]], tail);
      assert fs == [fs[0]] + tail && [fs[0]][..0] == [];
      assert EntriesOf(fs, sha)[1..] == EntriesOf(tail, sha);
    }
  }

  lemma {:induction false} FilesWithinEntries(dir: Node, names: seq<string>, parts: seq<string>)
    requires dir.Directory? && forall n | n in names :: n in dir.children
    ensures |FilesIn(dir, names, parts)| <= |names| + EntriesIn(dir, names)
    decreases dir, |names|
  {
    if names != [] {
      var front, last := names[..|names| - 1], names[|names| - 1];
      FilesWithinEntries(dir, front, parts);
      var child := dir.children[last];
      if child.Directory? { FilesWithinEntries(child, SortedNames(child.children.Keys), parts + [last]); }
    }
  }

  ghost predicate AllPlain(parts: seq<string>) { forall p | p in parts :: Text.Plain(p) }

  /** The names leading to a file of a well-shaped tree can be joined without loss. */
  lemma {:induction false} PartsArePlain(node: Node, parts: seq<string>, f: FileRecord)
    requires OnDisk(node) && ShapeOk(node) && AllPlain(parts) && f in FilesAt(node, parts)
    ensures AllPlain(f.parts)
    decreases node
  {
    if node.Directory? {
      var name := ListedUnder(node, SortedNames(node.children.Keys), parts, f);
      assert name in node.children;
      PartsArePlain(node.children[name], parts + [name], f);
    }
  }

  lemma {:induction false} PathsAreDistinct(root: Node, sha: Bytes -> string)
    requires root.Directory? && OnDisk(root) && ShapeOk(root)
    ensures Ordering.DistinctKeys(EntriesOf(FilesAt(root, []), sha), PathOf)
  {
    var fs := FilesAt(root, []);
    var es := EntriesOf(fs, sha);
    FilesAreDistinct(root, []);
    forall i, j | 0 <= i < j < |es| ensures PathOf(es[i]) != PathOf(es[j]) {
      if PathOf(es[i]) == PathOf(es[j]) { SamePathSameFile(root, fs[i], fs[j]); }
    }
  }

  lemma {:induction false} SamePathSameFile(root: Node, f: FileRecord, g: FileRecord)
    requires root.Directory? && OnDisk(root) && ShapeOk(root) && f in FilesAt(root, []) && g in FilesAt(root, [])
    requires Text.Join(f.parts) == Text.Join(g.parts)
    ensures f.parts == g.parts
  {
    PartsArePlain(root, [], f);
    PartsArePlain(root, [], g);
    var t := FilesAreReachable(root, [], f);
    var u := FilesAreReachable(root, [], g);
    assert f.parts == t && g.parts == u;
    Text.JoinInjective(f.parts, g.parts);
  }

  /** Building the identity out of the file list satisfies every check of its constructor. */
  lemma {:induction false} SortedIdentifies(root: Node, limits: Limits, sha: Bytes -> string, id: Identity)
    requires root.Directory? && OnDisk(root) && limits.Valid() && Admissible(root, limits)
    requires var fs := FilesAt(root, []);
      id == Identity(Ordering.Sort(EntriesOf(fs, sha), PathOf), |fs|, SumSizes(fs), HashedBytes(fs))
    ensures Identifies(id, root, sha)
  {
    var fs := FilesAt(root, []);
    var es := EntriesOf(fs, sha);
    PathsAreDistinct(root, sha);
    Ordering.SortCanonical(es, PathOf);
    SumOfSort(es);
    SumOfEntries(fs, sha);
    HashedAtMostTotal(fs);
    FilesWithinEntries(root, SortedNames(root.children.Keys), []);
    EntryMembers(fs, sha);
  }

  lemma {:induction false} EntryMembers(fs: seq<FileRecord>, sha: Bytes -> string)
    ensures forall e :: e in EntriesOf(fs, sha) <==> exists f :: f in fs && e == EntryOf(f, sha)
  {
    var es := EntriesOf(fs, sha);
    forall e ensures e in es <==> exists f :: f in fs && e == EntryOf(f, sha) {
      if e in es {
        var i :| 0 <= i < |es| && es[i] == e;
        assert fs[i] in fs && e == EntryOf(fs[i], sha);
      }
      if f :| f in fs && e == EntryOf(f, sha) {
        var i :| 0 <= i < |fs| && fs[i] == f;
        assert es[i] == e;
      }
    }
  }

  /** The re-check of every observed file: on an unchanging tree it finds what it saw. */
  method Recheck(root: Node, observations: seq<(seq<string>, Stat)>, ghost fs: seq<FileRecord>) returns (stable: bool)
    requires fs == FilesAt(root, []) && |observations| == |fs|
    requires forall i | 0 <= i < |fs| :: observations[i] == (fs[i].parts, fs[i].stat)
    ensures stable
  {
    for i := 0 to |observations| {
      ghost var tail := FilesAreReachable(root, [], fs[i]);
      assert fs[i].parts == tail;
      var found := Lookup(root, observations[i].0);
      if found.None? || !found.value.File? || found.value.stat != observations[i].1 { return false; }
    }
    return true;
  }

  /** Hashing a directory succeeds exactly on admissible trees and returns their identity,
      whatever order the directories were listed in. */
  method HashDirectory(root: Node, limits: Limits, sha: Bytes -> string) returns (r: Attempt<Identity>)
    requires root.Directory? && OnDisk(root) && limits.Valid() && Coherent(FilesAt(root, []))
    ensures r.Returned? <==> Admissible(root, limits)
    ensures r.Returned? ==> Identifies(r.value, root, sha)
  {
    var walker := new Walker(limits, sha);
    ghost var fs := FilesAt(root, []);
    assert [] + fs == fs;
    var walked := walker.WalkDirectory(root, [], 0);
    StepsAreDeclarative(fs, limits);
    if !walked.Done? { return Raised; }
    var stable := Recheck(root, walker.observations, fs);
    if !stable { return Raised; }
    var ordered := Ordering.Sort(walker.entries, PathOf);
    if ordered == [] { return Raised; }
    r := Returned(Identity(ordered, |ordered|, walker.totalBytes, walker.hashedBytes));
    SortedIdentifies(root, limits, sha, r.value);
  }

  /** Without empty files, staying within the plain limits is already enough. */
  lemma {:induction false} WithoutEmptyFilesLimitsSuffice(root: Node, limits: Limits)
    requires WithinLimits(root, limits)
    requires forall i | 0 <= i < |FilesAt(root, [])| :: FilesAt(root, [])[i].stat.size > 0
    ensures Admissible(root, limits)
  {
  }

  lemma {:induction false} NamesOfTwo(names: set<string>, x: string, y: string)
    requires names == {x, y} && Ordering.Less(x, y)
    ensures SortedNames(names) == [x, y]
  {
    assert Ordering.Canonical([x, y], Self);
    Ordering.CanonicalUnique(SortedNames(names), [x, y], Self);
  }

  /** The records of a directory that holds only regular files. */
  function FlatRecords(dir: Node, names: seq<string>): (fs: seq<FileRecord>)
    requires dir.Directory? && forall n | n in names :: n in dir.children && dir.children[n].File?
    ensures |fs| == |names|
    ensures forall i | 0 <= i < |names| ::
      fs[i] == FileRecord([names[i]], dir.children[names[i]].stat, dir.children[names[i]].content)
  {
    seq(|names|, i requires 0 <= i < |names| =>
      FileRecord([names[i]], dir.children[names[i]].stat, dir.children[names[i]].content))
  }

  lemma {:induction false} FlatFiles(dir: Node, names: seq<string>, i: nat)
    requires dir.Directory? && (forall n | n in names :: n in dir.children && dir.children[n].File?) && i <= |names|
    ensures FilesIn(dir, names[..i], []) == FlatRecords(dir, names)[..i]
  {
    if i > 0 {
      FlatFiles(dir, names, i - 1);
      ExtendFiles(dir, names, i - 1, []);
      assert [] + [names[i - 1]] == [names[i - 1]];
      assert names[i - 1] in names;
    }
  }

  lemma {:induction false} DirectoryFiles(dir: Node, names: seq<string>, parts: seq<string>)
    requires dir.Directory? && names == SortedNames(dir.children.Keys)
    ensures FilesAt(dir, parts) == FilesIn(dir, names, parts)
  {
  }

  lemma {:induction false} FlatDirectory(dir: Node, names: seq<string>, none: seq<string>)
    requires dir.Directory? && names == SortedNames(dir.children.Keys) && none == []
    requires forall n | n in names :: n in dir.children && dir.children[n].File?
    ensures FilesAt(dir, none) == FlatRecords(dir, names)
  {
    DirectoryFiles(dir, names, none);
    FlatFiles(dir, names, |names|);
    WholePrefix(names, FlatRecords(dir, names));
  }

  lemma {:induction false} WholePrefix(names: seq<string>, fs: seq<FileRecord>)
    requires |names| == |fs|
    ensures names[..|names|] == names && fs[..|names|] == fs
  {
  }

  lemma {:induction false} FlatEntries(dir: Node, names: seq<string>, i: nat)
    requires dir.Directory? && (forall n | n in names :: n in dir.children && dir.children[n].File?) && i <= |names|
    ensures EntriesIn(dir, names[..i]) == 0
  {
    if i > 0 {
      FlatEntries(dir, names, i - 1);
      ExtendFiles(dir, names, i - 1, []);
      assert names[i - 1] in names;
    }
  }

  lemma {:induction false} DirectoryEntries(dir: Node, names: seq<string>)
    requires dir.Directory? && names == SortedNames(dir.children.Keys)
    ensures EntriesAt(dir) == |dir.children| + EntriesIn(dir, names)
  {
  }

  lemma {:induction false} FlatShape(dir: Node, limits: Limits)
    requires dir.Directory? && limits.maxDepth > 0
    requires forall n | n in dir.children :: dir.children[n].File? && NameOk(n)
    ensures ShapeOk(dir) && DepthOk(dir, 0, limits.maxDepth)
  {
  }

  /** A directory of two unlinked files with usable names. */
  ghost predicate TwoFiles(dir: Node, x: string, y: string) {
    && dir.Directory? && dir.children.Keys == {x, y} && Ordering.Less(x, y)
    && NameOk(x) && NameOk(y) && PathOk([x]) && PathOk([y])
    && dir.children[x].File? && dir.children[y].File?
    && dir.children[x].stat.nlink == 1 && dir.children[y].stat.nlink == 1
  }

  /** The two records of such a directory. */
  lemma {:induction false} TwoFilesRecords(dir: Node, x: string, y: string, names: seq<string>)
    requires TwoFiles(dir, x, y) && names == SortedNames(dir.children.Keys)
    ensures var fs := FilesAt(dir, []);
      && |fs| == 2 && fs[0] == FileRecord([x], dir.children[x].stat, dir.children[x].content)
      && fs[1] == FileRecord([y], dir.children[y].stat, dir.children[y].content)
  {
    NamesOfTwo(dir.children.Keys, x, y);
    assert names[0] == x && names[1] == y && |names| == 2;
    FlatDirectory(dir, names, []);
  }

  lemma {:induction false} TwoFilesEntries(dir: Node, x: string, y: string, names: seq<string>)
    requires TwoFiles(dir, x, y) && names == SortedNames(dir.children.Keys)
    ensures EntriesAt(dir) == 2
  {
    NamesOfTwo(dir.children.Keys, x, y);
    FlatEntries(dir, names, 2);
    assert names[..2] == names;
    DirectoryEntries(dir, names);
    Ordering.LessIrreflexive(x);
    assert |dir.children| == |{x, y}| == 2;
  }

  /** Two unlinked records, the first of which uses up the byte budget and the second is empty. */
  lemma {:induction false} EmptyLast(fs: seq<FileRecord>, limits: Limits)
    requires |fs| == 2 && fs[0].stat.nlink == 1 && fs[1].stat.nlink == 1 && PathOk(fs[0].parts) && PathOk(fs[1].parts)
    requires fs[0].stat.size == limits.maxTotalBytes <= limits.maxFileBytes && fs[1].stat.size == 0
    ensures SumSizes(fs) == limits.maxTotalBytes && EachFileOk(fs, limits) && LinksAgree(fs)
    ensures !BudgetLeftForEmptyFiles(fs, limits)
  {
    assert fs[..1][..0] == [];
    assert SumSizes(fs[..1]) == limits.maxTotalBytes;
    assert SumSizes(fs) == SumSizes(fs[..1]) + fs[1].stat.size;
    assert !Cached(fs[..1], fs[1].stat);
  }

  /** With an empty file they are not: a directory of two unlinked files, whose first file uses up
      the byte budget exactly and whose second is empty, is within every limit and still refused. */
  lemma {:induction false} EmptyFileAfterExhaustedBudget(dir: Node, x: string, y: string, limits: Limits)
    requires TwoFiles(dir, x, y) && limits.Valid() && limits.maxFiles >= 2
    requires dir.children[x].stat.size == limits.maxTotalBytes <= limits.maxFileBytes
    requires dir.children[y].stat.size == 0
    ensures WithinLimits(dir, limits)
    ensures !BudgetLeftForEmptyFiles(FilesAt(dir, []), limits) && !Admissible(dir, limits)
  {
    TwoFilesRecords(dir, x, y, SortedNames(dir.children.Keys));
    TwoFilesEntries(dir, x, y, SortedNames(dir.children.Keys));
    FlatShape(dir, limits);
    EmptyLast(FilesAt(dir, []), limits);
  }

  /** Concretely: a one-byte file `a` and an empty file `b` under a budget of one byte. */
  lemma {:induction false} OneByteAndNothing(a: Stat, b: Stat, dir: Node)
    requires a.size == 1 && a.nlink == 1 && b.size == 0 && b.nlink == 1
    requires dir == Directory(map["a" := File(a, [0]), "b" := File(b, [])])
    ensures WithinLimits(dir, Limits(2, 1, 1, 1)) && !Admissible(dir, Limits(2, 1, 1, 1))
  {
    assert Ordering.Less("a", "b");
    EmptyFileAfterExhaustedBudget(dir, "a", "b", Limits(2, 1, 1, 1));
  }
}
