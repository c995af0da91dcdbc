/**
 What an identity says about a tree, without the walk's own functions: limits and entries in
 terms of the nodes found along paths, and the order of the entries spelled out.
 */
module ArtifactMeaning {
  import opened Basics
  import opened ArtifactSpec
  import opened ArtifactWalk
  import Ordering
  import Text

  // ----- shape and depth along paths

  lemma {:induction false} LookupTail(node: Node, parts: seq<string>)
    requires parts != [] && Lookup(node, parts).Some?
    ensures node.Directory? && parts[0] in node.children
    ensures Lookup(node, parts) == Lookup(node.children[parts[0]], parts[1..])
  {
  }

  lemma {:induction false} DepthBoundsPaths(node: Node, depth: nat, maxDepth: nat, parts: seq<string>)
    requires DepthOk(node, depth, maxDepth) && depth <= maxDepth && Lookup(node, parts).Some?
    ensures depth + |parts| <= maxDepth
    decreases |parts|
  {
    if parts != [] {
      LookupTail(node, parts);
      DepthBoundsPaths(node.children[parts[0]], depth + 1, maxDepth, parts[1..]);
    }
  }

  lemma {:induction false} PathsBoundDepth(node: Node, depth: nat, maxDepth: nat)
    requires forall parts | Lookup(node, parts).Some? :: depth + |parts| <= maxDepth
    ensures DepthOk(node, depth, maxDepth)
    decreases node
  {
    if node.Directory? {
      forall name | name in node.children
        ensures depth < maxDepth && DepthOk(node.children[name], depth + 1, maxDepth)
      {
        LookupStep(node, name, []);
        assert Lookup(node, [name] + []).Some?;
        forall rest | Lookup(node.children[name], rest).Some? ensures depth + 1 + |rest| <= maxDepth {
          LookupStep(node, name, rest);
          assert Lookup(node, [name] + rest).Some?;
        }
        PathsBoundDepth(node.children[name], depth + 1, maxDepth);
      }
    }
  }

  /** The depth limit holds exactly when no path into the tree is longer than it. */
  lemma {:induction false} DepthIff(root: Node, maxDepth: nat)
    ensures DepthOk(root, 0, maxDepth) <==> forall parts | Lookup(root, parts).Some? :: |parts| <= maxDepth
  {
    if DepthOk(root, 0, maxDepth) {
      forall parts | Lookup(root, parts).Some? ensures |parts| <= maxDepth {
        DepthBoundsPaths(root, 0, maxDepth, parts);
      }
    } else if forall parts | Lookup(root, parts).Some? :: |parts| <= maxDepth {
      PathsBoundDepth(root, 0, maxDepth);
    }
  }

  /** A path leads to a real directory or a regular file, under usable names. */
  ghost predicate Ordinary(node: Node, parts: seq<string>) {
    && Lookup(node, parts).Some? && (Lookup(node, parts).value.File? || Lookup(node, parts).value.Directory?)
    && forall i | 0 <= i < |parts| :: parts[i] != "" && parts[i] != "." && parts[i] != ".."
  }

  lemma {:induction false} ShapeMakesOrdinary(node: Node, parts: seq<string>)
    requires ShapeOk(node) && Lookup(node, parts).Some?
    ensures Ordinary(node, parts)
    decreases |parts|
  {
    if parts != [] {
      LookupTail(node, parts);
      var rest := parts[1..];
      ShapeMakesOrdinary(node.children[parts[0]], rest);
      forall i | 0 <= i < |parts| ensures parts[i] != "" && parts[i] != "." && parts[i] != ".." {
        if i > 0 { assert parts[i] == rest[i - 1]; } else { assert NameOk(parts[0]); }
      }
    }
  }

  lemma {:induction false} OrdinaryMakesShape(node: Node)
    requires forall parts | Lookup(node, parts).Some? :: Ordinary(node, parts)
    ensures ShapeOk(node)
    decreases node
  {
    assert Lookup(node, []) == Some(node) && Ordinary(node, []);
    if node.Directory? {
      forall name | name in node.children ensures NameOk(name) && ShapeOk(node.children[name]) {
        LookupStep(node, name, []);
        assert Ordinary(node, [name] + []) && ([name] + [])[0] == name;
        forall rest | Lookup(node.children[name], rest).Some? ensures Ordinary(node.children[name], rest) {
          LookupStep(node, name, rest);
          var path := [name] + rest;
          assert Ordinary(node, path);
          forall i | 0 <= i < |rest| ensures rest[i] != "" && rest[i] != "." && rest[i] != ".." {
            assert rest[i] == path[i + 1];
          }
        }
        OrdinaryMakesShape(node.children[name]);
      }
    }
  }

  /** The shape is right exactly when every path is ordinary: no links, no special files, usable names. */
  lemma {:induction false} ShapeIff(root: Node)
    ensures ShapeOk(root) <==> forall parts | Lookup(root, parts).Some? :: Ordinary(root, parts)
  {
    if ShapeOk(root) {
      forall parts | Lookup(root, parts).Some? ensures Ordinary(root, parts) { ShapeMakesOrdinary(root, parts); }
    } else if forall parts | Lookup(root, parts).Some? :: Ordinary(root, parts) {
      OrdinaryMakesShape(root);
    }
  }

  // ----- the number of entries

  lemma {:induction false} EntriesAppend(dir: Node, a: seq<string>, b: seq<string>)
    requires dir.Directory? && (forall n | n in a :: n in dir.children) && (forall n | n in b :: n in dir.children)
    ensures forall n | n in a + b :: n in dir.children
    ensures EntriesIn(dir, a + b) == EntriesIn(dir, a) + EntriesIn(dir, b)
    decreases |b|
  {
    if b == [] {
      assert a + b == a;
    } else {
      var front, last := b[..|b| - 1], b[|b| - 1];
      EntriesAppend(dir, a, front);
      assert (a + b)[..|a + b| - 1] == a + front && (a + b)[|a + b| - 1] == last;
    }
  }

  lemma {:induction false} EntriesOfOne(dir: Node, name: string)
    requires dir.Directory? && name in dir.children
    ensures EntriesIn(dir, [name]) == EntriesAt(dir.children[name])
  {
    assert [name][..0] == [];
  }

  /** Only the children under the listed names count. */
  lemma {:induction false} EntriesAgree(dir: Node, dir': Node, names: seq<string>)
    requires dir.Directory? && dir'.Directory?
    requires forall n | n in names :: n in dir.children && n in dir'.children && dir.children[n] == dir'.children[n]
    ensures EntriesIn(dir, names) == EntriesIn(dir', names)
    decreases |names|
  {
    if names != [] {
      var front, last := names[..|names| - 1], names[|names| - 1];
      assert names == front + [last];
      EntriesAgree(dir, dir', front);
    }
  }

  lemma {:induction false} RemovedIsGone(s: seq<string>, k: nat, x: string)
    requires Ordering.Canonical(s, Self) && k < |s| && s[k] == x
    ensures x !in s[..k] + s[k + 1..]
  {
    var fewer := s[..k] + s[k + 1..];
    if x in fewer {
      var i :| 0 <= i < |fewer| && fewer[i] == x;
      var j := if i < k then i else i + 1;
      assert s[j] == x;
      if j < k { assert Ordering.Less(Self(s[j]), Self(s[k])); } else { assert Ordering.Less(Self(s[k]), Self(s[j])); }
      Ordering.LessIrreflexive(x);
    }
  }

  lemma {:induction false} RemovedIsCanonical(s: seq<string>, k: nat)
    requires Ordering.Canonical(s, Self) && k < |s|
    ensures Ordering.Canonical(s[..k] + s[k + 1..], Self)
  {
    var fewer := s[..k] + s[k + 1..];
    forall i, j | 0 <= i < j < |fewer| ensures Ordering.Less(Self(fewer[i]), Self(fewer[j])) {
      var u, v := if i < k then i else i + 1, if j < k then j else j + 1;
      assert fewer[i] == s[u] && fewer[j] == s[v] && u < v;
      assert Ordering.Less(Self(s[u]), Self(s[v]));
    }
  }

  lemma {:induction false} RemovedMembers(s: seq<string>, k: nat, x: string)
    requires k < |s| && x != s[k]
    ensures x in s[..k] + s[k + 1..] <==> x in s
  {
    assert s == s[..k] + [s[k]] + s[k + 1..];
  }

  lemma {:induction false} WithoutName(few: seq<string>, more: seq<string>, k: nat)
    requires Ordering.Canonical(few, Self) && Ordering.Canonical(more, Self) && k < |more| && more[k] !in few
    requires forall x :: x in more <==> x in few || x == more[k]
    ensures few == more[..k] + more[k + 1..]
  {
    var fewer := more[..k] + more[k + 1..];
    RemovedIsCanonical(more, k);
    RemovedIsGone(more, k, more[k]);
    forall x ensures x in few <==> x in fewer {
      if x != more[k] { RemovedMembers(more, k, x); }
    }
    Ordering.CanonicalUnique(few, fewer, Self);
  }

  /** One more name splits the sorted names around it. */
  lemma {:induction false} SortedWithOneMore(few: seq<string>, more: seq<string>, name: string)
    returns (a: seq<string>, b: seq<string>)
    requires Ordering.Canonical(few, Self) && Ordering.Canonical(more, Self) && name !in few
    requires forall x :: x in more <==> x in few || x == name
    ensures few == a + b && more == a + [name] + b
  {
    assert name in more;
    var k :| 0 <= k < |more| && more[k] == name;
    a, b := more[..k], more[k + 1..];
    WithoutName(few, more, k);
  }

  lemma {:induction false} EntriesSplit(dir: Node, dir': Node, a: seq<string>, name: string, b: seq<string>)
    requires dir.Directory? && dir'.Directory? && name in dir'.children
    requires forall n | n in a + b :: n in dir.children && n in dir'.children && dir.children[n] == dir'.children[n]
    ensures forall n | n in a + [name] + b :: n in dir'.children
    ensures EntriesIn(dir', a + [name] + b) == EntriesIn(dir, a + b) + EntriesAt(dir'.children[name])
  {
    assert forall n | n in a :: n in a + b;
    assert forall n | n in b :: n in a + b;
    EntriesAgree(dir, dir', a + b);
    EntriesAppend(dir', a, b);
    EntriesAppend(dir', a, [name]);
    EntriesAppend(dir', a + [name], b);
    EntriesOfOne(dir', name);
  }

  lemma {:induction false} OneMoreKey(children: map<string, Node>, name: string, child: Node)
    requires name !in children
    ensures |children[name := child]| == |children| + 1
  {
  }

  /** A new child counts as one entry and everything below it. */
  lemma {:induction false} OneMoreEntry(children: map<string, Node>, name: string, child: Node)
    requires name !in children
    ensures EntriesAt(Directory(children[name := child]))
      == EntriesAt(Directory(children)) + 1 + EntriesAt(child)
  {
    var dir, dir' := Directory(children), Directory(children[name := child]);
    assert dir'.children.Keys == children.Keys + {name};
    var few, more := SortedNames(children.Keys), SortedNames(dir'.children.Keys);
    var a, b := SortedWithOneMore(few, more, name);
    EntriesSplit(dir, dir', a, name, b);
    DirectoryEntries(dir, few);
    DirectoryEntries(dir', more);
    OneMoreKey(children, name, child);
  }

  lemma {:induction false} NoEntries()
    ensures EntriesAt(Directory(map[])) == 0
  {
    var dir := Directory(map[]);
    DirectoryEntries(dir, SortedNames(dir.children.Keys));
    assert |SortedNames(dir.children.Keys)| == |dir.children.Keys| == 0;
  }

  // ----- bytes read

  /** No two records are the same inode. */
  ghost predicate NoSharedInode(fs: seq<FileRecord>) {
    forall i, j | 0 <= i < j < |fs| :: (fs[i].stat.dev, fs[i].stat.ino) != (fs[j].stat.dev, fs[j].stat.ino)
  }

  /** Without a shared inode every byte is read. */
  lemma {:induction false} UnsharedIsAllRead(fs: seq<FileRecord>)
    requires NoSharedInode(fs)
    ensures HashedBytes(fs) == SumSizes(fs)
  {
    if fs != [] { UnsharedIsAllRead(fs[..|fs| - 1]); }
  }

  /** Hard links of one known inode are read once. */
  lemma {:induction false} SharedIsReadOnce(fs: seq<FileRecord>, dev: nat, ino: nat)
    requires fs != [] && dev != 0 && ino != 0
    requires forall i | 0 <= i < |fs| :: fs[i].stat.dev == dev && fs[i].stat.ino == ino && fs[i].stat.nlink > 1
    ensures HashedBytes(fs) == fs[0].stat.size
  {
    var front, last := fs[..|fs| - 1], fs[|fs| - 1];
    if |fs| > 1 {
      SharedIsReadOnce(front, dev, ino);
      assert LinkKey(front[0].stat) == LinkKey(last.stat);
    }
  }

  /** Files with a single name, or on an unidentified device, are always read. */
  lemma {:induction false} UnlinkedIsAllRead(fs: seq<FileRecord>)
    requires forall i | 0 <= i < |fs| :: fs[i].stat.nlink <= 1 || fs[i].stat.dev == 0 || fs[i].stat.ino == 0
    ensures HashedBytes(fs) == SumSizes(fs)
  {
    if fs != [] { UnlinkedIsAllRead(fs[..|fs| - 1]); }
  }

  // ----- the identity

  /** The regular file a path of names leads to has this entry. */
  ghost predicate Describes(e: Entry, root: Node, parts: seq<string>, sha: Bytes -> string) {
    && Lookup(root, parts).Some? && Lookup(root, parts).value.File?
    && e.path == Text.Join(parts) && e.sizeBytes == Lookup(root, parts).value.stat.size
    && e.sha256 == sha(Lookup(root, parts).value.content)
  }

  lemma {:induction false} EntryDescribes(root: Node, sha: Bytes -> string, f: FileRecord)
    requires f in FilesAt(root, [])
    ensures Describes(EntryOf(f, sha), root, f.parts, sha)
  {
    var tail := FilesAreReachable(root, [], f);
    assert f.parts == tail;
  }

  lemma {:induction false} ReachableFromRoot(root: Node, parts: seq<string>)
    requires Lookup(root, parts).Some? && Lookup(root, parts).value.File?
    ensures FileRecord(parts, Lookup(root, parts).value.stat, Lookup(root, parts).value.content) in FilesAt(root, [])
  {
    ReachableAreFiles(root, [], parts);
    assert [] + parts == parts;
  }

  lemma {:induction false} DescribedIsListed(root: Node, sha: Bytes -> string, e: Entry, parts: seq<string>)
    requires Describes(e, root, parts, sha)
    ensures exists f :: f in FilesAt(root, []) && e == EntryOf(f, sha)
  {
    var f := FileRecord(parts, Lookup(root, parts).value.stat, Lookup(root, parts).value.content);
    ReachableFromRoot(root, parts);
    assert e == EntryOf(f, sha);
  }

  /** An identity has exactly one entry for every regular file found along some path, with its joined
      path, its size and the hash of its content. */
  lemma {:induction false} EntriesDescribe(id: Identity, root: Node, sha: Bytes -> string, e: Entry)
    requires Identifies(id, root, sha)
    ensures e in id.entries <==> exists parts :: Describes(e, root, parts, sha)
  {
    if e in id.entries {
      var f :| f in FilesAt(root, []) && e == EntryOf(f, sha);
      EntryDescribes(root, sha, f);
    }
    if parts :| Describes(e, root, parts, sha) { DescribedIsListed(root, sha, e, parts); }
  }

  /** Its entries are in Python's string order of their paths. */
  lemma {:induction false} EntriesInOrder(id: Identity, root: Node, sha: Bytes -> string, i: nat, j: nat)
    requires Identifies(id, root, sha) && i < j < |id.entries|
    ensures Ordering.LexicallyBefore(id.entries[i].path, id.entries[j].path)
  {
    assert Ordering.Less(PathOf(id.entries[i]), PathOf(id.entries[j]));
    Ordering.LessIffLexical(id.entries[i].path, id.entries[j].path);
  }

  /** A proper prefix comes first: `model` is listed before `model.bin`. */
  lemma {:induction false} PrefixListedFirst(id: Identity, root: Node, sha: Bytes -> string, i: nat, j: nat)
    requires Identifies(id, root, sha) && i < |id.entries| && j < |id.entries|
    requires id.entries[i].path < id.entries[j].path
    ensures i < j
  {
    Ordering.PrefixIsLess(id.entries[i].path, id.entries[j].path);
    if j < i {
      assert Ordering.Less(PathOf(id.entries[j]), PathOf(id.entries[i]));
      Ordering.LessAsymmetric(id.entries[i].path, id.entries[j].path);
    }
  }

  /** So a one-byte file `a` and an empty file `ab` are refused under a budget of one byte. */
  lemma {:induction false} EmptyAfterItsPrefix(a: Stat, b: Stat, dir: Node)
    requires a.size == 1 && a.nlink == 1 && b.size == 0 && b.nlink == 1
    requires dir == Directory(map["a" := File(a, [0]), "ab" := File(b, [])])
    ensures WithinLimits(dir, Limits(2, 1, 1, 1)) && !Admissible(dir, Limits(2, 1, 1, 1))
  {
    assert "ab"[..1] == "a";
    Ordering.PrefixIsLess("a", "ab");
    EmptyFileAfterExhaustedBudget(dir, "a", "ab", Limits(2, 1, 1, 1));
  }
}
