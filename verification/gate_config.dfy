/**
 Quality-gate configuration: inheritance through `extends`, and the deep merge of a parent with
 its overrides. Loading recurses without a depth limit; it ends because a resolved path may not
 repeat and only finitely many files exist.
 */
module GateConfig {
  import opened Basics

  /** A configuration value: an object, or anything else (compared as a whole). */
  datatype Value = Atom(content: string) | Dict(fields: map<string, Value>)

  type Table = map<string, Value>

  // ----- deep merge

  function Merge(base: Table, override: Table): (merged: Table)
    ensures merged.Keys == base.Keys + override.Keys
    decreases Dict(override), 0
  {
    map k | k in base.Keys + override.Keys ::
      if k !in override then base[k]
      else MergeValue(if k in base then Some(base[k]) else None, override[k])
  }

  function MergeValue(current: Option<Value>, value: Value): Value
    decreases value, 1
  {
    if current.Some? && current.value.Dict? && value.Dict? then Dict(Merge(current.value.fields, value.fields))
      else value
  }

  /** The copy-and-update loop over the overriding items, in any order. */
  method DeepMerge(base: Table, override: Table) returns (merged: Table)
    ensures merged == Merge(base, override)
    decreases Dict(override)
  {
    merged := base;
    var left := override.Keys;
    while left != {}
      invariant left <= override.Keys
      invariant merged.Keys == base.Keys + (override.Keys - left)
      invariant forall k | k in merged :: merged[k] == if k in left || k !in override then base[k]
        else Merge(base, override)[k]
      decreases left
    {
      var key :| key in left;
      var value := override[key];
      if key in merged && merged[key].Dict? && value.Dict? {
        var inner := DeepMerge(merged[key].fields, value.fields);
        merged := merged[key := Dict(inner)];
      } else {
        merged := merged[key := value];
      }
      left := left - {key};
    }
  }

  lemma {:induction false} MergeAt(base: Table, override: Table, k: string)
    requires k in override
    ensures Merge(base, override)[k] ==
      if k in base && base[k].Dict? && override[k].Dict? then Dict(Merge(base[k].fields, override[k].fields))
        else override[k]
  {
    assert Merge(base, override)[k] == MergeValue(if k in base then Some(base[k]) else None, override[k]);
  }

  /** Merging with nothing, and nothing with a table, changes nothing. */
  lemma {:induction false} MergeIdentity(t: Table)
    ensures Merge(t, map[]) == t && Merge(map[], t) == t
  {
  }

  /** Overrides are final: applying the same overrides again changes nothing. */
  lemma {:induction false} MergeAbsorbs(base: Table, override: Table)
    ensures Merge(Merge(base, override), override) == Merge(base, override)
    decreases Dict(override)
  {
    var once := Merge(base, override);
    forall k | k in override ensures Merge(once, override)[k] == once[k] {
      MergeAt(base, override, k);
      MergeAt(once, override, k);
      if override[k].Dict? {
        assert Dict(override[k].fields) == override[k];
        if k in base && base[k].Dict? {
          MergeAbsorbs(base[k].fields, override[k].fields);
        } else {
          MergeSelf(override[k].fields);
        }
      }
    }
    assert Merge(once, override).Keys == once.Keys;
  }

  lemma {:induction false} MergeSelf(t: Table)
    ensures Merge(t, t) == t
    decreases Dict(t)
  {
    forall k | k in t ensures Merge(t, t)[k] == t[k] {
      MergeAt(t, t, k);
      if t[k].Dict? { MergeSelf(t[k].fields); }
    }
  }

  /** The value under a path of keys, if every key on the way leads into a table. */
  function Find(t: Table, path: seq<string>): Option<Value>
    requires path != []
    decreases |path|
  {
    if path[0] !in t then None
    else if |path| == 1 then Some(t[path[0]])
    else if t[path[0]].Dict? then Find(t[path[0]].fields, path[1..])
    else None
  }

  /** The table holds an atom on the way, so nothing lies under the path. */
  predicate Blocks(t: Table, path: seq<string>)
    requires path != []
    decreases |path|
  {
    |path| > 1 && path[0] in t && (t[path[0]].Atom? || Blocks(t[path[0]].fields, path[1..]))
  }

  /** Along every path the override decides where it says something: its atoms replace whatever lies
      there and below, its tables are merged into tables, and elsewhere the base shows through. */
  lemma {:induction false} MergeFinds(base: Table, override: Table, path: seq<string>)
    requires path != []
    ensures var o, b, m := Find(override, path), Find(base, path), Find(Merge(base, override), path);
      && (o.Some? && o.value.Atom? ==> m == o)
      && (o.Some? && o.value.Dict? ==>
            m == Some(Dict(if b.Some? && b.value.Dict? then Merge(b.value.fields, o.value.fields) else o.value.fields)))
      && (Blocks(override, path) ==> m.None?)
      && (o.None? && !Blocks(override, path) ==> m == b)
    decreases |path|
  {
    var k := path[0];
    if k in override {
      MergeAt(base, override, k);
      if |path| > 1 && override[k].Dict? {
        if k in base && base[k].Dict? {
          MergeFinds(base[k].fields, override[k].fields, path[1..]);
        } else {
          MergeIdentity(override[k].fields);
          MergeFinds(map[], override[k].fields, path[1..]);
        }
      }
    }
  }

  // ----- inheritance

  type Path = string
  type Resolved = string

  datatype Extends = NoParent | BadParent | Parent(text: string)

  datatype File = NotObject | Config(fields: Table, parent: Extends)

  /** A file system: how paths resolve, what each resolved file holds, and how `extends` is read
      against the path of the file that contains it. Only finitely many files exist. */
  datatype Files = Files(resolve: Path -> Resolved, content: map<Resolved, File>, relative: (Path, string) -> Path)

  /** Load a configuration with everything it inherits. */
  method LoadGateConfig(fs: Files, path: Path, parents: seq<Resolved>) returns (r: Attempt<Table>)
    ensures r == Loaded(fs, path, parents)
    decreases fs.content.Keys - (set p | p in parents)
  {
    var resolved := fs.resolve(path);
    if resolved in parents { return Raised; }
    if resolved !in fs.content { return Raised; }
    var raw := fs.content[resolved];
    if raw.NotObject? { return Raised; }
    if raw.parent.NoParent? { return Returned(raw.fields); }
    if raw.parent.BadParent? { return Raised; }
    assert resolved in fs.content.Keys - (set p | p in parents);
    assert resolved in parents + [resolved];
    var inherited := LoadGateConfig(fs, fs.relative(path, raw.parent.text), parents + [resolved]);
    if inherited.Raised? { return Raised; }
    var merged := DeepMerge(inherited.value, raw.fields);
    return Returned(merged);
  }

  function Loaded(fs: Files, path: Path, parents: seq<Resolved>): Attempt<Table>
    decreases fs.content.Keys - (set p | p in parents)
  {
    var resolved := fs.resolve(path);
    if resolved in parents || resolved !in fs.content || fs.content[resolved].NotObject? then Raised
    else
      var raw := fs.content[resolved];
      match raw.parent
      case NoParent => Returned(raw.fields)
      case BadParent => Raised
      case Parent(text) =>
        assert resolved in fs.content.Keys - (set p | p in parents);
        assert resolved in parents + [resolved];
        var inherited := Loaded(fs, fs.relative(path, text), parents + [resolved]);
        if inherited.Raised? then Raised else Returned(Merge(inherited.value, raw.fields))
  }

  ghost predicate IsConfig(fs: Files, path: Path) {
    fs.resolve(path) in fs.content && fs.content[fs.resolve(path)].Config?
  }

  /** The file at `path` extends the file at `next`. */
  ghost predicate Extending(fs: Files, path: Path, next: Path) {
    IsConfig(fs, path)
    && var parent := fs.content[fs.resolve(path)].parent; parent.Parent? && fs.relative(path, parent.text) == next
  }

  /** The chain of paths from a file to the root of its inheritance. */
  ghost predicate Chain(fs: Files, chain: seq<Path>) {
    && chain != []
    && (forall i | 0 <= i < |chain| :: IsConfig(fs, chain[i]))
    && (forall i, j | 0 <= i && j == i + 1 && j < |chain| :: Extending(fs, chain[i], chain[j]))
    && fs.content[fs.resolve(chain[|chain| - 1])].parent.NoParent?
  }

  /** No file is met twice, nor any of the given ones. */
  ghost predicate Acyclic(fs: Files, chain: seq<Path>, parents: seq<Resolved>) {
    && (forall i, j | 0 <= i < j < |chain| :: fs.resolve(chain[i]) != fs.resolve(chain[j]))
    && (forall i | 0 <= i < |chain| :: fs.resolve(chain[i]) !in parents)
  }

  /** Overrides applied from the root down. */
  ghost function MergedChain(fs: Files, chain: seq<Path>): Table
    requires Chain(fs, chain)
  {
    var fields := fs.content[fs.resolve(chain[0])].fields;
    if |chain| == 1 then fields else
      ChainTail(fs, chain);
      Merge(MergedChain(fs, chain[1..]), fields)
  }

  lemma {:induction false} ChainTail(fs: Files, chain: seq<Path>)
    requires Chain(fs, chain) && |chain| > 1
    ensures Chain(fs, chain[1..])
  {
    var tail := chain[1..];
    assert forall i | 0 <= i < |tail| :: tail[i] == chain[i + 1];
    forall i, j | 0 <= i && j == i + 1 && j < |tail| ensures Extending(fs, tail[i], tail[j]) {
      assert Extending(fs, chain[i + 1], chain[j + 1]);
    }
  }

  lemma {:induction false} ChainExtends(fs: Files, path: Path, tail: seq<Path>)
    requires Chain(fs, tail) && Extending(fs, path, tail[0])
    ensures Chain(fs, [path] + tail)
  {
    var chain := [path] + tail;
    assert forall i | 1 <= i < |chain| :: chain[i] == tail[i - 1];
    forall i, j | 0 <= i && j == i + 1 && j < |chain| ensures Extending(fs, chain[i], chain[j]) {
      if i > 0 { assert Extending(fs, tail[i - 1], tail[j - 1]); }
    }
  }

  /** A load that returns has followed an acyclic chain to its root and merged it. */
  lemma {:induction false} LoadFollowsChain(fs: Files, path: Path, parents: seq<Resolved>) returns (chain: seq<Path>)
    requires Loaded(fs, path, parents).Returned?
    ensures Chain(fs, chain) && chain[0] == path && Acyclic(fs, chain, parents)
    ensures Loaded(fs, path, parents).value == MergedChain(fs, chain)
    decreases fs.content.Keys - (set p | p in parents)
  {
    var resolved := fs.resolve(path);
    var raw := fs.content[resolved];
    if raw.parent.NoParent? {
      chain := [path];
    } else {
      assert resolved in fs.content.Keys - (set p | p in parents);
      assert resolved in parents + [resolved];
      var tail := LoadFollowsChain(fs, fs.relative(path, raw.parent.text), parents + [resolved]);
      chain := [path] + tail;
      ChainExtends(fs, path, tail);
      assert chain[1..] == tail;
      assert forall i | 1 <= i < |chain| :: chain[i] == tail[i - 1];
    }
  }

  /** Along an acyclic chain, the load returns the merged chain. */
  lemma {:induction false} ChainLoads(fs: Files, chain: seq<Path>, parents: seq<Resolved>)
    requires Chain(fs, chain) && Acyclic(fs, chain, parents)
    ensures Loaded(fs, chain[0], parents) == Returned(MergedChain(fs, chain))
    decreases |chain|
  {
    if |chain| > 1 {
      var tail, resolved := chain[1..], fs.resolve(chain[0]);
      ChainTail(fs, chain);
      assert forall i | 0 <= i < |tail| :: tail[i] == chain[i + 1];
      ChainLoads(fs, tail, parents + [resolved]);
    }
  }

  /** Loading returns exactly when the chain of `extends` reaches a root without repeating a file;
      every cycle, missing file or malformed file raises. */
  lemma {:induction false} LoadIffAcyclicChain(fs: Files, path: Path)
    ensures Loaded(fs, path, []).Returned? <==>
      exists chain :: Chain(fs, chain) && chain[0] == path && Acyclic(fs, chain, [])
  {
    if Loaded(fs, path, []).Returned? { var chain := LoadFollowsChain(fs, path, []); }
    if chain :| Chain(fs, chain) && chain[0] == path && Acyclic(fs, chain, []) { ChainLoads(fs, chain, []); }
  }

  /** A walk along `extends`, however long. */
  ghost predicate Walk(fs: Files, walk: seq<Path>) {
    walk != [] && forall i, j | 0 <= i && j == i + 1 && j < |walk| :: Extending(fs, walk[i], walk[j])
  }

  lemma {:induction false} WalkFollowsChain(fs: Files, walk: seq<Path>, chain: seq<Path>, k: nat)
    requires Walk(fs, walk) && Chain(fs, chain) && walk[0] == chain[0] && k < |walk|
    ensures k < |chain| && walk[k] == chain[k]
  {
    if k > 0 {
      WalkFollowsChain(fs, walk, chain, k - 1);
      assert Extending(fs, walk[k - 1], walk[k]);
      assert k < |chain|;
      assert Extending(fs, chain[k - 1], chain[k]);
    }
  }

  /** Inheritance that ever returns to a file is rejected. */
  lemma {:induction false} CycleIsRejected(fs: Files, walk: seq<Path>, i: nat, j: nat)
    requires Walk(fs, walk) && i < j < |walk| && fs.resolve(walk[i]) == fs.resolve(walk[j])
    ensures Loaded(fs, walk[0], []).Raised?
  {
    if Loaded(fs, walk[0], []).Returned? {
      var chain := LoadFollowsChain(fs, walk[0], []);
      WalkFollowsChain(fs, walk, chain, i);
      WalkFollowsChain(fs, walk, chain, j);
      assert false;
    }
  }
}
