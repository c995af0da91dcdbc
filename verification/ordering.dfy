/**
 Python's string order and `sorted(..., key=...)`, which the repository uses as its
 final tie-break (cell ids), for canonical catalogs and for artifact entries.
 */
module Ordering {

  /** `a < b` for Python strings: code point by code point, a proper prefix first. */
  predicate Less(a: string, b: string) {
    b != [] && (a == [] || a[0] < b[0] || (a[0] == b[0] && Less(a[1..], b[1..])))
  }

  lemma {:induction false} LessIrreflexive(a: string)
    ensures !Less(a, a)
  {
    if a != [] { LessIrreflexive(a[1..]); }
  }

  lemma {:induction false} LessTransitive(a: string, b: string, c: string)
    requires Less(a, b) && Less(b, c)
    ensures Less(a, c)
  {
    if a != [] && a[0] == b[0] && b[0] == c[0] {
      LessTransitive(a[1..], b[1..], c[1..]);
    }
  }

  lemma {:induction false} LessTotal(a: string, b: string)
    ensures Less(a, b) || a == b || Less(b, a)
  {
    if a != [] && b != [] && a[0] == b[0] {
      LessTotal(a[1..], b[1..]);
      assert a == [a[0]] + a[1..] && b == [b[0]] + b[1..];
    }
  }

  lemma {:induction false} LessAsymmetric(a: string, b: string)
    requires Less(a, b)
    ensures !Less(b, a)
  {
    if Less(b, a) {
      LessTransitive(a, b, a);
      LessIrreflexive(a);
    }
  }

  /** The order without recursion: a proper prefix comes first, and otherwise the first place where
      the two differ decides. */
  ghost predicate LexicallyBefore(a: string, b: string) {
    (a < b) || exists k: nat :: k < |a| && k < |b| && a[..k] == b[..k] && a[k] < b[k]
  }

  lemma {:induction false} LessIsLexical(a: string, b: string)
    requires Less(a, b)
    ensures LexicallyBefore(a, b)
  {
    if a != [] && a[0] == b[0] {
      var c, d := a[1..], b[1..];
      LessIsLexical(c, d);
      assert a == [a[0]] + c && b == [b[0]] + d;
      if !(c < d) {
        var k: nat :| k < |c| && k < |d| && c[..k] == d[..k] && c[k] < d[k];
        assert a[..k + 1] == [a[0]] + c[..k] && b[..k + 1] == [b[0]] + d[..k];
        assert a[k + 1] < b[k + 1];
      }
    } else if a != [] {
      assert a[..0] == b[..0] && a[0] < b[0];
    }
  }

  lemma {:induction false} LexicalIsLess(a: string, b: string)
    requires LexicallyBefore(a, b)
    ensures Less(a, b)
  {
    if a < b {
      PrefixIsLess(a, b);
    } else {
      var k: nat :| k < |a| && k < |b| && a[..k] == b[..k] && a[k] < b[k];
      DifferenceDecides(a, b, k);
    }
  }

  lemma {:induction false} PrefixIsLess(a: string, b: string)
    requires a < b
    ensures Less(a, b)
  {
    if a != [] { PrefixIsLess(a[1..], b[1..]); }
  }

  lemma {:induction false} DifferenceDecides(a: string, b: string, k: nat)
    requires k < |a| && k < |b| && a[..k] == b[..k] && a[k] < b[k]
    ensures Less(a, b)
  {
    if k > 0 {
      assert a[0] == a[..k][0] == b[..k][0] == b[0];
      assert a[1..][..k - 1] == a[..k][1..] && b[1..][..k - 1] == b[..k][1..];
      DifferenceDecides(a[1..], b[1..], k - 1);
    }
  }

  /** `Less` is Python's string order. */
  lemma {:induction false} LessIffLexical(a: string, b: string)
    ensures Less(a, b) <==> LexicallyBefore(a, b)
  {
    if Less(a, b) { LessIsLexical(a, b); }
    if LexicallyBefore(a, b) { LexicalIsLess(a, b); }
  }

  /** No two positions carry the same key. */
  ghost predicate DistinctKeys<T(!new)>(s: seq<T>, key: T -> string) {
    forall i, j | 0 <= i < j < |s| :: key(s[i]) != key(s[j])
  }

  /** Strictly increasing by key: what "sorted and unique" means for a canonical list. */
  ghost predicate Canonical<T(!new)>(s: seq<T>, key: T -> string) {
    forall i, j | 0 <= i < j < |s| :: Less(key(s[i]), key(s[j]))
  }

  function Insert<T(!new)>(x: T, s: seq<T>, key: T -> string): (r: seq<T>)
    ensures |r| == |s| + 1
    ensures multiset(r) == multiset(s) + multiset{x}
  {
    if s == [] || !Less(key(s[0]), key(x)) then [x] + s
    else
      assert s == [s[0]] + s[1..];
      [s[0]] + Insert(x, s[1..], key)
  }

  /** `sorted(s, key=key)`. */
  function Sort<T(!new)>(s: seq<T>, key: T -> string): (r: seq<T>)
    ensures |r| == |s|
    ensures multiset(r) == multiset(s)
  {
    if s == [] then [] else
      assert s == [s[0]] + s[1..];
      Insert(s[0], Sort(s[1..], key), key)
  }

  lemma {:induction false} InsertCanonical<T(!new)>(x: T, s: seq<T>, key: T -> string)
    requires Canonical(s, key)
    requires forall y | y in s :: key(y) != key(x)
    ensures Canonical(Insert(x, s, key), key)
  {
    var r := Insert(x, s, key);
    if s == [] {
    } else if !Less(key(s[0]), key(x)) {
      LessTotal(key(x), key(s[0]));
      forall j | 0 < j < |r| ensures Less(key(x), key(r[j])) {
        if j > 1 { LessTransitive(key(x), key(s[0]), key(s[j - 1])); }
      }
    } else {
      var tail := Insert(x, s[1..], key);
      InsertCanonical(x, s[1..], key);
      forall j | 0 < j < |r| ensures Less(key(s[0]), key(r[j])) {
        assert r[j] == tail[j - 1] && tail[j - 1] in multiset(tail);
        assert tail[j - 1] == x || tail[j - 1] in s[1..];
      }
    }
  }

  /** Sorting a list with pairwise different keys gives the canonical list of its elements. */
  lemma {:induction false} SortCanonical<T(!new)>(s: seq<T>, key: T -> string)
    requires DistinctKeys(s, key)
    ensures Canonical(Sort(s, key), key)
    ensures forall x :: x in Sort(s, key) <==> x in s
  {
    SortMembers(s, key);
    if s != [] {
      SortCanonical(s[1..], key);
      InsertCanonical(s[0], Sort(s[1..], key), key);
    }
  }

  lemma {:induction false} SortMembers<T(!new)>(s: seq<T>, key: T -> string)
    ensures forall x :: x in Sort(s, key) <==> x in s
  {
    forall x ensures x in Sort(s, key) <==> x in s {
      assert x in multiset(Sort(s, key)) <==> x in multiset(s);
    }
  }

  /** A canonical list is determined by its set of elements. */
  lemma {:induction false} CanonicalUnique<T(!new)>(s: seq<T>, t: seq<T>, key: T -> string)
    requires Canonical(s, key) && Canonical(t, key)
    requires forall x :: x in s <==> x in t
    ensures s == t
  {
    assert |t| > 0 ==> t[0] in t;
    if s != [] {
      assert s[0] in t;
      assert t[0] in s;
      var a :| 0 <= a < |t| && t[a] == s[0];
      var b :| 0 <= b < |s| && s[b] == t[0];
      if a > 0 {
        if b > 0 { LessAsymmetric(key(t[0]), key(s[0])); } else { LessIrreflexive(key(s[0])); }
        assert false;
      }
      assert s[0] == t[0];
      forall x ensures x in s[1..] <==> x in t[1..] {
        LessIrreflexive(key(s[0]));
        if x in s[1..] { TailMember(s, t, key, x); }
        if x in t[1..] { TailMember(t, s, key, x); }
      }
      CanonicalUnique(s[1..], t[1..], key);
      assert s == [s[0]] + s[1..] && t == [t[0]] + t[1..];
    }
  }

  lemma {:induction false} TailMember<T(!new)>(s: seq<T>, t: seq<T>, key: T -> string, x: T)
    requires s != [] && t != [] && s[0] == t[0] && Canonical(s, key) && x in s[1..] && x in t
    ensures x in t[1..]
  {
    var i :| 1 <= i < |s| && s[i] == x;
    assert Less(key(s[0]), key(x));
    if x == t[0] { LessIrreflexive(key(x)); }
  }
}
