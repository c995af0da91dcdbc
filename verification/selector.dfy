/**
 The adaptive cell selector: Pareto frontier, ranking, and the advice it returns.
 The laws at the end are about `Winner` and `Selection`, the values the method computes.
 */
module Selector {
  import opened Basics
  import opened CellContracts
  import opened HardFilters
  import opened Ranking
  import Ordering

  predicate AllRankable(e: seq<Assessment>) { forall i | 0 <= i < |e| :: Rankable(e[i]) }

  ghost predicate DistinctIds(e: seq<Assessment>) {
    forall i, j | 0 <= i < j < |e| :: e[i].cellId != e[j].cellId
  }

  /** Some other candidate of `e` dominates `c`. */
  predicate Dominated(c: Assessment, e: seq<Assessment>, p: Profile)
    requires Rankable(c) && AllRankable(e)
  {
    exists i | 0 <= i < |e| :: e[i].cellId != c.cellId && Dominates(e[i], c, p)
  }

  /** The ranked, undominated members of `some`, dominance being judged against all of `e`. */
  function FrontierOf(some: seq<Assessment>, e: seq<Assessment>, p: Profile): (f: seq<Assessment>)
    requires AllRankable(some) && AllRankable(e) && p.Valid()
    ensures AllRankable(f) && forall i | 0 <= i < |f| :: f[i].paretoEligible
  {
    if some == [] then []
    else if Dominated(some[|some| - 1], e, p) then FrontierOf(some[..|some| - 1], e, p)
    else FrontierOf(some[..|some| - 1], e, p) + [Rank(some[|some| - 1], p)]
  }

  function Frontier(e: seq<Assessment>, p: Profile): seq<Assessment>
    requires AllRankable(e) && p.Valid()
  {
    FrontierOf(e, e, p)
  }

  function Keys(f: seq<Assessment>, p: Profile): (ks: seq<Key>)
    requires AllRankable(f) && p.Valid()
    ensures |ks| == |f|
    ensures forall i | 0 <= i < |f| :: ks[i] == KeyOf(f[i], p) && ks[i].id == f[i].cellId
  {
    seq(|f|, i requires 0 <= i < |f| => KeyOf(f[i], p))
  }

  function LeastIndex(ks: seq<Key>): (k: nat)
    requires ks != []
    ensures k < |ks|
  {
    if |ks| == 1 then 0
    else
      var k := LeastIndex(ks[..|ks| - 1]);
      if KeyLess(ks[|ks| - 1], ks[k]) then |ks| - 1 else k
  }

  lemma {:induction false} LeastIndexIsLeast(ks: seq<Key>)
    requires ks != [] && forall i, j | 0 <= i < j < |ks| :: ks[i].id != ks[j].id
    ensures forall i | 0 <= i < |ks| && i != LeastIndex(ks) :: KeyLess(ks[LeastIndex(ks)], ks[i])
  {
    if |ks| > 1 {
      var front, last := ks[..|ks| - 1], ks[|ks| - 1];
      LeastIndexIsLeast(front);
      var k := LeastIndex(front);
      KeyTotal(last, front[k]);
      forall i | 0 <= i < |ks| && i != LeastIndex(ks) ensures KeyLess(ks[LeastIndex(ks)], ks[i]) {
        if i < |front| && LeastIndex(ks) == |front| && i != k {
          KeyTransitive(last, front[k], front[i]);
        }
      }
    }
  }

  /** The first element after sorting by ranking key. */
  function Least(f: seq<Assessment>, p: Profile): (r: Assessment)
    requires f != [] && AllRankable(f) && p.Valid()
    ensures r in f && Rankable(r)
  {
    f[LeastIndex(Keys(f, p))]
  }

  /** The cell the selector picks among the eligible candidates. */
  function Winner(e: seq<Assessment>, p: Profile): Option<string>
    requires AllRankable(e) && p.Valid()
  {
    var f := Frontier(e, p);
    if f == [] then None else Some(Least(f, p).cellId)
  }

  lemma {:induction false} LeastIsLeast(f: seq<Assessment>, p: Profile)
    requires f != [] && AllRankable(f) && p.Valid() && DistinctIds(f)
    ensures forall i | 0 <= i < |f| && f[i] != Least(f, p) :: KeyLess(KeyOf(Least(f, p), p), KeyOf(f[i], p))
  {
    LeastIndexIsLeast(Keys(f, p));
  }

  /** `w` is the candidate with the least ranking key of all of `e`. */
  ghost predicate Best(w: Assessment, e: seq<Assessment>, p: Profile)
    requires AllRankable(e) && p.Valid()
  {
    w in e && forall i | 0 <= i < |e| && e[i] != w :: Rankable(w) && KeyLess(KeyOf(w, p), KeyOf(e[i], p))
  }

  lemma {:induction false} FrontierMembers(some: seq<Assessment>, e: seq<Assessment>, p: Profile)
    requires AllRankable(some) && AllRankable(e) && p.Valid()
    ensures forall r :: r in FrontierOf(some, e, p) <==>
      exists i :: 0 <= i < |some| && !Dominated(some[i], e, p) && r == Rank(some[i], p)
  {
    if some != [] {
      var front, last := some[..|some| - 1], some[|some| - 1];
      FrontierMembers(front, e, p);
      forall r ensures r in FrontierOf(some, e, p) <==>
        exists i :: 0 <= i < |some| && !Dominated(some[i], e, p) && r == Rank(some[i], p)
      {
        if i :| 0 <= i < |some| && !Dominated(some[i], e, p) && r == Rank(some[i], p) {
          if i < |front| { assert front[i] == some[i]; }
        }
        if r in FrontierOf(front, e, p) {
          var i :| 0 <= i < |front| && !Dominated(front[i], e, p) && r == Rank(front[i], p);
          assert some[i] == front[i];
        }
      }
    }
  }

  lemma {:induction false} FrontierDistinct(some: seq<Assessment>, e: seq<Assessment>, p: Profile)
    requires AllRankable(some) && AllRankable(e) && p.Valid() && DistinctIds(some)
    ensures DistinctIds(FrontierOf(some, e, p))
  {
    if some != [] {
      var front := some[..|some| - 1];
      FrontierDistinct(front, e, p);
      FrontierMembers(front, e, p);
      var g := FrontierOf(front, e, p);
      forall i | 0 <= i < |g| ensures g[i].cellId != some[|some| - 1].cellId {
        assert g[i] in g;
      }
    }
  }

  lemma {:induction false} LeastIsUndominated(e: seq<Assessment>, p: Profile)
    requires AllRankable(e) && p.Valid() && DistinctIds(e) && e != []
    ensures Best(Least(e, p), e, p) && !Dominated(Least(e, p), e, p)
  {
    var w := Least(e, p);
    LeastIsLeast(e, p);
    if Dominated(w, e, p) {
      var i :| 0 <= i < |e| && e[i].cellId != w.cellId && Dominates(e[i], w, p);
      DominanceDecreasesKey(e[i], w, p);
      KeyTransitive(KeyOf(w, p), KeyOf(e[i], p), KeyOf(w, p));
      KeyIrreflexive(KeyOf(w, p));
      assert false;
    }
  }

  lemma {:induction false} FrontierLeast(e: seq<Assessment>, p: Profile, w: Assessment)
    requires AllRankable(e) && p.Valid() && DistinctIds(e) && e != [] && Best(w, e, p) && !Dominated(w, e, p)
    ensures Winner(e, p) == Some(w.cellId)
  {
    var f := Frontier(e, p);
    FrontierMembers(e, e, p);
    FrontierDistinct(e, e, p);
    assert Rank(w, p) in f;
    LeastIsLeast(f, p);
    var l := Least(f, p);
    var j :| 0 <= j < |e| && !Dominated(e[j], e, p) && l == Rank(e[j], p);
    if e[j] != w {
      RankTwice(w, p);
      RankTwice(e[j], p);
      var n :| 0 <= n < |f| && f[n] == Rank(w, p);
      KeyTransitive(KeyOf(w, p), KeyOf(e[j], p), KeyOf(w, p));
      KeyIrreflexive(KeyOf(w, p));
      assert false;
    }
  }

  /** Pareto filtering never changes the winner: it is the least key of all eligible candidates. */
  lemma {:induction false} WinnerIsBest(e: seq<Assessment>, p: Profile) returns (w: Assessment)
    requires AllRankable(e) && p.Valid() && DistinctIds(e) && e != []
    ensures Best(w, e, p)
    ensures Winner(e, p) == Some(w.cellId)
    ensures !Dominated(w, e, p)
  {
    w := Least(e, p);
    LeastIsUndominated(e, p);
    FrontierLeast(e, p, w);
  }

  /** Ranking a ranked record changes nothing. */
  lemma {:induction false} RankTwice(c: Assessment, p: Profile)
    requires Rankable(c) && p.Valid()
    ensures KeyOf(Rank(c, p), p) == KeyOf(c, p)
  {
    var r := Rank(c, p);
    assert Memory(r) == Memory(c);
    assert RawUtility(r, p) == RawUtility(c, p);
    assert Rank(r, p) == r;
  }

  lemma {:induction false} BestUnique(v: Assessment, w: Assessment, e: seq<Assessment>, p: Profile)
    requires AllRankable(e) && p.Valid() && Best(v, e, p) && Best(w, e, p)
    ensures v == w
  {
    if v != w {
      KeyTransitive(KeyOf(v, p), KeyOf(w, p), KeyOf(v, p));
      KeyIrreflexive(KeyOf(v, p));
    }
  }

  /** With eligible candidates there is always a winner, and it is the unique best one. */
  lemma {:induction false} WinnerIffBest(e: seq<Assessment>, p: Profile, w: Assessment)
    requires AllRankable(e) && p.Valid() && DistinctIds(e) && w in e
    ensures Winner(e, p).Some?
    ensures Winner(e, p) == Some(w.cellId) <==> Best(w, e, p)
  {
    var v := WinnerIsBest(e, p);
    if Best(w, e, p) { BestUnique(v, w, e, p); }
    if v.cellId == w.cellId {
      var i :| 0 <= i < |e| && e[i] == v;
      var j :| 0 <= j < |e| && e[j] == w;
      assert i == j;
    }
  }

  /** Every dominated candidate is dominated by a member of the frontier. */
  lemma {:induction false} DominatedByFrontier(e: seq<Assessment>, c: Assessment, p: Profile)
    returns (d: Assessment)
    requires AllRankable(e) && p.Valid() && DistinctIds(e) && c in e && Dominated(c, e, p)
    ensures d in e && Rankable(d) && Dominates(d, c, p) && !Dominated(d, e, p)
    decreases Below(e, c, p)
  {
    var i :| 0 <= i < |e| && e[i].cellId != c.cellId && Dominates(e[i], c, p);
    d := e[i];
    if Dominated(d, e, p) {
      DominanceDecreasesKey(d, c, p);
      BelowShrinks(e, d, c, p);
      var d' := DominatedByFrontier(e, d, p);
      DominatesTransitive(d', d, c, p);
      d := d';
    }
  }

  /** Positions whose key is below that of `c`: the descent measure for dominance chains. */
  ghost function Below(e: seq<Assessment>, c: Assessment, p: Profile): set<int>
    requires AllRankable(e) && p.Valid() && c in e
  {
    set i | 0 <= i < |e| && KeyLess(KeyOf(e[i], p), KeyOf(c, p))
  }

  lemma {:induction false} BelowShrinks(e: seq<Assessment>, d: Assessment, c: Assessment, p: Profile)
    requires AllRankable(e) && p.Valid() && c in e && d in e && KeyLess(KeyOf(d, p), KeyOf(c, p))
    ensures Below(e, d, p) < Below(e, c, p)
  {
    forall i | i in Below(e, d, p) ensures i in Below(e, c, p) {
      KeyTransitive(KeyOf(e[i], p), KeyOf(d, p), KeyOf(c, p));
    }
    var k :| 0 <= k < |e| && e[k] == d;
    KeyIrreflexive(KeyOf(d, p));
    assert k in Below(e, c, p) && k !in Below(e, d, p);
  }

  // ----- selection over all assessed cells, eligible or not

  ghost predicate Assessed(hard: seq<Assessment>) {
    (forall i | 0 <= i < |hard| :: hard[i].Valid()) && DistinctIds(hard)
  }

  /** The hard-eligible candidates, in catalog order. */
  function Eligible(hard: seq<Assessment>): seq<Assessment> {
    if hard == [] then []
    else if hard[|hard| - 1].hardEligible then Eligible(hard[..|hard| - 1]) + [hard[|hard| - 1]]
    else Eligible(hard[..|hard| - 1])
  }

  lemma {:induction false} EligibleMembers(hard: seq<Assessment>)
    requires Assessed(hard)
    ensures AllRankable(Eligible(hard)) && DistinctIds(Eligible(hard))
    ensures forall a :: a in Eligible(hard) <==> a in hard && a.hardEligible
  {
    if hard != [] {
      var front, last := hard[..|hard| - 1], hard[|hard| - 1];
      assert hard == front + [last];
      EligibleMembers(front);
      var g := Eligible(front);
      forall i | 0 <= i < |g| ensures g[i].cellId != last.cellId && Rankable(g[i]) {
        assert g[i] in g;
        var j :| 0 <= j < |front| && front[j] == g[i];
        assert hard[j] == g[i];
      }
    }
  }

  /** The cell recommended out of all assessed ones, if any. */
  function Selection(hard: seq<Assessment>, p: Profile): Option<string>
    requires AllRankable(Eligible(hard)) && p.Valid()
  {
    Winner(Eligible(hard), p)
  }

  /** `w` is eligible and precedes every other eligible candidate in the ranking order. */
  ghost predicate BestEligible(w: Assessment, hard: seq<Assessment>, p: Profile) {
    && w in hard && w.hardEligible && p.Valid()
    && forall c | c in hard && c != w && c.hardEligible ::
         Rankable(w) && Rankable(c) && KeyLess(KeyOf(w, p), KeyOf(c, p))
  }

  lemma {:induction false} BestMeansBestEligible(w: Assessment, hard: seq<Assessment>, p: Profile)
    requires Assessed(hard) && p.Valid()
    ensures AllRankable(Eligible(hard))
    ensures Best(w, Eligible(hard), p) <==> BestEligible(w, hard, p)
  {
    EligibleMembers(hard);
    var e := Eligible(hard);
    if Best(w, e, p) {
      forall c | c in hard && c != w && c.hardEligible
        ensures Rankable(w) && Rankable(c) && KeyLess(KeyOf(w, p), KeyOf(c, p))
      {
        assert c in e;
      }
    }
    if BestEligible(w, hard, p) {
      forall i | 0 <= i < |e| && e[i] != w ensures Rankable(w) && KeyLess(KeyOf(w, p), KeyOf(e[i], p)) {
        assert e[i] in e;
      }
    }
  }

  /** A cell is recommended iff it is the lexicographic minimum of the ranking key over all
      eligible cells; nothing is recommended iff no cell is eligible. */
  lemma {:induction false} SelectionIsBest(hard: seq<Assessment>, p: Profile)
    requires Assessed(hard) && p.Valid()
    ensures AllRankable(Eligible(hard))
    ensures Selection(hard, p).None? <==> forall c | c in hard :: !c.hardEligible
    ensures forall w | w in hard :: Selection(hard, p) == Some(w.cellId) <==> BestEligible(w, hard, p)
    ensures Selection(hard, p).Some? ==> exists w :: w in hard && Selection(hard, p) == Some(w.cellId)
  {
    var e := Eligible(hard);
    EligibleMembers(hard);
    if e != [] {
      assert e[0] in e;
      var v := WinnerIsBest(e, p);
      assert v in hard && v.hardEligible;
      forall w | w in hard ensures Selection(hard, p) == Some(w.cellId) <==> BestEligible(w, hard, p) {
        BestMeansBestEligible(w, hard, p);
        if Best(w, e, p) { BestUnique(v, w, e, p); }
        if v.cellId == w.cellId { SameId(hard, v, w); }
      }
    } else {
      assert forall c :: c in e <==> c in hard && c.hardEligible;
    }
  }

  lemma {:induction false} SameId(hard: seq<Assessment>, v: Assessment, w: Assessment)
    requires DistinctIds(hard) && v in hard && w in hard && v.cellId == w.cellId
    ensures v == w
  {
    var i :| 0 <= i < |hard| && hard[i] == v;
    var j :| 0 <= j < |hard| && hard[j] == w;
    assert i == j;
  }

  /** Dropping any cells but the selected one keeps the selection. */
  lemma {:induction false} SubsetKeepsSelection(hard: seq<Assessment>, fewer: seq<Assessment>, p: Profile)
    requires Assessed(hard) && Assessed(fewer) && p.Valid()
    requires AllRankable(Eligible(hard)) && AllRankable(Eligible(fewer))
    requires forall c | c in fewer :: c in hard
    requires forall c | c in hard && Selection(hard, p) == Some(c.cellId) :: c in fewer
    ensures Selection(fewer, p) == Selection(hard, p)
  {
    SelectionIsBest(hard, p);
    SelectionIsBest(fewer, p);
    if Selection(hard, p).Some? {
      var w :| w in hard && Selection(hard, p) == Some(w.cellId);
      assert BestEligible(w, fewer, p);
    }
  }

  lemma {:induction false} Without<T>(s: seq<T>, k: nat)
    requires k < |s|
    ensures forall c | c in s[..k] + s[k + 1..] :: c in s
    ensures forall c | c in s && c != s[k] :: c in s[..k] + s[k + 1..]
  {
    assert s == s[..k] + [s[k]] + s[k + 1..];
  }

  lemma {:induction false} AssessedWithout(hard: seq<Assessment>, k: nat)
    requires Assessed(hard) && k < |hard|
    ensures Assessed(hard[..k] + hard[k + 1..])
    ensures AllRankable(Eligible(hard[..k] + hard[k + 1..]))
  {
    var fewer := hard[..k] + hard[k + 1..];
    forall i | 0 <= i < |fewer| ensures fewer[i].Valid() {
      assert fewer[i] == hard[if i < k then i else i + 1];
    }
    forall i, j | 0 <= i < j < |fewer| ensures fewer[i].cellId != fewer[j].cellId {
      assert fewer[i] == hard[if i < k then i else i + 1] && fewer[j] == hard[if j < k then j else j + 1];
    }
    EligibleMembers(fewer);
  }

  /** Removing a cell that was not selected keeps the selection. */
  lemma {:induction false} RemovalKeepsSelection(hard: seq<Assessment>, k: nat, p: Profile)
    requires Assessed(hard) && p.Valid() && k < |hard|
    requires AllRankable(Eligible(hard)) && Selection(hard, p) != Some(hard[k].cellId)
    ensures AllRankable(Eligible(hard[..k] + hard[k + 1..]))
    ensures Selection(hard[..k] + hard[k + 1..], p) == Selection(hard, p)
  {
    AssessedWithout(hard, k);
    Without(hard, k);
    SubsetKeepsSelection(hard, hard[..k] + hard[k + 1..], p);
  }

  /** Adding a cell either keeps the selection or selects the new cell. */
  lemma {:induction false} AdditionKeepsOrSelects(hard: seq<Assessment>, k: nat, more: seq<Assessment>, p: Profile)
    requires k < |more| && hard == more[..k] + more[k + 1..] && Assessed(more) && p.Valid()
    ensures AllRankable(Eligible(hard)) && AllRankable(Eligible(more))
    ensures Selection(more, p) == Selection(hard, p) || Selection(more, p) == Some(more[k].cellId)
  {
    EligibleMembers(more);
    AssessedWithout(more, k);
    if Selection(more, p) != Some(more[k].cellId) { RemovalKeepsSelection(more, k, p); }
  }
}
