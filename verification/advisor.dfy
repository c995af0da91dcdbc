/**
 `advise_cell`: the whole selection over a catalog, and its stability laws.
 */
module Advisor {
  import opened Basics
  import opened CellContracts
  import opened HardFilters
  import opened Ranking
  import opened Selector
  import Ordering

  datatype Status = Recommended | Abstained
  datatype Reason = AdvisoryOnly | ParetoFrontierSelected | NoEligibleCell | GlobalRejection(code: RejectionCode)

  datatype Advice = Advice(
    catalogDigest: string, requestDigest: string, snapshotDigest: string,
    evaluatedAt: real, profile: string, status: Status, selected: Option<string>,
    candidates: seq<Assessment>, reasons: set<Reason>)
  {
    /** The advice constructor's checks. */
    ghost predicate Valid() {
      && Ordering.Canonical(candidates, AssessedId)
      && (forall c | c in candidates :: c.Valid())
      && (status.Recommended? ==>
            selected.Some? && exists i :: 0 <= i < |candidates| && candidates[i].cellId == selected.value
                                          && candidates[i].paretoEligible)
      && (status.Abstained? ==> selected.None?)
      && reasons != {}
    }
  }

  function AssessedId(a: Assessment): string { a.cellId }

  /** Everything one evaluation of the catalog depends on besides the cells. */
  datatype Context = Context(snapshot: Snapshot, request: Request, profile: Profile)

  ghost predicate ValidCells(cells: seq<Passport>) {
    (forall i | 0 <= i < |cells| :: ValidPassport(cells[i]))
    && (forall i, j | 0 <= i < j < |cells| :: cells[i].cellId != cells[j].cellId)
  }

  function MapSeq<A, B>(f: A -> B, s: seq<A>): (r: seq<B>)
    ensures |r| == |s| && forall i | 0 <= i < |s| :: r[i] == f(s[i])
  {
    seq(|s|, i requires 0 <= i < |s| => f(s[i]))
  }

  lemma {:induction false} MapWithout<A, B>(f: A -> B, s: seq<A>, k: nat)
    requires k < |s|
    ensures MapSeq(f, s[..k] + s[k + 1..]) == MapSeq(f, s)[..k] + MapSeq(f, s)[k + 1..]
  {
    var fewer := s[..k] + s[k + 1..];
    forall i | 0 <= i < |fewer| ensures MapSeq(f, fewer)[i] == (MapSeq(f, s)[..k] + MapSeq(f, s)[k + 1..])[i] {
      assert fewer[i] == s[if i < k then i else i + 1];
    }
  }

  lemma {:induction false} MapStep<A, B>(f: A -> B, s: seq<A>, i: nat)
    requires i < |s|
    ensures MapSeq(f, s[..i + 1]) == MapSeq(f, s[..i]) + [f(s[i])]
  {
  }

  function Assessor(x: Context): Passport -> Assessment {
    (cell: Passport) => Assess(cell, x.snapshot, x.request, x.profile)
  }

  /** Every cell's hard-filter assessment, in catalog order. */
  function Assessments(cells: seq<Passport>, x: Context): (hard: seq<Assessment>)
    ensures |hard| == |cells|
  {
    MapSeq(Assessor(x), cells)
  }

  lemma {:induction false} AssessmentsSound(cells: seq<Passport>, x: Context)
    requires ValidCells(cells) && x.profile.Valid()
    ensures Assessed(Assessments(cells, x)) && AllRankable(Eligible(Assessments(cells, x)))
    ensures forall i | 0 <= i < |cells| :: Assessments(cells, x)[i].cellId == cells[i].cellId
    ensures forall i | 0 <= i < |cells| ::
      Assessments(cells, x)[i].hardEligible <==> Admits(cells[i], x.snapshot, x.request, x.profile)
  {
    var hard := Assessments(cells, x);
    forall i | 0 <= i < |cells|
      ensures hard[i].Valid() && hard[i].cellId == cells[i].cellId
      ensures hard[i].hardEligible <==> Admits(cells[i], x.snapshot, x.request, x.profile)
    {
      AssessSound(cells[i], x.snapshot, x.request, x.profile);
    }
    EligibleMembers(hard);
  }

  lemma {:induction false} AssessmentsWithout(cells: seq<Passport>, k: nat, x: Context)
    requires k < |cells|
    ensures Assessments(cells[..k] + cells[k + 1..], x) == Assessments(cells, x)[..k] + Assessments(cells, x)[k + 1..]
  {
    MapWithout(Assessor(x), cells, k);
  }

  /** Catalog form of both laws: between a catalog and the same catalog with one more cell, the
      selection is the same or is that cell; in particular it is the same if that cell was not selected. */
  lemma {:induction false} CatalogAddition(more: seq<Passport>, k: nat, x: Context)
    requires k < |more| && ValidCells(more) && x.profile.Valid()
    ensures AllRankable(Eligible(Assessments(more, x)))
    ensures AllRankable(Eligible(Assessments(more[..k] + more[k + 1..], x)))
    ensures Selection(Assessments(more, x), x.profile) == Some(more[k].cellId)
            || Selection(Assessments(more, x), x.profile)
               == Selection(Assessments(more[..k] + more[k + 1..], x), x.profile)
  {
    AssessmentsSound(more, x);
    AssessmentsWithout(more, k, x);
    AdditionKeepsOrSelects(Assessments(more[..k] + more[k + 1..], x), k, Assessments(more, x), x.profile);
  }

  /** The same context with more free memory and nothing else changed. */
  ghost predicate MoreMemory(x: Context, y: Context) {
    var s, s' := x.snapshot, y.snapshot;
    && y == x.(snapshot := s')
    && s' == s.(availableMemoryBytes := s'.availableMemoryBytes,
                acceleratorAvailableBytes := s'.acceleratorAvailableBytes, digest := s'.digest)
    && (s.availableMemoryBytes.Some? ==>
          s'.availableMemoryBytes.Some? && s.availableMemoryBytes.value <= s'.availableMemoryBytes.value)
    && (s.acceleratorAvailableBytes.Some? ==>
          s'.acceleratorAvailableBytes.Some? && s.acceleratorAvailableBytes.value <= s'.acceleratorAvailableBytes.value)
  }

  lemma {:induction false} SomeEligible(hard: seq<Assessment>, p: Profile)
    requires Assessed(hard) && p.Valid()
    ensures AllRankable(Eligible(hard))
    ensures Selection(hard, p).Some? <==> exists i :: 0 <= i < |hard| && hard[i].hardEligible
  {
    SelectionIsBest(hard, p);
    if i :| 0 <= i < |hard| && hard[i].hardEligible { assert hard[i] in hard; }
  }

  /** Something is selected exactly when some cell of the catalog is admitted. */
  lemma {:induction false} SelectsIffAdmits(cells: seq<Passport>, x: Context)
    requires ValidCells(cells) && x.profile.Valid()
    ensures AllRankable(Eligible(Assessments(cells, x)))
    ensures Selection(Assessments(cells, x), x.profile).Some? <==>
      exists i :: 0 <= i < |cells| && Admits(cells[i], x.snapshot, x.request, x.profile)
  {
    AssessmentsSound(cells, x);
    SomeEligible(Assessments(cells, x), x.profile);
  }

  /** More free memory never turns a catalog with a recommendation into one without. */
  lemma {:induction false} MoreMemoryKeepsRecommending(cells: seq<Passport>, x: Context, y: Context)
    requires ValidCells(cells) && x.profile.Valid() && MoreMemory(x, y)
    ensures AllRankable(Eligible(Assessments(cells, x))) && AllRankable(Eligible(Assessments(cells, y)))
    ensures Selection(Assessments(cells, x), x.profile).Some? ==> Selection(Assessments(cells, y), y.profile).Some?
  {
    SelectsIffAdmits(cells, x);
    SelectsIffAdmits(cells, y);
    if i :| 0 <= i < |cells| && Admits(cells[i], x.snapshot, x.request, x.profile) {
      MoreMemoryKeepsEligibility(cells[i], x.snapshot, y.snapshot, x.request, x.profile);
    }
  }

  // ----- the operation

  /** Reasons to block every cell of the catalog at once. */
  function GlobalCodes(s: Snapshot, r: Request, p: Profile): set<RejectionCode> {
    If(s.capturedAt > r.evaluatedAt, SnapshotFromFuture)
    + If(s.capturedAt <= r.evaluatedAt && r.evaluatedAt - s.capturedAt > p.maxSnapshotAgeSeconds as real, SnapshotStale)
    + If(s.swapUsedBytes.None?, SwapUsageUnknown)
    + If(s.swapUsedBytes.Some? && s.swapUsedBytes.value > p.maxSwapUsedBytes, SwapLimitExceeded)
  }

  method GlobalRejections(s: Snapshot, r: Request, p: Profile) returns (reasons: set<RejectionCode>)
    ensures reasons == GlobalCodes(s, r, p)
  {
    reasons := {};
    if s.capturedAt > r.evaluatedAt {
      reasons := reasons + {SnapshotFromFuture};
    } else if r.evaluatedAt - s.capturedAt > p.maxSnapshotAgeSeconds as real {
      reasons := reasons + {SnapshotStale};
    }
    if s.swapUsedBytes.None? {
      reasons := reasons + {SwapUsageUnknown};
    } else if s.swapUsedBytes.value > p.maxSwapUsedBytes {
      reasons := reasons + {SwapLimitExceeded};
    }
  }

  predicate AcceptsRequest(c: Catalog, r: Request) {
    r.demand.capabilities != {} && "*" !in r.demand.capabilities && r.profile in c.profiles
  }

  /** The assessment a cell ends up with: ranked when eligible and undominated. */
  function Final(a: Assessment, e: seq<Assessment>, p: Profile): Assessment
    requires AllRankable(e) && p.Valid()
  {
    if Rankable(a) && !Dominated(a, e, p) then Rank(a, p) else a
  }

  method AssessOne(cell: Passport, x: Context, ghost assessor: Passport -> Assessment) returns (a: Assessment)
    requires ValidPassport(cell) && x.profile.Valid() && assessor == Assessor(x)
    ensures a == assessor(cell)
  {
    a := HardFilter(cell, x.snapshot, x.request, x.profile);
  }

  method AssessAll(cells: seq<Passport>, x: Context) returns (hard: seq<Assessment>)
    requires ValidCells(cells) && x.profile.Valid()
    ensures hard == Assessments(cells, x)
  {
    hard := [];
    ghost var assessor := Assessor(x);
    for i := 0 to |cells|
      invariant hard == MapSeq(assessor, cells[..i])
    {
      var a := AssessOne(cells[i], x, assessor);
      MapStep(assessor, cells, i);
      hard := hard + [a];
    }
    assert cells[..|cells|] == cells;
  }

  method KeepEligible(hard: seq<Assessment>) returns (eligible: seq<Assessment>)
    ensures eligible == Eligible(hard)
  {
    eligible := [];
    for i := 0 to |hard|
      invariant eligible == Eligible(hard[..i])
    {
      assert hard[..i + 1][..i] == hard[..i];
      if hard[i].hardEligible { eligible := eligible + [hard[i]]; }
    }
    assert hard[..|hard|] == hard;
  }

  ghost predicate IndexedById(byId: map<string, Assessment>, hard: seq<Assessment>) {
    && (forall i | 0 <= i < |hard| :: hard[i].cellId in byId && byId[hard[i].cellId].cellId == hard[i].cellId)
    && (forall id | id in byId :: exists i :: 0 <= i < |hard| && hard[i].cellId == id)
  }

  method IndexById(hard: seq<Assessment>) returns (byId: map<string, Assessment>)
    requires DistinctIds(hard)
    ensures IndexedById(byId, hard)
    ensures forall i | 0 <= i < |hard| :: byId[hard[i].cellId] == hard[i]
  {
    byId := map[];
    for i := 0 to |hard|
      invariant IndexedById(byId, hard[..i])
      invariant forall j | 0 <= j < i :: hard[j].cellId in byId && byId[hard[j].cellId] == hard[j]
    {
      ghost var seen, before := hard[..i + 1], hard[..i];
      byId := byId[hard[i].cellId := hard[i]];
      assert seen[i] == hard[i];
      forall id | id in byId ensures exists j :: 0 <= j < |seen| && seen[j].cellId == id {
        if id != hard[i].cellId {
          var j :| 0 <= j < |before| && before[j].cellId == id;
          assert seen[j].cellId == id;
        }
      }
    }
    assert hard[..|hard|] == hard;
  }

  /** The ranking loop: fills the frontier and replaces ranked records in the index. */
  method RankFrontier(eligible: seq<Assessment>, byId: map<string, Assessment>, p: Profile)
    returns (frontier: seq<Assessment>, ranked: map<string, Assessment>)
    requires AllRankable(eligible) && DistinctIds(eligible) && p.Valid()
    requires forall i | 0 <= i < |eligible| :: eligible[i].cellId in byId
    ensures frontier == Frontier(eligible, p)
    ensures ranked.Keys == byId.Keys
    ensures forall i | 0 <= i < |eligible| ::
      ranked[eligible[i].cellId] ==
        if Dominated(eligible[i], eligible, p) then byId[eligible[i].cellId] else Rank(eligible[i], p)
    ensures forall id | id in byId && (forall i | 0 <= i < |eligible| :: eligible[i].cellId != id) ::
      ranked[id] == byId[id]
  {
    frontier, ranked := [], byId;
    for i := 0 to |eligible|
      invariant frontier == FrontierOf(eligible[..i], eligible, p)
      invariant ranked.Keys == byId.Keys
      invariant forall j | 0 <= j < |eligible| ::
        ranked[eligible[j].cellId] ==
          if j < i && !Dominated(eligible[j], eligible, p) then Rank(eligible[j], p) else byId[eligible[j].cellId]
      invariant forall id | id in byId && (forall j | 0 <= j < |eligible| :: eligible[j].cellId != id) ::
        ranked[id] == byId[id]
    {
      assert eligible[..i + 1][..i] == eligible[..i];
      if Dominated(eligible[i], eligible, p) { continue; }
      var r := Rank(eligible[i], p);
      ranked := ranked[r.cellId := r];
      frontier := frontier + [r];
    }
    assert eligible[..|eligible|] == eligible;
  }

  function SelfKey(): string -> string { (s: string) => s }

  function IdsOf(hard: seq<Assessment>): seq<string> { MapSeq(AssessedId, hard) }

  /** The ids of a sorted list are sorted already. */
  lemma {:induction false} IdsSorted(hard: seq<Assessment>)
    requires Ordering.Canonical(hard, AssessedId)
    ensures Ordering.Sort(IdsOf(hard), SelfKey()) == IdsOf(hard)
  {
    var ids, self := IdsOf(hard), SelfKey();
    assert Ordering.Canonical(ids, self) by {
      forall i, j | 0 <= i < j < |ids| ensures Ordering.Less(self(ids[i]), self(ids[j])) {
        assert Ordering.Less(AssessedId(hard[i]), AssessedId(hard[j]));
      }
    }
    assert Ordering.DistinctKeys(ids, self) by {
      forall i, j | 0 <= i < j < |ids| ensures self(ids[i]) != self(ids[j]) { Ordering.LessIrreflexive(ids[i]); }
    }
    Ordering.SortCanonical(ids, self);
    Ordering.CanonicalUnique(Ordering.Sort(ids, self), ids, self);
  }

  /** `tuple(by_id[key] for key in sorted(by_id))`: catalog order, since catalogs are sorted. */
  method InIdOrder(byId: map<string, Assessment>, hard: seq<Assessment>) returns (out: seq<Assessment>)
    requires Ordering.Canonical(hard, AssessedId) && IndexedById(byId, hard)
    ensures |out| == |hard| && forall i | 0 <= i < |hard| :: out[i] == byId[hard[i].cellId]
  {
    IdsSorted(hard);
    var sorted := Ordering.Sort(IdsOf(hard), SelfKey());
    out := seq(|sorted|, i requires 0 <= i < |sorted| => byId[sorted[i]]);
  }

  function Blocker(codes: set<RejectionCode>): Passport -> Assessment { (cell: Passport) => Bare(cell, codes) }

  /** The advice names what it was given for, and recommends exactly when it selects. */
  ghost predicate BoundTo(a: Advice, c: Catalog, x: Context) {
    && a.catalogDigest == c.digest && a.requestDigest == x.request.digest && a.snapshotDigest == x.snapshot.digest
    && a.evaluatedAt == x.request.evaluatedAt && a.profile == x.request.profile
    && (a.status.Recommended? <==> a.selected.Some?)
  }

  ghost predicate BlockedAdvice(a: Advice, cells: seq<Passport>, codes: set<RejectionCode>) {
    && a.selected.None? && a.candidates == MapSeq(Blocker(codes), cells)
    && a.reasons == {AdvisoryOnly} + set code | code in codes :: GlobalRejection(code)
  }

  ghost predicate RankedAdvice(a: Advice, hard: seq<Assessment>, p: Profile)
    requires p.Valid() && AllRankable(Eligible(hard))
  {
    && a.selected == Selection(hard, p) && a.candidates == Finals(hard, p)
    && a.reasons == {AdvisoryOnly, if a.selected.Some? then ParetoFrontierSelected else NoEligibleCell}
  }

  /** The advice for one request, as the selector must return it. */
  ghost predicate Advises(a: Advice, c: Catalog, x: Context)
    requires x.profile.Valid() && AllRankable(Eligible(Assessments(c.cells, x)))
  {
    var codes := GlobalCodes(x.snapshot, x.request, x.profile);
    BoundTo(a, c, x)
    && if codes != {} then BlockedAdvice(a, c.cells, codes) else RankedAdvice(a, Assessments(c.cells, x), x.profile)
  }

  /** All assessments after ranking. */
  function Finals(hard: seq<Assessment>, p: Profile): (out: seq<Assessment>)
    requires p.Valid() && AllRankable(Eligible(hard))
    ensures |out| == |hard|
    ensures forall i | 0 <= i < |hard| :: out[i] == Final(hard[i], Eligible(hard), p)
  {
    seq(|hard|, i requires 0 <= i < |hard| => Final(hard[i], Eligible(hard), p))
  }

  lemma {:induction false} CatalogCells(c: Catalog)
    requires ValidCatalog(c)
    ensures ValidCells(c.cells)
  {
    forall i, j | 0 <= i < j < |c.cells| ensures c.cells[i].cellId != c.cells[j].cellId {
      Ordering.LessIrreflexive(IdOf(c.cells[i]));
    }
  }

  lemma {:induction false} BareValid(cell: Passport, codes: set<RejectionCode>)
    requires ValidPassport(cell) && codes != {}
    ensures Bare(cell, codes).Valid() && Bare(cell, codes).cellId == cell.cellId
  {
    EffectivePeaksShape(cell);
  }

  method BlockAll(cells: seq<Passport>, codes: set<RejectionCode>) returns (out: seq<Assessment>)
    ensures out == MapSeq(Blocker(codes), cells)
  {
    out := [];
    ghost var blocker := Blocker(codes);
    for i := 0 to |cells|
      invariant out == MapSeq(blocker, cells[..i])
    {
      MapStep(blocker, cells, i);
      out := out + [Bare(cells[i], codes)];
    }
    assert cells[..|cells|] == cells;
  }

  /** Advice that blocks the whole catalog. */
  method AdviseBlocked(c: Catalog, x: Context, codes: set<RejectionCode>) returns (a: Advice)
    requires ValidCatalog(c) && codes != {}
    ensures BoundTo(a, c, x) && BlockedAdvice(a, c.cells, codes) && a.Valid()
  {
    var blocked := BlockAll(c.cells, codes);
    var reasons := {AdvisoryOnly} + set code | code in codes :: GlobalRejection(code);
    CatalogCells(c);
    forall i | 0 <= i < |blocked| ensures blocked[i].Valid() && blocked[i].cellId == c.cells[i].cellId {
      BareValid(c.cells[i], codes);
    }
    CandidatesCanonical(c.cells, blocked);
    assert AdvisoryOnly in reasons;
    a := Advice(
      c.digest, x.request.digest, x.snapshot.digest, x.request.evaluatedAt, x.request.profile, Abstained, None,
      blocked, reasons);
  }

  /** Advice from the ranking of given assessments. */
  method AdviseFrom(c: Catalog, x: Context, hard: seq<Assessment>) returns (a: Advice)
    requires ValidCatalog(c) && x.profile.Valid() && Assessed(hard) && AllRankable(Eligible(hard))
    requires |hard| == |c.cells| && forall i | 0 <= i < |hard| :: hard[i].cellId == c.cells[i].cellId
    ensures BoundTo(a, c, x) && RankedAdvice(a, hard, x.profile) && a.Valid()
  {
    CatalogCells(c);
    CandidatesCanonical(c.cells, hard);
    var selected, candidates := RankAndSelect(hard, x.profile);
    var reasons := {AdvisoryOnly, if selected.Some? then ParetoFrontierSelected else NoEligibleCell};
    var status := if selected.Some? && selected.value != "" then Recommended else Abstained;
    FinalsSound(c.cells, hard, x.profile);
    assert AdvisoryOnly in reasons;
    a := Advice(
      c.digest, x.request.digest, x.snapshot.digest, x.request.evaluatedAt, x.request.profile, status, selected,
      candidates, reasons);
  }

  /** Advice from the ranking of the catalog. */
  method AdviseRanked(c: Catalog, x: Context) returns (a: Advice)
    requires ValidCatalog(c) && x.profile.Valid() && AllRankable(Eligible(Assessments(c.cells, x)))
    ensures BoundTo(a, c, x) && RankedAdvice(a, Assessments(c.cells, x), x.profile) && a.Valid()
  {
    CatalogCells(c);
    AssessmentsSound(c.cells, x);
    var hard := AssessAll(c.cells, x);
    a := AdviseFrom(c, x, hard);
  }

  /** Rank the eligible assessments and pick the winner. */
  method RankAndSelect(hard: seq<Assessment>, p: Profile)
    returns (selected: Option<string>, candidates: seq<Assessment>)
    requires Assessed(hard) && p.Valid() && AllRankable(Eligible(hard)) && Ordering.Canonical(hard, AssessedId)
    ensures selected == Selection(hard, p)
    ensures candidates == Finals(hard, p)
  {
    var eligible := KeepEligible(hard);
    EligibleMembers(hard);
    var byId := IndexById(hard);
    forall i | 0 <= i < |eligible| ensures eligible[i].cellId in byId {
      assert eligible[i] in eligible;
    }
    var frontier, ranked := RankFrontier(eligible, byId, p);
    selected := if frontier == [] then None else Some(Least(frontier, p).cellId);
    IndexKept(hard, byId, eligible, ranked, p);
    candidates := InIdOrder(ranked, hard);
    RankedAreFinal(hard, byId, ranked, candidates, p);
  }

  /** Raises exactly for a request without explicit capabilities or with an unknown profile;
      otherwise returns the specified advice, which its own constructor accepts. */
  method AdviseCell(c: Catalog, s: Snapshot, r: Request) returns (result: Attempt<Advice>)
    requires ValidCatalog(c)
    ensures result.Raised? <==> !AcceptsRequest(c, r)
    ensures result.Returned? ==>
      var x := Context(s, r, c.profiles[r.profile]);
      x.profile.Valid() && AllRankable(Eligible(Assessments(c.cells, x)))
      && Advises(result.value, c, x) && result.value.Valid()
  {
    if r.demand.capabilities == {} || "*" in r.demand.capabilities { return Raised; }
    if r.profile !in c.profiles { return Raised; }
    var p := c.profiles[r.profile];
    var x := Context(s, r, p);
    CatalogCells(c);
    AssessmentsSound(c.cells, x);
    var codes := GlobalRejections(s, r, p);
    var a: Advice;
    if codes != {} {
      a := AdviseBlocked(c, x, codes);
    } else {
      a := AdviseRanked(c, x);
    }
    result := Returned(a);
  }

  lemma {:induction false} CandidatesCanonical(cells: seq<Passport>, out: seq<Assessment>)
    requires Ordering.Canonical(cells, IdOf) && |out| == |cells|
    requires forall i | 0 <= i < |out| :: out[i].cellId == cells[i].cellId
    ensures Ordering.Canonical(out, AssessedId)
  {
    forall i, j | 0 <= i < j < |out| ensures Ordering.Less(AssessedId(out[i]), AssessedId(out[j])) {
      assert Ordering.Less(IdOf(cells[i]), IdOf(cells[j]));
    }
  }

  /** What the ranking loop promises of the index it returns. */
  ghost predicate RankedIndex(
      byId: map<string, Assessment>, e: seq<Assessment>, ranked: map<string, Assessment>, p: Profile)
    requires AllRankable(e) && p.Valid()
  {
    && ranked.Keys == byId.Keys
    && (forall i | 0 <= i < |e| :: e[i].cellId in byId)
    && (forall i | 0 <= i < |e| ::
          ranked[e[i].cellId] == if Dominated(e[i], e, p) then byId[e[i].cellId] else Rank(e[i], p))
    && (forall id | id in byId && (forall i | 0 <= i < |e| :: e[i].cellId != id) :: ranked[id] == byId[id])
  }

  lemma {:induction false} IndexKept(hard: seq<Assessment>, byId: map<string, Assessment>, e: seq<Assessment>,
                  ranked: map<string, Assessment>, p: Profile)
    requires AllRankable(e) && p.Valid() && IndexedById(byId, hard) && RankedIndex(byId, e, ranked, p)
    ensures IndexedById(ranked, hard)
  {
    forall k | 0 <= k < |hard|
      ensures hard[k].cellId in ranked && ranked[hard[k].cellId].cellId == hard[k].cellId
    {
      if i :| 0 <= i < |e| && e[i].cellId == hard[k].cellId {
        assert ranked[e[i].cellId].cellId == hard[k].cellId;
      }
    }
  }

  lemma {:induction false} RankedAreFinal(
      hard: seq<Assessment>, byId: map<string, Assessment>, ranked: map<string, Assessment>, out: seq<Assessment>,
      p: Profile)
    requires Assessed(hard) && p.Valid() && AllRankable(Eligible(hard))
    requires IndexedById(byId, hard) && forall i | 0 <= i < |hard| :: byId[hard[i].cellId] == hard[i]
    requires RankedIndex(byId, Eligible(hard), ranked, p)
    requires |out| == |hard|
    requires forall i | 0 <= i < |hard| :: hard[i].cellId in ranked && out[i] == ranked[hard[i].cellId]
    ensures out == Finals(hard, p)
  {
    var e := Eligible(hard);
    EligibleMembers(hard);
    forall k | 0 <= k < |hard| ensures out[k] == Final(hard[k], e, p) {
      RankedIsFinal(hard, e, byId, ranked, k, p);
    }
  }

  lemma {:induction false} RankedIsFinal(hard: seq<Assessment>, e: seq<Assessment>, byId: map<string, Assessment>,
                      ranked: map<string, Assessment>, k: nat, p: Profile)
    requires Assessed(hard) && p.Valid() && AllRankable(e) && k < |hard|
    requires forall a :: a in e <==> a in hard && a.hardEligible
    requires hard[k].cellId in byId && byId[hard[k].cellId] == hard[k]
    requires RankedIndex(byId, e, ranked, p)
    ensures ranked[hard[k].cellId] == Final(hard[k], e, p)
  {
    if hard[k].hardEligible {
      assert hard[k] in e;
      var i :| 0 <= i < |e| && e[i] == hard[k];
      assert ranked[e[i].cellId] == if Dominated(e[i], e, p) then byId[e[i].cellId] else Rank(e[i], p);
    } else {
      forall i | 0 <= i < |e| ensures e[i].cellId != hard[k].cellId {
        assert e[i] in e;
        if e[i].cellId == hard[k].cellId { SameId(hard, e[i], hard[k]); }
      }
    }
  }

  lemma {:induction false} FinalsValid(hard: seq<Assessment>, p: Profile)
    requires Assessed(hard) && p.Valid() && AllRankable(Eligible(hard))
    ensures forall a | a in Finals(hard, p) :: a.Valid()
  {
    var e := Eligible(hard);
    forall i | 0 <= i < |hard| ensures Final(hard[i], e, p).Valid() {}
  }

  lemma {:induction false} SelectedFinal(hard: seq<Assessment>, p: Profile)
    requires Assessed(hard) && p.Valid() && AllRankable(Eligible(hard)) && Selection(hard, p).Some?
    ensures exists i :: 0 <= i < |hard| && Finals(hard, p)[i].cellId == Selection(hard, p).value
                        && Finals(hard, p)[i].paretoEligible
  {
    var e := Eligible(hard);
    EligibleMembers(hard);
    var w := WinnerIsBest(e, p);
    var i :| 0 <= i < |hard| && hard[i] == w;
    assert Finals(hard, p)[i] == Rank(w, p);
  }

  /** The ranked records satisfy the advice constructor: valid, sorted, one selected Pareto cell. */
  lemma {:induction false} FinalsSound(cells: seq<Passport>, hard: seq<Assessment>, p: Profile)
    requires Assessed(hard) && p.Valid() && AllRankable(Eligible(hard)) && Ordering.Canonical(cells, IdOf)
    requires |hard| == |cells| && forall i | 0 <= i < |cells| :: hard[i].cellId == cells[i].cellId != ""
    ensures forall a | a in Finals(hard, p) :: a.Valid()
    ensures Ordering.Canonical(Finals(hard, p), AssessedId)
    ensures Selection(hard, p).Some? ==>
      Selection(hard, p).value != ""
      && exists i :: 0 <= i < |hard| && Finals(hard, p)[i].cellId == Selection(hard, p).value
                     && Finals(hard, p)[i].paretoEligible
  {
    CandidatesCanonical(cells, Finals(hard, p));
    FinalsValid(hard, p);
    if Selection(hard, p).Some? { SelectedFinal(hard, p); }
  }
}
