/**
 Run-unique call ids: provider ids are normalized, shortened and suffixed until unused.
 */
module AgentCalls {
  import opened Basics
  import opened AgentTools
  import Text

  /** `" ".join(s.strip().split())`, `s.strip()` and SHA-256 in hex. */
  datatype TextOps = TextOps(collapse: string -> string, strip: string -> string, sha256: string -> string)

  ghost predicate HexDigests(text: TextOps) { forall s :: |text.sha256(s)| == 64 }

  function DefaultId(correlationId: string, turn: nat, index: nat): string {
    correlationId + "-turn-" + Text.Decimal(turn) + "-tool-" + Text.Decimal(index)
  }

  /** The id before uniqueness: collapsed, defaulted when empty, and at most 96 characters. */
  function RawId(call: ToolCall, correlationId: string, turn: nat, index: nat, text: TextOps): (id: string)
    requires HexDigests(text)
    ensures |id| <= 96
  {
    var collapsed := text.collapse(call.id);
    var raw := if collapsed == "" then DefaultId(correlationId, turn, index) else collapsed;
    if |raw| > 96 then raw[..63] + "-" + text.sha256(raw)[..32] else raw
  }

  /** A usable id is kept, an empty one is replaced by the call's place in the run, and a long one keeps
      its first 63 characters and is told apart by 32 characters of its hash. */
  lemma {:induction false} RawIdMeans(call: ToolCall, correlationId: string, turn: nat, index: nat, text: TextOps)
    requires HexDigests(text)
    ensures var given, id := text.collapse(call.id), RawId(call, correlationId, turn, index, text);
      && (0 < |given| <= 96 ==> id == given)
      && (|given| > 96 ==>
            |id| == 96 && id[..63] == given[..63] && id[63] == '-' && id[64..] == text.sha256(given)[..32])
      && (given == "" && |DefaultId(correlationId, turn, index)| <= 96 ==>
            id == correlationId + "-turn-" + Text.Decimal(turn) + "-tool-" + Text.Decimal(index))
  {
    var given, id := text.collapse(call.id), RawId(call, correlationId, turn, index, text);
    if |given| > 96 { assert id == given[..63] + "-" + text.sha256(given)[..32]; }
  }

  /** The id tried with a given suffix. */
  function Candidate(raw: string, suffix: nat): string { Cut(raw, 88) + "-" + Text.Decimal(suffix) }

  lemma {:induction false} CandidateInjective(raw: string, m: nat, n: nat)
    requires Candidate(raw, m) == Candidate(raw, n)
    ensures m == n
  {
    var head := Cut(raw, 88) + "-";
    assert Candidate(raw, m)[|head|..] == Text.Decimal(m) && Candidate(raw, n)[|head|..] == Text.Decimal(n);
    Text.DecimalInjective(m, n);
  }

  /** The suffixes 2 .. n + 1 give n different ids. */
  ghost function Tried(raw: string, n: nat): set<string> {
    if n == 0 then {} else Tried(raw, n - 1) + {Candidate(raw, n + 1)}
  }

  lemma {:induction false} TriedAreMany(raw: string, n: nat)
    ensures |Tried(raw, n)| == n
    ensures forall id :: id in Tried(raw, n) ==> exists j :: 2 <= j < n + 2 && id == Candidate(raw, j)
  {
    if n > 0 {
      TriedAreMany(raw, n - 1);
      if Candidate(raw, n + 1) in Tried(raw, n - 1) {
        var j :| 2 <= j < n + 1 && Candidate(raw, n + 1) == Candidate(raw, j);
        CandidateInjective(raw, n + 1, j);
      }
    }
  }

  lemma {:induction false} SubsetSize<T>(a: set<T>, b: set<T>)
    requires a <= b
    ensures |a| <= |b|
  {
    if a != {} {
      var x :| x in a;
      SubsetSize(a - {x}, b - {x});
    }
  }

  /** Every smaller suffix leads to a used id. */
  ghost predicate FirstFree(raw: string, suffix: nat, seen: set<string>) {
    forall j: nat | 2 <= j < suffix :: Candidate(raw, j) in seen
  }

  /** The id a call gets: its raw id when unused, otherwise the first unused suffixed form, whose
      suffix is at most two more than the number of used ids. */
  ghost predicate Chosen(id: string, raw: string, seen: set<string>) {
    && id !in seen
    && (raw !in seen ==> id == raw)
    && (raw in seen ==>
          exists suffix: nat ::
            2 <= suffix <= |seen| + 2 && id == Candidate(raw, suffix) && FirstFree(raw, suffix, seen))
  }

  lemma {:induction false} TriedMeansFirst(raw: string, n: nat, seen: set<string>)
    requires Tried(raw, n) <= seen
    ensures FirstFree(raw, n + 2, seen)
  {
    forall j: nat | 2 <= j < n + 2 ensures Candidate(raw, j) in seen { TriedHolds(raw, n, j); }
  }

  /** The suffix search ends, after at most one try more than there are used ids. */
  method FreshId(raw: string, seen: set<string>) returns (id: string)
    ensures Chosen(id, raw, seen)
  {
    id := raw;
    var suffix := 2;
    ghost var tried := 0;
    while id in seen
      invariant suffix == tried + 2 && tried <= |seen| + 1
      invariant if tried == 0 then id == raw else raw in seen && id == Candidate(raw, tried + 1)
      invariant tried > 0 ==> Tried(raw, tried - 1) <= seen
      decreases |seen| + 1 - tried
    {
      assert Tried(raw, tried) <= seen;
      TriedAreMany(raw, tried);
      SubsetSize(Tried(raw, tried), seen);
      id := Candidate(raw, suffix);
      suffix := suffix + 1;
      tried := tried + 1;
    }
    if tried > 0 { TriedMeansFirst(raw, tried - 1, seen); }
  }

  lemma {:induction false} PowerSeven()
    ensures Text.Power10(7) == 10_000_000
  {
    assert Text.Power10(3) == 1000;
    assert Text.Power10(6) == 1000_000;
  }

  /** With fewer than 10^7 - 2 used ids the suffix has room within 96 characters. */
  lemma {:induction false} ChosenFits(id: string, raw: string, seen: set<string>)
    requires Chosen(id, raw, seen) && |raw| <= 96 && |seen| < 10_000_000 - 2
    ensures |id| <= 96
  {
    if raw in seen {
      var suffix: nat :| 2 <= suffix <= |seen| + 2 && id == Candidate(raw, suffix) && FirstFree(raw, suffix, seen);
      PowerSeven();
      Text.DecimalLength(suffix, 7);
    }
  }

  lemma {:induction false} TriedHolds(raw: string, n: nat, j: nat)
    requires 2 <= j < n + 2
    ensures Candidate(raw, j) in Tried(raw, n)
  {
    if j < n + 1 { TriedHolds(raw, n - 1, j); }
  }

  lemma {:induction false} NextIsUntried(raw: string, n: nat)
    ensures Candidate(raw, n + 2) !in Tried(raw, n)
  {
    TriedAreMany(raw, n);
    if Candidate(raw, n + 2) in Tried(raw, n) {
      var j :| 2 <= j < n + 2 && Candidate(raw, n + 2) == Candidate(raw, j);
      CandidateInjective(raw, n + 2, j);
      assert false;
    }
  }

  lemma {:induction false} UntriedIsNext(raw: string, n: nat, suffix: nat)
    requires 2 <= suffix <= n + 2 && Candidate(raw, suffix) !in Tried(raw, n)
    ensures suffix == n + 2
  {
    if suffix < n + 2 { TriedHolds(raw, n, suffix); }
  }

  /** With |seen| == n, only the suffix n + 2 is left. */
  lemma {:induction false} OnlyChoice(raw: string, seen: set<string>, n: nat, id: string)
    requires seen == Tried(raw, n) && |seen| == n && raw in seen
    ensures Chosen(id, raw, seen) <==> id == Candidate(raw, n + 2)
  {
    NextIsUntried(raw, n);
    TriedMeansFirst(raw, n, seen);
    if Chosen(id, raw, seen) {
      var suffix: nat :| 2 <= suffix <= |seen| + 2 && id == Candidate(raw, suffix) && FirstFree(raw, suffix, seen);
      UntriedIsNext(raw, n, suffix);
    }
  }

  /** Against the ids tried for n suffixes, the next suffix is the one chosen. */
  lemma {:induction false} NextIsChosen(raw: string, n: nat, id: string)
    requires n >= 1 && Candidate(raw, 2) == raw
    ensures |Tried(raw, n)| == n && raw in Tried(raw, n)
    ensures Chosen(id, raw, Tried(raw, n)) <==> id == Candidate(raw, n + 2)
  {
    TriedAreMany(raw, n);
    TriedHolds(raw, n, 2);
    OnlyChoice(raw, Tried(raw, n), n, id);
  }

  lemma {:induction false} RawIsItsOwnCandidate(head: string)
    requires |head| == 88
    ensures Candidate(head + "-2", 2) == head + "-2"
      && forall k :: Candidate(head + "-2", k) == head + "-" + Text.Decimal(k)
  {
    assert Cut(head + "-2", 88) == head;
    assert Text.Decimal(2) == "2";
    assert head + "-" + "2" == head + "-2";
  }

  /** The bound is exact: from 10^7 - 2 used ids on, a raw id that is its own first candidate, with
      all candidates used so far, is given an id of at least 97 characters. */
  lemma {:induction false} ChosenOverflows(head: string, n: nat, id: string)
    requires |head| == 88 && n >= 10_000_000 - 2
    ensures var raw := head + "-2";
      |raw| <= 96 && |Tried(raw, n)| == n && (Chosen(id, raw, Tried(raw, n)) ==> |id| >= 97)
  {
    var raw := head + "-2";
    RawIsItsOwnCandidate(head);
    NextIsChosen(raw, n, id);
    PowerSeven();
    Text.DecimalTooLong(n + 2, 7);
  }

  /** Every id chosen against n used ids fits in 96 characters exactly when n < 10^7 - 2. */
  ghost predicate AlwaysFits(n: nat) {
    forall id, raw, seen | Chosen(id, raw, seen) && |raw| <= 96 && |seen| == n :: |id| <= 96
  }

  lemma {:induction false} AlwaysFitsIff(n: nat)
    ensures AlwaysFits(n) <==> n < 10_000_000 - 2
  {
    if n < 10_000_000 - 2 {
      forall id, raw, seen | Chosen(id, raw, seen) && |raw| <= 96 && |seen| == n ensures |id| <= 96 {
        ChosenFits(id, raw, seen);
      }
    } else {
      var head := seq(88, _ => 'a');
      var raw := head + "-2";
      var id := Candidate(raw, n + 2);
      RawIsItsOwnCandidate(head);
      NextIsChosen(raw, n, id);
      ChosenOverflows(head, n, id);
      assert Chosen(id, raw, Tried(raw, n)) && |id| >= 97;
    }
  }

  function IdsOf(calls: seq<ToolCall>): (ids: seq<string>)
    ensures |ids| == |calls| && forall i | 0 <= i < |calls| :: ids[i] == calls[i].id
  {
    seq(|calls|, i requires 0 <= i < |calls| => calls[i].id)
  }

  ghost function SetOf(ids: seq<string>): set<string> { set id | id in ids }

  ghost predicate Distinct(ids: seq<string>) { forall i, j | 0 <= i < j < |ids| :: ids[i] != ids[j] }

  /** The calls keep their number, order, stripped names and arguments. */
  ghost predicate SameCalls(normalized: seq<ToolCall>, calls: seq<ToolCall>, text: TextOps) {
    |normalized| == |calls|
    && forall i | 0 <= i < |calls| ::
         normalized[i].name == text.strip(calls[i].name) && normalized[i].arguments == calls[i].arguments
  }

  function RawIds(calls: seq<ToolCall>, correlationId: string, turn: nat, text: TextOps): (raws: seq<string>)
    requires HexDigests(text)
    ensures |raws| == |calls| && AllFit(raws)
  {
    seq(|calls|, i requires 0 <= i < |calls| => RawId(calls[i], correlationId, turn, i + 1, text))
  }

  /** Each id is chosen against the ids of the run so far. */
  ghost predicate ChosenInTurn(ids: seq<string>, raws: seq<string>, seen: set<string>) {
    |ids| == |raws|
    && (ids != [] ==>
          var n := |ids| - 1;
          ChosenInTurn(ids[..n], raws[..n], seen) && Chosen(ids[n], raws[n], seen + SetOf(ids[..n])))
  }

  lemma {:induction false} ChosenExtends(ids: seq<string>, id: string, raws: seq<string>, seen: set<string>)
    requires |ids| < |raws| && ChosenInTurn(ids, raws[..|ids|], seen) && Chosen(id, raws[|ids|], seen + SetOf(ids))
    ensures ChosenInTurn(ids + [id], raws[..|ids| + 1], seen)
  {
    var n := |ids|;
    assert (ids + [id])[..n] == ids && raws[..n + 1][..n] == raws[..n];
  }

  lemma {:induction false} SetOfExtends(ids: seq<string>, id: string)
    ensures SetOf(ids + [id]) == SetOf(ids) + {id}
  {
    var more := ids + [id];
    assert more[|ids|] == id;
    assert forall x :: x in more <==> x in ids || x == id;
  }

  lemma {:induction false} DistinctExtends(ids: seq<string>, id: string)
    requires Distinct(ids) && id !in ids
    ensures Distinct(ids + [id])
  {
  }

  ghost predicate NewInTurn(ids: seq<string>, seen: set<string>) {
    ids == [] || (var n := |ids| - 1; NewInTurn(ids[..n], seen) && ids[n] !in seen && ids[n] !in ids[..n])
  }

  lemma {:induction false} ChosenAreNew(ids: seq<string>, raws: seq<string>, seen: set<string>)
    requires ChosenInTurn(ids, raws, seen)
    ensures NewInTurn(ids, seen)
  {
    if ids != [] {
      var n := |ids| - 1;
      ChosenAreNew(ids[..n], raws[..n], seen);
    }
  }

  /** New ids are outside the used ones and different from each other. */
  lemma {:induction false} NewAreDistinct(ids: seq<string>, seen: set<string>)
    requires NewInTurn(ids, seen)
    ensures Distinct(ids) && SetOf(ids) !! seen && |SetOf(ids)| == |ids|
  {
    if ids != [] {
      var n := |ids| - 1;
      var front, last := ids[..n], ids[n];
      NewAreDistinct(front, seen);
      assert ids == front + [last];
      SetOfExtends(front, last);
      DistinctExtends(front, last);
    }
  }

  lemma {:induction false} UsedCount(ids: seq<string>, seen: set<string>)
    requires NewInTurn(ids, seen)
    ensures |seen + SetOf(ids)| == |seen| + |ids|
  {
    NewAreDistinct(ids, seen);
  }

  predicate AllFit(ids: seq<string>) { forall i | 0 <= i < |ids| :: |ids[i]| <= 96 }

  lemma {:induction false} ChosenAllFit(ids: seq<string>, raws: seq<string>, seen: set<string>)
    requires ChosenInTurn(ids, raws, seen) && AllFit(raws)
    requires |seen| + |ids| < 10_000_000 - 2
    ensures AllFit(ids)
  {
    if ids != [] {
      var n := |ids| - 1;
      ChosenAllFit(ids[..n], raws[..n], seen);
      ChosenAreNew(ids[..n], raws[..n], seen);
      UsedCount(ids[..n], seen);
      ChosenFits(ids[n], raws[n], seen + SetOf(ids[..n]));
    }
  }

  /** One call of the list, given the ids used so far. */
  method NormalizeCall(call: ToolCall, raw: string, seen: set<string>, text: TextOps) returns (r: ToolCall)
    ensures Chosen(r.id, raw, seen)
    ensures r.name == text.strip(call.name) && r.arguments == call.arguments
  {
    var id := FreshId(raw, seen);
    r := ToolCall(id, text.strip(call.name), call.arguments);
  }

  lemma {:induction false} IdsExtend(calls: seq<ToolCall>, call: ToolCall)
    ensures IdsOf(calls + [call]) == IdsOf(calls) + [call.id]
    ensures SetOf(IdsOf(calls + [call])) == SetOf(IdsOf(calls)) + {call.id}
  {
    assert IdsOf(calls + [call]) == IdsOf(calls) + [call.id];
    SetOfExtends(IdsOf(calls), call.id);
  }

  lemma {:induction false} SameCallsExtends(
      normalized: seq<ToolCall>, call: ToolCall, calls: seq<ToolCall>, text: TextOps)
    requires |normalized| < |calls| && SameCalls(normalized, calls[..|normalized|], text)
    requires call.name == text.strip(calls[|normalized|].name) && call.arguments == calls[|normalized|].arguments
    ensures SameCalls(normalized + [call], calls[..|normalized| + 1], text)
  {
    var n := |normalized|;
    assert forall i | 0 <= i < n :: calls[..n + 1][i] == calls[..n][i];
  }

  /** The first calls are normalized, and the used ids are known. */
  ghost predicate Progress(normalized: seq<ToolCall>, calls: seq<ToolCall>, raws: seq<string>, seen: set<string>,
                           used: set<string>, text: TextOps)
    requires |raws| == |calls| && |normalized| <= |calls|
  {
    var n := |normalized|;
    && SameCalls(normalized, calls[..n], text)
    && ChosenInTurn(IdsOf(normalized), raws[..n], seen)
    && used == seen + SetOf(IdsOf(normalized))
  }

  lemma {:induction false} ProgressExtends(
      normalized: seq<ToolCall>, call: ToolCall, calls: seq<ToolCall>, raws: seq<string>, seen: set<string>,
      used: set<string>, text: TextOps)
    requires |raws| == |calls| && |normalized| < |calls| && Progress(normalized, calls, raws, seen, used, text)
    requires call.name == text.strip(calls[|normalized|].name) && call.arguments == calls[|normalized|].arguments
    requires Chosen(call.id, raws[|normalized|], used)
    ensures Progress(normalized + [call], calls, raws, seen, used + {call.id}, text)
  {
    SameCallsExtends(normalized, call, calls, text);
    IdsExtend(normalized, call);
    ChosenExtends(IdsOf(normalized), call.id, raws, seen);
  }

  /** The loop over the calls, given each call's raw id. */
  method NormalizeEach(calls: seq<ToolCall>, raws: seq<string>, seen: set<string>, text: TextOps)
    returns (normalized: seq<ToolCall>, seen': set<string>)
    requires |raws| == |calls|
    ensures |normalized| == |calls| && Progress(normalized, calls, raws, seen, seen', text)
  {
    normalized, seen' := [], seen;
    for i := 0 to |calls|
      invariant |normalized| == i && Progress(normalized, calls, raws, seen, seen', text)
    {
      var call := NormalizeCall(calls[i], raws[i], seen', text);
      ProgressExtends(normalized, call, calls, raws, seen, seen', text);
      normalized := normalized + [call];
      seen' := seen' + {call.id};
    }
  }

  /** Every call gets an id no earlier call of the run has, and keeps its own where it can. */
  method NormalizeCalls(calls: seq<ToolCall>, correlationId: string, turn: nat, seen: set<string>, text: TextOps)
    returns (normalized: seq<ToolCall>, seen': set<string>)
    requires HexDigests(text)
    ensures SameCalls(normalized, calls, text)
    ensures ChosenInTurn(IdsOf(normalized), RawIds(calls, correlationId, turn, text), seen)
    ensures Distinct(IdsOf(normalized)) && SetOf(IdsOf(normalized)) !! seen && seen' == seen + SetOf(IdsOf(normalized))
    ensures |seen| + |calls| < 10_000_000 - 2 ==> AllFit(IdsOf(normalized))
  {
    var raws := RawIds(calls, correlationId, turn, text);
    normalized, seen' := NormalizeEach(calls, raws, seen, text);
    assert calls[..|calls|] == calls && raws[..|calls|] == raws;
    ChosenAreNew(IdsOf(normalized), raws, seen);
    NewAreDistinct(IdsOf(normalized), seen);
    if |seen| + |calls| < 10_000_000 - 2 { ChosenAllFit(IdsOf(normalized), raws, seen); }
  }
}
