/**
 What the registry's helpers mean: the policy's three decisions, name resolution, what secrets and
 non-finite numbers are, what sanitizing leaves, what the runner is handed and how results shrink.
 */
module ToolMeaning {
  import opened Basics
  import opened JsonSchema
  import opened AgentTools

  // ----- policy and names

  /** Denial by name or risk comes first, then the need for approval, then the risk class. */
  lemma {:induction false} PolicyMeans(policy: Policy, spec: ToolSpec)
    ensures var denied := spec.name in policy.deniedTools || spec.riskClass in policy.deniedRisks;
      var asks := spec.approvalRequired || spec.name in policy.approvalRequiredTools;
      var automatic := spec.riskClass in policy.autoAllowRisks;
      && (policy.Decide(spec) == Allow <==> !denied && !asks && automatic)
      && (policy.Decide(spec) == ApprovalRequired <==>
            !denied && (asks || (!automatic && spec.riskClass in policy.approvalRequiredRisks)))
      && (policy.Decide(spec) == Deny <==>
            denied || (!asks && !automatic && spec.riskClass !in policy.approvalRequiredRisks))
  {
  }

  ghost predicate Named(specs: seq<ToolSpec>, name: string, spec: ToolSpec) { spec in specs && spec.name == name }

  ghost predicate Exposed(specs: seq<ToolSpec>, name: string, spec: ToolSpec) {
    spec in specs && spec.exposedName == name
  }

  /** A name means the tool of that canonical name, and failing that the one exposed under it. */
  lemma {:induction false} ResolveMeans(index: Catalogue, specs: seq<ToolSpec>, name: string, spec: ToolSpec)
    requires IndexOf(index, specs)
    ensures index.Resolve(name) == Some(spec) ==> Named(specs, name, spec) || Exposed(specs, name, spec)
    ensures Named(specs, name, spec) ==> index.Resolve(name) == Some(spec)
    ensures Exposed(specs, name, spec) && (forall t :: !Named(specs, name, t)) ==> index.Resolve(name) == Some(spec)
    ensures index.Resolve(name).None? <==> forall t :: !Named(specs, name, t) && !Exposed(specs, name, t)
  {
    if Named(specs, name, spec) {
      var i :| 0 <= i < |specs| && specs[i] == spec;
    }
    if Exposed(specs, name, spec) {
      var i :| 0 <= i < |specs| && specs[i] == spec;
      if name in index.byName { assert Named(specs, name, index.byName[name]); }
    }
    if index.Resolve(name).None? {
      forall t ensures !Named(specs, name, t) && !Exposed(specs, name, t) {
        if t in specs {
          var i :| 0 <= i < |specs| && specs[i] == t;
        }
      }
    } else {
      var t := index.Resolve(name).value;
      assert Named(specs, name, t) || Exposed(specs, name, t);
    }
  }

  // ----- values inside a document

  datatype Place = FieldAt(field: nat) | ItemAt(item: nat)

  /** The value at a place of a document. */
  function Child(v: Json, p: Place): Option<Json> {
    match p
    case FieldAt(i) => if v.Obj? && i < |v.fields| then Some(v.fields[i].value) else None
    case ItemAt(i) => if v.Arr? && i < |v.items| then Some(v.items[i]) else None
  }

  function Inside(v: Json, path: seq<Place>): Option<Json>
    decreases |path|
  {
    if path == [] then Some(v)
    else
      var c := Child(v, path[0]);
      if c.None? then None else Inside(c.value, path[1..])
  }

  /** The first step leads into a field with a secret name. */
  predicate IntoSecret(v: Json, p: Place, x: Services) {
    p.FieldAt? && v.Obj? && p.field < |v.fields| && x.secretName(v.fields[p.field].key)
  }

  /** No step of the path leads into a secret field. */
  predicate Open(v: Json, path: seq<Place>, x: Services)
    decreases |path|
  {
    path == []
    || (!IntoSecret(v, path[0], x) && Child(v, path[0]).Some? && Open(Child(v, path[0]).value, path[1..], x))
  }

  lemma {:induction false} InsideStep(v: Json, p: Place, rest: seq<Place>)
    requires Child(v, p).Some?
    ensures Inside(v, [p] + rest) == Inside(Child(v, p).value, rest)
  {
    assert ([p] + rest)[1..] == rest;
  }

  lemma {:induction false} OpenStep(v: Json, p: Place, rest: seq<Place>, x: Services)
    requires Child(v, p).Some? && !IntoSecret(v, p, x)
    ensures Open(v, [p] + rest, x) <==> Open(Child(v, p).value, rest, x)
  {
    assert ([p] + rest)[1..] == rest;
  }

  lemma {:induction false} SanitizedChild(v: Json, p: Place, x: Services)
    requires Child(v, p).Some?
    ensures Child(Sanitize(v, x), p)
      == Some(if IntoSecret(v, p, x) then REDACTED else Sanitize(Child(v, p).value, x))
    ensures IntoSecret(Sanitize(v, x), p, x) == IntoSecret(v, p, x)
  {
  }

  /** Outside secret fields sanitizing keeps every value in its place, strings redacted. */
  lemma {:induction false} SanitizedInside(v: Json, path: seq<Place>, x: Services)
    requires Inside(v, path).Some? && Open(v, path, x)
    ensures Inside(Sanitize(v, x), path) == Some(Sanitize(Inside(v, path).value, x))
    ensures var found, safe := Inside(v, path).value, Sanitize(Inside(v, path).value, x);
      && (found.Str? ==> safe == Str(x.redact(found.s)))
      && (found.Null? || found.Bool? || found.Int? || found.Float? ==> safe == found)
      && (found.Arr? ==> safe.Arr? && |safe.items| == |found.items|)
      && (found.Obj? ==> safe.Obj? && |safe.fields| == |found.fields|
                         && forall i | 0 <= i < |found.fields| :: safe.fields[i].key == found.fields[i].key)
    decreases |path|
  {
    if path != [] {
      SanitizedChild(v, path[0], x);
      SanitizedInside(Child(v, path[0]).value, path[1..], x);
    }
  }

  /** The value of a secret field is replaced as a whole. */
  lemma {:induction false} SecretIsRedacted(v: Json, path: seq<Place>, i: nat, x: Services)
    requires Inside(v, path).Some? && Open(v, path, x)
    requires var found := Inside(v, path).value; found.Obj? && i < |found.fields| && x.secretName(found.fields[i].key)
    ensures var safe := Inside(Sanitize(v, x), path);
      safe.Some? && safe.value.Obj? && i < |safe.value.fields| && safe.value.fields[i].value == Str("[redacted]")
  {
    SanitizedInside(v, path, x);
    SanitizedChild(Inside(v, path).value, FieldAt(i), x);
  }

  /** A secret sits in a field with a secret name or in a string that redaction changes. */
  ghost predicate SecretAt(v: Json, path: seq<Place>, x: Services) {
    Inside(v, path).Some?
    && var found := Inside(v, path).value;
       || (found.Str? && x.redact(found.s) != found.s)
       || (found.Obj? && exists i :: 0 <= i < |found.fields| && x.secretName(found.fields[i].key))
  }

  lemma {:induction false} SecretFound(v: Json, x: Services) returns (path: seq<Place>)
    requires HoldsSecret(v, x)
    ensures SecretAt(v, path, x)
    decreases v
  {
    path := [];
    match v
    case Obj(fields) =>
      var i :| 0 <= i < |fields| && (x.secretName(fields[i].key) || HoldsSecret(fields[i].value, x));
      if !x.secretName(fields[i].key) {
        var rest := SecretFound(fields[i].value, x);
        InsideStep(v, FieldAt(i), rest);
        path := [FieldAt(i)] + rest;
      }
    case Arr(items) =>
      var i :| 0 <= i < |items| && HoldsSecret(items[i], x);
      var rest := SecretFound(items[i], x);
      InsideStep(v, ItemAt(i), rest);
      path := [ItemAt(i)] + rest;
    case _ =>
  }

  lemma {:induction false} SecretHeld(v: Json, path: seq<Place>, x: Services)
    requires SecretAt(v, path, x)
    ensures HoldsSecret(v, x)
    decreases |path|
  {
    if path != [] { SecretHeld(Child(v, path[0]).value, path[1..], x); }
  }

  /** Arguments hold a secret exactly when one sits at some place. */
  lemma {:induction false} SecretIff(v: Json, x: Services)
    ensures HoldsSecret(v, x) <==> exists path :: SecretAt(v, path, x)
  {
    if HoldsSecret(v, x) { var path := SecretFound(v, x); }
    if path :| SecretAt(v, path, x) { SecretHeld(v, path, x); }
  }

  ghost predicate NonFiniteAt(v: Json, path: seq<Place>) {
    Inside(v, path).Some? && Inside(v, path).value.Float? && !Inside(v, path).value.f.Finite?
  }

  lemma {:induction false} NonFiniteFound(v: Json) returns (path: seq<Place>)
    requires HoldsNonFinite(v)
    ensures NonFiniteAt(v, path)
    decreases v
  {
    path := [];
    match v
    case Obj(fields) =>
      var i :| 0 <= i < |fields| && HoldsNonFinite(fields[i].value);
      var rest := NonFiniteFound(fields[i].value);
      InsideStep(v, FieldAt(i), rest);
      path := [FieldAt(i)] + rest;
    case Arr(items) =>
      var i :| 0 <= i < |items| && HoldsNonFinite(items[i]);
      var rest := NonFiniteFound(items[i]);
      InsideStep(v, ItemAt(i), rest);
      path := [ItemAt(i)] + rest;
    case _ =>
  }

  lemma {:induction false} NonFiniteHeld(v: Json, path: seq<Place>)
    requires NonFiniteAt(v, path)
    ensures HoldsNonFinite(v)
    decreases |path|
  {
    if path != [] { NonFiniteHeld(Child(v, path[0]).value, path[1..]); }
  }

  /** Arguments hold a non-finite number exactly when one sits at some place. */
  lemma {:induction false} NonFiniteIff(v: Json)
    ensures HoldsNonFinite(v) <==> exists path :: NonFiniteAt(v, path)
  {
    if HoldsNonFinite(v) { var path := NonFiniteFound(v); }
    if path :| NonFiniteAt(v, path) { NonFiniteHeld(v, path); }
  }

  // ----- what the runner is handed

  lemma {:induction false} SetFlagValue(fields: seq<Field>, key: string, k: string)
    ensures HasKey(SetFlag(fields, key), key) && ValueAt(SetFlag(fields, key), key) == Bool(true)
    ensures k != key && HasKey(fields, k) ==>
      HasKey(SetFlag(fields, key), k) && ValueAt(SetFlag(fields, key), k) == ValueAt(fields, k)
  {
    SetFlagKeys(fields, key, key);
    SetFlagKeys(fields, key, k);
    var r := SetFlag(fields, key);
    if fields == [] {
    } else if fields[0].key == key {
      assert r[1..] == fields[1..];
    } else {
      SetFlagValue(fields[1..], key, k);
      assert r[1..] == SetFlag(fields[1..], key);
      HasKeySplit(fields, k);
    }
  }

  /** Every flag is set to true, and every other argument arrives unchanged. */
  lemma {:induction false} FlagsSet(fields: seq<Field>, keys: seq<string>, k: string)
    ensures k in keys ==> HasKey(SetFlags(fields, keys), k) && ValueAt(SetFlags(fields, keys), k) == Bool(true)
    ensures k !in keys && HasKey(fields, k) ==>
      HasKey(SetFlags(fields, keys), k) && ValueAt(SetFlags(fields, keys), k) == ValueAt(fields, k)
  {
    SetFlagsKeys(fields, keys, k);
    if keys != [] {
      var front, last := keys[..|keys| - 1], keys[|keys| - 1];
      assert keys == front + [last];
      FlagsSet(fields, front, k);
      SetFlagsKeys(fields, front, k);
      SetFlagValue(SetFlags(fields, front), last, k);
    }
  }

  // ----- how a result shrinks

  /** The four forms of a result, from full to minimal. */
  function Forms(result: ToolResult, size: nat): seq<ToolResult> {
    var compact := result.(
      message := TruncatedBySize,
      data := Obj([Field("truncated", Bool(true)), Field("original_chars", Int(size))]));
    var short := compact.(
      callId := if |compact.callId| > 96 then compact.callId[..96] else compact.callId,
      toolName := if |compact.toolName| > 96 then compact.toolName[..96] else compact.toolName,
      message := TruncatedShort);
    [result, compact, short,
     ToolResult("bounded", "bounded", result.status, ResultTruncated, TruncatedShort, result.riskClass,
                Obj([Field("truncated", Bool(true))]))]
  }

  /** A rendering within the limit. */
  predicate FitsIn(r: ToolResult, maxChars: nat, render: Render) {
    render(r).Returned? && |render(r).value| <= maxChars
  }

  /** A result is recorded in the first of its forms that fits, and in the last one if none does. */
  lemma {:induction false} BoundIsFirstFitting(result: ToolResult, maxChars: nat, render: Render)
    requires render(result).Returned?
    requires forall f | f in Forms(result, |render(result).value|) :: render(f).Returned?
    ensures var forms, r := Forms(result, |render(result).value|), BoundResult(result, maxChars, render);
      && r.Returned? && r.value.1 == render(r.value.0).value
      && exists i :: 0 <= i < 4 && r.value.0 == forms[i] && (i < 3 ==> FitsIn(forms[i], maxChars, render))
                     && forall j | 0 <= j < i :: !FitsIn(forms[j], maxChars, render)
  {
    var forms := Forms(result, |render(result).value|);
    assert forms[0] in forms && forms[1] in forms && forms[2] in forms && forms[3] in forms;
    assert [Field("truncated", Bool(true))] + [Field("original_chars", Int(|render(result).value|))]
      == [Field("truncated", Bool(true)), Field("original_chars", Int(|render(result).value|))];
    assert [Field("truncated", Bool(true))] + [] == [Field("truncated", Bool(true))];
    assert forms[1] == Compacted(result, |render(result).value|) && forms[2] == Shortened(forms[1]);
    assert forms[3] == Minimal(result);
    var i := if FitsIn(forms[0], maxChars, render) then 0 else if FitsIn(forms[1], maxChars, render) then 1
             else if FitsIn(forms[2], maxChars, render) then 2 else 3;
    assert BoundResult(result, maxChars, render).value.0 == forms[i];
  }
}
