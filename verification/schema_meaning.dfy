/** What the validator's helpers mean: the types partition the values, equality is Python's. */
module SchemaMeaning {
  import opened Basics
  import opened JsonSchema

  function Count(b: bool): nat { if b then 1 else 0 }

  /** Every value has exactly one of the six types; integers are the whole numbers among the numbers,
      and no other name is a type. */
  lemma {:induction false} TypesPartition(v: Json)
    ensures Count(MatchesType("object", v)) + Count(MatchesType("array", v)) + Count(MatchesType("string", v))
      + Count(MatchesType("number", v)) + Count(MatchesType("boolean", v)) + Count(MatchesType("null", v)) == 1
    ensures MatchesType("object", v) <==> v.Obj?
    ensures MatchesType("array", v) <==> v.Arr?
    ensures MatchesType("string", v) <==> v.Str?
    ensures MatchesType("boolean", v) <==> v.Bool?
    ensures MatchesType("null", v) <==> v.Null?
    ensures MatchesType("integer", v) <==> v.Int?
  {
  }

  /** No numbers and no objects inside. */
  predicate Flat(v: Json) {
    match v
    case Null => true
    case Str(_) => true
    case Arr(items) => forall i | 0 <= i < |items| :: Flat(items[i])
    case _ => false
  }

  /** On such values equality is identity. */
  lemma {:induction false} EqualIsIdentity(a: Json, b: Json)
    requires Flat(a)
    ensures Equal(a, b) <==> a == b
    decreases a
  {
    if a.Arr? && b.Arr? && |a.items| == |b.items| {
      forall i | 0 <= i < |a.items| ensures Equal(a.items[i], b.items[i]) <==> a.items[i] == b.items[i] {
        EqualIsIdentity(a.items[i], b.items[i]);
      }
    }
  }

  /** Truth values count as 1 and 0. */
  function NumberOf(v: Json): real
    requires v.Bool? || v.Int? || (v.Float? && v.f.Finite?)
  {
    match v
    case Bool(b) => if b then 1.0 else 0.0
    case Int(i) => i as real
    case Float(f) => f.r
  }

  predicate FiniteNumber(v: Json) { v.Bool? || v.Int? || (v.Float? && v.f.Finite?) }

  /** On numbers it is numeric equality across booleans, integers and floats; not-a-number equals
      nothing, an infinity only itself, and no number equals anything that is none. */
  lemma {:induction false} EqualNumbers(a: Json, b: Json)
    ensures FiniteNumber(a) && FiniteNumber(b) ==> (Equal(a, b) <==> NumberOf(a) == NumberOf(b))
    ensures a == Float(NaN) ==> !Equal(a, b) && !Equal(b, a)
    ensures a.Float? && a.f.Infinite? ==> (Equal(a, b) <==> b == a)
    ensures FiniteNumber(a) && !FiniteNumber(b) ==> !Equal(a, b) && !Equal(b, a)
  {
  }

  /** Keys of an object are different, as in a Python dictionary. */
  predicate KeysDiffer(fields: seq<Field>) {
    forall i, j | 0 <= i < j < |fields| :: fields[i].key != fields[j].key
  }

  lemma {:induction false} ValueOfKey(fields: seq<Field>, i: nat)
    requires i < |fields| && KeysDiffer(fields)
    ensures HasKey(fields, fields[i].key) && ValueAt(fields, fields[i].key) == fields[i].value
  {
    if i > 0 {
      assert fields[1..][i - 1] == fields[i];
      ValueOfKey(fields[1..], i - 1);
    }
  }

  /** Objects are equal when they have the same keys with equal values, in whatever order. */
  lemma {:induction false} EqualObjects(f: seq<Field>, g: seq<Field>)
    requires KeysDiffer(f) && KeysDiffer(g)
    ensures Equal(Obj(f), Obj(g)) <==>
      && (forall k :: HasKey(f, k) <==> HasKey(g, k))
      && (forall i, j | 0 <= i < |f| && 0 <= j < |g| && f[i].key == g[j].key :: Equal(f[i].value, g[j].value))
  {
    if Equal(Obj(f), Obj(g)) {
      forall i, j | 0 <= i < |f| && 0 <= j < |g| && f[i].key == g[j].key ensures Equal(f[i].value, g[j].value) {
        ValueOfKey(g, j);
      }
      forall k ensures HasKey(f, k) <==> HasKey(g, k) {
        if i :| 0 <= i < |f| && f[i].key == k { assert HasKey(g, f[i].key); }
        if j :| 0 <= j < |g| && g[j].key == k { assert HasKey(f, g[j].key); }
      }
    }
    if (forall k :: HasKey(f, k) <==> HasKey(g, k))
       && (forall i, j | 0 <= i < |f| && 0 <= j < |g| && f[i].key == g[j].key :: Equal(f[i].value, g[j].value)) {
      forall j | 0 <= j < |g| ensures HasKey(f, g[j].key) { assert HasKey(g, g[j].key); }
      forall i | 0 <= i < |f| ensures HasKey(g, f[i].key) && Equal(f[i].value, ValueAt(g, f[i].key)) {
        assert HasKey(f, f[i].key);
        var j :| 0 <= j < |g| && g[j].key == f[i].key;
        ValueOfKey(g, j);
      }
    }
  }

  // ----- which problem is reported

  /** A schema without `enum` and `oneOf`. */
  predicate Plain(s: Schema) { s.enumValues.None? && !s.hasOneOf }

  lemma {:induction false} StringProblems(s: Schema, text: string, path: seq<Step>, m: Matcher)
    requires Plain(s) && TypeHolds(s, Str(text))
    ensures var errors := ErrorsOf(s, Str(text), path, m);
      && (Error(path, TooShort) in errors <==> s.minLength.Some? && |text| < s.minLength.value)
      && (Error(path, TooLong) in errors <==> s.maxLength.Some? && |text| > s.maxLength.value)
      && (Error(path, InvalidFormat) in errors <==> s.pattern.Some? && !m(s.pattern.value, text))
      && |errors| <= 3
  {
  }

  lemma {:induction false} NumberProblems(s: Schema, v: Json, path: seq<Step>, m: Matcher)
    requires Plain(s) && TypeHolds(s, v) && (v.Int? || v.Float?)
    ensures var errors := ErrorsOf(s, v, path, m);
      && (Error(path, NotFinite) in errors <==> v.Float? && !v.f.Finite?)
      && (FiniteNumber(v) ==>
            && (Error(path, TooSmall) in errors <==> s.minimum.Some? && NumberOf(v) < s.minimum.value)
            && (Error(path, TooLarge) in errors <==> s.maximum.Some? && NumberOf(v) > s.maximum.value))
  {
  }

  /** A value of the wrong type gets that one error and is looked at no further. */
  lemma {:induction false} WrongTypeOnly(s: Schema, v: Json, path: seq<Step>, m: Matcher)
    requires s.typeName.Some? && s.typeName.value != "" && !MatchesType(s.typeName.value, v)
    ensures ErrorsOf(s, v, path, m) == [Error(path, MustBe(s.typeName.value))]
  {
  }
}
