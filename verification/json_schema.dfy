/**
 The JSON-Schema subset the tool registry enforces: the accumulating validator, and the
 declarative reading of a schema it is proved equivalent to.
 */
module JsonSchema {
  import opened Basics
  import opened Floats

  datatype FloatValue = Finite(r: real) | Infinite(positive: bool) | NaN

  datatype Field = Field(key: string, value: Json)

  /** A decoded argument; booleans, integers and floats stay apart as in Python. */
  datatype Json =
    | Null
    | Bool(b: bool)
    | Int(i: int)
    | Float(f: FloatValue)
    | Str(s: string)
    | Arr(items: seq<Json>)
    | Obj(fields: seq<Field>)

  /** An entry of `properties` or `oneOf`; anything that is not a mapping constrains nothing. */
  datatype SubSchema = NotMapping | Sub(schema: Schema)

  datatype Schema = Schema(
    typeName: Option<string>, enumValues: Option<seq<Json>>,
    required: seq<string>, properties: map<string, SubSchema>, closed: bool,
    minItems: Option<int>, maxItems: Option<int>, items: SubSchema,
    minLength: Option<int>, maxLength: Option<int>, pattern: Option<string>,
    minimum: Option<real>, maximum: Option<real>,
    hasOneOf: bool, oneOf: seq<SubSchema>)

  /** `re.fullmatch(pattern, text) is not None`, for whatever pattern language. */
  type Matcher = (string, string) -> bool

  datatype Step = Key(key: string) | Index(index: nat)

  datatype Problem =
    | MustBe(typeName: string) | NotInEnum | IsRequired(key: string) | NotAllowed(key: string)
    | TooFewItems | TooManyItems | TooShort | TooLong | InvalidFormat
    | NotFinite | TooSmall | TooLarge | NotExactlyOne

  datatype Error = Error(path: seq<Step>, problem: Problem)

  // ----- values

  predicate HasKey(fields: seq<Field>, key: string) {
    exists i | 0 <= i < |fields| :: fields[i].key == key
  }

  function ValueAt(fields: seq<Field>, key: string): (v: Json)
    requires HasKey(fields, key)
    ensures exists i :: 0 <= i < |fields| && fields[i].key == key && fields[i].value == v
  {
    if fields[0].key == key then fields[0].value
    else
      assert HasKey(fields[1..], key) by {
        var i :| 0 <= i < |fields| && fields[i].key == key;
        assert fields[1..][i - 1] == fields[i];
      }
      ValueAt(fields[1..], key)
  }

  /** Python numbers compare across bool, int and float. */
  function Numeric(v: Json): Option<FloatValue> {
    match v
    case Bool(b) => Some(Finite(if b then 1.0 else 0.0))
    case Int(i) => Some(Finite(i as real))
    case Float(f) => Some(f)
    case _ => None
  }

  /** `a == b` in Python. */
  predicate Equal(a: Json, b: Json)
    decreases a
  {
    match a
    case Null => b.Null?
    case Str(s) => b == Str(s)
    case Arr(items) =>
      b.Arr? && |items| == |b.items| && forall i | 0 <= i < |items| :: Equal(items[i], b.items[i])
    case Obj(fields) =>
      && b.Obj?
      && (forall i | 0 <= i < |b.fields| :: HasKey(fields, b.fields[i].key))
      && (forall i | 0 <= i < |fields| ::
            HasKey(b.fields, fields[i].key) && Equal(fields[i].value, ValueAt(b.fields, fields[i].key)))
    case _ => Numeric(b).Some? && Numeric(a) == Numeric(b) && !Numeric(a).value.NaN?
  }

  predicate IsMember(v: Json, values: seq<Json>) {
    exists i | 0 <= i < |values| :: Equal(v, values[i])
  }

  predicate MatchesType(expected: string, v: Json) {
    match expected
    case "object" => v.Obj?
    case "array" => v.Arr?
    case "string" => v.Str?
    case "integer" => v.Int?
    case "number" => v.Int? || v.Float?
    case "boolean" => v.Bool?
    case "null" => v.Null?
    case _ => false
  }

  // ----- the declarative reading

  predicate TypeHolds(s: Schema, v: Json) {
    s.typeName.None? || s.typeName.value == "" || MatchesType(s.typeName.value, v)
  }

  predicate LengthHolds(n: int, least: Option<int>, most: Option<int>) {
    (least.Some? ==> least.value <= n) && (most.Some? ==> n <= most.value)
  }

  predicate StringHolds(s: Schema, text: string, m: Matcher) {
    LengthHolds(|text|, s.minLength, s.maxLength) && (s.pattern.Some? ==> m(s.pattern.value, text))
  }

  function AsReal(v: Json): real
    requires v.Int? || (v.Float? && v.f.Finite?)
  {
    if v.Int? then v.i as real else v.f.r
  }

  predicate NumberHolds(s: Schema, v: Json)
    requires v.Int? || v.Float?
  {
    && (v.Float? ==> v.f.Finite?)
    && (s.minimum.Some? ==> s.minimum.value <= AsReal(v))
    && (s.maximum.Some? ==> AsReal(v) <= s.maximum.value)
  }

  predicate SubConforms(sub: SubSchema, v: Json, m: Matcher)
    decreases sub
  {
    sub.NotMapping? || Conforms(sub.schema, v, m)
  }

  /** The value satisfies the schema. */
  predicate Conforms(s: Schema, v: Json, m: Matcher)
    decreases s
  {
    && TypeHolds(s, v)
    && (s.enumValues.Some? ==> IsMember(v, s.enumValues.value))
    && (v.Obj? ==>
          && (forall i | 0 <= i < |s.required| :: HasKey(v.fields, s.required[i]))
          && (s.closed ==> forall i | 0 <= i < |v.fields| :: v.fields[i].key in s.properties)
          && (forall i | 0 <= i < |v.fields| ::
                v.fields[i].key in s.properties ==> SubConforms(s.properties[v.fields[i].key], v.fields[i].value, m)))
    && (v.Arr? ==>
          && LengthHolds(|v.items|, s.minItems, s.maxItems)
          && (forall i | 0 <= i < |v.items| :: SubConforms(s.items, v.items[i], m)))
    && (v.Str? ==> StringHolds(s, v.s, m))
    && (v.Int? || v.Float? ==> NumberHolds(s, v))
    && (s.hasOneOf ==> ExactlyOne(Accepts(s, v, m)))
  }

  /** Which alternatives accept the value. */
  function Accepts(s: Schema, v: Json, m: Matcher): seq<bool>
    decreases s, 0
  {
    seq(|s.oneOf|, i requires 0 <= i < |s.oneOf| => SubConforms(s.oneOf[i], v, m))
  }

  /** One position is true and no other is. */
  predicate ExactlyOne(bs: seq<bool>) {
    exists i | 0 <= i < |bs| :: bs[i] && forall j | 0 <= j < |bs| && j != i :: !bs[j]
  }

  // ----- the error list

  function When(condition: bool, path: seq<Step>, problem: Problem): seq<Error> {
    if condition then [Error(path, problem)] else []
  }

  function RequiredErrors(required: seq<string>, fields: seq<Field>, path: seq<Step>): seq<Error> {
    if required == [] then []
    else
      var key := required[|required| - 1];
      RequiredErrors(required[..|required| - 1], fields, path) + When(!HasKey(fields, key), path, IsRequired(key))
  }

  function UnknownErrors(fields: seq<Field>, properties: map<string, SubSchema>, path: seq<Step>): seq<Error> {
    if fields == [] then []
    else
      var key := fields[|fields| - 1].key;
      UnknownErrors(fields[..|fields| - 1], properties, path) + When(key !in properties, path, NotAllowed(key))
  }

  function SubErrors(sub: SubSchema, v: Json, path: seq<Step>, m: Matcher): seq<Error>
    decreases sub
  {
    if sub.NotMapping? then [] else ErrorsOf(sub.schema, v, path, m)
  }

  function FieldErrors(s: Schema, fields: seq<Field>, path: seq<Step>, m: Matcher): seq<Error>
    decreases s, 0, |fields|
  {
    if fields == [] then []
    else
      var f := fields[|fields| - 1];
      FieldErrors(s, fields[..|fields| - 1], path, m) + OneFieldErrors(s, f, path, m)
  }

  function OneFieldErrors(s: Schema, f: Field, path: seq<Step>, m: Matcher): seq<Error>
    decreases s, 0, 0
  {
    if f.key in s.properties then SubErrors(s.properties[f.key], f.value, path + [Key(f.key)], m) else []
  }

  function ItemErrors(s: Schema, items: seq<Json>, path: seq<Step>, m: Matcher): seq<Error>
    decreases s, 0, |items|
  {
    if items == [] then []
    else
      ItemErrors(s, items[..|items| - 1], path, m)
      + SubErrors(s.items, items[|items| - 1], path + [Index(|items| - 1)], m)
  }

  /** How many of the first `n` alternatives accept the value. */
  function Matches(s: Schema, n: nat, v: Json, path: seq<Step>, m: Matcher): nat
    requires n <= |s.oneOf|
    decreases s, 0, n
  {
    if n == 0 then 0
    else Matches(s, n - 1, v, path, m) + if SubErrors(s.oneOf[n - 1], v, path, m) == [] then 1 else 0
  }

  function ObjectErrors(s: Schema, fields: seq<Field>, path: seq<Step>, m: Matcher): seq<Error>
    decreases s, 1
  {
    RequiredErrors(s.required, fields, path)
    + (if s.closed then UnknownErrors(fields, s.properties, path) else [])
    + FieldErrors(s, fields, path, m)
  }

  function ArrayErrors(s: Schema, items: seq<Json>, path: seq<Step>, m: Matcher): seq<Error>
    decreases s, 1
  {
    When(s.minItems.Some? && |items| < s.minItems.value, path, TooFewItems)
    + When(s.maxItems.Some? && |items| > s.maxItems.value, path, TooManyItems)
    + ItemErrors(s, items, path, m)
  }

  function StringErrors(s: Schema, text: string, path: seq<Step>, m: Matcher): seq<Error> {
    When(s.minLength.Some? && |text| < s.minLength.value, path, TooShort)
    + When(s.maxLength.Some? && |text| > s.maxLength.value, path, TooLong)
    + When(s.pattern.Some? && !m(s.pattern.value, text), path, InvalidFormat)
  }

  function RangeErrors(s: Schema, x: real, path: seq<Step>): seq<Error> {
    When(s.minimum.Some? && x < s.minimum.value, path, TooSmall)
    + When(s.maximum.Some? && x > s.maximum.value, path, TooLarge)
  }

  function OneOfErrors(s: Schema, v: Json, path: seq<Step>, m: Matcher): seq<Error>
    decreases s, 1
  {
    When(s.hasOneOf && Matches(s, |s.oneOf|, v, path, m) != 1, path, NotExactlyOne)
  }

  predicate IsNonFinite(v: Json) { v.Float? && !v.f.Finite? }

  function EnumErrors(s: Schema, v: Json, path: seq<Step>): seq<Error> {
    When(s.enumValues.Some? && !IsMember(v, s.enumValues.value), path, NotInEnum)
  }

  /** The errors that depend on the kind of value. */
  function KindErrors(s: Schema, v: Json, path: seq<Step>, m: Matcher): seq<Error>
    decreases s, 2
  {
    match v
    case Obj(fields) => ObjectErrors(s, fields, path, m)
    case Arr(items) => ArrayErrors(s, items, path, m)
    case Str(text) => StringErrors(s, text, path, m)
    case Int(i) => RangeErrors(s, i as real, path)
    case Float(f) => if f.Finite? then RangeErrors(s, f.r, path) else []
    case Bool(_) => []
    case Null => []
  }

  /** What validation appends for one value, independently of what was appended before. */
  function ErrorsOf(s: Schema, v: Json, path: seq<Step>, m: Matcher): seq<Error>
    decreases s, 3
  {
    if !TypeHolds(s, v) then [Error(path, MustBe(s.typeName.value))]
    else
      EnumErrors(s, v, path)
      + KindErrors(s, v, path, m)
      + (if IsNonFinite(v) then [Error(path, NotFinite)] else OneOfErrors(s, v, path, m))
  }

  // ----- integers beyond the range of a float

  predicate SubOverflows(sub: SubSchema, v: Json)
    decreases sub
  {
    sub.Sub? && Overflows(sub.schema, v)
  }

  predicate FieldOverflows(s: Schema, f: Field)
    decreases s, 0
  {
    f.key in s.properties && SubOverflows(s.properties[f.key], f.value)
  }

  predicate FieldsOverflow(s: Schema, fields: seq<Field>)
    decreases s, 1
  {
    exists i | 0 <= i < |fields| :: FieldOverflows(s, fields[i])
  }

  predicate ItemsOverflow(s: Schema, items: seq<Json>)
    decreases s, 0
  {
    exists i | 0 <= i < |items| :: SubOverflows(s.items, items[i])
  }

  predicate OneOfOverflows(s: Schema, v: Json)
    decreases s, 0
  {
    s.hasOneOf && exists i | 0 <= i < |s.oneOf| :: SubOverflows(s.oneOf[i], v)
  }

  predicate KindOverflows(s: Schema, v: Json)
    decreases s, 2
  {
    match v
    case Obj(fields) => FieldsOverflow(s, fields)
    case Arr(items) => ItemsOverflow(s, items)
    case Int(i) => BeyondFloat(i)
    case _ => false
  }

  /** Validation meets an integer it cannot convert, and raises. */
  predicate Overflows(s: Schema, v: Json)
    decreases s, 3
  {
    TypeHolds(s, v) && (KindOverflows(s, v) || (!IsNonFinite(v) && OneOfOverflows(s, v)))
  }

  /** The limit itself, and its negative, overflow under every schema that admits an integer. */
  lemma {:induction false} LimitOverflows(s: Schema)
    requires TypeHolds(s, Int(FLOAT_LIMIT))
    ensures Overflows(s, Int(FLOAT_LIMIT)) && Overflows(s, Int(-FLOAT_LIMIT))
  {
  }

  /** An integer overflows exactly from the limit on, unless an alternative of `oneOf` is consulted. */
  lemma {:induction false} IntegerOverflowsIff(s: Schema, i: int)
    requires TypeHolds(s, Int(i)) && !s.hasOneOf
    ensures Overflows(s, Int(i)) <==> i >= FLOAT_LIMIT || i <= -FLOAT_LIMIT
  {
  }

  // ----- soundness and completeness

  lemma {:induction false} RequiredEmpty(required: seq<string>, fields: seq<Field>, path: seq<Step>)
    ensures RequiredErrors(required, fields, path) == [] <==>
      forall i | 0 <= i < |required| :: HasKey(fields, required[i])
  {
    if required != [] { RequiredEmpty(required[..|required| - 1], fields, path); }
  }

  lemma {:induction false} UnknownEmpty(fields: seq<Field>, properties: map<string, SubSchema>, path: seq<Step>)
    ensures UnknownErrors(fields, properties, path) == [] <==>
      forall i | 0 <= i < |fields| :: fields[i].key in properties
  {
    if fields != [] { UnknownEmpty(fields[..|fields| - 1], properties, path); }
  }

  lemma {:induction false} SubEmpty(sub: SubSchema, v: Json, path: seq<Step>, m: Matcher)
    ensures SubErrors(sub, v, path, m) == [] <==> SubConforms(sub, v, m)
    decreases sub
  {
    if sub.Sub? { NoErrorsIffConforms(sub.schema, v, path, m); }
  }

  lemma {:induction false} FieldsEmpty(s: Schema, fields: seq<Field>, path: seq<Step>, m: Matcher)
    ensures FieldErrors(s, fields, path, m) == [] <==>
      forall i | 0 <= i < |fields| ::
        fields[i].key in s.properties ==> SubConforms(s.properties[fields[i].key], fields[i].value, m)
    decreases s, 0, |fields|
  {
    if fields != [] {
      var f := fields[|fields| - 1];
      FieldsEmpty(s, fields[..|fields| - 1], path, m);
      if f.key in s.properties { SubEmpty(s.properties[f.key], f.value, path + [Key(f.key)], m); }
    }
  }

  lemma {:induction false} ItemsEmpty(s: Schema, items: seq<Json>, path: seq<Step>, m: Matcher)
    ensures ItemErrors(s, items, path, m) == [] <==> forall i | 0 <= i < |items| :: SubConforms(s.items, items[i], m)
    decreases s, 0, |items|
  {
    if items != [] {
      ItemsEmpty(s, items[..|items| - 1], path, m);
      SubEmpty(s.items, items[|items| - 1], path + [Index(|items| - 1)], m);
    }
  }

  function CountTrue(bs: seq<bool>): nat {
    if bs == [] then 0 else CountTrue(bs[..|bs| - 1]) + if bs[|bs| - 1] then 1 else 0
  }

  /** A count of one is one true position and no other. */
  lemma {:induction false} CountTrueIsOne(bs: seq<bool>)
    ensures CountTrue(bs) == 0 <==> forall i | 0 <= i < |bs| :: !bs[i]
    ensures CountTrue(bs) == 1 <==> ExactlyOne(bs)
  {
    if bs != [] {
      var front := bs[..|bs| - 1];
      CountTrueIsOne(front);
      if CountTrue(bs) == 1 {
        var i := |bs| - 1;
        if !bs[i] { i :| 0 <= i < |front| && front[i] && forall j | 0 <= j < |front| && j != i :: !front[j]; }
        assert bs[i] && forall j | 0 <= j < |bs| && j != i :: !bs[j];
      }
      if i :| 0 <= i < |bs| && bs[i] && forall j | 0 <= j < |bs| && j != i :: !bs[j] {
        if i < |front| { assert front[i] && forall j | 0 <= j < |front| && j != i :: !front[j]; }
      }
    }
  }

  lemma {:induction false} MatchesCount(s: Schema, n: nat, v: Json, path: seq<Step>, m: Matcher)
    requires n <= |s.oneOf|
    ensures Matches(s, n, v, path, m) == CountTrue(Accepts(s, v, m)[..n])
    decreases s, 0, n
  {
    if n > 0 {
      MatchesCount(s, n - 1, v, path, m);
      SubEmpty(s.oneOf[n - 1], v, path, m);
      assert Accepts(s, v, m)[..n][..n - 1] == Accepts(s, v, m)[..n - 1];
    }
  }

  lemma {:induction false} ObjectEmpty(s: Schema, fields: seq<Field>, path: seq<Step>, m: Matcher)
    ensures ObjectErrors(s, fields, path, m) == [] <==>
      && (forall i | 0 <= i < |s.required| :: HasKey(fields, s.required[i]))
      && (s.closed ==> forall i | 0 <= i < |fields| :: fields[i].key in s.properties)
      && (forall i | 0 <= i < |fields| ::
            fields[i].key in s.properties ==> SubConforms(s.properties[fields[i].key], fields[i].value, m))
    decreases s, 1
  {
    RequiredEmpty(s.required, fields, path);
    UnknownEmpty(fields, s.properties, path);
    FieldsEmpty(s, fields, path, m);
  }

  lemma {:induction false} ArrayEmpty(s: Schema, items: seq<Json>, path: seq<Step>, m: Matcher)
    ensures ArrayErrors(s, items, path, m) == [] <==>
      LengthHolds(|items|, s.minItems, s.maxItems) && forall i | 0 <= i < |items| :: SubConforms(s.items, items[i], m)
    decreases s, 1
  {
    ItemsEmpty(s, items, path, m);
  }

  lemma {:induction false} OneOfEmpty(s: Schema, v: Json, path: seq<Step>, m: Matcher)
    ensures OneOfErrors(s, v, path, m) == [] <==> (s.hasOneOf ==> ExactlyOne(Accepts(s, v, m)))
    decreases s, 1
  {
    MatchesCount(s, |s.oneOf|, v, path, m);
    assert Accepts(s, v, m)[..|s.oneOf|] == Accepts(s, v, m);
    CountTrueIsOne(Accepts(s, v, m));
  }

  /** No error is reported exactly for the values that satisfy the schema. */
  lemma {:induction false} NoErrorsIffConforms(s: Schema, v: Json, path: seq<Step>, m: Matcher)
    ensures ErrorsOf(s, v, path, m) == [] <==> Conforms(s, v, m)
    decreases s, 2
  {
    OneOfEmpty(s, v, path, m);
    match v
    case Obj(fields) => ObjectEmpty(s, fields, path, m);
    case Arr(items) => ArrayEmpty(s, items, path, m);
    case _ =>
  }

  /** Whether a value is accepted does not depend on the path it is reported under. */
  lemma {:induction false} PathIrrelevant(s: Schema, v: Json, p: seq<Step>, q: seq<Step>, m: Matcher)
    ensures ErrorsOf(s, v, p, m) == [] <==> ErrorsOf(s, v, q, m) == []
  {
    NoErrorsIffConforms(s, v, p, m);
    NoErrorsIffConforms(s, v, q, m);
  }

  // ----- the validator

  class ErrorList {
    var items: seq<Error>

    constructor ()
      ensures items == []
    {
      items := [];
    }

    method Append(path: seq<Step>, problem: Problem)
      modifies this
      ensures items == old(items) + [Error(path, problem)]
    {
      items := items + [Error(path, problem)];
    }
  }

  method CheckRequired(required: seq<string>, fields: seq<Field>, path: seq<Step>, errors: ErrorList)
    modifies errors
    ensures errors.items == old(errors.items) + RequiredErrors(required, fields, path)
  {
    for i := 0 to |required|
      invariant errors.items == old(errors.items) + RequiredErrors(required[..i], fields, path)
    {
      assert required[..i + 1][..i] == required[..i];
      if !HasKey(fields, required[i]) { errors.Append(path, IsRequired(required[i])); }
    }
    assert required[..|required|] == required;
  }

  method CheckUnknown(fields: seq<Field>, properties: map<string, SubSchema>, path: seq<Step>, errors: ErrorList)
    modifies errors
    ensures errors.items == old(errors.items) + UnknownErrors(fields, properties, path)
  {
    for i := 0 to |fields|
      invariant errors.items == old(errors.items) + UnknownErrors(fields[..i], properties, path)
    {
      assert fields[..i + 1][..i] == fields[..i];
      if fields[i].key !in properties { errors.Append(path, NotAllowed(fields[i].key)); }
    }
    assert fields[..|fields|] == fields;
  }

  method CheckSub(sub: SubSchema, v: Json, path: seq<Step>, m: Matcher, errors: ErrorList) returns (raised: bool)
    modifies errors
    ensures raised <==> SubOverflows(sub, v)
    ensures !raised ==> errors.items == old(errors.items) + SubErrors(sub, v, path, m)
    decreases sub
  {
    raised := false;
    if sub.Sub? { raised := ValidateSchema(sub.schema, v, path, m, errors); }
  }

  method CheckObject(s: Schema, fields: seq<Field>, path: seq<Step>, m: Matcher, errors: ErrorList)
    returns (raised: bool)
    modifies errors
    ensures raised <==> FieldsOverflow(s, fields)
    ensures !raised ==> errors.items == old(errors.items) + ObjectErrors(s, fields, path, m)
    decreases s, 2
  {
    CheckRequired(s.required, fields, path, errors);
    if s.closed { CheckUnknown(fields, s.properties, path, errors); }
    raised := CheckFields(s, fields, path, m, errors);
  }

  method CheckField(s: Schema, f: Field, path: seq<Step>, m: Matcher, errors: ErrorList) returns (raised: bool)
    modifies errors
    ensures raised <==> FieldOverflows(s, f)
    ensures !raised ==> errors.items == old(errors.items) + OneFieldErrors(s, f, path, m)
    decreases s, 0
  {
    raised := false;
    if f.key in s.properties {
      raised := CheckSub(s.properties[f.key], f.value, path + [Key(f.key)], m, errors);
    }
  }

  method CheckFields(s: Schema, fields: seq<Field>, path: seq<Step>, m: Matcher, errors: ErrorList)
    returns (raised: bool)
    modifies errors
    ensures raised <==> FieldsOverflow(s, fields)
    ensures !raised ==> errors.items == old(errors.items) + FieldErrors(s, fields, path, m)
    decreases s, 1
  {
    for i := 0 to |fields|
      invariant forall j | 0 <= j < i :: !FieldOverflows(s, fields[j])
      invariant errors.items == old(errors.items) + FieldErrors(s, fields[..i], path, m)
    {
      assert fields[..i + 1][..i] == fields[..i];
      raised := CheckField(s, fields[i], path, m, errors);
      if raised { return; }
    }
    assert fields[..|fields|] == fields;
    return false;
  }

  method CheckArray(s: Schema, items: seq<Json>, path: seq<Step>, m: Matcher, errors: ErrorList) returns (raised: bool)
    modifies errors
    ensures raised <==> ItemsOverflow(s, items)
    ensures !raised ==> errors.items == old(errors.items) + ArrayErrors(s, items, path, m)
    decreases s, 1
  {
    if s.minItems.Some? && |items| < s.minItems.value { errors.Append(path, TooFewItems); }
    if s.maxItems.Some? && |items| > s.maxItems.value { errors.Append(path, TooManyItems); }
    raised := CheckItems(s, items, path, m, errors);
  }

  method CheckItems(s: Schema, items: seq<Json>, path: seq<Step>, m: Matcher, errors: ErrorList) returns (raised: bool)
    modifies errors
    ensures raised <==> ItemsOverflow(s, items)
    ensures !raised ==> errors.items == old(errors.items) + ItemErrors(s, items, path, m)
    decreases s, 0
  {
    if s.items.NotMapping? {
      NoItemErrors(s, items, path, m);
      return false;
    }
    for i := 0 to |items|
      invariant forall j | 0 <= j < i :: !SubOverflows(s.items, items[j])
      invariant errors.items == old(errors.items) + ItemErrors(s, items[..i], path, m)
    {
      assert items[..i + 1][..i] == items[..i];
      raised := CheckSub(s.items, items[i], path + [Index(i)], m, errors);
      if raised { return; }
    }
    assert items[..|items|] == items;
    return false;
  }

  lemma {:induction false} NoItemErrors(s: Schema, items: seq<Json>, path: seq<Step>, m: Matcher)
    requires s.items.NotMapping?
    ensures ItemErrors(s, items, path, m) == []
  {
    if items != [] { NoItemErrors(s, items[..|items| - 1], path, m); }
  }

  method CheckString(s: Schema, text: string, path: seq<Step>, m: Matcher, errors: ErrorList)
    modifies errors
    ensures errors.items == old(errors.items) + StringErrors(s, text, path, m)
  {
    if s.minLength.Some? && |text| < s.minLength.value { errors.Append(path, TooShort); }
    if s.maxLength.Some? && |text| > s.maxLength.value { errors.Append(path, TooLong); }
    if s.pattern.Some? && !m(s.pattern.value, text) { errors.Append(path, InvalidFormat); }
  }

  method CheckRange(s: Schema, x: real, path: seq<Step>, errors: ErrorList)
    modifies errors
    ensures errors.items == old(errors.items) + RangeErrors(s, x, path)
  {
    if s.minimum.Some? && x < s.minimum.value { errors.Append(path, TooSmall); }
    if s.maximum.Some? && x > s.maximum.value { errors.Append(path, TooLarge); }
  }

  method CheckOneOf(s: Schema, v: Json, path: seq<Step>, m: Matcher, errors: ErrorList) returns (raised: bool)
    modifies errors
    ensures raised <==> OneOfOverflows(s, v)
    ensures !raised ==> errors.items == old(errors.items) + OneOfErrors(s, v, path, m)
    decreases s, 1
  {
    if !s.hasOneOf { return false; }
    var matches := 0;
    for i := 0 to |s.oneOf|
      invariant matches == Matches(s, i, v, path, m)
      invariant forall j | 0 <= j < i :: !SubOverflows(s.oneOf[j], v)
      invariant errors.items == old(errors.items)
    {
      var nested := new ErrorList();
      raised := CheckSub(s.oneOf[i], v, path, m, nested);
      if raised { return; }
      if nested.items == [] { matches := matches + 1; }
    }
    if matches != 1 { errors.Append(path, NotExactlyOne); }
    return false;
  }

  method CheckKind(s: Schema, v: Json, path: seq<Step>, m: Matcher, errors: ErrorList) returns (raised: bool)
    modifies errors
    ensures raised <==> KindOverflows(s, v)
    ensures !raised ==> errors.items == old(errors.items) + KindErrors(s, v, path, m)
    decreases s, 3
  {
    raised := false;
    match v
    case Obj(fields) => raised := CheckObject(s, fields, path, m, errors);
    case Arr(items) => raised := CheckArray(s, items, path, m, errors);
    case Str(text) => CheckString(s, text, path, m, errors);
    case Int(i) =>
      raised := BeyondFloat(i);
      if !raised { CheckRange(s, i as real, path, errors); }
    case Float(f) => if f.Finite? { CheckRange(s, f.r, path, errors); }
    case Bool(_) =>
    case Null =>
  }

  /** Appends the errors of this value and nothing else, and keeps earlier errors; raises exactly
      when it meets an integer beyond the range of a float. */
  method ValidateSchema(s: Schema, v: Json, path: seq<Step>, m: Matcher, errors: ErrorList) returns (raised: bool)
    modifies errors
    ensures raised <==> Overflows(s, v)
    ensures !raised ==> errors.items == old(errors.items) + ErrorsOf(s, v, path, m)
    decreases s, 4
  {
    if s.typeName.Some? && s.typeName.value != "" && !MatchesType(s.typeName.value, v) {
      errors.Append(path, MustBe(s.typeName.value));
      return false;
    }
    CheckEnum(s, v, path, errors);
    raised := CheckKind(s, v, path, m, errors);
    if raised { return; }
    ghost var start, e, k := old(errors.items), EnumErrors(s, v, path), KindErrors(s, v, path, m);
    Regrouped(start, e, k, if IsNonFinite(v) then [Error(path, NotFinite)] else OneOfErrors(s, v, path, m));
    if IsNonFinite(v) {
      errors.Append(path, NotFinite);
      return false;
    }
    raised := CheckOneOf(s, v, path, m, errors);
  }

  lemma {:induction false} Regrouped(start: seq<Error>, e: seq<Error>, k: seq<Error>, o: seq<Error>)
    ensures start + e + k + o == start + (e + k + o)
  {
  }

  method CheckEnum(s: Schema, v: Json, path: seq<Step>, errors: ErrorList)
    modifies errors
    ensures errors.items == old(errors.items) + EnumErrors(s, v, path)
  {
    if s.enumValues.Some? && !IsMember(v, s.enumValues.value) { errors.Append(path, NotInEnum); }
  }

  /** `validate_json_arguments`: raises exactly on an overflow, and otherwise returns the specified
      list, which is empty exactly for conforming arguments. */
  method ValidateArguments(s: Schema, v: Json, m: Matcher) returns (r: Attempt<seq<Error>>)
    ensures r.Raised? <==> Overflows(s, v)
    ensures r.Returned? ==> r.value == ErrorsOf(s, v, [], m) && (r.value == [] <==> Conforms(s, v, m))
  {
    var list := new ErrorList();
    var raised := ValidateSchema(s, v, [], m, list);
    if raised { return Raised; }
    NoErrorsIffConforms(s, v, [], m);
    return Returned(list.items);
  }
}
