/** Delimited text and decimal numerals, as the repository's `join` and `%d` produce them. */
module Text {

  /** The first delimiter splits a sequence in only one way. */
  lemma {:induction false} FirstDelimiter<T>(d: T, x: seq<T>, y: seq<T>, u: seq<T>, v: seq<T>)
    requires d !in x && d !in u
    requires x + [d] + y == u + [d] + v
    ensures x == u && y == v
  {
    var left, right := x + [d] + y, u + [d] + v;
    assert left[0] == if x == [] then d else x[0];
    assert right[0] == if u == [] then d else u[0];
    if x == [] {
      assert left[1..] == y && right[1..] == v;
    } else {
      assert left[1..] == x[1..] + [d] + y && right[1..] == u[1..] + [d] + v;
      FirstDelimiter(d, x[1..], y, u[1..], v);
      assert x == [x[0]] + x[1..] && u == [u[0]] + u[1..];
    }
  }

  const DIGITS: seq<char> := ['0', '1', '2', '3', '4', '5', '6', '7', '8', '9']

  /** `str(n)` for a natural number. */
  function Decimal(n: nat): (s: string)
    ensures s != [] && forall i | 0 <= i < |s| :: '0' <= s[i] <= '9'
  {
    if n < 10 then [DIGITS[n]] else Decimal(n / 10) + [DIGITS[n % 10]]
  }

  function DigitValue(c: char): nat { if '0' <= c <= '9' then (c as int) - ('0' as int) else 0 }

  function Number(s: string): nat {
    if s == [] then 0 else Number(s[..|s| - 1]) * 10 + DigitValue(s[|s| - 1])
  }

  /** Reading a numeral back gives the number, so numerals are injective. */
  lemma {:induction false} DecimalRoundTrip(n: nat)
    ensures Number(Decimal(n)) == n
  {
    if n < 10 {
      assert Decimal(n)[..0] == [];
      assert DigitValue(DIGITS[n]) == n;
    } else {
      DecimalRoundTrip(n / 10);
      var s := Decimal(n);
      assert s[..|s| - 1] == Decimal(n / 10);
      assert DigitValue(DIGITS[n % 10]) == n % 10;
    }
  }

  lemma {:induction false} DecimalInjective(m: nat, n: nat)
    requires Decimal(m) == Decimal(n)
    ensures m == n
  {
    DecimalRoundTrip(m);
    DecimalRoundTrip(n);
  }

  function Power10(k: nat): (p: nat)
    ensures p >= 1
  {
    if k == 0 then 1 else 10 * Power10(k - 1)
  }

  /** A number below 10^k (k > 0) is written with at most k digits. */
  lemma {:induction false} DecimalLength(n: nat, k: nat)
    requires k > 0 && n < Power10(k)
    ensures |Decimal(n)| <= k
  {
    if n >= 10 {
      assert k > 1;
      DecimalLength(n / 10, k - 1);
    }
  }

  /** A number from 10^k on needs more than k digits. */
  lemma {:induction false} DecimalTooLong(n: nat, k: nat)
    requires n >= Power10(k)
    ensures |Decimal(n)| > k
  {
    if k > 0 {
      assert Power10(k) == 10 * Power10(k - 1);
      assert n / 10 >= Power10(k - 1) && Power10(k - 1) >= 1;
      DecimalTooLong(n / 10, k - 1);
    }
  }

  /** `"/".join(parts)`. */
  function Join(parts: seq<string>): string {
    if parts == [] then "" else if |parts| == 1 then parts[0] else parts[0] + ['/'] + Join(parts[1..])
  }

  predicate Plain(part: string) { part != "" && '/' !in part }

  lemma {:induction false} SlashIffMany(parts: seq<string>)
    requires parts != [] && forall p | p in parts :: Plain(p)
    ensures '/' in Join(parts) <==> |parts| > 1
  {
    assert Plain(parts[0]);
    if |parts| > 1 { assert Join(parts)[|parts[0]|] == '/'; }
  }

  /** Paths built from plain names are equal only for equal name lists. */
  lemma {:induction false} JoinInjective(a: seq<string>, b: seq<string>)
    requires a != [] && b != []
    requires (forall p | p in a :: Plain(p)) && (forall p | p in b :: Plain(p))
    requires Join(a) == Join(b)
    ensures a == b
  {
    SlashIffMany(a);
    SlashIffMany(b);
    if |a| > 1 {
      assert Plain(a[0]) && Plain(b[0]);
      FirstDelimiter('/', a[0], Join(a[1..]), b[0], Join(b[1..]));
      JoinInjective(a[1..], b[1..]);
      assert a == [a[0]] + a[1..] && b == [b[0]] + b[1..];
    }
  }

  /** `path.split("/")`. */
  function Split(path: string): (parts: seq<string>)
    ensures parts != []
    decreases |path|
  {
    if path == "" then [""]
    else
      var rest := Split(path[1..]);
      if path[0] == '/' then [""] + rest else [[path[0]] + rest[0]] + rest[1..]
  }

  lemma {:induction false} SplitAfter(part: string, tail: string)
    requires '/' !in part
    ensures Split(part + ['/'] + tail) == [part] + Split(tail) && Split(part) == [part]
    decreases |part|
  {
    if part == "" {
      assert (part + ['/'] + tail)[1..] == tail;
    } else {
      var rest := part[1..];
      SplitAfter(rest, tail);
      assert part == [part[0]] + rest;
      assert (part + ['/'] + tail)[1..] == rest + ['/'] + tail;
      assert ([rest] + Split(tail))[1..] == Split(tail) && [rest][1..] == [];
    }
  }

  /** Splitting a joined path at its slashes gives the names back. */
  lemma {:induction false} SplitJoin(parts: seq<string>)
    requires parts != [] && forall p | p in parts :: Plain(p)
    ensures Split(Join(parts)) == parts
  {
    assert Plain(parts[0]);
    if |parts| == 1 {
      SplitAfter(parts[0], "");
    } else {
      SplitJoin(parts[1..]);
      SplitAfter(parts[0], Join(parts[1..]));
      assert parts == [parts[0]] + parts[1..];
    }
  }
}
