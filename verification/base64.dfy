/** Base64 with padding (sections 3.5 and 4 of RFC 4648) and its strict decoder. */
module Base64 {
  import opened Basics

  type Byte = b: int | 0 <= b < 256

  type Sextet = v: int | 0 <= v < 64

  const PAD: char := '='

  function Symbol(v: Sextet): (c: char)
    ensures Known(c) && Value(c) == v
  {
    if v < 26 then 'A' + v as char
    else if v < 52 then 'a' + (v - 26) as char
    else if v < 62 then '0' + (v - 52) as char
    else if v == 62 then '+'
    else '/'
  }

  predicate Known(c: char) { 'A' <= c <= 'Z' || 'a' <= c <= 'z' || '0' <= c <= '9' || c == '+' || c == '/' }

  function Value(c: char): (v: Sextet)
    requires Known(c)
  {
    if 'A' <= c <= 'Z' then c as int - 'A' as int
    else if 'a' <= c <= 'z' then c as int - 'a' as int + 26
    else if '0' <= c <= '9' then c as int - '0' as int + 52
    else if c == '+' then 62
    else 63
  }

  lemma {:induction false} SymbolOfValue(c: char)
    requires Known(c)
    ensures Symbol(Value(c)) == c
  {
  }

  function Encode(bytes: seq<Byte>): string {
    if bytes == [] then ""
    else if |bytes| == 1 then [Symbol(bytes[0] / 4), Symbol(bytes[0] % 4 * 16), PAD, PAD]
    else if |bytes| == 2 then
      [Symbol(bytes[0] / 4), Symbol(bytes[0] % 4 * 16 + bytes[1] / 16), Symbol(bytes[1] % 16 * 4), PAD]
    else
      [Symbol(bytes[0] / 4), Symbol(bytes[0] % 4 * 16 + bytes[1] / 16),
       Symbol(bytes[1] % 16 * 4 + bytes[2] / 64), Symbol(bytes[2] % 64)]
      + Encode(bytes[3..])
  }

  function First(a: Sextet, b: Sextet): Byte { a * 4 + b / 16 }

  function Second(b: Sextet, c: Sextet): Byte { b % 16 * 16 + c / 4 }

  function Third(c: Sextet, d: Sextet): Byte { c % 4 * 64 + d }

  /** Strict decoding: only alphabet characters, padded to a multiple of four at the very end.
      The unused low bits of the last symbol are ignored. */
  function Decode(text: string): (r: Option<seq<Byte>>) {
    if text == "" then Some([])
    else if |text| < 4 || !Known(text[0]) || !Known(text[1]) then None
    else if |text| == 4 && text[2] == PAD && text[3] == PAD then Some([First(Value(text[0]), Value(text[1]))])
    else if !Known(text[2]) then None
    else if |text| == 4 && text[3] == PAD then
      Some([First(Value(text[0]), Value(text[1])), Second(Value(text[1]), Value(text[2]))])
    else if !Known(text[3]) then None
    else
      var rest := Decode(text[4..]);
      if rest.None? then None
      else
        Some([First(Value(text[0]), Value(text[1])), Second(Value(text[1]), Value(text[2])),
              Third(Value(text[2]), Value(text[3]))] + rest.value)
  }

  lemma {:induction false} BytesBack(a: Byte, b: Byte, c: Byte)
    ensures First(a / 4, a % 4 * 16 + b / 16) == a && First(a / 4, a % 4 * 16) == a
    ensures Second(a % 4 * 16 + b / 16, b % 16 * 4 + c / 64) == b && Second(a % 4 * 16 + b / 16, b % 16 * 4) == b
    ensures Third(b % 16 * 4 + c / 64, c % 64) == c
  {
  }

  lemma {:induction false} SextetsBack(a: Sextet, b: Sextet, c: Sextet, d: Sextet)
    ensures First(a, b) / 4 == a && First(a, b) % 4 * 16 == b - b % 16
    ensures First(a, b) % 4 * 16 + Second(b, c) / 16 == b && Second(b, c) % 16 * 4 == c - c % 4
    ensures Second(b, c) % 16 * 4 + Third(c, d) / 64 == c && Third(c, d) % 64 == d
  {
  }

  lemma {:induction false} SymbolsDiffer(u: Sextet, v: Sextet)
    ensures Symbol(u) == Symbol(v) <==> u == v
  {
    assert Value(Symbol(u)) == u && Value(Symbol(v)) == v;
  }

  lemma {:induction false} DecodeQuad(a: Sextet, b: Sextet, c: Sextet, d: Sextet, rest: string)
    requires Decode(rest).Some?
    ensures Decode([Symbol(a), Symbol(b), Symbol(c), Symbol(d)] + rest)
         == Some([First(a, b), Second(b, c), Third(c, d)] + Decode(rest).value)
  {
    var text := [Symbol(a), Symbol(b), Symbol(c), Symbol(d)] + rest;
    assert text[4..] == rest;
    assert text[0] == Symbol(a) && text[1] == Symbol(b) && text[2] == Symbol(c) && text[3] == Symbol(d);
  }

  lemma {:induction false} DecodeTwo(a: Sextet, b: Sextet, c: Sextet)
    ensures Decode([Symbol(a), Symbol(b), Symbol(c), PAD]) == Some([First(a, b), Second(b, c)])
  {
    var text := [Symbol(a), Symbol(b), Symbol(c), PAD];
    assert text[0] == Symbol(a) && text[1] == Symbol(b) && text[2] == Symbol(c) && text[3] == PAD;
  }

  lemma {:induction false} DecodeOne(a: Sextet, b: Sextet)
    ensures Decode([Symbol(a), Symbol(b), PAD, PAD]) == Some([First(a, b)])
  {
  }

  lemma {:induction false} BackOne(x: Byte)
    ensures Decode(Encode([x])) == Some([x])
  {
    BytesBack(x, 0, 0);
    DecodeOne(x / 4, x % 4 * 16);
  }

  lemma {:induction false} BackTwo(x: Byte, y: Byte)
    ensures Decode(Encode([x, y])) == Some([x, y])
  {
    BytesBack(x, y, 0);
    DecodeTwo(x / 4, x % 4 * 16 + y / 16, y % 16 * 4);
  }

  lemma {:induction false} BackMore(x: Byte, y: Byte, z: Byte, rest: seq<Byte>)
    requires Decode(Encode(rest)) == Some(rest)
    ensures Decode(Encode([x, y, z] + rest)) == Some([x, y, z] + rest)
  {
    BytesBack(x, y, z);
    DecodeQuad(x / 4, x % 4 * 16 + y / 16, y % 16 * 4 + z / 64, z % 64, Encode(rest));
    assert ([x, y, z] + rest)[3..] == rest;
  }

  /** Every encoding decodes to the bytes it came from. */
  lemma {:induction false} DecodeEncode(bytes: seq<Byte>)
    ensures Decode(Encode(bytes)) == Some(bytes)
  {
    if |bytes| == 1 {
      BackOne(bytes[0]);
      assert bytes == [bytes[0]];
    } else if |bytes| == 2 {
      BackTwo(bytes[0], bytes[1]);
      assert bytes == [bytes[0], bytes[1]];
    } else if |bytes| >= 3 {
      DecodeEncode(bytes[3..]);
      BackMore(bytes[0], bytes[1], bytes[2], bytes[3..]);
      assert bytes == [bytes[0], bytes[1], bytes[2]] + bytes[3..];
    }
  }

  lemma {:induction false} EncodeInjective(a: seq<Byte>, b: seq<Byte>)
    requires Encode(a) == Encode(b)
    ensures a == b
  {
    DecodeEncode(a);
    DecodeEncode(b);
  }

  /** The bits that padding leaves over in the last symbol are zero. */
  predicate ZeroTail(text: string) {
    var n := |text|;
    n >= 4 ==>
      && (text[n - 1] == PAD && text[n - 2] == PAD && Known(text[n - 3]) ==> Value(text[n - 3]) % 16 == 0)
      && (text[n - 1] == PAD && Known(text[n - 2]) ==> Value(text[n - 2]) % 4 == 0)
  }

  lemma {:induction false} ReencodeOne(text: string)
    requires |text| == 4 && Known(text[0]) && Known(text[1]) && text[2] == PAD && text[3] == PAD
    ensures Encode([First(Value(text[0]), Value(text[1]))]) == text <==> Value(text[1]) % 16 == 0
  {
    var a, b := Value(text[0]), Value(text[1]);
    SextetsBack(a, b, 0, 0);
    SymbolOfValue(text[0]);
    SymbolOfValue(text[1]);
    SymbolsDiffer(b - b % 16, b);
    var again := Encode([First(a, b)]);
    assert again == [text[0], Symbol(b - b % 16), PAD, PAD];
    assert text == [text[0], text[1], text[2], text[3]];
    assert again[1] == Symbol(b - b % 16);
  }

  lemma {:induction false} ReencodeTwo(text: string)
    requires |text| == 4 && Known(text[0]) && Known(text[1]) && Known(text[2]) && text[3] == PAD
    ensures Encode([First(Value(text[0]), Value(text[1])), Second(Value(text[1]), Value(text[2]))]) == text
       <==> Value(text[2]) % 4 == 0
  {
    var a, b, c := Value(text[0]), Value(text[1]), Value(text[2]);
    SextetsBack(a, b, c, 0);
    SymbolOfValue(text[0]);
    SymbolOfValue(text[1]);
    SymbolOfValue(text[2]);
    SymbolsDiffer(c - c % 4, c);
    var again := Encode([First(a, b), Second(b, c)]);
    assert again == [text[0], text[1], Symbol(c - c % 4), PAD];
    assert text == [text[0], text[1], text[2], text[3]];
    assert again[2] == Symbol(c - c % 4);
  }

  lemma {:induction false} ReencodeFull(text: string, rest: seq<Byte>)
    requires |text| >= 4 && Known(text[0]) && Known(text[1]) && Known(text[2]) && Known(text[3])
    ensures var a, b, c, d := Value(text[0]), Value(text[1]), Value(text[2]), Value(text[3]);
      Encode([First(a, b), Second(b, c), Third(c, d)] + rest) == text[..4] + Encode(rest)
  {
    var a, b, c, d := Value(text[0]), Value(text[1]), Value(text[2]), Value(text[3]);
    SextetsBack(a, b, c, d);
    SymbolOfValue(text[0]);
    SymbolOfValue(text[1]);
    SymbolOfValue(text[2]);
    SymbolOfValue(text[3]);
    var bytes := [First(a, b), Second(b, c), Third(c, d)] + rest;
    assert bytes[3..] == rest;
    assert text[..4] == [text[0], text[1], text[2], text[3]];
  }

  lemma {:induction false} ZeroTailRest(text: string)
    requires |text| >= 8
    ensures ZeroTail(text) <==> ZeroTail(text[4..])
  {
    var rest, n := text[4..], |text|;
    assert rest[n - 5] == text[n - 1] && rest[n - 6] == text[n - 2] && rest[n - 7] == text[n - 3];
  }

  lemma {:induction false} SameHead(text: string, tail: string)
    requires |text| >= 4
    ensures text[..4] + tail == text <==> tail == text[4..]
  {
    assert text == text[..4] + text[4..];
    assert (text[..4] + tail)[4..] == tail;
  }

  /** Re-encoding an accepted text gives it back exactly when the left-over bits are zero. */
  lemma {:induction false} ReencodeIffZeroTail(text: string)
    requires Decode(text).Some?
    ensures Encode(Decode(text).value) == text <==> ZeroTail(text)
  {
    if text == "" {
    } else if |text| == 4 && text[3] == PAD {
      if text[2] == PAD { ReencodeOne(text); } else { ReencodeTwo(text); }
    } else {
      var rest := text[4..];
      ReencodeFull(text, Decode(rest).value);
      ReencodeIffZeroTail(rest);
      SameHead(text, Encode(Decode(rest).value));
      if rest != "" { ZeroTailRest(text); }
    }
  }

  /** The alphabet: capitals, small letters, digits, plus and slash. */
  lemma {:induction false} Alphabet(v: Sextet)
    ensures v == 0 ==> Symbol(v) == 'A'
    ensures v == 26 ==> Symbol(v) == 'a'
    ensures v == 52 ==> Symbol(v) == '0'
    ensures v == 62 ==> Symbol(v) == '+'
    ensures v == 63 ==> Symbol(v) == '/'
    ensures v < 61 && v != 25 && v != 51 ==> Symbol(v + 1) as int == Symbol(v) as int + 1
  {
  }

  /** The test vectors of section 10 of RFC 4648: prefixes of "foobar". */
  lemma {:induction false} TestVectors()
    ensures Encode([]) == "" && Encode([102]) == "Zg==" && Encode([102, 111]) == "Zm8="
    ensures Encode([102, 111, 111]) == "Zm9v" && Encode([102, 111, 111, 98]) == "Zm9vYg=="
    ensures Encode([102, 111, 111, 98, 97]) == "Zm9vYmE="
    ensures Encode([102, 111, 111, 98, 97, 114]) == "Zm9vYmFy"
  {
    var foo: seq<Byte>, foob: seq<Byte>, fooba: seq<Byte>, foobar: seq<Byte> :=
      [102, 111, 111], [102, 111, 111, 98], [102, 111, 111, 98, 97], [102, 111, 111, 98, 97, 114];
    assert foo[3..] == [] && foob[3..] == [98] && fooba[3..] == [98, 97] && foobar[3..] == [98, 97, 114];
    var bar: seq<Byte> := [98, 97, 114];
    assert bar[3..] == [];
  }
}
