/** The pre-authentication encoding of the DSSE v1 protocol ("Signature Definition"). */
module Dsse {
  import opened Basics
  import opened Base64
  import Text

  const SPACE: Byte := 32

  /** "DSSEv1 ", byte by byte. */
  const HEADER: seq<Byte> := [68, 83, 83, 69, 118, 49, 32]

  /** A decimal numeral in ASCII. */
  function Numeral(n: nat): (bytes: seq<Byte>)
    ensures |bytes| == |Text.Decimal(n)|
    ensures forall i | 0 <= i < |bytes| :: bytes[i] == Text.Decimal(n)[i] as int && bytes[i] != SPACE
  {
    var s := Text.Decimal(n);
    seq(|s|, i requires 0 <= i < |s| => s[i] as int)
  }

  lemma {:induction false} NumeralInjective(m: nat, n: nat)
    requires Numeral(m) == Numeral(n)
    ensures m == n
  {
    var s, t := Text.Decimal(m), Text.Decimal(n);
    assert |s| == |t|;
    forall i | 0 <= i < |s| ensures s[i] == t[i] {
      assert Numeral(m)[i] == s[i] as int && Numeral(n)[i] == t[i] as int;
    }
    assert s == t;
    Text.DecimalInjective(m, n);
  }

  /** A length, a space and the bytes. */
  function Counted(bytes: seq<Byte>): seq<Byte> { Numeral(|bytes|) + [SPACE] + bytes }

  /** What is signed for a payload type and a payload. */
  function PreAuthEncoding(payloadType: seq<Byte>, payload: seq<Byte>): seq<Byte> {
    HEADER + Counted(payloadType) + [SPACE] + Counted(payload)
  }

  /** A counted field ends where its length says, whatever follows it. */
  lemma {:induction false} CountedPrefix(a: seq<Byte>, x: seq<Byte>, b: seq<Byte>, y: seq<Byte>)
    requires Counted(a) + x == Counted(b) + y
    ensures a == b && x == y
  {
    assert Counted(a) + x == Numeral(|a|) + [SPACE] + (a + x);
    assert Counted(b) + y == Numeral(|b|) + [SPACE] + (b + y);
    Text.FirstDelimiter(SPACE, Numeral(|a|), a + x, Numeral(|b|), b + y);
    NumeralInjective(|a|, |b|);
    assert (a + x)[..|a|] == a && (b + y)[..|b|] == b;
    assert (a + x)[|a|..] == x && (b + y)[|b|..] == y;
  }

  /** No two pairs of payload type and payload are signed as the same bytes. */
  lemma {:induction false} PreAuthInjective(t: seq<Byte>, p: seq<Byte>, t': seq<Byte>, p': seq<Byte>)
    requires PreAuthEncoding(t, p) == PreAuthEncoding(t', p')
    ensures t == t' && p == p'
  {
    var left, right := Counted(t) + ([SPACE] + Counted(p)), Counted(t') + ([SPACE] + Counted(p'));
    assert PreAuthEncoding(t, p) == HEADER + left && PreAuthEncoding(t', p') == HEADER + right;
    assert (HEADER + left)[|HEADER|..] == left && (HEADER + right)[|HEADER|..] == right;
    CountedPrefix(t, [SPACE] + Counted(p), t', [SPACE] + Counted(p'));
    assert ([SPACE] + Counted(p))[1..] == Counted(p) && ([SPACE] + Counted(p'))[1..] == Counted(p');
    assert Counted(p) + [] == Counted(p) && Counted(p') + [] == Counted(p');
    CountedPrefix(p, [], p', []);
  }

  // ----- a reader

  function FirstSpace(bytes: seq<Byte>): (k: nat)
    ensures k <= |bytes|
  {
    if bytes == [] || bytes[0] == SPACE then 0 else 1 + FirstSpace(bytes[1..])
  }

  /** Bytes as characters. */
  function Chars(bytes: seq<Byte>): string { seq(|bytes|, i requires 0 <= i < |bytes| => bytes[i] as char) }

  /** A decimal length up to the first space, and so many bytes behind it. */
  function ReadCounted(bytes: seq<Byte>): Option<(seq<Byte>, seq<Byte>)> {
    var k := FirstSpace(bytes);
    if k == |bytes| then None
    else
      var n, rest := Text.Number(Chars(bytes[..k])), bytes[k + 1..];
      if n > |rest| then None else Some((rest[..n], rest[n..]))
  }

  /** The text "DSSEv1", a space, a counted type, a space, a counted payload, and nothing else. */
  function Read(bytes: seq<Byte>): Option<(seq<Byte>, seq<Byte>)> {
    if |bytes| < 7 || Chars(bytes[..7]) != "DSSEv1 " then None
    else
      var first := ReadCounted(bytes[7..]);
      if first.None? || first.value.1 == [] || first.value.1[0] != SPACE then None
      else
        var second := ReadCounted(first.value.1[1..]);
        if second.None? || second.value.1 != [] then None else Some((first.value.0, second.value.0))
  }

  lemma {:induction false} SpaceAfter(head: seq<Byte>, tail: seq<Byte>)
    requires SPACE !in head
    ensures FirstSpace(head + [SPACE] + tail) == |head|
  {
    if head != [] {
      SpaceAfter(head[1..], tail);
      assert (head + [SPACE] + tail)[1..] == head[1..] + [SPACE] + tail;
    }
  }

  /** A counted field reads back, whatever follows it. */
  lemma {:induction false} CountedReads(field: seq<Byte>, tail: seq<Byte>)
    ensures ReadCounted(Counted(field) + tail) == Some((field, tail))
  {
    var head, all := Numeral(|field|), Counted(field) + tail;
    assert all == head + [SPACE] + (field + tail);
    SpaceAfter(head, field + tail);
    assert all[..|head|] == head && all[|head| + 1..] == field + tail;
    assert Chars(head) == Text.Decimal(|field|);
    Text.DecimalRoundTrip(|field|);
  }

  lemma {:induction false} HeaderSpells()
    ensures |HEADER| == 7 && Chars(HEADER) == "DSSEv1 "
  {
  }

  /** What is signed reads back as its payload type and payload. */
  lemma {:induction false} ReadsBack(payloadType: seq<Byte>, payload: seq<Byte>)
    ensures Read(PreAuthEncoding(payloadType, payload)) == Some((payloadType, payload))
  {
    var all, tail := PreAuthEncoding(payloadType, payload), [SPACE] + Counted(payload);
    HeaderSpells();
    assert all == HEADER + (Counted(payloadType) + tail);
    assert all[..7] == HEADER && all[7..] == Counted(payloadType) + tail;
    CountedReads(payloadType, tail);
    assert tail[1..] == Counted(payload) + [];
    CountedReads(payload, []);
  }
}
