/** Base64url without padding (sections 5 and 3.2 of RFC 4648), with the leniency of Go's RawURLEncoding decoder:
    line breaks are skipped and the unused bits of the last digit are ignored. */
module Base64Url {
  import opened Values

  type Byte = x: int | 0 <= x < 256
  type Bytes = seq<Byte>

  function Digit(v: int): (c: char)
    requires 0 <= v < 64
    ensures IsDigit(c) && Worth(c) == v
  {
    if v < 26 then ('A' as int + v) as char
    else if v < 52 then ('a' as int + v - 26) as char
    else if v < 62 then ('0' as int + v - 52) as char
    else if v == 62 then '-'
    else '_'
  }

  predicate IsDigit(c: char) {
    'A' <= c <= 'Z' || 'a' <= c <= 'z' || '0' <= c <= '9' || c == '-' || c == '_'
  }

  function Worth(c: char): (v: int)
    requires IsDigit(c)
    ensures 0 <= v < 64
  {
    if 'A' <= c <= 'Z' then c as int - 'A' as int
    else if 'a' <= c <= 'z' then c as int - 'a' as int + 26
    else if '0' <= c <= '9' then c as int - '0' as int + 52
    else if c == '-' then 62
    else 63
  }

  lemma WorthDigit(c: char)
    requires IsDigit(c)
    ensures Digit(Worth(c)) == c
  {}

  /** How many ways the last digit of a text for n octets can be spelled. */
  function Spares(n: nat): nat {
    if n % 3 == 1 then 16 else if n % 3 == 2 then 4 else 1
  }

  /** The text of these octets with `spare` in the unused low bits of the last digit. */
  function Spelled(b: Bytes, spare: nat): string
    requires spare < Spares(|b|)
  {
    if |b| == 0 then ""
    else if |b| == 1 then One(b[0], spare)
    else if |b| == 2 then Two(b[0], b[1], spare)
    else Quad(b[0], b[1], b[2]) + Spelled(b[3..], spare)
  }

  /** The encoder leaves the unused bits zero. */
  function Encode(b: Bytes): string {
    Spelled(b, 0)
  }

  /** Table 2 of RFC 4648, run by run. */
  lemma DigitsAreTheAlphabet()
    ensures Digit(0) == 'A' && Digit(25) == 'Z' && Digit(26) == 'a' && Digit(51) == 'z'
    ensures Digit(52) == '0' && Digit(61) == '9' && Digit(62) == '-' && Digit(63) == '_'
    ensures forall v :: 0 <= v < 61 && v != 25 && v != 51 ==> Digit(v + 1) as int == Digit(v) as int + 1
  {}

  /** Section 4 of RFC 4648: three octets are one number of 24 bits, written as four digits of six. */
  lemma GroupOfThree(x: Byte, y: Byte, z: Byte)
    ensures var (q, a: int, b: int, c: int) := (Quad(x, y, z), x, y, z);
            ((Worth(q[0]) * 64 + Worth(q[1])) * 64 + Worth(q[2])) * 64 + Worth(q[3]) == (a * 256 + b) * 256 + c
  {
    var (a: int, b: int, c: int) := (x, y, z);
    assert a / 4 * 4 + a % 4 == a && b / 16 * 16 + b % 16 == b && c / 64 * 64 + c % 64 == c;
  }

  /** One or two octets that are left are padded with zero bits to whole digits. */
  lemma GroupOfOneOrTwo(x: Byte, y: Byte)
    ensures var (one, two, a: int, b: int) := (One(x, 0), Two(x, y, 0), x, y);
            && Worth(one[0]) * 64 + Worth(one[1]) == a * 16
            && (Worth(two[0]) * 64 + Worth(two[1])) * 64 + Worth(two[2]) == (a * 256 + b) * 4
  {
    var (a: int, b: int) := (x, y);
    assert a / 4 * 4 + a % 4 == a && b / 16 * 16 + b % 16 == b;
  }

  /** A text is written group by group. */
  lemma {:induction false} GroupAt(b: Bytes, k: nat)
    requires 3 * k + 3 <= |b|
    ensures |Encode(b)| >= 4 * k + 4
    ensures Encode(b)[4 * k..4 * k + 4] == Quad(b[3 * k], b[3 * k + 1], b[3 * k + 2])
  {
    var (quad, rest, tail) := (Quad(b[0], b[1], b[2]), b[3..], Encode(b[3..]));
    AfterAQuad(quad, tail);
    if k > 0 {
      GroupAt(rest, k - 1);
      assert (quad + tail)[4 * k..4 * k + 4] == tail[4 * (k - 1)..4 * (k - 1) + 4];
    }
  }

  lemma {:induction false} LastGroup(b: Bytes, k: nat)
    requires 3 * k <= |b| < 3 * k + 3
    ensures |Encode(b)| >= 4 * k && Encode(b)[4 * k..] == Encode(b[3 * k..])
    ensures |b| == 3 * k + 1 ==> Encode(b[3 * k..]) == One(b[3 * k], 0)
    ensures |b| == 3 * k + 2 ==> Encode(b[3 * k..]) == Two(b[3 * k], b[3 * k + 1], 0)
  {
    if k > 0 {
      var (quad, rest, tail) := (Quad(b[0], b[1], b[2]), b[3..], Encode(b[3..]));
      LastGroup(rest, k - 1);
      assert rest[3 * (k - 1)..] == b[3 * k..];
      SuffixAfter(quad, tail, 4 * (k - 1));
    } else {
      assert b[0..] == b;
    }
  }

  lemma SuffixAfter(quad: string, tail: string, m: nat)
    requires |quad| == 4 && m <= |tail|
    ensures (quad + tail)[m + 4..] == tail[m..]
  {}

  lemma AfterAQuad(quad: string, tail: string)
    requires |quad| == 4
    ensures (quad + tail)[..4] == quad
    ensures forall m, n :: 0 <= m <= n <= |tail| ==> (quad + tail)[m + 4..n + 4] == tail[m..n]
  {}

  function Quad(x: Byte, y: Byte, z: Byte): string {
    [Digit(x / 4), Digit(x % 4 * 16 + y / 16), Digit(y % 16 * 4 + z / 64), Digit(z % 64)]
  }

  /** The last one or two octets; `spare` fills the unused low bits of the last digit. */
  function One(x: Byte, spare: int): string
    requires 0 <= spare < 16
  {
    [Digit(x / 4), Digit(x % 4 * 16 + spare)]
  }

  function Two(x: Byte, y: Byte, spare: int): string
    requires 0 <= spare < 4
  {
    [Digit(x / 4), Digit(x % 4 * 16 + y / 16), Digit(y % 16 * 4 + spare)]
  }

  predicate AllDigits(s: string) {
    forall i :: 0 <= i < |s| ==> IsDigit(s[i])
  }

  function Triple(s: string): Bytes
    requires |s| == 4 && AllDigits(s)
  {
    var (w, x, y, z) := (Worth(s[0]), Worth(s[1]), Worth(s[2]), Worth(s[3]));
    [w * 4 + x / 16, x % 16 * 16 + y / 4, y % 4 * 64 + z]
  }

  /** Decoding of a text without line breaks. */
  function DecodeDigits(s: string): Option<Bytes> {
    if !AllDigits(s[..if |s| < 4 then |s| else 4]) then None
    else if |s| == 0 then Some([])
    else if |s| == 1 then None
    else if |s| == 2 then Some([Worth(s[0]) * 4 + Worth(s[1]) / 16])
    else if |s| == 3 then
      Some([Worth(s[0]) * 4 + Worth(s[1]) / 16, Worth(s[1]) % 16 * 16 + Worth(s[2]) / 4])
    else match DecodeDigits(s[4..])
      case None => None
      case Some(rest) => Some(Triple(s[..4]) + rest)
  }

  predicate IsLineBreak(c: char) {
    c == '\r' || c == '\n'
  }

  predicate NoLineBreaks(s: string) {
    forall i :: 0 <= i < |s| ==> !IsLineBreak(s[i])
  }

  function StripLineBreaks(s: string): string {
    if s == "" then "" else (if IsLineBreak(s[0]) then "" else [s[0]]) + StripLineBreaks(s[1..])
  }

  function Decode(s: string): Option<Bytes> {
    DecodeDigits(StripLineBreaks(s))
  }

  lemma {:induction false} SpelledDigits(b: Bytes, spare: nat)
    requires spare < Spares(|b|)
    ensures AllDigits(Spelled(b, spare)) && NoLineBreaks(Spelled(b, spare))
    ensures '.' !in Spelled(b, spare)
  {
    if |b| >= 3 {
      SpelledDigits(b[3..], spare);
    }
  }

  lemma EncodeDigits(b: Bytes)
    ensures AllDigits(Encode(b)) && NoLineBreaks(Encode(b))
    ensures '.' !in Encode(b)
  {
    SpelledDigits(b, 0);
  }

  lemma {:induction false} StripNothing(s: string)
    requires NoLineBreaks(s)
    ensures StripLineBreaks(s) == s
  {
    if s != "" {
      StripNothing(s[1..]);
    }
  }

  lemma {:induction false} StripDistributes(s: string, tail: string)
    ensures StripLineBreaks(s + tail) == StripLineBreaks(s) + StripLineBreaks(tail)
  {
    if s == "" {
      assert s + tail == tail;
    } else {
      assert (s + tail)[1..] == s[1..] + tail;
      StripDistributes(s[1..], tail);
    }
  }

  /** A line break anywhere in a text changes nothing for the decoder. */
  lemma LineBreaksAreSkipped(head: string, c: char, tail: string)
    requires IsLineBreak(c)
    ensures Decode(head + [c] + tail) == Decode(head + tail)
  {
    StripDistributes(head + [c], tail);
    StripDistributes(head, [c]);
    StripDistributes(head, tail);
    assert StripLineBreaks([c]) == "" && StripLineBreaks(head) + "" == StripLineBreaks(head);
  }

  lemma Join16(q: int, r: int)
    requires 0 <= r < 16
    ensures (q * 16 + r) / 16 == q && (q * 16 + r) % 16 == r
  {}

  lemma Join4(q: int, r: int)
    requires 0 <= r < 4
    ensures (q * 4 + r) / 4 == q && (q * 4 + r) % 4 == r
  {}

  lemma TripleOfQuad(x: Byte, y: Byte, z: Byte)
    ensures AllDigits(Quad(x, y, z)) && Triple(Quad(x, y, z)) == [x, y, z]
  {
    Join16(x % 4, y / 16);
    Join4(y % 16, z / 64);
    TripleOfWorths(Quad(x, y, z), x / 4, x % 4 * 16 + y / 16, y % 16 * 4 + z / 64, z % 64);
  }

  lemma TripleOfWorths(s: string, w: int, x: int, y: int, z: int)
    requires |s| == 4 && AllDigits(s)
    requires Worth(s[0]) == w && Worth(s[1]) == x && Worth(s[2]) == y && Worth(s[3]) == z
    ensures Triple(s) == [w * 4 + x / 16, x % 16 * 16 + y / 4, y % 4 * 64 + z]
  {}

  lemma OneDecodes(b: Bytes, spare: int)
    requires |b| == 1 && 0 <= spare < 16
    ensures DecodeDigits(One(b[0], spare)) == Some(b)
  {
    var x := b[0];
    assert b == [x];
    var s := One(x, spare);
    assert s[..2] == s;
    assert Worth(s[0]) == x / 4 && Worth(s[1]) == x % 4 * 16 + spare;
  }

  lemma TwoDecodes(b: Bytes, spare: int)
    requires |b| == 2 && 0 <= spare < 4
    ensures DecodeDigits(Two(b[0], b[1], spare)) == Some(b)
  {
    var x, y := b[0], b[1];
    assert b == [x, y];
    var s := Two(x, y, spare);
    assert s[..3] == s;
    assert Worth(s[0]) == x / 4 && Worth(s[1]) == x % 4 * 16 + y / 16 && Worth(s[2]) == y % 16 * 4 + spare;
  }

  lemma QuadDecodes(b: Bytes, tail: string)
    requires |b| >= 3 && DecodeDigits(tail) == Some(b[3..])
    ensures DecodeDigits(Quad(b[0], b[1], b[2]) + tail) == Some(b)
  {
    var q := Quad(b[0], b[1], b[2]);
    TripleOfQuad(b[0], b[1], b[2]);
    assert (q + tail)[..4] == q && (q + tail)[4..] == tail;
    assert b == [b[0], b[1], b[2]] + b[3..];
  }

  lemma {:induction false} SpelledDecodes(b: Bytes, spare: nat)
    requires spare < Spares(|b|)
    ensures DecodeDigits(Spelled(b, spare)) == Some(b)
  {
    if |b| == 1 {
      OneDecodes(b, spare);
    } else if |b| == 2 {
      TwoDecodes(b, spare);
    } else if |b| >= 3 {
      SpelledDecodes(b[3..], spare);
      QuadDecodes(b, Spelled(b[3..], spare));
    }
  }

  /** The round trip every signed text relies on. */
  lemma DecodeEncode(b: Bytes)
    ensures Decode(Encode(b)) == Some(b)
  {
    EncodeDigits(b);
    StripNothing(Encode(b));
    SpelledDecodes(b, 0);
  }

  lemma QuadOfTriple(s: string)
    requires |s| == 4 && AllDigits(s)
    ensures var t := Triple(s); Quad(t[0], t[1], t[2]) == s
  {
    var (w, x, y, z) := (Worth(s[0]), Worth(s[1]), Worth(s[2]), Worth(s[3]));
    var t := Triple(s);
    assert t[0] / 4 == w && t[0] % 4 * 16 + t[1] / 16 == x;
    assert t[1] % 16 * 4 + t[2] / 64 == y && t[2] % 64 == z;
    WorthDigit(s[0]);
    WorthDigit(s[1]);
    WorthDigit(s[2]);
    WorthDigit(s[3]);
  }

  lemma OneOfDigits(s: string)
    requires |s| == 2 && AllDigits(s)
    ensures One(Worth(s[0]) * 4 + Worth(s[1]) / 16, Worth(s[1]) % 16) == s
  {
    var x := Worth(s[1]);
    Join4(Worth(s[0]), x / 16);
    assert x / 16 * 16 + x % 16 == x;
    WorthDigit(s[0]);
    WorthDigit(s[1]);
  }

  lemma TwoOfWorths(w: int, x: int, y: int)
    requires 0 <= w < 64 && 0 <= x < 64 && 0 <= y < 64
    ensures var (a, b) := (w * 4 + x / 16, x % 16 * 16 + y / 4);
            && 0 <= a < 256 && 0 <= b < 256
            && a / 4 == w && a % 4 * 16 + b / 16 == x && b % 16 * 4 + y % 4 == y
  {
    Join4(w, x / 16);
    Join16(x % 16, y / 4);
  }

  lemma TwoOfDigits(s: string)
    requires |s| == 3 && AllDigits(s)
    ensures Two(Worth(s[0]) * 4 + Worth(s[1]) / 16, Worth(s[1]) % 16 * 16 + Worth(s[2]) / 4, Worth(s[2]) % 4) == s
  {
    var (w, x, y) := (Worth(s[0]), Worth(s[1]), Worth(s[2]));
    TwoOfWorths(w, x, y);
    WorthDigit(s[0]);
    WorthDigit(s[1]);
    WorthDigit(s[2]);
    assert s == [Digit(w), Digit(x), Digit(y)];
  }

  lemma OneSpelled(s: string, x: Byte, b: Bytes, spare: nat)
    requires b == [x] && spare < 16 && One(x, spare) == s
    ensures s == Spelled(b, spare)
  {}

  lemma TwoSpelled(s: string, x: Byte, y: Byte, b: Bytes, spare: nat)
    requires b == [x, y] && spare < 4 && Two(x, y, spare) == s
    ensures s == Spelled(b, spare)
  {}

  lemma TwoDigitsAreSpelled(s: string, b: Bytes)
    requires |s| == 2 && DecodeDigits(s) == Some(b)
    ensures |b| == 1 && s == Spelled(b, Worth(s[1]) % 16)
  {
    assert s[..2] == s;
    OneOfDigits(s);
    OneSpelled(s, Worth(s[0]) * 4 + Worth(s[1]) / 16, b, Worth(s[1]) % 16);
  }

  lemma ThreeDigitsAreSpelled(s: string, b: Bytes)
    requires |s| == 3 && DecodeDigits(s) == Some(b)
    ensures |b| == 2 && s == Spelled(b, Worth(s[2]) % 4)
  {
    assert s[..3] == s;
    TwoOfDigits(s);
    TwoSpelled(s, Worth(s[0]) * 4 + Worth(s[1]) / 16, Worth(s[1]) % 16 * 16 + Worth(s[2]) / 4, b, Worth(s[2]) % 4);
  }

  lemma SpelledTriple(t: Bytes, rest: Bytes, spare: nat)
    requires |t| == 3 && spare < Spares(|rest|)
    ensures spare < Spares(|t + rest|) && Spelled(t + rest, spare) == Quad(t[0], t[1], t[2]) + Spelled(rest, spare)
  {
    assert (t + rest)[3..] == rest;
  }

  /** Whatever decodes is the text of its octets up to the unused bits. */
  lemma {:induction false} DigitsAreSpelled(s: string, b: Bytes) returns (spare: nat)
    requires DecodeDigits(s) == Some(b)
    ensures spare < Spares(|b|) && s == Spelled(b, spare)
  {
    if |s| == 0 {
      spare := 0;
    } else if |s| == 2 {
      TwoDigitsAreSpelled(s, b);
      spare := Worth(s[1]) % 16;
    } else if |s| == 3 {
      ThreeDigitsAreSpelled(s, b);
      spare := Worth(s[2]) % 4;
    } else {
      var rest := DecodeDigits(s[4..]).value;
      var t := Triple(s[..4]);
      QuadOfTriple(s[..4]);
      spare := DigitsAreSpelled(s[4..], rest);
      SpelledTriple(t, rest, spare);
      assert s == s[..4] + s[4..];
    }
  }

  lemma {:induction false} SpellingsDiffer(b: Bytes, x: nat, y: nat)
    requires x < Spares(|b|) && y < Spares(|b|) && x != y
    ensures Spelled(b, x) != Spelled(b, y)
  {
    if |b| == 1 {
      assert Worth(One(b[0], x)[1]) != Worth(One(b[0], y)[1]);
    } else if |b| == 2 {
      assert Worth(Two(b[0], b[1], x)[2]) != Worth(Two(b[0], b[1], y)[2]);
    } else if |b| >= 3 {
      SpellingsDiffer(b[3..], x, y);
      assert Spelled(b, x)[4..] == Spelled(b[3..], x) && Spelled(b, y)[4..] == Spelled(b[3..], y);
    }
  }

  /** The texts the decoder takes for some octets: their spellings, with line breaks strewn in anywhere. */
  lemma AcceptedTexts(s: string, b: Bytes)
    ensures Decode(s) == Some(b) <==>
            exists spare: nat :: spare < Spares(|b|) && StripLineBreaks(s) == Spelled(b, spare)
  {
    if Decode(s) == Some(b) {
      var spare := DigitsAreSpelled(StripLineBreaks(s), b);
    }
    if spare: nat :| spare < Spares(|b|) && StripLineBreaks(s) == Spelled(b, spare) {
      SpelledDecodes(b, spare);
    }
  }

  lemma AnotherText(b: Bytes)
    requires |b| % 3 != 0
    ensures var s := Spelled(b, 1); NoLineBreaks(s) && '.' !in s && Decode(s) == Some(b) && s != Encode(b)
  {
    SpelledDigits(b, 1);
    StripNothing(Spelled(b, 1));
    SpelledDecodes(b, 1);
    SpellingsDiffer(b, 0, 1);
  }

  lemma OnlyText(s: string, b: Bytes)
    requires |b| % 3 == 0 && NoLineBreaks(s) && Decode(s) == Some(b)
    ensures s == Encode(b)
  {
    StripNothing(s);
    var spare := DigitsAreSpelled(s, b);
  }

  /** Among the texts without line breaks, octets have only the encoder's exactly when they fill whole triples. */
  lemma CanonicalTextIffWholeTriples(b: Bytes)
    ensures (forall s :: NoLineBreaks(s) && Decode(s) == Some(b) ==> s == Encode(b)) <==> |b| % 3 == 0
  {
    if |b| % 3 == 0 {
      forall s | NoLineBreaks(s) && Decode(s) == Some(b)
        ensures s == Encode(b)
      {
        OnlyText(s, b);
      }
    } else {
      AnotherText(b);
    }
  }
}
