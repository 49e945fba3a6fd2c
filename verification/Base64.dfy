/** Base 64 (section 4 of RFC 4648), with the decoder's tolerance for unused trailing bits. */
module Base64 {
  import opened Wrappers

  type Byte = b: int | 0 <= b < 256

  type Sextet = n: int | 0 <= n < 64

  function Letter(n: Sextet): char {
    if n < 26 then ('A' as int + n) as char
    else if n < 52 then ('a' as int + (n - 26)) as char
    else if n < 62 then ('0' as int + (n - 52)) as char
    else if n == 62 then '+'
    else '/'
  }

  function DigitOf(c: char): Option<Sextet> {
    if 'A' <= c <= 'Z' then Some(c as int - 'A' as int)
    else if 'a' <= c <= 'z' then Some(c as int - 'a' as int + 26)
    else if '0' <= c <= '9' then Some(c as int - '0' as int + 52)
    else if c == '+' then Some(62)
    else if c == '/' then Some(63)
    else None
  }

  lemma LetterRoundTrip(n: Sextet)
    ensures DigitOf(Letter(n)) == Some(n) && Letter(n) != '='
  {
  }

  /** The alphabet of table 1. */
  lemma LetterIsStandard(n: Sextet)
    ensures Letter(n) == ("ABCDEFGHIJKLMNOPQRSTUVWXYZ" + "abcdefghijklmnopqrstuvwxyz" + "0123456789" + "+/")[n]
  {
  }

  // ----- Encoding -----

  function Quad(a: Byte, b: Byte, c: Byte): string {
    [Letter(a / 4), Letter(a % 4 * 16 + b / 16), Letter(b % 16 * 4 + c / 64), Letter(c % 64)]
  }

  function Encode(bytes: seq<Byte>): string {
    if bytes == [] then ""
    else if |bytes| == 1 then [Letter(bytes[0] / 4), Letter(bytes[0] % 4 * 16), '=', '=']
    else if |bytes| == 2 then
      [Letter(bytes[0] / 4), Letter(bytes[0] % 4 * 16 + bytes[1] / 16), Letter(bytes[1] % 16 * 4), '=']
    else Quad(bytes[0], bytes[1], bytes[2]) + Encode(bytes[3..])
  }

  /** A full group is the 24-bit number of its three bytes, most significant first, in four digits to base 64. */
  lemma QuadIsNumber(a: Byte, b: Byte, c: Byte)
    ensures var digits := Quad(a, b, c);
            && |digits| == 4
            && (forall i :: 0 <= i < 4 ==> DigitOf(digits[i]).Some?)
            && DigitOf(digits[0]).value * 262144 + DigitOf(digits[1]).value * 4096 + DigitOf(digits[2]).value * 64
               + DigitOf(digits[3]).value == a * 65536 + b * 256 + c
  {
    LetterRoundTrip(a / 4);
    LetterRoundTrip(a % 4 * 16 + b / 16);
    LetterRoundTrip(b % 16 * 4 + c / 64);
    LetterRoundTrip(c % 64);
  }

  /** The last group is padded with zero bits, and the digits that hold nothing else are written as '='. */
  lemma TailIsPadded(a: Byte, b: Byte)
    ensures Encode([a]) == Quad(a, 0, 0)[..2] + "==" && Encode([a, b]) == Quad(a, b, 0)[..3] + "="
  {
  }

  // ----- Decoding -----

  function Triple(a: Sextet, b: Sextet, c: Sextet, d: Sextet): seq<Byte> {
    [a * 4 + b / 16, b % 16 * 16 + c / 4, c % 4 * 64 + d]
  }

  function DecodeLast(s: string): Option<seq<Byte>>
    requires |s| == 4
  {
    var a, b, c, d := DigitOf(s[0]), DigitOf(s[1]), DigitOf(s[2]), DigitOf(s[3]);
    if a.None? || b.None? then None
    else if c.Some? && d.Some? then Some(Triple(a.value, b.value, c.value, d.value))
    else if c.Some? && s[3] == '=' then Some([a.value * 4 + b.value / 16, b.value % 16 * 16 + c.value / 4])
    else if s[2] == '=' && s[3] == '=' then Some([a.value * 4 + b.value / 16])
    else None
  }

  function DecodeFull(s: string): Option<seq<Byte>>
    requires |s| == 4
  {
    var a, b, c, d := DigitOf(s[0]), DigitOf(s[1]), DigitOf(s[2]), DigitOf(s[3]);
    if a.Some? && b.Some? && c.Some? && d.Some? then Some(Triple(a.value, b.value, c.value, d.value)) else None
  }

  function Decode(s: string): Option<seq<Byte>> {
    if s == "" then Some([])
    else if |s| < 4 then None
    else if |s| == 4 then DecodeLast(s)
    else
      match DecodeFull(s[..4])
      case None => None
      case Some(head) =>
        match Decode(s[4..])
        case None => None
        case Some(tail) => Some(head + tail)
  }

  // ----- The round trip -----

  lemma QuadRoundTrip(a: Byte, b: Byte, c: Byte)
    ensures DecodeFull(Quad(a, b, c)) == Some([a, b, c]) && DecodeLast(Quad(a, b, c)) == Some([a, b, c])
  {
    LetterRoundTrip(a / 4);
    LetterRoundTrip(a % 4 * 16 + b / 16);
    LetterRoundTrip(b % 16 * 4 + c / 64);
    LetterRoundTrip(c % 64);
    Regroup(a, b, c);
  }

  lemma Regroup(a: Byte, b: Byte, c: Byte)
    ensures Triple(a / 4, a % 4 * 16 + b / 16, b % 16 * 4 + c / 64, c % 64) == [a, b, c]
  {
  }

  lemma RegroupTail(a: Byte, b: Byte)
    ensures a / 4 * 4 + a % 4 * 16 / 16 == a
    ensures a / 4 * 4 + (a % 4 * 16 + b / 16) / 16 == a
    ensures (a % 4 * 16 + b / 16) % 16 * 16 + b % 16 * 4 / 4 == b
  {
  }

  lemma OneRoundTrip(a: Byte)
    ensures Decode(Encode([a])) == Some([a])
  {
  }

  lemma TwoRoundTrip(a: Byte, b: Byte)
    ensures Decode(Encode([a, b])) == Some([a, b])
  {
    LetterRoundTrip(a / 4);
    LetterRoundTrip(a % 4 * 16 + b / 16);
    LetterRoundTrip(b % 16 * 4);
    RegroupTail(a, b);
    assert Encode([a, b]) == [Letter(a / 4), Letter(a % 4 * 16 + b / 16), Letter(b % 16 * 4), '='];
    assert DigitOf('=').None?;
  }

  lemma TailRoundTrip(bytes: seq<Byte>)
    requires 1 <= |bytes| <= 2
    ensures Decode(Encode(bytes)) == Some(bytes)
  {
    if |bytes| == 1 {
      assert bytes == [bytes[0]];
      OneRoundTrip(bytes[0]);
    } else {
      assert bytes == [bytes[0], bytes[1]];
      TwoRoundTrip(bytes[0], bytes[1]);
    }
  }

  /** Decoding a full group and then the rest. */
  lemma DecodeStep(head: string, tail: string, first: seq<Byte>, rest: seq<Byte>)
    requires |head| == 4 && DecodeFull(head) == Some(first) && DecodeLast(head) == Some(first)
    requires Decode(tail) == Some(rest) && (tail == "" ==> rest == [])
    ensures Decode(head + tail) == Some(first + rest)
  {
    var s := head + tail;
    assert s[..4] == head && s[4..] == tail;
    if tail == "" {
      assert s == head && first + rest == first;
    }
  }

  /** Decoding undoes encoding, for every byte string. */
  lemma {:induction false} RoundTrip(bytes: seq<Byte>)
    ensures Decode(Encode(bytes)) == Some(bytes)
    decreases |bytes|
  {
    if 1 <= |bytes| <= 2 {
      TailRoundTrip(bytes);
    } else if |bytes| >= 3 {
      QuadRoundTrip(bytes[0], bytes[1], bytes[2]);
      RoundTrip(bytes[3..]);
      EncodedLength(bytes[3..]);
      DecodeStep(Quad(bytes[0], bytes[1], bytes[2]), Encode(bytes[3..]), [bytes[0], bytes[1], bytes[2]], bytes[3..]);
      assert bytes == [bytes[0], bytes[1], bytes[2]] + bytes[3..];
    }
  }

  lemma {:induction false} EncodedLength(bytes: seq<Byte>)
    ensures |Encode(bytes)| == 4 * ((|bytes| + 2) / 3)
    decreases |bytes|
  {
    if |bytes| >= 3 {
      EncodedLength(bytes[3..]);
    }
  }

  predicate InAlphabet(c: char) {
    DigitOf(c).Some? || c == '='
  }

  lemma {:induction false} EncodedAlphabet(bytes: seq<Byte>, i: nat)
    requires i < |Encode(bytes)|
    ensures InAlphabet(Encode(bytes)[i])
    decreases |bytes|
  {
    if |bytes| >= 3 {
      if i >= 4 {
        EncodedAlphabet(bytes[3..], i - 4);
      } else {
        QuadRoundTrip(bytes[0], bytes[1], bytes[2]);
      }
    } else {
      TailRoundTrip(bytes);
    }
  }
}
