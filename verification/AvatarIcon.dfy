/**
 Normalising an uploaded avatar (`normalize_blueprint_avatar_data_uri`): a data URI holding an ICO
 file comes out in one canonical spelling.
 */
module AvatarIcon {
  import opened Wrappers
  import opened KeyValueFile
  import opened Base64

  const MAX_BYTES := 131072
  const CANONICAL := "data:image/x-icon;base64,"

  /** The spellings that are accepted in front of the payload, in any case. */
  const PREFIXES := [
    CANONICAL, "data:image/vnd.microsoft.icon;base64,", "image/x-icon;base64,", "image/vnd.microsoft.icon;base64,", "x-icon;base64,"]

  datatype Problem = BadForm | BadBase64 | Empty | TooLarge | NotIco | BadCount | Truncated | BadEntry

  datatype Result = Ok(uri: string) | Err(problem: Problem)

  // ----- The data URI -----

  function LowerCase(c: char): char {
    if 'A' <= c <= 'Z' then (c as int + 32) as char else c
  }

  predicate StartsWithAnyCase(text: string, prefix: string) {
    |prefix| <= |text| && forall i :: 0 <= i < |prefix| ==> LowerCase(text[i]) == prefix[i]
  }

  predicate IsPayload(s: string) {
    s != "" && forall i :: 0 <= i < |s| ==> InAlphabet(s[i])
  }

  function PayloadAfter(text: string, prefixes: seq<string>): Option<string> {
    if prefixes == [] then None
    else if StartsWithAnyCase(text, prefixes[0]) && IsPayload(text[|prefixes[0]|..]) then Some(text[|prefixes[0]|..])
    else PayloadAfter(text, prefixes[1..])
  }

  // ----- The ICO file -----

  function LittleEndian(bytes: seq<Byte>): nat {
    if bytes == [] then 0 else bytes[0] + 256 * LittleEndian(bytes[1..])
  }

  function ImageCount(raw: seq<Byte>): nat
    requires |raw| >= 6
  {
    LittleEndian(raw[4..6])
  }

  function DirectoryEnd(raw: seq<Byte>): nat
    requires |raw| >= 6
  {
    6 + ImageCount(raw) * 16
  }

  function EntrySize(raw: seq<Byte>, k: nat): nat
    requires |raw| >= 6 + (k + 1) * 16
  {
    LittleEndian(raw[6 + k * 16 + 8..6 + k * 16 + 12])
  }

  function EntryOffset(raw: seq<Byte>, k: nat): nat
    requires |raw| >= 6 + (k + 1) * 16
  {
    LittleEndian(raw[6 + k * 16 + 12..6 + k * 16 + 16])
  }

  /** The image lies after the directory and inside the file. */
  predicate EntryFits(raw: seq<Byte>, k: nat)
    requires |raw| >= 6 && |raw| >= DirectoryEnd(raw) && k < ImageCount(raw)
  {
    && EntrySize(raw, k) >= 1
    && DirectoryEnd(raw) <= EntryOffset(raw, k)
    && EntryOffset(raw, k) + EntrySize(raw, k) <= |raw|
  }

  /** What is wrong with the bytes before the entries are looked at. */
  function HeaderProblem(raw: seq<Byte>): Option<Problem> {
    if raw == [] then Some(Empty)
    else if |raw| > MAX_BYTES then Some(TooLarge)
    else if |raw| < 6 || raw[..4] != [0, 0, 1, 0] then Some(NotIco)
    else if ImageCount(raw) < 1 || ImageCount(raw) > 256 then Some(BadCount)
    else if |raw| < DirectoryEnd(raw) then Some(Truncated)
    else None
  }

  predicate WellFormed(raw: seq<Byte>) {
    HeaderProblem(raw).None? && forall k :: 0 <= k < ImageCount(raw) ==> EntryFits(raw, k)
  }

  function Word(raw: seq<Byte>, i: nat): nat
    requires i + 2 <= |raw|
  {
    raw[i] as int + 256 * (raw[i + 1] as int)
  }

  function DoubleWord(raw: seq<Byte>, i: nat): nat
    requires i + 4 <= |raw|
  {
    raw[i] as int + 256 * (raw[i + 1] as int) + 65536 * (raw[i + 2] as int) + 16777216 * (raw[i + 3] as int)
  }

  lemma LittleEndianWord(raw: seq<Byte>, i: nat)
    requires i + 2 <= |raw|
    ensures LittleEndian(raw[i..i + 2]) == Word(raw, i)
  {
    assert raw[i..i + 2] == [raw[i], raw[i + 1]];
    LittleEndianPair(raw[i], raw[i + 1]);
  }

  lemma LittleEndianPair(a: Byte, b: Byte)
    ensures LittleEndian([a, b]) == a as int + 256 * (b as int)
  {
    assert [a, b][1..] == [b] && [b][1..] == [];
    assert LittleEndian([b]) == b;
  }

  lemma LittleEndianDouble(raw: seq<Byte>, i: nat)
    requires i + 4 <= |raw|
    ensures LittleEndian(raw[i..i + 4]) == DoubleWord(raw, i)
  {
    var bytes := raw[i..i + 4];
    assert bytes[1..][1..] == [raw[i + 2], raw[i + 3]];
    LittleEndianPair(raw[i + 2], raw[i + 3]);
  }

  /** The image at directory entry `k`: its size at byte 8 and its offset at byte 12 of the sixteen. */
  predicate ImageInside(raw: seq<Byte>, k: nat)
    requires |raw| >= 6 + 16 * (k + 1)
  {
    var size, offset := DoubleWord(raw, 6 + 16 * k + 8), DoubleWord(raw, 6 + 16 * k + 12);
    1 <= size && 6 + 16 * Word(raw, 4) <= offset && offset + size <= |raw|
  }

  /** The accepted files by their layout: the ICO signature, 1 to 256 images, and every image between directory and end. */
  lemma IcoLayout(raw: seq<Byte>)
    ensures WellFormed(raw) <==>
              && 6 <= |raw| <= 131072
              && raw[0] == 0 && raw[1] == 0 && raw[2] == 1 && raw[3] == 0
              && 1 <= Word(raw, 4) <= 256
              && 6 + 16 * Word(raw, 4) <= |raw|
              && forall k :: 0 <= k < Word(raw, 4) ==> ImageInside(raw, k)
  {
    if |raw| >= 6 {
      assert raw[..4] == [raw[0], raw[1], raw[2], raw[3]];
      LittleEndianWord(raw, 4);
      if 6 + 16 * Word(raw, 4) <= |raw| {
        forall k: nat | k < Word(raw, 4) ensures EntryFits(raw, k) <==> ImageInside(raw, k) {
          LittleEndianDouble(raw, 6 + 16 * k + 8);
          LittleEndianDouble(raw, 6 + 16 * k + 12);
        }
      }
    }
  }

  method CheckIco(raw: seq<Byte>) returns (problem: Option<Problem>)
    ensures problem == if HeaderProblem(raw).Some? then HeaderProblem(raw) else if WellFormed(raw) then None else Some(BadEntry)
  {
    problem := HeaderProblem(raw);
    if problem.Some? {
      return;
    }
    for k := 0 to ImageCount(raw)
      invariant forall j :: 0 <= j < k ==> EntryFits(raw, j)
    {
      var size, offset := EntrySize(raw, k), EntryOffset(raw, k);
      if size < 1 || offset < DirectoryEnd(raw) || offset + size > |raw| {
        assert !EntryFits(raw, k);
        return Some(BadEntry);
      }
    }
  }

  // ----- Normalising -----

  function Normalised(value: string): Result {
    var payload := PayloadAfter(Strip(value), PREFIXES);
    if payload.None? then Err(BadForm)
    else
      var raw := Decode(payload.value);
      if raw.None? then Err(BadBase64)
      else if HeaderProblem(raw.value).Some? then Err(HeaderProblem(raw.value).value)
      else if !WellFormed(raw.value) then Err(BadEntry)
      else Ok(CANONICAL + Encode(raw.value))
  }

  method Normalise(value: string) returns (r: Result)
    ensures r == Normalised(value)
  {
    var payload := PayloadAfter(Strip(value), PREFIXES);
    if payload.None? {
      return Err(BadForm);
    }
    var raw := Decode(payload.value);
    if raw.None? {
      return Err(BadBase64);
    }
    var problem := CheckIco(raw.value);
    if problem.Some? {
      return Err(problem.value);
    }
    return Ok(CANONICAL + Encode(raw.value));
  }

  // ----- What normalising guarantees -----

  /** The bytes behind an accepted value. */
  function Image(value: string): seq<Byte>
    requires Normalised(value).Ok?
  {
    Decode(PayloadAfter(Strip(value), PREFIXES).value).value
  }

  lemma CanonicalIsLower()
    ensures |CANONICAL| == 25
    ensures forall i :: 0 <= i < 25 ==> LowerCase(CANONICAL[i]) == CANONICAL[i]
    ensures !IsSpace(CANONICAL[0])
  {
  }

  lemma AlphabetIsVisible(c: char)
    requires InAlphabet(c)
    ensures !IsSpace(c)
  {
  }

  /** Reading back what was written in the canonical spelling. */
  lemma CanonicalReadsBack(raw: seq<Byte>)
    requires raw != []
    ensures PayloadAfter(Strip(CANONICAL + Encode(raw)), PREFIXES) == Some(Encode(raw))
  {
    var encoded := Encode(raw);
    var text := CANONICAL + encoded;
    EncodedLength(raw);
    CanonicalIsLower();
    forall i | 0 <= i < |encoded| ensures InAlphabet(encoded[i]) {
      EncodedAlphabet(raw, i);
    }
    AlphabetIsVisible(encoded[|encoded| - 1]);
    assert Strip(text) == text;
    assert text[25..] == encoded;
    assert PREFIXES[0] == CANONICAL;
  }

  /** `text` spells `prefix` in capitals, small letters or both. */
  predicate Spells(text: string, prefix: string) {
    |text| == |prefix| && forall i :: 0 <= i < |prefix| ==>
      text[i] == prefix[i] || ('a' <= prefix[i] <= 'z' && text[i] as int == prefix[i] as int - 32)
  }

  lemma SpellingStarts(text: string, prefix: string, rest: string)
    requires Spells(text, prefix) && forall i :: 0 <= i < |prefix| ==> LowerCase(prefix[i]) == prefix[i]
    ensures StartsWithAnyCase(text + rest, prefix)
  {
    forall i | 0 <= i < |prefix| ensures LowerCase((text + rest)[i]) == prefix[i] {
      assert (text + rest)[i] == text[i];
    }
  }

  lemma PrefixIsLower(k: nat)
    requires k < 5
    ensures |PREFIXES| == 5 && 14 <= |PREFIXES[k]|
    ensures forall i :: 0 <= i < |PREFIXES[k]| ==> LowerCase(PREFIXES[k][i]) == PREFIXES[k][i]
    ensures !IsSpace(PREFIXES[k][0])
  {
  }

  /** Where two of the prefixes differ. */
  function Fork(j: nat, k: nat): nat {
    if j == 0 && k == 1 then 11 else if j == 2 && k == 3 then 6 else 0
  }

  lemma PrefixesFork(j: nat, k: nat)
    requires j < k < 5
    ensures Fork(j, k) < |PREFIXES[j]| && Fork(j, k) < |PREFIXES[k]| && PREFIXES[j][Fork(j, k)] != PREFIXES[k][Fork(j, k)]
  {
    assert PREFIXES[0][0] == 'd' && PREFIXES[1][0] == 'd' && PREFIXES[2][0] == 'i' && PREFIXES[3][0] == 'i' && PREFIXES[4][0] == 'x';
    assert PREFIXES[0][11] == 'x' && PREFIXES[1][11] == 'v' && PREFIXES[2][6] == 'x' && PREFIXES[3][6] == 'v';
  }

  lemma {:induction false} PayloadAfterOnly(text: string, prefixes: seq<string>, k: nat)
    requires k < |prefixes| && StartsWithAnyCase(text, prefixes[k]) && IsPayload(text[|prefixes[k]|..])
    requires forall j :: 0 <= j < k ==> !StartsWithAnyCase(text, prefixes[j])
    ensures PayloadAfter(text, prefixes) == Some(text[|prefixes[k]|..])
  {
    if k > 0 {
      PayloadAfterOnly(text, prefixes[1..], k - 1);
    }
  }

  /** The five prefixes, in any case, lead to one canonical spelling of the image that follows. */
  lemma EverySpellingIsUnderstood(k: nat, spelling: string, raw: seq<Byte>)
    requires k < 5 && WellFormed(raw)
    requires Spells(spelling, ["data:image/x-icon;base64,", "data:image/vnd.microsoft.icon;base64,", "image/x-icon;base64,",
                               "image/vnd.microsoft.icon;base64,", "x-icon;base64,"][k])
    ensures Normalised(spelling + Encode(raw)) == Ok("data:image/x-icon;base64," + Encode(raw))
  {
    var encoded := Encode(raw);
    var text := spelling + encoded;
    PrefixIsLower(k);
    SpellingStarts(spelling, PREFIXES[k], encoded);
    EncodedIsPayload(raw);
    VisibleEnds(spelling, encoded, PREFIXES[k]);
    forall j: nat | j < k ensures !StartsWithAnyCase(text, PREFIXES[j]) {
      PrefixesFork(j, k);
    }
    assert text[|PREFIXES[k]|..] == encoded;
    PayloadAfterOnly(text, PREFIXES, k);
    RoundTrip(raw);
  }

  lemma EncodedIsPayload(raw: seq<Byte>)
    requires raw != []
    ensures IsPayload(Encode(raw))
  {
    EncodedLength(raw);
    forall i | 0 <= i < |Encode(raw)| ensures InAlphabet(Encode(raw)[i]) {
      EncodedAlphabet(raw, i);
    }
  }

  lemma VisibleEnds(spelling: string, encoded: string, prefix: string)
    requires Spells(spelling, prefix) && prefix != "" && !IsSpace(prefix[0]) && IsPayload(encoded)
    ensures Strip(spelling + encoded) == spelling + encoded
  {
    AlphabetIsVisible(encoded[|encoded| - 1]);
    assert !IsSpace(spelling[0]);
  }

  lemma {:induction false} PayloadHasPrefix(text: string, prefixes: seq<string>) returns (k: nat)
    requires PayloadAfter(text, prefixes).Some?
    ensures k < |prefixes| && StartsWithAnyCase(text, prefixes[k]) && PayloadAfter(text, prefixes) == Some(text[|prefixes[k]|..])
  {
    if StartsWithAnyCase(text, prefixes[0]) && IsPayload(text[|prefixes[0]|..]) {
      k := 0;
    } else {
      var i := PayloadHasPrefix(text, prefixes[1..]);
      k := i + 1;
    }
  }

  /** Nothing else is understood: an accepted value is one of the five prefixes and the base 64 text of an ICO file. */
  lemma AcceptedIsSpelling(value: string) returns (k: nat)
    requires Normalised(value).Ok?
    ensures k < 5
    ensures var prefix := ["data:image/x-icon;base64,", "data:image/vnd.microsoft.icon;base64,", "image/x-icon;base64,",
                           "image/vnd.microsoft.icon;base64,", "x-icon;base64,"][k];
            && |prefix| <= |Strip(value)|
            && (forall i :: 0 <= i < |prefix| ==> LowerCase(Strip(value)[i]) == prefix[i])
            && Decode(Strip(value)[|prefix|..]) == Some(Image(value))
    ensures WellFormed(Image(value))
  {
    k := PayloadHasPrefix(Strip(value), PREFIXES);
  }

  /** Normalising keeps the image and settles the spelling: a second pass changes nothing. */
  lemma NormalisingIsIdempotent(value: string)
    requires Normalised(value).Ok?
    ensures Normalised(Normalised(value).uri) == Normalised(value)
    ensures Image(Normalised(value).uri) == Image(value)
  {
    CanonicalReadsBack(Image(value));
    RoundTrip(Image(value));
  }

  /** Two spellings of one image come out the same; different images come out different. */
  lemma NormalFormIsUnique(v: string, w: string)
    requires Normalised(v).Ok? && Normalised(w).Ok?
    ensures Normalised(v) == Normalised(w) <==> Image(v) == Image(w)
  {
    RoundTrip(Image(v));
    RoundTrip(Image(w));
    var a, b := CANONICAL + Encode(Image(v)), CANONICAL + Encode(Image(w));
    assert a[|CANONICAL|..] == Encode(Image(v)) && b[|CANONICAL|..] == Encode(Image(w));
  }

  /** A directory entry and one byte of image at least. */
  lemma SmallestIco(raw: seq<Byte>)
    requires WellFormed(raw)
    ensures 23 <= |raw| <= MAX_BYTES
  {
    assert EntryFits(raw, 0);
  }

  lemma EncodedBounds(raw: seq<Byte>)
    requires 23 <= |raw| <= MAX_BYTES
    ensures 32 <= |Encode(raw)| <= 174764
  {
    EncodedLength(raw);
  }

  /** A normalised value can be sent in again: it fits the bounds of the input field. */
  lemma NormalisedFitsInput(value: string)
    requires Normalised(value).Ok?
    ensures 57 <= |Normalised(value).uri| <= 174789
    ensures 32 <= |Normalised(value).uri| <= 180000
  {
    SmallestIco(Image(value));
    EncodedBounds(Image(value));
    CanonicalIsLower();
  }
}
