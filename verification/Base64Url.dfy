/**
 Unpadded base64url as the cursor, signed-URL and access-token code uses it: encode with padding and
 strip "=", then restore (-len mod 4) "=" and decode (sections 3.2 and 5 of RFC 4648).
 */
module Base64Url {
  import opened Wrappers

  newtype byte = b: int | 0 <= b < 256
  /** A JSON rendering to bytes and its parser, whose text is not modelled. */
  datatype Json<!P> = Json(render: P -> seq<byte>, parse: seq<byte> -> Option<P>)

  newtype sextet = d: int | 0 <= d < 64

  // ----- the alphabet -----

  function Digit(d: sextet): char {
    if d < 26 then ('A' as int + d as int) as char
    else if d < 52 then ('a' as int + d as int - 26) as char
    else if d < 62 then ('0' as int + d as int - 52) as char
    else if d == 62 then '-'
    else '_'
  }

  function Value(c: char): Option<sextet> {
    if 'A' <= c <= 'Z' then Some((c as int - 'A' as int) as sextet)
    else if 'a' <= c <= 'z' then Some((c as int - 'a' as int + 26) as sextet)
    else if '0' <= c <= '9' then Some((c as int - '0' as int + 52) as sextet)
    else if c == '-' then Some(62)
    else if c == '_' then Some(63)
    else None
  }

  /** The alphabet is decodable and contains neither the padding sign nor the token separator. */
  lemma DigitValue(d: sextet)
    ensures Value(Digit(d)) == Some(d)
    ensures Digit(d) != '=' && Digit(d) != '.'
  {
  }

  predicate Plain(text: string) {
    forall k | 0 <= k < |text| :: Value(text[k]).Some? && text[k] != '=' && text[k] != '.'
  }

  // ----- padded groups -----

  function EncodeGroup(a: byte, b: byte, c: byte): string {
    [Digit((a / 4) as sextet),
     Digit((a % 4 * 16 + b / 16) as sextet),
     Digit((b % 16 * 4 + c / 64) as sextet),
     Digit((c % 64) as sextet)]
  }

  /** `base64.urlsafe_b64encode`. */
  function EncodePadded(bytes: seq<byte>): (text: string)
    ensures |text| % 4 == 0
  {
    if |bytes| == 0 then ""
    else if |bytes| == 1 then EncodeGroup(bytes[0], 0, 0)[..2] + "=="
    else if |bytes| == 2 then EncodeGroup(bytes[0], bytes[1], 0)[..3] + "="
    else EncodeGroup(bytes[0], bytes[1], bytes[2]) + EncodePadded(bytes[3..])
  }

  function DecodeGroup(p: sextet, q: sextet, r: sextet, s: sextet): seq<byte> {
    [(p as int * 4 + q as int / 16) as byte,
     (q as int % 16 * 16 + r as int / 4) as byte,
     (r as int % 4 * 64 + s as int) as byte]
  }

  /** `base64.urlsafe_b64decode` on well-formed padded text; anything else is refused here. */
  function DecodePadded(text: string): Option<seq<byte>> {
    if |text| == 0 then Some([])
    else if |text| < 4 then None
    else
      var (p, q, r, s) := (Value(text[0]), Value(text[1]), Value(text[2]), Value(text[3]));
      if p.None? || q.None? then None
      else if |text| == 4 && text[2..] == "==" then Some(DecodeGroup(p.value, q.value, 0, 0)[..1])
      else if r.None? then None
      else if |text| == 4 && text[3] == '=' then Some(DecodeGroup(p.value, q.value, r.value, 0)[..2])
      else if s.None? then None
      else
        match DecodePadded(text[4..])
        case None => None
        case Some(rest) => Some(DecodeGroup(p.value, q.value, r.value, s.value) + rest)
  }

  // ----- stripping and restoring the padding -----

  /** `rstrip("=")`. */
  function RStrip(text: string): (r: string)
    ensures |r| <= |text| && r == text[..|r|]
    ensures r == "" || r[|r| - 1] != '='
    ensures forall k | |r| <= k < |text| :: text[k] == '='
  {
    if text != "" && text[|text| - 1] == '=' then RStrip(text[..|text| - 1]) else text
  }

  /** `text + "=" * (-len(text) % 4)`. */
  function Pad(text: string): string {
    text + if |text| % 4 == 0 then "" else if |text| % 4 == 1 then "===" else if |text| % 4 == 2 then "==" else "="
  }

  function Encode(bytes: seq<byte>): string {
    RStrip(EncodePadded(bytes))
  }

  function Decode(text: string): Option<seq<byte>> {
    DecodePadded(Pad(text))
  }

  // ----- round trips -----

  lemma GroupRoundTrip(a: byte, b: byte, c: byte)
    ensures DecodeGroup((a / 4) as sextet, (a % 4 * 16 + b / 16) as sextet,
                        (b % 16 * 4 + c / 64) as sextet, (c % 64) as sextet) == [a, b, c]
  {
  }

  lemma GroupValues(a: byte, b: byte, c: byte)
    ensures var t := EncodeGroup(a, b, c);
            && Plain(t)
            && DecodeGroup(Value(t[0]).value, Value(t[1]).value, Value(t[2]).value, Value(t[3]).value) == [a, b, c]
  {
    DigitValue((a / 4) as sextet);
    DigitValue((a % 4 * 16 + b / 16) as sextet);
    DigitValue((b % 16 * 4 + c / 64) as sextet);
    DigitValue((c % 64) as sextet);
    GroupRoundTrip(a, b, c);
  }

  lemma OneByteGroup(a: byte)
    ensures DecodePadded(EncodeGroup(a, 0, 0)[..2] + "==") == Some([a])
  {
    GroupValues(a, 0, 0);
    var t := EncodeGroup(a, 0, 0);
    var text := t[..2] + "==";
    assert text[2..] == "==";
    var p, q, r, s := Value(t[0]).value, Value(t[1]).value, Value(t[2]).value, Value(t[3]).value;
    assert DecodeGroup(p, q, 0, 0)[..1] == DecodeGroup(p, q, r, s)[..1] == [a];
  }

  lemma TwoByteGroup(a: byte, b: byte)
    ensures DecodePadded(EncodeGroup(a, b, 0)[..3] + "=") == Some([a, b])
  {
    GroupValues(a, b, 0);
    var t := EncodeGroup(a, b, 0);
    var text := t[..3] + "=";
    assert text[2..][0] != '=' && text[3] == '=';
    var p, q, r, s := Value(t[0]).value, Value(t[1]).value, Value(t[2]).value, Value(t[3]).value;
    assert DecodeGroup(p, q, r, 0)[..2] == DecodeGroup(p, q, r, s)[..2] == [a, b];
  }

  lemma DecodeAfterGroup(a: byte, b: byte, c: byte, rest: string)
    requires DecodePadded(rest).Some?
    ensures DecodePadded(EncodeGroup(a, b, c) + rest) == Some([a, b, c] + DecodePadded(rest).value)
  {
    GroupValues(a, b, c);
    assert (EncodeGroup(a, b, c) + rest)[4..] == rest;
  }

  /** The alphabet, in the order of its values (table 2 of RFC 4648). */
  lemma AlphabetInOrder(d: sextet)
    ensures Digit(0) == 'A' && Digit(25) == 'Z' && Digit(26) == 'a' && Digit(51) == 'z'
    ensures Digit(52) == '0' && Digit(61) == '9' && Digit(62) == '-' && Digit(63) == '_'
    ensures d < 61 && d != 25 && d != 51 ==> Digit(d + 1) as int == Digit(d) as int + 1
  {
  }

  /** Four digits spell the number that their three bytes spell. */
  lemma GroupSpells(a: byte, b: byte, c: byte)
    ensures var t := EncodeGroup(a, b, c);
            && (forall k | 0 <= k < 4 :: Value(t[k]).Some?)
            && var (p, q, r, s) := (Value(t[0]).value, Value(t[1]).value, Value(t[2]).value, Value(t[3]).value);
            ((p as int * 64 + q as int) * 64 + r as int) * 64 + s as int == (a as int * 256 + b as int) * 256 + c as int
  {
    GroupValues(a, b, c);
    DigitValue((a / 4) as sextet);
    DigitValue((a % 4 * 16 + b / 16) as sextet);
    DigitValue((b % 16 * 4 + c / 64) as sextet);
    DigitValue((c % 64) as sextet);
  }

  lemma {:induction false} PaddedRoundTrip(bytes: seq<byte>)
    ensures DecodePadded(EncodePadded(bytes)) == Some(bytes)
  {
    if |bytes| == 1 {
      OneByteGroup(bytes[0]);
      assert bytes == [bytes[0]];
    } else if |bytes| == 2 {
      TwoByteGroup(bytes[0], bytes[1]);
      assert bytes == [bytes[0], bytes[1]];
    } else if |bytes| > 2 {
      PaddedRoundTrip(bytes[3..]);
      DecodeAfterGroup(bytes[0], bytes[1], bytes[2], EncodePadded(bytes[3..]));
      assert bytes == [bytes[0], bytes[1], bytes[2]] + bytes[3..];
    }
  }

  /** Length of the unpadded encoding: 4 characters per 3 bytes, 2 or 3 for the rest. */
  function UnpaddedLength(n: nat): nat {
    n / 3 * 4 + if n % 3 == 0 then 0 else n % 3 + 1
  }

  /** The padded encoding is alphabet characters followed by the padding, and nothing else. */
  lemma {:induction false} EncodedShape(bytes: seq<byte>)
    ensures UnpaddedLength(|bytes|) <= |EncodePadded(bytes)|
    ensures Plain(EncodePadded(bytes)[..UnpaddedLength(|bytes|)])
    ensures EncodePadded(bytes) == Pad(EncodePadded(bytes)[..UnpaddedLength(|bytes|)])
  {
    if |bytes| == 1 {
      GroupValues(bytes[0], 0, 0);
    } else if |bytes| == 2 {
      GroupValues(bytes[0], bytes[1], 0);
    } else if |bytes| > 2 {
      GroupValues(bytes[0], bytes[1], bytes[2]);
      EncodedShape(bytes[3..]);
      LongerLength(|bytes|);
      var group, rest := EncodeGroup(bytes[0], bytes[1], bytes[2]), EncodePadded(bytes[3..]);
      PadAfterGroup(group, rest[..UnpaddedLength(|bytes| - 3)]);
      assert EncodePadded(bytes)[..UnpaddedLength(|bytes|)] == group + rest[..UnpaddedLength(|bytes| - 3)];
    }
  }

  lemma LongerLength(n: nat)
    requires n >= 3
    ensures UnpaddedLength(n) == UnpaddedLength(n - 3) + 4
  {
  }

  lemma PadAfterGroup(group: string, rest: string)
    requires |group| == 4
    ensures Pad(group + rest) == group + Pad(rest)
  {
    assert |group + rest| % 4 == |rest| % 4;
  }

  lemma RStripPad(text: string)
    requires text == "" || text[|text| - 1] != '='
    ensures RStrip(Pad(text)) == text
  {
    var padded := Pad(text);
    assert text != "" ==> padded[|text| - 1] != '=';
    assert padded[..|RStrip(padded)|] == RStrip(padded);
    assert |RStrip(padded)| == |text|;
  }

  /** Stripping and then restoring the padding recovers exactly the padded form. */
  lemma StripThenPad(bytes: seq<byte>)
    ensures Pad(Encode(bytes)) == EncodePadded(bytes)
    ensures |Encode(bytes)| == UnpaddedLength(|bytes|)
    ensures Plain(Encode(bytes))
  {
    EncodedShape(bytes);
    RStripPad(EncodePadded(bytes)[..UnpaddedLength(|bytes|)]);
  }

  /** Decoding undoes encoding, for every byte string. */
  lemma RoundTrip(bytes: seq<byte>)
    ensures Decode(Encode(bytes)) == Some(bytes)
  {
    StripThenPad(bytes);
    PaddedRoundTrip(bytes);
  }

  /** Different byte strings have different encodings. */
  lemma EncodeInjective(a: seq<byte>, b: seq<byte>)
    requires Encode(a) == Encode(b)
    ensures a == b
  {
    RoundTrip(a);
    RoundTrip(b);
  }
}
