/** Base64 (RFC 4648, section 4) and the lenient decoder of Python's `base64.b64decode`. */
module Base64 {
  import opened Wrappers

  type Byte = b: int | 0 <= b < 256

  type Sextet = s: int | 0 <= s < 64

  const PAD := '='

  /** Table 1 of RFC 4648, section 4. */
  function Digit(s: Sextet): char {
    if s < 26 then 'A' + s as char
    else if s < 52 then 'a' + (s - 26) as char
    else if s < 62 then '0' + (s - 52) as char
    else if s == 62 then '+'
    else '/'
  }

  predicate IsDigit(c: char) {
    'A' <= c <= 'Z' || 'a' <= c <= 'z' || '0' <= c <= '9' || c == '+' || c == '/'
  }

  function SextetOf(c: char): Sextet
    requires IsDigit(c)
  {
    if 'A' <= c <= 'Z' then (c - 'A') as int
    else if 'a' <= c <= 'z' then (c - 'a') as int + 26
    else if '0' <= c <= '9' then (c - '0') as int + 52
    else if c == '+' then 62
    else 63
  }

  lemma {:induction false} DigitRoundTrip(s: Sextet)
    ensures IsDigit(Digit(s)) && SextetOf(Digit(s)) == s
  {
  }

  predicate IsPayload(text: string) {
    forall c :: c in text ==> IsDigit(c) || c == PAD
  }

  /** The digits of a group; a group of one or two bytes is padded. */
  function One(a: Byte): (text: string)
    ensures |text| == 4 && IsPayload(text)
  {
    [Digit(a / 4), Digit(a % 4 * 16), PAD, PAD]
  }

  function Two(a: Byte, b: Byte): (text: string)
    ensures |text| == 4 && IsPayload(text)
  {
    [Digit(a / 4), Digit(a % 4 * 16 + b / 16), Digit(b % 16 * 4), PAD]
  }

  function Three(a: Byte, b: Byte, c: Byte): (text: string)
    ensures |text| == 4 && IsPayload(text)
  {
    [Digit(a / 4), Digit(a % 4 * 16 + b / 16), Digit(b % 16 * 4 + c / 64), Digit(c % 64)]
  }

  function Encode(bytes: seq<Byte>): (text: string)
    ensures IsPayload(text)
    ensures text == "" <==> bytes == []
  {
    if bytes == [] then ""
    else if |bytes| == 1 then One(bytes[0])
    else if |bytes| == 2 then Two(bytes[0], bytes[1])
    else Three(bytes[0], bytes[1], bytes[2]) + Encode(bytes[3..])
  }

  // ---------------------------------------------------------------- decoding

  /** `quad` digits of the current group were read; `left` holds their bits not yet written. */
  datatype Decoder =
    | Reading(quad: int, left: int, pads: nat, out: seq<Byte>)
    | Finished(result: seq<Byte>)
  {
    predicate Ok() {
      Reading? ==>
        && 0 <= quad < 4
        && 0 <= left < (match quad case 0 => 1 case 1 => 64 case 2 => 16 case _ => 4)
    }
  }

  const START := Reading(0, 0, 0, [])

  /** One character. Enough padding ends the text; characters outside the alphabet are skipped. */
  function Step(d: Decoder, c: char): (r: Decoder)
    requires d.Ok()
    ensures r.Ok()
  {
    if d.Finished? then d
    else if c == PAD then
      if d.quad < 2 then d
      else if d.quad + d.pads + 1 >= 4 then Finished(d.out)
      else d.(pads := d.pads + 1)
    else if !IsDigit(c) then d
    else
      var s := SextetOf(c);
      if d.quad == 0 then Reading(1, s, 0, d.out)
      else if d.quad == 1 then Reading(2, s % 16, 0, d.out + [d.left * 4 + s / 16])
      else if d.quad == 2 then Reading(3, s % 4, 0, d.out + [d.left * 16 + s / 4])
      else Reading(0, 0, 0, d.out + [d.left * 64 + s])
  }

  function Feed(d: Decoder, text: string): (r: Decoder)
    requires d.Ok()
    ensures r.Ok()
    decreases |text|
  {
    if text == "" then d else Feed(Step(d, text[0]), text[1..])
  }

  datatype DecodeError = NotAscii | IncorrectPadding

  /** `base64.b64decode(text)`. */
  function Decode(text: string): Result<seq<Byte>, DecodeError> {
    if exists c :: c in text && c >= '\U{0080}' then Failure(NotAscii)
    else
      match Feed(START, text)
      case Finished(result) => Success(result)
      case Reading(quad, _, _, out) => if quad == 0 then Success(out) else Failure(IncorrectPadding)
  }

  function Step4(d: Decoder, w: char, x: char, y: char, z: char): (r: Decoder)
    requires d.Ok()
    ensures r.Ok()
  {
    Step(Step(Step(Step(d, w), x), y), z)
  }

  lemma {:induction false} FeedOne(d: Decoder, c: char, rest: string)
    requires d.Ok()
    ensures Feed(d, [c] + rest) == Feed(Step(d, c), rest)
  {
    assert ([c] + rest)[1..] == rest;
  }

  lemma {:induction false} FeedFour(d: Decoder, w: char, x: char, y: char, z: char, rest: string)
    requires d.Ok()
    ensures Feed(d, [w, x, y, z] + rest) == Feed(Step4(d, w, x, y, z), rest)
  {
    assert [w, x, y, z] + rest == [w] + ([x] + ([y] + ([z] + rest)));
    FeedOne(d, w, [x] + ([y] + ([z] + rest)));
    FeedOne(Step(d, w), x, [y] + ([z] + rest));
    FeedOne(Step(Step(d, w), x), y, [z] + rest);
    FeedOne(Step(Step(Step(d, w), x), y), z, rest);
  }

  lemma {:induction false} StepDigit(d: Decoder, s: Sextet)
    requires d.Ok() && d.Reading?
    ensures Step(d, Digit(s)) ==
            if d.quad == 0 then Reading(1, s, 0, d.out)
            else if d.quad == 1 then Reading(2, s % 16, 0, d.out + [d.left * 4 + s / 16])
            else if d.quad == 2 then Reading(3, s % 4, 0, d.out + [d.left * 16 + s / 4])
            else Reading(0, 0, 0, d.out + [d.left * 64 + s])
  {
    DigitRoundTrip(s);
  }

  /** One byte of a group spread over its digits. */
  lemma {:induction false} Bits(a: Byte, b: Byte, c: Byte)
    ensures a / 4 * 4 + (a % 4 * 16 + b / 16) / 16 == a
    ensures (a % 4 * 16 + b / 16) % 16 * 16 + (b % 16 * 4 + c / 64) / 4 == b
    ensures (b % 16 * 4 + c / 64) % 4 * 64 + c % 64 == c
  {
  }

  lemma {:induction false} StepTwo(out: seq<Byte>, a: Byte, b: Byte)
    ensures Step(Step(Reading(0, 0, 0, out), Digit(a / 4)), Digit(a % 4 * 16 + b / 16)) ==
            Reading(2, b / 16, 0, out + [a])
  {
    Bits(a, b, 0);
    StepDigit(Reading(0, 0, 0, out), a / 4);
    StepDigit(Reading(1, a / 4, 0, out), a % 4 * 16 + b / 16);
  }

  lemma {:induction false} StepThree(out: seq<Byte>, b: Byte, c: Byte)
    ensures Step(Reading(2, b / 16, 0, out), Digit(b % 16 * 4 + c / 64)) == Reading(3, c / 64, 0, out + [b])
  {
    Bits(0, b, c);
    StepDigit(Reading(2, b / 16, 0, out), b % 16 * 4 + c / 64);
  }

  lemma {:induction false} GroupOfOne(out: seq<Byte>, a: Byte)
    ensures Feed(Reading(0, 0, 0, out), One(a)) == Finished(out + [a])
  {
    StepTwo(out, a, 0);
    FeedFour(Reading(0, 0, 0, out), One(a)[0], One(a)[1], PAD, PAD, "");
    assert One(a) == [One(a)[0], One(a)[1], PAD, PAD] + "";
  }

  lemma {:induction false} GroupOfTwo(out: seq<Byte>, a: Byte, b: Byte)
    ensures Feed(Reading(0, 0, 0, out), Two(a, b)) == Finished(out + [a] + [b])
  {
    StepTwo(out, a, b);
    StepThree(out + [a], b, 0);
    var text := Two(a, b);
    FeedFour(Reading(0, 0, 0, out), text[0], text[1], text[2], PAD, "");
    assert text == [text[0], text[1], text[2], PAD] + "";
  }

  lemma {:induction false} GroupOfThree(out: seq<Byte>, a: Byte, b: Byte, c: Byte, rest: string)
    ensures Feed(Reading(0, 0, 0, out), Three(a, b, c) + rest) == Feed(Reading(0, 0, 0, out + [a] + [b] + [c]), rest)
  {
    StepTwo(out, a, b);
    StepThree(out + [a], b, c);
    Bits(0, 0, c);
    StepDigit(Reading(3, c / 64, 0, out + [a] + [b]), c % 64);
    var text := Three(a, b, c);
    FeedFour(Reading(0, 0, 0, out), text[0], text[1], text[2], text[3], rest);
    assert text == [text[0], text[1], text[2], text[3]];
  }

  lemma {:induction false} AppendGroup(out: seq<Byte>, bytes: seq<Byte>)
    requires |bytes| > 2
    ensures out + [bytes[0]] + [bytes[1]] + [bytes[2]] + bytes[3..] == out + bytes
  {
  }

  /** Feeding the encoding of some bytes to a decoder between groups writes exactly those bytes. */
  lemma {:induction false} FeedEncoded(out: seq<Byte>, bytes: seq<Byte>)
    ensures Feed(Reading(0, 0, 0, out), Encode(bytes)) == Reading(0, 0, 0, out + bytes)
         || Feed(Reading(0, 0, 0, out), Encode(bytes)) == Finished(out + bytes)
    decreases |bytes|
  {
    if bytes == [] {
      assert out + bytes == out;
    } else if |bytes| == 1 {
      GroupOfOne(out, bytes[0]);
      assert out + bytes == out + [bytes[0]];
    } else if |bytes| == 2 {
      GroupOfTwo(out, bytes[0], bytes[1]);
      assert out + bytes == out + [bytes[0]] + [bytes[1]];
    } else {
      var longer := out + [bytes[0]] + [bytes[1]] + [bytes[2]];
      GroupOfThree(out, bytes[0], bytes[1], bytes[2], Encode(bytes[3..]));
      FeedEncoded(longer, bytes[3..]);
      AppendGroup(out, bytes);
    }
  }

  /** Decoding an encoding gives the bytes back. */
  lemma {:induction false} RoundTrip(bytes: seq<Byte>)
    ensures Decode(Encode(bytes)) == Success(bytes)
  {
    FeedEncoded([], bytes);
    assert [] + bytes == bytes;
    assert IsPayload(Encode(bytes));
  }
}
