/** The `Colour` value of hnpixels/core.py: three integer channels with
    conversions to and from a six-digit hex code and a three-element triple. */
module Colours {
  import opened Wrappers
  import opened Failures

  /** One byte of a `bytes` object or of a `uint8` image. */
  type Byte = b: int | 0 <= b < 256

  /** The source's dataclass does not range-check its channels; bytes in,
      bytes out is a property of the conversions, not of the type. */
  datatype Colour = Colour(r: int, g: int, b: int)

  predicate IsByteColour(c: Colour) {
    0 <= c.r < 256 && 0 <= c.g < 256 && 0 <= c.b < 256
  }

  // ---------------------------------------------------------------------------
  // Hex digits

  predicate IsHexDigit(c: char) {
    '0' <= c <= '9' || 'a' <= c <= 'f' || 'A' <= c <= 'F'
  }

  function DigitValue(c: char): (v: nat)
    requires IsHexDigit(c)
    ensures v < 16
  {
    if '0' <= c <= '9' then c as int - '0' as int
    else if 'a' <= c <= 'f' then c as int - 'a' as int + 10
    else c as int - 'A' as int + 10
  }

  /** The digit Python's `format(v, "x")` writes for `v`. */
  function LowerDigit(v: nat): (c: char)
    requires v < 16
    ensures IsHexDigit(c) && DigitValue(c) == v
  {
    if v < 10 then ('0' as int + v) as char else ('a' as int + v - 10) as char
  }

  /** `str.upper()` on one character, for the ASCII range the hex codes use. */
  function UpperChar(c: char): char {
    if 'a' <= c <= 'z' then (c as int - 32) as char else c
  }

  function Upper(s: string): (u: string)
    ensures |u| == |s|
    ensures forall i :: 0 <= i < |s| ==> u[i] == UpperChar(s[i])
  {
    seq(|s|, i requires 0 <= i < |s| => UpperChar(s[i]))
  }

  /** Six characters, each a hex digit in either case. */
  predicate IsHexCode(s: string) {
    |s| == 6 && forall i :: 0 <= i < 6 ==> IsHexDigit(s[i])
  }

  // ---------------------------------------------------------------------------
  // Conversions

  /** `Colour.from_triple`: anything but three elements is a ValueError. */
  function FromTriple(t: seq<int>): (r: Result<Colour, Failure>)
    ensures r.Success? <==> |t| == 3
    ensures r.Failure? ==> r.error == ValueError
    ensures r.Success? ==> [r.value.r, r.value.g, r.value.b] == t
  {
    if |t| != 3 then Failure(ValueError) else Success(Colour(t[0], t[1], t[2]))
  }

  /** `Colour.tuple`, which `__iter__` also walks. */
  function Tuple(c: Colour): (t: seq<int>)
    ensures |t| == 3 && FromTriple(t) == Success(c)
  {
    [c.r, c.g, c.b]
  }

  /** The byte `bytes.fromhex` reads from the hex pair `hi lo`. */
  function PairValue(hi: char, lo: char): (v: Byte)
    requires IsHexDigit(hi) && IsHexDigit(lo)
  {
    16 * DigitValue(hi) + DigitValue(lo)
  }

  /** `Colour.from_hex`: a length other than six is refused first; otherwise
      `bytes.fromhex` must yield three bytes, which it does exactly when all
      six characters are hex digits (any whitespace it skips leaves fewer than
      three bytes, which `from_triple` refuses). */
  function FromHex(s: string): (r: Result<Colour, Failure>)
    ensures r.Success? <==> IsHexCode(s)
    ensures r.Failure? ==> r.error == ValueError
    ensures r.Success? ==> IsByteColour(r.value)
  {
    if |s| != 6 then Failure(ValueError)
    else if !(forall i :: 0 <= i < 6 ==> IsHexDigit(s[i])) then Failure(ValueError)
    else FromTriple([PairValue(s[0], s[1]), PairValue(s[2], s[3]), PairValue(s[4], s[5])])
  }

  /** Lower-case hex digits of `n`, most significant first, no leading zero. */
  function NatHex(n: nat): (s: string)
    ensures |s| >= 1
    decreases n
  {
    if n < 16 then [LowerDigit(n)] else NatHex(n / 16) + [LowerDigit(n % 16)]
  }

  /** Python's `f"{ch:0>2x}"`: sign and hex digits, right-aligned in a field
      of width two filled with '0'. */
  function Format(ch: int): (s: string)
    ensures |s| >= 2
  {
    var digits := NatHex(if ch < 0 then -ch else ch);
    var body := if ch < 0 then "-" + digits else digits;
    if |body| < 2 then "0" + body else body
  }

  /** `Colour.hex`. */
  function Hex(c: Colour): (h: string)
    ensures |h| >= 6 && Upper(h) == h
  {
    Upper(Format(c.r) + Format(c.g) + Format(c.b))
  }

  /** `Colour[index]`: indices 0..2 name r, g, b and -3..-1 count from the
      end; any other index is an IndexError. */
  function Channel(c: Colour, index: int): (r: Result<int, Failure>)
    ensures r.Success? <==> -3 <= index <= 2
    ensures r.Failure? ==> r.error == IndexError
    ensures r.Success? ==> r.value == Tuple(c)[index % 3]
  {
    if index > 2 || index < -3 then Failure(IndexError)
    else Success(Tuple(c)[if index < 0 then index + 3 else index])
  }

  // ---------------------------------------------------------------------------
  // Laws

  /** A byte formats as exactly two lower-case digits, high nibble first. */
  lemma {:induction false} FormatByte(v: Byte)
    ensures Format(v) == [LowerDigit(v / 16), LowerDigit(v % 16)]
  {
    if v >= 16 {
      assert NatHex(v / 16) == [LowerDigit(v / 16)];
    }
  }

  lemma PairNibbles(hi: char, lo: char)
    requires IsHexDigit(hi) && IsHexDigit(lo)
    ensures PairValue(hi, lo) / 16 == DigitValue(hi) && PairValue(hi, lo) % 16 == DigitValue(lo)
  {
  }

  lemma UpperOfDigit(c: char)
    requires IsHexDigit(c)
    ensures UpperChar(LowerDigit(DigitValue(c))) == UpperChar(c)
  {
  }

  lemma DigitOfUpper(v: nat)
    requires v < 16
    ensures IsHexDigit(UpperChar(LowerDigit(v))) && DigitValue(UpperChar(LowerDigit(v))) == v
  {
  }

  /** The hex code of a byte colour is six upper-case digits. */
  lemma {:induction false} HexOfByteColour(c: Colour)
    requires IsByteColour(c)
    ensures Hex(c) == [UpperChar(LowerDigit(c.r / 16)), UpperChar(LowerDigit(c.r % 16)),
                       UpperChar(LowerDigit(c.g / 16)), UpperChar(LowerDigit(c.g % 16)),
                       UpperChar(LowerDigit(c.b / 16)), UpperChar(LowerDigit(c.b % 16))]
  {
    FormatByte(c.r);
    FormatByte(c.g);
    FormatByte(c.b);
    var lower := [LowerDigit(c.r / 16), LowerDigit(c.r % 16), LowerDigit(c.g / 16),
                  LowerDigit(c.g % 16), LowerDigit(c.b / 16), LowerDigit(c.b % 16)];
    assert Format(c.r) + Format(c.g) + Format(c.b) == lower;
    UpperSix(lower);
  }

  lemma UpperSix(s: string)
    requires |s| == 6
    ensures Upper(s) == [UpperChar(s[0]), UpperChar(s[1]), UpperChar(s[2]),
                         UpperChar(s[3]), UpperChar(s[4]), UpperChar(s[5])]
  {
  }

  /** Six upper-cased digits of nibbles parse back to the bytes they spell. */
  lemma FromHexOfNibbles(h0: nat, l0: nat, h1: nat, l1: nat, h2: nat, l2: nat)
    requires h0 < 16 && l0 < 16 && h1 < 16 && l1 < 16 && h2 < 16 && l2 < 16
    ensures var s := [UpperChar(LowerDigit(h0)), UpperChar(LowerDigit(l0)),
                      UpperChar(LowerDigit(h1)), UpperChar(LowerDigit(l1)),
                      UpperChar(LowerDigit(h2)), UpperChar(LowerDigit(l2))];
            IsHexCode(s) && FromHex(s) == Success(Colour(16 * h0 + l0, 16 * h1 + l1, 16 * h2 + l2))
  {
    DigitOfUpper(h0); DigitOfUpper(l0);
    DigitOfUpper(h1); DigitOfUpper(l1);
    DigitOfUpper(h2); DigitOfUpper(l2);
  }

  /** For six hex digits `s`, `from_hex(s).hex() == s.upper()`. */
  lemma {:induction false} HexAfterFromHex(s: string)
    requires IsHexCode(s)
    ensures FromHex(s).Success? && Hex(FromHex(s).value) == Upper(s)
  {
    var c := FromHex(s).value;
    assert c == Colour(PairValue(s[0], s[1]), PairValue(s[2], s[3]), PairValue(s[4], s[5]));
    HexOfByteColour(c);
    PairNibbles(s[0], s[1]);
    PairNibbles(s[2], s[3]);
    PairNibbles(s[4], s[5]);
    var digits := [UpperChar(s[0]), UpperChar(s[1]), UpperChar(s[2]),
                   UpperChar(s[3]), UpperChar(s[4]), UpperChar(s[5])];
    forall i | 0 <= i < 6 ensures UpperChar(LowerDigit(DigitValue(s[i]))) == digits[i] {
      UpperOfDigit(s[i]);
    }
    assert Hex(c) == digits;
    UpperSix(s);
  }

  /** The other direction: a byte colour survives `hex` then `from_hex`. */
  lemma {:induction false} FromHexAfterHex(c: Colour)
    requires IsByteColour(c)
    ensures IsHexCode(Hex(c)) && FromHex(Hex(c)) == Success(c)
  {
    HexOfByteColour(c);
    FromHexOfNibbles(c.r / 16, c.r % 16, c.g / 16, c.g % 16, c.b / 16, c.b % 16);
  }

  /** `from_triple(c.tuple()) == c`, and a triple of the wrong length is refused. */
  lemma TripleRoundTrip(c: Colour, t: seq<int>)
    ensures FromTriple(Tuple(c)) == Success(c)
    ensures |t| != 3 ==> FromTriple(t) == Failure(ValueError)
  {
  }

  /** Negative channel indices name the same channels as their positive twins. */
  lemma NegativeChannel(c: Colour, i: int)
    requires 0 <= i <= 2
    ensures Channel(c, i - 3) == Channel(c, i)
  {
  }
}
