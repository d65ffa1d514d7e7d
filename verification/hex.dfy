/**
 * Helper.ToByteArray (Helper.cs) and the fixed-width lowercase hex rendering
 * (`ToString("x2")`, `"x4"`, `"x8"`) that every command string is built from.
 */
module Hex {
  import opened Wrappers
  import opened Faults

  type Byte = b: int | 0 <= b < 0x100
  type UInt16 = x: int | 0 <= x < 0x1_0000
  type Int16 = x: int | -0x8000 <= x < 0x8000
  type UInt32 = x: int | 0 <= x < 0x1_0000_0000
  type Int32 = x: int | -0x8000_0000 <= x < 0x8000_0000

  /** A digit `Convert.ToByte(_, 16)` accepts, in either case. */
  predicate IsHexDigit(c: char) {
    '0' <= c <= '9' || 'a' <= c <= 'f' || 'A' <= c <= 'F'
  }

  function DigitValue(c: char): (v: nat)
    requires IsHexDigit(c)
    ensures v < 16
    ensures ('0' <= c <= '9') == (v < 10)
  {
    if '0' <= c <= '9' then c as int - '0' as int
    else if 'a' <= c <= 'f' then c as int - 'a' as int + 10
    else c as int - 'A' as int + 10
  }

  /** The lowercase digit that `ToString("x")` prints for `v`; DigitValue reads it back. */
  function LowerDigit(v: nat): (c: char)
    requires v < 16
    ensures IsHexDigit(c) && DigitValue(c) == v
    ensures '0' <= c <= '9' || 'a' <= c <= 'f'
  {
    if v < 10 then ('0' as int + v) as char else ('a' as int + v - 10) as char
  }

  /** The byte `Convert.ToByte(hi, lo, 16)` yields for two hex digits. */
  function PairValue(hi: char, lo: char): Byte
    requires IsHexDigit(hi) && IsHexDigit(lo)
  {
    16 * DigitValue(hi) + DigitValue(lo)
  }

  predicate AllHexDigits(s: string) {
    forall i | 0 <= i < |s| :: IsHexDigit(s[i])
  }

  /**
   * What Helper.ToByteArray returns for `s`: an odd length is rejected,
   * otherwise byte `i` is the value of characters `2i` and `2i+1`.
   */
  function ParseHex(s: string): (r: Result<seq<Byte>, Fault>)
    ensures r.Success? <==> |s| % 2 == 0 && AllHexDigits(s)
    ensures r.Failure? ==> (r.error == OddLengthHex <==> |s| % 2 == 1)
    ensures r.Success? ==> 2 * |r.value| == |s|
  {
    if |s| % 2 == 1 then Failure(OddLengthHex)
    else if !AllHexDigits(s) then Failure(BadHexDigit)
    else Success(seq(|s| / 2, i requires 0 <= i < |s| / 2 => PairValue(s[2 * i], s[2 * i + 1])))
  }

  /** Helper.ToByteArray: allocates `|str| / 2` bytes and fills them pair by pair. */
  method ToByteArray(str: string) returns (r: Result<seq<Byte>, Fault>)
    ensures r == ParseHex(str)
  {
    if |str| % 2 == 1 {
      return Failure(OddLengthHex);
    }
    var bytes := new Byte[|str| / 2];
    for i := 0 to bytes.Length
      invariant forall k | 0 <= k < 2 * i :: IsHexDigit(str[k])
      invariant forall k | 0 <= k < i :: bytes[k] == PairValue(str[2 * k], str[2 * k + 1])
    {
      if !IsHexDigit(str[2 * i]) || !IsHexDigit(str[2 * i + 1]) {
        return Failure(BadHexDigit);
      }
      bytes[i] := PairValue(str[2 * i], str[2 * i + 1]);
    }
    assert AllHexDigits(str);
    assert bytes[..] == seq(|str| / 2, i requires 0 <= i < |str| / 2 => PairValue(str[2 * i], str[2 * i + 1]));
    return Success(bytes[..]);
  }

  /** `x.ToString("x<n>")` for an `x` below `16^n`: `n` lowercase digits, most significant first. */
  function HexDigits(x: nat, n: nat): (s: string)
    ensures |s| == n
  {
    if n == 0 then "" else HexDigits(x / 16, n - 1) + [LowerDigit(x % 16)]
  }

  /** Zero renders as all zero digits, whatever the width. */
  lemma {:induction false} HexDigitsOfZero(n: nat)
    ensures forall i :: 0 <= i < n ==> HexDigits(0, n)[i] == '0'
  {
    if n > 0 {
      HexDigitsOfZero(n - 1);
    }
  }

  /** `b.ToString("x2")` for a byte: its two lowercase digits, high nibble first. */
  function Hex2(b: Byte): (s: string)
    ensures |s| == 2
  {
    [LowerDigit(b / 16), LowerDigit(b % 16)]
  }

  /** The `n` low-order bytes of `x`, most significant first. */
  function BigEndian(x: nat, n: nat): (bs: seq<Byte>)
    ensures |bs| == n
  {
    if n == 0 then [] else BigEndian(x / 0x100, n - 1) + [x % 0x100]
  }

  /** The big-endian value of `bs`. */
  function ValueOf(bs: seq<Byte>): nat
  {
    if bs == [] then 0 else 0x100 * ValueOf(bs[..|bs| - 1]) + bs[|bs| - 1]
  }

  /** Each byte rendered as two lowercase hex digits, as the command strings are written. */
  function HexOf(bs: seq<Byte>): (s: string)
    ensures |s| == 2 * |bs|
  {
    if bs == [] then "" else HexOf(bs[..|bs| - 1]) + Hex2(bs[|bs| - 1])
  }

  lemma {:induction false} HexOfConcat(a: seq<Byte>, b: seq<Byte>)
    ensures HexOf(a + b) == HexOf(a) + HexOf(b)
  {
    if b == [] {
      assert a + b == a;
    } else {
      var b' := b[..|b| - 1];
      assert (a + b)[..|a + b| - 1] == a + b';
      HexOfConcat(a, b');
    }
  }

  lemma DivMod256(x: nat)
    ensures x / 16 / 16 == x / 0x100
    ensures (x / 16) % 16 == (x % 0x100) / 16
    ensures x % 16 == (x % 0x100) % 16
  {
    var q, r := x / 0x100, x % 0x100;
    assert x == 0x100 * q + r;
    assert x / 16 == 16 * q + r / 16;
    assert x % 16 == r % 16;
  }

  /** The last two of `m + 2` hex digits are the digits of the low byte. */
  lemma HexDigitsLowByte(x: nat, m: nat)
    ensures HexDigits(x, m + 2) == HexDigits(x / 0x100, m) + Hex2(x % 0x100)
  {
    DivMod256(x);
    var low := x % 0x100;
    assert HexDigits(x, m + 2) == HexDigits(x / 16 / 16, m) + [LowerDigit((x / 16) % 16)] + [LowerDigit(x % 16)];
  }

  /** Rendering `2n` hex digits of `x` is rendering its `n` big-endian bytes. */
  lemma {:induction false} HexDigitsAreBytes(x: nat, n: nat)
    ensures HexDigits(x, 2 * n) == HexOf(BigEndian(x, n))
  {
    if n > 0 {
      var bs := BigEndian(x, n);
      assert bs[..n - 1] == BigEndian(x / 0x100, n - 1);
      assert HexOf(bs) == HexOf(BigEndian(x / 0x100, n - 1)) + Hex2(x % 0x100);
      HexDigitsAreBytes(x / 0x100, n - 1);
      HexDigitsLowByte(x, 2 * (n - 1));
    }
  }

  /** The characters of HexOf(bs) at `2i` and `2i+1` are the two digits of byte `i`. */
  lemma {:induction false} HexOfAt(bs: seq<Byte>, i: nat)
    requires i < |bs|
    ensures HexOf(bs)[2 * i] == LowerDigit(bs[i] / 16)
    ensures HexOf(bs)[2 * i + 1] == LowerDigit(bs[i] % 16)
  {
    var init, last := bs[..|bs| - 1], bs[|bs| - 1];
    assert HexOf(bs) == HexOf(init) + Hex2(last);
    if i < |bs| - 1 {
      HexOfAt(init, i);
      assert init[i] == bs[i];
    }
  }

  /** Parsing a rendering of bytes returns exactly those bytes (Helper.cs:7-16 after BaseCommand.cs:14-17). */
  lemma ParseHexOfHex(bs: seq<Byte>)
    ensures ParseHex(HexOf(bs)) == Success(bs)
  {
    var s := HexOf(bs);
    forall k | 0 <= k < |s| ensures IsHexDigit(s[k]) {
      HexOfAt(bs, k / 2);
      assert k == 2 * (k / 2) || k == 2 * (k / 2) + 1;
    }
    forall i | 0 <= i < |bs| ensures PairValue(s[2 * i], s[2 * i + 1]) == bs[i] {
      HexOfAt(bs, i);
    }
    assert seq(|s| / 2, i requires 0 <= i < |s| / 2 => PairValue(s[2 * i], s[2 * i + 1])) == bs;
  }

  function Pow256(n: nat): (p: nat)
    ensures p > 0
  {
    if n == 0 then 1 else 0x100 * Pow256(n - 1)
  }

  lemma ValueOfSnoc(bs: seq<Byte>, b: Byte)
    ensures ValueOf(bs + [b]) == 0x100 * ValueOf(bs) + b
  {
    assert (bs + [b])[..|bs|] == bs;
  }

  lemma QuotientBound(x: nat, p: nat)
    requires x < 0x100 * p
    ensures x / 0x100 < p
  {
  }

  /** Reading `n` big-endian bytes of `x` back gives `x` whenever it fits in `n` bytes. */
  lemma {:induction false} BigEndianRoundTrip(x: nat, n: nat)
    requires x < Pow256(n)
    ensures ValueOf(BigEndian(x, n)) == x
  {
    if n > 0 {
      var q := x / 0x100;
      QuotientBound(x, Pow256(n - 1));
      BigEndianRoundTrip(q, n - 1);
      ValueOfSnoc(BigEndian(q, n - 1), x % 0x100);
    }
  }
}
