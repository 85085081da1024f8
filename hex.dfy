/** Hexadecimal text as the pool reads and writes it: `BigInt('0x' + s)` for share
    nonces, and the little-endian rendering of a 64-bit timestamp that
    `Buffer.toString('hex')` produces. */
module Hex {
  import opened Wrappers

  type u64 = n: nat | n < 0x1_0000_0000_0000_0000

  /** The lower-case digit for a value below 16. */
  function Digit(d: nat): (c: char)
    requires d < 16
    ensures DigitValue(c) == Some(d)
    ensures !IsSpace(c)
  {
    "0123456789abcdef"[d]
  }

  /** The value of one hexadecimal digit, in either case. */
  function DigitValue(c: char): (r: Option<nat>)
    ensures r.Some? ==> r.value < 16
    ensures r.Some? <==> ('0' <= c <= '9' || 'a' <= c <= 'f' || 'A' <= c <= 'F')
  {
    if '0' <= c <= '9' then Some(c as int - '0' as int)
    else if 'a' <= c <= 'f' then Some(c as int - 'a' as int + 10)
    else if 'A' <= c <= 'F' then Some(c as int - 'A' as int + 10)
    else None
  }

  predicate IsDigits(s: string)
  {
    forall i :: 0 <= i < |s| ==> DigitValue(s[i]).Some?
  }

  /** White space and line terminators as ECMAScript's string-to-number grammar
      knows them (the `StrWhiteSpaceChar` production). */
  predicate IsSpace(c: char)
  {
    var u := c as int;
    u == 0x09 || u == 0x0A || u == 0x0B || u == 0x0C || u == 0x0D || u == 0x20
    || u == 0xA0 || u == 0x1680 || (0x2000 <= u <= 0x200A) || u == 0x2028 || u == 0x2029
    || u == 0x202F || u == 0x205F || u == 0x3000 || u == 0xFEFF
  }

  /** The text with its trailing white space removed. */
  function TrimEnd(s: string): (r: string)
    ensures |r| <= |s| && r == s[..|r|]
    ensures r == [] || !IsSpace(r[|r| - 1])
    ensures forall i :: |r| <= i < |s| ==> IsSpace(s[i])
  {
    if s != [] && IsSpace(s[|s| - 1]) then TrimEnd(s[..|s| - 1]) else s
  }

  /** The big-endian value of a digit string. */
  function Value(s: string): nat
    requires IsDigits(s)
  {
    if s == [] then 0 else Value(s[..|s| - 1]) * 16 + DigitValue(s[|s| - 1]).value
  }

  /** `BigInt('0x' + s)`: the literal after the prefix must be one or more
      hexadecimal digits; trailing white space is tolerated, anything else is a
      `SyntaxError` (here `None`). */
  function ParseHex(s: string): (r: Option<nat>)
    ensures r.Some? <==> TrimEnd(s) != [] && IsDigits(TrimEnd(s))
  {
    var t := TrimEnd(s);
    if t != [] && IsDigits(t) then Some(Value(t)) else None
  }

  function Pow256(k: nat): (r: nat)
    ensures r > 0
  {
    if k == 0 then 1 else 256 * Pow256(k - 1)
  }

  /** The `k` low bytes of `t`, least significant first. */
  function LeBytes(t: nat, k: nat): (r: seq<nat>)
    ensures |r| == k
    ensures forall i :: 0 <= i < k ==> r[i] < 256
  {
    if k == 0 then [] else [t % 256] + LeBytes(t / 256, k - 1)
  }

  /** Two lower-case digits per byte, in order. */
  function BytesHex(bytes: seq<nat>): (r: string)
    requires forall i :: 0 <= i < |bytes| ==> bytes[i] < 256
    ensures |r| == 2 * |bytes| && IsDigits(r)
  {
    if bytes == [] then []
    else [Digit(bytes[0] / 16), Digit(bytes[0] % 16)] + BytesHex(bytes[1..])
  }

  /** `writeBigUInt64LE(t)` followed by `toString('hex')`. */
  function LeHex(t: u64): (r: string)
    ensures |r| == 16 && IsDigits(r)
  {
    BytesHex(LeBytes(t, 8))
  }

  /** Reading a little-endian hex rendering back, two digits per byte. */
  function LeValue(s: string): nat
    requires IsDigits(s)
    decreases |s|
  {
    if |s| < 2 then 0 else Value(s[..2]) + 256 * LeValue(s[2..])
  }

  lemma {:induction false} LeBytesRoundTrip(t: nat, k: nat)
    requires t < Pow256(k)
    ensures LeValue(BytesHex(LeBytes(t, k))) == t
  {
    if k > 0 {
      var s := BytesHex(LeBytes(t, k));
      var b := t % 256;
      assert LeBytes(t, k)[1..] == LeBytes(t / 256, k - 1);
      assert s[2..] == BytesHex(LeBytes(t / 256, k - 1));
      assert s[..2] == [Digit(b / 16), Digit(b % 16)];
      assert s[..2][..1] == [Digit(b / 16)];
      assert [Digit(b / 16)][..0] == [];
      assert Value([Digit(b / 16)]) == b / 16;
      assert Value(s[..2]) == (b / 16) * 16 + b % 16 == b;
      assert t / 256 < Pow256(k - 1);
      LeBytesRoundTrip(t / 256, k - 1);
    }
  }

  /** The 16 digits of a timestamp decode back to the timestamp. */
  lemma LeHexRoundTrip(t: u64)
    ensures LeValue(LeHex(t)) == t
  {
    assert Pow256(8) == 0x1_0000_0000_0000_0000;
    LeBytesRoundTrip(t, 8);
  }
}
