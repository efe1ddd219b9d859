/** Byte-level helpers: Bitcoin's CompactSize ("VarInt") length and encoding,
    little-endian integers, and decimal formatting of counts. */
module Util {
  import opened Results

  type byte = x: int | 0 <= x < 0x100
  type Bytes = seq<byte>

  /** Exclusive upper bound of a `u64`. */
  const U64_BOUND: nat := 0x1_0000_0000_0000_0000

  /** Number of bytes the CompactSize encoding of `n` takes (`util::varint_len`). */
  function VarintLen(n: nat): (len: nat)
    ensures len == 1 || len == 3 || len == 5 || len == 9
    ensures len == 1 <==> n < 0xfd
  {
    if n < 0xfd then 1
    else if n <= 0xffff then 3
    else if n <= 0xffff_ffff then 5
    else 9
  }

  function Pow256(k: nat): (p: nat)
    ensures p >= 1
  {
    if k == 0 then 1 else 256 * Pow256(k - 1)
  }

  /** `n` written as `width` little-endian bytes. */
  function LittleEndian(n: nat, width: nat): (bs: Bytes)
    requires n < Pow256(width)
    ensures |bs| == width
  {
    if width == 0 then [] else [n % 256] + LittleEndian(n / 256, width - 1)
  }

  /** The number whose little-endian bytes are `bs`. */
  function FromLittleEndian(bs: Bytes): (n: nat)
    ensures n < Pow256(|bs|)
  {
    if bs == [] then 0
    else
      var rest := FromLittleEndian(bs[1..]);
      assert bs[0] + 256 * rest <= 255 + 256 * (Pow256(|bs| - 1) - 1);
      bs[0] + 256 * rest
  }

  lemma {:induction false} LittleEndianRoundTrip(n: nat, width: nat)
    requires n < Pow256(width)
    ensures FromLittleEndian(LittleEndian(n, width)) == n
  {
    if width > 0 {
      var bs := LittleEndian(n, width);
      assert bs[1..] == LittleEndian(n / 256, width - 1);
      LittleEndianRoundTrip(n / 256, width - 1);
    }
  }

  lemma {:induction false} FromLittleEndianRoundTrip(bs: Bytes)
    ensures LittleEndian(FromLittleEndian(bs), |bs|) == bs
  {
    if bs != [] {
      var n := FromLittleEndian(bs);
      assert n % 256 == bs[0] && n / 256 == FromLittleEndian(bs[1..]);
      FromLittleEndianRoundTrip(bs[1..]);
    }
  }

  /** Bitcoin's consensus encoding of a CompactSize integer: one byte below
      0xfd, otherwise a marker byte followed by 2, 4 or 8 little-endian bytes. */
  function CompactSize(n: nat): (bs: Bytes)
    requires n < U64_BOUND
    ensures |bs| == VarintLen(n)
    ensures bs[0] < 0xfd <==> n < 0xfd
  {
    if n < 0xfd then [n]
    else if n <= 0xffff then [0xfd] + LittleEndian(n, 2)
    else if n <= 0xffff_ffff then [0xfe] + LittleEndian(n, 4)
    else [0xff] + LittleEndian(n, 8)
  }

  /** Reads one CompactSize integer off the front of `bs`, refusing truncated
      and non-minimal encodings as Bitcoin's decoder does. */
  function ReadCompactSize(bs: Bytes): Option<(nat, Bytes)> {
    if |bs| == 0 then None
    else if bs[0] < 0xfd then Some((bs[0], bs[1..]))
    else
      var width := if bs[0] == 0xfd then 2 else if bs[0] == 0xfe then 4 else 8;
      if |bs| < 1 + width then None
      else
        var n := FromLittleEndian(bs[1..1 + width]);
        if VarintLen(n) != 1 + width then None
        else Some((n, bs[1 + width..]))
  }

  /** Decoding undoes encoding, whatever follows the encoded integer. */
  lemma CompactSizeRoundTrip(n: nat, rest: Bytes)
    requires n < U64_BOUND
    ensures ReadCompactSize(CompactSize(n) + rest) == Some((n, rest))
  {
    var enc := CompactSize(n);
    var bs := enc + rest;
    if n >= 0xfd {
      var width := |enc| - 1;
      assert bs[1..1 + width] == enc[1..];
      assert bs[1 + width..] == rest;
      LittleEndianRoundTrip(n, width);
    }
  }

  /** The encoding is canonical: anything the decoder accepts is exactly the
      encoding of the integer it reads. */
  lemma CompactSizeCanonical(bs: Bytes, n: nat, rest: Bytes)
    requires ReadCompactSize(bs) == Some((n, rest))
    ensures n < U64_BOUND
    ensures bs == CompactSize(n) + rest
  {
    if bs[0] >= 0xfd {
      var width := if bs[0] == 0xfd then 2 else if bs[0] == 0xfe then 4 else 8;
      WideCompactSizeCanonical(bs, width, n, rest);
    }
  }

  lemma WideCompactSizeCanonical(bs: Bytes, width: nat, n: nat, rest: Bytes)
    requires |bs| >= 1 + width && bs[0] >= 0xfd
    requires width == (if bs[0] == 0xfd then 2 else if bs[0] == 0xfe then 4 else 8)
    requires n == FromLittleEndian(bs[1..1 + width]) && VarintLen(n) == 1 + width
    requires rest == bs[1 + width..]
    ensures n < U64_BOUND
    ensures bs == CompactSize(n) + rest
  {
    var digits := bs[1..1 + width];
    assert Pow256(8) == U64_BOUND;
    FromLittleEndianRoundTrip(digits);
    if width == 2 {
      assert 0xfd <= n <= 0xffff && bs[0] == 0xfd;
    } else if width == 4 {
      assert 0xffff < n <= 0xffff_ffff && bs[0] == 0xfe;
    } else {
      assert 0xffff_ffff < n && bs[0] == 0xff;
    }
    assert CompactSize(n) == [bs[0]] + LittleEndian(n, width);
    assert bs == [bs[0]] + digits + rest;
  }

  /** The byte cost the weight formulas charge for a scriptSig of `len` bytes:
      its CompactSize length prefix plus the bytes themselves, times the
      legacy weight factor 4. */
  function ScriptSigWeight(len: nat): (w: nat)
    ensures w % 4 == 0 && w >= 4 * (len + 1)
    ensures len < 0xfd ==> w == 4 * (len + 1)
  {
    4 * (VarintLen(len) + len)
  }

  /** A longer scriptSig never weighs less. */
  lemma ScriptSigWeightMonotone(a: nat, b: nat)
    requires a <= b
    ensures ScriptSigWeight(a) <= ScriptSigWeight(b)
    ensures ScriptSigWeight(a) >= 4 * (a + 1)
  {
  }

  function DigitChar(d: nat): (c: char)
    requires d < 10
    ensures '0' <= c <= '9'
  {
    (('0' as int) + d) as char
  }

  predicate IsDigits(s: string) {
    forall i :: 0 <= i < |s| ==> '0' <= s[i] <= '9'
  }

  /** The number a string of decimal digits spells, most significant first. */
  function DecimalValue(s: string): nat
    requires IsDigits(s)
  {
    if s == [] then 0
    else 10 * DecimalValue(s[..|s| - 1]) + ((s[|s| - 1] as int) - ('0' as int))
  }

  /** Decimal text of `n`, as Rust's `{}` formats a `usize`: the digits
      spell `n`, with no leading zero. */
  function NatToString(n: nat): (s: string)
    ensures |s| >= 1 && IsDigits(s)
    ensures DecimalValue(s) == n
    ensures |s| == 1 || s[0] != '0'
  {
    if n < 10 then [DigitChar(n)]
    else
      var prefix := NatToString(n / 10);
      var s := prefix + [DigitChar(n % 10)];
      assert s[..|s| - 1] == prefix;
      s
  }

  predicate StartsWith(s: string, prefix: string) {
    |prefix| <= |s| && s[..|prefix|] == prefix
  }
}
