/** QUIC variable-length integers, section 16 of RFC 9000. */
module Varint {
  import opened Types

  /** Encoded length of the shortest form. */
  function Size(value: nat): nat {
    if value <= 63 then 1 else if value <= 16383 then 2 else if value <= 1_073_741_823 then 4 else 8
  }

  /** Big-endian bytes of value, `size` of them. */
  function BigEndian(value: nat, size: nat): (bs: Bytes)
    ensures |bs| == size
    decreases size
  {
    if size == 0 then [] else BigEndian(value / 256, size - 1) + [value % 256]
  }

  function FromBigEndian(bs: Bytes): nat {
    if bs == [] then 0 else FromBigEndian(bs[..|bs| - 1]) * 256 + bs[|bs| - 1]
  }

  function Pow256(n: nat): (p: nat)
    ensures p > 0
  {
    if n == 0 then 1 else 256 * Pow256(n - 1)
  }

  /** The bytes write_varint appends, or None when it refuses the value. */
  function Write(value: nat): Option<Bytes> {
    if value <= 63 then Some([value])
    else if value <= 16383 then Some(BigEndian(value + 0x4000, 2))
    else if value <= 1_073_741_823 then Some(BigEndian(value + 0x8000_0000, 4))
    else if value <= VARINT_MAX then Some(BigEndian(value + 0xC000_0000_0000_0000, 8))
    else None
  }

  datatype Reading = Incomplete | Got(value: nat, size: nat)

  /** Length announced by a first byte. */
  function LengthOf(first: Byte): (n: nat)
    ensures n in {1, 2, 4, 8}
  {
    if first < 64 then 1 else if first < 128 then 2 else if first < 192 then 4 else 8
  }

  /** What read_varint finds at the front of a buffer: the value with the two prefix bits masked off. */
  function Read(bs: Bytes): (r: Reading)
    ensures r.Got? ==> 1 <= r.size <= |bs|
  {
    if bs == [] then Incomplete
    else
      var n := LengthOf(bs[0]);
      if |bs| < n then Incomplete
      else if n == 1 then Got(bs[0] % 64, 1)
      else if n == 2 then Got(FromBigEndian(bs[..2]) % 0x4000, 2)
      else if n == 4 then Got(FromBigEndian(bs[..4]) % 0x4000_0000, 4)
      else Got(FromBigEndian(bs[..8]) % 0x4000_0000_0000_0000, 8)
  }

  lemma {:induction false} BigEndianInverse(value: nat, size: nat)
    requires value < Pow256(size)
    ensures FromBigEndian(BigEndian(value, size)) == value
    decreases size
  {
    if size > 0 {
      BigEndianInverse(value / 256, size - 1);
      var bs := BigEndian(value, size);
      assert bs[..|bs| - 1] == BigEndian(value / 256, size - 1);
    }
  }

  lemma {:induction false} BigEndianFirst(value: nat, size: nat)
    requires size > 0 && value < Pow256(size)
    ensures BigEndian(value, size)[0] == value / Pow256(size - 1)
    decreases size
  {
    if size > 1 {
      BigEndianFirst(value / 256, size - 1);
      DivDiv(value, Pow256(size - 2));
    }
  }

  lemma DivDiv(a: nat, b: nat)
    requires b > 0
    ensures a / 256 / b == a / (256 * b)
  {
    var q := a / 256 / b;
    var r := a / 256 % b;
    var r0 := a % 256;
    assert a == 256 * (b * q + r) + r0;
    assert a == (256 * b) * q + (256 * r + r0) by {
      assert 256 * (b * q) == (256 * b) * q;
    }
    assert 0 <= 256 * r + r0 < 256 * b;
    DivUnique(a, 256 * b, q, 256 * r + r0);
  }

  lemma DivUnique(a: nat, d: nat, q: nat, r: nat)
    requires d > 0 && a == d * q + r && r < d
    ensures a / d == q
  {
    var q' := a / d;
    assert a == d * q' + a % d;
    assert q < q' ==> d * (q + 1) <= d * q';
    assert q' < q ==> d * (q' + 1) <= d * q;
  }

  /** A multi-byte form whose first byte announces n bytes reads back as its low bits. */
  lemma ReadFramed(whole: nat, n: nat, rest: Bytes)
    requires n in {2, 4, 8} && whole < Pow256(n) && whole / Pow256(n - 1) < 256
    requires LengthOf(whole / Pow256(n - 1)) == n
    ensures Read(BigEndian(whole, n) + rest) ==
            Got(whole % (if n == 2 then 0x4000 else if n == 4 then 0x4000_0000 else 0x4000_0000_0000_0000), n)
  {
    BigEndianInverse(whole, n);
    BigEndianFirst(whole, n);
    assert (BigEndian(whole, n) + rest)[..n] == BigEndian(whole, n);
  }

  /** The announced length and the masked value of each multi-byte form. */
  lemma Prefixes(value: nat)
    ensures 63 < value <= 16383 ==>
              var whole := value + 0x4000;
              whole < 65536 && whole / 256 < 256 && LengthOf(whole / 256) == 2 && whole % 0x4000 == value
    ensures 16383 < value <= 1_073_741_823 ==>
              var whole := value + 0x8000_0000;
              && whole < 0x1_0000_0000 && whole / 0x100_0000 < 256
              && LengthOf(whole / 0x100_0000) == 4 && whole % 0x4000_0000 == value
    ensures 1_073_741_823 < value <= VARINT_MAX ==>
              var whole := value + 0xC000_0000_0000_0000;
              && whole < 0x1_0000_0000_0000_0000 && whole / 0x100_0000_0000_0000 < 256
              && LengthOf(whole / 0x100_0000_0000_0000) == 8 && whole % 0x4000_0000_0000_0000 == value
  {
  }

  lemma Powers(n: nat)
    requires n in {2, 4, 8}
    ensures n == 2 ==> Pow256(n - 1) == 256 && Pow256(n) == 65536
    ensures n == 4 ==> Pow256(n - 1) == 0x100_0000 && Pow256(n) == 0x1_0000_0000
    ensures n == 8 ==> Pow256(n - 1) == 0x100_0000_0000_0000 && Pow256(n) == 0x1_0000_0000_0000_0000
  {
    assert Pow256(1) == 256;
    assert Pow256(3) == 0x100_0000;
    assert Pow256(5) == 0x100_0000_0000;
  }

  /** Section 16 of RFC 9000: decoding inverts encoding, and consumes exactly the bytes written. */
  lemma RoundTrip(value: nat, rest: Bytes)
    requires value <= VARINT_MAX
    ensures Write(value).Some? && |Write(value).value| == Size(value)
    ensures Read(Write(value).value + rest) == Got(value, Size(value))
  {
    Prefixes(value);
    var n := Size(value);
    if n > 1 {
      Powers(n);
      var whole := value + if n == 2 then 0x4000 else if n == 4 then 0x8000_0000 else 0xC000_0000_0000_0000;
      ReadFramed(whole, n, rest);
      assert Write(value) == Some(BigEndian(whole, n));
    }
  }

  /** A complete reading does not depend on the bytes behind it. */
  lemma ReadPrefix(bs: Bytes, more: Bytes)
    requires Read(bs).Got?
    ensures Read(bs + more) == Read(bs)
  {
    var n := LengthOf(bs[0]);
    assert (bs + more)[..n] == bs[..n];
  }

  /** A reading depends on its own bytes alone. */
  lemma ReadOwn(bs: Bytes)
    requires Read(bs).Got?
    ensures Read(bs[..Read(bs).size]) == Read(bs)
  {
    assert bs[..Read(bs).size][..Read(bs).size] == bs[..Read(bs).size];
  }
}
