/**
 * Byte-level vocabulary of the Modbus code: Rust's `u8`/`u16`, the
 * truncating `as` casts, big- and little-endian 16-bit words, and the
 * LSB-first packing of coil bits into bytes.
 */
module Bytes {

  type uint8 = x: int | 0 <= x < 0x100
  type uint16 = x: int | 0 <= x < 0x1_0000

  /** Rust `n as u8`: keeps the low 8 bits. */
  function AsU8(n: nat): (r: uint8)
    ensures n < 0x100 ==> r == n
  {
    n % 0x100
  }

  /** Rust `n as u16`: keeps the low 16 bits. */
  function AsU16(n: nat): (r: uint16)
    ensures n < 0x1_0000 ==> r == n
  {
    n % 0x1_0000
  }

  /** `u16::to_be_bytes`. */
  function ToBe(v: uint16): (r: seq<uint8>)
    ensures |r| == 2 && FromBe(r[0], r[1]) == v
  {
    [v / 0x100, v % 0x100]
  }

  /** `u16::to_le_bytes`. */
  function ToLe(v: uint16): (r: seq<uint8>)
    ensures |r| == 2 && FromLe(r[0], r[1]) == v
  {
    [v % 0x100, v / 0x100]
  }

  /** `u16::from_be_bytes([hi, lo])`. */
  function FromBe(hi: uint8, lo: uint8): uint16 {
    hi * 0x100 + lo
  }

  /** `u16::from_le_bytes([lo, hi])`. */
  function FromLe(lo: uint8, hi: uint8): uint16 {
    hi * 0x100 + lo
  }

  lemma FromBeInjective(a: uint8, b: uint8, c: uint8, d: uint8)
    requires FromBe(a, b) == FromBe(c, d)
    ensures a == c && b == d
  {
  }

  /** Bit `k` (0 = least significant) of `x`: Rust's `(x >> k) & 1 == 1`. */
  function BitOf(x: nat, k: nat): bool
    decreases k
  {
    if k == 0 then x % 2 == 1 else BitOf(x / 2, k - 1)
  }

  function Pow2(k: nat): (r: nat)
    ensures r >= 1
  {
    if k == 0 then 1 else 2 * Pow2(k - 1)
  }

  /** The number whose bit `i` is `bits[i]`. */
  function PackBits(bits: seq<bool>): (r: nat)
    ensures r < Pow2(|bits|)
  {
    if bits == [] then 0 else (if bits[0] then 1 else 0) + 2 * PackBits(bits[1..])
  }

  lemma {:induction false} PackBitsBit(bits: seq<bool>, k: nat)
    ensures BitOf(PackBits(bits), k) == (k < |bits| && bits[k])
    decreases k
  {
    if bits == [] {
      ZeroBits(k);
    } else if k > 0 {
      var x := PackBits(bits);
      assert x / 2 == PackBits(bits[1..]);
      PackBitsBit(bits[1..], k - 1);
    }
  }

  lemma {:induction false} ZeroBits(k: nat)
    ensures !BitOf(0, k)
  {
    if k > 0 {
      ZeroBits(k - 1);
    }
  }

  /** At most eight coils packed into one byte, LSB first. */
  function PackByte(bits: seq<bool>): (r: uint8)
    requires |bits| <= 8
  {
    assert Pow2(|bits|) <= Pow2(8) by { Pow2Monotone(|bits|, 8); }
    PackBits(bits)
  }

  lemma {:induction false} Pow2Monotone(i: nat, j: nat)
    requires i <= j
    ensures Pow2(i) <= Pow2(j)
    decreases j
  {
    if i < j {
      Pow2Monotone(i, j - 1);
    }
  }

  /**
   * The coil packing loop of the write-multiple-coils request and of the
   * read-coils response: coil `i` becomes bit `i % 8` of byte `i / 8`, and
   * the last byte is padded with zero bits.
   */
  function PackCoils(values: seq<bool>): (r: seq<uint8>)
    ensures |r| == (|values| + 7) / 8
    decreases |values|
  {
    if values == [] then []
    else if |values| <= 8 then [PackByte(values)]
    else [PackByte(values[..8])] + PackCoils(values[8..])
  }

  /** Every coil can be read back from its bit, and every padding bit is zero. */
  lemma {:induction false} PackCoilsBit(values: seq<bool>, i: nat)
    requires i < 8 * |PackCoils(values)|
    ensures BitOf(PackCoils(values)[i / 8], i % 8) == (i < |values| && values[i])
    decreases |values|
  {
    var r := PackCoils(values);
    if |values| <= 8 {
      PackBitsBit(values, i % 8);
    } else if i < 8 {
      PackBitsBit(values[..8], i);
    } else {
      PackCoilsBit(values[8..], i - 8);
      assert r[i / 8] == PackCoils(values[8..])[(i - 8) / 8];
    }
  }

  /** Every byte unpacked into eight coils, LSB first (the read-coils response parser). */
  function UnpackBits(bytes: seq<uint8>): (r: seq<bool>)
    ensures |r| == 8 * |bytes|
  {
    seq(8 * |bytes|, i requires 0 <= i < 8 * |bytes| => BitOf(bytes[i / 8], i % 8))
  }

  /** Unpacking packed coils gives the coils back followed by zero padding. */
  lemma UnpackPackCoils(values: seq<bool>)
    ensures |UnpackBits(PackCoils(values))| >= |values|
    ensures UnpackBits(PackCoils(values))[..|values|] == values
    ensures forall i :: |values| <= i < |UnpackBits(PackCoils(values))| ==> !UnpackBits(PackCoils(values))[i]
  {
    var u := UnpackBits(PackCoils(values));
    forall i | 0 <= i < |u|
      ensures u[i] == (i < |values| && values[i])
    {
      PackCoilsBit(values, i);
    }
  }

  /** Each register as two big-endian bytes, in order (the register loops of the builders). */
  function RegistersToBytes(values: seq<uint16>): (r: seq<uint8>)
    ensures |r| == 2 * |values|
  {
    if values == [] then [] else ToBe(values[0]) + RegistersToBytes(values[1..])
  }

  lemma {:induction false} RegistersToBytesAt(values: seq<uint16>, i: nat)
    requires i < |values|
    ensures FromBe(RegistersToBytes(values)[2 * i], RegistersToBytes(values)[2 * i + 1]) == values[i]
  {
    if i > 0 {
      RegistersToBytesAt(values[1..], i - 1);
    }
  }
}
