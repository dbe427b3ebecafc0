/** The Q6_K and Q4_0 weight layouts (dequant.py). A super-block of Q6_K packs 256 six-bit codes
    into 128 bytes of low nibbles and 64 bytes of high pairs. */
module Dequantize {
  import opened Positions

  type Byte = bv8

  predicate SixBit(q: Byte) { q < 64 }

  /** The g-th code of a lane, from its two low-nibble bytes and its byte of high pairs. */
  function Code(lo: Byte, hi: Byte, high: Byte, g: nat): (q: Byte)
    requires g < 4
    ensures SixBit(q)
  {
    match g
    case 0 => (lo & 0xF) | (((high >> 0) & 3) << 4)
    case 1 => (hi & 0xF) | (((high >> 2) & 3) << 4)
    case 2 => (lo >> 4) | (((high >> 4) & 3) << 4)
    case _ => (hi >> 4) | (((high >> 6) & 3) << 4)
  }

  // ---- a half super-block: 32 lanes of four codes ----

  datatype Half = Half(ql: seq<Byte>, qh: seq<Byte>)

  predicate ValidHalf(b: Half) {
    |b.ql| == 64 && |b.qh| == 32
  }

  /** Code i of a half: group i / 32 of lane i % 32. */
  function CodeAt(b: Half, i: nat): (q: Byte)
    requires ValidHalf(b) && i < 128
    ensures SixBit(q)
  {
    Code(b.ql[i % 32], b.ql[32 + i % 32], b.qh[i % 32], i / 32)
  }

  function Group(b: Half, g: nat): (r: seq<Byte>)
    requires ValidHalf(b) && g < 4
    ensures |r| == 32
  {
    seq(32, l requires 0 <= l < 32 => Code(b.ql[l], b.ql[32 + l], b.qh[l], g))
  }

  /** The codes in the order the source concatenates them. */
  function Codes(b: Half): (r: seq<Byte>)
    requires ValidHalf(b)
    ensures |r| == 128
  {
    Group(b, 0) + Group(b, 1) + Group(b, 2) + Group(b, 3)
  }

  lemma CodesAt(b: Half, i: nat)
    requires ValidHalf(b) && i < 128
    ensures Codes(b)[i] == CodeAt(b, i)
  {
    DivUnique(i, 32, i / 32);
  }

  /** The other way: two low nibbles to a byte, four high pairs to a byte. */
  function Nibbles(a: Byte, c: Byte): Byte {
    (a & 0xF) | ((c & 0xF) << 4)
  }

  function Pairs(a: Byte, b: Byte, c: Byte, d: Byte): Byte {
    (a >> 4) | ((b >> 4) << 2) | ((c >> 4) << 4) | ((d >> 4) << 6)
  }

  function Pack(q: seq<Byte>): (b: Half)
    requires |q| == 128
    ensures ValidHalf(b)
  {
    Half(seq(64, k requires 0 <= k < 64 => Nibbles(q[k], q[k + 64])),
         seq(32, l requires 0 <= l < 32 => Pairs(q[l], q[l + 32], q[l + 64], q[l + 96])))
  }

  /** A lane's four codes determine its three bytes. */
  lemma LaneUnpacked(lo: Byte, hi: Byte, high: Byte)
    ensures Nibbles(Code(lo, hi, high, 0), Code(lo, hi, high, 2)) == lo
    ensures Nibbles(Code(lo, hi, high, 1), Code(lo, hi, high, 3)) == hi
    ensures Pairs(Code(lo, hi, high, 0), Code(lo, hi, high, 1), Code(lo, hi, high, 2), Code(lo, hi, high, 3)) == high
  {
  }

  /** And three bytes made of four codes give them back. */
  lemma LanePacked(a: Byte, b: Byte, c: Byte, d: Byte)
    requires SixBit(a) && SixBit(b) && SixBit(c) && SixBit(d)
    ensures
      var lo, hi, high := Nibbles(a, c), Nibbles(b, d), Pairs(a, b, c, d);
      Code(lo, hi, high, 0) == a && Code(lo, hi, high, 1) == b && Code(lo, hi, high, 2) == c && Code(lo, hi, high, 3) == d
  {
  }

  /** Within a half no bit is shared or dropped: its 96 bytes and its 128 six-bit codes correspond one
      to one. */
  lemma PackCodes(b: Half)
    requires ValidHalf(b)
    ensures Pack(Codes(b)) == b
  {
    hide Codes, Code, Nibbles, Pairs, CodeAt, Group;
    var p := Pack(Codes(b));
    forall k | 0 <= k < 64 ensures p.ql[k] == b.ql[k] {
      LowRestored(b, k);
    }
    forall l | 0 <= l < 32 ensures p.qh[l] == b.qh[l] {
      HighRestored(b, l);
    }
  }

  lemma LowRestored(b: Half, k: nat)
    requires ValidHalf(b) && k < 64
    ensures Pack(Codes(b)).ql[k] == b.ql[k]
  {
    hide Codes, Code, Nibbles, Pairs, Group;
    var l := k % 32;
    CodesAt(b, k);
    CodesAt(b, k + 64);
    assert (k + 64) % 32 == l && (k + 64) / 32 == k / 32 + 2;
    LaneUnpacked(b.ql[l], b.ql[32 + l], b.qh[l]);
  }

  lemma HighRestored(b: Half, l: nat)
    requires ValidHalf(b) && l < 32
    ensures Pack(Codes(b)).qh[l] == b.qh[l]
  {
    hide Codes, Code, Nibbles, Pairs, Group;
    CodesAt(b, l);
    CodesAt(b, l + 32);
    CodesAt(b, l + 64);
    CodesAt(b, l + 96);
    LaneUnpacked(b.ql[l], b.ql[32 + l], b.qh[l]);
  }

  lemma CodesPack(q: seq<Byte>)
    requires |q| == 128 && forall i | 0 <= i < 128 :: SixBit(q[i])
    ensures Codes(Pack(q)) == q
  {
    hide Codes, Code, Nibbles, Pairs, Group, Pack;
    forall i | 0 <= i < 128 ensures Codes(Pack(q))[i] == q[i] {
      CodeRestored(q, i);
    }
  }

  lemma CodeRestored(q: seq<Byte>, i: nat)
    requires |q| == 128 && i < 128 && forall j | 0 <= j < 128 :: SixBit(q[j])
    ensures Codes(Pack(q))[i] == q[i]
  {
    hide Codes, Code, Nibbles, Pairs, Group;
    var b, l, g := Pack(q), i % 32, i / 32;
    assert i == 32 * g + l && 0 <= l < 32 && 0 <= g < 4;
    CodesAt(b, i);
    assert b.ql[l] == Nibbles(q[l], q[l + 64]) && b.ql[32 + l] == Nibbles(q[l + 32], q[l + 96]);
    hide Pack;
    LanePacked(q[l], q[l + 32], q[l + 64], q[l + 96]);
  }

  // ---- values ----

  function Signed(b: Byte): int {
    if b < 128 then b as int else b as int - 256
  }

  /** One weight: block scale times sub-block scale times the code less 32. */
  function Weight(d: real, scale: int, q: Byte): real {
    d * scale as real * (q as int - 32) as real
  }

  /** One group's values: each of its two scales serves sixteen lanes. */
  function GroupValues(b: Half, scales: seq<int>, d: real, g: nat): (r: seq<real>)
    requires ValidHalf(b) && |scales| == 8 && g < 4
    ensures |r| == 32
  {
    seq(32, l requires 0 <= l < 32 => Weight(d, scales[2 * g + l / 16], Group(b, g)[l]))
  }

  /** `_dequantize_q6_k_half`. */
  function HalfValues(b: Half, scales: seq<int>, d: real): (r: seq<real>)
    requires ValidHalf(b) && |scales| == 8
    ensures |r| == 128
  {
    GroupValues(b, scales, d, 0) + GroupValues(b, scales, d, 1) + GroupValues(b, scales, d, 2) + GroupValues(b, scales, d, 3)
  }

  lemma HalfValueAt(b: Half, scales: seq<int>, d: real, i: nat)
    requires ValidHalf(b) && |scales| == 8 && i < 128
    ensures HalfValues(b, scales, d)[i] == Weight(d, scales[i / 16], CodeAt(b, i))
  {
    hide Code, Codes, GroupValues, Weight;
    var g, l := i / 32, i % 32;
    assert i == 32 * g + l;
    assert HalfValues(b, scales, d)[i] == GroupValues(b, scales, d, g)[l];
    GroupValueAt(b, scales, d, g, l);
    assert i / 16 == 2 * g + l / 16;
  }

  lemma GroupValueAt(b: Half, scales: seq<int>, d: real, g: nat, l: nat)
    requires ValidHalf(b) && |scales| == 8 && g < 4 && l < 32
    ensures 2 * g + l / 16 < 8
    ensures GroupValues(b, scales, d, g)[l] ==
              Weight(d, scales[2 * g + l / 16], Code(b.ql[l], b.ql[32 + l], b.qh[l], g))
  {
    hide Code, Weight;
    assert Group(b, g)[l] == Code(b.ql[l], b.ql[32 + l], b.qh[l], g);
  }

  const BLOCK_BYTES: nat := 210
  const CODE_BYTES: nat := 192   // low nibbles and high pairs; scales follow
  const QK: nat := 256

  function FirstHalf(raw: seq<Byte>): (b: Half)
    requires |raw| >= CODE_BYTES
    ensures ValidHalf(b)
  {
    Half(raw[..128][..64], raw[128..192][..32])
  }

  function SecondHalf(raw: seq<Byte>): (b: Half)
    requires |raw| >= CODE_BYTES
    ensures ValidHalf(b)
  {
    Half(raw[..128][64..], raw[128..192][32..])
  }

  function Scales(raw: seq<Byte>): (r: seq<int>)
    requires |raw| == BLOCK_BYTES
    ensures |r| == 16 && forall k | 0 <= k < 16 :: r[k] == Signed(raw[192 + k])
  {
    seq(16, k requires 0 <= k < 16 => Signed(raw[192..208][k]))
  }

  /** One super-block; `half` reads the two bytes of a half-precision number. */
  function BlockValues(raw: seq<Byte>, half: (Byte, Byte) -> real): (r: seq<real>)
    requires |raw| == BLOCK_BYTES
    ensures |r| == QK
  {
    var d, scales := half(raw[208], raw[209]), Scales(raw);
    HalfValues(FirstHalf(raw), scales[..8], d) + HalfValues(SecondHalf(raw), scales[8..], d)
  }

  /** The six-bit code of element i of a super-block, by the bytes it is spread over. */
  function ElementCode(raw: seq<Byte>, i: nat): (q: Byte)
    requires |raw| >= CODE_BYTES && i < QK
    ensures SixBit(q)
  {
    var h, lane := i / 128, i % 32;
    Code(raw[64 * h + lane], raw[64 * h + 32 + lane], raw[128 + 32 * h + lane], i % 128 / 32)
  }

  /** Element i is the block scale times sub-block scale i / 16 times its code less 32, in both
      halves. */
  lemma BlockValueAt(raw: seq<Byte>, half: (Byte, Byte) -> real, i: nat)
    requires |raw| == BLOCK_BYTES && i < QK
    ensures BlockValues(raw, half)[i] ==
              Weight(half(raw[208], raw[209]), Signed(raw[192 + i / 16]), ElementCode(raw, i))
  {
    hide Code, Signed, HalfValues, Scales, Weight, CodeAt, ElementCode, FirstHalf, SecondHalf;
    var d, scales := half(raw[208], raw[209]), Scales(raw);
    if i < 128 {
      HalfValueAt(FirstHalf(raw), scales[..8], d, i);
      FirstCode(raw, i);
    } else {
      HalfValueAt(SecondHalf(raw), scales[8..], d, i - 128);
      SecondCode(raw, i);
      assert (i - 128) / 16 + 8 == i / 16;
    }
  }

  lemma FirstCode(raw: seq<Byte>, i: nat)
    requires |raw| >= CODE_BYTES && i < 128
    ensures CodeAt(FirstHalf(raw), i) == ElementCode(raw, i)
  {
    hide Code;
    assert i / 128 == 0 && i % 128 == i;
  }

  lemma SecondCode(raw: seq<Byte>, i: nat)
    requires |raw| >= CODE_BYTES && 128 <= i < QK
    ensures CodeAt(SecondHalf(raw), i - 128) == ElementCode(raw, i)
  {
    hide Code;
    assert i / 128 == 1 && i % 128 == i - 128 && (i - 128) % 32 == i % 32;
  }

  // ---- the super-block's bytes against its codes ----

  /** All codes of a super-block, the first half's before the second's. */
  function BlockCodes(raw: seq<Byte>): (r: seq<Byte>)
    requires |raw| >= CODE_BYTES
    ensures |r| == QK
  {
    Codes(FirstHalf(raw)) + Codes(SecondHalf(raw))
  }

  /** The other way: both halves' low nibbles, then both halves' high pairs. */
  function PackBlock(q: seq<Byte>): (r: seq<Byte>)
    requires |q| == QK
    ensures |r| == CODE_BYTES
  {
    var first, second := Pack(q[..128]), Pack(q[128..]);
    first.ql + second.ql + first.qh + second.qh
  }

  lemma BlockCodesAt(raw: seq<Byte>, i: nat)
    requires |raw| >= CODE_BYTES && i < QK
    ensures BlockCodes(raw)[i] == ElementCode(raw, i)
  {
    hide Codes, CodeAt, ElementCode, FirstHalf, SecondHalf;
    if i < 128 {
      CodesAt(FirstHalf(raw), i);
      FirstCode(raw, i);
    } else {
      CodesAt(SecondHalf(raw), i - 128);
      SecondCode(raw, i);
    }
  }

  /** No bit of a super-block's 192 code bytes is dropped: its 256 codes give them all back. */
  lemma PackBlockCodes(raw: seq<Byte>)
    requires |raw| >= CODE_BYTES
    ensures PackBlock(BlockCodes(raw)) == raw[..CODE_BYTES]
  {
    hide Codes, Pack;
    var first, second := FirstHalf(raw), SecondHalf(raw);
    assert BlockCodes(raw)[..128] == Codes(first) && BlockCodes(raw)[128..] == Codes(second);
    PackCodes(first);
    PackCodes(second);
    assert raw[..CODE_BYTES] == first.ql + second.ql + first.qh + second.qh;
  }

  /** And no bit is shared: any 256 six-bit codes are those of the bytes they pack into, whatever
      scales follow. */
  lemma BlockCodesPack(q: seq<Byte>, scales: seq<Byte>)
    requires |q| == QK && forall i | 0 <= i < QK :: SixBit(q[i])
    ensures BlockCodes(PackBlock(q) + scales) == q
  {
    hide Codes, Pack;
    var raw, first, second := PackBlock(q) + scales, Pack(q[..128]), Pack(q[128..]);
    assert FirstHalf(raw) == first && SecondHalf(raw) == second;
    CodesPack(q[..128]);
    CodesPack(q[128..]);
    assert q == q[..128] + q[128..];
  }

  /** `dequantize_q6_k`: the super-blocks one after the other. */
  function Values(raw: seq<Byte>, n: nat, half: (Byte, Byte) -> real): (r: seq<real>)
    requires |raw| == n * BLOCK_BYTES
    ensures |r| == n * QK
  {
    if n == 0 then []
    else
      assert n * BLOCK_BYTES == (n - 1) * BLOCK_BYTES + BLOCK_BYTES;
      Values(raw[..(n - 1) * BLOCK_BYTES], n - 1, half) + BlockValues(raw[(n - 1) * BLOCK_BYTES..], half)
  }

  /** Value i of block k comes from that block's bytes alone. */
  lemma {:induction false} ValueAt(raw: seq<Byte>, n: nat, half: (Byte, Byte) -> real, k: nat, i: nat)
    requires |raw| == n * BLOCK_BYTES && k < n && i < QK
    ensures 0 <= k * BLOCK_BYTES <= (k + 1) * BLOCK_BYTES <= |raw| && k * QK + i < n * QK
    ensures Values(raw, n, half)[k * QK + i] == BlockValues(raw[k * BLOCK_BYTES..(k + 1) * BLOCK_BYTES], half)[i]
  {
    hide BlockValues;
    var last := (n - 1) * BLOCK_BYTES;
    var head, tail := Values(raw[..last], n - 1, half), BlockValues(raw[last..], half);
    assert Values(raw, n, half) == head + tail;
    if k == n - 1 {
      assert raw[last..] == raw[k * BLOCK_BYTES..(k + 1) * BLOCK_BYTES];
      assert (head + tail)[|head| + i] == tail[i];
    } else {
      ValueAt(raw[..last], n - 1, half, k, i);
      assert raw[..last][k * BLOCK_BYTES..(k + 1) * BLOCK_BYTES] == raw[k * BLOCK_BYTES..(k + 1) * BLOCK_BYTES];
      assert (head + tail)[k * QK + i] == head[k * QK + i];
    }
  }

  // ---- Q4_0 ----

  function LowNibble(b: Byte): Byte { b & 0xF }

  function HighNibble(b: Byte): Byte { b >> 4 }

  /** The nibbles of 16 bytes: all the low ones, then all the high ones. */
  function Q4Codes(packed: seq<Byte>): (r: seq<Byte>)
    requires |packed| == 16
    ensures |r| == 32
  {
    seq(16, k requires 0 <= k < 16 => LowNibble(packed[k])) + seq(16, k requires 0 <= k < 16 => HighNibble(packed[k]))
  }

  function Q4Pack(q: seq<Byte>): (r: seq<Byte>)
    requires |q| == 32
    ensures |r| == 16
  {
    seq(16, k requires 0 <= k < 16 => Nibbles(q[k], q[k + 16]))
  }

  lemma NibblePacked(a: Byte, c: Byte)
    requires a < 16 && c < 16
    ensures LowNibble(Nibbles(a, c)) == a && HighNibble(Nibbles(a, c)) == c
  {
  }

  lemma NibbleUnpacked(b: Byte)
    ensures Nibbles(LowNibble(b), HighNibble(b)) == b
  {
  }

  /** Sixteen bytes and thirty-two nibbles correspond one to one. */
  lemma Q4Bijection(packed: seq<Byte>, q: seq<Byte>)
    requires |packed| == 16 && |q| == 32 && forall i | 0 <= i < 32 :: q[i] < 16
    ensures Q4Pack(Q4Codes(packed)) == packed && Q4Codes(Q4Pack(q)) == q
  {
    hide Nibbles, LowNibble, HighNibble;
    forall k | 0 <= k < 16 ensures Q4Pack(Q4Codes(packed))[k] == packed[k] {
      NibbleUnpacked(packed[k]);
    }
    forall i | 0 <= i < 32 ensures Q4Codes(Q4Pack(q))[i] == q[i] {
      var k := i % 16;
      NibblePacked(q[k], q[k + 16]);
    }
  }

  function Q4Weight(d: real, q: Byte): real {
    (q as int as real - 8.0) * d
  }

  /** One block of `dequantize_q4_0`: two bytes of scale, sixteen of nibbles. */
  function Q4Values(raw: seq<Byte>, half: (Byte, Byte) -> real): (r: seq<real>)
    requires |raw| == 18
    ensures |r| == 32
  {
    var codes, d := Q4Codes(raw[2..]), half(raw[0], raw[1]);
    seq(32, i requires 0 <= i < 32 => Q4Weight(d, codes[i]))
  }

  /** Element i is the scale times a nibble less 8: byte i's low one, then byte i - 16's high one. */
  lemma Q4ValueAt(raw: seq<Byte>, half: (Byte, Byte) -> real, i: nat)
    requires |raw| == 18 && i < 32
    ensures Q4Values(raw, half)[i] ==
              Q4Weight(half(raw[0], raw[1]), if i < 16 then LowNibble(raw[2 + i]) else HighNibble(raw[i - 14]))
  {
    hide Q4Weight, LowNibble, HighNibble;
    assert Q4Codes(raw[2..])[i] == if i < 16 then LowNibble(raw[2 + i]) else HighNibble(raw[i - 14]);
  }
}
