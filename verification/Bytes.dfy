/** Bytes, little-endian words and sequences of chunks, shared by every other module. */
module Bytes {
  datatype Option<+T> = None | Some(value: T)

  const TWO_24 := 0x100_0000
  const TWO_32 := 0x1_0000_0000
  const TWO_64 := 0x1_0000_0000_0000_0000

  type byte = x: int | 0 <= x < 256

  type u32 = x: int | 0 <= x < TWO_32

  type u64 = x: int | 0 <= x < TWO_64

  type Bytes = seq<byte>

  lemma Assoc<T>(a: seq<T>, b: seq<T>, c: seq<T>)
    ensures (a + b) + c == a + (b + c)
  {
  }

  function Zeros(n: nat): Bytes {
    seq(n, _ => 0)
  }

  /** The chunks of a queue, end to end. */
  function Concat(chunks: seq<Bytes>): Bytes {
    if chunks == [] then [] else chunks[0] + Concat(chunks[1..])
  }

  lemma {:induction false} ConcatAppend(a: seq<Bytes>, b: seq<Bytes>)
    ensures Concat(a + b) == Concat(a) + Concat(b)
  {
    if a == [] {
      assert a + b == b;
    } else {
      ConcatAppend(a[1..], b);
      assert (a + b)[1..] == a[1..] + b;
      assert Concat(a + b) == a[0] + Concat(a[1..] + b);
    }
  }

  lemma ConcatSnoc(a: seq<Bytes>, last: Bytes)
    ensures Concat(a + [last]) == Concat(a) + last
  {
    ConcatAppend(a, [last]);
    assert Concat([last]) == last + Concat([last][1..]);
  }

  /** The number that bytes make up, the lowest first. */
  function LeValue(s: Bytes): nat {
    if s == [] then 0 else s[0] as int + 256 * LeValue(s[1..])
  }

  function PutU32(x: u32): (s: Bytes)
    ensures |s| == 4
  {
    [x % 256, x / 256 % 256, x / 0x1_0000 % 256, x / 0x100_0000]
  }

  lemma PutU32Makes(x: u32)
    ensures LeValue(PutU32(x)) == x
  {
    var s := PutU32(x);
    var a, b := x / 256, x / 0x1_0000;
    assert b == a / 256 && x / 0x100_0000 == b / 256;
    assert LeValue(s[3..]) == s[3] && LeValue(s[2..]) == s[2] + 256 * LeValue(s[2..][1..]);
    assert s[2..][1..] == s[3..] && s[1..][1..] == s[2..];
    assert LeValue(s[1..]) == s[1] + 256 * LeValue(s[2..]) && LeValue(s) == s[0] + 256 * LeValue(s[1..]);
  }

  function GetU32(s: Bytes): u32
    requires |s| == 4
  {
    var (b0: int, b1: int, b2: int, b3: int) := (s[0], s[1], s[2], s[3]);
    b0 + 256 * b1 + 0x1_0000 * b2 + 0x100_0000 * b3
  }

  lemma GetPutU32(x: u32)
    ensures GetU32(PutU32(x)) == x
  {
    var a, b := x / 256, x / 0x1_0000;
    assert b == a / 256 && x / 0x100_0000 == b / 256;
  }

  /** Byte `i` of the little-endian form of `x`. */
  function LeByte(x: u64, i: nat): byte
    decreases i
  {
    if i == 0 then x % 256 else LeByte(x / 256, i - 1)
  }

  function Pow256(n: nat): nat {
    if n == 0 then 1 else 256 * Pow256(n - 1)
  }

  /** The bytes of a number make it up. */
  lemma {:induction false} LeBytesMake(x: u64, n: nat)
    requires x < Pow256(n)
    ensures LeValue(seq(n, i requires 0 <= i < n => LeByte(x, i))) == x
  {
    if n > 0 {
      var s := seq(n, i requires 0 <= i < n => LeByte(x, i));
      LeBytesMake(x / 256, n - 1);
      assert s[1..] == seq(n - 1, i requires 0 <= i < n - 1 => LeByte(x / 256, i));
    }
  }

  lemma LeBytesMakeWord(x: u64)
    ensures LeValue(seq(8, i requires 0 <= i < 8 => LeByte(x, i))) == x
  {
    assert Pow256(4) == TWO_32 && Pow256(8) == TWO_32 * Pow256(4);
    LeBytesMake(x, 8);
  }

  function Pow2(n: nat): nat {
    if n == 0 then 1 else 2 * Pow2(n - 1)
  }

  /** The lowest `n` bits of both, or-ed. */
  function OrBits(a: nat, b: nat, n: nat): (r: nat)
    ensures r < Pow2(n)
  {
    if n == 0 then 0 else (if a % 2 == 1 || b % 2 == 1 then 1 else 0) + 2 * OrBits(a / 2, b / 2, n - 1)
  }

  function OrByte(a: byte, b: byte): byte {
    assert Pow2(4) == 16 && Pow2(8) == 256;
    OrBits(a, b, 8)
  }

  predicate HasBit(x: nat, i: nat) {
    if i == 0 then x % 2 == 1 else HasBit(x / 2, i - 1)
  }

  lemma LowestBit(bit: nat, rest: nat)
    requires bit < 2
    ensures (bit + 2 * rest) % 2 == bit && (bit + 2 * rest) / 2 == rest
  {
  }

  lemma {:induction false} OrBitsHas(a: nat, b: nat, n: nat, i: nat)
    requires i < n
    ensures HasBit(OrBits(a, b, n), i) <==> HasBit(a, i) || HasBit(b, i)
  {
    LowestBit(if a % 2 == 1 || b % 2 == 1 then 1 else 0, OrBits(a / 2, b / 2, n - 1));
    if i > 0 {
      OrBitsHas(a / 2, b / 2, n - 1, i - 1);
    }
  }

  /** Unsigned 64-bit increment: wraps, as release builds do. */
  function Inc64(x: u64): (y: u64)
    ensures y == if x == TWO_64 - 1 then 0 else x + 1
  {
    (x + 1) % TWO_64
  }
}
