/** The bytes of 32-bit words, least significant first. */
module Bytes {
  type byte = x: int | 0 <= x < 256

  const WORD := 0x1_0000_0000

  /** A uint32_t in memory. */
  function Word(n: nat): (r: seq<byte>)
    requires n < WORD
    ensures |r| == 4
  {
    [n % 256, n / 256 % 256, n / 65536 % 256, n / 16777216]
  }

  function Number(b: seq<byte>): (n: nat)
    requires |b| == 4
    ensures n < WORD
  {
    var b0: nat, b1: nat, b2: nat, b3: nat := b[0], b[1], b[2], b[3];
    b0 + 256 * b1 + 65536 * b2 + 16777216 * b3
  }

  lemma NumberOfWord(n: nat)
    requires n < WORD
    ensures Number(Word(n)) == n
  {
    var a := n / 256;
    var b := n / 65536;
    assert b == a / 256;
    assert n / 16777216 == b / 256;
  }

  lemma Split(low: nat, high: nat, n: nat)
    requires low < 256 && n == low + 256 * high
    ensures n % 256 == low && n / 256 == high
  {
  }

  lemma WordOfNumber(b: seq<byte>)
    requires |b| == 4
    ensures Word(Number(b)) == b
  {
    var n := Number(b);
    var b0: nat, b1: nat, b2: nat, b3: nat := b[0], b[1], b[2], b[3];
    Split(b0, b1 + 256 * (b2 + 256 * b3), n);
    Split(b1, b2 + 256 * b3, n / 256);
    Split(b2, b3, n / 256 / 256);
    assert n / 65536 == n / 256 / 256 && n / 16777216 == n / 256 / 256 / 256;
  }

  /** The same four bytes read as an int32_t. */
  function Signed(n: nat): int
    requires n < WORD
  {
    if n < 0x8000_0000 then n else n - WORD
  }

  /** It is the one number in the range of an int32_t that is congruent to n modulo 2 to the 32. */
  lemma SignedIs(n: nat, x: int)
    requires n < WORD
    ensures x == Signed(n) <==> -0x8000_0000 <= x < 0x8000_0000 && (x - n) % WORD == 0
  {
  }

  /** The least significant byte is the first: it is the remainder by 256, and the others are the
      quotient. */
  lemma LeastFirst(b: seq<byte>)
    requires |b| == 4
    ensures Number(b) % 256 == b[0]
    ensures Number(b) / 256 == Number(b[1..] + [0])
  {
    var b0: nat, b1: nat, b2: nat, b3: nat := b[0], b[1], b[2], b[3];
    Split(b0, b1 + 256 * (b2 + 256 * b3), Number(b));
  }

  /** A number below 256 fills the first byte only. */
  lemma WordOfSmall(n: nat)
    requires n < 256
    ensures Word(n) == [n, 0, 0, 0]
  {
  }
}
