/** Bytes as the drivers and the server lay them out in memory: the byte and
    16-bit types of the image buffers, and the little-endian order in which
    an `int`, a `uint32_t` or a `uint16_t` is written byte by byte (the hub
    runs on little-endian machines). */
module Bytes {
  import opened Devices

  /** A `uint8_t`. */
  newtype uint8 = n: int | 0 <= n < 0x100

  /** A `uint16_t`. */
  newtype uint16 = n: int | 0 <= n < 0x1_0000

  /** The 16-bit value of a low and a high byte. */
  function Word(lo: uint8, hi: uint8): (w: uint16)
    ensures w as int % 0x100 == lo as int && w as int / 0x100 == hi as int
  {
    (lo as int + 0x100 * hi as int) as uint16
  }

  /** The two bytes of a `uint16_t`, low byte first. */
  function Le16(w: uint16): (b: seq<uint8>)
    ensures |b| == 2
    ensures Word(b[0], b[1]) == w
  {
    [(w as int % 0x100) as uint8, (w as int / 0x100) as uint8]
  }

  /** The four bytes of a `uint32_t`, low byte first. */
  function Le32(x: uint32): (b: seq<uint8>)
    ensures |b| == 4
  {
    var n := x as int;
    [(n % 0x100) as uint8, (n / 0x100 % 0x100) as uint8,
     (n / 0x1_0000 % 0x100) as uint8, (n / 0x100_0000) as uint8]
  }

  /** The `uint32_t` stored in the four bytes at `i`, low byte first. */
  function U32At(b: seq<uint8>, i: nat): (x: uint32)
    requires i + 4 <= |b|
  {
    (b[i] as int + 0x100 * b[i + 1] as int + 0x1_0000 * b[i + 2] as int
      + 0x100_0000 * b[i + 3] as int) as uint32
  }

  /** Four bytes written from a value read back as that value. */
  lemma U32AtLe32(x: uint32)
    ensures U32At(Le32(x), 0) == x
  {
    var n := x as int;
    var q1, q2, q3 := n / 0x100, n / 0x1_0000, n / 0x100_0000;
    ShiftTwice(n);
    assert n == n % 0x100 + 0x100 * q1;
    assert q1 == q1 % 0x100 + 0x100 * q2;
    assert q2 == q2 % 0x100 + 0x100 * q3;
    var b := Le32(x);
    assert b[0] as int == n % 0x100 && b[1] as int == q1 % 0x100;
    assert b[2] as int == q2 % 0x100 && b[3] as int == q3;
  }

  /** Dropping a byte twice drops two bytes. */
  lemma ShiftTwice(n: nat)
    ensures n / 0x100 / 0x100 == n / 0x1_0000
    ensures n / 0x1_0000 / 0x100 == n / 0x100_0000
  {
  }

  /** `int` fields are written as their two's complement `uint32_t`. */
  function LeInt(v: int): (b: seq<uint8>)
    ensures |b| == 4
    ensures -0x8000_0000 <= v < 0x8000_0000 ==> Signed32(U32At(b, 0)) == v
  {
    var b := Le32(Wrap32(v));
    U32AtLe32(Wrap32(v));
    b
  }

  /** The `int` a `uint32_t` holds when read as two's complement. */
  function Signed32(x: uint32): int
  {
    if x < 0x8000_0000 then x as int else x as int - 0x1_0000_0000
  }

  /** The bytes of a buffer of `uint16_t`, in order, each low byte first. */
  function LeWords(ws: seq<uint16>): (b: seq<uint8>)
    ensures |b| == 2 * |ws|
    decreases |ws|
  {
    if ws == [] then [] else Le16(ws[0]) + LeWords(ws[1..])
  }

  /** The bytes of word `k` of such a buffer. */
  lemma {:induction false} LeWordsAt(ws: seq<uint16>, k: nat)
    requires k < |ws|
    ensures LeWords(ws)[2 * k] == Le16(ws[k])[0] && LeWords(ws)[2 * k + 1] == Le16(ws[k])[1]
    decreases k
  {
    if k > 0 {
      LeWordsAt(ws[1..], k - 1);
    }
  }

  /** A byte buffer reinterpreted as `uint16_t`: every whole pair of bytes
      is one word, low byte first; an odd last byte is not part of any. */
  function Words16(data: seq<uint8>): (ws: seq<uint16>)
    ensures |ws| == |data| / 2
    ensures forall k :: 0 <= k < |ws| ==> Le16(ws[k]) == data[2 * k..2 * k + 2]
  {
    seq(|data| / 2, k requires 0 <= k < |data| / 2 => Word(data[2 * k], data[2 * k + 1]))
  }

  /** Words written out byte by byte are read back as the same words. */
  lemma WordsOfLeWords(ws: seq<uint16>)
    ensures Words16(LeWords(ws)) == ws
  {
    var b := LeWords(ws);
    assert |b| / 2 == |ws|;
    forall k | 0 <= k < |ws|
      ensures Words16(b)[k] == ws[k]
    {
      LeWordsAt(ws, k);
      WordAt(b, k);
    }
  }

  /** Word `k` of a byte buffer is made of bytes `2k` and `2k + 1`. */
  lemma WordAt(data: seq<uint8>, k: nat)
    requires k < |data| / 2
    ensures 2 * k + 1 < |data| && Words16(data)[k] == Word(data[2 * k], data[2 * k + 1])
  {
  }
}
