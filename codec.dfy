/** Byte-level wire format of the Brusa DMC5 CAN protocol: every multi-byte
    field is big-endian, signed fields are 16-bit two's complement, and the
    32-bit error word of the errors frame is spread over two byte pairs. */
module Dmc5Codec {

  /** A CAN payload: always exactly eight data bytes. */
  type Payload = s: seq<bv8> | |s| == 8 witness [0, 0, 0, 0, 0, 0, 0, 0]

  /** `(w & 0xFF00) >> 8`: the byte of a bit word sent first. */
  function Hi(w: bv16): bv8 {
    ((w & 0xFF00) >> 8) as bv8
  }

  /** `w & 0x00FF`: the byte of a bit word sent second. */
  function Lo(w: bv16): bv8 {
    (w & 0x00FF) as bv8
  }

  /** `lo | (hi << 8)`: the bit word a receiver assembles from a byte pair. */
  function BE16(hi: bv8, lo: bv8): (w: bv16)
    ensures Hi(w) == hi && Lo(w) == lo
  {
    (lo as bv16) | ((hi as bv16) << 8)
  }

  /** Splitting a bit word into its two bytes and joining them again is the identity. */
  lemma SplitJoin(w: bv16)
    ensures BE16(Hi(w), Lo(w)) == w
  {
  }

  /** The number a bit word stands for, unsigned: its first byte counts 256 times. */
  lemma {:induction false} WordValue(w: bv16)
    ensures w as int == Hi(w) as int * 0x100 + Lo(w) as int
  {
    assert Hi(w) == (w >> 8) as bv8;
    assert w as int == ((w >> 8) as bv8) as int * 0x100 + ((w & 0xFF) as bv8) as int;
  }

  /** Ten times a bit word, wrapping at 16 bits, computed as `(w << 3) + (w << 1)`. */
  function Tenfold(w: bv16): bv16 {
    (w << 3) + (w << 1)
  }

  /** `Tenfold` is the 16-bit product by ten. */
  lemma TenfoldIsProduct(w: bv16)
    ensures Tenfold(w) == w * 10
  {
  }

  /** A received bit word stored in an `int16_t`: two's complement. */
  function Int16(w: bv16): (x: int)
    ensures -0x8000 <= x < 0x8000
    ensures (x < 0) == (w >= 0x8000)
  {
    if w < 0x8000 then w as int else w as int - 0x1_0000
  }

  /** The 16-bit pattern of an `int16_t` value, read as unsigned. */
  function Uint16(x: int): (u: int)
    requires -0x8000 <= x < 0x8000
    ensures 0 <= u < 0x1_0000
    ensures u % 0x1_0000 == x % 0x1_0000
  {
    if x < 0 then x + 0x1_0000 else x
  }

  lemma BE16AsInt(w: bv16)
    ensures (w as int) as bv16 == w
  {
  }

  /** `Int16` and `Uint16` are inverse: the word carrying an `int16_t` value
      is read back as that value, and every word is the pattern of what it is read as. */
  lemma {:induction false} Int16Bijection(x: int, w: bv16)
    requires -0x8000 <= x < 0x8000
    ensures w as int == Uint16(x) ==> Int16(w) == x
    ensures Uint16(Int16(w)) == w as int
  {
  }

  /** Distinct words are read as distinct `int16_t` values. */
  lemma {:induction false} Int16Injective(w1: bv16, w2: bv16)
    requires Int16(w1) == Int16(w2)
    ensures w1 == w2
  {
    Int16Bijection(0, w1);
    Int16Bijection(0, w2);
    BE16AsInt(w1);
    BE16AsInt(w2);
  }

  /** Errors frame: `d[1] | d[0] << 8 | d[5] << 16 | d[4] << 24`. */
  function Err32(d: Payload): (e: bv32)
    ensures (e & 0xFF) as bv8 == d[1]
    ensures ((e >> 8) & 0xFF) as bv8 == d[0]
    ensures ((e >> 16) & 0xFF) as bv8 == d[5]
    ensures (e >> 24) as bv8 == d[4]
  {
    (d[1] as bv32) | ((d[0] as bv32) << 8) | ((d[5] as bv32) << 16) | ((d[4] as bv32) << 24)
  }

  /** The payload a DMC5 sends for a given error word and warning word
      (bytes 2 and 3 carry nothing the controller reads, here zero). */
  function ErrorsPayload(e: bv32, warn: bv16): Payload {
    [((e >> 8) & 0xFF) as bv8, (e & 0xFF) as bv8, 0, 0,
     (e >> 24) as bv8, ((e >> 16) & 0xFF) as bv8, Hi(warn), Lo(warn)]
  }

  /** Decoding the error word undoes the device's byte layout. */
  lemma {:induction false} ErrorsRoundTrip(e: bv32, warn: bv16)
    ensures Err32(ErrorsPayload(e, warn)) == e
    ensures BE16(ErrorsPayload(e, warn)[6], ErrorsPayload(e, warn)[7]) == warn
  {
    SplitJoin(warn);
  }

  /** Conversely, every byte the controller reads is recovered from the decoded words. */
  lemma {:induction false} ErrorsBytesRecovered(d: Payload)
    ensures var p := ErrorsPayload(Err32(d), BE16(d[6], d[7]));
      p[0] == d[0] && p[1] == d[1] && p[4] == d[4] && p[5] == d[5] && p[6] == d[6] && p[7] == d[7]
  {
  }
}
