/**
 * Fixed-width unsigned integers and their big-endian byte encodings, as
 * written by binrw's `write_be` for `u8`, `u32`, `i32` and `f64`.
 */
module Wire {

  type byte = x: int | 0 <= x < 0x100
  type u32 = x: int | 0 <= x < 0x1_0000_0000
  type u64 = x: int | 0 <= x < 0x1_0000_0000_0000_0000

  /** `x.write_be(..)` for `x: u32`: four bytes, most significant first. */
  function U32Be(x: u32): (r: seq<byte>)
    ensures |r| == 4
  {
    [x / 0x100_0000, (x / 0x1_0000) % 0x100, (x / 0x100) % 0x100, x % 0x100]
  }

  /** `x.write_be(..)` for a 64-bit pattern (`f64` bits, `u64`): the high word, then the low word. */
  function U64Be(x: u64): (r: seq<byte>)
    ensures |r| == 8
  {
    U32Be(x / 0x1_0000_0000) + U32Be(x % 0x1_0000_0000)
  }

  /** `x.write_be(..)` for `x: u8`. */
  function U8Be(x: byte): (r: seq<byte>)
    ensures |r| == 1
  {
    [x]
  }

  /** Decoding a 4-byte big-endian field. */
  function ReadU32Be(s: seq<byte>): (x: u32)
    requires |s| == 4
  {
    (s[0] as int) * 0x100_0000 + (s[1] as int) * 0x1_0000 + (s[2] as int) * 0x100 + s[3]
  }

  /** Decoding an 8-byte big-endian field. */
  function ReadU64Be(s: seq<byte>): (x: u64)
    requires |s| == 8
  {
    ReadU32Be(s[..4]) * 0x1_0000_0000 + ReadU32Be(s[4..])
  }

  /** Reading back a written `u32` gives the original value. */
  lemma U32RoundTrip(x: u32)
    ensures ReadU32Be(U32Be(x)) == x
  {
    var q1, q2, q3 := x / 0x100, x / 0x1_0000, x / 0x100_0000;
    assert x == q1 * 0x100 + x % 0x100;
    assert q1 == (q1 / 0x100) * 0x100 + q1 % 0x100;
    assert q1 / 0x100 == q2;
    assert q2 == (q2 / 0x100) * 0x100 + q2 % 0x100;
    assert q2 / 0x100 == q3;
    assert (x / 0x100) % 0x100 == q1 % 0x100;
  }

  /** Reading back a written 64-bit pattern gives the original value. */
  lemma U64RoundTrip(x: u64)
    ensures ReadU64Be(U64Be(x)) == x
  {
    var b := U64Be(x);
    assert b[..4] == U32Be(x / 0x1_0000_0000);
    assert b[4..] == U32Be(x % 0x1_0000_0000);
    U32RoundTrip(x / 0x1_0000_0000);
    U32RoundTrip(x % 0x1_0000_0000);
  }

  /** Different values have different encodings. */
  lemma U32BeInjective(x: u32, y: u32)
    requires U32Be(x) == U32Be(y)
    ensures x == y
  {
    U32RoundTrip(x);
    U32RoundTrip(y);
  }

  /**
   * The bit pattern Rust's `as` keeps when it narrows an integer to 32 bits
   * (`u64 as i32`, `usize as i32`): the low 32 bits, read as two's
   * complement.  The bytes `write_be` emits for that `i32` are those of the
   * low 32 bits, so the model keeps the unsigned pattern.
   */
  function Low32(x: nat): (r: u32)
    ensures x < 0x1_0000_0000 ==> r == x
  {
    x % 0x1_0000_0000
  }
}
