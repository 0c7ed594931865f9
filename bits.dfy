/** Byte/word helpers shared by the CPU-side modules. Bytes are `bv8`; 16-bit
  * values (addresses, pc, sp, register pairs) are the integer type `u16`, and
  * Rust's `to_be_bytes`, `from_le_bytes`, `wrapping_add` and
  * `wrapping_add_signed` on `u16` are written out arithmetically. */
module Bits {

  datatype Option<T> = None | Some(value: T)

  newtype u16 = x: int | 0 <= x < 0x10000

  /** Rust's `u8` where a byte is counted or compared with rather than masked. */
  newtype u8 = x: int | 0 <= x < 0x100

  /** `x` reduced modulo 2^16: the result of a wrapping `u16` operation. */
  function Wrap16(x: int): u16
  {
    (x % 0x10000) as u16
  }

  /** Two wrapping steps are one wrapping step by their sum. */
  lemma WrapTwice(x: int, y: int)
    ensures Wrap16(Wrap16(x) as int + y) == Wrap16(x + y)
  {
    var q := x / 0x10000;
    assert x == 0x10000 * q + Wrap16(x) as int;
  }

  /** The byte holding a number below 16, by table. */
  function Nibble(n: int): (b: bv8)
    requires 0 <= n < 0x10
    ensures b as int == n
  {
    if n < 8 then
      if n < 4 then (if n == 0 then 0x0 else if n == 1 then 0x1 else if n == 2 then 0x2 else 0x3)
      else (if n == 4 then 0x4 else if n == 5 then 0x5 else if n == 6 then 0x6 else 0x7)
    else if n < 12 then (if n == 8 then 0x8 else if n == 9 then 0x9 else if n == 10 then 0xA else 0xB)
    else (if n == 12 then 0xC else if n == 13 then 0xD else if n == 14 then 0xE else 0xF)
  }

  /** Two nibbles side by side are the number 16 * high + low. */
  lemma JoinNibbles(high: bv8, low: bv8)
    requires high < 0x10 && low < 0x10
    ensures ((high << 4) | low) as int == high as int * 0x10 + low as int
  {
  }

  /** The byte holding a number below 256, built from its two nibbles. */
  function ToByte(n: int): (b: bv8)
    requires 0 <= n < 0x100
    ensures b as int == n
  {
    var high, low := Nibble(n / 0x10), Nibble(n % 0x10);
    JoinNibbles(high, low);
    (high << 4) | low
  }

  /** Converting a number below 256 to a byte keeps its value. */
  lemma ByteConversion(n: int)
    requires 0 <= n < 0x100
    ensures (n as bv8) as int == n
  {
    var b := ToByte(n);
    assert n == b as int;
  }

  /** `value.to_be_bytes()[0]`: the high byte of a word. */
  function Hi(w: u16): (b: bv8)
    ensures b as int == w as int / 0x100
  {
    ByteConversion(w as int / 0x100);
    (w / 0x100) as bv8
  }

  /** `value.to_be_bytes()[1]`: the low byte of a word. */
  function Lo(w: u16): (b: bv8)
    ensures b as int == w as int % 0x100
  {
    ByteConversion(w as int % 0x100);
    (w % 0x100) as bv8
  }

  /** `u16::from_be_bytes([hi, lo])`, equivalently `u16::from_le_bytes([lo, hi])`. */
  function Join(hi: bv8, lo: bv8): (w: u16)
    ensures w as int == hi as int * 0x100 + lo as int
  {
    (hi as int * 0x100 + lo as int) as u16
  }

  /** Splitting a joined word gives back its two bytes. */
  lemma SplitJoin(hi: bv8, lo: bv8)
    ensures Hi(Join(hi, lo)) == hi && Lo(Join(hi, lo)) == lo
  {
    var w := Join(hi, lo);
    assert w as int / 0x100 == hi as int;
    assert w as int % 0x100 == lo as int;
  }

  /** Joining the two bytes of a word gives back the word. */
  lemma JoinSplit(w: u16)
    ensures Join(Hi(w), Lo(w)) == w
  {
  }

  /** Two's-complement value of a byte (`b as i8`). */
  function Signed8(b: bv8): (v: int)
    ensures -0x80 <= v < 0x80
    ensures v % 0x100 == b as int
  {
    if b < 0x80 then b as int else b as int - 0x100
  }

  /** `w.wrapping_add_signed((b as i8) as i16)`. */
  function AddSigned(w: u16, b: bv8): u16
  {
    Wrap16(w as int + Signed8(b))
  }

  /** Bit `k` of the byte is set. */
  predicate BitSet(x: bv8, k: nat)
    requires k < 8
  {
    (x >> k) & 1 == 1
  }
}
