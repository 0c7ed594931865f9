/** The register file of the LR35902 as memory.rs describes it: eight 8-bit
  * registers (F holding the four flags), their big-endian 16-bit pairings,
  * and the stack pointer and program counter. */
module Registers {
  import opened Bits

  datatype Reg8 = A | F | B | C | D | E | H | L

  datatype Reg16 = AF | BC | DE | HL | SP | PC

  /** The flag register: Z (bit 7), N (bit 6), H (bit 5) and C (bit 4). */
  datatype FlagRegister = FlagRegister(zero: bool, subtract: bool, halfCarry: bool, carry: bool)

  /** All four flags clear (`from_bits_truncate(0)` / `0.into()`). */
  const NoFlags := FlagRegister(false, false, false, false)

  /** `u8::from(FlagRegister)`: each flag sets its own bit, the low nibble stays 0. */
  function FlagsToByte(f: FlagRegister): (v: bv8)
    ensures v & 0x0F == 0
    ensures (v & 0x80 != 0) == f.zero && (v & 0x40 != 0) == f.subtract
    ensures (v & 0x20 != 0) == f.halfCarry && (v & 0x10 != 0) == f.carry
  {
    (if f.zero then 0x80 else 0) | (if f.subtract then 0x40 else 0)
      | (if f.halfCarry then 0x20 else 0) | (if f.carry then 0x10 else 0)
  }

  /** `FlagRegister::from(u8)`: reads bits 7..4 and ignores the low nibble. */
  function FlagsFromByte(value: bv8): (f: FlagRegister)
    ensures FlagsToByte(f) == value & 0xF0
  {
    FlagRegister(value & 0x80 != 0, value & 0x40 != 0, value & 0x20 != 0, value & 0x10 != 0)
  }

  lemma FlagsRoundTrip(f: FlagRegister)
    ensures FlagsFromByte(FlagsToByte(f)) == f
  {
  }

  /** The high register of a pair (BC -> B, ...); SP and PC have none. */
  function HighHalf(r: Reg16): Option<Reg8>
  {
    match r
    case AF => Some(A)
    case BC => Some(B)
    case DE => Some(D)
    case HL => Some(H)
    case _ => None
  }

  /** The low register of a pair (BC -> C, ...). */
  function LowHalf(r: Reg16): Option<Reg8>
  {
    match r
    case AF => Some(F)
    case BC => Some(C)
    case DE => Some(E)
    case HL => Some(L)
    case _ => None
  }

  /** A snapshot of every CPU register. */
  datatype RegisterFile = RegisterFile(
    a: bv8, f: FlagRegister, b: bv8, c: bv8, d: bv8, e: bv8, h: bv8, l: bv8,
    sp: u16, pc: u16)
  {
    /** `read_reg`: F reads back as its flag byte. */
    function Get(r: Reg8): (v: bv8)
      ensures r == F ==> v & 0x0F == 0
    {
      match r
      case A => a
      case F => FlagsToByte(f)
      case B => b
      case C => c
      case D => d
      case E => e
      case H => h
      case L => l
    }

    /** `write_reg`: writing F goes through `FlagRegister::from`. */
    function Set(r: Reg8, v: bv8): (s: RegisterFile)
      ensures s.Get(r) == (if r == F then v & 0xF0 else v)
      ensures forall q: Reg8 :: q != r ==> s.Get(q) == Get(q)
      ensures s.sp == sp && s.pc == pc
    {
      match r
      case A => this.(a := v)
      case F => this.(f := FlagsFromByte(v))
      case B => this.(b := v)
      case C => this.(c := v)
      case D => this.(d := v)
      case E => this.(e := v)
      case H => this.(h := v)
      case L => this.(l := v)
    }

    /** `read_reg_16`: pairs are big-endian, high register first. */
    function Get16(r: Reg16): (v: u16)
      ensures HighHalf(r).Some? && LowHalf(r).Some? ==>
        v == Join(Get(HighHalf(r).value), Get(LowHalf(r).value))
      ensures r == SP ==> v == sp
      ensures r == PC ==> v == pc
    {
      match r
      case AF => Join(a, FlagsToByte(f))
      case BC => Join(b, c)
      case DE => Join(d, e)
      case HL => Join(h, l)
      case SP => sp
      case PC => pc
    }

    /** `write_reg_16`: the high byte goes to the high register, the low byte to the low one. */
    function Set16(r: Reg16, v: u16): (s: RegisterFile)
      ensures HighHalf(r).Some? ==> s.Get(HighHalf(r).value) == Hi(v)
      ensures LowHalf(r).Some? ==> s.Get(LowHalf(r).value) == if r == AF then Lo(v) & 0xF0 else Lo(v)
      ensures s.sp == (if r == SP then v else sp)
      ensures s.pc == (if r == PC then v else pc)
    {
      match r
      case AF => this.(a := Hi(v), f := FlagsFromByte(Lo(v)))
      case BC => this.(b := Hi(v), c := Lo(v))
      case DE => this.(d := Hi(v), e := Lo(v))
      case HL => this.(h := Hi(v), l := Lo(v))
      case SP => this.(sp := v)
      case PC => this.(pc := v)
    }
  }

  /** Clearing the low nibble of a byte subtracts its value mod 16. */
  lemma HighNibble(x: bv8)
    ensures (x & 0xF0) as int == x as int - x as int % 0x10
  {
  }

  /** The word rebuilt from `v` with its low nibble cleared is `v & 0xFFF0`. */
  lemma MaskedWord(v: u16)
    ensures Join(Hi(v), Lo(v) & 0xF0) as int == v as int - v as int % 0x10
  {
    var lo := Lo(v);
    HighNibble(lo);
    assert (lo & 0xF0) as int == lo as int - lo as int % 0x10;
    assert lo as int % 0x10 == v as int % 0x10;
  }

  /** Writing a pair and reading it back gives the word, except that AF drops the
    * flag byte's low nibble (`v & 0xFFF0`). */
  lemma Set16Get16(s: RegisterFile, r: Reg16, v: u16)
    ensures s.Set16(r, v).Get16(r) as int == if r == AF then v as int - v as int % 0x10 else v as int
  {
    var t := s.Set16(r, v);
    if r == AF {
      assert t.Get16(AF) == Join(Hi(v), Lo(v) & 0xF0);
      MaskedWord(v);
    } else {
      JoinSplit(v);
    }
  }

  /** Writing a pair changes no 8-bit register outside it. */
  lemma Set16Frame(s: RegisterFile, r: Reg16, v: u16, q: Reg8)
    requires Some(q) != HighHalf(r) && Some(q) != LowHalf(r)
    ensures s.Set16(r, v).Get(q) == s.Get(q)
  {
  }

  /** Writing one pair leaves every other pair, SP and PC as they were. */
  lemma Set16Others(s: RegisterFile, r: Reg16, v: u16, q: Reg16)
    requires q != r
    ensures s.Set16(r, v).Get16(q) == s.Get16(q)
  {
  }
}
