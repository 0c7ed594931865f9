/** memory.rs: the register fields and the six region arrays of `Memory`,
  * with region-mapped byte access, operand fetch and the stack. */
module Memory {
  import opened Bits
  import opened Registers

  /** The addresses memory.rs backs with an array; every other address hits `todo!()`. */
  predicate Mapped(address: u16)
  {
    address < 0xA000 || (0xC000 <= address < 0xE000) || (0xFE00 <= address < 0xFEA0)
      || (0xFF80 <= address < 0xFFFF)
  }

  class Memory {
    var a: bv8
    var f: FlagRegister
    var b: bv8
    var c: bv8
    var d: bv8
    var e: bv8
    var h: bv8
    var l: bv8
    var sp: u16
    var pc: u16

    const rom: array<bv8>
    const bank: array<bv8>
    const vram: array<bv8>
    const wram: array<bv8>
    const oam: array<bv8>
    const hram: array<bv8>

    /** The region arrays have their fixed sizes and are distinct objects. */
    ghost predicate Valid()
    {
      && rom.Length == 0x4000 && bank.Length == 0x4000
      && vram.Length == 0x2000 && wram.Length == 0x2000
      && oam.Length == 0xA0 && hram.Length == 0x7F
      && rom != bank && rom != vram && rom != wram && rom != oam && rom != hram
      && bank != vram && bank != wram && bank != oam && bank != hram
      && vram != wram && vram != oam && vram != hram
      && wram != oam && wram != hram
      && oam != hram
    }

    /** All ten registers as one value. */
    function Regs(): RegisterFile
      reads this
    {
      RegisterFile(a, f, b, c, d, e, h, l, sp, pc)
    }

    /** The array and offset behind a mapped address, one case per range of
      * `read_mem`/`write_mem`. */
    function Locate(address: u16): (r: (array<bv8>, int))
      requires Valid() && Mapped(address)
      ensures 0 <= r.1 < r.0.Length
      ensures r.0 in {rom, bank, vram, wram, oam, hram}
    {
      if address < 0x4000 then (rom, address as int)
      else if address < 0x8000 then (bank, address as int - 0x4000)
      else if address < 0xA000 then (vram, address as int - 0x8000)
      else if address < 0xE000 then (wram, address as int - 0xC000)
      else if address < 0xFEA0 then (oam, address as int - 0xFE00)
      else (hram, address as int - 0xFF80)
    }

    /** Distinct mapped addresses live in distinct array cells. */
    lemma LocateInjective(x: u16, y: u16)
      requires Valid() && Mapped(x) && Mapped(y) && x != y
      ensures Locate(x) != Locate(y)
    {
    }

    /** `read_mem`: the byte behind a mapped address, each range read from its
      * own region at the address minus the range's start. */
    function ReadMem(address: u16): (v: bv8)
      requires Valid() && Mapped(address)
      reads this, rom, bank, vram, wram, oam, hram
      ensures address < 0x4000 ==> v == rom[address]
      ensures 0x4000 <= address < 0x8000 ==> v == bank[address as int - 0x4000]
      ensures 0x8000 <= address < 0xA000 ==> v == vram[address as int - 0x8000]
      ensures 0xC000 <= address < 0xE000 ==> v == wram[address as int - 0xC000]
      ensures 0xFE00 <= address < 0xFEA0 ==> v == oam[address as int - 0xFE00]
      ensures 0xFF80 <= address ==> v == hram[address as int - 0xFF80]
    {
      Locate(address).0[Locate(address).1]
    }

    /** `write_mem`: the byte behind `address` becomes `value`; every other
      * mapped address keeps its byte. */
    method WriteMem(address: u16, value: bv8)
      requires Valid() && Mapped(address)
      modifies rom, bank, vram, wram, oam, hram
      ensures ReadMem(address) == value
      ensures forall x: u16 | Mapped(x) && x != address :: ReadMem(x) == old(ReadMem(x))
    {
      var (arr, offset) := Locate(address);
      arr[offset] := value;
      forall x: u16 | Mapped(x) && x != address
        ensures ReadMem(x) == old(ReadMem(x))
      {
        LocateInjective(address, x);
      }
    }

    /** `Memory::new`: registers at their post-boot values, the first two ROM banks
      * loaded from the cartridge image and the RAM regions zeroed. */
    constructor (romFile: seq<bv8>)
      requires |romFile| >= 0x8000
      ensures Valid()
      ensures Regs() == RegisterFile(0, NoFlags, 0, 0, 0, 0, 0, 0, 0xFFFE, 0x0100)
      ensures rom[..] == romFile[..0x4000] && bank[..] == romFile[0x4000..0x8000]
      ensures forall i | 0 <= i < 0x2000 :: vram[i] == 0 && wram[i] == 0
      ensures forall i | 0 <= i < 0xA0 :: oam[i] == 0
      ensures forall i | 0 <= i < 0x7F :: hram[i] == 0
      ensures fresh(rom) && fresh(bank) && fresh(vram) && fresh(wram) && fresh(oam) && fresh(hram)
    {
      a, f, b, c, d, e, h, l := 0, NoFlags, 0, 0, 0, 0, 0, 0;
      sp, pc := 0xFFFE, 0x0100;
      rom := new bv8[0x4000](i requires 0 <= i < 0x4000 => romFile[i]);
      bank := new bv8[0x4000](i requires 0 <= i < 0x4000 => romFile[0x4000 + i]);
      vram := new bv8[0x2000](_ => 0);
      wram := new bv8[0x2000](_ => 0);
      oam := new bv8[0xA0](_ => 0);
      hram := new bv8[0x7F](_ => 0);
    }

    /** `read_mem_16`: little-endian, the byte at `address` is the low one. */
    function ReadMem16(address: u16): (v: u16)
      requires Valid() && Mapped(address) && Mapped(Wrap16(address as int + 1))
      reads this, rom, bank, vram, wram, oam, hram
      ensures v as int == ReadMem(Wrap16(address as int + 1)) as int * 0x100 + ReadMem(address) as int
    {
      Join(ReadMem(Wrap16(address as int + 1)), ReadMem(address))
    }

    /** `write_reg`: one register changes, as `RegisterFile.Set` says. */
    method WriteReg(register: Reg8, value: bv8)
      modifies this
      ensures Regs() == old(Regs()).Set(register, value)
    {
      match register
      case A => a := value;
      case F => f := FlagsFromByte(value);
      case B => b := value;
      case C => c := value;
      case D => d := value;
      case E => e := value;
      case H => h := value;
      case L => l := value;
    }

    /** `write_reg_16`: the pair (or SP/PC) changes, as `RegisterFile.Set16` says. */
    method WriteReg16(register: Reg16, value: u16)
      modifies this
      ensures Regs() == old(Regs()).Set16(register, value)
    {
      var bytes := (Hi(value), Lo(value));
      match register
      case AF =>
        a := bytes.0;
        f := FlagsFromByte(bytes.1);
      case BC =>
        b := bytes.0;
        c := bytes.1;
      case DE =>
        d := bytes.0;
        e := bytes.1;
      case HL =>
        h := bytes.0;
        l := bytes.1;
      case SP => sp := value;
      case PC => pc := value;
    }

    /** `read_operand`: steps pc, then reads the byte it points at. */
    method ReadOperand() returns (v: bv8)
      requires Valid() && Mapped(Wrap16(pc as int + 1))
      modifies this`pc
      ensures pc == Wrap16(old(pc) as int + 1)
      ensures v == ReadMem(pc)
    {
      pc := Wrap16(pc as int + 1);
      v := ReadMem(pc);
    }

    /** `read_operand_16`: steps pc by two and reads the little-endian word after
      * the opcode, so pc ends on the word's high byte. */
    method ReadOperand16() returns (v: u16)
      requires Valid() && Mapped(Wrap16(pc as int + 1)) && Mapped(Wrap16(pc as int + 2))
      modifies this`pc
      ensures pc == Wrap16(old(pc) as int + 2)
      ensures v as int == ReadMem(pc) as int * 0x100 + ReadMem(Wrap16(old(pc) as int + 1)) as int
    {
      pc := Wrap16(pc as int + 2);
      WrapTwice(old(pc) as int + 2, -1);
      v := ReadMem16(Wrap16(pc as int - 1));
    }

    /** `pop`: the little-endian word at sp, then sp rises by two. */
    method Pop() returns (v: u16)
      requires Valid() && Mapped(sp) && Mapped(Wrap16(sp as int + 1))
      modifies this`sp
      ensures sp == Wrap16(old(sp) as int + 2)
      ensures v == ReadMem16(old(sp))
    {
      v := ReadMem16(sp);
      sp := Wrap16(sp as int + 2);
    }

    /** `push` as written: the low byte goes to sp-1 and the high byte to sp-2,
      * so the word read back at the new sp is `value` with its bytes swapped. */
    method Push(value: u16)
      requires Valid() && Mapped(Wrap16(sp as int - 1)) && Mapped(Wrap16(sp as int - 2))
      modifies this`sp, rom, bank, vram, wram, oam, hram
      ensures sp == Wrap16(old(sp) as int - 2)
      ensures ReadMem(Wrap16(old(sp) as int - 1)) == Lo(value)
      ensures ReadMem(sp) == Hi(value)
      ensures ReadMem16(sp) == Join(Lo(value), Hi(value))
      ensures forall x: u16 | Mapped(x) && x != sp && x != Wrap16(sp as int + 1) :: ReadMem(x) == old(ReadMem(x))
    {
      var bytes := (Lo(value), Hi(value));
      var high, low := Wrap16(sp as int - 1), Wrap16(sp as int - 2);
      WriteMem(high, bytes.0);
      WriteMem(low, bytes.1);
      WrapTwice(sp as int - 2, 1);
      sp := low;
      assert Wrap16(sp as int + 1) == high;
    }
  }
}
