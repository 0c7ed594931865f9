/** opcodes.rs: decoding and executing one instruction. The state is the
  * register file, the interrupt master enable, the halt latch and a flat
  * 64 KiB memory; the flag arithmetic lives in module Alu. */
module Opcodes {
  import opened Bits
  import opened Registers
  import opened Alu

  /** The operand table of `get_opcode_reg`: index 0..7 is B, C, D, E, H, L, (HL), A. */
  function OperandRegister(index: bv8): Option<Reg8>
    requires index < 8
  {
    if index == 0 then Some(B) else if index == 1 then Some(C)
    else if index == 2 then Some(D) else if index == 3 then Some(E)
    else if index == 4 then Some(H) else if index == 5 then Some(L)
    else if index == 6 then None else Some(A)
  }

  /** `get_opcode_reg`: the low nibble folded onto 0..7 names the operand, so
    * the operand is the one in bits 0-2 of the opcode; None stands for (HL). */
  function GetOpcodeReg(opcode: bv8): (r: Option<Reg8>)
    ensures r == OperandRegister(opcode & 0x07)
    ensures r.None? <==> opcode & 0x07 == 6
    ensures r != Some(F)
  {
    var low := opcode & 0x0F;
    var nibble := if low >= 0x08 then low - 0x08 else low;
    if nibble == 0x00 then Some(B) else if nibble == 0x01 then Some(C)
    else if nibble == 0x02 then Some(D) else if nibble == 0x03 then Some(E)
    else if nibble == 0x04 then Some(H) else if nibble == 0x05 then Some(L)
    else if nibble == 0x07 then Some(A) else None
  }

  /** `get_opcode_reg16`: BC, DE and HL for the rows 0x0_, 0x1_ and 0x2_, nothing from 0x30 on. */
  function GetOpcodeReg16(opcode: bv8): (r: Option<Reg16>)
    ensures opcode < 0x10 ==> r == Some(BC)
    ensures 0x10 <= opcode < 0x20 ==> r == Some(DE)
    ensures 0x20 <= opcode < 0x30 ==> r == Some(HL)
    ensures r.Some? <==> opcode < 0x30
  {
    var nibble := (opcode & 0xF0) >> 4;
    if nibble == 0x00 then Some(BC) else if nibble == 0x01 then Some(DE)
    else if nibble == 0x02 then Some(HL) else None
  }

  /** `Option::unwrap_or` on a pair register. */
  function UnwrapOr(r: Option<Reg16>, default: Reg16): Reg16
  {
    if r.Some? then r.value else default
  }

  /** The register INC r, DEC r and LD r,d8 name: `get_opcode_reg` of twice the
    * row plus one for the right half of the row, which is the register in bits
    * 3-5 of the opcode. */
  function RowRegister(opcode: bv8): (r: Option<Reg8>)
    requires opcode < 0x40
    ensures r == OperandRegister((opcode >> 3) & 0x07)
  {
    var offset: bv8 := if opcode & 0x0F < 0x08 then 0 else 1;
    GetOpcodeReg(2 * (opcode >> 4) + offset)
  }

  /** `get_opcode_condition`: Z in the 0xC_ row, C in every other row. */
  function GetOpcodeCondition(opcode: bv8, f: FlagRegister): bool
  {
    if opcode & 0xF0 == 0xC0 then f.zero else f.carry
  }

  /** The four condition codes NZ, Z, NC and C, numbered as bits 3-4 of a conditional opcode. */
  function ConditionHolds(cc: bv8, f: FlagRegister): bool
    requires cc < 4
  {
    if cc == 0 then !f.zero else if cc == 1 then f.zero else if cc == 2 then !f.carry else f.carry
  }

  /** Whether `execute` takes JR (0x18) or JR cc (0x20, 0x28, 0x30, 0x38). */
  function JrTaken(opcode: bv8, f: FlagRegister): bool
  {
    if opcode & 0x0F == 0x0 then !((opcode == 0x20 && f.zero) || (opcode == 0x30 && f.carry))
    else opcode == 0x18 || (opcode == 0x28 && f.zero) || (opcode == 0x38 && f.carry)
  }

  /** Whether `execute` takes a RET cc, JP or CALL of the 0xC0-0xFF block: the
    * condition is negated for the low nibbles 0, 2 and 4, forced for 3 and D. */
  function BranchTaken(opcode: bv8, f: FlagRegister): bool
  {
    var nibble := opcode & 0x0F;
    var condition := GetOpcodeCondition(opcode, f);
    if nibble == 0x0 || nibble == 0x2 || nibble == 0x4 then !condition
    else if nibble == 0x3 || nibble == 0xD then true
    else condition
  }

  /** Every conditional JR, RET, JP and CALL tests the condition code in bits 3-4
    * of its opcode, as the instruction set defines it. */
  lemma ConditionEncoding(opcode: bv8, f: FlagRegister)
    requires opcode in {0x20, 0x28, 0x30, 0x38, 0xC0, 0xC2, 0xC4, 0xC8, 0xCA, 0xCC, 0xD0, 0xD2, 0xD4, 0xD8, 0xDA, 0xDC}
    ensures (if opcode < 0x40 then JrTaken(opcode, f) else BranchTaken(opcode, f))
      == ConditionHolds((opcode >> 3) & 0x03, f)
  {
  }

  /** The RST table: 0xC7, 0xCF, ..., 0xFF jump to 0x00, 0x08, ..., 0x38, the
    * multiple of 8 in bits 3-5 of the opcode. */
  function RstVector(opcode: bv8): (v: u16)
    requires opcode >= 0xC0 && opcode & 0x07 == 0x07
    ensures v as int % 8 == 0 && v <= 0x38
    ensures v == Join(0, opcode & 0x38)
  {
    if opcode == 0xC7 then 0x00 else if opcode == 0xCF then 0x08
    else if opcode == 0xD7 then 0x10 else if opcode == 0xDF then 0x18
    else if opcode == 0xE7 then 0x20 else if opcode == 0xEF then 0x28
    else if opcode == 0xF7 then 0x30 else 0x38
  }

  /** The destination of LD r,r' (0x40-0x7F) by the source's opcode ranges: the
    * register in bits 3-5 of the opcode, None for (HL). */
  function LoadTarget(opcode: bv8): (r: Option<Reg8>)
    requires 0x40 <= opcode < 0x80
    ensures r == OperandRegister((opcode >> 3) & 0x07)
  {
    if opcode < 0x48 then Some(B) else if opcode < 0x50 then Some(C)
    else if opcode < 0x58 then Some(D) else if opcode < 0x60 then Some(E)
    else if opcode < 0x68 then Some(H) else if opcode < 0x70 then Some(L)
    else if opcode < 0x78 then None else Some(A)
  }

  /** The ALU operation of 0x80-0xBF on A and the operand v, by the source's
    * opcode ranges: ADD, ADC, SUB, SBC, AND, XOR, OR, CP. */
  function RegisterAlu(opcode: bv8, a: bv8, v: bv8, f: FlagRegister): AluResult
    requires 0x80 <= opcode < 0xC0
  {
    if opcode < 0x90 then AddA(a, v, CarryValue(opcode >= 0x88, f))
    else if opcode < 0xA0 then SubA(a, v, CarryValue(opcode >= 0x98, f), true)
    else if opcode < 0xA8 then AndA(a, v)
    else if opcode < 0xB0 then XorA(a, v)
    else if opcode < 0xB8 then OrA(a, v)
    else SubA(a, v, CarryValue(false, f), false)
  }

  /** The ALU operation of the immediate forms 0xC6, 0xCE, ..., 0xFE. */
  function ImmediateAlu(opcode: bv8, a: bv8, v: bv8, f: FlagRegister): AluResult
    requires opcode >= 0xC0 && opcode & 0x07 == 0x06
  {
    if opcode == 0xC6 then AddA(a, v, CarryValue(false, f))
    else if opcode == 0xCE then AddA(a, v, CarryValue(true, f))
    else if opcode == 0xD6 then SubA(a, v, CarryValue(false, f), true)
    else if opcode == 0xDE then SubA(a, v, CarryValue(true, f), true)
    else if opcode == 0xE6 then AndA(a, v)
    else if opcode == 0xEE then XorA(a, v)
    else if opcode == 0xF6 then OrA(a, v)
    else SubA(a, v, CarryValue(false, f), false)
  }

  /** The immediate form of each ALU operation (the same bits 3-5 under 0xC6)
    * computes what its register form computes. */
  lemma ImmediateAluMatchesRegister(opcode: bv8, a: bv8, v: bv8, f: FlagRegister)
    requires 0x80 <= opcode < 0xC0
    ensures ImmediateAlu(0xC6 | (opcode & 0x38), a, v, f) == RegisterAlu(opcode, a, v, f)
  {
  }

  /** The accumulator operations of the 0x00-0x3F block: RLCA, RLA, DAA, SCF
    * (low nibble 7) and RRCA, RRA, CPL, CCF (low nibble F). The four rotates
    * are their CB counterparts on A except that Z is forced clear. */
  function AccumulatorOp(opcode: bv8, a: bv8, f: FlagRegister): (r: AluResult)
    requires opcode < 0x40 && (opcode & 0x0F == 0x07 || opcode & 0x0F == 0x0F)
    ensures opcode < 0x20 ==> r.value == CbShift(opcode, a, f).value
    ensures opcode < 0x20 ==> r.flags == CbShift(opcode, a, f).flags.(zero := false)
    ensures opcode == 0x27 ==> r == Daa(a, f)
    ensures opcode == 0x37 ==> r.value == a && r.flags == f.(subtract := false, halfCarry := false, carry := true)
    ensures opcode == 0x2F ==> r.value == !a && r.flags == f.(subtract := true, halfCarry := true)
    ensures opcode == 0x3F ==> r.value == a && r.flags == f.(subtract := false, halfCarry := false, carry := !f.carry)
  {
    if opcode == 0x07 then ClearZero(Rotate(a, true, false, f))
    else if opcode == 0x17 then ClearZero(Rotate(a, true, true, f))
    else if opcode == 0x27 then Daa(a, f)
    else if opcode == 0x37 then AluResult(a, f.(subtract := false, halfCarry := false, carry := true))
    else if opcode == 0x0F then ClearZero(Rotate(a, false, false, f))
    else if opcode == 0x1F then ClearZero(Rotate(a, false, true, f))
    else if opcode == 0x2F then AluResult(!a, f.(subtract := true, halfCarry := true))
    else AluResult(a, f.(subtract := false, halfCarry := false, carry := !f.carry))
  }

  /** A result with Z removed. */
  function ClearZero(r: AluResult): AluResult
  {
    AluResult(r.value, r.flags.(zero := false))
  }

  /** The CPU of opcodes.rs: registers, IME, the halt latch and 64 KiB of memory. */
  class Cpu {
    var reg: RegisterFile
    var ime: bool
    var halt: bool
    const mem: array<bv8>

    /** The memory spans the whole 16-bit address space. */
    predicate Valid()
    {
      mem.Length == 0x10000
    }

    constructor (memory: array<bv8>)
      requires memory.Length == 0x10000
      ensures Valid() && mem == memory
      ensures reg == RegisterFile(0, NoFlags, 0, 0, 0, 0, 0, 0, 0xFFFE, 0x0100) && !ime && !halt
    {
      reg := RegisterFile(0, NoFlags, 0, 0, 0, 0, 0, 0, 0xFFFE, 0x0100);
      ime, halt := false, false;
      mem := memory;
    }

    /** The 8-bit operand an opcode names: a register, or the byte at HL. */
    function Operand(r: Option<Reg8>): bv8
      requires Valid()
      reads this, mem
    {
      if r.Some? then reg.Get(r.value) else mem[reg.Get16(HL)]
    }

    /** `read_operand`: pc steps to the operand byte, which is returned. */
    method ReadOperand() returns (v: bv8)
      requires Valid()
      modifies this`reg
      ensures reg == old(reg).(pc := Wrap16(old(reg.pc) as int + 1))
      ensures v == mem[reg.pc]
    {
      reg := reg.(pc := Wrap16(reg.pc as int + 1));
      v := mem[reg.pc];
    }

    /** `read_operand_16`: pc steps by two and the little-endian word after the
      * opcode is returned. */
    method ReadOperand16() returns (v: u16)
      requires Valid()
      modifies this`reg
      ensures reg == old(reg).(pc := Wrap16(old(reg.pc) as int + 2))
      ensures v == Join(mem[reg.pc], mem[Wrap16(old(reg.pc) as int + 1)])
    {
      var next := Wrap16(reg.pc as int + 1);
      reg := reg.(pc := Wrap16(reg.pc as int + 2));
      v := Join(mem[reg.pc], mem[next]);
    }

    /** `write_mem`: one byte of memory changes. */
    method WriteMem(address: u16, value: bv8)
      requires Valid()
      modifies mem
      ensures mem[..] == old(mem[..])[address as int := value]
    {
      mem[address] := value;
    }

    /** `push` of memory.rs: the low byte goes to sp-1, the high byte to sp-2. */
    method Push(value: u16)
      requires Valid()
      modifies this`reg, mem
      ensures reg == old(reg).(sp := Wrap16(old(reg.sp) as int - 2))
      ensures mem[..] == old(mem[..])[Wrap16(old(reg.sp) as int - 1) as int := Lo(value)][reg.sp as int := Hi(value)]
    {
      WriteMem(Wrap16(reg.sp as int - 1), Lo(value));
      WriteMem(Wrap16(reg.sp as int - 2), Hi(value));
      reg := reg.(sp := Wrap16(reg.sp as int - 2));
    }

    /** `pop` of memory.rs: the little-endian word at sp, then sp rises by two. */
    method Pop() returns (v: u16)
      requires Valid()
      modifies this`reg
      ensures reg == old(reg).(sp := Wrap16(old(reg.sp) as int + 2))
      ensures v == Join(mem[Wrap16(old(reg.sp) as int + 1)], mem[old(reg.sp)])
    {
      v := Join(mem[Wrap16(reg.sp as int + 1)], mem[reg.sp]);
      reg := reg.(sp := Wrap16(reg.sp as int + 2));
    }

    /** Writes an operand: a register, or the byte at HL. */
    method Store(r: Option<Reg8>, value: bv8)
      requires Valid()
      modifies this`reg, mem
      ensures reg == if r.Some? then old(reg).Set(r.value, value) else old(reg)
      ensures mem[..] == if r.Some? then old(mem[..]) else old(mem[..])[old(reg.Get16(HL)) as int := value]
    {
      if r.Some? {
        reg := reg.Set(r.value, value);
      } else {
        WriteMem(reg.Get16(HL), value);
      }
    }

    /** JR and JR cc: the signed operand is added to the address of the operand
      * byte when the jump is taken (3 cycles), otherwise 2 cycles. */
    method Jr(opcode: bv8) returns (cycles: nat)
      requires Valid() && opcode in {0x18, 0x20, 0x28, 0x30, 0x38}
      modifies this`reg
      ensures var next := Wrap16(old(reg.pc) as int + 1);
        reg == old(reg).(pc := if JrTaken(opcode, old(reg.f)) then AddSigned(next, mem[next]) else next)
      ensures cycles == if JrTaken(opcode, old(reg.f)) then 3 else 2
    {
      var step := ReadOperand();
      if JrTaken(opcode, reg.f) {
        reg := reg.(pc := AddSigned(reg.pc, step));
        cycles := 3;
      } else {
        cycles := 2;
      }
    }

    /** LD rr,d16 (0x01, 0x11, 0x21, 0x31): the operand word goes to BC, DE, HL or SP. */
    method LoadImmediate16(opcode: bv8) returns (cycles: nat)
      requires Valid() && opcode < 0x40 && opcode & 0x0F == 0x1
      modifies this`reg
      ensures var p := old(reg.pc);
        reg == old(reg).(pc := Wrap16(p as int + 2))
               .Set16(UnwrapOr(GetOpcodeReg16(opcode), SP), Join(mem[Wrap16(p as int + 2)], mem[Wrap16(p as int + 1)]))
      ensures cycles == 3
    {
      var r := UnwrapOr(GetOpcodeReg16(opcode), SP);
      var v := ReadOperand16();
      reg := reg.Set16(r, v);
      cycles := 3;
    }

    /** LD (rr),A and LD A,(rr) (low nibble 2 and A): BC, DE, HL, and HL again
      * for 0x32/0x3A; 0x22/0x2A then step HL up and 0x32/0x3A step it down. */
    method LoadIndirect(opcode: bv8) returns (cycles: nat)
      requires Valid() && opcode < 0x40 && (opcode & 0x0F == 0x2 || opcode & 0x0F == 0xA)
      modifies this`reg, mem
      ensures var address := old(reg.Get16(UnwrapOr(GetOpcodeReg16(opcode), HL)));
        && mem[..] == (if opcode & 0x0F == 0x2 then old(mem[..])[address as int := old(reg.a)] else old(mem[..]))
        && var loaded := if opcode & 0x0F == 0x2 then old(reg) else old(reg).(a := old(mem[address]));
           reg == if opcode == 0x22 || opcode == 0x2A then loaded.Set16(HL, Wrap16(address as int + 1))
                  else if opcode == 0x32 || opcode == 0x3A then loaded.Set16(HL, Wrap16(address as int - 1))
                  else loaded
      ensures cycles == 2
    {
      var r := UnwrapOr(GetOpcodeReg16(opcode), HL);
      var address := reg.Get16(r);
      if opcode & 0x0F == 0x02 {
        WriteMem(address, reg.a);
      } else {
        reg := reg.(a := mem[address]);
      }
      if opcode == 0x22 || opcode == 0x2A {
        reg := reg.Set16(r, Wrap16(reg.Get16(r) as int + 1));
      }
      if opcode == 0x32 || opcode == 0x3A {
        reg := reg.Set16(r, Wrap16(reg.Get16(r) as int - 1));
      }
      cycles := 2;
    }

    /** INC rr and DEC rr (low nibble 3 and B): BC, DE, HL or SP wraps by one;
      * no flag changes. */
    method IncDec16(opcode: bv8) returns (cycles: nat)
      requires Valid() && opcode < 0x40 && (opcode & 0x0F == 0x3 || opcode & 0x0F == 0xB)
      modifies this`reg
      ensures var r := UnwrapOr(GetOpcodeReg16(opcode), SP);
        var v := old(reg.Get16(r)) as int;
        reg == old(reg).Set16(r, Wrap16(if opcode & 0x0F == 0x3 then v + 1 else v - 1))
      ensures reg.f == old(reg.f)
      ensures cycles == 2
    {
      var r := UnwrapOr(GetOpcodeReg16(opcode), SP);
      var v := if opcode & 0x0F == 0x03 then Wrap16(reg.Get16(r) as int + 1) else Wrap16(reg.Get16(r) as int - 1);
      reg := reg.Set16(r, v);
      cycles := 2;
    }

    /** INC r and DEC r (low nibble 4, 5, C, D): the operand in bits 3-5 of the
      * opcode changes as `IncDec` says; 1 cycle, (HL) included. */
    method IncDec8(opcode: bv8) returns (cycles: nat)
      requires Valid() && opcode < 0x40
      requires opcode & 0x0F in {0x4, 0x5, 0xC, 0xD}
      modifies this`reg, mem
      ensures var r := RowRegister(opcode);
        var res := IncDec(old(Operand(r)), old(reg.f), opcode & 0x0F == 0x4 || opcode & 0x0F == 0xC);
        && reg == (if r.Some? then old(reg).(f := res.flags).Set(r.value, res.value) else old(reg).(f := res.flags))
        && mem[..] == (if r.Some? then old(mem[..]) else old(mem[..])[old(reg.Get16(HL)) as int := res.value])
      ensures cycles == 1
    {
      var r := RowRegister(opcode);
      var res := IncDec(Operand(r), reg.f, opcode & 0x0F == 0x04 || opcode & 0x0F == 0x0C);
      reg := reg.(f := res.flags);
      Store(r, res.value);
      cycles := 1;
    }

    /** LD r,d8 (low nibble 6 and E): the operand byte goes to the register in
      * bits 3-5 of the opcode; 2 cycles, 3 for (HL). */
    method LoadImmediate8(opcode: bv8) returns (cycles: nat)
      requires Valid() && opcode < 0x40 && (opcode & 0x0F == 0x6 || opcode & 0x0F == 0xE)
      modifies this`reg, mem
      ensures var r := RowRegister(opcode);
        var next := Wrap16(old(reg.pc) as int + 1);
        && reg == (if r.Some? then old(reg).(pc := next).Set(r.value, old(mem[next])) else old(reg).(pc := next))
        && mem[..] == (if r.Some? then old(mem[..]) else old(mem[..])[old(reg.Get16(HL)) as int := old(mem[next])])
      ensures cycles == if RowRegister(opcode).Some? then 2 else 3
    {
      var r := RowRegister(opcode);
      var v := ReadOperand();
      Store(r, v);
      cycles := if r.Some? then 2 else 3;
    }

    /** RLCA, RLA, DAA, SCF, RRCA, RRA, CPL and CCF: A and F change as `AccumulatorOp` says. */
    method Accumulator(opcode: bv8) returns (cycles: nat)
      requires Valid() && opcode < 0x40 && (opcode & 0x0F == 0x7 || opcode & 0x0F == 0xF)
      modifies this`reg
      ensures reg == old(reg).(a := AccumulatorOp(opcode, old(reg.a), old(reg.f)).value,
                               f := AccumulatorOp(opcode, old(reg.a), old(reg.f)).flags)
      ensures cycles == 1
    {
      var r := AccumulatorOp(opcode, reg.a, reg.f);
      reg := reg.(a := r.value, f := r.flags);
      cycles := 1;
    }

    /** LD (a16),SP (0x08): SP's low byte goes to the operand address and its
      * high byte to the next one; 5 cycles. */
    method StoreSp() returns (cycles: nat)
      requires Valid()
      modifies this`reg, mem
      ensures var p := old(reg.pc);
        var address := Join(old(mem[Wrap16(p as int + 2)]), old(mem[Wrap16(p as int + 1)]));
        && reg == old(reg).(pc := Wrap16(p as int + 2))
        && mem[..] == old(mem[..])[address as int := Lo(old(reg.sp))][Wrap16(address as int + 1) as int := Hi(old(reg.sp))]
      ensures cycles == 5
    {
      var lo, hi := Lo(reg.sp), Hi(reg.sp);
      var address := ReadOperand16();
      WriteMem(address, lo);
      WriteMem(Wrap16(address as int + 1), hi);
      cycles := 5;
    }

    /** ADD HL,rr (0x09, 0x19, 0x29, 0x39): HL and F change as `AddWords` says. */
    method AddHl(opcode: bv8) returns (cycles: nat)
      requires Valid() && opcode < 0x40 && opcode & 0x0F == 0x9
      modifies this`reg
      ensures var w := AddWords(old(reg.Get16(HL)), old(reg.Get16(UnwrapOr(GetOpcodeReg16(opcode), SP))), old(reg.f));
        reg == old(reg).(f := w.flags).Set16(HL, w.value)
      ensures cycles == 2
    {
      var r := UnwrapOr(GetOpcodeReg16(opcode), SP);
      var w := AddWords(reg.Get16(HL), reg.Get16(r), reg.f);
      reg := reg.(f := w.flags);
      reg := reg.Set16(HL, w.value);
      cycles := 2;
    }

    /** The 0x40-0xBF block except HALT: LD r,r' copies the operand in bits 0-2
      * to the destination in bits 3-5; the ALU operations update A and F. One
      * cycle, two when (HL) is read or written. */
    method LoadOrAlu(opcode: bv8) returns (cycles: nat)
      requires Valid() && 0x40 <= opcode < 0xC0 && opcode != 0x76
      modifies this`reg, mem
      ensures var v := old(Operand(GetOpcodeReg(opcode)));
        opcode < 0x80 ==>
          var dst := LoadTarget(opcode);
          && reg == (if dst.Some? then old(reg).Set(dst.value, v) else old(reg))
          && mem[..] == (if dst.Some? then old(mem[..]) else old(mem[..])[old(reg.Get16(HL)) as int := v])
      ensures var v := old(Operand(GetOpcodeReg(opcode)));
        opcode >= 0x80 ==>
          var r := RegisterAlu(opcode, old(reg.a), v, old(reg.f));
          reg == old(reg).(a := r.value, f := r.flags) && mem[..] == old(mem[..])
      ensures cycles == if opcode & 0x07 == 0x06 || 0x70 <= opcode < 0x78 then 2 else 1
    {
      var src := GetOpcodeReg(opcode);
      var v := Operand(src);
      var long := src.None?;
      if opcode < 0x80 {
        var dst := LoadTarget(opcode);
        Store(dst, v);
        long := long || dst.None?;
      } else {
        var r := RegisterAlu(opcode, reg.a, v, reg.f);
        reg := reg.(a := r.value, f := r.flags);
      }
      cycles := if long then 2 else 1;
    }
  
    /** LDH (a8),A / LDH A,(a8) (0xE0/0xF0, 3 cycles), LD (C),A / LD A,(C)
      * (0xE2/0xF2, 2 cycles) into 0xFF00-0xFFFF, and LD (a16),A / LD A,(a16)
      * (0xEA/0xFA, 4 cycles); the 0xE_ row stores A, the 0xF_ row loads it. */
    method LoadHigh(opcode: bv8) returns (cycles: nat)
      requires Valid() && opcode in {0xE0, 0xE2, 0xEA, 0xF0, 0xF2, 0xFA}
      modifies this`reg, mem
      ensures var p := old(reg.pc);
        var nibble := opcode & 0x0F;
        var address :=
          if nibble == 0x0 then Join(0xFF, old(mem[Wrap16(p as int + 1)]))
          else if nibble == 0x2 then Join(0xFF, old(reg.c))
          else Join(old(mem[Wrap16(p as int + 2)]), old(mem[Wrap16(p as int + 1)]));
        var moved := old(reg).(pc := Wrap16(p as int + (if nibble == 0x0 then 1 else if nibble == 0x2 then 0 else 2)));
        if opcode < 0xF0 then reg == moved && mem[..] == old(mem[..])[address as int := old(reg.a)]
        else reg == moved.(a := old(mem[address])) && mem[..] == old(mem[..])
      ensures cycles == if opcode & 0x0F == 0x0 then 3 else if opcode & 0x0F == 0x2 then 2 else 4
    {
      var nibble := opcode & 0x0F;
      var address: u16;
      if nibble == 0x0 {
        var v := ReadOperand();
        address, cycles := Join(0xFF, v), 3;
      } else if nibble == 0x2 {
        address, cycles := Join(0xFF, reg.c), 2;
      } else {
        address := ReadOperand16();
        cycles := 4;
      }
      if opcode & 0xF0 == 0xE0 {
        WriteMem(address, reg.a);
      } else {
        reg := reg.(a := mem[address]);
      }
    }

    /** RET cc (0xC0, 0xD0, 0xC8, 0xD8): when taken, pc is popped and not
      * stepped afterwards (5 cycles); otherwise 2 cycles. */
    method ReturnIf(opcode: bv8) returns (cycles: nat, incrementPc: bool)
      requires Valid() && opcode in {0xC0, 0xC8, 0xD0, 0xD8}
      modifies this`reg
      ensures var sp := old(reg.sp);
        reg == if BranchTaken(opcode, old(reg.f))
               then old(reg).(sp := Wrap16(sp as int + 2), pc := Join(mem[Wrap16(sp as int + 1)], mem[sp]))
               else old(reg)
      ensures incrementPc == !BranchTaken(opcode, old(reg.f))
      ensures cycles == if BranchTaken(opcode, old(reg.f)) then 5 else 2
    {
      if BranchTaken(opcode, reg.f) {
        var target := Pop();
        reg := reg.(pc := target);
        cycles, incrementPc := 5, false;
      } else {
        cycles, incrementPc := 2, true;
      }
    }

    /** JP and JP cc (0xC2, 0xC3, 0xCA, 0xD2, 0xD3, 0xDA): the operand word
      * becomes pc when taken (4 cycles); otherwise pc rests on the operand's
      * high byte (3 cycles). */
    method Jump(opcode: bv8) returns (cycles: nat, incrementPc: bool)
      requires Valid() && opcode in {0xC2, 0xC3, 0xCA, 0xD2, 0xD3, 0xDA}
      modifies this`reg
      ensures var p := old(reg.pc);
        reg == old(reg).(pc := if BranchTaken(opcode, old(reg.f))
                               then Join(mem[Wrap16(p as int + 2)], mem[Wrap16(p as int + 1)])
                               else Wrap16(p as int + 2))
      ensures incrementPc == !BranchTaken(opcode, old(reg.f))
      ensures cycles == if BranchTaken(opcode, old(reg.f)) then 4 else 3
    {
      var taken := BranchTaken(opcode, reg.f);
      var address := ReadOperand16();
      if taken {
        reg := reg.(pc := address);
        cycles, incrementPc := 4, false;
      } else {
        cycles, incrementPc := 3, true;
      }
    }

    /** CALL and CALL cc (low nibble 4, C, D of 0xC0-0xFF): when taken, the
      * address after the instruction is pushed and the operand word becomes pc
      * (6 cycles); otherwise 3 cycles. */
    method Call(opcode: bv8) returns (cycles: nat, incrementPc: bool)
      requires Valid() && opcode >= 0xC0 && opcode & 0x0F in {0x4, 0xC, 0xD}
      modifies this`reg, mem
      ensures var p, sp := old(reg.pc), old(reg.sp);
        reg == if BranchTaken(opcode, old(reg.f))
               then old(reg).(sp := Wrap16(sp as int - 2), pc := Join(old(mem[Wrap16(p as int + 2)]), old(mem[Wrap16(p as int + 1)])))
               else old(reg).(pc := Wrap16(p as int + 2))
      ensures var back, sp := Wrap16(old(reg.pc) as int + 3), old(reg.sp);
        mem[..] == if BranchTaken(opcode, old(reg.f))
                   then old(mem[..])[Wrap16(sp as int - 1) as int := Lo(back)][Wrap16(sp as int - 2) as int := Hi(back)]
                   else old(mem[..])
      ensures incrementPc == !BranchTaken(opcode, old(reg.f))
      ensures cycles == if BranchTaken(opcode, old(reg.f)) then 6 else 3
    {
      var taken := BranchTaken(opcode, reg.f);
      var address := ReadOperand16();
      WrapTwice(old(reg.pc) as int + 2, 1);
      if taken {
        Push(Wrap16(reg.pc as int + 1));
        reg := reg.(pc := address);
        cycles, incrementPc := 6, false;
      } else {
        cycles, incrementPc := 3, true;
      }
    }

    /** RST (low nibble 7 and F of 0xC0-0xFF): the next address is pushed and pc
      * jumps to the vector; 4 cycles. */
    method Restart(opcode: bv8) returns (cycles: nat)
      requires Valid() && opcode >= 0xC0 && opcode & 0x07 == 0x07
      modifies this`reg, mem
      ensures var sp, back := old(reg.sp), Wrap16(old(reg.pc) as int + 1);
        && reg == old(reg).(sp := Wrap16(sp as int - 2), pc := RstVector(opcode))
        && mem[..] == old(mem[..])[Wrap16(sp as int - 1) as int := Lo(back)][Wrap16(sp as int - 2) as int := Hi(back)]
      ensures cycles == 4
    {
      Push(Wrap16(reg.pc as int + 1));
      reg := reg.(pc := RstVector(opcode));
      cycles := 4;
    }

    /** POP rr (0xC1, 0xD1, 0xE1, 0xF1): BC, DE, HL or AF from the stack; 3 cycles. */
    method PopPair(opcode: bv8) returns (cycles: nat)
      requires Valid() && opcode >= 0xC0 && opcode & 0x0F == 0x1
      modifies this`reg
      ensures var sp := old(reg.sp);
        reg == old(reg).(sp := Wrap16(sp as int + 2))
               .Set16(UnwrapOr(GetOpcodeReg16(opcode - 0xC0), AF), Join(mem[Wrap16(sp as int + 1)], mem[sp]))
      ensures cycles == 3
    {
      var r := UnwrapOr(GetOpcodeReg16(opcode - 0xC0), AF);
      var v := Pop();
      reg := reg.Set16(r, v);
      cycles := 3;
    }

    /** PUSH rr (0xC5, 0xD5, 0xE5, 0xF5): BC, DE, HL or AF onto the stack; 4 cycles. */
    method PushPair(opcode: bv8) returns (cycles: nat)
      requires Valid() && opcode >= 0xC0 && opcode & 0x0F == 0x5
      modifies this`reg, mem
      ensures var sp, v := old(reg.sp), old(reg.Get16(UnwrapOr(GetOpcodeReg16(opcode - 0xC0), AF)));
        && reg == old(reg).(sp := Wrap16(sp as int - 2))
        && mem[..] == old(mem[..])[Wrap16(sp as int - 1) as int := Lo(v)][Wrap16(sp as int - 2) as int := Hi(v)]
      ensures cycles == 4
    {
      var r := UnwrapOr(GetOpcodeReg16(opcode - 0xC0), AF);
      Push(reg.Get16(r));
      cycles := 4;
    }

    /** The ALU operations on the operand byte (low nibble 6 and E of
      * 0xC0-0xFF); 2 cycles. */
    method AluImmediate(opcode: bv8) returns (cycles: nat)
      requires Valid() && opcode >= 0xC0 && opcode & 0x07 == 0x06
      modifies this`reg
      ensures var next := Wrap16(old(reg.pc) as int + 1);
        var r := ImmediateAlu(opcode, old(reg.a), mem[next], old(reg.f));
        reg == old(reg).(pc := next, a := r.value, f := r.flags)
      ensures cycles == 2
    {
      var v := ReadOperand();
      var r := ImmediateAlu(opcode, reg.a, v, reg.f);
      reg := reg.(a := r.value, f := r.flags);
      cycles := 2;
    }

    /** ADD SP,e (0xE8, 4 cycles) and LD HL,SP+e (0xF8, 3 cycles): SP plus the
      * signed operand goes to SP or HL, flags as `AddOffset` says. */
    method AddSp(opcode: bv8) returns (cycles: nat)
      requires Valid() && opcode in {0xE8, 0xF8}
      modifies this`reg
      ensures var next := Wrap16(old(reg.pc) as int + 1);
        var w := AddOffset(old(reg.sp), mem[next]);
        reg == old(reg).(pc := next, f := w.flags).Set16(if opcode == 0xE8 then SP else HL, w.value)
      ensures cycles == if opcode == 0xE8 then 4 else 3
    {
      var e := ReadOperand();
      var w := AddOffset(reg.sp, e);
      var r := if opcode == 0xE8 then SP else HL;
      cycles := if opcode == 0xE8 then 4 else 3;
      reg := reg.(f := w.flags);
      reg := reg.Set16(r, w.value);
    }

    /** The CB-prefixed table (`arithmetic`): pc steps to the second opcode byte;
      * BIT only sets flags (2 cycles, 3 for (HL)); every other operation writes
      * its result back (2 cycles, 4 for (HL)). */
    method Arithmetic() returns (cycles: nat)
      requires Valid()
      modifies this`reg, mem
      ensures var next := Wrap16(old(reg.pc) as int + 1);
        var opcode := old(mem[next]);
        var r := GetOpcodeReg(opcode);
        var res := CbOperation(opcode, old(Operand(r)), old(reg.f));
        var moved := old(reg).(pc := next, f := res.flags);
        if 0x40 <= opcode < 0x80 then
          reg == moved && mem[..] == old(mem[..]) && cycles == (if r.Some? then 2 else 3)
        else
          && reg == (if r.Some? then moved.Set(r.value, res.value) else moved)
          && mem[..] == (if r.Some? then old(mem[..]) else old(mem[..])[old(reg.Get16(HL)) as int := res.value])
          && cycles == (if r.Some? then 2 else 4)
    {
      var opcode := ReadOperand();
      var r := GetOpcodeReg(opcode);
      var res := CbOperation(opcode, Operand(r), reg.f);
      reg := reg.(f := res.flags);
      if 0x40 <= opcode < 0x80 {
        return if r.Some? then 2 else 3;
      }
      Store(r, res.value);
      cycles := if r.Some? then 2 else 4;
    }
  
    /** The 0x00-0x3F block of `execute`, by low nibble. */
    method ExecuteLow(opcode: bv8) returns (cycles: nat)
      requires Valid() && opcode < 0x40
      modifies this`reg, mem
      ensures 1 <= cycles <= 5
      ensures opcode == 0x00 || opcode == 0x10 ==> reg == old(reg) && mem[..] == old(mem[..]) && cycles == 1
    {
      var nibble := opcode & 0x0F;
      if nibble == 0x0 {
        if opcode == 0x00 || opcode == 0x10 {
          // NOP, and STOP, which only reports itself
          cycles := 1;
        } else {
          cycles := Jr(opcode);
        }
      } else if nibble == 0x1 {
        cycles := LoadImmediate16(opcode);
      } else if nibble == 0x2 || nibble == 0xA {
        cycles := LoadIndirect(opcode);
      } else if nibble == 0x3 || nibble == 0xB {
        cycles := IncDec16(opcode);
      } else if nibble in {0x4, 0x5, 0xC, 0xD} {
        cycles := IncDec8(opcode);
      } else if nibble == 0x6 || nibble == 0xE {
        cycles := LoadImmediate8(opcode);
      } else if nibble == 0x7 || nibble == 0xF {
        cycles := Accumulator(opcode);
      } else if nibble == 0x8 {
        if opcode == 0x08 {
          cycles := StoreSp();
        } else {
          cycles := Jr(opcode);
        }
      } else {
        cycles := AddHl(opcode);
      }
    }

    /** The 0xC0-0xFF block of `execute`, by low nibble; 0xE3 is the one opcode
      * that panics. DI, EI and RETI alone change IME; RST alone clears halt. */
    method ExecuteHigh(opcode: bv8) returns (cycles: nat, incrementPc: bool)
      requires Valid() && opcode >= 0xC0 && opcode != 0xE3
      modifies this`reg, this`ime, this`halt, mem
      ensures 1 <= cycles <= 6
      ensures ime == if opcode == 0xF3 then false else if opcode == 0xFB || opcode == 0xD9 then true else old(ime)
      ensures halt == if opcode & 0x07 == 0x07 then false else old(halt)
      ensures var sp := old(reg.sp);
        opcode == 0xC9 || opcode == 0xD9 ==>
          reg == old(reg).(sp := Wrap16(sp as int + 2), pc := Join(mem[Wrap16(sp as int + 1)], mem[sp]))
          && mem[..] == old(mem[..]) && !incrementPc && cycles == 4
      ensures opcode == 0xE9 ==> reg == old(reg).(pc := old(reg.Get16(HL))) && mem[..] == old(mem[..]) && !incrementPc
      ensures opcode == 0xF9 ==> reg == old(reg).(sp := old(reg.Get16(HL))) && mem[..] == old(mem[..]) && incrementPc
      ensures opcode == 0xF3 || opcode == 0xFB ==> reg == old(reg) && mem[..] == old(mem[..]) && incrementPc
    {
      var nibble := opcode & 0x0F;
      incrementPc := true;
      if nibble in {0x0, 0x2, 0x3, 0xA} {
        if opcode == 0xF3 {
          ime := false;
          cycles := 1;
        } else if opcode & 0xF0 >= 0xE0 {
          cycles := LoadHigh(opcode);
        } else if nibble == 0x0 {
          cycles, incrementPc := ReturnIf(opcode);
        } else {
          cycles, incrementPc := Jump(opcode);
        }
      } else if nibble == 0x1 {
        cycles := PopPair(opcode);
      } else if nibble == 0x5 {
        cycles := PushPair(opcode);
      } else if nibble == 0x6 || nibble == 0xE {
        cycles := AluImmediate(opcode);
      } else if nibble in {0x4, 0xC, 0xD} {
        cycles, incrementPc := Call(opcode);
      } else if nibble == 0x7 || nibble == 0xF {
        halt := false;
        cycles := Restart(opcode);
        incrementPc := false;
      } else if nibble == 0x8 {
        if opcode >= 0xE0 {
          cycles := AddSp(opcode);
        } else {
          cycles, incrementPc := ReturnIf(opcode);
        }
      } else if nibble == 0x9 {
        if opcode == 0xC9 || opcode == 0xD9 {
          // RET and RETI
          var target := Pop();
          reg := reg.(pc := target);
          if opcode == 0xD9 {
            ime := true;
          }
          cycles, incrementPc := 4, false;
        } else if opcode == 0xE9 {
          // JP HL
          reg := reg.(pc := reg.Get16(HL));
          cycles, incrementPc := 1, false;
        } else {
          // LD SP,HL
          reg := reg.(sp := reg.Get16(HL));
          cycles := 2;
        }
      } else {
        if opcode == 0xFB {
          ime := true;
          cycles := 1;
        } else {
          // 0xCB, and 0xDB and 0xEB, which the source also sends to the CB table
          cycles := Arithmetic();
        }
      }
    }

    /** `execute`: runs the instruction at pc and returns its M-cycles; pc then
      * steps past the last byte read unless the instruction jumped. Its only
      * panic, opcode 0xE3, is excluded. HALT alone sets the halt latch and RST
      * alone clears it; DI, EI and RETI alone change IME. */
    method Execute() returns (cycles: nat)
      requires Valid() && mem[reg.pc] != 0xE3
      modifies this, mem
      ensures 1 <= cycles <= 6
      ensures var opcode := old(mem[reg.pc]);
        halt == if opcode == 0x76 then true else if opcode >= 0xC0 && opcode & 0x07 == 0x07 then false else old(halt)
      ensures var opcode := old(mem[reg.pc]);
        ime == if opcode == 0xF3 then false else if opcode == 0xFB || opcode == 0xD9 then true else old(ime)
      ensures var opcode := old(mem[reg.pc]);
        opcode in {0x00, 0x10, 0x76, 0xF3, 0xFB} ==>
          reg == old(reg).(pc := Wrap16(old(reg.pc) as int + 1)) && mem[..] == old(mem[..])
    {
      var opcode := mem[reg.pc];
      var incrementPc := true;
      if opcode < 0x40 {
        cycles := ExecuteLow(opcode);
      } else if opcode == 0x76 {
        halt := true;
        cycles := 1;
      } else if opcode < 0xC0 {
        cycles := LoadOrAlu(opcode);
      } else {
        cycles, incrementPc := ExecuteHigh(opcode);
      }
      if incrementPc {
        reg := reg.(pc := Wrap16(reg.pc as int + 1));
      }
    }
  }
}
