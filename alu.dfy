/** The flag-setting arithmetic of opcodes.rs (`add_a`, `sub_a`, `and_a`,
  * `xor_a`, `or_a`, `rotate`, DAA and the CB-prefixed operations). Each source
  * helper mutates only A (or its operand) and F, so each is modelled as a
  * function from the old values to the new ones; `Opcodes.Cpu` assigns them. */
module Alu {
  import opened Bits
  import opened Registers

  /** A new operand value and the new flags. */
  datatype AluResult = AluResult(value: bv8, flags: FlagRegister)

  /** `carry_val` of `add_a`/`sub_a`: the carry flag, and only when `withCarry`. */
  function CarryValue(withCarry: bool, f: FlagRegister): (c: bv8)
    ensures c <= 1
    ensures c == 1 <==> withCarry && f.carry
  {
    if withCarry && f.carry then 1 else 0
  }

  /** The result byte of the two wrapping additions of `add_a`. */
  function Sum(x: bv8, v: bv8, c: bv8): (s: bv8)
    ensures s == x + v + c
  {
    x + (v + c)
  }

  /** Carry out of bit 7 of `x + v + c`: set by either `overflowing_add` of `add_a`. */
  function CarryOut(x: bv8, v: bv8, c: bv8): (carry: bool)
    requires c <= 1
    ensures carry == (x as bv16 + v as bv16 + c as bv16 >= 0x100)
  {
    x + (v + c) < x || v + c < v
  }

  /** Carry out of bit 3: the `& 0x10` test on the sum of the low nibbles. */
  function HalfCarryOut(x: bv8, v: bv8, c: bv8): (half: bool)
    requires c <= 1
    ensures half == ((x & 0x0F) + (v & 0x0F) + c >= 0x10)
  {
    ((x & 0x0F) + (v & 0x0F) + c) & 0x10 != 0
  }

  /** The result byte of `x.overflowing_sub(v + c)`. */
  function Difference(x: bv8, v: bv8, c: bv8): (d: bv8)
    ensures d == x - v - c
  {
    x - (v + c)
  }

  /** Borrow out of `x - v - c`: set by the `overflowing_add` of `v + c` or by
    * the `overflowing_sub` of `sub_a`. */
  function BorrowOut(x: bv8, v: bv8, c: bv8): (borrow: bool)
    requires c <= 1
    ensures borrow == (x as bv16 < v as bv16 + c as bv16)
  {
    x < v + c || v + c < v
  }

  /** Borrow from bit 4: the `& 0x10` test on the difference of the low nibbles. */
  function HalfBorrowOut(x: bv8, v: bv8, c: bv8): (half: bool)
    requires c <= 1
    ensures half == ((x & 0x0F) < (v & 0x0F) + c)
  {
    ((x & 0x0F) - (v & 0x0F) - c) & 0x10 != 0
  }

  /** `add_a` (ADD/ADC) with carry-in `c`: A becomes `a + v + c` mod 256, C is the
    * carry out of bit 7, H the carry out of bit 3, N is cleared and Z tells
    * whether the new A is 0. */
  function AddA(a: bv8, v: bv8, c: bv8): (r: AluResult)
    requires c <= 1
    ensures r.value == a + v + c
    ensures r.flags.carry == (a as bv16 + v as bv16 + c as bv16 >= 0x100)
    ensures r.flags.halfCarry == ((a & 0x0F) + (v & 0x0F) + c >= 0x10)
    ensures r.flags.zero == (r.value == 0) && !r.flags.subtract
  {
    var res := Sum(a, v, c);
    AluResult(res, FlagRegister(res == 0, false, HalfCarryOut(a, v, c), CarryOut(a, v, c)))
  }

  /** `sub_a` (SUB/SBC, and CP when `setA` is false) with carry-in `c`: C tells
    * whether `v + c` exceeds `a`, H whether the low nibbles borrow, N is set and Z
    * tells whether the difference is 0; A takes the difference only when `setA`. */
  function SubA(a: bv8, v: bv8, c: bv8, setA: bool): (r: AluResult)
    requires c <= 1
    ensures r.value == if setA then a - v - c else a
    ensures r.flags.carry == (a as bv16 < v as bv16 + c as bv16)
    ensures r.flags.halfCarry == ((a & 0x0F) < (v & 0x0F) + c)
    ensures r.flags.zero == (a - v - c == 0) && r.flags.subtract
  {
    var res := Difference(a, v, c);
    AluResult(if setA then res else a, FlagRegister(res == 0, true, HalfBorrowOut(a, v, c), BorrowOut(a, v, c)))
  }

  /** `and_a`: exactly the bits set in both; only Z (result 0) and H can be set. */
  function AndA(a: bv8, v: bv8): (r: AluResult)
    ensures r.value & v == r.value && r.value & a == r.value && (a & v) & r.value == a & v
    ensures FlagsToByte(r.flags) == if r.value == 0 then 0xA0 else 0x20
  {
    var res := a & v;
    AluResult(res, NoFlags.(zero := res == 0, halfCarry := true))
  }

  /** `xor_a`: xoring the operand again gives back A; only Z (result 0) can be set. */
  function XorA(a: bv8, v: bv8): (r: AluResult)
    ensures r.value ^ v == a
    ensures FlagsToByte(r.flags) == if r.value == 0 then 0x80 else 0
  {
    var res := a ^ v;
    AluResult(res, NoFlags.(zero := res == 0))
  }

  /** `or_a`: exactly the bits set in either operand; only Z (result 0) can be set. */
  function OrA(a: bv8, v: bv8): (r: AluResult)
    ensures r.value | v == r.value && r.value | a == r.value && r.value & (a | v) == r.value
    ensures FlagsToByte(r.flags) == if r.value == 0 then 0x80 else 0
  {
    var res := a | v;
    AluResult(res, NoFlags.(zero := res == 0))
  }

  /** `rotate`: a one-bit shift of `val` whose shifted-out bit becomes C, every
    * other flag cleared. The vacated bit receives the bit shifted out (a
    * rotation) or, with `throughCarry`, the old carry flag. */
  function Rotate(val: bv8, left: bool, throughCarry: bool, f: FlagRegister): (r: AluResult)
    ensures r.flags == NoFlags.(carry := if left then val >= 0x80 else val & 1 == 1)
    ensures !throughCarry ==> r.value == if left then val.RotateLeft(1) else val.RotateRight(1)
    ensures throughCarry ==> r.value == if left then (val << 1) | (if f.carry then 1 else 0)
                                       else (val >> 1) | (if f.carry then 0x80 else 0)
  {
    var carryMask: bv8 := if left then 0x80 else 0x01;
    var carry := val & carryMask != 0;
    var shifted := if left then val << 1 else val >> 1;
    var overflowBit: bv8 := if left then 0x01 else 0x80;
    var res := if throughCarry then (if f.carry then shifted | overflowBit else shifted)
               else if carry then shifted | overflowBit else shifted;
    AluResult(res, NoFlags.(carry := carry))
  }

  /** Rotating right through the carry undoes rotating left through it: the byte
    * and the carry flag both come back. */
  lemma RotateThroughCarryInverse(val: bv8, f: FlagRegister)
    ensures var l := Rotate(val, true, true, f);
      var r := Rotate(l.value, false, true, l.flags);
      r.value == val && r.flags.carry == f.carry
  {
  }

  /** Eight one-bit left rotations (RLC) give back the byte. */
  lemma RotateEightTimes(val: bv8, f: FlagRegister)
    ensures var r1 := Rotate(val, true, false, f).value;
      var r2 := Rotate(r1, true, false, f).value;
      var r3 := Rotate(r2, true, false, f).value;
      var r4 := Rotate(r3, true, false, f).value;
      var r5 := Rotate(r4, true, false, f).value;
      var r6 := Rotate(r5, true, false, f).value;
      var r7 := Rotate(r6, true, false, f).value;
      Rotate(r7, true, false, f).value == val
  {
  }

  /** DAA (opcodes.rs's decimal adjust after an addition or subtraction): H is
    * always cleared, Z tells whether the result is 0, N is kept and C is never
    * cleared; after an addition C is set exactly when it was set or A exceeded 0x99. */
  function Daa(a: bv8, f: FlagRegister): (r: AluResult)
    ensures !r.flags.halfCarry && r.flags.zero == (r.value == 0)
    ensures r.flags.subtract == f.subtract
    ensures f.carry ==> r.flags.carry
    ensures !f.subtract ==> r.flags.carry == (f.carry || a > 0x99)
  {
    if f.subtract then
      var adj: bv8 := (if f.halfCarry then 0x06 else 0) + (if f.carry then 0x60 else 0);
      var res := a - adj;
      AluResult(res, f.(zero := res == 0, halfCarry := false))
    else
      var res := AdjustUp(a, f.halfCarry, f.carry);
      AluResult(res, f.(zero := res == 0, halfCarry := false, carry := f.carry || a > 0x99))
  }

  /** The value DAA produces after an addition with half-carry h and carry c. */
  function AdjustUp(a: bv8, h: bool, c: bool): bv8
  {
    var lowAdj: bv8 := if h || a & 0x0F > 0x09 then 0x06 else 0;
    a + lowAdj + (if c || a > 0x99 then 0x60 else 0)
  }

  /** A byte holding two decimal digits. */
  predicate IsBcd(x: bv8)
  {
    x & 0x0F <= 9 && x >> 4 <= 9
  }

  /** The BCD encoding (hundreds in bit 8) of the decimal sum of two BCD bytes. */
  function DecimalSum(x: bv8, y: bv8): bv16
  {
    var lo := (x & 0x0F) as bv16 + (y & 0x0F) as bv16;
    var hi := (x >> 4) as bv16 + (y >> 4) as bv16 + (if lo > 9 then 1 else 0);
    var loDigit := if lo > 9 then lo - 10 else lo;
    if hi > 9 then 0x100 + (hi - 10) * 16 + loDigit else hi * 16 + loDigit
  }

  /** v is a BCD byte that, with the carry as hundreds digit, is the decimal sum of x and y. */
  predicate IsDecimalSum(v: bv8, carry: bool, x: bv8, y: bv8)
  {
    IsBcd(v) && v as bv16 + (if carry then 0x100 else 0) == DecimalSum(x, y)
  }

  /** Adjusting the binary sum of x and y gives their decimal sum, with the given carry. */
  predicate AdjustsToDecimalSum(x: bv8, y: bv8, carry: bool)
  {
    IsDecimalSum(AdjustUp(x + y, (x & 0x0F) + (y & 0x0F) >= 0x10, x as bv16 + y as bv16 >= 0x100), carry, x, y)
  }

  // The four cases of DaaAfterAdd, by which adjustments DAA applies.
  lemma DecimalSumCarryAdjust(x: bv8, y: bv8)
    requires IsBcd(x) && IsBcd(y)
    requires x as bv16 + y as bv16 >= 0x100
    requires (x & 0x0F) + (y & 0x0F) >= 0x10 || (x + y) & 0x0F > 9
    ensures AdjustsToDecimalSum(x, y, true)
  {
  }

  lemma DecimalSumBothAdjust(x: bv8, y: bv8)
    requires IsBcd(x) && IsBcd(y)
    requires x as bv16 + y as bv16 < 0x100 && x + y > 0x99
    requires (x & 0x0F) + (y & 0x0F) >= 0x10 || (x + y) & 0x0F > 9
    ensures AdjustsToDecimalSum(x, y, true)
  {
  }

  lemma DecimalSumCarryOnlyAdjust(x: bv8, y: bv8)
    requires IsBcd(x) && IsBcd(y)
    requires x as bv16 + y as bv16 >= 0x100
    requires !((x & 0x0F) + (y & 0x0F) >= 0x10 || (x + y) & 0x0F > 9)
    ensures AdjustsToDecimalSum(x, y, true)
  {
  }

  lemma DecimalSumHighAdjust(x: bv8, y: bv8)
    requires IsBcd(x) && IsBcd(y)
    requires x as bv16 + y as bv16 < 0x100 && x + y > 0x99
    requires !((x & 0x0F) + (y & 0x0F) >= 0x10 || (x + y) & 0x0F > 9)
    ensures AdjustsToDecimalSum(x, y, true)
  {
  }

  lemma DecimalSumHalfCarryAdjust(x: bv8, y: bv8)
    requires IsBcd(x) && IsBcd(y)
    requires !(x as bv16 + y as bv16 >= 0x100 || x + y > 0x99)
    requires (x & 0x0F) + (y & 0x0F) >= 0x10
    ensures AdjustsToDecimalSum(x, y, false)
  {
  }

  lemma DecimalSumLowAdjust(x: bv8, y: bv8)
    requires IsBcd(x) && IsBcd(y)
    requires !(x as bv16 + y as bv16 >= 0x100 || x + y > 0x99)
    requires (x & 0x0F) + (y & 0x0F) < 0x10 && (x + y) & 0x0F > 9
    ensures AdjustsToDecimalSum(x, y, false)
  {
  }

  lemma DecimalSumNoAdjust(x: bv8, y: bv8)
    requires IsBcd(x) && IsBcd(y)
    requires !(x as bv16 + y as bv16 >= 0x100 || x + y > 0x99)
    requires !((x & 0x0F) + (y & 0x0F) >= 0x10 || (x + y) & 0x0F > 9)
    ensures AdjustsToDecimalSum(x, y, false)
  {
  }

  /** The seven cases put together: the hundreds digit is 1 exactly when the
    * binary sum carried or exceeded 0x99. */
  lemma DecimalSumAdjusts(x: bv8, y: bv8)
    requires IsBcd(x) && IsBcd(y)
    ensures AdjustsToDecimalSum(x, y, x as bv16 + y as bv16 >= 0x100 || x + y > 0x99)
  {
    var h, c := (x & 0x0F) + (y & 0x0F) >= 0x10, x as bv16 + y as bv16 >= 0x100;
    var low := h || (x + y) & 0x0F > 9;
    if c && low {
      DecimalSumCarryAdjust(x, y);
    } else if x + y > 0x99 && low {
      DecimalSumBothAdjust(x, y);
    } else if c {
      DecimalSumCarryOnlyAdjust(x, y);
    } else if x + y > 0x99 {
      DecimalSumHighAdjust(x, y);
    } else if h {
      DecimalSumHalfCarryAdjust(x, y);
    } else if low {
      DecimalSumLowAdjust(x, y);
    } else {
      DecimalSumNoAdjust(x, y);
    }
  }

  /** ADD followed by DAA adds two BCD bytes: the result is BCD and, with the
    * carry as hundreds digit, is their decimal sum. */
  lemma DaaAfterAdd(x: bv8, y: bv8)
    requires IsBcd(x) && IsBcd(y)
    ensures var s := AddA(x, y, 0);
      var d := Daa(s.value, s.flags);
      IsDecimalSum(d.value, d.flags.carry, x, y)
  {
    AddWithoutCarry(x, y);
    var f := FlagRegister(x + y == 0, false, (x & 0x0F) + (y & 0x0F) >= 0x10, x as bv16 + y as bv16 >= 0x100);
    DaaAfterAddition(x + y, f);
    DecimalSumAdjusts(x, y);
  }

  /** DAA after an addition, written out. */
  lemma DaaAfterAddition(a: bv8, f: FlagRegister)
    requires !f.subtract
    ensures Daa(a, f).value == AdjustUp(a, f.halfCarry, f.carry)
    ensures Daa(a, f).flags.carry == (f.carry || a > 0x99)
  {
  }

  /** ADD without carry-in, flags written out. */
  lemma AddWithoutCarry(x: bv8, y: bv8)
    ensures AddA(x, y, 0)
      == AluResult(x + y, FlagRegister(x + y == 0, false, (x & 0x0F) + (y & 0x0F) >= 0x10, x as bv16 + y as bv16 >= 0x100))
  {
  }

  /** The BCD byte of the decimal difference x - y of two BCD bytes, taken
    * digit by digit with a borrow, mod 100. */
  function DecimalDifference(x: bv8, y: bv8): bv8
  {
    var lowBorrow := x & 0x0F < y & 0x0F;
    var loDigit := if lowBorrow then (x & 0x0F) + 10 - (y & 0x0F) else (x & 0x0F) - (y & 0x0F);
    var sub := (y >> 4) + (if lowBorrow then 1 else 0);
    var hiDigit := if x >> 4 < sub then (x >> 4) + 10 - sub else (x >> 4) - sub;
    hiDigit * 16 + loDigit
  }

  /** The decimal difference borrows exactly when y's high digit, plus the
    * borrow out of the low digits, exceeds x's. */
  predicate DecimalBorrow(x: bv8, y: bv8)
  {
    x >> 4 < (y >> 4) + (if x & 0x0F < y & 0x0F then 1 else 0)
  }

  /** SUB without carry-in, flags written out. */
  lemma SubWithoutCarry(x: bv8, y: bv8)
    ensures SubA(x, y, 0, true)
      == AluResult(x - y, FlagRegister(x - y == 0, true, x & 0x0F < y & 0x0F, x < y))
  {
  }

  /** The value DAA gives after a subtraction: 0x06 off for a low borrow, 0x60
    * for a borrow out of the byte. */
  function SubAdjusted(a: bv8, lowBorrow: bool, borrow: bool): bv8
  {
    a - (if lowBorrow then 0x06 else 0) - (if borrow then 0x60 else 0)
  }

  /** DAA after a subtraction, written out. */
  lemma DaaAfterSubtraction(a: bv8, f: FlagRegister, target: bv8)
    requires f.subtract
    requires SubAdjusted(a, f.halfCarry, f.carry) == target
    ensures Daa(a, f).value == target
    ensures Daa(a, f).flags.carry == f.carry
  {
  }

  // The four cases of DaaAfterSub, by which borrows the subtraction made.
  lemma DecimalDifferenceBoth(x: bv8, y: bv8)
    requires IsBcd(x) && IsBcd(y) && x & 0x0F < y & 0x0F && x < y
    ensures x - y - 0x06 - 0x60 == DecimalDifference(x, y) && DecimalBorrow(x, y)
  {
  }

  lemma DecimalDifferenceLow(x: bv8, y: bv8)
    requires IsBcd(x) && IsBcd(y) && x & 0x0F < y & 0x0F && !(x < y)
    ensures x - y - 0x06 - 0 == DecimalDifference(x, y) && !DecimalBorrow(x, y)
  {
  }

  lemma DecimalDifferenceHigh(x: bv8, y: bv8)
    requires IsBcd(x) && IsBcd(y) && !(x & 0x0F < y & 0x0F) && x < y
    ensures x - y - 0 - 0x60 == DecimalDifference(x, y) && DecimalBorrow(x, y)
  {
  }

  lemma DecimalDifferenceNone(x: bv8, y: bv8)
    requires IsBcd(x) && IsBcd(y) && !(x & 0x0F < y & 0x0F) && !(x < y)
    ensures x - y - 0 - 0 == DecimalDifference(x, y) && !DecimalBorrow(x, y)
  {
  }

  /** v is a BCD byte equal to the decimal difference of x and y, and the
    * carry is its borrow. */
  predicate IsDecimalDifference(v: bv8, carry: bool, x: bv8, y: bv8)
  {
    IsBcd(v) && v == DecimalDifference(x, y) && carry == DecimalBorrow(x, y)
  }

  /** SUB followed by DAA subtracts two BCD bytes: the result is their decimal
    * difference mod 100, a BCD byte, and C is the decimal borrow. */
  lemma DaaAfterSub(x: bv8, y: bv8)
    requires IsBcd(x) && IsBcd(y)
    ensures var s := SubA(x, y, 0, true);
      var d := Daa(s.value, s.flags);
      IsDecimalDifference(d.value, d.flags.carry, x, y)
  {
    SubThenDaa(x, y);
    DaaOfDifference(x, y, FlagRegister(x - y == 0, true, x & 0x0F < y & 0x0F, x < y));
  }

  /** DAA applied to the binary difference and its flags gives the decimal one. */
  lemma DaaOfDifference(x: bv8, y: bv8, f: FlagRegister)
    requires IsBcd(x) && IsBcd(y)
    requires f.subtract && f.halfCarry == (x & 0x0F < y & 0x0F) && f.carry == (x < y)
    ensures IsDecimalDifference(Daa(x - y, f).value, Daa(x - y, f).flags.carry, x, y)
  {
    DecimalDifferenceAdjusts(x, y, f.halfCarry, f.carry);
    DaaAfterSubtraction(x - y, f, DecimalDifference(x, y));
    DecimalDifferenceIsBcd(x, y);
  }

  /** DAA sees the SUB result with its flags written out. */
  lemma SubThenDaa(x: bv8, y: bv8)
    ensures var s := SubA(x, y, 0, true);
      Daa(s.value, s.flags) == Daa(x - y, FlagRegister(x - y == 0, true, x & 0x0F < y & 0x0F, x < y))
  {
    SubWithoutCarry(x, y);
  }

  /** The four cases put together: DAA subtracts 0x06 for a low borrow and
    * 0x60 for a borrow out of the byte. */
  lemma DecimalDifferenceAdjusts(x: bv8, y: bv8, lowBorrow: bool, borrow: bool)
    requires IsBcd(x) && IsBcd(y)
    requires lowBorrow == (x & 0x0F < y & 0x0F) && borrow == (x < y)
    ensures SubAdjusted(x - y, lowBorrow, borrow) == DecimalDifference(x, y)
    ensures borrow == DecimalBorrow(x, y)
  {
    var low: bv8 := if lowBorrow then 0x06 else 0;
    var high: bv8 := if borrow then 0x60 else 0;
    if lowBorrow && borrow {
      DecimalDifferenceBoth(x, y);
    } else if lowBorrow {
      DecimalDifferenceLow(x, y);
    } else if borrow {
      DecimalDifferenceHigh(x, y);
    } else {
      DecimalDifferenceNone(x, y);
    }
    assert x - y - low - high == DecimalDifference(x, y);
  }

  /** Both digits of a decimal difference are decimal digits. */
  lemma DecimalDifferenceIsBcd(x: bv8, y: bv8)
    requires IsBcd(x) && IsBcd(y)
    ensures IsBcd(DecimalDifference(x, y))
  {
  }

  /** `arithmetic`'s shifts and rotates (CB 0x00-0x3F): RLC, RRC, RL, RR, SLA,
    * SRA, SWAP, SRL on the operand; N and H clear, Z from the result, C the bit
    * shifted out (clear for SWAP). */
  function CbShift(opcode: bv8, val: bv8, f: FlagRegister): (r: AluResult)
    requires opcode < 0x40
    ensures r.flags.zero == (r.value == 0) && !r.flags.subtract && !r.flags.halfCarry
    ensures opcode < 0x08 ==> r.value == val.RotateLeft(1)
    ensures 0x08 <= opcode < 0x10 ==> r.value == val.RotateRight(1)
    ensures 0x10 <= opcode < 0x18 ==> r.value == (val << 1) | (if f.carry then 1 else 0)
    ensures 0x18 <= opcode < 0x20 ==> r.value == (val >> 1) | (if f.carry then 0x80 else 0)
    ensures 0x20 <= opcode < 0x28 ==> r.value == val << 1
    ensures 0x28 <= opcode < 0x30 ==> r.value == (val >> 1) | (val & 0x80)
    ensures 0x30 <= opcode < 0x38 ==> r.value == (val << 4) | (val >> 4) && !r.flags.carry
    ensures 0x38 <= opcode ==> r.value == val >> 1
    ensures (opcode < 0x08 || 0x10 <= opcode < 0x18 || 0x20 <= opcode < 0x28) ==> r.flags.carry == (val & 0x80 != 0)
    ensures (0x08 <= opcode < 0x10 || 0x18 <= opcode < 0x20 || 0x28 <= opcode < 0x30 || 0x38 <= opcode)
      ==> r.flags.carry == (val & 0x01 != 0)
  {
    var t :=
      if opcode < 0x08 then Rotate(val, true, false, f)
      else if opcode < 0x10 then Rotate(val, false, false, f)
      else if opcode < 0x18 then Rotate(val, true, true, f)
      else if opcode < 0x20 then Rotate(val, false, true, f)
      else if opcode < 0x28 then ShiftResult(Rotate(val, true, false, f), 0xFE, 0)
      else if opcode < 0x30 then ShiftResult(Rotate(val, false, false, f), 0x7F, val & 0x80)
      else if opcode < 0x38 then AluResult(val.RotateRight(4), NoFlags)
      else ShiftResult(Rotate(val, false, false, f), 0x7F, 0);
    AluResult(t.value, t.flags.(zero := t.value == 0))
  }

  /** A rotation with its result masked and a bit pattern or-ed back in. */
  function ShiftResult(t: AluResult, mask: bv8, extra: bv8): AluResult
  {
    AluResult((t.value & mask) | extra, t.flags)
  }

  /** The bit a BIT, RES or SET opcode names: `(opcode - 0x40) % 0x40 / 8`, which
    * is bits 3-5 of the opcode. */
  function BitIndex(opcode: bv8): (i: bv8)
    requires opcode >= 0x40
    ensures i < 8 && i == (opcode >> 3) & 0x07
  {
    (opcode - 0x40) % 0x40 / 0x08
  }

  /** `arithmetic`'s BIT, RES and SET (CB 0x40-0xFF). BIT keeps the operand and
    * C and sets Z iff the bit is 0; RES and SET keep every flag. */
  function CbBitOperation(opcode: bv8, val: bv8, f: FlagRegister): (r: AluResult)
    requires opcode >= 0x40
    ensures opcode < 0x80 ==> r.value == val
    ensures opcode < 0x80 ==>
              r.flags == f.(zero := (val >> BitIndex(opcode)) & 1 == 0, subtract := false, halfCarry := true)
    ensures opcode >= 0x80 ==> r.flags == f
  {
    var mask: bv8 := 1 << BitIndex(opcode);
    if opcode < 0x80 then AluResult(val, f.(subtract := false, halfCarry := true, zero := val & mask == 0))
    else if opcode < 0xC0 then AluResult(val & !mask, f)
    else AluResult(val | mask, f)
  }

  /** RES and SET change exactly the named bit: RES clears it, SET sets it,
    * and every other bit of the operand is kept. */
  lemma ResSetOneBit(opcode: bv8, val: bv8, f: FlagRegister)
    requires opcode >= 0x80
    ensures var r := CbBitOperation(opcode, val, f);
      var bit: bv8 := 1 << BitIndex(opcode);
      && (r.value ^ val) & !bit == 0
      && (r.value & bit == 0 <==> opcode < 0xC0)
  {
    var bit: bv8 := 1 << BitIndex(opcode);
    OneHot(BitIndex(opcode));
    assert CbBitOperation(opcode, val, f).value == if opcode < 0xC0 then val & !bit else val | bit;
  }

  /** A shifted 1 below bit 8 is a non-zero mask. */
  lemma OneHot(i: bv8)
    requires i < 8
    ensures (1 as bv8 << i) != 0
  {
  }

  /** The whole CB table: the operand's new value and the new flags. The eight
    * shifts set Z from their result and clear N and H; BIT leaves the operand
    * alone; RES and SET keep the flags and every bit but the named one. */
  function CbOperation(opcode: bv8, val: bv8, f: FlagRegister): (r: AluResult)
    ensures opcode < 0x40 ==> r.flags.zero == (r.value == 0) && !r.flags.subtract && !r.flags.halfCarry
    ensures 0x40 <= opcode < 0x80 ==> r.value == val
    ensures 0x80 <= opcode ==> r.flags == f && (r.value ^ val) & !(1 << BitIndex(opcode)) == 0
  {
    if opcode < 0x40 then CbShift(opcode, val, f) else CbBitOperation(opcode, val, f)
  }

  /** SWAP exchanges the nibbles, so doing it twice gives the operand back. */
  lemma SwapTwice(opcode: bv8, val: bv8, f: FlagRegister, g: FlagRegister)
    requires 0x30 <= opcode < 0x38
    ensures CbOperation(opcode, CbOperation(opcode, val, f).value, g).value == val
  {
  }

  /** 8-bit INC/DEC of execute: the operand wraps by one, C is kept, INC clears N
    * and sets H iff the low nibble was 0xF, DEC sets N and sets H iff it was 0. */
  function IncDec(val: bv8, f: FlagRegister, increment: bool): (r: AluResult)
    ensures r.value == if increment then val + 1 else val - 1
    ensures r.flags.zero == (r.value == 0) && r.flags.carry == f.carry
    ensures r.flags.subtract == !increment
    ensures r.flags.halfCarry == if increment then val & 0x0F == 0x0F else val & 0x0F == 0
  {
    if increment then
      var res := val + 1;
      AluResult(res, f.(subtract := false, halfCarry := (val & 0x0F) == 0x0F).(zero := res == 0))
    else
      var res := val - 1;
      AluResult(res, f.(subtract := true, halfCarry := (val & 0x0F) == 0x00).(zero := res == 0))
  }

  /** INC undoes DEC and DEC undoes INC, on the operand. */
  lemma IncDecInverse(val: bv8, f: FlagRegister, g: FlagRegister, increment: bool)
    ensures IncDec(IncDec(val, f, increment).value, g, !increment).value == val
  {
  }

  /** A new 16-bit value and the new flags. */
  datatype WordResult = WordResult(value: u16, flags: FlagRegister)

  /** ADD HL,rr of execute: the wrapping sum; Z kept, N clear, H the carry out of
    * bit 11 and C the carry out of bit 15. */
  function AddWords(hl: u16, x: u16, f: FlagRegister): (r: WordResult)
    ensures r.value as int == (hl as int + x as int) % 0x10000
    ensures r.flags.zero == f.zero && !r.flags.subtract
    ensures r.flags.halfCarry == (hl as int % 0x1000 + x as int % 0x1000 >= 0x1000)
    ensures r.flags.carry == (hl as int + x as int >= 0x10000)
  {
    var sum := hl as int + x as int;
    var low12 := x as int % 0x1000 + hl as int % 0x1000;
    WordResult(Wrap16(sum), f.(subtract := false, halfCarry := low12 / 0x1000 % 2 == 1, carry := sum > 0xFFFF))
  }

  /** ADD SP,e and LD HL,SP+e of execute: SP plus the signed operand e, wrapping;
    * Z and N clear, H and C the carries out of bits 3 and 7 of the unsigned
    * addition of e to SP's low byte. */
  function AddOffset(sp: u16, e: bv8): (r: WordResult)
    ensures r.value == AddSigned(sp, e)
    ensures !r.flags.zero && !r.flags.subtract
    ensures r.flags.halfCarry == (sp as int % 0x10 + e as int % 0x10 >= 0x10)
    ensures r.flags.carry == (sp as int % 0x100 + e as int >= 0x100)
  {
    var offset := Signed8(e);
    SignedLowBits(e);
    // The masked sums stay below 0x200, so `wrapping_add_signed` never wraps them.
    var half := sp as int % 0x10 + offset % 0x10;
    var full := sp as int % 0x100 + offset % 0x100;
    BitOfSmallSum(half, 0x10);
    BitOfSmallSum(full, 0x100);
    WordResult(Wrap16(sp as int + offset), FlagRegister(false, false, half / 0x10 % 2 == 1, full / 0x100 % 2 == 1))
  }

  /** The low byte and nibble of a sign-extended operand are the operand's own. */
  lemma SignedLowBits(e: bv8)
    ensures Signed8(e) % 0x100 == e as int
    ensures Signed8(e) % 0x10 == e as int % 0x10
  {
    var v, u := Signed8(e), e as int;
    assert v == 0x100 * (v / 0x100) + u;
  }

  /** Below 2k, the bit of weight k is set exactly from k on. */
  lemma BitOfSmallSum(x: int, k: int)
    requires 0 <= x < 2 * k
    ensures (x / k % 2 == 1) == (x >= k)
  {
  }
}
