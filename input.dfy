/** input.rs: the joypad register at 0xFF00. `flags` holds one bit per button,
  * and a bit is 0 while its button is pressed. A write chooses whether the
  * action buttons (upper nibble) or the d-pad (lower nibble) is read back. */
module Input {
  import opened Bits

  /** `InputFlag`: the buttons and their bits in `flags`. */
  datatype Button = Start | Select | ButtonB | ButtonA | Down | Up | Left | Right
  {
    function Bit(): (b: bv8)
      ensures b == 1 << Index()
    {
      match this
      case Start => 0x80
      case Select => 0x40
      case ButtonB => 0x20
      case ButtonA => 0x10
      case Down => 0x08
      case Up => 0x04
      case Left => 0x02
      case Right => 0x01
    }

    function Index(): (i: nat)
      ensures i < 8
    {
      match this
      case Start => 7
      case Select => 6
      case ButtonB => 5
      case ButtonA => 4
      case Down => 3
      case Up => 2
      case Left => 1
      case Right => 0
    }
  }

  /** The `flags` byte after the button's bit is set to `released`
    * (`flags.set(input, !pressed)`); the other bits stay as they were. */
  function SetButton(flags: bv8, button: Button, released: bool): (r: bv8)
    ensures r & button.Bit() == if released then button.Bit() else 0
    ensures r & !button.Bit() == flags & !button.Bit()
  {
    if released then flags | button.Bit() else flags & !button.Bit()
  }

  class InputReg {
    var selectButton: bool
    var selectDpad: bool
    var flags: bv8

    /** `InputReg::new`: nothing selected, every button released. */
    constructor ()
      ensures !selectButton && !selectDpad && flags == 0xFF
    {
      selectButton, selectDpad, flags := false, false, 0xFF;
    }

    /** `mem_read`: with the button select set, bit k of the result is set
      * exactly when bit k+4 of `flags` is clear (that button is pressed);
      * otherwise, with the d-pad select set, when bit k is clear; with neither
      * select, 0x0F. The action buttons win when both selects are set. */
    function MemRead(): (v: bv8)
      reads this
      ensures v <= 0x0F
      ensures !selectButton && !selectDpad ==> v == 0x0F
      ensures selectButton ==> forall k: nat | k < 4 :: BitSet(v, k) <==> !BitSet(flags, k + 4)
      ensures !selectButton && selectDpad ==> forall k: nat | k < 4 :: BitSet(v, k) <==> !BitSet(flags, k)
    {
      if selectButton then (!flags & 0xF0) >> 4
      else if selectDpad then !flags & 0x0F
      else 0x0F
    }

    /** `mem_write`: bit 5 sets the button select and bit 4 the d-pad select;
      * `flags` is untouched and the address plays no part. */
    method MemWrite(value: bv8)
      modifies this`selectButton, this`selectDpad
      ensures selectButton == (value & 0x20 != 0)
      ensures selectDpad == (value & 0x10 != 0)
    {
      selectButton := value & 0x20 > 0;
      selectDpad := value & 0x10 > 0;
    }
  }

  /** While every button is released (as after `new`), a selected nibble reads as 0. */
  lemma ReleasedReadsZero(r: InputReg)
    requires r.flags == 0xFF && (r.selectButton || r.selectDpad)
    ensures r.MemRead() == 0
  {
  }

  /** A button's bit in a read of its own nibble is 1 exactly while it is held:
    * with the action buttons selected for A, B, Select and Start, and with only
    * the d-pad selected for the directions. */
  lemma HeldButtonReads(r: InputReg, button: Button)
    requires if button.Index() >= 4 then r.selectButton else !r.selectButton && r.selectDpad
    ensures BitSet(r.MemRead(), button.Index() % 4) <==> !BitSet(r.flags, button.Index())
  {
  }
}
