/** interrupts.rs: the interrupt enable (IE, 0xFFFF) and request (IF, 0xFF0F)
  * registers, the master enable IME, and the dispatch of the highest-priority
  * pending interrupt to its fixed vector. */
module Interrupts {
  import opened Bits
  import opened Registers
  import opened ReadWrite
  import opened Input
  import Io

  /** `InterruptFlag`, highest priority first. */
  datatype Interrupt = VBlank | Lcd | TimerOverflow | SerialTransfer | Joypad
  {
    /** The priority rank, and the bit position in IE and IF. */
    function Index(): (k: nat)
      ensures k < 5
    {
      match this
      case VBlank => 0
      case Lcd => 1
      case TimerOverflow => 2
      case SerialTransfer => 3
      case Joypad => 4
    }

    function Bit(): (b: bv8)
      ensures b == 1 << Index()
    {
      match this
      case VBlank => 0x01
      case Lcd => 0x02
      case TimerOverflow => 0x04
      case SerialTransfer => 0x08
      case Joypad => 0x10
    }

    /** The handler address `run_interrupt` jumps to. */
    function Vector(): (v: u16)
      ensures v as int == 0x40 + 8 * Index()
    {
      match this
      case VBlank => 0x40
      case Lcd => 0x48
      case TimerOverflow => 0x50
      case SerialTransfer => 0x58
      case Joypad => 0x60
    }
  }

  /** The interrupt serviced for a set of enabled, pending requests: the one of
    * highest priority among them. */
  function Highest(requests: bv8): (i: Interrupt)
    requires requests & 0x1F != 0
    ensures requests & i.Bit() != 0
    ensures forall j: Interrupt :: j.Index() < i.Index() ==> requests & j.Bit() == 0
  {
    if requests & VBlank.Bit() != 0 then VBlank
    else if requests & Lcd.Bit() != 0 then Lcd
    else if requests & TimerOverflow.Bit() != 0 then TimerOverflow
    else if requests & SerialTransfer.Bit() != 0 then SerialTransfer
    else Joypad
  }

  /** The interrupt serviced is the only one with its property: a pending
    * interrupt with no pending interrupt of higher priority. */
  lemma HighestUnique(requests: bv8, i: Interrupt)
    requires requests & 0x1F != 0
    requires requests & i.Bit() != 0
    requires forall j: Interrupt :: j.Index() < i.Index() ==> requests & j.Bit() == 0
    ensures i == Highest(requests)
  {
    var h := Highest(requests);
    assert !(h.Index() < i.Index());
    assert !(i.Index() < h.Index());
    assert i.Index() == h.Index();
  }

  /** IF with the interrupt's request set (`iflag.insert`): that bit is 1 and
    * every other bit is unchanged. */
  function WithRequest(iflag: bv8, interrupt: Interrupt): (r: bv8)
    ensures r & interrupt.Bit() != 0
    ensures r & !interrupt.Bit() == iflag & !interrupt.Bit()
    ensures iflag & 0xE0 == 0 ==> r & 0xE0 == 0
  {
    iflag | interrupt.Bit()
  }

  /** IF with the interrupt's request cleared (`iflag.remove`): that bit is 0
    * and every other bit is unchanged. */
  function WithoutRequest(iflag: bv8, interrupt: Interrupt): (r: bv8)
    ensures r & interrupt.Bit() == 0
    ensures r & !interrupt.Bit() == iflag & !interrupt.Bit()
    ensures iflag & 0xE0 == 0 ==> r & 0xE0 == 0
  {
    iflag & !interrupt.Bit()
  }

  class InterruptState {
    var ime: bool
    var ie: bv8
    var iflag: bv8
    var executing: bool

    /** IE and IF hold only the five interrupt bits (`from_bits_truncate`). */
    predicate Valid()
      reads this
    {
      ie & 0xE0 == 0 && iflag & 0xE0 == 0
    }

    /** `InterruptState::new`: nothing enabled, requested or in progress. */
    constructor ()
      ensures Valid()
      ensures !ime && ie == 0 && iflag == 0 && !executing
    {
      ime, ie, iflag, executing := false, 0, 0, false;
    }

    /** `mem_read` of IF (0xFF0F) and IE (0xFFFF); any other address panics. */
    function MemRead(address: u16): (v: bv8)
      requires address == 0xFF0F || address == 0xFFFF
      reads this
      ensures Valid() ==> v & 0xE0 == 0
    {
      if address == 0xFF0F then iflag else ie
    }

    /** `mem_write`: the register keeps the value's five interrupt bits and the
      * other register is untouched. */
    method MemWrite(address: u16, value: bv8)
      requires address == 0xFF0F || address == 0xFFFF
      requires Valid()
      modifies this`iflag, this`ie
      ensures Valid()
      ensures MemRead(address) == value & 0x1F
      ensures address == 0xFF0F ==> ie == old(ie)
      ensures address == 0xFFFF ==> iflag == old(iflag)
    {
      if address == 0xFF0F {
        iflag := value & 0x1F;
      } else {
        ie := value & 0x1F;
      }
    }
  }

  /** The CPU as interrupts.rs sees it: the registers and bus of readwrite.rs,
    * the interrupt state, the IO block holding the joypad, and the halt flag
    * and the machine-cycle count of the current step. */
  class Cpu {
    const bus: ReadWrite.Cpu
    const istate: InterruptState
    const io: Io.IO
    var halt: bool
    var cycles: nat

    /** Assembles the parts; not running and not halted. */
    constructor (bus: ReadWrite.Cpu, istate: InterruptState, io: Io.IO)
      ensures this.bus == bus && this.istate == istate && this.io == io
      ensures !halt && cycles == 0
    {
      this.bus, this.istate, this.io := bus, istate, io;
      halt, cycles := false, 0;
    }

    /** `update_input`: the button's bit becomes `!pressed`, every other button
      * keeps its bit, and a joypad interrupt is requested. */
    method UpdateInput(button: Button, pressed: bool)
      requires istate.Valid()
      modifies io.input`flags, istate`iflag
      ensures io.input.flags == SetButton(old(io.input.flags), button, !pressed)
      ensures istate.iflag == WithRequest(old(istate.iflag), Joypad)
      ensures istate.Valid()
    {
      io.input.flags := SetButton(io.input.flags, button, !pressed);
      RequestInterrupt(Joypad);
    }

    /** `request_interrupt`: sets the interrupt's IF bit and no other; IE and IME
      * are untouched. */
    method RequestInterrupt(interrupt: Interrupt)
      requires istate.Valid()
      modifies istate`iflag
      ensures istate.iflag == WithRequest(old(istate.iflag), interrupt)
      ensures istate.Valid()
    {
      istate.iflag := WithRequest(istate.iflag, interrupt);
    }

    /** `run_interrupt`: clears the interrupt's IF bit, pushes pc and jumps to the
      * vector; the handler entry takes 5 machine cycles. */
    method RunInterrupt(interrupt: Interrupt)
      requires istate.Valid()
      modifies istate`iflag, istate`executing, bus, this`cycles
      ensures istate.iflag == WithoutRequest(old(istate.iflag), interrupt)
      ensures bus.reg == old(bus.reg).(sp := Wrap16(old(bus.reg.sp) as int - 2), pc := interrupt.Vector())
      ensures bus.targets == Pushed(old(bus.targets), old(bus.reg.sp), old(bus.reg.pc))
      ensures istate.executing && cycles == 5
      ensures istate.Valid()
    {
      istate.iflag := WithoutRequest(istate.iflag, interrupt);
      bus.Push(bus.reg.pc);
      bus.reg := bus.reg.(pc := interrupt.Vector());
      istate.executing := true;
      cycles := 5;
    }

    /** `check_for_interrupt`. With no interrupt both enabled and requested it
      * changes nothing. Otherwise it leaves halt mode, and, when IME is set,
      * services the highest-priority one of them, clears IME and returns true. */
    method CheckForInterrupt() returns (serviced: bool)
      requires istate.Valid()
      modifies this`halt, this`cycles, istate`ime, istate`iflag, istate`executing, bus
      ensures istate.Valid()
      ensures old(istate.ie & istate.iflag) == 0 ==> !serviced && unchanged(this, istate, bus)
      ensures old(istate.ie & istate.iflag) != 0 ==> !halt
      ensures old(istate.ie & istate.iflag) != 0 && !old(istate.ime) ==>
        !serviced && unchanged(istate, bus) && cycles == old(cycles)
      ensures serviced <==> old(istate.ie & istate.iflag) != 0 && old(istate.ime)
      ensures serviced ==> !istate.ime && istate.executing && cycles == 5
      ensures serviced ==> istate.iflag == WithoutRequest(old(istate.iflag), Highest(old(istate.ie & istate.iflag)))
      ensures serviced ==> bus.reg == old(bus.reg).(sp := Wrap16(old(bus.reg.sp) as int - 2),
        pc := Highest(old(istate.ie & istate.iflag)).Vector())
      ensures serviced ==> bus.targets == Pushed(old(bus.targets), old(bus.reg.sp), old(bus.reg.pc))
    {
      var requests := istate.ie & istate.iflag;
      if requests > 0 {
        halt := false;
        if istate.ime {
          if requests & VBlank.Bit() != 0 {
            RunInterrupt(VBlank);
          } else if requests & Lcd.Bit() != 0 {
            RunInterrupt(Lcd);
          } else if requests & TimerOverflow.Bit() != 0 {
            RunInterrupt(TimerOverflow);
          } else if requests & SerialTransfer.Bit() != 0 {
            RunInterrupt(SerialTransfer);
          } else if requests & Joypad.Bit() != 0 {
            RunInterrupt(Joypad);
          }
          istate.ime := false;
          return true;
        }
      }
      return false;
    }
  }
}
