/** io.rs: the timer (TIMA counter, TMA modulo, TAC control), the serial byte
  * and the joypad register, behind the addresses 0xFF00-0xFF07. */
module Io {
  import opened Bits
  import opened Input

  /** The fields of `Timer` as one value. */
  datatype TimerState = TimerState(
    cycles: u8, modulo: bv8, counter: bv8, control: bv8, target: u8,
    enabled: bool, overflowed: bool)

  /** One call of `Timer::cycle`. A disabled timer does nothing. Otherwise the
    * divider `cycles` counts up to `target` and then restarts at 0; on that
    * restart the counter steps, and from 255 it reloads from `modulo` and
    * signals an overflow. */
  function TimerStep(s: TimerState): TimerState
  {
    if !s.enabled then s
    else if s.cycles == s.target then
      if s.counter == 255 then s.(cycles := 0, overflowed := true, counter := s.modulo)
      else s.(cycles := 0, overflowed := false, counter := s.counter + 1)
    else s.(cycles := ((s.cycles as int + 1) % 0x100) as u8)
  }

  /** `n` calls of `Timer::cycle`. */
  function TimerRun(s: TimerState, n: nat): TimerState
  {
    if n == 0 then s else TimerStep(TimerRun(s, n - 1))
  }

  /** The counter value and overflow signal after the divider restarts. */
  function Tick(s: TimerState): TimerState
  {
    if s.counter == 255 then s.(cycles := 0, overflowed := true, counter := s.modulo)
    else s.(cycles := 0, overflowed := false, counter := s.counter + 1)
  }

  /** The divider period selected by the low two bits of TAC. */
  function RateTarget(select: bv8): (t: u8)
    requires select < 4
    ensures t == 255 || t == 4 || t == 16 || t == 64
  {
    if select == 0 then 255 else if select == 1 then 4 else if select == 2 then 16 else 64
  }

  /** A disabled timer never changes. */
  lemma DisabledTimerStays(s: TimerState, n: nat)
    requires !s.enabled
    ensures TimerRun(s, n) == s
  {
    if n > 0 {
      DisabledTimerStays(s, n - 1);
    }
  }

  /** A step keeps the divider within 0..=target. */
  lemma TimerStepBounded(s: TimerState)
    requires s.cycles <= s.target
    ensures TimerStep(s).cycles <= TimerStep(s).target == s.target
  {
  }

  /** Until the divider reaches `target`, an enabled timer only counts `cycles`
    * up: the counter and the overflow signal keep their values. */
  lemma {:induction false} RunBeforeTick(s: TimerState, n: nat)
    requires s.enabled && s.cycles as int + n <= s.target as int
    ensures TimerRun(s, n) == s.(cycles := (s.cycles as int + n) as u8)
  {
    if n > 0 {
      RunBeforeTick(s, n - 1);
    }
  }

  /** From a restart of the divider, the counter steps on exactly the
    * `target + 1`-th call: the `target` calls before leave it alone, and that
    * call steps it (or reloads it from `modulo`, signalling an overflow). */
  lemma TimerPeriod(s: TimerState)
    requires s.enabled && s.cycles == 0
    ensures forall k | 0 <= k <= s.target as int :: TimerRun(s, k).counter == s.counter
    ensures TimerRun(s, s.target as nat + 1) == Tick(s)
  {
    forall k | 0 <= k <= s.target as int
      ensures TimerRun(s, k).counter == s.counter
    {
      RunBeforeTick(s, k);
    }
    RunBeforeTick(s, s.target as nat);
  }

  /** After a restart of the divider, the next overflow signal says whether the
    * counter was at 255, and the counter is then the reloaded modulo. */
  lemma OverflowOnWrap(s: TimerState)
    requires s.enabled && s.cycles == 0
    ensures TimerRun(s, s.target as nat + 1).overflowed <==> s.counter == 255
    ensures s.counter == 255 ==> TimerRun(s, s.target as nat + 1).counter == s.modulo
    ensures s.counter != 255 ==> TimerRun(s, s.target as nat + 1).counter as int == s.counter as int + 1
  {
    TimerPeriod(s);
  }

  class Timer {
    var cycles: u8
    var modulo: bv8
    var counter: bv8
    var control: bv8
    var target: u8
    var enabled: bool
    var overflowed: bool

    function State(): TimerState
      reads this
    {
      TimerState(cycles, modulo, counter, control, target, enabled, overflowed)
    }

    /** `Timer::new`: stopped, with divider period 255. */
    constructor ()
      ensures State() == TimerState(0, 0, 0, 0, 255, false, false)
    {
      cycles, modulo, counter, control, target := 0, 0, 0, 0, 255;
      enabled, overflowed := false, false;
    }

    /** `Timer::cycle`. */
    method Cycle()
      modifies this
      ensures State() == TimerStep(old(State()))
    {
      if !enabled {
        return;
      }
      if cycles == target {
        cycles := 0;
        if counter == 255 {
          overflowed := true;
          counter := modulo;
        } else {
          overflowed := false;
          counter := counter + 1;
        }
      } else {
        cycles := ((cycles as int + 1) % 0x100) as u8;
      }
    }

    /** `Timer::control`: TAC keeps its low three bits, bit 2 enables the timer
      * and bits 0-1 select the divider period 255, 4, 16 or 64. */
    method Control(value: bv8)
      modifies this`control, this`enabled, this`target
      ensures control == value & 0x07
      ensures enabled == (value & 0x04 != 0)
      ensures target == RateTarget(value & 0x03)
      ensures value & 0x03 == 0 ==> target == 255
      ensures value & 0x03 == 1 ==> target == 4
      ensures value & 0x03 == 2 ==> target == 16
      ensures value & 0x03 == 3 ==> target == 64
    {
      control := value & 0x07;
      enabled := control & 0x04 != 0;
      var select := control & 0x03;
      target := if select == 0 then 255 else if select == 1 then 4 else if select == 2 then 16 else 64;
    }
  }

  /** The addresses `IO::mem_read`/`mem_write` give a meaning to. */
  predicate Decoded(address: u16)
  {
    address == 0xFF00 || address == 0xFF01 || address == 0xFF05 || address == 0xFF06 || address == 0xFF07
  }

  /** `IO`: its `get_range` is 0xFF00..=0xFF07. */
  class IO {
    const input: InputReg
    var serial: bv8
    const timer: Timer

    constructor ()
      ensures !input.selectButton && !input.selectDpad && input.flags == 0xFF
      ensures serial == 0
      ensures timer.State() == TimerState(0, 0, 0, 0, 255, false, false)
    {
      input := new InputReg();
      serial := 0;
      timer := new Timer();
    }

    /** `IO::mem_read`: the joypad nibble, serial byte, counter, modulo and
      * control register; any other address reads 0. */
    function MemRead(address: u16): (v: bv8)
      reads this, input, timer
      ensures address == 0xFF00 ==> v == input.MemRead() && v <= 0x0F
      ensures address == 0xFF01 ==> v == serial
      ensures address == 0xFF05 ==> v == timer.counter
      ensures address == 0xFF06 ==> v == timer.modulo
      ensures address == 0xFF07 ==> v == timer.control
      ensures !Decoded(address) ==> v == 0
    {
      if address == 0xFF00 then input.MemRead()
      else if address == 0xFF01 then serial
      else if address == 0xFF05 then timer.counter
      else if address == 0xFF06 then timer.modulo
      else if address == 0xFF07 then timer.control
      else 0
    }

    /** `IO::mem_write`: serial, counter and modulo read back as written, the
      * control register as its low three bits, a joypad write sets only the
      * two selects, and every other address (0xFF02 included) changes nothing. */
    method MemWrite(address: u16, value: bv8)
      modifies this`serial, input`selectButton, input`selectDpad, timer`counter, timer`modulo,
        timer`control, timer`enabled, timer`target
      ensures address == 0xFF01 || address == 0xFF05 || address == 0xFF06 ==> MemRead(address) == value
      ensures address == 0xFF07 ==> MemRead(address) == value & 0x07
      ensures address == 0xFF07 ==> timer.State() == old(timer.State()).(control := value & 0x07,
        enabled := value & 0x04 != 0, target := RateTarget(value & 0x03))
      ensures address == 0xFF00 ==> input.selectButton == (value & 0x20 != 0) && input.selectDpad == (value & 0x10 != 0)
      ensures address != 0xFF00 ==> unchanged(input)
      ensures address != 0xFF01 ==> serial == old(serial)
      ensures address != 0xFF05 && address != 0xFF06 && address != 0xFF07 ==> unchanged(timer)
      ensures address == 0xFF05 ==> timer.State() == old(timer.State()).(counter := value)
      ensures address == 0xFF06 ==> timer.State() == old(timer.State()).(modulo := value)
    {
      if address == 0xFF00 {
        input.MemWrite(value);
      } else if address == 0xFF01 {
        serial := value;
      } else if address == 0xFF05 {
        timer.counter := value;
      } else if address == 0xFF06 {
        timer.modulo := value;
      } else if address == 0xFF07 {
        timer.Control(value);
      }
    }
  }
}
