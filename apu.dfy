/** apu.rs: two square-wave channels (their NRx1-NRx4 registers, length timer,
  * volume envelope, period divider and duty table) and the APU that clocks
  * them and collects samples. Register bytes and counters are the integer
  * types `u8` and `u16`; the bit packing of the registers is written out
  * arithmetically. The floating-point sample value is left out: a sample is
  * kept as the two integer channel levels it is computed from. */
module Apu {
  import opened Bits

  /** The fields of `SquareChannel` as one value. */
  datatype Channel = Channel(
    on: bool, sweep: bool, periodDiv: u16, dutyPointer: u8, lengthTimer: u8,
    volume: u8, envelopeTimer: u8, dutyIndex: u8, initialLength: u8,
    lengthEnabled: bool, periodValue: u16, initialVolume: u8, envelopeIncrease: bool,
    envelopePace: u8)
  {
    /** The ranges the register writes and the timers keep every field in:
      * each `+= 1` of apu.rs stays below its type's limit, and the register
      * fields fit the bits they are packed into. */
    predicate Valid()
    {
      && periodValue < 0x800 && periodDiv < 0x800 && dutyPointer <= 7 && dutyIndex <= 3
      && initialLength <= 63 && lengthTimer <= 64 && volume <= 15 && initialVolume <= 15
      && envelopePace <= 7 && 1 <= envelopeTimer <= 7
    }
  }

  /** A `bool` as the bit `as u8` makes of it. */
  function Flag(b: bool): u8
  {
    if b then 1 else 0
  }

  /** Bit `k` of a byte. */
  function BitOf(v: u8, k: nat): bool
    requires k < 8
  {
    (v as int / [1, 2, 4, 8, 16, 32, 64, 128][k]) % 2 == 1
  }

  /** `SquareChannel::new`: off, the length timer expired (64), envelope timer 1. */
  function NewChannel(sweep: bool): (c: Channel)
    ensures c.Valid() && !c.on && c.sweep == sweep && c.lengthTimer == 64
  {
    Channel(false, sweep, 0, 0, 64, 0, 1, 0, 0, false, 0, 0, false, 0)
  }

  /** `read_register`: NRx0 reads 0; NRx1 packs duty (bits 6-7) and initial
    * length (bits 0-5), NRx2 the initial volume (bits 4-7), the direction (bit
    * 3) and the pace (bits 0-2), NRx3 the low byte of the period and NRx4 its
    * bits 8-10 with the length enable at bit 6. The fields are in range, so
    * each `|` of disjoint bit fields is a sum. Indices above 4 are
    * `unreachable!()`. What a write leaves there is `WrittenReadsBack`. */
  function ReadRegister(c: Channel, index: int): (v: u8)
    requires c.Valid() && 0 <= index <= 4
    ensures index == 0 ==> v == 0
    ensures index == 1 ==> v / 64 == c.dutyIndex && v % 64 == c.initialLength
    ensures index == 2 ==> v / 16 == c.initialVolume && v % 8 == c.envelopePace && BitOf(v, 3) == c.envelopeIncrease
    ensures index == 3 ==> v as int == c.periodValue as int % 0x100
    ensures index == 4 ==> (v % 8) as int == c.periodValue as int / 0x100 && BitOf(v, 6) == c.lengthEnabled && v % 64 < 8 && v < 0x80
  {
    if index == 0 then 0
    else if index == 1 then c.dutyIndex * 64 + c.initialLength
    else if index == 2 then c.initialVolume * 16 + Flag(c.envelopeIncrease) * 8 + c.envelopePace
    else if index == 3 then (c.periodValue % 0x100) as u8
    else (c.periodValue / 0x100) as u8 + Flag(c.lengthEnabled) * 64
  }

  /** `write_register`; see `WrittenReadsBack` and `WrittenKeeps`. */
  function Written(c: Channel, index: int, value: u8): Channel
    requires 0 <= index <= 4
  {
    if index == 0 then c
    else if index == 1 then c.(dutyIndex := value / 64, initialLength := value % 64)
    else if index == 2 then
      c.(initialVolume := value / 16, envelopeIncrease := BitOf(value, 3), envelopePace := value % 8)
    else if index == 3 then c.(periodValue := c.periodValue / 0x100 * 0x100 + value as u16)
    else c.(lengthEnabled := BitOf(value, 6), periodValue := c.periodValue % 0x100 + (value % 8) as u16 * 0x100)
  }

  /** A register reads back what was written to it: NRx1, NRx2 and NRx3
    * exactly, NRx4 as its bits 0-2 (period bits 8-10) and 6 (length enable),
    * its other bits reading 0. */
  lemma WrittenReadsBack(c: Channel, index: int, value: u8)
    requires c.Valid() && 1 <= index <= 4
    requires Written(c, index, value).Valid()
    ensures (ReadRegister(Written(c, index, value), index)
      == if index == 4 then value % 8 + (if BitOf(value, 6) then 64 else 0) else value)
  {
    var v := value as int;
    var d := Written(c, index, value);
    if index == 2 {
      EnvelopeByte(value);
    } else if index == 3 {
      assert d.periodValue as int % 0x100 == v;
    } else if index == 4 {
      assert d.periodValue as int / 0x100 == v % 8;
    }
  }

  /** NRx2's three fields put back together give the byte they came from. */
  lemma EnvelopeByte(value: u8)
    ensures (value / 16) as int * 16 + Flag(BitOf(value, 3)) as int * 8 + (value % 8) as int == value as int
  {
    var v := value as int;
    var q, r := v / 16, v % 16;
    assert v == 16 * q + r;
    assert v / 8 == 2 * q + r / 8;
    assert v % 8 == r % 8;
  }

  /** A register write changes only its own register's fields: NRx3 only the
    * low byte of the period and NRx4 only its bits 8-10, so the period stays
    * below 0x800. */
  lemma WrittenKeeps(c: Channel, index: int, value: u8)
    requires 0 <= index <= 4
    ensures index == 0 ==> Written(c, index, value) == c
    ensures (var d := Written(c, index, value);
      && (index == 1 ==> d == c.(dutyIndex := d.dutyIndex, initialLength := d.initialLength))
      && (index == 2 ==>
        d == c.(initialVolume := d.initialVolume, envelopeIncrease := d.envelopeIncrease, envelopePace := d.envelopePace))
      && (index == 3 ==> d == c.(periodValue := d.periodValue) && d.periodValue / 0x100 == c.periodValue / 0x100)
      && (index == 4 ==>
        d == c.(periodValue := d.periodValue, lengthEnabled := d.lengthEnabled)
        && d.periodValue % 0x100 == c.periodValue % 0x100 && d.periodValue < 0x800))
  {
  }

  /** Every register write keeps a channel valid. */
  lemma WrittenValid(c: Channel, index: int, value: u8)
    requires c.Valid() && 0 <= index <= 4
    ensures Written(c, index, value).Valid()
  {
  }

  /** `update_length_timer`; see `LengthStepSpec`. The `+= 1` needs the timer
    * below `u8::MAX`. */
  function LengthStep(c: Channel): Channel
    requires c.lengthTimer < 0xFF
  {
    if c.lengthTimer == 64 then (if c.lengthEnabled then c.(on := false) else c)
    else c.(lengthTimer := c.lengthTimer + 1)
  }

  /** Away from 64 the length timer counts up, so from 64 or below it never
    * passes 64; at 64 it stays, and the channel goes off exactly then, when the
    * length enable is set. Nothing else changes. */
  lemma LengthStepSpec(c: Channel)
    requires c.lengthTimer < 0xFF
    ensures (var d := LengthStep(c);
      && d == c.(on := d.on, lengthTimer := d.lengthTimer)
      && (c.lengthTimer != 64 ==> d.lengthTimer == c.lengthTimer + 1)
      && (c.lengthTimer == 64 ==> d.lengthTimer == 64)
      && (c.lengthTimer <= 64 ==> d.lengthTimer <= 64)
      && (d.on <==> c.on && !(c.lengthTimer == 64 && c.lengthEnabled))
      && (c.Valid() ==> d.Valid()))
  {
  }

  /** `update_envelope`; see `EnvelopeStepSpec`. */
  function EnvelopeStep(c: Channel): Channel
  {
    if c.envelopePace == 0 then c
    else if c.envelopeTimer < c.envelopePace then c.(envelopeTimer := c.envelopeTimer + 1)
    else if c.envelopeIncrease then
      c.(envelopeTimer := 1, volume := if c.volume < 15 then c.volume + 1 else c.volume)
    else c.(envelopeTimer := 1, volume := if c.volume > 0 then c.volume - 1 else c.volume)
  }

  /** Pace 0 disables the envelope. Otherwise the envelope timer counts up to
    * the pace and then restarts at 1, and only then does the volume move, one
    * step in the envelope's direction; a volume in 0..=15 stays there. */
  lemma EnvelopeStepSpec(c: Channel)
    ensures (var d := EnvelopeStep(c);
      && d == c.(volume := d.volume, envelopeTimer := d.envelopeTimer)
      && (c.envelopePace == 0 ==> d == c)
      && (c.volume <= 15 ==> d.volume <= 15)
      && (c.envelopeIncrease ==> d.volume == c.volume || (c.volume < 15 && d.volume == c.volume + 1))
      && (!c.envelopeIncrease ==> d.volume == c.volume || (c.volume > 0 && d.volume == c.volume - 1))
      && (d.volume != c.volume ==> d.envelopeTimer == 1 && c.envelopeTimer >= c.envelopePace > 0)
      && (c.Valid() ==> d.Valid()))
  {
  }

  /** `update_period`; see `PeriodStepSpec`. The `+= 1`s need the divider and
    * the pointer below their types' maxima. */
  function PeriodStep(c: Channel): Channel
    requires c.periodDiv < 0xFFFF && c.dutyPointer < 0xFF
  {
    if c.periodDiv == 0x7FF then
      c.(dutyPointer := if c.dutyPointer == 7 then 0 else c.dutyPointer + 1, periodDiv := c.periodValue)
    else c.(periodDiv := c.periodDiv + 1)
  }

  /** The divider counts up to 0x7FF; then it reloads from the period value and
    * the duty pointer moves on to the next of its 8 steps, wrapping at 8, so
    * it stays in 0..=7. */
  lemma PeriodStepSpec(c: Channel)
    requires c.periodDiv < 0xFFFF && c.dutyPointer < 0xFF
    ensures (var d := PeriodStep(c);
      && d == c.(periodDiv := d.periodDiv, dutyPointer := d.dutyPointer)
      && (c.periodDiv == 0x7FF ==> d.periodDiv == c.periodValue)
      && (c.periodDiv == 0x7FF && c.dutyPointer <= 7 ==> d.dutyPointer as int == (c.dutyPointer as int + 1) % 8)
      && (c.periodDiv != 0x7FF ==> d.periodDiv == c.periodDiv + 1 && d.dutyPointer == c.dutyPointer)
      && (c.dutyPointer <= 7 ==> d.dutyPointer <= 7)
      && (c.Valid() ==> d.Valid()))
  {
  }

  /** `trigger`; see `TriggeredSpec`. */
  function Triggered(c: Channel): Channel
  {
    c.(on := true, periodDiv := c.periodValue, volume := c.initialVolume, envelopeTimer := 1,
       lengthTimer := if c.lengthTimer == 64 then c.initialLength else c.lengthTimer)
  }

  /** A trigger turns the channel on and restarts the divider and the volume
    * from the period value and the initial volume; an expired length timer
    * (64) restarts from the initial length and a running one keeps counting.
    * No register field changes, so all five registers read as before. */
  lemma TriggeredSpec(c: Channel, index: int)
    requires c.Valid() && 0 <= index <= 4
    ensures (var d := Triggered(c);
      && d.Valid()
      && d.on && d.periodDiv == c.periodValue && d.volume == c.initialVolume && d.envelopeTimer == 1
      && d.lengthTimer == (if c.lengthTimer == 64 then c.initialLength else c.lengthTimer)
      && ReadRegister(d, index) == ReadRegister(c, index))
  {
  }

  /** What a channel register reads after `mem_write` stored `value` there,
    * whether or not the write also triggered the channel. */
  lemma ChannelWriteReadsBack(c: Channel, index: int, value: u8, trigger: bool)
    requires c.Valid() && 1 <= index <= 4
    ensures (var written := Written(c, index, value);
      var d := if trigger then Triggered(written) else written;
      d.Valid() && ReadRegister(d, index) == if index == 4 then value % 8 + (if BitOf(value, 6) then 64 else 0) else value)
  {
    WrittenValid(c, index, value);
    WrittenReadsBack(c, index, value);
    TriggeredSpec(Written(c, index, value), index);
  }

  /** The duty table of `get_duty_cycle_val`, one 8-step wave per duty index. */
  function DutyPattern(duty: u8): (p: seq<u8>)
    requires duty <= 3
    ensures |p| == 8 && forall i | 0 <= i < 8 :: p[i] <= 1
  {
    if duty == 0 then [1, 1, 1, 1, 1, 1, 1, 0]
    else if duty == 1 then [0, 1, 1, 1, 1, 1, 1, 0]
    else if duty == 2 then [0, 1, 1, 1, 1, 0, 0, 0]
    else [1, 0, 0, 0, 0, 0, 0, 1]
  }

  /** How many of the first `n` steps of a wave are low. */
  function LowSteps(p: seq<u8>, n: nat): nat
    requires n <= |p|
  {
    if n == 0 then 0 else LowSteps(p, n - 1) + if p[n - 1] == 0 then 1 else 0
  }

  /** The duty indices name the share of the 8 steps that are low: 1, 2, 4 and 6
    * steps, the 12.5 %, 25 %, 50 % and 75 % of the table's comments. */
  lemma DutyShares(duty: u8)
    requires duty <= 3
    ensures LowSteps(DutyPattern(duty), 8) == [1, 2, 4, 6][duty]
  {
    if duty == 0 {
      assert LowSteps([1, 1, 1, 1, 1, 1, 1, 0], 8) == 1;
    } else if duty == 1 {
      assert LowSteps([0, 1, 1, 1, 1, 1, 1, 0], 8) == 2;
    } else if duty == 2 {
      assert LowSteps([0, 1, 1, 1, 1, 0, 0, 0], 8) == 4;
    } else {
      assert LowSteps([1, 0, 0, 0, 0, 0, 0, 1], 8) == 6;
    }
  }

  /** The integer part of `get_sample`: the duty step (`get_duty_cycle_val` at
    * the duty pointer) times the volume while the channel is on, 0 while it is
    * off; `get_sample` divides it by 15. It never exceeds the volume. */
  function Level(c: Channel): (l: u8)
    requires c.Valid()
    ensures l <= c.volume <= 15
    ensures !c.on ==> l == 0
  {
    if c.on && DutyPattern(c.dutyIndex)[c.dutyPointer] == 1 then c.volume else 0
  }

  /** A pushed sample: `Silence` for the `0.0` of a switched-off APU, otherwise
    * the two channel levels the float `clamp((l1 + l2) / 15, 0, 1) * 0.1` is
    * computed from. */
  datatype Sample = Silence | Mixed(level1: u8, level2: u8)

  /** The sample `cycle` pushes: silence while the APU is off, otherwise the
    * levels of both channels. */
  function SampleOf(on: bool, c1: Channel, c2: Channel): (s: Sample)
    requires c1.Valid() && c2.Valid()
    ensures !on <==> s == Silence
    ensures on ==> s.level1 <= 15 && s.level2 <= 15
  {
    if on then Mixed(Level(c1), Level(c2)) else Silence
  }

  /** The frame sequencer's effect on a channel in one call of `cycle`: on a
    * falling edge of DIV bit 12 the length timer steps when the new DIV-APU
    * value is even and the envelope when it is a multiple of 8. */
  function FrameStep(c: Channel, edge: bool, divApu: u8): (d: Channel)
    requires c.Valid()
    ensures d.Valid()
    ensures !edge ==> d == c
  {
    LengthStepSpec(c);
    var afterLength := if edge && divApu % 2 == 0 then LengthStep(c) else c;
    EnvelopeStepSpec(afterLength);
    if edge && divApu % 8 == 0 then EnvelopeStep(afterLength) else afterLength
  }

  /** One call of `cycle` for a channel: the frame sequencer, then, on every
    * fourth call, the period divider. */
  function ChannelCycle(c: Channel, edge: bool, divApu: u8, periodTick: bool): (d: Channel)
    requires c.Valid()
    ensures d.Valid()
  {
    var afterFrame := FrameStep(c, edge, divApu);
    PeriodStepSpec(afterFrame);
    if periodTick then PeriodStep(afterFrame) else afterFrame
  }

  /** Without an edge of DIV bit 12 only the period divider can move, and only
    * on a period tick; DIV-APU values that are odd change nothing but the
    * divider either. */
  lemma ChannelCycleQuiet(c: Channel, edge: bool, divApu: u8, periodTick: bool)
    requires c.Valid()
    requires !edge || divApu % 2 == 1
    ensures ChannelCycle(c, edge, divApu, periodTick) == if periodTick then PeriodStep(c) else c
  {
  }

  /** A divider that counts 0, 1, ..., top and then fires and restarts at 0:
    * `period_delay_counter` with top 3 and `sample_delay_counter` with top
    * `sample_delay`. */
  function DividerStep(n: int, top: nat): (r: (int, bool))
    requires 0 <= n <= top
    ensures 0 <= r.0 <= top
    ensures r.1 <==> n == top
    ensures r.0 == if r.1 then 0 else n + 1
  {
    if n == top then (0, true) else (n + 1, false)
  }

  /** The count and the number of times the divider fired after `k` steps. */
  function DividerRun(n: int, top: nat, k: nat): (r: (int, nat))
    requires 0 <= n <= top
    ensures 0 <= r.0 <= top
    decreases k
  {
    if k == 0 then (n, 0)
    else
      var before := DividerRun(n, top, k - 1);
      var step := DividerStep(before.0, top);
      (step.0, before.1 + if step.1 then 1 else 0)
  }

  /** From 0, a divider with top `top` fires once per `top + 1` steps: after
    * `q * (top + 1) + r` steps, `r <= top`, it has fired `q` times and counts
    * `r`. */
  lemma {:induction false} DividerRate(top: nat, q: nat, r: nat)
    requires r <= top
    ensures DividerRun(0, top, q * (top + 1) + r) == (r, q)
    decreases q, r
  {
    var k := q * (top + 1) + r;
    if r > 0 {
      DividerRate(top, q, r - 1);
      assert k - 1 == q * (top + 1) + (r - 1);
    } else if q > 0 {
      DividerRate(top, q - 1, top);
      assert k - 1 == (q - 1) * (top + 1) + top;
    }
  }

  /** `SquareChannel`, its fields updated in place. */
  class SquareChannel {
    var on: bool
    var sweep: bool
    var periodDiv: u16
    var dutyPointer: u8
    var lengthTimer: u8
    var volume: u8
    var envelopeTimer: u8
    var dutyIndex: u8
    var initialLength: u8
    var lengthEnabled: bool
    var periodValue: u16
    var initialVolume: u8
    var envelopeIncrease: bool
    var envelopePace: u8

    function State(): Channel
      reads this
    {
      Channel(on, sweep, periodDiv, dutyPointer, lengthTimer, volume, envelopeTimer, dutyIndex,
        initialLength, lengthEnabled, periodValue, initialVolume, envelopeIncrease, envelopePace)
    }

    /** `SquareChannel::new`. */
    constructor (sweep: bool)
      ensures State() == NewChannel(sweep)
    {
      on, this.sweep, periodDiv, dutyPointer, lengthTimer, volume, envelopeTimer := false, sweep, 0, 0, 64, 0, 1;
      dutyIndex, initialLength, lengthEnabled, periodValue := 0, 0, false, 0;
      initialVolume, envelopeIncrease, envelopePace := 0, false, 0;
    }

    /** `write_register`. */
    method WriteRegister(index: int, value: u8)
      requires 0 <= index <= 4
      modifies this
      ensures State() == Written(old(State()), index, value)
    {
      if index == 1 {
        dutyIndex := value / 64;
        initialLength := value % 64;
      } else if index == 2 {
        initialVolume := value / 16;
        envelopeIncrease := BitOf(value, 3);
        envelopePace := value % 8;
      } else if index == 3 {
        periodValue := periodValue / 0x100 * 0x100 + value as u16;
      } else if index == 4 {
        lengthEnabled := BitOf(value, 6);
        periodValue := periodValue % 0x100 + (value % 8) as u16 * 0x100;
      }
    }

    /** `update_length_timer`. */
    method UpdateLengthTimer()
      requires lengthTimer < 0xFF
      modifies this
      ensures State() == LengthStep(old(State()))
      ensures old(State()).Valid() ==> State().Valid()
    {
      LengthStepSpec(State());
      if lengthTimer == 64 {
        if lengthEnabled {
          on := false;
        }
      } else {
        lengthTimer := lengthTimer + 1;
      }
    }

    /** `update_envelope`. */
    method UpdateEnvelope()
      modifies this
      ensures State() == EnvelopeStep(old(State()))
      ensures old(State()).Valid() ==> State().Valid()
    {
      EnvelopeStepSpec(State());
      if envelopePace == 0 {
        return;
      }
      if envelopeTimer < envelopePace {
        envelopeTimer := envelopeTimer + 1;
      } else {
        envelopeTimer := 1;
        if envelopeIncrease {
          if volume < 15 {
            volume := volume + 1;
          }
        } else if volume > 0 {
          volume := volume - 1;
        }
      }
    }

    /** `update_period`. */
    method UpdatePeriod()
      requires periodDiv < 0xFFFF && dutyPointer < 0xFF
      modifies this
      ensures State() == PeriodStep(old(State()))
      ensures old(State()).Valid() ==> State().Valid()
    {
      PeriodStepSpec(State());
      if periodDiv == 0x7FF {
        if dutyPointer == 7 {
          dutyPointer := 0;
        } else {
          dutyPointer := dutyPointer + 1;
        }
        periodDiv := periodValue;
      } else {
        periodDiv := periodDiv + 1;
      }
    }

    /** `trigger`. */
    method Trigger()
      modifies this
      ensures State() == Triggered(old(State()))
    {
      on := true;
      periodDiv := periodValue;
      volume := initialVolume;
      envelopeTimer := 1;
      if lengthTimer == 64 {
        lengthTimer := initialLength;
      }
    }
  }

  /** NR52 as `mem_read` packs it: the APU's on bit at 7, the channels' at 1
    * and 0. */
  function PowerByte(on: bool, on2: bool, on1: bool): u8
  {
    Flag(on) * 0x80 + Flag(on2) * 2 + Flag(on1)
  }

  /** Each on bit is recovered from its own bit of NR52, and bits 2-6 read 0. */
  lemma PowerByteBits(on: bool, on2: bool, on1: bool)
    ensures var v := PowerByte(on, on2, on1);
      && (BitOf(v, 7) <==> on) && (BitOf(v, 1) <==> on2) && (BitOf(v, 0) <==> on1)
      && !BitOf(v, 2) && !BitOf(v, 3) && !BitOf(v, 4) && !BitOf(v, 5) && !BitOf(v, 6)
  {
  }

  /** `APU`. */
  class Apu {
    var on: bool
    var buffer: seq<Sample>
    var sampleDelayCounter: nat
    var sampleDelay: nat
    var periodDelayCounter: nat
    var divApu: u8
    var lastDivBit: bool
    const channel1: SquareChannel
    const channel2: SquareChannel

    /** Two distinct, valid channels, and both dividers within their tops, so
      * the `u8` and `u32` counters never overflow. */
    predicate Valid()
      reads this, channel1, channel2
    {
      && channel1 != channel2
      && channel1.State().Valid() && channel2.State().Valid()
      && periodDelayCounter <= 3 && sampleDelayCounter <= sampleDelay
    }

    /** `APU::new`: on, an empty buffer, one sample per `4194304 / sample_rate`
      * T-cycles (plus one, see `Cycle`); channel 1 is the one with a sweep
      * unit. A zero rate would divide by zero. */
    constructor (sampleRate: nat)
      requires 0 < sampleRate < 0x1_0000_0000
      ensures Valid()
      ensures on && buffer == [] && sampleDelay == 4194304 / sampleRate
      ensures sampleDelayCounter == 0 && periodDelayCounter == 0 && divApu == 0 && !lastDivBit
      ensures channel1.State() == NewChannel(true) && channel2.State() == NewChannel(false)
      ensures fresh(channel1) && fresh(channel2)
    {
      on, buffer := true, [];
      sampleDelay := 4194304 / sampleRate;
      sampleDelayCounter, periodDelayCounter, divApu, lastDivBit := 0, 0, 0, false;
      channel1 := new SquareChannel(true);
      channel2 := new SquareChannel(false);
    }

    /** `APU::cycle`, one T-cycle. A falling edge of DIV bit 12 steps DIV-APU
      * (wrapping) and the frame sequencer; every fourth call steps the period
      * dividers; every `sample_delay + 1`-th call pushes one sample, made from
      * the channels as this call leaves them. `DividerRate` gives the rates. */
    method Cycle(timerDiv: u16)
      requires Valid()
      modifies this`divApu, this`lastDivBit, this`periodDelayCounter, this`sampleDelayCounter, this`buffer,
        channel1, channel2
      ensures Valid()
      ensures lastDivBit == ((timerDiv as int / 0x1000) % 2 == 1)
      ensures (divApu as int == if old(lastDivBit) && !lastDivBit then (old(divApu) as int + 1) % 0x100 else old(divApu) as int)
      ensures (periodDelayCounter, old(periodDelayCounter) == 3) == DividerStep(old(periodDelayCounter), 3)
      ensures (channel1.State() ==
        ChannelCycle(old(channel1.State()), old(lastDivBit) && !lastDivBit, divApu, old(periodDelayCounter) == 3))
      ensures (channel2.State() ==
        ChannelCycle(old(channel2.State()), old(lastDivBit) && !lastDivBit, divApu, old(periodDelayCounter) == 3))
      ensures (sampleDelayCounter, old(sampleDelayCounter) == sampleDelay) == DividerStep(old(sampleDelayCounter), sampleDelay)
      ensures (buffer == if old(sampleDelayCounter) == sampleDelay
        then old(buffer) + [SampleOf(on, channel1.State(), channel2.State())] else old(buffer))
    {
      ClockFrameSequencer((timerDiv as int / 0x1000) % 2 == 1);
      ClockPeriod();
      ClockSample();
    }

    /** The DIV-driven part of `cycle`. */
    method ClockFrameSequencer(divBit: bool)
      requires Valid()
      modifies this`divApu, this`lastDivBit, channel1, channel2
      ensures Valid()
      ensures lastDivBit == divBit
      ensures (divApu as int == if old(lastDivBit) && !divBit then (old(divApu) as int + 1) % 0x100 else old(divApu) as int)
      ensures channel1.State() == FrameStep(old(channel1.State()), old(lastDivBit) && !divBit, divApu)
      ensures channel2.State() == FrameStep(old(channel2.State()), old(lastDivBit) && !divBit, divApu)
    {
      if lastDivBit && !divBit {
        divApu := ((divApu as int + 1) % 0x100) as u8;
        if divApu % 2 == 0 {
          channel1.UpdateLengthTimer();
          channel2.UpdateLengthTimer();
        }
        if divApu % 8 == 0 {
          channel1.UpdateEnvelope();
          channel2.UpdateEnvelope();
        }
      }
      lastDivBit := divBit;
    }

    /** The period-divider part of `cycle`. */
    method ClockPeriod()
      requires Valid()
      modifies this`periodDelayCounter, channel1, channel2
      ensures Valid()
      ensures (periodDelayCounter, old(periodDelayCounter) == 3) == DividerStep(old(periodDelayCounter), 3)
      ensures channel1.State() == if old(periodDelayCounter) == 3 then PeriodStep(old(channel1.State())) else old(channel1.State())
      ensures channel2.State() == if old(periodDelayCounter) == 3 then PeriodStep(old(channel2.State())) else old(channel2.State())
    {
      if periodDelayCounter == 3 {
        periodDelayCounter := 0;
        channel1.UpdatePeriod();
        channel2.UpdatePeriod();
      } else {
        periodDelayCounter := periodDelayCounter + 1;
      }
    }

    /** The sampling part of `cycle`. */
    method ClockSample()
      requires Valid()
      modifies this`sampleDelayCounter, this`buffer
      ensures Valid()
      ensures (sampleDelayCounter, old(sampleDelayCounter) == sampleDelay) == DividerStep(old(sampleDelayCounter), sampleDelay)
      ensures (buffer == if old(sampleDelayCounter) == sampleDelay
        then old(buffer) + [SampleOf(on, channel1.State(), channel2.State())] else old(buffer))
    {
      if sampleDelayCounter != sampleDelay {
        sampleDelayCounter := sampleDelayCounter + 1;
        return;
      }
      sampleDelayCounter := 0;
      if !on {
        buffer := buffer + [Silence];
        return;
      }
      buffer := buffer + [Mixed(Level(channel1.State()), Level(channel2.State()))];
    }

    /** `receive_buffer`: hands over every sample pushed so far and empties the
      * buffer. */
    method ReceiveBuffer() returns (samples: seq<Sample>)
      modifies this`buffer
      ensures samples == old(buffer) && buffer == []
    {
      samples := buffer;
      buffer := [];
    }

    /** `mem_read` over 0xFF10-0xFF3F: NR10-NR14 and NR21-NR24 (0xFF16-0xFF19,
      * indices 1-4) are the channel registers, NR52 (0xFF26) packs the APU's
      * and the channels' on bits, and every other address reads 0xFF. */
    function MemRead(address: u16): (v: u8)
      requires Valid()
      reads this, channel1, channel2
      ensures 0xFF10 <= address <= 0xFF14 ==> v == ReadRegister(channel1.State(), address as int - 0xFF10)
      ensures 0xFF16 <= address <= 0xFF19 ==> v == ReadRegister(channel2.State(), address as int - 0xFF15)
      ensures address == 0xFF26 ==> v == PowerByte(on, channel2.on, channel1.on)
      ensures !(0xFF10 <= address <= 0xFF14 || 0xFF16 <= address <= 0xFF19 || address == 0xFF26) ==> v == 0xFF
    {
      if 0xFF10 <= address <= 0xFF14 then ReadRegister(channel1.State(), address as int - 0xFF10)
      else if 0xFF16 <= address <= 0xFF19 then ReadRegister(channel2.State(), address as int - 0xFF15)
      else if address == 0xFF26 then PowerByte(on, channel2.on, channel1.on)
      else 0xFF
    }

    /** `mem_write`: a channel register write, followed by a trigger when bit 7
      * of NR14/NR24 is set; NR52 sets only the APU's on bit; other addresses
      * change nothing. */
    method MemWrite(address: u16, value: u8)
      requires Valid()
      modifies this`on, channel1, channel2
      ensures Valid()
      ensures (0xFF10 <= address <= 0xFF14 ==>
        var written := Written(old(channel1.State()), address as int - 0xFF10, value);
        channel1.State() == (if address == 0xFF14 && BitOf(value, 7) then Triggered(written) else written))
      ensures (0xFF16 <= address <= 0xFF19 ==>
        var written := Written(old(channel2.State()), address as int - 0xFF15, value);
        channel2.State() == (if address == 0xFF19 && BitOf(value, 7) then Triggered(written) else written))
      ensures !(0xFF10 <= address <= 0xFF14) ==> channel1.State() == old(channel1.State())
      ensures !(0xFF16 <= address <= 0xFF19) ==> channel2.State() == old(channel2.State())
      ensures on == if address == 0xFF26 then BitOf(value, 7) else old(on)
    {
      if 0xFF10 <= address <= 0xFF14 {
        var index := address as int - 0xFF10;
        if index > 0 {
          ChannelWriteReadsBack(channel1.State(), index, value, address == 0xFF14 && BitOf(value, 7));
        }
        channel1.WriteRegister(index, value);
        if address == 0xFF14 && BitOf(value, 7) {
          channel1.Trigger();
        }
      } else if 0xFF16 <= address <= 0xFF19 {
        var index := address as int - 0xFF15;
        ChannelWriteReadsBack(channel2.State(), index, value, address == 0xFF19 && BitOf(value, 7));
        channel2.WriteRegister(index, value);
        if address == 0xFF19 && BitOf(value, 7) {
          channel2.Trigger();
        }
      } else if address == 0xFF26 {
        on := BitOf(value, 7);
      }
    }
  }

  /** What `mem_read` returns for a channel register after `mem_write` stored
    * `value` there: NR11-NR13 and NR21-NR23 exactly `value`, NR14 and NR24 its
    * bits 0-2 and 6. NR10 reads 0 whatever is written. */
  lemma MemWriteReadsBack(apu: Apu, address: u16, value: u8, c: Channel)
    requires apu.Valid()
    requires 0xFF11 <= address <= 0xFF14 || 0xFF16 <= address <= 0xFF19
    requires (var index := if address <= 0xFF14 then address as int - 0xFF10 else address as int - 0xFF15;
      var trigger := (address == 0xFF14 || address == 0xFF19) && BitOf(value, 7);
      c.Valid()
      && (if address <= 0xFF14 then apu.channel1.State() else apu.channel2.State())
        == (if trigger then Triggered(Written(c, index, value)) else Written(c, index, value)))
    ensures (apu.MemRead(address)
      == if address == 0xFF14 || address == 0xFF19 then value % 8 + (if BitOf(value, 6) then 64 else 0) else value)
  {
    var index := if address <= 0xFF14 then address as int - 0xFF10 else address as int - 0xFF15;
    ChannelWriteReadsBack(c, index, value, (address == 0xFF14 || address == 0xFF19) && BitOf(value, 7));
  }
}
