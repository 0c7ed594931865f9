/** readwrite.rs: the address bus. Each access goes to the first target, in the
  * order mem, ppu, io, one of whose address ranges contains the address. The
  * targets are modelled as storage: the ranges they claim and the bytes they
  * hold. Over the bus sit the 16-bit read, operand fetch and the stack. */
module ReadWrite {
  import opened Bits
  import opened Registers

  /** `RangeInclusive<u16>`. */
  datatype AddressRange = AddressRange(first: u16, last: u16)

  predicate InRange(r: AddressRange, address: u16)
  {
    r.first <= address <= r.last
  }

  /** A `MemoryAccess` target: its `get_range` list and the bytes it holds. */
  datatype Target = Target(ranges: seq<AddressRange>, cells: map<u16, bv8>)

  /** Some range of the target contains the address. */
  predicate Claims(t: Target, address: u16)
  {
    exists k | 0 <= k < |t.ranges| :: InRange(t.ranges[k], address)
  }

  /** `mem_read` of a storage target; a byte never written reads as 0. */
  function TargetRead(t: Target, address: u16): bv8
  {
    if address in t.cells then t.cells[address] else 0
  }

  /** `mem_write` of a storage target. */
  function TargetWrite(t: Target, address: u16, value: bv8): (u: Target)
    ensures u.ranges == t.ranges
    ensures TargetRead(u, address) == value
    ensures forall b :: b != address ==> TargetRead(u, b) == TargetRead(t, b)
  {
    t.(cells := t.cells[address := value])
  }

  /** The index of the first target claiming the address, if any. */
  function FirstClaim(targets: seq<Target>, address: u16): (r: Option<nat>)
    ensures r.Some? ==> r.value < |targets| && Claims(targets[r.value], address)
    ensures r.Some? ==> forall j | 0 <= j < r.value :: !Claims(targets[j], address)
    ensures r.None? ==> forall j | 0 <= j < |targets| :: !Claims(targets[j], address)
  {
    if |targets| == 0 then None
    else if Claims(targets[0], address) then Some(0)
    else
      var rest := FirstClaim(targets[1..], address);
      assert forall j | 1 <= j < |targets| :: targets[j] == targets[1..][j - 1];
      if rest.Some? then Some(rest.value + 1) else None
  }

  /** What `read` returns: the first claiming target's byte, or 0 when no target
    * claims the address. */
  function BusRead(targets: seq<Target>, address: u16): bv8
  {
    var i := FirstClaim(targets, address);
    if i.Some? then TargetRead(targets[i.value], address) else 0
  }

  /** The targets after `write`: only the first claiming target changes. */
  function BusWrite(targets: seq<Target>, address: u16, value: bv8): (s: seq<Target>)
    ensures |s| == |targets|
    ensures forall j | 0 <= j < |s| :: s[j].ranges == targets[j].ranges
  {
    var i := FirstClaim(targets, address);
    if i.Some? then targets[i.value := TargetWrite(targets[i.value], address, value)] else targets
  }

  /** The targets after `push(value)` with stack pointer `sp`: the high byte
    * written at sp-1, then the low byte at sp-2. */
  function Pushed(targets: seq<Target>, sp: u16, value: u16): seq<Target>
  {
    BusWrite(BusWrite(targets, Wrap16(sp as int - 1), Hi(value)), Wrap16(sp as int - 2), Lo(value))
  }

  /** A target that claims the address and follows only targets that do not is the first claim. */
  lemma FirstClaimAt(targets: seq<Target>, address: u16, i: nat)
    requires i < |targets| && Claims(targets[i], address)
    requires forall j | 0 <= j < i :: !Claims(targets[j], address)
    ensures FirstClaim(targets, address) == Some(i)
  {
  }

  /** Only the ranges decide which target claims an address. */
  lemma FirstClaimSameRanges(s: seq<Target>, t: seq<Target>, address: u16)
    requires |s| == |t| && forall j | 0 <= j < |s| :: s[j].ranges == t[j].ranges
    ensures FirstClaim(s, address) == FirstClaim(t, address)
  {
    assert forall j | 0 <= j < |s| :: Claims(s[j], address) == Claims(t[j], address);
    var r := FirstClaim(s, address);
    if r.Some? {
      FirstClaimAt(t, address, r.value);
    }
  }

  /** A write is read back at its address when some target claims it, and reads
    * as 0 otherwise. */
  lemma ReadAfterWrite(targets: seq<Target>, address: u16, value: bv8)
    ensures BusRead(BusWrite(targets, address, value), address)
      == if FirstClaim(targets, address).Some? then value else 0
  {
    FirstClaimSameRanges(BusWrite(targets, address, value), targets, address);
  }

  /** A write leaves the byte read at every other address unchanged. */
  lemma ReadAfterWriteElsewhere(targets: seq<Target>, address: u16, value: bv8, other: u16)
    requires other != address
    ensures BusRead(BusWrite(targets, address, value), other) == BusRead(targets, other)
  {
    FirstClaimSameRanges(BusWrite(targets, address, value), targets, other);
  }

  /** The CPU seen from readwrite.rs: its registers and its bus targets, in the
    * order mem, ppu, io. */
  class Cpu {
    var reg: RegisterFile
    var targets: seq<Target>

    /** `read`: the byte of the first target whose ranges contain the address, 0 if none. */
    method Read(address: u16) returns (v: bv8)
      ensures v == BusRead(targets, address)
    {
      var i := 0;
      while i < |targets|
        invariant 0 <= i <= |targets|
        invariant forall j | 0 <= j < i :: !Claims(targets[j], address)
      {
        var ranges := targets[i].ranges;
        var k := 0;
        while k < |ranges|
          invariant 0 <= k <= |ranges|
          invariant forall m | 0 <= m < k :: !InRange(ranges[m], address)
        {
          if InRange(ranges[k], address) {
            FirstClaimAt(targets, address, i);
            return TargetRead(targets[i], address);
          }
          k := k + 1;
        }
        i := i + 1;
      }
      return 0;
    }

    /** `read_16`: little-endian, the byte at `address` is the low one. */
    method Read16(address: u16) returns (v: u16)
      ensures v == Join(BusRead(targets, Wrap16(address as int + 1)), BusRead(targets, address))
    {
      var lo := Read(address);
      var hi := Read(Wrap16(address as int + 1));
      v := Join(hi, lo);
    }

    /** `write`: the first target whose ranges contain the address stores the
      * byte; an address no target claims changes nothing. */
    method Write(address: u16, value: bv8)
      modifies this`targets
      ensures targets == BusWrite(old(targets), address, value)
      ensures FirstClaim(old(targets), address).None? ==> targets == old(targets)
    {
      var i := 0;
      while i < |targets|
        invariant 0 <= i <= |targets|
        invariant targets == old(targets)
        invariant forall j | 0 <= j < i :: !Claims(targets[j], address)
      {
        var ranges := targets[i].ranges;
        var k := 0;
        while k < |ranges|
          invariant 0 <= k <= |ranges|
          invariant forall m | 0 <= m < k :: !InRange(ranges[m], address)
        {
          if InRange(ranges[k], address) {
            FirstClaimAt(targets, address, i);
            targets := targets[i := TargetWrite(targets[i], address, value)];
            return;
          }
          k := k + 1;
        }
        i := i + 1;
      }
    }

    /** `read_operand`: pc steps, then the byte it points at is read. */
    method ReadOperand() returns (v: bv8)
      modifies this`reg
      ensures reg == old(reg).(pc := Wrap16(old(reg.pc) as int + 1))
      ensures v == BusRead(targets, reg.pc)
    {
      reg := reg.(pc := Wrap16(reg.pc as int + 1));
      v := Read(reg.pc);
    }

    /** `read_operand_16`: pc steps by two and the word at the old pc plus one is read. */
    method ReadOperand16() returns (v: u16)
      modifies this`reg
      ensures reg == old(reg).(pc := Wrap16(old(reg.pc) as int + 2))
      ensures v == Join(BusRead(targets, reg.pc), BusRead(targets, Wrap16(old(reg.pc) as int + 1)))
    {
      reg := reg.(pc := Wrap16(reg.pc as int + 2));
      WrapTwice(old(reg.pc) as int + 2, -1);
      v := Read16(Wrap16(reg.pc as int - 1));
      WrapTwice(old(reg.pc) as int + 1, 1);
    }

    /** `pop`: the word at sp, then sp rises by two. */
    method Pop() returns (v: u16)
      modifies this`reg
      ensures reg == old(reg).(sp := Wrap16(old(reg.sp) as int + 2))
      ensures v == Join(BusRead(targets, Wrap16(old(reg.sp) as int + 1)), BusRead(targets, old(reg.sp)))
    {
      v := Read16(reg.sp);
      reg := reg.(sp := Wrap16(reg.sp as int + 2));
    }

    /** `push`: the high byte goes to sp-1, the low byte to sp-2, and sp drops by two. */
    method Push(value: u16)
      modifies this`reg, this`targets
      ensures reg == old(reg).(sp := Wrap16(old(reg.sp) as int - 2))
      ensures targets == Pushed(old(targets), old(reg.sp), value)
    {
      Write(Wrap16(reg.sp as int - 1), Hi(value));
      Write(Wrap16(reg.sp as int - 2), Lo(value));
      reg := reg.(sp := Wrap16(reg.sp as int - 2));
    }
  }

  /** When targets claim both stack bytes, popping right after pushing gives the
    * pushed word back, at the stack pointer the push left. */
  lemma PushThenPop(targets: seq<Target>, sp: u16, value: u16)
    requires FirstClaim(targets, Wrap16(sp as int - 1)).Some? && FirstClaim(targets, Wrap16(sp as int - 2)).Some?
    ensures var top, pushed := Wrap16(sp as int - 2), Pushed(targets, sp, value);
      Join(BusRead(pushed, Wrap16(top as int + 1)), BusRead(pushed, top)) == value
  {
    var top, high := Wrap16(sp as int - 2), Wrap16(sp as int - 1);
    WrapTwice(sp as int - 2, 1);
    var once := BusWrite(targets, high, Hi(value));
    FirstClaimSameRanges(once, targets, top);
    ReadAfterWrite(once, top, Lo(value));
    ReadAfterWrite(targets, high, Hi(value));
    ReadAfterWriteElsewhere(once, top, Lo(value), high);
    JoinSplit(value);
  }
}
