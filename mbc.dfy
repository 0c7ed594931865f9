/** mbc.rs: the cartridge memory bank controllers. NoMBC maps the ROM and RAM
  * directly; MBC1 and MBC3 translate 0x4000-0x7FFF and 0xA000-0xBFFF through
  * bank registers that writes to the ROM area set. */
module Mbc {
  import opened Bits

  /** The two fields of `CartridgeInfo` the controllers use. */
  datatype CartridgeInfo = CartridgeInfo(romBanks: u16, ramBanks: u16)

  function Pow2(k: nat): (p: nat)
    ensures p >= 1
  {
    if k == 0 then 1 else 2 * Pow2(k - 1)
  }

  lemma {:induction false} Pow2Monotone(j: nat, k: nat)
    requires j <= k
    ensures Pow2(j) <= Pow2(k)
  {
    if j < k {
      Pow2Monotone(j, k - 1);
    }
  }

  /** The number of bits needed for `n` banks: the least `k` with `n <= 2^k`. */
  function CeilLog2(n: nat): (k: nat)
    ensures n <= Pow2(k)
    ensures k > 0 ==> Pow2(k - 1) < n
  {
    if n <= 1 then 0 else 1 + CeilLog2((n + 1) / 2)
  }

  /** At most 2^j banks need at most `j` bits. */
  lemma {:induction false} CeilLog2AtMost(n: nat, j: nat)
    requires n <= Pow2(j)
    ensures CeilLog2(n) <= j
  {
    if n > 1 {
      CeilLog2AtMost((n + 1) / 2, j - 1);
    }
  }

  /** `u8::MAX >> (8 - k)`: the low `k` bits set. */
  function LowMask(k: nat): bv8
    requires 1 <= k <= 8
  {
    if k == 1 then 0x01 else if k == 2 then 0x03 else if k == 3 then 0x07 else if k == 4 then 0x0F
    else if k == 5 then 0x1F else if k == 6 then 0x3F else if k == 7 then 0x7F else 0xFF
  }

  lemma LowMaskIsShift(k: nat)
    requires 1 <= k <= 8
    ensures LowMask(k) == 0xFF >> (8 - k)
  {
  }

  /** Masking with the low `k` bits is the remainder by 2^k. */
  predicate MasksToRemainder(x: bv8, k: nat)
    requires 1 <= k <= 8
  {
    (x & LowMask(k)) as int == x as int % Pow2(k)
  }

  lemma LowBitsMask(number: bv8, k: nat)
    requires 1 <= k <= 8
    ensures MasksToRemainder(number, k)
  {
    if k == 1 { MaskOf1(number); }
    else if k == 2 { MaskOf2(number); }
    else if k == 3 { MaskOf3(number); }
    else if k == 4 { MaskOf4(number); }
    else if k == 5 { MaskOf5(number); }
    else if k == 6 { MaskOf6(number); }
    else if k == 7 { MaskOf7(number); }
    else { MaskOf8(number); }
  }

  lemma MaskOf1(x: bv8)
    ensures MasksToRemainder(x, 1)
  {
    assert Pow2(1) == 2 && LowMask(1) == 0x01;
    assert (x & 0x01) as int == x as int % 2 by {
      assert x & 0x01 == x % 2;
    }
  }

  lemma MaskOf2(x: bv8)
    ensures MasksToRemainder(x, 2)
  {
    assert Pow2(2) == 4 && LowMask(2) == 0x03;
    assert (x & 0x03) as int == x as int % 4 by {
      assert x & 0x03 == x % 4;
    }
  }

  lemma MaskOf3(x: bv8)
    ensures MasksToRemainder(x, 3)
  {
    assert Pow2(3) == 8 && LowMask(3) == 0x07;
    assert (x & 0x07) as int == x as int % 8 by {
      assert x & 0x07 == x % 8;
    }
  }

  lemma MaskOf4(x: bv8)
    ensures MasksToRemainder(x, 4)
  {
    assert Pow2(4) == 16 && LowMask(4) == 0x0F;
    assert (x & 0x0F) as int == x as int % 16 by {
      assert x & 0x0F == x % 16;
    }
  }

  lemma MaskOf5(x: bv8)
    ensures MasksToRemainder(x, 5)
  {
    assert Pow2(5) == 32 && LowMask(5) == 0x1F;
    assert (x & 0x1F) as int == x as int % 32 by {
      assert x & 0x1F == x % 32;
    }
  }

  lemma MaskOf6(x: bv8)
    ensures MasksToRemainder(x, 6)
  {
    assert Pow2(6) == 64 && LowMask(6) == 0x3F;
    assert (x & 0x3F) as int == x as int % 64 by {
      assert x & 0x3F == x % 64;
    }
  }

  lemma MaskOf7(x: bv8)
    ensures MasksToRemainder(x, 7)
  {
    assert Pow2(7) == 128 && LowMask(7) == 0x7F;
    assert (x & 0x7F) as int == x as int % 128 by {
      assert x & 0x7F == x % 128;
    }
  }

  lemma MaskOf8(x: bv8)
    ensures MasksToRemainder(x, 8)
  {
    assert Pow2(8) == 256;
    assert x & 0xFF == x;
  }

  /** `mask_bank_number`: the bank number reduced to the low `k` bits, with `k`
    * the bits needed for `bankAmount` banks; 0 when `k` is 0. */
  function MaskBankNumber(number: bv8, bankAmount: int): (r: bv8)
    requires 0 <= bankAmount <= 256
    ensures r as int == number as int % Pow2(CeilLog2(bankAmount))
    ensures r as int < Pow2(CeilLog2(bankAmount))
  {
    var bitAmount := CeilLog2(bankAmount);
    assert Pow2(8) == 256;
    CeilLog2AtMost(bankAmount, 8);
    if bitAmount == 0 then 0
    else
      LowBitsMask(number, bitAmount);
      number & LowMask(bitAmount)
  }

  /** A byte of the ROM image, or 0 past its end (the out-of-bounds defence). */
  function RomByte(rom: seq<bv8>, offset: int): bv8
  {
    if 0 <= offset < |rom| then rom[offset] else 0
  }

  /** `NoMBC`: 32 KiB of ROM at 0x0000-0x7FFF and the RAM at 0xA000-0xBFFF without
    * banking. */
  class NoMbc {
    const rom: seq<bv8>
    const ram: array<bv8>

    /** `NoMBC::init`: `0x2000 * ram_banks` is `u16` arithmetic, so at most seven
      * RAM banks can be allocated. */
    constructor (romFile: seq<bv8>, info: CartridgeInfo)
      requires info.ramBanks <= 7
      ensures rom == romFile
      ensures ram.Length == 0x2000 * info.ramBanks as int && forall i | 0 <= i < ram.Length :: ram[i] == 0
      ensures fresh(ram)
    {
      rom := romFile;
      ram := new bv8[0x2000 * info.ramBanks as int](_ => 0);
    }

    /** `NoMBC::read`; the two indexings panic past the ends of ROM and RAM. */
    function Read(address: u16): (v: bv8)
      requires address <= 0x7FFF ==> address as int < |rom|
      requires 0xA000 <= address <= 0xBFFF ==> address as int - 0xA000 < ram.Length
      reads ram
      ensures address <= 0x7FFF ==> v == rom[address]
      ensures 0xA000 <= address <= 0xBFFF ==> v == ram[address as int - 0xA000]
      ensures 0x8000 <= address < 0xA000 || 0xBFFF < address ==> v == 0
    {
      if address <= 0x7FFF then rom[address]
      else if 0xA000 <= address <= 0xBFFF then ram[address as int - 0xA000]
      else 0
    }

    /** `NoMBC::write`: only RAM can change, and only when there is RAM and the
      * address is at or above 0xA000; the ROM is never written. */
    method Write(address: u16, value: bv8)
      requires ram.Length != 0 && address >= 0xA000 ==> address as int - 0xA000 < ram.Length
      modifies ram
      ensures ram.Length != 0 && address >= 0xA000 ==> ram[..] == old(ram[..])[address as int - 0xA000 := value]
      ensures !(ram.Length != 0 && address >= 0xA000) ==> ram[..] == old(ram[..])
      ensures (ram.Length != 0 && 0xA000 <= address <= 0xBFFF) ==> Read(address) == value
    {
      if ram.Length != 0 && address >= 0xA000 {
        ram[address as int - 0xA000] := value;
      }
    }
  }

  /** The bank-1 value a write to 0x2000-0x3FFF gives MBC1: the value masked to
    * the bits needed for (at most 32) ROM banks, plus 1 when its low five bits
    * are 0. */
  function Mbc1RomBank(value: bv8, romBanks: u16): (bank: bv8)
    ensures bank <= 31
    ensures value & 0x1F == 0 ==> bank == 1
    ensures value & 0x1F != 0 ==> bank == MaskBankNumber(value, if romBanks > 32 then 32 else romBanks as int)
  {
    var clamped := if romBanks > 32 then 32 else romBanks as int;
    var masked := MaskBankNumber(value, clamped);
    FiveBitBank(value, clamped);
    if value & 0x1F == 0 then masked + 1 else masked
  }

  /** Masked to the bits needed for at most 32 banks, a bank number is at most
    * 31, and it is 0 when its low five bits are. */
  lemma FiveBitBank(value: bv8, banks: int)
    requires 0 <= banks <= 32
    ensures MaskBankNumber(value, banks) <= 31
    ensures value & 0x1F == 0 ==> MaskBankNumber(value, banks) == 0
  {
    var k := CeilLog2(banks);
    assert Pow2(5) == 32;
    CeilLog2AtMost(banks, 5);
    Pow2Monotone(k, 5);
    var masked := MaskBankNumber(value, banks);
    assert masked as int < 32;
    if value & 0x1F == 0 {
      FiveBitsClear(value, k);
      assert masked as int == 0;
    }
  }

  /** Low five bits clear means every remainder by 2^k, k <= 5, is 0. */
  lemma FiveBitsClear(value: bv8, k: nat)
    requires value & 0x1F == 0 && k <= 5
    ensures value as int % Pow2(k) == 0
  {
    assert Pow2(1) == 2 && Pow2(2) == 4 && Pow2(3) == 8 && Pow2(4) == 16 && Pow2(5) == 32;
    assert value as int % 32 == 0 by {
      assert value % 32 == value & 0x1F;
    }
  }

  /** The zero check looks at five bits even when fewer are kept: with 8 ROM
    * banks only three bits are kept, so 0b1000 selects bank 0. */
  lemma Mbc1EightBanksSelectsZero()
    ensures Mbc1RomBank(0x08, 8) == 0
  {
    assert CeilLog2(8) == 3 by {
      assert CeilLog2(2) == 1 + CeilLog2(1);
      assert CeilLog2(4) == 1 + CeilLog2(2);
      assert CeilLog2(8) == 1 + CeilLog2(4);
    }
    assert Pow2(3) == 8;
  }

  /** With at least two ROM banks, writing 0 selects the same bank as writing 1. */
  lemma Mbc1ZeroSelectsBankOne(romBanks: u16)
    requires romBanks >= 2
    ensures Mbc1RomBank(0, romBanks) == Mbc1RomBank(1, romBanks) == 1
  {
    var clamped := if romBanks > 32 then 32 else romBanks as int;
    assert CeilLog2(clamped) >= 1;
    assert Pow2(CeilLog2(clamped)) >= 2 by {
      Pow2Monotone(1, CeilLog2(clamped));
    }
  }

  /** `MBC1`. */
  class Mbc1 {
    const rom: seq<bv8>
    var romBank: bv8
    const ram: array<bv8>
    var ramBank: bv8
    var ramEnabled: bool
    var advancedBanking: bool
    const info: CartridgeInfo

    /** The ranges the registers are kept in. */
    predicate Valid()
      reads this
    {
      romBank <= 31 && ramBank <= 3 && info.ramBanks <= 7
    }

    /** `MBC1::init`: bank 1 selected, RAM zeroed and disabled, simple banking. */
    constructor (romFile: seq<bv8>, info: CartridgeInfo)
      requires info.ramBanks <= 7
      ensures Valid()
      ensures rom == romFile && this.info == info
      ensures romBank == 1 && ramBank == 0 && !ramEnabled && !advancedBanking
      ensures ram.Length == 0x2000 * info.ramBanks as int && forall i | 0 <= i < ram.Length :: ram[i] == 0
      ensures fresh(ram)
    {
      rom := romFile;
      romBank := 1;
      ram := new bv8[0x2000 * info.ramBanks as int](_ => 0);
      ramBank := 0;
      ramEnabled := false;
      advancedBanking := false;
      this.info := info;
    }

    /** The offset the 2-bit register adds on carts of more than 32 banks: one
      * (up to 64 banks) or two of its bits, in units of 32 banks (512 KiB). */
    static function HighBanks(ramBank: bv8, romBanks: u16): int
    {
      (ramBank & (if romBanks <= 64 then 0x01 else 0x03)) as int * 0x80000
    }

    /** The ROM offset `read` uses for an address below 0x8000: bank `romBank` in
      * 0x4000-0x7FFF, and on carts of more than 32 banks the 2-bit register
      * added as a multiple of 32 banks (in 0x0000-0x3FFF only in advanced mode). */
    function RomOffset(address: u16): int
      requires address <= 0x7FFF
      reads this
    {
      var banked := if address >= 0x4000 then address as int - 0x4000 + romBank as int * 0x4000 else address as int;
      if info.romBanks > 32 && (banked >= 0x4000 || advancedBanking) then
        banked + HighBanks(ramBank, info.romBanks)
      else banked
    }

    /** The RAM offset `read` uses for 0xA000-0xBFFF. */
    function ReadRamOffset(address: u16): int
      requires Valid() && 0xA000 <= address <= 0xBFFF
      reads this
    {
      address as int - 0xA000 + if advancedBanking then MaskBankNumber(ramBank, info.ramBanks as int) as int * 0x2000 else 0
    }

    /** The RAM offset `write` uses for 0xA000-0xBFFF. */
    function WriteRamOffset(address: u16): int
      requires 0xA000 <= address <= 0xBFFF
      reads this
    {
      address as int - 0xA000 + if advancedBanking && info.ramBanks > 1 then ramBank as int * 0x2000 else 0
    }

    /** `MBC1::read`. Below 0x4000 with simple banking or at most 32 banks it is
      * the ROM byte itself; in 0x4000-0x7FFF it is that byte of bank `romBank`, on
      * carts of more than 32 banks moved up by the 2-bit register (as is bank 0
      * in advanced mode); disabled RAM reads 0xFF, enabled RAM the selected
      * bank's byte; past the end of ROM or RAM, 0. */
    function Read(address: u16): (v: bv8)
      requires Valid()
      reads this, ram
      ensures address < 0x4000 && (!advancedBanking || info.romBanks <= 32) ==> v == RomByte(rom, address as int)
      ensures 0x4000 <= address <= 0x7FFF && info.romBanks <= 32
        ==> v == RomByte(rom, romBank as int * 0x4000 + (address as int - 0x4000))
      ensures 0x4000 <= address <= 0x7FFF && info.romBanks > 32 && romBank != 0
        ==> v == RomByte(rom, romBank as int * 0x4000 + HighBanks(ramBank, info.romBanks) + (address as int - 0x4000))
      ensures address < 0x4000 && advancedBanking && info.romBanks > 32
        ==> v == RomByte(rom, HighBanks(ramBank, info.romBanks) + address as int)
      ensures 0xA000 <= address <= 0xBFFF && !ramEnabled ==> v == 0xFF
      ensures 0xA000 <= address <= 0xBFFF && ramEnabled && ReadRamOffset(address) < ram.Length
        ==> v == ram[ReadRamOffset(address)]
      ensures 0xA000 <= address <= 0xBFFF && ramEnabled && ram.Length <= ReadRamOffset(address) ==> v == 0
      ensures 0x8000 <= address < 0xA000 || 0xBFFF < address ==> v == 0
    {
      if address <= 0x7FFF then
        var offset := RomOffset(address);
        if |rom| <= offset then 0 else rom[offset]
      else if 0xA000 <= address <= 0xBFFF then
        if !ramEnabled then 0xFF
        else
          var offset := ReadRamOffset(address);
          if ram.Length <= offset then 0 else ram[offset]
      else 0
    }

    /** `MBC1::write`. 0x0000-0x1FFF enables RAM iff the low nibble is 0xA;
      * 0x2000-0x3FFF sets the ROM bank (never 0 for a zero low five bits);
      * 0x4000-0x5FFF the 2-bit register; 0x6000-0x7FFF the banking mode; enabled
      * RAM in range stores the byte. The ROM is never written. */
    method Write(address: u16, value: bv8)
      requires Valid()
      modifies this`romBank, this`ramBank, this`ramEnabled, this`advancedBanking, ram
      ensures Valid()
      ensures ramEnabled == if address <= 0x1FFF then value & 0x0F == 0x0A else old(ramEnabled)
      ensures romBank == if 0x2000 <= address <= 0x3FFF then Mbc1RomBank(value, info.romBanks) else old(romBank)
      ensures ramBank == if 0x4000 <= address <= 0x5FFF then value & 0x03 else old(ramBank)
      ensures advancedBanking == if 0x6000 <= address <= 0x7FFF then value & 0x01 != 0 else old(advancedBanking)
      ensures 0xA000 <= address <= 0xBFFF && ramEnabled && WriteRamOffset(address) < ram.Length
        ==> ram[..] == old(ram[..])[WriteRamOffset(address) := value]
      ensures !(0xA000 <= address <= 0xBFFF && ramEnabled && WriteRamOffset(address) < ram.Length)
        ==> ram[..] == old(ram[..])
      ensures (0xA000 <= address <= 0xBFFF && ramEnabled && WriteRamOffset(address) < ram.Length
               && (info.ramBanks != 2 || ramBank < 2)) ==> Read(address) == value
    {
      if address <= 0x1FFF {
        ramEnabled := value & 0x0F == 0x0A;
      } else if address <= 0x3FFF {
        romBank := Mbc1RomBank(value, info.romBanks);
      } else if address <= 0x5FFF {
        ramBank := value & 0x03;
      } else if address <= 0x7FFF {
        advancedBanking := value & 0x01 > 0;
      } else if 0xA000 <= address <= 0xBFFF {
        if !ramEnabled {
          return;
        }
        var offset := WriteRamOffset(address);
        if ram.Length <= offset {
          return;
        }
        ram[offset] := value;
        if info.ramBanks != 2 || ramBank < 2 {
          RamOffsetsAgree(address);
        }
      }
    }

    /** The read and write RAM offsets agree except on a two-bank cart with the
      * register at 2 or 3. */
    lemma RamOffsetsAgree(address: u16)
      requires Valid() && 0xA000 <= address <= 0xBFFF
      requires info.ramBanks != 2 || ramBank < 2
      ensures ReadRamOffset(address) == WriteRamOffset(address)
    {
      if advancedBanking {
        var k := CeilLog2(info.ramBanks as int);
        if info.ramBanks <= 1 {
          assert k == 0;
        } else if info.ramBanks == 2 {
          assert k == 1;
        } else {
          assert k >= 2;
          Pow2Monotone(2, k);
          assert Pow2(2) == 4;
        }
      }
    }
  }

  /** The ROM bank a write to 0x2000-0x3FFF gives MBC3: the masked value, or 1
    * in place of 0. */
  function Mbc3RomBank(value: bv8, romBanks: u16): (bank: bv8)
    requires romBanks <= 256
    ensures bank != 0
    ensures MaskBankNumber(value, romBanks as int) != 0 ==> bank == MaskBankNumber(value, romBanks as int)
    ensures MaskBankNumber(value, romBanks as int) == 0 ==> bank == 1
    ensures bank == 1 <==> MaskBankNumber(value, romBanks as int) <= 1
  {
    var masked := MaskBankNumber(value, romBanks as int);
    if masked == 0 then 1 else masked
  }

  /** With at least two ROM banks, writing 0 to MBC3's bank register selects
    * the same bank as writing 1. */
  lemma Mbc3ZeroSelectsBankOne(romBanks: u16)
    requires 2 <= romBanks <= 256
    ensures Mbc3RomBank(0, romBanks) == Mbc3RomBank(1, romBanks) == 1
  {
    assert CeilLog2(romBanks as int) >= 1;
    assert Pow2(CeilLog2(romBanks as int)) >= 2 by {
      Pow2Monotone(1, CeilLog2(romBanks as int));
    }
  }

  /** `MBC3` (its clock registers are not part of mbc.rs). */
  class Mbc3 {
    const rom: seq<bv8>
    var romBank: bv8
    const ram: array<bv8>
    var ramBank: bv8
    var ramEnabled: bool
    const info: CartridgeInfo

    /** The ROM bank is never 0, so the `rom_bank - 1` of `read` cannot underflow. */
    predicate Valid()
      reads this
    {
      romBank != 0 && info.romBanks <= 256 && info.ramBanks <= 7
    }

    /** `MBC3::init`: bank 1 selected, RAM zeroed and disabled. */
    constructor (romFile: seq<bv8>, info: CartridgeInfo)
      requires info.romBanks <= 256 && info.ramBanks <= 7
      ensures Valid()
      ensures rom == romFile && this.info == info
      ensures romBank == 1 && ramBank == 0 && !ramEnabled
      ensures ram.Length == 0x2000 * info.ramBanks as int && forall i | 0 <= i < ram.Length :: ram[i] == 0
      ensures fresh(ram)
    {
      rom := romFile;
      romBank := 1;
      ram := new bv8[0x2000 * info.ramBanks as int](_ => 0);
      ramBank := 0;
      ramEnabled := false;
      this.info := info;
    }

    /** The RAM offset of 0xA000-0xBFFF in bank `ramBank`. */
    function RamOffset(address: u16): int
      requires 0xA000 <= address <= 0xBFFF
      reads this
    {
      address as int - 0xA000 + ramBank as int * 0x2000
    }

    /** `MBC3::read`. 0x0000-0x3FFF is the ROM byte (indexing panics past its end);
      * 0x4000-0x7FFF is that byte of bank `romBank`, 0 past the end; disabled RAM
      * and RAM past its end read 0xFF. */
    function Read(address: u16): (v: bv8)
      requires Valid()
      requires address <= 0x3FFF ==> address as int < |rom|
      reads this, ram
      ensures address <= 0x3FFF ==> v == rom[address]
      ensures 0x4000 <= address <= 0x7FFF ==> v == RomByte(rom, romBank as int * 0x4000 + (address as int - 0x4000))
      ensures 0xA000 <= address <= 0xBFFF && (!ramEnabled || ram.Length <= RamOffset(address)) ==> v == 0xFF
      ensures 0xA000 <= address <= 0xBFFF && ramEnabled && RamOffset(address) < ram.Length ==> v == ram[RamOffset(address)]
      ensures 0x8000 <= address < 0xA000 || 0xBFFF < address ==> v == 0
    {
      if address <= 0x3FFF then rom[address]
      else if address <= 0x7FFF then
        var offset := address as int + 0x4000 * (romBank as int - 1);
        if |rom| <= offset then 0 else rom[offset]
      else if 0xA000 <= address <= 0xBFFF then
        if !ramEnabled then 0xFF
        else
          var offset := RamOffset(address);
          if ram.Length <= offset then 0xFF else ram[offset]
      else 0
    }

    /** `MBC3::write`. 0x0000-0x1FFF enables RAM iff the low nibble is 0xA;
      * 0x2000-0x3FFF sets a nonzero ROM bank; 0x4000-0x5FFF sets the masked RAM
      * bank unless the cart has no RAM; enabled RAM in range stores the byte and
      * reads it back. The ROM is never written, and 0x6000-0x7FFF does nothing. */
    method Write(address: u16, value: bv8)
      requires Valid()
      modifies this`romBank, this`ramBank, this`ramEnabled, ram
      ensures Valid()
      ensures ramEnabled == if address <= 0x1FFF then value & 0x0F == 0x0A else old(ramEnabled)
      ensures romBank == if 0x2000 <= address <= 0x3FFF then Mbc3RomBank(value, info.romBanks) else old(romBank)
      ensures 0x4000 <= address <= 0x5FFF && info.ramBanks != 0 ==> ramBank == MaskBankNumber(value, info.ramBanks as int)
      ensures !(0x4000 <= address <= 0x5FFF && info.ramBanks != 0) ==> ramBank == old(ramBank)
      ensures 0xA000 <= address <= 0xBFFF && ramEnabled && RamOffset(address) < ram.Length
        ==> ram[..] == old(ram[..])[RamOffset(address) := value] && Read(address) == value
      ensures !(0xA000 <= address <= 0xBFFF && ramEnabled && RamOffset(address) < ram.Length)
        ==> ram[..] == old(ram[..])
    {
      if address <= 0x1FFF {
        ramEnabled := value & 0x0F == 0x0A;
      } else if address <= 0x3FFF {
        romBank := Mbc3RomBank(value, info.romBanks);
      } else if address <= 0x5FFF {
        if info.ramBanks != 0 {
          ramBank := MaskBankNumber(value, info.ramBanks as int);
        }
      } else if 0xA000 <= address <= 0xBFFF {
        if !ramEnabled {
          return;
        }
        var offset := RamOffset(address);
        if ram.Length <= offset {
          return;
        }
        ram[offset] := value;
      }
    }
  }
}
