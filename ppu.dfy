/** ppu.rs: the picture processing unit. Each `cycle` is one dot: 456 dots make
  * a line and 154 lines a frame (144 visible, then the vertical blank). The
  * unit steps its mode (2 OAM scan, 3 drawing, 0 horizontal blank, 1 vertical
  * blank), raises VBLANK and LCD (STAT) requests, renders each visible line
  * from the background or window tile maps into the back display, and
  * presents the back display at the start of the vertical blank. */
module Ppu {
  import opened Bits

  /** The dot position within the frame: `lx` in 0..=455, `ly` in 0..=153. */
  datatype Position = Position(lx: int, ly: int)

  predicate OnScreen(p: Position)
  {
    0 <= p.lx <= 455 && 0 <= p.ly <= 153
  }

  /** The position after one dot: the next dot of the line, or the start of the
    * next line, with line 153 followed by line 0. */
  function Advance(p: Position): Position
  {
    if p.lx < 455 then Position(p.lx + 1, p.ly)
    else if p.ly == 153 then Position(0, 0)
    else Position(0, p.ly + 1)
  }

  /** The dot at which VBLANK is requested: the last dot of line 144. */
  predicate VBlankDot(p: Position)
  {
    p.lx == 455 && p.ly == 144
  }

  /** The position after `n` dots. */
  function AdvanceBy(p: Position, n: nat): Position
    decreases n
  {
    if n == 0 then p else AdvanceBy(Advance(p), n - 1)
  }

  /** How many of the `n` dots from `p` request VBLANK. */
  function VBlanks(p: Position, n: nat): nat
    decreases n
  {
    if n == 0 then 0 else (if VBlankDot(p) then 1 else 0) + VBlanks(Advance(p), n - 1)
  }

  lemma {:induction false} AdvanceByAdds(p: Position, a: nat, b: nat)
    decreases a
    ensures AdvanceBy(p, a + b) == AdvanceBy(AdvanceBy(p, a), b)
    ensures VBlanks(p, a + b) == VBlanks(p, a) + VBlanks(AdvanceBy(p, a), b)
  {
    if a > 0 {
      AdvanceByAdds(Advance(p), a - 1, b);
    }
  }

  /** The dots from `lx` to the end of a line stay on that line and none of
    * them requests VBLANK; one more dot leaves the line, and it requests
    * VBLANK exactly when the line is 144. */
  lemma {:induction false} RestOfLine(lx: int, ly: int)
    requires 0 <= lx <= 455 && 0 <= ly <= 153
    ensures AdvanceBy(Position(lx, ly), 455 - lx) == Position(455, ly)
    ensures VBlanks(Position(lx, ly), 455 - lx) == 0
    ensures AdvanceBy(Position(lx, ly), 456 - lx) == Advance(Position(455, ly))
    ensures VBlanks(Position(lx, ly), 456 - lx) == if ly == 144 then 1 else 0
    decreases 455 - lx
  {
    if lx < 455 {
      RestOfLine(lx + 1, ly);
    } else {
      var last := Position(455, ly);
      assert AdvanceBy(last, 1) == AdvanceBy(Advance(last), 0);
      assert VBlanks(last, 1) == (if VBlankDot(last) then 1 else 0) + VBlanks(Advance(last), 0);
    }
  }

  /** A whole line of 456 dots leads to the start of the next line and requests
    * VBLANK once on line 144 and never on any other line. */
  lemma WholeLine(ly: int)
    requires 0 <= ly <= 153
    ensures AdvanceBy(Position(0, ly), 456) == Advance(Position(455, ly))
    ensures VBlanks(Position(0, ly), 456) == if ly == 144 then 1 else 0
  {
    RestOfLine(0, ly);
  }

  /** The first `k` lines of a frame. */
  lemma {:induction false} FirstLines(start: Position, k: nat)
    requires start == Position(0, 0) && k <= 153
    ensures AdvanceBy(start, 456 * k) == Position(0, k)
    ensures VBlanks(start, 456 * k) == if k > 144 then 1 else 0
  {
    if k > 0 {
      FirstLines(start, k - 1);
      AdvanceByAdds(start, 456 * (k - 1), 456);
      WholeLine(k - 1);
    }
  }

  /** From the first dot of a frame, 70224 dots (154 lines of 456) return to the
    * first dot, and exactly one of them requests VBLANK. */
  lemma Frame(start: Position)
    requires start == Position(0, 0)
    ensures AdvanceBy(start, 70224) == start
    ensures VBlanks(start, 70224) == 1
  {
    FirstLines(start, 153);
    AdvanceByAdds(start, 69768, 456);
    WholeLine(153);
  }

  /** The VBLANK dot of a frame is its 66120th: the last dot of line 144. */
  lemma FrameVBlankDot(start: Position)
    requires start == Position(0, 0)
    ensures AdvanceBy(start, 66119) == Position(455, 144)
    ensures VBlanks(start, 66119) == 0
  {
    FirstLines(start, 144);
    RestOfLine(0, 144);
    AdvanceByAdds(start, 65664, 455);
  }

  /** Every dot keeps the position on screen. */
  lemma AdvanceOnScreen(p: Position)
    requires OnScreen(p)
    ensures OnScreen(Advance(p))
  {
  }

  /** The request bits: `InterruptFlag::VBLANK` and `InterruptFlag::LCD`. */
  const VBLANK: bv8 := 0x01
  const LCD: bv8 := 0x02

  /** `update_mode`'s request: LCD when the STAT enable bit of the new mode is set
    * (0x20 for mode 2, 0x10 for mode 1, 0x08 for mode 0; mode 3 has none). */
  function ModeRequest(mode: int, statEnable: bv8): (r: bv8)
    ensures r == LCD || r == 0
    ensures r == LCD <==> ((mode == 2 && statEnable & 0x20 != 0) || (mode == 1 && statEnable & 0x10 != 0)
      || (mode == 0 && statEnable & 0x08 != 0))
  {
    if (mode == 2 && statEnable & 0x20 != 0) || (mode == 1 && statEnable & 0x10 != 0)
      || (mode == 0 && statEnable & 0x08 != 0) then LCD
    else 0
  }

  /** The timing fields of `PPU`: position, mode and the requests of the dot. */
  datatype Timing = Timing(lx: int, ly: int, mode: int, request: bv8)

  function PositionOf(t: Timing): Position
  {
    Position(t.lx, t.ly)
  }

  /** The LY=LYC check after a line change: LCD when the LYC enable bit is set
    * and `lyc` equals the new line. */
  function WithLyc(t: Timing, statEnable: bv8, lyc: bv8): Timing
  {
    if statEnable & 0x40 != 0 && lyc as int == t.ly then t.(request := t.request | LCD) else t
  }

  /** The timing part of one `cycle`. The requests start empty every dot. */
  function TimingStep(t: Timing, statEnable: bv8, lyc: bv8): Timing
  {
    if t.lx < 455 then
      if t.mode != 1 && t.lx + 1 == 80 then Timing(t.lx + 1, t.ly, 3, ModeRequest(3, statEnable))
      else if t.mode != 1 && t.lx + 1 == 369 then Timing(t.lx + 1, t.ly, 0, ModeRequest(0, statEnable))
      else Timing(t.lx + 1, t.ly, t.mode, 0)
    else if t.ly <= 143 then WithLyc(Timing(0, t.ly + 1, 2, ModeRequest(2, statEnable)), statEnable, lyc)
    else if t.ly == 144 then WithLyc(Timing(0, 145, 1, VBLANK | ModeRequest(1, statEnable)), statEnable, lyc)
    else if t.ly == 153 then Timing(0, 0, 2, ModeRequest(2, statEnable))
    else WithLyc(Timing(0, t.ly + 1, t.mode, 0), statEnable, lyc)
  }

  /** The timing step moves the position by one dot, and it requests VBLANK
    * exactly on the last dot of line 144. */
  lemma TimingStepAdvances(t: Timing, statEnable: bv8, lyc: bv8)
    requires t.lx <= 455
    ensures PositionOf(TimingStep(t, statEnable, lyc)) == Advance(PositionOf(t))
    ensures TimingStep(t, statEnable, lyc).request & VBLANK != 0 <==> VBlankDot(PositionOf(t))
  {
    if t.lx == 455 && t.ly == 144 {
      VBlankBitKept(ModeRequest(1, statEnable));
    } else if t.lx == 455 {
      VBlankBitClear(ModeRequest(if t.ly == 153 || t.ly <= 143 then 2 else 0, statEnable));
      VBlankBitClear(0);
    } else {
      VBlankBitClear(ModeRequest(if t.lx + 1 == 80 then 3 else 0, statEnable));
    }
  }

  /** Mode and LYC requests never touch the VBLANK bit. */
  lemma VBlankBitClear(m: bv8)
    requires m == LCD || m == 0
    ensures m & VBLANK == 0 && (m | LCD) & VBLANK == 0
  {
  }

  lemma VBlankBitKept(m: bv8)
    requires m == LCD || m == 0
    ensures (VBLANK | m) & VBLANK != 0 && ((VBLANK | m) | LCD) & VBLANK != 0
  {
  }

  /** What a dot's requests are depends on the position, mode and registers
    * only: the previous dot's requests are dropped. */
  lemma RequestsStartEmpty(t: Timing, other: bv8, statEnable: bv8, lyc: bv8)
    ensures TimingStep(t.(request := other), statEnable, lyc) == TimingStep(t, statEnable, lyc)
  {
  }

  /** The mode at dot `k` of a visible line: 2 for the OAM scan, 3 from dot 80,
    * 0 (horizontal blank) from dot 369. */
  function VisibleMode(k: int): int
  {
    if k < 80 then 2 else if k < 369 then 3 else 0
  }

  /** `n` dots of timing steps. */
  function TimingRun(t: Timing, statEnable: bv8, lyc: bv8, n: nat): Timing
  {
    if n == 0 then t else TimingStep(TimingRun(t, statEnable, lyc, n - 1), statEnable, lyc)
  }

  /** How many of the first `n` timing steps from `t` request VBLANK. */
  function TimingVBlanks(t: Timing, statEnable: bv8, lyc: bv8, n: nat): nat
  {
    if n == 0 then 0
    else
      var requested := if TimingRun(t, statEnable, lyc, n).request & VBLANK != 0 then 1 else 0;
      TimingVBlanks(t, statEnable, lyc, n - 1) + requested
  }

  /** A run of timing steps follows the dot position exactly, and requests
    * VBLANK as often as the positions it passes say. */
  lemma {:induction false} TimingRunFollows(t: Timing, statEnable: bv8, lyc: bv8, n: nat)
    requires OnScreen(PositionOf(t))
    ensures PositionOf(TimingRun(t, statEnable, lyc, n)) == AdvanceBy(PositionOf(t), n)
    ensures OnScreen(AdvanceBy(PositionOf(t), n))
    ensures TimingVBlanks(t, statEnable, lyc, n) == VBlanks(PositionOf(t), n)
  {
    if n > 0 {
      var p := PositionOf(t);
      TimingRunFollows(t, statEnable, lyc, n - 1);
      var q := AdvanceBy(p, n - 1);
      TimingStepAdvances(TimingRun(t, statEnable, lyc, n - 1), statEnable, lyc);
      AdvanceByAdds(p, n - 1, 1);
      AdvanceOnScreen(q);
      assert AdvanceBy(q, 1) == Advance(q);
      assert VBlanks(q, 1) == if VBlankDot(q) then 1 else 0;
    }
  }

  /** One frame of `cycle` timing: from the first dot, 70224 steps return to the
    * first dot, whatever the mode and registers, and exactly one of them
    * requests VBLANK. */
  lemma TimingFrame(t: Timing, statEnable: bv8, lyc: bv8)
    requires t.lx == 0 && t.ly == 0
    ensures PositionOf(TimingRun(t, statEnable, lyc, 70224)) == PositionOf(t)
    ensures TimingVBlanks(t, statEnable, lyc, 70224) == 1
  {
    TimingRunFollows(t, statEnable, lyc, 70224);
    Frame(PositionOf(t));
  }

  /** Along a visible line started in mode 2, dot `k` is in `VisibleMode(k)`, and
    * the only request on the line before its last dot is the mode-0 STAT one. */
  lemma {:induction false} VisibleLine(ly: int, request: bv8, statEnable: bv8, lyc: bv8, k: nat)
    requires 0 <= ly <= 143 && k <= 455
    ensures TimingRun(Timing(0, ly, 2, request), statEnable, lyc, k)
      == Timing(k, ly, VisibleMode(k), if k == 0 then request else if k == 369 then ModeRequest(0, statEnable) else 0)
  {
    if k > 0 {
      VisibleLine(ly, request, statEnable, lyc, k - 1);
      assert ModeRequest(3, statEnable) == 0;
    }
  }

  /** During the vertical blank the mode stays 1 for the whole line. */
  lemma {:induction false} BlankLine(ly: int, request: bv8, statEnable: bv8, lyc: bv8, k: nat)
    requires 145 <= ly <= 153 && k <= 455
    ensures TimingRun(Timing(0, ly, 1, request), statEnable, lyc, k)
      == Timing(k, ly, 1, if k == 0 then request else 0)
  {
    if k > 0 {
      BlankLine(ly, request, statEnable, lyc, k - 1);
    }
  }

  /** A display: 160 columns of 144 pixels, indexed `[x][y]`. */
  predicate IsDisplay(d: seq<seq<bv8>>)
  {
    |d| == 160 && forall x | 0 <= x < 160 :: |d[x]| == 144
  }

  /** `EMPTY_DISPLAY`. */
  function EmptyDisplay(): (d: seq<seq<bv8>>)
    ensures IsDisplay(d)
  {
    seq(160, _ => seq(144, _ => 0))
  }

  /** The shade of colour `id` in the palette: bits 2*id+1..2*id. */
  function PaletteColor(palette: bv8, id: bv8): (c: bv8)
    requires id <= 3
    ensures c <= 3
  {
    (palette >> (2 * id)) & 0x03
  }

  /** The VRAM index of the tile-map entry for pixel (x, y): inside the map at
    * 0x1800 or 0x1C00, so below 0x2000. */
  function TileMapIndex(x: bv8, y: bv8, tileMap: bool): (i: int)
    ensures (if tileMap then 0x1C00 else 0x1800) <= i < (if tileMap then 0x2000 else 0x1C00)
  {
    var row, column := y as int / 8, x as int / 8;
    assert 0 <= row < 32 && 0 <= column < 32;
    (if tileMap then 0x1C00 else 0x1800) + row * 32 + column
  }

  /** The VRAM index of the first byte of row `y % 8` of a tile; both bytes of the
    * row lie below 0x2000 for either data area. */
  function TileDataIndex(tileIndex: bv8, y: bv8, lowArea: bool): (i: int)
    ensures 0 <= i && i + 1 < 0x1800
  {
    var byteIndex := 16 * tileIndex as int + 2 * (y as int % 8);
    (if lowArea then 0x0000 else 0x0800) + byteIndex
  }

  /** The 2-bit colour id of a tile-row pixel: bit 0 from the first byte, bit 1
    * from the second, column 0 being the most significant bit. */
  function RowColorId(low: bv8, high: bv8, x: bv8): (id: bv8)
    ensures id <= 3
    ensures id & 1 != 0 <==> low & (0x80 >> (x % 8)) != 0
    ensures id & 2 != 0 <==> high & (0x80 >> (x % 8)) != 0
  {
    var a := low & (0x80 >> (x % 8)) != 0;
    var b := high & (0x80 >> (x % 8)) != 0;
    (if a then 1 else 0) | (if b then 2 else 0)
  }

  /** The registers that select what is drawn: LCDC, the scroll and window
    * positions, and the background palette. */
  datatype LcdRegisters = LcdRegisters(control: bv8, bgX: bv8, bgY: bv8, winX: bv8, winY: bv8, palette: bv8)

  /** `read_tile_map`: the colour id, 0..=3, that the tile map selected by
    * `tileMap` and the tile data area of `control` give pixel (x, y); all its
    * VRAM indexes are in range (see `TileMapIndex`, `TileDataIndex`). */
  function ReadTileMap(control: bv8, vram: seq<bv8>, x: bv8, y: bv8, tileMap: bool): (id: bv8)
    requires |vram| == 0x2000
    ensures id <= 3
  {
    var tileIndex := vram[TileMapIndex(x, y, tileMap)];
    var byteIndex := TileDataIndex(tileIndex, y, control & 0x10 != 0);
    RowColorId(vram[byteIndex], vram[byteIndex + 1], x)
  }

  /** The colour id `draw_horizontal` gives pixel (x, y): from the window when
    * it is enabled and the pixel is right of `winX` or below `winY`,
    * otherwise from the background scrolled by (bgX, bgY), wrapping at 256. */
  function PixelColorId(r: LcdRegisters, vram: seq<bv8>, x: bv8, y: bv8): (id: bv8)
    requires |vram| == 0x2000
    ensures id <= 3
  {
    if r.control & 0x20 != 0 && (x >= r.winX || y >= r.winY) then ReadTileMap(r.control, vram, x, y, r.control & 0x40 != 0)
    else ReadTileMap(r.control, vram, x + r.bgX, y + r.bgY, r.control & 0x08 != 0)
  }

  /** The shade of pixel (x, y) of a line drawn with BG/window enabled. */
  function LinePixel(r: LcdRegisters, vram: seq<bv8>, x: int, y: int): (c: bv8)
    requires |vram| == 0x2000 && 0 <= x < 160 && 0 <= y < 144
    ensures c <= 3
  {
    PaletteColor(r.palette, PixelColorId(r, vram, x as bv8, y as bv8))
  }

  /** The shades of pixels (0, y) .. (n-1, y). */
  function LineShades(r: LcdRegisters, vram: seq<bv8>, y: int, n: int): (row: seq<bv8>)
    requires |vram| == 0x2000 && 0 <= y < 144 && 0 <= n <= 160
    ensures |row| == n
    ensures forall x | 0 <= x < n :: row[x] == LinePixel(r, vram, x, y)
  {
    if n == 0 then [] else LineShades(r, vram, y, n - 1) + [LinePixel(r, vram, n - 1, y)]
  }

  /** The display with pixels (0, y) .. (n-1, y) set to the shades of `row`. */
  function ColumnsDrawn(d: seq<seq<bv8>>, y: int, row: seq<bv8>, n: int): (e: seq<seq<bv8>>)
    requires IsDisplay(d) && 0 <= y < 144 && |row| == 160 && 0 <= n <= 160
    ensures IsDisplay(e)
  {
    if n == 0 then d
    else
      var e := ColumnsDrawn(d, y, row, n - 1);
      e[n - 1 := d[n - 1][y := row[n - 1]]]
  }

  /** Columns below `n` have pixel y replaced by their shade; the other
    * columns are kept. */
  lemma {:induction false} ColumnsDrawnPixels(d: seq<seq<bv8>>, y: int, row: seq<bv8>, n: int)
    requires IsDisplay(d) && 0 <= y < 144 && |row| == 160 && 0 <= n <= 160
    ensures forall x | 0 <= x < 160 :: ColumnsDrawn(d, y, row, n)[x] == if x < n then d[x][y := row[x]] else d[x]
  {
    if n > 0 {
      ColumnsDrawnPixels(d, y, row, n - 1);
    }
  }

  /** Drawing one more column changes only that column. */
  lemma ColumnStep(d: seq<seq<bv8>>, y: int, row: seq<bv8>, n: int)
    requires IsDisplay(d) && 0 <= y < 144 && |row| == 160 && 0 <= n < 160
    ensures ColumnsDrawn(d, y, row, n + 1) == ColumnsDrawn(d, y, row, n)[n := d[n][y := row[n]]]
    ensures ColumnsDrawn(d, y, row, n)[n] == d[n]
  {
    ColumnsDrawnPixels(d, y, row, n);
  }

  /** The display after `draw_horizontal(y)`. With BG/window disabled
    * (LCDC bit 0 clear) only pixel (0, y) is set, to the palette's shade for
    * colour id 0 (`palette & 3`). */
  function RowDrawn(r: LcdRegisters, vram: seq<bv8>, d: seq<seq<bv8>>, y: int): (e: seq<seq<bv8>>)
    requires |vram| == 0x2000 && IsDisplay(d) && 0 <= y < 144
    ensures IsDisplay(e)
  {
    if r.control & 0x01 == 0 then d[0 := d[0][y := PaletteColor(r.palette, 0)]]
    else ColumnsDrawn(d, y, LineShades(r, vram, y, 160), 160)
  }

  /** Drawing row y changes no other row; with BG/window enabled every pixel
    * of the row takes its shade, and with it disabled only pixel (0, y)
    * changes, to the palette's shade for colour id 0 (`palette & 3`). */
  lemma RowDrawnPixels(r: LcdRegisters, vram: seq<bv8>, d: seq<seq<bv8>>, y: int)
    requires |vram| == 0x2000 && IsDisplay(d) && 0 <= y < 144
    ensures forall x, y' | 0 <= x < 160 && 0 <= y' < 144 && y' != y :: RowDrawn(r, vram, d, y)[x][y'] == d[x][y']
    ensures r.control & 0x01 != 0 ==> forall x | 0 <= x < 160 :: RowDrawn(r, vram, d, y)[x][y] == LinePixel(r, vram, x, y)
    ensures r.control & 0x01 == 0 ==> (RowDrawn(r, vram, d, y)[0][y] == PaletteColor(r.palette, 0)
      && forall x, y' | 0 <= x < 160 && 0 <= y' < 144 && (x, y') != (0, y) :: RowDrawn(r, vram, d, y)[x][y'] == d[x][y'])
  {
    ColumnsDrawnPixels(d, y, LineShades(r, vram, y, 160), 160);
  }

  class Ppu {
    var front: seq<seq<bv8>>
    var back: seq<seq<bv8>>
    const vram: array<bv8>
    const oam: array<bv8>
    var control: bv8
    var lx: int
    var ly: int
    var bgX: bv8
    var bgY: bv8
    var winX: bv8
    var winY: bv8
    var palette: bv8
    var interruptRequest: bv8
    var statEnable: bv8
    var mode: int
    var lyc: bv8

    /** VRAM and OAM have their sizes and are distinct arrays. */
    predicate Buffers()
    {
      vram.Length == 0x2000 && oam.Length == 0xA0 && vram != oam
    }

    predicate Valid()
      reads this`lx, this`ly, this`mode, this`front, this`back
    {
      && Buffers()
      && Clock() && Displays()
    }

    /** WX is at most 255 - 7, so the `win_x + 7` of `mem_read` never overflows. */
    predicate WindowInRange()
      reads this`winX
    {
      winX <= 248
    }

    /** The dot position is on screen and the mode is one of the four. */
    predicate Clock()
      reads this`lx, this`ly, this`mode
    {
      OnScreen(Position(lx, ly)) && 0 <= mode <= 3
    }

    /** Both displays are 160 columns of 144 shades. */
    predicate Displays()
      reads this`front, this`back
    {
      IsDisplay(front) && IsDisplay(back)
    }

    function TimingState(): Timing
      reads this`lx, this`ly, this`mode, this`interruptRequest
    {
      Timing(lx, ly, mode, interruptRequest)
    }

    /** `PPU::new`: blank displays, zeroed memories and registers, mode 2. */
    constructor ()
      ensures Valid() && WindowInRange()
      ensures front == EmptyDisplay() && back == EmptyDisplay()
      ensures forall i | 0 <= i < 0x2000 :: vram[i] == 0
      ensures forall i | 0 <= i < 0xA0 :: oam[i] == 0
      ensures control == 0 && lx == 0 && ly == 0 && bgX == 0 && bgY == 0 && winX == 0 && winY == 0
      ensures palette == 0 && interruptRequest == 0 && statEnable == 0 && mode == 2 && lyc == 0
      ensures fresh(vram) && fresh(oam)
    {
      front, back := EmptyDisplay(), EmptyDisplay();
      vram := new bv8[0x2000](_ => 0);
      oam := new bv8[0xA0](_ => 0);
      control, lx, ly, bgX, bgY, winX, winY := 0, 0, 0, 0, 0, 0, 0;
      palette, interruptRequest, statEnable, mode, lyc := 0, 0, 0, 2, 0;
    }

    /** `set_pixel`: the back-display pixel (x, y) takes the palette shade of
      * `colId`; no other pixel changes. */
    method SetPixel(x: int, y: int, colId: bv8)
      requires IsDisplay(back) && 0 <= x < 160 && 0 <= y < 144 && colId <= 3
      modifies this`back
      ensures IsDisplay(back)
      ensures back == old(back)[x := old(back)[x][y := PaletteColor(palette, colId)]]
    {
      var col := (palette >> (2 * colId)) & 0x03;
      back := back[x := back[x][y := col]];
    }

    /** The registers `draw_horizontal` reads. */
    function Registers(): LcdRegisters
      reads this`control, this`bgX, this`bgY, this`winX, this`winY, this`palette
    {
      LcdRegisters(control, bgX, bgY, winX, winY, palette)
    }

    /** `draw_horizontal`. */
    method DrawHorizontal(y: int)
      requires vram.Length == 0x2000 && IsDisplay(back) && 0 <= y < 144
      modifies this`back
      ensures IsDisplay(back)
      ensures back == RowDrawn(old(Registers()), old(vram[..]), old(back), y)
    {
      var regs := Registers();
      ghost var row := LineShades(regs, vram[..], y, 160);
      var x := 0;
      while x < 160
        invariant 0 <= x <= 160 && IsDisplay(back)
        invariant control & 0x01 == 0 ==> x == 0
        invariant back == ColumnsDrawn(old(back), y, row, x)
      {
        if control & 0x01 == 0 {
          SetPixel(x, y, 0);
          return;
        }
        var colId := PixelColorId(regs, vram[..], x as bv8, y as bv8);
        assert PaletteColor(palette, colId) == row[x];
        ColumnStep(old(back), y, row, x);
        SetPixel(x, y, colId);
        x := x + 1;
      }
    }

    /** `PPU::cycle`: the timing fields follow `TimingStep`; the last dot of a
      * visible line draws that line into the back display, and the last dot of
      * line 144 presents the back display and clears it. */
    method Cycle()
      requires Valid()
      modifies this`interruptRequest, this`lx, this`ly, this`mode, this`front, this`back
      ensures Valid()
      ensures TimingState() == TimingStep(old(TimingState()), statEnable, lyc)
      ensures old(lx) == 455 && old(ly) <= 143 ==> front == old(front) && back == RowDrawn(old(Registers()), old(vram[..]), old(back), old(ly))
      ensures old(lx) == 455 && old(ly) == 144 ==> front == old(back) && back == EmptyDisplay()
      ensures !(old(lx) == 455 && old(ly) <= 144) ==> front == old(front) && back == old(back)
    {
      interruptRequest := 0;
      if lx < 455 {
        NextDot();
      } else {
        EndLine();
      }
    }

    /** The first branch of `cycle`: within a line, the next dot, entering mode
      * 3 at dot 80 and mode 0 at dot 369 except during the vertical blank. */
    method NextDot()
      requires Valid() && lx < 455 && interruptRequest == 0
      modifies this`interruptRequest, this`lx, this`mode
      ensures Valid()
      ensures TimingState() == TimingStep(old(TimingState()), statEnable, lyc)
    {
      lx := lx + 1;
      if mode != 1 {
        if lx == 80 {
          mode, interruptRequest := 3, interruptRequest | ModeRequest(3, statEnable);
        } else if lx == 80 + 289 {
          mode, interruptRequest := 0, interruptRequest | ModeRequest(0, statEnable);
        }
      }
    }

    /** The second branch of `cycle`: the end of a line, moving to the next one
      * (line 153 wraps to 0), drawing a visible line, and at line 144 entering
      * the vertical blank and presenting the back display. */
    method EndLine()
      requires Valid() && lx == 455 && interruptRequest == 0
      modifies this`interruptRequest, this`lx, this`ly, this`mode, this`front, this`back
      ensures Valid()
      ensures TimingState() == TimingStep(old(TimingState()), statEnable, lyc)
      ensures old(ly) <= 143 ==> front == old(front) && back == RowDrawn(old(Registers()), old(vram[..]), old(back), old(ly))
      ensures old(ly) == 144 ==> front == old(back) && back == EmptyDisplay()
      ensures old(ly) > 144 ==> front == old(front) && back == old(back)
    {
      lx := 0;
      if ly <= 143 {
        mode, interruptRequest := 2, interruptRequest | ModeRequest(2, statEnable);
        DrawHorizontal(ly);
      } else if ly == 144 {
        interruptRequest := interruptRequest | VBLANK;
        mode, interruptRequest := 1, interruptRequest | ModeRequest(1, statEnable);
        front := back;
        back := EmptyDisplay();
      } else if ly == 153 {
        ly := 0;
        mode, interruptRequest := 2, interruptRequest | ModeRequest(2, statEnable);
        return;
      }
      NextLine();
    }

    /** The end of `cycle` after a line: the next line, and an LCD request when
      * the LYC enable bit is set and LYC equals it. */
    method NextLine()
      requires Valid() && ly < 153
      modifies this`ly, this`interruptRequest
      ensures Valid()
      ensures TimingState() == WithLyc(old(TimingState()).(ly := old(ly) + 1), statEnable, lyc)
    {
      ly := ly + 1;
      if statEnable & 0x40 != 0 && lyc as int == ly {
        interruptRequest := interruptRequest | LCD;
      }
    }

    /** The LCD registers `mem_read` and `mem_write` reach. */
    function Ports(): PortRegisters
      reads this`control, this`bgX, this`bgY, this`winX, this`winY, this`palette, this`statEnable, this`lyc
    {
      PortRegisters(Registers(), statEnable, lyc)
    }

    /** `mem_read` over VRAM, OAM and the LCD registers. */
    function MemRead(address: u16): (v: bv8)
      requires Valid()
      reads this, vram, oam
      ensures 0x8000 <= address <= 0x9FFF ==> v == vram[address as int - 0x8000]
      ensures 0xFE00 <= address <= 0xFE9F ==> v == oam[address as int - 0xFE00]
      ensures address == 0xFF41 ==> v == 0
      ensures Decode(address) == Unmapped ==> v == 0
    {
      var port := Decode(address);
      if port.VramAt? then vram[port.i]
      else if port.OamAt? then oam[port.i]
      else PortRead(Ports(), ly, mode, port)
    }

    /** `mem_write`: a VRAM or OAM address stores the byte at its index, a
      * register address updates the registers as `PortWrite` says (see
      * `WriteReadsBack` for what a read then returns), and the memories,
      * timing and displays are otherwise untouched. Nothing `Valid()` reads
      * is in its frame, so a valid PPU stays valid. */
    method MemWrite(address: u16, value: bv8)
      requires Buffers()
      modifies this`control, this`statEnable, this`bgY, this`bgX, this`lyc, this`palette, this`winY, this`winX,
        vram, oam
      ensures old(WindowInRange()) ==> WindowInRange()
      ensures Decode(address).VramAt? ==> vram[..] == old(vram[..])[Decode(address).i := value]
      ensures !Decode(address).VramAt? ==> vram[..] == old(vram[..])
      ensures Decode(address).OamAt? ==> oam[..] == old(oam[..])[Decode(address).i := value]
      ensures !Decode(address).OamAt? ==> oam[..] == old(oam[..])
      ensures Decode(address).VramAt? || Decode(address).OamAt? ==> Ports() == old(Ports())
      ensures (!Decode(address).VramAt? && !Decode(address).OamAt? ==>
        Ports() == PortWrite(old(Ports()), Decode(address), value))
    {
      var port := Decode(address);
      if port.VramAt? {
        vram[port.i] := value;
      } else if port.OamAt? {
        oam[port.i] := value;
      } else {
        var q := PortWrite(Ports(), port, value);
        control, bgX, bgY, winX, winY, palette := q.lcd.control, q.lcd.bgX, q.lcd.bgY, q.lcd.winX, q.lcd.winY, q.lcd.palette;
        statEnable, lyc := q.statEnable, q.lyc;
      }
    }
  }

  /** What `mem_read` returns after `mem_write`, given the state the write
    * produced: the byte written for VRAM, OAM and the scroll, LYC, palette
    * and window-Y registers, and `max(value, 7)` for WX. */
  lemma WriteReadsBack(ppu: Ppu, address: u16, value: bv8, vram: seq<bv8>, oam: seq<bv8>, ports: PortRegisters)
    requires ppu.Valid()
    requires (Decode(address).VramAt? ==>
      |vram| == 0x2000 && ppu.vram[..] == vram[Decode(address).i := value])
    requires (Decode(address).OamAt? ==>
      |oam| == 0xA0 && ppu.oam[..] == oam[Decode(address).i := value])
    requires (!Decode(address).VramAt? && !Decode(address).OamAt? ==>
      ppu.Ports() == PortWrite(ports, Decode(address), value))
    ensures ReadsBack(Decode(address)) ==> ppu.MemRead(address) == value
    ensures Decode(address) == Wx ==> ppu.MemRead(address) == if value < 7 then 7 else value
  {
    var port := Decode(address);
    if port.VramAt? {
      assert ppu.vram[port.i] == ppu.vram[..][port.i];
    } else if port.OamAt? {
      assert ppu.oam[port.i] == ppu.oam[..][port.i];
    } else {
      PortWriteReadsBack(ports, ppu.ly, ppu.mode, port, value);
    }
  }

  /** The LCD registers `mem_read` and `mem_write` reach, as one value. */
  datatype PortRegisters = PortRegisters(lcd: LcdRegisters, statEnable: bv8, lyc: bv8)

  /** The register side of `mem_read`, given LY and the mode. STAT (0xFF41)
    * combines its parts with `&`, and the coincidence bit (bit 2) never meets a
    * mode (0..=3), so STAT always reads 0. Unlisted registers read 0. */
  function PortRead(p: PortRegisters, ly: int, mode: int, port: Port): (v: bv8)
    requires 0 <= ly < 0x100 && 0 <= mode <= 3 && !port.VramAt? && !port.OamAt?
    ensures port == Stat ==> v == 0
    ensures port == Unmapped ==> v == 0
  {
    match port
    case Lcdc => p.lcd.control
    case Stat =>
      var coincidence: bv8 := (if p.lyc as int == ly then 1 else 0) << 2;
      StatIsZero(p.statEnable, coincidence, ModeBits(mode));
      p.statEnable & coincidence & ModeBits(mode)
    case Scy => p.lcd.bgY
    case Scx => p.lcd.bgX
    case Ly => ByteConversion(ly); ly as bv8
    case Lyc => p.lyc
    case Bgp => p.lcd.palette
    case Wy => p.lcd.winY
    case Wx => p.lcd.winX + 7
    case Unmapped => 0
  }

  /** LY reads back the current line. */
  lemma LyReadsLine(p: PortRegisters, ly: int, mode: int)
    requires 0 <= ly < 0x100 && 0 <= mode <= 3
    ensures PortRead(p, ly, mode, Ly) as int == ly
  {
    ByteConversion(ly);
  }

  /** The register side of `mem_write`. LCDC is stored whole, STAT keeps its
    * enable bits (3-6) and WX stores `value - 7`, saturating at 0; LY and
    * unlisted addresses are read-only. */
  function PortWrite(p: PortRegisters, port: Port, value: bv8): (q: PortRegisters)
    requires !port.VramAt? && !port.OamAt?
    ensures p.lcd.winX <= 248 ==> q.lcd.winX <= 248
  {
    match port
    case Lcdc => p.(lcd := p.lcd.(control := value))
    case Stat => p.(statEnable := value & 0x78)
    case Scy => p.(lcd := p.lcd.(bgY := value))
    case Scx => p.(lcd := p.lcd.(bgX := value))
    case Ly => p
    case Lyc => p.(lyc := value)
    case Bgp => p.(lcd := p.lcd.(palette := value))
    case Wy => p.(lcd := p.lcd.(winY := value))
    case Wx => p.(lcd := p.lcd.(winX := if value < 7 then 0 else value - 7))
    case Unmapped => p
  }

  /** A register write reads back as written, except WX, which reads back as
    * `max(value, 7)`, STAT, which always reads 0 but keeps the enable bits,
    * and the read-only LY. */
  lemma PortWriteReadsBack(p: PortRegisters, ly: int, mode: int, port: Port, value: bv8)
    requires 0 <= ly < 0x100 && 0 <= mode <= 3 && !port.VramAt? && !port.OamAt?
    ensures ReadsBack(port) ==> PortRead(PortWrite(p, port, value), ly, mode, port) == value
    ensures port == Wx ==> PortRead(PortWrite(p, port, value), ly, mode, port) == if value < 7 then 7 else value
    ensures port == Lcdc ==> PortWrite(p, port, value).lcd.control == value
    ensures port == Stat ==> PortWrite(p, port, value).statEnable == value & 0x78
    ensures port == Ly || port == Unmapped ==> PortWrite(p, port, value) == p
  {
  }

  /** A register write changes what no other register reads. */
  lemma PortWriteKeepsOthers(p: PortRegisters, ly: int, mode: int, port: Port, value: bv8, other: Port)
    requires 0 <= ly < 0x100 && 0 <= mode <= 3 && !port.VramAt? && !port.OamAt?
    requires !other.VramAt? && !other.OamAt? && other != port
    ensures PortRead(PortWrite(p, port, value), ly, mode, other) == PortRead(p, ly, mode, other)
  {
  }

  /** What an address of `get_range` selects: a VRAM or OAM index, or an LCD
    * register (0xFF40 LCDC, 0xFF41 STAT, 0xFF42 SCY, 0xFF43 SCX, 0xFF44 LY,
    * 0xFF45 LYC, 0xFF47 BGP, 0xFF4A WY, 0xFF4B WX). */
  datatype Port = VramAt(i: int) | OamAt(i: int) | Lcdc | Stat | Scy | Scx | Ly | Lyc | Bgp | Wy | Wx | Unmapped

  function Decode(address: u16): (p: Port)
    ensures p.VramAt? ==> 0 <= p.i < 0x2000 && p.i == address as int - 0x8000
    ensures p.OamAt? ==> 0 <= p.i < 0xA0 && p.i == address as int - 0xFE00
  {
    if 0x8000 <= address <= 0x9FFF then VramAt(address as int - 0x8000)
    else if 0xFE00 <= address <= 0xFE9F then OamAt(address as int - 0xFE00)
    else if address == 0xFF40 then Lcdc
    else if address == 0xFF41 then Stat
    else if address == 0xFF42 then Scy
    else if address == 0xFF43 then Scx
    else if address == 0xFF44 then Ly
    else if address == 0xFF45 then Lyc
    else if address == 0xFF47 then Bgp
    else if address == 0xFF4A then Wy
    else if address == 0xFF4B then Wx
    else Unmapped
  }

  /** The ports a write stores unchanged. */
  predicate ReadsBack(p: Port)
  {
    p.VramAt? || p.OamAt? || p == Lcdc || p == Scy || p == Scx || p == Lyc || p == Bgp || p == Wy
  }

  /** A mode as the byte Rust stores. */
  function ModeBits(mode: int): (b: bv8)
    requires 0 <= mode <= 3
    ensures b <= 3
  {
    if mode == 0 then 0 else if mode == 1 then 1 else if mode == 2 then 2 else 3
  }

  /** The coincidence bit is bit 2 or nothing and a mode is at most 3, so their
    * `&` is 0. */
  lemma StatIsZero(statEnable: bv8, coincidence: bv8, mode: bv8)
    requires coincidence == 0 || coincidence == 4
    requires mode <= 3
    ensures statEnable & coincidence & mode == 0
  {
  }
}
