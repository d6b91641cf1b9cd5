/**
 The pixels of src/ppu.c:30-139 from the bytes of VRAM, OAM and the registers alone: a second definition of
 every colour, written with division and comparison instead of the renderer's own tile, sprite and bit
 functions, and proved equal to them.
 */
module PixelLaws {
  import opened Bytes
  import opened Lcd
  import opened Background
  import opened Sprites
  import DivMod

  // ---------------------------------------------------------------------------
  // Tile rows
  // ---------------------------------------------------------------------------

  /** The weight of column `c` of a tile row, the leftmost being the highest bit. */
  function Weight(c: nat): (w: nat)
    requires c < 8
    ensures w > 0
  {
    match c
    case 0 => 128
    case 1 => 64
    case 2 => 32
    case 3 => 16
    case 4 => 8
    case 5 => 4
    case 6 => 2
    case _ => 1
  }

  /** Column `c` of a tile row, from its two plane bytes. */
  function Dot(low: u8, high: u8, c: nat): (d: nat)
    requires c < 8
    ensures d < 4
  {
    low / Weight(c) % 2 + 2 * (high / Weight(c) % 2)
  }

  lemma ColorIdIsDot(low: u8, high: u8, c: nat)
    requires c < 8
    ensures ColorId(low, high, 7 - c) == Dot(low, high, c)
  {
    hide Bit;
    Digit(low, 7 - c, Weight(c));
    Digit(high, 7 - c, Weight(c));
  }

  /** Shade `color` of a palette byte. */
  function PaletteShade(palette: u8, color: nat): (s: nat)
    requires color < 4
  {
    match color
    case 0 => palette % 4
    case 1 => palette / 4 % 4
    case 2 => palette / 16 % 4
    case _ => palette / 64
  }

  lemma ShadeIsPaletteShade(palette: u8, color: nat)
    requires color < 4
    ensures Shade(palette, color) == PaletteShade(palette, color)
  {
    hide Bit;
    match color
    case 0 => TwoBits(palette, 0, 1);
    case 1 => TwoBits(palette, 2, 4);
    case 2 => TwoBits(palette, 4, 16);
    case _ => TwoBits(palette, 6, 64);
  }

  lemma TwoBits(x: nat, k: nat, weight: nat)
    requires k < 7 && weight == [1, 2, 4, 8, 16, 32, 64][k]
    ensures 2 * Bit(x, k + 1) + Bit(x, k) == x / weight % 4
  {
    hide Bit;
    Digit(x, k, weight);
    Digit(x, k + 1, 2 * weight);
    var y := x / weight;
    assert x / (2 * weight) == y / 2;
  }

  /** Binary digits, highest first. */
  function Spelled(digits: seq<nat>): nat {
    if digits == [] then 0 else 2 * Spelled(digits[..|digits| - 1]) + digits[|digits| - 1]
  }

  lemma NextDigit(b: u8, c: nat)
    requires 0 < c < 8
    ensures b / Weight(c) == 2 * (b / Weight(c - 1)) + b / Weight(c) % 2
  {
    match c
    case 1 =>
    case 2 =>
    case 3 =>
    case 4 =>
    case 5 =>
    case 6 =>
    case _ =>
  }

  lemma {:induction false} DigitsSpell(b: u8, digits: seq<nat>, k: nat)
    requires |digits| == 8 && k <= 8 && forall c :: 0 <= c < 8 ==> digits[c] == b / Weight(c) % 2
    ensures Spelled(digits[..k]) == if k == 0 then 0 else b / Weight(k - 1)
  {
    hide Weight;
    if k > 0 {
      DigitsSpell(b, digits, k - 1);
      assert digits[..k][..k - 1] == digits[..k - 1];
      if k > 1 {
        NextDigit(b, k - 1);
      } else {
        FirstDigit(b);
      }
    }
  }

  lemma FirstDigit(b: u8)
    ensures b / Weight(0) == b / Weight(0) % 2 && b / Weight(7) == b
  {
  }

  /** The digits of a plane byte, column by column, spell it. */
  lemma RowSpells(b: u8, digits: seq<nat>)
    requires |digits| == 8 && forall c :: 0 <= c < 8 ==> digits[c] == b / Weight(c) % 2
    ensures Spelled(digits) == b
  {
    hide Weight;
    DigitsSpell(b, digits, 8);
    FirstDigit(b);
    assert digits[..8] == digits;
  }

  // ---------------------------------------------------------------------------
  // Background and window
  // ---------------------------------------------------------------------------

  /** VRAM offset of the two plane bytes at row `row` of the map cell that covers column `col`. */
  function PlaneAddress(vram: Vram, col: u8, row: u8, highMap: bool, unsigned: bool): (a: nat)
    ensures a + 1 < 0x2000
  {
    var tile := vram[(if highMap then 0x1C00 else 0x1800) + 32 * (row / 8) + col / 8];
    (if unsigned || tile >= 128 then 16 * tile else 0x1000 + 16 * tile) + 2 * (row % 8)
  }

  function TileDot(vram: Vram, col: u8, row: u8, highMap: bool, unsigned: bool): (d: nat)
    ensures d < 4
  {
    var a := PlaneAddress(vram, col, row, highMap, unsigned);
    Dot(vram[a], vram[a + 1], col % 8)
  }

  /** fetch_bg_window_pixel reads the map cell at (column / 8, row / 8) and the bit of its column, highest bit left. */
  lemma FetchIsTileDot(vram: Vram, col: u8, row: u8, highMap: bool, unsigned: bool)
    ensures FetchPixel(vram, col, row, highMap, unsigned) == TileDot(vram, col, row, highMap, unsigned)
  {
    var a := PlaneAddress(vram, col, row, highMap, unsigned);
    ColorIdIsDot(vram[a], vram[a + 1], col % 8);
    hide ColorId, Dot;
  }

  /**
   The eight columns of a map cell, leftmost first, spell the two plane bytes of its tile row: `lows` are the low
   bits of their colours and `highs` the high bits.
   */
  lemma CellSpellsPlanes(vram: Vram, cell: nat, row: u8, highMap: bool, unsigned: bool, lows: seq<nat>, highs: seq<nat>)
    requires cell < 32 && |lows| == 8 && |highs| == 8
    requires forall c :: 0 <= c < 8 ==>
               FetchPixel(vram, 8 * cell + c, row, highMap, unsigned) == lows[c] + 2 * highs[c] && lows[c] < 2
    ensures var a := PlaneAddress(vram, 8 * cell, row, highMap, unsigned);
      Spelled(lows) == vram[a] && Spelled(highs) == vram[a + 1]
  {
    hide FetchPixel, PlaneAddress, Weight;
    var a := PlaneAddress(vram, 8 * cell, row, highMap, unsigned);
    forall c | 0 <= c < 8
      ensures lows[c] == vram[a] / Weight(c) % 2 && highs[c] == vram[a + 1] / Weight(c) % 2
    {
      FetchIsTileDot(vram, 8 * cell + c, row, highMap, unsigned);
      SameCell(vram, 8 * cell, 8 * cell + c, row, highMap, unsigned);
    }
    RowSpells(vram[a], lows);
    RowSpells(vram[a + 1], highs);
  }

  lemma SameCell(vram: Vram, first: u8, col: u8, row: u8, highMap: bool, unsigned: bool)
    requires first % 8 == 0 && first <= col < first + 8
    ensures PlaneAddress(vram, col, row, highMap, unsigned) == PlaneAddress(vram, first, row, highMap, unsigned)
    ensures col % 8 == col - first
  {
    assert col / 8 == first / 8;
  }

  /** The window starts at WX - 7. */
  predicate InWindow(config: Config, window: bool, x: nat) { window && x + 7 >= config.wx }

  /** The window is drawn on a line, and its line counter moves, exactly when it is on and some column shows it. */
  lemma WindowNeedsAColumn(config: Config, reached: bool)
    ensures WindowActive(config, reached) <==>
      && config.ctrl.bgWindowEnable && config.ctrl.windowEnable
      && reached && exists x: nat :: x < 160 && InWindow(config, true, x)
  {
    if config.wx <= 166 {
      assert InWindow(config, true, 159);
    }
  }

  /** Column, row and map under a pixel: SCX and SCY wrap, the window counts its own lines. */
  function MapColumn(config: Config, window: bool, x: nat): u8
    requires x < 160
  {
    if InWindow(config, window, x) then x + 7 - config.wx else (x + config.scx) % 256
  }

  function MapRow(config: Config, ly: u8, window: bool, windowLine: u8, x: nat): u8 {
    if InWindow(config, window, x) then windowLine else (ly + config.scy) % 256
  }

  predicate HighMap(config: Config, window: bool, x: nat) {
    if InWindow(config, window, x) then config.ctrl.windowTileMap else config.ctrl.bgTileMap
  }

  /** The background or window colour of a column, from the registers. */
  function BackgroundDot(config: Config, vram: Vram, ly: u8, window: bool, windowLine: u8, x: nat): (d: nat)
    requires x < 160
    ensures d < 4
  {
    if !config.ctrl.bgWindowEnable then 0
    else
      TileDot(vram, MapColumn(config, window, x), MapRow(config, ly, window, windowLine, x), HighMap(config, window, x),
              config.ctrl.bgWindowTileData)
  }

  lemma ColorIsBackgroundDot(config: Config, vram: Vram, ly: u8, window: bool, windowLine: u8, x: nat)
    requires x < 160
    ensures BgColor(config, vram, ly, window, windowLine, x) == BackgroundDot(config, vram, ly, window, windowLine, x)
    ensures BgShade(config, BgColor(config, vram, ly, window, windowLine, x)) ==
      if config.ctrl.bgWindowEnable then PaletteShade(config.bgp, BackgroundDot(config, vram, ly, window, windowLine, x))
      else 0
  {
    FetchIsTileDot(vram, MapColumn(config, window, x), MapRow(config, ly, window, windowLine, x),
                   HighMap(config, window, x), config.ctrl.bgWindowTileData);
    ShadeIsPaletteShade(config.bgp, BackgroundDot(config, vram, ly, window, windowLine, x));
    hide FetchPixel, TileDot, Shade, PaletteShade;
  }

  /** Eight columns of a line that make up one map cell spell the cell's plane bytes, scrolled or in the window. */
  lemma LineSpellsPlanes(config: Config, vram: Vram, ly: u8, window: bool, windowLine: u8, x: nat,
                         lows: seq<nat>, highs: seq<nat>)
    requires x + 8 <= 160 && config.ctrl.bgWindowEnable && |lows| == 8 && |highs| == 8
    requires MapColumn(config, window, x) % 8 == 0 && InWindow(config, window, x) == InWindow(config, window, x + 7)
    requires forall c :: 0 <= c < 8 ==>
               BgColor(config, vram, ly, window, windowLine, x + c) == lows[c] + 2 * highs[c] && lows[c] < 2
    ensures var a := PlaneAddress(vram, MapColumn(config, window, x), MapRow(config, ly, window, windowLine, x),
                                  HighMap(config, window, x), config.ctrl.bgWindowTileData);
      Spelled(lows) == vram[a] && Spelled(highs) == vram[a + 1]
  {
    hide BgColor, PlaneAddress, Weight, Spelled, MapColumn, MapRow, HighMap, InWindow;
    var a := PlaneAddress(vram, MapColumn(config, window, x), MapRow(config, ly, window, windowLine, x),
                          HighMap(config, window, x), config.ctrl.bgWindowTileData);
    forall c | 0 <= c < 8
      ensures lows[c] == vram[a] / Weight(c) % 2 && highs[c] == vram[a + 1] / Weight(c) % 2
    {
      ColumnDigits(config, vram, ly, window, windowLine, x, c, lows[c], highs[c]);
    }
    RowSpells(vram[a], lows);
    RowSpells(vram[a + 1], highs);
  }

  lemma ColumnDigits(config: Config, vram: Vram, ly: u8, window: bool, windowLine: u8, x: nat, c: nat,
                     low: nat, high: nat)
    requires x + 8 <= 160 && config.ctrl.bgWindowEnable && c < 8
    requires MapColumn(config, window, x) % 8 == 0 && InWindow(config, window, x) == InWindow(config, window, x + 7)
    requires BgColor(config, vram, ly, window, windowLine, x + c) == low + 2 * high && low < 2
    ensures var a := PlaneAddress(vram, MapColumn(config, window, x), MapRow(config, ly, window, windowLine, x),
                                  HighMap(config, window, x), config.ctrl.bgWindowTileData);
      low == vram[a] / Weight(c) % 2 && high == vram[a + 1] / Weight(c) % 2
  {
    hide BgColor, PlaneAddress, Weight, MapColumn, MapRow, HighMap, InWindow;
    ColorIsBackgroundDot(config, vram, ly, window, windowLine, x + c);
    ColumnOf(config, ly, window, windowLine, x, c);
    SameCell(vram, MapColumn(config, window, x), MapColumn(config, window, x + c),
             MapRow(config, ly, window, windowLine, x), HighMap(config, window, x), config.ctrl.bgWindowTileData);
  }

  lemma ColumnOf(config: Config, ly: u8, window: bool, windowLine: u8, x: nat, c: nat)
    requires x + 8 <= 160 && c < 8
    requires MapColumn(config, window, x) % 8 == 0 && InWindow(config, window, x) == InWindow(config, window, x + 7)
    ensures MapColumn(config, window, x + c) == MapColumn(config, window, x) + c
    ensures MapRow(config, ly, window, windowLine, x + c) == MapRow(config, ly, window, windowLine, x)
    ensures HighMap(config, window, x + c) == HighMap(config, window, x)
  {
    if !InWindow(config, window, x) {
      var a := x + config.scx;
      DivMod.Unique(a + c, 256, a / 256, a % 256 + c);
    }
  }

  // ---------------------------------------------------------------------------
  // Sprites
  // ---------------------------------------------------------------------------

  /** OAM entry `i` overlaps the line: its Y byte is 16 more than its top row. */
  predicate Overlaps(line: ObjLine, i: nat)
    requires i < 40
  {
    0 <= line.ly + 16 - line.oam[4 * i] < if line.tall then 16 else 8
  }

  function Overlapping(line: ObjLine, i: nat): set<nat>
    requires i <= 40
  {
    set j: nat | j < i && Overlaps(line, j)
  }

  /** It is one of the first ten that do. */
  predicate Kept(line: ObjLine, i: nat) {
    i < 40 && Overlaps(line, i) && |Overlapping(line, i)| < 10
  }

  /** Column `c` of its row on this line: Y flip is bit 6, X flip bit 5, and a tall sprite starts at an even tile. */
  function SpriteDot(line: ObjLine, i: nat, c: nat): (d: nat)
    requires i < 40 && Overlaps(line, i) && c < 8
  {
    var flags, y := line.oam[4 * i + 3], line.ly + 16 - line.oam[4 * i];
    var row := if flags / 64 % 2 == 1 then (if line.tall then 15 else 7) - y else y;
    var tile := if line.tall then line.oam[4 * i + 2] - line.oam[4 * i + 2] % 2 else line.oam[4 * i + 2];
    var a := 16 * tile + 2 * row;
    Dot(line.vram[a], line.vram[a + 1], if flags / 32 % 2 == 1 then 7 - c else c)
  }

  /** Its X byte is 8 more than its left column, and it is not transparent in column `x`. */
  predicate Shows(line: ObjLine, i: nat, x: nat) {
    Kept(line, i) && 0 <= x + 8 - line.oam[4 * i + 1] < 8 && SpriteDot(line, i, x + 8 - line.oam[4 * i + 1]) != 0
  }

  /** The smaller X byte comes first, then the smaller index. */
  predicate Ahead(line: ObjLine, i: nat, j: nat)
    requires i < 40 && j < 40
  {
    line.oam[4 * i + 1] < line.oam[4 * j + 1] || (line.oam[4 * i + 1] == line.oam[4 * j + 1] && i < j)
  }

  ghost predicate OnTop(line: ObjLine, i: nat, x: nat) {
    Shows(line, i, x) && forall j: nat :: Shows(line, j, x) && j != i ==> Ahead(line, i, j)
  }

  /** What it draws: bit 7 puts it behind a non-zero background, bit 4 picks OBP1. */
  function SpriteShade(line: ObjLine, i: nat, x: nat, bgColor: u8, before: u8): nat
    requires Shows(line, i, x)
  {
    var flags := line.oam[4 * i + 3];
    var palette := if flags / 16 % 2 == 1 then line.obp1 else line.obp0;
    if flags >= 128 && bgColor != 0 then before
    else PaletteShade(palette, SpriteDot(line, i, x + 8 - line.oam[4 * i + 1]))
  }

  lemma {:induction false} OverlappingIsCount(line: ObjLine, i: nat)
    requires i <= 40
    ensures |Overlapping(line, i)| == line.CoveringBefore(i)
  {
    if i > 0 {
      OverlappingIsCount(line, i - 1);
      assert line.Covers(line.At(i - 1)) == Overlaps(line, i - 1);
      if Overlaps(line, i - 1) {
        assert Overlapping(line, i) == Overlapping(line, i - 1) + {i - 1};
      } else {
        assert Overlapping(line, i) == Overlapping(line, i - 1);
      }
    } else {
      assert Overlapping(line, 0) == {};
    }
  }

  lemma SelectedIsKept(line: ObjLine, i: nat)
    ensures line.Selected(i) <==> Kept(line, i)
  {
    if i < 40 {
      OverlappingIsCount(line, i);
    }
    hide Overlapping, ObjLine.CoveringBefore;
  }

  lemma ColorIsSpriteDot(line: ObjLine, i: nat, c: nat)
    requires i < 40 && Overlaps(line, i) && c < 8
    ensures line.Covers(line.At(i)) && line.ColorAt(line.At(i), c) == SpriteDot(line, i, c)
  {
    var s := line.At(i);
    Digit(s.flags, 6, 64);
    Digit(s.flags, 5, 32);
    hide Bit, ColorId, Dot;
    var a := line.RowOffset(s);
    ColorIdIsDot(line.vram[a], line.vram[a + 1], c);
    ColorIdIsDot(line.vram[a], line.vram[a + 1], 7 - c);
  }

  lemma CandidateShows(line: ObjLine, i: nat, x: nat)
    ensures line.Candidate(i, x) <==> Shows(line, i, x)
  {
    SelectedIsKept(line, i);
    hide ObjLine.CoveringBefore, Overlapping, ObjLine.ColorAt, SpriteDot;
    if Kept(line, i) && 0 <= x + 8 - line.oam[4 * i + 1] < 8 {
      ColorIsSpriteDot(line, i, x + 8 - line.oam[4 * i + 1]);
    }
  }

  lemma BlendIsSpriteShade(line: ObjLine, i: nat, x: nat, bgColor: u8, before: u8)
    requires Shows(line, i, x)
    ensures line.Candidate(i, x)
    ensures line.Blend(line.At(i), x, bgColor, before) == SpriteShade(line, i, x, bgColor, before)
  {
    CandidateShows(line, i, x);
    FlagsInNumbers(line.At(i));
    var d := SpriteDot(line, i, x + 8 - line.oam[4 * i + 1]);
    ColorIsSpriteDot(line, i, x + 8 - line.oam[4 * i + 1]);
    ShadeIsPaletteShade(line.obp0, d);
    ShadeIsPaletteShade(line.obp1, d);
    hide Overlaps, ObjLine.CoveringBefore, Overlapping, ObjLine.ColorAt, SpriteDot, Shade, PaletteShade, ObjLine.Covers;
    hide Sprite.BgPriority, Sprite.SecondPalette;
  }

  lemma FlagsInNumbers(s: Sprite)
    ensures s.BgPriority() <==> s.flags >= 128
    ensures s.SecondPalette() <==> s.flags / 16 % 2 == 1
  {
    Digit(s.flags, 7, 128);
    Digit(s.flags, 4, 16);
    hide Bit;
  }

  /** Between two sprites opaque in a column, the one with the larger X byte, or the later one, never wins. */
  lemma LaterNeverWins(line: ObjLine, x: nat, i: nat, j: nat)
    requires line.Candidate(i, x) && line.Candidate(j, x) && i != j
    requires line.oam[4 * i + 1] < line.oam[4 * j + 1] || (line.oam[4 * i + 1] == line.oam[4 * j + 1] && i < j)
    ensures !line.Wins(j, x)
  {
    hide ObjLine.Candidate;
  }

  lemma WinnerIsOnTop(line: ObjLine, x: nat, i: nat)
    ensures line.Wins(i, x) <==> OnTop(line, i, x)
  {
    forall j: nat ensures line.Candidate(j, x) <==> Shows(line, j, x) {
      CandidateShows(line, j, x);
    }
    hide ObjLine.Opaque, ObjLine.Covers, SpriteDot, Overlapping, Overlaps;
    assert line.Candidate(i, x) ==> i < 40;
  }

  /** The sprite pass from the bytes of OAM and VRAM: which sprite is on top in a column, and what it draws there. */
  lemma PixelFromBytes(line: ObjLine, x: nat, bgColor: u8, before: u8)
    ensures (forall i: nat :: !Shows(line, i, x)) ==> line.Pixel(x, bgColor, before) == before
    ensures (exists i: nat :: Shows(line, i, x)) ==> exists i: nat :: OnTop(line, i, x)
    ensures forall i: nat :: OnTop(line, i, x) ==>
              line.Pixel(x, bgColor, before) == SpriteShade(line, i, x, bgColor, before)
  {
    PixelRule(line, x, bgColor, before);
    forall j: nat ensures line.Candidate(j, x) <==> Shows(line, j, x) {
      CandidateShows(line, j, x);
    }
    forall i: nat ensures line.Wins(i, x) <==> OnTop(line, i, x) {
      WinnerIsOnTop(line, x, i);
    }
    hide ObjLine.Candidate, ObjLine.Wins, ObjLine.Pixel, ObjLine.Blend, Shows, SpriteShade;
    forall i: nat | OnTop(line, i, x)
      ensures line.Pixel(x, bgColor, before) == SpriteShade(line, i, x, bgColor, before)
    {
      BlendIsSpriteShade(line, i, x, bgColor, before);
      assert line.Wins(i, x);
    }
  }

  // ---------------------------------------------------------------------------
  // A finished pixel
  // ---------------------------------------------------------------------------

  /** The finished pixel of a line: the background's shade, unless sprites are enabled and one shows there. */
  lemma LinePixelFromBytes(config: Config, vram: Vram, oam: Oam, ly: u8, window: bool, windowLine: u8, x: nat)
    requires x < 160
    ensures var color := BackgroundDot(config, vram, ly, window, windowLine, x);
      var shade := if config.ctrl.bgWindowEnable then PaletteShade(config.bgp, color) else 0;
      var line := ObjLine(oam, vram, config.ctrl.objSize, config.obp0, config.obp1, ly);
      var pixel := LinePixel(config, vram, oam, ly, window, windowLine, x);
      && (!config.ctrl.objEnable || (forall i: nat :: !Shows(line, i, x)) ==> pixel == shade)
      && (config.ctrl.objEnable ==> forall i: nat :: OnTop(line, i, x) ==> pixel == SpriteShade(line, i, x, color, shade))
  {
    hide BgColor, BgShade, PaletteShade, BackgroundDot, Shows, SpriteShade, ObjLine.Pixel;
    ColorIsBackgroundDot(config, vram, ly, window, windowLine, x);
    var line := ObjLine(oam, vram, config.ctrl.objSize, config.obp0, config.obp1, ly);
    var color := BgColor(config, vram, ly, window, windowLine, x);
    PixelFromBytes(line, x, color, BgShade(config, color));
  }
}
