/**
 The background and window half of the scanline renderer, src/ppu.c:30-54 and 141-193.
 */
module Background {
  import opened Bytes
  import opened Lcd
  import Sprites

  /** The signed reading of a byte, `(int8_t) b`. */
  function Signed(b: u8): int {
    if b < 0x80 then b else b - 0x100
  }

  /** VRAM offset of a tile: $8000 addressing counts up, $9000 addressing is signed. */
  function TileOffset(index: u8, unsigned: bool): (o: nat)
    ensures o % 16 == 0 && (if unsigned then o < 0x1000 else 0x800 <= o < 0x1800)
  {
    if unsigned then index * 16 else 0x1000 + Signed(index) * 16
  }

  /** fetch_bg_window_pixel: the colour id of one pixel of a 256x256 tile map. */
  function FetchPixel(vram: Sprites.Vram, mapX: u8, mapY: u8, highMap: bool, unsigned: bool): (c: nat)
    ensures c < 4
  {
    var mapOffset := if highMap then 0x1C00 else 0x1800;
    var tile := TileOffset(vram[mapOffset + mapY / 8 * 32 + mapX / 8], unsigned);
    Sprites.ColorId(vram[tile + mapY % 8 * 2], vram[tile + mapY % 8 * 2 + 1], 7 - mapX % 8)
  }

  /** The window is drawn on a line: enabled, already reached vertically, and not pushed off the right edge. */
  predicate WindowActive(config: Config, wyCondition: bool) {
    config.ctrl.bgWindowEnable && config.ctrl.windowEnable && wyCondition && config.wx <= 166
  }

  /** The background or window colour id of column `x` of line `ly`. */
  function BgColor(config: Config, vram: Sprites.Vram, ly: u8, window: bool, windowLine: u8, x: nat): (c: nat)
    requires x < Sprites.LCD_WIDTH
    ensures c < 4
  {
    if !config.ctrl.bgWindowEnable then 0
    else if window && config.wx <= x + 7 then
      FetchPixel(vram, x + 7 - config.wx, windowLine, config.ctrl.windowTileMap, config.ctrl.bgWindowTileData)
    else
      FetchPixel(vram, (x + config.scx) % 0x100, (ly + config.scy) % 0x100, config.ctrl.bgTileMap,
                 config.ctrl.bgWindowTileData)
  }

  /** The shade a background colour id is drawn with; a disabled background is blank whatever the palette. */
  function BgShade(config: Config, color: nat): (s: u8)
    ensures s < 4
  {
    if config.ctrl.bgWindowEnable then Sprites.Shade(config.bgp, color) else 0
  }

  /** The colour ids of a whole row. */
  function BgRow(config: Config, vram: Sprites.Vram, ly: u8, window: bool, windowLine: u8): (row: seq<u8>)
    ensures |row| == Sprites.LCD_WIDTH
  {
    seq(Sprites.LCD_WIDTH, x requires 0 <= x < Sprites.LCD_WIDTH => BgColor(config, vram, ly, window, windowLine, x))
  }

  /** One column, with the 8-bit coordinate arithmetic of the source. */
  method PickPixel(config: Config, vram: Sprites.Vram, ly: u8, window: bool, windowLine: u8, x: nat)
    returns (color: u8, inWindow: bool)
    requires x < Sprites.LCD_WIDTH && config.ctrl.bgWindowEnable
    ensures color == BgColor(config, vram, ly, window, windowLine, x)
    ensures inWindow == (window && config.wx <= x + 7)
  {
    hide FetchPixel;
    var unsigned := config.ctrl.bgWindowTileData;
    inWindow := window && x + 7 >= config.wx;
    if inWindow {
      var winX := x + 7 - config.wx;
      color := FetchPixel(vram, winX, windowLine, config.ctrl.windowTileMap, unsigned);
    } else {
      var bgX := (x + config.scx) % 0x100;
      var bgY := (ly + config.scy) % 0x100;
      color := FetchPixel(vram, bgX, bgY, config.ctrl.bgTileMap, unsigned);
    }
  }

  /** The column loop of pixel_fetcher, with the row it leaves in the framebuffer and whether the window was drawn. */
  method DrawRow(fb: array<u8>, config: Config, vram: Sprites.Vram, ly: u8, window: bool, windowLine: u8)
    returns (bgColorId: seq<u8>, windowDrawn: bool)
    requires fb.Length == 23040 && ly < Sprites.LCD_HEIGHT
    requires window ==> config.wx <= 166
    modifies fb
    ensures bgColorId == BgRow(config, vram, ly, window, windowLine)
    ensures windowDrawn == (config.ctrl.bgWindowEnable && window)
    ensures forall x :: 0 <= x < 160 ==> fb[ly * 160 + x] == BgShade(config, bgColorId[x])
    ensures forall p :: 0 <= p < 23040 && p / 160 != ly ==> fb[p] == old(fb[p])
  {
    ghost var row := BgRow(config, vram, ly, window, windowLine);
    bgColorId, windowDrawn := [], false;
    var base: int := ly * 160;
    for x := 0 to 160
      invariant bgColorId == row[..x]
      invariant windowDrawn == (config.ctrl.bgWindowEnable && window && x > 0 && config.wx <= x + 6)
      invariant forall c :: 0 <= c < x ==> fb[base + c] == BgShade(config, row[c])
      invariant forall p :: 0 <= p < 23040 && p / 160 != ly ==> fb[p] == old(fb[p])
    {
      var color := 0;
      if config.ctrl.bgWindowEnable {
        var inWindow;
        color, inWindow := PickPixel(config, vram, ly, window, windowLine, x);
        windowDrawn := windowDrawn || inWindow;
      }
      fb[base + x] := if config.ctrl.bgWindowEnable then Sprites.Shade(config.bgp, color) else 0;
      bgColorId := bgColorId + [color];
    }
  }

  /** The finished pixel of column `x`: background or window, then the sprites over it. */
  ghost function LinePixel(config: Config, vram: Sprites.Vram, oam: Sprites.Oam, ly: u8, window: bool, windowLine: u8,
                           x: nat): u8
    requires x < Sprites.LCD_WIDTH
  {
    var color := BgColor(config, vram, ly, window, windowLine, x);
    var shade := BgShade(config, color);
    if config.ctrl.objEnable then ObjLineOf(config, vram, oam, ly).Pixel(x, color, shade) else shade
  }

  function ObjLineOf(config: Config, vram: Sprites.Vram, oam: Sprites.Oam, ly: u8): Sprites.ObjLine {
    Sprites.ObjLine(oam, vram, config.ctrl.objSize, config.obp0, config.obp1, ly)
  }

  /** A whole line: the background pass, then the sprites when they are enabled. */
  method DrawLine(fb: array<u8>, config: Config, vram: Sprites.Vram, oam: Sprites.Oam, ly: u8, window: bool,
                  windowLine: u8)
    returns (windowDrawn: bool)
    requires fb.Length == 23040 && ly < Sprites.LCD_HEIGHT
    requires window ==> config.wx <= 166
    modifies fb
    ensures windowDrawn == (config.ctrl.bgWindowEnable && window)
    ensures forall p :: 0 <= p < 23040 ==>
      fb[p] == if p / 160 == ly then LinePixel(config, vram, oam, ly, window, windowLine, p % 160) else old(fb[p])
  {
    var bgColorId;
    bgColorId, windowDrawn := DrawRow(fb, config, vram, ly, window, windowLine);
    ghost var row := fb[..];
    if config.ctrl.objEnable {
      Sprites.RenderSpritesScanline(fb, ObjLineOf(config, vram, oam, ly), bgColorId);
    }
    forall p | 0 <= p < 23040
      ensures fb[p] == if p / 160 == ly then LinePixel(config, vram, oam, ly, window, windowLine, p % 160) else old(fb[p])
    {
      if p / 160 == ly {
        var x := p % 160;
        assert p == ly as int * 160 + x;
        assert bgColorId[x] == BgColor(config, vram, ly, window, windowLine, x);
        assert row[p] == BgShade(config, bgColorId[x]);
      }
    }
  }
}
