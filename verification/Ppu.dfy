/**
 The PPU, src/ppu.c: the dot counter, the scanline modes, and whole-line rendering at
 HBlank entry. `Scan.Dots` and `Scan.Painted` are the value-level machine the class refines.
 */
module Ppu {
  import opened Bytes
  import opened Lcd
  import opened Background
  import Sprites

  const DOTS_PER_SCANLINE := 456
  const SCANLINES_PER_FRAME := 154
  const VBLANK_START_LINE := 144
  const DOTS_PER_FRAME := 70224
  const DRAWING_DOT := 80
  const HBLANK_DOT := 252

  type Framebuffer = s: seq<u8> | |s| == 23040 witness seq(23040, _ => 0)

  /** The memories the PPU reads. */
  datatype Mem = Mem(vram: Sprites.Vram, oam: Sprites.Oam)

  /** Everything that moves with the dots except the pixels. */
  datatype Scan = Scan(lcd: LcdState, dot: u16, windowLine: u8, wyCondition: bool, frameReady: bool)
  {
    /** The window latch as pixel_fetcher leaves it on this line. */
    predicate WyReached(config: Config) {
      wyCondition || lcd.ly == config.wy
    }

    /** The counters after pixel_fetcher: the window line moves exactly when the window was drawn. */
    function Fetched(config: Config): Scan {
      this.(wyCondition := WyReached(config),
            windowLine := if WindowActive(config, WyReached(config)) then (windowLine + 1) % 0x100 else windowLine)
    }

    /** This dot is the one on which the line is rendered. */
    predicate Renders() {
      lcd.ly < VBLANK_START_LINE && dot == HBLANK_DOT
    }

    /** Dots 80 and 252 of a visible line. */
    function MidLine(config: Config): Scan {
      if Renders() then this.(lcd := lcd.Enter(HBlank)).Fetched(config)
      else if lcd.ly < VBLANK_START_LINE && dot == DRAWING_DOT then this.(lcd := lcd.Enter(Drawing))
      else this
    }

    /** The end of a scanline. */
    function NextLine(): Scan {
      var wrap := (lcd.ly + 1) % 0x100 >= SCANLINES_PER_FRAME;
      var l := lcd.(ly := if wrap then 0 else (lcd.ly + 1) % 0x100).Sample();
      var s := this.(lcd := l, dot := 0, windowLine := if wrap then 0 else windowLine);
      if l.ly == VBLANK_START_LINE then
        s.(lcd := l.Enter(VBlank), windowLine := 0, wyCondition := false, frameReady := true)
      else if l.ly < VBLANK_START_LINE then s.(lcd := l.Enter(OamScan))
      else s
    }

    function Advance(): Scan {
      this.(dot := (dot + 1) % 0x1_0000)
    }

    function OneDot(config: Config): Scan {
      var s := Advance().MidLine(config);
      if s.dot >= DOTS_PER_SCANLINE then s.NextLine() else s
    }

    function Dots(config: Config, n: nat): Scan {
      if n == 0 then this else Dots(config, n - 1).OneDot(config)
    }

    /** ppu_step with the LCD off. */
    function Disabled(): Scan {
      this.(dot := 0, windowLine := 0, lcd := lcd.(ly := 0).Enter(HBlank))
    }

    /** ppu_step. */
    function Step(config: Config, n: nat): Scan {
      if !config.ctrl.lcdEnable then Disabled() else Dots(config, n)
    }

    /** The framebuffer with this line's row redrawn. */
    ghost function Row(config: Config, mem: Mem, fb: Framebuffer): Framebuffer
      requires lcd.ly < VBLANK_START_LINE
    {
      seq(23040, p requires 0 <= p < 23040 =>
        if p / 160 == lcd.ly
        then LinePixel(config, mem.vram, mem.oam, lcd.ly, WindowActive(config, WyReached(config)), windowLine, p % 160)
        else fb[p])
    }

    /** The framebuffer after one more dot. */
    ghost function Paint(config: Config, mem: Mem, fb: Framebuffer): Framebuffer {
      if Advance().Renders() then Row(config, mem, fb) else fb
    }

    /** The framebuffer after `n` dots. */
    ghost function Painted(config: Config, mem: Mem, fb: Framebuffer, n: nat): Framebuffer {
      if n == 0 then fb else Dots(config, n - 1).Paint(config, mem, Painted(config, mem, fb, n - 1))
    }
  }

  // ---------------------------------------------------------------------------
  // The in-place machine
  // ---------------------------------------------------------------------------

  class Ppu {
    const lcd: LcdRegs
    const framebuffer: array<u8>
    const vram: array<u8>
    const oam: array<u8>
    var dot: u16
    var windowLine: u8
    var wyCondition: bool
    var frameReady: bool

    ghost predicate Valid()
      reads this
    {
      && framebuffer.Length == 23040 && vram.Length == 0x2000 && oam.Length == 160
      && framebuffer != vram && framebuffer != oam
    }

    ghost function Memory(): Mem
      requires Valid()
      reads this, vram, oam
    {
      Mem(vram[..], oam[..])
    }

    ghost function View(): Scan
      reads this, lcd, lcd.interrupts
    {
      Scan(lcd.View(), dot, windowLine, wyCondition, frameReady)
    }

    /** ppu_init. */
    constructor (lcd: LcdRegs, vram: array<u8>, oam: array<u8>)
      requires vram.Length == 0x2000 && oam.Length == 160
      ensures Valid() && this.lcd == lcd && fresh(framebuffer) && this.vram == vram && this.oam == oam
      ensures dot == 0 && windowLine == 0 && !wyCondition && !frameReady
      ensures forall p :: 0 <= p < 23040 ==> framebuffer[p] == 0
    {
      this.lcd := lcd;
      framebuffer := new u8[23040](_ => 0);
      this.vram, this.oam := vram, oam;
      dot, windowLine, wyCondition, frameReady := 0, 0, false, false;
    }

    /** pixel_fetcher. */
    method PixelFetcher()
      requires Valid() && lcd.ly < VBLANK_START_LINE
      modifies framebuffer, `wyCondition, `windowLine
      ensures View() == old(View()).Fetched(lcd.config)
      ensures framebuffer[..] == old(View().Row(lcd.config, Memory(), framebuffer[..]))
    {
      var ly := lcd.ly;
      if ly == lcd.config.wy {
        wyCondition := true;
      }
      var window := lcd.config.ctrl.windowEnable && wyCondition && lcd.config.wx <= 166;
      var windowDrawn := DrawLine(framebuffer, lcd.config, vram[..], oam[..], ly, window, windowLine);
      if windowDrawn {
        windowLine := (windowLine + 1) % 0x100;
      }
      assert framebuffer[..] == old(View().Row(lcd.config, Memory(), framebuffer[..]));
    }

    method Step(tCycles: nat)
      requires Valid()
      modifies this, lcd, framebuffer
      modifies lcd.interrupts`vblank, lcd.interrupts`vblankRequests, lcd.interrupts`stat, lcd.interrupts`statRequests
      ensures Valid() && View() == old(View().Step(lcd.config, tCycles))
      ensures framebuffer[..] ==
        if lcd.config.ctrl.lcdEnable then old(View().Painted(lcd.config, Memory(), framebuffer[..], tCycles))
        else old(framebuffer[..])
      ensures lcd.config == old(lcd.config) && Memory() == old(Memory()) && lcd.FlagsFollowRequests()
    {
      hide Scan.OneDot, Scan.Paint, Scan.Disabled;
      if !lcd.config.ctrl.lcdEnable {
        Disable();
        return;
      }
      for i := 0 to tCycles
        invariant View() == old(View().Dots(lcd.config, i))
        invariant framebuffer[..] == old(View().Painted(lcd.config, Memory(), framebuffer[..], i))
        invariant lcd.config == old(lcd.config) && Memory() == old(Memory()) && lcd.FlagsFollowRequests()
      {
        StepDot();
      }
    }

    /** ppu_step with the LCD off. */
    method Disable()
      requires Valid()
      modifies this, lcd
      modifies lcd.interrupts`vblank, lcd.interrupts`vblankRequests, lcd.interrupts`stat, lcd.interrupts`statRequests
      ensures Valid() && View() == old(View().Disabled())
      ensures lcd.config == old(lcd.config) && Memory() == old(Memory()) && lcd.FlagsFollowRequests()
    {
      hide LcdState.Level;
      dot := 0;
      windowLine := 0;
      lcd.ly := 0;
      var _ := lcd.SetMode(HBlank);
    }

    /** One iteration of the ppu_step loop. */
    method StepDot()
      requires Valid()
      modifies this, lcd, framebuffer
      modifies lcd.interrupts`vblank, lcd.interrupts`vblankRequests, lcd.interrupts`stat, lcd.interrupts`statRequests
      ensures Valid() && View() == old(View().OneDot(lcd.config))
      ensures framebuffer[..] == old(View().Paint(lcd.config, Memory(), framebuffer[..]))
      ensures lcd.config == old(lcd.config) && Memory() == old(Memory()) && lcd.FlagsFollowRequests()
    {
      dot := (dot + 1) % 0x1_0000;
      MidLine();
      if dot >= DOTS_PER_SCANLINE {
        NextLine();
      }
    }

    method MidLine()
      requires Valid()
      modifies this, lcd, framebuffer
      modifies lcd.interrupts`vblank, lcd.interrupts`vblankRequests, lcd.interrupts`stat, lcd.interrupts`statRequests
      ensures Valid() && View() == old(View().MidLine(lcd.config))
      ensures framebuffer[..] ==
        old(if View().Renders() then View().Row(lcd.config, Memory(), framebuffer[..]) else framebuffer[..])
      ensures lcd.config == old(lcd.config) && Memory() == old(Memory()) && lcd.FlagsFollowRequests()
    {
      if lcd.ly < VBLANK_START_LINE {
        if dot == DRAWING_DOT {
          var _ := lcd.SetMode(Drawing);
        } else if dot == HBLANK_DOT {
          var _ := lcd.SetMode(HBlank);
          PixelFetcher();
        }
      }
    }

    method NextLine()
      requires Valid()
      modifies this, lcd
      modifies lcd.interrupts`vblank, lcd.interrupts`vblankRequests, lcd.interrupts`stat, lcd.interrupts`statRequests
      ensures Valid() && View() == old(View().NextLine())
      ensures lcd.config == old(lcd.config) && Memory() == old(Memory()) && lcd.FlagsFollowRequests()
    {
      hide LcdState.Level;
      dot := 0;
      lcd.ly := (lcd.ly + 1) % 0x100;
      if lcd.ly >= SCANLINES_PER_FRAME {
        lcd.ly := 0;
        windowLine := 0;
      }
      lcd.UpdateStat();
      if lcd.ly == VBLANK_START_LINE {
        var _ := lcd.SetMode(VBlank);
        windowLine := 0;
        wyCondition := false;
        frameReady := true;
      } else if lcd.ly < VBLANK_START_LINE {
        var _ := lcd.SetMode(OamScan);
      }
    }
  }
}
