/**
 The picture of a frame, src/ppu.c:141-198 driven by src/ppu.c:200-249.

 Registers and memory may change before any dot. What a frame shows is stated without the
 window latch, the window line counter, or the order of drawing: every pixel is a function of
 what the registers and memory were at the HBlank of its own line and of the lines above it.
 */
module FrameLaws {
  import opened Bytes
  import opened Lcd
  import opened Background
  import opened Ppu
  import opened PpuLaws

  /** What the PPU finds when it executes one dot. */
  datatype Env = Env(config: Config, mem: Mem, select: Select, lyc: u8)

  function Found(s: Scan, e: Env): Scan {
    s.(lcd := s.lcd.(select := e.select, lyc := e.lyc))
  }

  /** One cycle of ppu_step, whether the LCD is on or off. */
  function Moved(s: Scan, e: Env): Scan {
    Found(s, e).Step(e.config, 1)
  }

  /** The framebuffer after that cycle. */
  ghost function Inked(s: Scan, e: Env, fb: Framebuffer): Framebuffer {
    if e.config.ctrl.lcdEnable then Found(s, e).Painted(e.config, e.mem, fb, 1) else fb
  }

  /** The counters after `n` cycles; cycle `i` runs in `env(i)`. */
  function Trace(s: Scan, env: nat -> Env, n: nat): Scan {
    if n == 0 then s else Moved(Trace(s, env, n - 1), env(n - 1))
  }

  /** The framebuffer after `n` cycles. */
  ghost function Canvas(s: Scan, fb: Framebuffer, env: nat -> Env, n: nat): Framebuffer {
    if n == 0 then fb else Inked(Trace(s, env, n - 1), env(n - 1), Canvas(s, fb, env, n - 1))
  }

  lemma MovedIsDot(s: Scan, e: Env, fb: Framebuffer)
    ensures e.config.ctrl.lcdEnable ==> Moved(s, e) == Found(s, e).OneDot(e.config)
    ensures e.config.ctrl.lcdEnable ==> Inked(s, e, fb) == Found(s, e).Paint(e.config, e.mem, fb)
    ensures !e.config.ctrl.lcdEnable ==> Moved(s, e) == Found(s, e).Disabled() && Inked(s, e, fb) == fb
  {
    hide Scan.OneDot, Scan.Paint, Scan.Disabled;
    var u := Found(s, e);
    assert u.Dots(e.config, 0) == u && u.Painted(e.config, e.mem, fb, 0) == fb;
  }

  /** The LCD stays on for the first `n` cycles. */
  ghost predicate StaysOn(env: nat -> Env, n: nat) {
    forall i: nat :: i < n ==> env(i).config.ctrl.lcdEnable
  }

  // ---------------------------------------------------------------------------
  // Calls of ppu_step are traces
  // ---------------------------------------------------------------------------

  /** The same environment at every dot. */
  function Held(e: Env): nat -> Env {
    (i: nat) => e
  }

  lemma DotKeepsSelect(s: Scan, config: Config)
    ensures s.OneDot(config).lcd.select == s.lcd.select && s.OneDot(config).lcd.lyc == s.lcd.lyc
  {
  }

  /** One call of ppu_step, with the LCD on or off, is that many cycles in one environment. */
  lemma {:induction false} StepIsTrace(s: Scan, fb: Framebuffer, e: Env, n: nat)
    requires n > 0
    ensures Found(s, e).Step(e.config, n) == Trace(s, Held(e), n)
    ensures (if e.config.ctrl.lcdEnable then Found(s, e).Painted(e.config, e.mem, fb, n) else fb)
            == Canvas(s, fb, Held(e), n)
    ensures var t := Trace(s, Held(e), n); Found(t, e) == t
  {
    hide Scan.OneDot, Scan.Paint, Scan.Disabled, Moved, Inked;
    var u, t, canvas := Found(s, e), Trace(s, Held(e), n - 1), Canvas(s, fb, Held(e), n - 1);
    if n > 1 {
      StepIsTrace(s, fb, e, n - 1);
    } else {
      assert u.Dots(e.config, 0) == u && u.Painted(e.config, e.mem, fb, 0) == fb && t == s && canvas == fb;
    }
    MovedIsDot(t, e, canvas);
    DotKeepsSelect(Found(t, e), e.config);
    DisabledTwice(u);
  }

  lemma DisabledTwice(s: Scan)
    ensures s.Disabled().Disabled() == s.Disabled()
    ensures s.Disabled().lcd.select == s.lcd.select && s.Disabled().lcd.lyc == s.lcd.lyc
  {
    hide LcdState.Level;
  }

  function After(env: nat -> Env, k: nat): nat -> Env {
    (i: nat) => env(i + k)
  }

  lemma {:induction false} TraceCompose(s: Scan, fb: Framebuffer, env: nat -> Env, a: nat, b: nat)
    ensures Trace(s, env, a + b) == Trace(Trace(s, env, a), After(env, a), b)
    ensures Canvas(s, fb, env, a + b) == Canvas(Trace(s, env, a), Canvas(s, fb, env, a), After(env, a), b)
  {
    hide Moved, Inked;
    if b > 0 {
      TraceCompose(s, fb, env, a, b - 1);
    }
  }

  // ---------------------------------------------------------------------------
  // The declarative picture; `env` counts dots from the top of the frame
  // ---------------------------------------------------------------------------

  /** The environment at the HBlank of line `y`. */
  function LineEnv(env: nat -> Env, y: nat): Env {
    env(y * DOTS_PER_SCANLINE + HBLANK_DOT - 1)
  }

  /** The latch was set at the top, or WY has matched on one of the first `lines` lines. */
  predicate Latched(top: bool, env: nat -> Env, lines: nat) {
    if lines == 0 then top else Latched(top, env, lines - 1) || LineEnv(env, lines - 1).config.wy == lines - 1
  }

  /** The window is drawn on line `y`. */
  predicate WindowOn(top: bool, env: nat -> Env, y: nat) {
    WindowActive(LineEnv(env, y).config, Latched(top, env, y + 1))
  }

  /** How many of the first `lines` lines drew the window. */
  function WindowLines(top: bool, env: nat -> Env, lines: nat): (n: nat)
    ensures n <= lines
  {
    if lines == 0 then 0 else WindowLines(top, env, lines - 1) + Count(WindowOn(top, env, lines - 1), 1)
  }

  ghost function FramePixel(top: bool, env: nat -> Env, y: nat, x: nat): u8
    requires y < VBLANK_START_LINE && x < 160
  {
    var e := LineEnv(env, y);
    LinePixel(e.config, e.mem.vram, e.mem.oam, y, WindowOn(top, env, y), WindowLines(top, env, y), x)
  }

  // ---------------------------------------------------------------------------
  // The machine draws it
  // ---------------------------------------------------------------------------

  /** The counters `m` dots below the top of a frame that began with the latch at `top`. */
  predicate Underway(s: Scan, top: bool, env: nat -> Env, m: nat)
    requires m < VBLANK_START_LINE * DOTS_PER_SCANLINE
  {
    && OnGrid(s) && Position(s) == m
    && s.wyCondition == Latched(top, env, HBlanksBy(m))
    && s.windowLine == WindowLines(top, env, HBlanksBy(m))
  }

  lemma DotUnderway(s: Scan, top: bool, env: nat -> Env, m: nat)
    requires m + 1 < VBLANK_START_LINE * DOTS_PER_SCANLINE && Underway(s, top, env, m)
    ensures Underway(Found(s, env(m)).OneDot(env(m).config), top, env, m + 1)
  {
    hide HBlanksBy;
    var u := Found(s, env(m));
    DotMoves(u, env(m).config);
    HBlanksNow(s, m);
    if u.Advance().Renders() {
      assert env(m) == LineEnv(env, s.lcd.ly);
      RenderingDot(u, env(m).config);
    } else {
      QuietDot(u, env(m).config);
    }
  }

  /** HBlanks begun `m` dots down, and one dot later. */
  lemma HBlanksNow(s: Scan, m: nat)
    requires OnGrid(s) && Position(s) == m && m + 1 < VBLANK_START_LINE * DOTS_PER_SCANLINE
    ensures s.lcd.ly < VBLANK_START_LINE
    ensures s.Advance().Renders() ==> HBlanksBy(m) == s.lcd.ly && HBlanksBy(m + 1) == s.lcd.ly + 1
    ensures !s.Advance().Renders() ==> HBlanksBy(m + 1) == HBlanksBy(m)
  {
    LineAndDot(s, m);
  }

  lemma RenderingDot(s: Scan, config: Config)
    requires OnGrid(s) && s.Advance().Renders()
    ensures var t := s.OneDot(config);
      && t.wyCondition == s.WyReached(config)
      && t.windowLine == if WindowActive(config, s.WyReached(config)) then (s.windowLine + 1) % 0x100 else s.windowLine
  {
  }

  lemma QuietDot(s: Scan, config: Config)
    requires OnGrid(s) && !s.Advance().Renders() && Position(s) + 1 < VBLANK_START_LINE * DOTS_PER_SCANLINE
    ensures var t := s.OneDot(config); t.wyCondition == s.wyCondition && t.windowLine == s.windowLine
  {
  }

  /** The top of a frame: after VBlank, or where the LCD is switched on. */
  predicate AtTop(s: Scan) {
    s.lcd.ly == 0 && s.dot == 0 && s.windowLine == 0
  }

  lemma {:induction false} CountersUnderway(s: Scan, env: nat -> Env, m: nat)
    requires AtTop(s) && m < VBLANK_START_LINE * DOTS_PER_SCANLINE && StaysOn(env, m)
    ensures Underway(Trace(s, env, m), s.wyCondition, env, m)
  {
    hide Scan.OneDot, Moved;
    if m > 0 {
      CountersUnderway(s, env, m - 1);
      DotUnderway(Trace(s, env, m - 1), s.wyCondition, env, m - 1);
      MovedIsDot(Trace(s, env, m - 1), env(m - 1), seq(23040, _ => 0));
    }
  }

  /** The first `lines` rows show the frame, the others are as before. */
  ghost predicate DrawnTo(fb: Framebuffer, before: Framebuffer, top: bool, env: nat -> Env, lines: nat)
    requires lines <= VBLANK_START_LINE
  {
    forall p :: 0 <= p < 23040 ==> fb[p] == if p / 160 < lines then FramePixel(top, env, p / 160, p % 160) else before[p]
  }

  /** The row drawn at the HBlank of a line is that line of the frame. */
  lemma RowIsFrameLine(s: Scan, fb: Framebuffer, top: bool, env: nat -> Env)
    requires s.lcd.ly < VBLANK_START_LINE
    requires s.wyCondition == Latched(top, env, s.lcd.ly) && s.windowLine == WindowLines(top, env, s.lcd.ly)
    ensures var e := LineEnv(env, s.lcd.ly);
      forall p :: 0 <= p < 23040 ==>
        s.Row(e.config, e.mem, fb)[p] == if p / 160 == s.lcd.ly then FramePixel(top, env, s.lcd.ly, p % 160) else fb[p]
  {
    hide LinePixel;
    assert s.WyReached(LineEnv(env, s.lcd.ly).config) == Latched(top, env, s.lcd.ly + 1);
  }

  lemma DotDraws(s: Scan, fb: Framebuffer, before: Framebuffer, top: bool, env: nat -> Env, m: nat)
    requires m + 1 < VBLANK_START_LINE * DOTS_PER_SCANLINE && Underway(s, top, env, m)
    requires DrawnTo(fb, before, top, env, HBlanksBy(m))
    ensures DrawnTo(Found(s, env(m)).Paint(env(m).config, env(m).mem, fb), before, top, env, HBlanksBy(m + 1))
  {
    hide LinePixel, FramePixel, Latched, WindowLines, HBlanksBy;
    HBlanksNow(s, m);
    if s.Advance().Renders() {
      assert env(m) == LineEnv(env, s.lcd.ly);
      RowIsFrameLine(Found(s, env(m)), fb, top, env);
    }
  }

  lemma {:induction false} LinesAreDrawn(s: Scan, fb: Framebuffer, env: nat -> Env, m: nat)
    requires AtTop(s) && m < VBLANK_START_LINE * DOTS_PER_SCANLINE && StaysOn(env, m)
    ensures DrawnTo(Canvas(s, fb, env, m), fb, s.wyCondition, env, HBlanksBy(m))
  {
    hide Scan.OneDot, Scan.Paint, FramePixel, Inked, Moved;
    if m > 0 {
      LinesAreDrawn(s, fb, env, m - 1);
      CountersUnderway(s, env, m - 1);
      DotDraws(Trace(s, env, m - 1), Canvas(s, fb, env, m - 1), fb, s.wyCondition, env, m - 1);
      MovedIsDot(Trace(s, env, m - 1), env(m - 1), Canvas(s, fb, env, m - 1));
    }
  }

  predicate AtVBlankEntry(s: Scan) {
    s.lcd.ly == VBLANK_START_LINE && s.dot == 0 && s.windowLine == 0 && !s.wyCondition
  }

  lemma DotInVBlank(s: Scan, config: Config)
    requires OnGrid(s) && s.lcd.ly >= VBLANK_START_LINE && s.windowLine == 0 && !s.wyCondition
    ensures var t := s.OneDot(config);
      && OnGrid(t) && Position(t) == Next(Position(s)) && t.windowLine == 0 && !t.wyCondition
      && !s.Advance().Renders()
  {
  }

  lemma {:induction false} VBlankDrawsNothing(s: Scan, fb: Framebuffer, env: nat -> Env, n: nat)
    requires AtVBlankEntry(s) && n <= 4560 && StaysOn(env, n)
    ensures var t := Trace(s, env, n);
      && OnGrid(t) && Position(t) == (65664 + n) % DOTS_PER_FRAME
      && t.windowLine == 0 && !t.wyCondition && Canvas(s, fb, env, n) == fb
  {
    hide Scan.OneDot, Scan.Row, Moved, Inked;
    if n > 0 {
      VBlankDrawsNothing(s, fb, env, n - 1);
      var t := Trace(s, env, n - 1);
      DotInVBlank(Found(t, env(n - 1)), env(n - 1).config);
      MovedIsDot(t, env(n - 1), fb);
    }
  }

  /** The dot that ends line 143 enters VBlank. */
  lemma DotEntersVBlank(s: Scan, config: Config)
    requires OnGrid(s) && Position(s) + 1 == VBLANK_START_LINE * DOTS_PER_SCANLINE
    ensures AtVBlankEntry(s.OneDot(config)) && s.OneDot(config).frameReady && !s.Advance().Renders()
  {
  }

  const VISIBLE_DOTS := 65664

  /**
   A frame from its top, wherever that is: whatever is written to registers and memory on the way, short
   of switching the LCD off, the next VBlank finds every pixel of the frame drawn and the frame ready.
   */
  lemma TopToVBlank(s: Scan, fb: Framebuffer, env: nat -> Env)
    requires AtTop(s) && StaysOn(env, VISIBLE_DOTS)
    ensures AtVBlankEntry(Trace(s, env, VISIBLE_DOTS)) && Trace(s, env, VISIBLE_DOTS).frameReady
    ensures DrawnTo(Canvas(s, fb, env, VISIBLE_DOTS), fb, s.wyCondition, env, VBLANK_START_LINE)
  {
    hide Scan.OneDot, Scan.Row, DrawnTo, Latched, WindowLines, Moved, Inked;
    var last := VISIBLE_DOTS - 1;
    var t := Trace(s, env, last);
    LinesAreDrawn(s, fb, env, last);
    CountersUnderway(s, env, last);
    MovedIsDot(t, env(last), Canvas(s, fb, env, last));
    DotEntersVBlank(Found(t, env(last)), env(last).config);
  }

  /** From one VBlank entry to the next, 70224 dots later, with the LCD on. */
  lemma FrameTheorem(s: Scan, fb: Framebuffer, env: nat -> Env)
    requires AtVBlankEntry(s) && StaysOn(env, DOTS_PER_FRAME)
    ensures AtVBlankEntry(Trace(s, env, DOTS_PER_FRAME)) && Trace(s, env, DOTS_PER_FRAME).frameReady
    ensures DrawnTo(Canvas(s, fb, env, DOTS_PER_FRAME), fb, false, After(env, 4560), VBLANK_START_LINE)
  {
    hide DrawnTo, Moved, Inked, AtVBlankEntry;
    VBlankToTop(s, fb, env);
    TraceCompose(s, fb, env, 4560, VISIBLE_DOTS);
    TopToVBlank(Trace(s, env, 4560), fb, After(env, 4560));
  }

  lemma VBlankToTop(s: Scan, fb: Framebuffer, env: nat -> Env)
    requires AtVBlankEntry(s) && StaysOn(env, 4560)
    ensures AtTop(Trace(s, env, 4560)) && !Trace(s, env, 4560).wyCondition && Canvas(s, fb, env, 4560) == fb
  {
    VBlankDrawsNothing(s, fb, env, 4560);
    hide Trace, Canvas;
  }

  /**
   The frame after the LCD is switched on again: it starts at the top at once, and inherits the window
   latch from before, since switching off clears the window line but not the latch.
   */
  lemma ReenabledFrame(s: Scan, fb: Framebuffer, env: nat -> Env)
    requires !env(0).config.ctrl.lcdEnable && StaysOn(After(env, 1), VISIBLE_DOTS)
    ensures AtVBlankEntry(Trace(s, env, 1 + VISIBLE_DOTS)) && Trace(s, env, 1 + VISIBLE_DOTS).frameReady
    ensures DrawnTo(Canvas(s, fb, env, 1 + VISIBLE_DOTS), fb, s.wyCondition, After(env, 1), VBLANK_START_LINE)
  {
    hide DrawnTo, Moved, Inked, AtVBlankEntry;
    MovedIsDot(s, env(0), fb);
    assert Trace(s, env, 0) == s && Canvas(s, fb, env, 0) == fb;
    TraceCompose(s, fb, env, 1, VISIBLE_DOTS);
    TopToVBlank(Trace(s, env, 1), fb, After(env, 1));
  }

  // ---------------------------------------------------------------------------
  // Every run, with the LCD switched on and off at will
  // ---------------------------------------------------------------------------

  /** Cycle `i` renders a line. */
  predicate RendersAt(s: Scan, env: nat -> Env, i: nat) {
    env(i).config.ctrl.lcdEnable && Found(Trace(s, env, i), env(i)).Advance().Renders()
  }

  /** Cycle `i` arrives at VBlank. */
  predicate EntersVBlankAt(s: Scan, env: nat -> Env, i: nat) {
    var t := Trace(s, env, i);
    env(i).config.ctrl.lcdEnable && t.lcd.ly == VBLANK_START_LINE - 1 && t.dot == DOTS_PER_SCANLINE - 1
  }

  /** Cycle `i` resets the window line: the LCD is off, VBlank begins, or the frame starts over. */
  predicate ResetsWindowAt(s: Scan, env: nat -> Env, i: nat) {
    var t := Trace(s, env, i);
    || !env(i).config.ctrl.lcdEnable || EntersVBlankAt(s, env, i)
    || (t.lcd.ly == SCANLINES_PER_FRAME - 1 && t.dot == DOTS_PER_SCANLINE - 1)
  }

  /** Cycle `i` renders the line that WY names. */
  predicate MatchesAt(s: Scan, env: nat -> Env, i: nat) {
    RendersAt(s, env, i) && env(i).config.wy == Trace(s, env, i).lcd.ly
  }

  /** The last VBlank entry before cycle `n` was just before cycle `v`, or the run began then with the latch clear. */
  predicate SinceVBlank(s: Scan, env: nat -> Env, v: nat, n: nat) {
    && v <= n && (if v == 0 then !s.wyCondition else EntersVBlankAt(s, env, v - 1))
    && forall i :: v <= i < n ==> !EntersVBlankAt(s, env, i)
  }

  /** Likewise the last reset of the window line, just before cycle `r`. */
  predicate SinceReset(s: Scan, env: nat -> Env, r: nat, n: nat) {
    && r <= n && (if r == 0 then s.windowLine == 0 else ResetsWindowAt(s, env, r - 1))
    && forall i :: r <= i < n ==> !ResetsWindowAt(s, env, i)
  }

  /** WY has been matched by a line rendered in cycles `v` to `n`. */
  predicate MatchedIn(s: Scan, env: nat -> Env, v: nat, n: nat) {
    exists i :: v <= i < n && MatchesAt(s, env, i)
  }

  /** Lines with the window on them rendered in cycles `r` to `n`, with the latch as each one leaves it. */
  function WindowLinesIn(s: Scan, env: nat -> Env, r: nat, n: nat): nat
    decreases n
  {
    if n <= r then 0
    else
      WindowLinesIn(s, env, r, n - 1)
      + Count(RendersAt(s, env, n - 1) && WindowActive(env(n - 1).config, Trace(s, env, n).wyCondition), 1)
  }

  lemma MidLineCounters(s: Scan, config: Config)
    ensures var t := s.MidLine(config);
      && t.lcd.ly == s.lcd.ly && t.dot == s.dot
      && t.wyCondition == (s.wyCondition || (s.Renders() && config.wy == s.lcd.ly))
      && t.windowLine == (s.windowLine + Count(s.Renders() && WindowActive(config, t.wyCondition), 1)) % 0x100
  {
    hide LcdState.Level, WindowActive;
  }

  lemma NextLineCounters(s: Scan)
    requires s.lcd.ly < SCANLINES_PER_FRAME
    ensures var t := s.NextLine();
      && t.wyCondition == (s.lcd.ly != VBLANK_START_LINE - 1 && s.wyCondition)
      && t.windowLine ==
           if s.lcd.ly == VBLANK_START_LINE - 1 || s.lcd.ly == SCANLINES_PER_FRAME - 1 then 0 else s.windowLine
  {
    hide LcdState.Level;
  }

  /** What one cycle does to the latch and the window line. */
  lemma CycleMoves(s: Scan, e: Env)
    requires OnGrid(s)
    ensures var t, on := Moved(s, e), e.config.ctrl.lcdEnable;
      var renders := on && Found(s, e).Advance().Renders();
      var lineEnds := on && s.dot == DOTS_PER_SCANLINE - 1;
      && OnGrid(t)
      && t.wyCondition == (!(lineEnds && s.lcd.ly == VBLANK_START_LINE - 1)
                           && (s.wyCondition || (renders && e.config.wy == s.lcd.ly)))
      && (if !on || (lineEnds && (s.lcd.ly == VBLANK_START_LINE - 1 || s.lcd.ly == SCANLINES_PER_FRAME - 1))
          then t.windowLine == 0
          else t.windowLine == (s.windowLine + Count(renders && WindowActive(e.config, t.wyCondition), 1)) % 0x100)
      && (WindowBounded(s) ==> WindowBounded(t))
  {
    hide LcdState.Enter, Moved, Inked, WindowActive, Scan.MidLine, Scan.NextLine;
    MovedIsDot(s, e, seq(23040, _ => 0));
    if e.config.ctrl.lcdEnable {
      var u := Found(s, e);
      DotMoves(u, e.config);
      MidLineCounters(u.Advance(), e.config);
      NextLineCounters(u.Advance().MidLine(e.config));
      if WindowBounded(s) {
        DotWindow(u, e.config);
      }
    } else {
      DisabledKeepsLatch(Found(s, e));
    }
  }

  lemma DisabledKeepsLatch(s: Scan)
    ensures var t := s.Disabled(); AtTop(t) && t.wyCondition == s.wyCondition
  {
    hide LcdState.Level;
  }

  lemma {:induction false} RunStaysOnGrid(s: Scan, env: nat -> Env, n: nat)
    requires OnGrid(s)
    ensures OnGrid(Trace(s, env, n))
  {
    hide Moved;
    if n > 0 {
      RunStaysOnGrid(s, env, n - 1);
      CycleMoves(Trace(s, env, n - 1), env(n - 1));
    }
  }

  /** Every cycle has such a `v`, when the run begins with the latch clear, as ppu_init leaves it. */
  lemma {:induction false} LastVBlank(s: Scan, env: nat -> Env, n: nat) returns (v: nat)
    requires !s.wyCondition
    ensures SinceVBlank(s, env, v, n)
  {
    hide EntersVBlankAt;
    if n == 0 || EntersVBlankAt(s, env, n - 1) {
      v := n;
    } else {
      v := LastVBlank(s, env, n - 1);
    }
  }

  /** And such an `r`. */
  lemma {:induction false} LastReset(s: Scan, env: nat -> Env, n: nat) returns (r: nat)
    requires s.windowLine == 0
    ensures SinceReset(s, env, r, n)
  {
    hide ResetsWindowAt;
    if n == 0 || ResetsWindowAt(s, env, n - 1) {
      r := n;
    } else {
      r := LastReset(s, env, n - 1);
    }
  }

  /** In every run the latch is set exactly when a line rendered since the last VBlank entry matched WY. */
  lemma {:induction false} LatchLaw(s: Scan, env: nat -> Env, v: nat, n: nat)
    requires OnGrid(s) && SinceVBlank(s, env, v, n)
    ensures Trace(s, env, n).wyCondition <==> MatchedIn(s, env, v, n)
    decreases n - v
  {
    hide Moved;
    if n > 0 {
      RunStaysOnGrid(s, env, n - 1);
      CycleMoves(Trace(s, env, n - 1), env(n - 1));
    }
    if v < n {
      LatchLaw(s, env, v, n - 1);
      assert !EntersVBlankAt(s, env, n - 1);
      assert MatchedIn(s, env, v, n) <==> MatchedIn(s, env, v, n - 1) || MatchesAt(s, env, n - 1);
    }
  }

  /** In every run the window line is the number of window lines rendered since its last reset. */
  lemma {:induction false} WindowLineLaw(s: Scan, env: nat -> Env, r: nat, n: nat)
    requires OnGrid(s) && SinceReset(s, env, r, n)
    ensures WindowBounded(Trace(s, env, n)) && Trace(s, env, n).windowLine == WindowLinesIn(s, env, r, n)
    decreases n - r
  {
    hide Moved;
    if n > 0 {
      RunStaysOnGrid(s, env, n - 1);
      CycleMoves(Trace(s, env, n - 1), env(n - 1));
    }
    if r < n {
      WindowLineLaw(s, env, r, n - 1);
      assert !ResetsWindowAt(s, env, n - 1);
    }
  }

  /**
   The run theorem. In any run, with the LCD switched on and off and anything written at any cycle, a cycle
   that renders line LY draws its row with the registers it finds: the window on if WY has been matched by a
   line rendered since the last VBlank entry, this one included, and the window row the number of window
   lines rendered since the last reset. Every other row, and the whole picture in every other cycle, stays.
   */
  lemma RunTheorem(s: Scan, fb: Framebuffer, env: nat -> Env, n: nat, v: nat, r: nat)
    requires OnGrid(s) && SinceVBlank(s, env, v, n) && SinceReset(s, env, r, n)
    ensures WindowLinesIn(s, env, r, n) <= VBLANK_START_LINE
    ensures var e, ly := env(n), Trace(s, env, n).lcd.ly;
      var before, drawn := Canvas(s, fb, env, n), Canvas(s, fb, env, n + 1);
      if !RendersAt(s, env, n) then drawn == before
      else
        forall p :: 0 <= p < 23040 ==>
          drawn[p] == if p / 160 != ly then before[p]
                      else LinePixel(e.config, e.mem.vram, e.mem.oam, ly,
                                     WindowActive(e.config, MatchedIn(s, env, v, n + 1)),
                                     WindowLinesIn(s, env, r, n), p % 160)
  {
    hide Moved, Inked, LinePixel, WindowActive, WindowLinesIn;
    var t, e := Trace(s, env, n), env(n);
    LatchLaw(s, env, v, n);
    WindowLineLaw(s, env, r, n);
    MovedIsDot(t, e, Canvas(s, fb, env, n));
    if RendersAt(s, env, n) {
      assert MatchedIn(s, env, v, n + 1) <==> MatchedIn(s, env, v, n) || MatchesAt(s, env, n);
      assert Found(t, e).WyReached(e.config) == MatchedIn(s, env, v, n + 1);
    }
  }

  // ---------------------------------------------------------------------------
  // Registers held for a frame
  // ---------------------------------------------------------------------------

  /** One pixel of a frame with the registers held: the window row is just y - WY. */
  ghost function Picture(config: Config, mem: Mem, y: nat, x: nat): u8
    requires y < VBLANK_START_LINE && x < 160
  {
    var window := WindowActive(config, config.wy <= y);
    LinePixel(config, mem.vram, mem.oam, y, window, if window then y - config.wy else 0, x)
  }

  lemma {:induction false} HeldCounters(env: nat -> Env, config: Config, lines: nat)
    requires forall i :: env(i).config == config
    ensures Latched(false, env, lines) == (config.wy < lines)
    ensures WindowLines(false, env, lines) == if WindowActive(config, config.wy < lines) then lines - config.wy else 0
  {
    if lines > 0 {
      HeldCounters(env, config, lines - 1);
    }
  }

  /** Held registers and memory draw the picture, frame after frame. */
  lemma HeldFrameIsPicture(env: nat -> Env, config: Config, mem: Mem, y: nat, x: nat)
    requires y < VBLANK_START_LINE && x < 160
    requires forall i :: env(i).config == config && env(i).mem == mem
    ensures FramePixel(false, env, y, x) == Picture(config, mem, y, x)
  {
    hide LinePixel;
    HeldCounters(env, config, y);
    HeldCounters(env, config, y + 1);
  }

  lemma {:induction false} EveryFrameIsPicture(s: Scan, fb: Framebuffer, e: Env, frames: nat)
    requires AtVBlankEntry(s) && e.config.ctrl.lcdEnable
    ensures AtVBlankEntry(Trace(s, Held(e), frames * DOTS_PER_FRAME))
    ensures frames > 0 ==>
      forall y, x :: 0 <= y < 144 && 0 <= x < 160 ==>
        Canvas(s, fb, Held(e), frames * DOTS_PER_FRAME)[y * 160 + x] == Picture(e.config, e.mem, y, x)
  {
    hide Moved, Inked, AtVBlankEntry, Picture, FramePixel;
    if frames > 0 {
      var before := (frames - 1) * DOTS_PER_FRAME;
      EveryFrameIsPicture(s, fb, e, frames - 1);
      TraceCompose(s, fb, Held(e), before, DOTS_PER_FRAME);
      var t, canvas, env := Trace(s, Held(e), before), Canvas(s, fb, Held(e), before), After(Held(e), before);
      FrameTheorem(t, canvas, env);
      forall y, x | 0 <= y < 144 && 0 <= x < 160
        ensures Canvas(s, fb, Held(e), frames * DOTS_PER_FRAME)[y * 160 + x] == Picture(e.config, e.mem, y, x)
      {
        var p := y * 160 + x;
        assert p / 160 == y && p % 160 == x;
        HeldFrameIsPicture(After(env, 4560), e.config, e.mem, y, x);
      }
    }
  }
}
