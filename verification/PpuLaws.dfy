/**
 What the dot machine of src/ppu.c:200-249 keeps over whole runs: position, modes,
 VBlank, the LCD interrupt, and the bound on the window line counter.
 */
module PpuLaws {
  import opened Bytes
  import opened Lcd
  import opened Background
  import opened Ppu
  import DivMod

  predicate OnGrid(s: Scan) {
    s.lcd.ly < SCANLINES_PER_FRAME && s.dot < DOTS_PER_SCANLINE
  }

  function Position(s: Scan): nat {
    DOTS_PER_SCANLINE * s.lcd.ly + s.dot
  }

  /** The position one dot later. */
  function Next(pos: nat): nat {
    if pos + 1 == DOTS_PER_FRAME then 0 else pos + 1
  }

  /** Which mode a dot belongs to. */
  function ModeAt(ly: nat, dot: nat): Mode {
    if ly >= VBLANK_START_LINE then VBlank
    else if dot < DRAWING_DOT then OamScan
    else if dot < HBLANK_DOT then Drawing
    else HBlank
  }

  predicate Settled(s: Scan) {
    OnGrid(s) && s.lcd.mode == ModeAt(s.lcd.ly, s.dot)
  }

  // ---------------------------------------------------------------------------
  // One dot
  // ---------------------------------------------------------------------------

  /** Splitting a position, and the next one, into line and dot. */
  lemma LineAndDot(s: Scan, m: nat)
    requires OnGrid(s) && Position(s) == m
    ensures m / DOTS_PER_SCANLINE == s.lcd.ly && m % DOTS_PER_SCANLINE == s.dot
    ensures s.dot + 1 < DOTS_PER_SCANLINE ==>
      (m + 1) / DOTS_PER_SCANLINE == s.lcd.ly && (m + 1) % DOTS_PER_SCANLINE == s.dot + 1
    ensures s.dot + 1 == DOTS_PER_SCANLINE ==>
      (m + 1) / DOTS_PER_SCANLINE == s.lcd.ly + 1 && (m + 1) % DOTS_PER_SCANLINE == 0
  {
  }

  lemma DotMoves(s: Scan, config: Config)
    requires OnGrid(s)
    ensures OnGrid(s.OneDot(config))
    ensures Position(s.OneDot(config)) == Next(Position(s))
  {
  }

  lemma DotSettles(s: Scan, config: Config)
    requires OnGrid(s) && (Settled(s) || DotsToSettle(s) == 1)
    ensures Settled(s.OneDot(config))
  {
  }

  lemma DotVBlank(s: Scan, config: Config)
    requires Settled(s)
    ensures var t := s.OneDot(config);
      var arrived := Next(Position(s)) == VBLANK_START_LINE * DOTS_PER_SCANLINE;
      && t.lcd.vblankRequests == s.lcd.vblankRequests + Count(arrived, 1)
      && t.frameReady == (s.frameReady || arrived)
  {
  }

  lemma DotLyc(s: Scan, config: Config)
    requires OnGrid(s) && s.lcd.Fresh() && s.lcd.select == Select(false, false, false, true)
    ensures var t := s.OneDot(config);
      && t.lcd.Fresh() && t.lcd.select == s.lcd.select && t.lcd.lyc == s.lcd.lyc
      && t.lcd.statRequests == s.lcd.statRequests +
         Count(Next(Position(s)) == s.lcd.lyc * DOTS_PER_SCANLINE, 1)
  {
    hide Scan.MidLine, Scan.NextLine, LcdState.Fresh;
    var u := s.Advance().MidLine(config);
    MidLineLyc(s.Advance(), config);
    NextLineLyc(u);
  }

  lemma NextLineLyc(s: Scan)
    requires s.lcd.Fresh() && s.lcd.select == Select(false, false, false, true) && s.lcd.ly < SCANLINES_PER_FRAME
    ensures var t := s.NextLine();
      && t.lcd.Fresh() && t.lcd.select == s.lcd.select && t.lcd.lyc == s.lcd.lyc
      && t.lcd.statRequests == s.lcd.statRequests
         + Count((if s.lcd.ly == SCANLINES_PER_FRAME - 1 then 0 else s.lcd.ly + 1) == s.lcd.lyc, 1)
  {
    NewLineLyc(s.lcd);
    hide LcdState.Level;
  }

  /** A new line samples the comparison once; entering a mode then repeats the sample. */
  lemma NewLineLyc(l: LcdState)
    requires l.Fresh() && l.select == Select(false, false, false, true) && l.ly < SCANLINES_PER_FRAME
    ensures var ly' := if l.ly == SCANLINES_PER_FRAME - 1 then 0 else l.ly + 1;
      forall m :: var t := l.(ly := ly').Sample().Enter(m); 
        && t.Fresh() && t == l.(ly := ly').Sample().(mode := m, vblankRequests := t.vblankRequests)
        && t.statRequests == l.statRequests + Count(ly' == l.lyc, 1)
  {
  }

  lemma MidLineLyc(s: Scan, config: Config)
    requires s.lcd.Fresh() && s.lcd.select == Select(false, false, false, true)
    ensures var t := s.MidLine(config);
      t.dot == s.dot && t.lcd.Fresh() && t.lcd == s.lcd.(mode := t.lcd.mode, vblankRequests := t.lcd.vblankRequests)
  {
  }

  lemma DotStat(s: Scan, config: Config, m: nat)
    requires Settled(s) && s.lcd.Fresh() && Position(s) == m < DOTS_PER_FRAME
    ensures var t := s.OneDot(config);
      && t.lcd.Fresh() && t.lcd.select == s.lcd.select && t.lcd.lyc == s.lcd.lyc
      && t.lcd.statRequests + RequestsBy(s.lcd.select, s.lcd.lyc, m)
         == s.lcd.statRequests + RequestsBy(s.lcd.select, s.lcd.lyc, m + 1)
  {
    hide RequestsBy;
    if s.dot + 1 < DOTS_PER_SCANLINE {
      MidLineStat(s, config, m);
    } else {
      NewLineStat(s.Advance(), m);
    }
  }

  lemma MidLineStat(s: Scan, config: Config, m: nat)
    requires Settled(s) && s.lcd.Fresh() && Position(s) == m && s.dot + 1 < DOTS_PER_SCANLINE
    ensures var t := s.Advance().MidLine(config);
      && t.dot < DOTS_PER_SCANLINE && t.lcd.Fresh() && t.lcd.select == s.lcd.select && t.lcd.lyc == s.lcd.lyc
      && t.lcd.statRequests + RequestsBy(s.lcd.select, s.lcd.lyc, m)
         == s.lcd.statRequests + RequestsBy(s.lcd.select, s.lcd.lyc, m + 1)
  {
    hide HBlanksBy, OamScansBy, HBlankBegun, OamScanBegun, LineBegun;
    MidLineCounts(s, m);
    MidLineBegun(s, s.lcd.lyc, m);
  }

  /** Within a line only the HBlank dot of a visible line moves a count. */
  lemma MidLineCounts(s: Scan, m: nat)
    requires OnGrid(s) && Position(s) == m && s.dot + 1 < DOTS_PER_SCANLINE
    ensures HBlanksBy(m + 1) == HBlanksBy(m) + Count(s.lcd.ly < VBLANK_START_LINE && s.dot + 1 == HBLANK_DOT, 1)
    ensures OamScansBy(m + 1) == OamScansBy(m)
  {
    LineAndDot(s, m);
  }

  lemma MidLineBegun(s: Scan, lyc: nat, m: nat)
    requires OnGrid(s) && Position(s) == m && s.dot + 1 < DOTS_PER_SCANLINE
    ensures Count(HBlankBegun(lyc, m + 1), 1) ==
      Count(HBlankBegun(lyc, m), 1) + Count(s.lcd.ly == lyc < VBLANK_START_LINE && s.dot + 1 == HBLANK_DOT, 1)
    ensures OamScanBegun(lyc, m + 1) == OamScanBegun(lyc, m) && LineBegun(lyc, m + 1) == LineBegun(lyc, m)
  {
  }

  lemma NewLineStat(s: Scan, m: nat)
    requires s.lcd.ly < SCANLINES_PER_FRAME && s.dot == DOTS_PER_SCANLINE && m + 1 == (s.lcd.ly + 1) * DOTS_PER_SCANLINE
    requires s.lcd.Fresh() && s.lcd.mode == ModeAt(s.lcd.ly, DOTS_PER_SCANLINE - 1)
    ensures var t := s.NextLine();
      && t.lcd.Fresh() && t.lcd.select == s.lcd.select && t.lcd.lyc == s.lcd.lyc
      && t.lcd.statRequests + RequestsBy(s.lcd.select, s.lcd.lyc, m)
         == s.lcd.statRequests + RequestsBy(s.lcd.select, s.lcd.lyc, m + 1)
  {
    NewLineRises(s);
    RequestsAtNewLine(s.lcd.select, s.lcd.ly, s.lcd.lyc, m);
    hide Scan.NextLine, RequestsBy, LineRises;
  }

  /** Requests on arrival at a line: LYC's own, or else that of the mode it begins with. */
  function LineRises(select: Select, lyc: nat, ly: nat): nat {
    if select.lyc && lyc == ly then Count(LowBefore(select, ly), 1)
    else if ly == 0 then Count(select.mode2 && !select.mode1, 1)
    else if ly < VBLANK_START_LINE then Count(select.mode2 && !select.mode0, 1)
    else if ly == VBLANK_START_LINE then Count(select.mode1 && !select.mode0, 1)
    else 0
  }

  lemma NewLineRises(s: Scan)
    requires s.lcd.ly < SCANLINES_PER_FRAME && s.lcd.Fresh() && s.lcd.mode == ModeAt(s.lcd.ly, DOTS_PER_SCANLINE - 1)
    ensures var t := s.NextLine();
      && t.lcd.Fresh() && t.lcd.select == s.lcd.select && t.lcd.lyc == s.lcd.lyc
      && t.lcd.statRequests == s.lcd.statRequests
         + LineRises(s.lcd.select, s.lcd.lyc, if s.lcd.ly + 1 == SCANLINES_PER_FRAME then 0 else s.lcd.ly + 1)
  {
  }

  lemma RequestsAtNewLine(select: Select, ly: nat, lyc: nat, m: nat)
    requires ly < SCANLINES_PER_FRAME && m + 1 == (ly + 1) * DOTS_PER_SCANLINE
    ensures RequestsBy(select, lyc, m + 1) == RequestsBy(select, lyc, m)
            + LineRises(select, lyc, if ly + 1 == SCANLINES_PER_FRAME then 0 else ly + 1)
  {
    hide HBlanksBy, OamScansBy, HBlankBegun, OamScanBegun, LineBegun;
    NewLineCounts(ly, m);
    NewLineBegun(ly, lyc, m);
  }

  /** The end of a line begins the OAM scan of the next visible one. */
  lemma NewLineCounts(ly: nat, m: nat)
    requires ly < SCANLINES_PER_FRAME && m + 1 == (ly + 1) * DOTS_PER_SCANLINE
    ensures HBlanksBy(m + 1) == HBlanksBy(m)
    ensures OamScansBy(m + 1) == OamScansBy(m) + Count(ly + 1 < VBLANK_START_LINE, 1)
  {
    assert m / DOTS_PER_SCANLINE == ly && m % DOTS_PER_SCANLINE == DOTS_PER_SCANLINE - 1;
    assert (m + 1) / DOTS_PER_SCANLINE == ly + 1 && (m + 1) % DOTS_PER_SCANLINE == 0;
  }

  lemma NewLineBegun(ly: nat, lyc: nat, m: nat)
    requires ly < SCANLINES_PER_FRAME && m + 1 == (ly + 1) * DOTS_PER_SCANLINE
    ensures HBlankBegun(lyc, m + 1) == HBlankBegun(lyc, m)
    ensures Count(OamScanBegun(lyc, m + 1), 1) ==
      Count(OamScanBegun(lyc, m), 1) + Count(ly + 1 == lyc < VBLANK_START_LINE, 1)
    ensures Count(LineBegun(lyc, m + 1), 1) ==
      Count(LineBegun(lyc, m), 1) + Count(lyc == if ly + 1 == SCANLINES_PER_FRAME then 0 else ly + 1, 1)
  {
  }

  lemma DotWindow(s: Scan, config: Config)
    requires WindowBounded(s)
    ensures WindowBounded(s.OneDot(config))
  {
  }

  lemma ArrivalsStep(pos: nat, n: nat, target: nat)
    requires target < DOTS_PER_FRAME
    ensures Arrivals(pos, 0, target) == 0 && Arrivals(pos, n, target) >= 0
    ensures Arrivals(pos, n + 1, target) ==
      Arrivals(pos, n, target) + Count(Next((pos + n) % DOTS_PER_FRAME) == target, 1)
  {
  }

  // ---------------------------------------------------------------------------
  // Position and batching
  // ---------------------------------------------------------------------------

  lemma {:induction false} DotsCompose(s: Scan, config: Config, a: nat, b: nat)
    ensures s.Dots(config, a + b) == s.Dots(config, a).Dots(config, b)
  {
    hide Scan.OneDot;
    if b > 0 {
      DotsCompose(s, config, a, b - 1);
    }
  }

  lemma NextIsModular(pos: nat)
    ensures Next(pos % DOTS_PER_FRAME) == (pos + 1) % DOTS_PER_FRAME
  {
    DivMod.Succ(pos, DOTS_PER_FRAME);
  }

  lemma {:induction false} DotsPosition(s: Scan, config: Config, n: nat)
    requires OnGrid(s)
    ensures OnGrid(s.Dots(config, n))
    ensures Position(s.Dots(config, n)) == (Position(s) + n) % DOTS_PER_FRAME
  {
    hide Scan.OneDot;
    if n > 0 {
      DotsPosition(s, config, n - 1);
      DotMoves(s.Dots(config, n - 1), config);
      NextIsModular(Position(s) + n - 1);
      hide OnGrid, Position, Next;
    }
  }

  // ---------------------------------------------------------------------------
  // Modes
  // ---------------------------------------------------------------------------

  lemma {:induction false} SettledStays(s: Scan, config: Config, n: nat)
    requires Settled(s)
    ensures Settled(s.Dots(config, n))
  {
    hide Scan.OneDot;
    if n > 0 {
      SettledStays(s, config, n - 1);
      DotSettles(s.Dots(config, n - 1), config);
    }
  }

  /** Dots until the next mode change, from any position. */
  function DotsToSettle(s: Scan): (n: nat)
    requires OnGrid(s)
    ensures 0 < n <= 4560
  {
    if s.lcd.ly >= VBLANK_START_LINE then (SCANLINES_PER_FRAME - s.lcd.ly) * DOTS_PER_SCANLINE - s.dot
    else if s.dot < DRAWING_DOT then DRAWING_DOT - s.dot
    else if s.dot < HBLANK_DOT then HBLANK_DOT - s.dot
    else DOTS_PER_SCANLINE - s.dot
  }

  /** Whatever mode the registers hold, the mode is right from the next mode change on, for ever. */
  lemma ModeLaw(s: Scan, config: Config, n: nat)
    requires OnGrid(s) && (Settled(s) || n >= DotsToSettle(s))
    ensures var t := s.Dots(config, n);
      t.lcd.mode == ModeAt(t.lcd.ly, t.dot) && Position(t) == (Position(s) + n) % DOTS_PER_FRAME
  {
    hide Scan.OneDot, DotsToSettle;
    DotsPosition(s, config, n);
    if Settled(s) {
      SettledStays(s, config, n);
    } else {
      var k := DotsToSettle(s);
      DotsPosition(s, config, k - 1);
      OneDotShort(s, s.Dots(config, k - 1));
      DotSettles(s.Dots(config, k - 1), config);
      DotsCompose(s, config, k, n - k);
      SettledStays(s.Dots(config, k), config, n - k);
    }
  }

  lemma OneDotShort(s: Scan, t: Scan)
    requires OnGrid(s) && OnGrid(t) && Position(t) == (Position(s) + DotsToSettle(s) - 1) % DOTS_PER_FRAME
    ensures DotsToSettle(t) == 1
  {
    assert Position(s) + DotsToSettle(s) <= DOTS_PER_FRAME;
  }

  /**
   The same in numbers: 154 lines of 456 dots, 144 of them with 80 dots of OAM scan, 172 of drawing and 204 of
   HBlank, and ten lines of VBlank.
   */
  lemma ModeInNumbers(s: Scan, config: Config, n: nat)
    requires s.lcd.ly < 154 && s.dot < 456 && n >= 4560
    ensures var t, p := s.Dots(config, n), (456 * s.lcd.ly + s.dot + n) % 70224;
      && t.lcd.ly == p / 456 && t.dot == p % 456
      && t.lcd.mode == if p >= 65664 then VBlank
                       else if p % 456 < 80 then OamScan else if p % 456 < 252 then Drawing else HBlank
  {
    ModeLaw(s, config, n);
    DotsPosition(s, config, n);
    LineAndDot(s.Dots(config, n), (456 * s.lcd.ly + s.dot + n) % 70224);
    hide Scan.Dots;
  }

  /** A line is rendered on its 253rd dot, dot 252, and only lines 0 to 143 are. */
  lemma RenderInNumbers(s: Scan)
    requires s.dot < 456
    ensures s.Advance().Renders() <==> s.lcd.ly <= 143 && s.dot == 251
  {
  }

  // ---------------------------------------------------------------------------
  // VBlank: once per frame, at line 144
  // ---------------------------------------------------------------------------

  /** How often a run of `n` dots from `pos` arrives at the position `target`. */
  function Arrivals(pos: nat, n: nat, target: nat): int {
    (pos + n + DOTS_PER_FRAME - target) / DOTS_PER_FRAME - (pos + DOTS_PER_FRAME - target) / DOTS_PER_FRAME
  }

  lemma {:induction false} VBlankOncePerFrame(s: Scan, config: Config, n: nat)
    requires Settled(s)
    ensures var t := s.Dots(config, n);
      var k := Arrivals(Position(s), n, VBLANK_START_LINE * DOTS_PER_SCANLINE);
      t.lcd.vblankRequests == s.lcd.vblankRequests + k && t.frameReady == (s.frameReady || k > 0)
  {
    hide Scan.OneDot, Arrivals;
    ArrivalsStep(Position(s), 0, VBLANK_START_LINE * DOTS_PER_SCANLINE);
    if n > 0 {
      VBlankOncePerFrame(s, config, n - 1);
      SettledStays(s, config, n - 1);
      DotsPosition(s, config, n - 1);
      DotVBlank(s.Dots(config, n - 1), config);
      ArrivalsStep(Position(s), n - 1, VBLANK_START_LINE * DOTS_PER_SCANLINE);
    }
  }

  /** Every 70224 dots bring exactly one VBlank interrupt and one finished frame. */
  lemma VBlankInNumbers(s: Scan, config: Config)
    requires Settled(s)
    ensures var t := s.Dots(config, 70224); t.lcd.vblankRequests == s.lcd.vblankRequests + 1 && t.frameReady
  {
    VBlankOncePerFrame(s, config, 70224);
    DivMod.Shift(Position(s) + DOTS_PER_FRAME - VBLANK_START_LINE * DOTS_PER_SCANLINE, DOTS_PER_FRAME, 1);
    hide Scan.Dots;
  }

  // ---------------------------------------------------------------------------
  // The LCD interrupt over a frame
  // ---------------------------------------------------------------------------

  /** With only the coincidence source selected, one request each time LY arrives at LYC. */
  lemma {:induction false} LycOncePerFrame(s: Scan, config: Config, n: nat)
    requires OnGrid(s) && s.lcd.Fresh() && s.lcd.select == Select(false, false, false, true)
    ensures var t := s.Dots(config, n);
      && t.lcd.Fresh() && t.lcd.select == s.lcd.select && t.lcd.lyc == s.lcd.lyc
      && t.lcd.statRequests == s.lcd.statRequests +
         if s.lcd.lyc < SCANLINES_PER_FRAME then Arrivals(Position(s), n, s.lcd.lyc * DOTS_PER_SCANLINE) else 0
  {
    hide Scan.OneDot, Arrivals;
    if s.lcd.lyc < SCANLINES_PER_FRAME {
      ArrivalsStep(Position(s), 0, s.lcd.lyc * DOTS_PER_SCANLINE);
    }
    if n > 0 {
      LycOncePerFrame(s, config, n - 1);
      DotsPosition(s, config, n - 1);
      DotLyc(s.Dots(config, n - 1), config);
      if s.lcd.lyc < SCANLINES_PER_FRAME {
        ArrivalsStep(Position(s), n - 1, s.lcd.lyc * DOTS_PER_SCANLINE);
      }
    }
  }

  function Count(b: bool, n: nat): nat { if b then n else 0 }

  /** Lines of the frame whose HBlank has begun `m` dots after the top of the frame. */
  function HBlanksBy(m: nat): nat {
    if m >= VBLANK_START_LINE * DOTS_PER_SCANLINE then VBLANK_START_LINE
    else m / DOTS_PER_SCANLINE + if m % DOTS_PER_SCANLINE >= HBLANK_DOT then 1 else 0
  }

  /** Lines 1..143 whose OAM scan has begun. */
  function OamScansBy(m: nat): nat {
    if m >= VBLANK_START_LINE * DOTS_PER_SCANLINE then VBLANK_START_LINE - 1 else m / DOTS_PER_SCANLINE
  }

  /** The HBlank of the coincidence line has begun. */
  predicate HBlankBegun(lyc: nat, m: nat) {
    lyc < VBLANK_START_LINE && m >= lyc * DOTS_PER_SCANLINE + HBLANK_DOT
  }

  /** Its OAM scan has, if it is one of lines 1..143. */
  predicate OamScanBegun(lyc: nat, m: nat) {
    0 < lyc < VBLANK_START_LINE && m >= lyc * DOTS_PER_SCANLINE
  }

  /** The line itself has; line 0 begins again at the end of the frame. */
  predicate LineBegun(lyc: nat, m: nat) {
    if lyc == 0 then m >= DOTS_PER_FRAME else lyc < SCANLINES_PER_FRAME && m >= lyc * DOTS_PER_SCANLINE
  }

  /** No mode source holds the line up at the end of the scanline before `lyc`. */
  predicate LowBefore(select: Select, lyc: nat) {
    if 0 < lyc <= VBLANK_START_LINE then !select.mode0 else !select.mode1
  }

  /**
   Requests `m` dots after the top of the frame, by selection. A source whose predecessor on the line is
   also selected finds the line already high and is swallowed; on the coincidence line, LYC swallows them all.
   */
  function RequestsBy(select: Select, lyc: nat, m: nat): int {
    var hblank, oam := select.mode0, select.mode2 && !select.mode0;
    Count(hblank, HBlanksBy(m)) - Count(hblank && select.lyc && HBlankBegun(lyc, m), 1)
    + Count(oam, OamScansBy(m)) - Count(oam && select.lyc && OamScanBegun(lyc, m), 1)
    + Count(select.mode1 && !select.mode0 && !(select.lyc && lyc == VBLANK_START_LINE)
            && m >= VBLANK_START_LINE * DOTS_PER_SCANLINE, 1)
    + Count(select.mode2 && !select.mode1 && !(select.lyc && lyc == 0) && m >= DOTS_PER_FRAME, 1)
    + Count(select.lyc && LowBefore(select, lyc) && LineBegun(lyc, m), 1)
  }

  lemma DotsUnfold(s: Scan, config: Config, n: nat)
    ensures s.Dots(config, n) == if n == 0 then s else s.Dots(config, n - 1).OneDot(config)
  {
  }

  lemma NoRequestsYet(select: Select, lyc: nat)
    ensures RequestsBy(select, lyc, 0) == 0
  {
  }

  /** How many LCD interrupts have come at every dot of a frame, for every selection and every LYC. */
  lemma {:induction false} StatBlocking(s: Scan, config: Config, m: nat)
    requires Settled(s) && s.lcd.Fresh() && Position(s) == 0 && m <= DOTS_PER_FRAME
    ensures var t := s.Dots(config, m);
      && t.lcd.Fresh() && t.lcd.select == s.lcd.select && t.lcd.lyc == s.lcd.lyc
      && t.lcd.statRequests == s.lcd.statRequests + RequestsBy(s.lcd.select, s.lcd.lyc, m)
  {
    hide Scan.OneDot, Scan.Dots, LcdState.Fresh, RequestsBy, ModeAt, Position, OnGrid;
    NoRequestsYet(s.lcd.select, s.lcd.lyc);
    DotsUnfold(s, config, m);
    if m > 0 {
      StatBlocking(s, config, m - 1);
      SettledStays(s, config, m - 1);
      DotsPosition(s, config, m - 1);
      var t := s.Dots(config, m - 1);
      assert Position(t) == m - 1;
      DotStat(t, config, m - 1);
    }
  }

  /** Requests per frame from the mode sources alone. */
  function ModeRequests(select: Select): int {
    match (select.mode0, select.mode1, select.mode2)
    case (false, false, false) => 0
    case (false, true, false) => 1
    case (true, false, true) => 145
    case _ => 144
  }

  /** What selecting LYC adds: its own rise, less the mode sources it swallows on its line. */
  function LycAdds(select: Select, lyc: nat): int {
    if lyc >= SCANLINES_PER_FRAME then 0
    else if lyc > VBLANK_START_LINE then Count(!select.mode1, 1)
    else if lyc == VBLANK_START_LINE then if select.mode0 then 0 else 1 - Count(select.mode1, 1)
    else if lyc > 0 then if select.mode0 then -1 else 1 - Count(select.mode2, 1)
    else Count(!select.mode1, 1) - Count(select.mode0, 1) - Count(select.mode2 && !select.mode1, 1)
  }

  /** The requests of a whole frame. */
  lemma StatRequestsPerFrame(s: Scan, config: Config)
    requires Settled(s) && s.lcd.Fresh() && Position(s) == 0
    ensures s.Dots(config, DOTS_PER_FRAME).lcd.statRequests - s.lcd.statRequests
            == ModeRequests(s.lcd.select) + if s.lcd.select.lyc then LycAdds(s.lcd.select, s.lcd.lyc) else 0
  {
    StatBlocking(s, config, DOTS_PER_FRAME);
    hide Scan.Dots;
  }

  // ---------------------------------------------------------------------------
  // The window line counter, under any register writes between steps
  // ---------------------------------------------------------------------------

  /** Lines rendered since the counter was last reset, at most. */
  function WindowBudget(s: Scan): nat {
    if s.lcd.ly >= VBLANK_START_LINE then 0 else s.lcd.ly + if s.dot >= HBLANK_DOT then 1 else 0
  }

  predicate WindowBounded(s: Scan) {
    OnGrid(s) && s.windowLine <= WindowBudget(s)
  }

  /** One call of ppu_step with the registers it finds. */
  datatype Call = Call(config: Config, select: Select, lyc: u8, cycles: nat)

  function Run(s: Scan, calls: seq<Call>): Scan
    decreases |calls|
  {
    if calls == [] then s
    else
      var c := calls[0];
      Run(s.(lcd := s.lcd.(select := c.select, lyc := c.lyc)).Step(c.config, c.cycles), calls[1..])
  }

  lemma {:induction false} DotsKeepWindowBounded(s: Scan, config: Config, n: nat)
    requires WindowBounded(s)
    ensures WindowBounded(s.Dots(config, n))
  {
    hide Scan.OneDot;
    if n > 0 {
      DotsKeepWindowBounded(s, config, n - 1);
      DotWindow(s.Dots(config, n - 1), config);
    }
  }

  /** In every run the counter is at most LY when a line is rendered, so it indexes a real map row. */
  lemma {:induction false} WindowLineBounded(s: Scan, calls: seq<Call>)
    requires WindowBounded(s)
    ensures WindowBounded(Run(s, calls))
    decreases |calls|
  {
    if calls != [] {
      var c := calls[0];
      var u := s.(lcd := s.lcd.(select := c.select, lyc := c.lyc));
      if c.config.ctrl.lcdEnable {
        DotsKeepWindowBounded(u, c.config, c.cycles);
      }
      WindowLineBounded(u.Step(c.config, c.cycles), calls[1..]);
    }
  }
}
