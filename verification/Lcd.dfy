/**
 The LCD registers and the STAT interrupt line, src/io/lcd.c.

 `LcdState` is the value of the registers together with how many VBlank and LCD interrupts
 have been requested so far. The class holds the registers the source updates in place.
 */
module Lcd {
  import opened Bytes
  import opened Interrupts

  datatype Mode = HBlank | VBlank | OamScan | Drawing

  /** LCDC (0xFF40), bit by bit. */
  datatype Ctrl = Ctrl(bgWindowEnable: bool, objEnable: bool, objSize: bool, bgTileMap: bool,
                       bgWindowTileData: bool, windowEnable: bool, windowTileMap: bool, lcdEnable: bool)

  /** The registers only the CPU writes. */
  datatype Config = Config(ctrl: Ctrl, scy: u8, scx: u8, bgp: u8, obp0: u8, obp1: u8, wy: u8, wx: u8)

  /** The STAT interrupt selection bits (0xFF41 bits 3-6). */
  datatype Select = Select(mode0: bool, mode1: bool, mode2: bool, lyc: bool)

  datatype LcdState = LcdState(mode: Mode, lycEqLy: bool, select: Select, ly: u8, lyc: u8, statLine: bool,
                               vblankRequests: nat, statRequests: nat)
  {
    /** The OR of the enabled STAT sources. */
    predicate Level() {
      || (select.lyc && ly == lyc)
      || (select.mode0 && mode == HBlank)
      || (select.mode1 && mode == VBlank)
      || (select.mode2 && mode == OamScan)
    }

    /** lcd_update_stat: one sample of the line. */
    function Sample(): LcdState {
      this.(lycEqLy := ly == lyc, statLine := Level(),
            statRequests := statRequests + if Level() && !statLine then 1 else 0)
    }

    /** lcd_set_mode: nothing when the mode is unchanged, otherwise a sample in the new mode. */
    function Enter(m: Mode): LcdState {
      if mode == m then this
      else this.(mode := m, vblankRequests := vblankRequests + if m == VBlank then 1 else 0).Sample()
    }

    /** A STAT write keeps the mode and coincidence bits. */
    function WriteStat(value: u8): LcdState {
      this.(select := Select(Bit(value, 3) == 1, Bit(value, 4) == 1, Bit(value, 5) == 1, Bit(value, 6) == 1)).Sample()
    }

    function WriteLyc(value: u8): LcdState {
      this.(lyc := value).Sample()
    }

    /** The line is up to date: what it last sampled is what the sources say now. */
    predicate Fresh() {
      statLine == Level() && lycEqLy == (ly == lyc)
    }
  }

  class LcdRegs {
    var config: Config
    var mode: Mode
    var lycEqLy: bool
    var select: Select
    var ly: u8
    var lyc: u8
    var statLine: bool
    const interrupts: InterruptRegs

    ghost function View(): LcdState
      reads this, interrupts
    {
      LcdState(mode, lycEqLy, select, ly, lyc, statLine, interrupts.vblankRequests, interrupts.statRequests)
    }

    /** The IF bits are raised by every request since `was` and cleared by none. */
    twostate predicate FlagsFollowRequests()
      reads interrupts
    {
      && interrupts.vblank == (old(interrupts.vblank) || interrupts.vblankRequests > old(interrupts.vblankRequests))
      && interrupts.stat == (old(interrupts.stat) || interrupts.statRequests > old(interrupts.statRequests))
      && interrupts.vblankRequests >= old(interrupts.vblankRequests)
      && interrupts.statRequests >= old(interrupts.statRequests)
    }

    constructor (interrupts: InterruptRegs)
      ensures this.interrupts == interrupts && !statLine && ly == 0 && lyc == 0 && mode == VBlank && lycEqLy
      ensures config == Config(Ctrl(true, false, false, false, true, false, false, true), 0, 0, 0xFC, 0, 0, 0, 0)
      ensures select == Select(false, false, false, false)
    {
      this.interrupts := interrupts;
      config := Config(Ctrl(true, false, false, false, true, false, false, true), 0, 0, 0xFC, 0, 0, 0, 0);
      mode, lycEqLy, select := VBlank, true, Select(false, false, false, false);
      ly, lyc, statLine := 0, 0, false;
    }

    method UpdateStat()
      modifies this, interrupts`vblank, interrupts`vblankRequests, interrupts`stat, interrupts`statRequests
      ensures View() == old(View()).Sample() && config == old(config) && FlagsFollowRequests()
    {
      lycEqLy := ly == lyc;
      var line :=
        || (select.lyc && lycEqLy)
        || (select.mode0 && mode == HBlank)
        || (select.mode1 && mode == VBlank)
        || (select.mode2 && mode == OamScan);
      if line && !statLine {
        interrupts.RequestStat();
      }
      statLine := line;
    }

    method SetMode(m: Mode) returns (changed: bool)
      modifies this, interrupts`vblank, interrupts`vblankRequests, interrupts`stat, interrupts`statRequests
      ensures View() == old(View()).Enter(m) && config == old(config) && FlagsFollowRequests()
      ensures changed == (old(mode) != m)
    {
      if mode == m {
        return false;
      }
      mode := m;
      if m == VBlank {
        interrupts.RequestVBlank();
      }
      UpdateStat();
      return true;
    }

    method WriteStat(value: u8)
      modifies this, interrupts`vblank, interrupts`vblankRequests, interrupts`stat, interrupts`statRequests
      ensures View() == old(View()).WriteStat(value) && config == old(config) && FlagsFollowRequests()
    {
      select := Select(Bit(value, 3) == 1, Bit(value, 4) == 1, Bit(value, 5) == 1, Bit(value, 6) == 1);
      UpdateStat();
    }

    method WriteLyc(value: u8)
      modifies this, interrupts`vblank, interrupts`vblankRequests, interrupts`stat, interrupts`statRequests
      ensures View() == old(View()).WriteLyc(value) && config == old(config) && FlagsFollowRequests()
    {
      lyc := value;
      UpdateStat();
    }
  }

  // ---------------------------------------------------------------------------
  // The interrupt line over any interleaving of CPU writes and PPU changes
  // ---------------------------------------------------------------------------

  datatype Event = StatWritten(value: u8) | LycWritten(value: u8) | ModeEntered(m: Mode) | LyMoved(ly: u8)

  function Apply(l: LcdState, e: Event): LcdState {
    match e
    case StatWritten(value) => l.WriteStat(value)
    case LycWritten(value) => l.WriteLyc(value)
    case ModeEntered(m) => l.Enter(m)
    case LyMoved(ly) => l.(ly := ly).Sample()
  }

  function Run(l: LcdState, events: seq<Event>): LcdState
    decreases |events|
  {
    if events == [] then l else Run(Apply(l, events[0]), events[1..])
  }

  /** The OR of the enabled sources at each point where the line is sampled; entering the current mode samples nothing. */
  function Levels(l: LcdState, events: seq<Event>): seq<bool>
    decreases |events|
  {
    if events == [] then []
    else
      var next := Apply(l, events[0]);
      (if events[0] == ModeEntered(l.mode) then [] else [next.Level()]) + Levels(next, events[1..])
  }

  /** Low-to-high changes along a list of levels. */
  function RisingEdges(before: bool, levels: seq<bool>): nat
    decreases |levels|
  {
    if levels == [] then 0 else (if levels[0] && !before then 1 else 0) + RisingEdges(levels[0], levels[1..])
  }

  /** LCD interrupts are exactly the rising edges of the combined line, and only mode changes move the mode. */
  lemma {:induction false} RequestsAreRisingEdges(l: LcdState, events: seq<Event>)
    ensures Run(l, events).statRequests == l.statRequests + RisingEdges(l.statLine, Levels(l, events))
    ensures (forall i :: 0 <= i < |events| ==> !events[i].ModeEntered?) ==> Run(l, events).mode == l.mode
    decreases |events|
  {
    if events != [] {
      var next := Apply(l, events[0]);
      RequestsAreRisingEdges(next, events[1..]);
      SampleRecords(l, events[0]);
      hide Apply, LcdState.Level;
      if events[0] != ModeEntered(l.mode) {
        assert Levels(l, events)[0] == next.Level() && Levels(l, events)[1..] == Levels(next, events[1..]);
      } else {
        assert Levels(l, events) == Levels(next, events[1..]);
      }
    }
  }

  lemma SampleRecords(l: LcdState, e: Event)
    ensures var next := Apply(l, e);
      && (e == ModeEntered(l.mode) ==> next == l)
      && (e != ModeEntered(l.mode) ==>
            && next.statLine == next.Level()
            && next.statRequests == l.statRequests + if next.Level() && !l.statLine then 1 else 0)
      && (!e.ModeEntered? ==> next.mode == l.mode)
  {
  }

  // ---------------------------------------------------------------------------
  // The same in numbers
  // ---------------------------------------------------------------------------

  /** A STAT write: bits 3 to 6 select HBlank, VBlank, OAM scan and LY=LYC, and one at a time they raise the line then. */
  lemma StatInNumbers(l: LcdState, value: u8)
    ensures var t := l.WriteStat(value);
      && (t.select.mode0 <==> value / 8 % 2 == 1) && (t.select.mode1 <==> value / 16 % 2 == 1)
      && (t.select.mode2 <==> value / 32 % 2 == 1) && (t.select.lyc <==> value / 64 % 2 == 1)
      && t.mode == l.mode && t.ly == l.ly && t.lyc == l.lyc && (t.lycEqLy <==> l.ly == l.lyc)
      && (value == 0x08 ==> (t.statLine <==> l.mode == HBlank))
      && (value == 0x10 ==> (t.statLine <==> l.mode == VBlank))
      && (value == 0x20 ==> (t.statLine <==> l.mode == OamScan))
      && (value == 0x40 ==> (t.statLine <==> l.ly == l.lyc))
      && (value / 8 % 16 == 0 ==> !t.statLine)
      && (t.statLine <==> || (value / 8 % 2 == 1 && l.mode == HBlank) || (value / 16 % 2 == 1 && l.mode == VBlank)
                          || (value / 32 % 2 == 1 && l.mode == OamScan) || (value / 64 % 2 == 1 && l.ly == l.lyc))
      && t.statRequests == l.statRequests + (if t.statLine && !l.statLine then 1 else 0)
      && t.vblankRequests == l.vblankRequests
  {
    hide Bit;
    SelectionDigits(value);
  }

  lemma SelectionDigits(value: u8)
    ensures Bit(value, 3) == value / 8 % 2 && Bit(value, 4) == value / 16 % 2
    ensures Bit(value, 5) == value / 32 % 2 && Bit(value, 6) == value / 64 % 2
    ensures value / 8 % 16 == 0 ==> Bit(value, 3) == 0 && Bit(value, 4) == 0 && Bit(value, 5) == 0 && Bit(value, 6) == 0
  {
    hide Bit;
    BitsAreDigits(value);
    if value / 8 % 16 == 0 {
      var q := value / 8 / 16;
      assert value / 8 == 16 * q && value / 16 == 8 * q && value / 32 == 4 * q && value / 64 == 2 * q;
    }
  }
}
