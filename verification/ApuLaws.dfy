/** What src/io/audio.c keeps over whole runs: channel status, and what the sweep and the envelopes do in the end. */
module ApuLaws {
  import opened Bytes
  import opened Apu
  import DivMod

  // ---------------------------------------------------------------------------
  // Channel status over every run of writes and ticks
  // ---------------------------------------------------------------------------

  datatype Event = RegisterWrite(addr: u16, value: u8) | TickWithDiv(divRegister: u8)

  function Step(s: ApuState, e: Event): ApuState {
    match e
    case RegisterWrite(addr, value) => s.Write(addr, value)
    case TickWithDiv(divRegister) => s.Sample(divRegister)
  }

  /** Any run from power-on; `negateUsed` is the flag that audio_init leaves as it finds it. */
  function Run(negateUsed: bool, events: seq<Event>): ApuState {
    if events == [] then Boot(negateUsed) else Step(Run(negateUsed, events[..|events| - 1]), events[|events| - 1])
  }

  /** Channel 1 starts out active with a spent counter; a length load or a trigger ends that. */
  predicate UsesCh1(e: Event) {
    e.RegisterWrite? && (e.addr == 0xFF11 || (e.addr == 0xFF14 && Bit(e.value, 7) == 1))
  }

  predicate Ch1Used(events: seq<Event>) {
    exists e <- events :: UsesCh1(e)
  }

  /** An active channel has its DAC on; counters stay in range; an active channel has time left. */
  predicate Sound(c: Channel, max: nat, dacOn: bool) {
    c.length <= max && (c.active ==> dacOn && c.length > 0)
  }

  predicate Invariant(s: ApuState, ch1Used: bool) {
    && s.seqStep < 8
    && (!s.power ==> !s.one.ch.active && !s.two.active && !s.three.active && !s.four.active)
    && s.one.ch.length <= 64 && (s.one.ch.active ==> DacOn(s.one.ch.nrx2) && (ch1Used ==> s.one.ch.length > 0))
    && Sound(s.two, 64, DacOn(s.two.nrx2))
    && Sound(s.three, 256, WaveDacOn(s.three.nrx2))
    && Sound(s.four, 64, DacOn(s.four.nrx2))
    && s.one.sweep.shadow <= 2047
    && EnvelopesInRange(s.env)
  }

  predicate EnvelopesInRange(e: Envelopes) {
    && e.one.volume <= 15 && e.one.timer <= 7
    && e.two.volume <= 15 && e.two.timer <= 7
    && e.four.volume <= 15 && e.four.timer <= 7
  }

  lemma SweepClockKeeps(x: Ch1)
    requires x.sweep.shadow <= 2047
    ensures var y := x.ClockSweep();
      && y.sweep.shadow <= 2047 && (y.ch.active ==> x.ch.active)
      && y.ch.length == x.ch.length && y.ch.nrx2 == x.ch.nrx2
  {
  }

  lemma ControlKeepsSound(s: ApuState, c: Channel, stored: u8, newEnabled: bool, triggering: bool, max: nat,
                          dacOn: bool)
    requires 2 <= max <= 0x100 && Sound(c, max, dacOn)
    ensures Sound(s.Control(c, stored, newEnabled, triggering, max, dacOn), max, dacOn)
    ensures s.Control(c, stored, newEnabled, triggering, max, dacOn).nrx2 == c.nrx2
  {
  }

  lemma Ch1ControlKeeps(s: ApuState, value: u8, used: bool)
    requires s.power && Invariant(s, used)
    ensures Invariant(s.Write(0xFF14, value), used || Bit(value, 7) == 1)
  {
    hide Channel.Period, Sweep.NewPeriod, StoredControl;
    var stored, oldEnabled := s.one.ch.(control := StoredControl(value)), s.one.ch.LengthEnabled();
    var c := stored.EnableQuirk(oldEnabled, Bit(value, 6) == 1, Bit(value, 7) == 1, s.OddStep());
    assert c.length <= 64 && c.nrx2 == s.one.ch.nrx2;
    assert (Ch1(c, s.one.sweep).Trigger(s.OddStep())).sweep.shadow == c.Trigger(64, s.OddStep()).Period();
  }

  lemma StepKeepsInvariant(s: ApuState, e: Event, used: bool)
    requires Invariant(s, used)
    ensures Invariant(Step(s, e), used || UsesCh1(e))
  {
    match e
    case RegisterWrite(addr, value) =>
      if addr == 0xFF14 && s.power {
        Ch1ControlKeeps(s, value, used);
      } else {
        WriteKeepsInvariant(s, addr, value, used);
      }
    case TickWithDiv(divRegister) =>
      SequenceKeepsInvariant(s, used);
  }

  lemma WriteKeepsInvariant(s: ApuState, addr: u16, value: u8, used: bool)
    requires Invariant(s, used) && (addr != 0xFF14 || !s.power)
    ensures Invariant(s.Write(addr, value), used || addr == 0xFF11 || addr == 0xFF14)
    ensures addr == 0xFF14 ==> s.Write(addr, value) == s
  {
    hide ApuState.Control, Ch1.Trigger, StoredControl, StoredNoiseControl, Bit, DacOn, WaveDacOn;
    hide ApuState.WritePower, ApuState.LoadLength;
    var newEnabled, triggering := Bit(value, 6) == 1, Bit(value, 7) == 1;
    LoadKeepsInvariant(s, addr, value, used);
    PowerKeepsInvariant(s, value, used);
    if s.power {
      if addr == 0xFF19 {
        ControlKeepsSound(s, s.two, StoredControl(value), newEnabled, triggering, 64, DacOn(s.two.nrx2));
      } else if addr == 0xFF1E {
        ControlKeepsSound(s, s.three, StoredControl(value), newEnabled, triggering, 256, WaveDacOn(s.three.nrx2));
      } else if addr == 0xFF23 {
        ControlKeepsSound(s, s.four, StoredNoiseControl(value), newEnabled, triggering, 64, DacOn(s.four.nrx2));
      }
    }
  }

  lemma LoadKeepsInvariant(s: ApuState, addr: u16, value: u8, used: bool)
    requires Invariant(s, used)
    ensures Invariant(s.LoadLength(addr, value), used || addr == 0xFF11)
    ensures addr == 0xFF14 ==> s.LoadLength(addr, value) == s
  {
    hide DacOn, WaveDacOn;
  }

  lemma PowerKeepsInvariant(s: ApuState, value: u8, used: bool)
    requires Invariant(s, used)
    ensures Invariant(s.WritePower(value), used)
  {
    hide Bit, DacOn, WaveDacOn;
  }

  lemma LengthsKeepInvariant(s: ApuState, used: bool)
    requires Invariant(s, used)
    ensures Invariant(s.ClockLengths(), used)
  {
    hide Channel.LengthEnabled, DacOn, WaveDacOn;
  }

  lemma SweepKeepsInvariant(s: ApuState, used: bool)
    requires Invariant(s, used)
    ensures Invariant(s.SweepOne(), used)
  {
    SweepClockKeeps(s.one);
    hide Ch1.ClockSweep, DacOn, WaveDacOn;
  }

  lemma EnvelopesKeepInvariant(s: ApuState, used: bool)
    requires Invariant(s, used)
    ensures Invariant(s.ClockEnvelopes(), used)
  {
    hide Bit, DacOn, WaveDacOn;
  }

  lemma SequenceKeepsInvariant(s: ApuState, used: bool)
    requires Invariant(s, used)
    ensures Invariant(s.Sequence(), used)
  {
    LengthsKeepInvariant(s, used);
    SweepKeepsInvariant(s.ClockLengths(), used);
    EnvelopesKeepInvariant(s, used);
    hide ApuState.ClockLengths, ApuState.SweepOne, ApuState.ClockEnvelopes, DacOn, WaveDacOn;
  }

  /** The status law, for every sequence of register writes and ticks from power-on. */
  lemma {:induction false} StatusLaw(negateUsed: bool, events: seq<Event>)
    ensures Invariant(Run(negateUsed, events), Ch1Used(events))
  {
    hide Step, Invariant;
    if events == [] {
      BootIsSound(negateUsed);
    } else {
      var before, e := events[..|events| - 1], events[|events| - 1];
      StatusLaw(negateUsed, before);
      StepKeepsInvariant(Run(negateUsed, before), e, Ch1Used(before));
      assert events == before + [e];
      assert Ch1Used(events) == (Ch1Used(before) || UsesCh1(e)) by {
        if Ch1Used(events) && !UsesCh1(e) {
          var u :| u in events && UsesCh1(u);
          assert u in before;
        }
      }
    }
  }

  lemma BootIsSound(negateUsed: bool)
    ensures Invariant(Boot(negateUsed), false)
  {
  }

  lemma UnusedKeepsZero(s: ApuState, e: Event)
    requires s.one.ch.length == 0 && !UsesCh1(e)
    ensures Step(s, e).one.ch.length == 0
  {
    hide Bit, DacOn, StoredControl, ApuState.Control;
    match e
    case RegisterWrite(addr, value) =>
    case TickWithDiv(divRegister) =>
      SweepKeepsLength(s.one);
      SweepKeepsLength(s.ClockLengths().one);
      hide Ch1.ClockSweep;
  }

  /** Until its first length load or trigger, the length counter of channel 1 stays spent. */
  lemma {:induction false} UnusedCh1HasNoTime(negateUsed: bool, events: seq<Event>)
    requires !Ch1Used(events)
    ensures Run(negateUsed, events).one.ch.length == 0
  {
    hide Step, UsesCh1;
    if events != [] {
      var before := events[..|events| - 1];
      assert forall e <- before :: e in events;
      UnusedCh1HasNoTime(negateUsed, before);
      UnusedKeepsZero(Run(negateUsed, before), events[|events| - 1]);
    }
  }

  /** Exactly when an active channel 1 has time left, in every run from power-on. */
  lemma Ch1TimeLeft(negateUsed: bool, events: seq<Event>)
    requires Run(negateUsed, events).one.ch.active
    ensures Run(negateUsed, events).one.ch.length > 0 <==> Ch1Used(events)
  {
    StatusLaw(negateUsed, events);
    if !Ch1Used(events) {
      UnusedCh1HasNoTime(negateUsed, events);
    }
    hide Run, Ch1Used;
  }

  /** A witness: it powers on active, with nothing left. */
  lemma BootHasNoTime(negateUsed: bool)
    ensures Run(negateUsed, []).one.ch.active && Run(negateUsed, []).one.ch.length == 0
  {
  }

  /**
   What the enable quirk is for: an NRx4 write that turns the length counter on just after a length
   clock acts as if it had come just before it. The one exception is a trigger with one tick left,
   which is refilled if it comes after the clock and silenced if it comes before.
   */
  lemma LengthWriteCommutes(s: ApuState, t: ApuState, c: Channel, stored: u8, triggering: bool, max: nat, dacOn: bool)
    requires !s.OddStep() && t.OddStep() && Bit(stored, 6) == 1 && 2 <= max <= 0x100 && c.length <= max
    ensures s.Control(c, stored, true, triggering, max, dacOn).ClockLength()
            == t.Control(c.ClockLength(), stored, true, triggering, max, dacOn)
            <==> !(triggering && c.length == 1)
  {
    hide Bit;
  }

  // ---------------------------------------------------------------------------
  // The sweep
  // ---------------------------------------------------------------------------

  lemma SweepKeepsLength(x: Ch1)
    ensures var y := x.ClockSweep(); y.ch.length == x.ch.length && y.ch.LengthEnabled() == x.ch.LengthEnabled()
  {
    LengthBitSurvives(x.ch.control, x.sweep.(timer := x.sweep.Reload()).NewPeriod() / 0x100 % 8);
    hide Bit;
  }

  /** `(nr14 & 0xF8) | p` keeps bit 6. */
  lemma LengthBitSurvives(control: u8, p: nat)
    requires p < 8
    ensures Bit(control / 8 * 8 + p, 6) == Bit(control, 6)
  {
    hide Bit;
    BitOfEighth(control / 8 * 8 + p);
    BitOfEighth(control);
    DivMod.Unique(control / 8 * 8 + p, 8, control / 8, p);
  }

  lemma BitOfEighth(x: nat)
    ensures Bit(x, 6) == Bit(x / 8, 3)
  {
    assert Bit(x, 6) == Bit(x / 2, 5) == Bit(x / 2 / 2, 4) == Bit(x / 2 / 2 / 2, 3);
    assert x / 2 / 2 / 2 == x / 8;
  }

  function SweepClocks(x: Ch1, k: nat): Ch1 {
    if k == 0 then x else SweepClocks(x, k - 1).ClockSweep()
  }

  /** A running upward sweep with NR10 held. */
  predicate SweepsUp(x: Ch1) {
    x.sweep.enabled && x.sweep.Pace() > 0 && x.sweep.Shift() > 0 && !x.sweep.Subtract() && x.sweep.shadow <= 2047
  }

  lemma {:induction false} ShiftRightGrows(x: nat, y: nat, k: nat)
    requires x <= y
    ensures ShiftRight(x, k) <= ShiftRight(y, k)
    decreases k
  {
    if k > 0 {
      ShiftRightGrows(x / 2, y / 2, k - 1);
    }
  }

  /** The sweep clock `x` is about to take calculates a period and writes it back. */
  predicate WritesBack(x: Ch1) {
    && x.sweep.timer <= 1 && x.sweep.enabled && x.sweep.Pace() > 0 && x.sweep.Shift() > 0
    && x.sweep.NewPeriod() <= 2047
  }

  /**
   The write-back leaves NR13 and NR14 decoding to the shadow, whatever the CPU had put there; no other
   sweep clock writes them.
   */
  lemma SweepWritesPeriod(x: Ch1)
    requires x.sweep.shadow <= 2047
    ensures var y := x.ClockSweep();
      && y.ch.LengthEnabled() == x.ch.LengthEnabled() && y.ch.control / 8 == x.ch.control / 8
      && (WritesBack(x) ==> y.ch.Period() == y.sweep.shadow == x.sweep.NewPeriod())
      && (!WritesBack(x) ==> y.ch == x.ch.(active := y.ch.active) && y.sweep.shadow == x.sweep.shadow)
      && (x.sweep.Subtract() ==> y.ch.active == x.ch.active)
  {
    hide ShiftRight, Channel.LengthEnabled, Channel.Period;
    SweepKeepsLength(x);
    TimerIsNotPeriod(x.sweep);
    if WritesBack(x) {
      DecodesTo(x.ch, x.sweep.NewPeriod(), x.ClockSweep().ch.active);
    }
  }

  lemma DecodesTo(c: Channel, p: nat, on: bool)
    requires p <= 2047
    ensures c.(low := p % 0x100, control := c.control / 8 * 8 + p / 0x100 % 8, active := on).Period() == p
    ensures (c.control / 8 * 8 + p / 0x100 % 8) / 8 == c.control / 8
  {
    DivMod.Unique(c.control / 8 * 8 + p / 0x100 % 8, 8, c.control / 8, p / 0x100 % 8);
  }

  lemma TimerIsNotPeriod(s: Sweep)
    ensures s.(timer := s.Reload()).NewPeriod() == s.NewPeriod()
  {
    hide ShiftRight;
  }

  lemma OneSweepClock(x: Ch1)
    requires SweepsUp(x) && x.ch.active
    ensures var y := x.ClockSweep();
      && (x.sweep.timer > 1 ==> y == x.(sweep := x.sweep.(timer := x.sweep.timer - 1)))
      && (x.sweep.timer <= 1 && y.ch.active ==>
            y.sweep == x.sweep.(timer := x.sweep.Pace(), shadow := x.sweep.shadow + x.sweep.Delta()))
      && (x.sweep.timer <= 1 && !y.ch.active ==> x.sweep.Delta() > 0)
      && (y.ch.active ==> SweepsUp(y))
  {
    hide ShiftRight;
    if x.sweep.timer <= 1 && x.sweep.Delta() == 0 {
      var s := x.sweep.(timer := x.sweep.Reload());
      assert s.NewPeriod() == x.sweep.shadow;
    }
  }

  /** Clocks after which an upward sweep must have overflowed: the measure is 2047 - shadow. */
  function SweepBound(x: Ch1): nat
    requires x.sweep.shadow <= 2047
  {
    (if x.sweep.timer > 1 then x.sweep.timer else 1) + 8 * (2047 - x.sweep.shadow)
  }

  lemma SweepClocksFrom(x: Ch1, k: nat)
    ensures SweepClocks(x.ClockSweep(), k) == SweepClocks(x, k + 1)
  {
    hide Ch1.ClockSweep;
    if k > 0 {
      SweepClocksFrom(x, k - 1);
    }
  }

  lemma {:induction false} SweepOverflows(x: Ch1) returns (k: nat)
    requires SweepsUp(x) && x.ch.active && x.sweep.Delta() > 0
    ensures k <= SweepBound(x) && !SweepClocks(x, k).ch.active
    decreases SweepBound(x)
  {
    var y := x.ClockSweep();
    OneSweepClock(x);
    assert SweepClocks(x, 1) == y by {
      assert SweepClocks(x, 0) == x;
    }
    if !y.ch.active {
      k := 1;
    } else {
      ShiftRightGrows(x.sweep.shadow, y.sweep.shadow, x.sweep.Shift());
      var j := SweepOverflows(y);
      SweepClocksFrom(x, j);
      k := j + 1;
    }
  }

  /** A sweep that can never overflow: off, paused, downward, or upward with nothing to add or too little to check. */
  predicate SweepHarmless(s: Sweep) {
    || !s.enabled || s.Pace() == 0 || s.Subtract()
    || (if s.Shift() > 0 then s.Delta() == 0 else s.shadow < 1024)
  }

  lemma HarmlessClock(x: Ch1)
    requires x.sweep.shadow <= 2047 && x.ch.active && SweepHarmless(x.sweep)
    ensures var y := x.ClockSweep();
      y.sweep.shadow <= 2047 && y.ch.active && SweepHarmless(y.sweep) && y.sweep.nr10 == x.sweep.nr10
  {
    hide ShiftRight;
    TimerIsNotPeriod(x.sweep);
    NoShift(x.sweep.shadow);
  }

  lemma NoShift(shadow: nat)
    ensures ShiftRight(shadow, 0) == shadow
  {
  }

  lemma {:induction false} HarmlessForEver(x: Ch1, k: nat)
    requires x.sweep.shadow <= 2047 && x.ch.active && SweepHarmless(x.sweep)
    ensures var y := SweepClocks(x, k); y.sweep.shadow <= 2047 && y.ch.active && SweepHarmless(y.sweep)
  {
    hide Ch1.ClockSweep, SweepHarmless;
    if k > 0 {
      HarmlessForEver(x, k - 1);
      HarmlessClock(SweepClocks(x, k - 1));
    }
  }

  /** Without a shift the shadow is doubled for the check only, so the first clock that calculates decides. */
  lemma {:induction false} UnshiftedOverflows(x: Ch1) returns (k: nat)
    requires x.sweep.enabled && x.sweep.Pace() > 0 && !x.sweep.Subtract() && x.sweep.Shift() == 0
    requires 1024 <= x.sweep.shadow <= 2047
    ensures k <= SweepBound(x) && !SweepClocks(x, k).ch.active
    decreases x.sweep.timer
  {
    hide ShiftRight;
    var y := x.ClockSweep();
    NoShift(x.sweep.shadow);
    assert SweepClocks(x, 1) == y by {
      assert SweepClocks(x, 0) == x;
    }
    if x.sweep.timer <= 1 {
      k := 1;
    } else {
      var j := UnshiftedOverflows(y);
      SweepClocksFrom(x, j);
      k := j + 1;
    }
  }

  /**
   With NR10 held, the sweep ever switches an active channel 1 off if and only if it is not harmless, and
   then within 8 clocks for every value left below 2048.
   */
  lemma SweepSilences(x: Ch1)
    requires x.sweep.shadow <= 2047 && x.ch.active
    ensures (exists k: nat :: !SweepClocks(x, k).ch.active) <==> !SweepHarmless(x.sweep)
    ensures !SweepHarmless(x.sweep) ==> exists k: nat :: k <= SweepBound(x) && !SweepClocks(x, k).ch.active
  {
    hide SweepClocks;
    if SweepHarmless(x.sweep) {
      forall k: nat ensures SweepClocks(x, k).ch.active {
        HarmlessForEver(x, k);
      }
    } else if x.sweep.Shift() > 0 {
      var k := SweepOverflows(x);
    } else {
      var k := UnshiftedOverflows(x);
    }
  }

  // ---------------------------------------------------------------------------
  // The envelopes
  // ---------------------------------------------------------------------------

  function EnvelopeClocks(e: Envelope, nrx2: u8, k: nat): Envelope {
    if k == 0 then e else EnvelopeClocks(e, nrx2, k - 1).Clock(nrx2)
  }

  /** Clocks until the volume first moves. */
  function FirstMove(timer: nat): nat { if timer > 1 then timer else 1 }

  /** Moves of the volume within `k` clocks: one when the timer runs out, then one per pace. */
  function Moves(timer: nat, pace: nat, k: nat): nat
    requires pace > 0
  {
    if k < FirstMove(timer) then 0 else (k - FirstMove(timer)) / pace + 1
  }

  /** The timer after `k` clocks. */
  function TimerAfter(timer: nat, pace: nat, k: nat): nat
    requires pace > 0
  {
    if k < FirstMove(timer) then (if k <= timer then timer - k else 0)
    else pace - (k - FirstMove(timer)) % pace
  }

  /** `n` moves up to 15 or down to 0. */
  function Ramp(volume: nat, up: bool, n: nat): nat {
    if up then (if volume + n < 15 then volume + n else 15) else if n < volume then volume - n else 0
  }

  lemma NextMove(timer: nat, pace: nat, k: nat)
    requires pace > 0
    ensures var t := TimerAfter(timer, pace, k);
      && Moves(timer, pace, k + 1) == Moves(timer, pace, k) + (if t <= 1 then 1 else 0)
      && TimerAfter(timer, pace, k + 1) == if t <= 1 then pace else t - 1
  {
    if k >= FirstMove(timer) {
      DivMod.Succ(k - FirstMove(timer), pace);
    }
  }

  /** With NRx2 held, the volume after `k` envelope clocks is a ramp that saturates, whatever the timer held. */
  lemma {:induction false} EnvelopeRamp(e: Envelope, nrx2: u8, k: nat)
    requires e.volume <= 15
    ensures var r, pace := EnvelopeClocks(e, nrx2, k), nrx2 % 8;
      if pace == 0 then r == e
      else
        && r.volume == Ramp(e.volume, Bit(nrx2, 3) == 1, Moves(e.timer, pace, k))
        && r.timer == TimerAfter(e.timer, pace, k)
  {
    if k == 0 {
    } else {
      hide Bit, Moves, TimerAfter;
      EnvelopeRamp(e, nrx2, k - 1);
      if nrx2 % 8 > 0 {
        NextMove(e.timer, nrx2 % 8, k - 1);
      }
    }
  }

  /** From a trigger on: one move every `pace` clocks, from the volume in NRx2. */
  lemma TriggeredRamp(nrx2: u8, k: nat)
    requires nrx2 % 8 > 0
    ensures EnvelopeClocks(StartEnvelope(nrx2), nrx2, k).volume == Ramp(nrx2 / 16, Bit(nrx2, 3) == 1, k / (nrx2 % 8))
  {
    var pace := nrx2 % 8;
    EnvelopeRamp(StartEnvelope(nrx2), nrx2, k);
    hide Bit;
    if k >= pace {
      DivMod.Shift(k - pace, pace, 1);
    } else {
      DivMod.Unique(k, pace, 0, k);
    }
  }
}
