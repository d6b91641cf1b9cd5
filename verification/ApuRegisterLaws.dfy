/**
 The APU registers of src/io/audio.c:150-630 in numbers: what every written byte does, with the fields of a
 register read off by division, and the reload values and clocks they set.
 */
module ApuRegisterLaws {
  import opened Bytes
  import opened Generators
  import opened Apu
  import opened ApuLaws

  // ---------------------------------------------------------------------------
  // The status law
  // ---------------------------------------------------------------------------

  /** In every run from power-on: an active channel's volume byte is at least 8, or NR30 at least 0x80. */
  lemma StatusInNumbers(negateUsed: bool, events: seq<Event>)
    ensures var s := Run(negateUsed, events);
      && (s.one.ch.active ==> s.one.ch.nrx2 >= 8 && s.power)
      && (s.two.active ==> s.two.nrx2 >= 8 && s.two.length > 0 && s.power)
      && (s.three.active ==> s.three.nrx2 >= 128 && s.three.length > 0 && s.power)
      && (s.four.active ==> s.four.nrx2 >= 8 && s.four.length > 0 && s.power)
      && s.one.ch.length <= 64 && s.two.length <= 64 && s.three.length <= 256 && s.four.length <= 64
      && s.one.sweep.shadow <= 2047 && s.seqStep < 8
  {
    StatusLaw(negateUsed, events);
    DacInNumbers(Run(negateUsed, events).three.nrx2);
    hide Run, Bit, WaveDacOn;
  }

  lemma DacInNumbers(value: u8)
    ensures DacOn(value) <==> value >= 8
    ensures WaveDacOn(value) <==> value >= 128
  {
    Digit(value, 7, 128);
    hide Bit;
  }

  /** A volume write keeps the channel active exactly when it was active and the byte is at least 8 (NR30: 0x80). */
  lemma VolumeWrites(s: ApuState, value: u8)
    requires s.power
    ensures s.Write(0xFF12, value)
            == s.(one := s.one.(ch := s.one.ch.(nrx2 := value, active := s.one.ch.active && value >= 8)))
    ensures s.Write(0xFF17, value) == s.(two := s.two.(nrx2 := value, active := s.two.active && value >= 8))
    ensures s.Write(0xFF1A, value) == s.(three := s.three.(nrx2 := value, active := s.three.active && value >= 128))
    ensures s.Write(0xFF21, value) == s.(four := s.four.(nrx2 := value, active := s.four.active && value >= 8))
  {
    DacInNumbers(value);
    hide Bit, DacOn, WaveDacOn, ApuState.WritePower;
  }

  // ---------------------------------------------------------------------------
  // NRx4
  // ---------------------------------------------------------------------------

  /**
   An NRx4 write of `value` takes `c` to `d`, bits 3 to 5 reading as ones. Bit 6 enables the length counter, and
   turning it on in an odd sequencer step clocks it; bit 7 triggers, and refills a spent counter to `max`, one less
   if such a step clocks that too.
   */
  ghost predicate ControlWritten(c: Channel, d: Channel, value: u8, odd: bool, max: nat, dacOn: bool) {
    var enable, trigger := value / 64 % 2 == 1, value >= 128;
    var extra := c.control / 64 % 2 == 0 && enable && odd && c.length > 0;
    var left := if extra then c.length - 1 else c.length;
    && d.nrx2 == c.nrx2 && d.low == c.low && d.control / 64 == value / 64 && d.control / 8 % 8 == 7
    && d.length == (if trigger && left == 0 then (if enable && odd then max - 1 else max) else left)
    && (d.active <==> if trigger then dacOn else c.active && !(extra && left == 0))
  }

  lemma ControlInNumbers(s: ApuState, c: Channel, stored: u8, value: u8, max: nat, dacOn: bool)
    requires 2 <= max <= 256 && stored / 64 == value / 64 && stored / 8 % 8 == 7
    ensures ControlWritten(c, s.Control(c, stored, Bit(value, 6) == 1, Bit(value, 7) == 1, max, dacOn), value,
                           s.seqStep % 2 == 1, max, dacOn)
  {
    Digit(value, 6, 64);
    Digit(value, 7, 128);
    Digit(stored, 6, 64);
    Digit(c.control, 6, 64);
    hide Bit;
    assert stored / 64 % 2 == value / 64 % 2 && (value / 128 % 2 == 1 <==> value >= 128);
  }

  lemma StoredInNumbers(value: u8)
    ensures var x := StoredControl(value); x / 64 == value / 64 && x / 8 % 8 == 7 && x % 8 == value % 8
    ensures var x := StoredNoiseControl(value); x / 64 == value / 64 && x / 8 % 8 == 7 && x % 8 == 7
  {
    var q, r := value / 64, value % 8;
    assert (64 * q + 0x38 + r) / 64 == q && (64 * q + 0x38 + r) / 8 == 8 * q + 7 && (64 * q + 0x38 + r) % 8 == r;
    assert (64 * q + 0x3F) / 64 == q && (64 * q + 0x3F) / 8 == 8 * q + 7 && (64 * q + 0x3F) % 8 == 7;
  }

  /** NR24: a trigger leaves channel 2 active exactly when NR22 is at least 8; the low three bits top the period. */
  lemma Nr24Write(s: ApuState, value: u8)
    requires s.power
    ensures var t := s.Write(0xFF19, value);
      && ControlWritten(s.two, t.two, value, s.seqStep % 2 == 1, 64, s.two.nrx2 >= 8)
      && t.two.Period() == s.two.low + 256 * (value % 8)
      && t == s.(two := t.two, env := t.env) && t.env == s.env.(two := t.env.two)
      && t.env.two == if value >= 128 then Envelope(s.two.nrx2 / 16, s.two.nrx2 % 8) else s.env.two
  {
    StoredInNumbers(value);
    DacInNumbers(s.two.nrx2);
    Digit(value, 7, 128);
    ControlInNumbers(s, s.two, StoredControl(value), value, 64, DacOn(s.two.nrx2));
    hide Bit, DacOn, ControlWritten, StoredControl, Channel.Trigger, Channel.Gate, ApuState.WritePower;
    hide Channel.EnableQuirk;
  }

  /** NR34: likewise for channel 3, of length 256, with NR30 at least 0x80. */
  lemma Nr34Write(s: ApuState, value: u8)
    requires s.power
    ensures var t := s.Write(0xFF1E, value);
      && ControlWritten(s.three, t.three, value, s.seqStep % 2 == 1, 256, s.three.nrx2 >= 128)
      && t.three.Period() == s.three.low + 256 * (value % 8) && t == s.(three := t.three)
  {
    StoredInNumbers(value);
    DacInNumbers(s.three.nrx2);
    ControlInNumbers(s, s.three, StoredControl(value), value, 256, WaveDacOn(s.three.nrx2));
    hide Bit, WaveDacOn, ControlWritten, StoredControl, Channel.Trigger, Channel.Gate, ApuState.WritePower;
    hide Channel.EnableQuirk;
  }

  /** NR44: likewise for channel 4. */
  lemma Nr44Write(s: ApuState, value: u8)
    requires s.power
    ensures var t := s.Write(0xFF23, value);
      && ControlWritten(s.four, t.four, value, s.seqStep % 2 == 1, 64, s.four.nrx2 >= 8)
      && t == s.(four := t.four, env := t.env) && t.env == s.env.(four := t.env.four)
      && t.env.four == if value >= 128 then Envelope(s.four.nrx2 / 16, s.four.nrx2 % 8) else s.env.four
  {
    StoredInNumbers(value);
    DacInNumbers(s.four.nrx2);
    Digit(value, 7, 128);
    ControlInNumbers(s, s.four, StoredNoiseControl(value), value, 64, DacOn(s.four.nrx2));
    hide Bit, DacOn, ControlWritten, StoredNoiseControl, Channel.Trigger, Channel.Gate, ApuState.WritePower;
    hide Channel.EnableQuirk;
  }

  /** `x >> k`. */
  function Divided(x: nat, k: nat): (y: nat)
    requires k < 8
    ensures y <= x
  {
    match k
    case 0 => x
    case 1 => x / 2
    case 2 => x / 4
    case 3 => x / 8
    case 4 => x / 16
    case 5 => x / 32
    case 6 => x / 64
    case _ => x / 128
  }

  lemma {:induction false} ShiftRightIsDivided(x: nat, k: nat)
    requires k < 8
    ensures ShiftRight(x, k) == Divided(x, k)
    decreases k
  {
    if k > 0 {
      ShiftRightIsDivided(x / 2, k - 1);
      DividedHalf(x, k);
    }
  }

  lemma DividedHalf(x: nat, k: nat)
    requires 0 < k < 8
    ensures Divided(x, k) == Divided(x / 2, k - 1)
  {
    match k
    case 1 =>
    case 2 =>
    case 3 =>
    case 4 =>
    case 5 =>
    case 6 =>
    case _ =>
  }

  /** NR10 by its fields: pace in bits 4 to 6, subtraction in bit 3, shift in bits 0 to 2. */
  lemma SweepInNumbers(s: Sweep)
    requires s.shadow <= 2047
    ensures s.Pace() == s.nr10 / 16 % 8 && (s.Subtract() <==> s.nr10 / 8 % 2 == 1) && s.Shift() == s.nr10 % 8
    ensures s.Delta() == Divided(s.shadow, s.nr10 % 8)
    ensures s.NewPeriod() == if s.nr10 / 8 % 2 == 1 then s.shadow - Divided(s.shadow, s.nr10 % 8)
                             else s.shadow + Divided(s.shadow, s.nr10 % 8)
    ensures s.Reload() == if s.nr10 / 16 % 8 == 0 then 8 else s.nr10 / 16 % 8
  {
    Digit(s.nr10, 3, 8);
    ShiftRightIsDivided(s.shadow, s.nr10 % 8);
    hide Bit, ShiftRight, Divided;
  }

  lemma TriggerInNumbers(x: Ch1, oddStep: bool)
    ensures var period, nr10 := x.ch.low + 256 * (x.ch.control % 8), x.sweep.nr10;
      var overflows := nr10 % 8 > 0 && nr10 / 8 % 2 == 0 && period + Divided(period, nr10 % 8) > 2047;
      x.Trigger(oddStep) == Ch1(x.ch.Trigger(64, oddStep).Gate(DacOn(x.ch.nrx2) && !overflows),
                                Sweep(nr10, period, if nr10 / 16 % 8 == 0 then 8 else nr10 / 16 % 8,
                                      nr10 / 16 % 8 != 0 || nr10 % 8 != 0, nr10 % 8 > 0 && nr10 / 8 % 2 == 1))
  {
    var period := x.ch.low + 256 * (x.ch.control % 8);
    SweepInNumbers(x.sweep.(shadow := period));
    Digit(x.sweep.nr10, 3, 8);
    hide Bit, DacOn, Divided, ShiftRight, Sweep.Delta;
  }

  /**
   NR14: without a trigger as the other channels; with one, channel 1 is left active exactly when NR12 is at least 8
   and the sweep, if it has a shift, does not take the period past 2047 at once.
   */
  lemma Nr14Write(s: ApuState, value: u8)
    requires s.power
    ensures var t := s.Write(0xFF14, value);
      var period, nr10 := s.one.ch.low + 256 * (value % 8), s.one.sweep.nr10;
      var overflows := nr10 % 8 > 0 && nr10 / 8 % 2 == 0 && period + Divided(period, nr10 % 8) > 2047;
      && ControlWritten(s.one.ch, t.one.ch, value, s.seqStep % 2 == 1, 64, s.one.ch.nrx2 >= 8 && !overflows)
      && t.one.ch.Period() == period
      && t == s.(one := t.one, env := t.env) && t.env == s.env.(one := t.env.one)
      && (value < 128 ==> t.one.sweep == s.one.sweep && t.env == s.env)
      && (value >= 128 ==>
            && t.env.one == Envelope(s.one.ch.nrx2 / 16, s.one.ch.nrx2 % 8)
            && t.one.sweep == Sweep(nr10, period, if nr10 / 16 % 8 == 0 then 8 else nr10 / 16 % 8,
                                    nr10 / 16 % 8 != 0 || nr10 % 8 != 0, nr10 % 8 > 0 && nr10 / 8 % 2 == 1))
  {
    StoredInNumbers(value);
    DacInNumbers(s.one.ch.nrx2);
    Digit(value, 7, 128);
    var period, nr10 := s.one.ch.low + 256 * (value % 8), s.one.sweep.nr10;
    var overflows := nr10 % 8 > 0 && nr10 / 8 % 2 == 0 && period + Divided(period, nr10 % 8) > 2047;
    var dacOn := s.one.ch.nrx2 >= 8 && !overflows;
    ControlInNumbers(s, s.one.ch, StoredControl(value), value, 64, dacOn);
    Nr14Channel(s, value, dacOn);
    hide Bit, DacOn, StoredControl, Divided, ControlWritten, ApuState.Write, ApuState.Control;
  }

  lemma Nr14Channel(s: ApuState, value: u8, dacOn: bool)
    requires s.power
    requires var period, nr10 := s.one.ch.low + 256 * (value % 8), s.one.sweep.nr10;
      var overflows := nr10 % 8 > 0 && nr10 / 8 % 2 == 0 && period + Divided(period, nr10 % 8) > 2047;
      dacOn == (s.one.ch.nrx2 >= 8 && !overflows)
    ensures var t := s.Write(0xFF14, value);
      var period, nr10 := s.one.ch.low + 256 * (value % 8), s.one.sweep.nr10;
      && t == s.(one := t.one, env := t.env)
      && t.one.ch == s.Control(s.one.ch, StoredControl(value), Bit(value, 6) == 1, Bit(value, 7) == 1, 64, dacOn)
      && t.env == (if Bit(value, 7) == 1 then s.env.(one := Envelope(s.one.ch.nrx2 / 16, s.one.ch.nrx2 % 8)) else s.env)
      && t.one.ch.Period() == period
      && t.one.sweep ==
         if Bit(value, 7) == 0 then s.one.sweep
         else Sweep(nr10, period, if nr10 / 16 % 8 == 0 then 8 else nr10 / 16 % 8,
                    nr10 / 16 % 8 != 0 || nr10 % 8 != 0, nr10 % 8 > 0 && nr10 / 8 % 2 == 1)
  {
    StoredInNumbers(value);
    DacInNumbers(s.one.ch.nrx2);
    hide Bit, DacOn, StoredControl, ApuState.WritePower, Divided, Ch1.Trigger, Channel.EnableQuirk;
    var c := s.one.ch.(control := StoredControl(value));
    var q := c.EnableQuirk(s.one.ch.LengthEnabled(), Bit(value, 6) == 1, Bit(value, 7) == 1, s.OddStep());
    TriggerInNumbers(s.one.(ch := q), s.OddStep());
    assert q.Period() == c.Period();
  }

  // ---------------------------------------------------------------------------
  // The other registers
  // ---------------------------------------------------------------------------

  /** Length loads, powered or not: 64 less the low six bits, or 256 less the byte. */
  lemma LengthWrites(s: ApuState, value: u8)
    ensures var t := s.Write(0xFF11, value);
      t == s.(one := s.one.(ch := t.one.ch)) && t.one.ch == s.one.ch.(length := t.one.ch.length) &&
      t.one.ch.length + value % 64 == 64
    ensures var t := s.Write(0xFF16, value);
      t == s.(two := s.two.(length := t.two.length)) && t.two.length + value % 64 == 64
    ensures var t := s.Write(0xFF1B, value);
      t == s.(three := s.three.(length := t.three.length)) && t.three.length + value == 256
    ensures var t := s.Write(0xFF20, value);
      t == s.(four := s.four.(length := t.four.length)) && t.four.length + value % 64 == 64
  {
    hide Bit, ApuState.WritePower;
  }

  /** NR13, NR23, NR33, NR43 are stored; NR10 is stored, and clearing its bit 3 after it was used silences channel 1. */
  lemma PlainWrites(s: ApuState, value: u8)
    requires s.power
    ensures s.Write(0xFF13, value) == s.(one := s.one.(ch := s.one.ch.(low := value)))
    ensures s.Write(0xFF18, value) == s.(two := s.two.(low := value))
    ensures s.Write(0xFF1D, value) == s.(three := s.three.(low := value))
    ensures s.Write(0xFF22, value) == s.(four := s.four.(low := value))
    ensures var silenced := s.one.sweep.negateUsed && s.one.sweep.nr10 / 8 % 2 == 1 && value / 8 % 2 == 0;
      s.Write(0xFF10, value) == s.(one := Ch1(s.one.ch.(active := s.one.ch.active && !silenced),
                                              s.one.sweep.(nr10 := value)))
  {
    Digit(value, 3, 8);
    Digit(s.one.sweep.nr10, 3, 8);
    hide Bit, ApuState.WritePower;
  }

  /** NR52: bit 7 is the power; switching off clears every register and every status bit but keeps the lengths. */
  lemma PowerWrites(s: ApuState, value: u8)
    ensures var t := s.Write(0xFF26, value);
      && (t.power <==> value >= 128)
      && (value >= 128 && s.power ==> t == s)
      && (value >= 128 && !s.power ==> t == s.(power := true, seqStep := 0))
      && (value < 128 ==>
            && t.one.ch == Channel(false, s.one.ch.length, 0, 0, 0) && t.two == Channel(false, s.two.length, 0, 0, 0)
            && t.three == Channel(false, s.three.length, 0, 0, 0) && t.four == Channel(false, s.four.length, 0, 0, 0)
            && t.one.sweep == s.one.sweep.(nr10 := 0)
            && t.env == s.env && t.seqStep == s.seqStep && t.prevBit == s.prevBit)
  {
    Digit(value, 7, 128);
    hide Bit;
  }

  /** Powered off, nothing but NR52 and the length loads is writable. */
  lemma WritesWhileOff(s: ApuState, addr: u16, value: u8)
    requires !s.power && addr !in {0xFF11, 0xFF16, 0xFF1B, 0xFF20, 0xFF26}
    ensures s.Write(addr, value) == s
  {
  }

  /** Power-on: only channel 1 is active, at full volume, and every counter is spent. */
  lemma BootInNumbers(negateUsed: bool)
    ensures var s := Boot(negateUsed);
      && s.power && s.one.ch.active && !s.two.active && !s.three.active && !s.four.active
      && s.one.ch.nrx2 / 16 == 15 && s.one.ch.nrx2 % 8 == 3 && s.seqStep == 0 && !s.prevBit
      && s.one.ch.length == 0 && s.two.length == 0 && s.three.length == 0 && s.four.length == 0
      && s.one.sweep.nr10 % 128 == 0 && s.two.nrx2 == 0 && s.three.nrx2 < 128 && s.four.nrx2 == 0 && s.four.low == 0
      && s.one.ch.Period() == 2047 && s.two.Period() == 2047 && s.three.Period() == 2047
  {
  }

  // ---------------------------------------------------------------------------
  // Period timers
  // ---------------------------------------------------------------------------

  /** The divisor of NR43's low three bits. */
  function Divisor(code: nat): nat {
    if code == 0 then 8 else if code == 1 then 16 else if code == 2 then 32 else if code == 3 then 48
    else if code == 4 then 64 else if code == 5 then 80 else if code == 6 then 96 else 112
  }

  function PowerOfTwo(k: nat): (p: nat)
    ensures p > 0
  {
    if k == 0 then 1 else 2 * PowerOfTwo(k - 1)
  }

  lemma {:induction false} ShiftLeftIsTimes(x: nat, k: nat)
    ensures ShiftLeft(x, k) == x * PowerOfTwo(k)
    decreases k
  {
    if k > 0 {
      ShiftLeftIsTimes(x * 2, k - 1);
      var p := PowerOfTwo(k - 1);
      assert x * 2 * p == x * (2 * p);
    }
  }

  /** Cycles per duty step, per wave sample and per noise shift. */
  lemma ReloadsInNumbers(c: Channel)
    ensures PulseReload(c) == 4 * (2048 - (c.low + 256 * (c.control % 8)))
    ensures WaveReload(c) == 2 * (2048 - (c.low + 256 * (c.control % 8)))
    ensures NoiseReload(c) == Divisor(c.low % 8) * PowerOfTwo(c.low / 16)
    ensures NarrowNoise(c) <==> c.low / 8 % 2 == 1
  {
    Digit(c.low, 3, 8);
    ShiftLeftIsTimes(Divisor(c.low % 8), c.low / 16);
    hide Bit, ShiftLeft, PowerOfTwo;
  }

  /**
   A trigger restarts the period timer from the period just written, and resets the wave position or the noise
   register.
   */
  lemma RetriggerInNumbers(g: Gens, s: ApuState, value: u8)
    requires s.power && value >= 128
    ensures Retrigger(g, s.Write(0xFF14, value), 0xFF14, value)
            == g.(one := g.one.(timer := 4 * (2048 - (s.one.ch.low + 256 * (value % 8)))))
    ensures Retrigger(g, s.Write(0xFF19, value), 0xFF19, value)
            == g.(two := g.two.(timer := 4 * (2048 - (s.two.low + 256 * (value % 8)))))
    ensures Retrigger(g, s.Write(0xFF1E, value), 0xFF1E, value)
            == g.(three := Wave(2 * (2048 - (s.three.low + 256 * (value % 8))), 0))
    ensures Retrigger(g, s.Write(0xFF23, value), 0xFF23, value)
            == g.(four := Noise(Divisor(s.four.low % 8) * PowerOfTwo(s.four.low / 16), 0x7FFF))
  {
    hide Divided, Bit, ApuState.Write, PulseReload, WaveReload, NoiseReload, PowerOfTwo, Divisor;
    Digit(value, 7, 128);
    Nr14Write(s, value);
    Nr24Write(s, value);
    Nr34Write(s, value);
    Nr44Write(s, value);
    ReloadsInNumbers(s.Write(0xFF14, value).one.ch);
    ReloadsInNumbers(s.Write(0xFF19, value).two);
    ReloadsInNumbers(s.Write(0xFF1E, value).three);
    ReloadsInNumbers(s.Write(0xFF23, value).four);
  }

  lemma OtherWritesKeepGenerators(g: Gens, s: ApuState, addr: u16, value: u8)
    requires value < 128 || addr !in {0xFF14, 0xFF19, 0xFF1E, 0xFF23}
    ensures Retrigger(g, s, addr, value) == g
  {
    Digit(value, 7, 128);
    hide Bit;
  }

  /** What the eleven bits of NRx3 and NRx4 leave to 2048. */
  function Remaining(low: u8, control: u8): (n: nat)
    ensures n > 0
  {
    2048 - (low + 256 * (control % 8))
  }

  /** Cycles of `k` periods. */
  function Span(period: nat, k: nat): nat { k * period }

  /** With the registers held, `k` periods move a pulse `k` of its 8 duty steps and the wave `k` of its 32 samples. */
  lemma PulseInNumbers(c: Channel, pos: nat, k: nat)
    ensures var period := 4 * Remaining(c.low, c.control);
      Advance(Wave(period, pos), PulseReload(c), 8, Span(period, k)) == Wave(period, (pos + k) % 8)
  {
    ReloadsInNumbers(c);
    FullPeriods(pos, PulseReload(c), 8, k);
    hide Advance, PulseReload;
  }

  lemma WaveInNumbers(c: Channel, pos: nat, k: nat)
    ensures var period := 2 * Remaining(c.low, c.control);
      Advance(Wave(period, pos), WaveReload(c), 32, Span(period, k)) == Wave(period, (pos + k) % 32)
  {
    ReloadsInNumbers(c);
    FullPeriods(pos, WaveReload(c), 32, k);
    hide Advance, WaveReload;
  }

  lemma StepsInNumbers(g: Gens, s: ApuState, k: nat)
    ensures var period := 4 * Remaining(s.one.ch.low, s.one.ch.control);
      g.one.timer == period ==> Generate(g, s, Span(period, k)).one == Wave(period, (g.one.pos + k) % 8)
    ensures var period := 4 * Remaining(s.two.low, s.two.control);
      g.two.timer == period ==> Generate(g, s, Span(period, k)).two == Wave(period, (g.two.pos + k) % 8)
    ensures var period := 2 * Remaining(s.three.low, s.three.control);
      g.three.timer == period ==> Generate(g, s, Span(period, k)).three == Wave(period, (g.three.pos + k) % 32)
  {
    PulseInNumbers(s.one.ch, g.one.pos, k);
    PulseInNumbers(s.two, g.two.pos, k);
    WaveInNumbers(s.three, g.three.pos, k);
    hide Advance, AdvanceNoise, NoiseReload, NarrowNoise, PulseReload, WaveReload, Remaining, Span;
  }

  lemma FullPeriods(pos: nat, reload: int, size: int, k: nat)
    requires reload > 0 && size > 0
    ensures Advance(Wave(reload, pos), reload, size, k * reload) == Wave(reload, (pos + k) % size)
  {
    ReloadsAreForced(reload, reload, k * reload, k);
  }

  /** And a noise period shifts the register once. */
  lemma NoiseInNumbers(g: Gens, s: ApuState, k: nat)
    requires var period := Divisor(s.four.low % 8) * PowerOfTwo(s.four.low / 16); g.four.timer == period
    ensures var period := Divisor(s.four.low % 8) * PowerOfTwo(s.four.low / 16);
      Generate(g, s, Span(period, k)).four == Noise(period, Shifts(g.four.lfsr, s.four.low / 8 % 2 == 1, k))
  {
    hide Advance, PulseReload, WaveReload, Shifts;
    ReloadsInNumbers(s.four);
    ReloadsAreForced(NoiseReload(s.four), NoiseReload(s.four), k * NoiseReload(s.four), k);
    hide NoiseReload, NarrowNoise, PowerOfTwo, Divisor;
  }

  /** The sequencer steps exactly when bit 4 of the DIV register has fallen since the last sample. */
  lemma SampleInNumbers(s: ApuState, divRegister: u8)
    ensures s.Sample(divRegister).prevBit <==> divRegister / 16 % 2 == 1
    ensures s.prevBit && divRegister / 16 % 2 == 0 ==> s.Sample(divRegister) == s.Sequence().(prevBit := false)
    ensures !(s.prevBit && divRegister / 16 % 2 == 0) ==>
              s.Sample(divRegister) == s.(prevBit := divRegister / 16 % 2 == 1)
  {
    Digit(divRegister, 4, 16);
    hide Bit, ApuState.Sequence;
  }

  /** A length counter runs exactly when bit 6 of NRx4 is set, and switches the channel off as it reaches zero. */
  lemma LengthClockInNumbers(c: Channel)
    ensures var d := c.ClockLength();
      if c.control / 64 % 2 == 1 && c.length > 0 then d == c.(length := c.length - 1, active := c.active && c.length > 1)
      else d == c
  {
    Digit(c.control, 6, 64);
    hide Bit;
  }

  // ---------------------------------------------------------------------------
  // Envelope and sweep
  // ---------------------------------------------------------------------------

  /**
   After a trigger with pace p, the volume moves by one every p clocks, up if bit 3 of NRx2 is set, and stays
   in 0..15.
   */
  lemma EnvelopeInNumbers(nrx2: u8, k: nat)
    ensures var moved := if nrx2 % 8 == 0 then 0 else k / (nrx2 % 8);
      EnvelopeClocks(Envelope(nrx2 / 16, nrx2 % 8), nrx2, k).volume ==
        if nrx2 / 8 % 2 == 1 then (if nrx2 / 16 + moved < 15 then nrx2 / 16 + moved else 15)
        else if nrx2 / 16 > moved then nrx2 / 16 - moved else 0
  {
    Digit(nrx2, 3, 8);
    if nrx2 % 8 == 0 {
      EnvelopeRamp(StartEnvelope(nrx2), nrx2, k);
    } else {
      TriggeredRamp(nrx2, k);
    }
    hide Bit, EnvelopeClocks;
  }

  /** A sweep clock that finds its timer run out. */
  lemma SweepClockInNumbers(x: Ch1)
    requires x.sweep.shadow <= 2047
    ensures var y, nr10 := x.ClockSweep(), x.sweep.nr10;
      var pace, shift, subtract := nr10 / 16 % 8, nr10 % 8, nr10 / 8 % 2 == 1;
      var delta := Divided(x.sweep.shadow, shift);
      var p := if subtract then x.sweep.shadow - delta else x.sweep.shadow + delta;
      if x.sweep.timer > 1 then y == x.(sweep := x.sweep.(timer := x.sweep.timer - 1))
      else
        && y.sweep.timer == (if pace == 0 then 8 else pace)
        && (!x.sweep.enabled || pace == 0 ==> y == x.(sweep := x.sweep.(timer := y.sweep.timer)))
        && (x.sweep.enabled && pace > 0 ==>
              && y.sweep.negateUsed == (x.sweep.negateUsed || subtract)
              && (p > 2047 ==> y.ch == x.ch.(active := false) && y.sweep.shadow == x.sweep.shadow)
              && (p <= 2047 && shift == 0 ==> y.ch == x.ch && y.sweep.shadow == x.sweep.shadow)
              && (p <= 2047 && shift > 0 ==>
                    && y.sweep.shadow == p && y.ch.low == p % 256 && y.ch.control == x.ch.control / 8 * 8 + p / 256
                    && y.ch.active == (x.ch.active && (subtract || p + Divided(p, shift) <= 2047))))
  {
    SweepInNumbers(x.sweep);
    var s := x.sweep.(timer := x.sweep.Reload());
    SweepInNumbers(s);
    if s.NewPeriod() <= 2047 {
      SweepInNumbers(s.Calculated().(shadow := s.NewPeriod()));
    }
    hide Divided, Sweep.NewPeriod, Sweep.Delta, Sweep.Reload, Sweep.Pace, Sweep.Shift, Sweep.Subtract;
  }
}
