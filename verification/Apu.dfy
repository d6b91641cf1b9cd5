/**
 The APU registers and their clocks, src/io/audio.c: register writes, triggers, the length,
 sweep and envelope clocks, and the frame sequencer, with the generators and the sample clock
 driven by every tick.
 */
module Apu {
  import opened Bytes
  import opened Generators

  /**
   One channel. `active` is its NR52 status bit; `nrx2` is NR30 for channel 3, `low` is NRx3 (NR43 for
   channel 4) and `control` is NRx4.
   */
  datatype Channel = Channel(active: bool, length: u16, nrx2: u8, low: u8, control: u8) {
    predicate LengthEnabled() { Bit(control, 6) == 1 }

    /** The 11-bit period of NRx3 and NRx4. */
    function Period(): (p: nat)
      ensures p < 2048
    {
      low + 0x100 * (control % 8)
    }

    /** audio_clock_one_length. */
    function ClockLength(): Channel {
      if !LengthEnabled() || length == 0 then this
      else this.(length := length - 1, active := active && length - 1 != 0)
    }

    /** audio_length_enable_quirk: turning the length counter on in an odd step clocks it once. */
    function EnableQuirk(oldEnabled: bool, newEnabled: bool, triggering: bool, oddStep: bool): (r: Channel)
      ensures r == this.(active := r.active, length := r.length)
    {
      if oldEnabled || !newEnabled || !oddStep || length == 0 then this
      else this.(length := length - 1, active := active && (length - 1 != 0 || triggering))
    }

    /** The length half of a trigger: a spent counter is refilled, one short when an odd step re-clocks it. */
    function Trigger(max: nat, oddStep: bool): Channel
      requires 0 < max <= 0x100
    {
      this.(active := true,
            length := if length != 0 then length else if LengthEnabled() && oddStep then max - 1 else max)
    }

    /** A channel whose DAC is off cannot be active. */
    function Gate(dacOn: bool): Channel { this.(active := active && dacOn) }

    function Cleared(): Channel { Channel(false, length, 0, 0, 0) }
  }

  /** `(x & 0xF8) != 0`: the DAC of channels 1, 2 and 4. */
  predicate DacOn(nrx2: u8) { nrx2 / 8 != 0 }

  /** `(x & 0x80) != 0`: the DAC of channel 3. */
  predicate WaveDacOn(nr30: u8) { Bit(nr30, 7) == 1 }

  /** The control byte as stored: unused bits read back as ones. */
  function StoredControl(value: u8): u8 { value / 64 * 64 + 0x38 + value % 8 }
  function StoredNoiseControl(value: u8): u8 { value / 64 * 64 + 0x3F }

  /** The sweep unit of channel 1. */
  datatype Sweep = Sweep(nr10: u8, shadow: u16, timer: u8, enabled: bool, negateUsed: bool) {
    function Pace(): (p: nat) ensures p < 8 { nr10 / 16 % 8 }
    function Shift(): (s: nat) ensures s < 8 { nr10 % 8 }
    predicate Subtract() { Bit(nr10, 3) == 1 }
    function Reload(): (t: nat) ensures 1 <= t <= 8 { if Pace() != 0 then Pace() else 8 }

    /** `shadow >> shift`. */
    function Delta(): (d: nat)
      ensures d <= shadow
    {
      ShiftRight(shadow, Shift())
    }

    /** The value of audio_sweep_calculate; it overflows above 2047. */
    function NewPeriod(): (p: u16) {
      if Subtract() then shadow - Delta() else (shadow + Delta()) % 0x1_0000
    }

    /** audio_sweep_calculate also remembers that it ran in negate mode. */
    function Calculated(): Sweep {
      this.(negateUsed := negateUsed || Subtract())
    }
  }

  /** The volume envelope of channel 1, 2 or 4. */
  datatype Envelope = Envelope(volume: nat, timer: nat) {
    /** audio_clock_one_envelope. */
    function Clock(nrx2: u8): Envelope {
      if nrx2 % 8 == 0 then this
      else if timer > 1 then this.(timer := timer - 1)
      else
        var increase := Bit(nrx2, 3) == 1;
        Envelope(if increase && volume < 15 then volume + 1 else if !increase && volume > 0 then volume - 1 else volume,
                 nrx2 % 8)
    }
  }

  /** The envelope half of a trigger. */
  function StartEnvelope(nrx2: u8): Envelope { Envelope(nrx2 / 16, nrx2 % 8) }

  datatype Envelopes = Envelopes(one: Envelope, two: Envelope, four: Envelope)

  function ShiftRight(x: nat, k: nat): (y: nat)
    ensures y <= x
  {
    if k == 0 then x else ShiftRight(x / 2, k - 1)
  }

  /** Channel 1 with its sweep unit. */
  datatype Ch1 = Ch1(ch: Channel, sweep: Sweep) {
    /** audio_clock_sweep. */
    function ClockSweep(): Ch1 {
      var t := if sweep.timer > 0 then sweep.timer - 1 else 0;
      if t != 0 then this.(sweep := sweep.(timer := t))
      else
        var s := sweep.(timer := sweep.Reload());
        if !s.enabled || s.Pace() == 0 then this.(sweep := s) else Update(s)
    }

    /** The calculation of a sweep clock, its write-back, and the second overflow check. */
    function Update(s: Sweep): Ch1 {
      var p := s.NewPeriod();
      if p > 2047 then Ch1(ch.(active := false), s.Calculated())
      else if s.Shift() == 0 then this.(sweep := s.Calculated())
      else
        var s' := s.Calculated().(shadow := p);
        var written := ch.(low := p % 0x100, control := ch.control / 8 * 8 + p / 0x100 % 8);
        Ch1(written.(active := ch.active && s'.NewPeriod() <= 2047), s')
    }

    /** audio_trigger_ch1. */
    function Trigger(oddStep: bool): Ch1 {
      var c := ch.Trigger(64, oddStep);
      var s := sweep.(shadow := c.Period(), timer := sweep.Reload(),
                      enabled := sweep.Pace() != 0 || sweep.Shift() != 0, negateUsed := false);
      var s' := if s.Shift() != 0 then s.Calculated() else s;
      Ch1(c.(active := (s.Shift() == 0 || s.NewPeriod() <= 2047) && DacOn(c.nrx2)), s')
    }

    /** An NR10 write: leaving negate mode after it was used switches the channel off. */
    function WriteNr10(value: u8): Ch1 {
      var leavesNegate := sweep.Subtract() && Bit(value, 3) == 0 && sweep.negateUsed;
      Ch1(ch.(active := ch.active && !leavesNegate), sweep.(nr10 := value))
    }
  }

  /** NR52 is held as its master bit and the four `active` bits; bits 4-6 are always ones. */
  datatype ApuState = ApuState(power: bool, one: Ch1, two: Channel, three: Channel, four: Channel,
                               env: Envelopes, seqStep: nat, prevBit: bool) {
    predicate OddStep() { seqStep % 2 == 1 }

    /** audio_clock_length. */
    function ClockLengths(): ApuState {
      this.(one := one.(ch := one.ch.ClockLength()), two := two.ClockLength(),
            three := three.ClockLength(), four := four.ClockLength())
    }

    /** audio_clock_envelope. */
    function ClockEnvelopes(): ApuState {
      this.(env := Envelopes(env.one.Clock(one.ch.nrx2), env.two.Clock(two.nrx2), env.four.Clock(four.nrx2)))
    }

    /** audio_frame_sequencer_step. */
    function Sequence(): ApuState {
      var s :=
        if seqStep == 0 || seqStep == 4 then ClockLengths()
        else if seqStep == 2 || seqStep == 6 then ClockLengths().SweepOne()
        else if seqStep == 7 then ClockEnvelopes()
        else this;
      s.(seqStep := (seqStep + 1) % 8)
    }

    function SweepOne(): ApuState { this.(one := one.ClockSweep()) }

    /** The sequencer part of audio_tick: it steps on a falling edge of DIV bit 4 as sampled. */
    function Sample(divRegister: u8): ApuState {
      var bit := Bit(divRegister, 4) == 1;
      (if prevBit && !bit then Sequence() else this).(prevBit := bit)
    }

    /** An NR52 write. */
    function WritePower(value: u8): ApuState {
      if Bit(value, 7) == 1 then this.(power := true, seqStep := if power then seqStep else 0)
      else
        ApuState(false, Ch1(one.ch.Cleared(), one.sweep.(nr10 := 0)), two.Cleared(), three.Cleared(), four.Cleared(),
                 env, seqStep, prevBit)
    }

    /** A length load, NRx1; it works even while powered off. */
    function LoadLength(addr: u16, value: u8): ApuState {
      match addr
      case 0xFF11 => this.(one := one.(ch := one.ch.(length := 64 - value % 64)))
      case 0xFF16 => this.(two := two.(length := 64 - value % 64))
      case 0xFF1B => this.(three := three.(length := 256 - value))
      case 0xFF20 => this.(four := four.(length := 64 - value % 64))
      case _ => this
    }

    /** audio_write. */
    function Write(addr: u16, value: u8): ApuState {
      if !power && addr != 0xFF26 then LoadLength(addr, value)
      else
        var newEnabled, triggering := Bit(value, 6) == 1, Bit(value, 7) == 1;
        match addr
        case 0xFF10 => this.(one := one.WriteNr10(value))
        case 0xFF12 => this.(one := one.(ch := one.ch.(nrx2 := value).Gate(DacOn(value))))
        case 0xFF13 => this.(one := one.(ch := one.ch.(low := value)))
        case 0xFF14 =>
          var c := one.ch.(control := StoredControl(value));
          var x := one.(ch := c.EnableQuirk(one.ch.LengthEnabled(), newEnabled, triggering, OddStep()));
          if triggering then this.(one := x.Trigger(OddStep()), env := env.(one := StartEnvelope(one.ch.nrx2)))
          else this.(one := x)
        case 0xFF17 => this.(two := two.(nrx2 := value).Gate(DacOn(value)))
        case 0xFF18 => this.(two := two.(low := value))
        case 0xFF19 =>
          this.(two := Control(two, StoredControl(value), newEnabled, triggering, 64, DacOn(two.nrx2)),
                env := if triggering then env.(two := StartEnvelope(two.nrx2)) else env)
        case 0xFF1A => this.(three := three.(nrx2 := value).Gate(WaveDacOn(value)))
        case 0xFF1D => this.(three := three.(low := value))
        case 0xFF1E =>
          this.(three := Control(three, StoredControl(value), newEnabled, triggering, 256, WaveDacOn(three.nrx2)))
        case 0xFF21 => this.(four := four.(nrx2 := value).Gate(DacOn(value)))
        case 0xFF22 => this.(four := four.(low := value))
        case 0xFF23 =>
          this.(four := Control(four, StoredNoiseControl(value), newEnabled, triggering, 64, DacOn(four.nrx2)),
                env := if triggering then env.(four := StartEnvelope(four.nrx2)) else env)
        case 0xFF26 => WritePower(value)
        case _ => LoadLength(addr, value)
    }

    /** An NRx4 write to a channel without sweep: store, quirk, then trigger and DAC gate. */
    function Control(c: Channel, stored: u8, newEnabled: bool, triggering: bool, max: nat, dacOn: bool): Channel
      requires 0 < max <= 0x100
    {
      var q := c.(control := stored).EnableQuirk(c.LengthEnabled(), newEnabled, triggering, OddStep());
      if triggering then q.Trigger(max, OddStep()).Gate(dacOn) else q
    }
  }

  /** audio_init; it leaves the record of negate mode as it finds it. */
  function Boot(negateUsed: bool): ApuState {
    ApuState(true,
             Ch1(Channel(true, 0, 0xF3, 0xFF, 0xBF), Sweep(0x80, 0, 0, false, negateUsed)),
             Channel(false, 0, 0x00, 0xFF, 0xBF), Channel(false, 0, 0x7F, 0xFF, 0xBF),
             Channel(false, 0, 0x00, 0x00, 0xBF),
             Envelopes(Envelope(0, 0), Envelope(0, 0), Envelope(0, 0)), 0, false)
  }

  // ---------------------------------------------------------------------------
  // Generators under writes and ticks
  // ---------------------------------------------------------------------------

  datatype Gens = Gens(one: Wave, two: Wave, three: Wave, four: Noise)

  /** Reload values of the period timers, from the registers as they stand. */
  function PulseReload(c: Channel): (r: nat) ensures r >= 4 { (2048 - c.Period()) * 4 }
  function WaveReload(c: Channel): (r: nat) ensures r >= 2 { (2048 - c.Period()) * 2 }

  /** `divisor << shift`, from NR43. */
  function NoiseReload(c: Channel): (r: nat)
    ensures r >= 8
  {
    ShiftLeft(if c.low % 8 == 0 then 8 else c.low % 8 * 16, c.low / 16)
  }

  function ShiftLeft(x: nat, k: nat): (y: nat)
    ensures y >= x
    decreases k
  {
    if k == 0 then x else ShiftLeft(x * 2, k - 1)
  }

  predicate NarrowNoise(c: Channel) { Bit(c.low, 3) == 1 }

  /** What a write does to the generators: only a trigger touches them. `s` is the state after the write. */
  function Retrigger(g: Gens, s: ApuState, addr: u16, value: u8): Gens {
    if !s.power || Bit(value, 7) == 0 then g
    else
      match addr
      case 0xFF14 => g.(one := g.one.(timer := PulseReload(s.one.ch)))
      case 0xFF19 => g.(two := g.two.(timer := PulseReload(s.two)))
      case 0xFF1E => g.(three := Wave(WaveReload(s.three), 0))
      case 0xFF23 => g.(four := Noise(NoiseReload(s.four), 0x7FFF))
      case _ => g
  }

  /** The generators after `cycles` with the registers of `s`. */
  function Generate(g: Gens, s: ApuState, cycles: nat): Gens {
    Gens(Advance(g.one, PulseReload(s.one.ch), 8, cycles), Advance(g.two, PulseReload(s.two), 8, cycles),
         Advance(g.three, WaveReload(s.three), 32, cycles),
         AdvanceNoise(g.four, NoiseReload(s.four), NarrowNoise(s.four), cycles))
  }

  // ---------------------------------------------------------------------------
  // The in-place registers
  // ---------------------------------------------------------------------------

  class ApuRegs {
    var power: bool
    var ch1: Channel
    var sweep: Sweep
    var ch2: Channel
    var ch3: Channel
    var ch4: Channel
    var env1: Envelope
    var env2: Envelope
    var env4: Envelope
    var seqStep: nat
    var prevBit: bool
    var gens: Gens
    var ch3JustTicked: bool
    var sampleAcc: nat
    var samplesStaged: nat

    ghost predicate Valid()
      reads this
    {
      seqStep < 8 && sampleAcc < CPU_CLOCK_HZ && gens.one.pos < 8 && gens.two.pos < 8 && gens.three.pos < 32
    }

    ghost function View(): ApuState
      reads this
    {
      ApuState(power, Ch1(ch1, sweep), ch2, ch3, ch4, Envelopes(env1, env2, env4), seqStep, prevBit)
    }

    /** audio_init. */
    constructor (negateUsed: bool)
      ensures Valid() && View() == Boot(negateUsed)
      ensures gens == Gens(Wave(0, 0), Wave(0, 0), Wave(0, 0), Noise(0, 0x7FFF))
      ensures !ch3JustTicked && sampleAcc == 0 && samplesStaged == 0
    {
      power, ch1, sweep := true, Channel(true, 0, 0xF3, 0xFF, 0xBF), Sweep(0x80, 0, 0, false, negateUsed);
      ch2, ch3 := Channel(false, 0, 0x00, 0xFF, 0xBF), Channel(false, 0, 0x7F, 0xFF, 0xBF);
      ch4 := Channel(false, 0, 0x00, 0x00, 0xBF);
      env1, env2, env4, seqStep, prevBit := Envelope(0, 0), Envelope(0, 0), Envelope(0, 0), 0, false;
      gens := Gens(Wave(0, 0), Wave(0, 0), Wave(0, 0), Noise(0, 0x7FFF));
      ch3JustTicked, sampleAcc, samplesStaged := false, 0, 0;
    }

    /** audio_write. */
    method Write(addr: u16, value: u8)
      requires Valid()
      modifies this
      ensures Valid() && View() == old(View()).Write(addr, value)
      ensures gens == (if old(power) then Retrigger(old(gens), View(), addr, value) else old(gens))
      ensures ch3JustTicked == old(ch3JustTicked)
      ensures sampleAcc == old(sampleAcc) && samplesStaged == old(samplesStaged)
    {
      hide Ch1.Trigger, Channel.Trigger, Channel.EnableQuirk, StoredControl, StoredNoiseControl, ApuState.WritePower;
      hide PulseReload, WaveReload, NoiseReload, Bit, DacOn, WaveDacOn, StartEnvelope, ApuState.LoadLength;
      if !power && addr != 0xFF26 {
        LoadLength(addr, value);
        return;
      }
      match addr
      case 0xFF10 =>
        var oldNegate := Bit(sweep.nr10, 3) == 1;
        sweep := sweep.(nr10 := value);
        var newNegate := Bit(value, 3) == 1;
        if oldNegate && !newNegate && sweep.negateUsed {
          ch1 := ch1.(active := false);
        }
      case 0xFF12 =>
        ch1 := ch1.(nrx2 := value);
        if !DacOn(value) {
          ch1 := ch1.(active := false);
        }
      case 0xFF13 =>
        ch1 := ch1.(low := value);
      case 0xFF14 =>
        WriteNr14(value);
      case 0xFF17 =>
        ch2 := ch2.(nrx2 := value);
        if !DacOn(value) {
          ch2 := ch2.(active := false);
        }
      case 0xFF18 =>
        ch2 := ch2.(low := value);
      case 0xFF19 =>
        WriteNr24(value);
      case 0xFF1A =>
        ch3 := ch3.(nrx2 := value);
        if !WaveDacOn(value) {
          ch3 := ch3.(active := false);
        }
      case 0xFF1D =>
        ch3 := ch3.(low := value);
      case 0xFF1E =>
        WriteNr34(value);
      case 0xFF21 =>
        ch4 := ch4.(nrx2 := value);
        if !DacOn(value) {
          ch4 := ch4.(active := false);
        }
      case 0xFF22 =>
        ch4 := ch4.(low := value);
      case 0xFF23 =>
        WriteNr44(value);
      case 0xFF26 =>
        PowerWrite(value);
      case _ =>
        LoadLength(addr, value);
    }

    // The NRx4 writes: store, length enable quirk, trigger.

    method WriteNr14(value: u8)
      requires power && Valid()
      modifies `ch1, `sweep, `env1, `gens
      ensures Valid() && View() == old(View()).Write(0xFF14, value)
      ensures gens == Retrigger(old(gens), View(), 0xFF14, value)
    {
      hide Ch1.Trigger, Channel.Trigger, Channel.EnableQuirk, StoredControl, StoredNoiseControl, StartEnvelope;
      hide PulseReload, WaveReload, NoiseReload, Bit, DacOn, WaveDacOn, ApuState.LoadLength, ApuState.WritePower;
      ch1 := StoreControl(ch1, StoredControl(value), value);
      if Bit(value, 7) == 1 {
        TriggerCh1();
      }
    }

    method WriteNr24(value: u8)
      requires power && Valid()
      modifies `ch2, `env2, `gens
      ensures Valid() && View() == old(View()).Write(0xFF19, value)
      ensures gens == Retrigger(old(gens), View(), 0xFF19, value)
    {
      hide Ch1.Trigger, Channel.Trigger, Channel.EnableQuirk, StoredControl, StoredNoiseControl, StartEnvelope;
      hide PulseReload, WaveReload, NoiseReload, Bit, DacOn, WaveDacOn, ApuState.LoadLength, ApuState.WritePower;
      ch2 := StoreControl(ch2, StoredControl(value), value);
      if Bit(value, 7) == 1 {
        TriggerCh2();
      }
    }

    method WriteNr34(value: u8)
      requires power && Valid()
      modifies `ch3, `gens
      ensures Valid() && View() == old(View()).Write(0xFF1E, value)
      ensures gens == Retrigger(old(gens), View(), 0xFF1E, value)
    {
      hide Ch1.Trigger, Channel.Trigger, Channel.EnableQuirk, StoredControl, StoredNoiseControl, StartEnvelope;
      hide PulseReload, WaveReload, NoiseReload, Bit, DacOn, WaveDacOn, ApuState.LoadLength, ApuState.WritePower;
      ch3 := StoreControl(ch3, StoredControl(value), value);
      if Bit(value, 7) == 1 {
        TriggerCh3();
      }
    }

    method WriteNr44(value: u8)
      requires power && Valid()
      modifies `ch4, `env4, `gens
      ensures Valid() && View() == old(View()).Write(0xFF23, value)
      ensures gens == Retrigger(old(gens), View(), 0xFF23, value)
    {
      hide Ch1.Trigger, Channel.Trigger, Channel.EnableQuirk, StoredControl, StoredNoiseControl, StartEnvelope;
      hide PulseReload, WaveReload, NoiseReload, Bit, DacOn, WaveDacOn, ApuState.LoadLength, ApuState.WritePower;
      ch4 := StoreControl(ch4, StoredNoiseControl(value), value);
      if Bit(value, 7) == 1 {
        TriggerCh4();
      }
    }

    method LoadLength(addr: u16, value: u8)
      modifies `ch1, `ch2, `ch3, `ch4
      ensures View() == old(View()).LoadLength(addr, value)
    {
      match addr
      case 0xFF11 => ch1 := ch1.(length := 64 - value % 64);
      case 0xFF16 => ch2 := ch2.(length := 64 - value % 64);
      case 0xFF1B => ch3 := ch3.(length := 256 - value);
      case 0xFF20 => ch4 := ch4.(length := 64 - value % 64);
      case _ =>
    }

    method PowerWrite(value: u8)
      requires seqStep < 8
      modifies `power, `ch1, `sweep, `ch2, `ch3, `ch4, `seqStep
      ensures View() == old(View()).WritePower(value) && seqStep < 8
    {
      var wasOn := power;
      var audioOn := Bit(value, 7) == 1;
      power := audioOn;
      if audioOn && !wasOn {
        seqStep := 0;
      }
      if !audioOn {
        ch1 := Channel(false, ch1.length, 0, 0, 0);
        sweep := sweep.(nr10 := 0);
        ch2 := Channel(false, ch2.length, 0, 0, 0);
        ch3 := Channel(false, ch3.length, 0, 0, 0);
        ch4 := Channel(false, ch4.length, 0, 0, 0);
      }
    }

    /** The common head of an NRx4 write: store the byte, then the length enable quirk. */
    method StoreControl(c: Channel, stored: u8, value: u8) returns (r: Channel)
      ensures r == c.(control := stored).EnableQuirk(c.LengthEnabled(), Bit(value, 6) == 1, Bit(value, 7) == 1,
                                                     seqStep % 2 == 1)
    {
      var oldEnabled := Bit(c.control, 6) == 1;
      r := c.(control := stored);
      if oldEnabled || Bit(value, 6) != 1 {
        return;
      }
      if seqStep % 2 != 1 || r.length == 0 {
        return;
      }
      r := r.(length := r.length - 1);
      if r.length == 0 && Bit(value, 7) != 1 {
        r := r.(active := false);
      }
    }

    /** The common body of the triggers of channels 2, 3 and 4. */
    method TriggerLength(c: Channel, max: nat, dacOn: bool) returns (r: Channel)
      requires 0 < max <= 0x100
      ensures r == c.Trigger(max, seqStep % 2 == 1).Gate(dacOn) && r.nrx2 == c.nrx2
    {
      r := c.(active := true);
      if r.length == 0 {
        r := r.(length := max);
        if r.LengthEnabled() && seqStep % 2 == 1 {
          r := r.(length := r.length - 1);
        }
      }
      if !dacOn {
        r := r.(active := false);
      }
    }

    /** audio_trigger_ch1. */
    method TriggerCh1()
      modifies `ch1, `sweep, `env1, `gens
      ensures Ch1(ch1, sweep) == old(Ch1(ch1, sweep)).Trigger(seqStep % 2 == 1)
      ensures env1 == StartEnvelope(old(ch1.nrx2))
      ensures gens == old(gens).(one := old(gens).one.(timer := PulseReload(ch1)))
    {
      ch1 := TriggerLength(ch1, 64, true);
      env1 := StartEnvelope(ch1.nrx2);
      var period := ch1.Period();
      gens := gens.(one := gens.one.(timer := (2048 - period) * 4));
      sweep := sweep.(shadow := period, timer := sweep.Reload(),
                      enabled := sweep.Pace() != 0 || sweep.Shift() != 0, negateUsed := false);
      if sweep.Shift() != 0 {
        var overflow := sweep.NewPeriod() > 2047;
        sweep := sweep.Calculated();
        if overflow {
          ch1 := ch1.(active := false);
        }
      }
      if !DacOn(ch1.nrx2) {
        ch1 := ch1.(active := false);
      }
    }

    /** audio_trigger_ch2. */
    method TriggerCh2()
      modifies `ch2, `env2, `gens
      ensures ch2 == old(ch2).Trigger(64, seqStep % 2 == 1).Gate(DacOn(old(ch2.nrx2)))
      ensures env2 == StartEnvelope(old(ch2.nrx2))
      ensures gens == old(gens).(two := old(gens).two.(timer := PulseReload(ch2)))
    {
      ch2 := TriggerLength(ch2, 64, DacOn(ch2.nrx2));
      env2 := StartEnvelope(ch2.nrx2);
      gens := gens.(two := gens.two.(timer := PulseReload(ch2)));
    }

    /** audio_trigger_ch3, without its corruption of wave RAM. */
    method TriggerCh3()
      modifies `ch3, `gens
      ensures ch3 == old(ch3).Trigger(256, seqStep % 2 == 1).Gate(WaveDacOn(old(ch3.nrx2)))
      ensures gens == old(gens).(three := Wave(WaveReload(ch3), 0))
    {
      ch3 := TriggerLength(ch3, 256, WaveDacOn(ch3.nrx2));
      gens := gens.(three := Wave(WaveReload(ch3), 0));
    }

    /** audio_trigger_ch4. */
    method TriggerCh4()
      modifies `ch4, `env4, `gens
      ensures ch4 == old(ch4).Trigger(64, seqStep % 2 == 1).Gate(DacOn(old(ch4.nrx2)))
      ensures env4 == StartEnvelope(old(ch4.nrx2))
      ensures gens == old(gens).(four := Noise(NoiseReload(ch4), 0x7FFF))
    {
      ch4 := TriggerLength(ch4, 64, DacOn(ch4.nrx2));
      env4 := StartEnvelope(ch4.nrx2);
      gens := gens.(four := Noise(NoiseReload(ch4), 0x7FFF));
    }

    /** audio_tick. */
    method Tick(cycles: nat, divRegister: u8)
      requires Valid()
      modifies this
      ensures Valid() && View() == old(View()).Sample(divRegister)
      ensures gens == Generate(old(gens), View(), cycles)
      ensures ch3JustTicked == (Reloads(old(gens).three.timer, WaveReload(ch3), cycles) > 0)
      ensures sampleAcc == Accumulate(old(sampleAcc), cycles)
      ensures samplesStaged == old(samplesStaged) + Samples(old(sampleAcc), cycles)
    {
      hide ApuState.Sequence, Advance, AdvanceNoise, Reloads, Bit;
      var bit := Bit(divRegister, 4) == 1;
      if prevBit && !bit {
        FrameSequencerStep();
      }
      prevBit := bit;
      StepChannels(cycles);
      var acc, samples := SampleClock(sampleAcc, cycles);
      sampleAcc, samplesStaged := acc, samplesStaged + samples;
    }

    /** audio_step_ch1 to audio_step_ch4. */
    method StepChannels(cycles: nat)
      requires gens.one.pos < 8 && gens.two.pos < 8 && gens.three.pos < 32
      modifies `gens, `ch3JustTicked
      ensures gens == Generate(old(gens), View(), cycles)
      ensures gens.one.pos < 8 && gens.two.pos < 8 && gens.three.pos < 32
      ensures ch3JustTicked == (Reloads(old(gens).three.timer, WaveReload(ch3), cycles) > 0)
    {
      hide Advance, AdvanceNoise, Reloads;
      var one, _ := StepWave(gens.one, PulseReload(ch1), 8, cycles);
      var two, _ := StepWave(gens.two, PulseReload(ch2), 8, cycles);
      var three, ticked := StepWave(gens.three, WaveReload(ch3), 32, cycles);
      var four := StepNoise(gens.four, NoiseReload(ch4), NarrowNoise(ch4), cycles);
      gens, ch3JustTicked := Gens(one, two, three, four), ticked;
    }

    /** audio_frame_sequencer_step. */
    method FrameSequencerStep()
      requires seqStep < 8
      modifies `ch1, `sweep, `ch2, `ch3, `ch4, `env1, `env2, `env4, `seqStep
      ensures View() == old(View()).Sequence() && seqStep < 8
    {
      hide Ch1.ClockSweep, Channel.ClockLength, Envelope.Clock;
      match seqStep {
        case 0 | 4 =>
          ClockLength();
        case 2 | 6 =>
          ClockLength();
          ClockSweep();
        case 7 =>
          ClockEnvelope();
        case _ =>
      }
      seqStep := (seqStep + 1) % 8;
    }

    /** audio_clock_length. */
    method ClockLength()
      modifies `ch1, `ch2, `ch3, `ch4
      ensures View() == old(View()).ClockLengths()
    {
      ch1 := ClockOneLength(ch1);
      ch2 := ClockOneLength(ch2);
      ch3 := ClockOneLength(ch3);
      ch4 := ClockOneLength(ch4);
    }

    /** audio_clock_envelope. */
    method ClockEnvelope()
      modifies `env1, `env2, `env4
      ensures View() == old(View()).ClockEnvelopes()
    {
      env1 := ClockOneEnvelope(env1, ch1.nrx2);
      env2 := ClockOneEnvelope(env2, ch2.nrx2);
      env4 := ClockOneEnvelope(env4, ch4.nrx2);
    }

    /** audio_clock_one_length. */
    method ClockOneLength(c: Channel) returns (r: Channel)
      ensures r == c.ClockLength()
    {
      r := c;
      if !c.LengthEnabled() || c.length == 0 {
        return;
      }
      r := r.(length := r.length - 1);
      if r.length == 0 {
        r := r.(active := false);
      }
    }

    /** audio_clock_one_envelope. */
    method ClockOneEnvelope(e: Envelope, nrx2: u8) returns (r: Envelope)
      ensures r == e.Clock(nrx2)
    {
      r := e;
      if nrx2 % 8 == 0 {
        return;
      }
      if r.timer > 0 {
        r := r.(timer := r.timer - 1);
      }
      if r.timer != 0 {
        return;
      }
      r := r.(timer := nrx2 % 8);
      var increase := Bit(nrx2, 3) == 1;
      if increase && r.volume < 15 {
        r := r.(volume := r.volume + 1);
      } else if !increase && r.volume > 0 {
        r := r.(volume := r.volume - 1);
      }
    }

    /** audio_clock_sweep. */
    method ClockSweep()
      modifies `ch1, `sweep
      ensures Ch1(ch1, sweep) == old(Ch1(ch1, sweep)).ClockSweep()
    {
      if sweep.timer > 0 {
        sweep := sweep.(timer := sweep.timer - 1);
      }
      if sweep.timer != 0 {
        return;
      }
      sweep := sweep.(timer := sweep.Reload());
      if !sweep.enabled || sweep.Pace() == 0 {
        return;
      }
      var newPeriod := sweep.NewPeriod();
      sweep := sweep.Calculated();
      if newPeriod > 2047 {
        ch1 := ch1.(active := false);
        return;
      }
      if sweep.Shift() != 0 {
        sweep := sweep.(shadow := newPeriod);
        ch1 := ch1.(low := newPeriod % 0x100);
        ch1 := ch1.(control := ch1.control / 8 * 8 + newPeriod / 0x100 % 8);
        var second := sweep.NewPeriod();
        sweep := sweep.Calculated();
        if second > 2047 {
          ch1 := ch1.(active := false);
        }
      }
    }
  }
}
