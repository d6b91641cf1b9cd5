/**
 The frame sequencer of src/io/audio.c against the divider: which clocks reach the length counters, the
 sweep and the envelopes over any run of ticks.
 */
module SequencerLaws {
  import opened Bytes
  import opened Apu
  import opened ApuLaws
  import DivMod

  const DIV_SIZE := 0x1_0000
  const SEQUENCER_PERIOD := 8192

  /** Bit 4 of the DIV register, as a phase of the 16-bit divider behind it. */
  predicate High(d: u16) { Bit(d / 0x100, 4) == 1 }

  lemma HalfPhase(d: nat)
    ensures d / 4096 % 2 == 1 <==> d % SEQUENCER_PERIOD >= SEQUENCER_PERIOD / 2
  {
    var q, r := d / 4096, d % 4096;
    DivMod.Unique(d, 8192, q / 2, q % 2 * 4096 + r);
  }

  lemma HighIsUpperHalf(d: u16)
    ensures High(d) <==> d % SEQUENCER_PERIOD >= SEQUENCER_PERIOD / 2
  {
    var b := d / 0x100;
    var b1 := b / 2; var b2 := b1 / 2; var b3 := b2 / 2; var b4 := b3 / 2;
    assert Bit(b, 4) == Bit(b1, 3) == Bit(b2, 2) == Bit(b3, 1) == Bit(b4, 0) == b4 % 2;
    assert b4 == d / 4096;
    hide Bit;
    HalfPhase(d);
  }

  /** The divider `n` cycles later. */
  function After(d: u16, n: nat): u16 { (d + n) % DIV_SIZE }

  /** One clock tick: the timer moves the divider first, then the APU samples it. */
  function TickOnce(s: ApuState, d: u16, cycles: nat): (ApuState, u16) {
    var d' := After(d, cycles);
    (s.Sample(d' / 0x100), d')
  }

  function Ticks(s: ApuState, d: u16, ticks: seq<nat>): (ApuState, u16)
    decreases |ticks|
  {
    if ticks == [] then (s, d)
    else
      var (s', d') := TickOnce(s, d, ticks[0]);
      Ticks(s', d', ticks[1..])
  }

  function Sum(ticks: seq<nat>): nat
    decreases |ticks|
  {
    if ticks == [] then 0 else ticks[0] + Sum(ticks[1..])
  }

  // ---------------------------------------------------------------------------
  // What a number of sequencer steps amounts to
  // ---------------------------------------------------------------------------

  /** Even steps, which clock the lengths, among `runs` from `step`. */
  function LengthRuns(step: nat, runs: nat): nat { (step + runs + 1) / 2 - (step + 1) / 2 }

  /** Steps 2 and 6, which clock the sweep. */
  function SweepRuns(step: nat, runs: nat): nat { (step + runs + 1) / 4 - (step + 1) / 4 }

  /** Steps 7, which clock the envelopes. */
  function EnvelopeRuns(step: nat, runs: nat): nat { (step + runs) / 8 - step / 8 }

  /** A channel after `k` length clocks. */
  function Clocked(c: Channel, k: nat): Channel {
    if !c.LengthEnabled() || c.length == 0 || k == 0 then c
    else if k < c.length then c.(length := c.length - k)
    else c.(length := 0, active := false)
  }

  /** Channel 1 after `k` length clocks and `m` sweep clocks: the two units do not disturb each other. */
  function BothClocked(x: Ch1, k: nat, m: nat): Ch1 {
    var c, y := Clocked(x.ch, k), SweepClocks(x, m);
    Ch1(y.ch.(length := c.length, active := c.active && y.ch.active), y.sweep)
  }

  /** The envelopes after `e` clocks of each. */
  function Faded(s: ApuState, e: nat): Envelopes {
    Envelopes(EnvelopeClocks(s.env.one, s.one.ch.nrx2, e), EnvelopeClocks(s.env.two, s.two.nrx2, e),
              EnvelopeClocks(s.env.four, s.four.nrx2, e))
  }

  /** The whole state after `runs` sequencer steps, each unit clocked on its own. */
  function Sequenced(s: ApuState, runs: nat): ApuState
    requires s.seqStep < 8
  {
    var k, m, e := LengthRuns(s.seqStep, runs), SweepRuns(s.seqStep, runs), EnvelopeRuns(s.seqStep, runs);
    s.(one := BothClocked(s.one, k, m), two := Clocked(s.two, k), three := Clocked(s.three, k),
       four := Clocked(s.four, k), env := Faded(s, e), seqStep := (s.seqStep + runs) % 8)
  }

  /** Any eight steps in a row, from any phase, clock the lengths four times, the sweep twice and the envelopes once. */
  lemma EightSteps(step: nat, rounds: nat)
    ensures LengthRuns(step, 8 * rounds) == 4 * rounds
    ensures SweepRuns(step, 8 * rounds) == 2 * rounds
    ensures EnvelopeRuns(step, 8 * rounds) == rounds
  {
    DivMod.Shift(step + 1, 2, 4 * rounds);
    DivMod.Shift(step + 1, 4, 2 * rounds);
    DivMod.Shift(step, 8, rounds);
  }

  lemma StepsAdd(step: nat, a: nat, b: nat)
    requires step < 8
    ensures LengthRuns(step, a + b) == LengthRuns(step, a) + LengthRuns((step + a) % 8, b)
    ensures SweepRuns(step, a + b) == SweepRuns(step, a) + SweepRuns((step + a) % 8, b)
    ensures EnvelopeRuns(step, a + b) == EnvelopeRuns(step, a) + EnvelopeRuns((step + a) % 8, b)
    ensures ((step + a) % 8 + b) % 8 == (step + a + b) % 8
  {
    var n := step + a;
    var q, r := n / 8, n % 8;
    assert r == n - 8 * q;
    DivMod.Shift(n + b + 1, 2, -4 * q);
    DivMod.Shift(n + 1, 2, -4 * q);
    DivMod.Shift(n + b + 1, 4, -2 * q);
    DivMod.Shift(n + 1, 4, -2 * q);
    DivMod.Shift(n + b, 8, -q);
  }

  lemma ClockedAdds(c: Channel, a: nat, b: nat)
    ensures Clocked(Clocked(c, a), b) == Clocked(c, a + b)
  {
    hide Bit;
  }

  lemma {:induction false} EnvelopeClocksAdd(e: Envelope, nrx2: u8, a: nat, b: nat)
    ensures EnvelopeClocks(EnvelopeClocks(e, nrx2, a), nrx2, b) == EnvelopeClocks(e, nrx2, a + b)
  {
    hide Envelope.Clock;
    if b > 0 {
      EnvelopeClocksAdd(e, nrx2, a, b - 1);
    }
  }

  lemma {:induction false} SweepClocksAdd(x: Ch1, a: nat, b: nat)
    ensures SweepClocks(SweepClocks(x, a), b) == SweepClocks(x, a + b)
  {
    hide Ch1.ClockSweep;
    if b > 0 {
      SweepClocksAdd(x, a, b - 1);
    }
  }

  /** Channel 1 with another counter, and active or not. */
  function Recounted(x: Ch1, length: u16, active: bool): Ch1 { x.(ch := x.ch.(length := length, active := active)) }

  lemma OneSweepIgnoresLength(x: Ch1, length: u16, active: bool)
    requires active ==> x.ch.active
    ensures Recounted(x, length, active).ClockSweep()
            == Recounted(x.ClockSweep(), length, active && x.ClockSweep().ch.active)
    ensures x.ClockSweep().ch.active ==> x.ch.active
    ensures x.ClockSweep().ch.nrx2 == x.ch.nrx2
  {
    hide Sweep.NewPeriod;
  }

  /** The sweep neither reads nor counts the length, and only ever switches the channel off. */
  lemma {:induction false} SweepIgnoresLength(x: Ch1, length: u16, active: bool, m: nat)
    requires active ==> x.ch.active
    ensures var y := SweepClocks(x, m);
      && SweepClocks(Recounted(x, length, active), m) == Recounted(y, length, active && y.ch.active)
      && (y.ch.active ==> x.ch.active) && y.ch.length == x.ch.length && y.ch.nrx2 == x.ch.nrx2
      && y.ch.LengthEnabled() == x.ch.LengthEnabled()
  {
    hide Ch1.ClockSweep, Channel.LengthEnabled;
    if m > 0 {
      var y := SweepClocks(x, m - 1);
      SweepIgnoresLength(x, length, active, m - 1);
      OneSweepIgnoresLength(y, length, active && y.ch.active);
      SweepKeepsLength(y);
    }
  }

  lemma BothClockedAdds(x: Ch1, a: nat, b: nat, m: nat, n: nat)
    ensures BothClocked(BothClocked(x, a, m), b, n) == BothClocked(x, a + b, m + n)
    ensures BothClocked(x, a, m).ch.nrx2 == x.ch.nrx2
  {
    hide SweepClocks, Bit, Clocked;
    var c, y, z := Clocked(x.ch, a), SweepClocks(x, m), BothClocked(x, a, m);
    SweepIgnoresLength(x, x.ch.length, x.ch.active, m);
    SweepIgnoresLength(y, c.length, c.active && y.ch.active, n);
    SweepClocksAdd(x, m, n);
    assert z == Recounted(y, c.length, c.active && y.ch.active);
    ClockedTwice(x.ch, z.ch, a, b);
  }

  /** Another channel with the same counter goes on counting the same. */
  lemma ClockedTwice(c: Channel, d: Channel, a: nat, b: nat)
    requires d.LengthEnabled() == c.LengthEnabled() && d.length == Clocked(c, a).length
    requires d.active ==> Clocked(c, a).active
    ensures Clocked(d, b).length == Clocked(c, a + b).length
    ensures Clocked(d, b).active == (d.active && Clocked(c, a + b).active)
    ensures Clocked(c, a + b).active ==> Clocked(c, a).active
  {
    hide Channel.LengthEnabled;
  }

  lemma SequencedAdds(s: ApuState, a: nat, b: nat)
    requires s.seqStep < 8
    ensures Sequenced(Sequenced(s, a), b) == Sequenced(s, a + b)
  {
    hide Clocked, BothClocked, EnvelopeClocks, LengthRuns, SweepRuns, EnvelopeRuns;
    var t := Sequenced(s, a);
    var k, m, e := LengthRuns(s.seqStep, a), SweepRuns(s.seqStep, a), EnvelopeRuns(s.seqStep, a);
    var k', m', e' := LengthRuns(t.seqStep, b), SweepRuns(t.seqStep, b), EnvelopeRuns(t.seqStep, b);
    StepsAdd(s.seqStep, a, b);
    BothClockedAdds(s.one, k, k', m, m');
    ClockedAdds(s.two, k, k');
    ClockedAdds(s.three, k, k');
    ClockedAdds(s.four, k, k');
    ClockedKeepsNrx2(s.two, k);
    ClockedKeepsNrx2(s.four, k);
    EnvelopeClocksAdd(s.env.one, s.one.ch.nrx2, e, e');
    EnvelopeClocksAdd(s.env.two, s.two.nrx2, e, e');
    EnvelopeClocksAdd(s.env.four, s.four.nrx2, e, e');
  }

  lemma ClockedKeepsNrx2(c: Channel, k: nat)
    ensures Clocked(c, k).nrx2 == c.nrx2
  {
    hide Channel.LengthEnabled;
  }

  lemma BothClockedOnce(x: Ch1)
    ensures BothClocked(x, 0, 0) == x
    ensures BothClocked(x, 1, 0) == x.(ch := x.ch.ClockLength())
    ensures BothClocked(x, 1, 1) == x.(ch := x.ch.ClockLength()).ClockSweep()
  {
    hide Ch1.ClockSweep, Channel.LengthEnabled;
    var c := x.ch.ClockLength();
    assert c == Clocked(x.ch, 1);
    assert SweepClocks(x, 0) == x && SweepClocks(x, 1) == x.ClockSweep();
    OneSweepIgnoresLength(x, c.length, c.active);
    assert Recounted(x, c.length, c.active) == x.(ch := c);
    SweepKeepsLength(x);
  }

  lemma NoSteps(s: ApuState)
    requires s.seqStep < 8
    ensures Sequenced(s, 0) == s
  {
    hide BothClocked, Clocked, Faded, LengthRuns, SweepRuns, EnvelopeRuns;
    BothClockedOnce(s.one);
    ClockedOnce(s.two);
    ClockedOnce(s.three);
    ClockedOnce(s.four);
    EnvelopesOnce(s);
    NoUnits(s.seqStep);
  }

  lemma OneStep(s: ApuState)
    requires s.seqStep < 8
    ensures Sequenced(s, 1) == s.Sequence()
  {
    hide BothClocked, Clocked, Faded, Ch1.ClockSweep, Channel.ClockLength, Envelope.Clock;
    hide LengthRuns, SweepRuns, EnvelopeRuns, Bit, SweepClocks, EnvelopeClocks;
    BothClockedOnce(s.one);
    ClockedOnce(s.two);
    ClockedOnce(s.three);
    ClockedOnce(s.four);
    EnvelopesOnce(s);
    NoUnits(s.seqStep);
    LengthStep(s.seqStep);
    SweepStep(s.seqStep);
    EnvelopeStep(s.seqStep);
  }

  lemma ClockedOnce(c: Channel)
    ensures Clocked(c, 0) == c && Clocked(c, 1) == c.ClockLength()
  {
    hide Channel.LengthEnabled;
  }

  lemma EnvelopesOnce(s: ApuState)
    ensures Faded(s, 0) == s.env && Faded(s, 1) == s.ClockEnvelopes().env
  {
    hide Envelope.Clock;
    assert EnvelopeClocks(s.env.one, s.one.ch.nrx2, 0) == s.env.one;
    assert EnvelopeClocks(s.env.two, s.two.nrx2, 0) == s.env.two;
    assert EnvelopeClocks(s.env.four, s.four.nrx2, 0) == s.env.four;
  }

  lemma NoUnits(step: nat)
    ensures LengthRuns(step, 0) == SweepRuns(step, 0) == EnvelopeRuns(step, 0) == 0
  {
  }

  lemma LengthStep(step: nat)
    requires step < 8
    ensures LengthRuns(step, 1) == if step == 0 || step == 2 || step == 4 || step == 6 then 1 else 0
  {
  }

  lemma SweepStep(step: nat)
    requires step < 8
    ensures SweepRuns(step, 1) == if step == 2 || step == 6 then 1 else 0
  {
  }

  lemma EnvelopeStep(step: nat)
    requires step < 8
    ensures EnvelopeRuns(step, 1) == if step == 7 then 1 else 0
  {
  }

  // ---------------------------------------------------------------------------
  // Against the divider
  // ---------------------------------------------------------------------------

  /** Sequencer runs due over `n` cycles from divider `d`. */
  function RunsDue(d: nat, n: nat): nat {
    DivMod.Grows(d, n, SEQUENCER_PERIOD);
    (d + n) / SEQUENCER_PERIOD - d / SEQUENCER_PERIOD
  }

  /** Falling edges the APU sees over one tick: it compares two samples. */
  function EdgesSeen(d: u16, cycles: nat): nat {
    if High(d) && !High(After(d, cycles)) then 1 else 0
  }

  lemma EdgesSeenExactly(d: u16, cycles: nat)
    requires cycles <= 4096
    ensures EdgesSeen(d, cycles) == RunsDue(d, cycles)
  {
    HighIsUpperHalf(d);
    HighIsUpperHalf(After(d, cycles));
    hide High;
    assert After(d, cycles) % SEQUENCER_PERIOD == (d + cycles) % SEQUENCER_PERIOD;
  }

  /** 4096 is the exact limit: any longer tick can step over an edge of the sampled bit. */
  lemma TickLimitIsExact(cycles: nat)
    ensures (forall d: u16 :: EdgesSeen(d, cycles) == RunsDue(d, cycles)) <==> cycles <= 4096
  {
    if cycles <= 4096 {
      forall d: u16 ensures EdgesSeen(d, cycles) == RunsDue(d, cycles) {
        EdgesSeenExactly(d, cycles);
      }
    } else {
      HighIsUpperHalf(4095);
      assert EdgesSeen(4095, cycles) != RunsDue(4095, cycles);
    }
  }

  lemma RunsDueAdds(d: u16, a: nat, b: nat)
    ensures RunsDue(d, a + b) == RunsDue(d, a) + RunsDue(After(d, a), b)
    ensures After(After(d, a), b) == After(d, a + b)
    ensures RunsDue(d, 0) == 0 && After(d, 0) == d
  {
    var x, q := d + a, (d + a) / DIV_SIZE;
    DivMod.Shift(x, SEQUENCER_PERIOD, -8 * q);
    DivMod.Shift(x + b, SEQUENCER_PERIOD, -8 * q);
    DivMod.Shift(x + b, DIV_SIZE, -q);
    var r := x % DIV_SIZE;
    assert r == x - DIV_SIZE * q;
  }

  /** A tick of at most 4096 cycles runs the sequencer exactly when it crosses a multiple of 8192. */
  lemma TickRuns(s: ApuState, d: u16, cycles: nat)
    requires s.seqStep < 8 && s.prevBit == High(d) && cycles <= 4096
    ensures var d' := After(d, cycles);
      TickOnce(s, d, cycles) == (Sequenced(s, RunsDue(d, cycles)).(prevBit := High(d')), d')
  {
    hide Bit, ApuState.Sequence, RunsDue, Sequenced;
    EdgesSeenExactly(d, cycles);
    NoSteps(s);
    OneStep(s);
  }

  /** The remembered divider bit is no part of the sequencer. */
  lemma SequencedKeepsBit(s: ApuState, runs: nat, bit: bool)
    requires s.seqStep < 8
    ensures Sequenced(s.(prevBit := bit), runs) == Sequenced(s, runs).(prevBit := bit)
  {
    hide Clocked, BothClocked, EnvelopeClocks, LengthRuns, SweepRuns, EnvelopeRuns;
  }

  /**
   The frame sequencer law. Over any run of ticks of at most 4096 cycles, without writes, the sequencer
   runs floor((D+C)/8192) - floor(D/8192) times, and the state is the one in which every unit has had its
   own share of those runs: lengths on the even steps, the sweep on 2 and 6, the envelopes on 7.
   */
  lemma {:induction false} SequencerLaw(s: ApuState, d: u16, ticks: seq<nat>)
    requires s.seqStep < 8 && s.prevBit == High(d) && forall i :: 0 <= i < |ticks| ==> ticks[i] <= 4096
    ensures var d' := After(d, Sum(ticks));
      Ticks(s, d, ticks) == (Sequenced(s, RunsDue(d, Sum(ticks))).(prevBit := High(d')), d')
    decreases |ticks|
  {
    hide High, TickOnce, Sequenced, RunsDue, After;
    if ticks == [] {
      RunsDueAdds(d, 0, 0);
      NoSteps(s);
    } else {
      var n, rest := ticks[0], Sum(ticks[1..]);
      var (s', d') := TickOnce(s, d, n);
      TickRuns(s, d, n);
      SequencedStep(s, RunsDue(d, n));
      SequencerLaw(s', d', ticks[1..]);
      RunsDueAdds(d, n, rest);
      SequencedKeepsBit(Sequenced(s, RunsDue(d, n)), RunsDue(d', rest), High(d'));
      SequencedAdds(s, RunsDue(d, n), RunsDue(d', rest));
    }
  }

  lemma SequencedStep(s: ApuState, runs: nat)
    requires s.seqStep < 8
    ensures Sequenced(s, runs).seqStep < 8
  {
    hide Channel.LengthEnabled, LengthRuns, SweepRuns, EnvelopeRuns, RunsDue, Ticks, SweepClocks, EnvelopeClocks;
  }

  /**
   What the law means for a sounding channel: silent from the n-th length clock on and never before,
   except that channel 1 may be silenced earlier by its sweep.
   */
  lemma FallsSilent(s: ApuState, d: u16, ticks: seq<nat>)
    requires s.seqStep < 8 && s.prevBit == High(d) && forall i :: 0 <= i < |ticks| ==> ticks[i] <= 4096
    ensures var t, runs := Ticks(s, d, ticks).0, RunsDue(d, Sum(ticks));
      var clocks := LengthRuns(s.seqStep, runs);
      && (s.one.ch.active && s.one.ch.LengthEnabled() && s.one.ch.length > 0 ==>
            (t.one.ch.active <==> clocks < s.one.ch.length && SweepClocks(s.one, SweepRuns(s.seqStep, runs)).ch.active))
      && (s.two.active && s.two.LengthEnabled() && s.two.length > 0 ==> (t.two.active <==> clocks < s.two.length))
      && (s.three.active && s.three.LengthEnabled() && s.three.length > 0 ==>
            (t.three.active <==> clocks < s.three.length))
      && (s.four.active && s.four.LengthEnabled() && s.four.length > 0 ==> (t.four.active <==> clocks < s.four.length))
  {
    SequencerLaw(s, d, ticks);
  }
}
