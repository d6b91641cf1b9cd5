/**
 The waveform generators and the sample clock, src/io/audio.c:352-360 and 663-718: period
 timers counted down in T-cycles, the noise shift register, and the fractional accumulator.

 Each loop of the source is proved against a closed form in the elapsed cycles, and the closed
 forms are shown not to depend on how the cycles are batched.
 */
module Generators {
  import opened Bytes
  import DivMod

  const CPU_CLOCK_HZ := 4194304
  const AUDIO_SAMPLE_RATE_HZ := 44100

  // ---------------------------------------------------------------------------
  // Period timers
  // ---------------------------------------------------------------------------

  /** How often a timer reloads while it is counted down by `cycles`. */
  function Reloads(timer: int, reload: int, cycles: nat): (k: nat)
    requires reload > 0
    ensures timer - cycles + reload * k > 0
    ensures k > 0 ==> timer - cycles + reload * k <= reload
  {
    if cycles < timer then 0
    else
      var k := (cycles - timer) / reload;
      DivMod.Distribute(reload, k, 1);
      k + 1
  }

  /** A pulse or wave generator: the timer and its position among `size` steps. */
  datatype Wave = Wave(timer: int, pos: nat)

  function Advance(w: Wave, reload: int, size: int, cycles: nat): (r: Wave)
    requires reload > 0 && size > 0
    ensures 0 < r.timer && r.pos < size
    ensures cycles < w.timer || r.timer <= reload
  {
    var k := Reloads(w.timer, reload, cycles);
    Wave(w.timer - cycles + reload * k, (w.pos + k) % size)
  }

  /** audio_step_ch1, audio_step_ch2 and audio_step_ch3, which differ in reload and size only. */
  method StepWave(w: Wave, reload: int, size: int, cycles: nat) returns (r: Wave, ticked: bool)
    requires reload >= 2 && size > 0 && w.pos < size
    ensures r == Advance(w, reload, size, cycles)
    ensures ticked == (Reloads(w.timer, reload, cycles) > 0)
  {
    var timer, pos := w.timer - cycles, w.pos;
    ticked := false;
    ghost var k := 0;
    DivMod.Unique(pos, size, 0, pos);
    while timer <= 0
      invariant k >= 0 && timer == w.timer - cycles + reload * k
      invariant k > 0 ==> timer <= reload
      invariant pos == (w.pos + k) % size && pos < size && ticked == (k > 0)
      decreases -timer
    {
      DivMod.Distribute(reload, k, 1);
      DivMod.Succ(w.pos + k, size);
      timer := timer + reload;
      pos := (pos + 1) % size;
      DivMod.Succ(w.pos + k, size);
      NextPosition(w.pos + k, size);
      ticked := true;
      k := k + 1;
    }
    ReloadsAreForced(w.timer, reload, cycles, k);
    r := Wave(timer, pos);
  }

  lemma NextPosition(p: nat, size: int)
    requires size > 0
    ensures (p % size + 1) % size == (p + 1) % size
  {
    var q, r := p / size, p % size;
    if r + 1 == size {
      DivMod.Distribute(size, q, 1);
      DivMod.Unique(p + 1, size, q + 1, 0);
      DivMod.Unique(size, size, 1, 0);
    } else {
      DivMod.Unique(p + 1, size, q, r + 1);
      DivMod.Unique(r + 1, size, 0, r + 1);
    }
  }

  /** The number of reloads is the only one that leaves the timer positive and reloads no more than needed. */
  lemma ReloadsAreForced(timer: int, reload: int, cycles: nat, k: nat)
    requires reload > 0
    requires timer - cycles + reload * k > 0 && (k > 0 ==> timer - cycles + reload * k <= reload)
    ensures k == Reloads(timer, reload, cycles)
  {
    var j := Reloads(timer, reload, cycles);
    DivMod.Distribute(reload, j, k);
    DivMod.Distribute(reload, k, j);
    if j > k {
      DivMod.AtLeast(reload, j - k);
    } else if j < k {
      DivMod.AtLeast(reload, k - j);
    }
  }

  /** Counting down in two batches reloads as often as in one. */
  lemma ReloadsAdd(timer: int, reload: int, a: nat, b: nat)
    requires reload > 0
    ensures var k := Reloads(timer, reload, a);
      Reloads(timer, reload, a + b) == k + Reloads(timer - a + reload * k, reload, b)
  {
    var k := Reloads(timer, reload, a);
    var l := Reloads(timer - a + reload * k, reload, b);
    DivMod.Distribute(reload, k, l);
    if l == 0 {
      ReloadsAreForced(timer, reload, a + b, k);
    } else {
      ReloadsAreForced(timer, reload, a + b, k + l);
    }
  }

  /** However the cycles are batched, the generator ends in the same place. */
  lemma AdvanceSplits(w: Wave, reload: int, size: int, a: nat, b: nat)
    requires reload > 0 && size > 0
    ensures Advance(w, reload, size, a + b) == Advance(Advance(w, reload, size, a), reload, size, b)
  {
    var k := Reloads(w.timer, reload, a);
    var mid := Advance(w, reload, size, a);
    var l := Reloads(mid.timer, reload, b);
    ReloadsAdd(w.timer, reload, a, b);
    DivMod.Distribute(reload, k, l);
    PositionsAdd(w.pos + k, l, size);
  }

  lemma PositionsAdd(p: nat, l: nat, size: int)
    requires size > 0
    ensures (p % size + l) % size == (p + l) % size
  {
    DivMod.Shift(p % size + l, size, p / size);
  }

  // ---------------------------------------------------------------------------
  // Noise
  // ---------------------------------------------------------------------------

  /** The XOR of the two lowest bits, fed back at the top. */
  function Feedback(l: bv16): bv16 {
    (l & 1) ^ ((l >> 1) & 1)
  }

  /** One shift of the noise register; `narrow` is the 7-bit width mode. */
  function Shift(l: bv16, narrow: bool): bv16 {
    if narrow then (((l >> 1) | (Feedback(l) << 14)) & 0xFFBF) | (Feedback(l) << 6)
    else (l >> 1) | (Feedback(l) << 14)
  }

  function Shifts(l: bv16, narrow: bool, n: nat): bv16 {
    if n == 0 then l else Shift(Shifts(l, narrow, n - 1), narrow)
  }

  datatype Noise = Noise(timer: int, lfsr: bv16)

  function AdvanceNoise(g: Noise, reload: int, narrow: bool, cycles: nat): (r: Noise)
    requires reload > 0
    ensures 0 < r.timer
  {
    var k := Reloads(g.timer, reload, cycles);
    Noise(g.timer - cycles + reload * k, Shifts(g.lfsr, narrow, k))
  }

  /** The register update of audio_step_ch4, in the source's two steps. */
  method ShiftRegister(l: bv16, narrow: bool) returns (lfsr: bv16)
    ensures lfsr == Shift(l, narrow)
  {
    lfsr := (l >> 1) | (Feedback(l) << 14);
    if narrow {
      lfsr := (lfsr & 0xFFBF) | (Feedback(l) << 6);
    }
  }

  /** audio_step_ch4. */
  method StepNoise(g: Noise, reload: int, narrow: bool, cycles: nat) returns (r: Noise)
    requires reload >= 2
    ensures r == AdvanceNoise(g, reload, narrow, cycles)
  {
    hide Shift;
    var timer, lfsr := g.timer - cycles, g.lfsr;
    ghost var k := 0;
    while timer <= 0
      invariant k >= 0 && timer == g.timer - cycles + reload * k
      invariant k > 0 ==> timer <= reload
      invariant lfsr == Shifts(g.lfsr, narrow, k)
      decreases -timer
    {
      DivMod.Distribute(reload, k, 1);
      timer := timer + reload;
      lfsr := ShiftRegister(lfsr, narrow);
      k := k + 1;
    }
    ReloadsAreForced(g.timer, reload, cycles, k);
    r := Noise(timer, lfsr);
  }

  lemma {:induction false} ShiftsAdd(l: bv16, narrow: bool, a: nat, b: nat)
    ensures Shifts(l, narrow, a + b) == Shifts(Shifts(l, narrow, a), narrow, b)
  {
    hide Shift;
    if b > 0 {
      ShiftsAdd(l, narrow, a, b - 1);
    }
  }

  lemma NoiseSplits(g: Noise, reload: int, narrow: bool, a: nat, b: nat)
    requires reload > 0
    ensures AdvanceNoise(g, reload, narrow, a + b) == AdvanceNoise(AdvanceNoise(g, reload, narrow, a), reload, narrow, b)
  {
    hide Shifts;
    var k := Reloads(g.timer, reload, a);
    var l := Reloads(g.timer - a + reload * k, reload, b);
    ReloadsAdd(g.timer, reload, a, b);
    DivMod.Distribute(reload, k, l);
    ShiftsAdd(g.lfsr, narrow, k, l);
  }

  /** A 15-bit register stays 15 bits wide, and neither mode ever loses information it keeps. */
  lemma WideShiftIsInjective(l: bv16, m: bv16)
    requires l < 0x8000 && m < 0x8000
    ensures Shift(l, false) < 0x8000
    ensures Shift(l, false) == Shift(m, false) ==> l == m
    ensures l != 0 ==> Shift(l, false) != 0
  {
  }

  /** In 7-bit mode the low seven bits depend on the low seven bits only. */
  lemma NarrowShiftIsInjective(l: bv16, m: bv16)
    ensures l & 0x7F == m & 0x7F <==> Shift(l, true) & 0x7F == Shift(m, true) & 0x7F
    ensures l & 0x7F != 0 ==> Shift(l, true) & 0x7F != 0
  {
  }

  /** From the trigger value the noise never dies, in whichever mode is held. */
  lemma {:induction false} NoiseNeverStops(l: bv16, narrow: bool, n: nat)
    requires if narrow then l & 0x7F != 0 else 0 < l < 0x8000
    ensures var s := Shifts(l, narrow, n); if narrow then s & 0x7F != 0 else 0 < s < 0x8000
  {
    hide Shift;
    if n > 0 {
      NoiseNeverStops(l, narrow, n - 1);
      var s := Shifts(l, narrow, n - 1);
      if narrow {
        NarrowShiftIsInjective(s, s);
      } else {
        WideShiftIsInjective(s, s);
      }
    }
  }

  /** With the low seven bits clear, a 7-bit shift feeds back nothing. */
  lemma DeadShift(l: bv16)
    requires l < 0x8000 && l & 0x7F == 0
    ensures Shift(l, true) & 0x7F == 0 && Shift(l, true) <= l >> 1
  {
  }

  lemma {:induction false} DeadShifts(l: bv16, n: nat)
    requires l < 0x8000 && l & 0x7F == 0 && n <= 8
    ensures Shifts(l, true, n) & 0x7F == 0
    ensures Shifts(l, true, n) <= [0x7FFF, 0x3FFF, 0x1FFF, 0xFFF, 0x7FF, 0x3FF, 0x1FF, 0xFF, 0x7F][n]
  {
    hide Shift;
    if n > 0 {
      DeadShifts(l, n - 1);
      DeadShift(Shifts(l, true, n - 1));
    }
  }

  /**
   Switching from 15-bit to 7-bit mode can stop the noise for good: it does so, within eight
   shifts, exactly when the low seven bits are clear at the switch.
   */
  lemma WidthChangeStopsNoise(l: bv16)
    requires l < 0x8000
    ensures (exists n: nat :: Shifts(l, true, n) == 0) <==> l & 0x7F == 0
    ensures l & 0x7F == 0 ==> Shifts(l, true, 8) == 0
  {
    hide Shift;
    if l & 0x7F == 0 {
      DeadShifts(l, 8);
    } else {
      forall n: nat ensures Shifts(l, true, n) != 0 {
        NoiseNeverStops(l, true, n);
      }
    }
  }

  /** Shifts with the width of NR43 at each of them, as the CPU may rewrite it. */
  function ShiftRun(l: bv16, widths: seq<bool>): bv16
    decreases |widths|
  {
    if widths == [] then l else Shift(ShiftRun(l, widths[..|widths| - 1]), widths[|widths| - 1])
  }

  lemma NarrowShiftKeepsWidth(l: bv16)
    requires l < 0x8000
    ensures Shift(l, true) < 0x8000
  {
  }

  /** Whatever widths it has been through, the register fits in 15 bits, so the law above speaks of every switch. */
  lemma {:induction false} RegisterStaysWide(widths: seq<bool>)
    ensures ShiftRun(0x7FFF, widths) < 0x8000
    decreases |widths|
  {
    hide Shift;
    if widths != [] {
      var l := ShiftRun(0x7FFF, widths[..|widths| - 1]);
      RegisterStaysWide(widths[..|widths| - 1]);
      WideShiftIsInjective(l, l);
      NarrowShiftKeepsWidth(l);
    }
  }

  /** A witness: fifteen 15-bit shifts after a trigger, a switch to 7-bit width stops the noise for good. */
  lemma NoiseStopsAfterFifteen()
    ensures Shifts(0x7FFF, false, 15) == 0x4000 && Shifts(Shifts(0x7FFF, false, 15), true, 8) == 0
  {
    assert Shifts(0x7FFF, false, 4) == 0x7FF;
    assert Shifts(0x7FFF, false, 8) == 0x7F;
    assert Shifts(0x7FFF, false, 12) == 0x7;
    assert Shifts(0x7FFF, false, 14) == 0x1;
    WidthChangeStopsNoise(0x4000);
  }

  /**
   The shift by bits: all fall by one, and the exclusive or of the two lowest enters at bit 14, and at bit 6 as
   well in 7-bit width.
   */
  lemma ShiftInBits(l: bv16)
    requires l < 0x8000
    ensures Shift(l, false) & 0x3FFF == l >> 1
    ensures Shift(l, true) & 0x3FBF == (l >> 1) & 0x3FBF
    ensures Shift(l, false) & 0x4000 == Shift(l, true) & 0x4000
    ensures l & 3 == 1 || l & 3 == 2 ==> Shift(l, true) & 0x4040 == 0x4040
    ensures l & 3 == 0 || l & 3 == 3 ==> Shift(l, true) & 0x4040 == 0
    ensures Shift(l, false) < 0x8000 && Shift(l, true) < 0x8000
  {
  }

  // ---------------------------------------------------------------------------
  // Sample clock
  // ---------------------------------------------------------------------------

  /** Samples staged while `cycles` pass, and the accumulator left over. */
  function Samples(acc: nat, cycles: nat): nat {
    (acc + cycles * AUDIO_SAMPLE_RATE_HZ) / CPU_CLOCK_HZ
  }

  function Accumulate(acc: nat, cycles: nat): nat {
    (acc + cycles * AUDIO_SAMPLE_RATE_HZ) % CPU_CLOCK_HZ
  }

  /** The downsampling loop of audio_tick. */
  method SampleClock(acc: nat, cycles: nat) returns (acc': nat, samples: nat)
    requires acc < CPU_CLOCK_HZ
    ensures acc' == Accumulate(acc, cycles) && samples == Samples(acc, cycles)
  {
    acc', samples := acc + cycles * AUDIO_SAMPLE_RATE_HZ, 0;
    while acc' >= CPU_CLOCK_HZ
      invariant acc' + CPU_CLOCK_HZ * samples == acc + cycles * AUDIO_SAMPLE_RATE_HZ
    {
      acc' := acc' - CPU_CLOCK_HZ;
      samples := samples + 1;
    }
  }

  /** Samples over a run of ticks. */
  function RunSamples(acc: nat, ticks: seq<nat>): (nat, nat)
    decreases |ticks|
  {
    if ticks == [] then (acc, 0)
    else
      var (a, n) := RunSamples(Accumulate(acc, ticks[0]), ticks[1..]);
      (a, Samples(acc, ticks[0]) + n)
  }

  function Sum(ticks: seq<nat>): nat
    decreases |ticks|
  {
    if ticks == [] then 0 else ticks[0] + Sum(ticks[1..])
  }

  /** Nothing is lost or gained: the count and the remainder depend on the total cycles only. */
  lemma {:induction false} SamplesConserve(acc: nat, ticks: seq<nat>)
    requires acc < CPU_CLOCK_HZ
    ensures var (a, n) := RunSamples(acc, ticks);
      && a < CPU_CLOCK_HZ && AUDIO_SAMPLE_RATE_HZ * Sum(ticks) + acc == CPU_CLOCK_HZ * n + a
      && n == Samples(acc, Sum(ticks)) && a == Accumulate(acc, Sum(ticks))
    decreases |ticks|
  {
    if ticks != [] {
      SamplesConserve(Accumulate(acc, ticks[0]), ticks[1..]);
    }
  }

  /** A step of up to 95 cycles stages at most one sample; 96 can stage two. The longest instruction takes 24. */
  lemma OneSamplePerStep(cycles: nat)
    ensures (forall acc: nat :: acc < CPU_CLOCK_HZ ==> Samples(acc, cycles) <= 1) <==> cycles <= 95
  {
    if cycles > 95 {
      assert Samples(CPU_CLOCK_HZ - 1, cycles) > 1;
    }
  }

  /** In numbers: 44100 samples every 4194304 cycles, the remainder carried over. */
  lemma SamplesInNumbers(acc: nat, cycles: nat)
    requires acc < 4194304
    ensures 4194304 * Samples(acc, cycles) + Accumulate(acc, cycles) == acc + 44100 * cycles
    ensures Accumulate(acc, cycles) < 4194304
    ensures Samples(0, 4194304) == 44100
  {
  }
}
