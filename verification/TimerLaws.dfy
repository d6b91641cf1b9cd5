/** What src/io/timer.c:18-57 and 75-129 keep: edges, batching, and the life of an overflow. */
module TimerLaws {
  import opened Bytes
  import opened Timer
  import DivMod

  // ---------------------------------------------------------------------------
  // The division counts falling edges
  // ---------------------------------------------------------------------------

  /** Falling edges of the watched bit over `n` cycles, one cycle at a time. */
  function FallingEdges(div: u16, n: nat, select: nat): nat
    requires select < 4
  {
    if n == 0 then 0
    else
      FallingEdges(div, n - 1, select)
      + if Watched((div + n - 1) % DIV_SIZE, select) && !Watched((div + n) % DIV_SIZE, select) then 1 else 0
  }

  function Pow2(k: nat): (p: nat)
    ensures p > 0
  {
    if k == 0 then 1 else 2 * Pow2(k - 1)
  }

  lemma UpperHalfDoubles(x: nat, p: nat)
    requires p > 0
    ensures x % (2 * p) == 2 * (x / 2 % p) + x % 2
  {
    var q, r := x / 2 / p, x / 2 % p;
    assert x / 2 == p * q + r;
    DivMod.Distribute(q, p, p);
    DivMod.Unique(x, 2 * p, q, 2 * r + x % 2);
  }

  /** Bit k is set in the upper half of each block of 2^(k+1). */
  lemma {:induction false} BitIsUpperHalf(x: nat, k: nat)
    ensures Bit(x, k) == 1 <==> x % (2 * Pow2(k)) >= Pow2(k)
  {
    if k > 0 {
      var h := Pow2(k - 1);
      BitIsUpperHalf(x / 2, k - 1);
      UpperHalfDoubles(x, 2 * h);
    }
  }

  /** The weights of the watched bits, each half a period. */
  lemma WatchedWeights()
    ensures Pow2(9) == 512 && Pow2(3) == 8 && Pow2(5) == 32 && Pow2(7) == 128
  {
    assert Pow2(1) == 2 && Pow2(2) == 4 && Pow2(3) == 8 && Pow2(4) == 16;
    assert Pow2(5) == 32 && Pow2(6) == 64 && Pow2(7) == 128 && Pow2(8) == 256;
  }

  lemma WatchedIsUpperHalf(div: u16, select: nat)
    requires select < 4
    ensures Watched(div, select) <==> div % Period(select) >= Period(select) / 2
  {
    WatchedWeights();
    BitIsUpperHalf(div, if select == 0 then 9 else if select == 1 then 3 else if select == 2 then 5 else 7);
  }

  /** The number of period boundaries crossed. */
  function Crossings(div: nat, n: nat, select: nat): int
    requires select < 4
  {
    (div + n) / Period(select) - div / Period(select)
  }

  /** Reducing modulo the divider size does not change the phase within a period. */
  lemma PhaseOfDiv(d: nat, select: nat)
    requires select < 4
    ensures d % DIV_SIZE % Period(select) == d % Period(select)
  {
    var high := d / DIV_SIZE;
    match select
    case 0 => DivMod.Shift(d % DIV_SIZE, 1024, 64 * high);
    case 1 => DivMod.Shift(d % DIV_SIZE, 16, 4096 * high);
    case 2 => DivMod.Shift(d % DIV_SIZE, 64, 1024 * high);
    case _ => DivMod.Shift(d % DIV_SIZE, 256, 256 * high);
  }

  /** One cycle crosses a boundary exactly when the watched bit falls. */
  lemma EdgeIsCrossing(d: nat, select: nat)
    requires select < 4
    ensures Crossings(d, 1, select) ==
      if Watched(d % DIV_SIZE, select) && !Watched((d + 1) % DIV_SIZE, select) then 1 else 0
  {
    hide Watched;
    WatchedIsUpperHalf(d % DIV_SIZE, select);
    WatchedIsUpperHalf((d + 1) % DIV_SIZE, select);
    PhaseOfDiv(d, select);
    PhaseOfDiv(d + 1, select);
    DivMod.Succ(d, Period(select));
    assert Period(select) / 2 * 2 == Period(select);
    hide Period;
  }

  lemma {:induction false} EdgesAreCrossings(div: u16, n: nat, select: nat)
    requires select < 4
    ensures FallingEdges(div, n, select) == Crossings(div, n, select)
  {
    hide Watched, Period;
    if n > 0 {
      EdgesAreCrossings(div, n - 1, select);
      EdgeIsCrossing(div + n - 1, select);
    }
  }

  /** The divider wraps and comes back to the period it started in. */
  predicate ComesRound(div: u16, n: nat, select: nat)
    requires select < 4
  {
    div + n >= DIV_SIZE && (div + n) % DIV_SIZE / Period(select) == div / Period(select)
  }

  /** The tick count, without and with a wrap of the 16-bit divider. */
  lemma TickCountIsCrossings(div: u16, n: nat, select: nat)
    requires select < 4 && n < DIV_SIZE
    ensures 0 <= Crossings(div, n, select) <= n
    ensures div + n < DIV_SIZE ==> TickCount(div, n, select) == Crossings(div, n, select)
    ensures div + n >= DIV_SIZE ==> TickCount(div, n, select) != Crossings(div, n, select)
    ensures div + n >= DIV_SIZE ==>
      (if ComesRound(div, n, select) then TickCount(div, n, select) == 0 else TickCount(div, n, select) > 0xFF)
  {
    var p := Period(select);
    DivMod.Grows(div, n, p);
    if div + n < DIV_SIZE {
      assert (div + n) % DIV_SIZE == div + n;
    } else {
      var w := div + n - DIV_SIZE;
      assert (div + n) % DIV_SIZE == w;
      WrapCount(w, div, p);
    }
  }

  /** The quotients on either side of a wrap, from `div` round to `w`. */
  lemma WrapCount(w: nat, div: u16, p: nat)
    requires w < div && (p == 1024 || p == 16 || p == 64 || p == 256)
    ensures var t := (w / p - div / p) % DIV_SIZE;
      t != (w + DIV_SIZE) / p - div / p && (if w / p == div / p then t == 0 else t > 0xFF)
  {
    DivMod.Mono(w, div, p);
    WrapShift(w, p);
    WrapShift(0, p);
    DivMod.Mono(0, w, p);
    DivMod.Mono(div, DIV_SIZE, p);
    QuotientGap(w / p, div / p, (w + DIV_SIZE) / p, DIV_SIZE / p);
  }

  lemma WrapShift(w: nat, p: nat)
    requires p == 1024 || p == 16 || p == 64 || p == 256
    ensures (w + DIV_SIZE) / p == w / p + DIV_SIZE / p && 64 <= DIV_SIZE / p <= 4096
  {
    DivMod.Shift(w, p, DIV_SIZE / p);
  }

  lemma QuotientGap(a: nat, b: nat, c: nat, blocks: nat)
    requires a <= b <= blocks && c == a + blocks && 64 <= blocks <= 4096
    ensures (a - b) % DIV_SIZE != c - b && (a < b ==> (a - b) % DIV_SIZE > 0xFF)
  {
    if a < b {
      assert (a - b) % DIV_SIZE == a - b + DIV_SIZE;
    }
  }

  /** Crossings of consecutive stretches add. */
  lemma CrossingsAdd(div: nat, a: nat, b: nat, select: nat)
    requires select < 4
    ensures Crossings(div, 0, select) == 0
    ensures Crossings(div, a + b, select) == Crossings(div, a, select) + Crossings(div + a, b, select)
  {
  }

  /**
   The division-based count is the number of falling edges if and only if the divider does
   not wrap within the batch.
   */
  lemma TickCountIsEdgeCount(div: u16, n: nat, select: nat)
    requires select < 4 && n < DIV_SIZE
    ensures TickCount(div, n, select) == FallingEdges(div, n, select) <==> div + n < DIV_SIZE
  {
    EdgesAreCrossings(div, n, select);
    TickCountIsCrossings(div, n, select);
  }

  /**
   A batch in which the divider wraps overflows TIMA, whatever TIMA holds, if and only if it does not
   come back round to the period it started in; if it does, TIMA is not clocked at all.
   */
  lemma WrapForcesOverflow(s: TimerState, n: nat)
    requires s.Valid() && s.enable && n < DIV_SIZE && s.div + n >= DIV_SIZE
    ensures Tick(s, n).overflows == 1 <==> !ComesRound(s.div, n, s.select)
    ensures var t := Tick(s, n).state;
      if ComesRound(s.div, n, s.select) then t == Reload(s, n).state.(div := (s.div + n) % DIV_SIZE)
      else t.tima == 0 && t.reloadPending == 4
  {
    TickCountIsCrossings(s.div, n, s.select);
    hide TickCount, ComesRound;
  }

  /** A witness: DIV one short of wrapping and TIMA at 0; one 4-cycle tick, one falling edge, one overflow. */
  lemma WrapExample()
    ensures var s := TimerState(0xFFFC, 0, 0, true, 0, 0, false);
      FallingEdges(s.div, 4, 0) == 1 && Tick(s, 4).overflows == 1
  {
    hide FallingEdges, Tick;
    var s := TimerState(0xFFFC, 0, 0, true, 0, 0, false);
    EdgesAreCrossings(s.div, 4, 0);
    WrapForcesOverflow(s, 4);
  }

  // ---------------------------------------------------------------------------
  // One batch against single cycles
  // ---------------------------------------------------------------------------

  function Singles(s: TimerState, n: nat): (o: Outcome)
    requires s.Valid()
    ensures o.state.Valid()
  {
    if n == 0 then Outcome(s, 0, 0)
    else
      var p := Singles(s, n - 1);
      var t := Tick(p.state, 1);
      Outcome(t.state, p.requests + t.requests, p.overflows + t.overflows)
  }

  lemma OneCycleCount(div: u16, select: nat)
    requires select < 4 && div + 1 < DIV_SIZE
    ensures TickCount(div, 1, select) == Crossings(div, 1, select) <= 1
  {
    TickCountIsCrossings(div, 1, select);
  }

  lemma {:induction false} SinglesCompose(s: TimerState, a: nat, b: nat)
    requires s.Valid()
    ensures var p, q := Singles(s, a), Singles(Singles(s, a).state, b);
      Singles(s, a + b) == Outcome(q.state, p.requests + q.requests, p.overflows + q.overflows)
  {
    hide Tick;
    if b > 0 {
      SinglesCompose(s, a, b - 1);
    }
  }

  /** Neither a batch of `n` nor `n` single cycles get as far as the pending reload. */
  predicate BeforeReload(s: TimerState, n: nat) { s.reloadPending == 0 || n < s.reloadPending }

  /** The pending count `n` cycles on. */
  function CountDown(p: nat, n: nat): nat { if p <= n then 0 else p - n }

  /** Until TIMA overflows or the reload falls due, single cycles just add up. */
  lemma {:induction false} SinglesAddUp(s: TimerState, n: nat)
    requires s.Valid() && s.enable && BeforeReload(s, n) && 0 < n && s.div + n < DIV_SIZE
    requires s.tima + Crossings(s.div, n, s.select) <= 0xFF
    ensures Singles(s, n) == Outcome(s.(div := s.div + n, tima := s.tima + Crossings(s.div, n, s.select),
                                        reloadPending := CountDown(s.reloadPending, n), justReloaded := false), 0, 0)
  {
    hide Period, TickCount, Crossings;
    OneCycleCount(s.div + n - 1, s.select);
    CrossingsAdd(s.div, n - 1, 1, s.select);
    TickCountIsCrossings(s.div + n - 1, 1, s.select);
    if n > 1 {
      SinglesAddUp(s, n - 1);
    } else {
      assert Singles(s, 0) == Outcome(s, 0, 0);
    }
  }

  /** The overflow falls on the last cycle. */
  lemma LastCycleOverflows(s: TimerState, n: nat)
    requires s.Valid() && s.enable && BeforeReload(s, n) && 0 < n && s.div + n < DIV_SIZE
    requires s.tima + Crossings(s.div, n - 1, s.select) <= 0xFF < s.tima + Crossings(s.div, n, s.select)
    ensures Singles(s, n) == Outcome(s.(div := s.div + n, tima := 0, reloadPending := 4, justReloaded := false), 0, 1)
  {
    hide Period, TickCount, Crossings;
    OneCycleCount(s.div + n - 1, s.select);
    CrossingsAdd(s.div, n - 1, 1, s.select);
    if n > 1 {
      SinglesAddUp(s, n - 1);
    } else {
      assert Singles(s, 0) == Outcome(s, 0, 0);
    }
  }

  /** The cycle on which TIMA overflows first. */
  lemma {:induction false} FirstOverflow(s: TimerState, n: nat) returns (j: nat)
    requires s.Valid() && s.tima + Crossings(s.div, n, s.select) > 0xFF
    ensures 0 < j <= n
    ensures s.tima + Crossings(s.div, j - 1, s.select) <= 0xFF < s.tima + Crossings(s.div, j, s.select)
  {
    CrossingsAdd(s.div, 0, 0, s.select);
    hide Crossings;
    if s.tima + Crossings(s.div, n - 1, s.select) > 0xFF {
      j := FirstOverflow(s, n - 1);
    } else {
      j := n;
    }
  }

  /** No period is shorter than 16 cycles. */
  lemma ShortStretch(div: u16, n: nat, select: nat)
    requires select < 4 && n <= 15
    ensures 0 <= Crossings(div, n, select) <= 1
  {
    var p := Period(select);
    DivMod.Shift(div, p, 1);
    DivMod.Mono(div, div + n, p);
    DivMod.Mono(div + n, div + p, p);
  }

  /** A timer that has just overflowed: it counts down for three cycles and requests on the fourth. */
  predicate Overflowed(s: TimerState) { s.Valid() && s.enable && s.tima == 0 && s.reloadPending == 4 }

  lemma AfterOverflow(s: TimerState, k: nat)
    requires Overflowed(s) && s.div + k < DIV_SIZE
    ensures var o := Singles(s, k);
      && (k < 4 ==> o.state.reloadPending == 4 - k && o.requests == 0)
      && (k >= 4 ==> o.requests >= 1)
      && (k == 4 && Crossings(s.div, 4, s.select) == 0 ==> o.state.tima == s.tma && o.state.reloadPending == 0)
  {
    if 0 < k < 4 {
      ShortStretch(s.div, k, s.select);
      hide Period, TickCount, Crossings, Tick, Singles;
      SinglesAddUp(s, k);
    } else if k == 0 {
      assert Singles(s, 0) == Outcome(s, 0, 0);
    } else {
      ShortStretch(s.div, 3, s.select);
      SinglesAddUp(s, 3);
      FourthCycle(s);
      SinglesCompose(s, 4, k - 4);
    }
  }

  /** The fourth single cycle after an overflow. */
  lemma FourthCycle(s: TimerState)
    requires Overflowed(s) && s.div + 4 < DIV_SIZE
    requires Singles(s, 3) == Outcome(s.(div := s.div + 3, tima := Crossings(s.div, 3, s.select), reloadPending := 1,
                                         justReloaded := false), 0, 0)
    ensures Singles(s, 4).requests == 1
    ensures Crossings(s.div, 4, s.select) == 0 ==>
      Singles(s, 4).state.tima == s.tma && Singles(s, 4).state.reloadPending == 0
  {
    hide Tick, Period, TickCount, Crossings;
    ShortStretch(s.div, 3, s.select);
    OneCycleCount(s.div + 3, s.select);
    CrossingsAdd(s.div, 3, 1, s.select);
    BatchReloads(Singles(s, 3).state, 1);
  }

  lemma BatchAddsUp(s: TimerState, n: nat)
    requires s.Valid() && s.enable && BeforeReload(s, n) && s.div + n < DIV_SIZE
    ensures var t := s.tima + Crossings(s.div, n, s.select);
      && Crossings(s.div, n, s.select) >= 0
      && Tick(s, n) ==
         if t > 0xFF then Outcome(s.(div := s.div + n, tima := 0, reloadPending := 4, justReloaded := false), 0, 1)
         else Outcome(s.(div := s.div + n, tima := t, reloadPending := CountDown(s.reloadPending, n),
                         justReloaded := false), 0, 0)
  {
    TickCountIsCrossings(s.div, n, s.select);
    hide Period, TickCount, Crossings;
  }

  lemma BatchReloads(s: TimerState, n: nat)
    requires s.Valid() && s.enable && 0 < s.reloadPending <= n && s.div + n < DIV_SIZE
    ensures var t := s.tma + Crossings(s.div, n, s.select);
      && Crossings(s.div, n, s.select) >= 0
      && Tick(s, n) ==
         if t > 0xFF then Outcome(s.(div := s.div + n, tima := 0, reloadPending := 4, justReloaded := true), 1, 1)
         else Outcome(s.(div := s.div + n, tima := t, reloadPending := 0, justReloaded := true), 1, 0)
  {
    TickCountIsCrossings(s.div, n, s.select);
    hide Period, TickCount, Crossings;
  }

  /** Single cycles, from the first overflow on. */
  lemma SinglesFromOverflow(s: TimerState, j: nat, n: nat)
    requires s.Valid() && s.enable && BeforeReload(s, j) && 0 < j <= n && s.div + n < DIV_SIZE
    requires s.tima + Crossings(s.div, j - 1, s.select) <= 0xFF < s.tima + Crossings(s.div, j, s.select)
    ensures var u := s.(div := s.div + j, tima := 0, reloadPending := 4, justReloaded := false);
      && Overflowed(u)
      && Singles(s, n) == var o := Singles(u, n - j); Outcome(o.state, o.requests, o.overflows + 1)
  {
    hide Singles, Crossings, Tick, TickCount;
    LastCycleOverflows(s, j);
    SinglesCompose(s, j, n - j);
  }

  /** Before the reload falls due. */
  lemma AgreeBeforeReload(s: TimerState, n: nat)
    requires s.Valid() && s.enable && BeforeReload(s, n) && 0 < n && s.div + n < DIV_SIZE
    ensures Tick(s, n) == Singles(s, n) <==> s.tima + Crossings(s.div, n - 1, s.select) <= 0xFF
  {
    BatchAddsUp(s, n);
    OneCycleCount(s.div + n - 1, s.select);
    CrossingsAdd(s.div, n - 1, 1, s.select);
    hide Tick, Period, TickCount, Crossings, Singles;
    if s.tima + Crossings(s.div, n - 1, s.select) > 0xFF {
      var j := FirstOverflow(s, n - 1);
      SinglesFromOverflow(s, j, n);
      AfterOverflow(s.(div := s.div + j, tima := 0, reloadPending := 4, justReloaded := false), n - j);
    } else if s.tima + Crossings(s.div, n, s.select) > 0xFF {
      LastCycleOverflows(s, n);
    } else {
      SinglesAddUp(s, n);
    }
  }

  /** One cycle reloads exactly when it requests, and says so only until the next. */
  lemma FlagIsRequest(s: TimerState)
    requires s.Valid()
    ensures Tick(s, 1).requests <= 1 && Tick(s, 1).state.justReloaded == (Tick(s, 1).requests == 1)
  {
    hide TickCount;
  }

  /** Once single cycles have requested, they cannot end a later cycle with one request and the reload flag. */
  lemma FlagHasPassed(s: TimerState, k: nat, n: nat)
    requires s.Valid() && k < n && Singles(s, k).requests >= 1
    ensures Singles(s, n).requests != 1 || !Singles(s, n).state.justReloaded
  {
    SinglesCompose(s, k, n - 1 - k);
    FlagIsRequest(Singles(s, n - 1).state);
    hide Tick;
  }

  /** Without an overflow on the way, the reload fires on its own cycle. */
  lemma ReloadCycle(s: TimerState)
    requires s.Valid() && s.enable && s.reloadPending > 0 && s.div + s.reloadPending < DIV_SIZE
    requires s.tima + Crossings(s.div, s.reloadPending - 1, s.select) <= 0xFF
    ensures var p := s.reloadPending;
      var c := Crossings(s.div, p, s.select) - Crossings(s.div, p - 1, s.select);
      && 0 <= c <= 1
      && Singles(s, p) ==
         if s.tma + c > 0xFF then Outcome(s.(div := s.div + p, tima := 0, reloadPending := 4, justReloaded := true), 1, 1)
         else Outcome(s.(div := s.div + p, tima := s.tma + c, reloadPending := 0, justReloaded := true), 1, 0)
  {
    hide Tick, Period, TickCount, Crossings;
    var p := s.reloadPending;
    OneCycleCount(s.div + p - 1, s.select);
    CrossingsAdd(s.div, p - 1, 1, s.select);
    if p > 1 {
      SinglesAddUp(s, p - 1);
    } else {
      assert Singles(s, 0) == Outcome(s, 0, 0);
    }
    BatchReloads(Singles(s, p - 1).state, 1);
  }

  /** Once the reload is due: a batch agrees only on the very cycle, and only if TIMA was not clocked before it. */
  lemma AgreeAtReload(s: TimerState, n: nat)
    requires s.Valid() && s.enable && 0 < s.reloadPending <= n && s.div + n < DIV_SIZE
    ensures Tick(s, n) == Singles(s, n) <==> n == s.reloadPending && Crossings(s.div, n - 1, s.select) == 0
  {
    var p := s.reloadPending;
    BatchReloads(s, n);
    ShortStretch(s.div, p - 1, s.select);
    ShortStretch(s.div, p, s.select);
    hide Tick, Period, TickCount, Crossings, Singles;
    if s.tima + Crossings(s.div, p - 1, s.select) > 0xFF {
      OverflowBeforeReload(s, n);
    } else {
      ReloadCycle(s);
      if n > p {
        FlagHasPassed(s, p, n);
      }
    }
  }

  lemma OverflowBeforeReload(s: TimerState, n: nat)
    requires s.Valid() && s.enable && 0 < s.reloadPending <= n && s.div + n < DIV_SIZE
    requires s.tima + Crossings(s.div, s.reloadPending - 1, s.select) > 0xFF
    ensures Tick(s, n) != Singles(s, n) && Crossings(s.div, s.reloadPending - 1, s.select) > 0
  {
    hide Tick, Period, TickCount, Crossings, Singles;
    BatchReloads(s, n);
    var j := FirstOverflow(s, s.reloadPending - 1);
    SinglesFromOverflow(s, j, n);
    var u := s.(div := s.div + j, tima := 0, reloadPending := 4, justReloaded := false);
    AfterOverflow(u, n - j);
    if n - j > 4 {
      SinglesFromOverflow(s, j, j + 4);
      AfterOverflow(u, 4);
      FlagHasPassed(s, j + 4, n);
    } else if n - j == 4 {
      CrossingsAdd(s.div, j, 4, s.select);
      ShortStretch(s.div, n, s.select);
      ShortStretch(s.div, j, s.select);
      ShortStretch(u.div, 4, s.select);
    }
  }

  /** A disabled timer only moves the divider and the reload. */
  function Coasted(s: TimerState, n: nat): Outcome {
    var d := s.(div := (s.div + n) % DIV_SIZE, justReloaded := false);
    if s.reloadPending == 0 || n < s.reloadPending then Outcome(d.(reloadPending := CountDown(s.reloadPending, n)), 0, 0)
    else Outcome(d.(tima := s.tma, reloadPending := 0, justReloaded := n == s.reloadPending), 1, 0)
  }

  lemma {:induction false} SinglesCoast(s: TimerState, n: nat)
    requires s.Valid() && !s.enable && 0 < n
    ensures Singles(s, n) == Coasted(s, n)
  {
    hide TickCount, Steps;
    if n > 1 {
      SinglesCoast(s, n - 1);
      DivMod.Shift(s.div + n, DIV_SIZE, -((s.div + n - 1) / DIV_SIZE));
    } else {
      assert Singles(s, 0) == Outcome(s, 0, 0);
    }
  }

  lemma AgreeWhileDisabled(s: TimerState, n: nat)
    requires s.Valid() && !s.enable && 0 < n
    ensures Tick(s, n) == Singles(s, n) <==> s.reloadPending == 0 || n <= s.reloadPending
  {
    SinglesCoast(s, n);
    hide Singles, TickCount, Steps;
  }

  // Across a wrap of the divider: the cycle that wraps always overflows TIMA.

  lemma BatchShape(s: TimerState, n: nat)
    requires s.Valid()
    ensures var o := Tick(s, n);
      && (o.requests == 0 || (o.requests == 1 && o.state.justReloaded))
      && (o.overflows == 0 || (o.overflows == 1 && o.state.reloadPending == 4))
  {
    hide TickCount;
  }

  /** A batch that ends on the wrap. */
  lemma BatchToWrap(s: TimerState, n: nat)
    requires s.Valid() && s.enable && 0 < n && s.div + n == DIV_SIZE
    ensures ComesRound(s.div, n, s.select) ==> Tick(s, n).overflows == 0
    ensures !ComesRound(s.div, n, s.select) ==>
      var r := Reload(s, n);
      Tick(s, n) == Outcome(r.state.(div := 0, tima := 0, reloadPending := 4), r.requests, 1)
  {
    if n < DIV_SIZE {
      TickCountIsCrossings(s.div, n, s.select);
      hide TickCount, ComesRound;
    } else {
      assert s.div == 0 && TickCount(0, DIV_SIZE, s.select) == 0;
      hide TickCount;
    }
  }

  lemma WrapCycle(s: TimerState)
    requires s.Valid() && s.enable && s.div == DIV_SIZE - 1
    ensures var r := Reload(s, 1);
      Tick(s, 1) == Outcome(r.state.(div := 0, tima := 0, reloadPending := 4), r.requests, 1)
  {
    assert !ComesRound(s.div, 1, s.select);
    hide Tick, ComesRound;
    BatchToWrap(s, 1);
  }

  lemma {:induction false} SinglesKeep(s: TimerState, n: nat)
    requires s.Valid() && s.enable && s.div + n < DIV_SIZE
    ensures var t := Singles(s, n).state; t.enable && t.select == s.select && t.tma == s.tma && t.div == s.div + n
  {
    hide Tick;
    if n > 0 {
      SinglesKeep(s, n - 1);
      OneCycleKeeps(Singles(s, n - 1).state);
    }
  }

  lemma OneCycleKeeps(s: TimerState)
    requires s.Valid() && s.enable && s.div + 1 < DIV_SIZE
    ensures var t := Tick(s, 1).state; t.enable && t.select == s.select && t.tma == s.tma && t.div == s.div + 1
  {
    hide TickCount;
  }

  /** `n` single cycles of which the last one wraps. */
  lemma SinglesToWrap(s: TimerState, n: nat)
    requires s.Valid() && s.enable && 0 < n && s.div + n == DIV_SIZE
    ensures var v := Singles(s, n - 1);
      var r := Reload(v.state, 1);
      && Singles(s, n) == Outcome(r.state.(div := 0, tima := 0, reloadPending := 4),
                                  v.requests + r.requests, v.overflows + 1)
      && r.state.enable && r.state.select == s.select
  {
    hide Tick;
    SinglesKeep(s, n - 1);
    WrapCycle(Singles(s, n - 1).state);
  }

  /** The wrap falls before the last cycle: the batch never agrees. */
  lemma WrapBeforeLast(s: TimerState, n: nat)
    requires s.Valid() && s.enable && s.div + n > DIV_SIZE
    ensures Tick(s, n) != Singles(s, n)
  {
    hide Tick, Singles, Crossings, TickCount;
    var k := DIV_SIZE - s.div;
    var u := Singles(s, k).state;
    SinglesToWrap(s, k);
    assert Overflowed(u) && u.div == 0;
    BatchShape(s, n);
    if n > k + 4 {
      AfterOverflow(u, 4);
      SinglesCompose(s, k, 4);
      FlagHasPassed(s, k + 4, n);
      SinglesCompose(s, k + 4, n - k - 4);
    } else {
      assert Crossings(0, 4, u.select) == 0 by {
        ShortStretch(0, 4, u.select);
        NoEarlyCrossing(u.select);
      }
      AfterOverflow(u, n - k);
      SinglesCompose(s, k, n - k);
    }
  }

  lemma NoEarlyCrossing(select: nat)
    requires select < 4
    ensures Crossings(0, 4, select) == 0
  {
  }

  /** Just before the wrap there is no other boundary. */
  lemma NoCrossingBeforeWrap(div: u16, n: nat, select: nat)
    requires select < 4 && 0 < n <= 4 && div + n == DIV_SIZE
    ensures Crossings(div, n - 1, select) == 0
  {
  }

  /** The wrap falls on the last cycle. */
  lemma WrapOnLast(s: TimerState, n: nat)
    requires s.Valid() && s.enable && 0 < n && s.div + n == DIV_SIZE
    ensures Tick(s, n) == Singles(s, n) <==>
      && !ComesRound(s.div, n, s.select)
      && if BeforeReload(s, n) then s.tima + Crossings(s.div, n - 1, s.select) <= 0xFF
         else n == s.reloadPending && Crossings(s.div, n - 1, s.select) == 0
  {
    hide Tick, Singles, Crossings, TickCount, ComesRound, Period;
    BatchToWrap(s, n);
    SinglesToWrap(s, n);
    CrossingsAdd(s.div, 0, 0, s.select);
    var p := s.reloadPending;
    if BeforeReload(s, n) {
      if s.tima + Crossings(s.div, n - 1, s.select) > 0xFF {
        var j := FirstOverflow(s, n - 1);
        SinglesFromOverflow(s, j, n - 1);
      } else {
        SinglesSoFar(s, n - 1);
      }
    } else if n == p {
      NoCrossingBeforeWrap(s.div, n, s.select);
      SinglesSoFar(s, n - 1);
    } else if s.tima + Crossings(s.div, p - 1, s.select) > 0xFF {
      var j := FirstOverflow(s, p - 1);
      SinglesFromOverflow(s, j, n - 1);
    } else {
      ReloadCycle(s);
      FlagHasPassed(s, p, n);
      BatchShape(s, n);
    }
  }

  /** Single cycles that reach neither an overflow nor a reload. */
  lemma SinglesSoFar(s: TimerState, n: nat)
    requires s.Valid() && s.enable && BeforeReload(s, n) && s.div + n < DIV_SIZE
    requires s.tima + Crossings(s.div, n, s.select) <= 0xFF
    ensures var v := Singles(s, n);
      && v.requests == 0 && v.overflows == 0 && v.state.tma == s.tma && v.state.enable && v.state.select == s.select
      && v.state.reloadPending == CountDown(s.reloadPending, n)
  {
    hide Tick, Crossings;
    if n > 0 {
      SinglesAddUp(s, n);
    } else {
      assert Singles(s, 0) == Outcome(s, 0, 0);
    }
  }

  /** When one n-cycle call does what n one-cycle calls do. */
  predicate BatchAgrees(s: TimerState, n: nat)
    requires s.Valid() && n > 0
  {
    var p := s.reloadPending;
    if !s.enable then p == 0 || n <= p
    else
      && s.div + n <= DIV_SIZE && !ComesRound(s.div, n, s.select)
      && if p == 0 || n < p then s.tima + FallingEdges(s.div, n - 1, s.select) <= 0xFF
         else n == p && FallingEdges(s.div, n - 1, s.select) == 0
  }

  /**
   Batching is faithful, in state and in interrupts, exactly when nothing that one cycle would have
   acted on falls before the last cycle: no overflow, no reload, and no wrap of the divider; and at a reload
   TIMA must not have been clocked on the way, since the batch clocks it after reloading.
   */
  lemma BatchIsSingles(s: TimerState, n: nat)
    requires s.Valid() && 0 < n
    ensures Tick(s, n) == Singles(s, n) <==> BatchAgrees(s, n)
  {
    hide Tick, Crossings, FallingEdges, Singles;
    if !s.enable {
      AgreeWhileDisabled(s, n);
    } else {
      EdgesAreCrossings(s.div, n - 1, s.select);
      if s.div + n > DIV_SIZE {
        WrapBeforeLast(s, n);
      } else if s.div + n == DIV_SIZE {
        WrapOnLast(s, n);
      } else if BeforeReload(s, n) {
        AgreeBeforeReload(s, n);
      } else {
        AgreeAtReload(s, n);
      }
    }
  }

  /** A witness: a reload four cycles away, TIMA far from overflowing, and an 8-cycle call that differs. */
  lemma BatchExample()
    ensures var s := TimerState(0, 0, 7, true, 0, 4, false);
      s.tima + FallingEdges(s.div, 7, s.select) == 0 && Tick(s, 8) != Singles(s, 8)
  {
    hide Tick, Singles, FallingEdges;
    var s := TimerState(0, 0, 7, true, 0, 4, false);
    EdgesAreCrossings(s.div, 7, s.select);
    BatchIsSingles(s, 8);
  }

  /**
   The cycles after an overflow, by what is written in them. A TIMA write cancels the reload and its
   interrupt if and only if it does not land in the tick of an earlier reload, which ignores it; left
   alone, the reload fires when it falls due; and in that tick TIMA follows TMA and ignores its own writes.
   */
  lemma ReloadWindow(s: TimerState, value: u8, n: nat)
    requires s.Valid() && s.reloadPending > 0
    ensures Tick(Write(s, TIMA, value).state, n).requests == 0 <==> (!s.justReloaded || n < s.reloadPending)
    ensures Tick(s, n).requests == if n >= s.reloadPending then 1 else 0
    ensures n >= s.reloadPending ==>
      var t := Tick(s, n).state;
      && t.justReloaded && (!s.enable || TickCount(s.div, n, s.select) == 0 ==> t.tima == s.tma)
      && Write(t, TMA, value).state.tima == value == Write(t, TMA, value).state.tma
      && Write(t, TIMA, value).state == t
  {
    hide Watched, TickCount;
  }

  /** A witness: one 8-cycle call reloads 0xFF, counts an edge and overflows again; a TIMA write is then ignored. */
  lemma WindowExample(value: u8)
    ensures var t := Tick(TimerState(8, 0, 0xFF, true, 1, 4, false), 8).state;
      t.justReloaded && t.reloadPending == 4 && Tick(Write(t, TIMA, value).state, 4).requests == 1
  {
    hide Tick, Write;
    var s := TimerState(8, 0, 0xFF, true, 1, 4, false);
    BatchReloads(s, 8);
    ReloadWindow(Tick(s, 8).state, value, 4);
    WriteIgnored(Tick(s, 8).state, value);
  }

  lemma WriteIgnored(s: TimerState, value: u8)
    requires s.Valid() && s.justReloaded
    ensures Write(s, TIMA, value).state == s
  {
  }

  // ---------------------------------------------------------------------------
  // What becomes of an overflow
  // ---------------------------------------------------------------------------

  datatype Event = Ticks(cycles: nat) | Writes(register: Register, value: u8)

  function Step(s: TimerState, e: Event): Outcome
    requires s.Valid()
  {
    match e
    case Ticks(cycles) => Tick(s, cycles)
    case Writes(register, value) => Write(s, register, value)
  }

  /** Reloads that never fire: cancelled by a TIMA write, or overtaken by a second overflow. */
  function Dropped(s: TimerState, e: Event): nat
    requires s.Valid()
  {
    match e
    case Ticks(cycles) => if Reload(s, cycles).state.reloadPending > 0 then Tick(s, cycles).overflows else 0
    case Writes(TIMA, _) => if s.reloadPending > 0 && !s.justReloaded then 1 else 0
    case Writes(register, value) => if s.reloadPending > 0 then Write(s, register, value).overflows else 0
  }

  function Pending(s: TimerState): nat { if s.reloadPending > 0 then 1 else 0 }

  lemma StepConserves(s: TimerState, e: Event)
    requires s.Valid()
    ensures var o := Step(s, e);
      o.state.Valid() && Pending(s) + o.overflows == o.requests + Dropped(s, e) + Pending(o.state)
  {
    hide TickCount, Watched;
  }

  datatype Ledger = Ledger(state: TimerState, requests: nat, overflows: nat, dropped: nat)

  function Run(s: TimerState, events: seq<Event>): (l: Ledger)
    requires s.Valid()
    ensures l.state.Valid()
  {
    if events == [] then Ledger(s, 0, 0, 0)
    else
      var l := Run(s, events[..|events| - 1]);
      var e := events[|events| - 1];
      StepConserves(l.state, e);
      var o := Step(l.state, e);
      Ledger(o.state, l.requests + o.requests, l.overflows + o.overflows, l.dropped + Dropped(l.state, e))
  }

  /** Over any run, every overflow is one timer interrupt, one dropped reload, or the one still pending. */
  lemma {:induction false} OverflowsAreConserved(s: TimerState, events: seq<Event>)
    requires s.Valid()
    ensures var l := Run(s, events);
      Pending(s) + l.overflows == l.requests + l.dropped + Pending(l.state) && l.state.reloadPending <= 4
  {
    hide Step, Dropped;
    if events != [] {
      OverflowsAreConserved(s, events[..|events| - 1]);
      StepConserves(Run(s, events[..|events| - 1]).state, events[|events| - 1]);
    }
  }

  /** Short of the end of a period nothing is counted, and the divider does not wrap. */
  lemma WithinPeriod(div: u16, n: nat, select: nat)
    requires select < 4 && div % Period(select) + n < Period(select)
    ensures TickCount(div, n, select) == 0
  {
    var p := Period(select);
    DivMod.Unique(div + n, p, div / p, div % p + n);
    EndOfDivider(div, select);
  }

  lemma EndOfDivider(div: u16, select: nat)
    requires select < 4
    ensures div - div % Period(select) + Period(select) <= DIV_SIZE
  {
  }

  /** No period is shorter than 16. */
  lemma Quiet(div: u16, n: nat, select: nat)
    requires select < 4 && div % 16 + n < 16
    ensures TickCount(div, n, select) == 0
  {
    BlockOf(div, n, select);
    WithinPeriod(div, n, select);
  }

  lemma BlockOf(div: u16, n: nat, select: nat)
    requires select < 4 && div % 16 + n < 16
    ensures div % Period(select) + n < Period(select)
  {
    var q, r := div / 16, div % 16;
    match select
    case 0 => DivMod.Unique(div % 1024, 16, q - 64 * (div / 1024), r);
    case 1 =>
    case 2 => DivMod.Unique(div % 64, 16, q - 4 * (div / 64), r);
    case _ => DivMod.Unique(div % 256, 16, q - 16 * (div / 256), r);
  }

  // ---------------------------------------------------------------------------
  // The same in numbers
  // ---------------------------------------------------------------------------

  /** Cycles per TIMA step for each value of the low two TAC bits. */
  function TacPeriod(tac: u8): (p: nat)
    ensures p > 0
  {
    if tac % 4 == 0 then 1024 else if tac % 4 == 1 then 16 else if tac % 4 == 2 then 64 else 256
  }

  /** A TAC write: bit 2 enables, the low two bits choose the period, and the gate watches the upper half of it. */
  lemma TacInNumbers(s: TimerState, tac: u8)
    requires s.Valid()
    ensures var t := Write(s, TAC, tac).state;
      && (t.enable <==> tac / 4 % 2 == 1) && t.select < 4 && Period(t.select) == TacPeriod(tac)
      && (t.Gate(t.select) <==> t.enable && t.div % TacPeriod(tac) >= TacPeriod(tac) / 2)
      && t.div == s.div && t.tma == s.tma && t.justReloaded == s.justReloaded
  {
    BitsAreDigits(tac);
    hide Bit, Watched;
    WatchedIsUpperHalf(s.div, tac % 4);
  }

  /** A tick counts multiples of the period reached by the divider: 0x05 in TAC is one step every 16 cycles. */
  lemma TickInNumbers(s: TimerState, tac: u8, n: nat)
    requires s.Valid() && s.reloadPending == 0 && s.div + n < 65536
    ensures var t := Write(s, TAC, tac).state;
      var steps := (t.div + n) / TacPeriod(tac) - t.div / TacPeriod(tac);
      t.reloadPending == 0 && (tac / 4 % 2 == 1 ==> t.tima + steps <= 255) ==>
        Tick(t, n).state == t.(div := t.div + n, tima := if tac / 4 % 2 == 1 then t.tima + steps else t.tima,
                               justReloaded := false)
  {
    TacInNumbers(s, tac);
    var t := Write(s, TAC, tac).state;
    hide Write, TacPeriod;
    TickCountIsCrossings(t.div, n, t.select);
    hide TickCount, Period;
  }

  /** A DIV write clears the divider, and steps TIMA if the enabled timer was in the upper half of a period. */
  lemma DivInNumbers(s: TimerState, value: u8)
    requires s.Valid()
    ensures var t := Write(s, DIV, value).state;
      && t.div == 0 && t.tma == s.tma && t.enable == s.enable && t.select == s.select
      && var steps := s.enable && s.div % Period(s.select) >= Period(s.select) / 2;
         && t.tima == (if steps then (s.tima + 1) % 256 else s.tima)
         && t.reloadPending == (if steps && s.tima == 255 then 4 else s.reloadPending)
  {
    WatchedIsUpperHalf(s.div, s.select);
    WatchedIsUpperHalf(0, s.select);
    hide Watched;
  }

  /** A TAC write steps TIMA exactly when the old gate was high and the new one is low. */
  lemma TacGlitchInNumbers(s: TimerState, tac: u8)
    requires s.Valid()
    ensures var t := Write(s, TAC, tac).state;
      var high := s.enable && s.div % Period(s.select) >= Period(s.select) / 2;
      var stays := tac / 4 % 2 == 1 && s.div % TacPeriod(tac) >= TacPeriod(tac) / 2;
      && t.tima == (if high && !stays then (s.tima + 1) % 256 else s.tima)
      && t.reloadPending == (if high && !stays && s.tima == 255 then 4 else s.reloadPending)
  {
    BitsAreDigits(tac);
    WatchedIsUpperHalf(s.div, s.select);
    WatchedIsUpperHalf(s.div, tac % 4);
    hide Bit, Watched;
  }

  /** The batch that overflows: TIMA is left at 0 with the reload 4 cycles away, and the interrupt comes with TMA then. */
  lemma OverflowInNumbers(s: TimerState, n: nat, k: nat)
    requires s.Valid() && s.enable && s.reloadPending == 0 && s.div + n < 65536
    requires s.tima + (s.div + n) / Period(s.select) - s.div / Period(s.select) > 255
    ensures var t := Tick(s, n);
      && t.state.tima == 0 && t.requests == 0
      && Tick(t.state, k).requests == (if k >= 4 then 1 else 0)
      && (k == 4 && (s.div + n) % 16 < 12 ==> Tick(t.state, 4).state.tima == s.tma)
  {
    BatchAddsUp(s, n);
    var t := Tick(s, n).state;
    hide Tick, TickCount;
    TickOfOverflowed(t, k);
    if k == 4 && t.div % 16 < 12 {
      Quiet(t.div, 4, t.select);
      TickOfOverflowed(t, 4);
    }
  }

  lemma TickOfOverflowed(t: TimerState, k: nat)
    requires Overflowed(t)
    ensures Tick(t, k).requests == if k >= 4 then 1 else 0
    ensures k == 4 && TickCount(t.div, 4, t.select) == 0 ==> Tick(t, k).state.tima == t.tma
  {
    hide TickCount;
  }
}
