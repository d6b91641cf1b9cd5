/**
 The timer as the CPU drives it: src/cpu.h:62-76 and src/cpu.c:42-55 over src/io/timer.c. Every bus write is
 followed at once by a 4-cycle tick, and a longer tick comes only at the end of a step.
 */
module CpuTimer {
  import opened Bytes
  import opened Instructions
  import opened Timer
  import TimerLaws
  import DivMod

  /** The timer register at a bus address, written. */
  function Written(s: TimerState, addr: u16, value: u8): (t: TimerState)
    requires s.Valid()
    ensures t.Valid()
  {
    match addr
    case 0xFF04 => Timer.Write(s, DIV, value).state
    case 0xFF05 => Timer.Write(s, TIMA, value).state
    case 0xFF06 => Timer.Write(s, TMA, value).state
    case 0xFF07 => Timer.Write(s, TAC, value).state
    case _ => s
  }

  function Feed(s: TimerState, m: MCycle): (t: TimerState)
    requires s.Valid()
    ensures t.Valid()
  {
    match m
    case Write(addr, value) => Tick(Written(s, addr, value), 4).state
    case Trailing(cycles) => Tick(s, cycles).state
    case DivReset => s.(div := 0)
    case _ => Tick(s, 4).state
  }

  function FeedAll(s: TimerState, t: seq<MCycle>): (r: TimerState)
    requires s.Valid()
    ensures r.Valid()
  {
    if t == [] then s else Feed(FeedAll(s, t[..|t| - 1]), t[|t| - 1])
  }

  /** The timer after whole CPU steps. */
  function RunSteps(s: TimerState, steps: seq<seq<MCycle>>): (r: TimerState)
    requires s.Valid()
    ensures r.Valid()
  {
    if steps == [] then s else FeedAll(RunSteps(s, steps[..|steps| - 1]), steps[|steps| - 1])
  }

  /** timer_init. */
  const BOOT := TimerState(0xABD4, 0, 0, false, 0, 0, false)

  /**
   What holds wherever the CPU can write: the divider is on a multiple of 4, and a reload is pending only
   right after the tick that overflowed, which was no reload itself and crossed its edge at most `late`
   cycles before its end.
   */
  predicate Calm(s: TimerState, late: nat) {
    && s.Valid() && s.div % 4 == 0 && (s.reloadPending == 0 || s.reloadPending == 4)
    && (s.reloadPending == 4 ==> !s.justReloaded && s.div % 16 <= late)
  }

  /** A low watched bit leaves at least half a period before the next edge. */
  lemma QuietWhileLow(div: u16, select: nat)
    requires select < 4 && !Watched(div, select)
    ensures TickCount(div, 4, select) == 0
  {
    hide Watched, TickCount;
    TimerLaws.WatchedIsUpperHalf(div, select);
    assert Period(select) / 2 + 4 <= Period(select);
    TimerLaws.WithinPeriod(div, 4, select);
  }

  lemma NextDiv(div: u16, n: nat)
    requires div % 4 == 0 && (n == 4 || n == 8 || n == 12)
    ensures var d := (div + n) % DIV_SIZE; d % 4 == 0 && (div % 16 + n >= 16 ==> d % 16 <= n - 4)
  {
    var q, r, a, b := div / 16, div % 16, div / 4, n / 4;
    var d, k := (div + n) % DIV_SIZE, if div + n < DIV_SIZE then 0 else 1;
    assert d == div + n - DIV_SIZE * k;
    DivMod.Unique(d, 4, a + b - 16384 * k, 0);
    if r + n >= 16 {
      assert r == 4 * (a - 4 * q) <= 12;
      DivMod.Unique(d, 16, q + 1 - 4096 * k, r + n - 16);
    }
  }

  /** A tick of at most 12 cycles that finds no reload pending. */
  lemma TickFromIdle(s: TimerState, n: nat)
    requires Calm(s, 8) && s.reloadPending == 0 && (n == 4 || n == 8 || n == 12)
    ensures Calm(Tick(s, n).state, n - 4)
  {
    hide TickCount;
    NextDiv(s.div, n);
    if s.div % 16 + n < 16 {
      TimerLaws.Quiet(s.div, n, s.select);
    }
  }

  /** A tick in which a pending reload fires and nothing is counted. */
  lemma TickReloads(s: TimerState, n: nat)
    requires s.Valid() && s.div % 4 == 0 && s.reloadPending == 4 && (n == 4 || n == 8 || n == 12)
    requires s.enable ==> TickCount(s.div, n, s.select) == 0
    ensures Calm(Tick(s, n).state, 0) && Tick(s, n).state.reloadPending == 0
  {
    hide TickCount;
  }

  /** Every plain M-cycle, whatever it writes, leaves the timer as calm as can be. */
  lemma PlainCalms(s: TimerState, m: MCycle)
    requires Calm(s, 8) && m.Plain()
    ensures Calm(Feed(s, m), 0)
  {
    hide TickCount, Watched;
    var u := if m.Write? then Written(s, m.addr, m.value) else s;
    WriteIsQuiet(s, u, m);
    hide Tick, Written;
    if u.reloadPending == 4 {
      TickReloads(u, 4);
    } else {
      TickFromIdle(u, 4);
    }
  }

  lemma WriteIsQuiet(s: TimerState, u: TimerState, m: MCycle)
    requires Calm(s, 8) && u == if m.Write? then Written(s, m.addr, m.value) else s
    ensures u.Valid() && u.div % 4 == 0 && (u.reloadPending == 0 || u.reloadPending == 4)
    ensures u.reloadPending == 4 && u.enable ==> TickCount(u.div, 4, u.select) == 0
  {
    hide TickCount, Watched;
    if u.div % 16 <= 8 {
      TimerLaws.Quiet(u.div, 4, u.select);
    }
    if !Watched(u.div, u.select) {
      QuietWhileLow(u.div, u.select);
    }
  }

  lemma LastCalms(s: TimerState, m: MCycle)
    requires Calm(s, 0) && (m.Trailing? ==> m.cycles == 4 || m.cycles == 8 || m.cycles == 12)
    ensures Calm(Feed(s, m), 8)
  {
    hide TickCount, Watched, Tick, Written;
    if m.Trailing? {
      if s.reloadPending == 4 {
        TimerLaws.Quiet(s.div, m.cycles, s.select);
        TickReloads(s, m.cycles);
      } else {
        TickFromIdle(s, m.cycles);
      }
    } else if m.Plain() {
      PlainCalms(s, m);
    }
  }

  lemma {:induction false} PlainRunCalms(s: TimerState, t: seq<MCycle>)
    requires s.Valid() && Calm(s, 8) && forall i :: 0 <= i < |t| ==> t[i].Plain()
    ensures Calm(FeedAll(s, t), if t == [] then 8 else 0)
  {
    hide Feed, Calm;
    if t != [] {
      PlainRunCalms(s, t[..|t| - 1]);
      CalmGrows(FeedAll(s, t[..|t| - 1]));
      PlainCalms(FeedAll(s, t[..|t| - 1]), t[|t| - 1]);
    }
  }

  lemma CalmGrows(s: TimerState)
    ensures Calm(s, 0) ==> Calm(s, 8)
  {
  }

  lemma StepCalms(s: TimerState, t: seq<MCycle>)
    requires s.Valid() && Calm(s, 8) && StepShape(t)
    ensures Calm(FeedAll(s, t), 8)
  {
    hide Feed, Calm;
    var n := |t| - 1;
    PlainRunCalms(s, t[..n]);
    if n > 0 {
      LastCalms(FeedAll(s, t[..n]), t[n]);
    } else {
      assert FeedAll(s, t[..0]) == s;
      PlainCalms(s, t[0]);
      CalmGrows(FeedAll(s, t));
    }
  }

  lemma {:induction false} RunCalms(steps: seq<seq<MCycle>>)
    requires forall i :: 0 <= i < |steps| ==> StepShape(steps[i])
    ensures Calm(RunSteps(BOOT, steps), 8)
  {
    hide StepShape, FeedAll;
    if steps != [] {
      RunCalms(steps[..|steps| - 1]);
      StepCalms(RunSteps(BOOT, steps[..|steps| - 1]), steps[|steps| - 1]);
    }
  }

  /**
   In every run of the CPU from power-on, at every M-cycle of every step, the reload flag and a pending
   reload never hold together; so a TIMA write there always cancels a pending reload and its interrupt,
   and one that is ignored had none to cancel.
   */
  lemma WriteAlwaysCancels(steps: seq<seq<MCycle>>, part: seq<MCycle>, value: u8, n: nat)
    requires forall i :: 0 <= i < |steps| ==> StepShape(steps[i])
    requires forall i :: 0 <= i < |part| ==> part[i].Plain()
    ensures var s := FeedAll(RunSteps(BOOT, steps), part);
      && !(s.justReloaded && s.reloadPending > 0)
      && Timer.Write(s, TIMA, value).state.reloadPending == 0
      && Tick(Timer.Write(s, TIMA, value).state, n).requests == 0
      && (s.reloadPending > 0 ==> Timer.Write(s, TIMA, value).state.tima == value)
  {
    hide RunSteps, FeedAll, TickCount, Watched, StepShape;
    RunCalms(steps);
    PlainRunCalms(RunSteps(BOOT, steps), part);
  }

  /** And left alone, a pending reload fires in the very next M-cycle, whatever else that M-cycle writes. */
  lemma ReloadIsNextCycle(steps: seq<seq<MCycle>>, part: seq<MCycle>, m: MCycle)
    requires forall i :: 0 <= i < |steps| ==> StepShape(steps[i])
    requires forall i :: 0 <= i < |part| ==> part[i].Plain()
    requires m.Plain() && m != MCycle.Write(0xFF05, if m.Write? then m.value else 0)
    requires FeedAll(RunSteps(BOOT, steps), part).reloadPending > 0
    ensures var s := FeedAll(RunSteps(BOOT, steps), part);
      var t := Feed(s, m);
      && t.justReloaded && t.reloadPending == 0 && t.tima == t.tma
      && Tick(if m.Write? then Written(s, m.addr, m.value) else s, 4).requests == 1
  {
    hide RunSteps, FeedAll, TickCount, Watched, StepShape;
    RunCalms(steps);
    PlainRunCalms(RunSteps(BOOT, steps), part);
    var s := FeedAll(RunSteps(BOOT, steps), part);
    WriteIsQuiet(s, if m.Write? then Written(s, m.addr, m.value) else s, m);
  }
}
