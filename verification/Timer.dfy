/**
 The timer, src/io/timer.c: a 16-bit divider whose falling bit clocks TIMA, with a reload
 that is delayed four cycles after an overflow.

 The source counts falling edges by division over a whole batch of cycles. The reference here
 is the one-cycle-at-a-time edge detector the register writes already use (`timer_and_gate`).
 */
module Timer {
  import opened Bytes
  import opened Interrupts

  const DIV_SIZE := 0x1_0000

  /** `tac` is held as its two bit fields. */
  datatype TimerState = TimerState(div: u16, tima: u8, tma: u8, enable: bool, select: nat,
                                   reloadPending: u8, justReloaded: bool)
  {
    predicate Valid() { select < 4 && reloadPending <= 4 }

    /** timer_and_gate. */
    predicate Gate(clockSelect: nat)
      requires clockSelect < 4
    {
      enable && Watched(div, clockSelect)
    }

    /** timer_apply_falling_edge: TIMA steps on a falling edge of the gate. */
    function FallingEdge(before: bool, after: bool): TimerState {
      if before && !after then
        this.(tima := (tima + 1) % 0x100, reloadPending := if tima == 0xFF then 4 else reloadPending)
      else this
    }
  }

  /** Cycles per TIMA step. */
  function Period(select: nat): (p: nat)
    requires select < 4
    ensures p > 0 && DIV_SIZE % p == 0
  {
    if select == 0 then 1024 else if select == 1 then 16 else if select == 2 then 64 else 256
  }

  /** The divider bit the gate watches: bit 9, 3, 5 or 7, the high half of each period. */
  predicate Watched(div: u16, select: nat)
    requires select < 4
  {
    Bit(div, if select == 0 then 9 else if select == 1 then 3 else if select == 2 then 5 else 7) == 1
  }

  /** What one call or write did besides changing the registers. */
  datatype Outcome = Outcome(state: TimerState, requests: nat, overflows: nat)

  // ---------------------------------------------------------------------------
  // timer_tick
  // ---------------------------------------------------------------------------

  /** A pending reload falls due within the batch, or counts down. */
  function Reload(s: TimerState, cycles: nat): Outcome {
    if s.reloadPending == 0 then Outcome(s.(justReloaded := false), 0, 0)
    else if cycles >= s.reloadPending then Outcome(s.(tima := s.tma, reloadPending := 0, justReloaded := true), 1, 0)
    else Outcome(s.(reloadPending := s.reloadPending - cycles, justReloaded := false), 0, 0)
  }

  /** `ticks` increments of TIMA: an overflow zeroes it, arms the reload and swallows the rest. */
  function Steps(s: TimerState, ticks: nat): Outcome {
    if s.tima + ticks > 0xFF then Outcome(s.(tima := 0, reloadPending := 4), 0, 1)
    else Outcome(s.(tima := s.tima + ticks), 0, 0)
  }

  /** The tick count of the source, in its uint16_t arithmetic. */
  function TickCount(div: u16, cycles: nat, select: nat): (t: u16)
    requires select < 4
  {
    ((div + cycles) % DIV_SIZE / Period(select) - div / Period(select)) % DIV_SIZE
  }

  function Tick(s: TimerState, cycles: nat): Outcome
    requires s.Valid()
  {
    var r := Reload(s, cycles);
    var advanced := r.state.(div := (s.div + cycles) % DIV_SIZE);
    if !s.enable then r.(state := advanced)
    else
      var t := Steps(advanced, TickCount(s.div, cycles, s.select));
      Outcome(t.state, r.requests, t.overflows)
  }

  // ---------------------------------------------------------------------------
  // timer_write
  // ---------------------------------------------------------------------------

  datatype Register = DIV | TIMA | TMA | TAC

  function Write(s: TimerState, register: Register, value: u8): Outcome
    requires s.Valid()
  {
    match register
    case DIV => Edge(s, s.(div := 0))
    case TIMA => Outcome(if s.justReloaded then s else s.(tima := value, reloadPending := 0), 0, 0)
    case TMA => Outcome(s.(tma := value, tima := if s.justReloaded then value else s.tima), 0, 0)
    case TAC => Edge(s, s.(enable := Bit(value, 2) == 1, select := value % 4))
  }

  /** Going from `s` to `t` steps TIMA if the gate falls. */
  function Edge(s: TimerState, t: TimerState): Outcome
    requires s.Valid() && t.Valid()
  {
    var fell := s.Gate(s.select) && !t.Gate(t.select);
    Outcome(t.FallingEdge(s.Gate(s.select), t.Gate(t.select)), 0, if fell && t.tima == 0xFF then 1 else 0)
  }

  // ---------------------------------------------------------------------------
  // The in-place timer
  // ---------------------------------------------------------------------------

  class TimerRegs {
    var divCounter: u16
    var tima: u8
    var tma: u8
    var enable: bool
    var clockSelect: nat
    var reloadPending: u8
    var justReloaded: bool
    const interrupts: InterruptRegs

    ghost predicate Valid()
      reads this
    {
      View().Valid()
    }

    ghost function View(): TimerState
      reads this
    {
      TimerState(divCounter, tima, tma, enable, clockSelect, reloadPending, justReloaded)
    }

    /** timer_init. */
    constructor (interrupts: InterruptRegs)
      ensures Valid() && this.interrupts == interrupts
      ensures View() == TimerState(0xABD4, 0, 0, false, 0, 0, false)
    {
      divCounter, tima, tma, enable, clockSelect := 0xABD4, 0, 0, false, 0;
      reloadPending, justReloaded := 0, false;
      this.interrupts := interrupts;
    }

    method TimerTick(cycles: nat)
      requires Valid()
      modifies this, interrupts`timer, interrupts`timerRequests
      ensures Valid() && View() == Tick(old(View()), cycles).state
      ensures interrupts.timerRequests == old(interrupts.timerRequests) + Tick(old(View()), cycles).requests
      ensures interrupts.timer == (old(interrupts.timer) || Tick(old(View()), cycles).requests > 0)
    {
      var oldDiv := divCounter;
      divCounter := (divCounter + cycles) % DIV_SIZE;
      justReloaded := false;
      if reloadPending > 0 {
        if cycles >= reloadPending {
          tima := tma;
          interrupts.RequestTimer();
          reloadPending := 0;
          justReloaded := true;
        } else {
          reloadPending := reloadPending - cycles;
        }
      }
      if !enable {
        return;
      }
      var freq := Period(clockSelect);
      var ticks := (divCounter / freq - oldDiv / freq) % DIV_SIZE;
      ghost var due, s := ticks, View();
      while ticks > 0
        invariant 0 <= ticks <= due && s.tima + (due - ticks) <= 0xFF
        invariant View() == s.(tima := s.tima + (due - ticks))
        modifies this
      {
        ticks := ticks - 1;
        if tima == 0xFF {
          tima := 0;
          reloadPending := 4;
          break;
        }
        tima := tima + 1;
      }
    }

    method TimerWrite(register: Register, value: u8)
      requires Valid()
      modifies this
      ensures Valid() && View() == Write(old(View()), register, value).state
    {
      match register
      case DIV =>
        var before := AndGate(clockSelect);
        divCounter := 0;
        var after := AndGate(clockSelect);
        ApplyFallingEdge(before, after);
      case TIMA =>
        if !justReloaded {
          tima := value;
          reloadPending := 0;
        }
      case TMA =>
        tma := value;
        if justReloaded {
          tima := value;
        }
      case TAC =>
        var before := AndGate(clockSelect);
        enable := Bit(value, 2) == 1;
        clockSelect := value % 4;
        var after := AndGate(clockSelect);
        ApplyFallingEdge(before, after);
    }

    method AndGate(select: nat) returns (b: bool)
      requires select < 4
      ensures b == View().Gate(select)
    {
      b := enable && Watched(divCounter, select);
    }

    method ApplyFallingEdge(before: bool, after: bool)
      modifies this
      ensures View() == old(View()).FallingEdge(before, after)
    {
      if before && !after {
        tima := (tima + 1) % 0x100;
        if tima == 0 {
          reloadPending := 4;
        }
      }
    }
  }
}
