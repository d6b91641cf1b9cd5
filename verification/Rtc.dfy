/**
 The MBC3 real-time clock, src/memory/mbc/mbc3.c: five registers advanced by wall-clock time, a day
 counter with a sticky carry, and a latched copy for reads. The wall clock is a parameter.
 */
module Rtc {
  import opened Bytes
  import DivMod

  const DAY := 86400
  const RANGE := 512 * DAY

  /** The registers as bytes; day-high holds the ninth day bit, halt, and carry. */
  datatype Clock = Clock(seconds: u8, minutes: u8, hours: u8, dayLow: u8, dayHigh: u8) {
    predicate Halted() { Bit(dayHigh, 6) == 1 }
    predicate Carry() { Bit(dayHigh, 7) == 1 }

    function Days(): nat { Bit(dayHigh, 0) * 0x100 + dayLow }

    /** The count in seconds, whatever the bytes hold. */
    function Total(): nat { seconds + 60 * (minutes + 60 * (hours + 24 * Days())) }

    /** Every digit below its radix, unused day-high bits clear. */
    predicate InRange() { seconds < 60 && minutes < 60 && hours < 24 && dayHigh % 64 < 2 }
  }

  /** A day-high byte from its three parts. */
  function DayHigh(msb: nat, halted: bool, carry: bool): (b: u8)
    requires msb < 2
    ensures Bit(b, 0) == msb && (Bit(b, 6) == 1 <==> halted) && (Bit(b, 7) == 1 <==> carry) && b % 64 == msb
  {
    var b := msb + (if halted then 0x40 else 0) + (if carry then 0x80 else 0);
    DayHighBits(b);
    b
  }

  lemma DayHighBits(b: u8)
    ensures Bit(b, 0) == b % 2 && Bit(b, 6) == b / 64 % 2 && Bit(b, 7) == b / 128
  {
    hide Bit;
    Bit6(b, 6);
    Bit6(b, 7);
    LowBits(b);
    LowBits(b / 64);
    assert b / 64 < 4;
  }

  lemma LowBits(x: nat)
    ensures Bit(x, 0) == x % 2 && Bit(x, 1) == x / 2 % 2
  {
    assert Bit(x, 1) == Bit(x / 2, 0);
  }

  lemma Bit6(x: nat, k: nat)
    requires k >= 6
    ensures Bit(x, k) == Bit(x / 64, k - 6)
  {
    Bit3(x, k);
    Bit3(x / 8, k - 3);
    hide Bit;
    assert x / 8 / 8 == x / 64;
  }

  lemma Bit3(x: nat, k: nat)
    requires k >= 3
    ensures Bit(x, k) == Bit(x / 8, k - 3)
  {
    assert x / 2 / 2 / 2 == x / 8;
    assert Bit(x, k) == Bit(x / 2, k - 1) == Bit(x / 2 / 2, k - 2) == Bit(x / 2 / 2 / 2, k - 3);
  }

  /** The registers holding a total below 512 days. */
  function FromTotal(t: nat, halted: bool, carry: bool): (c: Clock)
    requires t < RANGE
    ensures c.InRange() && c.Total() == t && c.Halted() == halted && c.Carry() == carry
  {
    var minutes := t / 60;
    var hours := minutes / 60;
    var days := hours / 24;
    Clock(t % 60, minutes % 60, hours % 24, days % 0x100, DayHigh(days / 0x100, halted, carry))
  }

  /** Radix digits are determined by the total they spell. */
  lemma TotalDetermines(c: Clock, d: Clock)
    requires c.InRange() && d.InRange() && c.Total() == d.Total() && c.Halted() == d.Halted() && c.Carry() == d.Carry()
    ensures c == d
  {
    var ch, cm := c.hours + 24 * c.Days(), c.minutes + 60 * (c.hours + 24 * c.Days());
    var dh, dm := d.hours + 24 * d.Days(), d.minutes + 60 * (d.hours + 24 * d.Days());
    DayDetermines(c, d);
    hide Clock.Days;
    DivMod.Same(60, cm, c.seconds, dm, d.seconds);
    DivMod.Same(60, ch, c.minutes, dh, d.minutes);
    DivMod.Same(24, c.Days(), c.hours, d.Days(), d.hours);
  }

  lemma DayDetermines(c: Clock, d: Clock)
    requires c.dayHigh % 64 < 2 && d.dayHigh % 64 < 2 && c.Halted() == d.Halted() && c.Carry() == d.Carry()
    ensures c.Days() == d.Days() ==> c.dayLow == d.dayLow && c.dayHigh == d.dayHigh
  {
    DayHighBits(c.dayHigh);
    DayHighBits(d.dayHigh);
    hide Bit;
  }

  /** The clock `e` seconds later: counting modulo 512 days, with a carry that sticks. */
  function After(c: Clock, e: nat): Clock {
    if c.Halted() || e == 0 then c
    else FromTotal((c.Total() + e) % RANGE, false, c.Carry() || c.Total() + e >= RANGE)
  }

  /** Seconds a tick adds when the wall clock reads `now`: none while it has not moved forward. */
  function Elapsed(last: int, now: int): nat {
    if now <= last then 0 else now - last
  }

  class Mbc3 {
    const rtc: array<u8>
    const rtcLatched: array<u8>
    var rtcLast: int
    var latch: u8
    var ramBank: u8
    var ramEnabled: bool
    var hasRtc: bool

    ghost predicate Valid()
      reads this
    {
      rtc.Length == 5 && rtcLatched.Length == 5 && rtc != rtcLatched
    }

    ghost function Live(): Clock
      requires Valid()
      reads this, rtc
    {
      Clock(rtc[0], rtc[1], rtc[2], rtc[3], rtc[4])
    }

    ghost function Latched(): Clock
      requires Valid()
      reads this, rtcLatched
    {
      Clock(rtcLatched[0], rtcLatched[1], rtcLatched[2], rtcLatched[3], rtcLatched[4])
    }

    /** mbc3_init. */
    constructor (now: int, hasRtc: bool)
      ensures Valid() && fresh(rtc) && fresh(rtcLatched) && rtcLast == now && this.hasRtc == hasRtc
      ensures Live() == Clock(0, 0, 0, 0, 0) && Latched() == Clock(0, 0, 0, 0, 0)
      ensures latch == 0xFF && ramBank == 0 && !ramEnabled
    {
      rtc, rtcLatched := new u8[5](_ => 0), new u8[5](_ => 0);
      rtcLast, latch, ramBank, ramEnabled := now, 0xFF, 0, false;
      this.hasRtc := hasRtc;
    }

    /** rtc_tick. */
    method RtcTick(now: int)
      requires Valid()
      modifies rtc, `rtcLast
      ensures Live() == After(old(Live()), Elapsed(old(rtcLast), now)) && rtcLast == now
    {
      hide After, Bit, DayHigh;
      ghost var before := Live();
      NoTime(before);
      if Bit(rtc[4], 6) == 1 {
        rtcLast := now;
        HaltedStays(before, Elapsed(old(rtcLast), now));
        return;
      }
      var elapsed := now - rtcLast;
      rtcLast := now;
      if elapsed <= 0 {
        return;
      }
      var seconds := rtc[0] + elapsed;
      rtc[0] := seconds % 60;
      var minutes := rtc[1] + seconds / 60;
      rtc[1] := minutes % 60;
      var hours := rtc[2] + minutes / 60;
      rtc[2] := hours % 24;
      var days := Bit(rtc[4], 0) * 0x100 + rtc[3] + hours / 24;
      rtc[3] := days % 0x100;
      rtc[4] := DayHigh(days / 0x100 % 2, false, Bit(rtc[4], 7) == 1 || days > 0x1FF);
      TickIsAfter(before, elapsed, seconds, minutes, hours, days);
    }

    /** The latch register of mbc3_rom_write: 0x00 then 0x01 takes a snapshot. */
    method WriteLatch(value: u8, now: int)
      requires Valid()
      modifies this, rtc, rtcLatched
      ensures var snap := old(latch) == 0 && value == 1;
        && Live() == (if snap then After(old(Live()), Elapsed(old(rtcLast), now)) else old(Live()))
        && Latched() == (if snap then Live() else old(Latched()))
        && rtcLast == (if snap then now else old(rtcLast))
      ensures latch == value && ramBank == old(ramBank) && ramEnabled == old(ramEnabled) && hasRtc == old(hasRtc)
    {
      if latch == 0x00 && value == 0x01 {
        RtcTick(now);
        for i := 0 to 5
          invariant forall k :: 0 <= k < i ==> rtcLatched[k] == rtc[k]
          invariant Live() == After(old(Live()), Elapsed(old(rtcLast), now))
          modifies rtcLatched
        {
          rtcLatched[i] := rtc[i];
        }
      }
      latch := value;
    }

    /** The register half of mbc3_ram_write: bring the clock up to date, then overwrite one register. */
    method WriteRegister(value: u8, now: int)
      requires Valid()
      modifies rtc, rtcLatched, `rtcLast
      ensures var hit := ramEnabled && hasRtc && 0x08 <= ramBank <= 0x0C;
        if hit then
          var c := After(old(Live()), Elapsed(old(rtcLast), now));
          && Live() == Overwrite(c, ramBank - 0x08, value)
          && Latched() == Overwrite(old(Latched()), ramBank - 0x08, value) && rtcLast == now
        else Live() == old(Live()) && Latched() == old(Latched()) && rtcLast == old(rtcLast)
    {
      if !ramEnabled {
        return;
      }
      if ramBank >= 0x08 && ramBank <= 0x0C && hasRtc {
        RtcTick(now);
        var reg := ramBank - 0x08;
        var stored := if reg == 4 then value / 64 * 64 + value % 2 else value;
        rtc[reg] := stored;
        rtcLatched[reg] := stored;
      }
    }
  }

  /** One register replaced; day-high keeps its three real bits only. */
  function Overwrite(c: Clock, reg: nat, value: u8): Clock {
    match reg
    case 0 => c.(seconds := value)
    case 1 => c.(minutes := value)
    case 2 => c.(hours := value)
    case 3 => c.(dayLow := value)
    case _ => c.(dayHigh := value / 64 * 64 + value % 2)
  }

  /** The carry chain of rtc_tick spells the total plus the elapsed time. */
  lemma TickTotal(c: Clock, e: nat, seconds: nat, minutes: nat, hours: nat, days: nat)
    requires seconds == c.seconds + e && minutes == c.minutes + seconds / 60 && hours == c.hours + minutes / 60
    requires days == c.Days() + hours / 24
    ensures seconds % 60 + 60 * (minutes % 60 + 60 * (hours % 24 + 24 * days)) == c.Total() + e
    ensures seconds % 60 + 60 * (minutes % 60 + 60 * (hours % 24 + 24 * (days % 512))) == (c.Total() + e) % RANGE
    ensures days > 0x1FF <==> c.Total() + e >= RANGE
  {
    hide Clock.Days;
    assert seconds % 60 + 60 * minutes == c.seconds + e + 60 * c.minutes;
    assert minutes % 60 + 60 * hours == minutes + 60 * c.hours;
    assert hours % 24 + 24 * days == hours + 24 * c.Days();
    var low := seconds % 60 + 60 * (minutes % 60 + 60 * (hours % 24));
    assert low < DAY && c.Total() + e == low + DAY * days;
    DivMod.Unique(c.Total() + e, RANGE, days / 512, low + DAY * (days % 512));
  }

  /** The registers rtc_tick computes are the clock after the elapsed time. */
  lemma TickIsAfter(c: Clock, e: nat, seconds: nat, minutes: nat, hours: nat, days: nat)
    requires !c.Halted() && e > 0
    requires seconds == c.seconds + e && minutes == c.minutes + seconds / 60 && hours == c.hours + minutes / 60
    requires days == c.Days() + hours / 24
    ensures Clock(seconds % 60, minutes % 60, hours % 24, days % 0x100,
                  DayHigh(days / 0x100 % 2, false, Bit(c.dayHigh, 7) == 1 || days > 0x1FF)) == After(c, e)
  {
    var carry := c.Carry() || days > 0x1FF;
    var t := Clock(seconds % 60, minutes % 60, hours % 24, days % 0x100, DayHigh(days / 0x100 % 2, false, carry));
    hide DayHigh, Bit, FromTotal;
    TickTotal(c, e, seconds, minutes, hours, days);
    DaysSplit(days);
    assert t.Days() == days % 512;
    hide Clock.Days;
    TotalDetermines(t, After(c, e));
  }

  lemma DaysSplit(days: nat)
    ensures days / 0x100 % 2 * 0x100 + days % 0x100 == days % 512
  {
    DivMod.Unique(days, 512, days / 512, days / 0x100 % 2 * 0x100 + days % 0x100);
  }

  lemma HaltedStays(c: Clock, e: nat)
    requires c.Halted()
    ensures After(c, e) == c
  {
  }

  // ---------------------------------------------------------------------------
  // Runs of ticks
  // ---------------------------------------------------------------------------

  /** Ticking a then b is ticking a + b. */
  lemma AfterAdds(c: Clock, a: nat, b: nat)
    ensures After(After(c, a), b) == After(c, a + b)
  {
    hide FromTotal, Clock.Total, Clock.Halted, Clock.Carry, Clock.InRange;
    if !c.Halted() && a > 0 && b > 0 {
      var q := (c.Total() + a) / RANGE;
      DivMod.Shift(c.Total() + a + b, RANGE, -q);
      assert (c.Total() + a) % RANGE == c.Total() + a - RANGE * q;
      TotalDetermines(After(After(c, a), b), After(c, a + b));
    }
  }

  /** The clock after ticks at the given wall-clock readings. */
  function Ticks(c: Clock, last: int, nows: seq<int>): Clock
    decreases |nows|
  {
    if nows == [] then c else Ticks(After(c, Elapsed(last, nows[0])), nows[0], nows[1..])
  }

  function TotalElapsed(last: int, nows: seq<int>): nat
    decreases |nows|
  {
    if nows == [] then 0 else Elapsed(last, nows[0]) + TotalElapsed(nows[0], nows[1..])
  }

  /** However often the clock is brought up to date, only the forward movement of the wall clock counts. */
  lemma {:induction false} TicksAddUp(c: Clock, last: int, nows: seq<int>)
    ensures Ticks(c, last, nows) == After(c, TotalElapsed(last, nows))
    decreases |nows|
  {
    hide After;
    if nows == [] {
      NoTime(c);
    } else {
      TicksAddUp(After(c, Elapsed(last, nows[0])), nows[0], nows[1..]);
      AfterAdds(c, Elapsed(last, nows[0]), TotalElapsed(nows[0], nows[1..]));
    }
  }

  lemma NoTime(c: Clock)
    ensures After(c, 0) == c
  {
  }

  /** While the wall clock never runs backwards, that is the time since the first tick. */
  lemma {:induction false} ForwardTime(last: int, nows: seq<int>)
    requires nows != [] && last <= nows[0] && forall i :: 0 < i < |nows| ==> nows[i - 1] <= nows[i]
    ensures TotalElapsed(last, nows) == nows[|nows| - 1] - last
    decreases |nows|
  {
    if |nows| > 1 {
      ForwardTime(nows[0], nows[1..]);
    }
  }

  // ---------------------------------------------------------------------------
  // The same in numbers
  // ---------------------------------------------------------------------------

  /** Day-high: the ninth day bit is bit 0, halt is bit 6 and carry bit 7. */
  lemma ClockInNumbers(c: Clock)
    ensures c.Total() == c.seconds + 60 * c.minutes + 3600 * c.hours + 86400 * (c.dayLow + 256 * (c.dayHigh % 2))
    ensures (c.Halted() <==> c.dayHigh / 64 % 2 == 1) && (c.Carry() <==> c.dayHigh >= 128)
  {
    DayHighBits(c.dayHigh);
    hide Bit;
  }

  /** `e` seconds on a running clock: digits in range, the total modulo 44236800, and a carry that sticks. */
  lemma AfterInNumbers(c: Clock, e: nat)
    requires c.dayHigh / 64 % 2 == 0 && e > 0
    ensures var d := After(c, e);
      var total := c.seconds + 60 * c.minutes + 3600 * c.hours + 86400 * (c.dayLow + 256 * (c.dayHigh % 2)) + e;
      && d.seconds + 60 * d.minutes + 3600 * d.hours + 86400 * (d.dayLow + 256 * (d.dayHigh % 2)) == total % 44236800
      && d.seconds < 60 && d.minutes < 60 && d.hours < 24 && d.dayHigh % 128 < 2
      && (d.dayHigh >= 128 <==> c.dayHigh >= 128 || total >= 44236800)
  {
    ClockInNumbers(c);
    ClockInNumbers(After(c, e));
    hide Clock.Total, Clock.Halted, Clock.Carry, FromTotal;
    var d := After(c, e);
    assert !d.Halted() && d.dayHigh % 64 < 2;
  }

  /** A halted clock stands still, and a wall clock that has not moved forward moves nothing. */
  lemma StandsStill(c: Clock, e: nat, last: int, now: int)
    ensures c.dayHigh / 64 % 2 == 1 ==> After(c, e) == c
    ensures After(c, 0) == c
    ensures if now <= last then Elapsed(last, now) == 0 else last + Elapsed(last, now) == now
  {
    ClockInNumbers(c);
    hide FromTotal, Bit;
  }

  /** A register write replaces one register; day-high keeps bits 0, 6 and 7 only. */
  lemma OverwriteInNumbers(c: Clock, value: u8)
    ensures Overwrite(c, 0, value) == c.(seconds := value) && Overwrite(c, 1, value) == c.(minutes := value)
    ensures Overwrite(c, 2, value) == c.(hours := value) && Overwrite(c, 3, value) == c.(dayLow := value)
    ensures var d := Overwrite(c, 4, value);
      && d == c.(dayHigh := d.dayHigh)
      && d.dayHigh % 2 == value % 2 && d.dayHigh / 2 % 32 == 0 && d.dayHigh / 64 == value / 64
  {
    var q, r := value / 64, value % 2;
    assert (64 * q + r) % 2 == r && (64 * q + r) / 2 == 32 * q && (64 * q + r) / 64 == q;
  }
}
