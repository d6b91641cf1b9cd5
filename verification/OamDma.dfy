/**
 OAM DMA, src/io/oam_dma.c: a 160-byte copy with an 8-cycle setup delay, and a restart
 that is queued while the old transfer keeps copying.

 The bus a transfer reads may change between calls, so a run is a list of calls, each with
 the cycles it advances and the bus contents it sees. CPU writes to OAM interleave with them
 and are dropped while a transfer owns OAM (src/bus.c: write_oam).
 */
module OamDma {
  import opened Bytes

  const OAM_SIZE := 160
  const ECHO_START := 0xE000
  const ECHO_OFFSET := 0x2000

  /** What every bus address reads as, at one moment. */
  type Bus = s: seq<u8> | |s| == 0x1_0000 witness seq(0x1_0000, _ => 0)
  type Oam = s: seq<u8> | |s| == OAM_SIZE witness seq(OAM_SIZE, _ => 0)

  datatype DmaState = DmaState(active: bool, source: u16, index: u8, startDelay: u8,
                               pending: bool, pendingSource: u16, pendingDelay: u8)
  {
    /** What every reachable engine satisfies. */
    predicate Valid() {
      && startDelay <= 8 && startDelay % 4 == 0
      && (active ==> index < OAM_SIZE && source % 0x100 == 0)
      && (pending ==> startDelay == 0 && pendingSource % 0x100 == 0 && (pendingDelay == 4 || pendingDelay == 8))
    }

    /** A transfer is copying: the CPU cannot reach OAM. */
    predicate OwnsOam() { active && startDelay == 0 }

    /** oam_dma_write. */
    function Write(page: u8): DmaState {
      if OwnsOam() then this.(pending := true, pendingSource := page * 0x100, pendingDelay := 8)
      else DmaState(true, page * 0x100, 0, 8, false, pendingSource, 0)
    }

    /** The transfer half of one M-cycle. */
    function Transfer(): DmaState {
      if !active then this
      else if startDelay > 0 then this.(startDelay := (startDelay - 4) % 0x100)
      else this.(index := (index + 1) % 0x100, active := (index + 1) % 0x100 < OAM_SIZE)
    }

    /** The queued-restart half of one M-cycle. */
    function CountDown(): DmaState {
      if !pending then this
      else
        var d := (pendingDelay - 4) % 0x100;
        if d == 0 then
          this.(source := pendingSource, index := 0, startDelay := 0, active := true, pending := false, pendingDelay := d)
        else this.(pendingDelay := d)
    }

    function MCycle(): DmaState {
      Transfer().CountDown()
    }
  }

  /** The address the DMA bus really drives for byte `i` of a transfer: WRAM is mirrored over $E000-$FFFF. */
  function SourceAddress(source: u16, i: nat): (a: u16)
    requires source % 0x100 == 0 && i < OAM_SIZE
    ensures a < ECHO_START
  {
    if source + i >= ECHO_START then source + i - ECHO_OFFSET else source + i
  }

  datatype Machine = Machine(dma: DmaState, oam: Oam) {
    predicate Valid() { dma.Valid() }

    /** One M-cycle of engine and memory. */
    function MCycle(bus: Bus): Machine
      requires Valid()
    {
      Machine(dma.MCycle(), if dma.OwnsOam() then oam[dma.index := bus[SourceAddress(dma.source, dma.index)]] else oam)
    }

    /** A CPU write to OAM that the LCD mode lets through. */
    function CpuWrite(i: nat, value: u8): Machine
      requires i < OAM_SIZE
    {
      if dma.OwnsOam() then this else this.(oam := oam[i := value])
    }

    predicate Idle() { !dma.active && !dma.pending }
  }

  lemma MCycleKeepsValid(m: Machine, bus: Bus)
    requires m.Valid()
    ensures m.MCycle(bus).Valid()
  {
  }

  function MCycles(m: Machine, bus: Bus, n: nat): (r: Machine)
    requires m.Valid()
    ensures r.Valid()
  {
    if n == 0 then m
    else
      var p := MCycles(m, bus, n - 1);
      MCycleKeepsValid(p, bus);
      p.MCycle(bus)
  }

  // ---------------------------------------------------------------------------
  // The in-place engine
  // ---------------------------------------------------------------------------

  class Dma {
    var active: bool
    var source: u16
    var index: u8
    var startDelay: u8
    var pending: bool
    var pendingSource: u16
    var pendingDelay: u8
    const oam: array<u8>

    ghost predicate Valid()
      reads this
    {
      oam.Length == OAM_SIZE && State().Valid()
    }

    function State(): DmaState
      reads this
    {
      DmaState(active, source, index, startDelay, pending, pendingSource, pendingDelay)
    }

    ghost function View(): Machine
      requires Valid()
      reads this, oam
    {
      Machine(State(), oam[..])
    }

    /** oam_dma_init. */
    constructor (oam: array<u8>)
      requires oam.Length == OAM_SIZE
      ensures Valid() && this.oam == oam && View().Idle()
    {
      active, source, index, startDelay := false, 0xFFFF, 0, 0;
      pending, pendingSource, pendingDelay := false, 0xFFFF, 0;
      this.oam := oam;
    }

    method Write(value: u8)
      requires Valid()
      modifies this
      ensures Valid() && View() == old(View()).(dma := old(State()).Write(value))
    {
      if active && startDelay == 0 {
        pending := true;
        pendingSource := value * 0x100;
        pendingDelay := 8;
        return;
      }
      active := true;
      source := value * 0x100;
      index := 0;
      startDelay := 8;
      pending := false;
      pendingDelay := 0;
    }

    /** oam_dma_tick. */
    method Tick(bus: Bus, cycles: nat)
      requires Valid()
      modifies this, oam
      ensures Valid() && View() == MCycles(old(View()), bus, cycles / 4)
    {
      hide Machine.MCycle, DmaState.Valid;
      if !active && !pending {
        IdleStays(View(), bus, cycles / 4);
        return;
      }
      var left := cycles;
      ghost var n := 0;
      while left >= 4 && (active || pending)
        invariant Valid() && left == cycles - 4 * n >= 0 && n >= 0
        invariant View() == MCycles(old(View()), bus, n)
      {
        left := left - 4;
        OneMCycle(bus);
        n := n + 1;
      }
      if left >= 4 {
        IdleStays(View(), bus, cycles / 4 - n);
        MCyclesCompose(old(View()), bus, n, cycles / 4 - n);
      }
    }

    /** The body of the oam_dma_tick loop. */
    method OneMCycle(bus: Bus)
      requires Valid()
      modifies this, oam
      ensures Valid() && View() == old(View()).MCycle(bus)
    {
      hide DmaState.Transfer, DmaState.CountDown, SourceAddress;
      MCycleKeepsValid(View(), bus);
      TransferOne(bus);
      CountDownOne();
    }

    method TransferOne(bus: Bus)
      requires Valid()
      modifies this`active, this`index, this`startDelay, oam
      ensures State() == old(State()).Transfer()
      ensures oam[..] ==
        old(if State().OwnsOam() then oam[..][index := bus[SourceAddress(source, index)]] else oam[..])
    {
      if active {
        if startDelay > 0 {
          startDelay := startDelay - 4;
        } else {
          var value := BusRead(bus, source + index);
          oam[index] := value;
          index := index + 1;
          if index >= OAM_SIZE {
            active := false;
          }
        }
      }
    }

    method CountDownOne()
      requires pending ==> pendingDelay == 4 || pendingDelay == 8
      modifies this
      ensures State() == old(State()).CountDown()
    {
      if pending {
        pendingDelay := pendingDelay - 4;
        if pendingDelay == 0 {
          source := pendingSource;
          index := 0;
          startDelay := 0;
          active := true;
          pending := false;
        }
      }
    }

    /** oam_dma_bus_read. */
    method BusRead(bus: Bus, addr: u16) returns (value: u8)
      ensures value == bus[if addr >= ECHO_START then addr - ECHO_OFFSET else addr]
    {
      var a := addr;
      if a >= ECHO_START {
        a := a - ECHO_OFFSET;
      }
      value := bus[a];
    }
  }

  lemma {:induction false} MCyclesCompose(m: Machine, bus: Bus, a: nat, b: nat)
    requires m.Valid()
    ensures MCycles(m, bus, a + b) == MCycles(MCycles(m, bus, a), bus, b)
  {
    hide Machine.MCycle, DmaState.Valid;
    if b > 0 {
      MCyclesCompose(m, bus, a, b - 1);
    }
  }

  lemma {:induction false} IdleStays(m: Machine, bus: Bus, n: nat)
    requires m.Valid() && m.Idle()
    ensures MCycles(m, bus, n) == m
  {
    if n > 0 {
      IdleStays(m, bus, n - 1);
    }
  }

  // ---------------------------------------------------------------------------
  // Runs
  // ---------------------------------------------------------------------------

  /** What can happen between two $FF46 writes. */
  datatype Event = Tick(bus: Bus, cycles: nat) | OamWrite(i: nat, value: u8)

  predicate WellFormed(e: Event) {
    e.OamWrite? ==> e.i < OAM_SIZE
  }

  function Apply(m: Machine, e: Event): (r: Machine)
    requires m.Valid() && WellFormed(e)
    ensures r.Valid()
  {
    match e
    case Tick(bus, cycles) => MCycles(m, bus, cycles / 4)
    case OamWrite(i, value) => m.CpuWrite(i, value)
  }

  function Run(m: Machine, events: seq<Event>): (r: Machine)
    requires m.Valid() && forall e <- events :: WellFormed(e)
    ensures r.Valid()
  {
    if events == [] then m else Apply(Run(m, events[..|events| - 1]), events[|events| - 1])
  }

  function Repeat(bus: Bus, n: nat): (r: seq<Bus>)
    ensures |r| == n
  {
    seq<Bus>(n, _ => bus)
  }

  /** The bus each M-cycle of a run reads, in order. */
  function Buses(events: seq<Event>): seq<Bus>
    requires forall e <- events :: WellFormed(e)
  {
    if events == [] then []
    else
      var e := events[|events| - 1];
      Buses(events[..|events| - 1]) + if e.Tick? then Repeat(e.bus, e.cycles / 4) else []
  }

  /**
   The engine `|buses|` M-cycles after a write of `page`: two of setup (fresh or queued),
   then one byte per M-cycle, then idle. `buses` are the buses those M-cycles saw.
   */
  ghost predicate Since(m: Machine, page: u8, buses: seq<Bus>) {
    var k, d := |buses|, m.dma;
    && m.Valid()
    && (k < 2 ==>
          || (d.active && !d.pending && d.source == page * 0x100 && d.index == 0 && d.startDelay == 8 - 4 * k)
          || (d.pending && d.startDelay == 0 && d.pendingSource == page * 0x100 && d.pendingDelay == 8 - 4 * k))
    && (2 <= k < OAM_SIZE + 2 ==>
          d.active && !d.pending && d.source == page * 0x100 && d.startDelay == 0 && d.index == k - 2)
    && (k >= OAM_SIZE + 2 ==> m.Idle())
    && (k >= 2 ==> Copied(m.oam, page, buses, if k < OAM_SIZE + 2 then k - 2 else OAM_SIZE))
  }

  /** The first `n` bytes of OAM are the page, each read through the bus of its own M-cycle. */
  ghost predicate Copied(oam: Oam, page: u8, buses: seq<Bus>, n: nat)
    requires n <= OAM_SIZE && n + 2 <= |buses|
  {
    forall i :: 0 <= i < n ==> oam[i] == buses[i + 2][SourceAddress(page * 0x100, i)]
  }

  lemma WriteStarts(m: Machine, page: u8)
    requires m.Valid()
    ensures Since(m.(dma := m.dma.Write(page)), page, [])
  {
  }

  lemma SetupAdvances(m: Machine, page: u8, buses: seq<Bus>, bus: Bus)
    requires Since(m, page, buses) && |buses| < 2
    ensures Since(m.MCycle(bus), page, buses + [bus])
  {
    hide SourceAddress;
  }

  lemma CopyAdvances(m: Machine, page: u8, buses: seq<Bus>, bus: Bus)
    requires Since(m, page, buses) && |buses| >= 2
    ensures Since(m.MCycle(bus), page, buses + [bus])
  {
    hide SourceAddress, Copied;
    CopiedGrows(m, page, buses, bus);
  }

  lemma MCycleAdvances(m: Machine, page: u8, buses: seq<Bus>, bus: Bus)
    requires Since(m, page, buses)
    ensures Since(m.MCycle(bus), page, buses + [bus])
  {
    hide Since, Machine.MCycle;
    if |buses| < 2 {
      SetupAdvances(m, page, buses, bus);
    } else {
      CopyAdvances(m, page, buses, bus);
    }
  }

  /** One more M-cycle copies its byte, or none once the page is done. */
  lemma CopiedGrows(m: Machine, page: u8, buses: seq<Bus>, bus: Bus)
    requires Since(m, page, buses) && |buses| >= 2
    ensures Copied(m.MCycle(bus).oam, page, buses + [bus], if |buses| + 1 < OAM_SIZE + 2 then |buses| - 1 else OAM_SIZE)
  {
    hide SourceAddress;
    var k := |buses|;
    assert forall i :: 0 <= i < k ==> (buses + [bus])[i] == buses[i];
    assert (buses + [bus])[k] == bus;
  }

  lemma {:induction false} TickAdvances(m: Machine, page: u8, buses: seq<Bus>, bus: Bus, n: nat)
    requires Since(m, page, buses)
    ensures Since(MCycles(m, bus, n), page, buses + Repeat(bus, n))
  {
    if n == 0 {
      assert buses + Repeat(bus, n) == buses;
    } else {
      TickAdvances(m, page, buses, bus, n - 1);
      MCycleAdvances(MCycles(m, bus, n - 1), page, buses + Repeat(bus, n - 1), bus);
      assert buses + Repeat(bus, n - 1) + [bus] == buses + Repeat(bus, n);
    }
  }

  lemma {:induction false} RunAdvances(m: Machine, page: u8, events: seq<Event>)
    requires Since(m, page, []) && forall e <- events :: WellFormed(e)
    requires |Buses(events)| < OAM_SIZE + 2
    ensures Since(Run(m, events), page, Buses(events))
  {
    if events != [] {
      var before := events[..|events| - 1];
      var e := events[|events| - 1];
      RunAdvances(m, page, before);
      if e.Tick? {
        TickAdvances(Run(m, before), page, Buses(before), e.bus, e.cycles / 4);
      }
    }
  }

  /**
   Last write wins. From any state - idle, in setup, copying, or with another restart queued -
   the tick that brings the 162nd M-cycle since the last write leaves OAM holding all 160 bytes
   of the written page and the engine idle, and until then it is busy. The split of the cycles
   into ticks and the CPU's writes to OAM in between make no difference.
   */
  lemma LastWriteWins(m: Machine, page: u8, events: seq<Event>, last: Event)
    requires m.Valid() && last.Tick? && WellFormed(last) && forall e <- events :: WellFormed(e)
    requires |Buses(events)| < OAM_SIZE + 2 <= |Buses(events + [last])|
    ensures var written := m.(dma := m.dma.Write(page));
      && !Run(written, events).Idle()
      && Run(written, events + [last]).Idle()
      && Copied(Run(written, events + [last]).oam, page, Buses(events + [last]), OAM_SIZE)
  {
    var written := m.(dma := m.dma.Write(page));
    WriteStarts(m, page);
    RunAdvances(written, page, events);
    var all := events + [last];
    assert all[..|all| - 1] == events && all[|all| - 1] == last;
    TickAdvances(Run(written, events), page, Buses(events), last.bus, last.cycles / 4);
  }

  /** While the source memory is not written, OAM ends up as the page itself. */
  lemma PageIsCopied(m: Machine, page: u8, events: seq<Event>, last: Event, bus: Bus)
    requires m.Valid() && last.Tick? && WellFormed(last) && forall e <- events :: WellFormed(e)
    requires |Buses(events)| < OAM_SIZE + 2 <= |Buses(events + [last])|
    requires last.bus == bus && forall e <- events :: e.Tick? ==> e.bus == bus
    ensures Run(m.(dma := m.dma.Write(page)), events + [last]).oam
            == seq(OAM_SIZE, i requires 0 <= i < OAM_SIZE => bus[SourceAddress(page * 0x100, i)])
  {
    hide Since, Run, Buses;
    LastWriteWins(m, page, events, last);
    OneBus(events + [last], bus);
  }

  /** Byte `i` of the page, on a bus where $E000 and above drive the RAM 0x2000 below. */
  lemma SourceByte(page: u8, i: nat)
    requires i < 160
    ensures SourceAddress(page * 256, i) == if page < 0xE0 then page * 256 + i else page * 256 - 0x2000 + i
  {
  }

  /** The same result as 160 addresses, each byte read through the bus of its own M-cycle, 2 to 161 after the write. */
  lemma LastWriteBytes(m: Machine, page: u8, events: seq<Event>, last: Event)
    requires m.Valid() && last.Tick? && WellFormed(last) && forall e <- events :: WellFormed(e)
    requires |Buses(events)| < 162 <= |Buses(events + [last])|
    ensures var oam, buses := Run(m.(dma := m.dma.Write(page)), events + [last]).oam, Buses(events + [last]);
      forall i :: 0 <= i < 160 ==>
        oam[i] == buses[i + 2][if page < 0xE0 then page * 256 + i else page * 256 - 0x2000 + i]
  {
    hide Run, Buses, SourceAddress;
    LastWriteWins(m, page, events, last);
    forall i: nat | i < 160
      ensures SourceAddress(page * 256, i) == if page < 0xE0 then page * 256 + i else page * 256 - 0x2000 + i
    {
      SourceByte(page, i);
    }
  }

  /**
   A write that finds a transfer copying leaves it copying through both M-cycles of the delay, and the CPU
   locked out of OAM; then the new page starts, with no setup of its own.
   */
  lemma OldTransferContinues(m: Machine, page: u8, one: Bus, two: Bus, k: nat, value: u8)
    requires m.Valid() && m.dma.active && m.dma.startDelay == 0 && k < 160
    ensures var s, i := m.dma.source, m.dma.index as int;
      var written := m.(dma := m.dma.Write(page));
      var after := written.MCycle(one).MCycle(two);
      && i < 160 && written.CpuWrite(k, value) == written
      && written.MCycle(one).oam == m.oam[i := one[if s < 0xE000 then s + i else s - 0x2000 + i]]
      && (i < 159 ==>
            after.oam == written.MCycle(one).oam[i + 1 := two[if s < 0xE000 then s + i + 1 else s - 0x2000 + i + 1]])
      && (i == 159 ==> after.oam == written.MCycle(one).oam)
      && after.dma.active && after.dma.source == page * 256 && after.dma.index == 0 && after.dma.startDelay == 0
      && !after.dma.pending
  {
  }

  /**
   A write that finds none copying leaves OAM to the CPU for two M-cycles more, and a byte written then lands; from
   the third on it does not, until the transfer is over.
   */
  lemma FreshDelayIsOpen(m: Machine, page: u8, one: Bus, two: Bus, k: nat, value: u8)
    requires m.Valid() && !(m.dma.active && m.dma.startDelay == 0) && k < 160
    ensures var written := m.(dma := m.dma.Write(page));
      var later := written.MCycle(one);
      var copying := later.MCycle(two);
      && written.CpuWrite(k, value).oam == m.oam[k := value] && later.CpuWrite(k, value).oam == m.oam[k := value]
      && copying.oam == m.oam && copying.CpuWrite(k, value) == copying
      && copying.dma.active && copying.dma.source == page * 256 && copying.dma.index == 0
  {
  }

  /** While the source memory is not written, OAM is the slice of the bus the page names. */
  lemma PageSlice(m: Machine, page: u8, events: seq<Event>, last: Event, bus: Bus)
    requires m.Valid() && last.Tick? && WellFormed(last) && forall e <- events :: WellFormed(e)
    requires |Buses(events)| < 162 <= |Buses(events + [last])|
    requires last.bus == bus && forall e <- events :: e.Tick? ==> e.bus == bus
    ensures var oam := Run(m.(dma := m.dma.Write(page)), events + [last]).oam;
      && (page < 0xE0 ==> oam == bus[page * 256..page * 256 + 160])
      && (page >= 0xE0 ==> oam == bus[page * 256 - 0x2000..page * 256 - 0x2000 + 160])
  {
    hide Run, Buses;
    LastWriteBytes(m, page, events, last);
    OneBus(events + [last], bus);
  }

  lemma {:induction false} OneBus(events: seq<Event>, bus: Bus)
    requires forall e <- events :: WellFormed(e) && (e.Tick? ==> e.bus == bus)
    ensures forall k :: 0 <= k < |Buses(events)| ==> Buses(events)[k] == bus
  {
    if events != [] {
      OneBus(events[..|events| - 1], bus);
    }
  }
}
