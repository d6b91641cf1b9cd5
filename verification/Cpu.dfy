/**
 CPU stepping, src/cpu.c and src/isa: which cycles every instruction delivers to the clock,
 and the interrupt, EI and HALT state around it.

 The bus is nondeterministic: a read may return any byte, and any access or clock tick may raise
 interrupt flags, so what is proved holds for every program, cartridge and peripheral. Only IE and
 IF are tracked, because interrupt dispatch reads them back.
 */
module Cpu {
  import opened Bytes
  import opened Instructions
  import Opcodes

  // ---------------------------------------------------------------------------
  // Interrupt flags (src/io/interrupts.c)
  // ---------------------------------------------------------------------------

  /** `x & ~(1 << k)`. */
  function ClearBit(x: nat, k: nat): (r: nat)
    ensures r <= x
    ensures forall j: nat :: Bit(r, j) == if j == k then 0 else Bit(x, j)
    decreases k
  {
    if k == 0 then
      var r := x - x % 2;
      assert forall j: nat :: j > 0 ==> Bit(r, j) == Bit(r / 2, j - 1) && r / 2 == x / 2;
      r
    else
      var q := ClearBit(x / 2, k - 1);
      var r := 2 * q + x % 2;
      assert r / 2 == q && r % 2 == x % 2;
      assert forall j: nat :: j > 0 ==> Bit(r, j) == Bit(q, j - 1);
      r
  }

  /** Interrupt `k` is both enabled and requested. */
  predicate Requested(ie: u8, iflag: u8, k: nat) {
    Bit(ie, k) == 1 && Bit(iflag, k) == 1
  }

  /** interrupts_pending from bit `k` up: the lowest requested interrupt, or -1. */
  function PendingFrom(ie: u8, iflag: u8, k: nat): (p: int)
    requires k <= 5
    ensures p == -1 || k <= p < 5
    ensures p == -1 <==> forall j :: k <= j < 5 ==> !Requested(ie, iflag, j)
    ensures p >= 0 ==> Requested(ie, iflag, p) && forall j :: k <= j < p ==> !Requested(ie, iflag, j)
    decreases 5 - k
  {
    if k == 5 then -1
    else if Requested(ie, iflag, k) then k
    else PendingFrom(ie, iflag, k + 1)
  }

  function Pending(ie: u8, iflag: u8): int { PendingFrom(ie, iflag, 0) }

  /** The IF register after a write: its unused bits read as ones. */
  function AsFlags(value: u8): u8 { value % 32 + 0xE0 }

  /** The flags a bus write leaves, before the peripherals raise any. */
  function FlagsBehind(addr: u16, value: u8, iflag: u8): u8 {
    if addr == 0xFF0F then AsFlags(value) else iflag
  }

  /** A write to IF keeps the five flags and sets the three bits above them; any other write leaves IF alone. */
  lemma IfInBits(addr: u16, value: u8, iflag: u8, k: nat)
    requires k < 8
    ensures Bit(FlagsBehind(addr, value, iflag), k) ==
      if addr != 0xFF0F then Bit(iflag, k) else if k < 5 then Bit(value, k) else 1
  {
    var high, low := value / 32, value % 32;
    LowFive(high, low, k);
    LowFive(7, low, k);
    assert value == 32 * high + low;
    assert Bit(7, 0) == 1 && Bit(7, 1) == 1 && Bit(7, 2) == 1;
  }

  lemma LowFive(high: nat, low: nat, k: nat)
    requires low < 32
    ensures Bit(32 * high + low, k) == if k < 5 then Bit(low, k) else Bit(high, k - 5)
  {
    LowBits(16 * high, low, k);
    if k > 0 { LowBits(8 * high, low / 2, k - 1); }
    if k > 1 { LowBits(4 * high, low / 2 / 2, k - 2); }
    if k > 2 { LowBits(2 * high, low / 2 / 2 / 2, k - 3); }
    if k > 3 { LowBits(high, low / 2 / 2 / 2 / 2, k - 4); }
  }

  lemma LowBits(m: nat, low: nat, k: nat)
    ensures Bit(2 * m + low, k) == if k == 0 then Bit(low, 0) else Bit(m + low / 2, k - 1)
    ensures k > 0 ==> Bit(low, k) == Bit(low / 2, k - 1)
  {
    assert (2 * m + low) / 2 == m + low / 2;
  }

  /** Flags only ever set. */
  predicate Raised(before: u8, after: u8) {
    forall k :: 0 <= k < 8 && Bit(before, k) == 1 ==> Bit(after, k) == 1
  }

  // ---------------------------------------------------------------------------
  // The stack as memory
  // ---------------------------------------------------------------------------

  /** The byte last written to `addr`, or what `mem` held. */
  function Peek(mem: u16 -> u8, t: seq<MCycle>, addr: u16): u8 {
    if t == [] then mem(addr)
    else
      var last := t[|t| - 1];
      if last.Write? && last.addr == addr then last.value else Peek(mem, t[..|t| - 1], addr)
  }

  /** `addr` is plain memory in `t`: every read of it finds the last write. */
  predicate ReadsBack(mem: u16 -> u8, t: seq<MCycle>, addr: u16) {
    forall i :: 0 <= i < |t| && t[i].Read? && t[i].addr == addr ==> t[i].value == Peek(mem, t[..i], addr)
  }

  predicate Writes(t: seq<MCycle>, addr: u16) {
    exists m <- t :: m.Write? && m.addr == addr
  }

  lemma {:induction false} PeekPast(mem: u16 -> u8, t: seq<MCycle>, u: seq<MCycle>, addr: u16)
    requires !Writes(u, addr)
    ensures Peek(mem, t + u, addr) == Peek(mem, t, addr)
  {
    if u == [] {
      assert t + u == t;
    } else {
      var before := u[..|u| - 1];
      assert (t + u)[..|t + u| - 1] == t + before && (t + u)[|t + u| - 1] == u[|u| - 1];
      PeekPast(mem, t, before, addr);
    }
  }

  lemma PeekLast(mem: u16 -> u8, t: seq<MCycle>, m: MCycle, addr: u16)
    ensures Peek(mem, t + [m], addr) == if m.Write? && m.addr == addr then m.value else Peek(mem, t, addr)
  {
    assert (t + [m])[..|t|] == t;
  }

  /** Two cells written high first and read low first, with no write to either in between. */
  lemma CellsSurvive(mem: u16 -> u8, before: seq<MCycle>, between: seq<MCycle>, low: MCycle, high: MCycle, t: seq<MCycle>)
    requires low.Write? && high.Write? && low.addr != high.addr
    requires !Writes(between, low.addr) && !Writes(between, high.addr)
    requires t == before + [high] + [low] + between
    ensures Peek(mem, t, low.addr) == low.value && Peek(mem, t, high.addr) == high.value
  {
    hide Peek, Writes;
    PeekPast(mem, before + [high] + [low], between, low.addr);
    PeekPast(mem, before + [high] + [low], between, high.addr);
    PeekLast(mem, before + [high], low, low.addr);
    PeekLast(mem, before + [high], low, high.addr);
    PeekLast(mem, before, high, high.addr);
  }

  /**
   RET undoes CALL, and POP undoes PUSH: if the two stack cells are memory and nothing in between writes
   them, the word read back is the word written and SP is where it was.
   */
  lemma PopUndoesPush(mem: u16 -> u8, before: seq<MCycle>, between: seq<MCycle>, sp: u16, pushed: u16, popped: u16)
    requires var low, high := (sp - 2) % 0x1_0000, (sp - 1) % 0x1_0000;
      && !Writes(between, low) && !Writes(between, high)
      && var t := before + WordWrites(sp, pushed) + between + WordReads(low, popped);
         ReadsBack(mem, t, low) && ReadsBack(mem, t, high)
    ensures popped == pushed && ((sp - 2) % 0x1_0000 + 2) % 0x1_0000 == sp
  {
    hide Peek, Writes;
    var low, high := (sp - 2) % 0x1_0000, (sp - 1) % 0x1_0000;
    var first, second := Write(high, pushed / 0x100), Write(low, pushed % 0x100);
    var head := before + [first] + [second] + between;
    var t := before + WordWrites(sp, pushed) + between + WordReads(low, popped);
    assert t == head + [Read(low, popped % 0x100)] + [Read(high, popped / 0x100)] by {
      assert (low + 1) % 0x1_0000 == high;
      assert WordWrites(sp, pushed) == [first] + [second];
    }
    CellsSurvive(mem, before, between, second, first, head);
    ReadsFind(mem, head, Read(low, popped % 0x100), Read(high, popped / 0x100));
  }

  lemma ReadsFind(mem: u16 -> u8, head: seq<MCycle>, one: MCycle, two: MCycle)
    requires one.Read? && two.Read?
    requires ReadsBack(mem, head + [one] + [two], one.addr) && ReadsBack(mem, head + [one] + [two], two.addr)
    ensures one.value == Peek(mem, head, one.addr) && two.value == Peek(mem, head, two.addr)
  {
    hide Peek;
    var t := head + [one] + [two];
    assert t[|head|] == one && t[|head| + 1] == two;
    assert t[..|head|] == head && t[..|head| + 1] == head + [one];
    PeekLast(mem, head, one, two.addr);
  }

  // ---------------------------------------------------------------------------
  // The stepping CPU
  // ---------------------------------------------------------------------------

  /** The interrupt a dispatch takes, -1 for none: the high-byte push may have rewritten IE. */
  function Taken(pc: u16, sp: u16, ie: u8, flags: Flags): int {
    Pending(if (sp - 1) % 0x1_0000 == 0xFFFF then pc / 0x100 else ie, flags.seen)
  }

  /** The word a dispatch pushes: PC, with a zero low byte if nothing is left to take. */
  function PushedWord(pc: u16, sp: u16, ie: u8, flags: Flags): u16 {
    if Taken(pc, sp, ie, flags) < 0 then pc / 0x100 * 0x100 else pc
  }

  /**
   A dispatch from `pc`, `sp`, `ie` and `iflag` that ends at `pc'` with `ie'`. The flags grow only by what the
   peripherals raise, and only the bit of the interrupt taken is cleared.
   */
  ghost predicate Serviced(pc: u16, sp: u16, ie: u8, iflag: u8, flags: Flags, pc': u16, ie': u8) {
    var high, low := (sp - 1) % 0x1_0000, (sp - 2) % 0x1_0000;
    var taken, word := Taken(pc, sp, ie, flags), PushedWord(pc, sp, ie, flags);
    && Raised(FlagsBehind(high, pc / 0x100, iflag), flags.seen)
    && Raised(FlagsBehind(low, word % 0x100, flags.seen), flags.acked)
    && ie' == (if low == 0xFFFF then word % 0x100 else if high == 0xFFFF then pc / 0x100 else ie)
    && (if taken < 0 then pc' == 0 && flags.after == flags.acked
        else
          && pc' == 0x40 + 8 * taken
          && forall j: nat :: Bit(flags.after, j) == if j == taken then 0 else Bit(flags.acked, j))
  }

  /** Interrupt flag of weight `weight`, both enabled and requested. */
  predicate Both(ie: u8, iflag: u8, weight: nat)
    requires weight > 0
  {
    ie / weight % 2 == 1 && iflag / weight % 2 == 1
  }

  /** The vector of the first of VBlank, STAT, timer, serial and joypad that is both; 0 for none. */
  function Vector(ie: u8, iflag: u8): u16 {
    if Both(ie, iflag, 1) then 0x40 else if Both(ie, iflag, 2) then 0x48 else if Both(ie, iflag, 4) then 0x50
    else if Both(ie, iflag, 8) then 0x58 else if Both(ie, iflag, 16) then 0x60 else 0
  }

  /**
   A dispatch in numbers: the high byte of PC is IE by then if SP was 0, and with nothing left to take the low byte
   pushed is 0.
   */
  lemma DispatchInNumbers(pc: u16, sp: u16, ie: u8, iflag: u8, flags: Flags, pc': u16, ie': u8)
    requires Serviced(pc, sp, ie, iflag, flags, pc', ie')
    ensures pc' == Vector(if sp == 0 then pc / 256 else ie, flags.seen)
    ensures PushedWord(pc, sp, ie, flags) == if pc' == 0 then pc - pc % 256 else pc
  {
    var e := if sp == 0 then pc / 256 else ie;
    PendingInNumbers(e, flags.seen);
    hide Vector, PendingFrom, Raised;
    assert Taken(pc, sp, ie, flags) == Pending(e, flags.seen);
  }

  lemma PendingInNumbers(ie: u8, iflag: u8)
    ensures Vector(ie, iflag) == if Pending(ie, iflag) < 0 then 0 else 0x40 + 8 * Pending(ie, iflag)
  {
    forall k: nat, weight: nat | k < 5 && weight == [1, 2, 4, 8, 16][k]
      ensures Requested(ie, iflag, k) <==> Both(ie, iflag, weight)
    {
      Digit(ie, k, weight);
      Digit(iflag, k, weight);
    }
    hide Bit;
  }

  class Cpu {
    var pc: u16
    var sp: u16
    var ctl: Ctl
    var ie: u8
    var iflag: u8
    var cyclesTicked: nat
    ghost var delivered: nat  // T-cycles handed to clock_tick so far
    ghost var stepStart: nat  // `delivered` when the current step began
    ghost var trace: seq<MCycle>  // the M-cycles so far

    ghost predicate InStep()
      reads this
    {
      delivered == stepStart + cyclesTicked && cyclesTicked % 4 == 0
    }

    /** cpu_init. */
    constructor ()
      ensures ctl == Ctl(false, false, false, false) && ctl.Valid() && InStep()
    {
      pc, sp, ctl := 0x0100, 0xFFFE, Ctl(false, false, false, false);
      ie, iflag, cyclesTicked := 0, 0xE1, 0;
      delivered, stepStart, trace := 0, 0, [];
    }

    /** clock_tick: only ever called with 4, 8 or 12 cycles. The peripherals may raise interrupts. */
    method ClockTick(cycles: nat)
      requires cycles == 4 || cycles == 8 || cycles == 12
      modifies `delivered, `iflag
      ensures delivered == old(delivered) + cycles && Raised(old(iflag), iflag)
    {
      delivered := delivered + cycles;
      assert Raised(iflag, iflag);
      var flags: u8 :| Raised(iflag, flags);
      iflag := flags;
    }

    /** cpu_tick; `what` is the bus access it follows, if any. */
    method CpuTick(ghost what: MCycle)
      requires InStep()
      modifies `delivered, `trace, `iflag, `cyclesTicked
      ensures InStep() && cyclesTicked == old(cyclesTicked) + 4 && stepStart == old(stepStart)
      ensures Raised(old(iflag), iflag) && trace == old(trace) + [what]
    {
      ClockTick(4);
      cyclesTicked := cyclesTicked + 4;
      trace := trace + [what];
    }

    method CpuRead(addr: u16) returns (value: u8)
      requires InStep()
      modifies `delivered, `trace, `iflag, `cyclesTicked
      ensures InStep() && cyclesTicked == old(cyclesTicked) + 4
      ensures Raised(old(iflag), iflag) && trace == old(trace) + [Read(addr, value)]
    {
      value := *;
      CpuTick(Read(addr, value));
    }

    /** A write reaches IE, IF, or something that may itself raise an interrupt. */
    method BusWrite(addr: u16, value: u8)
      modifies `ie, `iflag
      ensures ie == if addr == 0xFFFF then value else old(ie)
      ensures if addr == 0xFF0F then iflag == AsFlags(value) else Raised(old(iflag), iflag)
    {
      if addr == 0xFFFF {
        ie := value;
      } else if addr == 0xFF0F {
        iflag := AsFlags(value);
      } else {
        assert Raised(iflag, iflag);
        var flags: u8 :| Raised(iflag, flags);
        iflag := flags;
      }
    }

    method CpuWrite(addr: u16, value: u8)
      requires InStep()
      modifies `delivered, `trace, `ie, `iflag, `cyclesTicked
      ensures InStep() && cyclesTicked == old(cyclesTicked) + 4
      ensures ie == if addr == 0xFFFF then value else old(ie)
      ensures Raised(FlagsBehind(addr, value, old(iflag)), iflag) && trace == old(trace) + [Write(addr, value)]
    {
      BusWrite(addr, value);
      CpuTick(Write(addr, value));
    }

    // --- handlers: each returns its cycle count, having ticked at most that many ---

    method ReadImm8() returns (value: u8)
      requires InStep()
      modifies `delivered, `trace, `iflag, `cyclesTicked, `pc
      ensures InStep() && cyclesTicked == old(cyclesTicked) + 4
      ensures pc == (old(pc) + 1) % 0x1_0000 && trace == old(trace) + [Read(old(pc), value)]
    {
      value := CpuRead(pc);
      pc := (pc + 1) % 0x1_0000;
    }

    method ReadImm16() returns (value: u16)
      requires InStep()
      modifies `delivered, `trace, `iflag, `cyclesTicked, `pc
      ensures InStep() && cyclesTicked == old(cyclesTicked) + 8
      ensures pc == (old(pc) + 2) % 0x1_0000 && trace == old(trace) + WordReads(old(pc), value)
    {
      var lo := CpuRead(pc);
      var hi := CpuRead((pc + 1) % 0x1_0000);
      pc := (pc + 2) % 0x1_0000;
      value := hi as int * 0x100 + lo;
    }

    method ReadR8(code: nat, hl: u16)
      requires InStep()
      modifies `delivered, `trace, `iflag, `cyclesTicked
      ensures InStep() && cyclesTicked == old(cyclesTicked) + if IsMemHl(code) then 4 else 0
      ensures if IsMemHl(code) then Loaded(old(trace), trace, hl) else trace == old(trace)
    {
      if IsMemHl(code) {
        var _ := CpuRead(hl);
      }
    }

    method WriteR8(code: nat, hl: u16)
      requires InStep()
      modifies `delivered, `trace, `ie, `iflag, `cyclesTicked
      ensures InStep() && cyclesTicked == old(cyclesTicked) + if IsMemHl(code) then 4 else 0
      ensures if IsMemHl(code) then Stored(old(trace), trace, hl) else trace == old(trace)
    {
      if IsMemHl(code) {
        Store(hl);
      }
    }

    /** A store of some register. */
    method Store(addr: u16)
      requires InStep()
      modifies `delivered, `trace, `ie, `iflag, `cyclesTicked
      ensures InStep() && cyclesTicked == old(cyclesTicked) + 4 && Stored(old(trace), trace, addr)
    {
      var value: u8 := *;
      CpuWrite(addr, value);
    }

    method Load(addr: u16)
      requires InStep()
      modifies `delivered, `trace, `iflag, `cyclesTicked
      ensures InStep() && cyclesTicked == old(cyclesTicked) + 4 && Loaded(old(trace), trace, addr)
    {
      var _ := CpuRead(addr);
    }

    /** The two writes of PUSH, CALL and RST. */
    method PushWord(value: u16)
      requires InStep()
      modifies `delivered, `trace, `ie, `iflag, `cyclesTicked, `sp
      ensures InStep() && cyclesTicked == old(cyclesTicked) + 8 && sp == (old(sp) - 2) % 0x1_0000
      ensures trace == old(trace) + WordWrites(old(sp), value)
    {
      CpuWrite((sp - 1) % 0x1_0000, value / 0x100);
      CpuWrite((sp - 2) % 0x1_0000, value % 0x100);
      sp := (sp - 2) % 0x1_0000;
    }

    /** The two reads of POP, RET and RETI. */
    method PopWord() returns (value: u16)
      requires InStep()
      modifies `delivered, `trace, `iflag, `cyclesTicked, `sp
      ensures InStep() && cyclesTicked == old(cyclesTicked) + 8 && sp == (old(sp) + 2) % 0x1_0000
      ensures trace == old(trace) + WordReads(old(sp), value)
    {
      var lo := CpuRead(sp);
      var hi := CpuRead((sp + 1) % 0x1_0000);
      value := hi as int * 0x100 + lo;
      sp := (sp + 2) % 0x1_0000;
    }

    /**
     Instructions that call, return, push or pop. `taken` is whether the condition held, and `word` is the
     word popped or pushed, or the operand of a call.
     */
    method StackOp(op: Op, opcode: u8) returns (cycles: nat, ghost taken: bool, ghost word: u16)
      requires InStep() && cyclesTicked == 4 && op.UsesStack()
      modifies `delivered, `trace, `ie, `iflag, `cyclesTicked, `pc, `sp
      ensures InStep() && 4 <= cyclesTicked <= cycles <= 24
      ensures (cycles - cyclesTicked) % 4 == 0 && cycles - cyclesTicked <= 4
      ensures (op.RetCond? || op.CallCondImm16? || taken) && cycles == StackCycles(op, taken) && Grew(old(trace), trace)
      ensures trace == old(trace) + StackAccesses(op, taken, word, old(pc), old(sp))
      ensures pc == StackPc(op, opcode, taken, word, old(pc)) && sp == StackSp(op, taken, old(sp))
    {
      hide StackCycles, StackAccesses, StackPc, StackSp, Grew;
      if op.RetCond? || op.Ret? || op.Pop? {
        cycles, taken, word := PopOp(op, opcode);
      } else {
        cycles, taken, word := PushOp(op, opcode);
      }
    }

    method PopOp(op: Op, opcode: u8) returns (cycles: nat, ghost taken: bool, ghost word: u16)
      requires InStep() && cyclesTicked == 4 && (op.RetCond? || op.Ret? || op.Pop?)
      modifies `delivered, `trace, `ie, `iflag, `cyclesTicked, `pc, `sp
      ensures InStep() && 4 <= cyclesTicked <= cycles <= 24
      ensures (cycles - cyclesTicked) % 4 == 0 && cycles - cyclesTicked <= 4
      ensures (op.RetCond? || op.CallCondImm16? || taken) && cycles == StackCycles(op, taken) && Grew(old(trace), trace)
      ensures trace == old(trace) + StackAccesses(op, taken, word, old(pc), old(sp))
      ensures pc == StackPc(op, opcode, taken, word, old(pc)) && sp == StackSp(op, taken, old(sp))
    {
      var condition: bool := *;
      taken, word := !op.RetCond? || condition, 0;
      if op.RetCond? {
        CpuTick(Internal);
        if condition {
          pc := PopWord();
          return 20, taken, pc;
        }
        return 8, taken, word;
      } else if op.Ret? {
        pc := PopWord();
        return 16, taken, pc;
      } else {
        var value := PopWord();
        return 12, taken, value;
      }
    }

    method PushOp(op: Op, opcode: u8) returns (cycles: nat, ghost taken: bool, ghost word: u16)
      requires InStep() && cyclesTicked == 4 && (op.CallCondImm16? || op.CallImm16? || op.Rst? || op.Push?)
      modifies `delivered, `trace, `ie, `iflag, `cyclesTicked, `pc, `sp
      ensures InStep() && 4 <= cyclesTicked <= cycles <= 24
      ensures (cycles - cyclesTicked) % 4 == 0 && cycles - cyclesTicked <= 4
      ensures (op.RetCond? || op.CallCondImm16? || taken) && cycles == StackCycles(op, taken) && Grew(old(trace), trace)
      ensures trace == old(trace) + StackAccesses(op, taken, word, old(pc), old(sp))
      ensures pc == StackPc(op, opcode, taken, word, old(pc)) && sp == StackSp(op, taken, old(sp))
    {
      var condition: bool := *;
      taken, word := !op.CallCondImm16? || condition, 0;
      if op.CallCondImm16? || op.CallImm16? {
        var address := ReadImm16();
        if op.CallImm16? || condition {
          CpuTick(Internal);
          PushWord(pc);
          pc := address;
          return 24, taken, address;
        }
        return 12, taken, address;
      } else if op.Rst? {
        CpuTick(Internal);
        PushWord(pc);
        pc := opcode / 8 % 8 * 8;
        return 16, taken, word;
      } else {
        var value: u16 := *;
        CpuTick(Internal);
        PushWord(value);
        return 16, taken, value;
      }
    }

    /**
     Instructions that jump without the stack. `taken` is whether the condition held, and `operand` is the
     offset or the address jumped to.
     */
    method JumpOp(op: Op) returns (cycles: nat, ghost taken: bool, ghost operand: u16)
      requires InStep() && cyclesTicked == 4 && op.Jumps()
      modifies `delivered, `trace, `iflag, `cyclesTicked, `pc
      ensures InStep() && 4 <= cyclesTicked <= cycles <= 24
      ensures (cycles - cyclesTicked) % 4 == 0 && cycles - cyclesTicked <= 4
      ensures (op.JrCondImm8? || op.JpCondImm16? || taken) && cycles == JumpCycles(op, taken) && Grew(old(trace), trace)
      ensures trace == old(trace) + JumpAccesses(op, operand, old(pc)) && pc == JumpPc(op, taken, operand, old(pc))
    {
      var condition: bool := *;
      taken := !(op.JrCondImm8? || op.JpCondImm16?) || condition;
      if op.JrImm8? {
        var offset := ReadImm8();
        pc := Relative(pc, offset);
        return 12, taken, offset;
      } else if op.JrCondImm8? {
        var offset := ReadImm8();
        if condition {
          pc := Relative(pc, offset);
        }
        return if condition then 12 else 8, taken, offset;
      } else if op.JpCondImm16? {
        var address := ReadImm16();
        if condition {
          pc := address;
        }
        return if condition then 16 else 12, taken, address;
      } else if op.JpImm16? {
        pc := ReadImm16();
        return 16, taken, pc;
      } else {
        pc := *;
        return 4, taken, pc;
      }
    }

    /** Loads and arithmetic; `word` is the immediate operand, C, or what LD SP,HL leaves in SP. */
    method DataOp(op: Op, opcode: u8) returns (cycles: nat, ghost word: u16)
      requires InStep() && cyclesTicked == 4 && op == Decode(opcode) && op.MovesData()
      modifies `delivered, `trace, `ie, `iflag, `cyclesTicked, `pc, `sp
      ensures InStep() && 4 <= cyclesTicked <= cycles <= 24 && cycles == DataCycles(op, opcode)
      ensures (cycles - cyclesTicked) % 4 == 0 && cycles - cyclesTicked <= 8 && Grew(old(trace), trace)
      ensures DataShape(op, opcode, word, old(pc), old(sp), trace[|old(trace)|..])
      ensures pc == (old(pc) + DataOperands(op)) % 0x1_0000 && sp == DataSp(op, opcode, word, old(sp))
    {
      hide DataShape, DataSp, DataCycles, DataOperands, Decode;
      if op.LdR16Imm16? || op.LdImm16MemSp? || op.IncDecR16? || op.AddHlR16? {
        cycles, word := WordOp(op, opcode);
      } else if op.MovesMemory() {
        cycles, word := MemoryOp(op, opcode);
      } else {
        cycles, word := ByteOp(op, opcode);
      }
    }

    method WordOp(op: Op, opcode: u8) returns (cycles: nat, ghost word: u16)
      requires InStep() && cyclesTicked == 4 && (op.LdR16Imm16? || op.LdImm16MemSp? || op.IncDecR16? || op.AddHlR16?)
      modifies `delivered, `trace, `ie, `iflag, `cyclesTicked, `pc, `sp
      ensures InStep() && 4 <= cyclesTicked <= cycles <= 24 && cycles == DataCycles(op, opcode)
      ensures (cycles - cyclesTicked) % 4 == 0 && cycles - cyclesTicked <= 8 && Grew(old(trace), trace)
      ensures DataShape(op, opcode, word, old(pc), old(sp), trace[|old(trace)|..])
      ensures pc == (old(pc) + DataOperands(op)) % 0x1_0000 && sp == DataSp(op, opcode, word, old(sp))
    {
      word := 0;
      if op.LdR16Imm16? {
        var value := ReadImm16();
        if opcode / 16 % 4 == 3 {
          sp := value;
        }
        return 12, value;
      } else if op.LdImm16MemSp? {
        var address := ReadImm16();
        CpuWrite(address, sp % 0x100);
        CpuWrite((address as int + 1) % 0x1_0000, sp / 0x100);
        return 20, address;
      } else if op.IncDecR16? {
        if opcode / 16 % 4 == 3 {
          sp := if opcode / 8 % 2 == 0 then (sp + 1) % 0x1_0000 else (sp - 1) % 0x1_0000;
        }
        return 8, word;
      } else {
        return 8, word;
      }
    }

    method ByteOp(op: Op, opcode: u8) returns (cycles: nat, ghost word: u16)
      requires InStep() && cyclesTicked == 4 && op == Decode(opcode)
      requires op.LdR16MemA? || op.LdAR16Mem? || op.IncDecR8? || op.LdR8Imm8? || op.LdR8R8? || op.AluR8? || op.AluImm8?
      modifies `delivered, `trace, `ie, `iflag, `cyclesTicked, `pc, `sp
      ensures InStep() && 4 <= cyclesTicked <= cycles <= 24 && cycles == DataCycles(op, opcode)
      ensures (cycles - cyclesTicked) % 4 == 0 && cycles - cyclesTicked <= 8 && Grew(old(trace), trace)
      ensures DataShape(op, opcode, word, old(pc), old(sp), trace[|old(trace)|..])
      ensures pc == (old(pc) + DataOperands(op)) % 0x1_0000 && sp == DataSp(op, opcode, word, old(sp))
    {
      var y, z := opcode / 8 % 8, opcode % 8;
      var hl: u16 := *;
      word := 0;
      if op.LdR16MemA? {
        Store(hl);
        return 8, word;
      } else if op.LdAR16Mem? {
        Load(hl);
        return 8, word;
      } else if op.IncDecR8? {
        ReadR8(y, hl);
        WriteR8(y, hl);
        return if IsMemHl(y) then 12 else 4, word;
      } else if op.LdR8Imm8? {
        var value := ReadImm8();
        WriteR8(y, hl);
        return if IsMemHl(y) then 12 else 8, value;
      } else if op.LdR8R8? {
        ReadR8(z, hl);
        WriteR8(y, hl);
        return if IsMemHl(y) || IsMemHl(z) then 8 else 4, word;
      } else if op.AluR8? {
        ReadR8(z, hl);
        return if IsMemHl(z) then 8 else 4, word;
      } else {
        var value := ReadImm8();
        return 8, value;
      }
    }

    /** Loads between A and memory, and the SP arithmetic. */
    method MemoryOp(op: Op, opcode: u8) returns (cycles: nat, ghost word: u16)
      requires InStep() && cyclesTicked == 4 && op.MovesMemory()
      modifies `delivered, `trace, `ie, `iflag, `cyclesTicked, `pc, `sp
      ensures InStep() && 4 <= cyclesTicked <= cycles <= 24 && cycles == DataCycles(op, opcode)
      ensures (cycles - cyclesTicked) % 4 == 0 && cycles - cyclesTicked <= 8 && Grew(old(trace), trace)
      ensures DataShape(op, opcode, word, old(pc), old(sp), trace[|old(trace)|..])
      ensures pc == (old(pc) + DataOperands(op)) % 0x1_0000 && sp == DataSp(op, opcode, word, old(sp))
    {
      hide DataShape, DataSp, DataCycles, DataOperands;
      if op.LdImm16MemA? || op.LdAImm16Mem? {
        cycles, word := AbsoluteOp(op, opcode);
      } else if op.AddSpImm8? || op.LdHlSpImm8? || op.LdSpHl? {
        cycles, word := SpOp(op, opcode);
      } else {
        cycles, word := HighOp(op, opcode);
      }
    }

    method HighOp(op: Op, opcode: u8) returns (cycles: nat, ghost word: u16)
      requires InStep() && cyclesTicked == 4 && (op.LdhImm8MemA? || op.LdhCMemA? || op.LdhAImm8Mem? || op.LdhACMem?)
      modifies `delivered, `trace, `ie, `iflag, `cyclesTicked, `pc, `sp
      ensures InStep() && 4 <= cyclesTicked <= cycles <= 24 && cycles == DataCycles(op, opcode)
      ensures (cycles - cyclesTicked) % 4 == 0 && cycles - cyclesTicked <= 8 && Grew(old(trace), trace)
      ensures DataShape(op, opcode, word, old(pc), old(sp), trace[|old(trace)|..])
      ensures pc == (old(pc) + DataOperands(op)) % 0x1_0000 && sp == DataSp(op, opcode, word, old(sp))
    {
      var c: u8 :| true;
      if op.LdhImm8MemA? {
        var offset := ReadImm8();
        Store(0xFF00 + offset as int);
        return 12, offset;
      } else if op.LdhCMemA? {
        Store(0xFF00 + c as int);
        return 8, c;
      } else if op.LdhAImm8Mem? {
        var offset := ReadImm8();
        Load(0xFF00 + offset as int);
        return 12, offset;
      } else {
        Load(0xFF00 + c as int);
        return 8, c;
      }
    }

    method AbsoluteOp(op: Op, opcode: u8) returns (cycles: nat, ghost word: u16)
      requires InStep() && cyclesTicked == 4 && (op.LdImm16MemA? || op.LdAImm16Mem?)
      modifies `delivered, `trace, `ie, `iflag, `cyclesTicked, `pc, `sp
      ensures InStep() && 4 <= cyclesTicked <= cycles <= 24 && cycles == DataCycles(op, opcode)
      ensures (cycles - cyclesTicked) % 4 == 0 && cycles - cyclesTicked <= 8 && Grew(old(trace), trace)
      ensures DataShape(op, opcode, word, old(pc), old(sp), trace[|old(trace)|..])
      ensures pc == (old(pc) + DataOperands(op)) % 0x1_0000 && sp == DataSp(op, opcode, word, old(sp))
    {
      var address := ReadImm16();
      if op.LdImm16MemA? {
        Store(address);
      } else {
        Load(address);
      }
      return 16, address;
    }

    method SpOp(op: Op, opcode: u8) returns (cycles: nat, ghost word: u16)
      requires InStep() && cyclesTicked == 4 && (op.AddSpImm8? || op.LdHlSpImm8? || op.LdSpHl?)
      modifies `delivered, `trace, `ie, `iflag, `cyclesTicked, `pc, `sp
      ensures InStep() && 4 <= cyclesTicked <= cycles <= 24 && cycles == DataCycles(op, opcode)
      ensures (cycles - cyclesTicked) % 4 == 0 && cycles - cyclesTicked <= 8 && Grew(old(trace), trace)
      ensures DataShape(op, opcode, word, old(pc), old(sp), trace[|old(trace)|..])
      ensures pc == (old(pc) + DataOperands(op)) % 0x1_0000 && sp == DataSp(op, opcode, word, old(sp))
    {
      if op.AddSpImm8? {
        var offset := ReadImm8();
        sp := Relative(sp, offset);
        return 16, offset;
      } else if op.LdHlSpImm8? {
        var offset := ReadImm8();
        return 12, offset;
      } else {
        sp := *;
        return 8, sp;
      }
    }

    /** The opcode_cb_table handlers: rotates and shifts, BIT, RES and SET on an r8 operand. */
    method CbOp() returns (cycles: nat, ghost cb: u8)
      requires InStep() && cyclesTicked == 4
      modifies `delivered, `trace, `ie, `iflag, `cyclesTicked, `pc
      ensures InStep() && 4 <= cyclesTicked == cycles <= 16 && cycles == CbCycles(cb)
      ensures Grew(old(trace), trace) && CbShape(cb, old(pc), trace[|old(trace)|..]) && pc == (old(pc) + 1) % 0x1_0000
    {
      var hl: u16 := *;
      var opcode := ReadImm8();
      cb := opcode;
      ReadR8(opcode % 8, hl);
      if opcode / 0x40 == 1 {
        return if IsMemHl(opcode % 8) then 12 else 8, cb;
      }
      WriteR8(opcode % 8, hl);
      return if IsMemHl(opcode % 8) then 16 else 8, cb;
    }

    /** The call through opcode_table. */
    method Execute(opcode: u8) returns (cycles: int, ghost irq: bool, ghost detail: Detail)
      requires InStep() && cyclesTicked == 4 && ctl.Valid() && !ctl.halted && !ctl.haltBug && !ctl.scheduled
      modifies this
      ensures InStep() && stepStart == old(stepStart) && ctl == old(ctl).Execute(Decode(opcode), irq)
      ensures Decode(opcode).Halt? ==> irq == (Pending(ie, iflag) >= 0) && cycles == 4
      ensures if Decode(opcode).Stop? then StopsAt(old(trace), trace) else Grew(old(trace), trace)
      ensures Effect(opcode, detail, old(pc), old(sp), pc, sp, trace[|old(trace)|..])
      ensures cycles == OpCycles(opcode, detail.taken, detail.word)
      ensures if Decode(opcode).Unassigned? then cycles == -1 && cyclesTicked == 4
              else if Decode(opcode).Stop? then cycles == 4 && cyclesTicked == 8
              else 4 <= cyclesTicked <= cycles <= 24 && (cycles - cyclesTicked) % 4 == 0 && cycles - cyclesTicked <= 8
    {
      hide Decode, StackAccesses, StackPc, StackSp, StackCycles, JumpAccesses, JumpPc, JumpCycles;
      hide DataShape, DataSp, DataCycles, ControlEffect;
      var op := Decode(opcode);
      irq := Pending(ie, iflag) >= 0;
      ghost var taken, word := true, 0;
      if op.Controls() {
        cycles, word := ControlOp(op);
      } else if op.UsesStack() {
        cycles, taken, word := StackOp(op, opcode);
      } else if op.Jumps() {
        cycles, taken, word := JumpOp(op);
      } else {
        cycles, word := DataOp(op, opcode);
      }
      detail := Detail(taken, word);
    }

    /**
     The handlers that touch the control state or the accounting; `word` is the one RETI pops, or the byte read
     after the opcode.
     */
    method ControlOp(op: Op) returns (cycles: int, ghost word: u16)
      requires InStep() && cyclesTicked == 4 && op.Controls()
      modifies this
      ensures InStep() && stepStart == old(stepStart)
      ensures ctl == old(ctl.Execute(op, Pending(ie, iflag) >= 0)) && (op.Halt? ==> ie == old(ie) && iflag == old(iflag))
      ensures if op.Stop? then StopsAt(old(trace), trace) else Grew(old(trace), trace)
      ensures cycles == ControlCycles(op, word)
      ensures ControlEffect(op, word, old(pc), old(sp), pc, sp, trace[|old(trace)|..])
      ensures if op.Unassigned? then cycles == -1 && cyclesTicked == 4
              else if op.Stop? then cycles == 4 && cyclesTicked == 8
              else 4 <= cyclesTicked <= cycles <= 24 && (cycles - cyclesTicked) % 4 == 0 && cycles - cyclesTicked <= 4
    {
      word := 0;
      if op.Unassigned? {
        return -1, word;
      } else if op.Register? {
        return 4, word;
      } else if op.Stop? {
        var skipped := ReadImm8();
        trace := trace + [DivReset];
        return 4, skipped;
      } else if op.Halt? {
        var pending := Pending(ie, iflag) >= 0;
        if ctl.ime {
          ctl := ctl.(halted := true);
        } else if !pending {
          ctl := ctl.(halted := true);
        } else {
          ctl := ctl.(haltBug := true);
        }
        return 4, word;
      } else if op.Di? {
        ctl := ctl.(ime := false, scheduled := false);
        return 4, word;
      } else if op.Ei? {
        ctl := ctl.(scheduled := true);
        return 4, word;
      } else if op.Reti? {
        pc := PopWord();
        ctl := ctl.(ime := true);
        return 16, pc;
      } else {
        cycles, word := CbOp();
      }
    }

    /**
     interrupt_service_routine: the interrupt taken is decided after the high byte has been pushed. The two
     pushes go wherever SP points, so they may land on IE or IF.
     */
    method ServiceInterrupt() returns (cycles: nat, ghost flags: Flags)
      requires InStep() && cyclesTicked == 0
      modifies this
      ensures Serviced(old(pc), old(sp), old(ie), old(iflag), flags, pc, ie) && iflag == flags.after
      ensures trace == old(trace) + WordWrites(old(sp), PushedWord(old(pc), old(sp), old(ie), flags))
      ensures InStep() && stepStart == old(stepStart) && cyclesTicked == 8 && cycles == 20
      ensures ctl == old(ctl).Dispatch() && sp == (old(sp) - 2) % 0x1_0000
    {
      hide Raised, Bit, PendingFrom, ClearBit;
      ctl := ctl.(halted := false, ime := false);
      CpuWrite((sp - 1) % 0x1_0000, pc / 0x100);
      var pending := Pending(ie, iflag);
      ghost var seen := iflag;
      if pending < 0 {
        CpuWrite((sp - 2) % 0x1_0000, 0);
        sp := (sp - 2) % 0x1_0000;
        pc := 0;
        flags := Flags(seen, iflag, iflag);
      } else {
        CpuWrite((sp - 2) % 0x1_0000, pc % 0x100);
        sp := (sp - 2) % 0x1_0000;
        ghost var acked := iflag;
        Acknowledge(pending);
        pc := 0x40 + 8 * pending;
        flags := Flags(seen, acked, iflag);
      }
      cycles := 20;
    }

    /** interrupts_acknowledge clears one flag and no other. */
    method Acknowledge(k: nat)
      requires k < 5
      modifies `iflag
      ensures forall j: nat :: Bit(iflag, j) == if j == k then 0 else Bit(old(iflag), j)
    {
      iflag := ClearBit(iflag, k);
    }

    /** cpu_dispatch. */
    method Dispatch() returns (cycles: int, ghost kind: StepKind)
      requires InStep() && cyclesTicked == 0 && ctl.Valid()
      modifies this
      ensures InStep() && stepStart == old(stepStart)
      ensures Allowed(old(ctl), old(Pending(ie, iflag)) >= 0, kind)
      ensures ctl == NextCtl(old(ctl), old(Pending(ie, iflag)) >= 0, kind)
      ensures Added(old(trace), trace, kind)
      ensures kind.Dispatched? ==>
        && kind.vector == pc && iflag == kind.flags.after && cycles == 20 && cyclesTicked == 8
        && Serviced(old(pc), old(sp), old(ie), old(iflag), kind.flags, pc, ie)
        && trace == old(trace) + WordWrites(old(sp), PushedWord(old(pc), old(sp), old(ie), kind.flags))
      ensures kind.Dozed? ==>
        && trace == old(trace) + [Internal] && pc == old(pc) && kind.woke == (Pending(ie, iflag) >= 0) && cycles == 4
      ensures kind.Executed? ==>
        RanFetched(kind, old(ctl).haltBug, old(pc), old(sp), old(trace), pc, sp, trace, cycles)
      ensures kind.Executed? && kind.op.Halt? ==> kind.irq == (Pending(ie, iflag) >= 0) && cycles == 4
      ensures if Accounted(kind) then
                4 <= cyclesTicked <= cycles <= 24 && (cycles - cyclesTicked) % 4 == 0 && cycles - cyclesTicked <= 12
              else if kind.op.Stop? then cycles == 4 && cyclesTicked == 8
              else cycles == -1 && cyclesTicked == 4
    {
      hide Serviced, PushedWord, RanFetched, PendingFrom, Raised;
      if Pending(ie, iflag) >= 0 && ctl.ime {
        ghost var flags;
        cycles, flags := ServiceInterrupt();
        kind := Dispatched(pc, flags);
        return;
      }
      if ctl.halted {
        CpuTick(Internal);
        kind := Dozed(Pending(ie, iflag) >= 0);
        if Pending(ie, iflag) >= 0 {
          ctl := ctl.(halted := false);
        }
        cycles := 4;
        return;
      }
      cycles, kind := RunInstruction();
    }

    /** The rest of cpu_dispatch: promote a waiting EI, fetch, and execute. */
    method RunInstruction() returns (cycles: int, ghost kind: StepKind)
      requires InStep() && cyclesTicked == 0 && ctl.Valid() && !ctl.halted
      modifies this
      ensures InStep() && stepStart == old(stepStart) && kind.Executed?
      ensures forall pending :: ctl == NextCtl(old(ctl), pending, kind)
      ensures RanFetched(kind, old(ctl).haltBug, old(pc), old(sp), old(trace), pc, sp, trace, cycles)
      ensures Added(old(trace), trace, kind)
      ensures kind.op.Halt? ==> kind.irq == (Pending(ie, iflag) >= 0) && cycles == 4
      ensures if Accounted(kind) then
                4 <= cyclesTicked <= cycles <= 24 && (cycles - cyclesTicked) % 4 == 0 && cycles - cyclesTicked <= 8
              else if kind.op.Stop? then cycles == 4 && cyclesTicked == 8
              else cycles == -1 && cyclesTicked == 4
    {
      hide OpCycles, Effect, PendingFrom, Raised, Decode;
      if ctl.scheduled {
        ctl := ctl.(ime := true, scheduled := false);
      }
      var opcode := CpuRead(pc);
      if Decode(opcode).Unassigned? {
        kind := Executed(Unassigned, false, Detail(true, 0));
        UnassignedDoesNothing(opcode, kind.detail, pc, sp);
        cycles := -1;
        return;
      }
      if ctl.haltBug {
        ctl := ctl.(haltBug := false);
      } else {
        pc := (pc + 1) % 0x1_0000;
      }
      ghost var irq, detail;
      cycles, irq, detail := Execute(opcode);
      kind := Executed(Decode(opcode), irq, detail);
    }

    /**
     cpu_step. The cycles delivered to the clock are the cycles returned, except that STOP delivers 8
     and returns 4, and an unassigned opcode delivers 4 and returns -1.
     */
    method Step() returns (cycles: int, ghost kind: StepKind)
      requires ctl.Valid()
      modifies this
      ensures ctl.Valid()
      ensures Allowed(old(ctl), old(Pending(ie, iflag)) >= 0, kind)
      ensures ctl == NextCtl(old(ctl), old(Pending(ie, iflag)) >= 0, kind)
      ensures kind.Dispatched? ==>
        && kind.vector == pc && Raised(kind.flags.after, iflag) && cycles == 20
        && Serviced(old(pc), old(sp), old(ie), old(iflag), kind.flags, pc, ie)
        && trace == old(trace) + WordWrites(old(sp), PushedWord(old(pc), old(sp), old(ie), kind.flags)) + [Trailing(12)]
      ensures kind.Dozed? ==>
        && trace == old(trace) + [Internal] && pc == old(pc) && kind.woke == (Pending(ie, iflag) >= 0) && cycles == 4
      ensures kind.Executed? ==>
        RanFetched(kind, old(ctl).haltBug, old(pc), old(sp), old(trace), pc, sp, trace, cycles)
      ensures kind.Executed? ==>
        && Opcodes.Runs(old(ctl), old(pc), old(sp), old(trace), ctl, pc, sp, trace, cycles, kind.irq, kind.detail)
        && var b := trace[|old(trace)|].value;
           && Opcodes.Named(kind.op, b)
           && delivered - old(delivered) == (if b == 0x10 then 8 else if Opcodes.NoInstruction(b) then 4 else cycles)
           && (b == 0x76 ==> kind.irq == (Pending(ie, iflag) >= 0))
      ensures old(trace) <= trace && StepShape(trace[|old(trace)|..])
      ensures delivered - old(delivered) == cycles <==> Accounted(kind)
      ensures Accounted(kind) ==> 4 <= cycles <= 24 && cycles % 4 == 0
      ensures !Accounted(kind) ==> delivered - old(delivered) == if kind.op.Stop? then 8 else 4
    {
      hide Serviced, PushedWord, RanFetched, PendingFrom, NextCtl, Allowed, Opcodes.Runs, Opcodes.NoInstruction;
      hide Added, StepShape;
      cyclesTicked := 0;
      stepStart := delivered;
      cycles, kind := Dispatch();
      NextKeepsValid(old(ctl), Observed(old(Pending(ie, iflag)) >= 0, kind));
      AddedIsShape(old(trace), trace, kind);
      if cycles > 0 {
        var remaining := cycles - cyclesTicked;
        if remaining > 0 {
          ClockTick(remaining);
          TrailedIsShape(old(trace), trace, kind, remaining);
          if kind.Executed? {
            LaterIsRan(kind, old(ctl).haltBug, old(pc), old(sp), old(trace), pc, sp, trace, remaining, cycles);
          }
          trace := trace + [Trailing(remaining)];
        }
      }
      if kind.Executed? {
        var requested := old(Pending(ie, iflag)) >= 0;
        Opcodes.FetchedRuns(old(ctl), requested, kind, old(pc), old(sp), old(trace), pc, sp, trace, cycles);
      }
    }
  }

  // ---------------------------------------------------------------------------
  // Every run
  // ---------------------------------------------------------------------------

  /** A step as the control state sees it. */
  datatype Observed = Observed(pending: bool, kind: StepKind)

  function RunCtl(c: Ctl, steps: seq<Observed>): Ctl {
    if steps == [] then c
    else
      var last := steps[|steps| - 1];
      NextCtl(RunCtl(c, steps[..|steps| - 1]), last.pending, last.kind)
  }

  /** Every step is one the control state before it allows. */
  predicate Possible(c: Ctl, steps: seq<Observed>) {
    forall i :: 0 <= i < |steps| ==> Allowed(RunCtl(c, steps[..i]), steps[i].pending, steps[i].kind)
  }

  lemma NextKeepsValid(c: Ctl, o: Observed)
    requires c.Valid() && Allowed(c, o.pending, o.kind)
    ensures NextCtl(c, o.pending, o.kind).Valid()
  {
  }

  lemma {:induction false} CtlStaysValid(c: Ctl, steps: seq<Observed>)
    requires c.Valid() && Possible(c, steps)
    ensures RunCtl(c, steps).Valid()
  {
    hide Allowed, NextCtl, Ctl.Valid;
    if steps != [] {
      var before := steps[..|steps| - 1];
      assert forall i :: 0 <= i < |before| ==> before[..i] == steps[..i];
      CtlStaysValid(c, before);
      NextKeepsValid(RunCtl(c, before), steps[|steps| - 1]);
    }
  }

  predicate Executes(o: Observed, op: Op) { o.kind.Executed? && o.kind.op == op }

  /** DI and dispatch turn interrupts off. */
  predicate TurnsOff(o: Observed) { o.kind.Dispatched? || Executes(o, Di) }

  /** An EI at step `k` that no instruction has yet promoted by step `n`. */
  predicate Waiting(steps: seq<Observed>, k: nat, n: nat)
    requires n <= |steps|
  {
    k < n && Executes(steps[k], Ei) && forall j :: k < j < n ==> !steps[j].kind.Executed?
  }

  /** Step `e` turns interrupts on: RETI, or the first instruction after an EI unless it is DI. */
  ghost predicate TurnsOn(steps: seq<Observed>, e: nat)
    requires e < |steps|
  {
    || Executes(steps[e], Reti)
    || (steps[e].kind.Executed? && !Executes(steps[e], Di) && exists k: nat :: Waiting(steps, k, e))
  }

  /** Interrupts have been turned on at some step, and neither DI nor a dispatch has come since. */
  ghost predicate Enabled(steps: seq<Observed>) {
    exists e :: 0 <= e < |steps| && TurnsOn(steps, e) && forall j :: e < j < |steps| ==> !TurnsOff(steps[j])
  }

  ghost predicate Scheduled(steps: seq<Observed>) {
    exists k: nat :: Waiting(steps, k, |steps|)
  }

  lemma NextEnables(c: Ctl, o: Observed)
    ensures var d := NextCtl(c, o.pending, o.kind);
      && (d.ime <==>
            || Executes(o, Reti) || (o.kind.Executed? && !Executes(o, Di) && c.scheduled)
            || (c.ime && !TurnsOff(o)))
      && (d.scheduled <==> Executes(o, Ei) || (c.scheduled && !o.kind.Executed?))
  {
  }

  lemma ScheduledGrows(steps: seq<Observed>, o: Observed)
    ensures Scheduled(steps + [o]) <==> Executes(o, Ei) || (Scheduled(steps) && !o.kind.Executed?)
  {
    var all, n := steps + [o], |steps|;
    if Executes(o, Ei) {
      assert Waiting(all, n, n + 1);
    }
    if Scheduled(steps) && !o.kind.Executed? {
      var k: nat :| Waiting(steps, k, n);
      assert Waiting(all, k, n + 1);
    }
    if Scheduled(all) {
      var k: nat :| Waiting(all, k, n + 1);
      if k < n {
        assert all[n] == o && all[k] == steps[k];
        assert forall j :: k < j < n ==> all[j] == steps[j];
        assert Waiting(steps, k, n);
      }
    }
  }

  lemma WaitingExtends(steps: seq<Observed>, o: Observed, e: nat)
    requires e <= |steps|
    ensures (exists k: nat :: Waiting(steps + [o], k, e)) <==> exists k: nat :: Waiting(steps, k, e)
  {
    var all := steps + [o];
    forall k: nat ensures Waiting(all, k, e) <==> Waiting(steps, k, e) {
      assert forall j :: 0 <= j < e ==> all[j] == steps[j];
    }
  }

  lemma EnabledGrows(steps: seq<Observed>, o: Observed)
    ensures Enabled(steps + [o]) <==>
      || Executes(o, Reti) || (o.kind.Executed? && !Executes(o, Di) && Scheduled(steps))
      || (Enabled(steps) && !TurnsOff(o))
  {
    hide Waiting, TurnsOff;
    var all, n := steps + [o], |steps|;
    forall e | 0 <= e < n ensures TurnsOn(all, e) <==> TurnsOn(steps, e) {
      WaitingExtends(steps, o, e);
    }
    WaitingExtends(steps, o, n);
    assert all[n] == o;
    assert TurnsOn(all, n) <==> Executes(o, Reti) || (o.kind.Executed? && !Executes(o, Di) && Scheduled(steps));
    hide TurnsOn, Scheduled;
    if Enabled(steps) && !TurnsOff(o) {
      var e :| 0 <= e < n && TurnsOn(steps, e) && forall j :: e < j < n ==> !TurnsOff(steps[j]);
      assert TurnsOn(all, e) && forall j :: e < j < n + 1 ==> !TurnsOff(all[j]);
    }
    if Enabled(all) {
      var e :| 0 <= e < n + 1 && TurnsOn(all, e) && forall j :: e < j < n + 1 ==> !TurnsOff(all[j]);
      if e < n {
        assert TurnsOn(steps, e) && forall j :: e < j < n ==> steps[j] == all[j] && !TurnsOff(steps[j]);
      }
    }
  }

  /** From interrupts off, exactly when they are on and exactly when an EI is waiting, after any steps. */
  lemma {:induction false} ImeIsEnabled(c: Ctl, steps: seq<Observed>)
    requires !c.ime && !c.scheduled
    ensures RunCtl(c, steps).ime <==> Enabled(steps)
    ensures RunCtl(c, steps).scheduled <==> Scheduled(steps)
  {
    hide NextCtl, TurnsOff, Enabled, Scheduled;
    if steps == [] {
      NothingEnabled();
    } else {
      var n := |steps| - 1;
      ImeIsEnabled(c, steps[..n]);
      NextEnables(RunCtl(c, steps[..n]), steps[n]);
      EnabledGrows(steps[..n], steps[n]);
      ScheduledGrows(steps[..n], steps[n]);
      assert steps[..n] + [steps[n]] == steps;
    }
  }

  lemma NothingEnabled()
    ensures !Enabled([]) && !Scheduled([])
  {
  }

  /**
   Starting with interrupts off, a dispatch needs RETI, or an EI and then a whole instruction that is not
   DI, with neither DI nor another dispatch since: the instruction after EI is never interrupted.
   */
  lemma DispatchNeedsEnable(c: Ctl, steps: seq<Observed>, next: Observed)
    requires !c.ime && !c.scheduled && Possible(c, steps + [next]) && next.kind.Dispatched?
    ensures Enabled(steps)
  {
    hide Enabled, Scheduled;
    var all := steps + [next];
    assert all[..|steps|] == steps;
    assert Allowed(RunCtl(c, all[..|steps|]), all[|steps|].pending, all[|steps|].kind);
    ImeIsEnabled(c, steps);
  }

  /** EI then DI leaves interrupts off and unscheduled, whatever is pending. */
  lemma EiThenDi(c: Ctl, first: Observed, second: Observed)
    requires Executes(first, Ei) && Executes(second, Di)
    ensures var d := RunCtl(c, [first, second]); !d.ime && !d.scheduled
  {
    TwoSteps(c, first, second);
    hide RunCtl;
  }

  lemma TwoSteps(c: Ctl, first: Observed, second: Observed)
    ensures RunCtl(c, [first, second]) == NextCtl(NextCtl(c, first.pending, first.kind), second.pending, second.kind)
  {
    hide NextCtl;
    assert [first, second][..1] == [first] && [first][..0] == [];
    assert RunCtl(c, [first]) == NextCtl(RunCtl(c, []), first.pending, first.kind);
  }

  /**
   Dispatch does not cancel an EI still waiting to take effect. After it, and one instruction that is
   none of EI, DI and RETI, interrupts are on inside the handler if and only if one was waiting.
   */
  lemma PendingEiSurvivesDispatch(c: Ctl, first: Observed, second: Observed)
    requires first.kind.Dispatched? && second.kind.Executed?
    requires !Executes(second, Ei) && !Executes(second, Di) && !Executes(second, Reti)
    ensures RunCtl(c, [first, second]).ime <==> c.scheduled
  {
    TwoSteps(c, first, second);
    hide RunCtl;
  }

  /** The case is reachable: two EIs in a row, then an interrupt. */
  lemma NestedDispatchReachable()
    ensures exists steps: seq<Observed> ::
      && Possible(Ctl(false, false, false, false), steps) && |steps| == 5
      && steps[2].kind.Dispatched? && Executes(steps[3], Register) && steps[4].kind.Dispatched?
  {
    var c := Ctl(false, false, false, false);
    var d := Detail(true, 0);
    var ei := Observed(false, Executed(Ei, false, d));
    var hit := Observed(true, Dispatched(0x40, Flags(0xE1, 0xE1, 0xE0)));
    var nop := Observed(true, Executed(Register, true, d));
    var steps := [ei, ei, hit, nop, hit];
    assert steps[..0] == [] && steps[..1] == [ei] && steps[..2] == [ei, ei];
    assert steps[..3] == [ei, ei, hit] && steps[..4] == [ei, ei, hit, nop];
    assert [ei][..0] == [] && [ei, ei][..1] == [ei];
    assert [ei, ei, hit][..2] == [ei, ei] && [ei, ei, hit, nop][..3] == [ei, ei, hit];
    assert RunCtl(c, [ei]) == Ctl(false, true, false, false);
    assert RunCtl(c, [ei, ei]) == Ctl(true, true, false, false);
    assert RunCtl(c, [ei, ei, hit]) == Ctl(false, true, false, false);
    assert RunCtl(c, [ei, ei, hit, nop]) == Ctl(true, false, false, false);
    assert Possible(c, steps);
  }
}
