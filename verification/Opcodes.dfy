/**
 The instruction set byte by byte, in numbers: what one executed byte returns, does to PC, SP and the bus, and
 does to the interrupt state. The definitions of Instructions are proved to agree with these tables.
 */
module Opcodes {
  import opened Bytes
  import opened Instructions

  /** What a byte returns, and PC and SP after it. */
  datatype Outcome = Outcome(cycles: int, pc: u16, sp: u16)

  function Wrapped(x: int): u16 { x % 0x1_0000 }

  function Signed(b: nat): int { if b < 0x80 then b else b - 0x100 }

  /** Immediate bytes come first, one or two. */
  predicate Byte(t: seq<MCycle>, pc: u16, word: u16) { |t| > 0 && t[0] == Read(pc, word % 0x100) }
  predicate Word(t: seq<MCycle>, pc: u16, word: u16) {
    |t| > 1 && t[0] == Read(pc, word % 0x100) && t[1] == Read(Wrapped(pc + 1), word / 0x100)
  }

  /** From position `n` on, and nothing after: one access, a read and a write back, a pop, a push. */
  predicate Loads(t: seq<MCycle>, n: nat) { |t| == n + 1 && t[n].Read? }
  predicate Stores(t: seq<MCycle>, n: nat) { |t| == n + 1 && t[n].Write? }
  predicate Updates(t: seq<MCycle>, n: nat) {
    |t| == n + 2 && t[n].Read? && t[n + 1].Write? && t[n].addr == t[n + 1].addr
  }
  predicate Pops(t: seq<MCycle>, n: nat, word: u16, sp: u16) {
    |t| == n + 2 && t[n] == Read(sp, word % 0x100) && t[n + 1] == Read(Wrapped(sp + 1), word / 0x100)
  }
  predicate Pushes(t: seq<MCycle>, n: nat, word: u16, sp: u16) {
    && |t| == n + 3 && t[n] == Internal
    && t[n + 1] == Write(Wrapped(sp - 1), word / 0x100) && t[n + 2] == Write(Wrapped(sp - 2), word % 0x100)
  }

  /**
   Byte `b`, fetched just before `pc`, ends in `r` by way of the M-cycles `t`. Here `word` is the operand, the word
   popped or pushed, or the register named, and `taken` is whether a condition held.
   */
  predicate Does(b: u8, taken: bool, word: u16, pc: u16, sp: u16, r: Outcome, t: seq<MCycle>) {
    if NoInstruction(b) then r == Outcome(-1, pc, sp) && t == []
    else if b == 0x76 then r == Outcome(4, pc, sp) && t == []  // HALT
    else if 0x70 <= b < 0x78 then r == Outcome(8, pc, sp) && Stores(t, 0)  // LD [HL],r8
    else if 0x40 <= b < 0xC0 then  // LD r8,r8 and the arithmetic
      if b % 8 == 6 then r == Outcome(8, pc, sp) && Loads(t, 0) else r == Outcome(4, pc, sp) && t == []
    else
      match b
      // NOP, rotates of A, DAA, CPL, SCF, CCF, DI, EI
      case 0x00 | 0x07 | 0x0F | 0x17 | 0x1F | 0x27 | 0x2F | 0x37 | 0x3F | 0xF3 | 0xFB =>
        r == Outcome(4, pc, sp) && t == []
      // STOP
      case 0x10 => r == Outcome(4, Wrapped(pc + 1), sp) && Byte(t, pc, word) && |t| == 2 && t[1] == DivReset
      // INC r8, DEC r8
      case 0x04 | 0x0C | 0x14 | 0x1C | 0x24 | 0x2C | 0x3C | 0x05 | 0x0D | 0x15 | 0x1D | 0x25 | 0x2D | 0x3D =>
        r == Outcome(4, pc, sp) && t == []
      case 0x34 | 0x35 => r == Outcome(12, pc, sp) && Updates(t, 0)
      // LD r8,imm8
      case 0x06 | 0x0E | 0x16 | 0x1E | 0x26 | 0x2E | 0x3E =>
        r == Outcome(8, Wrapped(pc + 1), sp) && Byte(t, pc, word) && |t| == 1
      case 0x36 => r == Outcome(12, Wrapped(pc + 1), sp) && Byte(t, pc, word) && Stores(t, 1)
      // the arithmetic with imm8
      case 0xC6 | 0xCE | 0xD6 | 0xDE | 0xE6 | 0xEE | 0xF6 | 0xFE =>
        r == Outcome(8, Wrapped(pc + 1), sp) && Byte(t, pc, word) && |t| == 1
      // LD [r16],A and LD A,[r16]
      case 0x02 | 0x12 | 0x22 | 0x32 => r == Outcome(8, pc, sp) && Stores(t, 0)
      case 0x0A | 0x1A | 0x2A | 0x3A => r == Outcome(8, pc, sp) && Loads(t, 0)
      // LD r16,imm16; INC r16, DEC r16, ADD HL,r16
      case 0x01 | 0x11 | 0x21 => r == Outcome(12, Wrapped(pc + 2), sp) && Word(t, pc, word) && |t| == 2
      case 0x31 => r == Outcome(12, Wrapped(pc + 2), word) && Word(t, pc, word) && |t| == 2
      case 0x03 | 0x13 | 0x23 | 0x0B | 0x1B | 0x2B | 0x09 | 0x19 | 0x29 | 0x39 => r == Outcome(8, pc, sp) && t == []
      case 0x33 => r == Outcome(8, pc, Wrapped(sp + 1)) && t == []
      case 0x3B => r == Outcome(8, pc, Wrapped(sp - 1)) && t == []
      // LD [imm16],SP; LDH; LD with A at imm16
      case 0x08 =>
        && r == Outcome(20, Wrapped(pc + 2), sp) && Word(t, pc, word)
        && |t| == 4 && t[2] == Write(word, sp % 0x100) && t[3] == Write(Wrapped(word + 1), sp / 0x100)
      case 0xE0 =>
        r == Outcome(12, Wrapped(pc + 1), sp) && Byte(t, pc, word) && Stores(t, 1) && t[1].addr == 0xFF00 + word
      case 0xF0 =>
        r == Outcome(12, Wrapped(pc + 1), sp) && Byte(t, pc, word) && Loads(t, 1) && t[1].addr == 0xFF00 + word
      case 0xE2 => r == Outcome(8, pc, sp) && Stores(t, 0) && t[0].addr == 0xFF00 + word
      case 0xF2 => r == Outcome(8, pc, sp) && Loads(t, 0) && t[0].addr == 0xFF00 + word
      case 0xEA => r == Outcome(16, Wrapped(pc + 2), sp) && Word(t, pc, word) && Stores(t, 2) && t[2].addr == word
      case 0xFA => r == Outcome(16, Wrapped(pc + 2), sp) && Word(t, pc, word) && Loads(t, 2) && t[2].addr == word
      // ADD SP,imm8; LD HL,SP+imm8; LD SP,HL
      case 0xE8 => r == Outcome(16, Wrapped(pc + 1), Wrapped(sp + Signed(word % 0x100))) && Byte(t, pc, word) && |t| == 1
      case 0xF8 => r == Outcome(12, Wrapped(pc + 1), sp) && Byte(t, pc, word) && |t| == 1
      case 0xF9 => r == Outcome(8, pc, word) && t == []
      // JR, JP
      case 0x18 => r == Outcome(12, Wrapped(pc + 1 + Signed(word % 0x100)), sp) && Byte(t, pc, word) && |t| == 1
      case 0x20 | 0x28 | 0x30 | 0x38 =>
        && Byte(t, pc, word) && |t| == 1
        && r == if taken then Outcome(12, Wrapped(pc + 1 + Signed(word % 0x100)), sp) else Outcome(8, Wrapped(pc + 1), sp)
      case 0xC3 => r == Outcome(16, word, sp) && Word(t, pc, word) && |t| == 2
      case 0xC2 | 0xCA | 0xD2 | 0xDA =>
        Word(t, pc, word) && |t| == 2 && r == if taken then Outcome(16, word, sp) else Outcome(12, Wrapped(pc + 2), sp)
      case 0xE9 => r == Outcome(4, word, sp) && t == []
      // CALL, RST, RET, RETI, PUSH, POP
      case 0xCD => r == Outcome(24, word, Wrapped(sp - 2)) && Word(t, pc, word) && Pushes(t, 2, Wrapped(pc + 2), sp)
      case 0xC4 | 0xCC | 0xD4 | 0xDC =>
        && Word(t, pc, word)
        && if taken then r == Outcome(24, word, Wrapped(sp - 2)) && Pushes(t, 2, Wrapped(pc + 2), sp)
           else r == Outcome(12, Wrapped(pc + 2), sp) && |t| == 2
      case 0xC7 | 0xCF | 0xD7 | 0xDF | 0xE7 | 0xEF | 0xF7 | 0xFF =>
        r == Outcome(16, b - 0xC7, Wrapped(sp - 2)) && Pushes(t, 0, pc, sp)
      case 0xC9 | 0xD9 => r == Outcome(16, word, Wrapped(sp + 2)) && Pops(t, 0, word, sp)
      case 0xC0 | 0xC8 | 0xD0 | 0xD8 =>
        && t != [] && t[0] == Internal
        && if taken then r == Outcome(20, word, Wrapped(sp + 2)) && Pops(t, 1, word, sp)
           else r == Outcome(8, pc, sp) && |t| == 1
      case 0xC5 | 0xD5 | 0xE5 | 0xF5 => r == Outcome(16, pc, Wrapped(sp - 2)) && Pushes(t, 0, word, sp)
      case 0xC1 | 0xD1 | 0xE1 | 0xF1 => r == Outcome(12, pc, Wrapped(sp + 2)) && Pops(t, 0, word, sp)
      // the CB table: rotates, shifts, RES and SET update their operand and BIT reads it
      case 0xCB =>
        && Byte(t, pc, word) && word < 0x100
        && if word % 8 != 6 then r == Outcome(8, Wrapped(pc + 1), sp) && |t| == 1
           else if 0x40 <= word < 0x80 then r == Outcome(12, Wrapped(pc + 1), sp) && Loads(t, 1)
           else r == Outcome(16, Wrapped(pc + 1), sp) && Updates(t, 1)
      case _ => false
  }

  predicate NoInstruction(b: u8) {
    match b
    case 0xD3 | 0xDB | 0xDD | 0xE3 | 0xE4 | 0xEB | 0xEC | 0xED | 0xF4 | 0xFC | 0xFD => true
    case _ => false
  }

  /** The handlers with more than a table row to them, by their bytes. */
  predicate Named(op: Op, b: u8) {
    && (op.Unassigned? <==> NoInstruction(b)) && (op.Stop? <==> b == 0x10) && (op.Halt? <==> b == 0x76)
    && (op.Reti? <==> b == 0xD9) && (op.Di? <==> b == 0xF3) && (op.Ei? <==> b == 0xFB)
  }

  /**
   The interrupt state `c` becomes `d`: an EI before takes effect, then RETI, DI, EI and HALT have theirs; `irq` is
   whether an interrupt is requested at that point.
   */
  predicate Controls(b: u8, c: Ctl, irq: bool, d: Ctl) {
    var on := c.ime || c.scheduled;
    && d.ime == (b == 0xD9 || (b != 0xF3 && on))
    && d.scheduled == (b == 0xFB)
    && d.halted == (b == 0x76 && (on || !irq))
    && d.haltBug == if NoInstruction(b) then c.haltBug else b == 0x76 && !on && irq
  }

  /** A step from the first state to the second that fetched at PC and did what the byte fetched does. */
  predicate Runs(c: Ctl, pc: u16, sp: u16, before: seq<MCycle>, c': Ctl, pc': u16, sp': u16, after: seq<MCycle>,
                 cycles: int, irq: bool, d: Detail) {
    var n := |before|;
    && before <= after && n < |after| && after[n].Read? && after[n].addr == pc
    && var b := after[n].value;
       && Controls(b, c, irq, c')
       && Does(b, d.taken, d.word, if c.haltBug || NoInstruction(b) then pc else Wrapped(pc + 1), sp,
               Outcome(cycles, pc', sp'), Body(after[n + 1..]))
  }

  // ---------------------------------------------------------------------------
  // The definitions agree with the tables, a few handlers at a time
  // ---------------------------------------------------------------------------

  lemma CallRows(b: u8, d: Detail, pc: u16, sp: u16, pc': u16, sp': u16, t: seq<MCycle>)
    requires var op := Decode(b); op.CallCondImm16? || op.CallImm16? || op.Rst?
    requires Effect(b, d, pc, sp, pc', sp', t)
    ensures Does(b, d.taken, d.word, pc, sp, Outcome(OpCycles(b, d.taken, d.word), pc', sp'), t)
  {
    hide JumpAccesses, JumpPc, JumpCycles, DataShape;
    hide DataSp, DataOperands, DataCycles, ControlEffect, ControlCycles, NoInstruction;
    UnassignedBytes(b);
  }

  lemma ReturnRows(b: u8, d: Detail, pc: u16, sp: u16, pc': u16, sp': u16, t: seq<MCycle>)
    requires var op := Decode(b); op.RetCond? || op.Ret? || op.Pop? || op.Push?
    requires Effect(b, d, pc, sp, pc', sp', t)
    ensures Does(b, d.taken, d.word, pc, sp, Outcome(OpCycles(b, d.taken, d.word), pc', sp'), t)
  {
    hide JumpAccesses, JumpPc, JumpCycles, DataShape;
    hide DataSp, DataOperands, DataCycles, ControlEffect, ControlCycles, NoInstruction;
    UnassignedBytes(b);
  }

  lemma JumpRows(b: u8, d: Detail, pc: u16, sp: u16, pc': u16, sp': u16, t: seq<MCycle>)
    requires var op := Decode(b); op.JpCondImm16? || op.JpImm16? || op.JpHl?
    requires Effect(b, d, pc, sp, pc', sp', t)
    ensures Does(b, d.taken, d.word, pc, sp, Outcome(OpCycles(b, d.taken, d.word), pc', sp'), t)
  {
    hide StackAccesses, StackPc, StackSp, StackCycles, DataShape;
    hide DataSp, DataOperands, DataCycles, ControlEffect, ControlCycles, NoInstruction;
    UnassignedBytes(b);
  }

  lemma RelativeRows(b: u8, d: Detail, pc: u16, sp: u16, pc': u16, sp': u16, t: seq<MCycle>)
    requires var op := Decode(b); op.JrImm8? || op.JrCondImm8?
    requires Effect(b, d, pc, sp, pc', sp', t)
    ensures Does(b, d.taken, d.word, pc, sp, Outcome(OpCycles(b, d.taken, d.word), pc', sp'), t)
  {
    hide StackAccesses, StackPc, StackSp, StackCycles, DataShape;
    hide DataSp, DataOperands, DataCycles, ControlEffect, ControlCycles, NoInstruction;
    UnassignedBytes(b);
  }

  lemma ControlRows(b: u8, d: Detail, pc: u16, sp: u16, pc': u16, sp': u16, t: seq<MCycle>)
    requires var op := Decode(b); op.Stop? || op.PrefixCb? || op.Halt? || op.Di? || op.Ei? || op.Reti? || op.Unassigned?
    requires Effect(b, d, pc, sp, pc', sp', t)
    ensures Does(b, d.taken, d.word, pc, sp, Outcome(OpCycles(b, d.taken, d.word), pc', sp'), t)
  {
    hide StackAccesses, StackPc, StackSp, StackCycles, JumpAccesses;
    hide JumpPc, JumpCycles, DataShape, DataSp, DataOperands, DataCycles, NoInstruction;
    UnassignedBytes(b);
  }

  lemma RegisterRows(b: u8, d: Detail, pc: u16, sp: u16, pc': u16, sp': u16, t: seq<MCycle>)
    requires var op := Decode(b); op.Register?
    requires Effect(b, d, pc, sp, pc', sp', t)
    ensures Does(b, d.taken, d.word, pc, sp, Outcome(OpCycles(b, d.taken, d.word), pc', sp'), t)
  {
    hide StackAccesses, StackPc, StackSp, StackCycles, JumpAccesses;
    hide JumpPc, JumpCycles, DataShape, DataSp, DataOperands, DataCycles, NoInstruction;
    UnassignedBytes(b);
  }

  lemma WordRows(b: u8, d: Detail, pc: u16, sp: u16, pc': u16, sp': u16, t: seq<MCycle>)
    requires var op := Decode(b); op.LdR16Imm16?
    requires Effect(b, d, pc, sp, pc', sp', t)
    ensures Does(b, d.taken, d.word, pc, sp, Outcome(OpCycles(b, d.taken, d.word), pc', sp'), t)
  {
    hide StackAccesses, StackPc, StackSp, StackCycles;
    hide JumpAccesses, JumpPc, JumpCycles, ControlEffect, ControlCycles, NoInstruction;
    UnassignedBytes(b);
  }

  lemma StepRows(b: u8, d: Detail, pc: u16, sp: u16, pc': u16, sp': u16, t: seq<MCycle>)
    requires var op := Decode(b); op.IncDecR16?
    requires Effect(b, d, pc, sp, pc', sp', t)
    ensures Does(b, d.taken, d.word, pc, sp, Outcome(OpCycles(b, d.taken, d.word), pc', sp'), t)
  {
    hide StackAccesses, StackPc, StackSp, StackCycles;
    hide JumpAccesses, JumpPc, JumpCycles, ControlEffect, ControlCycles, NoInstruction;
    UnassignedBytes(b);
    assert b < 0x40 && (b / 16 % 4 == 3 <==> b >= 0x30);
  }

  lemma SpRows(b: u8, d: Detail, pc: u16, sp: u16, pc': u16, sp': u16, t: seq<MCycle>)
    requires var op := Decode(b); op.LdImm16MemSp? || op.AddSpImm8? || op.LdHlSpImm8? || op.LdSpHl?
    requires Effect(b, d, pc, sp, pc', sp', t)
    ensures Does(b, d.taken, d.word, pc, sp, Outcome(OpCycles(b, d.taken, d.word), pc', sp'), t)
  {
    hide StackAccesses, StackPc, StackSp, StackCycles;
    hide JumpAccesses, JumpPc, JumpCycles, ControlEffect, ControlCycles, NoInstruction;
    UnassignedBytes(b);
  }

  lemma HighRows(b: u8, d: Detail, pc: u16, sp: u16, pc': u16, sp': u16, t: seq<MCycle>)
    requires var op := Decode(b); op.LdhImm8MemA? || op.LdhCMemA? || op.LdhAImm8Mem? || op.LdhACMem?
    requires Effect(b, d, pc, sp, pc', sp', t)
    ensures Does(b, d.taken, d.word, pc, sp, Outcome(OpCycles(b, d.taken, d.word), pc', sp'), t)
  {
    hide StackAccesses, StackPc, StackSp, StackCycles;
    hide JumpAccesses, JumpPc, JumpCycles, ControlEffect, ControlCycles, NoInstruction;
    UnassignedBytes(b);
  }

  lemma AbsoluteRows(b: u8, d: Detail, pc: u16, sp: u16, pc': u16, sp': u16, t: seq<MCycle>)
    requires var op := Decode(b); op.LdImm16MemA? || op.LdAImm16Mem?
    requires Effect(b, d, pc, sp, pc', sp', t)
    ensures Does(b, d.taken, d.word, pc, sp, Outcome(OpCycles(b, d.taken, d.word), pc', sp'), t)
  {
    hide StackAccesses, StackPc, StackSp, StackCycles;
    hide JumpAccesses, JumpPc, JumpCycles, ControlEffect, ControlCycles, NoInstruction;
    UnassignedBytes(b);
  }

  lemma MemoryRows(b: u8, d: Detail, pc: u16, sp: u16, pc': u16, sp': u16, t: seq<MCycle>)
    requires var op := Decode(b); op.LdR16MemA? || op.LdAR16Mem? || op.AddHlR16?
    requires Effect(b, d, pc, sp, pc', sp', t)
    ensures Does(b, d.taken, d.word, pc, sp, Outcome(OpCycles(b, d.taken, d.word), pc', sp'), t)
  {
    hide StackAccesses, StackPc, StackSp, StackCycles;
    hide JumpAccesses, JumpPc, JumpCycles, ControlEffect, ControlCycles, NoInstruction;
    UnassignedBytes(b);
  }

  lemma OperandRows(b: u8, d: Detail, pc: u16, sp: u16, pc': u16, sp': u16, t: seq<MCycle>)
    requires var op := Decode(b); op.IncDecR8? || op.LdR8Imm8?
    requires Effect(b, d, pc, sp, pc', sp', t)
    ensures Does(b, d.taken, d.word, pc, sp, Outcome(OpCycles(b, d.taken, d.word), pc', sp'), t)
  {
    hide StackAccesses, StackPc, StackSp, StackCycles;
    hide JumpAccesses, JumpPc, JumpCycles, ControlEffect, ControlCycles, NoInstruction;
    UnassignedBytes(b);
  }

  lemma ByteRows(b: u8, d: Detail, pc: u16, sp: u16, pc': u16, sp': u16, t: seq<MCycle>)
    requires var op := Decode(b); op.AluImm8? || op.LdR8R8? || op.AluR8?
    requires Effect(b, d, pc, sp, pc', sp', t)
    ensures Does(b, d.taken, d.word, pc, sp, Outcome(OpCycles(b, d.taken, d.word), pc', sp'), t)
  {
    hide StackAccesses, StackPc, StackSp, StackCycles;
    hide JumpAccesses, JumpPc, JumpCycles, ControlEffect, ControlCycles, NoInstruction;
    UnassignedBytes(b);
  }

  /** Every byte returns and does what its row says. */
  lemma EffectIsTable(b: u8, d: Detail, pc: u16, sp: u16, pc': u16, sp': u16, t: seq<MCycle>)
    requires Effect(b, d, pc, sp, pc', sp', t)
    ensures Does(b, d.taken, d.word, pc, sp, Outcome(OpCycles(b, d.taken, d.word), pc', sp'), t)
  {
    hide Decode, Effect, Does, OpCycles;
    match Decode(b)
    case CallCondImm16 | CallImm16 | Rst => CallRows(b, d, pc, sp, pc', sp', t);
    case RetCond | Ret | Pop | Push => ReturnRows(b, d, pc, sp, pc', sp', t);
    case JpCondImm16 | JpImm16 | JpHl => JumpRows(b, d, pc, sp, pc', sp', t);
    case JrImm8 | JrCondImm8 => RelativeRows(b, d, pc, sp, pc', sp', t);
    case Register => RegisterRows(b, d, pc, sp, pc', sp', t);
    case LdR16Imm16 => WordRows(b, d, pc, sp, pc', sp', t);
    case IncDecR16 => StepRows(b, d, pc, sp, pc', sp', t);
    case LdImm16MemSp | AddSpImm8 | LdHlSpImm8 | LdSpHl => SpRows(b, d, pc, sp, pc', sp', t);
    case LdhImm8MemA | LdhCMemA | LdhAImm8Mem | LdhACMem => HighRows(b, d, pc, sp, pc', sp', t);
    case LdImm16MemA | LdAImm16Mem => AbsoluteRows(b, d, pc, sp, pc', sp', t);
    case LdR16MemA | LdAR16Mem | AddHlR16 => MemoryRows(b, d, pc, sp, pc', sp', t);
    case IncDecR8 | LdR8Imm8 => OperandRows(b, d, pc, sp, pc', sp', t);
    case AluImm8 | LdR8R8 | AluR8 => ByteRows(b, d, pc, sp, pc', sp', t);
    case _ => ControlRows(b, d, pc, sp, pc', sp', t);
  }

  lemma ControlsIsTable(b: u8, c: Ctl, pending: bool, kind: StepKind)
    requires c.Valid() && Allowed(c, pending, kind) && kind.Executed? && kind.op == Decode(b)
    ensures Controls(b, c, kind.irq, NextCtl(c, pending, kind))
  {
    hide Decode, NoInstruction;
    ControlBytes(b);
  }

  /** A step that fetches runs the byte at PC, as its row of the tables says. */
  lemma FetchedRuns(c: Ctl, pending: bool, kind: StepKind, pc: u16, sp: u16, before: seq<MCycle>,
                    pc': u16, sp': u16, after: seq<MCycle>, cycles: int)
    requires c.Valid() && Allowed(c, pending, kind) && kind.Executed?
    requires RanFetched(kind, c.haltBug, pc, sp, before, pc', sp', after, cycles)
    ensures Runs(c, pc, sp, before, NextCtl(c, pending, kind), pc', sp', after, cycles, kind.irq, kind.detail)
    ensures Named(kind.op, after[|before|].value)
  {
    var n := |before|;
    var b := after[n].value;
    ControlBytes(b);
    hide Decode, Effect, Does, OpCycles, NextCtl, Allowed, NoInstruction;
    ControlsIsTable(b, c, pending, kind);
    hide Controls;
    var next := if c.haltBug || NoInstruction(b) then pc else Wrapped(pc + 1);
    EffectIsTable(b, kind.detail, next, sp, pc', sp', Body(after[n + 1..]));
  }

  lemma UnassignedBytes(b: u8)
    ensures Decode(b).Unassigned? <==> NoInstruction(b)
  {
    hide Decode, NoInstruction;
    if Decode(b).Unassigned? {
      UnassignedIsListed(b);
    } else if NoInstruction(b) {
      ListedIsUnassigned(b);
    }
  }

  lemma UnassignedIsListed(b: u8)
    requires Decode(b).Unassigned?
    ensures NoInstruction(b)
  {
  }

  lemma ListedIsUnassigned(b: u8)
    requires NoInstruction(b)
    ensures Decode(b).Unassigned?
  {
  }

  lemma ControlBytes(b: u8)
    ensures Named(Decode(b), b)
  {
    UnassignedBytes(b);
    hide NoInstruction;
  }
}
