/**
 The instruction set, src/isa: for every opcode its cycles, its bus accesses, and what it does to PC, SP and
 the interrupt state. The data moved and the flags are not modelled, so a condition may hold or not.
 */
module Instructions {
  import opened Bytes

  // ---------------------------------------------------------------------------
  // The opcode tables (src/isa/opcodes.c)
  // ---------------------------------------------------------------------------

  /** The handlers of opcode_table. Those that touch neither the bus nor the clock share `Register`. */
  datatype Op =
    | Register | Stop | Halt | Di | Ei | PrefixCb | Unassigned
    | LdR16Imm16 | LdR16MemA | LdAR16Mem | LdImm16MemSp | IncDecR16 | AddHlR16 | IncDecR8 | LdR8Imm8
    | JrImm8 | JrCondImm8 | LdR8R8 | AluR8 | AluImm8
    | RetCond | Ret | Reti | JpCondImm16 | JpImm16 | JpHl | CallCondImm16 | CallImm16 | Rst | Pop | Push
    | LdhImm8MemA | LdhCMemA | LdImm16MemA | LdhAImm8Mem | LdhACMem | LdAImm16Mem | AddSpImm8 | LdHlSpImm8 | LdSpHl
  {
    predicate UsesStack() { RetCond? || Ret? || CallCondImm16? || CallImm16? || Rst? || Pop? || Push? }
    predicate Conditional() { RetCond? || CallCondImm16? || JrCondImm8? || JpCondImm16? }
    predicate Calls() { CallCondImm16? || CallImm16? }
    predicate Jumps() { JrImm8? || JrCondImm8? || JpCondImm16? || JpImm16? || JpHl? }
    predicate Controls() { Register? || Stop? || Halt? || Di? || Ei? || Reti? || PrefixCb? || Unassigned? }
    predicate MovesMemory() {
      || LdhImm8MemA? || LdhCMemA? || LdImm16MemA? || LdhAImm8Mem? || LdhACMem? || LdAImm16Mem?
      || AddSpImm8? || LdHlSpImm8? || LdSpHl?
    }
    predicate MovesData() { !UsesStack() && !Jumps() && !Controls() }
  }

  /** opcode_table. */
  function Decode(op: u8): Op {
    if 0x40 <= op < 0x80 then if op == 0x76 then Halt else LdR8R8
    else if 0x80 <= op < 0xC0 then AluR8
    else
      match op
      case 0xD3 | 0xDB | 0xDD | 0xE3 | 0xE4 | 0xEB | 0xEC | 0xED | 0xF4 | 0xFC | 0xFD => Unassigned
      case 0x10 => Stop
      case 0x01 | 0x11 | 0x21 | 0x31 => LdR16Imm16
      case 0x02 | 0x12 | 0x22 | 0x32 => LdR16MemA
      case 0x0A | 0x1A | 0x2A | 0x3A => LdAR16Mem
      case 0x08 => LdImm16MemSp
      case 0x03 | 0x13 | 0x23 | 0x33 | 0x0B | 0x1B | 0x2B | 0x3B => IncDecR16
      case 0x09 | 0x19 | 0x29 | 0x39 => AddHlR16
      case 0x04 | 0x0C | 0x14 | 0x1C | 0x24 | 0x2C | 0x34 | 0x3C => IncDecR8
      case 0x05 | 0x0D | 0x15 | 0x1D | 0x25 | 0x2D | 0x35 | 0x3D => IncDecR8
      case 0x06 | 0x0E | 0x16 | 0x1E | 0x26 | 0x2E | 0x36 | 0x3E => LdR8Imm8
      case 0x18 => JrImm8
      case 0x20 | 0x28 | 0x30 | 0x38 => JrCondImm8
      case 0xC6 | 0xCE | 0xD6 | 0xDE | 0xE6 | 0xEE | 0xF6 | 0xFE => AluImm8
      case 0xC0 | 0xC8 | 0xD0 | 0xD8 => RetCond
      case 0xC9 => Ret
      case 0xD9 => Reti
      case 0xC2 | 0xCA | 0xD2 | 0xDA => JpCondImm16
      case 0xC3 => JpImm16
      case 0xE9 => JpHl
      case 0xC4 | 0xCC | 0xD4 | 0xDC => CallCondImm16
      case 0xCD => CallImm16
      case 0xC7 | 0xCF | 0xD7 | 0xDF | 0xE7 | 0xEF | 0xF7 | 0xFF => Rst
      case 0xC1 | 0xD1 | 0xE1 | 0xF1 => Pop
      case 0xC5 | 0xD5 | 0xE5 | 0xF5 => Push
      case 0xCB => PrefixCb
      case 0xE0 => LdhImm8MemA
      case 0xE2 => LdhCMemA
      case 0xEA => LdImm16MemA
      case 0xF0 => LdhAImm8Mem
      case 0xF2 => LdhACMem
      case 0xFA => LdAImm16Mem
      case 0xE8 => AddSpImm8
      case 0xF8 => LdHlSpImm8
      case 0xF9 => LdSpHl
      case 0xF3 => Di
      case 0xFB => Ei
      case _ => Register  // NOP, RLCA, RRCA, RLA, RRA, DAA, CPL, SCF, CCF
  }

  /** The r8 operand that means [HL]. */
  predicate IsMemHl(code: nat) { code == 6 }

  // ---------------------------------------------------------------------------
  // Bus accesses
  // ---------------------------------------------------------------------------

  /**
   What a step does in time: M-cycles of four clocks, each with a bus access or without; the tick that
   makes up the rest at the end of the step; and STOP's reset of the divider, which takes no time.
   */
  datatype MCycle =
    | Internal | Read(addr: u16, value: u8) | Write(addr: u16, value: u8)
    | Trailing(cycles: nat) | DivReset
  {
    predicate Plain() { Internal? || Read? || Write? }
  }

  /** Only plain M-cycles have been added. */
  predicate Grew(before: seq<MCycle>, after: seq<MCycle>) {
    before <= after && forall i :: |before| <= i < |after| ==> after[i].Plain()
  }

  /** STOP: its operand, then the reset of the divider. */
  predicate StopsAt(before: seq<MCycle>, after: seq<MCycle>) {
    var n := |before|;
    before <= after && |after| == n + 2 && after[n].Read? && after[n + 1] == DivReset
  }

  /** The shape of one step: plain M-cycles, at least one, and then perhaps a trailing tick or a reset. */
  predicate StepShape(t: seq<MCycle>) {
    var n := |t| - 1;
    && n >= 0 && (forall i :: 0 <= i < n ==> t[i].Plain())
    && match t[n]
       case Trailing(cycles) => n > 0 && (cycles == 4 || cycles == 8 || cycles == 12)
       case DivReset => n > 0
       case _ => true
  }

  /** A little-endian word read from `addr` up. */
  function WordReads(addr: u16, w: u16): seq<MCycle> {
    [Read(addr, w % 0x100), Read((addr + 1) % 0x1_0000, w / 0x100)]
  }

  /** A word pushed below `sp`, high byte first. */
  function WordWrites(sp: u16, w: u16): seq<MCycle> {
    [Write((sp - 1) % 0x1_0000, w / 0x100), Write((sp - 2) % 0x1_0000, w % 0x100)]
  }

  /** Cycles of the stack instructions. */
  function StackCycles(op: Op, taken: bool): nat
    requires op.UsesStack()
  {
    if op.RetCond? then if taken then 20 else 8
    else if op.CallCondImm16? then if taken then 24 else 12
    else if op.CallImm16? then 24
    else if op.Pop? then 12
    else 16
  }

  /** Cycles of the loads and the arithmetic: by opcode, with [HL] for a register costing a memory access. */
  function DataCycles(op: Op, opcode: u8): nat
    requires op.MovesData()
  {
    var source, target := IsMemHl(opcode % 8), IsMemHl(opcode / 8 % 8);
    if op.IncDecR8? then if target then 12 else 4
    else if op.LdR8Imm8? then if target then 12 else 8
    else if op.LdR8R8? then if source || target then 8 else 4
    else if op.AluR8? then if source then 8 else 4
    else if op.LdR16Imm16? || op.LdhImm8MemA? || op.LdhAImm8Mem? || op.LdHlSpImm8? then 12
    else if op.LdImm16MemA? || op.LdAImm16Mem? || op.AddSpImm8? then 16
    else if op.LdImm16MemSp? then 20
    else 8
  }

  /** The stack instructions' M-cycles after the opcode fetch. */
  function StackAccesses(op: Op, taken: bool, word: u16, pc: u16, sp: u16): seq<MCycle>
    requires op.UsesStack()
  {
    if op.Calls() then
      WordReads(pc, word) + if taken then [Internal] + WordWrites(sp, (pc + 2) % 0x1_0000) else []
    else if op.Rst? then [Internal] + WordWrites(sp, pc)
    else if op.Push? then [Internal] + WordWrites(sp, word)
    else (if op.RetCond? then [Internal] else []) + if taken then WordReads(sp, word) else []
  }

  function StackPc(op: Op, opcode: u8, taken: bool, word: u16, pc: u16): u16
    requires op.UsesStack()
  {
    if op.Calls() then if taken then word else (pc + 2) % 0x1_0000
    else if op.Rst? then opcode / 8 % 8 * 8
    else if (op.Ret? || op.RetCond?) && taken then word
    else pc
  }

  function StackSp(op: Op, taken: bool, sp: u16): u16
    requires op.UsesStack()
  {
    if !taken then sp
    else if op.Calls() || op.Rst? || op.Push? then (sp - 2) % 0x1_0000
    else (sp + 2) % 0x1_0000
  }

  /** Cycles of the jumps. */
  function JumpCycles(op: Op, taken: bool): nat
    requires op.Jumps()
  {
    if op.JpHl? then 4
    else if op.JrImm8? || op.JrCondImm8? then if taken then 12 else 8
    else if taken then 16 else 12
  }

  function JumpAccesses(op: Op, operand: u16, pc: u16): seq<MCycle>
    requires op.Jumps()
  {
    if op.JpHl? then []
    else if op.JrImm8? || op.JrCondImm8? then [Read(pc, operand % 0x100)]
    else WordReads(pc, operand)
  }

  /** `(int8_t) offset`, added to PC. */
  function Relative(pc: u16, offset: u8): u16 {
    (pc as int + if offset < 0x80 then offset as int else offset as int - 0x100) % 0x1_0000
  }

  function JumpPc(op: Op, taken: bool, operand: u16, pc: u16): u16
    requires op.Jumps()
  {
    if op.JpHl? then operand
    else if op.JrImm8? || op.JrCondImm8? then
      var next := (pc + 1) % 0x1_0000;
      if taken then Relative(next, operand % 0x100) else next
    else if taken then operand else (pc + 2) % 0x1_0000
  }

  /** Cycles of the CB table, prefix included: BIT only reads its operand. */
  function CbCycles(cb: u8): nat {
    if !IsMemHl(cb % 8) then 8 else if cb / 0x40 == 1 then 12 else 16
  }

  /** Cycles returned by the remaining handlers; -1 stops the emulator. */
  function ControlCycles(op: Op, word: u16): int
    requires op.Controls()
  {
    if op.Unassigned? then -1 else if op.Reti? then 16 else if op.PrefixCb? then CbCycles(word % 0x100) else 4
  }

  /** Cycles returned for any opcode; after a CB prefix, `word` is the byte that follows it. */
  function OpCycles(opcode: u8, taken: bool, word: u16): int {
    var op := Decode(opcode);
    if op.Controls() then ControlCycles(op, word)
    else if op.UsesStack() then StackCycles(op, taken)
    else if op.Jumps() then JumpCycles(op, taken)
    else DataCycles(op, opcode)
  }

  /** One more M-cycle, which reads or writes `addr`. */
  predicate Loaded(before: seq<MCycle>, after: seq<MCycle>, addr: u16) {
    before <= after && |after| == |before| + 1 && after[|before|].Read? && after[|before|].addr == addr
  }

  predicate Stored(before: seq<MCycle>, after: seq<MCycle>, addr: u16) {
    before <= after && |after| == |before| + 1 && after[|before|].Write? && after[|before|].addr == addr
  }

  /** Immediate bytes of the loads and the arithmetic. */
  function DataOperands(op: Op): nat {
    if op.LdR16Imm16? || op.LdImm16MemSp? || op.LdImm16MemA? || op.LdAImm16Mem? then 2
    else if op.LdR8Imm8? || op.AluImm8? || op.LdhImm8MemA? || op.LdhAImm8Mem? || op.AddSpImm8? || op.LdHlSpImm8? then 1
    else 0
  }

  /** SP changes when it is the register the opcode names. */
  function DataSp(op: Op, opcode: u8, word: u16, sp: u16): u16 {
    if op.LdR16Imm16? then if opcode / 16 % 4 == 3 then word else sp
    else if op.IncDecR16? then
      if opcode / 16 % 4 != 3 then sp else if opcode / 8 % 2 == 0 then (sp + 1) % 0x1_0000 else (sp - 1) % 0x1_0000
    else if op.AddSpImm8? then Relative(sp, word % 0x100)
    else if op.LdSpHl? then word
    else sp
  }

  /**
   Their M-cycles after the opcode fetch: immediate bytes first, then the memory operand, at any address HL, BC
   or DE may hold.
   */
  predicate DataShape(op: Op, opcode: u8, word: u16, pc: u16, sp: u16, t: seq<MCycle>) {
    var source, target := IsMemHl(opcode % 8), IsMemHl(opcode / 8 % 8);
    if op.LdR16Imm16? then t == WordReads(pc, word)
    else if op.LdImm16MemSp? then
      t == WordReads(pc, word) + [Write(word, sp % 0x100), Write((word + 1) % 0x1_0000, sp / 0x100)]
    else if op.LdImm16MemA? then Stored(WordReads(pc, word), t, word)
    else if op.LdAImm16Mem? then Loaded(WordReads(pc, word), t, word)
    else if op.LdhImm8MemA? then word < 0x100 && Stored([Read(pc, word)], t, 0xFF00 + word)
    else if op.LdhAImm8Mem? then word < 0x100 && Loaded([Read(pc, word)], t, 0xFF00 + word)
    else if op.LdhCMemA? then word < 0x100 && Stored([], t, 0xFF00 + word)
    else if op.LdhACMem? then word < 0x100 && Loaded([], t, 0xFF00 + word)
    else if op.LdR8Imm8? then
      word < 0x100 && if target then |t| == 2 && t[0] == Read(pc, word) && t[1].Write? else t == [Read(pc, word)]
    else if op.AluImm8? || op.AddSpImm8? || op.LdHlSpImm8? then word < 0x100 && t == [Read(pc, word)]
    else if op.LdR16MemA? then |t| == 1 && t[0].Write?
    else if op.LdAR16Mem? then |t| == 1 && t[0].Read?
    else if op.IncDecR8? && target then |t| == 2 && t[0].Read? && t[1].Write? && t[0].addr == t[1].addr
    else if op.LdR8R8? && target then |t| == 1 && t[0].Write?
    else if (op.LdR8R8? || op.AluR8?) && source then |t| == 1 && t[0].Read?
    else t == []
  }

  /** The M-cycles of a CB opcode after the prefix. */
  predicate CbShape(cb: u8, pc: u16, t: seq<MCycle>) {
    if !IsMemHl(cb % 8) then t == [Read(pc, cb)]
    else if cb / 0x40 == 1 then |t| == 2 && t[0] == Read(pc, cb) && t[1].Read?
    else |t| == 3 && t[0] == Read(pc, cb) && t[1].Read? && t[2].Write? && t[1].addr == t[2].addr
  }

  predicate ControlEffect(op: Op, word: u16, pc: u16, sp: u16, pc': u16, sp': u16, t: seq<MCycle>) {
    if op.Stop? then
      word < 0x100 && t == [Read(pc, word), DivReset] && pc' == (pc + 1) % 0x1_0000 && sp' == sp
    else if op.Reti? then t == WordReads(sp, word) && pc' == word && sp' == (sp + 2) % 0x1_0000
    else if op.PrefixCb? then word < 0x100 && CbShape(word, pc, t) && pc' == (pc + 1) % 0x1_0000 && sp' == sp
    else t == [] && pc' == pc && sp' == sp
  }

  // ---------------------------------------------------------------------------
  // Control state
  // ---------------------------------------------------------------------------

  datatype Ctl = Ctl(ime: bool, scheduled: bool, halted: bool, haltBug: bool) {
    /** The EI promotion and the HALT-bug reset at the start of an instruction. */
    function Fetch(): Ctl {
      Ctl(ime || scheduled, false, halted, false)
    }

    /** What an instruction does to the control state; `irq` is whether any interrupt is requested then. */
    function Execute(op: Op, irq: bool): Ctl {
      match op
      case Di => this.(ime := false, scheduled := false)
      case Ei => this.(scheduled := true)
      case Reti => this.(ime := true)
      case Halt => if ime || !irq then this.(halted := true) else this.(haltBug := true)
      case _ => this
    }

    /** interrupt_service_routine. */
    function Dispatch(): Ctl { this.(ime := false, halted := false) }

    predicate Valid() {
      !(halted && haltBug) && (haltBug ==> !ime && !scheduled)
    }
  }

  /** IF at three points of an interrupt dispatch: after the high-byte push, before the acknowledge, and after it. */
  datatype Flags = Flags(seen: u8, acked: u8, after: u8)

  /** What one execution did beyond its opcode: whether its condition, if it has one, held, and its word. */
  datatype Detail = Detail(taken: bool, word: u16)

  /** What one cpu_step did. */
  datatype StepKind =
    | Dispatched(vector: u16, flags: Flags)
    | Dozed(woke: bool)
    | Executed(op: Op, irq: bool, detail: Detail)

  /** The control state after a step; `pending` is whether an interrupt was requested when it began. */
  function NextCtl(c: Ctl, pending: bool, kind: StepKind): Ctl {
    match kind
    case Dispatched(_, _) => c.Dispatch()
    case Dozed(woke) => c.(halted := !woke)
    case Executed(Unassigned, _, _) => Ctl(c.ime || c.scheduled, false, c.halted, c.haltBug)
    case Executed(op, irq, _) => c.Fetch().Execute(op, irq)
  }

  /** Which kind of step the control state allows. */
  predicate Allowed(c: Ctl, pending: bool, kind: StepKind) {
    if pending && c.ime then kind.Dispatched?
    else if c.halted then kind.Dozed?
    else kind.Executed?
  }

  /** The cycle count of a step is what it delivers to the clock, but for STOP and unassigned opcodes. */
  predicate Accounted(kind: StepKind) {
    kind.Executed? ==> !kind.op.Stop? && !kind.op.Unassigned?
  }

  // ---------------------------------------------------------------------------
  // One step
  // ---------------------------------------------------------------------------

  /** What any opcode does after its fetch, to PC, SP and the bus. */
  predicate Effect(opcode: u8, d: Detail, pc: u16, sp: u16, pc': u16, sp': u16, t: seq<MCycle>) {
    var op := Decode(opcode);
    && (op.Conditional() || d.taken)
    && if op.Controls() then ControlEffect(op, d.word, pc, sp, pc', sp', t)
       else if op.UsesStack() then
         && t == StackAccesses(op, d.taken, d.word, pc, sp)
         && pc' == StackPc(op, opcode, d.taken, d.word, pc) && sp' == StackSp(op, d.taken, sp)
       else if op.Jumps() then
         t == JumpAccesses(op, d.word, pc) && pc' == JumpPc(op, d.taken, d.word, pc) && sp' == sp
       else
         && DataShape(op, opcode, d.word, pc, sp, t)
         && pc' == (pc + DataOperands(op)) % 0x1_0000 && sp' == DataSp(op, opcode, d.word, sp)
  }

  lemma UnassignedDoesNothing(opcode: u8, d: Detail, pc: u16, sp: u16)
    requires Decode(opcode).Unassigned? && d.taken
    ensures OpCycles(opcode, d.taken, d.word) == -1 && Effect(opcode, d, pc, sp, pc, sp, [])
  {
    hide Decode;
  }

  /** M-cycles without the trailing tick. */
  function Body(t: seq<MCycle>): seq<MCycle> {
    if t != [] && t[|t| - 1].Trailing? then t[..|t| - 1] else t
  }

  /**
   The step `kind` that led from the M-cycles `before` to `after` executed the opcode it fetched at `pc`: it
   returned the cycles of that opcode and did what that opcode does. The halt bug and an unassigned opcode
   leave PC on the byte fetched.
   */
  predicate RanFetched(kind: StepKind, haltBug: bool, pc: u16, sp: u16, before: seq<MCycle>,
                       pc': u16, sp': u16, after: seq<MCycle>, cycles: int)
    requires kind.Executed?
  {
    var n := |before|;
    && before <= after && n < |after| && after[n].Read? && after[n].addr == pc
    && var opcode := after[n].value;
       && kind.op == Decode(opcode) && cycles == OpCycles(opcode, kind.detail.taken, kind.detail.word)
       && Effect(opcode, kind.detail, if haltBug || kind.op.Unassigned? then pc else (pc + 1) % 0x1_0000, sp, pc', sp',
                 Body(after[n + 1..]))
  }

  lemma LaterIsRan(kind: StepKind, haltBug: bool, pc: u16, sp: u16, before: seq<MCycle>, pc': u16, sp': u16,
                   after: seq<MCycle>, rest: nat, cycles: int)
    requires kind.Executed? && RanFetched(kind, haltBug, pc, sp, before, pc', sp', after, cycles)
    requires !after[|after| - 1].Trailing?
    ensures RanFetched(kind, haltBug, pc, sp, before, pc', sp', after + [Trailing(rest)], cycles)
  {
    hide Decode, OpCycles, Effect;
    var n := |before|;
    var t, m := after[n + 1..], Trailing(rest);
    assert (after + [m])[n + 1..] == t + [m];
    BodyPast(t, m);
    hide Body;
    assert (after + [m])[n] == after[n];
  }

  lemma BodyPast(t: seq<MCycle>, m: MCycle)
    requires m.Trailing? && (t == [] || !t[|t| - 1].Trailing?)
    ensures Body(t + [m]) == Body(t)
  {
    assert (t + [m])[..|t|] == t;
  }

  /** The M-cycles of a step before any trailing tick. */
  predicate Added(before: seq<MCycle>, after: seq<MCycle>, kind: StepKind) {
    && before <= after && |before| < |after|
    && if kind.Executed? && kind.op.Stop? then StepShape(after[|before|..]) else Grew(before, after)
  }

  /** With or without a trailing tick, a step has its shape. */
  lemma AddedIsShape(before: seq<MCycle>, after: seq<MCycle>, kind: StepKind)
    requires Added(before, after, kind)
    ensures before < after && StepShape(after[|before|..])
    ensures Accounted(kind) ==> !after[|after| - 1].Trailing?
  {
    var t := after[|before|..];
    assert t[|t| - 1] == after[|after| - 1];
  }

  lemma TrailedIsShape(before: seq<MCycle>, after: seq<MCycle>, kind: StepKind, rest: nat)
    requires Added(before, after, kind) && Accounted(kind) && (rest == 4 || rest == 8 || rest == 12)
    ensures StepShape((after + [Trailing(rest)])[|before|..])
  {
    assert (after + [Trailing(rest)])[|before|..] == after[|before|..] + [Trailing(rest)];
  }
}
