/** The CPU as a value: the machine state, the twelve addressing-mode resolvers, the
    effect of every instruction, one step of the interpreter loop and a whole run
    (include/mos6502.hpp and src/6502.cpp). The class in module Cpu is proved to
    follow these functions. */
module Semantics {

  import opened Wrappers
  import opened Bits
  import opened Flags
  import opened Opcodes

  /** MEM_MAX: 64 KiB of addressable memory. */
  const MEM_MAX: nat := 0x1_0000
  /** The reset PC. RESET_LOC is not defined in the header; RESET_START is used. */
  const RESET_START: u16 := 0x4000
  /** The interrupt vector: low byte at INT_VEC_LOC, high byte at the next address. */
  const INT_VEC_LOC: u16 := 0xFFFE
  /** STACK_END: the stack occupies 0x0100 + S. */
  const STACK_END: u16 := 0x0100
  /** Number of values of a `u32`, for the C++ wrap-around of the cycle budget. */
  const U32_MOD: nat := 0x1_0000_0000

  /** `numCycles -= cycles` on a `u32`: the count wraps around below zero. */
  function Charge(budget: u32, cycles: nat): (r: u32)
    ensures cycles <= budget ==> r == budget - cycles
    ensures budget < cycles <= U32_MOD + budget ==> r == U32_MOD + budget - cycles
  {
    (budget - cycles) % U32_MOD
  }

  type Memory = s: seq<u8> | |s| == MEM_MAX witness seq(MEM_MAX, _ => 0)

  /** The public state of a `CPU`: its RAM and its registers. */
  datatype Machine = Machine(ram: Memory, PC: u16, A: u8, X: u8, Y: u8, S: u8, SR: u8)

  /** The `CPU_MODEL` selected in models.hpp, which only the indirect resolver reads. */
  datatype CpuModel = Model6502 | Model65SC02
  const CPU_MODEL: CpuModel := Model6502

  /** The registers an instruction can name through a `u8&` parameter. */
  datatype Register = AReg | XReg | YReg | SReg

  function Reg(m: Machine, r: Register): u8
  {
    match r
    case AReg => m.A
    case XReg => m.X
    case YReg => m.Y
    case SReg => m.S
  }

  function SetReg(m: Machine, r: Register, v: u8): Machine
  {
    match r
    case AReg => m.(A := v)
    case XReg => m.(X := v)
    case YReg => m.(Y := v)
    case SReg => m.(S := v)
  }

  /** The `avo` record: effective address, value read there, and index added. */
  datatype Avo = Avo(addr: u16, val: u8, offset: u8)

  /** `ram[PC + k]`, the k-th byte after the opcode (the address wraps at 64 KiB). */
  function Fetch(m: Machine, k: nat): u8
  {
    m.ram[(m.PC + k) % MEM_MAX]
  }

  // The addressing-mode resolvers `addr_mode_get_*`.

  function Implied(): Avo
  {
    Avo(0xFFFF, 0xFF, 0)
  }

  function Immediate(m: Machine): Avo
  {
    Avo(0xFFFF, Fetch(m, 1), 0)
  }

  function ZeroPage(m: Machine): Avo
  {
    var addr := Fetch(m, 1);
    Avo(addr, m.ram[addr], 0)
  }

  function ZeroPageX(m: Machine): Avo
  {
    var addr := (Fetch(m, 1) + m.X) % 256;
    Avo(addr, m.ram[addr], m.X)
  }

  function ZeroPageY(m: Machine): Avo
  {
    var addr := (Fetch(m, 1) + m.Y) % 256;
    Avo(addr, m.ram[addr], m.Y)
  }

  function Absolute(m: Machine): Avo
  {
    var addr := B2W(Fetch(m, 1), Fetch(m, 2));
    Avo(addr, m.ram[addr], 0)
  }

  function AbsoluteX(m: Machine): Avo
  {
    var addr := (B2W(Fetch(m, 1), Fetch(m, 2)) + m.X) % MEM_MAX;
    Avo(addr, m.ram[addr], m.X)
  }

  function AbsoluteY(m: Machine): Avo
  {
    var addr := (B2W(Fetch(m, 1), Fetch(m, 2)) + m.Y) % MEM_MAX;
    Avo(addr, m.ram[addr], m.Y)
  }

  /** The pointer's high byte is read from the byte after its low byte; on the 6502
      that byte stays on the pointer's page (the page bug), on the 65SC02 the page
      is carried. */
  function Indirect(m: Machine, model: CpuModel): Avo
  {
    var low := Fetch(m, 1);
    var high := Fetch(m, 2);
    var derefLow := m.ram[B2W(low, high)];
    var high' := if model == Model65SC02 && low == 0xFF then (high + 1) % 256 else high;
    var low' := (low + 1) % 256;
    var derefHigh := m.ram[B2W(low', high')];
    Avo(B2W(derefLow, derefHigh), 0, 0)
  }

  function IndexedIndirect(m: Machine): Avo
  {
    var zp := Fetch(m, 1);
    var addr := B2W(m.ram[(zp + m.X) % 256], m.ram[(zp + m.X + 1) % 256]);
    Avo(addr, m.ram[addr], m.X)
  }

  function IndirectIndexed(m: Machine): Avo
  {
    var zp := Fetch(m, 1);
    var addr := (m.Y + B2W(m.ram[zp], m.ram[(zp + 1) % 256])) % MEM_MAX;
    Avo(addr, m.ram[addr], m.Y)
  }

  function NullMode(): Avo
  {
    Avo(0, 0, 0)
  }

  /** `addr_mode_get(am)`: ACC resolves like IMP and REL like IMM. */
  function Resolve(m: Machine, mode: AddrMode): Avo
  {
    match mode
    case IMP => Implied()
    case IMM => Immediate(m)
    case ZPG => ZeroPage(m)
    case ZPX => ZeroPageX(m)
    case ZPY => ZeroPageY(m)
    case ABS => Absolute(m)
    case ABX => AbsoluteX(m)
    case ABY => AbsoluteY(m)
    case IND => Indirect(m, CPU_MODEL)
    case IDX => IndexedIndirect(m)
    case IDY => IndirectIndexed(m)
    case ACC => Implied()
    case REL => Immediate(m)
    case NUL => NullMode()
  }

  /** The extra cycle of `load` and `arith`: in modes ABX, ABY and IDY, one cycle when
      the effective address and the address before indexing are on different pages. */
  function PagePenalty(mode: AddrMode, avo: Avo): nat
  {
    if mode in {ABX, ABY, IDY} && OnDifferentPages(avo.addr, (avo.addr - avo.offset) % MEM_MAX)
    then 1 else 0
  }

  // Arithmetic helpers.

  /** A byte result together with the status register it leaves. */
  datatype Flagged = Flagged(val: u8, sr: u8)

  function CarryIn(sr: u8): nat
  {
    if GetFlag(sr, Carry) then 1 else 0
  }

  /** `add(op1, op2)`: the sum with the carry; V compares bit 7 of register A with bit
      7 of the sum, and C is then set equal to V. Returns the sum and the new SR. */
  function Add(sr: u8, regA: u8, op1: u8, op2: u8): Flagged
  {
    var val := (op1 + op2 + CarryIn(sr)) % 256;
    var sr1 := SetFlag(sr, Overflow, SignBit(regA) != SignBit(val));
    Flagged(val, SetFlag(sr1, Carry, GetFlag(sr1, Overflow)))
  }

  /** `sub(op1, op2)`: the difference minus the carry; V as in `add`, C cleared on
      overflow. */
  function Sub(sr: u8, regA: u8, op1: u8, op2: u8): Flagged
  {
    var val := (op1 - op2 - CarryIn(sr)) % 256;
    var sr1 := SetFlag(sr, Overflow, SignBit(regA) != SignBit(val));
    Flagged(val, SetFlag(sr1, Carry, !GetFlag(sr1, Overflow)))
  }

  /** The operations `arith` is given: `bitwise_and`, `bitwise_eor`, `bitwise_or`,
      `add`, `sub`. */
  datatype AluOp = AndOp8 | EorOp8 | OrOp8 | AddOp | SubOp

  function Alu(op: AluOp, sr: u8, regA: u8, op1: u8, op2: u8): Flagged
  {
    match op
    case AndOp8 => Flagged(BitwiseAnd(op1, op2), sr)
    case EorOp8 => Flagged(BitwiseEor(op1, op2), sr)
    case OrOp8 => Flagged(BitwiseOr(op1, op2), sr)
    case AddOp => Add(sr, regA, op1, op2)
    case SubOp => Sub(sr, regA, op1, op2)
  }

  /** The operations `shift_rot` is given. */
  datatype ShiftOp = ShiftLeft | ShiftRight | RotateLeft | RotateRight

  /** The shifted byte and the new SR. The rotates first copy the bit shifted out
      into C and then feed that same C into the vacated bit, so they rotate within
      the byte; the carry held before the instruction is never read. */
  function Shift(op: ShiftOp, sr: u8, x: u8): Flagged
  {
    match op
    case ShiftLeft =>
      Flagged((x * 2) % 256, SetFlag(sr, Carry, SignBit(x)))
    case ShiftRight =>
      Flagged(x / 2, SetFlag(sr, Carry, LowBit(x)))
    case RotateLeft =>
      var sr1 := SetFlag(sr, Carry, SignBit(x));
      Flagged((x * 2 + CarryIn(sr1)) % 256, sr1)
    case RotateRight =>
      var sr1 := SetFlag(sr, Carry, LowBit(x));
      Flagged(x / 2 + CarryIn(sr1) * 128, sr1)
  }

  // Instruction helpers. Those that can cost extra cycles return the extra count.

  /** What an instruction's `case` leaves: the new machine and the cycles it costs
      beyond the opcode's base count. */
  datatype Effect = Effect(next: Machine, extra: nat)

  /** `load(reg)`. */
  function Load(m: Machine, r: Register, mode: AddrMode, avo: Avo): Effect
  {
    var m1 := SetReg(m, r, avo.val);
    Effect(m1.(SR := SetZN(m1.SR, avo.val)), PagePenalty(mode, avo))
  }

  /** `store(reg)`. */
  function Store(m: Machine, r: Register, avo: Avo): Machine
  {
    m.(ram := m.ram[avo.addr := Reg(m, r)])
  }

  /** `transfer(from, to, updateFlags)`. */
  function Transfer(m: Machine, from: Register, to: Register, updateFlags: bool): Machine
  {
    var v := Reg(m, from);
    var m1 := SetReg(m, to, v);
    if updateFlags then m1.(SR := SetZN(m1.SR, v)) else m1
  }

  /** `inc_dec(delta, impReg)`: in mode IMP the register `impReg` points to, otherwise
      the byte at the effective address, changes by `delta` modulo 256. The C++
      dereferences a null `impReg` in mode IMP; callers never do that. */
  function IncDec(m: Machine, mode: AddrMode, avo: Avo, delta: int, impReg: Option<Register>): Machine
    requires delta == 1 || delta == -1
    requires mode == IMP ==> impReg.Some?
  {
    if mode == IMP then
      var v := (Reg(m, impReg.value) + delta) % 256;
      var m1 := SetReg(m, impReg.value, v);
      m1.(SR := SetZN(m1.SR, v))
    else
      var v := (m.ram[avo.addr] + delta) % 256;
      m.(ram := m.ram[avo.addr := v], SR := SetZN(m.SR, v))
  }

  /** `arith(op)`: A := op(A, value), Z and N from the result, and the page penalty. */
  function Arith(m: Machine, op: AluOp, mode: AddrMode, avo: Avo): Effect
  {
    var Flagged(val, sr) := Alu(op, m.SR, m.A, m.A, avo.val);
    Effect(m.(A := val, SR := SetZN(sr, val)), PagePenalty(mode, avo))
  }

  /** `shift_rot(op)`: shifts A in mode ACC, otherwise the byte at the effective address. */
  function ShiftRot(m: Machine, op: ShiftOp, mode: AddrMode, avo: Avo): Machine
  {
    var x := if mode == ACC then m.A else m.ram[avo.addr];
    var Flagged(res, sr) := Shift(op, m.SR, x);
    var m1 := if mode == ACC then m.(A := res) else m.(ram := m.ram[avo.addr := res]);
    m1.(SR := SetZN(sr, res))
  }

  /** `bit()`: Z, V and N from the AND of the value with A (V from `& 0x40`, N from
      `& 0x80`). */
  function BitTest(m: Machine, avo: Avo): Machine
  {
    var andRes := BitwiseAnd(avo.val, m.A);
    var sr1 := SetFlag(m.SR, Zero, andRes == 0);
    var sr2 := SetFlag(sr1, Overflow, BitOf(andRes, 6) == 1);
    m.(SR := SetFlag(sr2, Negative, BitOf(andRes, 7) == 1))
  }

  /** `cmp(reg)`: C when reg >= value, Z when equal, N from bit 7 of the 8-bit difference. */
  function Compare(m: Machine, r: Register, avo: Avo): Machine
  {
    var reg := Reg(m, r);
    var sr1 := SetFlag(m.SR, Carry, reg >= avo.val);
    var sr2 := SetFlag(sr1, Zero, reg == avo.val);
    m.(SR := SetFlag(sr2, Negative, SignBit((reg - avo.val) % 256)))
  }

  /** `jmp()`. */
  function Jmp(m: Machine, avo: Avo): Machine
  {
    m.(PC := avo.addr)
  }

  /** The machine after `pull()` and the byte it read. */
  datatype Pulled = Pulled(next: Machine, val: u8)

  /** `push(val)`: writes at 0x0100 + S, then S decreases modulo 256. */
  function Push(m: Machine, v: u8): Machine
  {
    m.(ram := m.ram[STACK_END + m.S := v], S := (m.S - 1) % 256)
  }

  /** `pull()`: S increases modulo 256, then the byte at 0x0100 + S is read. */
  function Pull(m: Machine): Pulled
  {
    var s := (m.S + 1) % 256;
    Pulled(m.(S := s), m.ram[STACK_END + s])
  }

  /** `branch(cond)`: not taken, PC skips the two instruction bytes; taken, PC moves by
      the signed operand from the opcode's address, at one extra cycle, or three when
      the page changes. */
  function Branch(m: Machine, taken: bool, avo: Avo): Effect
  {
    if !taken then
      Effect(m.(PC := (m.PC + 2) % MEM_MAX), 0)
    else
      var newPC := (m.PC + ToSigned(avo.val)) % MEM_MAX;
      Effect(m.(PC := newPC), 1 + 2 * (if OnDifferentPages(m.PC, newPC) then 1 else 0))
  }

  /** The condition each branch passes to `branch`. */
  predicate BranchCondition(ins: Instr, sr: u8)
    requires ins in {BCC, BCS, BEQ, BMI, BNE, BPL, BVC, BVS}
  {
    match ins
    case BCC => !GetFlag(sr, Carry)
    case BCS => GetFlag(sr, Carry)
    case BEQ => GetFlag(sr, Zero)
    case BMI => GetFlag(sr, Negative)
    case BNE => !GetFlag(sr, Zero)
    case BPL => !GetFlag(sr, Negative)
    case BVC => !GetFlag(sr, Overflow)
    case BVS => GetFlag(sr, Overflow)
  }

  /** The return address JSR pushes: PC + 2, the JSR's last byte. */
  function ReturnAddress(pc: u16): u16
  {
    (pc + 2) % MEM_MAX
  }

  /** `jump_sub_routine()`: pushes `highByte(PC + 2)`, then `lowByte(PC + 2)` (only its
      low nibble, as `lowByte` masks with 0x0F), and jumps. */
  function JumpSubRoutine(m: Machine, avo: Avo): Machine
  {
    var ret := ReturnAddress(m.PC);
    var m1 := Push(m, HighByte(ret));
    var m2 := Push(m1, LowByte(ret));
    m2.(PC := avo.addr)
  }

  /** `return_sub_routine()`: pulls the low byte, then the high byte, and sets PC one past them. */
  function ReturnSubRoutine(m: Machine): Machine
  {
    var Pulled(m1, low) := Pull(m);
    var Pulled(m2, high) := Pull(m1);
    m2.(PC := (B2W(low, high) + 1) % MEM_MAX)
  }

  /** `generate_interrupt()`: pushes PC's high byte, its low nibble and SR, jumps through
      the interrupt vector and sets B. No instruction of `execute` reaches it. */
  function GenerateInterrupt(m: Machine): Machine
  {
    var m1 := Push(m, HighByte(m.PC));
    var m2 := Push(m1, LowByte(m.PC));
    var m3 := Push(m2, m2.SR);
    var m4 := m3.(PC := B2W(m3.ram[INT_VEC_LOC], m3.ram[INT_VEC_LOC + 1]));
    m4.(SR := SetFlag(m4.SR, Break, true))
  }

  /** `return_from_interrupt()`: pulls SR, then PC's low and high bytes. */
  function ReturnFromInterrupt(m: Machine): Machine
  {
    var Pulled(m1, sr) := Pull(m);
    var Pulled(m2, low) := Pull(m1.(SR := sr));
    var Pulled(m3, high) := Pull(m2);
    m3.(PC := B2W(low, high))
  }

  /** The helper call each `case` of the `switch` makes, with the arguments it passes. */
  datatype Operation =
    | LoadOp(r: Register)
    | StoreOp(r: Register)
    | TransferOp(from: Register, to: Register, updateFlags: bool)
    | NopOp
    | FlagOp(f: Flag, v: bool)
    | IncDecOp(delta: int, impReg: Option<Register>)
    | AluOpOf(op: AluOp)
    | ShiftOpOf(shift: ShiftOp)
    | BitOp
    | CompareOp(r: Register)
    | JmpOp
    | PushOp(sr: bool)         // PHP pushes SR, PHA pushes A
    | PullOp(sr: bool)         // PLP pulls into SR, PLA into A (setting Z and N)
    | BranchOp(f: Flag, v: bool)  // taken when flag `f` equals `v`
    | JsrOp
    | RtsOp

  /** The `case` of each instruction, as the call it makes. */
  function OperationOf(ins: Instr): (op: Operation)
    requires ins != Illegal
    ensures op.IncDecOp? <==> ins in {INC, INX, INY, DEC, DEX, DEY}
    ensures op.IncDecOp? ==> (op.delta == 1 || op.delta == -1) && (op.impReg.None? <==> ins in {INC, DEC})
  {
    match ins
    case LDA => LoadOp(AReg)
    case LDX => LoadOp(XReg)
    case LDY => LoadOp(YReg)
    case STA => StoreOp(AReg)
    case STX => StoreOp(XReg)
    case STY => StoreOp(YReg)
    case TAX => TransferOp(AReg, XReg, true)
    case TAY => TransferOp(AReg, YReg, true)
    case TSX => TransferOp(SReg, XReg, true)
    case TXA => TransferOp(XReg, AReg, true)
    case TXS => TransferOp(XReg, SReg, false)
    case TYA => TransferOp(YReg, AReg, true)
    case NOP => NopOp
    case CLC => FlagOp(Carry, false)
    case CLD => FlagOp(Decimal, false)
    case CLI => FlagOp(IrqDisable, false)
    case CLV => FlagOp(Overflow, false)
    case SEC => FlagOp(Carry, true)
    case SED => FlagOp(Decimal, true)
    case SEI => FlagOp(IrqDisable, true)
    case INC => IncDecOp(1, None)
    case INX => IncDecOp(1, Some(XReg))
    case INY => IncDecOp(1, Some(YReg))
    case DEC => IncDecOp(-1, None)
    case DEX => IncDecOp(-1, Some(XReg))
    case DEY => IncDecOp(-1, Some(YReg))
    case AND => AluOpOf(AndOp8)
    case EOR => AluOpOf(EorOp8)
    case ORA => AluOpOf(OrOp8)
    case ASL => ShiftOpOf(ShiftLeft)
    case LSR => ShiftOpOf(ShiftRight)
    case ROL => ShiftOpOf(RotateLeft)
    case ROR => ShiftOpOf(RotateRight)
    case ADC => AluOpOf(AddOp)
    case SBC => AluOpOf(SubOp)
    case BIT => BitOp
    case CMP => CompareOp(AReg)
    case CPX => CompareOp(XReg)
    case CPY => CompareOp(YReg)
    case JMP => JmpOp
    case PHA => PushOp(false)
    case PHP => PushOp(true)
    case PLA => PullOp(false)
    case PLP => PullOp(true)
    case BCC => BranchOp(Carry, false)
    case BCS => BranchOp(Carry, true)
    case BEQ => BranchOp(Zero, true)
    case BMI => BranchOp(Negative, true)
    case BNE => BranchOp(Zero, false)
    case BPL => BranchOp(Negative, false)
    case BVC => BranchOp(Overflow, false)
    case BVS => BranchOp(Overflow, true)
    case JSR => JsrOp
    case RTS => RtsOp
  }

  /** The operations whose helper can be called: `inc_dec` is given a step of one and,
      in mode IMP, a register. */
  predicate Callable(op: Operation, mode: AddrMode)
  {
    op.IncDecOp? ==> (op.delta == 1 || op.delta == -1) && (mode == IMP ==> op.impReg.Some?)
  }

  /** The helper call of an operation: the instruction's effect and its extra cycles. */
  function ApplyOperation(m: Machine, op: Operation, mode: AddrMode, avo: Avo): Effect
    requires Callable(op, mode)
  {
    match op
    case LoadOp(r) => Load(m, r, mode, avo)
    case StoreOp(r) => Effect(Store(m, r, avo), 0)
    case TransferOp(from, to, updateFlags) => Effect(Transfer(m, from, to, updateFlags), 0)
    case NopOp => Effect(m, 0)
    case FlagOp(f, v) => Effect(m.(SR := SetFlag(m.SR, f, v)), 0)
    case IncDecOp(delta, impReg) => Effect(IncDec(m, mode, avo, delta, impReg), 0)
    case AluOpOf(op) => Arith(m, op, mode, avo)
    case ShiftOpOf(shift) => Effect(ShiftRot(m, shift, mode, avo), 0)
    case BitOp => Effect(BitTest(m, avo), 0)
    case CompareOp(r) => Effect(Compare(m, r, avo), 0)
    case JmpOp => Effect(Jmp(m, avo), 0)
    case PushOp(sr) => Effect(Push(m, if sr then m.SR else m.A), 0)
    case PullOp(sr) =>
      var Pulled(m1, v) := Pull(m);
      Effect(if sr then m1.(SR := v) else m1.(A := v, SR := SetZN(m1.SR, v)), 0)
    case BranchOp(f, v) => Branch(m, GetFlag(m.SR, f) == v, avo)
    case JsrOp => Effect(JumpSubRoutine(m, avo), 0)
    case RtsOp => Effect(ReturnSubRoutine(m), 0)
  }

  /** The body of one `case` of the `switch`: the instruction's effect and its extra cycles. */
  function Perform(m: Machine, ins: Instr, mode: AddrMode, avo: Avo): Effect
    requires ins != Illegal
    requires ins in {INC, DEC} ==> mode != IMP
  {
    ApplyOperation(m, OperationOf(ins), mode, avo)
  }

  /** What one iteration of the `execute` loop does. */
  datatype StepResult =
    | Stepped(next: Machine, cost: nat)  // the new state and the cycles it consumed
    | BadInstruction                     // the opcode has no `case`

  /** One iteration of the `execute` loop: fetch the opcode at PC, look up its mode,
      resolve the operand, run its `case`, then charge NUM_CYCLES_BASE plus the extra
      cycles and advance PC by INSTR_BYTES. */
  function Step(m: Machine): StepResult
  {
    var op := m.ram[m.PC];
    var ins := Decode(op);
    if ins == Illegal then BadInstruction
    else
      IncDecModes(op);
      StepDecoded(m, ins, INSTR_GET_ADDR_MODE[op], NUM_CYCLES_BASE[op], INSTR_BYTES[op])
  }

  /** The iteration once the opcode is decoded into its instruction, mode, base cycles
      and length. */
  function StepDecoded(m: Machine, ins: Instr, mode: AddrMode, cycles: nat, bytes: nat): StepResult
    requires ins != Illegal
    requires ins in {INC, DEC} ==> mode != IMP
  {
    Advance(Perform(m, ins, mode, Resolve(m, mode)), cycles, bytes)
  }

  /** The end of an iteration, after the `case`: PC moves by the instruction's length
      and the base cycles are added to the extra ones. */
  function Advance(e: Effect, cycles: nat, bytes: nat): StepResult
  {
    Stepped(e.next.(PC := (e.next.PC + bytes) % MEM_MAX), cycles + e.extra)
  }

  /** How `execute` ends. */
  datatype RunResult =
    | Completed(final: Machine)  // the budget reached exactly 0
    | Crashed                    // an opcode without a `case`: the CPU is reset

  /** The `execute` loop around a given iteration `step`: None when it takes more than
      `fuel` iterations (with a budget that wraps around it may never stop). The loop
      itself does not depend on what an iteration does, so its properties are stated
      for any `step`. */
  function RunWith(step: Machine -> StepResult, m: Machine, budget: u32, fuel: nat): Option<RunResult>
    decreases fuel
  {
    if budget == 0 then Some(Completed(m))
    else if fuel == 0 then None
    else
      match step(m)
      case BadInstruction => Some(Crashed)
      case Stepped(next, cost) => RunWith(step, next, Charge(budget, cost), fuel - 1)
  }

  /** `execute(budget)` as a function, around the 6502 iteration `Step`. */
  function Run(m: Machine, budget: u32, fuel: nat): Option<RunResult>
  {
    RunWith(Step, m, budget, fuel)
  }

  /** The first `n` iterations of `step` from `m`, with the cycles they cost together;
      None when one of them meets an opcode without a `case`. */
  function TraceWith(step: Machine -> StepResult, m: Machine, n: nat): Option<(Machine, nat)>
    decreases n
  {
    if n == 0 then Some((m, 0))
    else
      match step(m)
      case BadInstruction => None
      case Stepped(next, cost) =>
        match TraceWith(step, next, n - 1)
        case None => None
        case Some((final, total)) => Some((final, cost + total))
  }

  /** The first `n` instructions the 6502 runs from `m`. */
  function Trace(m: Machine, n: nat): Option<(Machine, nat)>
  {
    TraceWith(Step, m, n)
  }

  /** The state `reset()` leaves: RAM cleared, A = X = Y = 0, SR = FLAG_INIT, S = 0xFF
      and PC at the reset location. */
  function ResetMachine(): Machine
  {
    Machine(seq(MEM_MAX, _ => 0), RESET_START, 0, 0, 0, 0xFF, FLAG_INIT)
  }
}
