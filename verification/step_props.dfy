/** Properties of one iteration of the `execute` loop (src/6502.cpp): which opcodes
    reach the `default` branch, what every handled instruction is charged, and the
    whole effect of branches, JMP, JSR, RTS and NOP. */
module StepProperties {

  import opened Bits
  import opened Flags
  import opened Opcodes
  import opened Semantics
  import InstructionProperties
  import AddressingProperties

  /** The extra cycles of a call are at most 3: one page-cross cycle for `load` and
      `arith`, up to three for `branch`, none for the other helpers. */
  lemma OperationExtraBound(m: Machine, op: Operation, mode: AddrMode, avo: Avo)
    requires Callable(op, mode)
    ensures ApplyOperation(m, op, mode, avo).extra <= 3
    ensures !(op.LoadOp? || op.AluOpOf? || op.BranchOp?) ==> ApplyOperation(m, op, mode, avo).extra == 0
  {
    match op
    case LoadOp(r) =>
    case AluOpOf(aluOp) =>
    case BranchOp(f, v) =>
    case _ =>
  }

  /** The extra cycles of a `case` are at most 3, and only the loads, the ALU
      instructions and the branches have any. */
  lemma PerformExtraBound(m: Machine, ins: Instr, mode: AddrMode, avo: Avo)
    requires ins != Illegal
    requires ins in {INC, DEC} ==> mode != IMP
    ensures Perform(m, ins, mode, avo).extra <= 3
  {
    OperationExtraBound(m, OperationOf(ins), mode, avo);
  }

  /** An opcode reaches the `default` branch exactly when it has no `case`. */
  lemma StepBadInstruction(m: Machine)
    ensures Step(m) == BadInstruction <==> Decode(m.ram[m.PC]) == Illegal
  {
  }

  /** BRK, RTI and 0xFF have no `case`: one step from any of them crashes. */
  lemma UnhandledOpcodesCrash(m: Machine)
    requires m.ram[m.PC] in {BRK_IMP, RTI_IMP, 0xFF}
    ensures Step(m) == BadInstruction
  {
    UnhandledOpcodes();
  }

  /** Every handled opcode is charged its NUM_CYCLES_BASE entry plus at most 3 extra
      cycles, hence between 2 and 10 cycles: each iteration consumes budget. */
  lemma StepCharges(m: Machine)
    requires Decode(m.ram[m.PC]) != Illegal
    ensures match Step(m)
      case Stepped(_, cost) => 2 <= cost <= 10
      case BadInstruction => false
  {
    var op := m.ram[m.PC];
    var mode := INSTR_GET_ADDR_MODE[op];
    HandledOpcodeTables(op);
    IncDecModes(op);
    PerformExtraBound(m, Decode(op), mode, Resolve(m, mode));
  }

  /** An instruction of length 0 (one that sets PC itself) ends the iteration in exactly
      the state its `case` leaves, charged its base and extra cycles. */
  lemma AdvanceInPlace(e: Effect, cycles: nat)
    ensures Advance(e, cycles, 0) == Stepped(e.next, cycles + e.extra)
  {
  }

  /** A decoded branch: not taken, PC moves past its two bytes for 2 cycles; taken, PC
      moves by the signed operand from the opcode's address, for 3 cycles on the same
      page and 5 across pages. Nothing else changes. */
  lemma BranchDecoded(m: Machine, ins: Instr)
    requires ins in {BCC, BCS, BEQ, BMI, BNE, BPL, BVC, BVS}
    ensures var target := (m.PC + ToSigned(Fetch(m, 1))) % MEM_MAX;
      if BranchCondition(ins, m.SR) then
        StepDecoded(m, ins, REL, 2, 0)
          == Stepped(m.(PC := target), if HighByte(target) == HighByte(m.PC) then 3 else 5)
      else
        StepDecoded(m, ins, REL, 2, 0) == Stepped(m.(PC := (m.PC + 2) % MEM_MAX), 2)
  {
    var avo := Resolve(m, REL);
    var taken := BranchCondition(ins, m.SR);
    InstructionProperties.PerformBranch(m, ins, REL, avo);
    AdvanceInPlace(Branch(m, taken, avo), 2);
    InstructionProperties.BranchEffect(m, taken, avo);
    var Effect(m1, extra) := Branch(m, taken, avo);
    if taken {
      assert m1 == m.(PC := (m.PC + ToSigned(Fetch(m, 1))) % MEM_MAX);
    } else {
      assert m1 == m.(PC := (m.PC + 2) % MEM_MAX);
    }
  }

  /** A branch opcode at PC runs as the decoded branch above: REL mode, 2 base cycles,
      length 0. */
  lemma BranchStep(m: Machine, ins: Instr)
    requires m.ram[m.PC] in {BCC_REL, BCS_REL, BEQ_REL, BMI_REL, BNE_REL, BPL_REL, BVC_REL, BVS_REL}
    requires ins == Decode(m.ram[m.PC]) && ins in {BCC, BCS, BEQ, BMI, BNE, BPL, BVC, BVS}
    ensures Step(m) == StepDecoded(m, ins, REL, 2, 0)
  {
    BranchTables(m.ram[m.PC]);
    StepAt(m, ins, REL, 2, 0);
  }

  /** JMP (indirect) decoded: 5 cycles, and PC becomes the word read through the pointer. */
  lemma JmpIndirectDecoded(m: Machine)
    ensures StepDecoded(m, JMP, IND, 5, 0) == Stepped(m.(PC := Indirect(m, CPU_MODEL).addr), 5)
  {
    AdvanceInPlace(Perform(m, JMP, IND, Resolve(m, IND)), 5);
  }

  /** JMP (indirect) at PC: 5 cycles, and PC becomes the word read through the pointer. */
  lemma JmpIndirectStep(m: Machine)
    requires m.ram[m.PC] == JMP_IND
    ensures Step(m) == Stepped(m.(PC := Indirect(m, CPU_MODEL).addr), 5)
  {
    JmpIndirectEntry();
    StepAt(m, JMP, IND, 5, 0);
    JmpIndirectDecoded(m);
  }

  /** The indirect-JMP test at the page boundary: with the pointer 0x12FF, the 6502 takes
      the high byte from 0x1200 and lands at 0xEE04 after 5 cycles. */
  lemma JmpIndirectBoundaryExample(m: Machine)
    requires m.PC == RESET_START && m.ram[RESET_START] == JMP_IND
    requires m.ram[RESET_START + 1] == 0xFF && m.ram[RESET_START + 2] == 0x12
    requires m.ram[0x1200] == 0xEE && m.ram[0x12FF] == 0x04 && m.ram[0x1300] == 0x40
    ensures Step(m) == Stepped(m.(PC := 0xEE04), 5)
  {
    JmpIndirectStep(m);
    AddressingProperties.IndirectBoundaryExample(m);
  }

  /** One step from an opcode whose table entries are known is the decoded step. */
  lemma StepAt(m: Machine, ins: Instr, mode: AddrMode, cycles: nat, bytes: nat)
    requires ins != Illegal && Decode(m.ram[m.PC]) == ins
    requires INSTR_GET_ADDR_MODE[m.ram[m.PC]] == mode
    requires NUM_CYCLES_BASE[m.ram[m.PC]] == cycles && INSTR_BYTES[m.ram[m.PC]] == bytes
    ensures ins in {INC, DEC} ==> mode != IMP
    ensures Step(m) == StepDecoded(m, ins, mode, cycles, bytes)
  {
    IncDecModes(m.ram[m.PC]);
  }

  /** JSR decoded: 6 cycles, the effect of `jump_sub_routine` on the absolute operand. */
  lemma JsrDecoded(m: Machine)
    ensures StepDecoded(m, JSR, ABS, 6, 0) == Stepped(JumpSubRoutine(m, Absolute(m)), 6)
  {
    AdvanceInPlace(Perform(m, JSR, ABS, Resolve(m, ABS)), 6);
  }

  /** JSR at PC: 6 cycles, the effect of `jump_sub_routine` on the absolute operand. */
  lemma JsrStep(m: Machine)
    requires m.ram[m.PC] == JSR_ABS
    ensures Step(m) == Stepped(JumpSubRoutine(m, Absolute(m)), 6)
  {
    JsrEntry();
    StepAt(m, JSR, ABS, 6, 0);
    JsrDecoded(m);
  }

  /** RTS decoded: 6 cycles, the effect of `return_sub_routine`. */
  lemma RtsDecoded(m: Machine)
    ensures StepDecoded(m, RTS, IMP, 6, 0) == Stepped(ReturnSubRoutine(m), 6)
  {
    AdvanceInPlace(Perform(m, RTS, IMP, Resolve(m, IMP)), 6);
  }

  /** RTS at PC: 6 cycles, the effect of `return_sub_routine`. */
  lemma RtsStep(m: Machine)
    requires m.ram[m.PC] == RTS_IMP
    ensures Step(m) == Stepped(ReturnSubRoutine(m), 6)
  {
    RtsEntry();
    StepAt(m, RTS, IMP, 6, 0);
    RtsDecoded(m);
  }

  /** NOP at PC: 2 cycles, and only PC moves, by one. */
  lemma NopStep(m: Machine)
    requires m.ram[m.PC] == NOP_IMP
    ensures Step(m) == Stepped(m.(PC := (m.PC + 1) % MEM_MAX), 2)
  {
    NopEntry();
    StepAt(m, NOP, IMP, 2, 1);
  }
}
