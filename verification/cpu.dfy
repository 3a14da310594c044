/** The `mos6502::CPU` class (include/mos6502.hpp:66-357, src/6502.cpp): RAM and
    registers updated in place by `reset()` and `execute()`. Every method is proved
    to do to the object what the functions of module Semantics do to a Machine, and
    `execute` to end as `Run` says. */
module Cpu {

  import opened Wrappers
  import opened Bits
  import opened Flags
  import opened Opcodes
  import opened Semantics
  import StepProperties
  import RunProperties
  import InstructionProperties

  class CPU {
    /** `ram[MEM_MAX]`: 64 KiB of random access memory. */
    const ram: array<u8>
    var PC: u16
    var A: u8
    var X: u8
    var Y: u8
    var S: u8
    var SR: u8
    /** The cycles `execute` has left. */
    var numCycles: u32
    /** The addressing mode of the current instruction. */
    var am: AddrMode
    /** The operand the current addressing mode resolved. */
    var avoRet: Avo

    ghost predicate Valid()
    {
      ram.Length == MEM_MAX
    }

    /** The RAM and the registers as a Machine value. */
    function State(): Machine
      requires Valid()
      reads this, ram
    {
      Machine(ram[..], PC, A, X, Y, S, SR)
    }

    /** A CPU as the tests use it: declared, then `reset()`. */
    constructor ()
      ensures Valid() && fresh(ram)
      ensures State() == ResetMachine()
    {
      ram := new u8[MEM_MAX](_ => 0);
      PC, A, X, Y, S, SR := RESET_START, 0, 0, 0, 0xFF, FLAG_INIT;
      numCycles, am, avoRet := 0, NUL, NullMode();
      new;
      assert ram[..] == ResetMachine().ram;
    }

    /** `reset()`: clears the RAM byte by byte, then sets the registers. */
    method Reset()
      requires Valid()
      modifies this`PC, this`A, this`X, this`Y, this`S, this`SR, ram
      ensures State() == ResetMachine()
    {
      var i := 0;
      while i < MEM_MAX
        invariant 0 <= i <= MEM_MAX
        invariant forall j :: 0 <= j < i ==> ram[j] == 0
      {
        ram[i] := 0;
        i := i + 1;
      }
      PC := RESET_START;
      A := 0;
      X := 0;
      Y := 0;
      SR := FLAG_INIT;
      S := 0xFF;
      assert ram[..] == ResetMachine().ram;
    }

    /** Writes the register a `u8&` parameter names. */
    method SetRegister(r: Register, v: u8)
      requires Valid()
      modifies this`A, this`X, this`Y, this`S
      ensures State() == SetReg(old(State()), r, v)
    {
      match r
      case AReg => A := v;
      case XReg => X := v;
      case YReg => Y := v;
      case SReg => S := v;
    }

    /** The page-cross penalty `load` and `arith` take off `numCycles` in modes ABX,
        ABY and IDY. */
    method ChargePagePenalty()
      modifies this`numCycles
      ensures numCycles == Charge(old(numCycles), PagePenalty(am, avoRet))
    {
      if am == ABX || am == ABY || am == IDY {
        var penalty := if OnDifferentPages(avoRet.addr, (avoRet.addr - avoRet.offset) % MEM_MAX) then 1 else 0;
        numCycles := Charge(numCycles, penalty);
      }
    }

    /** `load(reg)`. */
    method LoadRegister(r: Register)
      requires Valid()
      modifies this`A, this`X, this`Y, this`S, this`SR, this`numCycles
      ensures State() == Load(old(State()), r, am, avoRet).next
      ensures numCycles == Charge(old(numCycles), PagePenalty(am, avoRet))
    {
      SetRegister(r, avoRet.val);
      ChargePagePenalty();
      SR := SetZN(SR, avoRet.val);
    }

    /** `store(reg)`. */
    method StoreRegister(r: Register)
      requires Valid()
      modifies ram
      ensures State() == Store(old(State()), r, avoRet)
    {
      ram[avoRet.addr] := Reg(State(), r);
    }

    /** `transfer(from, to, updateFlags)`. */
    method TransferRegister(from: Register, to: Register, updateFlags: bool)
      requires Valid()
      modifies this`A, this`X, this`Y, this`S, this`SR
      ensures State() == Transfer(old(State()), from, to, updateFlags)
    {
      var v := Reg(State(), from);
      SetRegister(to, v);
      if updateFlags {
        SR := SetZN(SR, v);
      }
    }

    /** `inc_dec(val, impReg)`. */
    method IncDecOperand(delta: int, impReg: Option<Register>)
      requires Valid()
      requires delta == 1 || delta == -1
      requires am == IMP ==> impReg.Some?
      modifies this`A, this`X, this`Y, this`S, this`SR, ram
      ensures State() == IncDec(old(State()), am, avoRet, delta, impReg)
    {
      if am == IMP {
        var v := (Reg(State(), impReg.value) + delta) % 256;
        SetRegister(impReg.value, v);
        SR := SetZN(SR, v);
      } else {
        ram[avoRet.addr] := (ram[avoRet.addr] + delta) % 256;
        SR := SetZN(SR, ram[avoRet.addr]);
      }
    }

    /** `arith(mathOpFunc)`: A := op(A, value), with the flags the operation sets. */
    method ArithAccumulator(op: AluOp)
      requires Valid()
      modifies this`A, this`SR, this`numCycles
      ensures State() == Arith(old(State()), op, am, avoRet).next
      ensures numCycles == Charge(old(numCycles), PagePenalty(am, avoRet))
    {
      var Flagged(val, sr) := Alu(op, SR, A, A, avoRet.val);
      A, SR := val, sr;
      ChargePagePenalty();
      SR := SetZN(SR, A);
    }

    /** `shift_rot(mathShiftFunc)`: shifts A in mode ACC, otherwise the byte at the
        effective address. */
    method ShiftRotate(op: ShiftOp)
      requires Valid()
      modifies this`A, this`SR, ram
      ensures State() == ShiftRot(old(State()), op, am, avoRet)
    {
      var x := if am == ACC then A else ram[avoRet.addr];
      var Flagged(res, sr) := Shift(op, SR, x);
      SR := sr;
      if am == ACC {
        A := res;
      } else {
        ram[avoRet.addr] := res;
      }
      SR := SetZN(SR, res);
    }

    /** `bit()`. */
    method BitTestAccumulator()
      requires Valid()
      modifies this`SR
      ensures State() == BitTest(old(State()), avoRet)
    {
      var andRes := BitwiseAnd(avoRet.val, A);
      SR := SetFlag(SR, Zero, andRes == 0);
      SR := SetFlag(SR, Overflow, BitOf(andRes, 6) == 1);
      SR := SetFlag(SR, Negative, BitOf(andRes, 7) == 1);
    }

    /** `cmp(reg)`. */
    method CompareRegister(r: Register)
      requires Valid()
      modifies this`SR
      ensures State() == Compare(old(State()), r, avoRet)
    {
      var reg := Reg(State(), r);
      SR := SetFlag(SR, Carry, reg >= avoRet.val);
      SR := SetFlag(SR, Zero, reg == avoRet.val);
      SR := SetFlag(SR, Negative, SignBit((reg - avoRet.val) % 256));
    }

    /** `push(val)`. */
    method PushByte(v: u8)
      requires Valid()
      modifies this`S, ram
      ensures State() == Push(old(State()), v)
    {
      ram[STACK_END + S] := v;
      S := (S - 1) % 256;
    }

    /** `pull()`. */
    method PullByte() returns (v: u8)
      requires Valid()
      modifies this`S
      ensures Pulled(State(), v) == Pull(old(State()))
    {
      S := (S + 1) % 256;
      v := ram[STACK_END + S];
    }

    /** `branch(branchCondResult)`. */
    method BranchIf(taken: bool)
      requires Valid()
      modifies this`PC, this`numCycles
      ensures State() == Branch(old(State()), taken, avoRet).next
      ensures numCycles == Charge(old(numCycles), Branch(old(State()), taken, avoRet).extra)
    {
      if !taken {
        PC := (PC + 2) % MEM_MAX;
        return;
      }
      var newPC := (PC + ToSigned(avoRet.val)) % MEM_MAX;
      numCycles := Charge(numCycles, 1 + 2 * (if OnDifferentPages(PC, newPC) then 1 else 0));
      PC := newPC;
    }

    /** `jump_sub_routine()`. */
    method JumpSubRoutineCall()
      requires Valid()
      modifies this`PC, this`S, ram
      ensures State() == JumpSubRoutine(old(State()), avoRet)
    {
      var addrOnStack := (PC + 2) % MEM_MAX;
      PushByte(HighByte(addrOnStack));
      PushByte(LowByte(addrOnStack));
      PC := avoRet.addr;
    }

    /** `return_sub_routine()`. */
    method ReturnSubRoutineCall()
      requires Valid()
      modifies this`PC, this`S
      ensures State() == ReturnSubRoutine(old(State()))
    {
      var low := PullByte();
      var high := PullByte();
      PC := (B2W(low, high) + 1) % MEM_MAX;
    }

    /** `generate_interrupt()`. */
    method GenerateInterruptCall()
      requires Valid()
      modifies this`PC, this`S, this`SR, ram
      ensures State() == GenerateInterrupt(old(State()))
    {
      PushByte(HighByte(PC));
      PushByte(LowByte(PC));
      PushByte(SR);
      PC := B2W(ram[INT_VEC_LOC], ram[INT_VEC_LOC + 1]);
      SR := SetFlag(SR, Break, true);
    }

    /** `return_from_interrupt()`. */
    method ReturnFromInterruptCall()
      requires Valid()
      modifies this`PC, this`S, this`SR
      ensures State() == ReturnFromInterrupt(old(State()))
    {
      SR := PullByte();
      var pcLow := PullByte();
      var pcHigh := PullByte();
      PC := B2W(pcLow, pcHigh);
    }

    /** The calls of the `case`s that move data or set flags. */
    method OperateData(op: Operation)
      requires Valid() && Callable(op, am)
      requires op.LoadOp? || op.StoreOp? || op.TransferOp? || op.NopOp? || op.FlagOp? || op.IncDecOp?
      modifies this`PC, this`A, this`X, this`Y, this`S, this`SR, this`numCycles, ram
      ensures State() == ApplyOperation(old(State()), op, am, avoRet).next
      ensures numCycles == Charge(old(numCycles), ApplyOperation(old(State()), op, am, avoRet).extra)
    {
      match op
      case LoadOp(r) => LoadRegister(r);
      case StoreOp(r) => StoreRegister(r);
      case TransferOp(from, to, updateFlags) => TransferRegister(from, to, updateFlags);
      case NopOp =>
      case FlagOp(f, v) => SR := SetFlag(SR, f, v);
      case IncDecOp(delta, impReg) => IncDecOperand(delta, impReg);
    }

    /** The calls of the `case`s that compute on the operand. */
    method OperateCompute(op: Operation)
      requires Valid()
      requires op.AluOpOf? || op.ShiftOpOf? || op.BitOp? || op.CompareOp?
      modifies this`PC, this`A, this`X, this`Y, this`S, this`SR, this`numCycles, ram
      ensures State() == ApplyOperation(old(State()), op, am, avoRet).next
      ensures numCycles == Charge(old(numCycles), ApplyOperation(old(State()), op, am, avoRet).extra)
    {
      match op
      case AluOpOf(aluOp) => ArithAccumulator(aluOp);
      case ShiftOpOf(shift) => ShiftRotate(shift);
      case BitOp => BitTestAccumulator();
      case CompareOp(r) => CompareRegister(r);
    }

    /** The calls of the `case`s that push or pull. */
    method OperateStack(op: Operation)
      requires Valid()
      requires op.PushOp? || op.PullOp?
      modifies this`PC, this`A, this`X, this`Y, this`S, this`SR, this`numCycles, ram
      ensures State() == ApplyOperation(old(State()), op, am, avoRet).next
      ensures numCycles == Charge(old(numCycles), ApplyOperation(old(State()), op, am, avoRet).extra)
    {
      match op
      case PushOp(sr) => PushByte(if sr then SR else A);
      case PullOp(sr) =>
        if sr {
          SR := PullByte();
        } else {
          A := PullByte();
          SR := SetZN(SR, A);
        }
    }

    /** The calls of the `case`s that change the flow. */
    method OperateJumps(op: Operation)
      requires Valid()
      requires op.JmpOp? || op.BranchOp? || op.JsrOp? || op.RtsOp?
      modifies this`PC, this`A, this`X, this`Y, this`S, this`SR, this`numCycles, ram
      ensures State() == ApplyOperation(old(State()), op, am, avoRet).next
      ensures numCycles == Charge(old(numCycles), ApplyOperation(old(State()), op, am, avoRet).extra)
    {
      match op
      case JmpOp => PC := avoRet.addr;
      case BranchOp(f, v) => BranchIf(GetFlag(SR, f) == v);
      case JsrOp => JumpSubRoutineCall();
      case RtsOp => ReturnSubRoutineCall();
    }

    /** The call one `case` of the `switch` of `execute` makes: runs the helper and
        takes its extra cycles off `numCycles`. */
    method Operate(op: Operation)
      requires Valid() && Callable(op, am)
      modifies this`PC, this`A, this`X, this`Y, this`S, this`SR, this`numCycles, ram
      ensures State() == ApplyOperation(old(State()), op, am, avoRet).next
      ensures numCycles == Charge(old(numCycles), ApplyOperation(old(State()), op, am, avoRet).extra)
    {
      if op.LoadOp? || op.StoreOp? || op.TransferOp? || op.NopOp? || op.FlagOp? || op.IncDecOp? {
        OperateData(op);
      } else if op.AluOpOf? || op.ShiftOpOf? || op.BitOp? || op.CompareOp? {
        OperateCompute(op);
      } else if op.PushOp? || op.PullOp? {
        OperateStack(op);
      } else {
        OperateJumps(op);
      }
    }

    /** `numCycles -= NUM_CYCLES_BASE[currentInstr]; PC += INSTR_BYTES[currentInstr];`
        at the end of each iteration of `execute`. When the `case` has already taken
        `extra` cycles off `budget`, the count is then `budget` less both. */
    method ChargeBaseAndAdvance(cycles: u8, bytes: u8, ghost budget: u32, ghost extra: nat)
      requires Valid() && numCycles == Charge(budget, extra)
      modifies this`PC, this`numCycles
      ensures State() == old(State()).(PC := (old(State()).PC + bytes) % MEM_MAX)
      ensures numCycles == Charge(budget, extra + cycles)
    {
      numCycles := Charge(numCycles, cycles);
      PC := (PC + bytes) % MEM_MAX;
      RunProperties.ChargeInTwoParts(budget, extra, cycles);
    }

    /** One iteration once the operand is in `avoRet`: the call the `case` makes,
        followed by the base cycles and the move of PC. */
    method PerformCase(op: Operation, cycles: u8, bytes: u8)
      requires Valid() && Callable(op, am)
      modifies this`PC, this`A, this`X, this`Y, this`S, this`SR, this`numCycles, ram
      ensures var step := Advance(ApplyOperation(old(State()), op, am, avoRet), cycles, bytes);
        State() == step.next && numCycles == Charge(old(numCycles), step.cost)
    {
      ghost var budget := numCycles;
      Operate(op);
      ChargeBaseAndAdvance(cycles, bytes, budget, ApplyOperation(old(State()), op, am, avoRet).extra);
    }

    /** The same, once the operand in `avoRet` is the one the mode in `am` resolves: one
        `StepDecoded`. */
    method ExecuteDecoded(ins: Instr, cycles: u8, bytes: u8)
      requires Valid() && avoRet == Resolve(State(), am)
      requires ins != Illegal && (ins in {INC, DEC} ==> am != IMP)
      modifies this`PC, this`A, this`X, this`Y, this`S, this`SR, this`numCycles, ram
      ensures var step := StepDecoded(old(State()), ins, am, cycles, bytes);
        State() == step.next && numCycles == Charge(old(numCycles), step.cost)
    {
      PerformCase(OperationOf(ins), cycles, bytes);
    }

    /** The body of the `execute` loop for an opcode that has a `case`: look up its
        mode, resolve the operand, run the `case`, take the base cycles off `numCycles`
        and move PC past the instruction. This is one `Step` of the 6502. */
    method ExecuteInstruction(currentInstr: u8)
      requires Valid() && currentInstr == ram[PC] && Decode(currentInstr) != Illegal
      modifies this`PC, this`A, this`X, this`Y, this`S, this`SR, this`numCycles, this`am, this`avoRet, ram
      ensures Step(old(State())).Stepped?
      ensures State() == Step(old(State())).next
      ensures numCycles == Charge(old(numCycles), Step(old(State())).cost)
    {
      ghost var m := State();
      am := INSTR_GET_ADDR_MODE[currentInstr];
      avoRet := Resolve(State(), am);
      assert State() == m;
      var ins := Decode(currentInstr);
      StepProperties.StepAt(m, ins, am, NUM_CYCLES_BASE[currentInstr], INSTR_BYTES[currentInstr]);
      ExecuteDecoded(ins, NUM_CYCLES_BASE[currentInstr], INSTR_BYTES[currentInstr]);
    }

    /** `execute(p_numCycles)`: runs instructions while cycles are left. It ends as
        `Run` says: with the cycle count at exactly 0, returning the budget it was
        given, or, at an opcode without a `case`, with the CPU reset, returning -1 as a
        `u32`. The ghost `fuel` bounds the iterations; the caller names one for which
        `Run` reaches an end. */
    method Execute(p_numCycles: u32, ghost fuel: nat) returns (r: u32)
      requires Valid()
      requires Run(State(), p_numCycles, fuel).Some?
      modifies this, ram
      ensures Valid()
      ensures match Run(old(State()), p_numCycles, fuel)
        case Some(Completed(final)) => State() == final && numCycles == 0 && r == p_numCycles
        case Some(Crashed) => State() == ResetMachine() && r == 0xFFFF_FFFF
        case None => false
    {
      var numCyclesSave := p_numCycles;
      numCycles := p_numCycles;
      ghost var f := fuel;
      ghost var outcome := Run(State(), p_numCycles, fuel);
      while numCycles > 0
        invariant Valid()
        invariant Run(State(), numCycles, f) == outcome
        decreases f
      {
        ghost var m := State();
        ghost var budget := numCycles;
        var currentInstr := ram[PC];
        if Decode(currentInstr) == Illegal {
          RunProperties.RunCrashes(m, budget, f);
          Reset();
          return 0xFFFF_FFFF;
        }
        ExecuteInstruction(currentInstr);
        ghost var f0 := f;
        f := f - 1;
        RunProperties.RunUnfold(m, State(), Step(m).cost, budget, numCycles, f0, f);
      }
      RunProperties.RunZeroBudget(State(), f);
      r := numCyclesSave - numCycles;
    }
  }
}
