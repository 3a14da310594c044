/** Properties of `execute` as a whole (src/6502.cpp:24-125): the zero budget, the
    crash on an unknown opcode, the exact-budget guarantee and its converse, the
    wrap-around of an overspent budget, and the scenarios of the NOP and subroutine
    tests. The loop properties are proved for any iteration (`RunWith`, `TraceWith`)
    and then used for the 6502 iteration `Step`. */
module RunProperties {

  import opened Wrappers
  import opened Bits
  import opened Opcodes
  import opened Semantics
  import StepProperties
  import InstructionProperties

  /** An iteration that charges every instruction it runs at least one cycle. */
  ghost predicate Charges(step: Machine -> StepResult)
  {
    forall s :: step(s).Stepped? ==> step(s).cost > 0
  }

  /** One iteration with budget left, whatever it costs: the loop goes on from the next
      state with the cost taken off the `u32` budget, modulo 2^32, and one iteration
      fewer. */
  lemma LoopUnfold(step: Machine -> StepResult, m: Machine, next: Machine, cost: nat, budget: u32, left: u32,
                   fuel: nat, rest: nat)
    requires step(m) == Stepped(next, cost) && budget > 0 && fuel == rest + 1
    requires left == Charge(budget, cost)
    ensures RunWith(step, next, left, rest) == RunWith(step, m, budget, fuel)
  {
  }

  /** `execute` takes an instruction's extra cycles off the count inside its `case`
      and the base cycles after it; modulo 2^32 that is the same as taking off their
      sum at once. */
  lemma ChargeInTwoParts(budget: u32, extra: nat, base: nat)
    ensures Charge(Charge(budget, extra), base) == Charge(budget, extra + base)
  {
  }

  /** One iteration that fits the budget left: the loop goes on from the next state
      with the cost taken off the budget. */
  lemma LoopStep(step: Machine -> StepResult, m: Machine, next: Machine, cost: nat, budget: u32, fuel: nat)
    requires step(m) == Stepped(next, cost) && 0 < cost <= budget
    ensures RunWith(step, m, budget, fuel + 1) == RunWith(step, next, budget - cost, fuel)
  {
  }

  /** Exact budget: when `n` instructions run without a crash, each costing at least one
      cycle, and cost exactly `budget` cycles together, the loop runs exactly those `n`
      instructions and stops where they end. */
  lemma {:induction false} ExactBudgetWith(step: Machine -> StepResult, m: Machine, n: nat, budget: u32, final: Machine)
    requires Charges(step)
    requires TraceWith(step, m, n) == Some((final, budget))
    ensures RunWith(step, m, budget, n) == Some(Completed(final))
    decreases n
  {
    if n > 0 {
      var next, cost := step(m).next, step(m).cost;
      var rest := TraceWith(step, next, n - 1).value.1;
      assert budget == cost + rest;
      assert Charge(budget, cost) == rest;
      ExactBudgetWith(step, next, n - 1, rest, final);
    }
  }

  /** Adding the cost back to what is left, modulo 2^32, gives the budget again. */
  lemma ChargeAddBack(budget: u32, cost: nat, total: nat)
    requires total % U32_MOD == Charge(budget, cost)
    ensures (cost + total) % U32_MOD == budget
  {
    var q, p := total / U32_MOD, (budget - cost) / U32_MOD;
    assert total == q * U32_MOD + Charge(budget, cost);
    assert budget - cost == p * U32_MOD + Charge(budget, cost);
    assert cost + total == budget + (q - p) * U32_MOD;
  }

  /** The converse: a loop that completes has run some `n` instructions, no more than
      its fuel, whose costs add up to the budget modulo 2^32. */
  lemma {:induction false} CompletedIsTrace(step: Machine -> StepResult, m: Machine, budget: u32, fuel: nat, final: Machine)
    requires RunWith(step, m, budget, fuel) == Some(Completed(final))
    ensures exists n: nat ::
      n <= fuel && TraceWith(step, m, n).Some?
      && TraceWith(step, m, n).value.0 == final && TraceWith(step, m, n).value.1 % U32_MOD == budget
    decreases fuel
  {
    if budget == 0 {
      assert TraceWith(step, m, 0) == Some((m, 0));
    } else {
      var next, cost := step(m).next, step(m).cost;
      var rest := Charge(budget, cost);
      CompletedIsTrace(step, next, rest, fuel - 1, final);
      var k: nat :| k <= fuel - 1 && TraceWith(step, next, k).Some?
        && TraceWith(step, next, k).value.0 == final && TraceWith(step, next, k).value.1 % U32_MOD == rest;
      var total := TraceWith(step, next, k).value.1;
      assert TraceWith(step, m, k + 1) == Some((final, cost + total));
      ChargeAddBack(budget, cost, total);
    }
  }

  /** A loop that crashes has met an opcode without a `case` after some `n` successful
      instructions, fewer than its fuel. */
  lemma {:induction false} CrashedIsBadInstruction(step: Machine -> StepResult, m: Machine, budget: u32, fuel: nat)
    requires RunWith(step, m, budget, fuel) == Some(Crashed)
    ensures exists n: nat ::
      n < fuel && TraceWith(step, m, n).Some? && step(TraceWith(step, m, n).value.0) == BadInstruction
    decreases fuel
  {
    if step(m) == BadInstruction {
      assert TraceWith(step, m, 0) == Some((m, 0));
    } else {
      var next, cost := step(m).next, step(m).cost;
      CrashedIsBadInstruction(step, next, Charge(budget, cost), fuel - 1);
      var k: nat :| k < fuel - 1 && TraceWith(step, next, k).Some?
        && step(TraceWith(step, next, k).value.0) == BadInstruction;
      assert TraceWith(step, m, k + 1).value.0 == TraceWith(step, next, k).value.0;
    }
  }

  /** Two iterations that use up the budget exactly. */
  lemma TwoSteps(step: Machine -> StepResult, m0: Machine, m1: Machine, m2: Machine, c1: nat, c2: nat)
    requires step(m0) == Stepped(m1, c1) && step(m1) == Stepped(m2, c2)
    requires 0 < c1 && 0 < c2 && c1 + c2 < U32_MOD
    ensures RunWith(step, m0, c1 + c2, 2) == Some(Completed(m2))
  {
    LoopStep(step, m0, m1, c1, c1 + c2, 1);
    LoopStep(step, m1, m2, c2, c2, 0);
  }

  /** Three iterations that use up the budget exactly. */
  lemma ThreeSteps(step: Machine -> StepResult, m0: Machine, m1: Machine, m2: Machine, m3: Machine, c1: nat, c2: nat, c3: nat)
    requires step(m0) == Stepped(m1, c1) && step(m1) == Stepped(m2, c2) && step(m2) == Stepped(m3, c3)
    requires 0 < c1 && 0 < c2 && 0 < c3 && c1 + c2 + c3 < U32_MOD
    ensures RunWith(step, m0, c1 + c2 + c3, 3) == Some(Completed(m3))
  {
    LoopStep(step, m0, m1, c1, c1 + c2 + c3, 2);
    TwoSteps(step, m1, m2, m3, c2, c3);
  }

  /** An instruction that costs more than the budget left wraps the `u32` budget around
      to just below 2^32, so the loop goes on. */
  lemma BudgetWrapsWith(step: Machine -> StepResult, m: Machine, next: Machine, cost: nat, budget: u32, fuel: nat)
    requires step(m) == Stepped(next, cost) && 0 < budget < cost < U32_MOD
    ensures RunWith(step, m, budget, fuel + 1) == RunWith(step, next, U32_MOD + budget - cost, fuel)
  {
  }

  /** The 6502 iteration charges every instruction it runs between 2 and 10 cycles. */
  lemma StepChargesAll()
    ensures Charges(Step)
  {
    forall s | Step(s).Stepped?
      ensures Step(s).cost > 0
    {
      StepProperties.StepBadInstruction(s);
      StepProperties.StepCharges(s);
    }
  }

  /** A zero budget runs nothing and completes in the state it was given. */
  lemma RunZeroBudget(m: Machine, fuel: nat)
    ensures Run(m, 0, fuel) == Some(Completed(m))
  {
  }

  /** With budget left, an opcode without a `case` crashes the run. */
  lemma RunCrashes(m: Machine, budget: u32, fuel: nat)
    requires budget > 0 && fuel > 0
    requires Decode(m.ram[m.PC]) == Illegal
    ensures Run(m, budget, fuel) == Some(Crashed)
  {
    StepProperties.StepBadInstruction(m);
  }

  /** Exact budget for the 6502: `n` instructions that cost `budget` cycles together run
      to completion under `execute(budget)`. */
  lemma ExactBudget(m: Machine, n: nat, budget: u32, final: Machine)
    requires Trace(m, n) == Some((final, budget))
    ensures Run(m, budget, n) == Some(Completed(final))
  {
    StepChargesAll();
    ExactBudgetWith(Step, m, n, budget, final);
  }

  /** One 6502 instruction inside the budget. */
  lemma RunStep(m: Machine, next: Machine, cost: nat, budget: u32, fuel: nat)
    requires Step(m) == Stepped(next, cost) && 0 < cost <= budget
    ensures Run(m, budget, fuel + 1) == Run(next, budget - cost, fuel)
  {
    LoopStep(Step, m, next, cost, budget, fuel);
  }

  /** Any iteration with budget left, also one that takes the budget below zero: the
      run from the next state, with the `u32` budget the subtraction leaves and one
      iteration fewer, ends as the run from `m` does. */
  lemma RunUnfold(m: Machine, next: Machine, cost: nat, budget: u32, left: u32, fuel: nat, rest: nat)
    requires Step(m) == Stepped(next, cost) && budget > 0 && fuel == rest + 1
    requires left == Charge(budget, cost)
    ensures Run(next, left, rest) == Run(m, budget, fuel)
  {
    LoopUnfold(Step, m, next, cost, budget, left, fuel, rest);
  }

  /** A NOP run with a budget of 1 is overcharged and continues with 2^32 - 1 cycles. */
  lemma NopOvershootExample(m: Machine, fuel: nat)
    requires m.ram[m.PC] == NOP_IMP
    ensures Run(m, 1, fuel + 1) == Run(m.(PC := (m.PC + 1) % MEM_MAX), 0xFFFF_FFFF, fuel)
  {
    StepProperties.NopStep(m);
    BudgetWrapsWith(Step, m, m.(PC := (m.PC + 1) % MEM_MAX), 2, 1, fuel);
  }

  /** The NOP test: two NOPs at RESET_START with a budget of 4 complete with PC two
      bytes further and nothing else changed. */
  lemma TwoNopsExample(m: Machine)
    requires m.PC == RESET_START
    requires m.ram[RESET_START] == NOP_IMP && m.ram[RESET_START + 1] == NOP_IMP
    ensures Run(m, 4, 2) == Some(Completed(m.(PC := RESET_START + 2)))
  {
    var m1 := m.(PC := RESET_START + 1);
    var m2 := m.(PC := RESET_START + 2);
    StepProperties.NopStep(m);
    assert Step(m) == Stepped(m1, 2);
    StepProperties.NopStep(m1);
    assert Step(m1) == Stepped(m2, 2);
    TwoSteps(Step, m, m1, m2, 2, 2);
  }

  /** JSR to 0x1234 from RESET_START completes under a budget of 6. */
  lemma JsrExample(m: Machine)
    requires m.PC == RESET_START && m.ram[RESET_START] == JSR_ABS
    requires m.ram[RESET_START + 1] == 0x34 && m.ram[RESET_START + 2] == 0x12
    ensures Run(m, 6, 1) == Some(Completed(JumpSubRoutine(m, Absolute(m))))
  {
    StepProperties.JsrStep(m);
    RunStep(m, JumpSubRoutine(m, Absolute(m)), 6, 6, 0);
  }

  /** The JSR of the test lands on 0x1234 and writes only the stack page, so the
      subroutine's code is still in place. */
  lemma JsrLandsExample(m: Machine)
    requires m.PC == RESET_START && m.ram[RESET_START] == JSR_ABS
    requires m.ram[RESET_START + 1] == 0x34 && m.ram[RESET_START + 2] == 0x12
    ensures var m1 := JumpSubRoutine(m, Absolute(m));
      m1.PC == 0x1234 && m1.ram[0x1234] == m.ram[0x1234]
      && m1.ram[0x1235] == m.ram[0x1235] && m1.ram[0x1236] == m.ram[0x1236]
  {
  }

  /** A pull does not read or write PC. */
  lemma PullIgnoresPC(m: Machine, pc: u16)
    ensures Pull(m.(PC := pc)) == Pulled(Pull(m).next.(PC := pc), Pull(m).val)
  {
  }

  /** RTS does not depend on the PC it is run from. */
  lemma ReturnIgnoresPC(m: Machine, pc: u16)
    ensures ReturnSubRoutine(m.(PC := pc)) == ReturnSubRoutine(m)
  {
    PullIgnoresPC(m, pc);
    PullIgnoresPC(Pull(m).next, pc);
  }

  /** The subroutine body of the test: NOP, NOP, RTS at 0x1234 run in 10 cycles. */
  lemma NopNopRtsExample(m: Machine)
    requires m.PC == 0x1234
    requires m.ram[0x1234] == NOP_IMP && m.ram[0x1235] == NOP_IMP && m.ram[0x1236] == RTS_IMP
    ensures Run(m, 10, 3) == Some(Completed(ReturnSubRoutine(m)))
  {
    var m1 := m.(PC := 0x1235);
    var m2 := m.(PC := 0x1236);
    StepProperties.NopStep(m);
    StepProperties.NopStep(m1);
    StepProperties.RtsStep(m2);
    ReturnIgnoresPC(m, 0x1236);
    ThreeSteps(Step, m, m1, m2, ReturnSubRoutine(m), 2, 2, 6);
  }

  /** The JSR/RTS pair of the subroutine test returns to 0x4003 with S restored: the
      return address 0x4002 has a low byte below 16, so the nibble mask keeps it. */
  lemma SubroutineReturnExample(m: Machine)
    requires m.PC == RESET_START
    ensures var m2 := ReturnSubRoutine(JumpSubRoutine(m, Absolute(m)));
      m2.PC == 0x4003 && m2.S == m.S
  {
    assert Semantics.ReturnAddress(m.PC) == RESET_START + 2;
    InstructionProperties.RtsReturnsPastJsr(m, Absolute(m));
    InstructionProperties.JsrRtsRoundTrip(m, Absolute(m));
  }

  /** The subroutine test: JSR 0x1234 from 0x4000 with a budget of 6, then the body
      NOP, NOP, RTS with a budget of 10, ends at 0x4003 with S restored. */
  lemma SubroutineExample(m: Machine)
    requires m.PC == RESET_START && m.ram[RESET_START] == JSR_ABS
    requires m.ram[RESET_START + 1] == 0x34 && m.ram[RESET_START + 2] == 0x12
    requires m.ram[0x1234] == NOP_IMP && m.ram[0x1235] == NOP_IMP && m.ram[0x1236] == RTS_IMP
    ensures var m1 := JumpSubRoutine(m, Absolute(m));
      Run(m, 6, 1) == Some(Completed(m1)) && m1.PC == 0x1234
      && Run(m1, 10, 3) == Some(Completed(ReturnSubRoutine(m1)))
      && ReturnSubRoutine(m1).PC == 0x4003 && ReturnSubRoutine(m1).S == m.S
  {
    var m1 := JumpSubRoutine(m, Absolute(m));
    JsrExample(m);
    JsrLandsExample(m);
    NopNopRtsExample(m1);
    SubroutineReturnExample(m);
  }
}
