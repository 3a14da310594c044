/** Properties of the instruction helpers of include/mos6502.hpp: the stack, JSR/RTS,
    the ALU and shifter, BIT, the compares, loads, stores, transfers, INC/DEC and
    the interrupt pair. */
module InstructionProperties {

  import opened Wrappers
  import opened Bits
  import opened Flags
  import opened Opcodes
  import opened Semantics

  // The stack.

  /** `push(v)` writes `v` at 0x0100 + S and nowhere else, moves S down by one
      modulo 256, and changes no other register. */
  lemma PushFootprint(m: Machine, v: u8)
    ensures var m1 := Push(m, v);
      m1.ram[STACK_END + m.S] == v
      && (forall a :: 0 <= a < MEM_MAX && a != STACK_END + m.S ==> m1.ram[a] == m.ram[a])
      && m1.S == (if m.S == 0 then 0xFF else m.S - 1)
      && m1.(ram := m.ram, S := m.S) == m
  {
  }

  /** A `pull` right after a `push(v)` returns `v` and restores S; only the written
      stack byte remains changed. */
  lemma PullAfterPush(m: Machine, v: u8)
    ensures Pull(Push(m, v)) == Pulled(m.(ram := m.ram[STACK_END + m.S := v]), v)
  {
    var m1 := Push(m, v);
    assert (m1.S + 1) % 256 == m.S;
  }

  // Subroutines.

  /** JSR followed by RTS: S and every register but PC come back, and PC becomes one past
      the word made of `lowByte` (the low NIBBLE) and `highByte` of the return address. */
  lemma JsrRtsRoundTrip(m: Machine, avo: Avo)
    ensures var m2 := ReturnSubRoutine(JumpSubRoutine(m, avo));
      var ret := ReturnAddress(m.PC);
      m2.PC == (B2W(LowByte(ret), HighByte(ret)) + 1) % MEM_MAX
      && m2.S == m.S && m2.A == m.A && m2.X == m.X && m2.Y == m.Y && m2.SR == m.SR
  {
    var ret := ReturnAddress(m.PC);
    var m1 := Push(m, HighByte(ret));
    var m2 := Push(m1, LowByte(ret));
    PullAfterPush(m1, LowByte(ret));
    PullAfterPush(m, HighByte(ret));
    var Pulled(p1, low) := Pull(m2.(PC := avo.addr));
    assert low == LowByte(ret) && p1.S == m1.S;
    var Pulled(p2, high) := Pull(p1);
    assert p1.ram[STACK_END + m.S] == HighByte(ret) by {
      assert m.S != m1.S;
    }
    assert high == HighByte(ret) && p2.S == m.S;
  }

  /** The word of `lowByte(w)` and `highByte(w)`, plus one, is `w + 1` exactly when the
      low byte of `w` is below 16. */
  lemma NibbleWordSuccessor(w: u16)
    ensures (B2W(LowByte(w), HighByte(w)) + 1) % MEM_MAX == (w + 1) % MEM_MAX <==> w % 256 < 16
  {
    var v := B2W(LowByte(w), HighByte(w));
    assert v == w - w % 256 + w % 16;
    assert v + 1 <= w + 1 <= MEM_MAX;
  }

  /** One past the return address is three past the JSR. */
  lemma ReturnAddressSuccessor(pc: u16)
    ensures (ReturnAddress(pc) + 1) % MEM_MAX == (pc + 3) % MEM_MAX
  {
  }

  /** Because `lowByte` keeps only four bits, the RTS lands just past the JSR (at
      PC + 3) exactly when the low byte of the return address is below 16. */
  lemma RtsReturnsPastJsr(m: Machine, avo: Avo)
    ensures var m2 := ReturnSubRoutine(JumpSubRoutine(m, avo));
      m2.PC == (m.PC + 3) % MEM_MAX <==> ReturnAddress(m.PC) % 256 < 16
  {
    JsrRtsRoundTrip(m, avo);
    NibbleWordSuccessor(ReturnAddress(m.PC));
    ReturnAddressSuccessor(m.PC);
  }

  // The shifter.

  /** The carry a flag update leaves is the value it set. */
  lemma CarryInAfterSet(sr: u8, v: bool)
    ensures CarryIn(SetFlag(sr, Carry, v)) == if v then 1 else 0
  {
  }

  /** `rotate_left` moves bit 7 into both C and bit 0: the result is the byte rotated
      within itself, and the carry held before is never read. */
  lemma RotateLeftWithinByte(sr: u8, x: u8)
    ensures var Flagged(r, sr1) := Shift(RotateLeft, sr, x);
      r == (x * 2) % 256 + x / 128
      && (GetFlag(sr1, Carry) <==> SignBit(x))
      && forall j :: 0 <= j < 8 && j != 0 ==> BitOf(sr1, j) == BitOf(sr, j)
  {
    CarryInAfterSet(sr, SignBit(x));
  }

  /** `rotate_right` moves bit 0 into both C and bit 7. */
  lemma RotateRightWithinByte(sr: u8, x: u8)
    ensures var Flagged(r, sr1) := Shift(RotateRight, sr, x);
      r == x / 2 + (x % 2) * 128
      && (GetFlag(sr1, Carry) <==> LowBit(x))
      && forall j :: 0 <= j < 8 && j != 0 ==> BitOf(sr1, j) == BitOf(sr, j)
  {
    CarryInAfterSet(sr, LowBit(x));
  }

  /** The rotates give the same byte whatever the incoming carry. */
  lemma RotatesIgnoreCarry(op: ShiftOp, sr: u8, sr': u8, x: u8)
    requires op in {RotateLeft, RotateRight}
    ensures Shift(op, sr, x).val == Shift(op, sr', x).val
  {
    if op == RotateLeft {
      RotateLeftWithinByte(sr, x);
      RotateLeftWithinByte(sr', x);
    } else {
      RotateRightWithinByte(sr, x);
      RotateRightWithinByte(sr', x);
    }
  }

  /** A rotate right undoes a rotate left. */
  lemma RotateRightUndoesLeft(sr: u8, x: u8)
    ensures Shift(RotateRight, sr, Shift(RotateLeft, sr, x).val).val == x
  {
    var l := Shift(RotateLeft, sr, x).val;
    RotateLeftWithinByte(sr, x);
    RotateRightWithinByte(sr, l);
    assert l % 2 == x / 128 && l / 2 == x % 128;
  }

  /** A rotate left undoes a rotate right. */
  lemma RotateLeftUndoesRight(sr: u8, x: u8)
    ensures Shift(RotateLeft, sr, Shift(RotateRight, sr, x).val).val == x
  {
    var r := Shift(RotateRight, sr, x).val;
    RotateRightWithinByte(sr, x);
    RotateLeftWithinByte(sr, r);
    assert r / 128 == x % 2 && (2 * (r as int)) % 256 == x - x % 2;
  }

  /** The plain shifts move bit 7 (left) or bit 0 (right) into C and a zero into the
      vacated bit. */
  lemma ShiftsCarryOut(sr: u8, x: u8)
    ensures var Flagged(r, sr1) := Shift(ShiftLeft, sr, x);
      r % 2 == 0 && (GetFlag(sr1, Carry) <==> SignBit(x)) && r / 2 == x % 128
    ensures var Flagged(r, sr1) := Shift(ShiftRight, sr, x);
      r < 128 && (GetFlag(sr1, Carry) <==> LowBit(x)) && r * 2 + x % 2 == x
  {
  }

  // The adder.

  /** `add`: the 8-bit sum with the carry in; V records a change of bit 7 between A and
      the sum, C is set equal to V, and bits other than C and V are kept. */
  lemma AddFlags(sr: u8, a: u8, v: u8)
    ensures var Flagged(val, sr1) := Add(sr, a, a, v);
      val == (a + v + CarryIn(sr)) % 256
      && (GetFlag(sr1, Overflow) <==> SignBit(a) != SignBit(val))
      && (GetFlag(sr1, Carry) <==> GetFlag(sr1, Overflow))
      && forall j :: 0 <= j < 8 && j != 0 && j != 6 ==> BitOf(sr1, j) == BitOf(sr, j)
  {
    var val := (a + v + CarryIn(sr)) % 256;
    var sr1 := SetFlag(sr, Overflow, SignBit(a) != SignBit(val));
    SetFlagOthers(sr, Overflow, SignBit(a) != SignBit(val));
    SetFlagOthers(sr1, Carry, GetFlag(sr1, Overflow));
  }

  /** `sub`: the 8-bit difference minus the carry in; V as in `add`, C is its negation. */
  lemma SubFlags(sr: u8, a: u8, v: u8)
    ensures var Flagged(val, sr1) := Sub(sr, a, a, v);
      val == (a - v - CarryIn(sr)) % 256
      && (GetFlag(sr1, Overflow) <==> SignBit(a) != SignBit(val))
      && (GetFlag(sr1, Carry) <==> !GetFlag(sr1, Overflow))
      && forall j :: 0 <= j < 8 && j != 0 && j != 6 ==> BitOf(sr1, j) == BitOf(sr, j)
  {
    var val := (a - v - CarryIn(sr)) % 256;
    var sr1 := SetFlag(sr, Overflow, SignBit(a) != SignBit(val));
    SetFlagOthers(sr, Overflow, SignBit(a) != SignBit(val));
    SetFlagOthers(sr1, Carry, !GetFlag(sr1, Overflow));
  }

  /** ADC then SBC of the same operand, with no carry in to the ADC. SBC reads the carry
      ADC leaves, which is ADC's V: without signed overflow SBC gives A back, with it
      SBC borrows one more and A ends one below where it started. */
  lemma SubUndoesAdd(m: Machine, mode: AddrMode, avo: Avo)
    requires !GetFlag(m.SR, Carry)
    ensures var m2 := Arith(Arith(m, AddOp, mode, avo).next, SubOp, mode, avo).next;
      m2.A == if SignBit(m.A) == SignBit((m.A + avo.val) % 256) then m.A else (m.A + 255) % 256
  {
    var sum := (m.A + avo.val) % 256;
    var added := Add(m.SR, m.A, m.A, avo.val);
    AddFlags(m.SR, m.A, avo.val);
    assert added.val == sum;
    var sr2 := SetZN(added.sr, sum);
    SetZNOthers(added.sr, sum);
    assert BitOf(sr2, 0) == BitOf(added.sr, 0);
    var m1 := Arith(m, AddOp, mode, avo).next;
    assert m1.A == sum && m1.SR == sr2;
    var diff := Sub(sr2, sum, sum, avo.val).val;
    assert diff == (sum - avo.val - CarryIn(sr2)) % 256;
    WrapBack(m.A, avo.val, CarryIn(sr2));
  }

  /** Adding v modulo 256 and then taking away v and a borrow of at most one. */
  lemma WrapBack(a: u8, v: u8, c: nat)
    requires c <= 1
    ensures ((a + v) % 256 - v - c) % 256 == (a + 256 - c) % 256
  {
    var sum := (a + v) % 256;
    if a + v < 256 {
      assert sum == a + v;
    } else {
      assert sum == a + v - 256;
    }
  }

  /** The overflow case written out: A = 0x7F plus 1 overflows, so the SBC that follows
      subtracts 2 and leaves 0x7E. */
  lemma SubAfterOverflowExample(m: Machine, mode: AddrMode, avo: Avo)
    requires m.A == 0x7F && avo.val == 1 && !GetFlag(m.SR, Carry)
    ensures Arith(Arith(m, AddOp, mode, avo).next, SubOp, mode, avo).next.A == 0x7E
  {
    SubUndoesAdd(m, mode, avo);
  }

  // BIT and the compares.

  /** `bit()`: Z when A AND the value is zero, V when both have bit 6 set, N when both
      have bit 7 set; C, I, D, B and bit 5 are kept, and only SR changes. */
  lemma BitTestFlags(m: Machine, avo: Avo)
    ensures var m1 := BitTest(m, avo);
      (GetFlag(m1.SR, Zero) <==> BitwiseAnd(avo.val, m.A) == 0)
      && (GetFlag(m1.SR, Overflow) <==> BitOf(avo.val, 6) == 1 && BitOf(m.A, 6) == 1)
      && (GetFlag(m1.SR, Negative) <==> SignBit(avo.val) && SignBit(m.A))
      && (forall j :: 0 <= j < 6 && j != 1 ==> BitOf(m1.SR, j) == BitOf(m.SR, j))
      && m1.(SR := m.SR) == m
  {
    BitwiseBit(AndOp, avo.val, m.A, 8, 6);
    BitwiseBit(AndOp, avo.val, m.A, 8, 7);
    SignBitIsBit7(avo.val);
    SignBitIsBit7(m.A);
    var andRes := BitwiseAnd(avo.val, m.A);
    var sr1 := SetFlag(m.SR, Zero, andRes == 0);
    var sr2 := SetFlag(sr1, Overflow, BitOf(andRes, 6) == 1);
    SetFlagOthers(m.SR, Zero, andRes == 0);
    SetFlagOthers(sr1, Overflow, BitOf(andRes, 6) == 1);
    SetFlagOthers(sr2, Negative, BitOf(andRes, 7) == 1);
  }

  /** `cmp(reg)`: C when the register is at least the value, Z when they are equal (so Z
      implies C), N from bit 7 of their 8-bit difference; only SR changes. */
  lemma CompareFlags(m: Machine, r: Register, avo: Avo)
    ensures var m1 := Compare(m, r, avo);
      var reg := Reg(m, r);
      (GetFlag(m1.SR, Carry) <==> reg >= avo.val)
      && (GetFlag(m1.SR, Zero) <==> reg == avo.val)
      && (GetFlag(m1.SR, Zero) ==> GetFlag(m1.SR, Carry))
      && (GetFlag(m1.SR, Negative) <==> SignBit((reg - avo.val) % 256))
      && (forall j :: 2 <= j < 7 ==> BitOf(m1.SR, j) == BitOf(m.SR, j))
      && m1.(SR := m.SR) == m
  {
    var reg := Reg(m, r);
    var sr1 := SetFlag(m.SR, Carry, reg >= avo.val);
    var sr2 := SetFlag(sr1, Zero, reg == avo.val);
    SetFlagOthers(m.SR, Carry, reg >= avo.val);
    SetFlagOthers(sr1, Zero, reg == avo.val);
    SetFlagOthers(sr2, Negative, SignBit((reg - avo.val) % 256));
  }

  // Loads, stores, transfers, INC/DEC.

  /** The register each load writes. */
  function LoadTarget(ins: Instr): Register
    requires ins in {LDA, LDX, LDY}
  {
    match ins
    case LDA => AReg
    case LDX => XReg
    case LDY => YReg
  }

  /** The register each store reads. */
  function StoreSource(ins: Instr): Register
    requires ins in {STA, STX, STY}
  {
    match ins
    case STA => AReg
    case STX => XReg
    case STY => YReg
  }

  /** LDA, LDX, LDY: the register receives the value, Z and N describe it, the rest of
      SR, RAM and the other registers are kept, and the extra cycle is the page penalty. */
  lemma LoadEffect(m: Machine, ins: Instr, mode: AddrMode, avo: Avo)
    requires ins in {LDA, LDX, LDY}
    ensures var Effect(m1, extra) := Perform(m, ins, mode, avo);
      var r := LoadTarget(ins);
      Reg(m1, r) == avo.val
      && (GetFlag(m1.SR, Zero) <==> avo.val == 0)
      && (GetFlag(m1.SR, Negative) <==> SignBit(avo.val))
      && (forall j :: 0 <= j < 8 && j != 1 && j != 7 ==> BitOf(m1.SR, j) == BitOf(m.SR, j))
      && SetReg(m1, r, Reg(m, r)).(SR := m.SR) == m
      && extra == PagePenalty(mode, avo)
  {
    SetZNOthers(m.SR, avo.val);
  }

  /** STA, STX, STY write the register at the resolved address, change nothing else
      and cost no extra cycle. */
  lemma StoreEffect(m: Machine, ins: Instr, mode: AddrMode, avo: Avo)
    requires ins in {STA, STX, STY}
    ensures var Effect(m1, extra) := Perform(m, ins, mode, avo);
      m1.ram[avo.addr] == Reg(m, StoreSource(ins))
      && (forall a :: 0 <= a < MEM_MAX && a != avo.addr ==> m1.ram[a] == m.ram[a])
      && m1.(ram := m.ram) == m
      && extra == 0
  {
  }

  /** The source and destination of each flag-setting transfer. */
  function TransferRegs(ins: Instr): (Register, Register)
    requires ins in {TAX, TAY, TSX, TXA, TYA}
  {
    match ins
    case TAX => (AReg, XReg)
    case TAY => (AReg, YReg)
    case TSX => (SReg, XReg)
    case TXA => (XReg, AReg)
    case TYA => (YReg, AReg)
  }

  /** TAX, TAY, TSX, TXA, TYA copy the source into the destination and set Z and N
      from the copied value; nothing else changes. */
  lemma TransferEffect(m: Machine, ins: Instr, mode: AddrMode, avo: Avo)
    requires ins in {TAX, TAY, TSX, TXA, TYA}
    ensures var Effect(m1, extra) := Perform(m, ins, mode, avo);
      var (src, dst) := TransferRegs(ins);
      var v := Reg(m, src);
      Reg(m1, dst) == v
      && (GetFlag(m1.SR, Zero) <==> v == 0)
      && (GetFlag(m1.SR, Negative) <==> SignBit(v))
      && (forall j :: 0 <= j < 8 && j != 1 && j != 7 ==> BitOf(m1.SR, j) == BitOf(m.SR, j))
      && SetReg(m1, dst, Reg(m, dst)).(SR := m.SR) == m
      && extra == 0
  {
    SetZNOthers(m.SR, Reg(m, TransferRegs(ins).0));
  }

  /** TXS copies X into S and, unlike the other transfers, leaves every flag alone. */
  lemma TxsKeepsFlags(m: Machine, mode: AddrMode, avo: Avo)
    ensures var Effect(m1, extra) := Perform(m, TXS, mode, avo);
      m1.S == m.X && m1.SR == m.SR && m1.(S := m.S) == m && extra == 0
  {
  }

  /** INX, INY, DEX, DEY (all in mode IMP) change their register by one modulo 256 and
      set Z and N from the new value; nothing else changes. */
  lemma IncDecRegisterEffect(m: Machine, ins: Instr, mode: AddrMode, avo: Avo)
    requires ins in {INX, INY, DEX, DEY} && mode == IMP
    ensures var Effect(m1, extra) := Perform(m, ins, mode, avo);
      var r := if ins in {INX, DEX} then XReg else YReg;
      var v := (Reg(m, r) as int + if ins in {INX, INY} then 1 else -1) % 256;
      Reg(m1, r) == v
      && (GetFlag(m1.SR, Zero) <==> v == 0)
      && (GetFlag(m1.SR, Negative) <==> SignBit(v))
      && SetReg(m1, r, Reg(m, r)).(SR := m.SR) == m
      && extra == 0
  {
  }

  /** INC and DEC (never in mode IMP) change the byte at the resolved address by one
      modulo 256 and set Z and N from it; no register and no other byte changes. */
  lemma IncDecMemoryEffect(m: Machine, ins: Instr, mode: AddrMode, avo: Avo)
    requires ins in {INC, DEC} && mode != IMP
    ensures var Effect(m1, extra) := Perform(m, ins, mode, avo);
      var v := (m.ram[avo.addr] as int + if ins == INC then 1 else -1) % 256;
      m1.ram[avo.addr] == v
      && (forall a :: 0 <= a < MEM_MAX && a != avo.addr ==> m1.ram[a] == m.ram[a])
      && (GetFlag(m1.SR, Zero) <==> v == 0)
      && (GetFlag(m1.SR, Negative) <==> SignBit(v))
      && m1.(ram := m.ram, SR := m.SR) == m
      && extra == 0
  {
  }

  /** An increment then a decrement of the same byte give RAM back. */
  lemma IncThenDec(m: Machine, mode: AddrMode, avo: Avo)
    requires mode != IMP
    ensures IncDec(IncDec(m, mode, avo, 1, None), mode, avo, -1, None).ram == m.ram
  {
    var m1 := IncDec(m, mode, avo, 1, None);
    var m2 := IncDec(m1, mode, avo, -1, None);
    assert m2.ram[avo.addr] == m.ram[avo.addr];
    assert m2.ram == m.ram;
  }

  // Branches.

  /** A branch not taken moves PC past its two bytes for no extra cycle; a taken one
      moves PC by the signed operand from the opcode's own address, for one extra cycle,
      or three when that changes the page. Only PC changes. */
  lemma BranchEffect(m: Machine, taken: bool, avo: Avo)
    ensures var Effect(m1, extra) := Branch(m, taken, avo);
      var target := (m.PC + ToSigned(avo.val)) % MEM_MAX;
      m1.(PC := m.PC) == m
      && (!taken ==> m1.PC == (m.PC + 2) % MEM_MAX && extra == 0)
      && (taken ==> m1.PC == target && extra == (if HighByte(target) == HighByte(m.PC) then 1 else 3))
  {
  }

  /** Every branch calls `branch` with a test of one flag: the branch condition. */
  lemma BranchOperation(ins: Instr, sr: u8)
    requires ins in {BCC, BCS, BEQ, BMI, BNE, BPL, BVC, BVS}
    ensures OperationOf(ins).BranchOp?
    ensures (GetFlag(sr, OperationOf(ins).f) == OperationOf(ins).v) == BranchCondition(ins, sr)
  {
    match ins
    case BCC =>
    case BCS =>
    case BEQ =>
    case BMI =>
    case BNE =>
    case BPL =>
    case BVC =>
    case BVS =>
  }

  /** The `case` of every branch is `branch` with that branch's condition. */
  lemma PerformBranch(m: Machine, ins: Instr, mode: AddrMode, avo: Avo)
    requires ins in {BCC, BCS, BEQ, BMI, BNE, BPL, BVC, BVS}
    ensures Perform(m, ins, mode, avo) == Branch(m, BranchCondition(ins, m.SR), avo)
  {
    BranchOperation(ins, m.SR);
  }

  /** Each branch tests one flag: BCC/BCS carry clear/set, BNE/BEQ zero clear/set,
      BPL/BMI negative clear/set, BVC/BVS overflow clear/set. */
  lemma BranchConditions(sr: u8)
    ensures BranchCondition(BCC, sr) == !BranchCondition(BCS, sr) == !GetFlag(sr, Carry)
    ensures BranchCondition(BNE, sr) == !BranchCondition(BEQ, sr) == !GetFlag(sr, Zero)
    ensures BranchCondition(BPL, sr) == !BranchCondition(BMI, sr) == !GetFlag(sr, Negative)
    ensures BranchCondition(BVC, sr) == !BranchCondition(BVS, sr) == !GetFlag(sr, Overflow)
  {
  }

  // Interrupts (never reached from `execute`).

  /** `return_from_interrupt` after `generate_interrupt` restores SR and S; PC comes
      back as the word of its high byte and its low nibble. */
  lemma InterruptRoundTrip(m: Machine)
    ensures var m2 := ReturnFromInterrupt(GenerateInterrupt(m));
      m2.SR == m.SR && m2.S == m.S && m2.PC == B2W(LowByte(m.PC), HighByte(m.PC))
      && m2.A == m.A && m2.X == m.X && m2.Y == m.Y
  {
    var m1 := Push(m, HighByte(m.PC));
    var m2 := Push(m1, LowByte(m.PC));
    var m3 := Push(m2, m2.SR);
    PullAfterPush(m, HighByte(m.PC));
    PullAfterPush(m1, LowByte(m.PC));
    PullAfterPush(m2, m2.SR);
    assert m.S != m1.S && m1.S != m2.S && m.S != m2.S;
  }
}
