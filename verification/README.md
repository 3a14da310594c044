# A model of the MOS 6502 emulator of cpu-emu

This project models the core of the `cpu-emu` MOS 6502 emulator and proves properties of it. Three parts are covered:

- the `mos6502::CPU` class: 64 KiB of RAM, the registers PC, A, X, Y, S and the status register SR, with its instruction helpers and its three 256-entry lookup tables;
- its `reset()` and its `execute(numCycles)` loop, which fetches, decodes and dispatches instructions and keeps a `u32` cycle count;
- the build-time script `make-lookup-tables.py`, which turns a tab-separated opcode listing into the three lookup tables and prints them.

The model follows the code, not the 6502 datasheet. Where the two differ, the code's behaviour is what the model does and what the lemmas state:

- `lowByte` keeps only the low nibble (`& 0x0F`), so JSR pushes the nibble and RTS returns elsewhere unless the return address's low byte is below 16.
- ADC sets C equal to its V test.
- SBC subtracts the carry, and C is the negation of V.
- ROL and ROR rotate within the byte; the incoming carry is never read.
- The D flag is stored and never read.
- BIT takes V and N from `value & A`, not from the value.
- A branch's target is measured from the opcode's own address.

Modules:

| Module | File | What it holds |
|---|---|---|
| `Bits` | bits.dfy | `u8`/`u16`/`u32` as integer ranges; `B2W`, `lowByte`, `highByte`, `signBit`, `lowBit`, `onDifferentPages`, the `(s8)` cast and the bitwise operators |
| `Flags` | flags.dfy | the flag getters and setters and `set_ZN_flags` |
| `Opcodes` | opcodes.dfy | the opcode constants, the decoding of an opcode into the instruction its `case` handles, and the tables `INSTR_GET_ADDR_MODE`, `NUM_CYCLES_BASE` and `INSTR_BYTES` |
| `Semantics` | semantics.dfy | the pure model |
| `Cpu` | cpu.dfy | class `CPU` |
| `AddressingProperties`, `InstructionProperties`, `StepProperties`, `RunProperties` | addressing_props.dfy, instruction_props.dfy, step_props.dfy, run_props.dfy | the lemmas |
| `LookupTables` | lookup_tables.dfy | the Python script |

`Semantics` is the pure model:
- a `Machine` value;
- one function per addressing-mode resolver and per instruction helper;
- `OperationOf`, the call each `case` of the `switch` makes;
- `Step`, one iteration of the loop;
- `Run`, the loop.

Class `CPU` has the RAM as an array and the registers as fields. Every method is proved to change the object as the matching `Semantics` function changes a `Machine`, and `Execute` is proved to end as `Run` says.

`LookupTables` models the script. Its preprocessing loop builds a sequence of rows, and its filling loop updates three 256-entry arrays. Each loop is a method proved equal to a recursive definition, whose properties are proved as lemmas.

## Model

| member | source | states |
|---|---|---|
| Bits.B2WBytes | cpu-emu/mos/6502/include/mos6502.hpp:16-19 | `B2W(low, high)` gives back `high` as its `highByte` and `low` as its value modulo 256 |
| Bits.ToSigned | cpu-emu/mos/6502/include/mos6502.hpp:273 | the `(s8)` cast lies in -128..127, agrees with the byte modulo 256, and is negative exactly when bit 7 is set |
| Bits.Bitwise | cpu-emu/mos/6502/include/mos6502.hpp:76-78 | a bitwise combination of n-bit numbers is again an n-bit number |
| Bits.BitwiseBit | cpu-emu/mos/6502/include/mos6502.hpp:76-78 | bit k of `a & b`, `a ^ b`, `a \| b` is the operator applied to bit k of each operand |
| Bits.EorTwice | cpu-emu/mos/6502/include/mos6502.hpp:77 | exclusive or with the same operand twice gives the first operand back |
| Bits.SetBitGet | cpu-emu/mos/6502/include/mos6502.hpp:350-356 | after `(x & ~mask) + b * mask` the masked bit reads b |
| Bits.SetBitOther | cpu-emu/mos/6502/include/mos6502.hpp:350-356 | `(x & ~mask) + b * mask` keeps every other bit |
| Bits.SignBitIsBit7 | cpu-emu/mos/6502/include/mos6502.hpp:20 | `signBit(x)` is bit 7 of x |
| Flags.SetFlag | cpu-emu/mos/6502/include/mos6502.hpp:342-356 | after `set_flag_x(v)`, `get_flag_x()` returns v |
| Flags.SetFlagOthers | cpu-emu/mos/6502/include/mos6502.hpp:350-356 | `set_flag_x` changes no bit of SR but its own mask bit, bit 5 included |
| Flags.SetZN | cpu-emu/mos/6502/include/mos6502.hpp:70-73 | `set_ZN_flags(val)` sets Z exactly when val is 0 and N exactly when bit 7 of val is set |
| Flags.SetZNOthers | cpu-emu/mos/6502/include/mos6502.hpp:70-73 | `set_ZN_flags` keeps every bit of SR other than Z and N |
| Opcodes.HandledOpcodeTables | cpu-emu/mos/6502/include/mos6502.hpp:414-456 | every opcode that has a `case` has a base cycle count between 2 and 7, so never 0, and a length of at most 3 |
| Opcodes.DataOpcodeTables | cpu-emu/mos/6502/include/mos6502.hpp:414-456 | the same for the loads, stores, transfers, flag instructions and NOP |
| Opcodes.LogicOpcodeTables | cpu-emu/mos/6502/include/mos6502.hpp:414-456 | the same for INC/DEC, AND, EOR, ORA and BIT |
| Opcodes.ArithOpcodeTables | cpu-emu/mos/6502/include/mos6502.hpp:414-456 | the same for the shifts, ADC, SBC and the compares |
| Opcodes.StackOpcodeTables | cpu-emu/mos/6502/include/mos6502.hpp:414-456 | the same for PHA, PHP, PLA, PLP |
| Opcodes.JumpOpcodeTables | cpu-emu/mos/6502/include/mos6502.hpp:414-456 | the same for JMP, the branches, JSR and RTS |
| Opcodes.IncDecModes | cpu-emu/mos/6502/include/mos6502.hpp:393-411 | the table gives INC and DEC only the modes ZPG, ZPX, ABS and ABX, never IMP |
| Opcodes.LoadsTables | cpu-emu/mos/6502/include/mos6502.hpp:414-456 | every LDA/LDX/LDY opcode costs 2 to 7 base cycles and is 1 to 3 bytes long |
| Opcodes.StoresTables | cpu-emu/mos/6502/include/mos6502.hpp:414-456 | the same for STA/STX/STY |
| Opcodes.ImpliedTables | cpu-emu/mos/6502/include/mos6502.hpp:414-456 | the same for the transfers, NOP and the flag instructions |
| Opcodes.IncDecTables | cpu-emu/mos/6502/include/mos6502.hpp:414-456 | the same for INC, INX, INY, DEC, DEX, DEY |
| Opcodes.AndEorTables | cpu-emu/mos/6502/include/mos6502.hpp:414-456 | the same for AND and EOR |
| Opcodes.OraBitTables | cpu-emu/mos/6502/include/mos6502.hpp:414-456 | the same for ORA and BIT |
| Opcodes.ShiftsTables | cpu-emu/mos/6502/include/mos6502.hpp:414-456 | the same for ASL, LSR, ROL, ROR |
| Opcodes.AddSubTables | cpu-emu/mos/6502/include/mos6502.hpp:414-456 | the same for ADC and SBC |
| Opcodes.ComparesTables | cpu-emu/mos/6502/include/mos6502.hpp:414-456 | the same for CMP, CPX, CPY |
| Opcodes.StackTables | cpu-emu/mos/6502/include/mos6502.hpp:414-456 | the same for PHA, PHP, PLA, PLP |
| Opcodes.JumpsTables | cpu-emu/mos/6502/include/mos6502.hpp:434-456 | JMP, the branches, JSR and RTS cost 2 to 7 base cycles and have length 0: they set PC themselves |
| Opcodes.BranchTables | cpu-emu/mos/6502/include/mos6502.hpp:393-456 | every branch opcode is in mode REL, costs 2 base cycles and has length 0 |
| Opcodes.JmpIndirectEntry | cpu-emu/mos/6502/include/mos6502.hpp:387-456 | 0x6C decodes as JMP in mode IND, 5 base cycles, length 0 |
| Opcodes.JsrEntry | cpu-emu/mos/6502/include/mos6502.hpp:388-456 | 0x20 decodes as JSR in mode ABS, 6 base cycles, length 0 |
| Opcodes.RtsEntry | cpu-emu/mos/6502/include/mos6502.hpp:388-456 | 0x60 decodes as RTS in mode IMP, 6 base cycles, length 0 |
| Opcodes.NopEntry | cpu-emu/mos/6502/include/mos6502.hpp:390-456 | 0xEA decodes as NOP in mode IMP, 2 base cycles, length 1 |
| Opcodes.UnhandledOpcodes | cpu-emu/mos/6502/src/6502.cpp:114-119 | BRK (0x00), RTI (0x40) and 0xFF have no `case`; BRK and RTI have length 0 in INSTR_BYTES |
| Semantics.Charge | cpu-emu/mos/6502/src/6502.cpp:121 | `numCycles -= c` on a `u32`: the plain difference when c fits the count, otherwise the count wraps to 2^32 plus the difference |
| Semantics.OperationOf | cpu-emu/mos/6502/src/6502.cpp:63-70 | exactly the INC/DEC family calls `inc_dec`, always with +1 or -1, and passes no register exactly for INC and DEC |
| AddressingProperties.ZeroPageIndexedWraps | cpu-emu/mos/6502/include/mos6502.hpp:127-134 | zero-page indexed addresses stay in page 0; they equal operand + index exactly when that sum is below 256, and are 256 less otherwise |
| AddressingProperties.IndexedIndirectPointerInPageZero | cpu-emu/mos/6502/include/mos6502.hpp:161-164 | indexed-indirect reads both pointer bytes from page 0, the high byte at the next address modulo 256, so a pointer at 0xFF takes its high byte from 0x00 |
| AddressingProperties.IndirectPageBug | cpu-emu/mos/6502/include/mos6502.hpp:147-160 | with a pointer low byte of 0xFF, the 6502 reads the high byte from offset 0x00 of the same page, the 65SC02 from the next page |
| AddressingProperties.IndirectBoundaryExample | cpu-emu/mos/6502/test/test_JMP.cpp:27-39 | the boundary test's pointer 0x12FF gives 0xEE04 on the 6502 and 0x4004 on the 65SC02 |
| AddressingProperties.IndirectModelsAgree | cpu-emu/mos/6502/include/mos6502.hpp:147-160 | away from a page boundary both models read the two consecutive pointer bytes |
| AddressingProperties.UnIndex | cpu-emu/mos/6502/include/mos6502.hpp:197 | `addr - offset` modulo 2^16 gives back the address before indexing |
| AddressingProperties.PagePenaltyAbsoluteX | cpu-emu/mos/6502/include/mos6502.hpp:196-198 | in mode ABX the penalty is 1 exactly when adding X to the absolute address changes the page |
| AddressingProperties.PagePenaltyAbsoluteY | cpu-emu/mos/6502/include/mos6502.hpp:196-198 | the same for ABY and Y |
| AddressingProperties.PagePenaltyIndirectIndexed | cpu-emu/mos/6502/include/mos6502.hpp:224-226 | in mode IDY the penalty is 1 exactly when adding Y to the page-0 pointer changes the page |
| AddressingProperties.NoPagePenaltyElsewhere | cpu-emu/mos/6502/include/mos6502.hpp:222-228 | no mode other than ABX, ABY and IDY is charged a penalty |
| InstructionProperties.PushFootprint | cpu-emu/mos/6502/include/mos6502.hpp:256-259 | `push(v)` writes v at 0x0100 + S and nowhere else, decrements S modulo 256 and keeps every other register |
| InstructionProperties.PullAfterPush | cpu-emu/mos/6502/include/mos6502.hpp:256-266 | a `pull()` right after `push(v)` returns v and restores S |
| InstructionProperties.JsrRtsRoundTrip | cpu-emu/mos/6502/include/mos6502.hpp:278-289 | RTS after JSR restores S, A, X, Y and SR, and sets PC to one past the word of `lowByte(PC0+2)` and `highByte(PC0+2)` |
| InstructionProperties.NibbleWordSuccessor | cpu-emu/mos/6502/include/mos6502.hpp:16-19 | `B2W(lowByte(w), highByte(w)) + 1` equals `w + 1` exactly when the low byte of w is below 16 |
| InstructionProperties.ReturnAddressSuccessor | cpu-emu/mos/6502/include/mos6502.hpp:278-289 | one past the pushed return address is three past the JSR |
| InstructionProperties.RtsReturnsPastJsr | cpu-emu/mos/6502/include/mos6502.hpp:278-289 | RTS lands just past the JSR exactly when the return address's low byte is below 16 |
| InstructionProperties.CarryInAfterSet | cpu-emu/mos/6502/include/mos6502.hpp:342-356 | `get_flag_c()` after `set_flag_c(v)` is v as 0 or 1 |
| InstructionProperties.RotateLeftWithinByte | cpu-emu/mos/6502/include/mos6502.hpp:100-103 | `rotate_left` rotates the byte within itself, copies bit 7 into C and keeps the other SR bits |
| InstructionProperties.RotateRightWithinByte | cpu-emu/mos/6502/include/mos6502.hpp:104-107 | `rotate_right` rotates the byte within itself, copies bit 0 into C and keeps the other SR bits |
| InstructionProperties.RotatesIgnoreCarry | cpu-emu/mos/6502/include/mos6502.hpp:100-107 | the rotated byte does not depend on the incoming carry |
| InstructionProperties.RotateRightUndoesLeft | cpu-emu/mos/6502/include/mos6502.hpp:100-107 | a rotate right undoes a rotate left |
| InstructionProperties.RotateLeftUndoesRight | cpu-emu/mos/6502/include/mos6502.hpp:100-107 | a rotate left undoes a rotate right |
| InstructionProperties.ShiftsCarryOut | cpu-emu/mos/6502/include/mos6502.hpp:92-99 | ASL moves bit 7 into C and a 0 into bit 0; LSR moves bit 0 into C and a 0 into bit 7 |
| InstructionProperties.AddFlags | cpu-emu/mos/6502/include/mos6502.hpp:79-84 | `add` gives the 8-bit sum with the carry in; V is set when bit 7 of A and of the sum differ, C equals V, other bits are kept |
| InstructionProperties.SubFlags | cpu-emu/mos/6502/include/mos6502.hpp:85-90 | `sub` gives the 8-bit difference minus the carry in; V as in `add`, C is not V, other bits are kept |
| InstructionProperties.SubUndoesAdd | cpu-emu/mos/6502/include/mos6502.hpp:79-90 | ADC then SBC of the same operand on the accumulator, with C clear before the ADC: the SBC reads the carry the ADC left, which is its V, so A comes back exactly when the ADC did not overflow, and otherwise ends one below (mod 256) |
| InstructionProperties.SubAfterOverflowExample | cpu-emu/mos/6502/include/mos6502.hpp:79-90 | from A = 0x7F with C clear, ADC #1 then SBC #1 leaves A = 0x7E, not 0x7F |
| InstructionProperties.BitTestFlags | cpu-emu/mos/6502/include/mos6502.hpp:237-242 | BIT sets Z when `value & A` is 0, V and N when both operands have bit 6 and bit 7 set; only those flags change |
| InstructionProperties.CompareFlags | cpu-emu/mos/6502/include/mos6502.hpp:244-249 | `cmp` sets C when reg >= value, Z when they are equal (so Z implies C), N from bit 7 of the 8-bit difference; only SR changes |
| InstructionProperties.LoadEffect | cpu-emu/mos/6502/include/mos6502.hpp:194-200 | LDA/LDX/LDY put the value in their register, set Z and N from it, keep everything else and cost the page penalty as extra |
| InstructionProperties.StoreEffect | cpu-emu/mos/6502/include/mos6502.hpp:202-204 | STA/STX/STY write their register at exactly the resolved address, change no register or flag, and cost no extra cycle |
| InstructionProperties.TransferEffect | cpu-emu/mos/6502/src/6502.cpp:49-54 | TAX, TAY, TSX, TXA, TYA copy the source into the destination and set Z and N from the copy; nothing else changes |
| InstructionProperties.TxsKeepsFlags | cpu-emu/mos/6502/src/6502.cpp:53 | TXS copies X into S and leaves SR alone |
| InstructionProperties.IncDecRegisterEffect | cpu-emu/mos/6502/include/mos6502.hpp:211-215 | INX, INY, DEX, DEY change their register by one modulo 256 and set Z and N from it |
| InstructionProperties.IncDecMemoryEffect | cpu-emu/mos/6502/include/mos6502.hpp:211-219 | INC and DEC change exactly the resolved byte by one modulo 256 and set Z and N from it |
| InstructionProperties.IncThenDec | cpu-emu/mos/6502/include/mos6502.hpp:216 | an increment then a decrement of the same byte give the RAM back |
| InstructionProperties.BranchEffect | cpu-emu/mos/6502/include/mos6502.hpp:268-276 | not taken: PC + 2 and no extra cycle; taken: PC + the signed operand from the opcode's address, with 1 extra cycle on the same page and 3 across pages; only PC changes |
| InstructionProperties.BranchOperation | cpu-emu/mos/6502/src/6502.cpp:103-110 | every branch's `case` calls `branch` with a test of one flag that is the branch condition |
| InstructionProperties.PerformBranch | cpu-emu/mos/6502/src/6502.cpp:103-110 | running a branch's `case` is `branch` on its condition |
| InstructionProperties.BranchConditions | cpu-emu/mos/6502/src/6502.cpp:103-110 | BCC/BCS test C clear/set, BNE/BEQ Z, BPL/BMI N, BVC/BVS V |
| InstructionProperties.InterruptRoundTrip | cpu-emu/mos/6502/include/mos6502.hpp:291-310 | `return_from_interrupt` after `generate_interrupt` restores SR, S, A, X, Y, and PC as the word of its high byte and low nibble |
| StepProperties.OperationExtraBound | cpu-emu/mos/6502/include/mos6502.hpp:194-289 | a helper takes at most 3 extra cycles, and only loads, `arith` and `branch` take any |
| StepProperties.PerformExtraBound | cpu-emu/mos/6502/src/6502.cpp:36-112 | every `case` takes at most 3 extra cycles |
| StepProperties.StepBadInstruction | cpu-emu/mos/6502/src/6502.cpp:36-119 | an iteration fails exactly when the opcode at PC has no `case` |
| StepProperties.UnhandledOpcodesCrash | cpu-emu/mos/6502/src/6502.cpp:114-119 | BRK, RTI and 0xFF at PC fail the iteration |
| StepProperties.StepCharges | cpu-emu/mos/6502/src/6502.cpp:121 | every handled opcode costs between 2 and 10 cycles, so each iteration consumes budget |
| StepProperties.AdvanceInPlace | cpu-emu/mos/6502/src/6502.cpp:121-122 | an instruction of length 0 ends the iteration in the state its `case` leaves, charged base plus extra cycles |
| StepProperties.BranchDecoded | cpu-emu/mos/6502/include/mos6502.hpp:268-276 | a branch iteration: 2 cycles and PC + 2 when not taken; the signed target at 3 cycles on the same page or 5 across pages when taken |
| StepProperties.BranchStep | cpu-emu/mos/6502/src/6502.cpp:103-110 | a branch opcode at PC runs as the decoded branch |
| StepProperties.JmpIndirectDecoded | cpu-emu/mos/6502/src/6502.cpp:97-98 | JMP (IND) sets PC to the indirect target for 5 cycles |
| StepProperties.JmpIndirectStep | cpu-emu/mos/6502/src/6502.cpp:97-98 | the same for opcode 0x6C at PC |
| StepProperties.JmpIndirectBoundaryExample | cpu-emu/mos/6502/test/test_JMP.cpp:27-39 | the boundary test's JMP (0x12FF) lands on 0xEE04 in 5 cycles |
| StepProperties.StepAt | cpu-emu/mos/6502/src/6502.cpp:31-33 | an iteration reads the three tables at the opcode under PC |
| StepProperties.JsrDecoded | cpu-emu/mos/6502/src/6502.cpp:111 | JSR ABS is `jump_sub_routine` on the absolute operand, 6 cycles |
| StepProperties.JsrStep | cpu-emu/mos/6502/src/6502.cpp:111 | the same for opcode 0x20 at PC |
| StepProperties.RtsDecoded | cpu-emu/mos/6502/src/6502.cpp:112 | RTS is `return_sub_routine`, 6 cycles |
| StepProperties.RtsStep | cpu-emu/mos/6502/src/6502.cpp:112 | the same for opcode 0x60 at PC |
| StepProperties.NopStep | cpu-emu/mos/6502/src/6502.cpp:55 | NOP moves PC by one and costs 2 cycles |
| RunProperties.LoopUnfold | cpu-emu/mos/6502/src/6502.cpp:29-123 | one iteration with budget left: the loop continues from the next state with the cost taken off the `u32` count |
| RunProperties.ChargeInTwoParts | cpu-emu/mos/6502/src/6502.cpp:121 | taking the extra cycles inside the `case` and the base cycles afterwards equals taking their sum once, modulo 2^32 |
| RunProperties.LoopStep | cpu-emu/mos/6502/src/6502.cpp:29-123 | an iteration within the budget leaves budget minus cost |
| RunProperties.ExactBudgetWith | cpu-emu/mos/6502/src/6502.cpp:29-124 | when n iterations cost exactly the budget and each costs at least one cycle, the loop runs exactly those n and stops where they end |
| RunProperties.ChargeAddBack | cpu-emu/mos/6502/src/6502.cpp:121 | cost plus what is left, modulo 2^32, is the budget again |
| RunProperties.CompletedIsTrace | cpu-emu/mos/6502/src/6502.cpp:29-124 | a loop that completes has run some n iterations, no more than its fuel, whose costs add up to the budget modulo 2^32 |
| RunProperties.CrashedIsBadInstruction | cpu-emu/mos/6502/src/6502.cpp:114-119 | a loop that crashes has met an opcode without a `case` after fewer iterations than its fuel |
| RunProperties.TwoSteps | cpu-emu/mos/6502/src/6502.cpp:29-123 | two iterations that use up the budget exactly complete the loop |
| RunProperties.ThreeSteps | cpu-emu/mos/6502/src/6502.cpp:29-123 | three iterations that use up the budget exactly complete the loop |
| RunProperties.BudgetWrapsWith | cpu-emu/mos/6502/src/6502.cpp:121 | an instruction costing more than the budget left wraps the count to just below 2^32, and the loop goes on |
| RunProperties.StepChargesAll | cpu-emu/mos/6502/src/6502.cpp:121 | every 6502 iteration costs at least one cycle |
| RunProperties.RunZeroBudget | cpu-emu/mos/6502/src/6502.cpp:24-29 | `execute(0)` runs nothing and leaves the state unchanged |
| RunProperties.RunCrashes | cpu-emu/mos/6502/src/6502.cpp:114-119 | with budget left, an opcode without a `case` crashes the run |
| RunProperties.ExactBudget | cpu-emu/mos/6502/src/6502.cpp:124 | n instructions that cost `budget` cycles together run to completion under `execute(budget)` |
| RunProperties.RunStep | cpu-emu/mos/6502/src/6502.cpp:29-123 | a 6502 instruction within the budget continues the run with budget minus its cost |
| RunProperties.RunUnfold | cpu-emu/mos/6502/src/6502.cpp:29-123 | any 6502 iteration with budget left continues the run with the wrapped `u32` count |
| RunProperties.NopOvershootExample | cpu-emu/mos/6502/src/6502.cpp:121 | a NOP under a budget of 1 leaves the count at 2^32 - 1 and the loop goes on |
| RunProperties.TwoNopsExample | cpu-emu/mos/6502/test/test_NOP.cpp:11-16 | two NOPs under a budget of 4 complete with PC two bytes further and nothing else changed |
| RunProperties.JsrExample | cpu-emu/mos/6502/test/test_BRANCH.cpp:114-120 | JSR 0x1234 from RESET_START completes under a budget of 6 |
| RunProperties.JsrLandsExample | cpu-emu/mos/6502/test/test_BRANCH.cpp:114-121 | that JSR lands on 0x1234 and leaves the subroutine's code in place |
| RunProperties.PullIgnoresPC | cpu-emu/mos/6502/include/mos6502.hpp:262-266 | `pull()` neither reads nor writes PC |
| RunProperties.ReturnIgnoresPC | cpu-emu/mos/6502/include/mos6502.hpp:285-289 | RTS does not depend on the PC it runs from |
| RunProperties.NopNopRtsExample | cpu-emu/mos/6502/test/test_BRANCH.cpp:122-126 | NOP, NOP, RTS at 0x1234 complete under a budget of 10 |
| RunProperties.SubroutineReturnExample | cpu-emu/mos/6502/test/test_BRANCH.cpp:114-128 | JSR from 0x4000 then RTS return to 0x4003 with S restored |
| RunProperties.SubroutineExample | cpu-emu/mos/6502/test/test_BRANCH.cpp:114-128 | the subroutine test: budget 6 for the JSR, budget 10 for the body; it ends at 0x4003 with S restored |
| Cpu.CPU.constructor | cpu-emu/mos/6502/src/6502.cpp:10-21 | a new CPU is in the reset state |
| Cpu.CPU.Reset | cpu-emu/mos/6502/src/6502.cpp:10-21 | all 65536 RAM bytes become 0, A = X = Y = 0, SR = FLAG_INIT, S = 0xFF, PC = RESET_START |
| Cpu.CPU.SetRegister | cpu-emu/mos/6502/include/mos6502.hpp:206-209 | writing through a `u8&` changes exactly the register it names |
| Cpu.CPU.ChargePagePenalty | cpu-emu/mos/6502/include/mos6502.hpp:196-198 | the count loses the page penalty of the current mode and operand |
| Cpu.CPU.LoadRegister | cpu-emu/mos/6502/include/mos6502.hpp:194-200 | `load` changes the CPU as `Load` changes the machine, and charges the page penalty |
| Cpu.CPU.StoreRegister | cpu-emu/mos/6502/include/mos6502.hpp:202-204 | `store` changes the CPU as `Store` does |
| Cpu.CPU.TransferRegister | cpu-emu/mos/6502/include/mos6502.hpp:206-209 | `transfer` changes the CPU as `Transfer` does |
| Cpu.CPU.IncDecOperand | cpu-emu/mos/6502/include/mos6502.hpp:211-219 | `inc_dec` changes the CPU as `IncDec` does |
| Cpu.CPU.ArithAccumulator | cpu-emu/mos/6502/include/mos6502.hpp:222-228 | `arith` changes the CPU as `Arith` does, and charges the page penalty |
| Cpu.CPU.ShiftRotate | cpu-emu/mos/6502/include/mos6502.hpp:231-235 | `shift_rot` changes A in mode ACC, otherwise the addressed byte, as `ShiftRot` does |
| Cpu.CPU.BitTestAccumulator | cpu-emu/mos/6502/include/mos6502.hpp:237-242 | `bit` changes SR as `BitTest` does |
| Cpu.CPU.CompareRegister | cpu-emu/mos/6502/include/mos6502.hpp:245-249 | `cmp` changes SR as `Compare` does |
| Cpu.CPU.PushByte | cpu-emu/mos/6502/include/mos6502.hpp:256-259 | `push` changes the CPU as `Push` does |
| Cpu.CPU.PullByte | cpu-emu/mos/6502/include/mos6502.hpp:262-266 | `pull` returns the byte and leaves the state that `Pull` gives |
| Cpu.CPU.BranchIf | cpu-emu/mos/6502/include/mos6502.hpp:268-276 | `branch` moves PC and charges the count as `Branch` says |
| Cpu.CPU.JumpSubRoutineCall | cpu-emu/mos/6502/include/mos6502.hpp:278-283 | `jump_sub_routine` changes the CPU as `JumpSubRoutine` does |
| Cpu.CPU.ReturnSubRoutineCall | cpu-emu/mos/6502/include/mos6502.hpp:285-289 | `return_sub_routine` changes the CPU as `ReturnSubRoutine` does |
| Cpu.CPU.GenerateInterruptCall | cpu-emu/mos/6502/include/mos6502.hpp:291-302 | `generate_interrupt` changes the CPU as `GenerateInterrupt` does |
| Cpu.CPU.ReturnFromInterruptCall | cpu-emu/mos/6502/include/mos6502.hpp:304-310 | `return_from_interrupt` changes the CPU as `ReturnFromInterrupt` does |
| Cpu.CPU.OperateData | cpu-emu/mos/6502/src/6502.cpp:37-70 | the data-moving and flag `case`s change the CPU and the count as `ApplyOperation` says |
| Cpu.CPU.OperateCompute | cpu-emu/mos/6502/src/6502.cpp:71-96 | the same for the ALU, shift, BIT and compare `case`s |
| Cpu.CPU.OperateStack | cpu-emu/mos/6502/src/6502.cpp:99-102 | the same for PHA, PHP, PLA, PLP |
| Cpu.CPU.OperateJumps | cpu-emu/mos/6502/src/6502.cpp:97-112 | the same for JMP, the branches, JSR and RTS |
| Cpu.CPU.Operate | cpu-emu/mos/6502/src/6502.cpp:36-112 | any `case` changes the CPU and the count as `ApplyOperation` says |
| Cpu.CPU.ChargeBaseAndAdvance | cpu-emu/mos/6502/src/6502.cpp:121-122 | the count loses the base cycles on top of the extra ones, and PC moves by the length modulo 2^16 |
| Cpu.CPU.PerformCase | cpu-emu/mos/6502/src/6502.cpp:36-122 | the `case` followed by the charge and the PC move is one `Advance` of `ApplyOperation` |
| Cpu.CPU.ExecuteDecoded | cpu-emu/mos/6502/src/6502.cpp:36-122 | with the operand resolved, the iteration is one `StepDecoded` |
| Cpu.CPU.ExecuteInstruction | cpu-emu/mos/6502/src/6502.cpp:31-122 | one loop iteration on an opcode that has a `case` is one `Step`: the new state is its state and the count loses its cost |
| Cpu.CPU.Execute | cpu-emu/mos/6502/src/6502.cpp:24-125 | `execute(n)` ends as `Run` says: completed with the count at 0, returning n; or, at an opcode without a `case`, reset and returning 0xFFFFFFFF |
| LookupTables.Split | cpu-emu/mos/6502/scripts/make-lookup-tables.py:11-16 | `str.split(sep)` gives at least one piece and no piece contains the separator |
| LookupTables.JoinSplit | cpu-emu/mos/6502/scripts/make-lookup-tables.py:11-16 | joining the pieces with the separator gives the text back |
| LookupTables.SplitAfterPiece | cpu-emu/mos/6502/scripts/make-lookup-tables.py:11-12 | a text that starts with a separator-free piece and a separator splits into that piece followed by the split of the rest |
| LookupTables.SplitTrailing | cpu-emu/mos/6502/scripts/make-lookup-tables.py:11 | a text ending in the separator splits into at least two pieces, the last one empty |
| LookupTables.Lower | cpu-emu/mos/6502/scripts/make-lookup-tables.py:17 | `lower()` keeps the length |
| LookupTables.HexValue | cpu-emu/mos/6502/scripts/make-lookup-tables.py:17 | the digits have a value exactly when every character is a hex digit, and the value is below 16 to the number of digits |
| LookupTables.HexValueLower | cpu-emu/mos/6502/scripts/make-lookup-tables.py:17 | lower-casing does not change the hex value, so the parse is case-insensitive |
| LookupTables.OpcodeFieldValue | cpu-emu/mos/6502/scripts/make-lookup-tables.py:17 | the opcode field parses to the hex value of the digits after its first character, whatever that sigil is |
| LookupTables.TwoDigitOpcode | cpu-emu/mos/6502/scripts/make-lookup-tables.py:17 | `"$XY"` parses to 16 X + Y |
| LookupTables.OpcodeRoundTrip | cpu-emu/mos/6502/scripts/make-lookup-tables.py:17 | every opcode below 256, written as `$` and two hex digits, parses back to itself |
| LookupTables.ParseLineOutcome | cpu-emu/mos/6502/scripts/make-lookup-tables.py:16-17 | a line with fewer than two tab-separated columns is an IndexError, a non-hex opcode column a ValueError; otherwise the row is the columns with column 1 read as the opcode |
| LookupTables.Collect | cpu-emu/mos/6502/scripts/make-lookup-tables.py:15-17 | when preprocessing succeeds there is one row per line |
| LookupTables.CollectSucceeds | cpu-emu/mos/6502/scripts/make-lookup-tables.py:15-17 | preprocessing succeeds exactly when every line parses, and row i is line i parsed |
| LookupTables.CollectFails | cpu-emu/mos/6502/scripts/make-lookup-tables.py:15-17 | failed preprocessing reports the first line that does not parse, with its exception |
| LookupTables.CollectErrorPersists | cpu-emu/mos/6502/scripts/make-lookup-tables.py:15-17 | once some first lines fail, the whole preprocessing fails with the same exception |
| LookupTables.Preprocess | cpu-emu/mos/6502/scripts/make-lookup-tables.py:15-17 | the preprocessing loop gives the rows, or the first failing line's exception |
| LookupTables.Repeat | cpu-emu/mos/6502/scripts/make-lookup-tables.py:20-22 | `[x] * n` has n entries, each x |
| LookupTables.Record | cpu-emu/mos/6502/scripts/make-lookup-tables.py:25-28 | one row succeeds exactly when it has four columns and an opcode below 256, and the tables keep 256 entries |
| LookupTables.FillTables | cpu-emu/mos/6502/scripts/make-lookup-tables.py:20-28 | the three tables have exactly 256 entries whatever the rows |
| LookupTables.FillOutcome | cpu-emu/mos/6502/scripts/make-lookup-tables.py:25-28 | filling succeeds exactly when every row fits; else it reports the first row that does not, a ValueError without four columns, an IndexError for an opcode past the tables |
| LookupTables.LaterRecordWins | cpu-emu/mos/6502/scripts/make-lookup-tables.py:25-28 | an opcode's entries are the mode, cycles and bytes columns of the last row that names it |
| LookupTables.AbsentOpcodeKeepsDefault | cpu-emu/mos/6502/scripts/make-lookup-tables.py:20-28 | an opcode no row names keeps `'NUL'` as its mode and 0 as its cycles and bytes |
| LookupTables.FillErrorPersists | cpu-emu/mos/6502/scripts/make-lookup-tables.py:25-28 | once some first rows fail, the whole filling fails with the same exception |
| LookupTables.Fill | cpu-emu/mos/6502/scripts/make-lookup-tables.py:20-28 | the filling loop over three 256-entry arrays gives the tables, or the first failing row's exception |
| LookupTables.Script | cpu-emu/mos/6502/scripts/make-lookup-tables.py:11-28 | when the script gets through the file, its tables have 256 entries |
| LookupTables.HeaderIgnored | cpu-emu/mos/6502/scripts/make-lookup-tables.py:12 | the first line is dropped: two files that differ only in it give the same outcome |
| LookupTables.TrailingNewlineFails | cpu-emu/mos/6502/scripts/make-lookup-tables.py:11-17 | a file ending in a line break always fails, because its empty last line has no opcode column |
| LookupTables.MakeTables | cpu-emu/mos/6502/scripts/make-lookup-tables.py:11-28 | splitting, dropping the header, preprocessing and filling give the script's outcome |
| LookupTables.LayoutWithinRow | cpu-emu/mos/6502/scripts/make-lookup-tables.py:30-34 | within a row of 16, the printed text is the rows before, one line break, then the row's cells |
| LookupTables.LayoutRows | cpu-emu/mos/6502/scripts/make-lookup-tables.py:30-34 | 16 n entries print as n rows, each a line break followed by 16 cells |
| LookupTables.PrintedRows | cpu-emu/mos/6502/scripts/make-lookup-tables.py:30-36 | a table of 16 n entries prints as n rows of 16 values, then two line breaks |
| LookupTables.PrintTable | cpu-emu/mos/6502/scripts/make-lookup-tables.py:30-36 | the printing loop emits a line break before every index that is a multiple of 16, each value followed by `", "`, then two line breaks |
| LookupTables.MakeLookupTables | cpu-emu/mos/6502/scripts/make-lookup-tables.py:38-45 | the output is the three headed tables in order, or the script's exception |

## Left out

- Console output: the `printf` of a bad instruction. The Python script's file read and `print` calls are replaced by a string parameter and a returned string.
- `bench.cpp`: wall-clock timing and floating-point throughput.
- The test harness. The tests for SBC, ROL, ADC carry, BCD and BRK/RTI assert datasheet results that the code does not produce; they are not contracts here. The tests that match the code appear as example lemmas.
- The two-argument `execute(0, true)` the tests call: it matches no declaration.
- Decimal mode: the D flag is stored by CLD/SED and never read.
- Interrupts: `generate_interrupt` and `return_from_interrupt` are modelled standalone, because `execute` never calls them. BRK and RTI have no `case` and crash the run.
- The member-function-pointer dispatch (`addr_mode_funcs`, the `arith` and `shift_rot` callbacks): replaced by a `match` on the mode and by the `Operation` datatype.
- `models.hpp`: `CPU_MODEL` is the constant `Model6502`. The indirect resolver also takes the model as a parameter, so the 65SC02 behaviour is stated too.
- `RESET_LOC`: it is not defined in the header. The reset PC is `RESET_START` (0x4000), which the tests expect.
- `ram[PC+1]` and `ram[PC+2]` read past the array in C++ when PC is 0xFFFF or 0xFFFE. The model wraps these addresses modulo 2^16.
- `operator[]`: direct RAM access, which is the `ram` array here.
- Cpu.CPU.Execute: takes a ghost `fuel` and requires `Run` to end within it. A budget that wraps can keep `execute` running forever (`RunProperties.NopOvershootExample`), and such runs are not covered.
- Cpu.CPU.constructor: stands for a `CPU` declared and then `reset()`. C++ leaves a fresh object's fields uninitialised.
- LookupTables.ParseOpcode: only plain hex digits are accepted. Python's `int(s, 16)` also accepts surrounding whitespace, a sign, a `0x` prefix, underscores between digits and non-ASCII digits. A negative opcode would index the lists from the end in Python.
- LookupTables.Lower: lower-cases ASCII letters only. Python's `lower()` covers all of Unicode, and nothing else here depends on letters outside hex digits.
- The numeric columns are kept as text, as the script stores them, and are never converted to numbers.
