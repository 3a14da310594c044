/** Opcode values, the three 256-entry lookup tables and the decoding switch of the
    6502 interpreter (include/mos6502.hpp and the `switch` of src/6502.cpp). */
module Opcodes {

  import opened Bits

  /** How an instruction finds its operand; NUL marks a table slot with no instruction. */
  datatype AddrMode =
    | IMP  // register implied by the instruction
    | IMM  // immediate byte after the opcode
    | ZPG  // zero page
    | ZPX  // zero page offset by X
    | ZPY  // zero page offset by Y
    | ABS  // absolute address
    | ABX  // absolute address offset by X
    | ABY  // absolute address offset by Y
    | IND  // absolute indirect (JMP only)
    | IDX  // indexed indirect, offset by X
    | IDY  // indirect indexed, offset by Y
    | ACC  // accumulator
    | REL  // relative (branches)
    | NUL  // no instruction

  // Opcode values of the `Instructions` enumeration.
  const LDA_IMM: u8 := 0xA9 const LDA_ZPG: u8 := 0xA5 const LDA_ZPX: u8 := 0xB5 const LDA_ABS: u8 := 0xAD const LDA_ABX: u8 := 0xBD const LDA_ABY: u8 := 0xB9 const LDA_IDX: u8 := 0xA1 const LDA_IDY: u8 := 0xB1
  const LDX_IMM: u8 := 0xA2 const LDX_ZPG: u8 := 0xA6 const LDX_ZPY: u8 := 0xB6 const LDX_ABS: u8 := 0xAE const LDX_ABY: u8 := 0xBE
  const LDY_IMM: u8 := 0xA0 const LDY_ZPG: u8 := 0xA4 const LDY_ZPX: u8 := 0xB4 const LDY_ABS: u8 := 0xAC const LDY_ABX: u8 := 0xBC
  const STA_ZPG: u8 := 0x85 const STA_ZPX: u8 := 0x95 const STA_ABS: u8 := 0x8D const STA_ABX: u8 := 0x9D const STA_ABY: u8 := 0x99 const STA_IDX: u8 := 0x81 const STA_IDY: u8 := 0x91
  const STX_ZPG: u8 := 0x86 const STX_ZPY: u8 := 0x96 const STX_ABS: u8 := 0x8E
  const STY_ZPG: u8 := 0x84 const STY_ZPX: u8 := 0x94 const STY_ABS: u8 := 0x8C
  const TAX_IMP: u8 := 0xAA const TAY_IMP: u8 := 0xA8 const TSX_IMP: u8 := 0xBA const TXA_IMP: u8 := 0x8A const TXS_IMP: u8 := 0x9A const TYA_IMP: u8 := 0x98
  const CLC_IMP: u8 := 0x18 const CLD_IMP: u8 := 0xD8 const CLI_IMP: u8 := 0x58 const CLV_IMP: u8 := 0xB8
  const SEC_IMP: u8 := 0x38 const SED_IMP: u8 := 0xF8 const SEI_IMP: u8 := 0x78
  const INC_ZPG: u8 := 0xE6 const INC_ZPX: u8 := 0xF6 const INC_ABS: u8 := 0xEE const INC_ABX: u8 := 0xFE const INX_IMP: u8 := 0xE8 const INY_IMP: u8 := 0xC8
  const DEC_ZPG: u8 := 0xC6 const DEC_ZPX: u8 := 0xD6 const DEC_ABS: u8 := 0xCE const DEC_ABX: u8 := 0xDE const DEX_IMP: u8 := 0xCA const DEY_IMP: u8 := 0x88
  const AND_IMM: u8 := 0x29 const AND_ZPG: u8 := 0x25 const AND_ZPX: u8 := 0x35 const AND_ABS: u8 := 0x2D const AND_ABX: u8 := 0x3D const AND_ABY: u8 := 0x39 const AND_IDX: u8 := 0x21 const AND_IDY: u8 := 0x31
  const EOR_IMM: u8 := 0x49 const EOR_ZPG: u8 := 0x45 const EOR_ZPX: u8 := 0x55 const EOR_ABS: u8 := 0x4D const EOR_ABX: u8 := 0x5D const EOR_ABY: u8 := 0x59 const EOR_IDX: u8 := 0x41 const EOR_IDY: u8 := 0x51
  const ORA_IMM: u8 := 0x09 const ORA_ZPG: u8 := 0x05 const ORA_ZPX: u8 := 0x15 const ORA_ABS: u8 := 0x0D const ORA_ABX: u8 := 0x1D const ORA_ABY: u8 := 0x19 const ORA_IDX: u8 := 0x01 const ORA_IDY: u8 := 0x11
  const ASL_ACC: u8 := 0x0A const ASL_ZPG: u8 := 0x06 const ASL_ZPX: u8 := 0x16 const ASL_ABS: u8 := 0x0E const ASL_ABX: u8 := 0x1E
  const LSR_ACC: u8 := 0x4A const LSR_ZPG: u8 := 0x46 const LSR_ZPX: u8 := 0x56 const LSR_ABS: u8 := 0x4E const LSR_ABX: u8 := 0x5E
  const ROL_ACC: u8 := 0x2A const ROL_ZPG: u8 := 0x26 const ROL_ZPX: u8 := 0x36 const ROL_ABS: u8 := 0x2E const ROL_ABX: u8 := 0x3E
  const ROR_ACC: u8 := 0x6A const ROR_ZPG: u8 := 0x66 const ROR_ZPX: u8 := 0x76 const ROR_ABS: u8 := 0x6E const ROR_ABX: u8 := 0x7E
  const ADC_IMM: u8 := 0x69 const ADC_ZPG: u8 := 0x65 const ADC_ZPX: u8 := 0x75 const ADC_ABS: u8 := 0x6D const ADC_ABX: u8 := 0x7D const ADC_ABY: u8 := 0x79 const ADC_IDX: u8 := 0x61 const ADC_IDY: u8 := 0x71
  const SBC_IMM: u8 := 0xE9 const SBC_ZPG: u8 := 0xE5 const SBC_ZPX: u8 := 0xF5 const SBC_ABS: u8 := 0xED const SBC_ABX: u8 := 0xFD const SBC_ABY: u8 := 0xF9 const SBC_IDX: u8 := 0xE1 const SBC_IDY: u8 := 0xF1
  const BIT_ZPG: u8 := 0x24 const BIT_ABS: u8 := 0x2C
  const CMP_IMM: u8 := 0xC9 const CMP_ZPG: u8 := 0xC5 const CMP_ZPX: u8 := 0xD5 const CMP_ABS: u8 := 0xCD const CMP_ABX: u8 := 0xDD const CMP_ABY: u8 := 0xD9 const CMP_IDX: u8 := 0xC1 const CMP_IDY: u8 := 0xD1
  const CPX_IMM: u8 := 0xE0 const CPX_ZPG: u8 := 0xE4 const CPX_ABS: u8 := 0xEC
  const CPY_IMM: u8 := 0xC0 const CPY_ZPG: u8 := 0xC4 const CPY_ABS: u8 := 0xCC
  const PHA_IMP: u8 := 0x48 const PHP_IMP: u8 := 0x08
  const PLA_IMP: u8 := 0x68 const PLP_IMP: u8 := 0x28
  const BCC_REL: u8 := 0x90 const BCS_REL: u8 := 0xB0 const BEQ_REL: u8 := 0xF0 const BMI_REL: u8 := 0x30 const BNE_REL: u8 := 0xD0 const BPL_REL: u8 := 0x10 const BVC_REL: u8 := 0x50 const BVS_REL: u8 := 0x70
  const JMP_ABS: u8 := 0x4C const JMP_IND: u8 := 0x6C
  const JSR_ABS: u8 := 0x20 const RTS_IMP: u8 := 0x60
  const BRK_IMP: u8 := 0x00 const RTI_IMP: u8 := 0x40
  const NOP_IMP: u8 := 0xEA
  

  /** The instruction groups the interpreter's `switch` distinguishes; every opcode
      without a `case` of its own falls to Illegal (the `default` branch). */
  datatype Instr =
    | LDA | LDX | LDY | STA | STX | STY
    | TAX | TAY | TSX | TXA | TXS | TYA
    | NOP | CLC | CLD | CLI | CLV | SEC | SED | SEI
    | INC | INX | INY | DEC | DEX | DEY
    | AND | EOR | ORA | ASL | LSR | ROL | ROR | ADC | SBC
    | BIT | CMP | CPX | CPY
    | JMP | PHA | PHP | PLA | PLP
    | BCC | BCS | BEQ | BMI | BNE | BPL | BVC | BVS
    | JSR | RTS
    | Illegal

  // Each table is written as its sixteen rows of sixteen entries, row `h` holding the
  // opcodes 0xh0..0xhF; the rows are joined pairwise, then in fours and eights, so that
  // an entry is reached through four concatenations.

  /** Addressing mode of each opcode. */
  const INSTR_GET_ADDR_MODE: seq<AddrMode> :=
    // -0                                                    -8
    (((([IMP, IDX, NUL, NUL, NUL, ZPG, ZPG, NUL, IMP, IMM, ACC, NUL, NUL, ABS, ABS, NUL]  // 0-
    + [REL, IDY, NUL, NUL, NUL, ZPX, ZPX, NUL, IMP, ABY, NUL, NUL, NUL, ABX, ABX, NUL])  // 1-
    + ([ABS, IDX, NUL, NUL, ZPG, ZPG, ZPG, NUL, IMP, IMM, ACC, NUL, ABS, ABS, ABS, NUL]  // 2-
    + [REL, IDY, NUL, NUL, NUL, ZPX, ZPX, NUL, IMP, ABY, NUL, NUL, NUL, ABX, ABX, NUL]))  // 3-
    + (([IMP, IDX, NUL, NUL, NUL, ZPG, ZPG, NUL, IMP, IMM, ACC, NUL, ABS, ABS, ABS, NUL]  // 4-
    + [REL, IDY, NUL, NUL, NUL, ZPX, ZPX, NUL, IMP, ABY, NUL, NUL, NUL, ABX, ABX, NUL])  // 5-
    + ([IMP, IDX, NUL, NUL, NUL, ZPG, ZPG, NUL, IMP, IMM, ACC, NUL, IND, ABS, ABS, NUL]  // 6-
    + [REL, IDY, NUL, NUL, NUL, ZPX, ZPX, NUL, IMP, ABY, NUL, NUL, NUL, ABX, ABX, NUL])))  // 7-
    + ((([NUL, IDX, NUL, NUL, ZPG, ZPG, ZPG, NUL, IMP, NUL, IMP, NUL, ABS, ABS, ABS, NUL]  // 8-
    + [REL, IDY, NUL, NUL, ZPX, ZPX, ZPY, NUL, IMP, ABY, IMP, NUL, NUL, ABX, NUL, NUL])  // 9-
    + ([IMM, IDX, IMM, NUL, ZPG, ZPG, ZPG, NUL, IMP, IMM, IMP, NUL, ABS, ABS, ABS, NUL]  // A-
    + [REL, IDY, NUL, NUL, ZPX, ZPX, ZPY, NUL, IMP, ABY, IMP, NUL, ABX, ABX, ABY, NUL]))  // B-
    + (([IMM, IDX, NUL, NUL, ZPG, ZPG, ZPG, NUL, IMP, IMM, IMP, NUL, ABS, ABS, ABS, NUL]  // C-
    + [REL, IDY, NUL, NUL, NUL, ZPX, ZPX, NUL, IMP, ABY, NUL, NUL, NUL, ABX, ABX, NUL])  // D-
    + ([IMM, IDX, NUL, NUL, ZPG, ZPG, ZPG, NUL, IMP, IMM, IMP, NUL, ABS, ABS, ABS, NUL]  // E-
    + [REL, IDY, NUL, NUL, NUL, ZPX, ZPX, NUL, IMP, ABY, NUL, NUL, NUL, ABX, ABX, NUL]))))  // F-

  /** Base number of cycles of each opcode (a page cross or a taken branch adds more). */
  const NUM_CYCLES_BASE: seq<u8> :=
    // -0                            -8
    (((([7, 6, 0, 0, 0, 3, 5, 0, 3, 2, 2, 0, 0, 4, 6, 0]  // 0-
    + [2, 5, 0, 0, 0, 4, 6, 0, 2, 4, 0, 0, 0, 4, 7, 0])  // 1-
    + ([6, 6, 0, 0, 3, 3, 5, 0, 4, 2, 2, 0, 4, 4, 6, 0]  // 2-
    + [2, 5, 0, 0, 0, 4, 6, 0, 2, 4, 0, 0, 0, 4, 7, 0]))  // 3-
    + (([6, 6, 0, 0, 0, 3, 5, 0, 3, 2, 2, 0, 3, 4, 6, 0]  // 4-
    + [2, 5, 0, 0, 0, 4, 6, 0, 2, 4, 0, 0, 0, 4, 7, 0])  // 5-
    + ([6, 6, 0, 0, 0, 3, 5, 0, 4, 2, 2, 0, 5, 4, 6, 0]  // 6-
    + [2, 5, 0, 0, 0, 4, 6, 0, 2, 4, 0, 0, 0, 4, 7, 0])))  // 7-
    + ((([0, 6, 0, 0, 3, 3, 3, 0, 2, 0, 2, 0, 4, 4, 4, 0]  // 8-
    + [2, 6, 0, 0, 4, 4, 4, 0, 2, 5, 2, 0, 0, 5, 0, 0])  // 9-
    + ([2, 6, 2, 0, 3, 3, 3, 0, 2, 2, 2, 0, 4, 4, 4, 0]  // A-
    + [2, 5, 0, 0, 4, 4, 4, 0, 2, 4, 2, 0, 4, 4, 4, 0]))  // B-
    + (([2, 6, 0, 0, 3, 3, 5, 0, 2, 2, 2, 0, 4, 4, 6, 0]  // C-
    + [2, 5, 0, 0, 0, 4, 6, 0, 2, 4, 0, 0, 0, 4, 7, 0])  // D-
    + ([2, 6, 0, 0, 3, 3, 5, 0, 2, 2, 2, 0, 4, 4, 6, 0]  // E-
    + [2, 5, 0, 0, 0, 4, 6, 0, 2, 4, 0, 0, 0, 4, 7, 0]))))  // F-

  /** Number of bytes by which PC advances after each opcode; 0 where the instruction
      sets PC itself (JMP, branches, JSR, RTS, and BRK and RTI). */
  const INSTR_BYTES: seq<u8> :=
    // -0                            -8
    (((([0, 2, 0, 0, 0, 2, 2, 0, 1, 2, 1, 0, 0, 3, 3, 0]  // 0-
    + [0, 2, 0, 0, 0, 2, 2, 0, 1, 3, 0, 0, 0, 3, 3, 0])  // 1-
    + ([0, 2, 0, 0, 2, 2, 2, 0, 1, 2, 1, 0, 3, 3, 3, 0]  // 2-
    + [0, 2, 0, 0, 0, 2, 2, 0, 1, 3, 0, 0, 0, 3, 3, 0]))  // 3-
    + (([0, 2, 0, 0, 0, 2, 2, 0, 1, 2, 1, 0, 0, 3, 3, 0]  // 4-
    + [0, 2, 0, 0, 0, 2, 2, 0, 1, 3, 0, 0, 0, 3, 3, 0])  // 5-
    + ([0, 2, 0, 0, 0, 2, 2, 0, 1, 2, 1, 0, 0, 3, 3, 0]  // 6-
    + [0, 2, 0, 0, 0, 2, 2, 0, 1, 3, 0, 0, 0, 3, 3, 0])))  // 7-
    + ((([0, 2, 0, 0, 2, 2, 2, 0, 1, 0, 1, 0, 3, 3, 3, 0]  // 8-
    + [0, 2, 0, 0, 2, 2, 2, 0, 1, 3, 1, 0, 0, 3, 0, 0])  // 9-
    + ([2, 2, 2, 0, 2, 2, 2, 0, 1, 2, 1, 0, 3, 3, 3, 0]  // A-
    + [0, 2, 0, 0, 2, 2, 2, 0, 1, 3, 1, 0, 3, 3, 3, 0]))  // B-
    + (([2, 2, 0, 0, 2, 2, 2, 0, 1, 2, 1, 0, 3, 3, 3, 0]  // C-
    + [0, 2, 0, 0, 0, 2, 2, 0, 1, 3, 0, 0, 0, 3, 3, 0])  // D-
    + ([2, 2, 0, 0, 2, 2, 2, 0, 1, 2, 1, 0, 3, 3, 3, 0]  // E-
    + [0, 2, 0, 0, 0, 2, 2, 0, 1, 3, 0, 0, 0, 3, 3, 0]))))  // F-

  /** The case labels of the interpreter's `switch`, grouped by the code they run. */
  function Decode(op: u8): Instr
  {
    if op == LDA_IMM || op == LDA_ZPG || op == LDA_ZPX || op == LDA_ABS || op == LDA_ABX ||
        op == LDA_ABY || op == LDA_IDX || op == LDA_IDY then LDA
    else if op == LDX_IMM || op == LDX_ZPG || op == LDX_ZPY || op == LDX_ABS ||
               op == LDX_ABY then LDX
    else if op == LDY_IMM || op == LDY_ZPG || op == LDY_ZPX || op == LDY_ABS ||
               op == LDY_ABX then LDY
    else if op == STA_ZPG || op == STA_ZPX || op == STA_ABS || op == STA_ABX ||
               op == STA_ABY || op == STA_IDX || op == STA_IDY then STA
    else if op == STX_ZPG || op == STX_ZPY || op == STX_ABS then STX
    else if op == STY_ZPG || op == STY_ZPX || op == STY_ABS then STY
    else if op == TAX_IMP then TAX
    else if op == TAY_IMP then TAY
    else if op == TSX_IMP then TSX
    else if op == TXA_IMP then TXA
    else if op == TXS_IMP then TXS
    else if op == TYA_IMP then TYA
    else if op == NOP_IMP then NOP
    else if op == CLC_IMP then CLC
    else if op == CLD_IMP then CLD
    else if op == CLI_IMP then CLI
    else if op == CLV_IMP then CLV
    else if op == SEC_IMP then SEC
    else if op == SED_IMP then SED
    else if op == SEI_IMP then SEI
    else if op == INC_ZPG || op == INC_ZPX || op == INC_ABS || op == INC_ABX then INC
    else if op == INX_IMP then INX
    else if op == INY_IMP then INY
    else if op == DEC_ZPG || op == DEC_ZPX || op == DEC_ABS || op == DEC_ABX then DEC
    else if op == DEX_IMP then DEX
    else if op == DEY_IMP then DEY
    else if op == AND_ZPG || op == AND_IMM || op == AND_ZPX || op == AND_ABS ||
               op == AND_ABX || op == AND_ABY || op == AND_IDX || op == AND_IDY then AND
    else if op == EOR_IMM || op == EOR_ZPG || op == EOR_ZPX || op == EOR_ABS ||
               op == EOR_ABX || op == EOR_ABY || op == EOR_IDX || op == EOR_IDY then EOR
    else if op == ORA_IMM || op == ORA_ZPG || op == ORA_ZPX || op == ORA_ABS ||
               op == ORA_ABX || op == ORA_ABY || op == ORA_IDX || op == ORA_IDY then ORA
    else if op == ASL_ACC || op == ASL_ZPG || op == ASL_ZPX || op == ASL_ABS ||
               op == ASL_ABX then ASL
    else if op == LSR_ACC || op == LSR_ZPG || op == LSR_ZPX || op == LSR_ABS ||
               op == LSR_ABX then LSR
    else if op == ROL_ACC || op == ROL_ZPG || op == ROL_ZPX || op == ROL_ABS ||
               op == ROL_ABX then ROL
    else if op == ROR_ACC || op == ROR_ZPG || op == ROR_ZPX || op == ROR_ABS ||
               op == ROR_ABX then ROR
    else if op == ADC_IMM || op == ADC_ZPG || op == ADC_ZPX || op == ADC_ABS ||
               op == ADC_ABX || op == ADC_ABY || op == ADC_IDX || op == ADC_IDY then ADC
    else if op == SBC_IMM || op == SBC_ZPG || op == SBC_ZPX || op == SBC_ABS ||
               op == SBC_ABX || op == SBC_ABY || op == SBC_IDX || op == SBC_IDY then SBC
    else if op == BIT_ZPG || op == BIT_ABS then BIT
    else if op == CMP_IMM || op == CMP_ZPG || op == CMP_ZPX || op == CMP_ABS ||
               op == CMP_ABX || op == CMP_ABY || op == CMP_IDX || op == CMP_IDY then CMP
    else if op == CPX_IMM || op == CPX_ZPG || op == CPX_ABS then CPX
    else if op == CPY_IMM || op == CPY_ZPG || op == CPY_ABS then CPY
    else if op == JMP_ABS || op == JMP_IND then JMP
    else if op == PHA_IMP then PHA
    else if op == PHP_IMP then PHP
    else if op == PLA_IMP then PLA
    else if op == PLP_IMP then PLP
    else if op == BCC_REL then BCC
    else if op == BCS_REL then BCS
    else if op == BEQ_REL then BEQ
    else if op == BMI_REL then BMI
    else if op == BNE_REL then BNE
    else if op == BPL_REL then BPL
    else if op == BVC_REL then BVC
    else if op == BVS_REL then BVS
    else if op == JSR_ABS then JSR
    else if op == RTS_IMP then RTS
    else Illegal
  }

  /** Every opcode the `switch` handles costs between 2 and 7 base cycles, so every
      handled instruction consumes budget, and advances PC by at most 3 bytes. */
  lemma HandledOpcodeTables(op: u8)
    requires Decode(op) != Illegal
    ensures 2 <= NUM_CYCLES_BASE[op] <= 7
    ensures INSTR_BYTES[op] <= 3
  {
    var ins := Decode(op);
    if ins in {LDA, LDX, LDY, STA, STX, STY, TAX, TAY, TSX, TXA, TXS, TYA, NOP, CLC, CLD, CLI, CLV, SEC, SED, SEI} {
      DataOpcodeTables(op);
    } else if ins in {INC, INX, INY, DEC, DEX, DEY, AND, EOR, ORA, BIT} {
      LogicOpcodeTables(op);
    } else if ins in {ASL, LSR, ROL, ROR, ADC, SBC, CMP, CPX, CPY} {
      ArithOpcodeTables(op);
    } else if ins in {PHA, PHP, PLA, PLP} {
      StackOpcodeTables(op);
    } else {
      JumpOpcodeTables(op);
    }
  }

  lemma DataOpcodeTables(op: u8)
    requires Decode(op) in {LDA, LDX, LDY, STA, STX, STY, TAX, TAY, TSX, TXA, TXS, TYA, NOP, CLC, CLD, CLI, CLV, SEC, SED, SEI}
    ensures 2 <= NUM_CYCLES_BASE[op] <= 7 && INSTR_BYTES[op] <= 3
  {
    match Decode(op)
    case LDA | LDX | LDY => LoadsTables(op);
    case STA | STX | STY => StoresTables(op);
    case TAX | TAY | TSX | TXA | TXS | TYA | NOP | CLC | CLD | CLI | CLV | SEC | SED | SEI => ImpliedTables(op);
  }

  lemma LogicOpcodeTables(op: u8)
    requires Decode(op) in {INC, INX, INY, DEC, DEX, DEY, AND, EOR, ORA, BIT}
    ensures 2 <= NUM_CYCLES_BASE[op] <= 7 && INSTR_BYTES[op] <= 3
  {
    match Decode(op)
    case INC | INX | INY | DEC | DEX | DEY => IncDecTables(op);
    case AND | EOR => AndEorTables(op);
    case ORA | BIT => OraBitTables(op);
  }

  lemma ArithOpcodeTables(op: u8)
    requires Decode(op) in {ASL, LSR, ROL, ROR, ADC, SBC, CMP, CPX, CPY}
    ensures 2 <= NUM_CYCLES_BASE[op] <= 7 && INSTR_BYTES[op] <= 3
  {
    match Decode(op)
    case ASL | LSR | ROL | ROR => ShiftsTables(op);
    case ADC | SBC => AddSubTables(op);
    case CMP | CPX | CPY => ComparesTables(op);
  }

  lemma StackOpcodeTables(op: u8)
    requires Decode(op) in {PHA, PHP, PLA, PLP}
    ensures 2 <= NUM_CYCLES_BASE[op] <= 7 && INSTR_BYTES[op] <= 3
  {
    StackTables(op);
  }

  lemma JumpOpcodeTables(op: u8)
    requires Decode(op) in {JMP, BCC, BCS, BEQ, BMI, BNE, BPL, BVC, BVS, JSR, RTS}
    ensures 2 <= NUM_CYCLES_BASE[op] <= 7 && INSTR_BYTES[op] <= 3
  {
    JumpsTables(op);
  }

  /** INC and DEC only come with memory modes, so `inc_dec` never needs a register for them. */
  lemma IncDecModes(op: u8)
    ensures Decode(op) in {INC, DEC} ==> INSTR_GET_ADDR_MODE[op] in {ZPG, ZPX, ABS, ABX}
  {
  }

  /** Table entries of LDA, LDX and LDY. */
  lemma LoadsTables(op: u8)
    requires op in {LDA_IMM, LDA_ZPG, LDA_ZPX, LDA_ABS, LDA_ABX, LDA_ABY, LDA_IDX, LDA_IDY, LDX_IMM, LDX_ZPG, LDX_ZPY, LDX_ABS, LDX_ABY, LDY_IMM, LDY_ZPG, LDY_ZPX, LDY_ABS, LDY_ABX}
    ensures 2 <= NUM_CYCLES_BASE[op] <= 7
    ensures 1 <= INSTR_BYTES[op] <= 3
  {
  }

  /** Table entries of STA, STX and STY. */
  lemma StoresTables(op: u8)
    requires op in {STA_ZPG, STA_ZPX, STA_ABS, STA_ABX, STA_ABY, STA_IDX, STA_IDY, STX_ZPG, STX_ZPY, STX_ABS, STY_ZPG, STY_ZPX, STY_ABS}
    ensures 2 <= NUM_CYCLES_BASE[op] <= 7
    ensures 1 <= INSTR_BYTES[op] <= 3
  {
  }

  /** Table entries of the transfers, NOP and the flag instructions. */
  lemma ImpliedTables(op: u8)
    requires op in {TAX_IMP, TAY_IMP, TSX_IMP, TXA_IMP, TXS_IMP, TYA_IMP, NOP_IMP, CLC_IMP, CLD_IMP, CLI_IMP, CLV_IMP, SEC_IMP, SED_IMP, SEI_IMP}
    ensures 2 <= NUM_CYCLES_BASE[op] <= 7
    ensures 1 <= INSTR_BYTES[op] <= 3
  {
  }

  /** Table entries of INC, INX, INY, DEC, DEX and DEY. */
  lemma IncDecTables(op: u8)
    requires op in {INC_ZPG, INC_ZPX, INC_ABS, INC_ABX, INX_IMP, INY_IMP, DEC_ZPG, DEC_ZPX, DEC_ABS, DEC_ABX, DEX_IMP, DEY_IMP}
    ensures 2 <= NUM_CYCLES_BASE[op] <= 7
    ensures 1 <= INSTR_BYTES[op] <= 3
  {
  }

  /** Table entries of AND and EOR. */
  lemma AndEorTables(op: u8)
    requires op in {AND_ZPG, AND_IMM, AND_ZPX, AND_ABS, AND_ABX, AND_ABY, AND_IDX, AND_IDY, EOR_IMM, EOR_ZPG, EOR_ZPX, EOR_ABS, EOR_ABX, EOR_ABY, EOR_IDX, EOR_IDY}
    ensures 2 <= NUM_CYCLES_BASE[op] <= 7
    ensures 1 <= INSTR_BYTES[op] <= 3
  {
  }

  /** Table entries of ORA and BIT. */
  lemma OraBitTables(op: u8)
    requires op in {ORA_IMM, ORA_ZPG, ORA_ZPX, ORA_ABS, ORA_ABX, ORA_ABY, ORA_IDX, ORA_IDY, BIT_ZPG, BIT_ABS}
    ensures 2 <= NUM_CYCLES_BASE[op] <= 7
    ensures 1 <= INSTR_BYTES[op] <= 3
  {
  }

  /** Table entries of the shifts and rotates. */
  lemma ShiftsTables(op: u8)
    requires op in {ASL_ACC, ASL_ZPG, ASL_ZPX, ASL_ABS, ASL_ABX, LSR_ACC, LSR_ZPG, LSR_ZPX, LSR_ABS, LSR_ABX, ROL_ACC, ROL_ZPG, ROL_ZPX, ROL_ABS, ROL_ABX, ROR_ACC, ROR_ZPG, ROR_ZPX, ROR_ABS, ROR_ABX}
    ensures 2 <= NUM_CYCLES_BASE[op] <= 7
    ensures 1 <= INSTR_BYTES[op] <= 3
  {
  }

  /** Table entries of ADC and SBC. */
  lemma AddSubTables(op: u8)
    requires op in {ADC_IMM, ADC_ZPG, ADC_ZPX, ADC_ABS, ADC_ABX, ADC_ABY, ADC_IDX, ADC_IDY, SBC_IMM, SBC_ZPG, SBC_ZPX, SBC_ABS, SBC_ABX, SBC_ABY, SBC_IDX, SBC_IDY}
    ensures 2 <= NUM_CYCLES_BASE[op] <= 7
    ensures 1 <= INSTR_BYTES[op] <= 3
  {
  }

  /** Table entries of CMP, CPX and CPY. */
  lemma ComparesTables(op: u8)
    requires op in {CMP_IMM, CMP_ZPG, CMP_ZPX, CMP_ABS, CMP_ABX, CMP_ABY, CMP_IDX, CMP_IDY, CPX_IMM, CPX_ZPG, CPX_ABS, CPY_IMM, CPY_ZPG, CPY_ABS}
    ensures 2 <= NUM_CYCLES_BASE[op] <= 7
    ensures 1 <= INSTR_BYTES[op] <= 3
  {
  }

  /** Table entries of PHA, PHP, PLA and PLP. */
  lemma StackTables(op: u8)
    requires op in {PHA_IMP, PHP_IMP, PLA_IMP, PLP_IMP}
    ensures 2 <= NUM_CYCLES_BASE[op] <= 7
    ensures 1 <= INSTR_BYTES[op] <= 3
  {
  }

  /** Table entries of JMP, the branches, JSR and RTS. */
  lemma JumpsTables(op: u8)
    requires op in {JMP_ABS, JMP_IND, BCC_REL, BCS_REL, BEQ_REL, BMI_REL, BNE_REL, BPL_REL, BVC_REL, BVS_REL, JSR_ABS, RTS_IMP}
    ensures 2 <= NUM_CYCLES_BASE[op] <= 7
    ensures INSTR_BYTES[op] == 0
  {
  }

  /** The branches are two-byte REL instructions of 2 base cycles that leave PC to
      `branch`. */
  lemma BranchTables(op: u8)
    requires op in {BCC_REL, BCS_REL, BEQ_REL, BMI_REL, BNE_REL, BPL_REL, BVC_REL, BVS_REL}
    ensures INSTR_GET_ADDR_MODE[op] == REL && NUM_CYCLES_BASE[op] == 2 && INSTR_BYTES[op] == 0
  {
  }

  /** JMP (indirect): mode IND, 5 cycles, PC left to the instruction. */
  lemma JmpIndirectEntry()
    ensures Decode(JMP_IND) == JMP
    ensures INSTR_GET_ADDR_MODE[JMP_IND] == IND && NUM_CYCLES_BASE[JMP_IND] == 5
    ensures INSTR_BYTES[JMP_IND] == 0
  {
  }

  /** JSR: mode ABS, 6 cycles, PC left to the instruction. */
  lemma JsrEntry()
    ensures Decode(JSR_ABS) == JSR
    ensures INSTR_GET_ADDR_MODE[JSR_ABS] == ABS && NUM_CYCLES_BASE[JSR_ABS] == 6
    ensures INSTR_BYTES[JSR_ABS] == 0
  {
  }

  /** RTS: mode IMP, 6 cycles, PC left to the instruction. */
  lemma RtsEntry()
    ensures Decode(RTS_IMP) == RTS
    ensures INSTR_GET_ADDR_MODE[RTS_IMP] == IMP && NUM_CYCLES_BASE[RTS_IMP] == 6
    ensures INSTR_BYTES[RTS_IMP] == 0
  {
  }

  /** NOP: mode IMP, 2 cycles, one byte. */
  lemma NopEntry()
    ensures Decode(NOP_IMP) == NOP
    ensures INSTR_GET_ADDR_MODE[NOP_IMP] == IMP && NUM_CYCLES_BASE[NOP_IMP] == 2
    ensures INSTR_BYTES[NOP_IMP] == 1
  {
  }

  /** BRK (0x00), RTI (0x40) and 0xFF have no `case` and reach the `default` branch. */
  lemma UnhandledOpcodes()
    ensures Decode(BRK_IMP) == Illegal && Decode(RTI_IMP) == Illegal && Decode(0xFF) == Illegal
    ensures INSTR_BYTES[BRK_IMP] == 0 && INSTR_BYTES[RTI_IMP] == 0
  {
  }
}
