/** Properties of the addressing-mode resolvers and of the page-cross penalty. */
module AddressingProperties {

  import opened Bits
  import opened Opcodes
  import opened Semantics

  /** Zero-page indexed addressing adds the index modulo 256, so the effective
      address never leaves page 0; it equals operand + index exactly when that sum
      is below 256. */
  lemma ZeroPageIndexedWraps(m: Machine)
    ensures HighByte(ZeroPageX(m).addr) == 0 && HighByte(ZeroPageY(m).addr) == 0
    ensures ZeroPageX(m).addr == Fetch(m, 1) + m.X <==> Fetch(m, 1) + m.X < 256
    ensures ZeroPageY(m).addr == Fetch(m, 1) + m.Y <==> Fetch(m, 1) + m.Y < 256
    ensures Fetch(m, 1) + m.X >= 256 ==> ZeroPageX(m).addr == Fetch(m, 1) + m.X - 256
    ensures Fetch(m, 1) + m.Y >= 256 ==> ZeroPageY(m).addr == Fetch(m, 1) + m.Y - 256
  {
  }

  /** Indexed-indirect addressing reads both pointer bytes from page 0: the high byte
      comes from the address after the low byte's, modulo 256, so a pointer at 0xFF
      takes its high byte from 0x00. */
  lemma IndexedIndirectPointerInPageZero(m: Machine)
    ensures var p := (Fetch(m, 1) + m.X) % 256;
      IndexedIndirect(m).addr == B2W(m.ram[p], m.ram[(p + 1) % 256])
    ensures (Fetch(m, 1) + m.X) % 256 == 0xFF ==>
      IndexedIndirect(m).addr == B2W(m.ram[0xFF], m.ram[0x00])
  {
    var z := Fetch(m, 1);
    assert (z + m.X + 1) % 256 == ((z + m.X) % 256 + 1) % 256;
  }

  /** The 6502 page bug: with a pointer whose low byte is 0xFF, the 6502 reads the
      target's high byte from offset 0x00 of the pointer's own page, the 65SC02 from
      the next page. */
  lemma IndirectPageBug(m: Machine)
    requires Fetch(m, 1) == 0xFF
    ensures var high := Fetch(m, 2);
      Indirect(m, Model6502).addr == B2W(m.ram[B2W(0xFF, high)], m.ram[B2W(0x00, high)])
    ensures var high := Fetch(m, 2);
      Indirect(m, Model65SC02).addr
        == B2W(m.ram[B2W(0xFF, high)], m.ram[B2W(0x00, (high + 1) % 256)])
  {
  }

  /** The indirect-JMP test at the page boundary: the pointer 0x12FF leads the 6502 to
      0xEE04 (high byte from 0x1200) and the 65SC02 to 0x4004 (high byte from 0x1300). */
  lemma IndirectBoundaryExample(m: Machine)
    requires m.PC == RESET_START
    requires m.ram[RESET_START + 1] == 0xFF && m.ram[RESET_START + 2] == 0x12
    requires m.ram[0x1200] == 0xEE && m.ram[0x12FF] == 0x04 && m.ram[0x1300] == 0x40
    ensures Indirect(m, Model6502).addr == 0xEE04
    ensures Indirect(m, Model65SC02).addr == 0x4004
  {
    IndirectPageBug(m);
  }

  /** Away from a page boundary both models read the pointer's two consecutive bytes. */
  lemma IndirectModelsAgree(m: Machine)
    requires Fetch(m, 1) != 0xFF
    ensures Indirect(m, Model6502) == Indirect(m, Model65SC02)
    ensures var ptr := B2W(Fetch(m, 1), Fetch(m, 2));
      Indirect(m, Model6502).addr == B2W(m.ram[ptr], m.ram[ptr + 1])
  {
    var low, high := Fetch(m, 1), Fetch(m, 2);
    assert (low + 1) % 256 == low + 1;
    assert B2W((low + 1) % 256, high) == B2W(low, high) + 1;
  }

  /** `addr - offset` modulo 2^16 gives back the address before indexing. */
  lemma UnIndex(base: u16, offset: u8)
    ensures ((base + offset) % MEM_MAX - offset) % MEM_MAX == base
  {
    if base + offset >= MEM_MAX {
      assert (base + offset) % MEM_MAX == base + offset - MEM_MAX;
    }
  }

  /** In mode ABX the page-cross penalty is 1 exactly when adding X to the absolute
      address changes the page. */
  lemma PagePenaltyAbsoluteX(m: Machine)
    ensures var base := B2W(Fetch(m, 1), Fetch(m, 2));
      var avo := AbsoluteX(m);
      PagePenalty(ABX, avo) == if OnDifferentPages(avo.addr, base) then 1 else 0
  {
    var base := B2W(Fetch(m, 1), Fetch(m, 2));
    var avo := AbsoluteX(m);
    UnIndex(base, m.X);
    assert (avo.addr - avo.offset) % MEM_MAX == base;
  }

  /** The same for mode ABY, indexed by Y. */
  lemma PagePenaltyAbsoluteY(m: Machine)
    ensures var base := B2W(Fetch(m, 1), Fetch(m, 2));
      var avo := AbsoluteY(m);
      PagePenalty(ABY, avo) == if OnDifferentPages(avo.addr, base) then 1 else 0
  {
    var base := B2W(Fetch(m, 1), Fetch(m, 2));
    var avo := AbsoluteY(m);
    UnIndex(base, m.Y);
    assert (avo.addr - avo.offset) % MEM_MAX == base;
  }

  /** In mode IDY the penalty is 1 exactly when adding Y to the pointer read from page 0
      changes the page. */
  lemma PagePenaltyIndirectIndexed(m: Machine)
    ensures var zp := Fetch(m, 1);
      var base := B2W(m.ram[zp], m.ram[(zp + 1) % 256]);
      var avo := IndirectIndexed(m);
      PagePenalty(IDY, avo) == if OnDifferentPages(avo.addr, base) then 1 else 0
  {
    var zp: int := Fetch(m, 1);
    var base := B2W(m.ram[zp], m.ram[(zp + 1) % 256]);
    UnIndex(base, m.Y);
  }

  /** No other mode is ever charged the penalty. */
  lemma NoPagePenaltyElsewhere(mode: AddrMode, avo: Avo)
    requires mode !in {ABX, ABY, IDY}
    ensures PagePenalty(mode, avo) == 0
  {
  }
}
