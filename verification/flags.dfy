/** The status register SR and its flag helpers (`get_flag_*`, `set_flag_*` and
    `set_ZN_flags` of include/mos6502.hpp). */
module Flags {

  import opened Bits

  /** The seven flags of SR; bit 5 is not used and holds no flag. */
  datatype Flag = Carry | Zero | IrqDisable | Decimal | Break | Overflow | Negative

  /** The bit of SR that holds each flag; its mask FLAG_MASK_x is 2 to that power. */
  function Index(f: Flag): (k: nat)
    ensures k < 8 && k != 5
  {
    match f
    case Carry => 0
    case Zero => 1
    case IrqDisable => 2
    case Decimal => 3
    case Break => 4
    case Overflow => 6
    case Negative => 7
  }

  /** The unused bit 5, set in FLAG_INIT. */
  const FLAG_MASK_NOT_USED: u8 := 0x20
  const FLAG_INIT: u8 := FLAG_MASK_NOT_USED

  /** `get_flag_x`: `(SR & MASK) != 0`, the flag's bit is set. */
  predicate GetFlag(sr: u8, f: Flag)
  {
    BitOf(sr, Index(f)) == 1
  }

  /** `set_flag_x(v)`: `(SR & ~MASK) + v * MASK`. The flag reads `v` afterwards; the
      other bits are kept (SetFlagOthers). */
  function SetFlag(sr: u8, f: Flag, v: bool): (r: u8)
    ensures GetFlag(r, f) == v
  {
    var b := if v then 1 else 0;
    SetBitBound(sr, Index(f), b, 8);
    SetBitGet(sr, Index(f), b);
    SetBit(sr, Index(f), b)
  }

  /** `set_flag_x` keeps every bit of SR other than its own, the unused bit 5 included. */
  lemma SetFlagOthers(sr: u8, f: Flag, v: bool)
    ensures forall j :: 0 <= j < 8 && j != Index(f) ==> BitOf(SetFlag(sr, f, v), j) == BitOf(sr, j)
  {
    forall j | 0 <= j < 8 && j != Index(f)
      ensures BitOf(SetFlag(sr, f, v), j) == BitOf(sr, j)
    {
      SetBitOther(sr, Index(f), if v then 1 else 0, j);
    }
  }

  /** `set_ZN_flags(val)`: Z records whether `val` is zero and N copies its bit 7; the
      other bits are kept (SetZNOthers). */
  function SetZN(sr: u8, val: u8): (r: u8)
    ensures GetFlag(r, Zero) <==> val == 0
    ensures GetFlag(r, Negative) <==> SignBit(val)
  {
    var r1 := SetFlag(sr, Zero, val == 0);
    SetFlagOthers(r1, Negative, SignBit(val));
    SetFlag(r1, Negative, SignBit(val))
  }

  /** `set_ZN_flags` keeps every bit of SR other than Z (bit 1) and N (bit 7). */
  lemma SetZNOthers(sr: u8, val: u8)
    ensures forall j :: 0 <= j < 8 && j != 1 && j != 7 ==> BitOf(SetZN(sr, val), j) == BitOf(sr, j)
  {
    var r1 := SetFlag(sr, Zero, val == 0);
    SetFlagOthers(sr, Zero, val == 0);
    SetFlagOthers(r1, Negative, SignBit(val));
  }
}
