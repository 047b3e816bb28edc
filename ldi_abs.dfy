/** src/instructions/LDI_ABS.py: load the word after the opcode into RA, RB or RX. */
module LdiAbs {
  import opened Types
  import opened Enums
  import opened Registry
  import opened CoreState

  const Definitions := [
    Instruction(0x20, "LDA_ABS", LdiAbsExec(RA), 2),
    Instruction(0x21, "LDB_ABS", LdiAbsExec(RB), 2),
    Instruction(0x22, "LDX_ABS", LdiAbsExec(RX), 2)
  ]

  /** The flag writes of a load: NEGATIVE from `data_in < 0`, which an unsigned bus never
      satisfies, then ZERO from `data_in == 0`. */
  function LoadFlags(flags: bv8, d: Word): bv8
  {
    WithFlag(WithFlag(flags, NEGATIVE, d < 0), ZERO, d == 0)
  }

  function Comb(s: Regs): Signals
  {
    if s.instrState == 1 then Quiet else EndAt(s.ip + 1)
  }

  /** State 1 steps to the operand; any later state loads the bus into the register. */
  function Sync(s: Regs, d: Word, r: Reg, base: Regs): Regs
  {
    if s.instrState == 1 then Advance(s, base, 2)
    else WithReg(base, r, ToSigned(d)).(flags := LoadFlags(base.flags, d))
  }

  method Exec(core: Core, s: Regs, d: Word, r: Reg)
    modifies core
    ensures core.Snapshot() == Sync(s, d, r, old(core.Snapshot()))
  {
    if s.instrState == 1 {
      core.AdvanceIpGotoState(s, 2);
    } else {
      core.SetReg(r, ToSigned(d));
      core.flags := LoadFlags(core.flags, d);
    }
  }

  /** A load sets ZERO exactly for a zero word, always clears NEGATIVE, and keeps the other
      flag bits. */
  lemma LoadFlagsRule(flags: bv8, d: Word)
    ensures FlagOf(LoadFlags(flags, d), ZERO) <==> d == 0
    ensures !FlagOf(LoadFlags(flags, d), NEGATIVE)
    ensures forall f: Flag | f != ZERO && f != NEGATIVE :: FlagOf(LoadFlags(flags, d), f) == FlagOf(flags, f)
  {
  }
}
