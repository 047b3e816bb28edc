/** src/instructions/JIZ.py: the jump if ZERO is set, written out on its own. */
module Jiz {
  import opened Types
  import opened Enums
  import opened Registry
  import opened CoreState
  import Cjmp

  const Definitions := [Instruction(0x11, "JIZ", JizExec, 3)]

  function Comb(s: Regs, d: Word): Signals
  {
    if FlagOf(s.flags, ZERO) then
      if s.instrState == 2 then EndAt(d) else Quiet
    else EndAt(s.ip + 3)
  }

  function Sync(s: Regs, base: Regs): Regs
  {
    if FlagOf(s.flags, ZERO) && s.instrState != 2 then Advance(s, base, 2) else base
  }

  method Exec(core: Core, s: Regs)
    modifies core
    ensures core.Snapshot() == Sync(s, old(core.Snapshot()))
  {
    if FlagOf(s.flags, ZERO) && s.instrState != 2 {
      core.AdvanceIpGotoState(s, 2);
    }
  }

  /** JIZ behaves exactly as the ZERO-flag, non-inverted variant of the conditional jump, and
      registers the same opcode and name as it. */
  lemma MatchesCjmp(s: Regs, d: Word, base: Regs)
    ensures Comb(s, d) == Cjmp.Comb(s, d, ZERO, false)
    ensures Sync(s, base) == Cjmp.Sync(s, ZERO, false, base)
    ensures Definitions[0].opcode == Cjmp.Definitions[0].opcode
    ensures Definitions[0].name == Cjmp.Definitions[0].name
  {
  }
}
