/** src/instructions/JMP.py: the unconditional jump to the word after the opcode. */
module Jmp {
  import opened Types
  import opened Registry
  import opened CoreState

  const Definitions := [Instruction(0x10, "JMP", JmpExec, 3)]

  /** State 2 commits to the word on the bus. */
  function Comb(s: Regs, d: Word): Signals
  {
    if s.instrState == 2 then EndAt(d) else Quiet
  }

  /** Every other state steps to the operand word and enters state 2. */
  function Sync(s: Regs, base: Regs): Regs
  {
    if s.instrState == 2 then base else Advance(s, base, 2)
  }

  method Exec(core: Core, s: Regs)
    modifies core
    ensures core.Snapshot() == Sync(s, old(core.Snapshot()))
  {
    if s.instrState != 2 {
      core.AdvanceIpGotoState(s, 2);
    }
  }
}
