/** src/instructions/RET.py: pop the return address and jump to it. */
module Ret {
  import opened Types
  import opened Registry
  import opened CoreState

  const Definitions := [Instruction(0xB5, "RET", RetExec, 1)]

  /** State 1 requests a pop; state 2 commits to the word on the bus. */
  function Comb(s: Regs, d: Word): Signals
  {
    if s.instrState == 1 then Signals(None, None, Some(PopRequest))
    else if s.instrState == 2 then EndAt(d)
    else Quiet
  }

  function Sync(s: Regs, base: Regs): Regs
  {
    if s.instrState == 1 then base.(instrState := 2) else base
  }

  method Exec(core: Core, s: Regs)
    modifies core
    ensures core.Snapshot() == Sync(s, old(core.Snapshot()))
  {
    if s.instrState == 1 {
      core.instrState := 2;
    }
  }
}
