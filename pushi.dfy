/** src/instructions/PUSHI.py: push RA, RB or RX. */
module Pushi {
  import opened Types
  import opened Registry
  import opened CoreState

  const Definitions := [
    Instruction(0xA1, "PUSHA", PushiExec(RA)),
    Instruction(0xA2, "PUSHB", PushiExec(RB)),
    Instruction(0xA3, "PUSHX", PushiExec(RX))
  ]

  /** State 1 requests a push of the register; state 2 commits to the next word. */
  function Comb(s: Regs, r: Reg): Signals
  {
    if s.instrState == 1 then Signals(None, None, Some(PushRequest(RegValue(s, r))))
    else if s.instrState == 2 then EndAt(s.ip + 1)
    else Quiet
  }

  function Sync(s: Regs, base: Regs): Regs
  {
    if s.instrState == 1 then base.(instrState := 2)
    else if s.instrState == 2 then base.(rw := true, dataOut := 0)
    else base
  }

  method Exec(core: Core, s: Regs)
    modifies core
    ensures core.Snapshot() == Sync(s, old(core.Snapshot()))
  {
    if s.instrState == 1 {
      core.instrState := 2;
    } else if s.instrState == 2 {
      core.rw := true;
      core.dataOut := 0;
    }
  }
}
