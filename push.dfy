/** src/instructions/PUSH.py: push the memory word whose address follows the opcode. The
    stack unit that would serve the request is not part of the core, so the request is an
    output of the cycle. */
module Push {
  import opened Types
  import opened Registry
  import opened CoreState

  const Definitions := [Instruction(0xA0, "PUSH", PushExec, 2)]

  /** State 3 requests a push of the word on the bus; state 4 commits to the next word. */
  function Comb(s: Regs, d: Word): Signals
  {
    if s.instrState == 3 then Signals(None, None, Some(PushRequest(d)))
    else if s.instrState == 4 then EndAt(s.ip + 1)
    else Quiet
  }

  function Sync(s: Regs, d: Word, base: Regs): Regs
  {
    if s.instrState == 1 then Advance(s, base, 2)
    else if s.instrState == 2 then base.(addr := d, instrState := 3)
    else if s.instrState == 3 then base.(instrState := 4)
    else if s.instrState == 4 then base.(rw := true, dataOut := 0)
    else base
  }

  method Exec(core: Core, s: Regs, d: Word)
    modifies core
    ensures core.Snapshot() == Sync(s, d, old(core.Snapshot()))
  {
    if s.instrState == 1 {
      core.AdvanceIpGotoState(s, 2);
    } else if s.instrState == 2 {
      core.addr := d;
      core.instrState := 3;
    } else if s.instrState == 3 {
      core.instrState := 4;
    } else if s.instrState == 4 {
      core.rw := true;
      core.dataOut := 0;
    }
  }
}
