/** src/instructions/POP.py: pop a word and store it at the address that follows the opcode.
    The popped word is whatever `data_in` carries in the cycle after the request. */
module Pop {
  import opened Types
  import opened Registry
  import opened CoreState

  const Definitions := [Instruction(0xB0, "POP", PopExec, 2)]

  /** State 1 requests a pop; state 4 commits to the next word. */
  function Comb(s: Regs): Signals
  {
    if s.instrState == 1 then Signals(None, None, Some(PopRequest))
    else if s.instrState == 4 then EndAt(s.ip + 1)
    else Quiet
  }

  /** State 2 latches the bus into `tmp32` and steps to the operand, state 3 points `addr` at
      it and drives `tmp32` onto `data_out` with `RW` low, state 4 clears up. */
  function Sync(s: Regs, d: Word, base: Regs): Regs
  {
    if s.instrState == 1 then base.(instrState := 2)
    else if s.instrState == 2 then Advance(s, base.(tmp32 := d), 3)
    else if s.instrState == 3 then base.(addr := d, dataOut := s.tmp32, instrState := 4, rw := false)
    else if s.instrState == 4 then base.(rw := true, tmp32 := 0, dataOut := 0)
    else base
  }

  method Exec(core: Core, s: Regs, d: Word)
    modifies core
    ensures core.Snapshot() == Sync(s, d, old(core.Snapshot()))
  {
    if s.instrState == 1 {
      core.instrState := 2;
    } else if s.instrState == 2 {
      core.tmp32 := d;
      core.AdvanceIpGotoState(s, 3);
    } else if s.instrState == 3 {
      core.addr := d;
      core.dataOut := s.tmp32;
      core.instrState := 4;
      core.rw := false;
    } else if s.instrState == 4 {
      core.rw := true;
      core.tmp32 := 0;
      core.dataOut := 0;
    }
  }
}
