/** src/instructions/LDI.py: load the memory word whose address follows the opcode. */
module Ldi {
  import opened Types
  import opened Registry
  import opened CoreState
  import LdiAbs

  const Definitions := [
    Instruction(0xD0, "LDA", LdiExec(RA), 2),
    Instruction(0xD1, "LDB", LdiExec(RB), 2),
    Instruction(0xD2, "LDX", LdiExec(RX), 2)
  ]

  function Comb(s: Regs): Signals
  {
    if s.instrState == 3 then EndAt(s.ip + 1) else Quiet
  }

  /** State 1 steps to the operand, state 2 points `addr` at it, state 3 loads the word read
      there, with the same flag writes as the immediate load. */
  function Sync(s: Regs, d: Word, r: Reg, base: Regs): Regs
  {
    if s.instrState == 1 then Advance(s, base, 2)
    else if s.instrState == 2 then base.(addr := d, instrState := 3)
    else if s.instrState == 3 then WithReg(base, r, ToSigned(d)).(flags := LdiAbs.LoadFlags(base.flags, d))
    else base
  }

  method Exec(core: Core, s: Regs, d: Word, r: Reg)
    modifies core
    ensures core.Snapshot() == Sync(s, d, r, old(core.Snapshot()))
  {
    if s.instrState == 1 {
      core.AdvanceIpGotoState(s, 2);
    } else if s.instrState == 2 {
      core.addr := d;
      core.instrState := 3;
    } else if s.instrState == 3 {
      core.SetReg(r, ToSigned(d));
      core.flags := LdiAbs.LoadFlags(core.flags, d);
    }
  }
}
