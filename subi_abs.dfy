/** src/instructions/SUBI_ABS.py: subtract the word after the opcode from RA, RB or RX through the
    ALU. */
module SubiAbs {
  import opened Types
  import opened Enums
  import opened Registry
  import opened CoreState

  const Definitions := [
    Instruction(0x33, "SUBA_ABS", SubiAbsExec(RA), 2),
    Instruction(0x34, "SUBB_ABS", SubiAbsExec(RB), 2),
    Instruction(0x35, "SUBX_ABS", SubiAbsExec(RX), 2)
  ]

  /** Past state 1 the ALU subtracts the bus, read as signed, from the register, and the instruction
      commits to the next word. */
  function Comb(s: Regs, d: Word, r: Reg): Signals
  {
    if s.instrState == 1 then Quiet
    else Signals(Some(Wrap32(s.ip + 1)), Some(AluRequest(SUB, RegValue(s, r), ToSigned(d))), None)
  }

  function Sync(s: Regs, d: Word, r: Reg, base: Regs): Regs
  {
    if s.instrState == 1 then Advance(s, base, 2)
    else WithReg(base, r, AluOut(Comb(s, d, r).alu))
  }

  method Exec(core: Core, s: Regs, d: Word, r: Reg)
    modifies core
    ensures core.Snapshot() == Sync(s, d, r, old(core.Snapshot()))
  {
    if s.instrState == 1 {
      core.AdvanceIpGotoState(s, 2);
    } else {
      core.SetReg(r, AluOut(Comb(s, d, r).alu));
    }
  }
}
