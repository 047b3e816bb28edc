/** src/instructions/ADDI_ABS.py: add the word after the opcode to RA, RB or RX through the
    ALU. */
module AddiAbs {
  import opened Types
  import opened Enums
  import opened Registry
  import opened CoreState

  const Definitions := [
    Instruction(0x30, "ADDA_ABS", AddiAbsExec(RA), 2),
    Instruction(0x31, "ADDB_ABS", AddiAbsExec(RB), 2),
    Instruction(0x32, "ADDX_ABS", AddiAbsExec(RX), 2)
  ]

  /** Past state 1 the ALU adds the bus, read as signed, to the register, and the instruction
      commits to the next word. */
  function Comb(s: Regs, d: Word, r: Reg): Signals
  {
    if s.instrState == 1 then Quiet
    else Signals(Some(Wrap32(s.ip + 1)), Some(AluRequest(ADD, RegValue(s, r), ToSigned(d))), None)
  }

  function Sync(s: Regs, d: Word, r: Reg, base: Regs): Regs
  {
    if s.instrState == 1 then Advance(s, base, 2)
    else WithReg(base, r, AluOut(Comb(s, d, r).alu))
  }

  method Exec(core: Core, s: Regs, d: Word, r: Reg)
    modifies core
    ensures core.Snapshot() == Sync(s, d, r, old(core.Snapshot()))
  {
    if s.instrState == 1 {
      core.AdvanceIpGotoState(s, 2);
    } else {
      core.SetReg(r, AluOut(Comb(s, d, r).alu));
    }
  }
}
