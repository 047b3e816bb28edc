/** src/instructions/INCI.py: increment RA, RB or RX through the ALU in one cycle. */
module Inci {
  import opened Types
  import opened Enums
  import opened Registry
  import opened CoreState

  const Definitions := [
    Instruction(0x36, "INCA", InciExec(RA)),
    Instruction(0x37, "INCB", InciExec(RB)),
    Instruction(0x38, "INCX", InciExec(RX))
  ]

  /** The ALU gets INC with the register as `alu_1`; `alu_2` is not driven and stays 0. */
  function Comb(s: Regs, r: Reg): Signals
  {
    Signals(Some(Wrap32(s.ip + 1)), Some(AluRequest(INC, RegValue(s, r), 0)), None)
  }

  function Sync(s: Regs, r: Reg, base: Regs): Regs
  {
    WithReg(base, r, AluOut(Comb(s, r).alu))
  }

  method Exec(core: Core, s: Regs, r: Reg)
    modifies core
    ensures core.Snapshot() == Sync(s, r, old(core.Snapshot()))
  {
    core.SetReg(r, AluOut(Comb(s, r).alu));
  }
}
