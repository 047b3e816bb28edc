/** src/instructions/ADDI.py: add the memory word whose address follows the opcode. */
module Addi {
  import opened Types
  import opened Enums
  import opened Registry
  import opened CoreState

  const Definitions := [
    Instruction(0xE0, "ADDA", AddiExec(RA), 2),
    Instruction(0xE1, "ADDB", AddiExec(RB), 2),
    Instruction(0xE2, "ADDX", AddiExec(RX), 2)
  ]

  function Comb(s: Regs, d: Word, r: Reg): Signals
  {
    if s.instrState == 3 then
      Signals(Some(Wrap32(s.ip + 1)), Some(AluRequest(ADD, RegValue(s, r), ToSigned(d))), None)
    else Quiet
  }

  function Sync(s: Regs, d: Word, r: Reg, base: Regs): Regs
  {
    if s.instrState == 1 then Advance(s, base, 2)
    else if s.instrState == 2 then base.(addr := d, instrState := 3)
    else if s.instrState == 3 then WithReg(base, r, AluOut(Comb(s, d, r).alu))
    else base
  }

  method Exec(core: Core, s: Regs, d: Word, r: Reg)
    modifies core
    ensures core.Snapshot() == Sync(s, d, r, old(core.Snapshot()))
  {
    if s.instrState == 1 {
      core.AdvanceIpGotoState(s, 2);
    } else if s.instrState == 2 {
      core.addr := d;
      core.instrState := 3;
    } else if s.instrState == 3 {
      core.SetReg(r, AluOut(Comb(s, d, r).alu));
    }
  }
}
