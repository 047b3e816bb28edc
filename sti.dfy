/** src/instructions/STI.py: store RA, RB or RX at the address that follows the opcode. */
module Sti {
  import opened Types
  import opened Registry
  import opened CoreState

  const Definitions := [
    Instruction(0x40, "STA", StiExec(RA), 3),
    Instruction(0x41, "STB", StiExec(RB), 3),
    Instruction(0x42, "STX", StiExec(RX), 3)
  ]

  function Comb(s: Regs): Signals
  {
    if s.instrState == 3 then EndAt(s.ip + 1) else Quiet
  }

  /** State 2 points `addr` at the operand and drives the register onto `data_out` with `RW`
      low, so the write port stores it at the next edge; state 3 raises `RW` and clears
      `data_out`. */
  function Sync(s: Regs, d: Word, r: Reg, base: Regs): Regs
  {
    if s.instrState == 1 then Advance(s, base, 2)
    else if s.instrState == 2 then
      base.(addr := d, rw := false, dataOut := Wrap32(RegValue(s, r)), instrState := 3)
    else if s.instrState == 3 then base.(rw := true, dataOut := 0)
    else base
  }

  method Exec(core: Core, s: Regs, d: Word, r: Reg)
    modifies core
    ensures core.Snapshot() == Sync(s, d, r, old(core.Snapshot()))
  {
    if s.instrState == 1 {
      core.AdvanceIpGotoState(s, 2);
    } else if s.instrState == 2 {
      core.addr := d;
      core.rw := false;
      core.dataOut := Wrap32(RegValue(s, r));
      core.instrState := 3;
    } else if s.instrState == 3 {
      core.rw := true;
      core.dataOut := 0;
    }
  }
}
