/** src/instructions/HALT.py: the instruction that commits to its own address, so the next
    fetch reads it again. */
module Halt {
  import opened Types
  import opened Registry
  import opened CoreState

  const Definitions := [Instruction(0x00, "HALT", HaltExec)]

  /** `HALT_exec`: commit to the current `ip`. It has no sync writes. */
  function Comb(s: Regs): Signals
  {
    EndAt(s.ip)
  }
}
