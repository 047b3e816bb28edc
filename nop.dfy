/** src/instructions/NOP.py: the instruction that does nothing but move on, and the protocol
    the core runs for every opcode nobody registered. */
module Nop {
  import opened Types
  import opened Registry
  import opened CoreState

  const Definitions := [Instruction(0x01, "NOP", NopExec)]

  /** `NOP_exec`: commit to the next word in the first execute cycle. It has no sync writes. */
  function Comb(s: Regs): Signals
  {
    EndAt(s.ip + 1)
  }
}
