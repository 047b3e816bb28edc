/** src/instructions/CJMP.py: the conditional jumps, one protocol that reads a flag bit that is
    optionally inverted. */
module Cjmp {
  import opened Types
  import opened Enums
  import opened Registry
  import opened CoreState

  const Definitions := [
    Instruction(0x11, "JIZ", CjmpExec(ZERO, false), 3),
    Instruction(0x12, "JNZ", CjmpExec(ZERO, true), 3),
    Instruction(0x13, "JIC", CjmpExec(CARRY, false), 3),
    Instruction(0x14, "JNC", CjmpExec(CARRY, true), 3),
    Instruction(0x15, "JIE", CjmpExec(ERROR, false), 3),
    Instruction(0x16, "JNE", CjmpExec(ERROR, true), 3)
  ]

  /** The flag bit it reads, negated when `invert` is set. */
  predicate Taken(s: Regs, flag: Flag, invert: bool)
  {
    FlagOf(s.flags, flag) != invert
  }

  /** Taken: state 2 commits to the word on the bus. Not taken: commit to `ip + 3` at once. */
  function Comb(s: Regs, d: Word, flag: Flag, invert: bool): Signals
  {
    if Taken(s, flag, invert) then
      if s.instrState == 2 then EndAt(d) else Quiet
    else EndAt(s.ip + 3)
  }

  /** Taken, in any state but 2: step to the operand word and enter state 2. */
  function Sync(s: Regs, flag: Flag, invert: bool, base: Regs): Regs
  {
    if Taken(s, flag, invert) && s.instrState != 2 then Advance(s, base, 2) else base
  }

  method Exec(core: Core, s: Regs, flag: Flag, invert: bool)
    modifies core
    ensures core.Snapshot() == Sync(s, flag, invert, old(core.Snapshot()))
  {
    if Taken(s, flag, invert) && s.instrState != 2 {
      core.AdvanceIpGotoState(s, 2);
    }
  }

  /** The six registrations pair each of ZERO, CARRY and ERROR with both polarities, the odd
      opcode testing the bit as it is and the even one its negation. */
  lemma Variants()
    ensures forall i | 0 <= i < |Definitions| ::
              && Definitions[i].opcode == 0x11 + i
              && Definitions[i].length == 3
              && Definitions[i].exec.CjmpExec?
              && Definitions[i].exec.invert == (i % 2 == 1)
              && Definitions[i].exec.flag == [ZERO, CARRY, ERROR][i / 2]
  {
  }
}
