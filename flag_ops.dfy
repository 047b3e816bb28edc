/** src/instructions/FLAGS.py: SCF, CCF, SEF and CEF, which write one bit of the flags
    register. As written they never raise `end_instr`; `CorrectedDefinitions` registers the
    same instructions with a protocol that commits to the next word. */
module FlagOps {
  import opened Types
  import opened Enums
  import opened Registry
  import opened CoreState

  const Definitions := [
    Instruction(0xF0, "SCF", FlagExec(CARRY, true)),
    Instruction(0xF1, "CCF", FlagExec(CARRY, false)),
    Instruction(0xF2, "SEF", FlagExec(ERROR, true)),
    Instruction(0xF3, "CEF", FlagExec(ERROR, false))
  ]

  const CorrectedDefinitions := [
    Instruction(0xF0, "SCF", FlagEndExec(CARRY, true)),
    Instruction(0xF1, "CCF", FlagEndExec(CARRY, false)),
    Instruction(0xF2, "SEF", FlagEndExec(ERROR, true)),
    Instruction(0xF3, "CEF", FlagEndExec(ERROR, false))
  ]

  /** `_execute`: the only write is the flag bit; nothing is driven combinationally. */
  function Sync(flag: Flag, value: bool, base: Regs): Regs
  {
    base.(flags := WithFlag(base.flags, flag, value))
  }

  /** The corrected protocol: the same write, and a commit to the next word. */
  function CorrectedComb(s: Regs): Signals
  {
    EndAt(s.ip + 1)
  }

  method Exec(core: Core, flag: Flag, value: bool)
    modifies core
    ensures core.Snapshot() == Sync(flag, value, old(core.Snapshot()))
  {
    core.flags := WithFlag(core.flags, flag, value);
  }

  /** Each write sets or clears only its own bit, and doing it twice is doing it once. */
  lemma WriteRule(flag: Flag, value: bool, base: Regs)
    ensures FlagOf(Sync(flag, value, base).flags, flag) == value
    ensures forall g: Flag | g != flag :: FlagOf(Sync(flag, value, base).flags, g) == FlagOf(base.flags, g)
    ensures Sync(flag, value, Sync(flag, value, base)) == Sync(flag, value, base)
    ensures Sync(flag, value, base).(flags := base.flags) == base
  {
    SetBitIdempotent(base.flags, FlagIndex(flag), value);
  }
}
