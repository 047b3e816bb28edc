/** How the handlers of src/main.py sequence the core around the instructions: the vectored
    reset that starts it, the gate that keeps instructions out until the reset is done, the
    non-vectored configuration, the NOP fallback of `execute`, and the flag instructions of
    src/instructions/FLAGS.py, which never hand control back. */
module Sequencing {
  import opened Types
  import opened Enums
  import opened Registry
  import opened CoreState
  import opened Cpu
  import opened Clock
  import FlagOps
  import ControlFlow

  // ----- runs that stand still -----

  /** A machine that one clock leaves as it is, without a stack request, stays so. */
  lemma StandsStill(cfg: Config, m: Machine, n: nat)
    requires Elaborates(cfg) && |m.mem| == Depth
    requires Tick(cfg, m) == m && StackEvent(cfg, m) == None
    ensures Run(cfg, m, n) == m && Silent(Events(cfg, m, n))
  {
    var k := 0;
    while k < n
      invariant k <= n && Run(cfg, m, k) == m && Silent(Events(cfg, m, k))
    {
      StillOneMore(cfg, m, k);
      k := k + 1;
    }
  }

  /** One more clock of a machine that stands still. */
  lemma StillOneMore(cfg: Config, m: Machine, k: nat)
    requires Elaborates(cfg) && |m.mem| == Depth
    requires Tick(cfg, m) == m && StackEvent(cfg, m) == None
    requires Run(cfg, m, k) == m && Silent(Events(cfg, m, k))
    ensures Run(cfg, m, k + 1) == m && Silent(Events(cfg, m, k + 1))
  {
    assert Events(cfg, m, k + 1) == [None] + Events(cfg, m, k);
  }

  // ----- FLAGS -----

  /** SCF, CCF, SEF, CEF as written, in any execute cycle: the flag bit is written and nothing
      else happens; no `end_instr` is raised. */
  lemma FlagStep(cfg: Config, m: Machine, flag: Flag, value: bool)
    requires InState(cfg, m, FlagExec(flag, value), m.regs.instrState) && m.regs.instrState != 0 && m.regs.rw
    ensures Tick(cfg, m) == Machine(FlagOps.Sync(flag, value, m.regs), m.mem)
    ensures StackEvent(cfg, m) == None
  {
  }

  /** SCF, CCF, SEF, CEF as written never finish: from the first execute cycle on, the core
      sits in micro-state 1 with the flag written and `ip` on the opcode, for ever, with no
      memory write and no stack request. */
  lemma FlagsHang(cfg: Config, m: Machine, flag: Flag, value: bool, n: nat)
    requires AtFetch(cfg, m) && Fetches(cfg, m) == FlagExec(flag, value)
    ensures var stuck := Machine(m.regs.(ir := Opcode(m), instrState := 1,
                                         flags := WithFlag(m.regs.flags, flag, value)), m.mem);
            && Run(cfg, m, 2 + n) == stuck
            && Silent(Events(cfg, m, 2 + n))
            && !AtFetch(cfg, Run(cfg, m, 2 + n))
  {
    var m1 := Machine(m.regs.(ir := Opcode(m), instrState := 1), m.mem);
    var stuck := Machine(m.regs.(ir := Opcode(m), instrState := 1,
                                 flags := WithFlag(m.regs.flags, flag, value)), m.mem);
    FetchStep(cfg, m);
    FlagStep(cfg, m1, flag, value);
    FlagStep(cfg, stuck, flag, value);
    FlagOps.WriteRule(flag, value, m1.regs);
    assert Tick(cfg, stuck) == stuck;
    StandsStill(cfg, stuck, n);
    Prepend(cfg, m1, stuck, stuck, n, None, Events(cfg, stuck, n));
    Prepend(cfg, m, m1, stuck, n + 1, None, [None] + Events(cfg, stuck, n));
    assert Events(cfg, m, 2 + n) == [None, None] + Events(cfg, stuck, n);
  }

  /** SCF, CCF, SEF, CEF with the corrected protocol: two clocks; the flag bit is written,
      every other flag bit, register and memory word is kept, and the core commits to
      `ip0 + 1`. */
  lemma FlagEndRun(cfg: Config, m: Machine, flag: Flag, value: bool)
    requires AtFetch(cfg, m) && Fetches(cfg, m) == FlagEndExec(flag, value)
    ensures var next := Wrap32(m.regs.ip + 1); var after := Run(cfg, m, 2);
            && after == Machine(m.regs.(ir := Opcode(m), ip := next, addr := next,
                                        flags := WithFlag(m.regs.flags, flag, value)), m.mem)
            && FlagOf(after.regs.flags, flag) == value
            && (forall g: Flag | g != flag :: FlagOf(after.regs.flags, g) == FlagOf(m.regs.flags, g))
            && Events(cfg, m, 2) == [None, None]
            && AtFetch(cfg, after)
  {
    FetchStep(cfg, m);
    ExecuteStep(cfg, Tick(cfg, m));
    FlagOps.WriteRule(flag, value, m.regs);
  }

  // ----- reset -----

  /** Reset state 0: `addr` points at the start address with `RW` high; nothing else moves. */
  lemma ResetStart(cfg: Config, m: Machine)
    requires Elaborates(cfg) && cfg.useResetVector && |m.mem| == Depth && m.regs.resetState == 0
    ensures Tick(cfg, m) == Machine(m.regs.(addr := Wrap32(cfg.startAddr), rw := true, resetState := 1),
                                    MemoryAfter(m.mem, m.regs))
    ensures StackEvent(cfg, m) == None
  {
  }

  /** Reset state 1: commit to the vector read at `addr`, clear the scratch cells and let
      instructions run. */
  lemma ResetVector(cfg: Config, m: Machine)
    requires Elaborates(cfg) && cfg.useResetVector && |m.mem| == Depth && m.regs.resetState == 1
    ensures var v := DataIn(m.mem, m.regs);
            Tick(cfg, m) == Machine(m.regs.(addr := v, ip := v, instrState := 0, resetState := 2, tmp32 := 0,
                                            tmp32_2 := 0, tmp32_3 := 0), MemoryAfter(m.mem, m.regs))
    ensures StackEvent(cfg, m) == None
  {
  }

  /** After a reset of the sync domain the vectored core takes two clocks to start: it reads
      the word at the start address and commits to it, with the scratch cells cleared; the
      registers, flags and `sp` survive the reset, memory is untouched, and the core is ready
      to fetch its first instruction at that word. */
  lemma ResetRun(cfg: Config, s: Regs, mem: seq<Word>)
    requires Elaborates(cfg) && cfg.useResetVector && |mem| == Depth
    ensures var v := WordAt(mem, cfg.startAddr); var m := Machine(DomainReset(s), mem);
            && Run(cfg, m, 2) == Machine(DomainReset(s).(ip := v, addr := v, resetState := 2), mem)
            && Events(cfg, m, 2) == [None, None]
            && AtFetch(cfg, Run(cfg, m, 2))
  {
    var m := Machine(DomainReset(s), mem);
    var m1 := Machine(m.regs.(addr := Wrap32(cfg.startAddr), rw := true, resetState := 1), mem);
    var v := WordAt(mem, cfg.startAddr);
    var m2 := Machine(DomainReset(s).(ip := v, addr := v, resetState := 2), mem);
    ResetStart(cfg, m);
    ResetVector(cfg, m1);
    Wrap32Add(cfg.startAddr, 0);
    assert DataIn(m1.mem, m1.regs) == v;
    Chain2(cfg, m, m1, m2, None, None);
  }

  /** Until the reset handler reaches state 2 no instruction is fetched or executed: a clock
      changes only what the reset handler and its commit write (`ip`, `addr`, `RW`, the
      scratch cells and the two state counters), and requests nothing of the stack. */
  lemma ResetGates(cfg: Config, m: Machine)
    requires Elaborates(cfg) && |m.mem| == Depth && m.regs.resetState != 2
    ensures var s := m.regs; var r := Tick(cfg, m).regs;
            && r.(ip := s.ip, addr := s.addr, rw := s.rw, tmp32 := s.tmp32, tmp32_2 := s.tmp32_2,
                  tmp32_3 := s.tmp32_3, resetState := s.resetState, instrState := s.instrState) == s
            && StackEvent(cfg, m) == None
  {
  }

  /** Without the reset vector the reset handler as written is not guarded by its state: every
      clock raises `end_instr`, to the start address unless the instruction in progress raises
      its own. A clock outside the execute cycles sets `reset_state` to 2, clears the scratch
      cells and commits to the start address, so every fetch lands `ip` and `addr` back on the
      start address while latching the word the bus read at the old `addr`. */
  lemma NonVectoredClock(cfg: Config, m: Machine)
    requires Elaborates(cfg) && !cfg.useResetVector && !cfg.resetOnce && |m.mem| == Depth
    ensures var s := m.regs; var d := DataIn(m.mem, s); var out := Outputs(cfg, s, d);
            && out.end.Some?
            && (InstrComb(Decode(cfg, s.ir), s, d).end.None? ==> out.end == Some(Wrap32(cfg.startAddr)))
    ensures var s := m.regs; var r := Tick(cfg, m).regs; var start := Wrap32(cfg.startAddr);
            s.resetState != 2 || s.instrState == 0 ==>
              && r.ip == start && r.addr == start && r.resetState == 2
              && r.tmp32 == 0 && r.tmp32_2 == 0 && r.tmp32_3 == 0
              && r.instrState == (if s.resetState == 2 then 1 else 0)
              && r.ir == (if s.resetState == 2 then DataIn(m.mem, s) else s.ir)
  {
  }

  /** The configuration with the reset vector that a guarded non-vectored core matches once
      its reset is done. */
  function Vectored(cfg: Config): Config
  {
    cfg.(useResetVector := true, resetOnce := false)
  }

  /** With the corrected, once-only reset handler a clock after the reset is the clock of the
      vectored core: the reset handler neither raises `end_instr` nor writes anything. */
  lemma GuardedTick(cfg: Config, m: Machine)
    requires Elaborates(cfg) && !cfg.useResetVector && cfg.resetOnce && |m.mem| == Depth
    requires m.regs.resetState == 2
    ensures Elaborates(Vectored(cfg))
    ensures Tick(cfg, m) == Tick(Vectored(cfg), m)
    ensures StackEvent(cfg, m) == StackEvent(Vectored(cfg), m)
    ensures Tick(cfg, m).regs.resetState == 2
  {
    var v := Vectored(cfg);
    var s := m.regs;
    var d := DataIn(m.mem, s);
    assert Decode(cfg, s.ir) == Decode(v, s.ir);
    assert ResetEnd(cfg, s, d) == None == ResetEnd(v, s, d);
    assert Outputs(cfg, s, d) == Outputs(v, s, d);
    var out := Outputs(cfg, s, d);
    var base := Commit(s, out.end);
    assert ResetSync(cfg, s, base) == base == ResetSync(v, s, base);
    assert Next(cfg, s, d) == Next(v, s, d);
    if s.instrState != 0 {
      SyncKeepsReset(Decode(cfg, s.ir), s, d, AluSync(out.alu, base));
    }
  }

  /** No instruction writes `reset_state`. */
  lemma SyncKeepsReset(p: Protocol, s: Regs, d: Word, base: Regs)
    requires p != ByteJnzExec
    ensures InstrSync(p, s, d, base).resetState == base.resetState
  {
    if p.NopExec? || p.HaltExec? || p.JmpExec? || p.CjmpExec? || p.JizExec? || p.RetExec? {
      KeepsResetControl(p, s, d, base);
    } else if p.LdiAbsExec? || p.LdiExec? || p.AddiAbsExec? || p.AddiExec? {
      KeepsResetLoadAdd(p, s, d, base);
    } else if p.SubiAbsExec? || p.SubiExec? || p.InciExec? || p.DeciExec? {
      KeepsResetSubStep(p, s, d, base);
    } else if p.StiExec? || p.MovExec? || p.FlagExec? || p.FlagEndExec? {
      KeepsResetStore(p, s, d, base);
    } else {
      KeepsResetStack(p, s, d, base);
    }
  }

  lemma KeepsResetControl(p: Protocol, s: Regs, d: Word, base: Regs)
    requires p.NopExec? || p.HaltExec? || p.JmpExec? || p.CjmpExec? || p.JizExec? || p.RetExec?
    ensures InstrSync(p, s, d, base).resetState == base.resetState
  {
  }

  lemma KeepsResetLoadAdd(p: Protocol, s: Regs, d: Word, base: Regs)
    requires p.LdiAbsExec? || p.LdiExec? || p.AddiAbsExec? || p.AddiExec?
    ensures InstrSync(p, s, d, base).resetState == base.resetState
  {
  }

  lemma KeepsResetSubStep(p: Protocol, s: Regs, d: Word, base: Regs)
    requires p.SubiAbsExec? || p.SubiExec? || p.InciExec? || p.DeciExec?
    ensures InstrSync(p, s, d, base).resetState == base.resetState
  {
  }

  lemma KeepsResetStore(p: Protocol, s: Regs, d: Word, base: Regs)
    requires p.StiExec? || p.MovExec? || p.FlagExec? || p.FlagEndExec?
    ensures InstrSync(p, s, d, base).resetState == base.resetState
  {
  }

  lemma KeepsResetStack(p: Protocol, s: Regs, d: Word, base: Regs)
    requires p.PushExec? || p.PushiExec? || p.PopExec?
    ensures InstrSync(p, s, d, base).resetState == base.resetState
  {
  }

  /** Hence every run after the reset is the vectored core's run, clock by clock. */
  lemma {:induction false} GuardedRun(cfg: Config, m: Machine, n: nat)
    requires Elaborates(cfg) && !cfg.useResetVector && cfg.resetOnce && |m.mem| == Depth
    requires m.regs.resetState == 2
    ensures Elaborates(Vectored(cfg))
    ensures Run(cfg, m, n) == Run(Vectored(cfg), m, n)
    ensures Events(cfg, m, n) == Events(Vectored(cfg), m, n)
    decreases n
  {
    GuardedTick(cfg, m);
    if n > 0 {
      GuardedRun(cfg, Tick(cfg, m), n - 1);
    }
  }

  /** After a reset of the sync domain the guarded non-vectored core starts in one clock: it
      commits to the start address with the scratch cells cleared, the registers, flags and
      `sp` survive, memory is untouched, and it is ready to fetch there. */
  lemma GuardedResetRun(cfg: Config, s: Regs, mem: seq<Word>)
    requires Elaborates(cfg) && !cfg.useResetVector && cfg.resetOnce && |mem| == Depth
    ensures var start := Wrap32(cfg.startAddr); var m := Machine(DomainReset(s), mem);
            && Run(cfg, m, 1) == Machine(DomainReset(s).(ip := start, addr := start, resetState := 2), mem)
            && Events(cfg, m, 1) == [None]
            && AtFetch(Vectored(cfg), Run(cfg, m, 1))
  {
  }

  /** Unlike the handler as written, the guarded one lets a fetch keep `ip`: it latches the
      opcode and changes nothing else. */
  lemma GuardedFetch(cfg: Config, m: Machine)
    requires Elaborates(cfg) && !cfg.useResetVector && cfg.resetOnce
    requires AtFetch(Vectored(cfg), m)
    ensures Tick(cfg, m) == Machine(m.regs.(ir := Opcode(m), instrState := 1), m.mem)
  {
    GuardedTick(cfg, m);
    FetchStep(Vectored(cfg), m);
  }

  // ----- decoding -----

  /** An opcode nobody registered runs the protocol registered under the name "NOP"; when that
      is NOP's own, the core moves on to `ip0 + 1` in two clocks and changes nothing else. */
  lemma UnknownOpcodeRunsNop(cfg: Config, m: Machine)
    requires AtFetch(cfg, m) && Opcode(m) !in cfg.tables.opcodes && cfg.tables.names["NOP"].exec == NopExec
    ensures Fetches(cfg, m) == NopExec
    ensures var next := Wrap32(m.regs.ip + 1);
            && Run(cfg, m, 2) == Machine(m.regs.(ir := Opcode(m), ip := next, addr := next), m.mem)
            && Events(cfg, m, 2) == [None, None]
  {
    ControlFlow.NopRun(cfg, m);
  }
}
