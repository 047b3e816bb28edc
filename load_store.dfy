/** Whole-instruction properties of the loads and the store: LDI_ABS, LDI and STI, run from
    the fetch of the opcode at `ip0` to the commit. */
module LoadStore {
  import opened Types
  import opened Enums
  import opened Registry
  import opened CoreState
  import opened Cpu
  import opened Clock
  import LdiAbs

  /** The last cycle of both loads: the word goes to the register read as signed, the flags
      follow the load rule, and the core commits to the word after `ip`. */
  function LoadCommit(s: Regs, r: Reg, w: Word): Regs
  {
    WithReg(s, r, ToSigned(w)).(flags := LdiAbs.LoadFlags(s.flags, w), ip := Wrap32(s.ip + 1),
                                addr := Wrap32(s.ip + 1), instrState := 0)
  }

  // ----- single execute cycles -----

  /** LDI_ABS, state 2: load the bus word and commit. */
  lemma LdiAbsLoad(cfg: Config, m: Machine, r: Reg)
    requires InState(cfg, m, LdiAbsExec(r), 2) && m.regs.rw
    ensures Tick(cfg, m) == Machine(LoadCommit(m.regs, r, DataIn(m.mem, m.regs)), m.mem)
    ensures StackEvent(cfg, m) == None
  {
    ExecuteStep(cfg, m);
  }

  /** LDI, state 2: point `addr` at the address held by the operand word. */
  lemma LdiAddress(cfg: Config, m: Machine, r: Reg)
    requires InState(cfg, m, LdiExec(r), 2) && m.regs.rw
    ensures Tick(cfg, m) == Machine(m.regs.(addr := DataIn(m.mem, m.regs), instrState := 3), m.mem)
    ensures StackEvent(cfg, m) == None
  {
  }

  /** LDI, state 3: load the word read there and commit. */
  lemma LdiLoad(cfg: Config, m: Machine, r: Reg)
    requires InState(cfg, m, LdiExec(r), 3) && m.regs.rw
    ensures Tick(cfg, m) == Machine(LoadCommit(m.regs, r, DataIn(m.mem, m.regs)), m.mem)
    ensures StackEvent(cfg, m) == None
  {
    ExecuteStep(cfg, m);
  }

  /** STI, state 2: point `addr` at the operand address and drive the register onto
      `data_out` with `RW` low. */
  lemma StiDrive(cfg: Config, m: Machine, r: Reg)
    requires InState(cfg, m, StiExec(r), 2) && m.regs.rw
    ensures Tick(cfg, m) == Machine(m.regs.(addr := DataIn(m.mem, m.regs), rw := false,
                                            dataOut := Wrap32(RegValue(m.regs, r)), instrState := 3), m.mem)
    ensures StackEvent(cfg, m) == None
  {
  }

  /** STI, state 3: the write port stores `data_out` at `addr`, and the core raises `RW`,
      clears `data_out` and commits to the word after `ip`. */
  lemma StiFinish(cfg: Config, m: Machine, r: Reg)
    requires InState(cfg, m, StiExec(r), 3) && !m.regs.rw
    ensures var next := Wrap32(m.regs.ip + 1);
            Tick(cfg, m) == Machine(m.regs.(ip := next, addr := next, instrState := 0, rw := true, dataOut := 0),
                                    m.mem[m.regs.addr % Depth := m.regs.dataOut])
    ensures StackEvent(cfg, m) == None
  {
  }

  /** The load result depends on the register and the flags only; after the fetch and the
      operand step the commit lands on `ip0 + 2` with `ir` holding the opcode word. */
  lemma LoadCommitAfterOperand(m: Machine, t: Regs, r: Reg, w: Word)
    requires |m.mem| == Depth && m.regs.instrState == 0 && m.regs.rw && m.regs.addr == m.regs.ip
    requires t == m.regs.(ir := Opcode(m), ip := Wrap32(m.regs.ip + 1), addr := t.addr, instrState := t.instrState)
    ensures var next := Wrap32(m.regs.ip + 2);
            LoadCommit(t, r, w) == WithReg(m.regs, r, ToSigned(w)).(ir := Opcode(m), ip := next, addr := next,
                                                                    flags := LdiAbs.LoadFlags(m.regs.flags, w))
  {
    Wrap32Add(m.regs.ip + 1, 1);
  }

  // ----- whole instructions -----

  lemma LdiAbsClocks(cfg: Config, m: Machine, r: Reg)
    requires AtFetch(cfg, m) && Fetches(cfg, m) == LdiAbsExec(r)
    ensures var m1 := Machine(m.regs.(ir := Opcode(m), instrState := 1), m.mem);
            && Run(cfg, m, 3) == Machine(LoadCommit(Advance(m1.regs, m1.regs, 2), r, WordAt(m.mem, m.regs.ip + 1)), m.mem)
            && Events(cfg, m, 3) == [None, None, None]
  {
    var m1 := Machine(m.regs.(ir := Opcode(m), instrState := 1), m.mem);
    var m2 := Machine(Advance(m1.regs, m1.regs, 2), m.mem);
    var m3 := Machine(LoadCommit(m2.regs, r, WordAt(m.mem, m.regs.ip + 1)), m.mem);
    assert DataIn(m2.mem, m2.regs) == WordAt(m.mem, m.regs.ip + 1);
    FetchStep(cfg, m);
    OperandStep(cfg, m1, LdiAbsExec(r));
    LdiAbsLoad(cfg, m2, r);
    Chain3(cfg, m, m1, m2, m3, None, None, None);
  }

  /** LDI_ABS's last state, seen from the fetch. */
  lemma LdiAbsSettles(cfg: Config, m: Machine, r: Reg)
    requires AtFetch(cfg, m)
    ensures var m1 := Machine(m.regs.(ir := Opcode(m), instrState := 1), m.mem);
            var v := WordAt(m.mem, m.regs.ip + 1); var next := Wrap32(m.regs.ip + 2);
            var final := Machine(WithReg(m.regs, r, ToSigned(v)).(ir := Opcode(m), ip := next, addr := next,
                                        flags := LdiAbs.LoadFlags(m.regs.flags, v)), m.mem);
            && Machine(LoadCommit(Advance(m1.regs, m1.regs, 2), r, v), m.mem) == final
            && (FlagOf(final.regs.flags, ZERO) <==> v == 0)
            && !FlagOf(final.regs.flags, NEGATIVE)
            && AtFetch(cfg, final)
  {
    var m1 := Machine(m.regs.(ir := Opcode(m), instrState := 1), m.mem);
    var v := WordAt(m.mem, m.regs.ip + 1);
    LoadCommitAfterOperand(m, Advance(m1.regs, m1.regs, 2), r, v);
    LdiAbs.LoadFlagsRule(m.regs.flags, v);
  }

  /** LDI_ABS: three clocks; the register receives the word at `ip0 + 1` read as signed, ZERO
      tells whether that word is 0, NEGATIVE is cleared, and the core commits to `ip0 + 2`.
      Nothing else changes. */
  lemma LdiAbsRun(cfg: Config, m: Machine, r: Reg)
    requires AtFetch(cfg, m) && Fetches(cfg, m) == LdiAbsExec(r)
    ensures var v := WordAt(m.mem, m.regs.ip + 1); var next := Wrap32(m.regs.ip + 2);
            var after := Run(cfg, m, 3);
            && after == Machine(WithReg(m.regs, r, ToSigned(v)).(ir := Opcode(m), ip := next, addr := next,
                                       flags := LdiAbs.LoadFlags(m.regs.flags, v)), m.mem)
            && (FlagOf(after.regs.flags, ZERO) <==> v == 0)
            && !FlagOf(after.regs.flags, NEGATIVE)
            && Events(cfg, m, 3) == [None, None, None]
            && AtFetch(cfg, after)
  {
    LdiAbsClocks(cfg, m, r);
    LdiAbsSettles(cfg, m, r);
  }

  /** LDI, states 2 and 3 seen from the fetch: read the address, then load the word there. */
  lemma LdiTail(cfg: Config, m: Machine, r: Reg)
    requires AtFetch(cfg, m) && Fetches(cfg, m) == LdiExec(r)
    ensures var m1 := m.regs.(ir := Opcode(m), instrState := 1);
            var m2 := Machine(Advance(m1, m1, 2), m.mem);
            var a := WordAt(m.mem, m.regs.ip + 1);
            var m3 := Machine(m2.regs.(addr := a, instrState := 3), m.mem);
            && Tick(cfg, m2) == m3 && StackEvent(cfg, m2) == None
            && Tick(cfg, m3) == Machine(LoadCommit(m3.regs, r, WordAt(m.mem, a)), m.mem)
            && StackEvent(cfg, m3) == None
  {
    var m1 := m.regs.(ir := Opcode(m), instrState := 1);
    var m2 := Machine(Advance(m1, m1, 2), m.mem);
    var a := WordAt(m.mem, m.regs.ip + 1);
    var m3 := Machine(m2.regs.(addr := a, instrState := 3), m.mem);
    assert DataIn(m2.mem, m2.regs) == a;
    assert DataIn(m3.mem, m3.regs) == WordAt(m.mem, a);
    LdiAddress(cfg, m2, r);
    LdiLoad(cfg, m3, r);
  }

  lemma LdiClocks(cfg: Config, m: Machine, r: Reg)
    requires AtFetch(cfg, m) && Fetches(cfg, m) == LdiExec(r)
    ensures var m1 := Machine(m.regs.(ir := Opcode(m), instrState := 1), m.mem);
            var a := WordAt(m.mem, m.regs.ip + 1);
            var t := Advance(m1.regs, m1.regs, 2).(addr := a, instrState := 3);
            && Run(cfg, m, 4) == Machine(LoadCommit(t, r, WordAt(m.mem, a)), m.mem)
            && Events(cfg, m, 4) == [None, None, None, None]
  {
    var m1 := Machine(m.regs.(ir := Opcode(m), instrState := 1), m.mem);
    var m2 := Machine(Advance(m1.regs, m1.regs, 2), m.mem);
    var a := WordAt(m.mem, m.regs.ip + 1);
    var m3 := Machine(m2.regs.(addr := a, instrState := 3), m.mem);
    var m4 := Machine(LoadCommit(m3.regs, r, WordAt(m.mem, a)), m.mem);
    ToOperand(cfg, m, LdiExec(r));
    LdiTail(cfg, m, r);
    Chain4(cfg, m, m1, m2, m3, m4, None, None, None, None);
  }

  /** LDI's last state, seen from the fetch. */
  lemma LdiSettles(cfg: Config, m: Machine, r: Reg)
    requires AtFetch(cfg, m)
    ensures var m1 := Machine(m.regs.(ir := Opcode(m), instrState := 1), m.mem);
            var a := WordAt(m.mem, m.regs.ip + 1);
            var t := Advance(m1.regs, m1.regs, 2).(addr := a, instrState := 3);
            var v := WordAt(m.mem, a); var next := Wrap32(m.regs.ip + 2);
            var final := Machine(WithReg(m.regs, r, ToSigned(v)).(ir := Opcode(m), ip := next,
                                        addr := next, flags := LdiAbs.LoadFlags(m.regs.flags, v)), m.mem);
            && Machine(LoadCommit(t, r, v), m.mem) == final
            && AtFetch(cfg, final)
  {
    var m1 := Machine(m.regs.(ir := Opcode(m), instrState := 1), m.mem);
    var a := WordAt(m.mem, m.regs.ip + 1);
    LoadCommitAfterOperand(m, Advance(m1.regs, m1.regs, 2).(addr := a, instrState := 3), r, WordAt(m.mem, a));
  }

  /** LDI: four clocks; the word at `ip0 + 1` is an address, and the register receives the
      word stored there, with the same flag rule as LDI_ABS; the core commits to `ip0 + 2`. */
  lemma LdiRun(cfg: Config, m: Machine, r: Reg)
    requires AtFetch(cfg, m) && Fetches(cfg, m) == LdiExec(r)
    ensures var v := WordAt(m.mem, WordAt(m.mem, m.regs.ip + 1)); var next := Wrap32(m.regs.ip + 2);
            && Run(cfg, m, 4) == Machine(WithReg(m.regs, r, ToSigned(v)).(ir := Opcode(m), ip := next,
                                       addr := next, flags := LdiAbs.LoadFlags(m.regs.flags, v)), m.mem)
            && Events(cfg, m, 4) == [None, None, None, None]
            && AtFetch(cfg, Run(cfg, m, 4))
  {
    LdiClocks(cfg, m, r);
    LdiSettles(cfg, m, r);
  }

  /** STI, states 2 and 3 seen from the fetch: drive the register to the operand address,
      then finish with the write. */
  lemma StiTail(cfg: Config, m: Machine, r: Reg)
    requires AtFetch(cfg, m) && Fetches(cfg, m) == StiExec(r)
    ensures var m1 := m.regs.(ir := Opcode(m), instrState := 1);
            var m2 := Machine(Advance(m1, m1, 2), m.mem);
            var a := WordAt(m.mem, m.regs.ip + 1);
            var t := m2.regs.(addr := a, rw := false, dataOut := Wrap32(RegValue(m.regs, r)), instrState := 3);
            && Tick(cfg, m2) == Machine(t, m.mem) && StackEvent(cfg, m2) == None
            && Tick(cfg, Machine(t, m.mem))
                 == Machine(t.(ip := Wrap32(t.ip + 1), addr := Wrap32(t.ip + 1), instrState := 0, rw := true, dataOut := 0),
                            m.mem[a % Depth := Wrap32(RegValue(m.regs, r))])
            && StackEvent(cfg, Machine(t, m.mem)) == None
  {
    var m1 := m.regs.(ir := Opcode(m), instrState := 1);
    var m2 := Machine(Advance(m1, m1, 2), m.mem);
    var a := WordAt(m.mem, m.regs.ip + 1);
    var m3 := Machine(m2.regs.(addr := a, rw := false, dataOut := Wrap32(RegValue(m.regs, r)), instrState := 3), m.mem);
    assert DataIn(m2.mem, m2.regs) == a;
    StiDrive(cfg, m2, r);
    StiFinish(cfg, m3, r);
  }

  lemma StiClocks(cfg: Config, m: Machine, r: Reg)
    requires AtFetch(cfg, m) && Fetches(cfg, m) == StiExec(r)
    ensures var m1 := Machine(m.regs.(ir := Opcode(m), instrState := 1), m.mem);
            var a := WordAt(m.mem, m.regs.ip + 1);
            var t := Advance(m1.regs, m1.regs, 2);
            && Run(cfg, m, 4) == Machine(t.(ip := Wrap32(t.ip + 1), addr := Wrap32(t.ip + 1), instrState := 0,
                                            dataOut := 0), m.mem[a % Depth := Wrap32(RegValue(m.regs, r))])
            && Events(cfg, m, 4) == [None, None, None, None]
  {
    var m1 := Machine(m.regs.(ir := Opcode(m), instrState := 1), m.mem);
    var m2 := Machine(Advance(m1.regs, m1.regs, 2), m.mem);
    var a := WordAt(m.mem, m.regs.ip + 1);
    var m3 := Machine(m2.regs.(addr := a, rw := false, dataOut := Wrap32(RegValue(m.regs, r)), instrState := 3), m.mem);
    var t := m3.regs;
    var m4 := Machine(t.(ip := Wrap32(t.ip + 1), addr := Wrap32(t.ip + 1), instrState := 0, rw := true, dataOut := 0),
                      m.mem[a % Depth := Wrap32(RegValue(m.regs, r))]);
    ToOperand(cfg, m, StiExec(r));
    StiTail(cfg, m, r);
    Chain4(cfg, m, m1, m2, m3, m4, None, None, None, None);
  }

  /** STI's last state, seen from the fetch: the commit lands on `ip0 + 2`, and the machine is
      ready for the next fetch. */
  lemma StiSettles(cfg: Config, m: Machine, r: Reg)
    requires AtFetch(cfg, m)
    ensures var m1 := Machine(m.regs.(ir := Opcode(m), instrState := 1), m.mem);
            var a := WordAt(m.mem, m.regs.ip + 1); var next := Wrap32(m.regs.ip + 2);
            var t := Advance(m1.regs, m1.regs, 2);
            var mem := m.mem[a % Depth := Wrap32(RegValue(m.regs, r))];
            var final := Machine(m.regs.(ir := Opcode(m), ip := next, addr := next, dataOut := 0), mem);
            && Machine(t.(ip := Wrap32(t.ip + 1), addr := Wrap32(t.ip + 1), instrState := 0, dataOut := 0), mem) == final
            && AtFetch(cfg, final)
  {
    Wrap32Add(m.regs.ip + 1, 1);
  }

  /** STI: four clocks; the register, truncated to 32 bits, is written once, at the address
      held in the word at `ip0 + 1`, in the clock whose `RW` is low; the core then commits to
      `ip0 + 2`, one word short of the length 3 the instruction is registered with, with
      `data_out` cleared. Registers and flags are untouched. */
  lemma StiRun(cfg: Config, m: Machine, r: Reg)
    requires AtFetch(cfg, m) && Fetches(cfg, m) == StiExec(r)
    ensures var a := WordAt(m.mem, m.regs.ip + 1); var next := Wrap32(m.regs.ip + 2);
            && Run(cfg, m, 4) == Machine(m.regs.(ir := Opcode(m), ip := next, addr := next, dataOut := 0),
                                         m.mem[a % Depth := Wrap32(RegValue(m.regs, r))])
            && Events(cfg, m, 4) == [None, None, None, None]
            && AtFetch(cfg, Run(cfg, m, 4))
  {
    StiClocks(cfg, m, r);
    StiSettles(cfg, m, r);
  }
}
