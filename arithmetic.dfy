/** Whole-instruction properties of the instructions that go through the ALU: ADDI_ABS,
    ADDI, SUBI_ABS, SUBI, INCI and DECI, run from the fetch of the opcode at `ip0`. Each run
    is first taken apart into its execute cycles, one lemma per micro-state, and then put
    together with the chaining lemmas of `Clock`. */
module Arithmetic {
  import opened Types
  import opened Enums
  import opened Registry
  import opened CoreState
  import opened Cpu
  import opened Clock
  import Alu

  /** The register and flags an ALU operation on register `r` leaves behind. */
  function AluApplied(s: Regs, r: Reg, op: AluOp, b: SWord): Regs
  {
    var res := Alu.Compute(op, RegValue(s, r), b, s.flags);
    WithReg(s, r, res.out).(flags := res.flags)
  }

  /** ADDI_ABS adds and SUBI_ABS subtracts the word after the opcode. */
  predicate ImmediateOp(p: Protocol, r: Reg, op: AluOp)
  {
    (op == ADD && p == AddiAbsExec(r)) || (op == SUB && p == SubiAbsExec(r))
  }

  /** ADDI adds and SUBI subtracts the word at the address after the opcode. */
  predicate IndirectOp(p: Protocol, r: Reg, op: AluOp)
  {
    (op == ADD && p == AddiExec(r)) || (op == SUB && p == SubiExec(r))
  }

  /** The last cycle of all four: the ALU result goes to the register, its flags to the flags
      register, and the core commits to the word after `ip`. */
  function AluCommit(s: Regs, r: Reg, op: AluOp, b: SWord): Regs
  {
    AluApplied(s, r, op, b).(ip := Wrap32(s.ip + 1), addr := Wrap32(s.ip + 1), instrState := 0)
  }

  // ----- single execute cycles -----

  /** ADDI_ABS and SUBI_ABS, state 2: the operation on the bus word, and the commit. */
  lemma ImmediateApply(cfg: Config, m: Machine, p: Protocol, r: Reg, op: AluOp)
    requires ImmediateOp(p, r, op)
    requires InState(cfg, m, p, 2) && m.regs.rw
    ensures Tick(cfg, m) == Machine(AluCommit(m.regs, r, op, ToSigned(DataIn(m.mem, m.regs))), m.mem)
    ensures StackEvent(cfg, m) == None
  {
    if op == ADD {
      ExecuteStep(cfg, m);
    } else {
      ExecuteStep(cfg, m);
    }
  }

  /** ADDI and SUBI, state 2: point `addr` at the address held by the operand word. */
  lemma IndirectAddress(cfg: Config, m: Machine, p: Protocol, r: Reg, op: AluOp)
    requires IndirectOp(p, r, op)
    requires InState(cfg, m, p, 2) && m.regs.rw
    ensures Tick(cfg, m) == Machine(m.regs.(addr := DataIn(m.mem, m.regs), instrState := 3), m.mem)
    ensures StackEvent(cfg, m) == None
  {
  }

  /** ADDI and SUBI, state 3: the operation on the word read there, and the commit. */
  lemma IndirectApply(cfg: Config, m: Machine, p: Protocol, r: Reg, op: AluOp)
    requires IndirectOp(p, r, op)
    requires InState(cfg, m, p, 3) && m.regs.rw
    ensures Tick(cfg, m) == Machine(AluCommit(m.regs, r, op, ToSigned(DataIn(m.mem, m.regs))), m.mem)
    ensures StackEvent(cfg, m) == None
  {
    if op == ADD {
      ExecuteStep(cfg, m);
    } else {
      ExecuteStep(cfg, m);
    }
  }

  /** The ALU result depends on the register and the flags only, so the fields the fetch and
      the operand step change pass through it. */
  lemma AluCommitAfter(s: Regs, t: Regs, r: Reg, op: AluOp, b: SWord)
    requires t == s.(ir := t.ir, ip := t.ip, addr := t.addr, instrState := t.instrState)
    ensures AluCommit(t, r, op, b)
              == AluApplied(s, r, op, b).(ir := t.ir, ip := Wrap32(t.ip + 1), addr := Wrap32(t.ip + 1))
                   .(instrState := 0)
  {
    assert RegValue(t, r) == RegValue(s, r);
  }

  /** After the fetch and the operand step, the commit lands on `ip0 + 2` with `ir` holding
      the opcode word. */
  lemma CommitAfterOperand(m: Machine, t: Regs, r: Reg, op: AluOp, b: SWord)
    requires |m.mem| == Depth && m.regs.instrState == 0 && m.regs.rw && m.regs.addr == m.regs.ip
    requires t == m.regs.(ir := Opcode(m), ip := Wrap32(m.regs.ip + 1), addr := t.addr, instrState := t.instrState)
    ensures var next := Wrap32(m.regs.ip + 2);
            AluCommit(t, r, op, b) == AluApplied(m.regs, r, op, b).(ir := Opcode(m), ip := next, addr := next)
  {
    AluCommitAfter(m.regs, t, r, op, b);
    Wrap32Add(m.regs.ip + 1, 1);
  }

  // ----- whole instructions -----

  /** The clocks of ADDI_ABS and SUBI_ABS one by one, up to the commit. */
  lemma ImmediateClocks(cfg: Config, m: Machine, r: Reg, op: AluOp)
    requires AtFetch(cfg, m) && ImmediateOp(Fetches(cfg, m), r, op)
    ensures var m1 := Machine(m.regs.(ir := Opcode(m), instrState := 1), m.mem);
            && Run(cfg, m, 3) == Machine(AluCommit(Advance(m1.regs, m1.regs, 2), r, op, ToSigned(WordAt(m.mem, m.regs.ip + 1))), m.mem)
            && Events(cfg, m, 3) == [None, None, None]
  {
    var p := Fetches(cfg, m);
    var m1 := Machine(m.regs.(ir := Opcode(m), instrState := 1), m.mem);
    var m2 := Machine(Advance(m1.regs, m1.regs, 2), m.mem);
    var m3 := Machine(AluCommit(m2.regs, r, op, ToSigned(WordAt(m.mem, m.regs.ip + 1))), m.mem);
    assert DataIn(m2.mem, m2.regs) == WordAt(m.mem, m.regs.ip + 1);
    FetchStep(cfg, m);
    OperandStep(cfg, m1, p);
    ImmediateApply(cfg, m2, p, r, op);
    Chain3(cfg, m, m1, m2, m3, None, None, None);
  }

  /** The last state of ADDI_ABS and SUBI_ABS, seen from the fetch. */
  lemma ImmediateSettles(cfg: Config, m: Machine, r: Reg, op: AluOp)
    requires AtFetch(cfg, m)
    ensures var m1 := Machine(m.regs.(ir := Opcode(m), instrState := 1), m.mem);
            var v := ToSigned(WordAt(m.mem, m.regs.ip + 1)); var next := Wrap32(m.regs.ip + 2);
            var final := Machine(AluApplied(m.regs, r, op, v).(ir := Opcode(m), ip := next, addr := next), m.mem);
            && Machine(AluCommit(Advance(m1.regs, m1.regs, 2), r, op, v), m.mem) == final
            && AtFetch(cfg, final)
  {
    var m1 := Machine(m.regs.(ir := Opcode(m), instrState := 1), m.mem);
    CommitAfterOperand(m, Advance(m1.regs, m1.regs, 2), r, op, ToSigned(WordAt(m.mem, m.regs.ip + 1)));
  }

  /** ADDI_ABS (SUBI_ABS): three clocks; the register becomes the ALU sum (difference) of its
      value and the word at `ip0 + 1` read as signed, the flags follow the ALU rule, and the
      core commits to `ip0 + 2`. No other register and no memory word changes. */
  lemma ImmediateRun(cfg: Config, m: Machine, r: Reg, op: AluOp)
    requires AtFetch(cfg, m) && ImmediateOp(Fetches(cfg, m), r, op)
    ensures var v := ToSigned(WordAt(m.mem, m.regs.ip + 1)); var next := Wrap32(m.regs.ip + 2);
            && Run(cfg, m, 3) == Machine(AluApplied(m.regs, r, op, v).(ir := Opcode(m), ip := next, addr := next), m.mem)
            && Events(cfg, m, 3) == [None, None, None]
            && AtFetch(cfg, Run(cfg, m, 3))
  {
    ImmediateClocks(cfg, m, r, op);
    ImmediateSettles(cfg, m, r, op);
  }

  /** ADDI and SUBI, states 2 and 3 seen from the fetch: read the address, then apply the
      operation to the word there. */
  lemma IndirectTail(cfg: Config, m: Machine, r: Reg, op: AluOp)
    requires AtFetch(cfg, m) && IndirectOp(Fetches(cfg, m), r, op)
    ensures var m1 := m.regs.(ir := Opcode(m), instrState := 1);
            var m2 := Machine(Advance(m1, m1, 2), m.mem);
            var a := WordAt(m.mem, m.regs.ip + 1);
            var m3 := Machine(m2.regs.(addr := a, instrState := 3), m.mem);
            && Tick(cfg, m2) == m3 && StackEvent(cfg, m2) == None
            && Tick(cfg, m3) == Machine(AluCommit(m3.regs, r, op, ToSigned(WordAt(m.mem, a))), m.mem)
            && StackEvent(cfg, m3) == None
  {
    var p := Fetches(cfg, m);
    var m1 := m.regs.(ir := Opcode(m), instrState := 1);
    var m2 := Machine(Advance(m1, m1, 2), m.mem);
    var a := WordAt(m.mem, m.regs.ip + 1);
    var m3 := Machine(m2.regs.(addr := a, instrState := 3), m.mem);
    assert DataIn(m2.mem, m2.regs) == a;
    assert DataIn(m3.mem, m3.regs) == WordAt(m.mem, a);
    IndirectAddress(cfg, m2, p, r, op);
    IndirectApply(cfg, m3, p, r, op);
  }

  /** The clocks of ADDI and SUBI one by one, up to the commit. */
  lemma IndirectClocks(cfg: Config, m: Machine, r: Reg, op: AluOp)
    requires AtFetch(cfg, m) && IndirectOp(Fetches(cfg, m), r, op)
    ensures var m1 := Machine(m.regs.(ir := Opcode(m), instrState := 1), m.mem);
            var m3 := Machine(Advance(m1.regs, m1.regs, 2).(addr := WordAt(m.mem, m.regs.ip + 1), instrState := 3), m.mem);
            && Run(cfg, m, 4) == Machine(AluCommit(m3.regs, r, op, ToSigned(WordAt(m.mem, WordAt(m.mem, m.regs.ip + 1)))), m.mem)
            && Events(cfg, m, 4) == [None, None, None, None]
  {
    var p := Fetches(cfg, m);
    var m1 := Machine(m.regs.(ir := Opcode(m), instrState := 1), m.mem);
    var m2 := Machine(Advance(m1.regs, m1.regs, 2), m.mem);
    var a := WordAt(m.mem, m.regs.ip + 1);
    var m3 := Machine(m2.regs.(addr := a, instrState := 3), m.mem);
    var m4 := Machine(AluCommit(m3.regs, r, op, ToSigned(WordAt(m.mem, a))), m.mem);
    ToOperand(cfg, m, p);
    IndirectTail(cfg, m, r, op);
    Chain4(cfg, m, m1, m2, m3, m4, None, None, None, None);
  }

  /** The last state of ADDI and SUBI, seen from the fetch. */
  lemma IndirectSettles(cfg: Config, m: Machine, r: Reg, op: AluOp)
    requires AtFetch(cfg, m)
    ensures var m1 := Machine(m.regs.(ir := Opcode(m), instrState := 1), m.mem);
            var a := WordAt(m.mem, m.regs.ip + 1);
            var m3 := Machine(Advance(m1.regs, m1.regs, 2).(addr := a, instrState := 3), m.mem);
            var v := ToSigned(WordAt(m.mem, a)); var next := Wrap32(m.regs.ip + 2);
            var final := Machine(AluApplied(m.regs, r, op, v).(ir := Opcode(m), ip := next, addr := next), m.mem);
            && Machine(AluCommit(m3.regs, r, op, v), m.mem) == final
            && AtFetch(cfg, final)
  {
    var m1 := Machine(m.regs.(ir := Opcode(m), instrState := 1), m.mem);
    var t := Advance(m1.regs, m1.regs, 2).(addr := WordAt(m.mem, m.regs.ip + 1), instrState := 3);
    CommitAfterOperand(m, t, r, op, ToSigned(WordAt(m.mem, WordAt(m.mem, m.regs.ip + 1))));
  }

  /** ADDI (SUBI): four clocks; the word at `ip0 + 1` is an address, and the register becomes
      the ALU sum (difference) of its value and the word stored there read as signed; the core
      commits to `ip0 + 2`. */
  lemma IndirectRun(cfg: Config, m: Machine, r: Reg, op: AluOp)
    requires AtFetch(cfg, m) && IndirectOp(Fetches(cfg, m), r, op)
    ensures var v := ToSigned(WordAt(m.mem, WordAt(m.mem, m.regs.ip + 1))); var next := Wrap32(m.regs.ip + 2);
            && Run(cfg, m, 4) == Machine(AluApplied(m.regs, r, op, v).(ir := Opcode(m), ip := next, addr := next), m.mem)
            && Events(cfg, m, 4) == [None, None, None, None]
            && AtFetch(cfg, Run(cfg, m, 4))
  {
    IndirectClocks(cfg, m, r, op);
    IndirectSettles(cfg, m, r, op);
  }

  /** ADDI_ABS on register values whose sum fits: the register holds the exact sum, ZERO and
      NEGATIVE tell whether it is 0 or below 0, and CARRY, ERROR and OVERFLOW are kept. */
  lemma AddImmediateExact(cfg: Config, m: Machine, r: Reg)
    requires AtFetch(cfg, m) && Fetches(cfg, m) == AddiAbsExec(r)
    requires var sum := RegValue(m.regs, r) + ToSigned(WordAt(m.mem, m.regs.ip + 1));
             -0x8000_0000 <= sum < 0x8000_0000
    ensures var sum := RegValue(m.regs, r) + ToSigned(WordAt(m.mem, m.regs.ip + 1));
            var after := Run(cfg, m, 3).regs;
            && RegValue(after, r) == sum
            && (FlagOf(after.flags, ZERO) <==> sum == 0)
            && (FlagOf(after.flags, NEGATIVE) <==> sum < 0)
            && (forall f: Flag | f != ZERO && f != NEGATIVE :: FlagOf(after.flags, f) == FlagOf(m.regs.flags, f))
  {
    ImmediateRun(cfg, m, r, ADD);
    Alu.AddRule(RegValue(m.regs, r), ToSigned(WordAt(m.mem, m.regs.ip + 1)), m.regs.flags);
  }

  /** SUBI_ABS subtracting a register's own value: the register becomes 0 and both ZERO and
      NEGATIVE are set. */
  lemma SubImmediateSelf(cfg: Config, m: Machine, r: Reg)
    requires AtFetch(cfg, m) && Fetches(cfg, m) == SubiAbsExec(r)
    requires ToSigned(WordAt(m.mem, m.regs.ip + 1)) == RegValue(m.regs, r)
    ensures RegValue(Run(cfg, m, 3).regs, r) == 0
    ensures FlagOf(Run(cfg, m, 3).regs.flags, ZERO) && FlagOf(Run(cfg, m, 3).regs.flags, NEGATIVE)
  {
    ImmediateRun(cfg, m, r, SUB);
    Alu.SubEqualSetsZeroAndNegative(RegValue(m.regs, r), m.regs.flags);
  }

  /** INCI and DECI, state 1: the ALU answers INC and DEC with 0 and the ERROR bit alone;
      the register and the flags take that, and the core commits to the word after `ip`. */
  lemma StepApply(cfg: Config, m: Machine, r: Reg)
    requires InState(cfg, m, InciExec(r), 1) || InState(cfg, m, DeciExec(r), 1)
    requires m.regs.rw
    ensures var next := Wrap32(m.regs.ip + 1);
            Tick(cfg, m) == Machine(WithReg(m.regs, r, 0).(flags := 0x08, ip := next, addr := next,
                                                           instrState := 0), m.mem)
    ensures StackEvent(cfg, m) == None
  {
    if InState(cfg, m, InciExec(r), 1) {
      Alu.OtherOpsRaiseError(INC, RegValue(m.regs, r), 0, m.regs.flags);
      ExecuteStep(cfg, m);
    } else {
      Alu.OtherOpsRaiseError(DEC, RegValue(m.regs, r), 0, m.regs.flags);
      ExecuteStep(cfg, m);
    }
  }

  /** INCI and DECI: two clocks; the ALU has no INC or DEC case, so the register becomes 0,
      the flags become exactly the ERROR bit, and the core commits to `ip0 + 1`. */
  lemma StepRun(cfg: Config, m: Machine, r: Reg)
    requires AtFetch(cfg, m) && (Fetches(cfg, m) == InciExec(r) || Fetches(cfg, m) == DeciExec(r))
    ensures var next := Wrap32(m.regs.ip + 1);
            && Run(cfg, m, 2) == Machine(WithReg(m.regs, r, 0).(ir := Opcode(m), ip := next, addr := next,
                                                               flags := 0x08), m.mem)
            && Events(cfg, m, 2) == [None, None]
  {
    var next := Wrap32(m.regs.ip + 1);
    var m1 := Machine(m.regs.(ir := Opcode(m), instrState := 1), m.mem);
    var m2 := Machine(WithReg(m1.regs, r, 0).(flags := 0x08, ip := next, addr := next, instrState := 0), m.mem);
    FetchStep(cfg, m);
    StepApply(cfg, m1, r);
    Chain2(cfg, m, m1, m2, None, None);
  }
}
