/** Whole-instruction properties of PUSH, PUSHA/PUSHB/PUSHX and POP. The stack unit is not
    part of the core: a request is an output of the clock it is made in, and `data_in` is
    served by memory, so what POP stores is the word memory puts on the bus, not a value a
    stack unit would supply. */
module StackRuns {
  import opened Types
  import opened Registry
  import opened CoreState
  import opened Cpu
  import opened Clock

  /** The commit all three end with: `RW` raised, `data_out` cleared, `ip` and `addr` on the
      word after `ip`. */
  function Finish(s: Regs): Regs
  {
    s.(ip := Wrap32(s.ip + 1), addr := Wrap32(s.ip + 1), instrState := 0, rw := true, dataOut := 0)
  }

  // ----- single execute cycles -----

  /** PUSH, state 2: point `addr` at the address held by the operand word. */
  lemma PushAddress(cfg: Config, m: Machine)
    requires InState(cfg, m, PushExec, 2) && m.regs.rw
    ensures Tick(cfg, m) == Machine(m.regs.(addr := DataIn(m.mem, m.regs), instrState := 3), m.mem)
    ensures StackEvent(cfg, m) == None
  {
  }

  /** PUSH, state 3: request a push of the word read there. */
  lemma PushRequestStep(cfg: Config, m: Machine)
    requires InState(cfg, m, PushExec, 3) && m.regs.rw
    ensures Tick(cfg, m) == Machine(m.regs.(instrState := 4), m.mem)
    ensures StackEvent(cfg, m) == Some(PushRequest(DataIn(m.mem, m.regs)))
  {
  }

  /** PUSH, state 4: commit. */
  lemma PushFinish(cfg: Config, m: Machine)
    requires InState(cfg, m, PushExec, 4) && m.regs.rw
    ensures Tick(cfg, m) == Machine(Finish(m.regs), m.mem)
    ensures StackEvent(cfg, m) == None
  {
  }

  /** PUSHA/PUSHB/PUSHX, state 1: request a push of the register. */
  lemma PushiRequest(cfg: Config, m: Machine, r: Reg)
    requires InState(cfg, m, PushiExec(r), 1) && m.regs.rw
    ensures Tick(cfg, m) == Machine(m.regs.(instrState := 2), m.mem)
    ensures StackEvent(cfg, m) == Some(PushRequest(RegValue(m.regs, r)))
  {
  }

  /** PUSHA/PUSHB/PUSHX, state 2: commit. */
  lemma PushiFinish(cfg: Config, m: Machine, r: Reg)
    requires InState(cfg, m, PushiExec(r), 2) && m.regs.rw
    ensures Tick(cfg, m) == Machine(Finish(m.regs), m.mem)
    ensures StackEvent(cfg, m) == None
  {
  }

  /** POP, state 1: request a pop. */
  lemma PopRequestStep(cfg: Config, m: Machine)
    requires InState(cfg, m, PopExec, 1) && m.regs.rw
    ensures Tick(cfg, m) == Machine(m.regs.(instrState := 2), m.mem)
    ensures StackEvent(cfg, m) == Some(PopRequest)
  {
  }

  /** POP, state 2: latch the bus word into `tmp32` and step to the operand. */
  lemma PopLatch(cfg: Config, m: Machine)
    requires InState(cfg, m, PopExec, 2) && m.regs.rw
    ensures Tick(cfg, m) == Machine(Advance(m.regs, m.regs.(tmp32 := DataIn(m.mem, m.regs)), 3), m.mem)
    ensures StackEvent(cfg, m) == None
  {
  }

  /** POP, state 3: point `addr` at the operand address and drive `tmp32` onto `data_out` with
      `RW` low. */
  lemma PopDrive(cfg: Config, m: Machine)
    requires InState(cfg, m, PopExec, 3) && m.regs.rw
    ensures Tick(cfg, m) == Machine(m.regs.(addr := DataIn(m.mem, m.regs), dataOut := m.regs.tmp32,
                                            instrState := 4, rw := false), m.mem)
    ensures StackEvent(cfg, m) == None
  {
  }

  /** POP, state 4: the write port stores `data_out` at `addr`; the core commits and clears
      `tmp32`. */
  lemma PopFinish(cfg: Config, m: Machine)
    requires InState(cfg, m, PopExec, 4) && !m.regs.rw
    ensures Tick(cfg, m) == Machine(Finish(m.regs).(tmp32 := 0), m.mem[m.regs.addr % Depth := m.regs.dataOut])
    ensures StackEvent(cfg, m) == None
  {
  }

  /** After the fetch and the operand step, the commit lands on `ip0 + 2`, with `ir` holding
      the opcode word and `data_out` cleared. */
  lemma FinishAfterOperand(m: Machine, t: Regs)
    requires |m.mem| == Depth && m.regs.instrState == 0 && m.regs.rw && m.regs.addr == m.regs.ip
    requires t == m.regs.(ir := Opcode(m), ip := Wrap32(m.regs.ip + 1), addr := t.addr, instrState := t.instrState,
                          rw := t.rw, dataOut := t.dataOut)
    ensures var next := Wrap32(m.regs.ip + 2);
            Finish(t) == m.regs.(ir := Opcode(m), ip := next, addr := next, dataOut := 0)
  {
    Wrap32Add(m.regs.ip + 1, 1);
  }

  // ----- whole instructions -----

  /** PUSH, states 2 to 4 seen from the fetch: read the address, request the push of the
      word there, finish. */
  lemma PushTail(cfg: Config, m: Machine)
    requires AtFetch(cfg, m) && Fetches(cfg, m) == PushExec
    ensures var m1 := m.regs.(ir := Opcode(m), instrState := 1);
            var m2 := Machine(Advance(m1, m1, 2), m.mem);
            var a := WordAt(m.mem, m.regs.ip + 1);
            var m3 := Machine(m2.regs.(addr := a, instrState := 3), m.mem);
            var m4 := Machine(m3.regs.(instrState := 4), m.mem);
            && Tick(cfg, m2) == m3 && StackEvent(cfg, m2) == None
            && Tick(cfg, m3) == m4 && StackEvent(cfg, m3) == Some(PushRequest(WordAt(m.mem, a)))
            && Tick(cfg, m4) == Machine(Finish(m4.regs), m.mem) && StackEvent(cfg, m4) == None
  {
    var m1 := m.regs.(ir := Opcode(m), instrState := 1);
    var m2 := Machine(Advance(m1, m1, 2), m.mem);
    var a := WordAt(m.mem, m.regs.ip + 1);
    var m3 := Machine(m2.regs.(addr := a, instrState := 3), m.mem);
    var m4 := Machine(m3.regs.(instrState := 4), m.mem);
    assert DataIn(m2.mem, m2.regs) == a;
    assert DataIn(m3.mem, m3.regs) == WordAt(m.mem, a);
    PushAddress(cfg, m2);
    PushRequestStep(cfg, m3);
    PushFinish(cfg, m4);
  }

  lemma PushClocks(cfg: Config, m: Machine)
    requires AtFetch(cfg, m) && Fetches(cfg, m) == PushExec
    ensures var m1 := Machine(m.regs.(ir := Opcode(m), instrState := 1), m.mem);
            var a := WordAt(m.mem, m.regs.ip + 1);
            && Run(cfg, m, 5) == Machine(Finish(Advance(m1.regs, m1.regs, 2).(addr := a, instrState := 4)), m.mem)
            && Events(cfg, m, 5) == [None, None, None, Some(PushRequest(WordAt(m.mem, a))), None]
  {
    var m1 := Machine(m.regs.(ir := Opcode(m), instrState := 1), m.mem);
    var m2 := Machine(Advance(m1.regs, m1.regs, 2), m.mem);
    var a := WordAt(m.mem, m.regs.ip + 1);
    var m3 := Machine(m2.regs.(addr := a, instrState := 3), m.mem);
    var m4 := Machine(m3.regs.(instrState := 4), m.mem);
    var m5 := Machine(Finish(m4.regs), m.mem);
    ToOperand(cfg, m, PushExec);
    PushTail(cfg, m);
    Chain5(cfg, m, m1, m2, m3, m4, m5, None, None, None, Some(PushRequest(WordAt(m.mem, a))), None);
  }

  /** PUSH's last state, seen from the fetch. */
  lemma PushSettles(cfg: Config, m: Machine)
    requires AtFetch(cfg, m)
    ensures var m1 := Machine(m.regs.(ir := Opcode(m), instrState := 1), m.mem);
            var a := WordAt(m.mem, m.regs.ip + 1); var next := Wrap32(m.regs.ip + 2);
            var final := Machine(m.regs.(ir := Opcode(m), ip := next, addr := next, dataOut := 0), m.mem);
            && Machine(Finish(Advance(m1.regs, m1.regs, 2).(addr := a, instrState := 4)), m.mem) == final
            && AtFetch(cfg, final)
  {
    var m1 := Machine(m.regs.(ir := Opcode(m), instrState := 1), m.mem);
    FinishAfterOperand(m, Advance(m1.regs, m1.regs, 2).(addr := WordAt(m.mem, m.regs.ip + 1), instrState := 4));
  }

  /** PUSH: five clocks; the fourth requests a push of the memory word whose address follows
      the opcode, and the core commits to `ip0 + 2` with `data_out` cleared. Registers, flags
      and memory are untouched. */
  lemma PushRun(cfg: Config, m: Machine)
    requires AtFetch(cfg, m) && Fetches(cfg, m) == PushExec
    ensures var a := WordAt(m.mem, m.regs.ip + 1); var next := Wrap32(m.regs.ip + 2);
            && Run(cfg, m, 5) == Machine(m.regs.(ir := Opcode(m), ip := next, addr := next, dataOut := 0), m.mem)
            && Events(cfg, m, 5) == [None, None, None, Some(PushRequest(WordAt(m.mem, a))), None]
            && AtFetch(cfg, Run(cfg, m, 5))
  {
    PushClocks(cfg, m);
    PushSettles(cfg, m);
  }

  lemma PushiClocks(cfg: Config, m: Machine, r: Reg)
    requires AtFetch(cfg, m) && Fetches(cfg, m) == PushiExec(r)
    ensures var m1 := m.regs.(ir := Opcode(m), instrState := 1);
            && Run(cfg, m, 3) == Machine(Finish(m1.(instrState := 2)), m.mem)
            && Events(cfg, m, 3) == [None, Some(PushRequest(RegValue(m.regs, r))), None]
  {
    var m1 := Machine(m.regs.(ir := Opcode(m), instrState := 1), m.mem);
    var m2 := Machine(m1.regs.(instrState := 2), m.mem);
    var m3 := Machine(Finish(m2.regs), m.mem);
    FetchStep(cfg, m);
    PushiRequest(cfg, m1, r);
    PushiFinish(cfg, m2, r);
    Chain3(cfg, m, m1, m2, m3, None, Some(PushRequest(RegValue(m.regs, r))), None);
  }

  /** PUSHA, PUSHB, PUSHX: three clocks; the second requests a push of the register, and the
      core commits to `ip0 + 1` with `data_out` cleared. Nothing else changes. */
  lemma PushiRun(cfg: Config, m: Machine, r: Reg)
    requires AtFetch(cfg, m) && Fetches(cfg, m) == PushiExec(r)
    ensures var next := Wrap32(m.regs.ip + 1);
            && Run(cfg, m, 3) == Machine(m.regs.(ir := Opcode(m), ip := next, addr := next, dataOut := 0), m.mem)
            && Events(cfg, m, 3) == [None, Some(PushRequest(RegValue(m.regs, r))), None]
            && AtFetch(cfg, Run(cfg, m, 3))
  {
    PushiClocks(cfg, m, r);
  }

  /** POP, the fetch and state 1: request the pop. */
  lemma PopHead(cfg: Config, m: Machine)
    requires AtFetch(cfg, m) && Fetches(cfg, m) == PopExec
    ensures var m1 := Machine(m.regs.(ir := Opcode(m), instrState := 1), m.mem);
            && Tick(cfg, m) == m1 && StackEvent(cfg, m) == None
            && Tick(cfg, m1) == Machine(m.regs.(ir := Opcode(m), instrState := 2), m.mem)
            && StackEvent(cfg, m1) == Some(PopRequest)
  {
    var m1 := Machine(m.regs.(ir := Opcode(m), instrState := 1), m.mem);
    FetchStep(cfg, m);
    PopRequestStep(cfg, m1);
  }

  /** POP, states 2 to 4: latch the word on the bus, point `addr` at the operand address and
      drive the latched word, then store it and finish. */
  lemma PopTail(cfg: Config, m: Machine)
    requires AtFetch(cfg, m) && Fetches(cfg, m) == PopExec
    ensures var m2 := Machine(m.regs.(ir := Opcode(m), instrState := 2), m.mem);
            var m3 := Machine(Advance(m2.regs, m2.regs.(tmp32 := Opcode(m)), 3), m.mem);
            var a := WordAt(m.mem, m.regs.ip + 1);
            var m4 := Machine(m3.regs.(addr := a, dataOut := Opcode(m), instrState := 4, rw := false), m.mem);
            && Tick(cfg, m2) == m3 && StackEvent(cfg, m2) == None
            && Tick(cfg, m3) == m4 && StackEvent(cfg, m3) == None
            && Tick(cfg, m4) == Machine(Finish(m4.regs).(tmp32 := 0), m.mem[a % Depth := Opcode(m)])
            && StackEvent(cfg, m4) == None
  {
    var m2 := Machine(m.regs.(ir := Opcode(m), instrState := 2), m.mem);
    var m3 := Machine(Advance(m2.regs, m2.regs.(tmp32 := Opcode(m)), 3), m.mem);
    var a := WordAt(m.mem, m.regs.ip + 1);
    var m4 := Machine(m3.regs.(addr := a, dataOut := Opcode(m), instrState := 4, rw := false), m.mem);
    assert DataIn(m2.mem, m2.regs) == Opcode(m);
    assert DataIn(m3.mem, m3.regs) == a;
    PopLatch(cfg, m2);
    PopDrive(cfg, m3);
    PopFinish(cfg, m4);
  }

  lemma PopClocks(cfg: Config, m: Machine)
    requires AtFetch(cfg, m) && Fetches(cfg, m) == PopExec
    ensures var m1 := Machine(m.regs.(ir := Opcode(m), instrState := 1), m.mem);
            var a := WordAt(m.mem, m.regs.ip + 1);
            var t := Advance(m.regs.(ir := Opcode(m), instrState := 2), m.regs.(ir := Opcode(m), instrState := 2, tmp32 := Opcode(m)), 3);
            && Run(cfg, m, 5) == Machine(Finish(t.(addr := a, dataOut := Opcode(m), instrState := 4, rw := false)).(tmp32 := 0),
                                         m.mem[a % Depth := Opcode(m)])
            && Events(cfg, m, 5) == [None, Some(PopRequest), None, None, None]
  {
    var m1 := Machine(m.regs.(ir := Opcode(m), instrState := 1), m.mem);
    var m2 := Machine(m.regs.(ir := Opcode(m), instrState := 2), m.mem);
    var m3 := Machine(Advance(m2.regs, m2.regs.(tmp32 := Opcode(m)), 3), m.mem);
    var a := WordAt(m.mem, m.regs.ip + 1);
    var m4 := Machine(m3.regs.(addr := a, dataOut := Opcode(m), instrState := 4, rw := false), m.mem);
    var m5 := Machine(Finish(m4.regs).(tmp32 := 0), m.mem[a % Depth := Opcode(m)]);
    PopHead(cfg, m);
    PopTail(cfg, m);
    Chain5(cfg, m, m1, m2, m3, m4, m5, None, Some(PopRequest), None, None, None);
  }

  /** POP's last state, seen from the fetch. */
  lemma PopSettles(cfg: Config, m: Machine)
    requires AtFetch(cfg, m)
    ensures var m1 := Machine(m.regs.(ir := Opcode(m), instrState := 1), m.mem);
            var a := WordAt(m.mem, m.regs.ip + 1); var next := Wrap32(m.regs.ip + 2);
            var t := Advance(m.regs.(ir := Opcode(m), instrState := 2), m.regs.(ir := Opcode(m), instrState := 2, tmp32 := Opcode(m)), 3);
            var mem := m.mem[a % Depth := Opcode(m)];
            var final := Machine(m.regs.(ir := Opcode(m), ip := next, addr := next, tmp32 := 0, dataOut := 0), mem);
            && Machine(Finish(t.(addr := a, dataOut := Opcode(m), instrState := 4, rw := false)).(tmp32 := 0), mem) == final
            && AtFetch(cfg, final)
  {
    var m1 := Machine(m.regs.(ir := Opcode(m), instrState := 1), m.mem);
    var t := Advance(m.regs.(ir := Opcode(m), instrState := 2), m.regs.(ir := Opcode(m), instrState := 2, tmp32 := Opcode(m)), 3);
    FinishAfterOperand(m, t.(addr := WordAt(m.mem, m.regs.ip + 1), dataOut := Opcode(m), instrState := 4, rw := false,
                             tmp32 := m.regs.tmp32));
  }

  /** POP with the bus served by memory: five clocks; it requests one pop, but the word it
      latches is the one at `addr`, still the opcode's own address, so it stores its own opcode
      word at the address held in the word at `ip0 + 1`, and commits to `ip0 + 2` with `tmp32`
      and `data_out` cleared. Registers and flags are untouched. */
  lemma PopRun(cfg: Config, m: Machine)
    requires AtFetch(cfg, m) && Fetches(cfg, m) == PopExec
    ensures var a := WordAt(m.mem, m.regs.ip + 1); var next := Wrap32(m.regs.ip + 2);
            && Run(cfg, m, 5) == Machine(m.regs.(ir := Opcode(m), ip := next, addr := next, tmp32 := 0, dataOut := 0),
                                         m.mem[a % Depth := Opcode(m)])
            && Events(cfg, m, 5) == [None, Some(PopRequest), None, None, None]
            && AtFetch(cfg, Run(cfg, m, 5))
  {
    PopClocks(cfg, m);
    PopSettles(cfg, m);
  }
}
