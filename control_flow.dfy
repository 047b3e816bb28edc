/** Whole-instruction properties of the control-flow instructions: NOP, HALT, JMP, the
    conditional jumps and RET, each run from the fetch of its opcode at `ip0` to the commit
    that leaves the machine ready for the next fetch. */
module ControlFlow {
  import opened Types
  import opened Enums
  import opened Registry
  import opened CoreState
  import opened Cpu
  import opened Clock
  import Cjmp

  /** NOP: one fetch and one execute cycle that commits to `ip0 + 1`; nothing but `ir`, `ip`
      and `addr` changes, memory is untouched and no stack request is made. The same holds for
      any opcode nobody registered, since those decode to NOP's protocol. */
  lemma NopRun(cfg: Config, m: Machine)
    requires AtFetch(cfg, m) && Fetches(cfg, m) == NopExec
    ensures var next := Wrap32(m.regs.ip + 1);
            && Run(cfg, m, 2) == Machine(m.regs.(ir := Opcode(m), ip := next, addr := next), m.mem)
            && Events(cfg, m, 2) == [None, None]
            && AtFetch(cfg, Run(cfg, m, 2))
  {
    FetchStep(cfg, m);
    ExecuteStep(cfg, Tick(cfg, m));
  }

  /** HALT: one fetch and one execute cycle that commits to `ip0` itself, so the only change
      is `ir`, and the next fetch reads the same HALT again. */
  lemma HaltRun(cfg: Config, m: Machine)
    requires AtFetch(cfg, m) && Fetches(cfg, m) == HaltExec
    ensures Run(cfg, m, 2) == Machine(m.regs.(ir := Opcode(m)), m.mem)
    ensures Events(cfg, m, 2) == [None, None]
  {
    FetchStep(cfg, m);
    ExecuteStep(cfg, Tick(cfg, m));
  }

  /** HALT, state 1: commit to `ip` itself. */
  lemma HaltStep(cfg: Config, m: Machine)
    requires InState(cfg, m, HaltExec, 1) && m.regs.rw
    ensures Tick(cfg, m) == Machine(m.regs.(addr := m.regs.ip, instrState := 0), m.mem)
    ensures StackEvent(cfg, m) == None
  {
  }

  /** Two more clocks of a fetched HALT whose opcode is already in `ir` bring it back. */
  lemma HaltAgain(cfg: Config, h: Machine, k: nat)
    requires AtFetch(cfg, h) && Fetches(cfg, h) == HaltExec && h.regs.ir == Opcode(h)
    requires Run(cfg, h, k) == h && Silent(Events(cfg, h, k))
    ensures Run(cfg, h, k + 2) == h && Silent(Events(cfg, h, k + 2))
  {
    var h1 := Machine(h.regs.(instrState := 1), h.mem);
    var es := Events(cfg, h, k);
    FetchStep(cfg, h);
    HaltStep(cfg, h1);
    Prepend(cfg, h1, h, h, k, None, es);
    Prepend(cfg, h, h1, h, k + 1, None, [None] + es);
    assert Events(cfg, h, k + 2) == [None, None] + es;
  }

  /** Once HALT is fetched the core loops for ever: after every further pair of clocks it is
      in the same state, with memory unchanged and no stack request. */
  lemma HaltForever(cfg: Config, m: Machine, n: nat)
    requires AtFetch(cfg, m) && Fetches(cfg, m) == HaltExec
    ensures Run(cfg, m, 2 * n + 2) == Machine(m.regs.(ir := Opcode(m)), m.mem)
    ensures Silent(Events(cfg, m, 2 * n + 2))
  {
    var h := Machine(m.regs.(ir := Opcode(m)), m.mem);
    assert Opcode(h) == Opcode(m);
    HaltRun(cfg, m);
    var k := 0;
    while k < n
      invariant k <= n && Run(cfg, h, 2 * k) == h && Silent(Events(cfg, h, 2 * k))
    {
      HaltAgain(cfg, h, 2 * k);
      k := k + 1;
    }
    var m1 := Machine(h.regs.(instrState := 1), m.mem);
    var es := Events(cfg, h, 2 * n);
    FetchStep(cfg, m);
    HaltStep(cfg, m1);
    Prepend(cfg, m1, h, h, 2 * n, None, es);
    Prepend(cfg, m, m1, h, 2 * n + 1, None, [None] + es);
    assert Events(cfg, m, 2 * n + 2) == [None, None] + es;
  }

  /** JMP, and a conditional jump that is taken, in state 2: commit to the word on the bus. */
  lemma JumpCommit(cfg: Config, m: Machine, p: Protocol)
    requires p == JmpExec || (p.CjmpExec? && Cjmp.Taken(m.regs, p.flag, p.invert))
    requires InState(cfg, m, p, 2) && m.regs.rw
    ensures var target := DataIn(m.mem, m.regs);
            Tick(cfg, m) == Machine(m.regs.(ip := target, addr := target, instrState := 0), m.mem)
    ensures StackEvent(cfg, m) == None
  {
  }

  /** A taken conditional jump, state 1: step to the operand word. */
  lemma CjmpTakenStep(cfg: Config, m: Machine, flag: Flag, invert: bool)
    requires InState(cfg, m, CjmpExec(flag, invert), 1) && m.regs.rw && Cjmp.Taken(m.regs, flag, invert)
    ensures Tick(cfg, m) == Machine(Advance(m.regs, m.regs, 2), m.mem)
    ensures StackEvent(cfg, m) == None
  {
  }

  /** JMP: three clocks; the second steps to `ip0 + 1`, the third commits to the word stored
      there. Flags, registers and memory are untouched. */
  lemma JmpRun(cfg: Config, m: Machine)
    requires AtFetch(cfg, m) && Fetches(cfg, m) == JmpExec
    ensures var target := WordAt(m.mem, m.regs.ip + 1);
            && Run(cfg, m, 3) == Machine(m.regs.(ir := Opcode(m), ip := target, addr := target), m.mem)
            && Events(cfg, m, 3) == [None, None, None]
            && AtFetch(cfg, Run(cfg, m, 3))
  {
    var target := WordAt(m.mem, m.regs.ip + 1);
    var m1 := Machine(m.regs.(ir := Opcode(m), instrState := 1), m.mem);
    var m2 := Machine(Advance(m1.regs, m1.regs, 2), m.mem);
    var m3 := Machine(m.regs.(ir := Opcode(m), ip := target, addr := target), m.mem);
    assert DataIn(m2.mem, m2.regs) == target;
    FetchStep(cfg, m);
    OperandStep(cfg, m1, JmpExec);
    JumpCommit(cfg, m2, JmpExec);
    Chain3(cfg, m, m1, m2, m3, None, None, None);
  }

  /** A conditional jump whose flag bit (negated when `invert` is set) is clear commits to
      `ip0 + 3` in its first execute cycle. */
  lemma CjmpNotTakenRun(cfg: Config, m: Machine, flag: Flag, invert: bool)
    requires AtFetch(cfg, m) && Fetches(cfg, m) == CjmpExec(flag, invert)
    requires FlagOf(m.regs.flags, flag) == invert
    ensures var next := Wrap32(m.regs.ip + 3);
            && Run(cfg, m, 2) == Machine(m.regs.(ir := Opcode(m), ip := next, addr := next), m.mem)
            && Events(cfg, m, 2) == [None, None]
  {
    FetchStep(cfg, m);
    ExecuteStep(cfg, Tick(cfg, m));
  }

  /** A conditional jump whose flag bit holds steps to `ip0 + 1` and commits to the word
      stored there. Neither outcome touches flags, registers or memory. */
  lemma CjmpTakenRun(cfg: Config, m: Machine, flag: Flag, invert: bool)
    requires AtFetch(cfg, m) && Fetches(cfg, m) == CjmpExec(flag, invert)
    requires FlagOf(m.regs.flags, flag) != invert
    ensures var target := WordAt(m.mem, m.regs.ip + 1);
            && Run(cfg, m, 3) == Machine(m.regs.(ir := Opcode(m), ip := target, addr := target), m.mem)
            && Events(cfg, m, 3) == [None, None, None]
  {
    var target := WordAt(m.mem, m.regs.ip + 1);
    var m1 := Machine(m.regs.(ir := Opcode(m), instrState := 1), m.mem);
    var m2 := Machine(Advance(m1.regs, m1.regs, 2), m.mem);
    var m3 := Machine(m.regs.(ir := Opcode(m), ip := target, addr := target), m.mem);
    assert DataIn(m2.mem, m2.regs) == target;
    FetchStep(cfg, m);
    CjmpTakenStep(cfg, m1, flag, invert);
    JumpCommit(cfg, m2, CjmpExec(flag, invert));
    Chain3(cfg, m, m1, m2, m3, None, None, None);
  }

  /** RET in an execute cycle after its pop request commits to whatever word the bus
      carries, and changes nothing else. */
  lemma RetCommitsBusWord(cfg: Config, s: Regs, d: Word)
    requires Elaborates(cfg) && cfg.useResetVector
    requires s.resetState == 2 && s.instrState == 2 && Decode(cfg, s.ir) == RetExec
    ensures Next(cfg, s, d) == s.(ip := d, addr := d, instrState := 0)
  {
  }

  /** RET, state 1: request a pop. */
  lemma RetRequest(cfg: Config, m: Machine)
    requires InState(cfg, m, RetExec, 1) && m.regs.rw
    ensures Tick(cfg, m) == Machine(m.regs.(instrState := 2), m.mem)
    ensures StackEvent(cfg, m) == Some(PopRequest)
  {
  }

  /** RET, state 2: commit to the word on the bus. */
  lemma RetCommit(cfg: Config, m: Machine)
    requires InState(cfg, m, RetExec, 2) && m.regs.rw
    ensures var d := DataIn(m.mem, m.regs);
            Tick(cfg, m) == Machine(m.regs.(ip := d, addr := d, instrState := 0), m.mem)
    ensures StackEvent(cfg, m) == None
  {
  }

  /** RET with the bus served by memory: it requests one pop, but `addr` still points at the
      opcode when the commit happens, so the core jumps to the address equal to its own opcode
      word (0xB5 for the registered RET). */
  lemma RetRun(cfg: Config, m: Machine)
    requires AtFetch(cfg, m) && Fetches(cfg, m) == RetExec
    ensures var op := Opcode(m);
            && Run(cfg, m, 3) == Machine(m.regs.(ir := op, ip := op, addr := op), m.mem)
            && Events(cfg, m, 3) == [None, Some(PopRequest), None]
  {
    var op := Opcode(m);
    var m1 := Machine(m.regs.(ir := op, instrState := 1), m.mem);
    var m2 := Machine(m1.regs.(instrState := 2), m.mem);
    var m3 := Machine(m.regs.(ir := op, ip := op, addr := op), m.mem);
    FetchStep(cfg, m);
    RetRequest(cfg, m1);
    assert DataIn(m2.mem, m2.regs) == op;
    RetCommit(cfg, m2);
    Chain3(cfg, m, m1, m2, m3, None, Some(PopRequest), None);
  }
}
