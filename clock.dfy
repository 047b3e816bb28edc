/** Facts about single clocks of the machine that the whole-instruction properties are built
    from: a fetch, an execute cycle, and how runs compose. */
module Clock {
  import opened Types
  import opened Registry
  import opened CoreState
  import opened Cpu

  /** The word the memory holds at address `a` of the 32-bit address space. */
  function WordAt(mem: seq<Word>, a: int): Word
    requires |mem| == Depth
  {
    mem[Wrap32(a) % Depth]
  }

  /** A machine about to fetch: the vectored reset is done, no instruction is in progress, and
      the bus reads the word at `ip`. Every commit leaves the machine in this state. */
  predicate AtFetch(cfg: Config, m: Machine)
  {
    && Elaborates(cfg) && cfg.useResetVector && |m.mem| == Depth
    && m.regs.resetState == 2 && m.regs.instrState == 0 && m.regs.rw && m.regs.addr == m.regs.ip
  }

  /** The opcode word the next fetch reads. */
  function Opcode(m: Machine): Word
    requires |m.mem| == Depth
  {
    WordAt(m.mem, m.regs.ip)
  }

  /** The protocol the next fetched instruction runs. */
  function Fetches(cfg: Config, m: Machine): Protocol
    requires Elaborates(cfg) && |m.mem| == Depth
  {
    Decode(cfg, Opcode(m))
  }

  /** Clocks in which no stack request is made. */
  predicate Silent(events: seq<Option<StackRequest>>)
  {
    forall i | 0 <= i < |events| :: events[i] == None
  }

  /** A fetch latches the opcode word into `ir`, enters micro-state 1 and changes nothing
      else; it writes no memory and requests nothing of the stack. */
  lemma FetchStep(cfg: Config, m: Machine)
    requires AtFetch(cfg, m)
    ensures Tick(cfg, m) == Machine(m.regs.(ir := Opcode(m), instrState := 1), m.mem)
    ensures StackEvent(cfg, m) == None
  {
  }

  /** An execute cycle after the vectored reset: the protocol's commit, the ALU flags it
      enables and its own writes, in that order, and the write port. */
  lemma ExecuteStep(cfg: Config, m: Machine)
    requires Elaborates(cfg) && cfg.useResetVector && |m.mem| == Depth
    requires m.regs.resetState == 2 && m.regs.instrState != 0
    ensures var s := m.regs; var d := DataIn(m.mem, s);
            var p := Decode(cfg, s.ir); var own := InstrComb(p, s, d);
            && Tick(cfg, m) == Machine(InstrSync(p, s, d, AluSync(own.alu, Commit(s, own.end))),
                                      MemoryAfter(m.mem, s))
            && StackEvent(cfg, m) == own.stack
  {
  }

  /** A machine in micro-state `k` of the instruction whose protocol is `p`, after the vectored
      reset. */
  predicate InState(cfg: Config, m: Machine, p: Protocol, k: int)
  {
    && Elaborates(cfg) && cfg.useResetVector && |m.mem| == Depth
    && m.regs.resetState == 2 && m.regs.instrState == k && Decode(cfg, m.regs.ir) == p
  }

  /** The protocols whose first execute cycle does nothing but `advance_ip_goto_state(2)`. */
  predicate StepsToOperand(p: Protocol)
  {
    p.JmpExec? || p.LdiAbsExec? || p.LdiExec? || p.AddiAbsExec? || p.AddiExec? || p.SubiAbsExec?
    || p.SubiExec? || p.StiExec? || p.MovExec? || p.PushExec?
  }

  /** Their state 1 steps `ip` and `addr` to the operand word. */
  lemma OperandStep(cfg: Config, m: Machine, p: Protocol)
    requires StepsToOperand(p) && InState(cfg, m, p, 1) && m.regs.rw
    ensures Tick(cfg, m) == Machine(Advance(m.regs, m.regs, 2), m.mem)
    ensures StackEvent(cfg, m) == None
  {
  }

  /** The fetch and state 1 of an instruction with an operand reach the operand word. */
  lemma ToOperand(cfg: Config, m: Machine, p: Protocol)
    requires AtFetch(cfg, m) && Fetches(cfg, m) == p && StepsToOperand(p)
    ensures var m1 := Machine(m.regs.(ir := Opcode(m), instrState := 1), m.mem);
            && Tick(cfg, m) == m1 && StackEvent(cfg, m) == None
            && Tick(cfg, m1) == Machine(Advance(m1.regs, m1.regs, 2), m.mem) && StackEvent(cfg, m1) == None
  {
    var m1 := Machine(m.regs.(ir := Opcode(m), instrState := 1), m.mem);
    FetchStep(cfg, m);
    OperandStep(cfg, m1, p);
  }

  // The lemmas below put together runs whose single clocks are already known; each whole-
  // instruction property is proved by naming its machines clock by clock.

  /** One clock in front of a run of `n`. */
  lemma Prepend(cfg: Config, m0: Machine, m1: Machine, mf: Machine, n: nat,
                e0: Option<StackRequest>, es: seq<Option<StackRequest>>)
    requires Elaborates(cfg) && |m0.mem| == Depth && |m1.mem| == Depth
    requires Tick(cfg, m0) == m1 && StackEvent(cfg, m0) == e0
    requires Run(cfg, m1, n) == mf && Events(cfg, m1, n) == es
    ensures Run(cfg, m0, n + 1) == mf && Events(cfg, m0, n + 1) == [e0] + es
  {
  }

  lemma Chain2(cfg: Config, m0: Machine, m1: Machine, m2: Machine,
               e0: Option<StackRequest>, e1: Option<StackRequest>)
    requires Elaborates(cfg) && |m0.mem| == Depth && |m1.mem| == Depth
    requires Tick(cfg, m0) == m1 && Tick(cfg, m1) == m2
    requires StackEvent(cfg, m0) == e0 && StackEvent(cfg, m1) == e1
    ensures Run(cfg, m0, 2) == m2 && Events(cfg, m0, 2) == [e0, e1]
  {
  }

  lemma Chain3(cfg: Config, m0: Machine, m1: Machine, m2: Machine, m3: Machine,
               e0: Option<StackRequest>, e1: Option<StackRequest>, e2: Option<StackRequest>)
    requires Elaborates(cfg) && |m0.mem| == Depth && |m1.mem| == Depth && |m2.mem| == Depth
    requires Tick(cfg, m0) == m1 && Tick(cfg, m1) == m2 && Tick(cfg, m2) == m3
    requires StackEvent(cfg, m0) == e0 && StackEvent(cfg, m1) == e1 && StackEvent(cfg, m2) == e2
    ensures Run(cfg, m0, 3) == m3 && Events(cfg, m0, 3) == [e0, e1, e2]
  {
    Chain2(cfg, m1, m2, m3, e1, e2);
    Prepend(cfg, m0, m1, m3, 2, e0, [e1, e2]);
  }

  lemma Chain4(cfg: Config, m0: Machine, m1: Machine, m2: Machine, m3: Machine, m4: Machine,
               e0: Option<StackRequest>, e1: Option<StackRequest>, e2: Option<StackRequest>,
               e3: Option<StackRequest>)
    requires Elaborates(cfg) && |m0.mem| == Depth && |m1.mem| == Depth && |m2.mem| == Depth
    requires |m3.mem| == Depth
    requires Tick(cfg, m0) == m1 && Tick(cfg, m1) == m2 && Tick(cfg, m2) == m3 && Tick(cfg, m3) == m4
    requires StackEvent(cfg, m0) == e0 && StackEvent(cfg, m1) == e1 && StackEvent(cfg, m2) == e2
    requires StackEvent(cfg, m3) == e3
    ensures Run(cfg, m0, 4) == m4 && Events(cfg, m0, 4) == [e0, e1, e2, e3]
  {
    Chain3(cfg, m1, m2, m3, m4, e1, e2, e3);
    Prepend(cfg, m0, m1, m4, 3, e0, [e1, e2, e3]);
  }

  lemma Chain5(cfg: Config, m0: Machine, m1: Machine, m2: Machine, m3: Machine, m4: Machine, m5: Machine,
               e0: Option<StackRequest>, e1: Option<StackRequest>, e2: Option<StackRequest>,
               e3: Option<StackRequest>, e4: Option<StackRequest>)
    requires Elaborates(cfg) && |m0.mem| == Depth && |m1.mem| == Depth && |m2.mem| == Depth
    requires |m3.mem| == Depth && |m4.mem| == Depth
    requires Tick(cfg, m0) == m1 && Tick(cfg, m1) == m2 && Tick(cfg, m2) == m3 && Tick(cfg, m3) == m4
    requires Tick(cfg, m4) == m5
    requires StackEvent(cfg, m0) == e0 && StackEvent(cfg, m1) == e1 && StackEvent(cfg, m2) == e2
    requires StackEvent(cfg, m3) == e3 && StackEvent(cfg, m4) == e4
    ensures Run(cfg, m0, 5) == m5 && Events(cfg, m0, 5) == [e0, e1, e2, e3, e4]
  {
    Chain4(cfg, m1, m2, m3, m4, m5, e1, e2, e3, e4);
    Prepend(cfg, m0, m1, m5, 4, e0, [e1, e2, e3, e4]);
  }

  /** Four events put in front of a sequence of events one at a time. */
  lemma ConsFour<T>(e0: T, e1: T, e2: T, e3: T, es: seq<T>)
    ensures [e0] + ([e1] + ([e2] + ([e3] + es))) == [e0, e1, e2, e3] + es
  {
  }

  /** Four clocks in front of a run of `n`. */
  lemma Lead4(cfg: Config, m0: Machine, m1: Machine, m2: Machine, m3: Machine, m4: Machine,
              e0: Option<StackRequest>, e1: Option<StackRequest>, e2: Option<StackRequest>,
              e3: Option<StackRequest>, mf: Machine, n: nat, es: seq<Option<StackRequest>>)
    requires Elaborates(cfg) && |m0.mem| == Depth && |m1.mem| == Depth && |m2.mem| == Depth
    requires |m3.mem| == Depth && |m4.mem| == Depth
    requires Tick(cfg, m0) == m1 && Tick(cfg, m1) == m2 && Tick(cfg, m2) == m3 && Tick(cfg, m3) == m4
    requires StackEvent(cfg, m0) == e0 && StackEvent(cfg, m1) == e1 && StackEvent(cfg, m2) == e2
    requires StackEvent(cfg, m3) == e3
    requires Run(cfg, m4, n) == mf && Events(cfg, m4, n) == es
    ensures Run(cfg, m0, n + 4) == mf && Events(cfg, m0, n + 4) == [e0, e1, e2, e3] + es
  {
    Prepend(cfg, m3, m4, mf, n, e3, es);
    Prepend(cfg, m2, m3, mf, n + 1, e2, [e3] + es);
    Prepend(cfg, m1, m2, mf, n + 2, e1, [e2] + ([e3] + es));
    Prepend(cfg, m0, m1, mf, n + 3, e0, [e1] + ([e2] + ([e3] + es)));
    ConsFour(e0, e1, e2, e3, es);
  }
}
