/** Whole-instruction properties of MOV: seven clocks from the fetch of the opcode at `ip0`.
    The word at `ip0 + 1` names the source and the word at `ip0 + 2` the destination; each is
    one of the sentinel words of RA, RB and RX, or else a memory address. */
module MovRuns {
  import opened Types
  import opened Registry
  import opened CoreState
  import opened Cpu
  import opened Clock
  import Mov

  /** The word MOV carries from its source: the named register truncated to 32 bits, or the
      memory word at the source address. */
  function Moved(m: Machine): Word
    requires |m.mem| == Depth
  {
    var src := WordAt(m.mem, m.regs.ip + 1);
    match Mov.Sentinel(src)
    case Some(q) => Wrap32(RegValue(m.regs, q))
    case None => WordAt(m.mem, src)
  }

  /** Where MOV leaves the machine once the word is delivered to its destination `dst`: a
      register receives it read as signed, a memory word receives it as it is. */
  function Delivered(s: Regs, mem: seq<Word>, dst: Word, v: Word): Machine
    requires |mem| == Depth
  {
    match Mov.Sentinel(dst)
    case Some(q) => Machine(WithReg(s, q, ToSigned(v)), mem)
    case None => Machine(s, mem[dst % Depth := v])
  }

  // ----- single execute cycles -----

  /** State 2 with a sentinel on the bus: the named register, truncated to 32 bits, goes to
      `tmp32`. */
  lemma SourceRegisterStep(cfg: Config, m: Machine, q: Reg)
    requires InState(cfg, m, MovExec, 2) && m.regs.rw && Mov.Sentinel(DataIn(m.mem, m.regs)) == Some(q)
    ensures Tick(cfg, m) == Machine(m.regs.(tmp32 := Wrap32(RegValue(m.regs, q)), tmp32_2 := 0, instrState := 3), m.mem)
    ensures StackEvent(cfg, m) == None
  {
  }

  /** State 2 with an address on the bus: `addr` points at it and the memory case is marked. */
  lemma SourceAddressStep(cfg: Config, m: Machine)
    requires InState(cfg, m, MovExec, 2) && m.regs.rw && Mov.Sentinel(DataIn(m.mem, m.regs)).None?
    ensures Tick(cfg, m) == Machine(m.regs.(addr := DataIn(m.mem, m.regs), tmp32_2 := 1, instrState := 3), m.mem)
    ensures StackEvent(cfg, m) == None
  {
  }

  /** State 3 in the register case: step to the destination operand. */
  lemma PassStep(cfg: Config, m: Machine)
    requires InState(cfg, m, MovExec, 3) && m.regs.rw && m.regs.tmp32_2 == 0
    ensures Tick(cfg, m) == Machine(Advance(m.regs, m.regs, 4), m.mem)
    ensures StackEvent(cfg, m) == None
  {
  }

  /** State 3 in the memory case: latch the bus word into `tmp32`, clear the marker and step to
      the destination operand. */
  lemma LoadStep(cfg: Config, m: Machine)
    requires InState(cfg, m, MovExec, 3) && m.regs.rw && m.regs.tmp32_2 != 0
    ensures Tick(cfg, m) == Machine(Advance(m.regs, m.regs.(tmp32 := DataIn(m.mem, m.regs), tmp32_2 := 0), 4), m.mem)
    ensures StackEvent(cfg, m) == None
  {
  }

  /** State 4 with a sentinel on the bus: the register receives `tmp32` read as signed. */
  lemma DestinationRegisterStep(cfg: Config, m: Machine, r: Reg)
    requires InState(cfg, m, MovExec, 4) && m.regs.rw && Mov.Sentinel(DataIn(m.mem, m.regs)) == Some(r)
    ensures Tick(cfg, m) == Machine(WithReg(m.regs, r, ToSigned(m.regs.tmp32)).(tmp32_2 := 0, instrState := 5), m.mem)
    ensures StackEvent(cfg, m) == None
  {
  }

  /** State 4 with an address on the bus: `addr` points at it and the memory case is marked. */
  lemma DestinationAddressStep(cfg: Config, m: Machine)
    requires InState(cfg, m, MovExec, 4) && m.regs.rw && Mov.Sentinel(DataIn(m.mem, m.regs)).None?
    ensures Tick(cfg, m) == Machine(m.regs.(addr := DataIn(m.mem, m.regs), tmp32_2 := 1, instrState := 5), m.mem)
    ensures StackEvent(cfg, m) == None
  {
  }

  /** State 5 in the register case: nothing to drive. */
  lemma IdleStep(cfg: Config, m: Machine)
    requires InState(cfg, m, MovExec, 5) && m.regs.tmp32_2 == 0
    ensures Tick(cfg, m) == Machine(m.regs.(instrState := 6), MemoryAfter(m.mem, m.regs))
    ensures StackEvent(cfg, m) == None
  {
  }

  /** State 5 in the memory case: drive `tmp32` onto `data_out` with `RW` low. */
  lemma DriveStep(cfg: Config, m: Machine)
    requires InState(cfg, m, MovExec, 5) && m.regs.rw && m.regs.tmp32_2 != 0
    ensures Tick(cfg, m) == Machine(m.regs.(dataOut := m.regs.tmp32, tmp32_2 := 0, rw := false, instrState := 6), m.mem)
    ensures StackEvent(cfg, m) == None
  {
  }

  /** State 6 clears up and commits; the write port stores `data_out` if `RW` is low. */
  lemma MovCommit(cfg: Config, m: Machine)
    requires InState(cfg, m, MovExec, 6)
    ensures var next := Wrap32(m.regs.ip + 1);
            Tick(cfg, m) == Machine(m.regs.(tmp32 := 0, rw := true, dataOut := 0, ip := next, addr := next,
                                            instrState := 0), MemoryAfter(m.mem, m.regs))
    ensures StackEvent(cfg, m) == None
  {
  }

  // ----- the source half -----

  /** The registers after the fetch and the step to the source operand. */
  function AtSource(m: Machine): Regs
    requires |m.mem| == Depth
  {
    var m1 := m.regs.(ir := Opcode(m), instrState := 1);
    Advance(m1, m1, 2)
  }

  /** Taking a register source and stepping on reaches `SourceDone`. */
  lemma SourceRegisterMeets(m: Machine, q: Reg)
    requires |m.mem| == Depth && m.regs.rw && m.regs.instrState == 0
    requires Mov.Sentinel(WordAt(m.mem, m.regs.ip + 1)) == Some(q)
    ensures var t := AtSource(m).(tmp32 := Wrap32(RegValue(AtSource(m), q)), tmp32_2 := 0, instrState := 3);
            Machine(Advance(t, t, 4), m.mem) == SourceDone(m)
  {
    Wrap32Add(m.regs.ip + 1, 1);
    assert RegValue(AtSource(m), q) == RegValue(m.regs, q);
  }

  /** Taking a memory source and stepping on reaches `SourceDone`. */
  lemma SourceAddressMeets(m: Machine)
    requires |m.mem| == Depth && m.regs.rw && m.regs.instrState == 0
    requires Mov.Sentinel(WordAt(m.mem, m.regs.ip + 1)).None?
    ensures var a := WordAt(m.mem, m.regs.ip + 1);
            var t := AtSource(m).(addr := a, tmp32_2 := 1, instrState := 3);
            Machine(Advance(t, t.(tmp32 := WordAt(m.mem, a), tmp32_2 := 0), 4), m.mem) == SourceDone(m)
  {
    Wrap32Add(m.regs.ip + 1, 1);
  }

  /** The fetch and state 1 reach the source operand. */
  lemma ToSource(cfg: Config, m: Machine)
    requires AtFetch(cfg, m) && Fetches(cfg, m) == MovExec
    ensures var m1 := Machine(m.regs.(ir := Opcode(m), instrState := 1), m.mem);
            && Tick(cfg, m) == m1 && StackEvent(cfg, m) == None
            && Tick(cfg, m1) == Machine(AtSource(m), m.mem) && StackEvent(cfg, m1) == None
  {
    var m1 := Machine(m.regs.(ir := Opcode(m), instrState := 1), m.mem);
    FetchStep(cfg, m);
    OperandStep(cfg, m1, MovExec);
  }

  /** States 2 and 3 with a register source: copy the register into `tmp32`, then step on. */
  lemma SourceRegisterTail(cfg: Config, m: Machine, q: Reg)
    requires AtFetch(cfg, m) && Fetches(cfg, m) == MovExec
    requires Mov.Sentinel(WordAt(m.mem, m.regs.ip + 1)) == Some(q)
    ensures var m2 := Machine(AtSource(m), m.mem);
            var m3 := Machine(m2.regs.(tmp32 := Wrap32(RegValue(m2.regs, q)), tmp32_2 := 0, instrState := 3), m.mem);
            && Tick(cfg, m2) == m3 && StackEvent(cfg, m2) == None
            && Tick(cfg, m3) == SourceDone(m) && StackEvent(cfg, m3) == None
  {
    var m2 := Machine(AtSource(m), m.mem);
    var m3 := Machine(m2.regs.(tmp32 := Wrap32(RegValue(m2.regs, q)), tmp32_2 := 0, instrState := 3), m.mem);
    assert DataIn(m2.mem, m2.regs) == WordAt(m.mem, m.regs.ip + 1);
    SourceRegisterStep(cfg, m2, q);
    PassStep(cfg, m3);
    SourceRegisterMeets(m, q);
  }

  /** States 2 and 3 with a memory source: point `addr` at it, then latch the word read. */
  lemma SourceAddressTail(cfg: Config, m: Machine)
    requires AtFetch(cfg, m) && Fetches(cfg, m) == MovExec
    requires Mov.Sentinel(WordAt(m.mem, m.regs.ip + 1)).None?
    ensures var m2 := Machine(AtSource(m), m.mem);
            var m3 := Machine(m2.regs.(addr := WordAt(m.mem, m.regs.ip + 1), tmp32_2 := 1, instrState := 3), m.mem);
            && Tick(cfg, m2) == m3 && StackEvent(cfg, m2) == None
            && Tick(cfg, m3) == SourceDone(m) && StackEvent(cfg, m3) == None
  {
    var m2 := Machine(AtSource(m), m.mem);
    var a := WordAt(m.mem, m.regs.ip + 1);
    var m3 := Machine(m2.regs.(addr := a, tmp32_2 := 1, instrState := 3), m.mem);
    assert DataIn(m2.mem, m2.regs) == a;
    assert DataIn(m3.mem, m3.regs) == WordAt(m.mem, a);
    SourceAddressStep(cfg, m2);
    LoadStep(cfg, m3);
    SourceAddressMeets(m);
  }

  lemma SourceFromRegister(cfg: Config, m: Machine, q: Reg, f: Machine)
    requires AtFetch(cfg, m) && Fetches(cfg, m) == MovExec
    requires Run(cfg, SourceDone(m), 3) == f && Events(cfg, SourceDone(m), 3) == [None, None, None]
    requires Mov.Sentinel(WordAt(m.mem, m.regs.ip + 1)) == Some(q)
    ensures Run(cfg, m, 7) == f
    ensures Events(cfg, m, 7) == [None, None, None, None, None, None, None]
  {
    var m1 := Machine(m.regs.(ir := Opcode(m), instrState := 1), m.mem);
    var m2 := Machine(AtSource(m), m.mem);
    var m3 := Machine(m2.regs.(tmp32 := Wrap32(RegValue(m2.regs, q)), tmp32_2 := 0, instrState := 3), m.mem);
    ToSource(cfg, m);
    SourceRegisterTail(cfg, m, q);
    Lead4(cfg, m, m1, m2, m3, SourceDone(m), None, None, None, None, f, 3, [None, None, None]);
  }

  lemma SourceFromAddress(cfg: Config, m: Machine, f: Machine)
    requires AtFetch(cfg, m) && Fetches(cfg, m) == MovExec
    requires Run(cfg, SourceDone(m), 3) == f && Events(cfg, SourceDone(m), 3) == [None, None, None]
    requires Mov.Sentinel(WordAt(m.mem, m.regs.ip + 1)).None?
    ensures Run(cfg, m, 7) == f
    ensures Events(cfg, m, 7) == [None, None, None, None, None, None, None]
  {
    var m1 := Machine(m.regs.(ir := Opcode(m), instrState := 1), m.mem);
    var m2 := Machine(AtSource(m), m.mem);
    var m3 := Machine(m2.regs.(addr := WordAt(m.mem, m.regs.ip + 1), tmp32_2 := 1, instrState := 3), m.mem);
    ToSource(cfg, m);
    SourceAddressTail(cfg, m);
    Lead4(cfg, m, m1, m2, m3, SourceDone(m), None, None, None, None, f, 3, [None, None, None]);
  }

  /** Fetch and states 1 to 3 read the source word into `tmp32` and step to the destination
      operand at `ip0 + 2` (`SourceDone`), so seven clocks from the fetch end where three from
      there do. */
  lemma SourceClocks(cfg: Config, m: Machine, f: Machine)
    requires AtFetch(cfg, m) && Fetches(cfg, m) == MovExec
    requires Run(cfg, SourceDone(m), 3) == f && Events(cfg, SourceDone(m), 3) == [None, None, None]
    ensures Run(cfg, m, 7) == f
    ensures Events(cfg, m, 7) == [None, None, None, None, None, None, None]
  {
    match Mov.Sentinel(WordAt(m.mem, m.regs.ip + 1))
    case Some(q) => SourceFromRegister(cfg, m, q, f);
    case None => SourceFromAddress(cfg, m, f);
  }

  // ----- the destination half -----

  lemma DestinationToRegister(cfg: Config, m: Machine, done: Regs, r: Reg)
    requires InState(cfg, m, MovExec, 4) && m.regs.rw && m.regs.addr == m.regs.ip && m.regs.tmp32_2 == 0
    requires Mov.Sentinel(WordAt(m.mem, m.regs.ip)) == Some(r)
    requires done == m.regs.(ip := Wrap32(m.regs.ip + 1), addr := Wrap32(m.regs.ip + 1), tmp32 := 0, tmp32_2 := 0,
                             rw := true, dataOut := 0, instrState := 0)
    ensures Run(cfg, m, 3) == Machine(WithReg(done, r, ToSigned(m.regs.tmp32)), m.mem)
    ensures Events(cfg, m, 3) == [None, None, None]
  {
    assert DataIn(m.mem, m.regs) == WordAt(m.mem, m.regs.ip);
    var m5 := Machine(WithReg(m.regs, r, ToSigned(m.regs.tmp32)).(tmp32_2 := 0, instrState := 5), m.mem);
    var m6 := Machine(m5.regs.(instrState := 6), m.mem);
    var next := Wrap32(m.regs.ip + 1);
    var m7 := Machine(WithReg(done, r, ToSigned(m.regs.tmp32)), m.mem);
    DestinationRegisterStep(cfg, m, r);
    IdleStep(cfg, m5);
    MovCommit(cfg, m6);
    assert m6.regs.(tmp32 := 0, rw := true, dataOut := 0, ip := next, addr := next, instrState := 0) == m7.regs;
    Chain3(cfg, m, m5, m6, m7, None, None, None);
  }

  lemma DestinationToAddress(cfg: Config, m: Machine, done: Regs)
    requires InState(cfg, m, MovExec, 4) && m.regs.rw && m.regs.addr == m.regs.ip && m.regs.tmp32_2 == 0
    requires Mov.Sentinel(WordAt(m.mem, m.regs.ip)).None?
    requires done == m.regs.(ip := Wrap32(m.regs.ip + 1), addr := Wrap32(m.regs.ip + 1), tmp32 := 0, tmp32_2 := 0,
                             rw := true, dataOut := 0, instrState := 0)
    ensures var dst := WordAt(m.mem, m.regs.ip);
            Run(cfg, m, 3) == Machine(done, m.mem[dst % Depth := m.regs.tmp32])
    ensures Events(cfg, m, 3) == [None, None, None]
  {
    var dst := WordAt(m.mem, m.regs.ip);
    assert DataIn(m.mem, m.regs) == dst;
    var m5 := Machine(m.regs.(addr := dst, tmp32_2 := 1, instrState := 5), m.mem);
    var m6 := Machine(m5.regs.(dataOut := m5.regs.tmp32, tmp32_2 := 0, rw := false, instrState := 6), m.mem);
    var m7 := Machine(done, m.mem[dst % Depth := m.regs.tmp32]);
    DestinationAddressStep(cfg, m);
    DriveStep(cfg, m5);
    MovCommit(cfg, m6);
    Chain3(cfg, m, m5, m6, m7, None, None, None);
  }

  /** States 4 to 6: the word in `tmp32` is delivered to the destination named at `ip`, and
      the core commits to the next word with `tmp32`, `data_out` and the memory-case marker
      cleared (`done`). */
  lemma DestinationClocks(cfg: Config, m: Machine, done: Regs)
    requires InState(cfg, m, MovExec, 4) && m.regs.rw && m.regs.addr == m.regs.ip && m.regs.tmp32_2 == 0
    requires done == m.regs.(ip := Wrap32(m.regs.ip + 1), addr := Wrap32(m.regs.ip + 1), tmp32 := 0, tmp32_2 := 0,
                             rw := true, dataOut := 0, instrState := 0)
    ensures Run(cfg, m, 3) == Delivered(done, m.mem, WordAt(m.mem, m.regs.ip), m.regs.tmp32)
    ensures Events(cfg, m, 3) == [None, None, None]
  {
    match Mov.Sentinel(WordAt(m.mem, m.regs.ip))
    case Some(r) => DestinationToRegister(cfg, m, done, r);
    case None => DestinationToAddress(cfg, m, done);
  }

  // ----- the whole instruction -----

  /** The machine the source half leaves behind. */
  function SourceDone(m: Machine): Machine
    requires |m.mem| == Depth
  {
    var next := Wrap32(m.regs.ip + 2);
    Machine(m.regs.(ir := Opcode(m), ip := next, addr := next, tmp32 := Moved(m), tmp32_2 := 0, instrState := 4), m.mem)
  }

  /** The registers MOV commits with: `ir` holds the opcode word, `ip` and `addr` are on
      `ip0 + 3`, and `tmp32`, `data_out` and the memory-case marker are cleared. */
  function Committed(m: Machine): Regs
    requires |m.mem| == Depth
  {
    var next := Wrap32(m.regs.ip + 3);
    m.regs.(ir := Opcode(m), ip := next, addr := next, tmp32 := 0, tmp32_2 := 0, dataOut := 0)
  }

  /** The destination half, started where the source half ends, commits with `Committed(m)`
      and reads its destination at `ip0 + 2`. */
  lemma HalvesMeet(m: Machine)
    requires |m.mem| == Depth && m.regs.rw && m.regs.instrState == 0
    ensures var h := SourceDone(m).regs;
            && h.(ip := Wrap32(h.ip + 1), addr := Wrap32(h.ip + 1), tmp32 := 0, tmp32_2 := 0, rw := true, dataOut := 0,
                  instrState := 0) == Committed(m)
            && WordAt(m.mem, h.ip) == WordAt(m.mem, m.regs.ip + 2)
  {
    Wrap32Add(m.regs.ip + 2, 1);
    assert Wrap32(m.regs.ip + 2) == Wrap32(Wrap32(m.regs.ip + 2));
  }

  /** Delivering a word changes at most one register or one memory word. */
  lemma DeliveredFrame(s: Regs, mem: seq<Word>, dst: Word, v: Word)
    requires |mem| == Depth
    ensures var d := Delivered(s, mem, dst, v);
            |d.mem| == Depth && d.regs.(ra := s.ra, rb := s.rb, rx := s.rx) == s
  {
  }

  /** MOV: seven clocks; the source word (a register truncated to 32 bits, or the memory word
      at the source address) is delivered to the destination (a register, read as signed, or
      the memory word at the destination address), and the core commits to `ip0 + 3` with
      `tmp32`, `data_out` and the memory-case marker cleared. Nothing else changes; no stack
      request is made. */
  lemma MovRun(cfg: Config, m: Machine)
    requires AtFetch(cfg, m) && Fetches(cfg, m) == MovExec
    ensures var final := Delivered(Committed(m), m.mem, WordAt(m.mem, m.regs.ip + 2), Moved(m));
            && Run(cfg, m, 7) == final
            && Events(cfg, m, 7) == [None, None, None, None, None, None, None]
            && AtFetch(cfg, final)
  {
    var final := Delivered(Committed(m), m.mem, WordAt(m.mem, m.regs.ip + 2), Moved(m));
    DestinationHalf(cfg, m);
    SourceClocks(cfg, m, final);
    DeliveredFrame(Committed(m), m.mem, WordAt(m.mem, m.regs.ip + 2), Moved(m));
  }

  /** The last three clocks, seen from the fetch. */
  lemma DestinationHalf(cfg: Config, m: Machine)
    requires AtFetch(cfg, m) && Fetches(cfg, m) == MovExec
    ensures Run(cfg, SourceDone(m), 3) == Delivered(Committed(m), m.mem, WordAt(m.mem, m.regs.ip + 2), Moved(m))
    ensures Events(cfg, SourceDone(m), 3) == [None, None, None]
  {
    HalvesMeet(m);
    DestinationClocks(cfg, SourceDone(m), Committed(m));
  }
}
