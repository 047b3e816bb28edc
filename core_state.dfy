/** The state of the 32-bit `Core` of src/main.py and the handlers that update it each clock.

    One clock is modelled the way Amaranth evaluates it: the combinational signals are worked
    out first from the current state (`data_in`, the `end_instr` pair, the ALU inputs), then the
    synchronous assignments of every handler are applied in elaboration order, where a later
    assignment to the same signal wins, and every right-hand side reads the state from before
    the edge. The pure functions below take that pre-edge state `s` and the pending next state
    `base` left by the earlier handlers, and return the new pending state. */
module CoreState {
  import opened Types
  import opened Enums
  import opened Registry
  import Alu

  /** Words of memory: `int(pow(2, 18))`. */
  const Depth := 0x4_0000

  /** The value of a memory word not given in `mem_init`, and of `data_in` while writing. */
  const Unmapped: Word := 0xFFFF_FFFF

  /** `reset_state` is a 2-bit signal, `instr_state` a 4-bit one. */
  type ResetStep = x: int | 0 <= x < 4
  type MicroStep = x: int | 0 <= x < 16

  /** The constructor options of `Core` that shape its behaviour, and the registry it decodes
      with (the global tables as they stand when `elaborate` runs). `resetOnce` is not an
      option of `Core`: false gives the reset handler as written, whose non-vectored branch
      acts on every clock; true gives the corrected handler, whose non-vectored branch acts
      only until `reset_state` reaches 2, as the vectored one does. */
  datatype Config = Config(tables: Tables, useResetVector: bool := true, startAddr: int := 0x0009,
                           resetOnce: bool := false)

  /** `elaborate` runs every registered execute function and looks "NOP" up by name: it raises
      (KeyError, or AttributeError on the byte-wide JNZ protocol, which needs `tmp8`) unless
      "NOP" is registered and no entry is the byte-wide protocol. The execute functions of
      PUSH, PUSHA/PUSHB/PUSHX, POP and RET also drive `stack_op`, `stack_en` and `stack_data`,
      which `Core` does not declare; this predicate takes those signals as declared by a stack
      unit outside the core and does not require their absence. */
  predicate Elaborates(cfg: Config)
  {
    && "NOP" in cfg.tables.names
    && cfg.tables.names["NOP"].exec != ByteJnzExec
    && forall o | o in cfg.tables.opcodes :: cfg.tables.opcodes[o].exec != ByteJnzExec
  }

  /** The signals of `Core` that keep a value from one clock to the next. `rw` is the `RW`
      signal: true (1) reads, false (0) writes. */
  datatype Regs = Regs(
    ra: SWord, rb: SWord, rx: SWord,
    ip: Word, ir: Word, addr: Word, sp: Word,
    flags: bv8,
    tmp32: Word, tmp32_2: Word, tmp32_3: Word,
    rw: bool, dataOut: Word,
    resetState: ResetStep, instrState: MicroStep)

  /** Every signal at its initial value: 0, except `RW`, which starts at 1. */
  const PowerOn := Regs(0, 0, 0, 0, 0, 0, 0, 0, 0, 0, 0, true, 0, 0, 0)

  /** A reset of the sync domain: the `reset_less` registers keep their values, the other
      signals return to their initial values. */
  function DomainReset(s: Regs): Regs
  {
    PowerOn.(ra := s.ra, rb := s.rb, rx := s.rx, ip := s.ip, ir := s.ir, sp := s.sp,
             flags := s.flags)
  }

  // ----- combinational signals -----

  datatype AluRequest = AluRequest(op: AluOp, a: SWord, b: SWord)

  /** A request on the undeclared `stack_op`/`stack_en`/`stack_data` signals. */
  datatype StackRequest = PushRequest(value: int) | PopRequest

  /** What a handler or an instruction drives combinationally in one cycle: `end_instr`, the ALU
      inputs with `alu_en`, and a stack request. Signals nobody drives keep their defaults. */
  datatype Signals = Signals(end: Option<Word>, alu: Option<AluRequest>, stack: Option<StackRequest>)

  const Quiet := Signals(None, None, None)

  /** `end_instr(addr)`: the address is truncated to the 32 bits of `end_instr_addr`. */
  function EndAt(a: int): Signals
  {
    Signals(Some(Wrap32(a)), None, None)
  }

  /** `data_in`: the memory word at `addr` while reading, all ones while writing. The read port
      has 18 address bits, so `addr` is taken modulo the depth. */
  function DataIn(mem: seq<Word>, s: Regs): Word
    requires |mem| == Depth
  {
    if s.rw then mem[s.addr % Depth] else Unmapped
  }

  /** The write port: while `RW` is 0 the edge stores `data_out` at `addr`. */
  function MemoryAfter(mem: seq<Word>, s: Regs): seq<Word>
    requires |mem| == Depth
  {
    if s.rw then mem else mem[s.addr % Depth := s.dataOut]
  }

  /** `alu_out`: the ALU result when an instruction enables it, else the signal's default 0. */
  function AluOut(req: Option<AluRequest>): SWord
  {
    match req
    case None => 0
    case Some(r) => Alu.Compute(r.op, r.a, r.b, 0).out
  }

  // ----- synchronous handlers -----

  /** `instruction_end_handler`: a raised `end_instr` moves `addr` and `ip` to the end address
      and returns to the fetch state. */
  function Commit(base: Regs, end: Option<Word>): Regs
  {
    match end
    case None => base
    case Some(a) => base.(addr := a, ip := a, instrState := 0)
  }

  /** The `end_instr` the reset handler raises: the reset vector read in state 1, or in the
      non-vectored configuration the start address, raised on every clock as written and only
      before state 2 when corrected. */
  function ResetEnd(cfg: Config, s: Regs, d: Word): Option<Word>
  {
    if !cfg.useResetVector then
      if cfg.resetOnce && s.resetState == 2 then None else Some(Wrap32(cfg.startAddr))
    else if s.resetState == 1 then Some(d)
    else None
  }

  /** The synchronous part of `reset_handler`. */
  function ResetSync(cfg: Config, s: Regs, base: Regs): Regs
  {
    if !cfg.useResetVector then
      if cfg.resetOnce && s.resetState == 2 then base
      else base.(resetState := 2, tmp32 := 0, tmp32_2 := 0, tmp32_3 := 0)
    else if s.resetState == 0 then
      base.(addr := Wrap32(cfg.startAddr), rw := true, resetState := 1)
    else if s.resetState == 1 then
      base.(resetState := 2, tmp32 := 0, tmp32_2 := 0, tmp32_3 := 0)
    else base
  }

  /** The flag writes of `alu_handler` when an instruction enables the ALU. */
  function AluSync(req: Option<AluRequest>, base: Regs): Regs
  {
    match req
    case None => base
    case Some(r) => base.(flags := Alu.Compute(r.op, r.a, r.b, base.flags).flags)
  }

  /** `fetch`: latch the instruction word and enter micro-state 1. */
  function Fetched(base: Regs, d: Word): Regs
  {
    base.(ir := d, instrState := 1)
  }

  /** `advance_ip_goto_state`: step `ip` to the next word, set `RW`, enter `state`, and point
      `addr` at the new `ip` unless `overrideAddr` is false. */
  function Advance(s: Regs, base: Regs, state: MicroStep, rw: bool := true,
                   overrideAddr: bool := true): Regs
  {
    var next := base.(ip := Wrap32(s.ip + 1), rw := rw, instrState := state);
    if overrideAddr then next.(addr := Wrap32(s.ip + 1)) else next
  }

  function RegValue(s: Regs, r: Reg): SWord
  {
    match r
    case RA => s.ra
    case RB => s.rb
    case RX => s.rx
  }

  function WithReg(base: Regs, r: Reg, v: SWord): Regs
  {
    match r
    case RA => base.(ra := v)
    case RB => base.(rb := v)
    case RX => base.(rx := v)
  }

  /** The pending-state helpers touch only what they name. */
  lemma HandlerFrames(s: Regs, base: Regs, r: Reg, v: SWord, state: MicroStep)
    ensures RegValue(WithReg(base, r, v), r) == v
    ensures forall q: Reg | q != r :: RegValue(WithReg(base, r, v), q) == RegValue(base, q)
    ensures WithReg(base, r, v).(ra := base.ra, rb := base.rb, rx := base.rx) == base
    ensures var a := Advance(s, base, state);
            && a.ip == a.addr == Wrap32(s.ip + 1) && a.rw && a.instrState == state
            && a.(ip := base.ip, addr := base.addr, rw := base.rw, instrState := base.instrState) == base
    ensures Advance(s, base, state, true, false).addr == base.addr
  {
  }

  // ----- memory image -----

  datatype CoreError = MissingMemInit | IndexOutOfRange(key: int)

  /** The list the memory starts from: every word all ones. */
  function Blank(): seq<Word> { seq(Depth, _ => Unmapped) }

  /** The position Python's `init[key]` refers to: a negative key counts from the end. */
  function Slot(key: int): nat
    requires -Depth <= key < Depth
  {
    if key < 0 then key + Depth else key
  }

  /** The initial memory built from the `mem_init` items in dictionary order: an out-of-range
      key raises IndexError; each value is truncated to the 32-bit word width. */
  function MemoryImage(items: seq<(int, int)>): (r: Result<seq<Word>, CoreError>)
    ensures r.Success? ==> |r.value| == Depth
    ensures r.Failure? ==> r.error.IndexOutOfRange?
  {
    if |items| == 0 then Success(Blank())
    else match MemoryImage(items[..|items| - 1])
      case Failure(e) => Failure(e)
      case Success(m) =>
        var key := items[|items| - 1].0;
        if -Depth <= key < Depth then Success(m[Slot(key) := Wrap32(items[|items| - 1].1)])
        else Failure(IndexOutOfRange(key))
  }

  /** The value the last item for position `a` gives it, if any item does. */
  function LastValue(items: seq<(int, int)>, a: nat): Option<int>
  {
    if |items| == 0 then None
    else
      var key := items[|items| - 1].0;
      if -Depth <= key < Depth && Slot(key) == a then Some(items[|items| - 1].1)
      else LastValue(items[..|items| - 1], a)
  }

  /** The `Core` constructor: a missing `mem_init` with `useMemory` raises ValueError, and with
      memory the image is built as above. Without memory `data_in` is an input port. */
  function Build(useMemory: bool, memInit: Option<seq<(int, int)>>)
    : Result<Option<seq<Word>>, CoreError>
  {
    if !useMemory then Success(None)
    else match memInit
      case None => Failure(MissingMemInit)
      case Some(items) =>
        match MemoryImage(items)
        case Success(m) => Success(Some(m))
        case Failure(e) => Failure(e)
  }

  /** The image exists exactly when every key is a valid Python index of the list; then every
      word holds the last value given for its position, truncated, or all ones if none was. */
  lemma {:induction false} MemoryImageContents(items: seq<(int, int)>)
    ensures MemoryImage(items).Success? <==> forall k | 0 <= k < |items| :: -Depth <= items[k].0 < Depth
    ensures MemoryImage(items).Success? ==>
              forall a | 0 <= a < Depth ::
                MemoryImage(items).value[a] == InitialWord(LastValue(items, a))
  {
    if |items| > 0 {
      var init := items[..|items| - 1];
      MemoryImageContents(init);
      assert forall k | 0 <= k < |init| :: init[k] == items[k];
    }
  }

  /** A word given no value is all ones; a given value is truncated to 32 bits. */
  function InitialWord(v: Option<int>): Word
  {
    match v
    case None => Unmapped
    case Some(x) => Wrap32(x)
  }

  /** The constructor fails exactly on a missing `mem_init` or a key out of range. */
  lemma BuildOutcome(useMemory: bool, memInit: Option<seq<(int, int)>>)
    ensures Build(useMemory, memInit).Failure? <==>
              useMemory && (memInit.None? ||
                exists k | 0 <= k < |memInit.value| :: !(-Depth <= memInit.value[k].0 < Depth))
    ensures Build(useMemory, memInit) == Failure(MissingMemInit) <==> useMemory && memInit.None?
    ensures !useMemory ==> Build(useMemory, memInit) == Success(None)
  {
    if useMemory && memInit.Some? {
      MemoryImageContents(memInit.value);
    }
  }

  /** A prefix of buildable items is buildable. */
  lemma {:induction false} MemoryImagePrefix(items: seq<(int, int)>, k: nat)
    requires k <= |items| && MemoryImage(items).Success?
    ensures MemoryImage(items[..k]).Success?
    decreases |items| - k
  {
    if k < |items| {
      MemoryImagePrefix(items[..|items| - 1], k);
      assert items[..|items| - 1][..k] == items[..k];
    } else {
      assert items[..k] == items;
    }
  }

  // ----- the core as mutable state -----

  /** The 32-bit core with its memory. The register signals are fields; the memory is an
      array the write port updates in place. */
  class Core {
    const cfg: Config
    const mem: array<Word>
    var ra: SWord
    var rb: SWord
    var rx: SWord
    var ip: Word
    var ir: Word
    var addr: Word
    var sp: Word
    var flags: bv8
    var tmp32: Word
    var tmp32_2: Word
    var tmp32_3: Word
    var rw: bool
    var dataOut: Word
    var resetState: ResetStep
    var instrState: MicroStep

    function Snapshot(): Regs
      reads this
    {
      Regs(ra, rb, rx, ip, ir, addr, sp, flags, tmp32, tmp32_2, tmp32_3, rw, dataOut,
           resetState, instrState)
    }

    /** `Core(useMemory=True, mem_init=items, ...)` followed by power-on. */
    constructor (cfg: Config, items: seq<(int, int)>)
      requires MemoryImage(items).Success?
      ensures this.cfg == cfg
      ensures Snapshot() == PowerOn
      ensures mem.Length == Depth && mem[..] == MemoryImage(items).value
      ensures fresh(mem)
    {
      var m := new Word[Depth](_ => Unmapped);
      assert m[..] == Blank();
      var k := 0;
      while k < |items|
        invariant 0 <= k <= |items|
        invariant MemoryImage(items[..k]) == Success(m[..])
        modifies m
      {
        MemoryImagePrefix(items, k + 1);
        assert items[..k + 1][..k] == items[..k];
        m[Slot(items[k].0)] := Wrap32(items[k].1);
        k := k + 1;
      }
      assert items[..k] == items;
      this.cfg := cfg;
      mem := m;
      ra, rb, rx := 0, 0, 0;
      ip, ir, addr, sp := 0, 0, 0, 0;
      flags := 0;
      tmp32, tmp32_2, tmp32_3 := 0, 0, 0;
      rw, dataOut := true, 0;
      resetState, instrState := 0, 0;
    }

    method InstructionEndHandler(end: Option<Word>)
      modifies this
      ensures Snapshot() == Commit(old(Snapshot()), end)
    {
      if end.Some? {
        addr := end.value;
        ip := end.value;
        instrState := 0;
      }
    }

    method ResetHandler(s: Regs)
      modifies this
      ensures Snapshot() == ResetSync(cfg, s, old(Snapshot()))
    {
      if cfg.useResetVector {
        if s.resetState == 0 {
          addr := Wrap32(cfg.startAddr);
          rw := true;
          resetState := 1;
        } else if s.resetState == 1 {
          resetState := 2;
          tmp32, tmp32_2, tmp32_3 := 0, 0, 0;
        }
      } else if !cfg.resetOnce || s.resetState != 2 {
        resetState := 2;
        tmp32, tmp32_2, tmp32_3 := 0, 0, 0;
      }
    }

    method AluHandler(req: Option<AluRequest>)
      modifies this
      ensures Snapshot() == AluSync(req, old(Snapshot()))
    {
      if req.Some? {
        flags := Alu.Compute(req.value.op, req.value.a, req.value.b, flags).flags;
      }
    }

    method Fetch(d: Word)
      modifies this
      ensures Snapshot() == Fetched(old(Snapshot()), d)
    {
      ir := d;
      instrState := 1;
    }

    method AdvanceIpGotoState(s: Regs, state: MicroStep, rw: bool := true,
                              overrideAddr: bool := true)
      modifies this
      ensures Snapshot() == Advance(s, old(Snapshot()), state, rw, overrideAddr)
    {
      ip := Wrap32(s.ip + 1);
      this.rw := rw;
      instrState := state;
      if overrideAddr {
        addr := Wrap32(s.ip + 1);
      }
    }

    method SetReg(r: Reg, v: SWord)
      modifies this
      ensures Snapshot() == WithReg(old(Snapshot()), r, v)
    {
      match r
      case RA => ra := v;
      case RB => rb := v;
      case RX => rx := v;
    }

    /** The memory write port at the clock edge, driven by the pre-edge `addr`, `RW` and
        `data_out`. */
    method WriteMemory(s: Regs)
      requires mem.Length == Depth
      modifies mem
      ensures mem[..] == MemoryAfter(old(mem[..]), s)
    {
      if !s.rw {
        mem[s.addr % Depth] := s.dataOut;
      }
    }
  }
}
