/** `elaborate`, `cycle`, `fetch` and `execute` of src/main.py: how one clock of the 32-bit
    core combines the handlers with the micro-protocol of the instruction in `ir`.

    `Next` is the clock as a function of the pre-edge state and the bus word `data_in`;
    `Tick` adds the memory, `Run` repeats it. `Step` is the same clock on a `Core` object,
    running the handlers one after another, and is proved to agree with `Tick`. */
module Cpu {
  import opened Types
  import opened Enums
  import opened Registry
  import opened CoreState
  import Nop
  import Halt
  import Jmp
  import Cjmp
  import Jiz
  import LdiAbs
  import Ldi
  import AddiAbs
  import Addi
  import SubiAbs
  import Subi
  import Inci
  import Deci
  import Sti
  import Mov
  import FlagOps
  import Push
  import Pushi
  import Pop
  import Ret

  /** `execute`: the protocol of the opcode in `ir`, or NOP's for an opcode nobody
      registered. */
  function Decode(cfg: Config, ir: Word): (p: Protocol)
    requires Elaborates(cfg)
    ensures p != ByteJnzExec
  {
    if ir in cfg.tables.opcodes then cfg.tables.opcodes[ir].exec else cfg.tables.names["NOP"].exec
  }

  /** What the protocol drives combinationally in an execute cycle. */
  function InstrComb(p: Protocol, s: Regs, d: Word): Signals
    requires p != ByteJnzExec
  {
    match p
    case NopExec => Nop.Comb(s)
    case HaltExec => Halt.Comb(s)
    case JmpExec => Jmp.Comb(s, d)
    case CjmpExec(flag, invert) => Cjmp.Comb(s, d, flag, invert)
    case JizExec => Jiz.Comb(s, d)
    case LdiAbsExec(_) => LdiAbs.Comb(s)
    case LdiExec(_) => Ldi.Comb(s)
    case AddiAbsExec(r) => AddiAbs.Comb(s, d, r)
    case AddiExec(r) => Addi.Comb(s, d, r)
    case SubiAbsExec(r) => SubiAbs.Comb(s, d, r)
    case SubiExec(r) => Subi.Comb(s, d, r)
    case InciExec(r) => Inci.Comb(s, r)
    case DeciExec(r) => Deci.Comb(s, r)
    case StiExec(_) => Sti.Comb(s)
    case MovExec => Mov.Comb(s)
    case FlagExec(_, _) => Quiet
    case FlagEndExec(_, _) => FlagOps.CorrectedComb(s)
    case PushExec => Push.Comb(s, d)
    case PushiExec(r) => Pushi.Comb(s, r)
    case PopExec => Pop.Comb(s)
    case RetExec => Ret.Comb(s, d)
  }

  /** The protocol's sync writes over the pending state `base`. */
  function InstrSync(p: Protocol, s: Regs, d: Word, base: Regs): Regs
    requires p != ByteJnzExec
  {
    match p
    case NopExec => base
    case HaltExec => base
    case JmpExec => Jmp.Sync(s, base)
    case CjmpExec(flag, invert) => Cjmp.Sync(s, flag, invert, base)
    case JizExec => Jiz.Sync(s, base)
    case LdiAbsExec(r) => LdiAbs.Sync(s, d, r, base)
    case LdiExec(r) => Ldi.Sync(s, d, r, base)
    case AddiAbsExec(r) => AddiAbs.Sync(s, d, r, base)
    case AddiExec(r) => Addi.Sync(s, d, r, base)
    case SubiAbsExec(r) => SubiAbs.Sync(s, d, r, base)
    case SubiExec(r) => Subi.Sync(s, d, r, base)
    case InciExec(r) => Inci.Sync(s, r, base)
    case DeciExec(r) => Deci.Sync(s, r, base)
    case StiExec(r) => Sti.Sync(s, d, r, base)
    case MovExec => Mov.Sync(s, d, base)
    case FlagExec(flag, value) => FlagOps.Sync(flag, value, base)
    case FlagEndExec(flag, value) => FlagOps.Sync(flag, value, base)
    case PushExec => Push.Sync(s, d, base)
    case PushiExec(_) => Pushi.Sync(s, base)
    case PopExec => Pop.Sync(s, d, base)
    case RetExec => Ret.Sync(s, base)
  }

  /** The combinational outputs of a clock. The instruction is elaborated after the reset
      handler, so an `end_instr` it raises replaces the reset handler's. */
  function Outputs(cfg: Config, s: Regs, d: Word): Signals
    requires Elaborates(cfg)
  {
    var reset := ResetEnd(cfg, s, d);
    if s.resetState == 2 && s.instrState != 0 then
      var own := InstrComb(Decode(cfg, s.ir), s, d);
      Signals(if own.end.Some? then own.end else reset, own.alu, own.stack)
    else Signals(reset, None, None)
  }

  /** The registers after the edge: commit, reset handler, ALU flags, then fetch or execute,
      each over what the previous ones left pending. */
  function Next(cfg: Config, s: Regs, d: Word): Regs
    requires Elaborates(cfg)
  {
    var out := Outputs(cfg, s, d);
    var base := AluSync(out.alu, ResetSync(cfg, s, Commit(s, out.end)));
    if s.resetState != 2 then base
    else if s.instrState == 0 then Fetched(base, d)
    else InstrSync(Decode(cfg, s.ir), s, d, base)
  }

  /** The core with its memory. */
  datatype Machine = Machine(regs: Regs, mem: seq<Word>)

  /** One clock with the bus read from memory and the write port applied. */
  function Tick(cfg: Config, m: Machine): (r: Machine)
    requires Elaborates(cfg) && |m.mem| == Depth
    ensures |r.mem| == Depth
  {
    Machine(Next(cfg, m.regs, DataIn(m.mem, m.regs)), MemoryAfter(m.mem, m.regs))
  }

  /** The stack request of the clock `Tick` takes. */
  function StackEvent(cfg: Config, m: Machine): Option<StackRequest>
    requires Elaborates(cfg) && |m.mem| == Depth
  {
    Outputs(cfg, m.regs, DataIn(m.mem, m.regs)).stack
  }

  function Run(cfg: Config, m: Machine, n: nat): (r: Machine)
    requires Elaborates(cfg) && |m.mem| == Depth
    ensures |r.mem| == Depth
    decreases n
  {
    if n == 0 then m else Run(cfg, Tick(cfg, m), n - 1)
  }

  /** The stack requests of `n` clocks, in order. */
  function Events(cfg: Config, m: Machine, n: nat): (r: seq<Option<StackRequest>>)
    requires Elaborates(cfg) && |m.mem| == Depth
    ensures |r| == n
    decreases n
  {
    if n == 0 then [] else [StackEvent(cfg, m)] + Events(cfg, Tick(cfg, m), n - 1)
  }

  // ----- the clock on a Core object -----

  /** The instruction's own writes for the cycle, by protocol. */
  method Execute(core: Core, p: Protocol, s: Regs, d: Word)
    requires p != ByteJnzExec
    modifies core
    ensures core.Snapshot() == InstrSync(p, s, d, old(core.Snapshot()))
  {
    match p
    case NopExec | HaltExec | JmpExec | CjmpExec(_, _) | JizExec | RetExec => ExecuteControl(core, p, s);
    case LdiAbsExec(_) | LdiExec(_) | AddiAbsExec(_) | AddiExec(_) => ExecuteLoadAdd(core, p, s, d);
    case SubiAbsExec(_) | SubiExec(_) | InciExec(_) | DeciExec(_) => ExecuteSubStep(core, p, s, d);
    case StiExec(_) | MovExec | FlagExec(_, _) | FlagEndExec(_, _) => ExecuteStore(core, p, s, d);
    case PushExec | PushiExec(_) | PopExec => ExecuteStack(core, p, s, d);
  }

  // The cases of `Execute`, grouped by the instructions' families.

  method ExecuteControl(core: Core, p: Protocol, s: Regs)
    requires p.NopExec? || p.HaltExec? || p.JmpExec? || p.CjmpExec? || p.JizExec? || p.RetExec?
    modifies core
    ensures core.Snapshot() == InstrSync(p, s, 0, old(core.Snapshot()))
  {
    if p.JmpExec? {
      Jmp.Exec(core, s);
    } else if p.CjmpExec? {
      Cjmp.Exec(core, s, p.flag, p.invert);
    } else if p.JizExec? {
      Jiz.Exec(core, s);
    } else if p.RetExec? {
      Ret.Exec(core, s);
    }
  }

  method ExecuteLoadAdd(core: Core, p: Protocol, s: Regs, d: Word)
    requires p.LdiAbsExec? || p.LdiExec? || p.AddiAbsExec? || p.AddiExec?
    modifies core
    ensures core.Snapshot() == InstrSync(p, s, d, old(core.Snapshot()))
  {
    if p.LdiAbsExec? {
      LdiAbs.Exec(core, s, d, p.reg);
    } else if p.LdiExec? {
      Ldi.Exec(core, s, d, p.reg);
    } else if p.AddiAbsExec? {
      AddiAbs.Exec(core, s, d, p.reg);
    } else {
      Addi.Exec(core, s, d, p.reg);
    }
  }

  method ExecuteSubStep(core: Core, p: Protocol, s: Regs, d: Word)
    requires p.SubiAbsExec? || p.SubiExec? || p.InciExec? || p.DeciExec?
    modifies core
    ensures core.Snapshot() == InstrSync(p, s, d, old(core.Snapshot()))
  {
    if p.SubiAbsExec? {
      SubiAbs.Exec(core, s, d, p.reg);
    } else if p.SubiExec? {
      Subi.Exec(core, s, d, p.reg);
    } else if p.InciExec? {
      Inci.Exec(core, s, p.reg);
    } else {
      Deci.Exec(core, s, p.reg);
    }
  }

  method ExecuteStore(core: Core, p: Protocol, s: Regs, d: Word)
    requires p.StiExec? || p.MovExec? || p.FlagExec? || p.FlagEndExec?
    modifies core
    ensures core.Snapshot() == InstrSync(p, s, d, old(core.Snapshot()))
  {
    if p.StiExec? {
      Sti.Exec(core, s, d, p.reg);
    } else if p.MovExec? {
      Mov.Exec(core, s, d);
    } else {
      FlagOps.Exec(core, p.flag, p.value);
    }
  }

  method ExecuteStack(core: Core, p: Protocol, s: Regs, d: Word)
    requires p.PushExec? || p.PushiExec? || p.PopExec?
    modifies core
    ensures core.Snapshot() == InstrSync(p, s, d, old(core.Snapshot()))
  {
    if p.PushExec? {
      Push.Exec(core, s, d);
    } else if p.PushiExec? {
      Pushi.Exec(core, s);
    } else {
      Pop.Exec(core, s, d);
    }
  }

  /** One clock of `Core`: the comb values from the fields, then the handlers in elaboration
      order, then the memory write port. Returns the stack request of the cycle. */
  method Step(core: Core) returns (stack: Option<StackRequest>)
    requires core.mem.Length == Depth && Elaborates(core.cfg)
    modifies core, core.mem
    ensures Machine(core.Snapshot(), core.mem[..])
              == Tick(core.cfg, old(Machine(core.Snapshot(), core.mem[..])))
    ensures stack == old(StackEvent(core.cfg, Machine(core.Snapshot(), core.mem[..])))
  {
    var s := core.Snapshot();
    var d := if s.rw then core.mem[s.addr % Depth] else Unmapped;
    var out := Outputs(core.cfg, s, d);
    core.InstructionEndHandler(out.end);
    core.ResetHandler(s);
    core.AluHandler(out.alu);
    if s.resetState == 2 {
      if s.instrState == 0 {
        core.Fetch(d);
      } else {
        Execute(core, Decode(core.cfg, s.ir), s, d);
      }
    }
    core.WriteMemory(s);
    stack := out.stack;
  }
}
