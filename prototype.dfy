/** main.py: the byte-wide prototype core. 16-bit `addr`, `ip`, `sp`, `qp`; 8-bit data and
    registers; a reset that assembles the start address from the bytes at 0x0009 (low) and
    0x000A (high); only NOP (0x01, also every unknown opcode) and JMP (0x10). The prototype
    has no memory of its own: its `data_in` is the byte the bench supplies for `addr`, so the
    machine here carries a 2^16-byte memory that is read at `addr` on every clock. It never
    drives `RW` low or `data_out`, so nothing is written. */
module Prototype {
  import opened Types

  type ResetCount = x: int | 0 <= x < 4
  type StateCount = x: int | 0 <= x < 16

  /** A value of a `Reg16` selector signal: three bits, so 7 is a value no register has. */
  type Selector = x: int | 0 <= x < 8

  // The values of the `Reg16` enumeration.
  const IP16: Selector := 0
  const ADDR16: Selector := 1
  const SP16: Selector := 2
  const QP16: Selector := 3
  const TMP16: Selector := 4
  const INT_ARGS16: Selector := 5
  const INT_RET16: Selector := 6

  const ResetLow: Word16 := 0x0009
  const ResetHigh: Word16 := 0x000A
  const NopOpcode: Byte := 0x01
  const JmpOpcode: Byte := 0x10
  const Space := 0x1_0000

  /** The signals of the prototype that keep a value from one clock to the next. */
  datatype Regs = Regs(
    addr: Word16, dataOut: Byte, rw: bool,
    ra: Byte, rb: Byte, rx: Byte, ip: Word16, ir: Byte, sp: Word16, qp: Word16,
    tmp8: Byte, tmp16: Word16, intArgs: Word16, intRet: Word16,
    resetState: ResetCount, instrState: StateCount)

  /** Every signal at its initial value: 0, except `RW`, which starts at 1. */
  const PowerOn := Regs(0, 0, true, 0, 0, 0, 0, 0, 0, 0, 0, 0, 0, 0, 0, 0)

  /** A reset of the sync domain: `ra`, `rb`, `rx`, `ip`, `ir`, `sp` and `qp` are
      `reset_less`; every other signal returns to its initial value. */
  function DomainReset(s: Regs): Regs
  {
    PowerOn.(ra := s.ra, rb := s.rb, rx := s.rx, ip := s.ip, ir := s.ir, sp := s.sp, qp := s.qp)
  }

  // ----- the 16-bit bus muxes -----

  /** `src_bus_setup` over `reg16_map`: the selected register drives the bus, and a selector
      no register has drives 0. */
  function SrcBus(s: Regs, sel: Selector): Word16
  {
    if sel == ADDR16 then s.addr
    else if sel == INT_ARGS16 then s.intArgs
    else if sel == INT_RET16 then s.intRet
    else if sel == IP16 then s.ip
    else if sel == QP16 then s.qp
    else if sel == SP16 then s.sp
    else if sel == TMP16 then s.tmp16
    else 0
  }

  /** A `Reg16` write bitmap: one bit per member of the enumeration. */
  type Bitmap = bv7

  /** The weight of bit `e` of a bitmap. */
  function Weight(e: Selector): Bitmap
    requires e < 7
  {
    if e == 0 then 0x01 else if e == 1 then 0x02 else if e == 2 then 0x04 else if e == 3 then 0x08
    else if e == 4 then 0x10 else if e == 5 then 0x20 else 0x40
  }

  /** Bit `e` of a `Reg16` write bitmap. */
  predicate Selected(bitmap: Bitmap, e: Selector)
    requires e < 7
  {
    bitmap & Weight(e) != 0
  }

  /** `dest_bus_setup` over `reg16_map`: every register whose bit is set in `bitmap` takes
      the bus (all of them are writable). */
  function DestBus(s: Regs, bus: Word16, bitmap: Bitmap): (r: Regs)
  {
    s.(ip := Pick(bitmap, IP16, bus, s.ip), addr := Pick(bitmap, ADDR16, bus, s.addr),
       sp := Pick(bitmap, SP16, bus, s.sp), qp := Pick(bitmap, QP16, bus, s.qp),
       tmp16 := Pick(bitmap, TMP16, bus, s.tmp16), intArgs := Pick(bitmap, INT_ARGS16, bus, s.intArgs),
       intRet := Pick(bitmap, INT_RET16, bus, s.intRet))
  }

  /** The value a register holds after `dest_bus_setup`: the bus if its bit is set. */
  function Pick(bitmap: Bitmap, e: Selector, bus: Word16, old_: Word16): Word16
    requires e < 7
  {
    if Selected(bitmap, e) then bus else old_
  }

  /** `alu_out` and `alu_write` are never driven, so they keep their initial value 0. */
  const AluOut: Word16 := 0
  const AluWrite: Bitmap := 0

  // ----- one clock -----

  /** The `end_instr` raised in a clock: by the reset handler in reset state 2, with the
      address `Cat(tmp8, data_in)`; by JMP in its state 3, with the same address; by NOP and
      every other opcode in any execute cycle, with `ip + 1`. */
  function EndOf(s: Regs, d: Byte): Option<Word16>
  {
    if s.resetState == 2 then Some(Cat8(s.tmp8, d))
    else if s.resetState == 3 && s.instrState != 0 then
      if s.ir == JmpOpcode then
        if s.instrState == 3 then Some(Cat8(s.tmp8, d)) else None
      else Some(Wrap16(s.ip + 1))
    else None
  }

  /** `instruction_end_handler`. */
  function Commit(base: Regs, end: Option<Word16>): Regs
  {
    match end
    case None => base
    case Some(a) => base.(addr := a, ip := a, instrState := 0)
  }

  /** The synchronous part of `reset_handler`. */
  function ResetSync(s: Regs, d: Byte, base: Regs): Regs
  {
    if s.resetState == 0 then base.(addr := ResetLow, rw := true, resetState := 1)
    else if s.resetState == 1 then base.(addr := ResetHigh, rw := true, resetState := 2, tmp8 := d)
    else if s.resetState == 2 then base.(resetState := 3, tmp8 := 0)
    else base
  }

  /** The sync writes of JMP: state 2 latches the low byte and steps on, state 3 clears `tmp8`
      (its commit comes from `EndOf`), any other state steps to the operand. */
  function JmpSync(s: Regs, d: Byte, base: Regs): Regs
  {
    var next := Wrap16(s.ip + 1);
    if s.instrState == 2 then base.(tmp8 := d, addr := next, ip := next, rw := true, instrState := 3)
    else if s.instrState == 3 then base.(tmp8 := 0)
    else base.(addr := next, ip := next, rw := true, instrState := 2)
  }

  /** `cycle`: fetch in state 0, else `execute`, which runs JMP for 0x10 and NOP (no sync
      writes) for everything else. */
  function CycleSync(s: Regs, d: Byte, base: Regs): Regs
  {
    if s.instrState == 0 then base.(ir := d, instrState := 1)
    else if s.ir == JmpOpcode then JmpSync(s, d, base)
    else base
  }

  /** The registers after the edge: the bus writes, the commit, the reset handler, then the
      cycle when `reset_state` is 3, each over what the previous ones left pending. */
  function Next(s: Regs, d: Byte): Regs
  {
    var base := ResetSync(s, d, Commit(DestBus(s, AluOut, AluWrite), EndOf(s, d)));
    if s.resetState == 3 then CycleSync(s, d, base) else base
  }

  /** The prototype with the memory the bench reads for it. */
  datatype Machine = Machine(regs: Regs, mem: seq<Byte>)

  function Tick(m: Machine): (r: Machine)
    requires |m.mem| == Space
    ensures |r.mem| == Space
  {
    Machine(Next(m.regs, m.mem[m.regs.addr]), m.mem)
  }

  function Run(m: Machine, n: nat): (r: Machine)
    requires |m.mem| == Space
    ensures |r.mem| == Space
    decreases n
  {
    if n == 0 then m else Run(Tick(m), n - 1)
  }

  // ----- the core as an object -----

  class Core {
    var addr: Word16
    var dataOut: Byte
    var rw: bool
    var ra: Byte
    var rb: Byte
    var rx: Byte
    var ip: Word16
    var ir: Byte
    var sp: Word16
    var qp: Word16
    var tmp8: Byte
    var tmp16: Word16
    var intArgs: Word16
    var intRet: Word16
    var resetState: ResetCount
    var instrState: StateCount

    function Snapshot(): Regs
      reads this
    {
      Regs(addr, dataOut, rw, ra, rb, rx, ip, ir, sp, qp, tmp8, tmp16, intArgs, intRet, resetState, instrState)
    }

    /** A core just out of a domain reset whose `reset_less` registers hold `s`'s values. */
    constructor (s: Regs)
      ensures Snapshot() == DomainReset(s)
    {
      addr, dataOut, rw := 0, 0, true;
      ra, rb, rx, ip, ir, sp, qp := s.ra, s.rb, s.rx, s.ip, s.ir, s.sp, s.qp;
      tmp8, tmp16, intArgs, intRet := 0, 0, 0, 0;
      resetState, instrState := 0, 0;
    }

    method DestBusSetup(bus: Word16, bitmap: Bitmap)
      modifies this
      ensures Snapshot() == DestBus(old(Snapshot()), bus, bitmap)
    {
      var r := DestBus(Snapshot(), bus, bitmap);
      ip, addr, sp, qp, tmp16, intArgs, intRet := r.ip, r.addr, r.sp, r.qp, r.tmp16, r.intArgs, r.intRet;
    }

    method InstructionEndHandler(end: Option<Word16>)
      modifies this
      ensures Snapshot() == Commit(old(Snapshot()), end)
    {
      if end.Some? {
        addr := end.value;
        ip := end.value;
        instrState := 0;
      }
    }

    method ResetHandler(s: Regs, d: Byte)
      modifies this
      ensures Snapshot() == ResetSync(s, d, old(Snapshot()))
    {
      if s.resetState == 0 {
        addr := ResetLow;
        rw := true;
        resetState := 1;
      } else if s.resetState == 1 {
        addr := ResetHigh;
        rw := true;
        resetState := 2;
        tmp8 := d;
      } else if s.resetState == 2 {
        resetState := 3;
        tmp8 := 0;
      }
    }

    method Cycle(s: Regs, d: Byte)
      modifies this
      ensures Snapshot() == CycleSync(s, d, old(Snapshot()))
    {
      if s.instrState == 0 {
        ir := d;
        instrState := 1;
      } else if s.ir == JmpOpcode {
        var next := Wrap16(s.ip + 1);
        if s.instrState == 2 {
          tmp8 := d;
          addr := next;
          ip := next;
          rw := true;
          instrState := 3;
        } else if s.instrState == 3 {
          tmp8 := 0;
        } else {
          addr := next;
          ip := next;
          rw := true;
          instrState := 2;
        }
      }
    }

    /** One clock with `data_in = d`: the comb `end_instr` from the fields, then the handlers
        in elaboration order. */
    method Step(d: Byte)
      modifies this
      ensures Snapshot() == Next(old(Snapshot()), d)
    {
      var s := Snapshot();
      var end := EndOf(s, d);
      DestBusSetup(AluOut, AluWrite);
      InstructionEndHandler(end);
      ResetHandler(s, d);
      if s.resetState == 3 {
        Cycle(s, d);
      }
    }
  }

  // ----- properties -----

  /** Writing the bus into one register through the bitmap and reading that register back
      through the selector gives the bus; every other register reads as before. */
  lemma BusRoundTrip(s: Regs, bus: Word16, e: Selector, other: Selector)
    requires e < 7 && other != e
    ensures SrcBus(DestBus(s, bus, Weight(e)), e) == bus
    ensures SrcBus(DestBus(s, bus, Weight(e)), other) == SrcBus(s, other)
  {
    OneBit(e, e);
    if other < 7 {
      OneBit(e, other);
    }
  }

  lemma OneBit(e: Selector, k: Selector)
    requires e < 7 && k < 7
    ensures Selected(Weight(e), k) <==> k == e
  {
  }

  /** A selector no register has drives 0; a bitmap with no bit set writes nothing, which is
      what the never-driven `alu_write` does in every clock. */
  lemma BusDefaults(s: Regs, bus: Word16)
    ensures SrcBus(s, 7) == 0
    ensures DestBus(s, bus, 0) == s
  {
  }

  /** After a reset of the sync domain the prototype takes three clocks to start: it reads the
      low byte of the start address at 0x0009 and the high byte at 0x000A, commits to
      `low | high << 8` with `tmp8` cleared and `reset_state` 3, and is ready to fetch there. */
  lemma ResetRun(s: Regs, mem: seq<Byte>)
    requires |mem| == Space
    ensures var v := Cat8(mem[ResetLow], mem[ResetHigh]);
            && Run(Machine(DomainReset(s), mem), 3)
                 == Machine(DomainReset(s).(addr := v, ip := v, resetState := 3), mem)
            && AtFetch(Run(Machine(DomainReset(s), mem), 3))
  {
    var m0 := Machine(DomainReset(s), mem);
    var m1 := Tick(m0);
    assert m1.regs == m0.regs.(addr := ResetLow, resetState := 1);
    var m2 := Tick(m1);
    assert m2.regs == m0.regs.(addr := ResetHigh, resetState := 2, tmp8 := mem[ResetLow]);
    var m3 := Tick(m2);
    var v := Cat8(mem[ResetLow], mem[ResetHigh]);
    assert m3.regs == m0.regs.(addr := v, ip := v, resetState := 3);
  }

  /** Until `reset_state` reaches 3 no instruction is fetched or executed: `ir` and the
      general registers keep their values and only the reset handler and its commit write. */
  lemma ResetGates(s: Regs, d: Byte)
    requires s.resetState != 3
    ensures var r := Next(s, d);
            r.(addr := s.addr, ip := s.ip, rw := s.rw, tmp8 := s.tmp8, resetState := s.resetState,
               instrState := s.instrState) == s
  {
  }

  /** A machine about to fetch: reset done, no instruction in progress, `addr` on `ip`, the
      bus reading and `tmp8` clear. The reset leaves the machine so and so does every
      instruction. */
  predicate AtFetch(m: Machine)
  {
    && |m.mem| == Space && m.regs.resetState == 3 && m.regs.instrState == 0
    && m.regs.addr == m.regs.ip && m.regs.rw && m.regs.tmp8 == 0
  }

  /** NOP, and every opcode but JMP's: two clocks; the core commits to `ip0 + 1` (wrapping at
      2^16) and only `ir`, `ip` and `addr` change. */
  lemma NopRun(m: Machine)
    requires AtFetch(m) && m.mem[m.regs.ip] != JmpOpcode
    ensures var next := Wrap16(m.regs.ip + 1);
            && Run(m, 2) == Machine(m.regs.(ir := m.mem[m.regs.ip], ip := next, addr := next), m.mem)
            && AtFetch(Run(m, 2))
  {
    var m1 := Tick(m);
    assert m1.regs == m.regs.(ir := m.mem[m.regs.ip], instrState := 1);
  }

  /** JMP: four clocks; the target is the byte at `ip0 + 1` (low) joined with the byte at
      `ip0 + 2` (high), `tmp8` is left cleared, and only `ir`, `ip` and `addr` change. */
  lemma JmpRun(m: Machine)
    requires AtFetch(m) && m.mem[m.regs.ip] == JmpOpcode
    ensures var p1 := Wrap16(m.regs.ip + 1); var p2 := Wrap16(m.regs.ip + 2);
            var target := Cat8(m.mem[p1], m.mem[p2]);
            && Run(m, 4) == Machine(m.regs.(ir := JmpOpcode, ip := target, addr := target), m.mem)
            && AtFetch(Run(m, 4))
  {
    var p1: int := Wrap16(m.regs.ip + 1);
    var p2: int := Wrap16(m.regs.ip + 2);
    var m1 := Tick(m);
    assert m1.regs == m.regs.(ir := JmpOpcode, instrState := 1);
    var m2 := Tick(m1);
    assert m2.regs == m1.regs.(addr := p1, ip := p1, instrState := 2);
    var m3 := Tick(m2);
    assert Wrap16(p1 + 1) == p2;
    assert m3.regs == m2.regs.(tmp8 := m.mem[p1], addr := p2, ip := p2, instrState := 3);
    var m4 := Tick(m3);
    assert m4.regs == m.regs.(ir := JmpOpcode, ip := Cat8(m.mem[p1], m.mem[p2]), addr := Cat8(m.mem[p1], m.mem[p2]));
  }
}
