/** src/instructions/JNZ.py: a jump if ZERO is clear, written for byte-wide data. Its target
    is assembled from two bytes through `tmp8`, a register only the prototype of main.py has,
    while it reads `flags` and calls `advance_ip_goto_state`, which only the 32-bit core has.
    It is modelled on the prototype's registers and widths, with the ZERO flag as an input and
    `advance_ip_goto_state` at 16 bits. */
module ByteJnz {
  import opened Types
  import Registry
  import Prototype

  const Definitions := [Registry.Instruction(0x12, "JNZ", Registry.ByteJnzExec, 3)]

  /** `advance_ip_goto_state(k)` at the prototype's widths: `ip` and `addr` step to `ip + 1`,
      `RW` goes high and the micro-state becomes `k`. */
  function Advance(s: Prototype.Regs, base: Prototype.Regs, k: Prototype.StateCount): Prototype.Regs
  {
    var next := Wrap16(s.ip + 1);
    base.(ip := next, addr := next, rw := true, instrState := k)
  }

  /** The `end_instr` JNZ raises: with ZERO clear, in state 3, at the byte latched in `tmp8`
      joined with the byte on the bus; with ZERO set, at once, at `ip + 3`. */
  function End(s: Prototype.Regs, d: Byte, zero: bool): Option<Word16>
  {
    if !zero then
      if s.instrState == 3 then Some(Cat8(s.tmp8, d)) else None
    else Some(Wrap16(s.ip + 3))
  }

  /** The sync writes of JNZ over what the earlier handlers left pending. */
  function Sync(s: Prototype.Regs, d: Byte, zero: bool, base: Prototype.Regs): Prototype.Regs
  {
    if zero then base
    else if s.instrState == 2 then Advance(s, base.(tmp8 := d), 3)
    else if s.instrState == 3 then base.(tmp8 := 0)
    else Advance(s, base, 2)
  }

  method Exec(core: Prototype.Core, s: Prototype.Regs, d: Byte, zero: bool)
    modifies core
    ensures core.Snapshot() == Sync(s, d, zero, old(core.Snapshot()))
  {
    if !zero {
      var next := Wrap16(s.ip + 1);
      if s.instrState == 2 {
        core.tmp8 := d;
        core.ip, core.addr, core.rw, core.instrState := next, next, true, 3;
      } else if s.instrState == 3 {
        core.tmp8 := 0;
      } else {
        core.ip, core.addr, core.rw, core.instrState := next, next, true, 2;
      }
    }
  }

  /** An execute cycle of JNZ in the prototype once its reset is done: `alu_write` writes
      nothing and the reset handler is idle, so the commit and JNZ's own writes are all that
      happen, in that order. */
  function Clock(s: Prototype.Regs, d: Byte, zero: bool): Prototype.Regs
  {
    Sync(s, d, zero, Prototype.Commit(s, End(s, d, zero)))
  }

  /** The byte the bench memory puts on the bus. */
  function Read(mem: seq<Byte>, s: Prototype.Regs): Byte
    requires |mem| == Prototype.Space
  {
    mem[s.addr]
  }

  /** JNZ with ZERO clear, from its first execute cycle with `addr` on the opcode at `ip0`:
      three clocks; the target is the byte at `ip0 + 1` (low) joined with the byte at `ip0 + 2`
      (high), `tmp8` is left cleared and the core is ready to fetch there. */
  lemma TakenRun(s: Prototype.Regs, mem: seq<Byte>)
    requires |mem| == Prototype.Space
    requires s.resetState == 3 && s.instrState == 1 && s.addr == s.ip
    ensures var p1 := Wrap16(s.ip + 1); var p2 := Wrap16(s.ip + 2);
            var target := Cat8(mem[p1], mem[p2]);
            var s1 := Clock(s, Read(mem, s), false);
            var s2 := Clock(s1, Read(mem, s1), false);
            var s3 := Clock(s2, Read(mem, s2), false);
            && s3 == s.(ip := target, addr := target, rw := true, tmp8 := 0, instrState := 0)
            && s3.ip % 0x100 == mem[p1] && s3.ip / 0x100 == mem[p2]
  {
    var p1: int := Wrap16(s.ip + 1);
    var p2: int := Wrap16(s.ip + 2);
    var s1 := Clock(s, Read(mem, s), false);
    assert s1 == s.(ip := p1, addr := p1, rw := true, instrState := 2);
    var s2 := Clock(s1, Read(mem, s1), false);
    assert Wrap16(p1 + 1) == p2;
    assert s2 == s.(ip := p2, addr := p2, rw := true, tmp8 := mem[p1], instrState := 3);
  }

  /** JNZ with ZERO set: one execute cycle; the core commits to `ip0 + 3` (wrapping at 2^16)
      and nothing else changes. */
  lemma NotTakenRun(s: Prototype.Regs, d: Byte)
    requires s.resetState == 3 && s.instrState != 0
    ensures var next := Wrap16(s.ip + 3);
            Clock(s, d, true) == s.(ip := next, addr := next, instrState := 0)
  {
  }
}
