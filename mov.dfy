/** src/instructions/MOV.py: copy a word from a source to a destination, each of which is a
    memory address or one of three sentinel words naming RA, RB and RX. */
module Mov {
  import opened Types
  import opened Registry
  import opened CoreState

  const Definitions := [Instruction(0x02, "MOV", MovExec, 3)]

  /** The sentinel words: the signed constants -256, -255 and -254 as 32-bit patterns. */
  function Sentinel(w: Word): Option<Reg>
  {
    if w == 0xFFFF_FF00 then Some(RA)
    else if w == 0xFFFF_FF01 then Some(RB)
    else if w == 0xFFFF_FF02 then Some(RX)
    else None
  }

  function Comb(s: Regs): Signals
  {
    if s.instrState == 6 then EndAt(s.ip + 1) else Quiet
  }

  /** The six states: 2 reads the source (a register into `tmp32`, or an address into `addr`
      with `tmp32_2` marking the memory case), 3 loads a memory source and steps to the
      destination operand, 4 writes a register destination or points `addr` at a memory one,
      5 drives `tmp32` onto `data_out` with `RW` low in the memory case, 6 clears up and
      commits. Any other state steps to the source operand and enters state 2. */
  function Sync(s: Regs, d: Word, base: Regs): Regs
  {
    if s.instrState == 2 then
      match Sentinel(d)
      case Some(r) => base.(tmp32 := Wrap32(RegValue(s, r)), tmp32_2 := 0, instrState := 3)
      case None => base.(addr := d, tmp32_2 := 1, instrState := 3)
    else if s.instrState == 3 then
      var loaded := if s.tmp32_2 != 0 then base.(tmp32 := d, tmp32_2 := 0) else base;
      Advance(s, loaded, 4)
    else if s.instrState == 4 then
      match Sentinel(d)
      case Some(r) => WithReg(base, r, ToSigned(s.tmp32)).(tmp32_2 := 0, instrState := 5)
      case None => base.(addr := d, tmp32_2 := 1, instrState := 5)
    else if s.instrState == 5 then
      var stored := if s.tmp32_2 != 0 then base.(dataOut := s.tmp32, tmp32_2 := 0, rw := false) else base;
      stored.(instrState := 6)
    else if s.instrState == 6 then base.(tmp32 := 0, rw := true, dataOut := 0)
    else Advance(s, base, 2)
  }

  method Exec(core: Core, s: Regs, d: Word)
    modifies core
    ensures core.Snapshot() == Sync(s, d, old(core.Snapshot()))
  {
    if s.instrState == 2 {
      var src := Sentinel(d);
      if src.Some? {
        core.tmp32 := Wrap32(RegValue(s, src.value));
        core.tmp32_2 := 0;
      } else {
        core.addr := d;
        core.tmp32_2 := 1;
      }
      core.instrState := 3;
    } else if s.instrState == 3 {
      if s.tmp32_2 != 0 {
        core.tmp32 := d;
        core.tmp32_2 := 0;
      }
      core.AdvanceIpGotoState(s, 4);
    } else if s.instrState == 4 {
      var dst := Sentinel(d);
      if dst.Some? {
        core.SetReg(dst.value, ToSigned(s.tmp32));
        core.tmp32_2 := 0;
      } else {
        core.addr := d;
        core.tmp32_2 := 1;
      }
      core.instrState := 5;
    } else if s.instrState == 5 {
      if s.tmp32_2 != 0 {
        core.dataOut := s.tmp32;
        core.tmp32_2 := 0;
        core.rw := false;
      }
      core.instrState := 6;
    } else if s.instrState == 6 {
      core.tmp32 := 0;
      core.rw := true;
      core.dataOut := 0;
    } else {
      core.AdvanceIpGotoState(s, 2);
    }
  }

  /** Exactly the three sentinel words name a register, each a different one. */
  lemma SentinelNames(w: Word)
    ensures Sentinel(w).Some? <==> 0xFFFF_FF00 <= w <= 0xFFFF_FF02
    ensures Sentinel(w).Some? ==> w == 0xFFFF_FF00 + (match Sentinel(w).value case RA => 0 case RB => 1 case RX => 2)
    ensures Sentinel(w).Some? ==> ToSigned(w) == -256 + (w - 0xFFFF_FF00)
  {
  }
}
