/** `alu_handler` of src/main.py: when enabled, the ALU computes `alu_out` from `alu_op`,
    `alu_1` and `alu_2` in the same cycle and writes flag bits at the clock edge. */
module Alu {
  import opened Types
  import opened Enums

  /** The combinational output and the flags register the edge leaves behind. */
  datatype AluResult = AluResult(out: SWord, flags: bv8)

  function Compute(op: AluOp, a: SWord, b: SWord, flags: bv8): AluResult
  {
    match op
    case ADD =>
      var r := WrapSigned(a + b);
      AluResult(r, WithFlag(WithFlag(flags, ZERO, r == 0), NEGATIVE, r < 0))
    case SUB =>
      var r := WrapSigned(a - b);
      AluResult(r, WithFlag(WithFlag(flags, ZERO, r == 0), NEGATIVE, r <= 0))
    case _ =>
      AluResult(0, WithFlag(0, ERROR, true))
  }

  /** ADD: the sum truncated to signed 32 bits (the exact sum when it fits); ZERO tells whether
      it is 0, NEGATIVE whether it is below 0, and the other flag bits are kept. */
  lemma AddRule(a: SWord, b: SWord, flags: bv8)
    ensures var r := Compute(ADD, a, b, flags);
            && (r.out - (a + b)) % 0x1_0000_0000 == 0
            && (-0x8000_0000 <= a + b < 0x8000_0000 ==> r.out == a + b)
            && (FlagOf(r.flags, ZERO) <==> r.out == 0)
            && (FlagOf(r.flags, NEGATIVE) <==> r.out < 0)
            && forall f: Flag | f != ZERO && f != NEGATIVE :: FlagOf(r.flags, f) == FlagOf(flags, f)
  {
    WrapSignedIsCongruent(a + b);
  }

  /** SUB: the difference truncated to signed 32 bits; ZERO tells whether it is 0, but NEGATIVE
      is set for 0 as well as for negative results. */
  lemma SubRule(a: SWord, b: SWord, flags: bv8)
    ensures var r := Compute(SUB, a, b, flags);
            && (r.out - (a - b)) % 0x1_0000_0000 == 0
            && (-0x8000_0000 <= a - b < 0x8000_0000 ==> r.out == a - b)
            && (FlagOf(r.flags, ZERO) <==> r.out == 0)
            && (FlagOf(r.flags, NEGATIVE) <==> r.out <= 0)
            && forall f: Flag | f != ZERO && f != NEGATIVE :: FlagOf(r.flags, f) == FlagOf(flags, f)
  {
    WrapSignedIsCongruent(a - b);
  }

  /** Subtracting a value from itself gives 0 and sets both ZERO and NEGATIVE. */
  lemma SubEqualSetsZeroAndNegative(a: SWord, flags: bv8)
    ensures Compute(SUB, a, a, flags).out == 0
    ensures FlagOf(Compute(SUB, a, a, flags).flags, ZERO)
    ensures FlagOf(Compute(SUB, a, a, flags).flags, NEGATIVE)
  {
    SubRule(a, a, flags);
  }

  /** NONE, MUL, INC and DEC have no case of their own: the output is 0 and the flags register
      becomes exactly the ERROR bit, 0x08, whatever it held. */
  lemma OtherOpsRaiseError(op: AluOp, a: SWord, b: SWord, flags: bv8)
    requires op != ADD && op != SUB
    ensures Compute(op, a, b, flags) == AluResult(0, 0x08)
    ensures FlagOf(Compute(op, a, b, flags).flags, ERROR)
    ensures forall f: Flag | f != ERROR :: !FlagOf(Compute(op, a, b, flags).flags, f)
  {
    var g := Compute(op, a, b, flags).flags;
    assert g == WithFlag(0, ERROR, true);
    assert g == 0x08 by {
      assert g & 8 != 0;
      assert forall j | 0 <= j < 8 && j != 3 :: Bit(g, j) == Bit(0, j);
      assert Bit(g, 0) == false && Bit(g, 1) == false && Bit(g, 2) == false;
      assert Bit(g, 4) == false && Bit(g, 5) == false && Bit(g, 6) == false && Bit(g, 7) == false;
    }
  }
}
