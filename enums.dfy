/** The integer enumerations of src/include/enums.py: ALU operations, stack operations and
    the bit positions of the flags register. */
module Enums {
  import opened Types

  datatype AluOp = NONE | ADD | SUB | MUL | INC | DEC

  /** The IntEnum value: NONE is 0 and each further member is the next integer. */
  function AluOpValue(op: AluOp): (v: nat)
    ensures v < 6
  {
    match op
    case NONE => 0
    case ADD => 1
    case SUB => 2
    case MUL => 3
    case INC => 4
    case DEC => 5
  }

  /** `AluOps(v)`: the member with value `v`, or nothing when there is none (Python raises). */
  function AluOpOf(v: int): Option<AluOp>
  {
    match v
    case 0 => Some(NONE)
    case 1 => Some(ADD)
    case 2 => Some(SUB)
    case 3 => Some(MUL)
    case 4 => Some(INC)
    case 5 => Some(DEC)
    case _ => None
  }

  datatype StackOp = StackNone | PUSH | POP

  function StackOpValue(op: StackOp): (v: nat)
    ensures v < 3
  {
    match op
    case StackNone => 0
    case PUSH => 1
    case POP => 2
  }

  function StackOpOf(v: int): Option<StackOp>
  {
    match v
    case 0 => Some(StackNone)
    case 1 => Some(PUSH)
    case 2 => Some(POP)
    case _ => None
  }

  datatype Flag = ZERO | CARRY | NEGATIVE | ERROR | OVERFLOW

  /** The bit index of a flag inside the 8-bit flags register. */
  function FlagIndex(f: Flag): (i: nat)
    ensures i < 5
  {
    match f
    case ZERO => 0
    case CARRY => 1
    case NEGATIVE => 2
    case ERROR => 3
    case OVERFLOW => 4
  }

  /** `AluOps` values are the integers 0..5 in declaration order, one per member. */
  lemma AluOpValues()
    ensures AluOpValue(NONE) == 0 && AluOpValue(ADD) == 1 && AluOpValue(SUB) == 2
    ensures AluOpValue(MUL) == 3 && AluOpValue(INC) == 4 && AluOpValue(DEC) == 5
    ensures forall op: AluOp :: AluOpOf(AluOpValue(op)) == Some(op)
    ensures forall v: int :: AluOpOf(v).Some? <==> 0 <= v < 6
    ensures forall v: int | 0 <= v < 6 :: AluOpValue(AluOpOf(v).value) == v
  {
  }

  /** `StackOps` values are NONE = 0, PUSH = 1, POP = 2, one per member. */
  lemma StackOpValues()
    ensures StackOpValue(StackNone) == 0 && StackOpValue(PUSH) == 1 && StackOpValue(POP) == 2
    ensures forall op: StackOp :: StackOpOf(StackOpValue(op)) == Some(op)
    ensures forall v: int :: StackOpOf(v).Some? <==> 0 <= v < 3
  {
  }

  /** Flag indices are ZERO = 0 .. OVERFLOW = 4: distinct, and all inside the 8-bit register. */
  lemma FlagIndices()
    ensures FlagIndex(ZERO) == 0 && FlagIndex(CARRY) == 1 && FlagIndex(NEGATIVE) == 2
    ensures FlagIndex(ERROR) == 3 && FlagIndex(OVERFLOW) == 4
    ensures forall f: Flag, g: Flag :: FlagIndex(f) == FlagIndex(g) ==> f == g
    ensures forall f: Flag :: FlagIndex(f) < 8
  {
  }

  /** The value of flag `f` in a flags register. */
  function FlagOf(flags: bv8, f: Flag): bool
  {
    Bit(flags, FlagIndex(f))
  }

  /** `flags[f].eq(b)`. */
  function WithFlag(flags: bv8, f: Flag, b: bool): (g: bv8)
    ensures FlagOf(g, f) == b
    ensures forall h: Flag :: h != f ==> FlagOf(g, h) == FlagOf(flags, h)
  {
    SetBit(flags, FlagIndex(f), b)
  }
}
