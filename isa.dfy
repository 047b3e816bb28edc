/** The instruction set as src/instructions/__init__.py loads it: every instruction file is
    imported once, in the order `os.listdir` happens to give, and each `Instruction(...)` call
    in it registers into the global tables. The core then elaborates with those tables. */
module Isa {
  import opened Registry
  import opened CoreState
  import Cpu
  import Nop
  import Halt
  import Jmp
  import Cjmp
  import Jiz
  import ByteJnz
  import LdiAbs
  import Ldi
  import AddiAbs
  import Addi
  import SubiAbs
  import Subi
  import Inci
  import Deci
  import Sti
  import Mov
  import FlagOps
  import Push
  import Pushi
  import Pop
  import Ret

  /** The registrations of every instruction file, in the alphabetical order of the file
      names. */
  const AsWritten :=
    Addi.Definitions + AddiAbs.Definitions + Cjmp.Definitions + Deci.Definitions
    + FlagOps.Definitions + Halt.Definitions + Inci.Definitions + Jiz.Definitions
    + Jmp.Definitions + ByteJnz.Definitions + Ldi.Definitions + LdiAbs.Definitions
    + Mov.Definitions + Nop.Definitions + Pop.Definitions + Push.Definitions
    + Pushi.Definitions + Ret.Definitions + Sti.Definitions + Subi.Definitions
    + SubiAbs.Definitions

  /** CJMP.py registers JIZ at 0x11 and JNZ at 0x12, and so do JIZ.py and JNZ.py: however
      `os.listdir` orders the files, a load that imports CJMP.py and JIZ.py stops with an
      error. */
  lemma CjmpAndJizClash(defs: seq<Instruction>)
    requires Cjmp.Definitions[0] in defs && Jiz.Definitions[0] in defs
    ensures Load(Empty, defs).error.Some?
  {
    var j :| 0 <= j < |defs| && defs[j] == Cjmp.Definitions[0];
    var k :| 0 <= k < |defs| && defs[k] == Jiz.Definitions[0];
    DuplicateOpcodeFails(Empty, defs, j, k);
  }

  /** The same holds for CJMP.py and JNZ.py at 0x12. */
  lemma CjmpAndJnzClash(defs: seq<Instruction>)
    requires Cjmp.Definitions[1] in defs && ByteJnz.Definitions[0] in defs
    ensures Load(Empty, defs).error.Some?
  {
    var j :| 0 <= j < |defs| && defs[j] == Cjmp.Definitions[1];
    var k :| 0 <= k < |defs| && defs[k] == ByteJnz.Definitions[0];
    DuplicateOpcodeFails(Empty, defs, j, k);
  }

  /** In particular the alphabetical load of every file fails. */
  lemma AsWrittenFails()
    ensures Load(Empty, AsWritten).error.Some?
  {
    assert Cjmp.Definitions[0] in Cjmp.Definitions && Jiz.Definitions[0] in Jiz.Definitions;
    CjmpAndJizClash(AsWritten);
  }

  // ----- the corrected instruction set -----

  /** The instruction set the core is modelled with: every file except JIZ.py and JNZ.py, whose
      instructions CJMP.py already defines, with the flag instructions ending as they should.
      The files are listed by opcode, in six groups. */
  const Control := Halt.Definitions + Nop.Definitions + Mov.Definitions + Jmp.Definitions
                   + Cjmp.Definitions
  const Absolute := LdiAbs.Definitions + AddiAbs.Definitions + SubiAbs.Definitions
  const StepStore := Inci.Definitions + Deci.Definitions + Sti.Definitions
  const Stack := Push.Definitions + Pushi.Definitions + Pop.Definitions + Ret.Definitions
  const Immediate := Subi.Definitions + Ldi.Definitions
  const AddFlags := Addi.Definitions + FlagOps.CorrectedDefinitions

  const Corrected := Control + Absolute + StepStore + Stack + Immediate + AddFlags

  /** The names each group registers, file by file. */
  const ControlNames := ["HALT"] + ["NOP"] + ["MOV"] + ["JMP"]
                        + ["JIZ", "JNZ", "JIC", "JNC", "JIE", "JNE"]
  const AbsoluteNames := ["LDA_ABS", "LDB_ABS", "LDX_ABS"] + ["ADDA_ABS", "ADDB_ABS", "ADDX_ABS"]
                         + ["SUBA_ABS", "SUBB_ABS", "SUBX_ABS"]
  const StepStoreNames := ["INCA", "INCB", "INCX"] + ["DECA", "DECB", "DECX"] + ["STA", "STB", "STX"]
  const StackNames := ["PUSH"] + ["PUSHA", "PUSHB", "PUSHX"] + ["POP"] + ["RET"]
  const ImmediateNames := ["SUBA", "SUBB", "SUBX"] + ["LDA", "LDB", "LDX"]
  const AddFlagsNames := ["ADDA", "ADDB", "ADDX"] + ["SCF", "CCF", "SEF", "CEF"]

  /** The same names, as sets. */
  const ControlSet := {"HALT", "NOP", "MOV", "JMP", "JIZ", "JNZ", "JIC", "JNC", "JIE", "JNE"}
  const AbsoluteSet := {"LDA_ABS", "LDB_ABS", "LDX_ABS", "ADDA_ABS", "ADDB_ABS", "ADDX_ABS",
                        "SUBA_ABS", "SUBB_ABS", "SUBX_ABS"}
  const StepStoreSet := {"INCA", "INCB", "INCX", "DECA", "DECB", "DECX", "STA", "STB", "STX"}
  const StackSet := {"PUSH", "PUSHA", "PUSHB", "PUSHX", "POP", "RET"}
  const ImmediateSet := {"SUBA", "SUBB", "SUBX", "LDA", "LDB", "LDX"}
  const AddFlagsSet := {"ADDA", "ADDB", "ADDX", "SCF", "CCF", "SEF", "CEF"}

  /** The core's configuration with the corrected tables and the default constructor options. */
  const CorrectedConfig := Config(Load(Empty, Corrected).tables)

  predicate Ascending(defs: seq<Instruction>)
  {
    forall k | 0 <= k < |defs| - 1 :: defs[k].opcode < defs[k + 1].opcode
  }

  lemma {:induction false} AscendingOrder(defs: seq<Instruction>, j: nat, k: nat)
    requires Ascending(defs) && j < k < |defs|
    ensures defs[j].opcode < defs[k].opcode
    decreases k - j
  {
    if j + 1 < k {
      AscendingOrder(defs, j + 1, k);
    }
  }

  /** Definitions that ascend by opcode within `[lo, hi)`, are registered under the names
      `ns`, and none of which is the byte-wide JNZ. */
  predicate Fits(f: seq<Instruction>, lo: int, hi: int, ns: seq<string>)
  {
    && |f| == |ns| > 0 && Ascending(f) && lo <= f[0].opcode && f[|f| - 1].opcode < hi
    && (forall k | 0 <= k < |f| :: f[k].name == ns[k] && f[k].exec != ByteJnzExec)
  }

  /** Names that are pairwise distinct and not among `seen`. */
  predicate NewNames(ns: seq<string>, seen: set<string>)
  {
    Apart(ns, seen) && (forall j, k | 0 <= j < k < |ns| :: ns[j] != ns[k])
  }

  /** None of the names `ns` is in `s`. */
  predicate Apart(ns: seq<string>, s: set<string>)
  {
    forall k | 0 <= k < |ns| :: ns[k] !in s
  }

  lemma ApartUnion(ns: seq<string>, a: set<string>, b: set<string>)
    requires Apart(ns, a) && Apart(ns, b)
    ensures Apart(ns, a + b)
  {
  }

  /** Tables whose opcodes all lie below `bound`, whose names are all among `seen`, and none of
      whose instructions is the byte-wide JNZ. */
  predicate Within(t: Tables, bound: int, seen: set<string>)
  {
    && (forall o | o in t.opcodes :: o < bound && t.opcodes[o].exec != ByteJnzExec)
    && (forall n | n in t.names :: n in seen)
    && (forall n | n in t.asm :: n in seen)
  }

  lemma FitsOne(f: seq<Instruction>, lo: int, hi: int, ns: seq<string>)
    requires |f| == 1 && |ns| == 1 && lo <= f[0].opcode < hi
    requires f[0].name == ns[0] && f[0].exec != ByteJnzExec
    ensures Fits(f, lo, hi, ns)
  {
  }

  lemma FitsThree(f: seq<Instruction>, lo: int, hi: int, ns: seq<string>)
    requires |f| == 3 && |ns| == 3
    requires lo <= f[0].opcode < f[1].opcode < f[2].opcode < hi
    requires f[0].name == ns[0] && f[1].name == ns[1] && f[2].name == ns[2]
    requires f[0].exec != ByteJnzExec && f[1].exec != ByteJnzExec && f[2].exec != ByteJnzExec
    ensures Fits(f, lo, hi, ns)
  {
  }

  lemma FitsFour(f: seq<Instruction>, lo: int, hi: int, ns: seq<string>)
    requires |f| == 4 && |ns| == 4
    requires lo <= f[0].opcode < f[1].opcode < f[2].opcode < f[3].opcode < hi
    requires f[0].name == ns[0] && f[1].name == ns[1] && f[2].name == ns[2] && f[3].name == ns[3]
    requires forall k | 0 <= k < 4 :: f[k].exec != ByteJnzExec
    ensures Fits(f, lo, hi, ns)
  {
  }

  lemma FitsSix(f: seq<Instruction>, lo: int, hi: int, ns: seq<string>)
    requires |f| == 6 && |ns| == 6
    requires lo <= f[0].opcode < f[1].opcode < f[2].opcode < f[3].opcode < f[4].opcode
             < f[5].opcode < hi
    requires forall k | 0 <= k < 6 :: f[k].name == ns[k] && f[k].exec != ByteJnzExec
    ensures Fits(f, lo, hi, ns)
  {
  }

  lemma FitsAppend(a: seq<Instruction>, b: seq<Instruction>, lo: int, mid: int, hi: int,
                   na: seq<string>, nb: seq<string>)
    requires Fits(a, lo, mid, na) && Fits(b, mid, hi, nb)
    ensures Fits(a + b, lo, hi, na + nb)
  {
    var f := a + b;
    forall k | 0 <= k < |f| - 1 ensures f[k].opcode < f[k + 1].opcode {
      if k == |a| - 1 {
        assert f[k] == a[|a| - 1] && f[k + 1] == b[0];
      }
    }
  }

  /** Loading `a + b` is loading `a` and then, unless that failed, loading `b` on top. */
  lemma {:induction false} LoadAppend(t: Tables, a: seq<Instruction>, b: seq<Instruction>)
    ensures Load(t, a + b) ==
              var prev := Load(t, a); if prev.error.Some? then prev else Load(prev.tables, b)
    decreases |b|
  {
    if |b| == 0 {
      assert a + b == a;
    } else {
      var init := b[..|b| - 1];
      assert (a + b)[..|a + b| - 1] == a + init;
      assert (a + b)[|a + b| - 1] == b[|b| - 1];
      LoadAppend(t, a, init);
    }
  }

  /** A group that fits above what is loaded so far loads without an error. */
  lemma Extend(p: seq<Instruction>, f: seq<Instruction>, lo: int, hi: int,
               seen: set<string>, ns: seq<string>, grown: set<string>)
    requires Load(Empty, p).error.None? && Within(Load(Empty, p).tables, lo, seen)
    requires Fits(f, lo, hi, ns) && NewNames(ns, seen)
    requires forall k | 0 <= k < |ns| :: ns[k] in grown
    ensures Load(Empty, p + f).error.None? && Within(Load(Empty, p + f).tables, hi, seen + grown)
  {
    var t := Load(Empty, p).tables;
    forall k | 0 <= k < |f| ensures lo <= f[k].opcode < hi {
      if 0 < k { AscendingOrder(f, 0, k); }
      if k < |f| - 1 { AscendingOrder(f, k, |f| - 1); }
    }
    forall j, k | 0 <= j < k < |f| ensures f[j].opcode != f[k].opcode {
      AscendingOrder(f, j, k);
    }
    assert DistinctAndFresh(t, f);
    LoadSucceedsIff(t, f);
    LoadAppend(Empty, p, f);
    var u := Load(t, f).tables;
    LoadKeys(t, f);
    LoadKeepsEntries(t, f);
    LoadLookups(t, f);
    forall o | o in u.opcodes ensures o < hi && u.opcodes[o].exec != ByteJnzExec {
      if o !in t.opcodes {
        OpcodesOfMembers(f, o);
      }
    }
    forall n | n in u.names ensures n in seen + grown {
      if n !in t.names {
        NamesOfMembers(f, n);
        var k :| 0 <= k < |f| && f[k].name == n;
        assert ns[k] == n;
      }
    }
    forall n | n in u.asm ensures n in seen + grown {
      if n !in t.asm {
        NamesOfMembers(f, n);
        var k :| 0 <= k < |f| && f[k].name == n;
        assert ns[k] == n;
      }
    }
  }

  // ----- each group, checked on its own -----

  lemma ControlFits()
    ensures Fits(Control, 0x00, 0x17, ControlNames)
  {
    FitsOne(Halt.Definitions, 0x00, 0x01, ["HALT"]);
    FitsOne(Nop.Definitions, 0x01, 0x02, ["NOP"]);
    FitsOne(Mov.Definitions, 0x02, 0x03, ["MOV"]);
    FitsOne(Jmp.Definitions, 0x03, 0x11, ["JMP"]);
    FitsSix(Cjmp.Definitions, 0x11, 0x17, ["JIZ", "JNZ", "JIC", "JNC", "JIE", "JNE"]);
    FitsAppend(Halt.Definitions, Nop.Definitions, 0x00, 0x01, 0x02, ["HALT"], ["NOP"]);
    FitsAppend(Halt.Definitions + Nop.Definitions, Mov.Definitions, 0x00, 0x02, 0x03,
               ["HALT"] + ["NOP"], ["MOV"]);
    FitsAppend(Halt.Definitions + Nop.Definitions + Mov.Definitions, Jmp.Definitions,
               0x00, 0x03, 0x11, ["HALT"] + ["NOP"] + ["MOV"], ["JMP"]);
    FitsAppend(Halt.Definitions + Nop.Definitions + Mov.Definitions + Jmp.Definitions,
               Cjmp.Definitions, 0x00, 0x11, 0x17, ["HALT"] + ["NOP"] + ["MOV"] + ["JMP"],
               ["JIZ", "JNZ", "JIC", "JNC", "JIE", "JNE"]);
  }

  lemma ControlNamesNew()
    ensures NewNames(ControlNames, {})
    ensures forall k | 0 <= k < |ControlNames| :: ControlNames[k] in ControlSet
  {
  }

  lemma AbsoluteFits()
    ensures Fits(Absolute, 0x17, 0x36, AbsoluteNames)
  {
    FitsThree(LdiAbs.Definitions, 0x17, 0x23, ["LDA_ABS", "LDB_ABS", "LDX_ABS"]);
    FitsThree(AddiAbs.Definitions, 0x23, 0x33, ["ADDA_ABS", "ADDB_ABS", "ADDX_ABS"]);
    FitsThree(SubiAbs.Definitions, 0x33, 0x36, ["SUBA_ABS", "SUBB_ABS", "SUBX_ABS"]);
    FitsAppend(LdiAbs.Definitions, AddiAbs.Definitions, 0x17, 0x23, 0x33,
               ["LDA_ABS", "LDB_ABS", "LDX_ABS"], ["ADDA_ABS", "ADDB_ABS", "ADDX_ABS"]);
    FitsAppend(LdiAbs.Definitions + AddiAbs.Definitions, SubiAbs.Definitions, 0x17, 0x33, 0x36,
               ["LDA_ABS", "LDB_ABS", "LDX_ABS"] + ["ADDA_ABS", "ADDB_ABS", "ADDX_ABS"],
               ["SUBA_ABS", "SUBB_ABS", "SUBX_ABS"]);
  }

  lemma AbsoluteNamesNew()
    ensures NewNames(AbsoluteNames, ControlSet)
    ensures forall k | 0 <= k < |AbsoluteNames| :: AbsoluteNames[k] in AbsoluteSet
  {
  }

  lemma StepStoreFits()
    ensures Fits(StepStore, 0x36, 0x43, StepStoreNames)
  {
    FitsThree(Inci.Definitions, 0x36, 0x39, ["INCA", "INCB", "INCX"]);
    FitsThree(Deci.Definitions, 0x39, 0x3C, ["DECA", "DECB", "DECX"]);
    FitsThree(Sti.Definitions, 0x3C, 0x43, ["STA", "STB", "STX"]);
    FitsAppend(Inci.Definitions, Deci.Definitions, 0x36, 0x39, 0x3C,
               ["INCA", "INCB", "INCX"], ["DECA", "DECB", "DECX"]);
    FitsAppend(Inci.Definitions + Deci.Definitions, Sti.Definitions, 0x36, 0x3C, 0x43,
               ["INCA", "INCB", "INCX"] + ["DECA", "DECB", "DECX"], ["STA", "STB", "STX"]);
  }

  lemma StepStoreNamesNew()
    ensures NewNames(StepStoreNames, ControlSet + AbsoluteSet)
    ensures forall k | 0 <= k < |StepStoreNames| :: StepStoreNames[k] in StepStoreSet
  {
  }

  lemma StackFits()
    ensures Fits(Stack, 0x43, 0xB6, StackNames)
  {
    FitsOne(Push.Definitions, 0x43, 0xA1, ["PUSH"]);
    FitsThree(Pushi.Definitions, 0xA1, 0xA4, ["PUSHA", "PUSHB", "PUSHX"]);
    FitsOne(Pop.Definitions, 0xA4, 0xB1, ["POP"]);
    FitsOne(Ret.Definitions, 0xB1, 0xB6, ["RET"]);
    FitsAppend(Push.Definitions, Pushi.Definitions, 0x43, 0xA1, 0xA4,
               ["PUSH"], ["PUSHA", "PUSHB", "PUSHX"]);
    FitsAppend(Push.Definitions + Pushi.Definitions, Pop.Definitions, 0x43, 0xA4, 0xB1,
               ["PUSH"] + ["PUSHA", "PUSHB", "PUSHX"], ["POP"]);
    FitsAppend(Push.Definitions + Pushi.Definitions + Pop.Definitions, Ret.Definitions,
               0x43, 0xB1, 0xB6, ["PUSH"] + ["PUSHA", "PUSHB", "PUSHX"] + ["POP"], ["RET"]);
  }

  lemma StackNamesNew()
    ensures NewNames(StackNames, ControlSet + AbsoluteSet + StepStoreSet)
    ensures forall k | 0 <= k < |StackNames| :: StackNames[k] in StackSet
  {
    assert Apart(StackNames, ControlSet) && Apart(StackNames, AbsoluteSet);
    ApartUnion(StackNames, ControlSet, AbsoluteSet);
    assert Apart(StackNames, StepStoreSet);
    ApartUnion(StackNames, ControlSet + AbsoluteSet, StepStoreSet);
  }

  lemma ImmediateFits()
    ensures Fits(Immediate, 0xB6, 0xD3, ImmediateNames)
  {
    FitsThree(Subi.Definitions, 0xB6, 0xC3, ["SUBA", "SUBB", "SUBX"]);
    FitsThree(Ldi.Definitions, 0xC3, 0xD3, ["LDA", "LDB", "LDX"]);
    FitsAppend(Subi.Definitions, Ldi.Definitions, 0xB6, 0xC3, 0xD3,
               ["SUBA", "SUBB", "SUBX"], ["LDA", "LDB", "LDX"]);
  }

  lemma ImmediateNamesNew()
    ensures NewNames(ImmediateNames, ControlSet + AbsoluteSet + StepStoreSet + StackSet)
    ensures forall k | 0 <= k < |ImmediateNames| :: ImmediateNames[k] in ImmediateSet
  {
    var ns := ImmediateNames;
    assert Apart(ns, ControlSet) && Apart(ns, AbsoluteSet);
    ApartUnion(ns, ControlSet, AbsoluteSet);
    assert Apart(ns, StepStoreSet);
    ApartUnion(ns, ControlSet + AbsoluteSet, StepStoreSet);
    assert Apart(ns, StackSet);
    ApartUnion(ns, ControlSet + AbsoluteSet + StepStoreSet, StackSet);
  }

  lemma AddFlagsFits()
    ensures Fits(AddFlags, 0xD3, 0xF4, AddFlagsNames)
  {
    FitsThree(Addi.Definitions, 0xD3, 0xE3, ["ADDA", "ADDB", "ADDX"]);
    FitsFour(FlagOps.CorrectedDefinitions, 0xE3, 0xF4, ["SCF", "CCF", "SEF", "CEF"]);
    FitsAppend(Addi.Definitions, FlagOps.CorrectedDefinitions, 0xD3, 0xE3, 0xF4,
               ["ADDA", "ADDB", "ADDX"], ["SCF", "CCF", "SEF", "CEF"]);
  }

  lemma AddFlagsNamesNew()
    ensures NewNames(AddFlagsNames,
                     ControlSet + AbsoluteSet + StepStoreSet + StackSet + ImmediateSet)
    ensures forall k | 0 <= k < |AddFlagsNames| :: AddFlagsNames[k] in AddFlagsSet
  {
    var ns := AddFlagsNames;
    assert Apart(ns, ControlSet) && Apart(ns, AbsoluteSet);
    ApartUnion(ns, ControlSet, AbsoluteSet);
    assert Apart(ns, StepStoreSet);
    ApartUnion(ns, ControlSet + AbsoluteSet, StepStoreSet);
    assert Apart(ns, StackSet);
    ApartUnion(ns, ControlSet + AbsoluteSet + StepStoreSet, StackSet);
    assert Apart(ns, ImmediateSet);
    ApartUnion(ns, ControlSet + AbsoluteSet + StepStoreSet + StackSet, ImmediateSet);
  }

  // ----- the corrected set loads and elaborates -----

  /** The corrected instruction set loads without an error; every definition sits under its
      own opcode and its own name, the opcodes stay below 0xF4 and none is the byte-wide
      JNZ. */
  lemma CorrectedLoads()
    ensures Load(Empty, Corrected).error.None?
    ensures Within(CorrectedConfig.tables, 0xF4,
                   ControlSet + AbsoluteSet + StepStoreSet + StackSet + ImmediateSet + AddFlagsSet)
    ensures var t := CorrectedConfig.tables;
            forall k | 0 <= k < |Corrected| ::
              && Corrected[k].opcode in t.opcodes && t.opcodes[Corrected[k].opcode] == Corrected[k]
              && Corrected[k].name in t.names && t.names[Corrected[k].name] == Corrected[k]
  {
    ControlFits();
    ControlNamesNew();
    assert [] + Control == Control;
    assert Within(Empty, 0x00, {});
    Extend([], Control, 0x00, 0x17, {}, ControlNames, ControlSet);
    assert {} + ControlSet == ControlSet;
    AbsoluteFits();
    AbsoluteNamesNew();
    Extend(Control, Absolute, 0x17, 0x36, ControlSet, AbsoluteNames, AbsoluteSet);
    StepStoreFits();
    StepStoreNamesNew();
    Extend(Control + Absolute, StepStore, 0x36, 0x43, ControlSet + AbsoluteSet,
           StepStoreNames, StepStoreSet);
    StackFits();
    StackNamesNew();
    Extend(Control + Absolute + StepStore, Stack, 0x43, 0xB6,
           ControlSet + AbsoluteSet + StepStoreSet, StackNames, StackSet);
    ImmediateFits();
    ImmediateNamesNew();
    Extend(Control + Absolute + StepStore + Stack, Immediate, 0xB6, 0xD3,
           ControlSet + AbsoluteSet + StepStoreSet + StackSet, ImmediateNames, ImmediateSet);
    AddFlagsFits();
    AddFlagsNamesNew();
    Extend(Control + Absolute + StepStore + Stack + Immediate, AddFlags, 0xD3, 0xF4,
           ControlSet + AbsoluteSet + StepStoreSet + StackSet + ImmediateSet,
           AddFlagsNames, AddFlagsSet);
    LoadLookups(Empty, Corrected);
  }

  /** Every entry of the loaded opcode table is one of the corrected registrations. */
  lemma CorrectedEntries(o: int)
    requires o in CorrectedConfig.tables.opcodes
    ensures exists k | 0 <= k < |Corrected| ::
              Corrected[k].opcode == o && CorrectedConfig.tables.opcodes[o] == Corrected[k]
  {
    CorrectedLoads();
    LoadKeys(Empty, Corrected);
    OpcodesOfMembers(Corrected, o);
  }

  /** With the corrected tables the core elaborates: "NOP" is registered with the NOP protocol,
      and nothing is registered with the byte-wide JNZ. */
  lemma CorrectedElaborates()
    ensures Elaborates(CorrectedConfig)
    ensures CorrectedConfig.tables.names["NOP"].exec == NopExec
  {
    CorrectedLoads();
    assert Nop.Definitions[0] in Control;
    assert Nop.Definitions[0] in Corrected;
  }

  /** `ir` decodes to the protocol registered under it, and a word registered under no
      opcode decodes to NOP. */
  lemma CorrectedDecode(ir: Types.Word)
    ensures Elaborates(CorrectedConfig)
    ensures forall k | 0 <= k < |Corrected| && Corrected[k].opcode == ir ::
              Cpu.Decode(CorrectedConfig, ir) == Corrected[k].exec
    ensures (forall k | 0 <= k < |Corrected| :: Corrected[k].opcode != ir) ==>
              Cpu.Decode(CorrectedConfig, ir) == NopExec
  {
    CorrectedElaborates();
    CorrectedLoads();
    if ir in CorrectedConfig.tables.opcodes {
      CorrectedEntries(ir);
    }
  }
}
