/** The instruction registry of src/include/instruction.py: the three global tables
    `instruction_opcodes`, `instruction_names` and `assembler_inst`, the collision checks that
    guard a registration, and the text of `__str__`. The tables are a value `Tables`; the
    in-place dictionaries are the fields of class `Store`. */
module Registry {
  import opened Types
  import opened Enums
  import opened Exceptions

  /** The execute callable an instruction is registered with: which micro-protocol runs, and the
      register or flag its wrapper function binds. */
  datatype Protocol =
    | NopExec
    | HaltExec
    | JmpExec
    | CjmpExec(flag: Flag, invert: bool)
    | JizExec
    | ByteJnzExec
    | LdiAbsExec(reg: Reg)
    | LdiExec(reg: Reg)
    | AddiAbsExec(reg: Reg)
    | AddiExec(reg: Reg)
    | SubiAbsExec(reg: Reg)
    | SubiExec(reg: Reg)
    | InciExec(reg: Reg)
    | DeciExec(reg: Reg)
    | StiExec(reg: Reg)
    | MovExec
    | FlagExec(flag: Flag, value: bool)
    | FlagEndExec(flag: Flag, value: bool)
    | PushExec
    | PushiExec(reg: Reg)
    | PopExec
    | RetExec

  /** An assembler callback, known by name only: the assembler it drives is not modelled. */
  type AsmHook = string

  datatype Instruction =
    Instruction(opcode: int, name: string, exec: Protocol, length: int := 1,
                asmFunc: Option<AsmHook> := None)

  datatype PseudoInstruction = PseudoInstruction(name: string, execute: AsmHook)

  /** What `assembler_inst` maps a name to. */
  datatype AsmEntry = InstrEntry(instr: Instruction) | PseudoEntry(pseudo: PseudoInstruction)

  datatype Tables = Tables(opcodes: map<int, Instruction>, names: map<string, Instruction>,
                           asm: map<string, AsmEntry>)

  const Empty := Tables(map[], map[], map[])

  datatype OpcodeAlreadyExists =
    OpcodeAlreadyExists(opcode: int, instrName: string, addInfo: Option<string> := None)

  datatype RegistryError =
    | OpcodeTaken(opcodeError: OpcodeAlreadyExists)
    | NameTaken(nameError: InstructionNameAlreadyExists)
    | AsmNameTaken(asmError: AssemblerInstructionAlreadyExists)

  /** `asmOverride`: whether the assembler defers to this instruction's own callback. */
  function AsmOverride(i: Instruction): bool
  {
    i.asmFunc.Some?
  }

  /** An instruction declared without `length` or `asmFunc` has length 1 and does not
      override the assembler. */
  lemma InstructionDefaults(opcode: int, name: string, exec: Protocol, hook: AsmHook)
    ensures Instruction(opcode, name, exec).length == 1
    ensures !AsmOverride(Instruction(opcode, name, exec))
    ensures AsmOverride(Instruction(opcode, name, exec, 1, Some(hook)))
  {
  }

  // ----- registration -----

  /** The three tables agree with each other: every opcode entry sits under its own opcode and
      name in the name table, every name entry under its own name and opcode, every instruction
      is also its own assembler entry, and every pseudo-instruction sits under its own name. */
  ghost predicate Consistent(t: Tables)
  {
    && (forall o | o in t.opcodes ::
          t.opcodes[o].opcode == o && t.opcodes[o].name in t.names
          && t.names[t.opcodes[o].name] == t.opcodes[o])
    && (forall n | n in t.names ::
          t.names[n].name == n && t.names[n].opcode in t.opcodes
          && t.opcodes[t.names[n].opcode] == t.names[n])
    && (forall n | n in t.names :: n in t.asm && t.asm[n] == InstrEntry(t.names[n]))
    && (forall n | n in t.asm ::
          if t.asm[n].InstrEntry? then n in t.names else t.asm[n].pseudo.name == n)
  }

  /** `Instruction.__init__`: the opcode, name and assembler checks in that order, and only
      after all three pass the instruction enters the three tables. */
  function Add(t: Tables, i: Instruction): Result<Tables, RegistryError>
  {
    if i.opcode in t.opcodes then Failure(OpcodeTaken(OpcodeAlreadyExists(i.opcode, i.name)))
    else if i.name in t.names then Failure(NameTaken(InstructionNameAlreadyExists(i.name)))
    else if i.name in t.asm then Failure(AsmNameTaken(AssemblerInstructionAlreadyExists(i.name)))
    else Success(Tables(t.opcodes[i.opcode := i], t.names[i.name := i],
                        t.asm[i.name := InstrEntry(i)]))
  }

  /** `PseudoInstruction.__init__`: only the assembler table is checked and written. */
  function AddPseudo(t: Tables, p: PseudoInstruction): Result<Tables, RegistryError>
  {
    if p.name in t.asm then Failure(AsmNameTaken(AssemblerInstructionAlreadyExists(p.name)))
    else Success(t.(asm := t.asm[p.name := PseudoEntry(p)]))
  }

  /** Whether `i` can join `t`: its opcode and its name are both unused. */
  predicate Fresh(t: Tables, i: Instruction)
  {
    i.opcode !in t.opcodes && i.name !in t.names && i.name !in t.asm
  }

  /** A registration fails exactly on a collision, reports the first check that fails, and
      leaves every other entry of every table as it was. */
  lemma AddOutcome(t: Tables, i: Instruction)
    ensures Add(t, i).Success? <==> Fresh(t, i)
    ensures i.opcode in t.opcodes ==>
              Add(t, i) == Failure(OpcodeTaken(OpcodeAlreadyExists(i.opcode, i.name)))
    ensures i.opcode !in t.opcodes && i.name in t.names ==>
              Add(t, i) == Failure(NameTaken(InstructionNameAlreadyExists(i.name, None)))
    ensures i.opcode !in t.opcodes && i.name !in t.names && i.name in t.asm ==>
              Add(t, i).error.asmError == AssemblerInstructionAlreadyExists(i.name, false, None)
    ensures Add(t, i).Success? ==>
              var u := Add(t, i).value;
              && u.opcodes.Keys == t.opcodes.Keys + {i.opcode} && u.opcodes[i.opcode] == i
              && u.names.Keys == t.names.Keys + {i.name} && u.names[i.name] == i
              && u.asm.Keys == t.asm.Keys + {i.name} && u.asm[i.name] == InstrEntry(i)
              && (forall o | o in t.opcodes :: u.opcodes[o] == t.opcodes[o])
              && (forall n | n in t.names :: u.names[n] == t.names[n])
              && (forall n | n in t.asm :: u.asm[n] == t.asm[n])
  {
  }

  /** A pseudo-instruction is rejected exactly when its name is in the assembler table, and
      otherwise touches the assembler table only. */
  lemma AddPseudoOutcome(t: Tables, p: PseudoInstruction)
    ensures AddPseudo(t, p).Success? <==> p.name !in t.asm
    ensures AddPseudo(t, p).Failure? ==>
              AddPseudo(t, p).error.asmError == AssemblerInstructionAlreadyExists(p.name, false, None)
    ensures AddPseudo(t, p).Success? ==>
              var u := AddPseudo(t, p).value;
              && u.opcodes == t.opcodes && u.names == t.names
              && u.asm.Keys == t.asm.Keys + {p.name} && u.asm[p.name] == PseudoEntry(p)
              && (forall n | n in t.asm :: u.asm[n] == t.asm[n])
  {
  }

  lemma EmptyConsistent()
    ensures Consistent(Empty)
  {
  }

  /** Registration keeps the tables consistent. */
  lemma AddKeepsConsistent(t: Tables, i: Instruction)
    requires Consistent(t)
    ensures Add(t, i).Success? ==> Consistent(Add(t, i).value)
  {
    if Add(t, i).Success? {
      var u := Add(t, i).value;
      forall o | o in u.opcodes
        ensures u.opcodes[o].opcode == o && u.opcodes[o].name in u.names
                && u.names[u.opcodes[o].name] == u.opcodes[o]
      {
        if o != i.opcode {
          assert u.opcodes[o] == t.opcodes[o];
          assert t.opcodes[o].name != i.name;
        }
      }
      forall n | n in u.names
        ensures u.names[n].name == n && u.names[n].opcode in u.opcodes
                && u.opcodes[u.names[n].opcode] == u.names[n]
      {
        if n != i.name {
          assert t.names[n].opcode != i.opcode;
        }
      }
    }
  }

  /** Registering a pseudo-instruction keeps the tables consistent. */
  lemma AddPseudoKeepsConsistent(t: Tables, p: PseudoInstruction)
    requires Consistent(t)
    ensures AddPseudo(t, p).Success? ==> Consistent(AddPseudo(t, p).value)
  {
    if AddPseudo(t, p).Success? {
      assert p.name !in t.names;
    }
  }

  /** Consistent tables hold the same instructions under opcodes and under names, and neither
      table lists one instruction twice. */
  lemma ConsistentTablesAgree(t: Tables)
    requires Consistent(t)
    ensures forall o | o in t.opcodes :: t.opcodes[o] in t.names.Values
    ensures forall n | n in t.names :: t.names[n] in t.opcodes.Values
    ensures forall o1, o2 | o1 in t.opcodes && o2 in t.opcodes ::
              t.opcodes[o1] == t.opcodes[o2] ==> o1 == o2
    ensures forall n1, n2 | n1 in t.names && n2 in t.names ::
              t.names[n1] == t.names[n2] ==> n1 == n2
  {
    forall o | o in t.opcodes ensures t.opcodes[o] in t.names.Values {
      assert t.names[t.opcodes[o].name] == t.opcodes[o];
    }
    forall n | n in t.names ensures t.names[n] in t.opcodes.Values {
      assert t.opcodes[t.names[n].opcode] == t.names[n];
    }
  }

  // ----- loading a sequence of registrations -----

  /** The tables after registering `defs` in order, and the error that stopped it, if any.
      Registrations before the failing one stay in the tables, as they do in Python. */
  datatype Loaded = Loaded(tables: Tables, error: Option<RegistryError>)

  function Load(t: Tables, defs: seq<Instruction>): Loaded
  {
    if |defs| == 0 then Loaded(t, None)
    else
      var prev := Load(t, defs[..|defs| - 1]);
      if prev.error.Some? then prev
      else match Add(prev.tables, defs[|defs| - 1])
        case Success(u) => Loaded(u, None)
        case Failure(e) => Loaded(prev.tables, Some(e))
  }

  /** No two instructions of `defs` share an opcode or a name, and none collides with `t`. */
  predicate DistinctAndFresh(t: Tables, defs: seq<Instruction>)
  {
    && (forall k | 0 <= k < |defs| :: Fresh(t, defs[k]))
    && (forall j, k | 0 <= j < k < |defs| ::
          defs[j].opcode != defs[k].opcode && defs[j].name != defs[k].name)
  }

  /** The opcodes of a sequence of definitions. */
  function OpcodesOf(defs: seq<Instruction>): set<int>
  {
    if |defs| == 0 then {} else OpcodesOf(defs[..|defs| - 1]) + {defs[|defs| - 1].opcode}
  }

  /** The names of a sequence of definitions. */
  function NamesOf(defs: seq<Instruction>): set<string>
  {
    if |defs| == 0 then {} else NamesOf(defs[..|defs| - 1]) + {defs[|defs| - 1].name}
  }

  lemma {:induction false} OpcodesOfMembers(defs: seq<Instruction>, x: int)
    ensures x in OpcodesOf(defs) <==> exists k | 0 <= k < |defs| :: defs[k].opcode == x
  {
    if |defs| > 0 {
      var init := defs[..|defs| - 1];
      OpcodesOfMembers(init, x);
      if x in OpcodesOf(init) {
        var k :| 0 <= k < |init| && init[k].opcode == x;
        assert defs[k] == init[k];
      }
      if exists k | 0 <= k < |defs| :: defs[k].opcode == x {
        var k :| 0 <= k < |defs| && defs[k].opcode == x;
        if k < |init| {
          assert init[k] == defs[k];
        }
      }
    }
  }

  lemma {:induction false} NamesOfMembers(defs: seq<Instruction>, x: string)
    ensures x in NamesOf(defs) <==> exists k | 0 <= k < |defs| :: defs[k].name == x
  {
    if |defs| > 0 {
      var init := defs[..|defs| - 1];
      NamesOfMembers(init, x);
      if x in NamesOf(init) {
        var k :| 0 <= k < |init| && init[k].name == x;
        assert defs[k] == init[k];
      }
      if exists k | 0 <= k < |defs| :: defs[k].name == x {
        var k :| 0 <= k < |defs| && defs[k].name == x;
        if k < |init| {
          assert init[k] == defs[k];
        }
      }
    }
  }

  /** A successful load adds exactly the opcodes and names of the definitions to the
      tables. */
  lemma {:induction false} LoadKeys(t: Tables, defs: seq<Instruction>)
    requires Load(t, defs).error.None?
    ensures var u := Load(t, defs).tables;
            && u.opcodes.Keys == t.opcodes.Keys + OpcodesOf(defs)
            && u.names.Keys == t.names.Keys + NamesOf(defs)
            && u.asm.Keys == t.asm.Keys + NamesOf(defs)
  {
    if |defs| > 0 {
      LoadKeys(t, defs[..|defs| - 1]);
    }
  }

  /** A successful load replaces no entry that was already in the tables. */
  lemma {:induction false} LoadKeepsEntries(t: Tables, defs: seq<Instruction>)
    requires Load(t, defs).error.None?
    ensures var u := Load(t, defs).tables;
            && (forall o | o in t.opcodes :: o in u.opcodes && u.opcodes[o] == t.opcodes[o])
            && (forall n | n in t.names :: n in u.names && u.names[n] == t.names[n])
            && (forall n | n in t.asm :: n in u.asm && u.asm[n] == t.asm[n])
  {
    if |defs| > 0 {
      LoadKeepsEntries(t, defs[..|defs| - 1]);
    }
  }

  /** After a successful load each definition sits under its own opcode and its own name. */
  lemma {:induction false} LoadLookups(t: Tables, defs: seq<Instruction>)
    requires Load(t, defs).error.None?
    ensures var u := Load(t, defs).tables;
            forall k | 0 <= k < |defs| ::
              && defs[k].opcode in u.opcodes && u.opcodes[defs[k].opcode] == defs[k]
              && defs[k].name in u.names && u.names[defs[k].name] == defs[k]
  {
    if |defs| > 0 {
      var init := defs[..|defs| - 1];
      LoadLookups(t, init);
      var u := Load(t, init).tables;
      var w := Load(t, defs).tables;
      assert w == Add(u, defs[|defs| - 1]).value;
      forall k | 0 <= k < |init|
        ensures defs[k].opcode in w.opcodes && w.opcodes[defs[k].opcode] == defs[k]
        ensures defs[k].name in w.names && w.names[defs[k].name] == defs[k]
      {
        assert defs[k] == init[k];
      }
    }
  }

  /** Loading succeeds exactly when the definitions are pairwise distinct and fresh. */
  lemma {:induction false} LoadSucceedsIff(t: Tables, defs: seq<Instruction>)
    ensures Load(t, defs).error.None? <==> DistinctAndFresh(t, defs)
  {
    if |defs| > 0 {
      var init := defs[..|defs| - 1];
      var last := defs[|defs| - 1];
      LoadSucceedsIff(t, init);
      if Load(t, init).error.None? {
        LoadKeys(t, init);
        OpcodesOfMembers(init, last.opcode);
        NamesOfMembers(init, last.name);
        LastFreshIff(t, defs);
      } else if DistinctAndFresh(t, defs) {
        PrefixDistinct(t, defs);
      }
    }
  }

  /** For a non-empty sequence: distinct and fresh exactly when the prefix is, and the last
      definition is fresh and clashes with none before it. */
  lemma LastFreshIff(t: Tables, defs: seq<Instruction>)
    requires |defs| > 0
    ensures var init := defs[..|defs| - 1]; var last := defs[|defs| - 1];
            DistinctAndFresh(t, defs) <==>
              && DistinctAndFresh(t, init) && Fresh(t, last)
              && !(exists k | 0 <= k < |init| :: init[k].opcode == last.opcode)
              && !(exists k | 0 <= k < |init| :: init[k].name == last.name)
  {
    var init := defs[..|defs| - 1];
    var last := defs[|defs| - 1];
    if DistinctAndFresh(t, defs) {
      PrefixDistinct(t, defs);
      assert Fresh(t, defs[|defs| - 1]);
      forall k | 0 <= k < |init| ensures init[k].opcode != last.opcode && init[k].name != last.name {
        assert init[k] == defs[k];
      }
    }
    if && DistinctAndFresh(t, init) && Fresh(t, last)
       && !(exists k | 0 <= k < |init| :: init[k].opcode == last.opcode)
       && !(exists k | 0 <= k < |init| :: init[k].name == last.name) {
      forall k | 0 <= k < |defs| ensures Fresh(t, defs[k]) {
        if k < |init| { assert defs[k] == init[k]; }
      }
      forall j, k | 0 <= j < k < |defs|
        ensures defs[j].opcode != defs[k].opcode && defs[j].name != defs[k].name
      {
        assert defs[j] == init[j];
        if k < |init| { assert defs[k] == init[k]; }
      }
    }
  }

  lemma PrefixDistinct(t: Tables, defs: seq<Instruction>)
    requires |defs| > 0 && DistinctAndFresh(t, defs)
    ensures DistinctAndFresh(t, defs[..|defs| - 1])
  {
    var init := defs[..|defs| - 1];
    forall k | 0 <= k < |init| ensures Fresh(t, init[k]) {
      assert init[k] == defs[k];
    }
  }

  /** After any run of registrations the tables stay consistent, whether it stopped early or not. */
  lemma {:induction false} LoadKeepsConsistent(t: Tables, defs: seq<Instruction>)
    requires Consistent(t)
    ensures Consistent(Load(t, defs).tables)
  {
    if |defs| > 0 {
      LoadKeepsConsistent(t, defs[..|defs| - 1]);
      var prev := Load(t, defs[..|defs| - 1]);
      if prev.error.None? {
        AddKeepsConsistent(prev.tables, defs[|defs| - 1]);
      }
    }
  }

  /** Two registrations of one opcode make loading fail, wherever they sit in the sequence. */
  lemma DuplicateOpcodeFails(t: Tables, defs: seq<Instruction>, j: nat, k: nat)
    requires j < |defs| && k < |defs| && j != k && defs[j].opcode == defs[k].opcode
    ensures Load(t, defs).error.Some?
  {
    LoadSucceedsIff(t, defs);
  }

  // ----- text -----

  function HexDigit(v: nat): char
    requires v < 16
  {
    if v < 10 then ('0' as int + v) as char else ('A' as int + v - 10) as char
  }

  function HexValue(c: char): nat
  {
    if '0' <= c <= '9' then c as int - '0' as int
    else if 'A' <= c <= 'F' then c as int - 'A' as int + 10
    else 0
  }

  predicate IsUpperHexDigit(c: char)
  {
    '0' <= c <= '9' || 'A' <= c <= 'F'
  }

  /** The digits of `hex(n)` after the `0x`, upper-cased. */
  function HexDigits(n: nat): string
    decreases n
  {
    if n < 16 then [HexDigit(n)] else HexDigits(n / 16) + [HexDigit(n % 16)]
  }

  /** The value of a string of hexadecimal digits. */
  function ParseHex(s: string): nat
  {
    if |s| == 0 then 0 else ParseHex(s[..|s| - 1]) * 16 + HexValue(s[|s| - 1])
  }

  /** `hex(n).upper()[2:]`: for a negative `n` Python writes "-0x…", so the slice keeps "X…". */
  function HexText(n: int): string
  {
    if n >= 0 then HexDigits(n) else "X" + HexDigits(-n)
  }

  /** The upper-case digits of a natural number read back as that number, with no leading zero. */
  lemma {:induction false} HexDigitsRoundTrip(n: nat)
    ensures |HexDigits(n)| >= 1
    ensures ParseHex(HexDigits(n)) == n
    ensures forall k | 0 <= k < |HexDigits(n)| :: IsUpperHexDigit(HexDigits(n)[k])
    ensures |HexDigits(n)| > 1 ==> HexDigits(n)[0] != '0'
    decreases n
  {
    if n >= 16 {
      HexDigitsRoundTrip(n / 16);
      var s := HexDigits(n);
      assert s[..|s| - 1] == HexDigits(n / 16);
      assert s[0] == HexDigits(n / 16)[0];
    }
  }

  /** Different opcodes are always written differently, negative ones included. */
  lemma HexTextInjective(a: int, b: int)
    ensures HexText(a) == HexText(b) ==> a == b
  {
    if HexText(a) == HexText(b) {
      if a >= 0 && b >= 0 {
        HexDigitsRoundTrip(a);
        HexDigitsRoundTrip(b);
      } else if a < 0 && b < 0 {
        HexDigitsRoundTrip(-a);
        HexDigitsRoundTrip(-b);
        assert HexDigits(-a) == HexText(a)[1..];
      } else if a >= 0 {
        HexDigitsRoundTrip(a);
      } else {
        HexDigitsRoundTrip(b);
      }
    }
  }

  const OverrideNote := "Overrides assembler standard instructions."

  /** `Instruction.__str__`. */
  function Describe(i: Instruction): string
  {
    ("Instruction " + i.name + " with opcode 0x" + HexText(i.opcode))
      + (" and length 0x" + HexText(i.length) + "."
      + (if AsmOverride(i) then OverrideNote else ""))
  }

  /** `PseudoInstruction.__str__`. */
  function DescribePseudo(p: PseudoInstruction): string
  {
    "Pseudo-instruction " + p.name + "."
  }

  /** The description names the instruction and carries an opcode that reads back as the
      opcode. A negative opcode prints its digits after an "X" (the sign of "-0x…" is cut
      off and the "X" kept), which reads back as no number, hence the bound on the opcode. */
  lemma DescribeStatesOpcode(i: Instruction)
    requires i.opcode >= 0
    ensures var s := Describe(i); var k := |"Instruction " + i.name + " with opcode 0x"|;
            && s[..k] == "Instruction " + i.name + " with opcode 0x"
            && k + |HexText(i.opcode)| <= |s|
            && ParseHex(s[k..k + |HexText(i.opcode)|]) == i.opcode
  {
    HexDigitsRoundTrip(i.opcode);
    var head := "Instruction " + i.name + " with opcode 0x";
    var s := Describe(i);
    var tail := " and length 0x" + HexText(i.length) + "."
      + (if AsmOverride(i) then OverrideNote else "");
    assert s == head + HexText(i.opcode) + tail;
    assert s[|head|..|head| + |HexText(i.opcode)|] == HexText(i.opcode);
  }

  /** The description ends with the override note exactly when an assembler callback was
      given. */
  lemma DescribeMarksOverride(i: Instruction)
    ensures AsmOverride(i) <==> EndsWith(Describe(i), OverrideNote)
  {
    var s := Describe(i);
    if !AsmOverride(i) {
      assert s == ("Instruction " + i.name + " with opcode 0x" + HexText(i.opcode)
                   + " and length 0x" + HexText(i.length)) + ".";
      assert s[|s| - 1] == '.';
      assert OverrideNote[|OverrideNote| - 1] == '.';
      assert s[|s| - 2..] != OverrideNote[|OverrideNote| - 2..] by {
        assert OverrideNote[|OverrideNote| - 2] == 's';
        if i.length >= 0 {
          HexDigitsRoundTrip(i.length);
          assert IsUpperHexDigit(HexText(i.length)[|HexText(i.length)| - 1]);
        } else {
          HexDigitsRoundTrip(-i.length);
          assert HexText(i.length)[|HexText(i.length)| - 1]
              == HexDigits(-i.length)[|HexDigits(-i.length)| - 1];
        }
        assert s[|s| - 2] == HexText(i.length)[|HexText(i.length)| - 1];
      }
    }
  }

  /** `OpcodeAlreadyExists.__str__`, which looks the current holder of the opcode up in the
      opcode table when the text is built (a KeyError, `None` here, if it is not there). */
  function OpcodeMessage(e: OpcodeAlreadyExists, t: Tables): Option<string>
  {
    if e.opcode !in t.opcodes then None
    else Some("Tried assigining instruction " + e.instrName + " to opcode 0x" + HexText(e.opcode)
              + ", but it was already assigned to instruction " + t.opcodes[e.opcode].name + ". "
              + (match e.addInfo
                 case None => ""
                 case Some(info) => "Additional info are provided: " + info))
  }

  /** The error a colliding registration raises names the new instruction first and the
      instruction already holding the opcode at the end. */
  lemma OpcodeMessageNamesBoth(t: Tables, i: Instruction)
    requires i.opcode in t.opcodes
    ensures var e := Add(t, i).error.opcodeError;
            && OpcodeMessage(e, t).Some?
            && var m := OpcodeMessage(e, t).value;
               var lead := "Tried assigining instruction ";
            && m[..|lead| + |i.name|] == lead + i.name
            && EndsWith(m, t.opcodes[i.opcode].name + ". ")
  {
    var e := Add(t, i).error.opcodeError;
    var m := OpcodeMessage(e, t).value;
    var lead := "Tried assigining instruction ";
    var rest := " to opcode 0x" + HexText(e.opcode)
      + ", but it was already assigned to instruction " + t.opcodes[e.opcode].name + ". ";
    assert m == (lead + i.name) + rest;
  }

  /** Extra text only follows the message when `addInfo` is given, after a fixed lead-in. */
  lemma OpcodeMessageAppendsInfo(t: Tables, opcode: int, name: string, info: string)
    requires opcode in t.opcodes
    ensures var e := OpcodeAlreadyExists(opcode, name, Some(info));
            && OpcodeMessage(e, t).Some?
            && OpcodeMessage(e, t).value
                 == OpcodeMessage(e.(addInfo := None), t).value + "Additional info are provided: " + info
  {
  }

  // ----- the tables as mutable state -----

  /** The module-level dictionaries of src/include/instruction.py. */
  class Store {
    var opcodes: map<int, Instruction>
    var names: map<string, Instruction>
    var asm: map<string, AsmEntry>

    function Contents(): Tables
      reads this
    {
      Tables(opcodes, names, asm)
    }

    constructor ()
      ensures Contents() == Empty
    {
      opcodes := map[];
      names := map[];
      asm := map[];
    }

    /** `Instruction(...)`: checks, then adds to all three dictionaries. */
    method Register(i: Instruction) returns (err: Option<RegistryError>)
      modifies this
      ensures match Add(old(Contents()), i)
              case Success(u) => err == None && Contents() == u
              case Failure(e) => err == Some(e) && Contents() == old(Contents())
    {
      if i.opcode in opcodes {
        return Some(OpcodeTaken(OpcodeAlreadyExists(i.opcode, i.name)));
      }
      if i.name in names {
        return Some(NameTaken(InstructionNameAlreadyExists(i.name)));
      }
      if i.name in asm {
        return Some(AsmNameTaken(AssemblerInstructionAlreadyExists(i.name)));
      }
      opcodes := opcodes[i.opcode := i];
      names := names[i.name := i];
      asm := asm[i.name := InstrEntry(i)];
      err := None;
    }

    /** `PseudoInstruction(...)`. */
    method RegisterPseudo(p: PseudoInstruction) returns (err: Option<RegistryError>)
      modifies this
      ensures match AddPseudo(old(Contents()), p)
              case Success(u) => err == None && Contents() == u
              case Failure(e) => err == Some(e) && Contents() == old(Contents())
    {
      if p.name in asm {
        return Some(AsmNameTaken(AssemblerInstructionAlreadyExists(p.name)));
      }
      asm := asm[p.name := PseudoEntry(p)];
      err := None;
    }

    /** Importing instruction modules one after another: each registration runs until the
        first one raises. */
    method LoadAll(defs: seq<Instruction>) returns (err: Option<RegistryError>)
      modifies this
      ensures Load(old(Contents()), defs) == Loaded(Contents(), err)
    {
      ghost var t0 := Contents();
      var k := 0;
      err := None;
      while k < |defs|
        invariant 0 <= k <= |defs|
        invariant Load(t0, defs[..k]) == Loaded(Contents(), None)
        invariant err == None
      {
        assert defs[..k + 1][..k] == defs[..k];
        err := Register(defs[k]);
        if err.Some? {
          assert Load(t0, defs[..k + 1]) == Loaded(Contents(), err);
          LoadStopsAtError(t0, defs, k + 1);
          return;
        }
        k := k + 1;
      }
      assert defs[..k] == defs;
    }
  }

  /** Once loading a prefix has failed, loading any longer sequence fails the same way. */
  lemma {:induction false} LoadStopsAtError(t: Tables, defs: seq<Instruction>, k: nat)
    requires k <= |defs| && Load(t, defs[..k]).error.Some?
    ensures Load(t, defs) == Load(t, defs[..k])
    decreases |defs| - k
  {
    if k < |defs| {
      assert defs[..k + 1][..k] == defs[..k];
      LoadStopsAtError(t, defs, k + 1);
    } else {
      assert defs[..k] == defs;
    }
  }
}
