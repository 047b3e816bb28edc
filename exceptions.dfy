/** The registry exceptions of src/include/exceptions.py: their stored fields and the text
    their `__str__` builds. `addInfo` may be any Python object; the model keeps the text it
    renders to, and `None` for no object. */
module Exceptions {
  import opened Types

  datatype InstructionNameAlreadyExists =
    InstructionNameAlreadyExists(instrName: string, addInfo: Option<string> := None)

  datatype AssemblerInstructionAlreadyExists =
    AssemblerInstructionAlreadyExists(instrName: string, isPseudo: bool := false,
                                      addInfo: Option<string> := None)

  predicate EndsWith(s: string, t: string)
  {
    |t| <= |s| && s[|s| - |t|..] == t
  }

  const Prefix := "Tried to register "
  const InfoLead := " Additional info are supplied: "

  /** The tail both exceptions append when `addInfo` is not None. */
  function InfoSuffix(addInfo: Option<string>): string
  {
    match addInfo
    case None => ""
    case Some(info) => InfoLead + info
  }

  function NameExistsMessage(e: InstructionNameAlreadyExists): string
  {
    Prefix + e.instrName
      + " instruction, but an instruction with the same name already exists."
      + InfoSuffix(e.addInfo)
  }

  const AsmTail := " but a pseudo-instuction with the same name already exists."

  /** How the assembler message names the entry being registered. */
  function AsmWord(isPseudo: bool): string
  {
    if isPseudo then " pseudo-instruction" else " instruction"
  }

  function AsmExistsMessage(e: AssemblerInstructionAlreadyExists): string
  {
    (Prefix + e.instrName) + (AsmWord(e.isPseudo) + ("," + AsmTail + InfoSuffix(e.addInfo)))
  }

  /** Omitted arguments default to `isPseudo = False` and `addInfo = None`; given ones are kept. */
  lemma Defaults(name: string, pseudo: bool, info: Option<string>)
    ensures InstructionNameAlreadyExists(name).addInfo == None
    ensures AssemblerInstructionAlreadyExists(name).isPseudo == false
    ensures AssemblerInstructionAlreadyExists(name).addInfo == None
    ensures var e := AssemblerInstructionAlreadyExists(name, pseudo, info);
            e.instrName == name && e.isPseudo == pseudo && e.addInfo == info
  {
  }

  /** The name message names the instruction right after its fixed opening words. */
  lemma NameMessageNamesInstruction(e: InstructionNameAlreadyExists)
    ensures var m := NameExistsMessage(e);
            |Prefix| + |e.instrName| <= |m| && m[|Prefix|..|Prefix| + |e.instrName|] == e.instrName
  {
    var m := NameExistsMessage(e);
    assert m == Prefix + e.instrName
      + (" instruction, but an instruction with the same name already exists." + InfoSuffix(e.addInfo));
  }

  /** Supplying `addInfo` to a name clash only appends " Additional info are supplied: <info>"
      to the text without it; with None the text ends at "already exists.". */
  lemma NameInfoOnlyAppends(e: InstructionNameAlreadyExists)
    ensures NameExistsMessage(e) == NameExistsMessage(e.(addInfo := None)) + InfoSuffix(e.addInfo)
    ensures e.addInfo.Some? <==> |NameExistsMessage(e)| > |NameExistsMessage(e.(addInfo := None))|
    ensures e.addInfo.None? ==> EndsWith(NameExistsMessage(e), "already exists.")
    ensures e.addInfo.Some? ==> EndsWith(NameExistsMessage(e), InfoLead + e.addInfo.value)
  {
    var m := NameExistsMessage(e);
    var base := NameExistsMessage(e.(addInfo := None));
    assert m == base + InfoSuffix(e.addInfo);
    assert base[|base| - |"already exists."|..] == "already exists.";
  }

  /** The same for an assembler clash: `addInfo` only appends, and lengthens the text exactly
      when it is given. */
  lemma AsmInfoOnlyAppends(f: AssemblerInstructionAlreadyExists)
    ensures AsmExistsMessage(f) == AsmExistsMessage(f.(addInfo := None)) + InfoSuffix(f.addInfo)
    ensures f.addInfo.Some? <==> |AsmExistsMessage(f)| > |AsmExistsMessage(f.(addInfo := None))|
  {
    assert AsmExistsMessage(f) == AsmExistsMessage(f.(addInfo := None)) + InfoSuffix(f.addInfo);
  }

  /** The assembler message calls the clashing entry a "pseudo-instruction" when `isPseudo`
      is set and an "instruction" otherwise; the rest of the wording is shared. */
  lemma AsmWordingFollowsIsPseudo(e: AssemblerInstructionAlreadyExists)
    ensures var m := AsmExistsMessage(e); var k := |Prefix| + |e.instrName|;
            && m[..k] == Prefix + e.instrName
            && (e.isPseudo ==> k + 19 <= |m| && m[k..k + 19] == " pseudo-instruction")
            && (!e.isPseudo ==> k + 12 <= |m| && m[k..k + 12] == " instruction")
  {
    var m := AsmExistsMessage(e);
    var w := AsmWord(e.isPseudo);
    var k := |Prefix + e.instrName|;
    assert m[..k] == Prefix + e.instrName;
    assert m[k..][..|w|] == w;
  }
}
