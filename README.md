# SISC-F core in Dafny

SISC-F is a 32-bit CPU described in Amaranth HDL. `src/main.py` defines the `Core`: three
signed 32-bit general registers (RA, RB, RX), an instruction pointer, an instruction
register, an address register and a stack pointer, an 8-bit flags register, three scratch
words, a 2^18-word memory, an ALU, and the handlers that sequence the core on every clock
(instruction end, reset, ALU, fetch/execute). Each instruction is a file under
`src/instructions/` that registers one or more opcodes in the global tables of
`src/include/instruction.py`. Each registration carries a micro-protocol: a function from
`instr_state` to the signals it drives. The byte-wide prototype in `main.py` is the first
version of the same design, and `src/instructions/JNZ.py` was written for it.

The model keeps the source's own split.

- The registry is a pure value `Tables` (`Registry.Add`, `Registry.Load`). It is also a
  class `Registry.Store` whose methods update the three dictionaries in place.
- One clock of the 32-bit core is the function `Cpu.Next`. `Cpu.Tick` adds the memory and
  `Cpu.Run` repeats the clock. The same clock on a `CoreState.Core` object is the method
  `Cpu.Step`, which runs the handlers one after another and is proved equal to `Tick`.
- Every instruction file is a module. Its `Comb` (what it drives in the cycle) and `Sync`
  (its writes at the edge) are functions, and its `Exec` method applies those writes to a
  `Core`.
- Whole-instruction lemmas run each instruction from the fetch of its opcode to the commit
  that makes the core ready for the next fetch. They give the clock count, the state after
  the commit and the stack requests made on the way.

Amaranth's clock semantics are written out.

- Combinational values are computed from the state before the edge.
- The synchronous assignments of the handlers are applied in elaboration order, and a later
  assignment to the same signal wins.
- Every assignment truncates to the width of its target.
- A `signed(32)` target reinterprets the bits.
- Memory is addressed modulo its depth.

## Model

| member | source | states |
|---|---|---|
| Types.ToSigned | src/main.py:47-57 | Reading a 32-bit pattern into a `signed(32)` register gives a negative value exactly when the top bit is set. |
| Types.UnsignedRoundTrip | src/main.py:47-57 | Truncating the signed reading of a pattern to 32 bits gives the pattern back. |
| Types.SignedRoundTrip | src/main.py:47-57 | Reading the 32-bit truncation of a signed value as signed gives the value back. |
| Types.WrapSignedIsCongruent | src/main.py:82-97 | A result truncated into `signed(32)` differs from the exact result by a multiple of 2^32, and equals it when it fits. |
| Types.Wrap32Add | src/main.py:177-184 | Adding to a truncated word and truncating again equals truncating the whole sum. |
| Types.Cat8 | main.py:173 | `Cat(lo, hi)` of two bytes has `lo` as its low byte and `hi` as its high byte. |
| Types.SetBit | src/instructions/FLAGS.py:19-20 | Assigning one bit of the flags register makes that bit read back as assigned and keeps the other seven. |
| Types.OwnBit | src/instructions/FLAGS.py:19-20 | Setting or clearing bit i of a byte makes bit i read as set or clear. |
| Types.OtherBit | src/instructions/FLAGS.py:19-20 | Setting or clearing bit i leaves every other bit as it was. |
| Types.SetBitIdempotent | src/instructions/FLAGS.py:19-20 | Writing the same flag bit twice is writing it once. |
| Enums.AluOpValue | src/include/enums.py:12-18 | An `AluOps` member's integer value is below 6. |
| Enums.AluOpValues | src/include/enums.py:12-18 | NONE..DEC are 0..5 in declaration order, and `AluOps(v)` exists exactly for 0 <= v < 6 and inverts the value. |
| Enums.StackOpValue | src/include/enums.py:20-23 | A `StackOps` member's integer value is below 3. |
| Enums.StackOpValues | src/include/enums.py:20-23 | NONE, PUSH and POP are 0, 1 and 2, and `StackOps(v)` exists exactly for 0 <= v < 3. |
| Enums.FlagIndex | src/include/enums.py:25-30 | A flag's bit index is below 5. |
| Enums.FlagIndices | src/include/enums.py:25-30 | ZERO..OVERFLOW sit at bits 0..4: distinct, and all inside the 8-bit flags register. |
| Enums.WithFlag | src/main.py:86-89 | `flags[f].eq(b)` makes flag f read b and keeps every other flag. |
| Exceptions.Defaults | src/include/exceptions.py:10-26 | Omitted `isPseudo` and `addInfo` default to False and None; given arguments are stored as given. |
| Exceptions.NameMessageNamesInstruction | src/include/exceptions.py:15-20 | The name-clash message names the instruction right after its fixed opening words. |
| Exceptions.NameInfoOnlyAppends | src/include/exceptions.py:15-20 | `addInfo` only appends " Additional info are supplied: <info>", and the text grows exactly when it is given. Without it the text ends with "already exists.". |
| Exceptions.AsmInfoOnlyAppends | src/include/exceptions.py:28-36 | For the assembler clash, `addInfo` only appends its suffix, and the text grows exactly when it is given. |
| Exceptions.AsmWordingFollowsIsPseudo | src/include/exceptions.py:28-36 | The assembler message says "pseudo-instruction" when `isPseudo` is set and "instruction" otherwise, after the shared lead-in and name. |
| Registry.InstructionDefaults | src/include/instruction.py:37-44 | An instruction declared without `length` or `asmFunc` has length 1 and does not override the assembler; giving `asmFunc` makes it override. |
| Registry.AddOutcome | src/include/instruction.py:44-58 | Registration fails exactly on a collision, and reports the opcode, name and assembler checks in that order. On success each table gains exactly the new entry and keeps every old one. |
| Registry.AddPseudoOutcome | src/include/instruction.py:67-73 | A pseudo-instruction is rejected exactly when its name is in the assembler table. Otherwise only the assembler table gains the entry. |
| Registry.EmptyConsistent | src/include/instruction.py:14-16 | The empty tables are consistent. |
| Registry.AddKeepsConsistent | src/include/instruction.py:44-58 | A successful registration keeps the three tables consistent with each other. |
| Registry.AddPseudoKeepsConsistent | src/include/instruction.py:67-73 | A successful pseudo registration keeps the tables consistent. |
| Registry.ConsistentTablesAgree | src/include/instruction.py:14-16 | Consistent tables hold the same instructions under opcodes and under names, and neither table lists an instruction twice. |
| Registry.LoadSucceedsIff | src/include/instruction.py:44-58 | Registering a sequence of definitions succeeds exactly when their opcodes and names are pairwise distinct and unused. |
| Registry.LoadKeys | src/include/instruction.py:56-58 | A successful load adds exactly the definitions' opcodes and names to the tables. |
| Registry.LoadKeepsEntries | src/include/instruction.py:56-58 | A successful load replaces no entry that was already there. |
| Registry.LoadLookups | src/include/instruction.py:56-58 | After a successful load each definition sits under its own opcode and its own name. |
| Registry.LoadKeepsConsistent | src/include/instruction.py:44-58 | Any run of registrations keeps the tables consistent, whether it stops at an error or not. |
| Registry.LoadStopsAtError | src/include/instruction.py:50-55 | Once a prefix fails, the whole load ends with that prefix's tables and error. |
| Registry.DuplicateOpcodeFails | src/include/instruction.py:50-51 | Two definitions with one opcode make the load fail, wherever they sit. |
| Registry.HexDigitsRoundTrip | src/include/instruction.py:60-65 | The upper-case hex digits of a number read back as that number, with no leading zero. |
| Registry.HexTextInjective | src/include/instruction.py:60-65 | `hex(n).upper()[2:]` writes different opcodes differently, negative ones included. |
| Registry.DescribeStatesOpcode | src/include/instruction.py:60-65 | `Instruction.__str__` names the instruction and carries digits that read back as its opcode. |
| Registry.DescribeMarksOverride | src/include/instruction.py:60-65 | The description ends with the override note exactly when an assembler callback was given. |
| Registry.OpcodeMessageNamesBoth | src/include/instruction.py:24-28 | The opcode-clash message names the new instruction first and the current holder of the opcode at the end. |
| Registry.OpcodeMessageAppendsInfo | src/include/instruction.py:24-28 | `addInfo` only appends "Additional info are provided: <info>". |
| Registry.Store.constructor | src/include/instruction.py:14-16 | The tables start empty. |
| Registry.Store.Register | src/include/instruction.py:44-58 | `Instruction(...)` updates the dictionaries to `Add`'s tables on success; on a collision it returns the error and leaves them unchanged. |
| Registry.Store.RegisterPseudo | src/include/instruction.py:67-73 | `PseudoInstruction(...)` updates the dictionaries to `AddPseudo`'s tables, or returns the error and leaves them unchanged. |
| Registry.Store.LoadAll | src/include/instruction.py:44-58 | Registering definitions one after another leaves the dictionaries and the error exactly as `Load` gives them. |
| Alu.AddRule | src/main.py:82-89 | ADD gives the sum truncated to signed 32 bits (exact when it fits). ZERO tells whether it is 0, NEGATIVE whether it is below 0, and the other flags are kept. |
| Alu.SubRule | src/main.py:90-97 | SUB gives the truncated difference. ZERO tells whether it is 0, NEGATIVE is set for 0 as well as below 0, and the other flags are kept. |
| Alu.SubEqualSetsZeroAndNegative | src/main.py:90-97 | Subtracting a value from itself gives 0 and sets both ZERO and NEGATIVE. |
| Alu.OtherOpsRaiseError | src/main.py:98-101 | NONE, MUL, INC and DEC output 0 and leave the flags as exactly the ERROR bit. |
| CoreState.HandlerFrames | src/main.py:177-184 | A register write changes only that register. `advance_ip_goto_state` puts `ip` and `addr` on `ip + 1`, raises `RW` and sets the state, and touches nothing else; without `overrideAddr` it keeps `addr`. |
| CoreState.MemoryImage | src/main.py:38-44 | A built image has 2^18 words; building fails only with an index error. |
| CoreState.MemoryImageContents | src/main.py:38-44 | The image exists exactly when every key is a valid Python index of the list. Then each word holds the last value given for its position, truncated to 32 bits, or all ones. |
| CoreState.BuildOutcome | src/main.py:25-44 | The constructor fails exactly when `useMemory` is set and `mem_init` is missing (ValueError) or has a key out of range. Without memory it builds no image. |
| CoreState.Core.constructor | src/main.py:25-74 | A new core has every signal at its initial value and its memory equal to the image built from `mem_init`. |
| CoreState.Core.InstructionEndHandler | src/main.py:167-171 | A raised `end_instr` moves `addr` and `ip` to the end address and returns to the fetch state. |
| CoreState.Core.ResetHandler | src/main.py:186-208 | The reset handler's writes, as `ResetSync` gives them for each configuration and reset state. |
| CoreState.Core.AluHandler | src/main.py:79-105 | The ALU's flag writes when an instruction enables it. |
| CoreState.Core.Fetch | src/main.py:153-157 | `ir` latches the bus word and the core enters micro-state 1. |
| CoreState.Core.AdvanceIpGotoState | src/main.py:177-184 | The core state after `advance_ip_goto_state`, whose frame `HandlerFrames` gives. |
| CoreState.Core.SetReg | src/main.py:47-49 | One general register takes the value. |
| CoreState.Core.WriteMemory | src/main.py:112-130 | While `RW` is low the edge stores `data_out` at `addr` modulo the depth; otherwise memory is unchanged. |
| Cpu.Decode | src/main.py:159-165 | `execute` never selects the byte-wide JNZ protocol on a core that elaborates. |
| Cpu.Tick | src/main.py:109-145 | One clock keeps the memory at its depth. |
| Cpu.Run | src/main.py:109-145 | Any number of clocks keeps the memory at its depth. |
| Cpu.Events | src/main.py:109-145 | A run of n clocks makes one stack-request slot per clock. |
| Cpu.Execute | src/main.py:159-165 | Running the selected execute function applies exactly that protocol's sync writes to the core. |
| Cpu.ExecuteControl | src/main.py:159-165 | The same for NOP, HALT, JMP, the conditional jumps and RET. |
| Cpu.ExecuteLoadAdd | src/main.py:159-165 | The same for LDI_ABS, LDI, ADDI_ABS and ADDI. |
| Cpu.ExecuteSubStep | src/main.py:159-165 | The same for SUBI_ABS, SUBI, INCI and DECI. |
| Cpu.ExecuteStore | src/main.py:159-165 | The same for STI, MOV and the flag instructions. |
| Cpu.ExecuteStack | src/main.py:159-165 | The same for PUSH, PUSHA/PUSHB/PUSHX and POP. |
| Cpu.Step | src/main.py:109-151 | One clock of the `Core` object, with its handlers run in elaboration order and the write port applied, gives exactly `Tick` of its old state. It returns the stack request of that clock. |
| Clock.FetchStep | src/main.py:153-157 | A fetch latches the opcode into `ir`, enters state 1 and changes nothing else. |
| Clock.ExecuteStep | src/main.py:138-165 | An execute cycle after the reset is the protocol's commit, then the ALU flags it enables, then its own writes, then the write port. |
| Clock.OperandStep | src/main.py:177-184 | A protocol whose state 1 only advances steps `ip` and `addr` to the operand word and enters state 2. |
| Clock.ToOperand | src/main.py:153-184 | The fetch and state 1 of such an instruction reach its operand word. |
| ControlFlow.NopRun | src/instructions/NOP.py:5-8 | NOP takes two clocks and commits to `ip0 + 1`. Only `ir`, `ip` and `addr` change. |
| ControlFlow.HaltStep | src/instructions/HALT.py:5-6 | HALT's execute cycle commits to `ip` itself. |
| ControlFlow.HaltRun | src/instructions/HALT.py:5-8 | HALT takes two clocks and returns to its own address; only `ir` changes. |
| ControlFlow.HaltAgain | src/instructions/HALT.py:5-6 | Two more clocks of a fetched HALT bring the core back to the same state. |
| ControlFlow.HaltForever | src/instructions/HALT.py:5-6 | Once HALT is fetched, every further pair of clocks returns to the same state, with no memory write and no stack request. |
| Jmp.Exec | src/instructions/JMP.py:18-23 | JMP's writes, as `Jmp.Sync` gives them. |
| ControlFlow.JumpCommit | src/instructions/JMP.py:18-23 | JMP, or a taken conditional jump, in state 2 commits to the word on the bus. |
| ControlFlow.JmpRun | src/instructions/JMP.py:18-25 | JMP takes three clocks and commits to the word at `ip0 + 1`. Flags, registers and memory are untouched. |
| Cjmp.Exec | src/instructions/CJMP.py:19-30 | A conditional jump's writes, as `Cjmp.Sync` gives them. |
| Cjmp.Variants | src/instructions/CJMP.py:32-56 | The six registrations are 0x11..0x16, length 3. They test ZERO, CARRY and ERROR, each as is at the odd opcode and negated at the even one. |
| ControlFlow.CjmpTakenStep | src/instructions/CJMP.py:19-30 | A taken conditional jump steps to its operand in state 1. |
| ControlFlow.CjmpNotTakenRun | src/instructions/CJMP.py:19-30 | A conditional jump whose flag bit (inverted for the negated forms) is clear commits to `ip0 + 3` in two clocks. |
| ControlFlow.CjmpTakenRun | src/instructions/CJMP.py:19-30 | A taken conditional jump commits to the word at `ip0 + 1` in three clocks. Flags, registers and memory are untouched. |
| Jiz.Exec | src/instructions/JIZ.py:19-27 | JIZ's writes, as `Jiz.Sync` gives them. |
| Jiz.MatchesCjmp | src/instructions/JIZ.py:19-29 | JIZ drives and writes exactly what CJMP's non-inverted ZERO variant does, and registers the same opcode and name. |
| Ret.Exec | src/instructions/RET.py:18-27 | RET's writes, as `Ret.Sync` gives them. |
| ControlFlow.RetRequest | src/instructions/RET.py:18-27 | RET's state 1 requests a pop and enters state 2. |
| ControlFlow.RetCommit | src/instructions/RET.py:18-27 | RET's state 2 commits to the word on the bus. |
| ControlFlow.RetCommitsBusWord | src/instructions/RET.py:18-27 | After its pop request, RET commits to whatever word the bus carries and changes nothing else. |
| ControlFlow.RetRun | src/instructions/RET.py:18-29 | With memory on the bus, RET makes one pop request and then jumps to the address equal to its own opcode word. |
| LdiAbs.Exec | src/instructions/LDI_ABS.py:17-26 | LDI_ABS's writes, as `LdiAbs.Sync` gives them. |
| LdiAbs.LoadFlagsRule | src/instructions/LDI_ABS.py:17-26 | A load sets ZERO exactly for a zero word, always clears NEGATIVE (an unsigned bus is never below 0), and keeps the other flags. |
| LoadStore.LdiAbsLoad | src/instructions/LDI_ABS.py:17-26 | LDI_ABS's state 2 loads the bus word, read as signed, into the register, sets the flags by the load rule and commits. |
| LoadStore.LdiAbsRun | src/instructions/LDI_ABS.py:17-37 | LDI_ABS takes three clocks. The register gets the word at `ip0 + 1`, ZERO tells whether it is 0, NEGATIVE is cleared, and the core commits to `ip0 + 2`. |
| Ldi.Exec | src/instructions/LDI.py:16-31 | LDI's writes, as `Ldi.Sync` gives them. |
| LoadStore.LdiAddress | src/instructions/LDI.py:16-31 | LDI's state 2 points `addr` at the address on the bus. |
| LoadStore.LdiLoad | src/instructions/LDI.py:16-31 | LDI's state 3 loads the word read there and commits. |
| LoadStore.LdiRun | src/instructions/LDI.py:16-42 | LDI takes four clocks. The register gets the word stored at the address held at `ip0 + 1`, with LDI_ABS's flag rule, and the core commits to `ip0 + 2`. |
| Sti.Exec | src/instructions/STI.py:15-27 | STI's writes, as `Sti.Sync` gives them. |
| LoadStore.StiDrive | src/instructions/STI.py:15-27 | STI's state 2 points `addr` at the operand address and drives the register with `RW` low. |
| LoadStore.StiFinish | src/instructions/STI.py:15-27 | STI's state 3 stores the driven word, raises `RW`, clears `data_out` and commits. |
| LoadStore.StiRun | src/instructions/STI.py:15-40 | STI takes four clocks. It writes the register to the address held at `ip0 + 1`, changes no register, and commits to `ip0 + 2`. |
| AddiAbs.Exec | src/instructions/ADDI_ABS.py:19-30 | ADDI_ABS's writes, as `AddiAbs.Sync` gives them. |
| SubiAbs.Exec | src/instructions/SUBI_ABS.py:6-17 | SUBI_ABS's writes, as `SubiAbs.Sync` gives them. |
| Arithmetic.ImmediateApply | src/instructions/ADDI_ABS.py:19-30 | The last state of ADDI_ABS/SUBI_ABS feeds the register and the bus word to the ALU, stores its output and commits. |
| Arithmetic.ImmediateRun | src/instructions/ADDI_ABS.py:19-43 | ADDI_ABS and SUBI_ABS take three clocks. The register becomes the ALU sum or difference of its value and the signed word at `ip0 + 1`, the flags follow the ALU rule, and the core commits to `ip0 + 2`. |
| Arithmetic.AddImmediateExact | src/instructions/ADDI_ABS.py:19-30 | When the sum fits, ADDI_ABS leaves the exact sum. ZERO and NEGATIVE tell whether it is 0 or below 0, and the other flags are kept. |
| Arithmetic.SubImmediateSelf | src/instructions/SUBI_ABS.py:6-17 | SUBI_ABS of a register's own value leaves 0 with both ZERO and NEGATIVE set. |
| Addi.Exec | src/instructions/ADDI.py:19-36 | ADDI's writes, as `Addi.Sync` gives them. |
| Subi.Exec | src/instructions/SUBI.py:19-36 | SUBI's writes, as `Subi.Sync` gives them. |
| Arithmetic.IndirectAddress | src/instructions/ADDI.py:19-36 | ADDI/SUBI's state 2 points `addr` at the address on the bus. |
| Arithmetic.IndirectApply | src/instructions/ADDI.py:19-36 | ADDI/SUBI's state 3 applies the ALU to the register and the word read, and commits. |
| Arithmetic.IndirectRun | src/instructions/ADDI.py:19-49 | ADDI and SUBI take four clocks. The register becomes the ALU result on the word stored at the address held at `ip0 + 1`, and the core commits to `ip0 + 2`. |
| Inci.Exec | src/instructions/INCI.py:19-26 | INCI's writes, as `Inci.Sync` gives them. |
| Deci.Exec | src/instructions/DECI.py:19-26 | DECI's writes, as `Deci.Sync` gives them. |
| Arithmetic.StepApply | src/instructions/INCI.py:19-26 | The ALU has no INC or DEC case, so INCI/DECI's state 1 sets the register to 0 and the flags to the ERROR bit alone, and commits. |
| Arithmetic.StepRun | src/instructions/DECI.py:19-39 | INCI and DECI take two clocks. The register becomes 0, the flags become exactly ERROR, and the core commits to `ip0 + 1`. |
| Mov.Exec | src/instructions/MOV.py:16-81 | MOV's writes, as `Mov.Sync` gives them. |
| Mov.SentinelNames | src/instructions/MOV.py:16-81 | Exactly the words of -256, -255 and -254 name a register, RA, RB and RX in that order. |
| MovRuns.SourceRegisterStep | src/instructions/MOV.py:16-81 | MOV's state 2 with a sentinel copies the named register, truncated, into `tmp32`. |
| MovRuns.SourceAddressStep | src/instructions/MOV.py:16-81 | MOV's state 2 with an address points `addr` at it and marks the memory case. |
| MovRuns.PassStep | src/instructions/MOV.py:16-81 | MOV's state 3 in the register case steps to the destination operand. |
| MovRuns.LoadStep | src/instructions/MOV.py:16-81 | MOV's state 3 in the memory case latches the word read, clears the mark and steps on. |
| MovRuns.DestinationRegisterStep | src/instructions/MOV.py:16-81 | MOV's state 4 with a sentinel writes `tmp32`, read as signed, into the named register. |
| MovRuns.DestinationAddressStep | src/instructions/MOV.py:16-81 | MOV's state 4 with an address points `addr` at it and marks the memory case. |
| MovRuns.IdleStep | src/instructions/MOV.py:16-81 | MOV's state 5 in the register case drives nothing. |
| MovRuns.DriveStep | src/instructions/MOV.py:16-81 | MOV's state 5 in the memory case drives `tmp32` with `RW` low. |
| MovRuns.MovCommit | src/instructions/MOV.py:16-81 | MOV's state 6 clears up, lets the write port store, and commits to the next word. |
| MovRuns.DeliveredFrame | src/instructions/MOV.py:16-81 | Delivering the moved word changes at most one register or one memory word. |
| MovRuns.MovRun | src/instructions/MOV.py:16-84 | MOV takes seven clocks. The source word (a register truncated to 32 bits, or the memory word at the source address) reaches the destination (a register, read as signed, or the memory word at the destination address). The core commits to `ip0 + 3` with its scratch cells cleared, and nothing else changes. |
| Push.Exec | src/instructions/PUSH.py:18-39 | PUSH's writes, as `Push.Sync` gives them. |
| StackRuns.PushAddress | src/instructions/PUSH.py:18-39 | PUSH's state 2 points `addr` at the address on the bus. |
| StackRuns.PushRequestStep | src/instructions/PUSH.py:18-39 | PUSH's state 3 requests a push of the word read there. |
| StackRuns.PushFinish | src/instructions/PUSH.py:18-39 | PUSH's state 4 raises `RW`, clears `data_out` and commits. |
| StackRuns.PushRun | src/instructions/PUSH.py:18-41 | PUSH takes five clocks. The fourth requests a push of the memory word whose address follows the opcode, and the core commits to `ip0 + 2`. Registers, flags and memory are untouched. |
| Pushi.Exec | src/instructions/PUSHI.py:18-32 | PUSHA/PUSHB/PUSHX's writes, as `Pushi.Sync` gives them. |
| StackRuns.PushiRequest | src/instructions/PUSHI.py:18-32 | The state-1 request pushes the register's value. |
| StackRuns.PushiFinish | src/instructions/PUSHI.py:18-32 | State 2 commits. |
| StackRuns.PushiRun | src/instructions/PUSHI.py:18-45 | PUSHA/PUSHB/PUSHX take three clocks, request a push of the register, and commit to `ip0 + 1`. Nothing else changes. |
| Pop.Exec | src/instructions/POP.py:18-44 | POP's writes, as `Pop.Sync` gives them. |
| StackRuns.PopRequestStep | src/instructions/POP.py:18-44 | POP's state 1 requests a pop. |
| StackRuns.PopLatch | src/instructions/POP.py:18-44 | POP's state 2 latches the bus word into `tmp32` and steps to the operand. |
| StackRuns.PopDrive | src/instructions/POP.py:18-44 | POP's state 3 points `addr` at the operand address and drives `tmp32` with `RW` low. |
| StackRuns.PopFinish | src/instructions/POP.py:18-44 | POP's state 4 stores the word, clears `tmp32` and `data_out`, and commits. |
| StackRuns.PopRun | src/instructions/POP.py:18-46 | With memory on the bus, POP takes five clocks and makes one pop request. It stores the word it latched (its own opcode word) at the address held at `ip0 + 1`, and commits to `ip0 + 2`. |
| FlagOps.Exec | src/instructions/FLAGS.py:19-20 | A flag instruction's writes, as `FlagOps.Sync` gives them. |
| FlagOps.WriteRule | src/instructions/FLAGS.py:19-32 | SCF/CCF/SEF/CEF set or clear only their own bit, writing twice is writing once, and nothing but the flags changes. |
| Sequencing.FlagStep | src/instructions/FLAGS.py:19-20 | An execute cycle of a flag instruction as written writes the bit and raises no `end_instr`. |
| Sequencing.FlagsHang | src/instructions/FLAGS.py:19-37 | As written, SCF/CCF/SEF/CEF never finish. The core stays in state 1 with the bit written, for ever, and never reaches the next fetch. |
| Sequencing.FlagEndRun | src/instructions/FLAGS.py:19-37 | With the corrected protocol the flag instructions take two clocks, write only their bit, and commit to `ip0 + 1`. |
| Sequencing.StandsStill | src/instructions/HALT.py:5-6 | A machine that one clock leaves unchanged stays unchanged, with no stack request. |
| Sequencing.ResetStart | src/main.py:188-191 | Vectored reset state 0 points `addr` at the start address with `RW` high and enters state 1. |
| Sequencing.ResetVector | src/main.py:192-200 | Vectored reset state 1 commits to the word read, clears the scratch cells and enters state 2. |
| Sequencing.ResetRun | src/main.py:186-200 | After a domain reset the vectored core takes two clocks to commit to the word stored at the start address, and is then ready to fetch there. Registers, flags and `sp` survive; memory is untouched. |
| Sequencing.ResetGates | src/main.py:138-143 | Until `reset_state` is 2, no instruction is fetched or executed; a clock changes only what the reset handler and its commit write. |
| Sequencing.NonVectoredClock | src/main.py:201-208 | Without the vector, the handler as written raises `end_instr` on every clock. Every clock outside an execute cycle commits to the start address and clears the scratch cells, so a fetch latches the opcode but puts `ip` back on the start address. |
| Sequencing.GuardedTick | src/main.py:186-208 | With the once-only handler, a clock after the reset is exactly the vectored core's clock. |
| Sequencing.SyncKeepsReset | src/main.py:186-208 | No instruction writes `reset_state`. |
| Sequencing.GuardedRun | src/main.py:186-208 | With the once-only handler, every run after the reset is the vectored core's run, clock by clock. |
| Sequencing.GuardedResetRun | src/main.py:201-208 | With the once-only handler, the non-vectored core starts in one clock at the start address, ready to fetch. |
| Sequencing.GuardedFetch | src/main.py:153-157 | With the once-only handler, a fetch keeps `ip` and only latches the opcode. |
| Sequencing.UnknownOpcodeRunsNop | src/main.py:164-165 | An opcode nobody registered runs the protocol registered as "NOP"; with NOP's own, the core moves to `ip0 + 1` in two clocks. |
| Isa.CjmpAndJizClash | src/instructions/CJMP.py:51 | Any load that includes CJMP's JIZ and JIZ.py's JIZ fails, whatever the file order. |
| Isa.CjmpAndJnzClash | src/instructions/CJMP.py:52 | Any load that includes CJMP's JNZ and JNZ.py's JNZ fails, whatever the file order. |
| Isa.AsWrittenFails | src/instructions/__init__.py:4-7 | Importing every instruction file fails with an error. |
| Isa.LoadAppend | src/instructions/__init__.py:4-7 | Importing files one after another is loading each on top of the previous, until one fails. |
| Isa.CorrectedLoads | src/instructions/__init__.py:4-7 | The corrected instruction set loads without an error; every definition sits under its own opcode and name. |
| Isa.CorrectedEntries | src/instructions/__init__.py:4-7 | Every entry of the loaded opcode table is one of the corrected registrations. |
| Isa.CorrectedElaborates | src/main.py:159-165 | With the corrected tables the core elaborates, and "NOP" is NOP's protocol. |
| Isa.CorrectedDecode | src/main.py:159-165 | `ir` decodes to the protocol registered under it, and to NOP when none is. |
| Prototype.Tick | main.py:121-136 | One clock keeps the 2^16-byte memory. |
| Prototype.Run | main.py:121-136 | Any number of clocks keeps the memory. |
| Prototype.Core.constructor | main.py:45-116 | A core just out of a domain reset keeps the `reset_less` registers and clears the others. |
| Prototype.Core.DestBusSetup | main.py:222-226 | The registers after `dest_bus_setup`, as `DestBus` gives them. |
| Prototype.Core.InstructionEndHandler | main.py:184-188 | A raised `end_instr` moves `addr` and `ip` to its address and returns to the fetch state. |
| Prototype.Core.ResetHandler | main.py:195-212 | The reset handler's writes, as `ResetSync` gives them. |
| Prototype.Core.Cycle | main.py:138-160 | The fetch or execute writes, as `CycleSync` gives them. |
| Prototype.Core.Step | main.py:121-136 | One clock of the object, with the handlers in elaboration order, gives `Next` of its old state. |
| Prototype.BusRoundTrip | main.py:214-226 | Writing the bus into one register through the bitmap and reading it back through the selector gives the bus; every other register reads as before. |
| Prototype.OneBit | main.py:222-226 | The one-hot bitmap of a register selects that register and no other. |
| Prototype.BusDefaults | main.py:214-226 | A selector no register has drives 0; an empty bitmap (the never-driven `alu_write`) writes nothing. |
| Prototype.ResetRun | main.py:195-212 | After a domain reset the prototype takes three clocks. It reads the start address's low byte at 0x0009 and high byte at 0x000A, commits to it, and is ready to fetch there. |
| Prototype.ResetGates | main.py:133-134 | Until `reset_state` is 3 no instruction runs; `ir` and the registers keep their values. |
| Prototype.NopRun | main.py:159-160 | NOP and every opcode but JMP's take two clocks and commit to `ip0 + 1`, wrapping at 2^16. Only `ir`, `ip` and `addr` change. |
| Prototype.JmpRun | main.py:162-182 | JMP takes four clocks to commit to the bytes at `ip0 + 1` (low) and `ip0 + 2` (high). `tmp8` is left cleared, and only `ir`, `ip` and `addr` change. |
| ByteJnz.Exec | src/instructions/JNZ.py:6-19 | JNZ's writes, as `ByteJnz.Sync` gives them. |
| ByteJnz.TakenRun | src/instructions/JNZ.py:6-19 | With ZERO clear, JNZ takes three execute clocks to commit to the bytes at `ip0 + 1` (low) and `ip0 + 2` (high), leaving `tmp8` clear. |
| ByteJnz.NotTakenRun | src/instructions/JNZ.py:6-19 | With ZERO set, JNZ commits to `ip0 + 3` at once, and nothing else changes. |

## Left out

- Stack unit: none is modelled. `stack_op`, `stack_en` and `stack_data` are taken as declared by a unit outside `Core`, which declares none of them (`CoreState.Elaborates` does not require their absence). A stack request is an event of the clock it is made in (`Cpu.StackEvent`, `Cpu.Events`).
- `sp` and `qp` are never changed by the model, because the unit that would move them is absent.
- The clock models the core built with `useMemory=True` only. Its `data_in` is the read port of its own 2^18-word memory, addressed by `addr` modulo 2^18 (`src/main.py:38-44`, `src/main.py:112-130`); `Cpu.Tick` and `Clock.WordAt` always read that image. So the results of `StackRuns.PopRun` (POP stores its own opcode word) and `ControlFlow.RetRun` (RET jumps to the address equal to its own opcode word) hold only for that memory. `ControlFlow.RetCommitsBusWord` states RET's commit for any word on `data_in`, whatever serves it.
- ByteJnz: `src/instructions/JNZ.py` uses `tmp8`, which only the prototype has. It is modelled at the prototype's widths, with ZERO as an input. It is not part of the 32-bit instruction set, which cannot elaborate with it.
- The bus-served configuration (`useMemory=False`, the default of `Core`) is left out, and so are the LiteX SoC builder and driver that deploy it (`litex_builder.py:39` builds `Core(useResetVector=False, startAddr=0)` inside the Wishbone adapter). In it `data_in` comes from an external bus slave (`src/include/wishbone.py:29`), the bus is addressed with the full 32-bit `addr` rather than `addr` modulo 2^18 (`src/include/wishbone.py:27`), and the write enable is driven from `~RW` (`src/include/wishbone.py:30`). The slave's contents and timing are outside the core, so the clock cannot state what such a read returns.
- The `__main__` simulations of both files are left out: they only drive a simulator and write waveform files.
- Assembler callbacks: only whether one was given is kept, because the assembler they drive is not part of this model. `PseudoInstruction.execute` is not modelled.
- Unused signals are left out because no handler or instruction reads them: `qp` in the 32-bit core, `interrupt_args`, `interrupt_return`, `internal_op`, `stall`, and the prototype's `reg8_map`.
- `src/instructions/__init__.py` imports the files dynamically in `os.listdir` order. The model lists the registrations explicitly, alphabetically for `Isa.AsWritten`. `Isa.CjmpAndJizClash` and `Isa.CjmpAndJnzClash` hold for every order.
- Sequencing.NonVectoredClock: the per-clock facts are stated for clocks outside an execute cycle only. In an execute cycle the instruction's own `end_instr` wins and its writes vary by protocol. That every clock raises `end_instr` is stated for all clocks.
- Cpu.Tick, Cpu.Run, Prototype.Tick, Prototype.Run: their own contracts state only that memory keeps its size. What a clock does is stated by `Cpu.Step`, `Clock.ExecuteStep` and the run lemmas.
- The `elaborate` checks that Amaranth itself makes (driver conflicts between domains, signal shapes) are not modelled; only the lookups that raise in this source are.

## Findings

| source | as written | input that shows it | evidently intended | confidence | as-written member | corrected member |
|---|---|---|---|---|---|---|
| src/instructions/CJMP.py:51-52 | CJMP.py registers 0x11 "JIZ" and 0x12 "JNZ"; JIZ.py:29 and JNZ.py:21 register the same opcodes again | importing every file under `src/instructions/`, in any order | each opcode is registered once; JIZ.py and JNZ.py are superseded by CJMP.py | not executed | Isa.AsWrittenFails | Isa.CorrectedLoads |
| src/instructions/FLAGS.py:19-20 | `_execute` writes the flag bit but never calls `end_instr` | SCF (0xF0) fetched at any `ip` | write the bit and commit to `ip + 1` | not executed | Sequencing.FlagsHang | Sequencing.FlagEndRun |
| src/main.py:201-208 | without the reset vector the reset handler is not guarded by `reset_state`: it raises `end_instr(startAddr)` and clears the scratch cells on every clock | `useResetVector=False` (the configuration `litex_builder.py:39` builds, with `startAddr=0`); NOP at `startAddr`, ADDA (0xE0) at `startAddr + 1`, its operand address at `startAddr + 2`. NOP executes and commits to `startAddr + 1`. The next fetch latches ADDA, but in the same clock the handler puts `ip` and `addr` back on `startAddr`. ADDA's first state then advances only to `startAddr + 1`, so ADDA takes its own opcode word 0xE0 as the operand address, adds the word at 0xE0 to `ra`, and commits to `startAddr + 1` again: it repeats forever and never reaches `startAddr + 3` | act once, until `reset_state` is 2, as the vectored branch does | not executed | Sequencing.NonVectoredClock | Sequencing.GuardedRun |
