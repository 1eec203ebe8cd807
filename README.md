# Intel 8080 emulator core, modelled in Dafny

This project models the core of a small Intel 8080 emulator written in Python. It covers:

- **Machine state** (`state.dfy`):
  - seven 8-bit registers (A, B, C, D, E, H, L), the 16-bit SP and PC, seven flag cells (Z, S, P, CY, AC, E, DI) and 65536 bytes of memory;
  - the processor status word (PSW), `clone`, `__eq__` and loading a ROM image.

  The state has two views:
  - `Machine.Snapshot` is an immutable value;
  - `Machine.State` is a class owning four arrays that the instruction bodies update in place.
- **The fetch–decode–execute step** (`step.dfy`):
  - the opcode at PC is decoded and PC advances by one;
  - the instruction's body then runs.

  `Engine.StepSpec` is the step as a function. `Engine.Step` is the in-place method proved equal to it. `Engine.Run` iterates the step from a start state.
- **The instruction table** (`opcodes.dfy`, `legacy_table.dfy`):
  - The decoder follows the 8080 opcode fields: x = bits 6–7, y = bits 3–5, z = bits 0–2. Operand fields are numbered B, C, D, E, H, L, M, A = 0..7.
  - Decoding is a lookup by integer code, as `NEW_OPCODE_TABLE` is.
  - The disassembly descriptor of each instruction: mnemonic, operand templates, operand byte sizes and comment.
  - The legacy `OPCODE_TABLE`, entry by entry, with its format safety proved. Format safety means every `{k}` placeholder refers to an operand byte that exists.
- **The instruction bodies and their self-tests**:
  - files: `machine.dfy`, `datatransfer.dfy`, `arithmetic.dfy`, `ops_arithmetic.dfy`, `logical.dfy`, `branch.dfy`;
  - instructions: NOP, MOV, ADD/ADC, the flag helper `subop_setflags`, ANA/XRA/ORA/CMP with their immediate forms, and the conditional jumps.

  Each body is a method over `State`, proved equal to a function over `Snapshot`. `selfchecks.dfy` proves, for every state, that one engine step from an instruction's opcode passes that instruction's own `test(pre, post)`.
- **The reversible trace** (`trace.dfy`):
  - `StateDiff` is a sparse difference between two states;
  - `apply` adds the difference back (`+=` for registers and memory, `^=` for flags);
  - `Trace` ping-pongs two state buffers one step apart and records one difference per step.

  The trace's invariant is stated against the run of the machine's step. With n recorded differences:
  - the current buffer is the state after n − 1 steps;
  - the other buffer is the state after n steps;
  - difference i is taken between the states after i and i + 1 steps.
- **The editor's number formatting** (`utils.dfy`): `int_to_hex` and `int_to_bin`.

The decoder covers every instruction that `OPCODE_LIST` names, and also:
- the logical family and the conditional jumps, whose classes exist but are not imported into the table (`emulator/opcodes/__init__.py:12-14`);
- JMP (0xC3), which no class and no list entry defines. The model runs it as a `JCOND_Imm` whose predicate is always true, the instruction the branch group's header (`emulator/opcodes/branch.py:11`) and the branch tests (`test/test_ops_branch.py:16-17`) expect. As written, byte 0xC3 fails to decode like any other unlisted byte.

Thirty of the classes the list names are never defined, so as written importing the table fails with NameError. They are ADC_Reg, ADC_Mem, ADI, ACI, LXI_Reg_Imm, LXI_SP, STAX_Reg, LDAX_Reg, SHLD, LHLD, STA, LDA, INX_Reg, INX_SP, DCX_Reg, DCX_SP, INR_Reg, INR_Mem, DCR_Reg, DCR_Mem, MVI_Reg_Imm, MVI_Mem_Imm, MOV_Mem_Reg, SUB_Reg, SUB_Mem, SBB_Reg, SBB_Mem, SUI, SBI and XCHG. The model treats the list as the intended instruction set:
- ADC_Reg and ADC_Mem run an add with carry in, as `emulator/test_ops_arithmetic.py:87-140` asserts;
- the other 28 decode and then fault as unimplemented after PC has advanced, as `Op.step` does.

The bodies the model runs are NOP, MOV r,r, MOV r,M, ADD and ADC, the logical group with CMP and CPI, the conditional jumps, and JMP. As written, every one of them except NOP and MOV r,r calls a helper that `Op` does not define. The model runs them with the helpers they evidently mean; "## Left out" lists each one.

## Model

| member | source | states |
|---|---|---|
| U8.ToString | emulator/state.py:17-24 | every 8-bit register index has a one-letter name |
| U8.RegisterNames | emulator/state.py:17-24 | the names are A, B, C, D, E, H and L, one per register, so two registers never share a name |
| Machine.Zeroed | emulator/state.py:62-74 | a new state has all registers, flags and memory bytes zero |
| Machine.AdvancePC | emulator/step.py:24 | PC moves forward modulo 65536; registers, SP, flags and memory are untouched |
| Machine.ProcessorStatusWord | emulator/state.py:77-85 | bit 0 is CY, bit 1 is 1, bit 2 is P, bit 4 is AC, bit 6 is Z and bit 7 is S; bits 3 and 5 are 0, so the value fits in a byte |
| Machine.StatusWordRoundTrip | emulator/state.py:77-85 | unpacking the PSW gives back CY, P, AC, Z and S |
| Machine.StatusWordDeterminedByFlags | emulator/state.py:78-83 | two states with the same five flags have the same PSW; E and DI play no part |
| Machine.StatusWordString | emulator/state.py:122-124 | the PSW string printed by `__repr__` is 8 characters, character 7 − k being bit k of the PSW |
| Machine.RomImage | emulator/state.py:130-136 | memory holds the ROM from address 0 and zeros after it; registers and flags are zero |
| Machine.RomLoad | emulator/state.py:130-136 | base 0 with a ROM that fits gives the ROM image; a ROM larger than memory is an error; a non-zero base with a ROM of 2 or more bytes is an error, because the slice length differs from the ROM length; a non-zero base with a ROM of at most one byte leaves memory zero |
| Machine.State.constructor | emulator/state.py:56-74 | a new state object owns fresh storage whose value is the zero state |
| Machine.State.Clone | emulator/state.py:88-95 | the clone has the original's value in fresh storage, so later writes to it cannot reach the original |
| Machine.State.Equals | emulator/state.py:98-104 | true iff the 8-bit registers, 16-bit registers, flags and memory are equal element by element, which is iff the two values are equal |
| Machine.InitializeStateFromRom | emulator/state.py:130-136 | no state exactly when loading fails; otherwise a fresh state whose value is the loaded image |
| OpBase.HlAddress | emulator/opcodes/abstract.py:30-31 | the address has H as its high byte and L as its low byte, so it lies in 0..65535 |
| OpBase.SubopAddrFromHL | emulator/opcodes/abstract.py:30-31 | the method reading H and L from a state object returns that address |
| OpBase.DisassemblyData | emulator/opcodes/abstract.py:22-23 | the line is the descriptor's name, operand templates and comment, and the sizes are its operand byte sizes |
| OpBase.DisassemblyDataRoundTrip | emulator/opcodes/abstract.py:16-23 | the descriptor can be rebuilt from what `disassembly_data` returns |
| OpBase.Length | disassembler/__init__.py:20-26 | with operand sizes `[]`, `[1]` or `[1,1]`, as every table entry has, the instruction is the opcode plus the bytes the disassembler reads for its operands, 1 to 3 bytes in all |
| OpBase.ReadOperand | emulator/opcodes/arithmetic.py:37-41 | an operand read from a state object is the register, or the byte at address HL for M |
| Bytes.Word | emulator/opcodes/branch.py:24 | the word built from two bytes has the first as its high byte and the second as its low byte |
| MachineOps.NopDescriptor | emulator/opcodes/machine.py:12-13 | NOP is code 0x00, named `nop`, with no operand bytes |
| MachineOps.NopStep | emulator/opcodes/machine.py:15 | NOP's body changes nothing |
| SelfChecks.NopPasses | emulator/opcodes/machine.py:17-24 | a step from opcode 0x00 completes and passes NOP's test: memory and 8-bit registers are unchanged and PC' = PC + 1 |
| DataTransfer.MovSpec | emulator/opcodes/datatransfer.py:17-18 | MOV sets the destination register to the source operand and changes no other register, no flag, SP, PC or memory |
| DataTransfer.MovSelfIsIdentity | emulator/opcodes/__init__.py:48 | MOV r,r leaves the state as it was |
| DataTransfer.MovStep | emulator/opcodes/datatransfer.py:38-40 | the in-place body of MOV r,r2 and MOV r,M yields the state `MovSpec` describes |
| DataTransfer.MovRegRegDescriptor | emulator/opcodes/datatransfer.py:10-15 | `mov` with the two register names and no operand bytes; format safe |
| DataTransfer.MovRegMemDescriptor | emulator/opcodes/datatransfer.py:33-36 | `mov` with the register name and `M`, no operand bytes; format safe |
| DataTransfer.LxiRegDescriptor | emulator/opcodes/datatransfer.py:54-57 | `lxi` with two operand bytes rendered `{1}{0}`; format safe |
| SelfChecks.MovRegRegPasses | emulator/opcodes/datatransfer.py:20-25 | a step from a MOV r1,r2 opcode completes with r1' = r2 and r2 unchanged |
| SelfChecks.MovRegMemPasses | emulator/opcodes/datatransfer.py:42-48 | a step from a MOV r,M opcode completes with r' = MEM[HL] and memory unchanged |
| OpsArithmetic.SetFlags | emulator/ops_arithmetic.py:14-19 | Z iff the low byte is 0; S iff bit 7 is set; P iff the low byte is even; CY iff the result exceeds 0xFF; AC, E and DI are kept |
| OpsArithmetic.SubopSetflags | emulator/ops_arithmetic.py:14-19 | the in-place flag update leaves the flag array equal to `SetFlags` of its old contents |
| OpsArithmetic.AddSpec | emulator/ops_arithmetic.py:43-47 | A' = (A + v + carry) mod 256; CY iff the unmasked sum exceeds 0xFF; Z, S and P describe the new A, P by the code's evenness rule; AC, E, DI, the other registers, SP, PC and memory are kept |
| OpsArithmetic.OptemplateAdd | emulator/ops_arithmetic.py:43-47 | the in-place add of a register into A yields the state `AddSpec` describes |
| OpsArithmetic.CarryBoundary | emulator/ops_arithmetic.py:14-18 | for every A, v and carry in, the add leaves A' = 0 with CY set exactly when the full sum is 0x100 |
| OpsArithmetic.AddSelfDoubles | emulator/opcodes/arithmetic.py:17 | ADD A doubles A modulo 256 and carries iff A ≥ 0x80 |
| OpsArithmetic.FlagsSeeUntruncatedSum | emulator/ops_arithmetic.py:15-19 | two additions with the same truncated result can differ in CY, because flags are computed before the `& 0xFF` |
| OpsArithmetic.ParityIsEvenness | emulator/ops_arithmetic.py:18 | P follows evenness of the value: 3 gives P clear although it has an even number of one bits, 1 gives P clear and 2 gives P set |
| OpsArithmetic.AddWithCarryShiftsOperand | emulator/test_ops_arithmetic.py:113 | ADC of v with CY set is ADD of v + 1 |
| Arithmetic.AddStep | emulator/opcodes/arithmetic.py:16-19 | the in-place body of ADD and ADC, register or memory form, yields `AddSpec` of the operand and the carry in |
| Arithmetic.AddRegDescriptor | emulator/opcodes/arithmetic.py:10-14 | `add` with the register name and no operand bytes; format safe |
| Arithmetic.AddMemDescriptor | emulator/opcodes/arithmetic.py:32-35 | `add M` with no operand bytes; format safe |
| SelfChecks.AddRegPasses | emulator/opcodes/arithmetic.py:21-28 | a step from an ADD r opcode completes with A' = (A + r) & 0xFF, r unchanged unless it is A, and memory unchanged |
| SelfChecks.AddMemPasses | emulator/opcodes/arithmetic.py:44-50 | a step from ADD M completes with A' = (A + MEM[HL]) & 0xFF and memory unchanged |
| SelfChecks.AdcPasses | emulator/test_ops_arithmetic.py:102-119 | a step from an ADC opcode completes with A' = (A + operand + CY) mod 256 |
| Logical.LogicSpec | emulator/opcodes/logical.py:20-24 | A' = A op v for AND, XOR and OR; CY cleared; AC cleared when the form clears it and kept otherwise; Z, S and P describe A'; E, DI, the other registers, SP, PC and memory are kept |
| Logical.Sub9 | emulator/opcodes/logical.py:243-251 | the 9-bit difference is at least 0x100 iff A < v, has a zero low byte iff A = v, and equals A − v modulo 0x200 |
| Logical.CmpSpec | emulator/opcodes/logical.py:243-251 | CY' iff A < v and Z' iff A = v; S and P describe the byte (A − v) mod 256; AC, E, DI, all registers, SP, PC and memory are kept |
| Logical.BitwiseBody | emulator/opcodes/logical.py:91-96 | the shared in-place body of the bitwise group yields `LogicSpec` |
| Logical.LogicStep | emulator/opcodes/logical.py:42-47 | ANA/XRA/ORA with a register or M run in place as `LogicOp` describes |
| Logical.LogicImmStep | emulator/opcodes/logical.py:64-71 | ANI/XRI/ORI read the byte at PC, run as `LogicImm` describes and step PC past it |
| Logical.CmpStep | emulator/opcodes/logical.py:260-263 | CMP runs in place as `CmpOp` describes and never writes A |
| Logical.CpiStep | emulator/opcodes/logical.py:281-285 | CPI compares with the byte at PC and steps PC past it |
| Logical.XorSelfClears | emulator/opcodes/logical.py:91-96 | XRA A gives A' = 0 with Z set |
| Logical.AndOrSelfKeepA | emulator/opcodes/logical.py:20-24 | ANA A and ORA A leave A as it was |
| Logical.LogicRegDescriptor | emulator/opcodes/logical.py:15-18 | the register form names the register and has no operand bytes; format safe |
| Logical.LogicMemDescriptor | emulator/opcodes/logical.py:38-40 | the memory form names M and has no operand bytes; format safe |
| Logical.LogicImmDescriptor | emulator/opcodes/logical.py:60-62 | the immediate form has one operand byte rendered `{0}`; format safe |
| Logical.CmpRegDescriptor | emulator/opcodes/logical.py:233-237 | `cmp` with the register name; format safe |
| Logical.CmpMemDescriptor | emulator/opcodes/logical.py:255-258 | `cmp M`; format safe |
| Logical.CpiDescriptor | emulator/opcodes/logical.py:277-279 | `cpi` with one operand byte; format safe |
| SelfChecks.LogicRegPasses | emulator/opcodes/logical.py:27-34 | a step from ANA/XRA/ORA r completes with A' = A op r, r unchanged unless it is A, and memory unchanged |
| SelfChecks.LogicMemPasses | emulator/opcodes/logical.py:50-56 | a step from ANA/XRA/ORA M completes with A' = A op MEM[HL] and memory unchanged |
| SelfChecks.LogicImmPasses | emulator/opcodes/logical.py:74-82 | a step from ANI/XRI/ORI completes with A' = A op MEM[PC + 1] and PC' = PC + 2 |
| SelfChecks.CmpRegPasses | emulator/opcodes/logical.py:243-251 | a step from CMP r completes with CY' iff A < r, Z' iff A = r, r and memory unchanged |
| SelfChecks.CmpMemPasses | emulator/opcodes/logical.py:266-273 | a step from CMP M completes with CY' iff A < MEM[HL], Z' iff they are equal, memory unchanged |
| SelfChecks.CpiPasses | emulator/opcodes/logical.py:287-296 | a step from CPI completes with CY' iff A < MEM[PC + 1], Z' iff equal, and PC' = PC + 2 |
| Branch.ImmediateWord | emulator/opcodes/branch.py:21-24 | the operand word is little-endian: low byte at the address, high byte at the next one |
| Branch.JumpSpec | emulator/opcodes/branch.py:19-28 | a taken jump sets PC to the operand word; otherwise PC moves past the two operand bytes; registers, SP, flags and memory are kept |
| Branch.Predicate | emulator/opcodes/branch.py:20 | the condition is evaluated on the flag array before PC changes, giving exactly `Holds` |
| Branch.JcondStep | emulator/opcodes/branch.py:19-28 | the in-place jump yields the state `JumpSpec` describes |
| Branch.JcondDescriptor | emulator/opcodes/branch.py:14-17 | two operand bytes rendered `{1}{0}`; format safe |
| SelfChecks.JcondPasses | emulator/opcodes/branch.py:30-40 | a step from a jump opcode completes with PC' = MEM[PC+2]·256 + MEM[PC+1] if the condition holds and PC' = PC + 3 otherwise |
| Opcodes.OperandField | emulator/opcodes/__init__.py:47-118 | every operand has a 3-bit field that names it |
| Opcodes.FieldRoundTrips | emulator/opcodes/__init__.py:17-197 | the operand, pair, operation and condition fields are each read back from what they name |
| Opcodes.DecodeEncode | emulator/opcodes/__init__.py:199 | every instruction with an opcode decodes back from its code |
| Opcodes.EncodeDecode | emulator/opcodes/__init__.py:199 | every code that decodes is the code of the instruction it decodes to |
| Opcodes.EncodeInjective | emulator/opcodes/__init__.py:17-197 | distinct instructions have distinct codes, so the table maps each code to one instruction |
| Opcodes.MovBlock | emulator/opcodes/__init__.py:47-118 | 0x40 + 8d + s is MOV with destination field d and source field s, except 0x76 |
| Opcodes.HaltIsNotMov | emulator/opcodes/__init__.py:108 | 0x76 is not a MOV and decodes to no listed instruction |
| Opcodes.AluBlock | emulator/opcodes/__init__.py:151-186 | 0x80 + 8k + s is accumulator operation k on operand field s, and s = 6 is the memory form |
| Opcodes.IncDecMoveImmediateBlock | emulator/opcodes/__init__.py:127-149 | INR is 0x04 + 8r, DCR is 0x05 + 8r and MVI is 0x06 + 8r, r = 6 being the memory form |
| Opcodes.DescribeWellFormed | emulator/opcodes/__init__.py:17-197 | each instruction's descriptor has its code and mnemonic, operand sizes `[]`, `[1]` or `[1,1]`, and is format safe |
| Opcodes.DescribeCounts | emulator/opcodes/__init__.py:17-197 | jumps and LXI declare two operand bytes, immediate forms one and the register and memory forms none |
| LegacyTable.LookupWellFormed | emulator/opcodes/__init__.py:201-411 | every entry is found under its own code, has sizes `[]`, `[1]` or `[1,1]`, renders two-byte operands high byte first, and is format safe |
| LegacyTable.HaltEntry | emulator/opcodes/__init__.py:314 | 0x76 is listed as `hlt` with no operand bytes |
| LegacyTable.JumpEntry | emulator/opcodes/__init__.py:367 | 0xC3 is `jmp` with two operand bytes rendered `${1}{0}` |
| Engine.DecodeOpEncodes | emulator/step.py:10-15 | the decoded instruction is the one whose code is the byte at the pre-step PC |
| Engine.ExecuteOp | emulator/step.py:27 | the in-place body succeeds iff the instruction has one, and leaves the state its specification gives, or unchanged |
| Engine.Step | emulator/step.py:21-27 | one step on a state object leaves the state and fault that `StepSpec` gives |
| Engine.Next | emulator/step.py:21-27 | the successor state is defined exactly when the step does not fault, and is the state the step leaves |
| Engine.RunSucc | emulator/step.py:21-27 | in a run, the state after n + 1 steps is one fault-free step from the state after n |
| Engine.DecodeErrorChangesNothing | emulator/step.py:14-18 | an opcode with no instruction faults as a decode error and leaves the state untouched |
| Engine.UnimplementedAdvancesPC | emulator/opcodes/abstract.py:34-35 | a listed instruction without a body faults after PC has moved past the opcode, and nothing else changes |
| Engine.StepKeepsMemory | emulator/step.py:21-27 | no step of the modelled instructions writes memory |
| Engine.FallThroughAdvancesPcByOne | emulator/step.py:24 | NOP, MOV and the register or memory accumulator operations end with PC' = PC + 1 |
| Engine.ExecutePC | emulator/step.py:24-27 | after a body runs, PC is the operand word of a taken jump; otherwise it has moved past the instruction's operand bytes |
| Engine.StepExecutes | emulator/step.py:21-27 | a decoded instruction's step is its body run after PC + 1, or an unimplemented fault at PC + 1 |
| Engine.ArithmeticOpcodesDecode | emulator/ops_arithmetic.py:52-55 | 0x80 and 0x81 decode to ADD B and ADD C |
| Engine.ArithmeticOpcodesStep | emulator/ops_arithmetic.py:52-55 | the step from 0x80 or 0x81 is `optemplate_add` of B or C, after PC + 1 |
| Tracing.Where | emulator/trace.py:13-14 | the recorded indices are increasing and in range |
| Tracing.WhereSpec | emulator/trace.py:13-27 | an index is recorded iff the difference there is non-zero, with that difference as its value |
| Tracing.PatchSpec | emulator/trace.py:29-33 | patching adds each recorded value at its index and leaves every other index alone |
| Tracing.PatchUndoesWhere | emulator/trace.py:29-33 | patching b with the differences of a against b gives a |
| Tracing.ByteLaws | emulator/trace.py:30 | adding back a uint8 difference restores the byte, and the difference is 0 iff the bytes are equal |
| Tracing.WordLaws | emulator/trace.py:31 | the same for uint16 |
| Tracing.Diff | emulator/trace.py:11-27 | a state difference fits the shape of the state |
| Tracing.DiffRecordsChanges | emulator/trace.py:12-27 | in each of the four arrays, an index is recorded iff the two states differ there |
| Tracing.DiffOfSelfIsEmpty | emulator/trace.py:12-27 | the difference of a state with itself records nothing |
| Tracing.ApplyChangesOnlyRecorded | emulator/trace.py:29-35 | applying a difference leaves every unrecorded cell untouched |
| Tracing.ApplyUndoesDiff | emulator/trace.py:29-35 | applying the difference of s against s2 to s2 gives s |
| Tracing.PatchArray | emulator/trace.py:30 | the in-place `+=` at the recorded indices yields the patched sequence |
| Tracing.Apply | emulator/trace.py:29-35 | applying a difference to a state object in place yields `ApplySpec` |
| Tracing.Rewind | emulator/trace.py:94-98 | applying the last two differences to the state after n steps gives the state after n − 2 steps |
| Tracing.StepTwice | emulator/trace.py:81-82 | the double step: the first step reaches the known next state, the second is one machine step from it |
| Tracing.Lookahead | emulator/trace.py:63-64 | the clone stepped once is the state after one step, in fresh storage |
| Tracing.Forward | emulator/trace.py:69-85 | the buffer one step behind ends one step ahead, and on success exactly one difference is appended, keeping the record consistent with the run |
| Tracing.Backward | emulator/trace.py:89-100 | one difference is dropped, and the buffer that was ahead is taken back to the state before the last forward step |
| Tracing.Trace.CurrentState | emulator/trace.py:103-104 | the current buffer holds the state after \|diffs\| − 1 steps of the run |
| Tracing.Trace.constructor | emulator/trace.py:61-67 | a new trace keeps the initial state as buffer 0, a stepped clone as buffer 1, and one difference |
| Tracing.Trace.StepForward | emulator/trace.py:69-85 | the fault is the step's fault; on success the run grows by one step and the invariant holds; on a fault the record is unchanged |
| Tracing.Trace.StepBackward | emulator/trace.py:89-100 | with fewer than two differences nothing changes; otherwise the last difference and the last state of the run are dropped and the invariant holds |
| Tracing.ForwardMany | emulator/trace.py:69-85 | n forward steps without a fault grow the record by n and keep its beginning |
| Tracing.BackwardMany | emulator/trace.py:89-100 | n backward steps drop the last n differences and states |
| Tracing.ForwardThenBackward | emulator/trace.py:61-104 | n forward steps followed by n backward steps restore the record and the current state |
| Tracing.SameRecordSameCurrent | emulator/trace.py:103-104 | two valid traces with the same record have the same current state |
| EditorUtils.DigitChar | editor/utils.py:2 | digits are printed in lowercase, and each digit character reads back as its value |
| EditorUtils.Numeral | editor/utils.py:2 | the digits of a number are non-empty, valid in the base, and start with 0 only for 0 |
| EditorUtils.NumeralParses | editor/utils.py:2 | reading the digits back in the same base gives the number |
| EditorUtils.NumeralLength | editor/utils.py:2 | the digit count is the least k with n < base^k |
| EditorUtils.ZFillLayout | editor/utils.py:2 | `zfill` gives max(width, length) characters: the string at the end and only '0' before it |
| EditorUtils.ZFillKeepsDigits | editor/utils.py:2 | zero padding keeps every character a digit and keeps the value |
| EditorUtils.IntToHexSpec | editor/utils.py:1-2 | `int_to_hex` prints only hex digits, is max(fill, digit count) long, pads with leading '0' only, and reads back as i |
| EditorUtils.IntToBinSpec | editor/utils.py:4-5 | `int_to_bin` prints only '0' and '1', is max(fill, digit count) long, pads with leading '0' only, and reads back as i |
| EditorUtils.FormattingIsInjective | editor/utils.py:1-5 | two numbers that print the same, whatever the fills, are equal |
| EditorUtils.ExactWidth | editor/utils.py:2 | a number below base^fill prints in exactly fill characters |
| EditorUtils.BytePanelWidths | editor/registers.py:67-69 | with the default fills, a byte register prints as 2 hex and 8 binary characters |
| EditorUtils.WordPanelWidths | editor/registers.py:124-126 | with fill=4 and fill=16, a word register prints as 4 hex and 16 binary characters |
| EditorUtils.BinDigitIsBit | editor/utils.py:4-5 | character k from the right of `int_to_bin` is bit k of the number |
| EditorUtils.StatusWordPrintsAsBinary | emulator/state.py:122-124 | the PSW string printed by `__repr__` is `int_to_bin` of the PSW |

## Left out

- Terminal user interface, editor commands, disassembler front ends and the interactive loop: these do curses rendering, file reading and printing.
- `__repr__` beyond the PSW line, `StateDiff.__repr__` and `get_name`: these only produce text.
- NumPy fixed width is replaced by explicit wrap-around. Two artefacts are not reproduced:
  - the uint8 + uint8 addition wraps before the flags are set;
  - `H << 8` is computed in uint8.
  Flags are computed from the unmasked sum, as the comment at `emulator/ops_arithmetic.py:15` intends.
- The mutable default arrays that every `State()` shares are not modelled. Each state owns fresh zeroed storage.
- The legacy dictionary is keyed by `bytes` but looked up with an integer, so that lookup always fails. Decoding is instead by integer code, as in `NEW_OPCODE_TABLE`.
- Instructions with no body anywhere are not given semantics; they fault as unimplemented. They are: LXI, STAX/LDAX, SHLD/LHLD, STA/LDA, XCHG, MVI, INX/DCX, INR/DCR, MOV M,r, SUB/SBB, SUI/SBI, and ADI (0xC6) and ACI (0xCE).
- ADC_Reg and ADC_Mem have no class in the code either. The model gives them the add with carry in that `emulator/test_ops_arithmetic.py:87-140` asserts, through OpsArithmetic.AddSpec.
- Importing the instruction list as written fails with NameError on its first undefined class. The model does not reproduce that failure.
- The instructions the table lists only in `OPCODE_TABLE` comments are not decoded: HLT, DAA, RST, CALL/RET/PUSH/POP, IN/OUT, EI/DI, the rotates and DAD.
- Opcodes.DecodeEncode, Opcodes.EncodeDecode: byte 0xC3 decodes to JMP here, whereas as written the byte is not in the table and fails to decode.
- JMP (0xC3) has no class, so it has no descriptor of its own. The model gives it `JCOND_Imm`'s descriptor: operand `{1}{0}` and comment "\t\t; PC := {1}{0}". The legacy entry at `emulator/opcodes/__init__.py:367` renders it `${1}{0}` with comment "\t\t; PC := addr:{1}{0}"; LegacyTable.JumpEntry states that entry.
- The auxiliary carry is never computed. It is only cleared or kept, as in the code.
- Engine.DecodeErrorChangesNothing: an unknown opcode is a decode-error outcome with the state untouched. The code builds `UnimplementedOp`, which is declared with `def` and cannot run.
- OpsArithmetic.AddSpec, Arithmetic.AddStep, Logical.BitwiseBody, Logical.LogicStep, Logical.LogicImmStep, Logical.CmpStep, Logical.CpiStep, DataTransfer.MovStep, Branch.JcondStep, OpBase.SubopAddrFromHL: as written, these bodies call `Op` helpers that no file defines. Each call raises AttributeError after PC has advanced. The model gives each helper the definition it evidently means:
  - `subop_setflags_add` (`emulator/opcodes/arithmetic.py:18,40`, and `emulator/opcodes/logical.py:22,45,67,93,117,140,166,190,213,241,263,284`) becomes OpsArithmetic.SetFlags, the `subop_setflags` of `emulator/ops_arithmetic.py:14`;
  - `subop_and`, `subop_xor` and `subop_or` (`emulator/opcodes/logical.py:21,44,66,92,116,139,165,189,212`) become Bytes.Combine8;
  - `subop_sub` (`emulator/opcodes/logical.py:240,262,283`) becomes Logical.Sub9;
  - `subop_addr_from_HL` (`emulator/opcodes/arithmetic.py:38`, `emulator/opcodes/logical.py:43,115,188,261`) and `subop_address_from_HL` (`emulator/opcodes/datatransfer.py:38`) become OpBase.HlAddress, the `subop_addr_from_H_and_L` of `emulator/opcodes/abstract.py:30-31`;
  - `subop_u8_pair_to_u16` (`emulator/opcodes/branch.py:24`) becomes Bytes.Word, high byte first.
- Logical.CmpSpec: `subop_sub` is not in the code. CMP and CPI feed the 9-bit difference (A − v) mod 0x200 to `subop_setflags`, which meets every assert of their tests.
- OpsArithmetic.SetFlags: P is set when the low byte is even, as the code has it. Chapter 4 of the Intel 8080 Microcomputer Systems User's Manual sets P on an even number of one bits. The model keeps the code's rule, and OpsArithmetic.ParityIsEvenness shows the difference.
- Machine.State.Equals: `__eq__` names `other`, but its parameter is `other_state`, so as written the call raises NameError. The model states the intended element-wise comparison.
- SelfChecks.MovRegMemPasses: the MOV r,M test names `self.r2` and `R1_is_R2`, which that class does not have. The model checks the intended r' = MEM[HL] and unchanged memory.
- Tracing.Trace.StepForward: after a faulting step the pointer has already flipped and no difference is recorded, so the trace no longer satisfies its invariant. The model states only that the record is unchanged.
- Tracing.Trace.constructor: requires that the first step of the initial state does not fault. Otherwise the exception escapes `__init__` and no trace exists.
- Tracing.Trace.StepForward: the step the trace iterates is the machine's step (`advance == Next`), which the constructor fixes. The history of states is a ghost record.
- Tracing.ForwardThenBackward: the current state is restored only when no forward step faults.
- `LXI_Reg` is modelled by its descriptor only; it has no step body.
