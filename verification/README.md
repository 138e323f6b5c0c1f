# MOSA compiler backend: a Dafny model

This project models eight small parts of the backend of MOSA, the Managed Operating System
Alliance's ahead-of-time compiler from CIL to x86. It proves properties of those parts:

- **Operands** (`operands.dfy`). The two conversions between CIL element types (ECMA-335
  Partition II, section 23.1.16) and evaluation-stack types (ECMA-335 Partition III,
  section 1.1). The lazily created definition and use lists of an operand. `Replace`, which
  rewrites an operand in place at all of its definition and use sites.
- **The x86 platform descriptor** (`x86_architecture.dfy`, `registers.dfy`). Type size and
  alignment, the register constraint table, feature-flag resolution, the calling-convention
  whitelist, the register set, and the extension of method pipelines.
- **SBB opcode selection** (`sbb_instruction.dfy`). The encodings are checked against the
  Intel 64 and IA-32 Architectures Software Developer's Manual, Volume 2, "SBB—Integer
  Subtraction with Borrow". The latency is the constant `Latency = 1`.
- **The ELF64 section-name string table** (`elf64_string_table.dfy`). It follows the
  System V ABI, generic part, "String Table".
- **The ahead-of-time method compiler** (`aot_method_compiler.dfy`). Its stage list, and the
  scheduling of static type initializers using the method attribute flags of ECMA-335
  Partition II, section 23.1.10.
- **The linker method compiler** (`linker_method_compiler.dfy`) and **link-time code
  generation** (`link_time_code_generator.dfy`).
- **The IL `dup` instruction** (`dup_instruction.dfy`).

Shared modules:

- `outcomes.dfy` models thrown .NET exceptions as `Failure` values.
- `metadata.dfy` holds element types, method attribute flags and calling conventions.
- `pipelines.dfy` models a method pipeline as a sequence of opaque stage tags.
- `vm.dfy` holds the runtime entities the compilers create.

Throughout the model:

- Objects that the source updates in place are classes. `Replace`, the string table,
  `EndCompile`, `Compile` and `Validate` are methods proved against specification functions
  or stating their new state outright.
- Static fields become fields of one explicitly passed object:
  - the shared string table is a `SharedStringTable`;
  - the generated type is a field of a `LinkTimeCodeGenerator`.
- A constructor that throws becomes a factory method returning a `Result`.

## Model

| member | source | states |
|---|---|---|
| Operands.StackTypeFromSigType | Source/Runtime/CompilerFramework/Operands/Operand.cs:106-140 | Boolean, Char, I1, U1, I2, U2, I4 and U4 give Int32. I8 and U8 give Int64. R4 and R8 give F. I and U give N. Ptr and ByRef give Ptr. Object, String, ValueType, Type and Class give O. Void gives Unknown. Each of these holds in both directions; every other element type fails with NotSupportedException |
| Operands.SigTypeFromStackType | Source/Runtime/CompilerFramework/Operands/Operand.cs:147-160 | Defined exactly for Int32, Int64, F, O and N, giving I4, I8, R8, Object and I. Ptr and Unknown fail with NotSupportedException. Converting the result back yields the code that was given |
| Operands.StackTypeRoundTripIsStable | Source/Runtime/CompilerFramework/Operands/Operand.cs:106-160 | sig type → stack type → sig type → stack type reproduces the first stack type whenever the middle step is defined |
| Operands.Substitute | Source/Runtime/CompilerFramework/Operands/Operand.cs:198-203 | Same length. Every slot holding the operand (by reference) becomes the replacement; every other slot is unchanged |
| Operands.SubstituteIdempotent | Source/Runtime/CompilerFramework/Operands/Operand.cs:198-203 | Substituting twice is substituting once |
| Operands.Rewritten | Source/Runtime/CompilerFramework/Operands/Operand.cs:190-219 | The specification of `Replace`: the instruction indices are kept |
| Operands.RewrittenSlots | Source/Runtime/CompilerFramework/Operands/Operand.cs:190-219 | After a replacement, result slots at definition sites and operand slots at use sites that held the operand hold the replacement. Slots holding other operands are unchanged. Instructions not listed keep their results or operands. No instruction changes length |
| Operands.ReplaceWithSelfIsIdentity | Source/Runtime/CompilerFramework/Operands/Operand.cs:195-218 | Replacing an operand by itself leaves every instruction unchanged |
| Operands.ReplaceIsIdempotent | Source/Runtime/CompilerFramework/Operands/Operand.cs:190-219 | Replacing twice with the same arguments is replacing once |
| Operands.ReplaceLeavesNoStaleReference | Source/Runtime/CompilerFramework/Operands/Operand.cs:190-219 | After replacement by a different operand, no listed result or operand slot still refers to the replaced operand |
| Operands.Operand.constructor | Source/Runtime/CompilerFramework/Operands/Operand.cs:57-60 | Keeps the type; both site lists start absent |
| Operands.Operand.Definitions | Source/Runtime/CompilerFramework/Operands/Operand.cs:69-78 | Creates an empty list on first access and returns the same list afterwards |
| Operands.Operand.Uses | Source/Runtime/CompilerFramework/Operands/Operand.cs:170-179 | Creates an empty list on first access and returns the same list afterwards |
| Operands.Operand.ReplaceInResults | Source/Runtime/CompilerFramework/Operands/Operand.cs:196-204 | The loop over one instruction's results leaves that instruction's results substituted and everything else as it was |
| Operands.Operand.ReplaceInOperands | Source/Runtime/CompilerFramework/Operands/Operand.cs:209-217 | The loop over one instruction's operands leaves that instruction's operands substituted and everything else as it was |
| Operands.Operand.ReplaceAtDefinitions | Source/Runtime/CompilerFramework/Operands/Operand.cs:195-205 | The loop over the definition sites rewrites the results of exactly those instructions |
| Operands.Operand.ReplaceAtUses | Source/Runtime/CompilerFramework/Operands/Operand.cs:208-218 | The loop over the use sites rewrites the operands of exactly those instructions |
| Operands.Operand.Replace | Source/Runtime/CompilerFramework/Operands/Operand.cs:190-219 | The instruction set becomes `Rewritten` of the old one, at the old definition and use sites. The operand's own definition and use lists keep their contents; an existing list keeps its identity, and an absent one is created fresh and empty by its getter |
| X86.CreateArchitecture | Mosa/Platforms/x86/Architecture.cs:164-172 | AutoDetect alone becomes MMX and SSE; any other flag set is kept unchanged |
| X86.CreateArchitectureIsIdempotent | Mosa/Platforms/x86/Architecture.cs:164-172 | Resolving the flags of a created architecture again changes nothing |
| X86.Architecture.CreateInstruction | Mosa/Platforms/x86/Architecture.cs:180-192 | The substitution table is empty, so every instruction is created by the base factory |
| X86.Architecture.CreateResultOperand | Mosa/Platforms/x86/Architecture.cs:201-204 | A fresh EAX register operand of the requested type, whatever the label and index |
| X86.Architecture.ExtendMethodCompilerPipeline | Mosa/Platforms/x86/Architecture.cs:218-234 | Appends exactly LongOperandTransformation, IRToX86Transformation, InstructionScheduling, InstructionLogger and CodeGenerator; the existing prefix is unchanged |
| X86.Architecture.GetCallingConvention | Mosa/Platforms/x86/Architecture.cs:242-252 | Succeeds exactly for Default, returning a convention bound to this architecture; every other convention fails with NotSupportedException |
| X86.Architecture.GetRegisterConstraint | Mosa/Platforms/x86/Architecture.cs:274-283 | A constraint exists exactly for the twelve kinds in the table. Add, Adc and Sub get GPR; Sar, Shl and Shr get Shift. Div, Mul, Move and each logical operation get their own. Every other kind gets none |
| X86.Architecture.GetTypeRequirements | Mosa/Platforms/x86/Architecture.cs:291-322 | A null type gives ArgumentNullException("type"); ValueType gives NotSupportedException. Otherwise size equals alignment: 8 exactly for R8, I8 and U8, and 4 for everything else |
| X86.RegisterSetLayout | Mosa/Platforms/x86/Architecture.cs:36-71 | Fourteen distinct registers. The six general-purpose ones come first, then XMM0 to XMM7. Neither the frame register EBP nor ESP is in the set |
| X86.ConstraintTableShape | Mosa/Platforms/x86/Architecture.cs:76-91 | The table is keyed by exactly the twelve listed kinds, and the three logical operations have pairwise different constraints |
| X86.TypeRequirementsAgreeWithStackType | Mosa/Platforms/x86/Architecture.cs:291-322 | Types that are one native word on the evaluation stack occupy 32 bits; Int64 types occupy two native words; floats keep their width |
| CpuX86Sbb.ComputeOpCode | Source/Platforms/x86/CPUx86/SbbInstruction.cs:54-62 | Succeeds exactly for register/constant, memory/constant, register/register, memory/register and register/memory. These give `81 /3`, `81 /3`, `19`, `19` and `1B`. Every other combination fails with ArgumentException("No opcode for operand type.") |
| CpuX86Sbb.ComputeOpCodeIsSound | Source/Platforms/x86/CPUx86/SbbInstruction.cs:28-32 | Every opcode selected is one the Intel SBB table lists for those operand forms |
| CpuX86Sbb.ComputeOpCodeIsComplete | Source/Platforms/x86/CPUx86/SbbInstruction.cs:54-62 | Every operand combination the Intel SBB table can encode gets an opcode |
| CpuX86Sbb.SharedEncodings | Source/Platforms/x86/CPUx86/SbbInstruction.cs:28-32 | R_C and M_C share one encoding, and R_R and M_R share another; R_M differs from R_R |
| CpuX86Sbb.ThirdOperandIsIgnored | Source/Platforms/x86/CPUx86/SbbInstruction.cs:54-62 | The third operand never changes the result |
| CpuX86Sbb.UnencodableCombinations | Source/Platforms/x86/CPUx86/SbbInstruction.cs:61 | Memory/memory, a constant destination and a null destination always fail |
| Elf64StringTable.EncodeText | Source/Runtime/Linker/Elf64/Sections/Elf64StringTableSection.cs:82-83 | One byte per character, each the low byte of the character |
| Elf64StringTable.AddStringResult | Source/Runtime/Linker/Elf64/Sections/Elf64StringTableSection.cs:75-87 | The offset is always the old size plus one. An empty text leaves the table unchanged. Otherwise the table grows by the text's bytes and a NUL, and earlier bytes are kept |
| Elf64StringTable.AddedTextIsAddressable | Source/Runtime/Linker/Elf64/Sections/Elf64StringTableSection.cs:75-87 | In the section as written (a NUL, then the table), the offset of a non-empty text addresses that text followed by its NUL |
| Elf64StringTable.AddingPreservesEarlierBytes | Source/Runtime/Linker/Elf64/Sections/Elf64StringTableSection.cs:82-84 | Adding a string leaves every byte the section wrote before in place |
| Elf64StringTable.RepeatedTextGetsNewOffset | Source/Runtime/Linker/Elf64/Sections/Elf64StringTableSection.cs:75-87 | There is no deduplication: adding the same non-empty text twice gives two different offsets |
| Elf64StringTable.AddStringKeepsStringTable | Source/Runtime/Linker/Elf64/Sections/Elf64StringTableSection.cs:82-84 | A table that is empty or ends with NUL still does after any addition |
| Elf64StringTable.SharedStringTable.AddString | Source/Runtime/Linker/Elf64/Sections/Elf64StringTableSection.cs:75-87 | The character-by-character append loop leaves the table and offset given by `AddStringResult` |
| Elf64StringTable.Elf64StringTableSection.constructor | Source/Runtime/Linker/Elf64/Sections/Elf64StringTableSection.cs:41-46 | Name `.shstrtab`, kind Text, type StringTable, flags 0 |
| Elf64StringTable.Elf64StringTableSection.Write | Source/Runtime/Linker/Elf64/Sections/Elf64StringTableSection.cs:52-58 | Writes a NUL followed by the table. Records the stream position, truncated to 32 bits, as the section offset |
| Elf64StringTable.Elf64StringTableSection.Length | Source/Runtime/Linker/Elf64/Sections/Elf64StringTableSection.cs:30-36 | The section length is the shared table's byte count, one less than the number of bytes `Write` emits |
| Elf64StringTable.Elf64StringTableSection.WriteHeader | Source/Runtime/Linker/Elf64/Sections/Elf64StringTableSection.cs:64-68 | The header size becomes `Length`, the table size truncated to 32 bits; nothing else in the header changes |
| Elf64StringTable.EmptyTextOffsetIsNotAnEmptyString | Source/Runtime/Linker/Elf64/Sections/Elf64StringTableSection.cs:77-78 | On an empty table, the offset returned for "" lies past the written section. After "ab" is added, the same offset addresses 'a', not a NUL |
| Elf64StringTable.CorrectedAddString | Source/Runtime/Linker/Elf64/Sections/Elf64StringTableSection.cs:75-87 | Same table as the code; the empty text gets offset 0 |
| Elf64StringTable.CorrectedOffsetsAreAddressable | Source/Runtime/Linker/Elf64/Sections/Elf64StringTableSection.cs:75-87 | With the corrected offset, every text, the empty one included, is found at its offset followed by a NUL |
| Elf64StringTable.HeaderSizeCutsLastTerminator | Source/Runtime/Linker/Elf64/Sections/Elf64StringTableSection.cs:64-68 | After adding "a", the header size is 2 while 3 bytes are written; the last byte the size covers is 'a', not a NUL |
| Elf64StringTable.CorrectedHeaderSize | Source/Runtime/Linker/Elf64/Sections/Elf64StringTableSection.cs:64-68 | The corrected size equals the number of bytes written |
| Elf64StringTable.CorrectedHeaderSizeEndsWithNul | Source/Runtime/Linker/Elf64/Sections/Elf64StringTableSection.cs:64-68 | With the corrected size, the section covers all bytes written and ends with a NUL |
| AotMethodCompilers.AotStageOrder | Source/Tools/Compiler/AotMethodCompiler.cs:47-78 | Decoding is first and code generation last. Without the loggers, the stages are exactly Decoding, BasicBlockBuilder, OperandDetermination, CILTransformation, StackLayout, PlatformStub, LoopAwareBlockOrder, CodeGeneration |
| AotMethodCompilers.LoggerFollowsLoggedStages | Source/Tools/Compiler/AotMethodCompiler.cs:48-73 | A logger follows each of Decoding, BasicBlockBuilder, OperandDetermination, CILTransformation and LoopAwareBlockOrder; every logger follows one of them |
| AotMethodCompilers.IsTypeInitializer | Source/Tools/Compiler/AotMethodCompiler.cs:91-92 | True exactly when SpecialName, RTSpecialName and Static are all set and the name is ".cctor" |
| AotMethodCompilers.MissingFlagIsNotTypeInitializer | Source/Tools/Compiler/AotMethodCompiler.cs:91-92 | A ".cctor" lacking any one of the three flags is not scheduled, whatever its other flags |
| AotMethodCompilers.AotMethodCompiler.constructor | Source/Tools/Compiler/AotMethodCompiler.cs:43-79 | The method's pipeline holds exactly the ahead-of-time stage list |
| AotMethodCompilers.AotMethodCompiler.EndCompile | Source/Tools/Compiler/AotMethodCompiler.cs:88-99 | The method is scheduled exactly when it is a type initializer. The base end-of-compile step runs on every path, after scheduling |
| LinkerMethodCompilers.LinkerPipelineShape | Source/Tools/Compiler/LinkTimeCodeGeneration/LinkerMethodCompiler.cs:35-41 | Nine stages: the four generic ones as a prefix, then the five x86 ones. There is no decoding stage, and the last stage is the x86 code generator |
| LinkerMethodCompilers.LinkerMethodCompiler.constructor | Source/Tools/Compiler/LinkTimeCodeGeneration/LinkerMethodCompiler.cs:31-42 | Keeps the given instruction set, which may be null. The fresh pipeline gets BasicBlockBuilder, PlatformStub, SimpleTraceBlockOrder and CodeGeneration, then the architecture's stages |
| LinkTimeCodeGeneration.GeneratedName | Source/Tools/Compiler/LinkTimeCodeGeneration/LinkTimeCodeGenerator.cs:70 | The requested name behind the `<$>` prefix |
| LinkTimeCodeGeneration.GeneratedNameIsInjective | Source/Tools/Compiler/LinkTimeCodeGeneration/LinkTimeCodeGenerator.cs:70 | Different requested names give different generated names |
| LinkTimeCodeGeneration.LinkTimeCodeGenerator.CompileWithInstructionSet | Source/Tools/Compiler/LinkTimeCodeGeneration/LinkTimeCodeGenerator.cs:55-76 | See the notes below the table |
| LinkTimeCodeGeneration.LinkTimeCodeGenerator.Compile | Source/Tools/Compiler/LinkTimeCodeGeneration/LinkTimeCodeGenerator.cs:41-44 | Behaves exactly as `CompileWithInstructionSet` with a null instruction set |
| DupInstructions.DupResults | Mosa/Runtime/CompilerFramework/IL/DupInstruction.cs:36-38 | Two result slots, each the single operand |
| DupInstructions.DupResultsCountOperandTwice | Mosa/Runtime/CompilerFramework/IL/DupInstruction.cs:36-38 | As a multiset, the results are the operand counted twice |
| DupInstructions.DupInstruction.constructor | Mosa/Runtime/CompilerFramework/IL/DupInstruction.cs:21-22 | One empty operand slot and two empty result slots |
| DupInstructions.DupInstruction.Create | Mosa/Runtime/CompilerFramework/IL/DupInstruction.cs:21-27 | Succeeds exactly for the Dup opcode; any other opcode fails with ArgumentException("Invalid opcode.") |
| DupInstructions.DupInstruction.Validate | Mosa/Runtime/CompilerFramework/IL/DupInstruction.cs:33-39 | Both result slots become the operand; the operands are unchanged |

Notes on `LinkTimeCodeGeneration.LinkTimeCodeGenerator.CompileWithInstructionSet`:

- The errors are checked in this order:
  1. a null compiler gives ArgumentNullException("compiler");
  2. a null name gives ArgumentNullException("methodName");
  3. an empty name gives ArgumentException("Invalid method name.").
- An error changes no state.
- On success:
  - the generated type is created on first use and reused afterwards;
  - exactly one fresh method named `<$>`+name is appended to the type and returned;
  - one linker method compiler runs for it with the given instruction set.

## Left out

- Double dispatch is not modelled. This covers all `Visit` methods (SBB, `dup`), reflection through `Activator.CreateInstance`, and the internals of stages, constraint classes and calling conventions. Stages and constraints are opaque tags.
- `Architecture.ExtendAssemblyCompilerPipeline` is not modelled: its body is empty.
- `Architecture.GetObjectFileBuilders` is not modelled: it is obsolete and returns an empty array.
- `ArchitectureFeatureFlags` is not part of this model, so its numeric values are unknown.
  - Feature flags are a set of named flags.
  - `features == AutoDetect` is read as "exactly the AutoDetect flag".
- `NativeIntegerSize`, `RegisterSet` and `StackFrameRegister` are constants without their own contract. `RegisterSetLayout` and `TypeRequirementsAgreeWithStackType` state their properties.
- Only the x86 architecture stands for `IArchitecture`.
- `MethodCompilerBase` and `BasicArchitecture` are not part of this model.
  - A method compiler's pipeline is assumed to start empty.
  - `base.CreateInstruction` is represented by the tag `BaseInstruction`.
- `Context` is reduced to an instruction index into a map of result and operand slots. Operand subclasses are reduced to a kind: register, memory or constant.
- `Operand.IsStackLocal`, `ToString`, `Equals` and the `Type` property are not modelled. The `StackType` property is `StackTypeFromSigType` applied to the operand's type and has no member of its own. `IsRegister` is not modelled on `Operand`: the base property is always false, and the register subclasses that override it are not part of this model; `CpuX86Sbb` reads the operand kind instead.
- Operands.Operand.Replace: it does not update the definition and use lists; the code leaves them as they are. This model follows the code, not a description that says they are emptied.
- Operands.Operand.Replace: it requires every listed site to exist in the instruction set. The source would fail on a missing index, in code that is not part of this model.
- Operands.Rewritten: its own contract states only that the indices are kept. The slot-level facts are the separate lemma `RewrittenSlots`, which keeps the function cheap to use in the loop proofs.
- Elf64StringTable.SharedStringTable.AddString: it does not reduce the returned offset modulo 2^32. The source returns a `uint`, but the table's `Count` is an `int`, so `Count + 1` cannot wrap.
- Elf64StringTable.LowByte: it takes the Unicode scalar value modulo 256. C# narrows UTF-16 code units, so a character outside the Basic Multilingual Plane becomes two bytes there and one byte here.
- `BinaryWriter` output and `Header.Write` are not modelled. `Write` returns the bytes written, and the header is a record.
- AddString has no deduplication and no fixed sentinel offset for the empty string. This model follows the code, not a description that allows deduplication and a reserved offset.
- `AotMethodCompiler` constructor: the `RuntimeType` parameter and the linker lookup are not modelled.
- AotMethodCompilers.AotMethodCompiler.EndCompile: it assumes the assembly pipeline contains a type initializer scheduler. The source would throw NullReferenceException when `FindFirst` finds none.
- The effects of `base.EndCompile()` are not part of this model; the call is recorded as an event.
- `LinkerMethodCompiler`: the `compiler.Pipeline.FindFirst<IAssemblyLinker>()` lookup is not modelled.
- `LinkTimeCodeGenerator`: `methodCompiler.Compile()`, which runs the pipeline, is not modelled; it is recorded as one entry in `compilations`.
  - A null instruction set is passed through: the code does not check it, although its documentation says it throws.
  - The static field is a field of one generator object.
  - The object invariant `Valid` is required by `Compile` and established by the constructor.
- `DupInstruction`:
  - `Debug.Assert` is not modelled; it would stop debug builds before the throw.
  - The parameter name `code` attached to the ArgumentException is not modelled.
  - `base.Validate` (in `UnaryInstruction`) is not part of this model.
- Elf64StringTable.SharedStringTable.AddString, Operands.StackTypeFromSigType and X86.Architecture.GetRegisterConstraint: a null text, signature type or instruction is excluded by the Dafny types. The source uses these arguments without a null check, so it would throw NullReferenceException.
- Concurrency is not modelled: the static string table and the generated type are shared by one sequential caller.

## Findings

| source | as written | input that shows it | evidently intended | confidence | as-written member | corrected member |
|---|---|---|---|---|---|---|
| Source/Runtime/Linker/Elf64/Sections/Elf64StringTableSection.cs:77-78 | `AddString("")` returns `Count + 1` and adds no bytes | On an empty table, `AddString("")` returns 1 while the section writes one byte. After `AddString("ab")`, offset 1 names "ab" instead of an empty string | Return 0, the leading NUL that a string table reserves for the empty name | not executed; high | Elf64StringTable.EmptyTextOffsetIsNotAnEmptyString | Elf64StringTable.CorrectedAddString |
| Source/Runtime/Linker/Elf64/Sections/Elf64StringTableSection.cs:66 | `WriteHeader` sets the size to `Length`, the table size, but `Write` emits one more byte (the leading NUL) | After `AddString("a")`, 3 bytes are written but the size is 2, so the final NUL terminator lies outside the section | Size `Length + 1`, so the section covers all bytes written and ends with a NUL | not executed; medium | Elf64StringTable.HeaderSizeCutsLastTerminator | Elf64StringTable.CorrectedHeaderSize |
