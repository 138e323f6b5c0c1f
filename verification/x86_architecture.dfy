/** The x86 platform descriptor: register set, native word size, type
    layout, the constraint table consulted by register allocation, calling
    conventions, instruction substitution and the x86 pipeline stages. */
module X86 {
  import opened Outcomes
  import opened Metadata
  import opened X86Registers
  import opened Pipelines
  import Operands

  /** The allocatable registers: six 32-bit general purpose registers, then
      the eight SSE2 registers. The MMX registers are not used. */
  const Registers: seq<Register> :=
    [EAX, ECX, EDX, EBX, ESI, EDI, XMM0, XMM1, XMM2, XMM3, XMM4, XMM5, XMM6, XMM7]

  /** Architecture feature flags; a flag set is the set of flags raised. */
  datatype Feature = AutoDetect | MMX | SSE | OtherFeature(bit: nat)

  type FeatureFlags = set<Feature>

  /** The instruction kinds that the constraint table and the instruction
      factory are keyed by. `Move` is the IR move instruction; the others are
      x86 instructions. */
  datatype InstructionKind =
    | Add | Adc | Sub | Sbb | Mul | Div | Sar | Shl | Shr
    | LogicalAnd | LogicalOr | LogicalXor | Move | Int
    | OtherInstruction(name: string)

  /** The register constraint rules, as opaque tags. */
  datatype ConstraintKind =
    | GPRConstraint | DivConstraint | LogicalAndConstraint | LogicalOrConstraint
    | LogicalXorConstraint | MoveConstraint | MulConstraint | ShiftConstraint

  /** Instruction kind to register constraint. */
  const Constraints: map<InstructionKind, ConstraintKind> := map[
    Add := GPRConstraint,
    Adc := GPRConstraint,
    Div := DivConstraint,
    LogicalAnd := LogicalAndConstraint,
    LogicalOr := LogicalOrConstraint,
    LogicalXor := LogicalXorConstraint,
    Move := MoveConstraint,
    Mul := MulConstraint,
    Sar := ShiftConstraint,
    Shl := ShiftConstraint,
    Shr := ShiftConstraint,
    Sub := GPRConstraint
  ]

  /** Generic instruction kind to x86-specific instruction kind; empty, so
      every instruction is created by the architecture-independent factory. */
  const IrTypes: map<InstructionKind, InstructionKind> := map[]

  /** The stages the x86 platform appends to every method pipeline. */
  const MethodStages: seq<Stage> :=
    [LongOperandTransformation, IRToX86Transformation, InstructionScheduling, InstructionLogger, CodeGenerator]

  datatype TypeRequirements = TypeRequirements(size: nat, alignment: nat)

  /** How an instruction is created: from the substitution table or by the
      architecture-independent factory. */
  datatype CreatedInstruction = SubstitutedInstruction(kind: InstructionKind) | BaseInstruction(kind: InstructionKind)

  /** Looks an instruction kind up in a substitution table. */
  function Substitution(table: map<InstructionKind, InstructionKind>, kind: InstructionKind): CreatedInstruction {
    if kind in table then SubstitutedInstruction(table[kind]) else BaseInstruction(kind)
  }

  datatype CallingConventionObject = DefaultCallingConvention(architecture: Architecture)

  /** Creates the x86 architecture; AutoDetect alone stands for MMX and SSE. */
  function CreateArchitecture(features: FeatureFlags): (a: Architecture)
    ensures features == {AutoDetect} ==> a.features == {MMX, SSE}
    ensures features != {AutoDetect} ==> a.features == features
  {
    if features == {AutoDetect} then Architecture({MMX, SSE}) else Architecture(features)
  }

  /** Resolving the flags a second time changes nothing. */
  lemma CreateArchitectureIsIdempotent(features: FeatureFlags)
    ensures CreateArchitecture(CreateArchitecture(features).features) == CreateArchitecture(features)
  {
  }

  datatype Architecture = Architecture(features: FeatureFlags) {

    /** The native integer size in bits. */
    function NativeIntegerSize(): nat {
      32
    }

    function RegisterSet(): seq<Register> {
      Registers
    }

    function StackFrameRegister(): Register {
      EBP
    }

    /** Creates an instruction of the given kind, preferring an x86-specific
        substitute when the substitution table names one. */
    function CreateInstruction(kind: InstructionKind): (r: CreatedInstruction)
      ensures r == BaseInstruction(kind)
    {
      Substitution(IrTypes, kind)
    }

    /** Every result operand lives in EAX, whatever its type, label and
        stack index. */
    method CreateResultOperand(sigType: SigType, instructionLabel: int, stackIndex: int) returns (operand: Operands.Operand)
      ensures fresh(operand)
      ensures operand.sigType == sigType && operand.kind == Operands.RegisterOperand(EAX)
      ensures operand.definitions == null && operand.uses == null
    {
      operand := new Operands.Operand(sigType, Operands.RegisterOperand(EAX));
    }

    /** Appends the x86 stages to a method compiler pipeline. */
    method ExtendMethodCompilerPipeline(methodPipeline: CompilerPipeline)
      modifies methodPipeline
      ensures methodPipeline.stages == old(methodPipeline.stages) + MethodStages
    {
      methodPipeline.AddRange(MethodStages);
    }

    /** Only the default calling convention is supported. */
    function GetCallingConvention(cc: CallingConvention): (r: Result<CallingConventionObject>)
      ensures r.Success? <==> cc == Default
      ensures r.Success? ==> r.value.architecture == this
      ensures r.Failure? ==> r.error == NotSupportedException
    {
      match cc
      case Default => Success(DefaultCallingConvention(this))
      case _ => Failure(NotSupportedException)
    }

    /** The register constraint of an instruction kind, or None when the
        instruction is unconstrained. */
    function GetRegisterConstraint(kind: InstructionKind): (r: Option<ConstraintKind>)
      ensures r.Some? <==> kind in {Add, Adc, Sub, Div, Mul, Move, Sar, Shl, Shr, LogicalAnd, LogicalOr, LogicalXor}
      ensures kind in {Add, Adc, Sub} ==> r == Some(GPRConstraint)
      ensures kind in {Sar, Shl, Shr} ==> r == Some(ShiftConstraint)
      ensures kind == Div ==> r == Some(DivConstraint)
      ensures kind == Mul ==> r == Some(MulConstraint)
      ensures kind == Move ==> r == Some(MoveConstraint)
      ensures kind == LogicalAnd ==> r == Some(LogicalAndConstraint)
      ensures kind == LogicalOr ==> r == Some(LogicalOrConstraint)
      ensures kind == LogicalXor ==> r == Some(LogicalXorConstraint)
    {
      if kind in Constraints then Some(Constraints[kind]) else None
    }

    /** Size and alignment, in bytes, of a value of the given type. */
    function GetTypeRequirements(sigType: Option<SigType>): (r: Result<TypeRequirements>)
      ensures sigType.None? ==> r == Failure(ArgumentNullException("type"))
      ensures sigType == Some(SigType(ValueType)) ==> r == Failure(NotSupportedException)
      ensures r.Success? <==> sigType.Some? && sigType.value.elementType != ValueType
      ensures r.Success? ==> r.value.size == r.value.alignment
      ensures r.Success? ==> (r.value.size == 8 <==> sigType.value.elementType in {R8, I8, U8})
      ensures r.Success? ==> (r.value.size == 4 <==> sigType.value.elementType !in {R8, I8, U8})
    {
      match sigType
      case None => Failure(ArgumentNullException("type"))
      case Some(t) =>
        match t.elementType
        case R4 => Success(TypeRequirements(4, 4))
        case R8 => Success(TypeRequirements(8, 8))
        case I8 => Success(TypeRequirements(8, 8))
        case U8 => Success(TypeRequirements(8, 8))
        case ValueType => Failure(NotSupportedException)
        case _ => Success(TypeRequirements(4, 4))
    }
  }

  /** The fixed register set: fourteen distinct registers, the general purpose
      ones first, and the frame register outside of it. */
  lemma RegisterSetLayout(arch: Architecture)
    ensures |arch.RegisterSet()| == 14
    ensures forall i, j :: 0 <= i < j < 14 ==> arch.RegisterSet()[i] != arch.RegisterSet()[j]
    ensures forall i :: 0 <= i < 6 ==> IsGeneralPurpose(arch.RegisterSet()[i])
    ensures forall i :: 6 <= i < 14 ==> IsSse2(arch.RegisterSet()[i])
    ensures arch.StackFrameRegister() !in arch.RegisterSet()
    ensures ESP !in arch.RegisterSet()
  {
  }

  /** The constraint table is keyed by exactly the twelve listed kinds, and
      the three logical operations each have a constraint of their own. */
  lemma ConstraintTableShape()
    ensures Constraints.Keys == {Add, Adc, Sub, Mul, Div, Sar, Shl, Shr, LogicalAnd, LogicalOr, LogicalXor, Move}
    ensures Constraints[LogicalAnd] != Constraints[LogicalOr]
    ensures Constraints[LogicalOr] != Constraints[LogicalXor]
    ensures Constraints[LogicalAnd] != Constraints[LogicalXor]
  {
  }

  /** Scalars that occupy one stack slot of native size are laid out in one
      native word; 64-bit integers take two words; floats keep their width. */
  lemma TypeRequirementsAgreeWithStackType(arch: Architecture, sigType: SigType)
    requires sigType.elementType != ValueType
    requires Operands.StackTypeFromSigType(sigType).Success?
    ensures var size := arch.GetTypeRequirements(Some(sigType)).value.size;
      && (Operands.StackTypeFromSigType(sigType).value in {Operands.Int32, Operands.N, Operands.StackTypeCode.Ptr, Operands.O, Operands.Unknown}
          ==> size * 8 == arch.NativeIntegerSize())
      && (Operands.StackTypeFromSigType(sigType).value == Operands.Int64 ==> size * 8 == 2 * arch.NativeIntegerSize())
      && (sigType.elementType == R4 ==> size == 4)
      && (sigType.elementType == R8 ==> size == 8)
  {
  }
}
