/** Opcode selection for the x86 SBB (integer subtraction with borrow)
    instruction. The encodings follow the Intel 64 and IA-32 Architectures
    Software Developer's Manual, Volume 2, "SBB—Integer Subtraction with
    Borrow": `81 /3 id` (r/m32, imm32), `19 /r` (r/m32, r32) and `1B /r`
    (r32, r/m32). */
module CpuX86Sbb {
  import opened Outcomes
  import opened Operands

  type byte = bv8

  /** An opcode: its bytes and, for the `/digit` forms, the value of the
      ModR/M reg field that extends the opcode. */
  datatype OpCode = OpCode(code: seq<byte>, regField: Option<nat>)

  /** The five operand forms SBB is selected for, by (destination, source)
      storage class. */
  datatype SbbForm = RegisterConstant | MemoryConstant | RegisterRegister | MemoryRegister | RegisterMemory

  /** The static opcode of each form. */
  function Encoding(form: SbbForm): OpCode {
    match form
    case RegisterConstant => OpCode([0x81], Some(3))
    case MemoryConstant => OpCode([0x81], Some(3))
    case RegisterRegister => OpCode([0x19], None)
    case MemoryRegister => OpCode([0x19], None)
    case RegisterMemory => OpCode([0x1B], None)
  }

  /** The latency of SBB in cycles. */
  const Latency: nat := 1

  predicate IsRegister(o: Operand?) {
    o != null && o.kind.RegisterOperand?
  }

  predicate IsMemory(o: Operand?) {
    o != null && o.kind.MemoryOperand?
  }

  predicate IsConstant(o: Operand?) {
    o != null && o.kind.ConstantOperand?
  }

  /** Selects the opcode for the storage classes of the destination and the
      source; the third operand plays no part. */
  function ComputeOpCode(destination: Operand?, source: Operand?, third: Operand?): (r: Result<SbbForm>)
    ensures r.Success? <==>
      || (IsRegister(destination) && (IsConstant(source) || IsRegister(source) || IsMemory(source)))
      || (IsMemory(destination) && (IsConstant(source) || IsRegister(source)))
    ensures r.Failure? ==> r.error == ArgumentException("No opcode for operand type.")
    ensures IsRegister(destination) && IsConstant(source) ==> Encoding(r.value) == OpCode([0x81], Some(3))
    ensures IsMemory(destination) && IsConstant(source) ==> Encoding(r.value) == OpCode([0x81], Some(3))
    ensures IsRegister(destination) && IsRegister(source) ==> Encoding(r.value) == OpCode([0x19], None)
    ensures IsMemory(destination) && IsRegister(source) ==> Encoding(r.value) == OpCode([0x19], None)
    ensures IsRegister(destination) && IsMemory(source) ==> Encoding(r.value) == OpCode([0x1B], None)
  {
    if IsRegister(destination) && IsConstant(source) then Success(RegisterConstant)
    else if IsMemory(destination) && IsConstant(source) then Success(MemoryConstant)
    else if IsRegister(destination) && IsRegister(source) then Success(RegisterRegister)
    else if IsMemory(destination) && IsRegister(source) then Success(MemoryRegister)
    else if IsRegister(destination) && IsMemory(source) then Success(RegisterMemory)
    else Failure(ArgumentException("No opcode for operand type."))
  }

  /** Operand forms of the instruction reference: a register or memory
      operand, a register, or an immediate. */
  datatype OperandForm = RegisterOrMemory32 | Register32 | Immediate32

  /** One row of the instruction reference's opcode table. */
  datatype ReferenceForm = ReferenceForm(opcode: OpCode, destination: OperandForm, source: OperandForm)

  /** The 32-bit, full-immediate rows of the SBB opcode table. */
  const ReferenceForms: seq<ReferenceForm> := [
    ReferenceForm(OpCode([0x81], Some(3)), RegisterOrMemory32, Immediate32),
    ReferenceForm(OpCode([0x19], None), RegisterOrMemory32, Register32),
    ReferenceForm(OpCode([0x1B], None), Register32, RegisterOrMemory32)
  ]

  predicate Fits(form: OperandForm, o: Operand?) {
    match form
    case RegisterOrMemory32 => IsRegister(o) || IsMemory(o)
    case Register32 => IsRegister(o)
    case Immediate32 => IsConstant(o)
  }

  /** Some row of the reference encodes these operands with this opcode. */
  predicate ReferenceEncodes(opcode: OpCode, destination: Operand?, source: Operand?) {
    exists i :: 0 <= i < |ReferenceForms| && ReferenceForms[i].opcode == opcode
      && Fits(ReferenceForms[i].destination, destination) && Fits(ReferenceForms[i].source, source)
  }

  /** Some row of the reference accepts these operands. */
  predicate ReferenceAccepts(destination: Operand?, source: Operand?) {
    exists i :: 0 <= i < |ReferenceForms|
      && Fits(ReferenceForms[i].destination, destination) && Fits(ReferenceForms[i].source, source)
  }

  /** Every opcode selected is one the instruction reference gives for those
      operands. */
  lemma ComputeOpCodeIsSound(destination: Operand?, source: Operand?, third: Operand?)
    requires ComputeOpCode(destination, source, third).Success?
    ensures ReferenceEncodes(Encoding(ComputeOpCode(destination, source, third).value), destination, source)
  {
    match ComputeOpCode(destination, source, third).value
    case RegisterConstant => assert ReferenceForms[0].opcode == Encoding(RegisterConstant);
    case MemoryConstant => assert ReferenceForms[0].opcode == Encoding(MemoryConstant);
    case RegisterRegister => assert ReferenceForms[1].opcode == Encoding(RegisterRegister);
    case MemoryRegister => assert ReferenceForms[1].opcode == Encoding(MemoryRegister);
    case RegisterMemory => assert ReferenceForms[2].opcode == Encoding(RegisterMemory);
  }

  /** Every operand combination the instruction reference can encode gets an
      opcode. */
  lemma ComputeOpCodeIsComplete(destination: Operand?, source: Operand?, third: Operand?)
    requires ReferenceAccepts(destination, source)
    ensures ComputeOpCode(destination, source, third).Success?
  {
    var i :| 0 <= i < |ReferenceForms|
      && Fits(ReferenceForms[i].destination, destination) && Fits(ReferenceForms[i].source, source);
    assert i == 0 || i == 1 || i == 2;
  }

  /** The constant-source forms share one encoding, and so do the
      register-source forms with a register or memory destination. */
  lemma SharedEncodings()
    ensures Encoding(RegisterConstant) == Encoding(MemoryConstant)
    ensures Encoding(RegisterRegister) == Encoding(MemoryRegister)
    ensures Encoding(RegisterMemory) != Encoding(RegisterRegister)
  {
  }

  /** The third operand plays no part in the selection. */
  lemma ThirdOperandIsIgnored(destination: Operand?, source: Operand?, third: Operand?, other: Operand?)
    ensures ComputeOpCode(destination, source, third) == ComputeOpCode(destination, source, other)
  {
  }

  /** Memory-to-memory and constant destinations are never encodable. */
  lemma UnencodableCombinations(destination: Operand?, source: Operand?, third: Operand?)
    requires (IsMemory(destination) && IsMemory(source)) || IsConstant(destination) || destination == null
    ensures ComputeOpCode(destination, source, third) == Failure(ArgumentException("No opcode for operand type."))
  {
  }
}
