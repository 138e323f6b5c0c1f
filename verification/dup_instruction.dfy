/** The IL `dup` instruction: one operand, two results, both the operand
    itself once the instruction is validated. */
module DupInstructions {
  import opened Outcomes
  import opened Operands

  /** IL opcodes; only `dup` is distinguished here. */
  datatype OpCode = Nop | Dup | Pop | Ldvirtftn | Ldsflda | OtherOpCode(value: bv16)

  /** The result slots `dup` produces from its operand slots: the single
      operand, twice. */
  function DupResults(operands: seq<Operand?>): (r: seq<Operand?>)
    requires |operands| == 1
    ensures |r| == 2 && forall i :: 0 <= i < |r| ==> r[i] == operands[0]
  {
    [operands[0], operands[0]]
  }

  /** `dup` pushes back exactly what it popped, duplicated: as multisets the
      results are the operands counted twice. */
  lemma DupResultsCountOperandTwice(operands: seq<Operand?>)
    requires |operands| == 1
    ensures multiset(DupResults(operands)) == multiset(operands) + multiset(operands)
  {
    assert operands == [operands[0]];
  }

  class DupInstruction {
    const code: OpCode
    var operands: seq<Operand?>
    var results: seq<Operand?>

    /** A unary instruction with two result slots. */
    predicate Valid()
      reads this
    {
      code == Dup && |operands| == 1 && |results| == 2
    }

    constructor ()
      ensures Valid()
      ensures operands == [null] && results == [null, null]
    {
      code := Dup;
      operands := [null];
      results := [null, null];
    }

    /** Builds a `dup` instruction for `code`; any other opcode is
        rejected. */
    static method Create(code: OpCode) returns (r: Result<DupInstruction>)
      ensures r.Success? <==> code == Dup
      ensures r.Failure? ==> r.error == ArgumentException("Invalid opcode.")
      ensures r.Success? ==> fresh(r.value) && r.value.Valid()
      ensures r.Success? ==> r.value.operands == [null] && r.value.results == [null, null]
    {
      if code != Dup {
        return Failure(ArgumentException("Invalid opcode."));
      }
      var instruction := new DupInstruction();
      return Success(instruction);
    }

    method SetResult(index: nat, operand: Operand?)
      requires index < |results|
      modifies this
      ensures results == old(results)[index := operand] && operands == old(operands)
    {
      results := results[index := operand];
    }

    /** Sets both result slots to the operand; the operands are unchanged. */
    method Validate()
      requires Valid()
      modifies this
      ensures Valid()
      ensures operands == old(operands)
      ensures results == DupResults(operands)
    {
      var ops := operands;
      SetResult(0, ops[0]);
      SetResult(1, ops[0]);
    }
  }
}
