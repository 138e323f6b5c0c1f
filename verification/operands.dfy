/** Operands of IR instructions: the mapping between signature types and
    evaluation-stack types (ECMA-335 Partition III, section 1.1), the lazily
    created definition and use lists of an operand, and the in-place
    replacement of an operand at all of its definition and use sites. */
module Operands {
  import opened Outcomes
  import opened Metadata
  import opened X86Registers

  /** The evaluation-stack type codes. */
  datatype StackTypeCode = Unknown | Int32 | Int64 | N | F | Ptr | O

  /** Maps a signature type to the type it has on the evaluation stack.
      Composite and generic element types are not supported. */
  function StackTypeFromSigType(sigType: SigType): (r: Result<StackTypeCode>)
    ensures r == Success(Int32) <==> sigType.elementType in {Boolean, Char, I1, U1, I2, U2, I4, U4}
    ensures r == Success(Int64) <==> sigType.elementType in {I8, U8}
    ensures r == Success(F) <==> sigType.elementType in {R4, R8}
    ensures r == Success(N) <==> sigType.elementType in {I, U}
    ensures r == Success(StackTypeCode.Ptr) <==> sigType.elementType in {CilElementType.Ptr, ByRef}
    ensures r == Success(O) <==> sigType.elementType in {Object, String, ValueType, Type, Class}
    ensures r == Success(Unknown) <==> sigType.elementType == Void
    ensures r.Failure? ==> r.error == NotSupportedException
  {
    match sigType.elementType
    case Void => Success(Unknown)
    case Boolean => Success(Int32)
    case Char => Success(Int32)
    case I1 => Success(Int32)
    case U1 => Success(Int32)
    case I2 => Success(Int32)
    case U2 => Success(Int32)
    case I4 => Success(Int32)
    case U4 => Success(Int32)
    case I8 => Success(Int64)
    case U8 => Success(Int64)
    case R4 => Success(F)
    case R8 => Success(F)
    case I => Success(N)
    case U => Success(N)
    case Ptr => Success(StackTypeCode.Ptr)
    case ByRef => Success(StackTypeCode.Ptr)
    case Object => Success(O)
    case String => Success(O)
    case ValueType => Success(O)
    case Type => Success(O)
    case Class => Success(O)
    case _ => Failure(NotSupportedException)
  }

  /** Maps a stack type back to a canonical signature type; the stack type
      of the result is the code that was given. */
  function SigTypeFromStackType(typeCode: StackTypeCode): (r: Result<SigType>)
    ensures r.Success? <==> typeCode in {Int32, Int64, F, O, N}
    ensures r.Failure? ==> r.error == NotSupportedException
    ensures r.Success? ==> StackTypeFromSigType(r.value) == Success(typeCode)
    ensures typeCode == Int32 ==> r == Success(SigType(I4))
    ensures typeCode == Int64 ==> r == Success(SigType(I8))
    ensures typeCode == F ==> r == Success(SigType(R8))
    ensures typeCode == O ==> r == Success(SigType(Object))
    ensures typeCode == N ==> r == Success(SigType(I))
  {
    match typeCode
    case Int32 => Success(SigType(I4))
    case Int64 => Success(SigType(I8))
    case F => Success(SigType(R8))
    case O => Success(SigType(Object))
    case N => Success(SigType(I))
    case _ => Failure(NotSupportedException)
  }

  /** Converting a signature type to its stack type, back to a signature type
      and again to a stack type reproduces the first stack type whenever the
      middle conversion is defined. */
  lemma StackTypeRoundTripIsStable(sigType: SigType)
    requires StackTypeFromSigType(sigType).Success?
    requires SigTypeFromStackType(StackTypeFromSigType(sigType).value).Success?
    ensures StackTypeFromSigType(SigTypeFromStackType(StackTypeFromSigType(sigType).value).value)
            == StackTypeFromSigType(sigType)
  {
  }

  /** The storage class of an operand. */
  datatype OperandKind =
    | RegisterOperand(register: Register)
    | MemoryOperand(base: Register, offset: int)
    | ConstantOperand(value: int)

  /** A growable list of instruction indices, shared by reference. */
  class IntList {
    var items: seq<int>

    constructor ()
      ensures items == []
    {
      items := [];
    }
  }

  /** The result and operand slots of one instruction. */
  datatype InstructionSlots = InstructionSlots(results: seq<Operand?>, operands: seq<Operand?>)

  /** The instructions of one method, addressed by index. */
  class InstructionSet {
    var instructions: map<int, InstructionSlots>

    constructor (instructions: map<int, InstructionSlots>)
      ensures this.instructions == instructions
    {
      this.instructions := instructions;
    }

    method SetResult(index: int, opIdx: nat, operand: Operand?)
      requires index in instructions && opIdx < |instructions[index].results|
      modifies this
      ensures instructions == old(instructions)[index :=
        old(instructions)[index].(results := old(instructions)[index].results[opIdx := operand])]
    {
      var slots := instructions[index];
      instructions := instructions[index := slots.(results := slots.results[opIdx := operand])];
    }

    method SetOperand(index: int, opIdx: nat, operand: Operand?)
      requires index in instructions && opIdx < |instructions[index].operands|
      modifies this
      ensures instructions == old(instructions)[index :=
        old(instructions)[index].(operands := old(instructions)[index].operands[opIdx := operand])]
    {
      var slots := instructions[index];
      instructions := instructions[index := slots.(operands := slots.operands[opIdx := operand])];
    }
  }

  /** The slots with every occurrence of `target` (compared by reference)
      replaced by `replacement`. */
  function Substitute(slots: seq<Operand?>, target: Operand, replacement: Operand?): (r: seq<Operand?>)
    ensures |r| == |slots|
    ensures forall i :: 0 <= i < |slots| && slots[i] == target ==> r[i] == replacement
    ensures forall i :: 0 <= i < |slots| && slots[i] != target ==> r[i] == slots[i]
  {
    if slots == [] then []
    else [if slots[0] == target then replacement else slots[0]] + Substitute(slots[1..], target, replacement)
  }

  /** Substituting twice is substituting once. */
  lemma SubstituteIdempotent(slots: seq<Operand?>, target: Operand, replacement: Operand?)
    ensures Substitute(Substitute(slots, target, replacement), target, replacement)
            == Substitute(slots, target, replacement)
  {
  }

  /** The slots after the first `k` have been visited by the rewriting
      loop: substituted before `k`, as they were from `k` on. */
  function Partial(slots: seq<Operand?>, k: nat, target: Operand, replacement: Operand?): (r: seq<Operand?>)
    requires k <= |slots|
    ensures k == 0 ==> r == slots
    ensures k == |slots| ==> r == Substitute(slots, target, replacement)
  {
    assert k == 0 ==> slots[..k] == [] && slots[k..] == slots;
    assert k == |slots| ==> slots[..k] == slots && slots[k..] == [];
    Substitute(slots[..k], target, replacement) + slots[k..]
  }

  /** Visiting slot `k` rewrites it when it holds `target`, and changes
      nothing otherwise. */
  lemma PartialStep(slots: seq<Operand?>, k: nat, target: Operand, replacement: Operand?)
    requires k < |slots|
    ensures slots[k] == target ==>
      Partial(slots, k + 1, target, replacement) == Partial(slots, k, target, replacement)[k := replacement]
    ensures slots[k] != target ==>
      Partial(slots, k + 1, target, replacement) == Partial(slots, k, target, replacement)
  {
    var before := Partial(slots, k, target, replacement);
    var after := Partial(slots, k + 1, target, replacement);
    assert |before| == |after| == |slots|;
    forall i | 0 <= i < |slots|
      ensures after[i] == (if i == k && slots[k] == target then replacement else before[i])
    {
      if i < k {
        assert after[i] == Substitute(slots[..k + 1], target, replacement)[i];
        assert before[i] == Substitute(slots[..k], target, replacement)[i];
      }
    }
  }

  /** One visit of the result-rewriting loop, stated on the instruction
      map as `SetResult` changes it. */
  lemma ResultSlotStep(start: map<int, InstructionSlots>, index: int, slots: InstructionSlots, k: nat,
                       target: Operand, replacement: Operand?)
    requires k < |slots.results|
    ensures var cur := start[index := slots.(results := Partial(slots.results, k, target, replacement))];
      var next := start[index := slots.(results := Partial(slots.results, k + 1, target, replacement))];
      && (slots.results[k] == target ==> next == cur[index := cur[index].(results := cur[index].results[k := replacement])])
      && (slots.results[k] != target ==> next == cur)
  {
    PartialStep(slots.results, k, target, replacement);
  }

  /** One visit of the operand-rewriting loop, stated on the instruction
      map as `SetOperand` changes it. */
  lemma OperandSlotStep(start: map<int, InstructionSlots>, index: int, slots: InstructionSlots, k: nat,
                        target: Operand, replacement: Operand?)
    requires k < |slots.operands|
    ensures var cur := start[index := slots.(operands := Partial(slots.operands, k, target, replacement))];
      var next := start[index := slots.(operands := Partial(slots.operands, k + 1, target, replacement))];
      && (slots.operands[k] == target ==> next == cur[index := cur[index].(operands := cur[index].operands[k := replacement])])
      && (slots.operands[k] != target ==> next == cur)
  {
    PartialStep(slots.operands, k, target, replacement);
  }

  /** The instruction map with the result slots rewritten at the given sites. */
  function RewriteResults(m: map<int, InstructionSlots>, sites: seq<int>, target: Operand, replacement: Operand?): map<int, InstructionSlots>
  {
    map index | index in m ::
      if index in sites then m[index].(results := Substitute(m[index].results, target, replacement)) else m[index]
  }

  /** The instruction map with the operand slots rewritten at the given sites. */
  function RewriteOperands(m: map<int, InstructionSlots>, sites: seq<int>, target: Operand, replacement: Operand?): map<int, InstructionSlots>
  {
    map index | index in m ::
      if index in sites then m[index].(operands := Substitute(m[index].operands, target, replacement)) else m[index]
  }

  /** The effect of replacing `target` by `replacement` at the definition
      sites `defs` (result slots) and the use sites `uses` (operand slots). */
  function Rewritten(m: map<int, InstructionSlots>, defs: seq<int>, uses: seq<int>, target: Operand, replacement: Operand?): (r: map<int, InstructionSlots>)
    ensures r.Keys == m.Keys
  {
    RewriteOperands(RewriteResults(m, defs, target, replacement), uses, target, replacement)
  }

  /** A replacement rewrites exactly the slots that held `target` in the
      result slots of the definition sites and the operand slots of the use
      sites; every other slot, and every instruction not listed, is left as
      it was. */
  lemma RewrittenSlots(m: map<int, InstructionSlots>, defs: seq<int>, uses: seq<int>, target: Operand, replacement: Operand?)
    ensures var r := Rewritten(m, defs, uses, target, replacement);
      && r.Keys == m.Keys
      && (forall index :: index in m ==>
            |r[index].results| == |m[index].results| && |r[index].operands| == |m[index].operands|)
      && (forall index, i ::
            index in m && index in defs && 0 <= i < |m[index].results| && m[index].results[i] == target
            ==> r[index].results[i] == replacement)
      && (forall index, i ::
            index in m && index in uses && 0 <= i < |m[index].operands| && m[index].operands[i] == target
            ==> r[index].operands[i] == replacement)
      && (forall index, i ::
            index in m && 0 <= i < |m[index].results| && m[index].results[i] != target
            ==> r[index].results[i] == m[index].results[i])
      && (forall index, i ::
            index in m && 0 <= i < |m[index].operands| && m[index].operands[i] != target
            ==> r[index].operands[i] == m[index].operands[i])
      && (forall index :: index in m && index !in defs ==> r[index].results == m[index].results)
      && (forall index :: index in m && index !in uses ==> r[index].operands == m[index].operands)
  {
  }

  /** Rewriting the results at one more site, as the loop over definition
      sites does; a site listed twice is rewritten again without effect. */
  lemma RewriteResultsStep(m: map<int, InstructionSlots>, sites: seq<int>, k: nat, target: Operand, replacement: Operand?)
    requires k < |sites| && sites[k] in m
    ensures var cur := RewriteResults(m, sites[..k], target, replacement);
      RewriteResults(m, sites[..k + 1], target, replacement)
      == cur[sites[k] := cur[sites[k]].(results := Substitute(cur[sites[k]].results, target, replacement))]
  {
    assert sites[..k + 1] == sites[..k] + [sites[k]];
    SubstituteIdempotent(m[sites[k]].results, target, replacement);
  }

  /** Rewriting the operands at one more site, as the loop over use sites
      does. */
  lemma RewriteOperandsStep(m: map<int, InstructionSlots>, sites: seq<int>, k: nat, target: Operand, replacement: Operand?)
    requires k < |sites| && sites[k] in m
    ensures var cur := RewriteOperands(m, sites[..k], target, replacement);
      RewriteOperands(m, sites[..k + 1], target, replacement)
      == cur[sites[k] := cur[sites[k]].(operands := Substitute(cur[sites[k]].operands, target, replacement))]
  {
    assert sites[..k + 1] == sites[..k] + [sites[k]];
    SubstituteIdempotent(m[sites[k]].operands, target, replacement);
  }

  /** Replacing an operand by itself changes no instruction. */
  lemma ReplaceWithSelfIsIdentity(m: map<int, InstructionSlots>, defs: seq<int>, uses: seq<int>, target: Operand)
    ensures Rewritten(m, defs, uses, target, target) == m
  {
    var r := Rewritten(m, defs, uses, target, target);
    forall index | index in m
      ensures r[index] == m[index]
    {
      assert r[index].results == m[index].results;
      assert r[index].operands == m[index].operands;
    }
  }

  /** Replacing twice with the same arguments is replacing once. */
  lemma ReplaceIsIdempotent(m: map<int, InstructionSlots>, defs: seq<int>, uses: seq<int>, target: Operand, replacement: Operand?)
    ensures var once := Rewritten(m, defs, uses, target, replacement);
      Rewritten(once, defs, uses, target, replacement) == once
  {
    var once := Rewritten(m, defs, uses, target, replacement);
    var twice := Rewritten(once, defs, uses, target, replacement);
    forall index | index in once
      ensures twice[index] == once[index]
    {
      assert twice[index].results == once[index].results;
      assert twice[index].operands == once[index].operands;
    }
  }

  /** After a replacement by a different operand, no listed site still
      refers to the replaced operand. */
  lemma ReplaceLeavesNoStaleReference(m: map<int, InstructionSlots>, defs: seq<int>, uses: seq<int>, target: Operand, replacement: Operand?)
    requires replacement != target
    ensures var r := Rewritten(m, defs, uses, target, replacement);
      (forall index :: index in r && index in defs ==> target !in r[index].results)
      && (forall index :: index in r && index in uses ==> target !in r[index].operands)
  {
    var r := Rewritten(m, defs, uses, target, replacement);
    forall index | index in r && index in defs
      ensures target !in r[index].results
    {
      forall i | 0 <= i < |r[index].results|
        ensures r[index].results[i] != target
      {
        assert m[index].results[i] == target || m[index].results[i] != target;
      }
    }
    forall index | index in r && index in uses
      ensures target !in r[index].operands
    {
      forall i | 0 <= i < |r[index].operands|
        ensures r[index].operands[i] != target
      {
        assert m[index].operands[i] == target || m[index].operands[i] != target;
      }
    }
  }

  /** An IR operand: a typed storage location that knows the instructions
      that define and use it. */
  class Operand {
    const sigType: SigType
    const kind: OperandKind
    var definitions: IntList?
    var uses: IntList?

    constructor (sigType: SigType, kind: OperandKind)
      ensures this.sigType == sigType && this.kind == kind
      ensures definitions == null && uses == null
    {
      this.sigType := sigType;
      this.kind := kind;
      definitions := null;
      uses := null;
    }

    /** The indices of the instructions that define this operand. */
    ghost function DefSites(): seq<int>
      reads this, definitions
    {
      if definitions == null then [] else definitions.items
    }

    /** The indices of the instructions that use this operand. */
    ghost function UseSites(): seq<int>
      reads this, uses
    {
      if uses == null then [] else uses.items
    }

    /** The list of defining instructions, created empty on first access. */
    method Definitions() returns (list: IntList)
      modifies this`definitions
      ensures definitions == list
      ensures old(definitions) != null ==> list == old(definitions)
      ensures old(definitions) == null ==> fresh(list) && list.items == []
    {
      if definitions == null {
        definitions := new IntList();
      }
      list := definitions;
    }

    /** The list of using instructions, created empty on first access. */
    method Uses() returns (list: IntList)
      modifies this`uses
      ensures uses == list
      ensures old(uses) != null ==> list == old(uses)
      ensures old(uses) == null ==> fresh(list) && list.items == []
    {
      if uses == null {
        uses := new IntList();
      }
      list := uses;
    }

    /** Rewrites every result slot of instruction `index` that holds this
        operand. */
    method ReplaceInResults(index: int, replacement: Operand?, instructionSet: InstructionSet)
      requires index in instructionSet.instructions
      modifies instructionSet
      ensures instructionSet.instructions == old(instructionSet.instructions)[index :=
        old(instructionSet.instructions)[index].(results :=
          Substitute(old(instructionSet.instructions)[index].results, this, replacement))]
    {
      ghost var start := instructionSet.instructions;
      var slots := instructionSet.instructions[index];
      var results := slots.results;
      assert start == start[index := slots.(results := Partial(results, 0, this, replacement))];
      var opIdx := 0;
      while opIdx < |results|
        invariant 0 <= opIdx <= |results|
        invariant instructionSet.instructions
          == start[index := slots.(results := Partial(results, opIdx, this, replacement))]
      {
        ResultSlotStep(start, index, slots, opIdx, this, replacement);
        if results[opIdx] == this {
          instructionSet.SetResult(index, opIdx, replacement);
        }
        opIdx := opIdx + 1;
      }
    }

    /** Rewrites every operand slot of instruction `index` that holds this
        operand. */
    method ReplaceInOperands(index: int, replacement: Operand?, instructionSet: InstructionSet)
      requires index in instructionSet.instructions
      modifies instructionSet
      ensures instructionSet.instructions == old(instructionSet.instructions)[index :=
        old(instructionSet.instructions)[index].(operands :=
          Substitute(old(instructionSet.instructions)[index].operands, this, replacement))]
    {
      ghost var start := instructionSet.instructions;
      var slots := instructionSet.instructions[index];
      var operands := slots.operands;
      assert start == start[index := slots.(operands := Partial(operands, 0, this, replacement))];
      var opIdx := 0;
      while opIdx < |operands|
        invariant 0 <= opIdx <= |operands|
        invariant instructionSet.instructions
          == start[index := slots.(operands := Partial(operands, opIdx, this, replacement))]
      {
        OperandSlotStep(start, index, slots, opIdx, this, replacement);
        if operands[opIdx] == this {
          instructionSet.SetOperand(index, opIdx, replacement);
        }
        opIdx := opIdx + 1;
      }
    }

    /** Rewrites the result slots at each of the given definition sites. */
    method ReplaceAtDefinitions(sites: seq<int>, replacement: Operand?, instructionSet: InstructionSet)
      requires forall j :: 0 <= j < |sites| ==> sites[j] in instructionSet.instructions
      modifies instructionSet
      ensures instructionSet.instructions == RewriteResults(old(instructionSet.instructions), sites, this, replacement)
    {
      ghost var start := instructionSet.instructions;
      for k := 0 to |sites|
        invariant instructionSet.instructions == RewriteResults(start, sites[..k], this, replacement)
      {
        RewriteResultsStep(start, sites, k, this, replacement);
        ReplaceInResults(sites[k], replacement, instructionSet);
      }
      assert sites[..|sites|] == sites;
    }

    /** Rewrites the operand slots at each of the given use sites. */
    method ReplaceAtUses(sites: seq<int>, replacement: Operand?, instructionSet: InstructionSet)
      requires forall j :: 0 <= j < |sites| ==> sites[j] in instructionSet.instructions
      modifies instructionSet
      ensures instructionSet.instructions == RewriteOperands(old(instructionSet.instructions), sites, this, replacement)
    {
      ghost var start := instructionSet.instructions;
      for k := 0 to |sites|
        invariant instructionSet.instructions == RewriteOperands(start, sites[..k], this, replacement)
      {
        RewriteOperandsStep(start, sites, k, this, replacement);
        ReplaceInOperands(sites[k], replacement, instructionSet);
      }
      assert sites[..|sites|] == sites;
    }

    /** Replaces this operand by `replacement` in every result slot of its
        definition sites, then in every operand slot of its use sites. The
        definition and use lists keep their contents; a list that was absent
        is created empty by its getter. */
    method Replace(replacement: Operand?, instructionSet: InstructionSet)
      requires forall index :: index in DefSites() ==> index in instructionSet.instructions
      requires forall index :: index in UseSites() ==> index in instructionSet.instructions
      modifies this`definitions, this`uses, instructionSet
      ensures instructionSet.instructions
        == Rewritten(old(instructionSet.instructions), old(DefSites()), old(UseSites()), this, replacement)
      ensures old(definitions) != null ==> definitions == old(definitions)
      ensures old(definitions) == null ==> definitions != null && fresh(definitions)
      ensures old(uses) != null ==> uses == old(uses)
      ensures old(uses) == null ==> uses != null && fresh(uses)
      ensures DefSites() == old(DefSites()) && UseSites() == old(UseSites())
    {
      ghost var start := instructionSet.instructions;
      ghost var defsBefore, usesBefore := DefSites(), UseSites();
      assert forall index :: index in defsBefore ==> index in start;
      assert forall index :: index in usesBefore ==> index in start;
      var defs := Definitions();
      var defSites := defs.items;
      assert defSites == defsBefore;
      forall j | 0 <= j < |defSites|
        ensures defSites[j] in start
      {
        assert defSites[j] in defsBefore;
      }
      ReplaceAtDefinitions(defSites, replacement, instructionSet);
      ghost var middle := instructionSet.instructions;
      var useList := Uses();
      var useSites := useList.items;
      assert useSites == usesBefore;
      forall j | 0 <= j < |useSites|
        ensures useSites[j] in middle
      {
        assert useSites[j] in usesBefore;
      }
      ReplaceAtUses(useSites, replacement, instructionSet);
    }
  }
}
