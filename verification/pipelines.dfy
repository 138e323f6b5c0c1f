/** Method compiler pipelines: an ordered list of stages that the method
    compilers fill and that platforms extend. Stages are opaque tags; what
    each stage does to the instruction graph is not part of this model. */
module Pipelines {

  datatype Stage =
    // architecture-independent method compiler stages
    | Decoding | InstructionLogger | BasicBlockBuilder | OperandDetermination
    | CILTransformation | StackLayout | PlatformStub | LoopAwareBlockOrder
    | SimpleTraceBlockOrder | CodeGeneration
    // x86-specific method compiler stages
    | LongOperandTransformation | IRToX86Transformation | InstructionScheduling
    | CodeGenerator

  /** A pipeline of method compiler stages, owned by one method compiler and
      extended in place. */
  class CompilerPipeline {
    var stages: seq<Stage>

    constructor ()
      ensures stages == []
    {
      stages := [];
    }

    /** Appends the given stages, in order, after the existing ones. */
    method AddRange(range: seq<Stage>)
      modifies this
      ensures stages == old(stages) + range
    {
      stages := stages + range;
    }
  }
}
