/** The method compiler used for methods the linker generates: a short
    pipeline of generic stages, extended by the target architecture. */
module LinkerMethodCompilers {
  import opened Pipelines
  import opened Vm
  import Operands
  import X86

  /** The generic stages of a linker-generated method, in order. */
  const LinkerBaseStages: seq<Stage> := [BasicBlockBuilder, PlatformStub, SimpleTraceBlockOrder, CodeGeneration]

  /** The whole pipeline once the x86 architecture has extended it. */
  const LinkerStages: seq<Stage> := LinkerBaseStages + X86.MethodStages

  /** The generic stages come first and the x86 stages follow them; there is
      no decoding stage, since a generated method has no CIL body, and the
      pipeline ends with the x86 code generator. */
  lemma LinkerPipelineShape()
    ensures |LinkerStages| == 9
    ensures LinkerStages[..4] == LinkerBaseStages && LinkerStages[4..] == X86.MethodStages
    ensures Decoding !in LinkerStages
    ensures LinkerStages[|LinkerStages| - 1] == CodeGenerator
  {
    assert LinkerStages[..4] == LinkerBaseStages;
  }

  class LinkerMethodCompiler {
    const compiler: AssemblyCompiler
    const compiledMethod: CompilerGeneratedMethod
    const declaringType: CompilerGeneratedType
    const instructionSet: Operands.InstructionSet?
    const pipeline: CompilerPipeline

    /** Compiles `m` with the given instruction set, which may be absent;
        the pipeline starts empty and receives the generic stages, then the
        architecture's. */
    constructor (compiler: AssemblyCompiler, m: CompilerGeneratedMethod, instructionSet: Operands.InstructionSet?)
      ensures this.compiler == compiler && compiledMethod == m && declaringType == m.declaringType
      ensures this.instructionSet == instructionSet
      ensures fresh(pipeline) && pipeline.stages == LinkerStages
    {
      this.compiler := compiler;
      compiledMethod := m;
      declaringType := m.declaringType;
      this.instructionSet := instructionSet;
      var p := new CompilerPipeline();
      p.AddRange(LinkerBaseStages);
      compiler.architecture.ExtendMethodCompilerPipeline(p);
      pipeline := p;
    }
  }
}
