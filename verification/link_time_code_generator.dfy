/** Link-time code generation: methods the linker creates are added to one
    compiler-generated type and compiled by a linker method compiler. */
module LinkTimeCodeGeneration {
  import opened Outcomes
  import opened Vm
  import opened LinkerMethodCompilers
  import Operands

  const GeneratedNamespace: string := "Mosa.Tools.Compiler"
  const GeneratedTypeName: string := "LinkerGenerated"

  /** The prefix that keeps generated methods from being called from CIL. */
  const HiddenPrefix: string := "<$>"

  /** The name a generated method receives for a requested name. */
  function GeneratedName(methodName: string): (r: string)
    ensures |r| == |methodName| + 3 && r[..3] == HiddenPrefix && r[3..] == methodName
  {
    HiddenPrefix + methodName
  }

  /** Different requested names give different generated names. */
  lemma GeneratedNameIsInjective(a: string, b: string)
    requires GeneratedName(a) == GeneratedName(b)
    ensures a == b
  {
    assert a == GeneratedName(a)[3..];
  }

  /** The link-time code generator. The generated type is shared by every
      compilation; it is created on first use. */
  class LinkTimeCodeGenerator {
    var compilerGeneratedType: CompilerGeneratedType?
    /** The method compilers run so far, in order. */
    var compilations: seq<LinkerMethodCompiler>

    /** The generated type, once it exists, has the fixed namespace and name
        and holds only hidden methods declared by it. */
    predicate Valid()
      reads this, compilerGeneratedType
    {
      compilerGeneratedType != null ==>
        && compilerGeneratedType.namespaceName == GeneratedNamespace
        && compilerGeneratedType.name == GeneratedTypeName
        && forall m :: m in compilerGeneratedType.methods ==>
             m.declaringType == compilerGeneratedType && |m.name| > 3 && m.name[..3] == HiddenPrefix
    }

    constructor ()
      ensures Valid()
      ensures compilerGeneratedType == null && compilations == []
    {
      compilerGeneratedType := null;
      compilations := [];
    }

    /** The outcome of a compilation request: argument errors change nothing;
        otherwise the generated type exists (created on first use for the
        compiler's assembly), a fresh hidden method is appended to it, and
        one linker method compiler is run for that method with the given
        instruction set. */
    twostate predicate Compiled(compiler: AssemblyCompiler?, methodName: Option<string>,
                                instructionSet: Operands.InstructionSet?, new r: Result<CompilerGeneratedMethod>)
      reads this, compilerGeneratedType, set c | c in compilations :: c.pipeline
    {
      && (compiler == null ==> r == Failure(ArgumentNullException("compiler")))
      && (compiler != null && methodName.None? ==> r == Failure(ArgumentNullException("methodName")))
      && (compiler != null && methodName == Some("") ==> r == Failure(ArgumentException("Invalid method name.")))
      && (r.Success? <==> compiler != null && methodName.Some? && |methodName.value| > 0)
      && (r.Failure? ==>
            && compilerGeneratedType == old(compilerGeneratedType)
            && compilations == old(compilations)
            && (compilerGeneratedType != null ==> compilerGeneratedType.methods == old(compilerGeneratedType.methods)))
      && (r.Success? ==>
            && compiler != null && methodName.Some?
            && compilerGeneratedType != null
            && (old(compilerGeneratedType) != null ==> compilerGeneratedType == old(compilerGeneratedType))
            && (old(compilerGeneratedType) == null ==>
                  && fresh(compilerGeneratedType)
                  && compilerGeneratedType.assembly == compiler.assembly)
            && compilerGeneratedType.methods
                 == old(if compilerGeneratedType == null then [] else compilerGeneratedType.methods) + [r.value]
            && fresh(r.value)
            && r.value.name == GeneratedName(methodName.value)
            && r.value.assembly == compiler.assembly
            && r.value.declaringType == compilerGeneratedType
            && |compilations| == |old(compilations)| + 1
            && compilations[..|old(compilations)|] == old(compilations)
            && fresh(compilations[|old(compilations)|])
            && compilations[|old(compilations)|].compiledMethod == r.value
            && compilations[|old(compilations)|].instructionSet == instructionSet
            && compilations[|old(compilations)|].pipeline.stages == LinkerStages)
    }

    /** Creates and compiles a method with the given name and instruction
        set. */
    method CompileWithInstructionSet(compiler: AssemblyCompiler?, methodName: Option<string>,
                                     instructionSet: Operands.InstructionSet?)
      returns (r: Result<CompilerGeneratedMethod>)
      requires Valid()
      modifies this, compilerGeneratedType
      ensures Valid()
      ensures Compiled(compiler, methodName, instructionSet, r)
    {
      if compiler == null {
        return Failure(ArgumentNullException("compiler"));
      }
      if methodName.None? {
        return Failure(ArgumentNullException("methodName"));
      }
      if |methodName.value| == 0 {
        return Failure(ArgumentException("Invalid method name."));
      }
      if compilerGeneratedType == null {
        compilerGeneratedType := new CompilerGeneratedType(compiler.assembly, GeneratedNamespace, GeneratedTypeName);
      }
      var generated := new CompilerGeneratedMethod(compiler.assembly, GeneratedName(methodName.value), compilerGeneratedType);
      compilerGeneratedType.methods := compilerGeneratedType.methods + [generated];
      var methodCompiler := new LinkerMethodCompiler(compiler, generated, instructionSet);
      compilations := compilations + [methodCompiler];
      return Success(generated);
    }

    /** Creates and compiles a method with the given name and no
        instruction set. */
    method Compile(compiler: AssemblyCompiler?, methodName: Option<string>)
      returns (r: Result<CompilerGeneratedMethod>)
      requires Valid()
      modifies this, compilerGeneratedType
      ensures Valid()
      ensures Compiled(compiler, methodName, null, r)
    {
      r := CompileWithInstructionSet(compiler, methodName, null);
    }
  }
}
