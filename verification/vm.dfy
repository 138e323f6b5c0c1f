/** Runtime entities the method compilers work on: runtime methods, the
    assembly compiler, and the type and methods generated at link time. */
module Vm {
  import opened Metadata
  import X86

  /** A method as the type system describes it. */
  datatype RuntimeMethod = RuntimeMethod(name: string, attributes: MethodAttributes)

  /** The assembly compiler a method compiler belongs to; only its target
      architecture and its assembly matter here. */
  class AssemblyCompiler {
    const architecture: X86.Architecture
    const assembly: MetadataModule

    constructor (architecture: X86.Architecture, assembly: MetadataModule)
      ensures this.architecture == architecture && this.assembly == assembly
    {
      this.architecture := architecture;
      this.assembly := assembly;
    }
  }

  /** A type created by the compiler to hold generated methods. */
  class CompilerGeneratedType {
    const assembly: MetadataModule
    const namespaceName: string
    const name: string
    var methods: seq<CompilerGeneratedMethod>

    constructor (assembly: MetadataModule, namespaceName: string, name: string)
      ensures this.assembly == assembly && this.namespaceName == namespaceName && this.name == name
      ensures methods == []
    {
      this.assembly := assembly;
      this.namespaceName := namespaceName;
      this.name := name;
      methods := [];
    }
  }

  /** A method created by the compiler. */
  class CompilerGeneratedMethod {
    const assembly: MetadataModule
    const name: string
    const declaringType: CompilerGeneratedType

    constructor (assembly: MetadataModule, name: string, declaringType: CompilerGeneratedType)
      ensures this.assembly == assembly && this.name == name && this.declaringType == declaringType
    {
      this.assembly := assembly;
      this.name := name;
      this.declaringType := declaringType;
    }
  }
}
