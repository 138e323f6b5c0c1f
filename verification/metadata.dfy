/** Metadata vocabulary shared by the compiler backend: CIL element types
    (ECMA-335 Partition II, section 23.1.16), signature types, method
    attribute flags (ECMA-335 Partition II, section 23.1.10) and calling
    conventions (ECMA-335 Partition II, section 23.2.3). */
module Metadata {

  /** The element types of ECMA-335 Partition II, section 23.1.16, plus
      `Type`, which the runtime uses for System.Type in custom attributes. */
  datatype CilElementType =
    | End | Void | Boolean | Char | I1 | U1 | I2 | U2 | I4 | U4 | I8 | U8
    | R4 | R8 | String | Ptr | ByRef | ValueType | Class | Var | Array
    | GenericInst | TypedByRef | I | U | FnPtr | Object | SZArray | MVar
    | CModReqd | CModOpt | Internal | Modifier | Sentinel | Pinned | Type

  /** A signature type; only its element type matters to the modelled code. */
  datatype SigType = SigType(elementType: CilElementType)

  /** Method attribute flags (a 16-bit mask). */
  type MethodAttributes = bv16

  const Static: MethodAttributes := 0x0010
  const SpecialName: MethodAttributes := 0x0800
  const RTSpecialName: MethodAttributes := 0x1000

  /** Calling conventions a method signature may request. */
  datatype CallingConvention = Default | C | StdCall | ThisCall | FastCall | VarArg

  /** An opaque metadata module (assembly) handle. */
  datatype MetadataModule = MetadataModule(name: string)
}
