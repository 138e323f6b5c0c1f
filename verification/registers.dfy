/** The physical registers of the x86 family that the backend names. */
module X86Registers {

  datatype Register =
    // 32-bit general purpose registers
    | EAX | ECX | EDX | EBX | ESP | EBP | ESI | EDI
    // 64-bit MMX registers
    | MM0 | MM1 | MM2 | MM3 | MM4 | MM5 | MM6 | MM7
    // 128-bit SSE2 registers
    | XMM0 | XMM1 | XMM2 | XMM3 | XMM4 | XMM5 | XMM6 | XMM7

  predicate IsGeneralPurpose(r: Register) {
    r in {EAX, ECX, EDX, EBX, ESP, EBP, ESI, EDI}
  }

  predicate IsSse2(r: Register) {
    r in {XMM0, XMM1, XMM2, XMM3, XMM4, XMM5, XMM6, XMM7}
  }
}
