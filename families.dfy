/** The architecture families sljit can be configured for.

    Each constructor stands for one SLJIT_CONFIG_* selector macro. `Unsupported`
    stands for SLJIT_CONFIG_UNSUPPORTED; since no derived macro ever tests that
    selector, it also describes a build in which no selector is defined at all. */
module Families {

  datatype Arch =
    | X86_32       // SLJIT_CONFIG_X86_32
    | X86_64       // SLJIT_CONFIG_X86_64
    | ArmV5        // SLJIT_CONFIG_ARM_V5
    | ArmV7        // SLJIT_CONFIG_ARM_V7
    | ArmThumb2    // SLJIT_CONFIG_ARM_THUMB2
    | Ppc32        // SLJIT_CONFIG_PPC_32
    | Ppc64        // SLJIT_CONFIG_PPC_64
    | Mips32       // SLJIT_CONFIG_MIPS_32
    | Unsupported  // SLJIT_CONFIG_UNSUPPORTED, or no selector

  /** `defined(SLJIT_CONFIG_X86_32) || defined(SLJIT_CONFIG_X86_64)` */
  predicate IsX86(a: Arch) {
    a == X86_32 || a == X86_64
  }

  /** `defined(SLJIT_CONFIG_PPC_32) || defined(SLJIT_CONFIG_PPC_64)` */
  predicate IsPpc(a: Arch) {
    a == Ppc32 || a == Ppc64
  }

  /** One of the three ARM sub-variants. */
  predicate IsArm(a: Arch) {
    a == ArmV5 || a == ArmV7 || a == ArmThumb2
  }
}
