# sljit build configuration, modelled in Dafny

sljit is a stack-less just-in-time compiler library. Its header
`sljit_src/sljitConfigInternal.h` takes the build's target selector, or
detects one from the host compiler's predefined macros, and then defines
the machine facts that every code generator in the library relies on:
32- or 64-bit word, `SLJIT_WORD_SHIFT` and `SLJIT_FLOAT_SHIFT`, byte order,
function descriptors (`SLJIT_INDIRECT_CALL`), the calling convention
`SLJIT_CALL`, SSE2, permission for unaligned access, and whether
`SLJIT_CACHE_FLUSH` has to do anything.

This project models that header as pure functions:

- `families.dfy` (module `Families`): the selector macros as the datatype
  `Arch`. `Unsupported` stands for `SLJIT_CONFIG_UNSUPPORTED`. No derived
  macro tests that selector, so `Unsupported` also describes a build that
  defines no selector at all.
- `detection.dfy` (module `Detection`): the host signals
  (`HostSignals`) and the selection (`Auto` for `SLJIT_CONFIG_AUTO`, or
  `Explicit(arch)`). Each `#if`/`#elif`/`#else` chain is written as the
  list of its arms in source order (`Branch(cond, selects)`). `FirstMatch`
  gives such a list its preprocessor meaning: the first arm whose condition
  holds is taken. General lemmas about `FirstMatch` give the priority
  results for the three chains: non-Windows, ARM sub-variant and Windows.
- `profile.dfy` (module `TargetProfile`): `Resolve` maps a family and the
  `__GNUC__` / `_WIN32` signals to a `Profile` record with one field per
  derived macro. `Consistent` states how those fields must agree. It also
  covers the calling-convention choice, the expansion of
  `SLJIT_CACHE_FLUSH(from, to)`, and the meaning of the shift constants as
  byte offsets in word and double arrays.
- `configuration.dfy` (module `Configuration`): the whole header, that is
  selection and then derivation. Two lemmas state the derived macros of an
  auto-detected Windows or non-Windows build in terms of the host signals.

Behaviour of the header worth knowing. All of it is modelled as written,
except the second point, which is listed under "Left out":

- An unsupported target is not rejected. `Unsupported` takes the negative
  branch of every test. It gets 32-bit words, little-endian byte order, no
  unaligned access, the default convention and a real cache flush
  (`UnsupportedTakesNegativeBranches`).
- `SLJIT_CONFIG_AUTO` does not give way to a selector the build defined.
  Detection runs whenever it is defined and adds a selector of its own
  next to any the build defined. The model's `Selection` keeps the two
  apart (see "Left out").
- An x86-32 toolchain that is neither GCC nor `_WIN32` gets `__stdcall`.
  `__GNUC__` is tested before `_WIN32`, so a GCC build on Windows gets the
  GCC fastcall attribute.
- Windows detection never reports an unsupported machine. Any Windows
  host that is not x86-64 and not `_ARM_` becomes X86_32.

## Model

| member | source | states |
|---|---|---|
| Detection.FirstMatch | sljit_src/sljitConfigInternal.h:46-81 | the value of an `#if`/`#elif`/`#else` chain is its `#else` value or the selector of an arm whose condition holds |
| Detection.FirstMatchTakesFirstHolding | sljit_src/sljitConfigInternal.h:48-69 | an arm is taken when its condition holds and no earlier arm's does, so earlier arms shadow later ones whatever the later conditions are |
| Detection.FirstMatchFallsThrough | sljit_src/sljitConfigInternal.h:66-69 | when no arm's condition holds, the chain yields its `#else` value |
| Detection.ArmSubVariant | sljit_src/sljitConfigInternal.h:52-59 | the ARM arm yields one of the three ARM families: ARM_V7 iff ARMv7-A or ARMv7-R, ARM_THUMB2 iff plain ARMv7 without those, ARM_V5 iff no version signal |
| Detection.UnixPriority | sljit_src/sljitConfigInternal.h:48-69 | off Windows, each family is chosen iff its signal holds and no earlier signal in the order i386, x86_64, ARM, ppc64, ppc, mips does; Unsupported iff none holds; the ARM result is the ARM sub-variant |
| Detection.WindowsDetection | sljit_src/sljitConfigInternal.h:73-79 | on Windows the result is never Unsupported: X86_64 iff `_M_X64` or `__x86_64__`, ARM_V5 iff otherwise `_ARM_`, X86_32 iff neither |
| Detection.Detect | sljit_src/sljitConfigInternal.h:45-82 | an explicit selection is returned unchanged; auto-detection on Windows yields X86_32, X86_64 or ARM_V5; auto-detection elsewhere yields Unsupported only when none of the known signals holds |
| TargetProfile.CallConvention | sljit_src/sljitConfigInternal.h:170-186 | x86-32 with GCC gets the fastcall attribute, x86-32 on Windows without GCC gets `__fastcall`, any other x86-32 toolchain gets `__stdcall`, every other family the default; `SLJIT_X86_32_FASTCALL` is set iff one of the two fastcall forms is chosen |
| TargetProfile.Resolve | sljit_src/sljitConfigInternal.h:122-217 | the profile is `Consistent`; 64-bit and 8-byte word iff X86_64 or PPC_64; big-endian iff PPC_32 or PPC_64; indirect call iff PPC_64; no unaligned access iff ARM_V5, MIPS_32 or Unsupported; no-op cache flush iff x86; SSE2_AUTO iff X86_32; fastcall flag iff X86_32 under GCC or Windows; `SLJIT_CALL` and the fastcall flag are those `CallConvention` chooses |
| TargetProfile.CacheFlush | sljit_src/sljitConfigInternal.h:122-131 | for a consistent profile, `SLJIT_CACHE_FLUSH(from, to)` does nothing exactly when the family is X86_32 or X86_64, and on every other family (Unsupported included) it clears exactly `[from, to)` |
| TargetProfile.ShlIsMulPow2 | sljit_src/sljitConfigInternal.h:36-37 | shifting left by k multiplies by 2 to the k |
| TargetProfile.IndexShiftIsByteOffset | sljit_src/sljitConfigInternal.h:36-37 | an index shifted by `SLJIT_WORD_SHIFT` is that element's byte offset in an array of `sljit_w`, and one shifted by `SLJIT_FLOAT_SHIFT` is its byte offset in an array of doubles, for every family |
| TargetProfile.UnsupportedTakesNegativeBranches | sljit_src/sljitConfigInternal.h:122-217 | Unsupported is never rejected: it gets the 32-bit, little-endian, direct-call, default-convention, no-SSE2, no-unaligned, real-flush profile |
| Configuration.Configure | sljit_src/sljitConfigInternal.h:44-217 | the whole header yields a `Consistent` profile for the family the selection gives, for every selection and every host |
| Configuration.WindowsAutoProfile | sljit_src/sljitConfigInternal.h:44-217 | an auto-detected Windows build is little-endian with direct calls; it is 64-bit iff `_M_X64` or `__x86_64__`; it lacks unaligned access iff it is the `_ARM_` case; its x86-32 case always gets a fastcall convention and never `__stdcall`, namely the GCC attribute iff `__GNUC__` and `__fastcall` otherwise; SSE2 and the extra SSE2 detection flag (`SLJIT_SSE2_AUTO`) go with the x86 cases and the x86-32 case respectively; only the `_ARM_` case flushes the cache |
| Configuration.UnixAutoProfile | sljit_src/sljitConfigInternal.h:44-217 | for an auto-detected non-Windows build, 64-bit words, big-endian order, indirect calls, calling convention, fastcall flag, unaligned access, SSE2, `SLJIT_SSE2_AUTO` and the no-op flush hold exactly for the host signals the detection priority gives them |

`Consistent` requires all of the following:

- exactly one of `SLJIT_32BIT_ARCHITECTURE` and `SLJIT_64BIT_ARCHITECTURE`;
- word shift 3 when 64-bit and 2 otherwise;
- word size `1 << SLJIT_WORD_SHIFT`, and `1 << SLJIT_FLOAT_SHIFT` equal to the size of a double;
- exactly one of the two endianness macros;
- indirect calls only on a 64-bit big-endian family;
- the fastcall flag exactly for the fastcall forms of `SLJIT_CALL`;
- a non-default convention only for X86_32;
- SSE2, and a cache flush that does nothing, exactly on x86;
- `SLJIT_SSE2_AUTO` only together with SSE2;
- unaligned access on x86.

## Left out

- `SLJIT_MALLOC`, `SLJIT_FREE`, `SLJIT_MEMMOVE` (lines 94-96): thin wrappers over the C library.
- `SLJIT_LIKELY` / `SLJIT_UNLIKELY`, `SLJIT_INLINE` and `SLJIT_CONST` (lines 100-120): compiler hints without meaning for the configuration.
- The effect of `__clear_cache` (line 127): a platform routine. Only the decision is modelled, between "no flush" and "flush over this range".
- `sljit_malloc_exec` / `sljit_free_exec` (lines 219-224): declarations only; their implementation is not part of this model.
- `SLJIT_ASSERT` / `SLJIT_ASSERT_STOP` (lines 226-262): debug output and a deliberate null-pointer write.
- The concrete C spellings of the word type (lines 145-156) and the `SLJIT_W` literal suffix (lines 163-167). The model keeps only the word size, 4 or 8 bytes. The sizes 4 and 8 assume the ILP32, LP64 or LLP64 data models. Under an ABI such as x32, `__x86_64__` selects X86_64 and `SLJIT_WORD_SHIFT` 3 while `long int` is 4 bytes; the model does not capture that mismatch, because it fixes the word size from the family rather than from the typedef.
- The user-override guards (`SLJIT_STD_MACROS_DEFINED`, `SLJIT_HAVE_LIKELY`, `SLJIT_HAVE_C_DEFINES`, `SLJIT_HAVE_CACHE_FLUSH`): with them the user supplies their own definitions, and the model gives them no behaviour.
- Several selector macros defined at once. This happens when the build defines one and also sets `SLJIT_CONFIG_AUTO`. The derived tests would then see more than one family, and `Selection` does not represent that case.
- The numeric values of `__ppc64__`, `__powerpc64__` and `__mips__`, which those `#elif` lines evaluate rather than test for definition. Each is modelled as one boolean meaning "evaluates to non-zero".
