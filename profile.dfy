/** The target facts derived from the selected family and two toolchain
    signals (sljitConfigInternal.h, lines 122-217). */
module TargetProfile {
  import opened Families

  /** The expansion of SLJIT_CALL, lines 170-186. */
  datatype CallConv =
    | GnuFastcall      // __attribute__ ((fastcall))
    | MsFastcall       // __fastcall
    | Stdcall          // __stdcall
    | PlatformDefault  // empty: the compiler's default convention

  /** What one use of SLJIT_CACHE_FLUSH(from, to) expands to. */
  datatype FlushAction =
    | NoFlush                     // empty expansion: unified caches
    | ClearCache(from: nat, to: nat)  // __clear_cache over [from, to)

  /** The macros the header defines once a selector is fixed. A boolean is
      true when its macro is defined. */
  datatype Profile = Profile(
    arch: Arch,
    arch32: bool,        // SLJIT_32BIT_ARCHITECTURE
    arch64: bool,        // SLJIT_64BIT_ARCHITECTURE
    wordShift: nat,      // SLJIT_WORD_SHIFT
    wordBytes: nat,      // size in bytes of the sljit_w / sljit_uw typedef chosen
    floatShift: nat,     // SLJIT_FLOAT_SHIFT
    bigEndian: bool,     // SLJIT_BIG_ENDIAN
    littleEndian: bool,  // SLJIT_LITTLE_ENDIAN
    indirectCall: bool,  // SLJIT_INDIRECT_CALL
    call: CallConv,      // SLJIT_CALL
    x86Fastcall: bool,   // SLJIT_X86_32_FASTCALL
    sse2: bool,          // SLJIT_SSE2
    sse2Auto: bool,      // SLJIT_SSE2_AUTO
    unaligned: bool,     // SLJIT_UNALIGNED
    flushNeeded: bool)   // SLJIT_CACHE_FLUSH expands to a __clear_cache call

  /** Size in bytes of a double, the element SLJIT_FLOAT_SHIFT scales by. */
  const DOUBLE_BYTES: nat := 8

  /** `x << k` on unbounded naturals. */
  function Shl(x: nat, k: nat): nat
    decreases k
  {
    if k == 0 then x else Shl(2 * x, k - 1)
  }

  function Pow2(k: nat): nat {
    if k == 0 then 1 else 2 * Pow2(k - 1)
  }

  /** A left shift by `k` multiplies by 2 to the `k`. */
  lemma {:induction false} ShlIsMulPow2(x: nat, k: nat)
    ensures Shl(x, k) == x * Pow2(k)
    decreases k
  {
    if k > 0 {
      ShlIsMulPow2(2 * x, k - 1);
      assert (2 * x) * Pow2(k - 1) == x * (2 * Pow2(k - 1));
    }
  }

  /** Line 142: the 64-bit branch is taken for X86_64 and PPC_64 only. */
  predicate Is64BitFamily(a: Arch) {
    a == X86_64 || a == Ppc64
  }

  /** SLJIT_CALL and SLJIT_X86_32_FASTCALL, lines 170-186. __GNUC__ is tested
      before _WIN32, so a GCC build on Windows takes the GCC attribute. */
  function CallConvention(a: Arch, gnuc: bool, win32: bool): (r: (CallConv, bool))
    ensures r.1 <==> r.0 == GnuFastcall || r.0 == MsFastcall
    ensures r.0 == PlatformDefault <==> a != X86_32
    ensures r.0 == GnuFastcall <==> a == X86_32 && gnuc
    ensures r.0 == MsFastcall <==> a == X86_32 && !gnuc && win32
    ensures r.0 == Stdcall <==> a == X86_32 && !gnuc && !win32
  {
    match a
    case X86_32 =>
      if gnuc then (GnuFastcall, true)
      else if win32 then (MsFastcall, true)
      else (Stdcall, false)
    case _ => (PlatformDefault, false)
  }

  /** All derived macros for a family, lines 122-217. */
  function Resolve(a: Arch, gnuc: bool, win32: bool): (p: Profile)
    ensures p.arch == a
    ensures Consistent(p)
    ensures p.arch64 <==> a == X86_64 || a == Ppc64
    ensures p.wordBytes == 8 <==> a == X86_64 || a == Ppc64
    ensures p.bigEndian <==> a == Ppc32 || a == Ppc64
    ensures p.indirectCall <==> a == Ppc64
    ensures !p.unaligned <==> a == ArmV5 || a == Mips32 || a == Unsupported
    ensures !p.flushNeeded <==> a == X86_32 || a == X86_64
    ensures p.sse2Auto <==> a == X86_32
    ensures p.x86Fastcall <==> a == X86_32 && (gnuc || win32)
    ensures (p.call, p.x86Fastcall) == CallConvention(a, gnuc, win32)
  {
    var is64 := Is64BitFamily(a);
    var (call, fastcall) := CallConvention(a, gnuc, win32);
    Profile(
      arch := a,
      arch32 := !is64,
      arch64 := is64,
      wordShift := if is64 then 3 else 2,
      wordBytes := if is64 then 8 else 4,
      floatShift := 3,
      bigEndian := IsPpc(a),
      littleEndian := !IsPpc(a),
      indirectCall := a == Ppc64,
      call := call,
      x86Fastcall := fastcall,
      sse2 := IsX86(a),
      sse2Auto := a == X86_32,
      unaligned := a in {X86_32, X86_64, ArmV7, ArmThumb2, Ppc32, Ppc64},
      flushNeeded := !IsX86(a))
  }

  /** The facts downstream code relies on holding together. */
  predicate Consistent(p: Profile) {
    // exactly one of SLJIT_32BIT_ARCHITECTURE / SLJIT_64BIT_ARCHITECTURE
    && p.arch32 != p.arch64
    && p.wordShift == (if p.arch64 then 3 else 2)
    // the word type's size agrees with the shift used to index word arrays
    && p.wordBytes == Shl(1, p.wordShift)
    && Shl(1, p.floatShift) == DOUBLE_BYTES
    // exactly one of SLJIT_BIG_ENDIAN / SLJIT_LITTLE_ENDIAN
    && p.bigEndian != p.littleEndian
    // function descriptors only on a 64-bit big-endian family
    && (p.indirectCall ==> p.arch64 && p.bigEndian)
    // SLJIT_X86_32_FASTCALL marks exactly the fastcall expansions of SLJIT_CALL
    && (p.x86Fastcall <==> p.call == GnuFastcall || p.call == MsFastcall)
    && (p.call != PlatformDefault <==> p.arch == X86_32)
    // SSE2 and the no-op cache flush go with the x86 families
    && (p.sse2 <==> IsX86(p.arch))
    && (p.sse2Auto ==> p.sse2)
    && (p.flushNeeded <==> !IsX86(p.arch))
    // x86 allows unaligned integer accesses
    && (IsX86(p.arch) ==> p.unaligned)
  }

  /** SLJIT_CACHE_FLUSH(from, to), lines 122-131: nothing on the x86 families,
      a cache clear over exactly the written range on every other one. */
  function CacheFlush(p: Profile, from: nat, to: nat): (f: FlushAction)
    requires Consistent(p)
    ensures f == NoFlush <==> IsX86(p.arch)
    ensures !IsX86(p.arch) ==> f == ClearCache(from, to)
  {
    if p.flushNeeded then ClearCache(from, to) else NoFlush
  }

  /** Lines 36-37: an index shifted by SLJIT_WORD_SHIFT is the byte offset of
      that element in an array of sljit_w, and one shifted by
      SLJIT_FLOAT_SHIFT is the byte offset in an array of doubles. */
  lemma IndexShiftIsByteOffset(a: Arch, gnuc: bool, win32: bool, i: nat)
    ensures Shl(i, Resolve(a, gnuc, win32).wordShift) == i * Resolve(a, gnuc, win32).wordBytes
    ensures Shl(i, Resolve(a, gnuc, win32).floatShift) == i * DOUBLE_BYTES
  {
    var p := Resolve(a, gnuc, win32);
    ShlIsMulPow2(i, p.wordShift);
    ShlIsMulPow2(1, p.wordShift);
    ShlIsMulPow2(i, p.floatShift);
    ShlIsMulPow2(1, p.floatShift);
  }

  /** The unsupported family is not rejected: it takes the negative branch of
      every test, giving a 32-bit little-endian profile without unaligned
      access, with the default convention and a real cache flush. */
  lemma UnsupportedTakesNegativeBranches(gnuc: bool, win32: bool)
    ensures var p := Resolve(Unsupported, gnuc, win32);
      && p.arch32 && !p.arch64 && p.wordShift == 2 && p.wordBytes == 4
      && p.littleEndian && !p.bigEndian && !p.indirectCall
      && p.call == PlatformDefault && !p.x86Fastcall
      && !p.sse2 && !p.sse2Auto && !p.unaligned && p.flushNeeded
  {
  }
}
