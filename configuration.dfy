/** The header as a whole: the family chosen by the selection, then every
    macro derived from it, and what that means for an auto-detected build. */
module Configuration {
  import opened Families
  import opened Detection
  import opened TargetProfile

  /** The macros in force after sljitConfigInternal.h has been read. The
      toolchain signals __GNUC__ and _WIN32 are the ones the detection sees. */
  function Configure(sel: Selection, s: HostSignals): (p: Profile)
    ensures p.arch == Detect(sel, s)
    ensures Consistent(p)
  {
    Resolve(Detect(sel, s), s.gnuc, s.win32)
  }

  /** An auto-detected Windows build is always little-endian with direct
      calls; it is 64-bit exactly under _M_X64 or __x86_64__, loses unaligned
      access and SSE2 exactly in the `_ARM_` case, and an x86-32 Windows build always gets
      a fastcall convention, never __stdcall: the GCC attribute under
      __GNUC__, `__fastcall` otherwise. SSE2 detection at start-up is on
      exactly for that x86-32 case, and only the `_ARM_` case flushes. */
  lemma WindowsAutoProfile(s: HostSignals)
    requires s.win32
    ensures var p := Configure(Auto, s);
      && p.littleEndian && !p.bigEndian && !p.indirectCall
      && (p.arch64 <==> s.mX64 || s.x86_64)
      && (!p.unaligned <==> !(s.mX64 || s.x86_64) && s.armWin)
      && (p.sse2 <==> s.mX64 || s.x86_64 || !s.armWin)
      && (p.x86Fastcall <==> !(s.mX64 || s.x86_64) && !s.armWin)
      && (p.call == GnuFastcall <==> !(s.mX64 || s.x86_64) && !s.armWin && s.gnuc)
      && (p.call == MsFastcall <==> !(s.mX64 || s.x86_64) && !s.armWin && !s.gnuc)
      && p.call != Stdcall
      && (p.sse2Auto <==> !(s.mX64 || s.x86_64) && !s.armWin)
      && (p.flushNeeded <==> !(s.mX64 || s.x86_64) && s.armWin)
  {
    WindowsDetection(s);
  }

  /** An auto-detected non-Windows build, in terms of the host signals: the
      priority order of the detection carries over to every derived macro. */
  lemma UnixAutoProfile(s: HostSignals)
    requires !s.win32
    ensures var p := Configure(Auto, s);
      && (p.arch64 <==> !s.i386 && (s.x86_64 || (!s.arm && s.ppc64)))
      && (p.bigEndian <==> !s.i386 && !s.x86_64 && !s.arm && (s.ppc64 || s.ppc))
      && (p.indirectCall <==> !s.i386 && !s.x86_64 && !s.arm && s.ppc64)
      && (p.call == GnuFastcall <==> s.i386 && s.gnuc)
      && (p.call == Stdcall <==> s.i386 && !s.gnuc)
      && (p.call == PlatformDefault <==> !s.i386)
      && (p.unaligned <==>
            s.i386 || s.x86_64 || (if s.arm then s.armArch7AorR || s.armArch7 else s.ppc64 || s.ppc))
      && (!p.flushNeeded <==> s.i386 || s.x86_64)
      && (p.sse2 <==> s.i386 || s.x86_64)
      && (p.sse2Auto <==> s.i386)
      && (p.x86Fastcall <==> s.i386 && s.gnuc)
  {
    UnixPriority(s);
    ArmSubVariant(s);
  }
}
