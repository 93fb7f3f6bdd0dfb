/** Auto-detection of the architecture family from the host compiler's
    predefined macros, and the choice between auto-detection and an explicit
    selector (sljitConfigInternal.h, lines 44-82). */
module Detection {
  import opened Families

  /** The build-time signals the detection inspects. Each field is true when
      the C preprocessor sees the condition named beside it. */
  datatype HostSignals = HostSignals(
    win32: bool,         // _WIN32 is defined
    i386: bool,          // __i386__ or __i386 is defined
    x86_64: bool,        // __x86_64__ is defined
    mX64: bool,          // _M_X64 is defined
    arm: bool,           // __arm__ or __ARM__ is defined
    armArch7AorR: bool,  // __ARM_ARCH_7A__ or __ARM_ARCH_7R__ is defined
    armArch7: bool,      // __ARM_ARCH_7__ is defined
    armWin: bool,        // _ARM_ is defined
    ppc64: bool,         // (__ppc64__) || (__powerpc64__) evaluates to non-zero
    ppc: bool,           // __ppc__ or __powerpc__ is defined
    mips: bool,          // (__mips__) evaluates to non-zero
    gnuc: bool)          // __GNUC__ is defined

  /** SLJIT_CONFIG_AUTO defined, or a selector chosen by the build itself. */
  datatype Selection = Auto | Explicit(arch: Arch)

  /** One arm of an `#if` / `#elif` chain: whether its condition holds, and
      the selector it defines when it is the arm taken. */
  datatype Branch = Branch(cond: bool, selects: Arch)

  /** The meaning of `#if c0 ... #elif c1 ... #else ... #endif`: the first arm
      whose condition holds is taken; the `#else` value when none holds. */
  function FirstMatch(chain: seq<Branch>, otherwise: Arch): (a: Arch)
    ensures a == otherwise || exists i :: 0 <= i < |chain| && chain[i].cond && a == chain[i].selects
  {
    if chain == [] then otherwise
    else if chain[0].cond then chain[0].selects
    else
      var rest := FirstMatch(chain[1..], otherwise);
      assert rest != otherwise ==> exists i :: 1 <= i < |chain| && chain[i].cond && rest == chain[i].selects by {
        if rest != otherwise {
          var k :| 0 <= k < |chain[1..]| && chain[1..][k].cond && rest == chain[1..][k].selects;
          assert chain[k + 1] == chain[1..][k];
        }
      }
      rest
  }

  /** An arm is taken exactly when its condition holds and no earlier one does:
      every earlier arm shadows it. */
  lemma {:induction false} FirstMatchTakesFirstHolding(chain: seq<Branch>, otherwise: Arch, i: nat)
    requires i < |chain| && chain[i].cond
    requires forall j :: 0 <= j < i ==> !chain[j].cond
    ensures FirstMatch(chain, otherwise) == chain[i].selects
  {
    if i > 0 {
      assert !chain[0].cond;
      forall j | 0 <= j < i - 1
        ensures !chain[1..][j].cond
      {
        assert chain[1..][j] == chain[j + 1];
      }
      FirstMatchTakesFirstHolding(chain[1..], otherwise, i - 1);
    }
  }

  /** When no condition holds, the `#else` arm is taken: a consequence of
      the contract of `FirstMatch`. */
  lemma FirstMatchFallsThrough(chain: seq<Branch>, otherwise: Arch)
    requires forall j :: 0 <= j < |chain| ==> !chain[j].cond
    ensures FirstMatch(chain, otherwise) == otherwise
  {
  }

  /** The ARM sub-variant chain, lines 53-59. */
  function ArmChain(s: HostSignals): seq<Branch> {
    [ Branch(s.armArch7AorR, ArmV7),
      Branch(s.armArch7, ArmThumb2) ]
  }

  function ArmVariant(s: HostSignals): Arch {
    FirstMatch(ArmChain(s), ArmV5)
  }

  /** The chain used when _WIN32 is not defined, lines 48-69. */
  function UnixChain(s: HostSignals): seq<Branch> {
    [ Branch(s.i386, X86_32),
      Branch(s.x86_64, X86_64),
      Branch(s.arm, ArmVariant(s)),
      Branch(s.ppc64, Ppc64),
      Branch(s.ppc, Ppc32),
      Branch(s.mips, Mips32) ]
  }

  function DetectUnix(s: HostSignals): Arch {
    FirstMatch(UnixChain(s), Unsupported)
  }

  /** The chain used when _WIN32 is defined, lines 73-79. */
  function WindowsChain(s: HostSignals): seq<Branch> {
    [ Branch(s.mX64 || s.x86_64, X86_64),
      Branch(s.armWin, ArmV5) ]
  }

  function DetectWindows(s: HostSignals): Arch {
    FirstMatch(WindowsChain(s), X86_32)
  }

  /** Lines 46-81: `#ifndef _WIN32` picks the chain. */
  function AutoDetect(s: HostSignals): Arch {
    if s.win32 then DetectWindows(s) else DetectUnix(s)
  }

  /** Lines 45-82: auto-detection only under SLJIT_CONFIG_AUTO; otherwise the
      build's own selector stands. */
  function Detect(sel: Selection, s: HostSignals): (a: Arch)
    ensures sel.Explicit? ==> a == sel.arch
    ensures sel.Auto? && s.win32 ==> a in {X86_32, X86_64, ArmV5}
    ensures sel.Auto? && !s.win32 && a == Unsupported ==> !s.i386 && !s.x86_64 && !s.arm && !s.ppc64 && !s.ppc && !s.mips
  {
    match sel
    case Auto =>
      WindowsDetection(s);
      UnixPriority(s);
      AutoDetect(s)
    case Explicit(a) => a
  }

  /** Inside the ARM arm: ARMv7-A or ARMv7-R gives ARM_V7, else plain ARMv7
      gives ARM_THUMB2, else (no version signal) ARM_V5. */
  lemma ArmSubVariant(s: HostSignals)
    ensures IsArm(ArmVariant(s))
    ensures ArmVariant(s) == ArmV7 <==> s.armArch7AorR
    ensures ArmVariant(s) == ArmThumb2 <==> !s.armArch7AorR && s.armArch7
    ensures ArmVariant(s) == ArmV5 <==> !s.armArch7AorR && !s.armArch7
  {
    var c := ArmChain(s);
    if s.armArch7AorR {
      FirstMatchTakesFirstHolding(c, ArmV5, 0);
    } else if s.armArch7 {
      FirstMatchTakesFirstHolding(c, ArmV5, 1);
    } else {
      FirstMatchFallsThrough(c, ArmV5);
    }
  }

  /** Off Windows the first signal in the order i386, x86_64, ARM, ppc64, ppc,
      mips decides the family; with none of them the build is unsupported.
      Each clause is an if-and-only-if, so a later signal never overrides an
      earlier one (a host signalling both ppc64 and ppc is PPC_64). */
  lemma UnixPriority(s: HostSignals)
    ensures DetectUnix(s) == X86_32 <==> s.i386
    ensures DetectUnix(s) == X86_64 <==> !s.i386 && s.x86_64
    ensures IsArm(DetectUnix(s)) <==> !s.i386 && !s.x86_64 && s.arm
    ensures IsArm(DetectUnix(s)) ==> DetectUnix(s) == ArmVariant(s)
    ensures DetectUnix(s) == Ppc64 <==> !s.i386 && !s.x86_64 && !s.arm && s.ppc64
    ensures DetectUnix(s) == Ppc32 <==> !s.i386 && !s.x86_64 && !s.arm && !s.ppc64 && s.ppc
    ensures DetectUnix(s) == Mips32 <==> !s.i386 && !s.x86_64 && !s.arm && !s.ppc64 && !s.ppc && s.mips
    ensures DetectUnix(s) == Unsupported <==>
              !s.i386 && !s.x86_64 && !s.arm && !s.ppc64 && !s.ppc && !s.mips
  {
    var c := UnixChain(s);
    ArmSubVariant(s);
    if s.i386 {
      FirstMatchTakesFirstHolding(c, Unsupported, 0);
    } else if s.x86_64 {
      FirstMatchTakesFirstHolding(c, Unsupported, 1);
    } else if s.arm {
      FirstMatchTakesFirstHolding(c, Unsupported, 2);
    } else if s.ppc64 {
      FirstMatchTakesFirstHolding(c, Unsupported, 3);
    } else if s.ppc {
      FirstMatchTakesFirstHolding(c, Unsupported, 4);
    } else if s.mips {
      FirstMatchTakesFirstHolding(c, Unsupported, 5);
    } else {
      FirstMatchFallsThrough(c, Unsupported);
    }
  }

  /** On Windows the detection is total and never unsupported: _M_X64 or
      __x86_64__ gives X86_64, else _ARM_ gives ARM_V5, else X86_32. */
  lemma WindowsDetection(s: HostSignals)
    ensures DetectWindows(s) != Unsupported
    ensures DetectWindows(s) == X86_64 <==> s.mX64 || s.x86_64
    ensures DetectWindows(s) == ArmV5 <==> !(s.mX64 || s.x86_64) && s.armWin
    ensures DetectWindows(s) == X86_32 <==> !(s.mX64 || s.x86_64) && !s.armWin
  {
    var c := WindowsChain(s);
    if s.mX64 || s.x86_64 {
      FirstMatchTakesFirstHolding(c, X86_32, 0);
    } else if s.armWin {
      FirstMatchTakesFirstHolding(c, X86_32, 1);
    } else {
      FirstMatchFallsThrough(c, X86_32);
    }
  }
}
