/** ColossusTargetInfo: the per-translation-unit description of the Colossus
    (IPU) processor — its layout parameters, the selected CPU, the mode flags
    set from the resolved features, and the predefined macros. */
module ColossusTargetInfo {
  import opened Wrappers
  import opened ColossusFeatures

  /** The CPU names the target accepts. */
  const ValidCPUs: set<string> := {"ipu1", "ipu2", "ipu21"}

  /** isValidCPUName: a test against the three literal names. */
  function IsValidCPUName(name: string): (r: bool)
    ensures r <==> name in ValidCPUs
  {
    name == "ipu1" || name == "ipu2" || name == "ipu21"
  }

  datatype IntType = SignedInt | UnsignedInt

  /** The kinds of `__builtin_va_list` a target can choose from. */
  datatype BuiltinVaListKind =
    | CharPtrBuiltinVaList
    | VoidPtrBuiltinVaList
    | AArch64ABIBuiltinVaList
    | PNaClABIBuiltinVaList
    | PowerABIBuiltinVaList
    | X86_64ABIBuiltinVaList
    | AAPCSABIBuiltinVaList
    | SystemZBuiltinVaList
    | HexagonBuiltinVaList

  /** The options the constructor reads: only the CPU name. */
  datatype TargetOptions = TargetOptions(cpu: string)

  const IpuMacro: string := "__IPU__"
  const ArchVersionMacro: string := "__IPU_ARCH_VERSION__"
  const RepeatCountSizeMacro: string := "__IPU_REPEAT_COUNT_SIZE__"
  const SupervisorMacro: string := "__SUPERVISOR__"

  /** A preprocessor definition; a macro defined without a value gets "1". */
  datatype Macro = Macro(name: string, value: string)

  /** The macro builder getTargetDefines appends to. */
  class MacroBuilder {
    var defines: seq<Macro>

    constructor ()
      ensures defines == []
    {
      defines := [];
    }

    method DefineMacro(name: string, value: string)
      modifies this
      ensures defines == old(defines) + [Macro(name, value)]
    {
      defines := defines + [Macro(name, value)];
    }
  }

  /** The CPU names for which getTargetDefines knows a version. */
  predicate HasVersionMacros(cpu: string, ipu21Build: bool) {
    cpu == "ipu1" || cpu == "ipu2" || (cpu == "ipu21" && ipu21Build)
  }

  /** The macros getTargetDefines emits for a CPU and mode; ipu21Build says
      whether the compiler was built with IPU21 support. "__IPU__" comes
      first; the version and repeat-count macros follow the table
      ipu1 -> (1, 12), ipu2 -> (2, 16), ipu21 -> (21, 16) (the last only in
      an IPU21 build) and are absent for any other name; "__SUPERVISOR__" is
      present exactly in supervisor mode; no other macro is defined and no
      name is defined twice. */
  function TargetDefines(cpu: string, supervisor: bool, ipu21Build: bool): (r: seq<Macro>)
    ensures |r| == 1 + (if HasVersionMacros(cpu, ipu21Build) then 2 else 0) + (if supervisor then 1 else 0)
    ensures |r| >= 1 && r[0] == Macro(IpuMacro, "1")
    ensures forall m :: m in r ==>
              m.name in {IpuMacro, ArchVersionMacro, RepeatCountSizeMacro, SupervisorMacro}
    ensures forall m :: m in r && m.name in {IpuMacro, SupervisorMacro} ==> m.value == "1"
    ensures supervisor <==> exists m :: m in r && m.name == SupervisorMacro
    ensures cpu == "ipu1" ==> Macro(ArchVersionMacro, "1") in r && Macro(RepeatCountSizeMacro, "12") in r
    ensures cpu == "ipu2" ==> Macro(ArchVersionMacro, "2") in r && Macro(RepeatCountSizeMacro, "16") in r
    ensures cpu == "ipu21" && ipu21Build ==>
              Macro(ArchVersionMacro, "21") in r && Macro(RepeatCountSizeMacro, "16") in r
    ensures !HasVersionMacros(cpu, ipu21Build) ==>
              forall m :: m in r ==> m.name != ArchVersionMacro && m.name != RepeatCountSizeMacro
    ensures Macro(SupervisorMacro, "1") in r <==> supervisor
    ensures forall i, j :: 0 <= i < j < |r| ==> r[i].name != r[j].name
  {
    var versions :=
      if cpu == "ipu1" then
        [Macro(ArchVersionMacro, "1"), Macro(RepeatCountSizeMacro, "12")]
      else if cpu == "ipu2" then
        [Macro(ArchVersionMacro, "2"), Macro(RepeatCountSizeMacro, "16")]
      else if ipu21Build && cpu == "ipu21" then
        [Macro(ArchVersionMacro, "21"), Macro(RepeatCountSizeMacro, "16")]
      else [];
    [Macro(IpuMacro, "1")] + versions + (if supervisor then [Macro(SupervisorMacro, "1")] else [])
  }

  class ColossusTarget {
    var cpu: string
    var supervisor: bool
    var worker: bool
    var halfArgsAndReturns: bool
    var hasLegalHalfType: bool
    var hasFloat16: bool

    var bigEndian: bool
    var noAsmVariants: bool
    var longAlign: nat
    var longWidth: nat
    var longLongAlign: nat
    var longLongWidth: nat
    var suitableAlign: nat
    var doubleAlign: nat
    var longDoubleAlign: nat
    var maxVectorAlign: nat
    var wIntType: IntType
    var useZeroLengthBitfieldAlignment: bool
    var maxAtomicPromoteWidth: nat
    var maxAtomicInlineWidth: nat
    var ptrDiffType: IntType
    var intPtrType: IntType
    var sizeType: IntType
    var hasStrictFP: bool

    /** The constructor: little-endian, 32-bit long, 64-bit long long,
        32-bit alignment for double and long double, 64-bit vector
        alignment, 32-bit atomics; the CPU is taken from the options
        unchecked, and no mode flag is set yet. */
    constructor (opts: TargetOptions)
      ensures !bigEndian && noAsmVariants
      ensures longAlign == 32 && longWidth == 32
      ensures longLongAlign == 64 && longLongWidth == 64
      ensures suitableAlign == 32 && doubleAlign == 32 && longDoubleAlign == 32
      ensures maxVectorAlign == 64
      ensures wIntType == UnsignedInt && useZeroLengthBitfieldAlignment
      ensures maxAtomicPromoteWidth == 32 && maxAtomicInlineWidth == 32
      ensures ptrDiffType == SignedInt && intPtrType == SignedInt && sizeType == UnsignedInt
      ensures hasStrictFP
      ensures cpu == opts.cpu
      ensures !supervisor && !worker
      ensures !halfArgsAndReturns && !hasLegalHalfType && !hasFloat16
    {
      supervisor := false;
      worker := false;
      halfArgsAndReturns := false;
      hasLegalHalfType := false;
      hasFloat16 := false;
      bigEndian := false;
      noAsmVariants := true;
      longAlign := 32;
      longWidth := 32;
      longLongAlign := 64;
      longLongWidth := 64;
      suitableAlign := 32;
      doubleAlign, longDoubleAlign := 32, 32;
      maxVectorAlign := 64;
      wIntType := UnsignedInt;
      useZeroLengthBitfieldAlignment := true;
      maxAtomicPromoteWidth, maxAtomicInlineWidth := 32, 32;
      ptrDiffType, intPtrType := SignedInt, SignedInt;
      sizeType := UnsignedInt;
      hasStrictFP := true;
      cpu := opts.cpu;
    }

    /** The mode and half-type flags as one value. */
    function Flags(): FeatureFlags
      reads this
    {
      FeatureFlags(halfArgsAndReturns, hasLegalHalfType, hasFloat16, worker, supervisor)
    }

    /** setCPU: accepts a valid name and stores it; otherwise fails and
        leaves the CPU as it was. */
    method SetCPU(name: string) returns (ok: bool)
      modifies this`cpu
      ensures ok <==> name in ValidCPUs
      ensures cpu == if ok then name else old(cpu)
    {
      if IsValidCPUName(name) {
        cpu := name;
        return true;
      }
      return false;
    }

    /** getClobbers: no register is clobbered by inline assembly. */
    function GetClobbers(): (r: string)
      ensures |r| == 0
    {
      ""
    }

    /** validateAsmConstraint: no target-specific constraint letter is accepted. */
    function ValidateAsmConstraint(name: string): (r: bool)
      ensures !r
    {
      false
    }

    /** getBuiltinVaListKind: `va_list` is a plain `void *`. */
    function GetBuiltinVaListKind(): (r: BuiltinVaListKind)
      ensures r == VoidPtrBuiltinVaList
    {
      VoidPtrBuiltinVaList
    }

    function HasBitIntType(): (r: bool)
      ensures r
    {
      true
    }

    /** handleTargetFeatures: a scan of the resolved features that only ever
        sets flags; it always succeeds. */
    method HandleTargetFeatures(features: seq<string>) returns (ok: bool)
      modifies this`halfArgsAndReturns, this`hasLegalHalfType, this`hasFloat16, this`worker, this`supervisor
      ensures ok
      ensures Flags() == ApplyFeatures(old(Flags()), features)
      ensures halfArgsAndReturns == (old(halfArgsAndReturns) || WorkerMode in features)
      ensures hasLegalHalfType == (old(hasLegalHalfType) || WorkerMode in features)
      ensures hasFloat16 == (old(hasFloat16) || WorkerMode in features)
      ensures worker == (old(worker) || WorkerMode in features)
      ensures supervisor == (old(supervisor) || SupervisorMode in features)
    {
      for i := 0 to |features|
        invariant Flags() == ApplyFeatures(old(Flags()), features[..i])
      {
        var feature := features[i];
        assert features[..i + 1][..i] == features[..i];
        if feature == WorkerMode {
          halfArgsAndReturns := true;
          hasLegalHalfType := true;
          hasFloat16 := true;
          worker := true;
        }
        if feature == SupervisorMode {
          supervisor := true;
        }
      }
      assert features[..|features|] == features;
      ApplyFeaturesEffect(old(Flags()), features);
      return true;
    }

    /** getTargetDefines: appends the macros for the selected CPU and mode,
        and nothing else, to the builder. */
    method GetTargetDefines(builder: MacroBuilder, ipu21Build: bool)
      modifies builder
      ensures builder.defines == old(builder.defines) + TargetDefines(cpu, supervisor, ipu21Build)
    {
      builder.DefineMacro(IpuMacro, "1");
      if cpu == "ipu1" {
        builder.DefineMacro(ArchVersionMacro, "1");
        builder.DefineMacro(RepeatCountSizeMacro, "12");
      } else if cpu == "ipu2" {
        builder.DefineMacro(ArchVersionMacro, "2");
        builder.DefineMacro(RepeatCountSizeMacro, "16");
      } else if ipu21Build && cpu == "ipu21" {
        builder.DefineMacro(ArchVersionMacro, "21");
        builder.DefineMacro(RepeatCountSizeMacro, "16");
      }
      if supervisor {
        builder.DefineMacro(SupervisorMacro, "1");
      }
    }
  }

  /** A target for ipu2 given only the legacy "-worker": resolution yields
      "+supervisor", the feature scan from a fresh target then sets Supervisor
      and no other flag, and with that flag the predefined macros are
      __IPU__, version 2, repeat count 16 and __SUPERVISOR__. */
  lemma LegacySupervisorScenario(ipu21Build: bool)
    ensures ResolveFeatures([NoWorker]) == Success([SupervisorMode])
    ensures var flags := ApplyFeatures(FeatureFlags(false, false, false, false, false),
                                       ResolveFeatures([NoWorker]).value);
            flags == FeatureFlags(false, false, false, false, true) &&
            TargetDefines("ipu2", flags.supervisor, ipu21Build) ==
              [Macro(IpuMacro, "1"), Macro(ArchVersionMacro, "2"),
               Macro(RepeatCountSizeMacro, "16"), Macro(SupervisorMacro, "1")]
  {
    assert [NoWorker][..0] == [];
    assert ModeTokens([NoWorker]) == [] && PassThrough([NoWorker]) == [];
    assert PassThrough([NoWorker]) + [ResolvedMode([NoWorker])] == [SupervisorMode];
    assert [SupervisorMode][..0] == [];
  }

  /** Requesting "+worker" and "+supervisor" together is a conflict naming both. */
  lemma ConflictingModesScenario()
    ensures ResolveFeatures([WorkerMode, SupervisorMode]) == Failure(Conflict(WorkerMode, SupervisorMode))
  {
    assert FirstTwoModesAt([WorkerMode, SupervisorMode], 0, 1);
    ResolveFeaturesConflict([WorkerMode, SupervisorMode]);
  }
}
