# Colossus (Graphcore IPU) target support — a Dafny model

This project models the Colossus target module of an LLVM/clang fork for the
Graphcore IPU, and proves properties of that model:

- **Target description** (`ColossusTargetInfo`): the constructor's fixed
  layout parameters, CPU selection (`isValidCPUName`, `setCPU`), the inline
  assembly hooks (`getClobbers`, `validateAsmConstraint`), the mode flags set
  by `handleTargetFeatures`, and the predefined macros of `getTargetDefines`.
- **Feature-mode resolution** (`ColossusFeatures`): `initFeatureMap` scans the
  requested features once, drops `-worker`, keeps at most one of
  `+worker`/`+supervisor`/`+both` (a second one is a conflict), and appends the
  resolved mode: explicit token, else `+supervisor` when `-worker` was given,
  else `+worker`. The scan is a method with a loop, proved equal to a
  reference definition (`ResolveFeatures`) whose properties are lemmas.
- **Register tables** (`ColossusRegisters`): 36 register names and 8 aliases,
  with their well-formedness.
- **Code generation hooks** (`ColossusCodeGen`): the vertex calling
  convention of `setTargetAttributes`, the lowering of isnan/isinf/isfinite
  in `testFPKind` (on the class ordinal of the `colossus_f32class` intrinsic),
  and `EmitVAArg`: how far the 4-byte-slot `va_list` pointer moves per ABI
  kind, whether it is stored back, and which kinds are unreachable.
- **MCA streamer** (`ColossusMCStreamer`): `emitInstruction` records a bundle's
  inner instructions in operand order, then the bundle itself, one level deep;
  the directive callbacks record nothing.

Files: `wrappers.dfy` (Option, Result), `colossus_features.dfy`,
`colossus_target_info.dfy`, `colossus_registers.dfy`, `colossus_codegen.dfy`,
`colossus_mc_streamer.dfy`.

Modelling choices:

- Unreachable paths (`llvm_unreachable`) and the conflict diagnostic are
  `Failure` results; an unsupported ABI kind leaves the `va_list` untouched.
- The `#ifdef IPU21` build switch is the parameter `ipu21Build`.
- `MacroBuilder::defineMacro` without a value defines the macro as `"1"`.
- Addresses are natural numbers; the ABI classification, the converted IR
  type (with its allocation size) and the type's alignment are inputs.
- The opcode `TargetOpcode::BUNDLE` is a datatype constructor, since its
  numeric value lives in a file that is not part of this model.
- The base `TargetInfo` constructor is not part of this model; its
  half-type flags are taken to start false.
- Behaviours of the code worth noting: `ipu21` gets version macros only in
  an IPU21 build; `IndirectAliased` is unreachable, like the other
  unsupported ABI kinds; a Direct or Extend argument of allocation size 0
  moves the pointer by 0, and nothing is stored back; a class ordinal of 7
  or more counts as finite.

## Model

| member | source | states |
|---|---|---|
| ColossusTargetInfo.IsValidCPUName | clang/lib/Basic/Targets/Colossus.h:87-89 | a name is valid iff it is one of "ipu1", "ipu2", "ipu21" |
| ColossusTargetInfo.ColossusTarget.SetCPU | clang/lib/Basic/Targets/Colossus.h:91-97 | returns true and sets the CPU to the name iff the name is valid; otherwise returns false and the CPU is unchanged; no other field changes |
| ColossusTargetInfo.ColossusTarget.constructor | clang/lib/Basic/Targets/Colossus.h:50-74 | little-endian; long 32/32, long long 64/64; double, long double and suitable alignment 32; max vector alignment 64; atomic promote/inline width 32; the integer types; CPU taken from the options; Supervisor and Worker start false |
| ColossusTargetInfo.ColossusTarget.GetClobbers | clang/lib/Basic/Targets/Colossus.h:85 | the clobber list is the empty string |
| ColossusTargetInfo.ColossusTarget.ValidateAsmConstraint | clang/lib/Basic/Targets/Colossus.h:103-106 | no constraint is ever accepted |
| ColossusTargetInfo.ColossusTarget.GetBuiltinVaListKind | clang/lib/Basic/Targets/Colossus.h:81-83 | `va_list` is a plain `void *`, not any of the other builtin `va_list` kinds |
| ColossusTargetInfo.ColossusTarget.HasBitIntType | clang/lib/Basic/Targets/Colossus.h:113 | `_BitInt` is supported |
| ColossusTargetInfo.ColossusTarget.HandleTargetFeatures | clang/lib/Basic/Targets/Colossus.cpp:101-119 | always returns true; afterwards each half-type flag and Worker is true iff it was before or "+worker" is in the list; Supervisor iff it was before or "+supervisor" is in the list; nothing else changes |
| ColossusTargetInfo.TargetDefines | clang/lib/Basic/Targets/Colossus.cpp:121-142 | `__IPU__` first; (version, repeat) = (1,12) for ipu1, (2,16) for ipu2, (21,16) for ipu21 only in an IPU21 build, none otherwise; a macro named `__SUPERVISOR__` present iff supervisor; `__IPU__` and `__SUPERVISOR__` have value 1; no other macro name, the exact count, and no macro defined twice |
| ColossusTargetInfo.ColossusTarget.GetTargetDefines | clang/lib/Basic/Targets/Colossus.cpp:121-142 | appends exactly `TargetDefines(cpu, supervisor, ipu21Build)` to the builder, a function of CPU and Supervisor only |
| ColossusTargetInfo.LegacySupervisorScenario | clang/lib/Basic/Targets/Colossus.cpp:63-142 | on ipu2 with only "-worker", resolution yields ["+supervisor"]; scanning that result from a fresh target sets Supervisor and no other flag; with that flag the macros are `__IPU__`, version 2, repeat 16, `__SUPERVISOR__` |
| ColossusTargetInfo.ConflictingModesScenario | clang/lib/Basic/Targets/Colossus.cpp:76-82 | ["+worker", "+supervisor"] fails with a conflict naming both tokens |
| ColossusFeatures.InitFeatureMap | clang/lib/Basic/Targets/Colossus.cpp:63-99 | the single scan returns exactly the reference resolution `ResolveFeatures` of its input: the conflict it reports or the updated vector |
| ColossusFeatures.ResolveFeaturesConflict | clang/lib/Basic/Targets/Colossus.cpp:76-82 | resolution fails iff two positions hold mode tokens (the same token twice included); the conflict names the first mode token and the second one, where the scan stops |
| ColossusFeatures.ResolveFeaturesOutput | clang/lib/Basic/Targets/Colossus.cpp:73-96 | on success the vector is the input without "-worker" and mode tokens, in original order, followed by exactly one mode token |
| ColossusFeatures.ResolveFeaturesMode | clang/lib/Basic/Targets/Colossus.cpp:91-96 | the appended mode is the explicit mode token when one is present (whether or not "-worker" is), else "+supervisor" when "-worker" is present, else "+worker" |
| ColossusFeatures.PassThroughMembers | clang/lib/Basic/Targets/Colossus.cpp:84-86 | the passed-on tokens are exactly the input tokens that are neither "-worker" nor a mode token |
| ColossusFeatures.ApplyFeaturesEffect | clang/lib/Basic/Targets/Colossus.cpp:104-118 | "+worker" sets HalfArgsAndReturns, HasLegalHalfType, HasFloat16 and Worker, "+supervisor" sets Supervisor; no flag is reset; "+both" and every other token set nothing |
| ColossusRegisters.GetGCCRegNames | clang/lib/Basic/Targets/Colossus.cpp:37-42 | 36 register names, pairwise distinct |
| ColossusRegisters.GetGCCRegAliases | clang/lib/Basic/Targets/Colossus.cpp:44-53 | 8 aliases of one name each; every alias target is a register name; alias names are distinct and none is a register name; `$sp`→`$m11`, `$lr`→`$m10`, `$azero`→`$a15` |
| ColossusRegisters.AliasTargetsAreRegisters | clang/lib/Basic/Targets/Colossus.cpp:44-53 | every alias entry has one name and targets a name of the register table |
| ColossusRegisters.AliasNamesNotRegisters | clang/lib/Basic/Targets/Colossus.cpp:37-53 | no alias name shadows a register name |
| ColossusCodeGen.SetTargetAttributes | clang/lib/CodeGen/Targets/Colossus.cpp:37-49 | a declaration keeps its convention; a definition whose FunctionDecl has the vertex attribute gets `Colossus_Vertex`; any other definition keeps its convention |
| ColossusCodeGen.AttributedConvIdempotent | clang/lib/CodeGen/Targets/Colossus.cpp:43-48 | applying the attribution again changes nothing |
| ColossusCodeGen.TestFPKind | clang/lib/CodeGen/Targets/Colossus.cpp:51-96 | non-float types are not lowered; on float, isnan yields 1 iff class ≤ 2 (unsigned), isinf iff class is 3 or 4, the eight finite builtins iff class ≥ 5, each result 0 or 1; any other builtin is unreachable |
| ColossusCodeGen.TestFPKindMatchesBands | clang/lib/CodeGen/Targets/Colossus.cpp:62-89 | for the class ordinals 0–6 the three tests agree with the instruction's bands: 0–2 NaN, 3–4 infinity, 5–6 finite |
| ColossusCodeGen.ExactlyOneFPTestHolds | clang/lib/CodeGen/Targets/Colossus.cpp:62-89 | for every 32-bit class value exactly one of isnan, isinf, isfinite yields 1 |
| ColossusCodeGen.AlignTo | clang/lib/CodeGen/Targets/Colossus.cpp:134 | rounding up never goes below the size and stays less than one alignment above it |
| ColossusCodeGen.VAArgAdvance | clang/lib/CodeGen/Targets/Colossus.cpp:119-142 | Expand, InAlloca, IndirectAliased, CoerceAndExpand are unreachable; Ignore moves 0; Indirect moves 4; Direct and Extend move the coerce type's size (the argument type's when none is set) rounded to a multiple of 4: at least the size, less than size + 4 |
| ColossusCodeGen.ByteArgumentTakesSlot | clang/lib/CodeGen/Targets/Colossus.cpp:129-134 | a 1-byte Direct argument still moves the pointer by 4 |
| ColossusCodeGen.EmitVAArg | clang/lib/CodeGen/Targets/Colossus.cpp:100-151 | the pointer moves forward by `VAArgAdvance` and is stored back iff the move is non-zero; Direct/Extend read at the old pointer with slot alignment; Indirect reads through the pointer loaded there at the type's own alignment; Ignore yields an undefined address; unsupported kinds fail and change nothing |
| ColossusMCStreamer.Flatten | llvm/ClossusMCStreamerWrapper.cpp:13-24 | a non-bundle records itself; a bundle with n operands records n+1 entries: the operand instructions in index order, then the bundle |
| ColossusMCStreamer.FlattenOneLevel | llvm/ClossusMCStreamerWrapper.cpp:15-20 | a bundle inside a bundle is recorded as one entry, not expanded |
| ColossusMCStreamer.MCStreamerWrapper.EmitInstruction | llvm/ClossusMCStreamerWrapper.cpp:10-25 | requires every bundle operand to be an instruction; appends `Flatten(inst)` to the regions and keeps everything recorded before in place |
| ColossusMCStreamer.MCStreamerWrapper.EmitSymbolAttribute | llvm/ClossusMCStreamerWrapper.cpp:27-29 | always returns true and records nothing |
| ColossusMCStreamer.MCStreamerWrapper.EmitCommonSymbol | llvm/ClossusMCStreamerWrapper.cpp:31-32 | records nothing |
| ColossusMCStreamer.MCStreamerWrapper.EmitZerofill | llvm/ClossusMCStreamerWrapper.cpp:33-35 | records nothing |
| ColossusMCStreamer.MCStreamerWrapper.EmitGPRel32Value | llvm/ClossusMCStreamerWrapper.cpp:36 | records nothing |
| ColossusMCStreamer.MCStreamerWrapper.BeginCOFFSymbolDef | llvm/ClossusMCStreamerWrapper.cpp:37 | records nothing |
| ColossusMCStreamer.MCStreamerWrapper.EmitCOFFSymbolStorageClass | llvm/ClossusMCStreamerWrapper.cpp:38 | records nothing |
| ColossusMCStreamer.MCStreamerWrapper.EmitCOFFSymbolType | llvm/ClossusMCStreamerWrapper.cpp:39 | records nothing |
| ColossusMCStreamer.MCStreamerWrapper.EndCOFFSymbolDef | llvm/ClossusMCStreamerWrapper.cpp:40 | records nothing |

## Left out

- The data-layout string (clang/lib/Basic/Targets/Colossus.h:72-73): it is opaque to this module.
- The builtin storage tables and `getTargetBuiltinStorage` (clang/lib/Basic/Targets/Colossus.cpp:18-35): they are generated from `BuiltinsColossus.def`, which is not part of this model.
- The call of the base `TargetInfo::initFeatureMap` that fills the feature map (clang/lib/Basic/Targets/Colossus.cpp:98): the model returns the updated feature vector it is given.
- Diagnostics: the conflict is reported as a `Conflict` value naming both tokens, not as a formatted message.
- The console messages of `handleTargetFeatures` and `getTargetDefines` (clang/lib/Basic/Targets/Colossus.cpp:110, 113, 136): console output.
- IR construction (`CreateCall`, `CreateICmp*`, `CreateOr`, `CreateZExt`, `CreateLoad`, `CreateStore`, the byte GEP): abstracted to a class ordinal, a 0/1 result and natural-number addresses.
- The `colossus_f32class` intrinsic's mapping from float bit patterns to class ordinals: it is not in this code and involves floating point; the ordinal is an input.
- `classifyArgumentType`, `ConvertType`, `getTypeAlignInChars`, `getTypeAllocSize` and `getVAListElementType`: foreign code; their results are inputs.
- `GetInstructionSequence` and the `CodeRegions` implementation (llvm/ClossusMCStreamerWrapper.cpp:42-44): the regions are modelled as one sequence of recorded instructions.
- MCStreamer/MCContext internals and the wrapper's constructor arguments other than the regions.
- AlignTo: states only the bounds (at least the size, less than size + alignment). That the result is a multiple of the alignment is proved only for the 4-byte slot, in `VAArgAdvance`.
