/** Code generation hooks of the Colossus target: the vertex calling
    convention (setTargetAttributes), the lowering of the floating-point
    class tests (testFPKind) and the reading of a variadic argument
    (ColossusABIInfo::EmitVAArg). */
module ColossusCodeGen {
  import opened Wrappers

  // ---------------------------------------------------------------------
  // setTargetAttributes

  datatype CallingConv = C | ColossusVertex | OtherConv(id: nat)

  /** The front-end declaration of a global: a function declaration, with or
      without the colossus vertex attribute, another kind of declaration, or
      none at all. */
  datatype Decl = FunctionDecl(hasColossusVertexAttr: bool) | OtherDecl | NoDecl

  predicate IsVertexFunction(d: Decl) {
    d.FunctionDecl? && d.hasColossusVertexAttr
  }

  /** An IR global; only its calling convention changes. */
  class GlobalValue {
    const isDeclaration: bool
    const isFunction: bool
    var callingConv: CallingConv

    constructor (isDeclaration: bool, isFunction: bool, callingConv: CallingConv)
      ensures this.isDeclaration == isDeclaration && this.isFunction == isFunction
      ensures this.callingConv == callingConv
    {
      this.isDeclaration := isDeclaration;
      this.isFunction := isFunction;
      this.callingConv := callingConv;
    }
  }

  /** The convention a global carries after setTargetAttributes. */
  function AttributedConv(conv: CallingConv, isDeclaration: bool, d: Decl): CallingConv
  {
    if !isDeclaration && IsVertexFunction(d) then ColossusVertex else conv
  }

  /** Applying the attribution to its own result changes nothing more. */
  lemma AttributedConvIdempotent(conv: CallingConv, isDeclaration: bool, d: Decl)
    ensures AttributedConv(AttributedConv(conv, isDeclaration, d), isDeclaration, d)
            == AttributedConv(conv, isDeclaration, d)
  {
  }

  /** setTargetAttributes: a definition whose declaration carries the vertex
      attribute gets the Colossus_Vertex convention; a declaration, or any
      other definition, keeps its convention. The global of a vertex
      function must be a function (the cast in the source asserts it). */
  method SetTargetAttributes(d: Decl, gv: GlobalValue)
    requires !gv.isDeclaration && IsVertexFunction(d) ==> gv.isFunction
    modifies gv`callingConv
    ensures gv.callingConv == AttributedConv(old(gv.callingConv), gv.isDeclaration, d)
    ensures gv.isDeclaration ==> gv.callingConv == old(gv.callingConv)
    ensures !gv.isDeclaration && IsVertexFunction(d) ==> gv.callingConv == ColossusVertex
    ensures !IsVertexFunction(d) ==> gv.callingConv == old(gv.callingConv)
  {
    if gv.isDeclaration {
      return;
    }
    if d.FunctionDecl? {
      if d.hasColossusVertexAttr {
        gv.callingConv := ColossusVertex;
      }
    }
  }

  // ---------------------------------------------------------------------
  // testFPKind

  /** The floating-point type of the tested value. */
  datatype FPType = FloatTy | HalfTy | DoubleTy | OtherFPTy

  /** The builtins that reach testFPKind. */
  datatype BuiltinID =
    | BuiltinIsnan | IpuIsnanF32
    | BuiltinIsinf | IpuIsinfF32
    | Finite | UnderscoreFinite | Finitef | UnderscoreFinitef
    | Finitel | UnderscoreFinitel | BuiltinIsfinite | IpuIsfiniteF32
    | OtherBuiltin(id: nat)

  predicate IsNanTest(b: BuiltinID) {
    b == BuiltinIsnan || b == IpuIsnanF32
  }

  predicate IsInfTest(b: BuiltinID) {
    b == BuiltinIsinf || b == IpuIsinfF32
  }

  predicate IsFiniteTest(b: BuiltinID) {
    b.Finite? || b.UnderscoreFinite? || b.Finitef? || b.UnderscoreFinitef? ||
    b.Finitel? || b.UnderscoreFinitel? || b.BuiltinIsfinite? || b.IpuIsfiniteF32?
  }

  /** The i32 class ordinal the colossus_f32class intrinsic returns. */
  type U32 = x: nat | x < 0x1_0000_0000

  /** The bands of class ordinals the classification instruction produces:
      0 to 2 are NaNs, 3 and 4 infinities, 5 and 6 finite values. */
  datatype FPClassBand = NaNBand | InfinityBand | FiniteBand

  function BandOf(cls: nat): FPClassBand
    requires cls <= 6
  {
    if cls < 3 then NaNBand else if cls < 5 then InfinityBand else FiniteBand
  }

  /** What testFPKind yields: no lowering (a null value), or the lowered i32. */
  datatype FPTestLowering = NotLowered | Lowered(value: U32)

  datatype FPTestError = UnsupportedFPTestBuiltin

  /** testFPKind on a value of type ty whose class ordinal is cls. Only
      float is lowered; each test yields 1 exactly when the class is in the
      test's band, else 0; an unknown builtin on a float is unreachable. */
  function TestFPKind(ty: FPType, builtin: BuiltinID, cls: U32): (r: Result<FPTestLowering, FPTestError>)
    ensures ty != FloatTy ==> r == Success(NotLowered)
    ensures ty == FloatTy && !IsNanTest(builtin) && !IsInfTest(builtin) && !IsFiniteTest(builtin) ==>
              r == Failure(UnsupportedFPTestBuiltin)
    ensures r.Success? && r.value.Lowered? ==> r.value.value == 0 || r.value.value == 1
    ensures ty == FloatTy && IsNanTest(builtin) ==>
              r.Success? && r.value.Lowered? && (r.value.value == 1 <==> cls <= 2)
    ensures ty == FloatTy && IsInfTest(builtin) ==>
              r.Success? && r.value.Lowered? && (r.value.value == 1 <==> cls == 3 || cls == 4)
    ensures ty == FloatTy && IsFiniteTest(builtin) ==>
              r.Success? && r.value.Lowered? && (r.value.value == 1 <==> cls >= 5)
  {
    if ty == FloatTy then
      match builtin
      case BuiltinIsnan | IpuIsnanF32 =>
        Success(Lowered(if cls <= 2 then 1 else 0))
      case BuiltinIsinf | IpuIsinfF32 =>
        var eq3 := cls == 3;
        var eq4 := cls == 4;
        Success(Lowered(if eq3 || eq4 then 1 else 0))
      case Finite | UnderscoreFinite | Finitef | UnderscoreFinitef
         | Finitel | UnderscoreFinitel | BuiltinIsfinite | IpuIsfiniteF32 =>
        Success(Lowered(if cls >= 5 then 1 else 0))
      case OtherBuiltin(_) =>
        Failure(UnsupportedFPTestBuiltin)
    else
      Success(NotLowered)
  }

  /** The value a lowered test yields, 0 when it is not lowered. */
  function LoweredBit(r: Result<FPTestLowering, FPTestError>): nat
  {
    if r.Success? && r.value.Lowered? then r.value.value else 0
  }

  /** On a float, the three tests agree with the class bands of the
      classification instruction. */
  lemma TestFPKindMatchesBands(cls: U32)
    requires cls <= 6
    ensures LoweredBit(TestFPKind(FloatTy, BuiltinIsnan, cls)) == 1 <==> BandOf(cls) == NaNBand
    ensures LoweredBit(TestFPKind(FloatTy, BuiltinIsinf, cls)) == 1 <==> BandOf(cls) == InfinityBand
    ensures LoweredBit(TestFPKind(FloatTy, BuiltinIsfinite, cls)) == 1 <==> BandOf(cls) == FiniteBand
  {
  }

  /** For every class ordinal, on a float exactly one of isnan, isinf and
      isfinite yields 1. */
  lemma ExactlyOneFPTestHolds(cls: U32)
    ensures LoweredBit(TestFPKind(FloatTy, BuiltinIsnan, cls))
            + LoweredBit(TestFPKind(FloatTy, BuiltinIsinf, cls))
            + LoweredBit(TestFPKind(FloatTy, BuiltinIsfinite, cls)) == 1
  {
  }

  // ---------------------------------------------------------------------
  // EmitVAArg

  /** The kinds of ABIArgInfo. */
  datatype ABIKind =
    Direct | Extend | Indirect | IndirectAliased | Ignore | Expand | CoerceAndExpand | InAlloca

  /** The kinds EmitVAArg does not handle. */
  predicate IsUnsupportedVAArgKind(k: ABIKind) {
    k == Expand || k == InAlloca || k == IndirectAliased || k == CoerceAndExpand
  }

  /** An IR type, known here by its name and its allocation size in bytes. */
  datatype IRType = IRType(name: string, allocSize: nat)

  /** The classification of the argument: its kind and its coerce type, if set. */
  datatype ABIArgInfo = ABIArgInfo(kind: ABIKind, coerceToType: Option<IRType>)

  predicate CanHaveCoerceToType(k: ABIKind) {
    k == Direct || k == Extend || k == CoerceAndExpand
  }

  /** The pointer of an address: undefined, a byte address in the argument
      area, or the pointer stored at such an address. */
  datatype Pointer = Undef | At(addr: nat) | LoadedFrom(addr: nat)

  /** The element type of an address: the argument type or a pointer to it. */
  datatype ElemType = ValueOf(ty: IRType) | PointerTo(ty: IRType)

  datatype Address = Address(pointer: Pointer, elementType: ElemType, alignment: nat)

  datatype VAArgError = UnsupportedABIKind

  /** Every variadic argument occupies whole 4-byte slots. */
  const SlotSize: nat := 4

  /** CharUnits::alignTo: n rounded up to a multiple of align; it is never
      below n and less than one align above it. */
  function AlignTo(n: nat, align: nat): (r: nat)
    requires align > 0
    ensures n <= r < n + align
  {
    var q := (n + align - 1) / align;
    assert q * align <= n + align - 1 < q * align + align;
    q * align
  }

  /** The size of the argument slot coerce type after defaulting. */
  function CoercedSize(ai: ABIArgInfo, argTy: IRType): nat
  {
    if ai.coerceToType.Some? then ai.coerceToType.value.allocSize else argTy.allocSize
  }

  /** How far the va_list pointer moves for an argument: nothing for
      Ignore, the slot-rounded size for Direct and Extend, one slot for
      Indirect; the other kinds are unreachable. */
  function VAArgAdvance(ai: ABIArgInfo, argTy: IRType): (r: Result<nat, VAArgError>)
    ensures r.Failure? <==> IsUnsupportedVAArgKind(ai.kind)
    ensures ai.kind == Ignore ==> r == Success(0)
    ensures ai.kind == Indirect ==> r == Success(SlotSize)
    ensures ai.kind == Direct || ai.kind == Extend ==>
              r.Success? &&
              CoercedSize(ai, argTy) <= r.value < CoercedSize(ai, argTy) + SlotSize &&
              r.value % SlotSize == 0
  {
    match ai.kind
    case Expand | InAlloca | IndirectAliased | CoerceAndExpand => Failure(UnsupportedABIKind)
    case Ignore => Success(0)
    case Direct | Extend => Success(AlignTo(CoercedSize(ai, argTy), SlotSize))
    case Indirect => Success(SlotSize)
  }

  /** A 1-byte value read directly still consumes a whole slot. */
  lemma ByteArgumentTakesSlot(ty: IRType)
    requires ty.allocSize == 1
    ensures VAArgAdvance(ABIArgInfo(Direct, None), ty) == Success(4)
  {
  }

  /** The va_list slot in memory: the pointer it holds and how many times the
      generated code has stored to it. */
  class VAList {
    var cursor: nat
    var stores: nat

    constructor (start: nat)
      ensures cursor == start && stores == 0
    {
      cursor := start;
      stores := 0;
    }
  }

  /** ColossusABIInfo::EmitVAArg for an argument of IR type argTy and
      natural alignment typeAlign whose classification is ai. The value is
      read at the current pointer (Direct, Extend), through the pointer stored
      there (Indirect), or is undefined (Ignore); the pointer advances by
      VAArgAdvance and is stored back exactly when that advance is not zero;
      the other kinds are unreachable and change nothing. */
  method EmitVAArg(vaList: VAList, ai: ABIArgInfo, argTy: IRType, typeAlign: nat)
    returns (r: Result<Address, VAArgError>)
    modifies vaList
    ensures r.Failure? <==> IsUnsupportedVAArgKind(ai.kind)
    ensures r.Failure? ==> vaList.cursor == old(vaList.cursor) && vaList.stores == old(vaList.stores)
    ensures r.Success? ==>
              VAArgAdvance(ai, argTy) == Success(vaList.cursor - old(vaList.cursor)) &&
              vaList.cursor >= old(vaList.cursor)
    ensures vaList.stores == old(vaList.stores) + (if vaList.cursor == old(vaList.cursor) then 0 else 1)
    ensures ai.kind == Ignore ==> r == Success(Address(Undef, PointerTo(argTy), typeAlign))
    ensures ai.kind == Direct || ai.kind == Extend ==>
              r == Success(Address(At(old(vaList.cursor)), ValueOf(argTy), SlotSize))
    ensures ai.kind == Indirect ==>
              r == Success(Address(LoadedFrom(old(vaList.cursor)), ValueOf(argTy), typeAlign))
  {
    var ap := vaList.cursor;
    var info := ai;
    if CanHaveCoerceToType(info.kind) && info.coerceToType.None? {
      info := info.(coerceToType := Some(argTy));
    }
    var argSize: nat := 0;
    match info.kind {
      case Expand =>
        return Failure(UnsupportedABIKind);
      case InAlloca =>
        return Failure(UnsupportedABIKind);
      case IndirectAliased =>
        return Failure(UnsupportedABIKind);
      case CoerceAndExpand =>
        return Failure(UnsupportedABIKind);
      case Ignore =>
        r := Success(Address(Undef, PointerTo(argTy), typeAlign));
        argSize := 0;
      case Direct =>
        r := Success(Address(At(ap), ValueOf(argTy), SlotSize));
        argSize := info.coerceToType.value.allocSize;
        argSize := AlignTo(argSize, SlotSize);
      case Extend =>
        r := Success(Address(At(ap), ValueOf(argTy), SlotSize));
        argSize := info.coerceToType.value.allocSize;
        argSize := AlignTo(argSize, SlotSize);
      case Indirect =>
        r := Success(Address(LoadedFrom(ap), ValueOf(argTy), typeAlign));
        argSize := SlotSize;
    }
    if argSize != 0 {
      vaList.cursor := ap + argSize;
      vaList.stores := vaList.stores + 1;
    }
  }
}
