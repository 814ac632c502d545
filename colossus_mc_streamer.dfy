/** The streamer llvm-mca parses Colossus assembly with: it records every
    emitted instruction in the code regions, flattening a bundle into the
    instructions it holds, and ignores every directive. */
module ColossusMCStreamer {

  datatype Opcode = Bundle | OtherOpcode(id: nat)

  /** A machine-code instruction; a bundle holds its inner instructions as
      operands. */
  datatype MCInst = MCInst(opcode: Opcode, operands: seq<MCOperand>)

  datatype MCOperand = InstOperand(inst: MCInst) | RegOperand(reg: nat) | ImmOperand(imm: int)

  datatype MCSymbol = MCSymbol(name: string)
  datatype MCSection = MCSection(name: string)
  datatype MCExpr = MCExpr(text: string)
  datatype MCSymbolAttr = MCSymbolAttr(id: nat)

  /** The condition the source asserts of a bundle: every operand is an
      instruction. */
  predicate WellFormedBundle(inst: MCInst) {
    inst.opcode == Bundle ==> forall k :: 0 <= k < |inst.operands| ==> inst.operands[k].InstOperand?
  }

  /** What emitInstruction records for inst: a bundle's operands in index
      order, then the bundle itself; any other instruction alone. Operands
      that are bundles themselves are recorded as they are. */
  function Flatten(inst: MCInst): (r: seq<MCInst>)
    requires WellFormedBundle(inst)
    ensures inst.opcode != Bundle ==> r == [inst]
    ensures inst.opcode == Bundle ==> |r| == |inst.operands| + 1
    ensures |r| >= 1 && r[|r| - 1] == inst
    ensures inst.opcode == Bundle ==>
              forall k :: 0 <= k < |inst.operands| ==> r[k] == inst.operands[k].inst
  {
    if inst.opcode == Bundle then
      seq(|inst.operands|, k requires 0 <= k < |inst.operands| => inst.operands[k].inst) + [inst]
    else [inst]
  }

  /** A bundle inside a bundle is recorded as one entry, not expanded. */
  lemma FlattenOneLevel(inst: MCInst, k: nat)
    requires WellFormedBundle(inst) && inst.opcode == Bundle
    requires k < |inst.operands| && inst.operands[k].inst.opcode == Bundle
    ensures Flatten(inst)[k] == inst.operands[k].inst
    ensures |Flatten(inst)| == |inst.operands| + 1
  {
  }

  /** The code regions, as the sequence of instructions recorded so far. */
  class CodeRegions {
    var instructions: seq<MCInst>

    constructor ()
      ensures instructions == []
    {
      instructions := [];
    }

    method AddInstruction(inst: MCInst)
      modifies this
      ensures instructions == old(instructions) + [inst]
    {
      instructions := instructions + [inst];
    }
  }

  class MCStreamerWrapper {
    const regions: CodeRegions

    constructor (r: CodeRegions)
      ensures regions == r
    {
      regions := r;
    }

    /** emitInstruction: appends Flatten(inst) to the regions; what was
        recorded before stays, in place. */
    method EmitInstruction(inst: MCInst)
      requires WellFormedBundle(inst)
      modifies regions
      ensures regions.instructions == old(regions.instructions) + Flatten(inst)
      ensures regions.instructions[..|old(regions.instructions)|] == old(regions.instructions)
    {
      if inst.opcode == Bundle {
        for i := 0 to |inst.operands|
          invariant regions.instructions ==
                    old(regions.instructions) + Flatten(inst)[..i]
        {
          regions.AddInstruction(inst.operands[i].inst);
        }
      }
      regions.AddInstruction(inst);
    }

    /** emitSymbolAttribute: accepts every attribute and records nothing. */
    method EmitSymbolAttribute(symbol: MCSymbol, attribute: MCSymbolAttr) returns (ok: bool)
      ensures ok
      ensures regions.instructions == old(regions.instructions)
    {
      return true;
    }

    method EmitCommonSymbol(symbol: MCSymbol, size: nat, byteAlignment: nat)
      ensures regions.instructions == old(regions.instructions)
    {
    }

    method EmitZerofill(section: MCSection, symbol: MCSymbol, size: nat, byteAlignment: nat)
      ensures regions.instructions == old(regions.instructions)
    {
    }

    method EmitGPRel32Value(value: MCExpr)
      ensures regions.instructions == old(regions.instructions)
    {
    }

    method BeginCOFFSymbolDef(symbol: MCSymbol)
      ensures regions.instructions == old(regions.instructions)
    {
    }

    method EmitCOFFSymbolStorageClass(storageClass: int)
      ensures regions.instructions == old(regions.instructions)
    {
    }

    method EmitCOFFSymbolType(symbolType: int)
      ensures regions.instructions == old(regions.instructions)
    {
    }

    method EndCOFFSymbolDef()
      ensures regions.instructions == old(regions.instructions)
    {
    }
  }
}
