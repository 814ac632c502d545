/** The register names and aliases the Colossus target gives inline
    assembly: sixteen $m (address) registers, sixteen $a (data) registers,
    four $a register pairs, and eight named aliases. */
module ColossusRegisters {

  /** A named alias for a canonical register. */
  datatype GCCRegAlias = GCCRegAlias(aliases: seq<string>, register: string)

  const GCCRegNames: seq<string> := [
    "$m0",  "$m1",  "$m2",  "$m3",  "$m4",  "$m5",   "$m6",   "$m7",   "$m8",
    "$m9",  "$m10", "$m11", "$m12", "$m13", "$m14",  "$m15",  "$a0",   "$a1",
    "$a2",  "$a3",  "$a4",  "$a5",  "$a6",  "$a7",   "$a8",   "$a9",   "$a10",
    "$a11", "$a12", "$a13", "$a14", "$a15", "$a0:1", "$a2:3", "$a4:5", "$a6:7"
  ]

  const GCCRegAliases: seq<GCCRegAlias> := [
    GCCRegAlias(["$bp"], "$m8"),
    GCCRegAlias(["$fp"], "$m9"),
    GCCRegAlias(["$lr"], "$m10"),
    GCCRegAlias(["$sp"], "$m11"),
    GCCRegAlias(["$mworker_base"], "$m12"),
    GCCRegAlias(["$mvertex_base"], "$m13"),
    GCCRegAlias(["$azero"], "$a15"),
    GCCRegAlias(["$mzero"], "$m15")
  ]

  /** The alias names of the table, in order. */
  function AliasNames(table: seq<GCCRegAlias>): seq<string>
  {
    if table == [] then [] else table[0].aliases + AliasNames(table[1..])
  }

  predicate Distinct(s: seq<string>) {
    forall i, j :: 0 <= i < j < |s| ==> s[i] != s[j]
  }

  /** getGCCRegNames: 36 distinct register names. */
  function GetGCCRegNames(): (r: seq<string>)
    ensures |r| == 36
    ensures Distinct(r)
  {
    GCCRegNames
  }

  const AliasNameList: seq<string> :=
    ["$bp", "$fp", "$lr", "$sp", "$mworker_base", "$mvertex_base", "$azero", "$mzero"]

  lemma AliasNamesOfTable()
    ensures AliasNames(GCCRegAliases) == AliasNameList
  {
  }

  /** The shape of every register name: at most five characters, starting
      with "$m" or "$a". */
  predicate RegisterShaped(n: string) {
    2 <= |n| <= 5 && (n[1] == 'm' || n[1] == 'a')
  }

  lemma RegisterNameShape()
    ensures forall i :: 0 <= i < |GCCRegNames| ==> RegisterShaped(GCCRegNames[i])
  {
  }

  /** No alias name is also a register name: no alias name has the shape of
      one. */
  lemma AliasNamesNotRegisters()
    ensures forall n :: n in AliasNameList ==> n !in GCCRegNames
  {
    RegisterNameShape();
    forall n | n in AliasNameList ensures n !in GCCRegNames {
      assert !RegisterShaped(n);
    }
  }

  /** Every alias has one name and stands for a register of the table. */
  lemma AliasTargetsAreRegisters()
    ensures forall k :: 0 <= k < |GCCRegAliases| ==>
              |GCCRegAliases[k].aliases| == 1 && GCCRegAliases[k].register in GCCRegNames
  {
  }

  lemma AliasNamesDistinct()
    ensures Distinct(AliasNameList)
  {
  }

  /** getGCCRegAliases: eight aliases, one name each, every one naming a
      register of the table, no two alias names equal and none shadowing a
      register name; $sp, $lr and $azero stand for $m11, $m10 and $a15. */
  function GetGCCRegAliases(): (r: seq<GCCRegAlias>)
    ensures |r| == 8
    ensures forall k :: 0 <= k < |r| ==> |r[k].aliases| == 1 && r[k].register in GCCRegNames
    ensures |AliasNames(r)| == 8 && Distinct(AliasNames(r))
    ensures forall n :: n in AliasNames(r) ==> n !in GCCRegNames
    ensures GCCRegAlias(["$sp"], "$m11") in r
    ensures GCCRegAlias(["$lr"], "$m10") in r
    ensures GCCRegAlias(["$azero"], "$a15") in r
  {
    AliasNamesOfTable();
    AliasNamesNotRegisters();
    AliasTargetsAreRegisters();
    AliasNamesDistinct();
    assert GCCRegAliases[3] == GCCRegAlias(["$sp"], "$m11");
    assert GCCRegAliases[2] == GCCRegAlias(["$lr"], "$m10");
    assert GCCRegAliases[6] == GCCRegAlias(["$azero"], "$a15");
    GCCRegAliases
  }
}
