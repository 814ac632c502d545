/** Feature handling of the Colossus target: the resolution of the execution
    mode in ColossusTargetInfo::initFeatureMap, and the flags that
    ColossusTargetInfo::handleTargetFeatures derives from the resolved
    feature list. */
module ColossusFeatures {
  import opened Wrappers

  const WorkerMode: string := "+worker"
  const SupervisorMode: string := "+supervisor"
  const BothMode: string := "+both"
  /** The legacy spelling of "-msupervisor". */
  const NoWorker: string := "-worker"

  /** The three mutually exclusive mode tokens. */
  predicate IsModeToken(f: string) {
    f == WorkerMode || f == SupervisorMode || f == BothMode
  }

  /** Tokens that initFeatureMap passes on unchanged. */
  predicate IsPassThrough(f: string) {
    f != NoWorker && !IsModeToken(f)
  }

  /** The diagnostic reported on a second mode token: the token recorded
      before and the one that clashes with it. */
  datatype Conflict = Conflict(earlier: string, later: string)

  /** The mode tokens of fs, in order. */
  function ModeTokens(fs: seq<string>): seq<string>
  {
    if fs == [] then []
    else ModeTokens(fs[..|fs| - 1]) + (if IsModeToken(fs[|fs| - 1]) then [fs[|fs| - 1]] else [])
  }

  /** The pass-through tokens of fs, in order. */
  function PassThrough(fs: seq<string>): seq<string>
  {
    if fs == [] then []
    else PassThrough(fs[..|fs| - 1]) + (if IsPassThrough(fs[|fs| - 1]) then [fs[|fs| - 1]] else [])
  }

  /** The mode appended after the pass-through tokens: the explicit token,
      else "+supervisor" when "-worker" was given, else "+worker". */
  function ResolvedMode(fs: seq<string>): string
  {
    var modes := ModeTokens(fs);
    if |modes| > 0 then modes[0]
    else if NoWorker in fs then SupervisorMode
    else WorkerMode
  }

  /** Reference definition of initFeatureMap's feature vector: a conflict
      when two mode tokens are requested, else the pass-through tokens
      followed by the resolved mode. */
  function ResolveFeatures(fs: seq<string>): Result<seq<string>, Conflict>
  {
    var modes := ModeTokens(fs);
    if |modes| >= 2 then Failure(Conflict(modes[0], modes[1]))
    else Success(PassThrough(fs) + [ResolvedMode(fs)])
  }

  predicate NoModeIn(fs: seq<string>) {
    forall k :: 0 <= k < |fs| ==> !IsModeToken(fs[k])
  }

  /** Position i holds the only mode token of fs. */
  predicate OnlyModeAt(fs: seq<string>, i: int) {
    0 <= i < |fs| && IsModeToken(fs[i]) &&
    forall k :: 0 <= k < |fs| && k != i ==> !IsModeToken(fs[k])
  }

  /** Positions i and j hold the first two mode tokens of fs. */
  predicate FirstTwoModesAt(fs: seq<string>, i: int, j: int) {
    0 <= i < j < |fs| && IsModeToken(fs[i]) && IsModeToken(fs[j]) &&
    forall k :: 0 <= k < j && k != i ==> !IsModeToken(fs[k])
  }

  lemma {:induction false} ModeTokensAppend(a: seq<string>, b: seq<string>)
    ensures ModeTokens(a + b) == ModeTokens(a) + ModeTokens(b)
    decreases |b|
  {
    if b == [] {
      assert a + b == a;
    } else {
      var n := |b| - 1;
      assert (a + b)[..|a + b| - 1] == a + b[..n];
      ModeTokensAppend(a, b[..n]);
    }
  }

  /** Every element of ModeTokens(fs) is a mode token. */
  lemma {:induction false} ModeTokensAreModes(fs: seq<string>)
    ensures forall x :: x in ModeTokens(fs) ==> IsModeToken(x)
  {
    if fs != [] {
      ModeTokensAreModes(fs[..|fs| - 1]);
    }
  }

  /** No mode token is collected exactly when no position holds one. */
  lemma {:induction false} ModeTokensNone(fs: seq<string>)
    ensures ModeTokens(fs) == [] <==> NoModeIn(fs)
  {
    if fs != [] {
      var n := |fs| - 1;
      ModeTokensNone(fs[..n]);
      if NoModeIn(fs[..n]) && !IsModeToken(fs[n]) {
        forall k | 0 <= k < |fs| ensures !IsModeToken(fs[k]) {
          if k < n { assert fs[k] == fs[..n][k]; }
        }
      }
      if NoModeIn(fs) {
        assert NoModeIn(fs[..n]);
      }
    }
  }

  /** A single mode token at position i is what ModeTokens collects. */
  lemma {:induction false} ModeTokensOnly(fs: seq<string>, i: int)
    requires OnlyModeAt(fs, i)
    ensures ModeTokens(fs) == [fs[i]]
  {
    var n := |fs| - 1;
    if i == n {
      assert NoModeIn(fs[..n]);
      ModeTokensNone(fs[..n]);
    } else {
      assert OnlyModeAt(fs[..n], i);
      ModeTokensOnly(fs[..n], i);
    }
  }

  /** One collected mode token stands at exactly one position. */
  lemma {:induction false} ModeTokensOneWitness(fs: seq<string>)
    requires |ModeTokens(fs)| == 1
    ensures exists i :: OnlyModeAt(fs, i)
  {
    var n := |fs| - 1;
    var p := fs[..n];
    if IsModeToken(fs[n]) {
      ModeTokensNone(p);
      assert OnlyModeAt(fs, n);
    } else {
      ModeTokensOneWitness(p);
      var i :| OnlyModeAt(p, i);
      assert OnlyModeAt(fs, i);
    }
  }

  /** The first two mode positions give the first two collected tokens. */
  lemma {:induction false} ModeTokensFirstTwo(fs: seq<string>, i: int, j: int)
    requires FirstTwoModesAt(fs, i, j)
    ensures |ModeTokens(fs)| >= 2 && ModeTokens(fs)[0] == fs[i] && ModeTokens(fs)[1] == fs[j]
  {
    var n := |fs| - 1;
    var p := fs[..n];
    if j == n {
      assert OnlyModeAt(p, i);
      ModeTokensOnly(p, i);
    } else {
      assert FirstTwoModesAt(p, i, j);
      ModeTokensFirstTwo(p, i, j);
    }
  }

  /** Two collected mode tokens stand at two positions. */
  lemma {:induction false} ModeTokensTwoWitness(fs: seq<string>)
    requires |ModeTokens(fs)| >= 2
    ensures exists i, j :: FirstTwoModesAt(fs, i, j)
  {
    var n := |fs| - 1;
    var p := fs[..n];
    if |ModeTokens(p)| >= 2 {
      ModeTokensTwoWitness(p);
      var i, j :| FirstTwoModesAt(p, i, j);
      assert FirstTwoModesAt(fs, i, j);
    } else {
      ModeTokensOneWitness(p);
      var i :| OnlyModeAt(p, i);
      assert FirstTwoModesAt(fs, i, n);
    }
  }

  /** At most one collected mode token means at most one mode position. */
  lemma ModeTokensAtMostOne(fs: seq<string>)
    requires |ModeTokens(fs)| <= 1
    ensures !exists i, j :: 0 <= i < j < |fs| && IsModeToken(fs[i]) && IsModeToken(fs[j])
  {
    if |ModeTokens(fs)| == 0 {
      ModeTokensNone(fs);
    } else {
      ModeTokensOneWitness(fs);
    }
  }

  /** The pass-through list holds exactly the input tokens that are neither
      "-worker" nor a mode token. */
  lemma {:induction false} PassThroughMembers(fs: seq<string>)
    ensures forall x :: x in PassThrough(fs) <==> x in fs && IsPassThrough(x)
  {
    if fs != [] {
      var n := |fs| - 1;
      PassThroughMembers(fs[..n]);
      assert fs == fs[..n] + [fs[n]];
    }
  }

  /** initFeatureMap fails exactly when two positions hold mode tokens (the
      same token twice included), and the diagnostic names the first mode
      token and the second, at which the scan stops. */
  lemma ResolveFeaturesConflict(fs: seq<string>)
    ensures ResolveFeatures(fs).Failure? <==>
              exists i, j :: 0 <= i < j < |fs| && IsModeToken(fs[i]) && IsModeToken(fs[j])
    ensures forall i, j :: FirstTwoModesAt(fs, i, j) ==>
              ResolveFeatures(fs) == Failure(Conflict(fs[i], fs[j]))
  {
    if |ModeTokens(fs)| >= 2 {
      ModeTokensTwoWitness(fs);
    } else {
      ModeTokensAtMostOne(fs);
    }
    forall i, j | FirstTwoModesAt(fs, i, j) ensures ResolveFeatures(fs) == Failure(Conflict(fs[i], fs[j])) {
      ModeTokensFirstTwo(fs, i, j);
    }
  }

  /** On success the vector holds the pass-through tokens in their original
      order, followed by exactly one mode token. */
  lemma ResolveFeaturesOutput(fs: seq<string>)
    requires ResolveFeatures(fs).Success?
    ensures var out := ResolveFeatures(fs).value;
      && |out| >= 1
      && out[..|out| - 1] == PassThrough(fs)
      && (forall x :: x in out[..|out| - 1] <==> x in fs && IsPassThrough(x))
      && ModeTokens(out) == [out[|out| - 1]]
  {
    var out := ResolveFeatures(fs).value;
    var pt := PassThrough(fs);
    var m := ResolvedMode(fs);
    assert out == pt + [m];
    assert out[..|out| - 1] == pt;
    PassThroughMembers(fs);
    assert NoModeIn(pt) by {
      forall k | 0 <= k < |pt| ensures !IsModeToken(pt[k]) {
        assert pt[k] in pt;
      }
    }
    ModeTokensNone(pt);
    assert IsModeToken(m) by {
      if ModeTokens(fs) != [] {
        ModeTokensAreModes(fs);
        assert ModeTokens(fs)[0] in ModeTokens(fs);
      }
    }
  }

  /** On success the appended mode is the explicit mode token, else
      "+supervisor" when "-worker" was given, else "+worker". */
  lemma ResolveFeaturesMode(fs: seq<string>)
    requires ResolveFeatures(fs).Success?
    ensures var out := ResolveFeatures(fs).value;
      && |out| >= 1
      && (forall i :: 0 <= i < |fs| && IsModeToken(fs[i]) ==> out[|out| - 1] == fs[i])
      && (NoModeIn(fs) && NoWorker in fs ==> out[|out| - 1] == SupervisorMode)
      && (NoModeIn(fs) && NoWorker !in fs ==> out[|out| - 1] == WorkerMode)
  {
    ModeTokensNone(fs);
    if !NoModeIn(fs) {
      ModeTokensOneWitness(fs);
      var m :| OnlyModeAt(fs, m);
      ModeTokensOnly(fs, m);
    }
  }

  /** The capability flags that handleTargetFeatures sets. */
  datatype FeatureFlags = FeatureFlags(
    halfArgsAndReturns: bool,
    hasLegalHalfType: bool,
    hasFloat16: bool,
    worker: bool,
    supervisor: bool)

  /** One iteration of handleTargetFeatures' loop. */
  function ApplyFeature(flags: FeatureFlags, f: string): FeatureFlags
  {
    var afterWorker :=
      if f == WorkerMode then
        flags.(halfArgsAndReturns := true, hasLegalHalfType := true, hasFloat16 := true, worker := true)
      else flags;
    if f == SupervisorMode then afterWorker.(supervisor := true) else afterWorker
  }

  /** handleTargetFeatures' loop over fs, from left to right. */
  function ApplyFeatures(flags: FeatureFlags, fs: seq<string>): FeatureFlags
  {
    if fs == [] then flags
    else ApplyFeature(ApplyFeatures(flags, fs[..|fs| - 1]), fs[|fs| - 1])
  }

  /** "+worker" sets the three half-type flags and Worker, "+supervisor" sets
      Supervisor; nothing is ever reset and every other token ("+both"
      included) sets nothing. */
  lemma {:induction false} ApplyFeaturesEffect(flags: FeatureFlags, fs: seq<string>)
    ensures var r := ApplyFeatures(flags, fs);
      && r.halfArgsAndReturns == (flags.halfArgsAndReturns || WorkerMode in fs)
      && r.hasLegalHalfType == (flags.hasLegalHalfType || WorkerMode in fs)
      && r.hasFloat16 == (flags.hasFloat16 || WorkerMode in fs)
      && r.worker == (flags.worker || WorkerMode in fs)
      && r.supervisor == (flags.supervisor || SupervisorMode in fs)
  {
    if fs != [] {
      var n := |fs| - 1;
      ApplyFeaturesEffect(flags, fs[..n]);
      assert fs == fs[..n] + [fs[n]];
    }
  }

  /** What one more token adds to the prefix summaries of the scan. */
  lemma ScanStep(fs: seq<string>, i: nat)
    requires i < |fs|
    ensures ModeTokens(fs[..i + 1]) == ModeTokens(fs[..i]) + (if IsModeToken(fs[i]) then [fs[i]] else [])
    ensures PassThrough(fs[..i + 1]) == PassThrough(fs[..i]) + (if IsPassThrough(fs[i]) then [fs[i]] else [])
    ensures (NoWorker in fs[..i + 1]) == (NoWorker in fs[..i] || fs[i] == NoWorker)
  {
    assert fs[..i + 1][..i] == fs[..i];
    assert fs[..i + 1] == fs[..i] + [fs[i]];
  }

  /** A mode token after one already seen decides the whole resolution. */
  lemma ConflictAt(fs: seq<string>, i: nat)
    requires i < |fs| && |ModeTokens(fs[..i])| == 1 && IsModeToken(fs[i])
    ensures ResolveFeatures(fs) == Failure(Conflict(ModeTokens(fs[..i])[0], fs[i]))
  {
    ScanStep(fs, i);
    ModeTokensAppend(fs[..i + 1], fs[i + 1..]);
    assert fs[..i + 1] + fs[i + 1..] == fs;
  }

  /** ColossusTargetInfo::initFeatureMap, up to the call of the base class:
      one scan of the features, returning the updated vector or the
      conflict it reports. */
  method InitFeatureMap(features: seq<string>) returns (r: Result<seq<string>, Conflict>)
    ensures r == ResolveFeatures(features)
  {
    var hasImplicitSupervisorTarget := false;
    var targetFeat := "";
    var updated: seq<string> := [];
    for i := 0 to |features|
      invariant updated == PassThrough(features[..i])
      invariant hasImplicitSupervisorTarget == (NoWorker in features[..i])
      invariant |ModeTokens(features[..i])| <= 1
      invariant (targetFeat == "") == (ModeTokens(features[..i]) == [])
      invariant ModeTokens(features[..i]) != [] ==> targetFeat == ModeTokens(features[..i])[0]
    {
      var f := features[i];
      ScanStep(features, i);
      if f == NoWorker {
        hasImplicitSupervisorTarget := true;
      } else if f == WorkerMode || f == SupervisorMode || f == BothMode {
        if targetFeat != "" {
          ConflictAt(features, i);
          return Failure(Conflict(targetFeat, f));
        }
        targetFeat := f;
      } else {
        updated := updated + [f];
      }
    }
    assert features[..|features|] == features;
    if targetFeat != "" {
      updated := updated + [targetFeat];
    } else if hasImplicitSupervisorTarget {
      updated := updated + [SupervisorMode];
    } else {
      updated := updated + [WorkerMode];
    }
    return Success(updated);
  }
}
