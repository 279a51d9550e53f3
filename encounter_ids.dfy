/** The synthesised encounter id `f"{run_id}_{idx:03d}"` and how it is read back. */
module EncounterIds {
  import opened Wrappers
  import opened Decimal

  /** `f"{run_id}_{idx:03d}"`, given the text of the run id. */
  function SynthesizedEncounterId(runIdText: string, idx: nat): (id: string)
    ensures |id| == |runIdText| + 1 + |Pad3(idx)|
    ensures id[..|runIdText|] == runIdText && id[|runIdText|] == '_'
    ensures AllDigits(id[|runIdText| + 1..]) && Decode(id[|runIdText| + 1..]) == idx
  {
    var id := runIdText + "_" + Pad3(idx);
    assert id[|runIdText| + 1..] == Pad3(idx);
    Pad3RoundTrip(idx);
    id
  }

  /** Position of the last '_' in s, if there is one. */
  function LastUnderscore(s: string): (r: Option<nat>)
    ensures r.Some? ==> r.value < |s| && s[r.value] == '_'
    ensures r.Some? ==> forall k :: r.value < k < |s| ==> s[k] != '_'
    ensures r.None? ==> forall k :: 0 <= k < |s| ==> s[k] != '_'
    decreases |s|
  {
    if s == [] then None
    else if s[|s| - 1] == '_' then Some(|s| - 1)
    else LastUnderscore(s[..|s| - 1])
  }

  /**
   * Reads an encounter id back: the text before its last '_' and the decimal
   * number after it, when that part is a non-empty run of digits.
   */
  function SplitEncounterId(id: string): (r: Option<(string, nat)>)
    ensures r.Some? ==> |r.value.0| < |id| && id[..|r.value.0|] == r.value.0 && id[|r.value.0|] == '_'
  {
    match LastUnderscore(id)
    case None => None
    case Some(p) =>
      var suffix := id[p + 1..];
      if suffix != [] && AllDigits(suffix) then Some((id[..p], Decode(suffix))) else None
  }

  /** A synthesised id determines its run id text and its index, even when the run id contains '_'. */
  lemma EncounterIdRoundTrip(runIdText: string, idx: nat)
    ensures SplitEncounterId(SynthesizedEncounterId(runIdText, idx)) == Some((runIdText, idx))
  {
    var id := SynthesizedEncounterId(runIdText, idx);
    var n := |runIdText|;
    assert id[n + 1..] == Pad3(idx);
    var p := LastUnderscore(id);
    assert p.Some? && p.value >= n by {
      assert id[n] == '_';
    }
    assert p.value == n;
  }

  /** Distinct (run id text, index) pairs never collide on a synthesised id. */
  lemma SynthesizedIdsDistinct(r1: string, i1: nat, r2: string, i2: nat)
    requires (r1, i1) != (r2, i2)
    ensures SynthesizedEncounterId(r1, i1) != SynthesizedEncounterId(r2, i2)
  {
    EncounterIdRoundTrip(r1, i1);
    EncounterIdRoundTrip(r2, i2);
  }
}
