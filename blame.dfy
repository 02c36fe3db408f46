/** Reducing the newest builds of the job to one decision: alert or stay quiet. */
module Blame {
  import opened Jenkins

  /** The builds looked at: the first three listed, or all of them when fewer are listed. */
  const WINDOW: nat := 3

  /** The good flags of the listed builds, in listing order. */
  function Outcomes(builds: seq<Build>): seq<bool> {
    seq(|builds|, i requires 0 <= i < |builds| => builds[i].isGood)
  }

  /** The good flags of the sampled builds: those of the first min(3, n) builds, in order. */
  function Sample(builds: seq<Build>): (flags: seq<bool>)
    ensures |flags| == if |builds| < WINDOW then |builds| else WINDOW
    ensures forall i :: 0 <= i < |flags| ==> flags[i] == builds[i].isGood
  {
    if |builds| <= WINDOW then Outcomes(builds) else Outcomes(builds[..WINDOW])
  }

  /** Reading one more build appends its flag. */
  lemma OutcomesStep(builds: seq<Build>, i: nat)
    requires i < |builds|
    ensures Outcomes(builds[..i + 1]) == Outcomes(builds[..i]) + [builds[i].isGood]
  {
    var longer, shorter := Outcomes(builds[..i + 1]), Outcomes(builds[..i]) + [builds[i].isGood];
    assert forall k :: 0 <= k < |longer| ==> longer[k] == shorter[k];
  }

  /** Blame: no flag says good. */
  predicate NoneGood(flags: seq<bool>) {
    forall i :: 0 <= i < |flags| ==> !flags[i]
  }

  /** The loop that starts from blame = true and clears it on the first good build. */
  method ReduceBlame(last3: seq<bool>) returns (blame: bool)
    ensures blame <==> NoneGood(last3)
  {
    blame := true;
    for i := 0 to |last3|
      invariant blame <==> NoneGood(last3[..i])
    {
      if last3[i] {
        blame := false;
      }
    }
    assert last3[..|last3|] == last3;
  }

  /** Blame holds exactly when none of the first min(3, |builds|) builds is good; no builds means blame. */
  lemma BlameOfSample(builds: seq<Build>)
    ensures |Sample(builds)| == if |builds| < WINDOW then |builds| else WINDOW
    ensures NoneGood(Sample(builds)) <==> forall i :: 0 <= i < |builds| && i < WINDOW ==> !builds[i].isGood
    ensures |builds| == 0 ==> NoneGood(Sample(builds))
  {
    if |builds| > WINDOW {
      assert forall i :: 0 <= i < WINDOW ==> Sample(builds)[i] == builds[i].isGood;
    }
  }

  /** Builds older than the third listed one never influence the decision. */
  lemma SampleIgnoresOlder(builds: seq<Build>, older: seq<Build>)
    requires |builds| >= WINDOW
    ensures Sample(builds + older) == Sample(builds)
  {
    assert (builds + older)[..WINDOW] == builds[..WINDOW];
  }
}
