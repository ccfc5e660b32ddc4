/** Converting a scale's step pattern ("W-W-H-...") back to semitone offsets
    from the root, for scales that carry a pattern but no interval list. */
module StepPattern {
  import opened Js
  import opened MusicTheory

  /** The offsets a list of steps spells: entry k is the sum of the first k
      steps, so the last step never contributes. */
  function IntervalsOf(steps: seq<string>): (r: seq<int>)
    requires |steps| >= 1
    ensures |r| == |steps| && r[0] == 0
  {
    assert steps[..0] == [];
    seq(|steps|, k requires 0 <= k < |steps| => StepTotal(steps[..k]) as int)
  }

  /** patternToIntervals: offset 0 for the root, then the running total after
      each step but the last. */
  method PatternToIntervals(pattern: string) returns (intervals: seq<int>)
    ensures |intervals| == |Split(pattern, '-')| >= 1
    ensures intervals == IntervalsOf(Split(pattern, '-'))
  {
    var steps := Split(pattern, '-');
    intervals := [0];
    var currentInterval := 0;
    var i := 0;
    assert steps[..0] == [];
    while i < |steps| - 1
      invariant 0 <= i <= |steps| - 1
      invariant currentInterval == StepTotal(steps[..i])
      invariant |intervals| == i + 1
      invariant forall k :: 0 <= k <= i ==> intervals[k] == StepTotal(steps[..k])
    {
      var step := steps[i];
      if step == "W" {
        currentInterval := currentInterval + 2;
      } else if step == "H" {
        currentInterval := currentInterval + 1;
      } else if step == "WH" {
        currentInterval := currentInterval + 3;
      }
      assert steps[..i + 1][..i] == steps[..i];
      intervals := intervals + [currentInterval];
      i := i + 1;
    }
  }

  /** The running total after one more step. */
  lemma TotalStep(steps: seq<string>, k: int)
    requires 0 <= k < |steps|
    ensures StepTotal(steps[..k + 1]) == StepTotal(steps[..k]) + StepSize(steps[k])
  {
    assert steps[..k + 1][..k] == steps[..k];
  }

  /** The offsets never decrease. */
  lemma {:induction false} IntervalsNonDecreasing(steps: seq<string>, i: int, j: int)
    requires |steps| >= 1 && 0 <= i <= j < |steps|
    ensures IntervalsOf(steps)[i] <= IntervalsOf(steps)[j]
    decreases j - i
  {
    if i < j {
      IntervalsNonDecreasing(steps, i, j - 1);
      TotalStep(steps, j - 1);
    }
  }

  /** Only the token's exact spelling counts: a step other than W, H or WH
      adds nothing. */
  lemma UnknownStepAddsNothing(steps: seq<string>, k: int)
    requires 0 <= k < |steps| - 1
    requires steps[k] != "W" && steps[k] != "H" && steps[k] != "WH"
    ensures IntervalsOf(steps)[k + 1] == IntervalsOf(steps)[k]
  {
    TotalStep(steps, k);
  }

  /** The last token never contributes: replacing it changes nothing. */
  lemma LastTokenIgnored(steps: seq<string>, t: string)
    requires |steps| >= 1
    ensures IntervalsOf(steps[..|steps| - 1] + [t]) == IntervalsOf(steps)
  {
    var other := steps[..|steps| - 1] + [t];
    forall k | 0 <= k < |steps|
      ensures other[..k] == steps[..k]
    {
    }
  }

  /** A step list that spells an interval list starting at the root
      reproduces that list. */
  lemma {:induction false} SpelledIntervalsReproduced(steps: seq<string>, ivs: seq<int>, k: int)
    requires StepsSpell(steps, ivs) && ivs[0] == 0
    requires 0 <= k < |steps|
    ensures IntervalsOf(steps)[k] == ivs[k]
  {
    if k > 0 {
      SpelledIntervalsReproduced(steps, ivs, k - 1);
      TotalStep(steps, k - 1);
    }
  }

  /** For every scale of the table, converting its pattern gives back its
      interval list. */
  lemma ScalePatternsReproduceIntervals(i: int)
    requires 0 <= i < |SCALES|
    ensures IntervalsOf(Split(SCALES[i].1.pattern, '-')) == SCALES[i].1.intervals
  {
    var sc := SCALES[i].1;
    var steps := Split(sc.pattern, '-');
    ScalePatternsMatch(i);
    ScalesWellFormed(i);
    forall k | 0 <= k < |steps|
      ensures IntervalsOf(steps)[k] == sc.intervals[k]
    {
      SpelledIntervalsReproduced(steps, sc.intervals, k);
    }
  }
}
