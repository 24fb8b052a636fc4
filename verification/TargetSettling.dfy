/**
  Two ways to wait until an element holds still before it is clicked: one remembers a single box and
  forgets it whenever the target is unusable, the other keeps every position it has seen.
 */
module TargetSettling {
  import opened Wrappers

  const DIAGNOSTIC_SAMPLES := 6

  datatype Box = Box(left: real, top: real, width: real, height: real)

  datatype Sample = Sample(box: Box, offscreen: bool, unobstructed: bool)

  predicate Usable(sample: Sample) { !sample.offscreen && sample.unobstructed }

  function PositionOf(sample: Sample): Option<Box> { if Usable(sample) then Some(sample.box) else None }

  /** The target held still: the last two samples are usable and show one box. */
  predicate Settled(samples: seq<Sample>) {
    var n := |samples|;
    n >= 2 && Usable(samples[n - 2]) && Usable(samples[n - 1]) && samples[n - 2].box == samples[n - 1].box
  }

  /** The end of a history, at most n samples long. */
  function Latest(samples: seq<Sample>, n: nat): seq<Sample> {
    if |samples| <= n then samples else samples[|samples| - n..]
  }

  /** A bounded queue that drops its oldest sample holds the latest ones. */
  lemma LatestAfter(samples: seq<Sample>, sample: Sample, n: nat)
    requires n > 0
    ensures Latest(samples + [sample], n)
         == var queue := Latest(samples, n) + [sample]; if |queue| > n then queue[1..] else queue
  {
  }

  /** Navigation clicks: one remembered box, and the latest samples for a diagnostic. */
  class NavigationTarget {
    var previous: Option<Box>
    var samples: seq<Sample>
    ghost var history: seq<Sample>

    ghost predicate Valid()
      reads this
    {
      && samples == Latest(history, DIAGNOSTIC_SAMPLES)
      && previous == if history == [] then None else PositionOf(history[|history| - 1])
    }

    constructor ()
      ensures Valid() && history == []
    {
      previous, samples, history := None, [], [];
    }

    method Poll(sample: Sample) returns (settled: bool)
      requires Valid()
      modifies this
      ensures Valid() && history == old(history) + [sample]
      ensures settled <==> Settled(history)
      ensures samples == if |history| <= 6 then history else history[|history| - 6..]
    {
      LatestAfter(history, sample, DIAGNOSTIC_SAMPLES);
      hide Latest;
      samples := samples + [sample];
      if |samples| > DIAGNOSTIC_SAMPLES {
        samples := samples[1..];
      }
      history := history + [sample];
      if sample.offscreen || !sample.unobstructed {
        previous := None;
        return false;
      }
      settled := previous == Some(sample.box);
      previous := Some(sample.box);
    }
  }

  /** Graph clicks: every position so far. */
  class GraphTarget {
    var positions: seq<Option<Box>>
    ghost var history: seq<Sample>

    ghost predicate Valid()
      reads this
    {
      |positions| == |history| && forall i :: 0 <= i < |history| ==> positions[i] == PositionOf(history[i])
    }

    constructor ()
      ensures Valid() && history == []
    {
      positions, history := [], [];
    }

    method Poll(sample: Sample) returns (settled: bool)
      requires Valid()
      modifies this
      ensures Valid() && history == old(history) + [sample]
      ensures settled <==> Settled(history)
    {
      var position := PositionOf(sample);
      positions := positions + [position];
      history := history + [sample];
      settled := position.Some? && |positions| > 1 && position == positions[|positions| - 2];
    }
  }

  /** Fed the same samples, the two fire at exactly the same polls, and first at the same one. */
  method WaitWithBoth(samples: seq<Sample>) returns (navigation: seq<bool>, graph: seq<bool>)
    ensures |navigation| == |samples| && navigation == graph
    ensures forall i :: 0 <= i < |samples| ==> navigation[i] == Settled(samples[..i + 1])
  {
    navigation, graph := [], [];
    var first := new NavigationTarget();
    var second := new GraphTarget();
    for i := 0 to |samples|
      invariant first.Valid() && second.Valid() && fresh(first) && fresh(second)
      invariant first.history == second.history == samples[..i]
      invariant |navigation| == i && navigation == graph
      invariant forall k :: 0 <= k < i ==> navigation[k] == Settled(samples[..k + 1])
    {
      assert samples[..i] + [samples[i]] == samples[..i + 1];
      var a := first.Poll(samples[i]);
      var b := second.Poll(samples[i]);
      navigation, graph := navigation + [a], graph + [b];
    }
  }

  /** A box seen before an unusable sample is forgotten: settling needs two usable samples in a row. */
  lemma UnusableResets(before: seq<Sample>, gap: Sample, after: Sample)
    requires !Usable(gap)
    ensures !Settled(before + [gap]) && !Settled(before + [gap] + [after])
  {
  }
}
