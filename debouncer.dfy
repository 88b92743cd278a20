/**
 * The edge detector every front end runs on each poll: the fresh sample is
 * compared with the previous one, a change is an edge, and the previous value
 * becomes the sample whatever happened.
 */
module Debouncer {
  import opened Wrappers

  datatype Edge = Started | Finished

  function Opposite(e: Edge): Edge {
    match e
    case Started => Finished
    case Finished => Started
  }

  /** The edge between two consecutive samples. */
  function EdgeOf(previous: bool, current: bool): (e: Option<Edge>)
    ensures e.Some? <==> previous != current
    ensures e.Some? ==> (e.value == Started <==> current)
  {
    if !previous && current then Some(Started)
    else if previous && !current then Some(Finished)
    else None
  }

  /** The edges emitted, in order, by one tick per sample, starting from `previous`. */
  function Edges(previous: bool, samples: seq<bool>): seq<Edge>
    decreases |samples|
  {
    if samples == [] then []
    else
      (match EdgeOf(previous, samples[0])
       case Some(e) => [e]
       case None => []) + Edges(samples[0], samples[1..])
  }

  /** The remembered sample after the run: the last sample, or `previous` when there was none. */
  function Final(previous: bool, samples: seq<bool>): bool {
    if samples == [] then previous else samples[|samples| - 1]
  }

  /** The sample that sample `i` is compared with. */
  function Before(previous: bool, samples: seq<bool>, i: int): bool
    requires 0 <= i < |samples|
  {
    if i == 0 then previous else samples[i - 1]
  }

  /** The positions at which the sampled value changes. */
  ghost function ChangePoints(previous: bool, samples: seq<bool>): set<int> {
    set i | 0 <= i < |samples| && samples[i] != Before(previous, samples, i)
  }

  /** The number of sign changes in `previous` followed by `samples`. */
  ghost function Changes(previous: bool, samples: seq<bool>): nat {
    |ChangePoints(previous, samples)|
  }

  /** `n` edges that alternate, starting with `first`. */
  function Alternating(first: Edge, n: nat): (r: seq<Edge>)
    ensures |r| == n
    decreases n
  {
    if n == 0 then [] else [first] + Alternating(Opposite(first), n - 1)
  }

  /** Running one more tick appends that tick's edge. */
  lemma {:induction false} EdgesSnoc(previous: bool, samples: seq<bool>, x: bool)
    ensures Edges(previous, samples + [x]) ==
      Edges(previous, samples) +
      (match EdgeOf(Final(previous, samples), x)
       case Some(e) => [e]
       case None => [])
    decreases |samples|
  {
    if samples != [] {
      assert (samples + [x])[0] == samples[0];
      assert (samples + [x])[1..] == samples[1..] + [x];
      EdgesSnoc(samples[0], samples[1..], x);
      assert Final(samples[0], samples[1..]) == Final(previous, samples);
    }
  }

  /** One more sample adds its position to the change points exactly when it differs from the last. */
  lemma ChangePointsSnoc(previous: bool, samples: seq<bool>, x: bool)
    ensures ChangePoints(previous, samples + [x]) ==
      ChangePoints(previous, samples) + (if x != Final(previous, samples) then {|samples|} else {})
  {
    var s := samples + [x];
    forall i | 0 <= i < |samples|
      ensures s[i] == samples[i] && Before(previous, s, i) == Before(previous, samples, i)
    {
    }
    assert |samples| > 0 ==> Before(previous, s, |samples|) == samples[|samples| - 1];
  }

  /** The number of edges over a run is the number of sign changes of the sampled signal. */
  lemma {:induction false} EdgesCountChanges(previous: bool, samples: seq<bool>)
    ensures |Edges(previous, samples)| == Changes(previous, samples)
    decreases |samples|
  {
    if samples != [] {
      var init, x := samples[..|samples| - 1], samples[|samples| - 1];
      assert samples == init + [x];
      EdgesCountChanges(previous, init);
      EdgesSnoc(previous, init, x);
      ChangePointsSnoc(previous, init, x);
      assert |init| !in ChangePoints(previous, init);
    }
  }

  /**
   * Edges alternate: from an idle start the first is `Started`, and the remembered
   * value after the run has flipped once per edge.
   */
  lemma {:induction false} EdgesAlternate(previous: bool, samples: seq<bool>)
    ensures Edges(previous, samples) ==
      Alternating(if previous then Finished else Started, |Edges(previous, samples)|)
    ensures Final(previous, samples) == (previous != (|Edges(previous, samples)| % 2 == 1))
    decreases |samples|
  {
    if samples != [] {
      EdgesAlternate(samples[0], samples[1..]);
      assert Final(samples[0], samples[1..]) == Final(previous, samples);
    }
  }
}
