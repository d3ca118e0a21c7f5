/** The aggregation of sub-verdicts (the `GetMatch` extension on a verdict list).
    Its body is not part of this model; only its documented law is: `Disabled`
    entries are ignored, any `NoMatch` wins, and a list with nothing but
    `Disabled` entries (or none at all) yields `onEmpty`, left open. */
module Aggregation {
  import opened Enums

  function GetMatch(results: seq<MatchResult>, onEmpty: MatchResult): (r: MatchResult)
    ensures NoMatch in results ==> r == NoMatch
    ensures NoMatch !in results && Match in results ==> r == Match
    ensures NoMatch !in results && Match !in results ==> r == onEmpty
    decreases |results|
  {
    if results == [] then onEmpty
    else
      assert results == [results[0]] + results[1..];
      match results[0]
      case Disabled => GetMatch(results[1..], onEmpty)
      case NoMatch => NoMatch
      // once a Match has been seen, a tail of Disabled entries can only confirm it
      case Match => GetMatch(results[1..], Match)
  }

  /** Removing a `Disabled` entry anywhere never changes the aggregate. */
  lemma GetMatchIgnoresDisabled(xs: seq<MatchResult>, ys: seq<MatchResult>, onEmpty: MatchResult)
    ensures GetMatch(xs + [Disabled] + ys, onEmpty) == GetMatch(xs + ys, onEmpty)
  {
  }
}
