/** The per-candidate tracker (ScoringModel) and the value view of its state. */
module Scoring {
  import opened Wrappers
  import opened Enums

  /** What a predicate can change in the tracker: the running score and the
      failure reason (`None` while no predicate has set one). */
  datatype Tally = Tally(score: int, failureReason: Option<FailureReason>)

  /** A verdict together with the tracker state it leaves behind. */
  datatype Outcome = Outcome(verdict: MatchResult, tally: Tally)

  class ScoringModel {
    var score: int
    var failureReason: Option<FailureReason>
    var proposedNewName: string

    constructor (proposedNewName: string)
      ensures score == 0 && failureReason == None
      ensures this.proposedNewName == proposedNewName
    {
      score := 0;
      failureReason := None;
      this.proposedNewName := proposedNewName;
    }

    function State(): Tally
      reads this
    {
      Tally(score, failureReason)
    }
  }
}
