/** States that a run passes through, for methods that report what they saw on their way. */
module Traces {

  /** `saw` is one of the states between two traces; `run` says what state a trace leads to. */
  ghost predicate OnTheWay<State, Step>(run: seq<Step> -> State, before: seq<Step>, after: seq<Step>, saw: State) {
    exists k :: |before| <= k <= |after| && saw == run(after[..k])
  }

  lemma WasOnTheWay<State, Step>(run: seq<Step> -> State, before: seq<Step>, seen: seq<Step>, after: seq<Step>,
                                 saw: State)
    requires before <= seen <= after && saw == run(seen)
    ensures OnTheWay(run, before, after, saw)
  {
    assert after[..|seen|] == seen;
  }

  lemma StillOnTheWay<State, Step>(run: seq<Step> -> State, before: seq<Step>, later: seq<Step>, until: seq<Step>,
                                   after: seq<Step>, saw: State)
    requires OnTheWay(run, later, until, saw) && |before| <= |later| && until <= after
    ensures OnTheWay(run, before, after, saw)
  {
    var k :| |later| <= k <= |until| && saw == run(until[..k]);
    assert after[..k] == until[..k];
  }

  /** So are these two, the second no earlier than the first. */
  ghost predicate InTurn<State, Step>(run: seq<Step> -> State, before: seq<Step>, after: seq<Step>, first: State,
                                      second: State)
  {
    exists j, k :: |before| <= j <= k <= |after| && first == run(after[..j]) && second == run(after[..k])
  }

  lemma WereInTurn<State, Step>(run: seq<Step> -> State, before: seq<Step>, seen: seq<Step>, later: seq<Step>,
                                after: seq<Step>, first: State, second: State)
    requires before <= seen <= later <= after && first == run(seen) && second == run(later)
    ensures InTurn(run, before, after, first, second)
  {
    assert after[..|seen|] == seen && after[..|later|] == later;
  }

  lemma StillInTurn<State, Step>(run: seq<Step> -> State, before: seq<Step>, later: seq<Step>, until: seq<Step>,
                                 after: seq<Step>, first: State, second: State)
    requires InTurn(run, later, until, first, second) && |before| <= |later| && until <= after
    ensures InTurn(run, before, after, first, second)
  {
    var j, k :| |later| <= j <= k <= |until| && first == run(until[..j]) && second == run(until[..k]);
    assert after[..j] == until[..j] && after[..k] == until[..k];
  }
}
