/** The slab controller: a relay decision from a target and the last two readings. */
module Slab {
  const SETBACK := 5

  datatype Direction = Falling | Steady | Rising

  /** How a reading compares with the one before it. */
  function DirectionOf(hold: int, n: int): Direction {
    if hold == n then Steady else if hold > n then Falling else Rising
  }

  /** The answer to reading `actual` after reading `hold`. */
  function Decide(hold: int, target: int, actual: int): int {
    if DirectionOf(hold, actual) == Falling then (if target > actual then 1 else 0)
    else (if target >= actual + SETBACK then 1 else 0)
  }

  /** A call's target and reading; one controller serves all channels in turn. */
  datatype Call = Call(target: int, actual: int)

  function Answers(hold: int, calls: seq<Call>): seq<int>
    decreases |calls|
  {
    if calls == [] then []
    else [Decide(hold, calls[0].target, calls[0].actual)] + Answers(calls[0].actual, calls[1..])
  }

  /** For every history the answers are 0 or 1, and each depends only on its own target and the last
      two readings. */
  lemma {:induction false} AnswersAreSwitchStates(hold: int, calls: seq<Call>, i: nat)
    requires i < |calls|
    ensures |Answers(hold, calls)| == |calls|
    ensures Answers(hold, calls)[i] == 0 || Answers(hold, calls)[i] == 1
    ensures Answers(hold, calls)[i] ==
            Decide(if i == 0 then hold else calls[i - 1].actual, calls[i].target, calls[i].actual)
    decreases |calls|
  {
    AnswersLength(hold, calls);
    if i > 0 {
      AnswersAreSwitchStates(calls[0].actual, calls[1..], i - 1);
    }
  }

  lemma {:induction false} AnswersLength(hold: int, calls: seq<Call>)
    ensures |Answers(hold, calls)| == |calls|
    decreases |calls|
  {
    if calls != [] {
      AnswersLength(calls[0].actual, calls[1..]);
    }
  }

  /** The documented rule, "on when the schedule's value is above the reading", is what the code does
      exactly when the reading is falling or is not just below the target. */
  lemma DocumentedRuleIff(hold: int, target: int, actual: int)
    ensures Decide(hold, target, actual) == (if target > actual then 1 else 0)
            <==> hold > actual || !(actual < target < actual + 5)
  {
  }

  class SlabController {
    var hold: int

    constructor ()
      ensures hold == 0
    {
      hold := 0;
    }

    /** `direction`: -1 moving down, 0 no change, 1 moving up. */
    method Direction(n: int) returns (dir: int)
      modifies this
      ensures hold == n
      ensures dir == match DirectionOf(old(hold), n) case Falling => -1 case Steady => 0 case Rising => 1
    {
      if hold == n {
        return 0;
      }
      if hold > n {
        hold := n;
        return -1;
      }
      hold := n;
      return 1;
    }

    /** `slabcon`. The error answer at its end is not reached. */
    method Slabcon(target: int, actual: int) returns (on: int)
      modifies this
      ensures hold == actual && on == Decide(old(hold), target, actual)
      ensures on == if old(hold) > actual then (if actual < target then 1 else 0)
                    else (if actual + 5 <= target then 1 else 0)
    {
      var dir := Direction(actual);
      if dir == -1 {
        if target <= actual {
          return 0;
        }
        return 1;
      }
      if dir == 1 {
        if target < actual + SETBACK {
          return 0;
        }
        if target >= actual - SETBACK {
          return 1;
        }
        return 0;
      }
      if dir == 0 {
        if target < actual + SETBACK {
          return 0;
        }
        if target >= actual - SETBACK {
          return 1;
        }
        return 0;
      }
      assert false; // the code answers 2000 here
      on := 2000;
    }
  }
}
