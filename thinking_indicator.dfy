/** The "thinking" placeholder shown while the investigation model answers:
    a seconds counter and a step counter, each advanced by its own interval
    timer (here, explicit tick steps). The step counter stops at the last
    of the five steps; the steps reached so far are listed, all but the
    current one marked done. */
module ThinkingIndicator {
  import opened Base

  const THINKING_STEPS: seq<string> := [
    "Reading transaction data...",
    "Analyzing risk patterns...",
    "Cross-referencing fraud signals...",
    "Generating detailed analysis...",
    "Composing response..."
  ]

  /** The index of the last step. */
  const LAST_STEP: nat := |THINKING_STEPS| - 1

  /** The step timer's update: one step on, never past the last. */
  function NextStep(s: int): (r: int)
    ensures r <= LAST_STEP
    ensures s < LAST_STEP ==> r == s + 1
    ensures s >= LAST_STEP ==> r == LAST_STEP
  {
    Min(s + 1, LAST_STEP)
  }

  /** The step index after `n` step ticks from `s`. */
  function StepAfter(s: int, n: nat): int
    decreases n
  {
    if n == 0 then s else StepAfter(NextStep(s), n - 1)
  }

  /** From the start, `n` ticks reach step `min(n, 4)`: the counter climbs
      one per tick and then stays on the last step. */
  lemma {:induction false} StepAfterTicks(s: nat, n: nat)
    requires s <= LAST_STEP
    ensures StepAfter(s, n) == Min(s + n, LAST_STEP)
    decreases n
  {
    if n > 0 {
      StepAfterTicks(NextStep(s), n - 1);
      if s + n <= LAST_STEP {
        assert Min(s + n, LAST_STEP) == s + n;
      } else {
        assert Min(s + n, LAST_STEP) == LAST_STEP;
      }
    }
  }

  /** The counter never moves back and stays in range. */
  lemma NextStepMonotone(s: int)
    requires 0 <= s <= LAST_STEP
    ensures s <= NextStep(s) && 0 <= NextStep(s) <= LAST_STEP
  {
  }

  /** `THINKING_STEPS.slice(0, stepIdx + 1)`: the steps reached so far. */
  function VisibleSteps(stepIdx: nat): (v: seq<string>)
    requires stepIdx <= LAST_STEP
    ensures |v| == stepIdx + 1
    ensures forall i :: 0 <= i < |v| ==> v[i] == THINKING_STEPS[i]
  {
    THINKING_STEPS[..stepIdx + 1]
  }

  /** A listed step shows the check mark when it lies before the current one. */
  predicate StepDone(i: nat, stepIdx: nat) {
    i < stepIdx
  }

  /** Exactly one listed step is in progress: the last one listed. */
  lemma OneStepInProgress(stepIdx: nat)
    requires stepIdx <= LAST_STEP
    ensures !StepDone(|VisibleSteps(stepIdx)| - 1, stepIdx)
    ensures forall i :: 0 <= i < |VisibleSteps(stepIdx)| - 1 ==> StepDone(i, stepIdx)
  {
  }

  class Thinking {
    var elapsed: nat
    var stepIdx: nat

    constructor ()
      ensures elapsed == 0 && stepIdx == 0
    {
      elapsed, stepIdx := 0, 0;
    }

    /** The one-second timer. */
    method TickSecond()
      modifies this
      ensures elapsed == old(elapsed) + 1 && stepIdx == old(stepIdx)
    {
      elapsed := elapsed + 1;
    }

    /** The three-second timer. */
    method TickStep()
      requires stepIdx <= LAST_STEP
      modifies this
      ensures stepIdx == NextStep(old(stepIdx)) && elapsed == old(elapsed)
      ensures old(stepIdx) <= stepIdx <= LAST_STEP
    {
      stepIdx := Min(stepIdx + 1, LAST_STEP);
    }
  }
}
