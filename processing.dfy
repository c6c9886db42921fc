/**
 * The simulated processing progress (src/components/ProcessingScreen.tsx):
 * a timer tick that advances the overall progress by 2 up to 100 and then
 * latches completion, the classification of the five processing steps by
 * the overall progress, the clamped per-step bar, and the capped count of
 * processed documents.
 */
module Processing {

  /** The number of processing steps on the screen. */
  const StepCount := 5

  /** The number of documents the screen reports as total. */
  const DocumentTotal := 3

  /** The values the overall progress takes when it starts at 0. */
  predicate IsProgress(p: int)
  {
    0 <= p <= 100 && p % 2 == 0
  }

  /** The `setOverallProgress` updater: 100 once the progress has reached 100, two more otherwise. */
  function NextProgress(p: int): (r: int)
    ensures IsProgress(p) ==> IsProgress(r) && p <= r
    ensures r == p <==> p == 100
    ensures p < 100 ==> r == p + 2
    ensures p >= 100 ==> r == 100
  {
    if p >= 100 then 100 else p + 2
  }

  /** `isCompleted` after a tick: set on a tick that finds the progress already at or above 100, never reset. */
  function NextCompleted(p: int, completed: bool): (r: bool)
    ensures completed ==> r
    ensures r && !completed ==> p >= 100
    ensures p >= 100 ==> r
  {
    if p >= 100 then true else completed
  }

  /** `Math.min(newCount, 3)`, the cap on the processed count. */
  function CappedCount(newCount: nat): (r: nat)
    ensures r <= DocumentTotal && r <= newCount
    ensures newCount <= DocumentTotal ==> r == newCount
    ensures newCount >= DocumentTotal ==> r == DocumentTotal
  {
    if newCount < DocumentTotal then newCount else DocumentTotal
  }

  /** The overall progress after `n` ticks from the initial 0. */
  function ProgressAfter(n: nat): int
  {
    if n == 0 then 0 else NextProgress(ProgressAfter(n - 1))
  }

  /** `isCompleted` after `n` ticks from the initial false. */
  function CompletedAfter(n: nat): bool
  {
    if n == 0 then false else NextCompleted(ProgressAfter(n - 1), CompletedAfter(n - 1))
  }

  /** The progress climbs by 2 per tick and then stays at 100. */
  lemma {:induction false} ProgressAfterClosedForm(n: nat)
    ensures ProgressAfter(n) == if n <= 50 then 2 * n else 100
    ensures IsProgress(ProgressAfter(n))
  {
    if n > 0 {
      ProgressAfterClosedForm(n - 1);
    }
  }

  /** The progress never decreases from one tick to a later one. */
  lemma ProgressMonotone(m: nat, n: nat)
    requires m <= n
    ensures ProgressAfter(m) <= ProgressAfter(n)
  {
    ProgressAfterClosedForm(m);
    ProgressAfterClosedForm(n);
  }

  /**
   * Completion is latched on tick 51, one tick after the progress reaches
   * 100 on tick 50, and stays latched.
   */
  lemma {:induction false} CompletedAfterExactly(n: nat)
    ensures CompletedAfter(n) <==> n >= 51
  {
    if n > 0 {
      CompletedAfterExactly(n - 1);
      ProgressAfterClosedForm(n - 1);
    }
  }

  /** The status of a processing step. */
  datatype StepStatus = Pending | StepProcessing | Completed

  /**
   * `getStepStatus(i)`: the step's progress `(p - 20i) / 20 * 100` is
   * `5 * (p - 20i)` for integer progress; at or below 0 the step is
   * pending, at or above 100 it is completed.
   */
  function GetStepStatus(p: int, i: int): (r: StepStatus)
    ensures r == Pending <==> p <= 20 * i
    ensures r == Completed <==> p >= 20 * i + 20
    ensures r == StepProcessing <==> 20 * i < p < 20 * i + 20
  {
    var stepProgress := 5 * (p - 20 * i);
    if stepProgress <= 0 then Pending
    else if stepProgress >= 100 then Completed
    else StepProcessing
  }

  /** The per-step bar value `max(0, min(100, stepProgress))`. */
  function StepBar(p: int, i: int): (r: int)
    ensures 0 <= r <= 100
    ensures GetStepStatus(p, i) == Pending ==> r == 0
    ensures GetStepStatus(p, i) == Completed ==> r == 100
    ensures GetStepStatus(p, i) == StepProcessing ==> r == 5 * (p - 20 * i) && 0 < r < 100
  {
    var stepProgress := 5 * (p - 20 * i);
    if stepProgress < 0 then 0 else if stepProgress > 100 then 100 else stepProgress
  }

  /**
   * At any progress the steps read completed, then at most one processing,
   * then pending: a processing step has every earlier step completed and
   * every later step pending.
   */
  lemma StepsInOrder(p: int, i: int, j: int)
    requires 0 <= i < j < StepCount
    ensures GetStepStatus(p, j) != Pending ==> GetStepStatus(p, i) == Completed
    ensures GetStepStatus(p, i) != Completed ==> GetStepStatus(p, j) == Pending
    ensures !(GetStepStatus(p, i) == StepProcessing && GetStepStatus(p, j) == StepProcessing)
  {
  }

  /** A completed step stays completed, and a step that has left pending does not return, as progress grows. */
  lemma StepStatusMonotone(p: int, q: int, i: int)
    requires p <= q
    ensures GetStepStatus(p, i) == Completed ==> GetStepStatus(q, i) == Completed
    ensures GetStepStatus(p, i) != Pending ==> GetStepStatus(q, i) != Pending
  {
  }

  /** Every step is pending at the start and every step is completed at 100. */
  lemma StepsAtEnds(i: int)
    requires 0 <= i < StepCount
    ensures GetStepStatus(0, i) == Pending
    ensures GetStepStatus(100, i) == Completed
  {
  }

  /** The screen's state cells that the timer updates. */
  class ProcessingScreen {
    var overallProgress: int
    var processedCount: int
    var isCompleted: bool
    /** The number of timer ticks so far. */
    ghost var ticks: nat

    ghost predicate Valid()
      reads this
    {
      overallProgress == ProgressAfter(ticks) &&
      isCompleted == CompletedAfter(ticks) &&
      0 <= processedCount <= DocumentTotal
    }

    constructor ()
      ensures Valid() && ticks == 0
      ensures overallProgress == 0 && processedCount == 0 && !isCompleted
    {
      overallProgress := 0;
      processedCount := 0;
      isCompleted := false;
      ticks := 0;
    }

    /**
     * One timer tick. `newCount` stands for `Math.floor(overallProgress / 33.33)`,
     * which is not modelled.
     */
    method Tick(newCount: nat)
      requires Valid()
      modifies this
      ensures Valid() && ticks == old(ticks) + 1
      ensures overallProgress == NextProgress(old(overallProgress))
      ensures isCompleted == NextCompleted(old(overallProgress), old(isCompleted))
      ensures processedCount == CappedCount(newCount)
      ensures IsProgress(overallProgress) && old(overallProgress) <= overallProgress
      ensures isCompleted ==> overallProgress == 100
    {
      ProgressAfterClosedForm(ticks);
      ProgressAfterClosedForm(ticks + 1);
      CompletedAfterExactly(ticks + 1);
      if overallProgress >= 100 {
        isCompleted := true;
        overallProgress := 100;
      } else {
        overallProgress := overallProgress + 2;
      }
      processedCount := CappedCount(newCount);
      ticks := ticks + 1;
    }

    /** The "Restantes" figure `3 - processedCount`, never negative. */
    function Remaining(): (r: nat)
      reads this
      requires Valid()
      ensures r + processedCount == DocumentTotal
    {
      DocumentTotal - processedCount
    }
  }
}
