/** Running a mission: nested loops over steps, iterations and attempts. Everything the mission
    worker learns from outside (waits, conditions, commands) may turn out any way at any point, and a
    cancellation may become visible at any of its looks at the flags, so the contracts hold for every
    interleaving with the control calls. */
module MissionFlow {
  import opened Basics

  const MaxCount: nat := 0xFFFF_FFFF

  /** A 32-bit counter. */
  type Count = n: nat | n <= MaxCount

  datatype RetryPolicy = RetryPolicy(maxAttempts: Count, onTimeout: bool, onFailure: bool, delayed: bool)

  /** A condition of a step with what its evaluation says, and whether its failure skips the step.
      Without an evaluator the first condition fails and skips nothing. */
  datatype Condition = Condition(holds: bool, skips: bool)

  datatype MissionStep = MissionStep(
    enabled: bool, valid: bool, skip: bool, abort: bool, timed: bool, conditions: seq<Condition>, retry: Count,
    policy: RetryPolicy, iterations: Count)

  /** The first condition that fails says that the step is skipped. */
  predicate SkippedByCondition(step: MissionStep) {
    exists k :: 0 <= k < |step.conditions| && !step.conditions[k].holds && step.conditions[k].skips &&
      forall j :: 0 <= j < k ==> step.conditions[j].holds
  }

  predicate ConditionsHold(step: MissionStep) {
    forall k :: 0 <= k < |step.conditions| ==> step.conditions[k].holds
  }

  /** Nothing of the step can be executed, and it is not skipped either. */
  predicate Hopeless(step: MissionStep) {
    !step.valid || (!step.skip && (step.abort || (!ConditionsHold(step) && !SkippedByCondition(step))))
  }

  /** How one execution of a step ends. */
  datatype Outcome = Completed | Cancelled | Failed(timeout: bool) | Threw

  /** One execution of a step: a command handed to the dispatcher or, for a timed step, a wait. */
  datatype Execution = Execution(step: nat, iteration: nat, attempt: nat, outcome: Outcome)

  /** What the worker does: passing the point where it waits while the mission is paused, and
      executing a step. */
  datatype Action = Pass | Begin(execution: Execution)

  datatype MissionStatus = MissionCompleted | MissionCancelled | MissionFailed

  /** The worker looks at the flags again and again; its looks are numbered from zero. From look
      `from` on it sees a cancellation or a stop, which stands until the next start. */
  predicate Sees(from: Option<nat>, look: nat) {
    from.Some? && from.value <= look
  }

  /** The least number of attempts that is as large as the policy's and larger than the number of
      retries, as far as 32 bits go. */
  function EffectiveMaxAttempts(step: MissionStep): (n: Count)
    ensures n >= step.policy.maxAttempts && (n > step.retry || n == MaxCount)
    ensures n == step.policy.maxAttempts || n == step.retry + 1 || n == step.retry == MaxCount
  {
    var legacy: Count := if step.retry == MaxCount then step.retry else step.retry + 1;
    if step.policy.maxAttempts > legacy then step.policy.maxAttempts else legacy
  }

  lemma FewestAttempts(step: MissionStep, m: Count)
    requires m >= step.policy.maxAttempts && (m > step.retry || m == MaxCount)
    ensures 1 <= EffectiveMaxAttempts(step) <= m
  {
  }

  predicate Retries(step: MissionStep, outcome: Outcome) {
    outcome.Failed? && (if outcome.timeout then step.policy.onTimeout else step.policy.onFailure)
  }

  // ---------------------------------------------------------------- logs

  function Begun(trace: seq<Action>): seq<Execution> {
    if trace == [] then []
    else
      var last := trace[|trace| - 1];
      Begun(trace[..|trace| - 1]) + (if last.Begin? then [last.execution] else [])
  }

  /** Every execution comes directly after a pass. */
  predicate Gated(trace: seq<Action>) {
    forall k :: 0 <= k < |trace| && trace[k].Begin? ==> k > 0 && trace[k - 1].Pass?
  }

  lemma {:induction false} BegunConcat(a: seq<Action>, b: seq<Action>)
    ensures Begun(a + b) == Begun(a) + Begun(b)
  {
    if b == [] {
      assert a + b == a;
    } else {
      assert (a + b)[..|a + b| - 1] == a + b[..|b| - 1];
      BegunConcat(a, b[..|b| - 1]);
    }
  }

  lemma GatedConcat(a: seq<Action>, b: seq<Action>)
    requires Gated(a) && Gated(b)
    ensures Gated(a + b)
  {
  }

  /** Earlier in the nesting order of steps, iterations and attempts. */
  predicate Before(a: Execution, b: Execution) {
    a.step < b.step ||
      (a.step == b.step && (a.iteration < b.iteration || (a.iteration == b.iteration && a.attempt < b.attempt)))
  }

  ghost predicate Ordered(log: seq<Execution>) {
    forall i, j :: 0 <= i < j < |log| ==> Before(log[i], log[j])
  }

  ghost predicate AllBefore(a: seq<Execution>, b: seq<Execution>) {
    forall i, j :: 0 <= i < |a| && 0 <= j < |b| ==> Before(a[i], b[j])
  }

  lemma OrderedConcat(a: seq<Execution>, b: seq<Execution>)
    requires Ordered(a) && Ordered(b) && AllBefore(a, b)
    ensures Ordered(a + b)
  {
  }

  // ---------------------------------------------------------------- attempts

  /** The attempts at one iteration: numbered from zero, at most as many as allowed, each but the
      last a failure that the policy retries. */
  ghost predicate AttemptLog(step: MissionStep, index: nat, iteration: nat, log: seq<Execution>) {
    && |log| <= MaxCount && (|log| <= step.policy.maxAttempts || |log| <= step.retry + 1)
    && (forall k :: 0 <= k < |log| ==> log[k].step == index && log[k].iteration == iteration && log[k].attempt == k)
    && (forall k :: 0 <= k < |log| - 1 ==>
          || (log[k].outcome == Failed(true) && step.policy.onTimeout)
          || (log[k].outcome == Failed(false) && step.policy.onFailure))
  }

  method ExecuteStepOnce(
      step: MissionStep, index: nat, iteration: nat, attempt: nat, from: Option<nat>, looks: nat)
    returns (outcome: Outcome, trace: seq<Action>, looks': nat)
    ensures |trace| == 1 && Begun(trace) == [Execution(index, iteration, attempt, outcome)]
    ensures step.timed ==> looks' == looks + 1 && (outcome.Cancelled? <==> Sees(from, looks))
    ensures step.timed ==> !outcome.Threw? && (outcome.Failed? ==> outcome.timeout)
    ensures !step.timed ==> looks' == looks
  {
    looks' := looks;
    if step.timed {
      // a wait ends by itself, by its timeout, or by a cancellation
      var timedOut: bool := *;
      outcome := if Sees(from, looks) then Cancelled else if timedOut then Failed(true) else Completed;
      looks' := looks + 1;
    } else {
      outcome := *;
    }
    trace := [Begin(Execution(index, iteration, attempt, outcome))];
    assert trace[..0] == [];
  }

  /** As many attempts as the policy asks for, and more than the retries as far as 32 bits go. */
  predicate UsedUp(step: MissionStep, attempts: nat) {
    attempts >= step.policy.maxAttempts && (attempts > step.retry || attempts == MaxCount)
  }

  /** The result is what the last execution ended with, or Cancelled at a look that saw a request. */
  ghost predicate Ended(outcome: Outcome, log: seq<Execution>, from: Option<nat>, looks: nat) {
    || (outcome == Cancelled && looks > 0 && Sees(from, looks - 1))
    || (log != [] && log[|log| - 1].outcome == outcome)
  }

  method ExecuteStepWithRetryPolicy(step: MissionStep, index: nat, iteration: nat, from: Option<nat>, looks: nat)
    returns (outcome: Outcome, trace: seq<Action>, looks': nat)
    ensures Gated(trace) && AttemptLog(step, index, iteration, Begun(trace))
    ensures looks' > looks && Ended(outcome, Begun(trace), from, looks')
    ensures outcome != Cancelled ==> !Sees(from, looks' - 1)
    ensures outcome == Failed(true) && step.policy.onTimeout ==> UsedUp(step, |Begun(trace)|)
    ensures outcome == Failed(false) && step.policy.onFailure ==> UsedUp(step, |Begun(trace)|)
  {
    hide Begun, AttemptLog, Gated;
    outcome, trace, looks' := Failed(false), [], looks;
    assert Begun([]) == [] && Gated([]) by { BegunNone(); }
    assert AttemptLog(step, index, iteration, []) by { NoAttempt(step, index, iteration); }
    var maxAttempts := EffectiveMaxAttempts(step);
    var attempt: Count := 0;
    while attempt < maxAttempts
      invariant attempt <= maxAttempts && looks' >= looks + attempt && |Begun(trace)| == attempt
      invariant Gated(trace) && AttemptLog(step, index, iteration, Begun(trace))
      invariant attempt > 0 ==> Begun(trace)[attempt - 1].outcome == outcome && Retries(step, outcome)
      invariant attempt > 0 ==> !Sees(from, looks' - 1)
      decreases maxAttempts - attempt
    {
      looks' := looks' + 1;
      if Sees(from, looks' - 1) {
        return Cancelled, trace, looks';
      }
      looks' := looks' + 1;
      if Sees(from, looks' - 1) {
        return Cancelled, trace, looks';
      }
      var once;
      outcome, once, looks' := ExecuteStepOnce(step, index, iteration, attempt, from, looks');
      AttemptTrace(trace, once);
      NextAttempt(step, index, iteration, Begun(trace), outcome);
      trace := trace + [Pass] + once;
      if outcome.Completed? || outcome.Cancelled? || outcome.Threw? || attempt + 1 >= maxAttempts {
        return;
      }
      if (outcome.timeout && !step.policy.onTimeout) || (!outcome.timeout && !step.policy.onFailure) {
        return;
      }
      if step.policy.delayed {
        looks' := looks' + 1;
        if Sees(from, looks' - 1) {
          return Cancelled, trace, looks';
        }
      }
      attempt := attempt + 1;
    }
  }

  lemma NoAttempt(step: MissionStep, index: nat, iteration: nat)
    ensures AttemptLog(step, index, iteration, [])
  {
  }

  lemma NextAttempt(step: MissionStep, index: nat, iteration: nat, log: seq<Execution>, outcome: Outcome)
    requires AttemptLog(step, index, iteration, log) && |log| < EffectiveMaxAttempts(step)
    requires log != [] ==> Retries(step, log[|log| - 1].outcome)
    ensures AttemptLog(step, index, iteration, log + [Execution(index, iteration, |log|, outcome)])
  {
  }

  lemma BegunNone()
    ensures Begun([]) == [] && Gated([])
  {
  }

  lemma AttemptTrace(trace: seq<Action>, once: seq<Action>)
    requires Gated(trace) && |once| <= 1
    ensures Gated(trace + [Pass] + once) && Begun(trace + [Pass] + once) == Begun(trace) + Begun(once)
  {
    BegunConcat(trace, [Pass]);
    BegunConcat(trace + [Pass], once);
    assert Begun([Pass]) == [] by { assert [Pass][..0] == []; }
    assert Begun(trace) + [] == Begun(trace);
  }

  // ---------------------------------------------------------------- iterations

  ghost predicate StepLog(step: MissionStep, index: nat, bound: nat, log: seq<Execution>) {
    && Ordered(log)
    && forall k :: 0 <= k < |log| ==> ExecutionOk(step, index, bound, log[k])
  }

  predicate ExecutionOk(step: MissionStep, index: nat, bound: nat, d: Execution) {
    && d.step == index && d.iteration < bound
    && d.attempt < MaxCount && (d.attempt < step.policy.maxAttempts || d.attempt <= step.retry)
  }

  /** An execution of this iteration has completed. */
  ghost predicate IterationDone(index: nat, iteration: nat, log: seq<Execution>) {
    exists k :: 0 <= k < |log| && log[k].step == index && log[k].iteration == iteration && log[k].outcome == Completed
  }

  ghost predicate IterationsDone(index: nat, bound: nat, log: seq<Execution>) {
    forall j: nat :: j < bound ==> IterationDone(index, j, log)
  }

  lemma AttemptsAreOrdered(step: MissionStep, index: nat, iteration: nat, log: seq<Execution>, more: seq<Execution>)
    requires StepLog(step, index, iteration, log) && AttemptLog(step, index, iteration, more)
    ensures StepLog(step, index, iteration + 1, log + more)
    ensures IterationsDone(index, iteration, log) && more != [] && more[|more| - 1].outcome == Completed ==>
      IterationsDone(index, iteration + 1, log + more)
  {
    hide Before;
    EarlierIteration(step, index, iteration, log, more);
    assert Ordered(more) by { AttemptOrder(step, index, iteration, more); }
    OrderedConcat(log, more);
    if IterationsDone(index, iteration, log) && more != [] && more[|more| - 1].outcome == Completed {
      forall j: nat | j < iteration + 1
        ensures IterationDone(index, j, log + more)
      {
        if j < iteration {
          assert IterationDone(index, j, log);
          var k :| 0 <= k < |log| && log[k].step == index && log[k].iteration == j && log[k].outcome == Completed;
          assert (log + more)[k] == log[k];
        } else {
          assert (log + more)[|log| + |more| - 1] == more[|more| - 1];
        }
      }
    }
  }

  lemma EarlierIteration(step: MissionStep, index: nat, iteration: nat, log: seq<Execution>, more: seq<Execution>)
    requires StepLog(step, index, iteration, log) && AttemptLog(step, index, iteration, more)
    ensures AllBefore(log, more)
  {
  }

  lemma AttemptOrder(step: MissionStep, index: nat, iteration: nat, more: seq<Execution>)
    requires AttemptLog(step, index, iteration, more)
    ensures Ordered(more)
  {
  }

  datatype StepResult = Done | Skipped | NotDone(outcome: Outcome)

  /** The conditions of a step all hold, or the first that fails skips the step or fails it. */
  method EvaluateStepConditions(step: MissionStep) returns (result: StepResult)
    ensures result == Done <==> ConditionsHold(step)
    ensures result == Skipped <==> SkippedByCondition(step)
    ensures result.NotDone? ==> result.outcome == Failed(false)
  {
    for k := 0 to |step.conditions|
      invariant forall j :: 0 <= j < k ==> step.conditions[j].holds
    {
      if step.conditions[k].holds {
        continue;
      }
      return if step.conditions[k].skips then Skipped else NotDone(Failed(false));
    }
    result := Done;
  }

  method ExecuteFlowStep(step: MissionStep, index: nat, from: Option<nat>, looks: nat)
    returns (result: StepResult, trace: seq<Action>, looks': nat)
    requires looks > 0 && !Sees(from, looks - 1)
    ensures Gated(trace) && StepLog(step, index, step.iterations, Begun(trace))
    ensures Begun(trace) != [] ==> step.valid && !step.skip && !step.abort && ConditionsHold(step)
    ensures result == Done && !step.skip ==>
      ConditionsHold(step) && IterationsDone(index, step.iterations, Begun(trace))
    ensures result == Done ==> step.valid && (step.skip || !step.abort)
    ensures result == Skipped <==> step.valid && !step.skip && !step.abort && SkippedByCondition(step)
    ensures Hopeless(step) ==> result == NotDone(Failed(false)) && trace == []
    ensures result.NotDone? ==>
      result.outcome != Completed && (Hopeless(step) || Ended(result.outcome, Begun(trace), from, looks'))
    ensures looks' >= looks && (result != NotDone(Cancelled) ==> !Sees(from, looks' - 1))
  {
    hide Begun, StepLog, AttemptLog, Gated;
    trace, looks' := [], looks;
    assert Begun([]) == [] by { BegunNone(); }
    NoTrace(step, index);
    if !step.valid {
      return NotDone(Failed(false)), trace, looks';
    }
    if step.skip {
      return Done, trace, looks';
    }
    if step.abort {
      return NotDone(Failed(false)), trace, looks';
    }
    result := EvaluateStepConditions(step);
    if result != Done {
      return;
    }
    for iteration := 0 to step.iterations
      invariant Gated(trace) && StepLog(step, index, iteration, Begun(trace))
      invariant IterationsDone(index, iteration, Begun(trace))
      invariant looks' >= looks && !Sees(from, looks' - 1)
    {
      WiderLog(step, index, iteration, step.iterations, Begun(trace));
      looks' := looks' + 1;
      if Sees(from, looks' - 1) {
        return NotDone(Cancelled), trace, looks';
      }
      looks' := looks' + 1;
      if Sees(from, looks' - 1) {
        return NotDone(Cancelled), trace, looks';
      }
      var outcome, more;
      outcome, more, looks' := ExecuteStepWithRetryPolicy(step, index, iteration, from, looks');
      AttemptsAreOrdered(step, index, iteration, Begun(trace), Begun(more));
      IterationTrace(trace, more);
      EndedLater(outcome, Begun(trace), Begun(more), from, looks');
      trace := trace + [Pass] + more;
      WiderLog(step, index, iteration + 1, step.iterations, Begun(trace));
      if outcome != Completed {
        return NotDone(outcome), trace, looks';
      }
    }
    result := Done;
  }

  lemma EndedLater(
      outcome: Outcome, log: seq<Execution>, more: seq<Execution>, from: Option<nat>, looks: nat)
    requires Ended(outcome, more, from, looks)
    ensures Ended(outcome, log + more, from, looks)
  {
  }

  lemma NoTrace(step: MissionStep, index: nat)
    ensures Gated([]) && StepLog(step, index, 0, []) && StepLog(step, index, step.iterations, [])
  {
  }

  lemma WiderLog(step: MissionStep, index: nat, bound: nat, wider: nat, log: seq<Execution>)
    requires StepLog(step, index, bound, log) && bound <= wider
    ensures StepLog(step, index, wider, log)
  {
    hide Before;
  }

  lemma IterationTrace(trace: seq<Action>, more: seq<Action>)
    requires Gated(trace) && Gated(more)
    ensures Gated(trace + [Pass] + more) && Begun(trace + [Pass] + more) == Begun(trace) + Begun(more)
  {
    BegunConcat(trace, [Pass]);
    BegunConcat(trace + [Pass], more);
    assert Begun([Pass]) == [] by { assert [Pass][..0] == []; }
    assert Begun(trace) + [] == Begun(trace);
    GatedConcat(trace, [Pass]);
    GatedConcat(trace + [Pass], more);
  }

  // ---------------------------------------------------------------- the mission

  /** The step is done: it is valid, and it is skipped, by its own flag or by a condition, or else
      does not abort and every iteration of its command or its wait has completed. */
  ghost predicate Covered(step: MissionStep, index: nat, log: seq<Execution>) {
    && !Hopeless(step)
    && (step.skip || SkippedByCondition(step) || IterationsDone(index, step.iterations, log))
  }

  ghost predicate AllCovered(steps: seq<MissionStep>, bound: nat, log: seq<Execution>) {
    bound <= |steps| && forall i :: 0 <= i < bound && steps[i].enabled ==> Covered(steps[i], i, log)
  }

  /** Executions of enabled steps before `bound`, within their iterations and attempts, in order. */
  ghost predicate MissionLog(steps: seq<MissionStep>, bound: nat, log: seq<Execution>) {
    && Ordered(log)
    && forall k :: 0 <= k < |log| ==> log[k].step < bound && MissionExecution(steps, log[k])
  }

  predicate MissionExecution(steps: seq<MissionStep>, d: Execution) {
    d.step < |steps| && steps[d.step].enabled && ExecutionOk(steps[d.step], d.step, steps[d.step].iterations, d)
  }

  lemma NextStepLog(steps: seq<MissionStep>, index: nat, log: seq<Execution>, more: seq<Execution>)
    requires index < |steps| && steps[index].enabled && MissionLog(steps, index, log)
    requires StepLog(steps[index], index, steps[index].iterations, more)
    ensures MissionLog(steps, index + 1, log + more)
  {
    EarlierStep(steps, index, log, more);
    OrderedConcat(log, more);
  }

  lemma EarlierStep(steps: seq<MissionStep>, index: nat, log: seq<Execution>, more: seq<Execution>)
    requires index < |steps| && MissionLog(steps, index, log)
    requires StepLog(steps[index], index, steps[index].iterations, more)
    ensures AllBefore(log, more)
  {
    hide Ordered;
  }

  lemma StillDone(index: nat, bound: nat, log: seq<Execution>, more: seq<Execution>)
    ensures IterationsDone(index, bound, log) ==> IterationsDone(index, bound, log + more)
    ensures IterationsDone(index, bound, more) ==> IterationsDone(index, bound, log + more)
  {
    forall j: nat | j < bound && (IterationDone(index, j, log) || IterationDone(index, j, more))
      ensures IterationDone(index, j, log + more)
    {
      if IterationDone(index, j, log) {
        var k :| 0 <= k < |log| && log[k].step == index && log[k].iteration == j && log[k].outcome == Completed;
        assert (log + more)[k] == log[k];
      } else {
        var k :| 0 <= k < |more| && more[k].step == index && more[k].iteration == j && more[k].outcome == Completed;
        assert (log + more)[|log| + k] == more[k];
      }
    }
  }

  lemma StillCovered(steps: seq<MissionStep>, bound: nat, log: seq<Execution>, later: seq<Execution>)
    requires AllCovered(steps, bound, log)
    ensures AllCovered(steps, bound, log + later)
  {
    hide IterationsDone;
    forall i | 0 <= i < bound && steps[i].enabled
      ensures Covered(steps[i], i, log + later)
    {
      assert Covered(steps[i], i, log);
      StillDone(i, steps[i].iterations, log, later);
    }
  }

  /** Why a mission fails at a step: nothing of it can be executed, or its last execution ended
      neither completed nor by a cancellation that the worker sees. */
  ghost predicate FailsAt(steps: seq<MissionStep>, reached: nat, log: seq<Execution>) {
    && reached < |steps| && steps[reached].enabled
    && (Hopeless(steps[reached]) ||
        (log != [] && log[|log| - 1].step == reached && log[|log| - 1].outcome != Completed))
  }

  /** The mission loop. `reached` is the step at which the mission ended, or the number of steps. The
      mission is cancelled exactly if the worker's last look at the flags saw a request, fails at a
      step that fails, and completes otherwise. */
  method RunMission(steps: seq<MissionStep>, from: Option<nat>)
    returns (status: MissionStatus, trace: seq<Action>, reached: nat, looks: nat)
    ensures Gated(trace) && MissionLog(steps, |steps|, Begun(trace))
    ensures reached <= |steps| && MissionLog(steps, reached + 1, Begun(trace))
    ensures AllCovered(steps, reached, Begun(trace))
    ensures status == MissionCompleted <==> reached == |steps|
    ensures status == MissionCancelled <==> looks > 0 && Sees(from, looks - 1)
    ensures status == MissionFailed ==> FailsAt(steps, reached, Begun(trace))
  {
    hide Begun, Gated, MissionLog, StepLog, AllCovered;
    trace, reached, looks := [], 0, 0;
    assert Begun([]) == [] by { BegunNone(); }
    assert Gated([]) && MissionLog(steps, 0, []) && AllCovered(steps, 0, []) by { NoMission(steps); }
    while reached < |steps|
      invariant reached <= |steps| && (looks > 0 ==> !Sees(from, looks - 1))
      invariant Gated(trace) && MissionLog(steps, reached, Begun(trace)) && AllCovered(steps, reached, Begun(trace))
    {
      WiderMission(steps, reached, Begun(trace));
      var step := steps[reached];
      if !step.enabled {
        SkipStep(steps, reached, Begun(trace));
        reached := reached + 1;
        continue;
      }
      looks := looks + 1;
      if Sees(from, looks - 1) {
        return MissionCancelled, trace, reached, looks;
      }
      var result, more;
      result, more, looks := ExecuteFlowStep(step, reached, from, looks);
      NextStepLog(steps, reached, Begun(trace), Begun(more));
      IterationTrace(trace, more);
      StillCovered(steps, reached, Begun(trace), Begun(more));
      StillDone(reached, step.iterations, Begun(trace), Begun(more));
      if Begun(more) != [] {
        LastOfStep(step, reached, Begun(trace), Begun(more));
      }
      trace := trace + [Pass] + more;
      WiderMission(steps, reached + 1, Begun(trace));
      if result == NotDone(Threw) {
        return MissionFailed, trace, reached, looks;
      }
      looks := looks + 1;
      if Sees(from, looks - 1) {
        return MissionCancelled, trace, reached, looks;
      }
      if result.NotDone? {
        return MissionFailed, trace, reached, looks;
      }
      NextCovered(steps, reached, Begun(trace));
      reached := reached + 1;
    }
    WiderMission(steps, reached, Begun(trace));
    status := MissionCompleted;
  }

  lemma LastOfStep(step: MissionStep, index: nat, log: seq<Execution>, more: seq<Execution>)
    requires StepLog(step, index, step.iterations, more) && more != []
    ensures var last := (log + more)[|log + more| - 1]; last == more[|more| - 1] && last.step == index
  {
  }

  lemma NoMission(steps: seq<MissionStep>)
    ensures Gated([]) && MissionLog(steps, 0, []) && AllCovered(steps, 0, [])
  {
  }

  lemma WiderMission(steps: seq<MissionStep>, bound: nat, log: seq<Execution>)
    requires MissionLog(steps, bound, log)
    ensures MissionLog(steps, bound + 1, log) && MissionLog(steps, |steps|, log)
  {
    hide Ordered;
  }

  lemma SkipStep(steps: seq<MissionStep>, bound: nat, log: seq<Execution>)
    requires AllCovered(steps, bound, log) && bound < |steps| && !steps[bound].enabled
    ensures AllCovered(steps, bound + 1, log)
  {
  }

  lemma NextCovered(steps: seq<MissionStep>, bound: nat, log: seq<Execution>)
    requires AllCovered(steps, bound, log) && bound < |steps| && Covered(steps[bound], bound, log)
    ensures AllCovered(steps, bound + 1, log)
  {
  }

  // ---------------------------------------------------------------- how many executions

  function OfStep(log: seq<Execution>, index: nat): seq<Execution> {
    if log == [] then []
    else if log[0].step == index then [log[0]] + OfStep(log[1..], index)
    else OfStep(log[1..], index)
  }

  /** The place of an execution of one step among all its possible ones. */
  function Rank(d: Execution, attempts: nat): nat {
    d.iteration * attempts + d.attempt
  }

  lemma RankGrows(a: Execution, b: Execution, attempts: nat, iterations: nat)
    requires a.step == b.step && Before(a, b) && a.attempt < attempts && b.attempt < attempts
    requires b.iteration < iterations
    ensures Rank(a, attempts) < Rank(b, attempts) < iterations * attempts
  {
    if a.iteration < b.iteration {
      Scaled(a.iteration + 1, b.iteration, attempts);
      assert (a.iteration + 1) * attempts == a.iteration * attempts + attempts;
    }
    Scaled(b.iteration + 1, iterations, attempts);
    assert (b.iteration + 1) * attempts == b.iteration * attempts + attempts;
  }

  lemma Scaled(a: nat, b: nat, c: nat)
    requires a <= b
    ensures a * c <= b * c
  {
  }

  ghost predicate Climbs(log: seq<Execution>, attempts: nat, floor: nat, bound: nat) {
    && (forall k :: 0 <= k < |log| ==> floor <= Rank(log[k], attempts) < bound)
    && forall i, j :: 0 <= i < j < |log| ==> Rank(log[i], attempts) < Rank(log[j], attempts)
  }

  lemma {:induction false} ClimbIsShort(log: seq<Execution>, attempts: nat, floor: nat, bound: nat)
    requires Climbs(log, attempts, floor, bound) && floor <= bound
    ensures |log| <= bound - floor
  {
    hide Rank;
    if log != [] {
      var first := Rank(log[0], attempts);
      ClimbIsShort(log[1..], attempts, first + 1, bound);
    }
  }

  lemma {:induction false} OfStepKeeps(log: seq<Execution>, index: nat)
    requires Ordered(log)
    ensures Ordered(OfStep(log, index))
    ensures forall d :: d in OfStep(log, index) ==> d in log && d.step == index
  {
    hide Before;
    if log != [] {
      OfStepKeeps(log[1..], index);
      assert forall d :: d in log[1..] ==> Before(log[0], d);
    }
  }

  ghost predicate OneStep(log: seq<Execution>, index: nat, attempts: nat, iterations: nat) {
    forall k :: 0 <= k < |log| ==> log[k].step == index && log[k].attempt < attempts && log[k].iteration < iterations
  }

  lemma OneStepClimbs(log: seq<Execution>, index: nat, attempts: nat, iterations: nat, bound: nat)
    requires Ordered(log) && OneStep(log, index, attempts, iterations) && bound == iterations * attempts
    ensures Climbs(log, attempts, 0, bound)
  {
    hide Before, Rank;
    forall k | 0 <= k < |log|
      ensures Rank(log[k], attempts) < bound
    {
      RankBound(log[k], attempts, iterations);
    }
    forall i, j | 0 <= i < j < |log|
      ensures Rank(log[i], attempts) < Rank(log[j], attempts)
    {
      RankGrows(log[i], log[j], attempts, iterations);
    }
  }

  lemma OfStepIsOneStep(steps: seq<MissionStep>, log: seq<Execution>, index: nat)
    requires MissionLog(steps, |steps|, log) && index < |steps|
    ensures Ordered(OfStep(log, index))
    ensures OneStep(OfStep(log, index), index, Most(steps[index]), steps[index].iterations)
  {
    hide Before, Ordered, OfStep;
    OfStepKeeps(log, index);
    var mine := OfStep(log, index);
    forall k | 0 <= k < |mine|
      ensures mine[k].step == index && mine[k].attempt < Most(steps[index])
      ensures mine[k].iteration < steps[index].iterations
    {
      assert mine[k] in mine;
      assert MissionExecution(steps, mine[k]);
    }
  }

  function Max(a: nat, b: nat): nat {
    if a < b then b else a
  }

  function Min(a: nat, b: nat): nat {
    if a < b then a else b
  }

  /** What the two settings allow together: the policy's attempts, or one more than the retries. */
  function Most(step: MissionStep): nat {
    Max(step.policy.maxAttempts, Min(step.retry + 1, MaxCount))
  }

  /** No step is executed more often than its iterations times the policy's attempts, or times one
      more than its retries if that is larger. */
  lemma ExecutionsAreBounded(steps: seq<MissionStep>, log: seq<Execution>, index: nat)
    requires MissionLog(steps, |steps|, log) && index < |steps|
    ensures |OfStep(log, index)| <=
      steps[index].iterations * Max(steps[index].policy.maxAttempts, Min(steps[index].retry + 1, MaxCount))
  {
    hide *;
    OfStepIsOneStep(steps, log, index);
    OneStepIsShort(OfStep(log, index), index, Most(steps[index]), steps[index].iterations);
    MostIs(steps[index]);
  }

  lemma MostIs(step: MissionStep)
    ensures Most(step) == Max(step.policy.maxAttempts, Min(step.retry + 1, MaxCount))
  {
  }

  lemma OneStepIsShort(log: seq<Execution>, index: nat, attempts: nat, iterations: nat)
    requires Ordered(log) && OneStep(log, index, attempts, iterations)
    ensures |log| <= iterations * attempts
  {
    hide *;
    var bound: nat := iterations * attempts;
    OneStepClimbs(log, index, attempts, iterations, bound);
    ClimbIsShort(log, attempts, 0, bound);
  }

  lemma RankBound(d: Execution, attempts: nat, iterations: nat)
    requires d.attempt < attempts && d.iteration < iterations
    ensures Rank(d, attempts) < iterations * attempts
  {
    Scaled(d.iteration + 1, iterations, attempts);
    assert (d.iteration + 1) * attempts == d.iteration * attempts + attempts;
  }
}
