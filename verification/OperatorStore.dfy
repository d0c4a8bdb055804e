/**
 * The operator's files as an object: each operation writes result files, the persisted
 * last run and the dispatch log in place, and is proved to compute the pipeline functions.
 */
module OperatorStore {
  import opened Common
  import opened Text
  import opened OperatorContracts
  import opened OperatorPipeline

  class Store {
    var files: map<string, RunResult>
    const tasks: map<string, Task>
    const others: set<string>
    var last: Option<LastRun>
    var dispatched: seq<Task>

    function Contents(): World
      reads this
    {
      World(files, tasks, others, last, dispatched)
    }

    constructor (w: World)
      ensures Contents() == w
    {
      files, tasks, others, last, dispatched := w.files, w.tasks, w.others, w.last, w.dispatched;
    }

    method WriteOperatorTrace(r: RunResult, path: Option<string>, persist: bool) returns (stored: RunResult)
      modifies this`files, this`last
      ensures Contents() == WriteTrace(old(Contents()), r, path, persist).world
      ensures stored == WriteTrace(old(Contents()), r, path, persist).result
    {
      var tracePath := OrElse(OrElse(path, r.tracePath), Some(RunPath(r.taskId))).value;
      stored := WithBrowserSessionTrace(r.(tracePath := Some(tracePath)));
      files := files[tracePath := stored];
      if persist {
        var run := LastRunOf(stored);
        var promotion := stored.promotion;
        if promotion.None? {
          promotion := Some(DecidePromotion(DiskOf(Contents()), OrElse(stored.evaluation, run.evaluation),
                                            run.proofTokens + Tokens(stored.evidence), []));
        }
        last := Some(run.(promotion := promotion));
      }
    }

    method DispatchRunnerTask(task: Task, step: Step, path: Option<string>) returns (r: RunResult)
      modifies this
      ensures Contents() == DispatchRunner(old(Contents()), task, step, path).world
      ensures r == DispatchRunner(old(Contents()), task, step, path).result
    {
      dispatched := dispatched + [task];
      var found := CwdEvidence(task, step);
      if !step.active {
        found := found + [Proof(task.id + ".control", ManualNote, "control state")];
        r := WriteOperatorTrace(Plain(task.id, BlockedStatus, found, ["control blocked"]), path, false);
      } else if step.pathsMissing {
        r := WriteOperatorTrace(Plain(task.id, BlockedStatus, found, ["allowed path missing"]), path, false);
      } else {
        r := WriteOperatorTrace(Plain(task.id, step.status, found + step.found, step.errors), path, false);
      }
    }

    method EvaluateOperatorResultWithRetry(task: Task, source: RunResult, sourcePath: string, retry: Step)
      returns (evaluation: Evaluation)
      modifies this
      ensures var e := EvaluateWithRetry(old(Contents()), task, source, sourcePath, retry);
              Contents() == e.world && evaluation == e.evaluation
    {
      var sourceEvaluation := EvaluateOperatorResult(DiskOf(Contents()), task, source);
      var sourceAttempt := BuildAttempt(false, sourcePath, source, sourceEvaluation);
      if sourceEvaluation.passed || !IsRetryable(task) {
        return Compose(sourcePath, sourceAttempt, IsRetryable(task), None);
      }
      var retryResult := DispatchRunnerTask(task, retry, Some(RetryResultPath(sourcePath)));
      var retryEvaluation := EvaluateOperatorResult(DiskOf(Contents()), task, retryResult);
      var retryAttempt := BuildAttempt(true, retryResult.tracePath.value, retryResult, retryEvaluation);
      evaluation := Compose(sourcePath, sourceAttempt, true, Some(retryAttempt));
    }

    method DispatchManualEvaluation(task: Task, found: seq<Evidence>, retry: Step) returns (r: RunResult)
      modifies this
      ensures Contents() == DispatchEvaluation(old(Contents()), task, found, retry, None).world
      ensures r == DispatchEvaluation(old(Contents()), task, found, retry, None).result
    {
      var target := TargetId(Contents(), task);
      if target == "" {
        r := WriteOperatorTrace(Refused(task, found, "result_task_id missing"), None, false);
        return;
      }
      var judged: Task;
      var loaded := found;
      if target in tasks {
        judged := tasks[target];
        loaded := loaded + [Proof(task.id + ".task", FileRead, "task")];
      } else if task.inputs.sourceTask.Some? {
        judged := task.inputs.sourceTask.value;
        if judged.id != target {
          r := WriteOperatorTrace(Refused(task, found, "source_task id mismatch"), None, false);
          return;
        }
        loaded := loaded + [Proof(task.id + ".task", ManualNote, "task")];
      } else {
        r := WriteOperatorTrace(Refused(task, found, "target task missing"), None, false);
        return;
      }
      if RunPath(target) !in files {
        r := WriteOperatorTrace(Refused(task, loaded, "target result missing"), None, false);
        return;
      }
      var evaluation := EvaluateOperatorResultWithRetry(judged, files[RunPath(target)], RunPath(target), retry);
      r := WriteOperatorTrace(Gate(task, EvaluationResult(task, loaded, target, evaluation)), None, false);
    }

    method DispatchManualPromotion(task: Task, found: seq<Evidence>) returns (r: RunResult)
      requires task.inputs.promotionResultTaskId.Some?
      modifies this
      ensures Contents() == DispatchPromotion(old(Contents()), task, found, None).world
      ensures r == DispatchPromotion(old(Contents()), task, found, None).result
    {
      var target := Trim(task.inputs.promotionResultTaskId.value);
      if target == "" {
        r := WriteOperatorTrace(Refused(task, found, "promotion_result_task_id missing"), None, false);
        return;
      }
      if RunPath(target) !in files {
        r := WriteOperatorTrace(Refused(task, found, "target result missing"), None, false);
        return;
      }
      var source := files[RunPath(target)];
      var promotion := DecidePromotion(DiskOf(Contents()), source.evaluation, Tokens(source.evidence), []);
      var result := PromotionResult(task, found, target, source.evaluation, promotion);
      r := WriteOperatorTrace(Gate(task, result), None, false);
    }

    method DispatchOperatorTask(task: Task, step: Step, retry: Step) returns (r: RunResult)
      modifies this
      ensures Contents() == Dispatch(old(Contents()), task, step, retry).world
      ensures r == Dispatch(old(Contents()), task, step, retry).result
    {
      if task.route != Manual || !step.active || step.pathsMissing {
        r := DispatchRunnerTask(task, step, None);
        return;
      }
      dispatched := dispatched + [task];
      if task.inputs.promotionResultTaskId.Some? {
        r := DispatchManualPromotion(task, CwdEvidence(task, step));
      } else {
        r := DispatchManualEvaluation(task, CwdEvidence(task, step), retry);
      }
    }

    method RunOperatorLifecycle(source: Task, s: Surroundings, persist: bool) returns (r: RunResult)
      modifies this
      ensures Contents() == RunLifecycle(old(Contents()), source, s, persist).world
      ensures r == RunLifecycle(old(Contents()), source, s, persist).result
    {
      var path := Some(RunPath(source.id + ".lifecycle"));
      var dispatch := DispatchOperatorTask(source, s.dispatch, s.nested);
      if dispatch.status != Success {
        r := WriteOperatorTrace(StoppedLifecycle(source, dispatch), path, persist);
        return;
      }
      var evaluation := DispatchOperatorTask(EvaluationTask(source), s.evaluation, s.retry);
      var promotion := DispatchOperatorTask(PromotionTask(source), s.promotion, s.retry);
      r := WriteOperatorTrace(FullLifecycle(source, dispatch, evaluation, promotion), path, persist);
    }
  }
}
