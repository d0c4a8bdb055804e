/**
 * End-to-end soundness of the operator pipeline: what a passed run-ledger entry implies,
 * and how often a task is dispatched.
 */
module OperatorSoundness {
  import opened Common
  import opened Text
  import opened OperatorContracts
  import opened OperatorPipeline

  // ── Ids are trimmed ───────────────────────────────────────────────────

  predicate IdChar(c: char) {
    'a' <= c <= 'z' || '0' <= c <= '9' || c == '.' || c == '_' || c == '-'
  }

  predicate IdOk(id: string) {
    3 <= |id| <= 81 && forall i :: 0 <= i < |id| ==> IdChar(id[i])
  }

  lemma TrimmedAlready(s: string)
    requires s != "" && !IsWhitespace(s[0]) && !IsWhitespace(s[|s| - 1])
    ensures Trim(s) == s
  {
  }

  lemma IdsAreTrimmed(id: string)
    requires IdOk(id)
    ensures Trim(id) == id && Trim(EvaluationId(id)) == EvaluationId(id)
    ensures id != "" && EvaluationId(id) != ""
  {}

  // ── What a step of the pipeline leaves alone ──────────────────────────

  /** Only the named files changed, none vanished, and the stored tasks are the same. */
  predicate Extends(w: World, later: World, touched: set<string>) {
    && later.tasks == w.tasks && later.others == w.others
    && (forall p :: p in w.files ==> p in later.files)
    && (forall p :: p in w.files && p !in touched ==> later.files[p] == w.files[p])
  }

  lemma PassesLater(w: World, later: World, touched: set<string>, task: Task, r: RunResult)
    requires Extends(w, later, touched) && Passes(DiskOf(w), task, r)
    ensures Passes(DiskOf(later), task, r)
  {
  }

  lemma RunnerWritesOneFile(w: World, task: Task, step: Step, path: Option<string>)
    ensures var d := DispatchRunner(w, task, step, path);
            var p := OrElse(path, Some(RunPath(task.id))).value;
            && d.result.tracePath == Some(p) && p in d.world.files && d.world.files[p] == d.result
            && d.result.evaluation == None
            && Extends(w, d.world, {p})
            && d.world.dispatched == w.dispatched + [task]
  {
  }

  // ── Evaluation ────────────────────────────────────────────────────────

  /** The winning file, at the time of the world, passes for the task. */
  predicate SoundAt(w: World, task: Task, path: string) {
    path in w.files && Passes(DiskOf(w), task, w.files[path])
  }

  predicate Retried(e: Evaluation) {
    e.retryUsed == Some(true)
  }

  /** The shape the control validator later asks of an evaluation. */
  predicate WellFormed(e: Evaluation) {
    && 1 <= |e.attempts| == |e.resultChain| <= 2
    && e.retryUsed == Some(|e.attempts| == 2)
    && (e.finalVerdict == Some(Passed) <==> e.passed)
    && (e.passed <==> Named(e.winningPath))
  }

  /** A passing evaluation of the result stored under the id names the file it passed: the
      loaded result itself, or the retry of a retryable task. */
  predicate WonFairly(w: World, later: World, task: Task, id: string, e: Evaluation) {
    && RunPath(id) in w.files
    && WellFormed(e)
    && (Retried(e) ==> IsRetryable(task))
    && (e.passed ==>
          if Retried(e)
          then e.winningPath == Some(RunPath(id + ".retry-1")) && SoundAt(later, task, RunPath(id + ".retry-1"))
          else e.winningPath == Some(RunPath(id)) && Passes(DiskOf(w), task, w.files[RunPath(id)]))
  }

  lemma ComposedVerdict(sourcePath: string, source: Attempt, retryable: bool, retry: Option<Attempt>)
    requires sourcePath != "" && (retry.Some? ==> retry.value.resultPath != "") && source.resultPath == sourcePath
    ensures var e := Compose(sourcePath, source, retryable, retry);
            var final := if retry.Some? then retry.value else source;
            && WellFormed(e)
            && (Retried(e) <==> retry.Some?)
            && (e.passed <==> final.verdict == Passed)
            && (e.passed ==> e.winningPath == Some(final.resultPath))
  {
  }

  lemma RetriedOutcome(w: World, task: Task, id: string, retry: Step)
    requires RunPath(id) in w.files && NeedsRetry(w, task, w.files[RunPath(id)])
    ensures var e := EvaluateWithRetry(w, task, w.files[RunPath(id)], RunPath(id), retry);
            && Retried(e.evaluation)
            && WonFairly(w, e.world, task, id, e.evaluation)
            && Extends(w, e.world, {RunPath(id + ".retry-1")})
            && e.world.dispatched == w.dispatched + [task]
  {
    RetryPathOfRun(id);
    var source, path := w.files[RunPath(id)], RunPath(id + ".retry-1");
    RunnerWritesOneFile(w, task, retry, Some(path));
    var again := DispatchRunner(w, task, retry, Some(path));
    PassesIffNoIssue(DiskOf(again.world), task, again.result);
    var first := BuildAttempt(false, RunPath(id), source, Evaluate(DiskOf(w), task, source));
    var second := BuildAttempt(true, path, again.result, Evaluate(DiskOf(again.world), task, again.result));
    ComposedVerdict(RunPath(id), first, true, Some(second));
  }

  lemma EvaluationOutcome(w: World, task: Task, id: string, retry: Step)
    requires RunPath(id) in w.files
    ensures var e := EvaluateWithRetry(w, task, w.files[RunPath(id)], RunPath(id), retry);
            && WonFairly(w, e.world, task, id, e.evaluation)
            && Extends(w, e.world, {RunPath(id + ".retry-1")})
            && (if Retried(e.evaluation) then e.world.dispatched == w.dispatched + [task] else e.world == w)
  {
    var source := w.files[RunPath(id)];
    if NeedsRetry(w, task, source) {
      RetriedOutcome(w, task, id, retry);
    } else {
      PassesIffNoIssue(DiskOf(w), task, source);
      var first := BuildAttempt(false, RunPath(id), source, Evaluate(DiskOf(w), task, source));
      ComposedVerdict(RunPath(id), first, IsRetryable(task), None);
    }
  }

  lemma StillWonFairly(w: World, mid: World, later: World, task: Task, id: string, e: Evaluation, touched: set<string>)
    requires WonFairly(w, mid, task, id, e) && Extends(mid, later, touched)
    requires RunPath(id + ".retry-1") !in touched
    ensures WonFairly(w, later, task, id, e)
  {}

  // ── Manual dispatches ─────────────────────────────────────────────────

  /** At most one retry of a retryable task was dispatched. */
  predicate OneRetryAtMost(extra: seq<Task>) {
    extra == [] || (|extra| == 1 && IsRetryable(extra[0]))
  }

  /** The files a manual evaluation may write besides its own. */
  function RetryFiles(w: World, task: Task): set<string> {
    {RunPath(TargetId(w, task) + ".retry-1")}
  }

  /** The evaluation task reaches the evaluator: it has a target, a task to judge and a result to load. */
  predicate Evaluates(w: World, task: Task) {
    var target := TargetId(w, task);
    && target != ""
    && JudgedTask(w, task, target).Some?
    && (target in w.tasks || JudgedTask(w, task, target).value.id == target)
    && RunPath(target) in w.files
  }

  lemma EvaluatingDispatch(w: World, task: Task, found: seq<Evidence>, retry: Step)
    requires Evaluates(w, task)
    ensures var d := DispatchEvaluation(w, task, found, retry, None);
            var target := TargetId(w, task);
            var judged := JudgedTask(w, task, target).value;
            var e := EvaluateWithRetry(w, judged, w.files[RunPath(target)], RunPath(target), retry);
            && d.result.tracePath == Some(RunPath(task.id))
            && d.result.evaluation == Some(e.evaluation)
            && d.world == e.world.(files := e.world.files[RunPath(task.id) := d.result])
  {
  }

  lemma RefusedDispatch(w: World, task: Task, found: seq<Evidence>, retry: Step)
    requires !Evaluates(w, task)
    ensures var d := DispatchEvaluation(w, task, found, retry, None);
            && d.result.tracePath == Some(RunPath(task.id))
            && d.result.evaluation == None
            && d.world == w.(files := w.files[RunPath(task.id) := d.result])
  {
  }

  lemma FileWritten(w: World, mid: World, later: World, path: string, r: RunResult, touched: set<string>)
    requires Extends(w, mid, touched) && later == mid.(files := mid.files[path := r])
    ensures Extends(w, later, touched + {path}) && later.files[path] == r
  {
  }

  lemma EvaluationDispatchExtends(w: World, task: Task, found: seq<Evidence>, retry: Step) returns (extra: seq<Task>)
    ensures var d := DispatchEvaluation(w, task, found, retry, None);
            && d.result.tracePath == Some(RunPath(task.id))
            && RunPath(task.id) in d.world.files && d.world.files[RunPath(task.id)] == d.result
            && Extends(w, d.world, RetryFiles(w, task) + {RunPath(task.id)})
            && d.world.dispatched == w.dispatched + extra && OneRetryAtMost(extra)
  {
    extra := [];
    assert w.dispatched + [] == w.dispatched;
    var d := DispatchEvaluation(w, task, found, retry, None);
    if Evaluates(w, task) {
      var target := TargetId(w, task);
      var judged := JudgedTask(w, task, target).value;
      EvaluatingDispatch(w, task, found, retry);
      EvaluationOutcome(w, judged, target, retry);
      var e := EvaluateWithRetry(w, judged, w.files[RunPath(target)], RunPath(target), retry);
      FileWritten(w, e.world, d.world, RunPath(task.id), d.result, RetryFiles(w, task));
      extra := if Retried(e.evaluation) then [judged] else [];
    } else {
      RefusedDispatch(w, task, found, retry);
      FileWritten(w, w, d.world, RunPath(task.id), d.result, RetryFiles(w, task));
    }
  }

  lemma PromotionDispatchExtends(w: World, task: Task, found: seq<Evidence>)
    requires task.inputs.promotionResultTaskId.Some?
    ensures var d := DispatchPromotion(w, task, found, None);
            && d.result.tracePath == Some(RunPath(task.id))
            && RunPath(task.id) in d.world.files && d.world.files[RunPath(task.id)] == d.result
            && Extends(w, d.world, {RunPath(task.id)})
            && d.world.dispatched == w.dispatched
  {
  }

  /** Any dispatch leaves its result in its own file, and hands at most one retry, of a
      retryable task, back to the dispatcher. */
  lemma DispatchExtends(w: World, task: Task, step: Step, retry: Step) returns (extra: seq<Task>)
    ensures var d := Dispatch(w, task, step, retry);
            && d.result.tracePath == Some(RunPath(task.id))
            && RunPath(task.id) in d.world.files && d.world.files[RunPath(task.id)] == d.result
            && Extends(w, d.world, RetryFiles(w, task) + {RunPath(task.id)})
            && d.world.dispatched == w.dispatched + [task] + extra && OneRetryAtMost(extra)
  {
    extra := [];
    assert w.dispatched + [task] + extra == w.dispatched + [task];
    if task.route != Manual {
      RunnerWritesOneFile(w, task, step, None);
    } else if Stopped(task, step).None? {
      if task.inputs.promotionResultTaskId.Some? {
        PromotionDispatchExtends(Note(w, task), task, CwdEvidence(task, step));
      } else {
        extra := EvaluationDispatchExtends(Note(w, task), task, CwdEvidence(task, step), retry);
      }
    }
  }

  // ── The lifecycle ─────────────────────────────────────────────────────

  /** The task file stored under the source's id, if any, is the source itself. */
  predicate StoredTaskMatches(w: World, source: Task) {
    source.id in w.tasks ==> w.tasks[source.id] == source
  }

  lemma EvaluationTaskEvaluates(w: World, source: Task)
    requires IdOk(source.id) && StoredTaskMatches(w, source) && RunPath(source.id) in w.files
    ensures Evaluates(w, EvaluationTask(source))
    ensures TargetId(w, EvaluationTask(source)) == source.id
    ensures JudgedTask(w, EvaluationTask(source), source.id) == Some(source)
  {
    IdsAreTrimmed(source.id);
  }

  lemma EvaluationJudgesTheSource(w: World, source: Task, found: seq<Evidence>, retry: Step)
    requires IdOk(source.id) && StoredTaskMatches(w, source) && RunPath(source.id) in w.files
    ensures var d := DispatchEvaluation(w, EvaluationTask(source), found, retry, None);
            d.result.evaluation.Some? && WonFairly(w, d.world, source, source.id, d.result.evaluation.value)
  {
    var task := EvaluationTask(source);
    EvaluationTaskEvaluates(w, source);
    EvaluatingDispatch(w, task, found, retry);
    EvaluationOutcome(w, source, source.id, retry);
    DerivedIdsAreApart(source.id, ".retry-1");
    RunPathsDiffer(source.id + ".retry-1", EvaluationId(source.id));
    var e := EvaluateWithRetry(w, source, w.files[RunPath(source.id)], RunPath(source.id), retry);
    var d := DispatchEvaluation(w, task, found, retry, None);
    FileWritten(e.world, e.world, d.world, RunPath(task.id), d.result, {});
    StillWonFairly(w, e.world, d.world, source, source.id, e.evaluation, {} + {RunPath(task.id)});
  }

  /** The evaluation that the lifecycle's second stage writes, when it gets to evaluate. */
  lemma EvaluationStageJudgesTheDispatch(w: World, source: Task, step: Step, retry: Step)
    requires IdOk(source.id) && StoredTaskMatches(w, source) && RunPath(source.id) in w.files
    ensures var d := Dispatch(w, EvaluationTask(source), step, retry);
            d.result.evaluation.Some? ==> WonFairly(w, d.world, source, source.id, d.result.evaluation.value)
  {
    var task := EvaluationTask(source);
    if Stopped(task, step).None? {
      var noted := Note(w, task);
      EvaluationJudgesTheSource(noted, source, CwdEvidence(task, step), retry);
      var d := DispatchEvaluation(noted, task, CwdEvidence(task, step), retry, None);
      SameDisk(w, noted, d.world, source, source.id, d.result.evaluation.value);
    }
  }

  lemma SameDisk(w: World, noted: World, later: World, task: Task, id: string, e: Evaluation)
    requires WonFairly(noted, later, task, id, e) && w.files == noted.files && w.others == noted.others
    ensures WonFairly(w, later, task, id, e)
  {
    assert forall p :: OnDisk(w, p) == OnDisk(noted, p);
  }

  /** Whatever task it judges, an evaluation dispatch only ever writes a well-formed evaluation. */
  lemma EvaluationStageIsWellFormed(w: World, source: Task, step: Step, retry: Step)
    ensures var e := Dispatch(w, EvaluationTask(source), step, retry).result.evaluation;
            e.Some? ==> WellFormed(e.value)
  {
    var task := EvaluationTask(source);
    if Stopped(task, step).None? {
      var noted, found := Note(w, task), CwdEvidence(task, step);
      if Evaluates(noted, task) {
        var target := TargetId(noted, task);
        EvaluatingDispatch(noted, task, found, retry);
        EvaluationOutcome(noted, JudgedTask(noted, task, target).value, target, retry);
      } else {
        RefusedDispatch(noted, task, found, retry);
      }
    }
  }

  lemma PromotionStageOutcome(w: World, source: Task, step: Step, retry: Step)
    requires IdOk(source.id) && RunPath(EvaluationId(source.id)) in w.files
    ensures var d := Dispatch(w, PromotionTask(source), step, retry);
            var evaluation := w.files[RunPath(EvaluationId(source.id))].evaluation;
            && d.result.tracePath == Some(RunPath(PromotionId(source.id)))
            && d.world.files == w.files[RunPath(PromotionId(source.id)) := d.result]
            && Extends(w, d.world, {RunPath(PromotionId(source.id))})
            && d.world.dispatched == w.dispatched + [PromotionTask(source)]
            && (d.result.evaluation == None || d.result.evaluation == evaluation)
            && (d.result.promotion.Some? && d.result.promotion.value.promoted ==>
                  && evaluation.Some? && evaluation.value.passed && d.result.evaluation == evaluation
                  && d.result.promotion.value.winningPath == evaluation.value.winningPath
                  && Named(evaluation.value.winningPath) && OnDisk(w, evaluation.value.winningPath.value))
            && (d.result.promotion.Some? ==> PromotionSound(d.result.promotion.value))
  {
    var task := PromotionTask(source);
    IdsAreTrimmed(source.id);
    if Stopped(task, step).None? {
      PromotingDispatch(Note(w, task), source, CwdEvidence(task, step));
      assert forall p :: OnDisk(Note(w, task), p) == OnDisk(w, p);
    }
  }

  /** The validator's demands on a promotion, files apart. */
  predicate PromotionSound(p: Promotion) {
    && (p.status == Promoted <==> p.promoted)
    && (p.promoted ==> p.proofTokens != [] && Named(p.winningPath) && p.finalVerdict == Some(Passed))
  }

  lemma PromotingDispatch(w: World, source: Task, found: seq<Evidence>)
    requires IdOk(source.id) && RunPath(EvaluationId(source.id)) in w.files
    ensures var task := PromotionTask(source);
            var d := DispatchPromotion(w, task, found, None);
            var loaded := w.files[RunPath(EvaluationId(source.id))];
            && d.result.tracePath == Some(RunPath(task.id))
            && d.world == w.(files := w.files[RunPath(task.id) := d.result])
            && d.result.evaluation == loaded.evaluation
            && d.result.promotion == Some(DecidePromotion(DiskOf(w), loaded.evaluation, Tokens(loaded.evidence), []))
            && (d.result.promotion.value.promoted ==>
                  && loaded.evaluation.Some? && loaded.evaluation.value.passed
                  && d.result.promotion.value.winningPath == loaded.evaluation.value.winningPath
                  && Named(loaded.evaluation.value.winningPath)
                  && OnDisk(w, loaded.evaluation.value.winningPath.value))
            && PromotionSound(d.result.promotion.value)
  {
    IdsAreTrimmed(source.id);
    var loaded := w.files[RunPath(EvaluationId(source.id))];
    PromotedIff(DiskOf(w), loaded.evaluation, Tokens(loaded.evidence), []);
  }

  /** The stored file that a passed run rests on. */
  predicate RestsOn(w: World, source: Task, e: Evaluation, path: string) {
    && e.winningPath == Some(path)
    && SoundAt(w, source, path)
    && (path == RunPath(source.id) || (IsRetryable(source) && path == RunPath(source.id + ".retry-1")))
  }

  lemma WinnerIsKept(w: World, later: World, source: Task, path: string, touched: set<string>)
    requires SoundAt(w, source, path) && Extends(w, later, touched) && path !in touched
    ensures SoundAt(later, source, path)
  {
    PassesLater(w, later, touched, source, w.files[path]);
  }

  /** From the evaluation on, nothing overwrites the winning file of a source with separate ids. */
  lemma WinnerReachesTheEnd(
      dispatched: World, evaluated: World, promoted: World, final: World, source: Task, e: Evaluation)
    requires IdsAreSeparate(source.id)
    requires WonFairly(dispatched, evaluated, source, source.id, e) && e.passed
    requires Extends(dispatched, evaluated, {RunPath(source.id + ".retry-1"), RunPath(EvaluationId(source.id))})
    requires Extends(evaluated, promoted, {RunPath(PromotionId(source.id))})
    requires Extends(promoted, final, {RunPath(source.id + ".lifecycle")})
    ensures e.winningPath.Some? && RestsOn(final, source, e, e.winningPath.value)
  {
    var id := source.id;
    DerivedIdsAreApart(id, ".retry-1");
    DerivedIdsAreApart(id, ".lifecycle");
    assert id + ".retry-1" != id + ".lifecycle" by {
      assert |id + ".retry-1"| != |id + ".lifecycle"|;
    }
    RunPathsDiffer(id, id + ".retry-1");
    RunPathsDiffer(id, EvaluationId(id));
    RunPathsDiffer(id, PromotionId(id));
    RunPathsDiffer(id, id + ".lifecycle");
    RunPathsDiffer(id + ".retry-1", PromotionId(id));
    RunPathsDiffer(id + ".retry-1", id + ".lifecycle");
    var path := e.winningPath.value;
    if !Retried(e) {
      WinnerIsKept(dispatched, evaluated, source, path, {RunPath(id + ".retry-1"), RunPath(EvaluationId(id))});
    }
    WinnerIsKept(evaluated, promoted, source, path, {RunPath(PromotionId(id))});
    WinnerIsKept(promoted, final, source, path, {RunPath(id + ".lifecycle")});
  }

  // ── Main results ──────────────────────────────────────────────────────

  lemma StagesInOrder(w: World, source: Task, s: Surroundings)
    requires IdOk(source.id)
    ensures var dispatch := DispatchStage(w, source, s);
            && dispatch.result.tracePath == Some(RunPath(source.id))
            && RunPath(source.id) in dispatch.world.files
            && dispatch.world.files[RunPath(source.id)] == dispatch.result
            && dispatch.world.tasks == w.tasks
    ensures var dispatch, evaluation := DispatchStage(w, source, s), EvaluationStage(w, source, s);
            && evaluation.result.tracePath == Some(RunPath(EvaluationId(source.id)))
            && RunPath(EvaluationId(source.id)) in evaluation.world.files
            && evaluation.world.files[RunPath(EvaluationId(source.id))] == evaluation.result
            && Extends(dispatch.world, evaluation.world,
                       {RunPath(source.id + ".retry-1"), RunPath(EvaluationId(source.id))})
  {
    var e0 := DispatchExtends(w, source, s.dispatch, s.nested);
    var dispatch := DispatchStage(w, source, s);
    var e1 := DispatchExtends(dispatch.world, EvaluationTask(source), s.evaluation, s.retry);
    IdsAreTrimmed(source.id);
    assert RetryFiles(dispatch.world, EvaluationTask(source)) + {RunPath(EvaluationId(source.id))}
        == {RunPath(source.id + ".retry-1"), RunPath(EvaluationId(source.id))};
  }

  /** A promoted lifecycle rests on an evaluation, of the dispatched result, that passed. */
  lemma SuccessWasWonFairly(w: World, source: Task, s: Surroundings, persist: bool)
    requires IdOk(source.id) && StoredTaskMatches(w, source)
    requires RunLifecycle(w, source, s, persist).result.status == Success
    ensures DispatchStage(w, source, s).result.status == Success
    ensures var d := RunLifecycle(w, source, s, persist);
            && d.result.evaluation.Some? && d.result.evaluation.value.passed
            && WonFairly(DispatchStage(w, source, s).world, EvaluationStage(w, source, s).world, source, source.id,
                         d.result.evaluation.value)
            && Extends(PromotionStage(w, source, s).world, d.world, {RunPath(source.id + ".lifecycle")})
  {
    StagesInOrder(w, source, s);
    var dispatch, evaluation := DispatchStage(w, source, s), EvaluationStage(w, source, s);
    EvaluationStageJudgesTheDispatch(dispatch.world, source, s.evaluation, s.retry);
    PromotionStageOutcome(evaluation.world, source, s.promotion, s.retry);
  }

  /** A passed run-ledger entry is sound end to end: the run was promoted, on a passing
      evaluation whose winning file, still in place at the end, holds a result with status
      success, every expected evidence type, a proof token on every evidence item, no
      errors and an existing trace; and that file is the dispatch's own, or the single
      retry of a task that may not write. */
  lemma PassedEntriesAreSound(w: World, source: Task, s: Surroundings, persist: bool)
    requires IdOk(source.id) && StoredTaskMatches(w, source) && IdsAreSeparate(source.id)
    ensures var d := RunLifecycle(w, source, s, persist);
            BuildLedgerEntry(source, d.result).verdict == Passed ==>
              && d.result.promotion.Some? && d.result.promotion.value.promoted
              && d.result.evaluation.Some? && d.result.evaluation.value.passed
              && |d.result.evaluation.value.attempts| <= 2
              && exists path :: RestsOn(d.world, source, d.result.evaluation.value, path)
  {
    var d := RunLifecycle(w, source, s, persist);
    if BuildLedgerEntry(source, d.result).verdict == Passed {
      SuccessWasWonFairly(w, source, s, persist);
      StagesInOrder(w, source, s);
      PromotionStageOutcome(EvaluationStage(w, source, s).world, source, s.promotion, s.retry);
      WinnerReachesTheEnd(
        DispatchStage(w, source, s).world, EvaluationStage(w, source, s).world, PromotionStage(w, source, s).world,
        d.world, source, d.result.evaluation.value);
    }
  }

  lemma SourceFileAtTheEnd(
      dispatched: World, evaluated: World, promoted: World, final: World, id: string,
      first: RunResult, second: RunResult, third: RunResult)
    requires |id| <= 81
    requires RunPath(id) in dispatched.files && dispatched.files[RunPath(id)] == first
    requires Extends(dispatched, evaluated, {RunPath(id + ".retry-1"), RunPath(EvaluationId(id))})
    requires RunPath(EvaluationId(id)) in evaluated.files && evaluated.files[RunPath(EvaluationId(id))] == second
    requires promoted.files == evaluated.files[RunPath(PromotionId(id)) := third]
    requires Extends(promoted, final, {RunPath(id + ".lifecycle")})
    requires first.evaluation.None? && second.evaluation.Some? && third.evaluation.Some?
    ensures RunPath(id) in final.files
    ensures final.files[RunPath(id)] == first <==> IdsAreSeparate(id)
  {
    DerivedIdsAreApart(id, ".retry-1");
    DerivedIdsAreApart(id, ".lifecycle");
    RunPathsDiffer(id, id + ".retry-1");
    RunPathsDiffer(id, EvaluationId(id));
    RunPathsDiffer(id, PromotionId(id));
    RunPathsDiffer(id, id + ".lifecycle");
    RunPathsDiffer(EvaluationId(id), PromotionId(id));
  }

  lemma SeparateMeansNotCutOff(id: string)
    requires |id| <= 81
    ensures IdsAreSeparate(id) <==> !(|id| == 80 && (id[70..] == "-life-eval" || id[70..] == "-life-prom"))
  {
    DerivedIdCollides(id, "life-eval");
    DerivedIdCollides(id, "life-prom");
    assert "-" + "life-eval" == "-life-eval" && "-" + "life-prom" == "-life-prom";
  }

  /** Which condition the separate ids are: for a successful run of a source that is not
      manual, the file of the dispatched result still holds it at the end exactly when the
      source id is not itself one of its derived ids, cut off at 80 characters. */
  lemma WinnerSurvivesIffIdsAreSeparate(w: World, source: Task, s: Surroundings, persist: bool)
    requires IdOk(source.id) && StoredTaskMatches(w, source) && source.route != Manual
    requires RunLifecycle(w, source, s, persist).result.status == Success
    ensures var id, d := source.id, RunLifecycle(w, source, s, persist);
            && RunPath(id) in d.world.files
            && (d.world.files[RunPath(id)] == DispatchStage(w, source, s).result <==>
                !(|id| == 80 && (id[70..] == "-life-eval" || id[70..] == "-life-prom")))
  {
    var dispatched, evaluated, promoted := DispatchStage(w, source, s), EvaluationStage(w, source, s),
      PromotionStage(w, source, s);
    SuccessWasWonFairly(w, source, s, persist);
    StagesInOrder(w, source, s);
    PromotionStageOutcome(evaluated.world, source, s.promotion, s.retry);
    RunnerWritesOneFile(w, source, s.dispatch, None);
    SeparateMeansNotCutOff(source.id);
    SourceFileAtTheEnd(dispatched.world, evaluated.world, promoted.world, RunLifecycle(w, source, s, persist).world,
                       source.id, dispatched.result, evaluated.result, promoted.result);
  }

  lemma {:induction false} TrimKeepsInk(s: string, i: nat)
    requires i < |s| && !IsWhitespace(s[i])
    ensures Trim(s) != ""
    decreases |s|
  {
    if IsWhitespace(s[0]) {
      TrimKeepsInk(s[1..], i - 1);
    } else if IsWhitespace(s[|s| - 1]) {
      TrimKeepsInk(s[..|s| - 1], i);
    }
  }

  lemma LifecycleTokensExist(tokens: seq<string>, id: string)
    requires id + ".dispatch" in tokens
    ensures UniqueNonBlank(tokens) != []
  {
    var t := id + ".dispatch";
    TrimKeepsInk(t, |t| - 1);
    NonBlankKeeps(tokens);
    assert t in UniqueNonBlank(tokens);
  }

  lemma FullEntryPasses(source: Task, dispatch: RunResult, evaluation: RunResult, promotion: RunResult)
    requires IsPromoted(promotion) && PromotionSound(promotion.promotion.value)
    ensures BuildLedgerEntry(source, FullLifecycle(source, dispatch, evaluation, promotion)).verdict == Passed
  {
    var r := FullLifecycle(source, dispatch, evaluation, promotion);
    var token := LifecycleId(source.id) + ".dispatch";
    assert r.evidence[0] == Proof(token, LogTrace, PathOf(dispatch));
    assert Tokens(r.evidence)[0] == token;
    LifecycleTokensExist(
      Tokens(r.evidence) + r.lifecycle.value.proofTokens + r.promotion.value.proofTokens, LifecycleId(source.id));
  }

  lemma NoBrowserInLifecycle(source: Task, dispatch: RunResult, evaluation: RunResult, promotion: RunResult)
    ensures WithBrowserSessionTrace(FullLifecycle(source, dispatch, evaluation, promotion))
         == FullLifecycle(source, dispatch, evaluation, promotion)
  {
    NoObservationsNoTraces(FullLifecycle(source, dispatch, evaluation, promotion).evidence,
      RunPath(source.id + ".lifecycle"));
  }

  lemma {:induction false} NoObservationsNoTraces(evidence: seq<Evidence>, path: string)
    requires forall e :: e in evidence ==> e.kind != BrowserObservation
    ensures BrowserTraces(evidence, path) == [] && evidence + BrowserTraces(evidence, path) == evidence
  {
    if evidence != [] {
      NoObservationsNoTraces(evidence[..|evidence| - 1], path);
    }
  }

  /** For a lifecycle, the ledger's verdict is passed exactly when the run succeeded: the
      remaining conditions of the ledger always hold of what the lifecycle produces. */
  lemma EntryPassesIffLifecycleSucceeds(w: World, source: Task, s: Surroundings, persist: bool)
    requires IdOk(source.id)
    ensures var r := RunLifecycle(w, source, s, persist).result;
            BuildLedgerEntry(source, r).verdict == Passed <==> r.status == Success
  {
    var dispatch, evaluation, promotion := DispatchStage(w, source, s), EvaluationStage(w, source, s),
      PromotionStage(w, source, s);
    if dispatch.result.status == Success && IsPromoted(promotion.result) {
      StagesInOrder(w, source, s);
      PromotionStageOutcome(evaluation.world, source, s.promotion, s.retry);
      FullEntryPasses(source, dispatch.result, evaluation.result, promotion.result);
      NoBrowserInLifecycle(source, dispatch.result, evaluation.result, promotion.result);
    }
  }

  // ── How often a task is dispatched ────────────────────────────────────

  /** The tasks handed to the dispatcher by one lifecycle, oldest first. */
  function LifecycleLog(w: World, source: Task, s: Surroundings): seq<Task> {
    if DispatchStage(w, source, s).result.status == Success then PromotionStage(w, source, s).world.dispatched
    else DispatchStage(w, source, s).world.dispatched
  }

  lemma LogOfLifecycle(w: World, source: Task, s: Surroundings, persist: bool)
    ensures RunLifecycle(w, source, s, persist).world.dispatched == LifecycleLog(w, source, s)
  {
  }

  /** After the source: at most one retry nested in a manual source, and, if the dispatch
      succeeded, the evaluation task, at most one retry, and the promotion task. */
  predicate LifecycleTail(source: Task, tail: seq<Task>, nested: seq<Task>, retry: seq<Task>, succeeded: bool) {
    && OneRetryAtMost(nested) && OneRetryAtMost(retry)
    && tail == nested + if succeeded then [EvaluationTask(source)] + retry + [PromotionTask(source)] else []
  }

  lemma LifecycleDispatches(w: World, source: Task, s: Surroundings, persist: bool)
    returns (tail: seq<Task>, nested: seq<Task>, retry: seq<Task>)
    ensures RunLifecycle(w, source, s, persist).world.dispatched == w.dispatched + [source] + tail
    ensures LifecycleTail(source, tail, nested, retry, DispatchStage(w, source, s).result.status == Success)
  {
    LogOfLifecycle(w, source, s, persist);
    nested := DispatchExtends(w, source, s.dispatch, s.nested);
    if DispatchStage(w, source, s).result.status == Success {
      retry := DispatchExtends(DispatchStage(w, source, s).world, EvaluationTask(source), s.evaluation, s.retry);
      PromotionDispatchesNothing(EvaluationStage(w, source, s).world, source, s.promotion, s.retry);
      tail := nested + ([EvaluationTask(source)] + retry + [PromotionTask(source)]);
      Regroup(w.dispatched + [source], nested, [EvaluationTask(source)], retry, [PromotionTask(source)]);
    } else {
      retry, tail := [], nested;
      assert nested + [] == nested;
    }
  }

  lemma Regroup(a: seq<Task>, b: seq<Task>, c: seq<Task>, d: seq<Task>, e: seq<Task>)
    ensures a + b + c + d + e == a + (b + (c + d + e))
  {
  }

  lemma PromotionDispatchesNothing(w: World, source: Task, step: Step, retry: Step)
    ensures Dispatch(w, PromotionTask(source), step, retry).world.dispatched == w.dispatched + [PromotionTask(source)]
  {}

  lemma TailNeverWrites(source: Task, tail: seq<Task>, nested: seq<Task>, retry: seq<Task>, succeeded: bool, t: Task)
    requires LifecycleTail(source, tail, nested, retry, succeeded) && t in tail
    ensures !MayWrite(t)
  {}

  /** A task that may write is dispatched at most once in a lifecycle, and only as the
      source itself: nothing dispatched after the source may write. */
  lemma WritersRunOnce(w: World, source: Task, s: Surroundings, persist: bool)
    ensures var log := RunLifecycle(w, source, s, persist).world.dispatched;
            && |w.dispatched| < |log| && log[..|w.dispatched|] == w.dispatched && log[|w.dispatched|] == source
            && forall i :: |w.dispatched| < i < |log| ==> !MayWrite(log[i])
  {
    var tail, nested, retry := LifecycleDispatches(w, source, s, persist);
    var log := RunLifecycle(w, source, s, persist).world.dispatched;
    forall i | |w.dispatched| < i < |log| ensures !MayWrite(log[i]) {
      TailNeverWrites(source, tail, nested, retry, DispatchStage(w, source, s).result.status == Success, log[i]);
    }
  }
}
