/**
 * What lets an operator task through and what stops it (src/operator/dispatcher.ts:721-982,
 * 1345-1432, src/operator/evaluator.ts:72-254): the gates of a dispatch, the retry of an
 * evaluation and the refusals of the manual route, in terms of tasks and results alone.
 */
module OperatorGates {
  import opened Common
  import opened Text
  import opened OperatorContracts
  import opened OperatorPipeline
  import opened OperatorSoundness

  // ── The gates of a dispatch ───────────────────────────────────────────

  /** Paused or stopped control, or a path the task may touch that is not there. */
  predicate GateClosed(step: Step) {
    !step.active || step.pathsMissing
  }

  /**
   * A closed gate blocks, on every route: the result is blocked, with an error, at the task's
   * own result path; the file of no other result is touched, and nothing but the task itself
   * is dispatched.  A control block leaves a note of the control state.
   */
  lemma AClosedGateBlocks(w: World, task: Task, step: Step, retry: Step)
    requires GateClosed(step)
    ensures var d := Dispatch(w, task, step, retry);
      && d.result.taskId == task.id && d.result.status == BlockedStatus && |d.result.errors| == 1
      && d.result.evaluation.None? && d.result.promotion.None? && d.result.lifecycle.None?
      && d.world.dispatched == w.dispatched + [task]
      && d.world.files == w.files[RunPath(task.id) := d.result]
      && d.world.tasks == w.tasks && d.world.others == w.others && d.world.last == w.last
  {}

  /** What a blocked dispatch leaves as evidence. */
  function BlockNotes(task: Task, step: Step): seq<Evidence> {
    CwdEvidence(task, step)
    + if step.active then [] else [Proof(task.id + ".control", ManualNote, "control state")]
  }

  lemma NotesSayWhy(task: Task, step: Step)
    ensures (exists e :: e in BlockNotes(task, step) && e.kind == ManualNote) <==> !step.active
    ensures (exists e :: e in BlockNotes(task, step) && e.kind == FileExists) <==> step.cwdExists
    ensures BrowserTraces(BlockNotes(task, step), RunPath(task.id)) == []
  {
    var notes := BlockNotes(task, step);
    assert step.cwdExists ==> notes[0].kind == FileExists;
    assert !step.active ==> notes[|notes| - 1].kind == ManualNote;
    NoBrowserNoTrace(notes, RunPath(task.id));
  }

  lemma NothingToTrace(w: World, r: RunResult)
    requires r.tracePath.None? && BrowserTraces(r.evidence, RunPath(r.taskId)) == []
    ensures WriteTrace(w, r, None, false).result.evidence == r.evidence
  {
    assert r.evidence + [] == r.evidence;
  }

  function BlockedResult(task: Task, step: Step): RunResult {
    Plain(task.id, BlockedStatus,
      BlockNotes(task, step), [if step.active then "allowed path missing" else "control blocked"])
  }

  lemma BlocksAreWritten(w: World, task: Task, step: Step, retry: Step)
    requires GateClosed(step)
    ensures Dispatch(w, task, step, retry) == WriteTrace(Note(w, task), BlockedResult(task, step), None, false)
  {
    assert CwdEvidence(task, step) + [] == CwdEvidence(task, step);
  }

  /** A control block leaves a note of the control state, and only that; the working
      directory is noted exactly if it is there. */
  lemma AClosedGateSaysWhy(w: World, task: Task, step: Step, retry: Step)
    requires GateClosed(step)
    ensures var d := Dispatch(w, task, step, retry);
      && (Observes(d.result, ManualNote) <==> !step.active)
      && (Observes(d.result, FileExists) <==> step.cwdExists)
      && (d.result.errors == ["control blocked"] <==> !step.active)
  {
    NotesSayWhy(task, step);
    BlocksAreWritten(w, task, step, retry);
    NothingToTrace(Note(w, task), BlockedResult(task, step));
  }

  lemma {:induction false} NoBrowserNoTrace(evidence: seq<Evidence>, path: string)
    requires forall e :: e in evidence ==> e.kind != BrowserObservation
    ensures BrowserTraces(evidence, path) == []
  {
    if evidence != [] {
      assert evidence[|evidence| - 1] in evidence;
      NoBrowserNoTrace(evidence[..|evidence| - 1], path);
    }
  }

  /** Behind a closed gate, what the runner or a retry would have done makes no difference. */
  lemma AClosedGateIgnoresTheRunner(w: World, task: Task, a: Step, b: Step, retry: Step, other: Step)
    requires GateClosed(a) && a.cwdExists == b.cwdExists && a.active == b.active && a.pathsMissing == b.pathsMissing
    ensures Dispatch(w, task, a, retry) == Dispatch(w, task, b, other)
  {}

  /** Through open gates, a task of any other route ends as its runner did, with all it found. */
  lemma AnOpenGateRuns(w: World, task: Task, step: Step, retry: Step)
    requires !GateClosed(step) && task.route != Manual
    ensures var d := Dispatch(w, task, step, retry);
      && d.result.taskId == task.id && d.result.status == step.status && d.result.errors == step.errors
      && (forall e :: e in step.found ==> e in d.result.evidence)
      && (step.cwdExists ==> Observes(d.result, FileExists))
      && d.world.dispatched == w.dispatched + [task]
      && d.world.files == w.files[RunPath(task.id) := d.result]
  {
    var found := CwdEvidence(task, step) + step.found;
    var d := Dispatch(w, task, step, retry);
    assert found <= d.result.evidence;
    forall e | e in step.found ensures e in d.result.evidence {
      assert e in found;
      var i :| 0 <= i < |found| && found[i] == e;
      assert d.result.evidence[i] == e;
    }
    if step.cwdExists {
      assert found[0] == Proof(task.id + ".cwd", FileExists, "cwd") && d.result.evidence[0] == found[0];
    }
  }

  // ── The lifecycle ─────────────────────────────────────────────────────

  /** A source that does not get through ends its lifecycle, blocked, with nothing else dispatched. */
  lemma ABlockedSourceEndsTheLifecycle(w: World, source: Task, s: Surroundings, persist: bool)
    requires GateClosed(s.dispatch)
    ensures var d := RunLifecycle(w, source, s, persist);
      d.result.status == BlockedStatus && d.world.dispatched == w.dispatched + [source]
  {
    AClosedGateBlocks(w, source, s.dispatch, s.nested);
  }

  lemma BlockedPromotionsDoNotSucceed(w: World, source: Task, s: Surroundings, persist: bool)
    requires !IsPromoted(PromotionStage(w, source, s).result)
    ensures RunLifecycle(w, source, s, persist).result.status != Success
  {}

  /** With a gate closed at the dispatch, the evaluation or the promotion, no run succeeds. */
  lemma NoRunSucceedsPastAClosedGate(w: World, source: Task, s: Surroundings, persist: bool)
    requires IdOk(source.id)
    requires GateClosed(s.dispatch) || GateClosed(s.evaluation) || GateClosed(s.promotion)
    ensures RunLifecycle(w, source, s, persist).result.status != Success
  {
    if GateClosed(s.dispatch) {
      ABlockedSourceEndsTheLifecycle(w, source, s, persist);
    } else {
      if GateClosed(s.promotion) {
        AClosedGateBlocks(EvaluationStage(w, source, s).world, PromotionTask(source), s.promotion, s.retry);
      } else {
        var before := DispatchStage(w, source, s).world;
        AClosedGateBlocks(before, EvaluationTask(source), s.evaluation, s.retry);
        PromotionStageOutcome(EvaluationStage(w, source, s).world, source, s.promotion, s.retry);
      }
      BlockedPromotionsDoNotSucceed(w, source, s, persist);
    }
  }

  // ── The retry of an evaluation ────────────────────────────────────────

  /** What makes a result pass, field by field. */
  lemma PassingInPlainTerms(onDisk: Exists, task: Task, r: RunResult)
    ensures Evaluate(onDisk, task, r).passed <==>
      && r.status == Success && r.errors == []
      && (forall kind :: kind in task.expected ==> exists e :: e in r.evidence && e.kind == kind)
      && (forall e :: e in r.evidence ==> e.proofToken.Some? && e.proofToken.value != "")
      && (exists e :: e in r.evidence && e.proofToken.Some? && Trim(e.proofToken.value) != "")
      && (r.tracePath.Some? && r.tracePath.value != "" ==> onDisk(r.tracePath.value))
      && ((exists e :: e in r.evidence && e.kind == BrowserObservation) ==>
            exists e :: e in r.evidence && e.kind == BrowserSessionTrace)
  {
    PassesIffNoIssue(onDisk, task, r);
  }

  /** Each issue costs 20 points; five or more leave none. */
  lemma EachIssueCostsTwenty(onDisk: Exists, task: Task, r: RunResult)
    ensures var e := Evaluate(onDisk, task, r);
      && (|e.issues| <= 5 ==> e.score + 20 * |e.issues| == 100) && (|e.issues| > 5 ==> e.score == 0)
  {}

  /** A task that may be done again: read-only, and on a route that can repeat it. */
  predicate Repeatable(task: Task) {
    task.route in {Local, OpenManus, Octogent} && task.mode != Write && !task.writeAllowed
  }

  /**
   * When a result is tried again: exactly if it does not pass and its task is read-only on a
   * route that can repeat it; then once, and the second result decides.
   */
  lemma AFailureIsRetriedOnce(w: World, task: Task, r: RunResult, path: string, retry: Step)
    ensures if Passes(DiskOf(w), task, r) || !Repeatable(task)
            then Once(w, EvaluateWithRetry(w, task, r, path, retry), path, Passes(DiskOf(w), task, r))
            else Twice(w, task, EvaluateWithRetry(w, task, r, path, retry), path, retry)
  {
    PassesIffNoIssue(DiskOf(w), task, r);
    if NeedsRetry(w, task, r) {
      TheRetryDecides(w, task, r, path, retry);
    }
  }

  /** Judged as it is, with nothing else dispatched. */
  predicate Once(w: World, e: Evaluated, path: string, passed: bool) {
    && e.world == w && e.evaluation.passed == passed && e.evaluation.retryUsed == Some(false)
    && e.evaluation.resultChain == [path] && |e.evaluation.attempts| == 1
  }

  /** Dispatched once more; the result of that decides. */
  predicate Twice(w: World, task: Task, e: Evaluated, path: string, retry: Step) {
    && e.world.dispatched == w.dispatched + [task] && e.evaluation.retryUsed == Some(true)
    && |e.evaluation.resultChain| == 2 && e.evaluation.resultChain[0] == path
    && e.evaluation.resultChain[1] in e.world.files
    && var again := e.world.files[e.evaluation.resultChain[1]];
       && (e.evaluation.passed <==> Passes(DiskOf(e.world), task, again))
       && again.status == (if GateClosed(retry) then BlockedStatus else retry.status)
  }

  lemma TheRetryDecides(w: World, task: Task, r: RunResult, path: string, retry: Step)
    requires NeedsRetry(w, task, r)
    ensures Twice(w, task, EvaluateWithRetry(w, task, r, path, retry), path, retry)
  {
    var again := DispatchRunner(w, task, retry, Some(RetryResultPath(path)));
    PassesIffNoIssue(DiskOf(again.world), task, again.result);
  }

  /** A retry whose gate is closed does not rescue a failing result. */
  lemma ABlockedRetryFails(w: World, task: Task, r: RunResult, path: string, retry: Step)
    requires !Passes(DiskOf(w), task, r) && GateClosed(retry)
    ensures !EvaluateWithRetry(w, task, r, path, retry).evaluation.passed
  {
    AFailureIsRetriedOnce(w, task, r, path, retry);
  }

  // ── The manual route ──────────────────────────────────────────────────

  /** The result an evaluation task asks about: the one it names, else that of the last run
      unless this is its own. */
  ghost predicate AsksAbout(w: World, task: Task, target: string) {
    && target != ""
    && if task.inputs.resultTaskId.Some? && Trim(task.inputs.resultTaskId.value) != ""
       then target == Trim(task.inputs.resultTaskId.value)
       else w.last.Some? && target == Trim(w.last.value.taskId) && target != task.id
  }

  /** The task it judges it by: the stored one, else the one handed over if it is that result's. */
  ghost predicate JudgedBy(w: World, task: Task, target: string, judged: Task) {
    if target in w.tasks then judged == w.tasks[target]
    else task.inputs.sourceTask == Some(judged) && judged.id == target
  }

  ghost predicate CanEvaluate(w: World, task: Task) {
    exists target, judged :: AsksAbout(w, task, target) && JudgedBy(w, task, target, judged)
                             && RunPath(target) in w.files
  }

  lemma TargetsAreAskedAbout(w: World, task: Task, target: string)
    ensures AsksAbout(w, task, target) <==> TargetId(w, task) == target && target != ""
  {}

  lemma RefusalsJudgeNothing(w: World, task: Task, found: seq<Evidence>, error: string, path: Option<string>)
    ensures var d := WriteTrace(w, Refused(task, found, error), path, false);
      d.result.status == BlockedStatus && d.result.evaluation.None? && d.world.dispatched == w.dispatched
  {}

  /**
   * An evaluation takes place exactly if there is a result it asks about and a task to judge
   * that by; otherwise it is blocked and nothing is retried.
   */
  lemma EvaluationTakesPlaceIff(w: World, task: Task, step: Step, retry: Step)
    requires task.route == Manual && task.inputs.promotionResultTaskId.None? && !GateClosed(step)
    ensures var d := Dispatch(w, task, step, retry);
      && (d.result.evaluation.Some? <==> CanEvaluate(w, task))
      && (d.result.evaluation.None? ==>
            d.result.status == BlockedStatus && d.world.dispatched == w.dispatched + [task])
  {
    var noted := Note(w, task);
    var found := CwdEvidence(task, step);
    var target := TargetId(noted, task);
    TargetsAreAskedAbout(w, task, target);
    if CanEvaluate(w, task) {
      var other, judged :| AsksAbout(w, task, other) && JudgedBy(w, task, other, judged) && RunPath(other) in w.files;
      TargetsAreAskedAbout(w, task, other);
    } else {
      var judged := JudgedTask(noted, task, target);
      if target != "" && judged.Some? && (target in w.tasks || judged.value.id == target) {
        assert JudgedBy(w, task, target, judged.value);
        assert RunPath(target) !in w.files;
      }
    }
  }

  lemma OpenManualTasksEvaluate(w: World, task: Task, step: Step, retry: Step)
    requires task.route == Manual && task.inputs.promotionResultTaskId.None? && !GateClosed(step)
    ensures Dispatch(w, task, step, retry)
         == DispatchEvaluation(Note(w, task), task, CwdEvidence(task, step), retry, None)
  {}

  lemma EvaluationsAre(w: World, task: Task, found: seq<Evidence>, retry: Step, target: string, judged: Task)
    requires AsksAbout(w, task, target) && JudgedBy(w, task, target, judged) && RunPath(target) in w.files
    ensures var d := DispatchEvaluation(w, task, found, retry, None);
      var e := EvaluateWithRetry(w, judged, w.files[RunPath(target)], RunPath(target), retry);
      && d.result.evaluation == Some(e.evaluation) && d.world.dispatched == e.world.dispatched
      && (d.result.status == Success ==> e.evaluation.passed)
  {
    TargetsAreAskedAbout(w, task, target);
  }

  /** An evaluation that takes place judges that result by that task, with at most one retry. */
  lemma TheEvaluationJudges(w: World, task: Task, step: Step, retry: Step, target: string, judged: Task)
    requires task.route == Manual && task.inputs.promotionResultTaskId.None? && !GateClosed(step)
    requires AsksAbout(w, task, target) && JudgedBy(w, task, target, judged) && RunPath(target) in w.files
    ensures var d := Dispatch(w, task, step, retry);
      var e := EvaluateWithRetry(Note(w, task), judged, w.files[RunPath(target)], RunPath(target), retry);
      && d.result.evaluation == Some(e.evaluation) && d.world.dispatched == e.world.dispatched
      && (d.result.status == Success ==> e.evaluation.passed)
  {
    OpenManualTasksEvaluate(w, task, step, retry);
    EvaluationsAre(Note(w, task), task, CwdEvidence(task, step), retry, target, judged);
  }

  /** Every kind of evidence the task expects is one that the manual route records. */
  predicate ExpectsManualEvidence(task: Task) {
    forall kind :: kind in task.expected ==> kind in {FileRead, ManualNote, LogTrace}
  }

  /** A manual result with these three proofs, errors exactly unless it is a success. */
  predicate IsManual(r: RunResult, task: Task, path: string) {
    && r.taskId == task.id && (r.errors == [] <==> r.status == Success)
    && Proof(task.id + ".result", FileRead, path) in r.evidence
    && Proof(task.id + ".verdict", ManualNote, path) in r.evidence
    && Proof(task.id + ".trace", LogTrace, path) in r.evidence
  }

  lemma FailingEvaluationsHaveIssues(w: World, task: Task, r: RunResult, path: string, retry: Step)
    ensures var e := EvaluateWithRetry(w, task, r, path, retry).evaluation; e.passed <==> e.issues == []
  {}

  lemma EvaluationResultIs(task: Task, found: seq<Evidence>, target: string, e: Evaluation)
    requires e.passed <==> e.issues == []
    ensures var r := Gate(task, EvaluationResult(task, found, target, e));
      && IsManual(r, task, RunPath(target)) && (!e.passed ==> |r.errors| == |e.issues|)
      && (ExpectsManualEvidence(task) ==> (r.status == Success <==> e.passed))
  {
    var r := EvaluationResult(task, found, target, e);
    var n := |found|;
    assert r.evidence[n].kind == FileRead && r.evidence[n + 1].kind == ManualNote && r.evidence[n + 2].kind == LogTrace;
  }

  lemma PromotionResultIs(task: Task, found: seq<Evidence>, target: string, e: Option<Evaluation>, p: Promotion)
    ensures var r := Gate(task, PromotionResult(task, found, target, e, p));
      && IsManual(r, task, RunPath(target))
      && (ExpectsManualEvidence(task) ==> (r.status == Success <==> p.promoted))
  {
    var r := PromotionResult(task, found, target, e, p);
    var n := |found|;
    assert r.evidence[n].kind == FileRead && r.evidence[n + 1].kind == ManualNote && r.evidence[n + 2].kind == LogTrace;
  }

  lemma TracesStayManual(w: World, r: RunResult, task: Task, path: string)
    requires IsManual(r, task, path)
    ensures var d := WriteTrace(w, r, None, false);
      && IsManual(d.result, task, path) && d.result.errors == r.errors && d.result.status == r.status
  {
    var d := WriteTrace(w, r, None, false);
    assert forall e :: e in r.evidence ==> e in d.result.evidence;
  }

  /** The result says what the evaluation it carries found. */
  predicate SaysSo(r: RunResult, task: Task, path: string) {
    && IsManual(r, task, path) && r.evaluation.Some?
    && (!r.evaluation.value.passed ==> |r.errors| == |r.evaluation.value.issues|)
    && (ExpectsManualEvidence(task) ==> (r.status == Success <==> r.evaluation.value.passed))
  }

  /** What is found, and how the task to judge by was. */
  function Loaded(w: World, task: Task, found: seq<Evidence>, target: string): seq<Evidence> {
    found + [Proof(task.id + ".task", if target in w.tasks then FileRead else ManualNote, "task")]
  }

  lemma EvaluationsEndIn(w: World, task: Task, found: seq<Evidence>, retry: Step, target: string, judged: Task)
    requires AsksAbout(w, task, target) && JudgedBy(w, task, target, judged) && RunPath(target) in w.files
    ensures var e := EvaluateWithRetry(w, judged, w.files[RunPath(target)], RunPath(target), retry);
      DispatchEvaluation(w, task, found, retry, None)
      == WriteTrace(e.world, Gate(task, EvaluationResult(task, Loaded(w, task, found, target), target, e.evaluation)),
                    None, false)
  {
    TargetsAreAskedAbout(w, task, target);
  }

  lemma TracedEvaluationsSaySo(w: World, task: Task, found: seq<Evidence>, target: string, e: Evaluation)
    requires e.passed <==> e.issues == []
    ensures SaysSo(WriteTrace(w, Gate(task, EvaluationResult(task, found, target, e)), None, false).result, task,
                   RunPath(target))
  {
    EvaluationResultIs(task, found, target, e);
    TracesStayManual(w, Gate(task, EvaluationResult(task, found, target, e)), task, RunPath(target));
  }

  /**
   * What an evaluation says: it shows the result it read, its verdict and its trace, has errors
   * exactly unless it succeeds, one for each issue of a result that does not pass, and where its
   * task expects no other evidence it succeeds exactly if the judged result passes.
   */
  lemma EvaluationsSaySo(w: World, task: Task, step: Step, retry: Step, target: string, judged: Task)
    requires task.route == Manual && task.inputs.promotionResultTaskId.None? && !GateClosed(step)
    requires AsksAbout(w, task, target) && JudgedBy(w, task, target, judged) && RunPath(target) in w.files
    ensures SaysSo(Dispatch(w, task, step, retry).result, task, RunPath(target))
  {
    var noted, found := Note(w, task), CwdEvidence(task, step);
    var e := EvaluateWithRetry(noted, judged, w.files[RunPath(target)], RunPath(target), retry);
    OpenManualTasksEvaluate(w, task, step, retry);
    EvaluationsEndIn(noted, task, found, retry, target, judged);
    FailingEvaluationsHaveIssues(noted, judged, w.files[RunPath(target)], RunPath(target), retry);
    TracedEvaluationsSaySo(e.world, task, Loaded(noted, task, found, target), target, e.evaluation);
  }

  /** A promotion that takes place says so alike: it succeeds, its task expecting no other
      evidence, exactly if it promotes. */
  lemma PromotionsSaySo(w: World, task: Task, step: Step, retry: Step)
    requires task.route == Manual && task.inputs.promotionResultTaskId.Some? && !GateClosed(step)
    requires var target := Trim(task.inputs.promotionResultTaskId.value); target != "" && RunPath(target) in w.files
    ensures var r := Dispatch(w, task, step, retry).result;
      && IsManual(r, task, RunPath(Trim(task.inputs.promotionResultTaskId.value))) && r.promotion.Some?
      && (ExpectsManualEvidence(task) ==> (r.status == Success <==> r.promotion.value.promoted))
  {
    var noted, found := Note(w, task), CwdEvidence(task, step);
    var target := Trim(task.inputs.promotionResultTaskId.value);
    var source := w.files[RunPath(target)];
    var p := DecidePromotion(DiskOf(noted), source.evaluation, Tokens(source.evidence), []);
    PromotionResultIs(task, found, target, source.evaluation, p);
    var gated := Gate(task, PromotionResult(task, found, target, source.evaluation, p));
    TracesStayManual(noted, gated, task, RunPath(target));
  }

  /**
   * A promotion takes place exactly if the result it names is there; then it rests on that
   * result's evaluation, files and tokens alone.
   */
  lemma PromotionTakesPlaceIff(w: World, task: Task, step: Step, retry: Step)
    requires task.route == Manual && task.inputs.promotionResultTaskId.Some? && !GateClosed(step)
    ensures var d := Dispatch(w, task, step, retry);
      var target := Trim(task.inputs.promotionResultTaskId.value);
      && (d.result.promotion.Some? <==> target != "" && RunPath(target) in w.files)
      && (d.result.promotion.None? ==> d.result.status == BlockedStatus)
      && (d.result.promotion.Some? ==>
            var source := w.files[RunPath(target)];
            && (d.result.promotion.value.promoted <==>
                  DecidePromotion(DiskOf(w), source.evaluation, Tokens(source.evidence), []).promoted)
            && d.result.evaluation == source.evaluation
            && (d.result.status == Success ==> d.result.promotion.value.promoted))
      && d.world.dispatched == w.dispatched + [task]
  {
    var target := Trim(task.inputs.promotionResultTaskId.value);
    if target != "" && RunPath(target) in w.files {
      var source := w.files[RunPath(target)];
      PromotedIff(DiskOf(w), source.evaluation, Tokens(source.evidence), []);
      PromotedIff(DiskOf(Note(w, task)), source.evaluation, Tokens(source.evidence), []);
    }
  }

  /** The two children of a lifecycle: manual, read-only, in need of a read file, a note and a
      log; the one asks about the source and brings it along, the other about the first. */
  lemma TheChildrenAre(source: Task)
    ensures var e, p := EvaluationTask(source), PromotionTask(source);
      && e.route == Manual == p.route && !MayWrite(e) && !MayWrite(p)
      && (forall kind :: kind in e.expected <==> kind in {FileRead, ManualNote, LogTrace}) && p.expected == e.expected
      && e.inputs.resultTaskId == Some(source.id) && e.inputs.sourceTask == Some(source)
      && e.inputs.promotionResultTaskId.None? && p.inputs.promotionResultTaskId == Some(e.id)
  {}

  // ── What is recorded ──────────────────────────────────────────────────

  /** The attempts of an evaluation tell of the result judged and of its retry, if any. */
  lemma AttemptsTellOfBoth(w: World, task: Task, r: RunResult, path: string, retry: Step)
    ensures var e := EvaluateWithRetry(w, task, r, path, retry);
      var first := e.evaluation.attempts[0];
      && |e.evaluation.attempts| == |e.evaluation.resultChain| >= 1
      && !first.retry && first.resultPath == path && first.resultStatus == r.status
      && (first.verdict == Passed <==> Passes(DiskOf(w), task, r))
      && first.issues == Evaluate(DiskOf(w), task, r).issues && first.score == Evaluate(DiskOf(w), task, r).score
      && (|e.evaluation.attempts| == 2 ==>
            && e.evaluation.attempts[1].retry && e.evaluation.attempts[1].resultPath == e.evaluation.resultChain[1]
            && (e.evaluation.attempts[1].verdict == Passed <==> e.evaluation.passed))
      && var last := e.evaluation.attempts[|e.evaluation.attempts| - 1];
         && e.evaluation.score == last.score && e.evaluation.sourcePath == Some(path)
         && e.evaluation.issues == (if e.evaluation.passed then [] else last.issues)
  {
    PassesIffNoIssue(DiskOf(w), task, r);
  }

  /** The evidence paths of a judgement: the sources of its evidence, trimmed, each once, without blanks. */
  lemma EvidencePathsAre(onDisk: Exists, task: Task, r: RunResult)
    ensures var paths := Evaluate(onDisk, task, r).evidenceChain;
      && NoDuplicates(paths)
      && forall path :: path in paths <==> path != "" && exists e :: e in r.evidence && Trim(e.source) == path
  {
    SourcesAre(r.evidence);
  }

  lemma {:induction false} SourcesAre(evidence: seq<Evidence>)
    ensures forall path :: path in TrimmedSources(evidence) <==>
      path != "" && exists e :: e in evidence && Trim(e.source) == path
  {
    if evidence != [] {
      var n := |evidence| - 1;
      SourcesAre(evidence[..n]);
      assert evidence == evidence[..n] + [evidence[n]];
    }
  }

  lemma {:induction false} TokensAre(evidence: seq<Evidence>)
    ensures forall token :: token in TrimmedTokens(evidence) <==>
      token != "" && exists e :: e in evidence && e.proofToken.Some? && Trim(e.proofToken.value) == token
  {
    if evidence != [] {
      var n := |evidence| - 1;
      TokensAre(evidence[..n]);
      assert evidence == evidence[..n] + [evidence[n]];
    }
  }

  /** The attempt at a result lists its sources and its tokens, trimmed, each once, without blanks. */
  ghost predicate TellsOf(attempt: Attempt, r: RunResult) {
    && NoDuplicates(attempt.evidencePaths) && NoDuplicates(attempt.proofTokens) && attempt.resultStatus == r.status
    && (forall path :: path in attempt.evidencePaths <==>
          path != "" && exists e :: e in r.evidence && Trim(e.source) == path)
    && forall token :: token in attempt.proofTokens <==>
         token != "" && exists e :: e in r.evidence && e.proofToken.Some? && Trim(e.proofToken.value) == token
  }

  lemma AttemptsTell(retry: bool, path: string, r: RunResult, e: Evaluation)
    ensures TellsOf(BuildAttempt(retry, path, r, e), r)
  {
    SourcesAre(r.evidence);
    TokensAre(r.evidence);
  }

  /** The evidence of an evaluation is that of its attempts. */
  ghost predicate CollectsEvidence(e: Evaluation) {
    && NoDuplicates(e.evidenceChain)
    && forall path :: path in e.evidenceChain <==> exists i: nat :: AttemptShows(e.attempts, i, path)
  }

  predicate AttemptShows(attempts: seq<Attempt>, i: nat, path: string) {
    i < |attempts| && path in attempts[i].evidencePaths
  }

  lemma OneAttempt(path: string, source: Attempt, retryable: bool)
    ensures var composed := Compose(path, source, retryable, None);
      composed.attempts == [source] && composed.resultChain == [source.resultPath] && CollectsEvidence(composed)
  {
    var composed := Compose(path, source, retryable, None);
    forall p | p in source.evidencePaths ensures AttemptShows(composed.attempts, 0, p) {}
  }

  lemma TwoAttempts(path: string, source: Attempt, retryable: bool, again: Attempt)
    ensures var composed := Compose(path, source, retryable, Some(again));
      && composed.attempts == [source, again] && composed.resultChain == [source.resultPath, again.resultPath]
      && CollectsEvidence(composed)
  {
    var composed := Compose(path, source, retryable, Some(again));
    forall p | p in source.evidencePaths ensures AttemptShows(composed.attempts, 0, p) {}
    forall p | p in again.evidencePaths ensures AttemptShows(composed.attempts, 1, p) {}
  }

  lemma RetriedIs(w: World, task: Task, r: RunResult, path: string, retry: Step) returns (again: Done)
    requires NeedsRetry(w, task, r)
    ensures var e := EvaluateWithRetry(w, task, r, path, retry);
      && e.world == again.world && |e.evaluation.attempts| == 2 && CollectsEvidence(e.evaluation)
      && TellsOf(e.evaluation.attempts[0], r) && TellsOf(e.evaluation.attempts[1], again.result)
      && again.result.tracePath.Some? && e.evaluation.resultChain == [path, again.result.tracePath.value]
      && again == DispatchRunner(w, task, retry, Some(RetryResultPath(path)))
  {
    var judged := Evaluate(DiskOf(w), task, r);
    var first := BuildAttempt(false, path, r, judged);
    AttemptsTell(false, path, r, judged);
    again := DispatchRunner(w, task, retry, Some(RetryResultPath(path)));
    var rejudged := Evaluate(DiskOf(again.world), task, again.result);
    var second := BuildAttempt(true, again.result.tracePath.value, again.result, rejudged);
    AttemptsTell(true, again.result.tracePath.value, again.result, rejudged);
    TwoAttempts(path, first, IsRetryable(task), second);
  }

  /** An evaluation tells of the evidence of the result judged, and of that of the retry's result file. */
  lemma EvaluationsTellOfEvidence(w: World, task: Task, r: RunResult, path: string, retry: Step)
    ensures var e := EvaluateWithRetry(w, task, r, path, retry);
      && |e.evaluation.attempts| == |e.evaluation.resultChain| && 1 <= |e.evaluation.attempts| <= 2
      && TellsOf(e.evaluation.attempts[0], r) && CollectsEvidence(e.evaluation)
      && (|e.evaluation.attempts| == 2 ==>
            && e.evaluation.resultChain[1] in e.world.files
            && TellsOf(e.evaluation.attempts[1], e.world.files[e.evaluation.resultChain[1]]))
  {
    if NeedsRetry(w, task, r) {
      var again := RetriedIs(w, task, r, path, retry);
    } else {
      var judged := Evaluate(DiskOf(w), task, r);
      AttemptsTell(false, path, r, judged);
      OneAttempt(path, BuildAttempt(false, path, r, judged), IsRetryable(task));
    }
  }

  /** A lifecycle that went through all three dispatches records them: their results' paths,
      the evaluation and promotion reached, and its own status. */
  lemma ALifecycleRecordsItsChildren(w: World, source: Task, s: Surroundings, persist: bool)
    requires DispatchStage(w, source, s).result.status == Success
    ensures var d := RunLifecycle(w, source, s, persist);
      var dispatch, evaluation, promotion :=
        DispatchStage(w, source, s).result, EvaluationStage(w, source, s).result, PromotionStage(w, source, s).result;
      && d.result.promotion == promotion.promotion
      && d.result.evaluation == (if promotion.evaluation.Some? then promotion.evaluation else evaluation.evaluation)
      && d.result.lifecycle.Some?
      && var l := d.result.lifecycle.value;
         && l.childPaths == [PathOf(dispatch), PathOf(evaluation), PathOf(promotion)]
         && l.sourceTaskId == source.id && l.finalStatus == d.result.status
         && (d.result.status == Success <==>
               promotion.status == Success && promotion.promotion.Some? && promotion.promotion.value.promoted)
  {}

  /** The result has errors exactly if it is no success, and its evidence starts with the
      children's paths and its own. */
  ghost predicate ShowsItsChildren(r: RunResult, path: string) {
    && (r.errors == [] <==> r.status == Success) && (r.status == Success || r.status == BlockedStatus)
    && r.tracePath == Some(path) && r.lifecycle.Some?
    && var children := r.lifecycle.value.childPaths;
       && |r.evidence| > |children|
       && (forall i :: 0 <= i < |children| ==> r.evidence[i].source == children[i])
       && r.evidence[|children|].source == path
  }

  lemma StoppedShowsItsChildren(source: Task, dispatch: RunResult)
    ensures ShowsItsChildren(StoppedLifecycle(source, dispatch), RunPath(source.id + ".lifecycle"))
  {}

  lemma FullShowsItsChildren(source: Task, dispatch: RunResult, evaluation: RunResult, promotion: RunResult)
    ensures ShowsItsChildren(FullLifecycle(source, dispatch, evaluation, promotion), RunPath(source.id + ".lifecycle"))
  {
    var r := FullLifecycle(source, dispatch, evaluation, promotion);
    var children := r.lifecycle.value.childPaths;
    assert |children| == 3 && |r.evidence| == 4 && r.evidence[3].source == r.tracePath.value;
    assert forall i :: 0 <= i < 3 ==> r.evidence[i].source == children[i];
  }

  lemma TracesShowTheSame(w: World, r: RunResult, path: string, persist: bool)
    requires ShowsItsChildren(r, path)
    ensures ShowsItsChildren(WriteTrace(w, r, Some(path), persist).result, path)
  {}

  /** A lifecycle has errors exactly if it did not succeed, and shows its children's paths and then its own. */
  lemma ALifecycleShowsItsChildren(w: World, source: Task, s: Surroundings, persist: bool)
    ensures ShowsItsChildren(RunLifecycle(w, source, s, persist).result, RunPath(source.id + ".lifecycle"))
  {
    var path := RunPath(source.id + ".lifecycle");
    var d, e, p := DispatchStage(w, source, s), EvaluationStage(w, source, s), PromotionStage(w, source, s);
    if d.result.status != Success {
      StoppedShowsItsChildren(source, d.result);
      TracesShowTheSame(d.world, StoppedLifecycle(source, d.result), path, persist);
    } else {
      FullShowsItsChildren(source, d.result, e.result, p.result);
      TracesShowTheSame(p.world, FullLifecycle(source, d.result, e.result, p.result), path, persist);
    }
  }

  /** A dispatch that does not succeed stops the lifecycle: it is recorded as the only child, and nothing is judged. */
  lemma AStoppedLifecycleRecords(w: World, source: Task, s: Surroundings, persist: bool)
    requires DispatchStage(w, source, s).result.status != Success
    ensures var r := RunLifecycle(w, source, s, persist).result;
      && r.status == BlockedStatus && r.evaluation.None? && r.promotion.None? && r.lifecycle.Some?
      && r.lifecycle.value.childPaths == [PathOf(DispatchStage(w, source, s).result)]
      && r.lifecycle.value.sourceTaskId == source.id && r.lifecycle.value.finalStatus == BlockedStatus
  {}

  /** A persisted lifecycle leaves its own result as the last run. */
  lemma ThePersistedRunIs(w: World, source: Task, s: Surroundings)
    ensures var d := RunLifecycle(w, source, s, true);
      && d.world.last.Some? && d.world.last.value.taskId == d.result.taskId
      && d.world.last.value.status == d.result.status && d.result.tracePath == Some(d.world.last.value.tracePath)
      && d.world.last.value.evaluation == d.result.evaluation && d.world.last.value.lifecycle == d.result.lifecycle
      && (d.result.promotion.Some? ==> d.world.last.value.promotion == d.result.promotion)
      && RunLifecycle(w, source, s, false).result == d.result
  {}

  /** The last run is left alone by everything that is not persisted. */
  lemma OtherRunsAreNotPersisted(w: World, source: Task, s: Surroundings)
    ensures RunLifecycle(w, source, s, false).world.last == w.last
  {
    DispatchKeepsTheLastRun(w, source, s.dispatch, s.nested);
    DispatchKeepsTheLastRun(DispatchStage(w, source, s).world, EvaluationTask(source), s.evaluation, s.retry);
    DispatchKeepsTheLastRun(EvaluationStage(w, source, s).world, PromotionTask(source), s.promotion, s.retry);
  }

  lemma RetriesKeepTheLastRun(w: World, task: Task, r: RunResult, path: string, retry: Step)
    ensures EvaluateWithRetry(w, task, r, path, retry).world.last == w.last
  {}

  lemma EvaluationsKeepTheLastRun(w: World, task: Task, found: seq<Evidence>, retry: Step)
    ensures DispatchEvaluation(w, task, found, retry, None).world.last == w.last
  {
    var target := TargetId(w, task);
    var judged := JudgedTask(w, task, target);
    if judged.Some? && RunPath(target) in w.files {
      RetriesKeepTheLastRun(w, judged.value, w.files[RunPath(target)], RunPath(target), retry);
    }
  }

  lemma PromotionsKeepTheLastRun(w: World, task: Task, found: seq<Evidence>)
    requires task.inputs.promotionResultTaskId.Some?
    ensures DispatchPromotion(w, task, found, None).world.last == w.last
  {}

  lemma DispatchKeepsTheLastRun(w: World, task: Task, step: Step, retry: Step)
    ensures Dispatch(w, task, step, retry).world.last == w.last
  {
    if GateClosed(step) {
      AClosedGateBlocks(w, task, step, retry);
    } else if task.route == Manual {
      var noted, found := Note(w, task), CwdEvidence(task, step);
      if task.inputs.promotionResultTaskId.Some? {
        PromotionsKeepTheLastRun(noted, task, found);
      } else {
        EvaluationsKeepTheLastRun(noted, task, found, retry);
      }
    }
  }

  /**
   * The ledger entry of a result that is no lifecycle and promotes nothing: passed exactly if
   * it is a success with all the evidence its task expects and something that names it.
   */
  lemma EntriesOfPlainResults(task: Task, r: RunResult)
    requires r.lifecycle.None? && r.promotion.None?
    ensures var e := BuildLedgerEntry(task, r);
      && e.taskId == task.id && e.status == r.status
      && (e.evidenceMet <==>
            && r.status == Success
            && forall kind :: kind in task.expected ==> exists x :: x in r.evidence && x.kind == kind)
      && (e.verdict == Passed <==>
            && r.status == Success
            && (forall kind :: kind in task.expected ==> exists x :: x in r.evidence && x.kind == kind)
            && exists x :: x in r.evidence && Trim(if x.proofToken.Some? then x.proofToken.value else x.id) != "")
      && e.resultPath == (if r.tracePath.Some? then r.tracePath.value else RunPath(r.taskId))
  {
    NamedIff(r);
  }

  lemma NamedIff(r: RunResult)
    requires r.lifecycle.None? && r.promotion.None?
    ensures ResultTokens(r) != [] <==>
      exists x :: x in r.evidence && Trim(if x.proofToken.Some? then x.proofToken.value else x.id) != ""
  {
    NonBlankKeeps(Tokens(r.evidence));
    assert Tokens(r.evidence) + [] + [] == Tokens(r.evidence);
    var kept := NonBlank(Tokens(r.evidence));
    assert ResultTokens(r) == Unique(kept);
    assert kept != [] ==> kept[0] in kept;
    if x :| x in r.evidence && Trim(if x.proofToken.Some? then x.proofToken.value else x.id) != "" {
      var i :| 0 <= i < |r.evidence| && r.evidence[i] == x;
      assert Tokens(r.evidence)[i] == TokenOf(x);
    }
    if kept != [] {
      var i :| 0 <= i < |r.evidence| && Tokens(r.evidence)[i] == kept[0];
      assert r.evidence[i] in r.evidence;
    }
  }
}
