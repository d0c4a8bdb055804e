/**
 * Dispatch, evaluation with one retry, promotion, lifecycle and run-ledger entry of
 * operator tasks (src/operator/dispatcher.ts, src/operator/evaluator.ts,
 * src/operator/lifecycle.ts, src/operator/run-ledger.ts).
 *
 * RunResult files are a map from path to result.  What a runner does for a route other than
 * the manual one is an arbitrary outcome.
 */
module OperatorPipeline {
  import opened Common
  import opened Text
  import opened OperatorContracts

  // ── Files ─────────────────────────────────────────────────────────────

  datatype LastRun = LastRun(
    taskId: string,
    status: Status,
    tracePath: string,
    proofTokens: seq<string>,
    evaluation: Option<Evaluation>,
    promotion: Option<Promotion>,
    lifecycle: Option<Lifecycle>
  )

  /** `tasks` holds the stored task files by id, `others` every other existing path, and
      `dispatched` the tasks handed to the dispatcher, oldest first. */
  datatype World = World(
    files: map<string, RunResult>,
    tasks: map<string, Task>,
    others: set<string>,
    last: Option<LastRun>,
    dispatched: seq<Task>
  )

  predicate OnDisk(w: World, path: string) {
    path in w.files || path in w.others
  }

  function DiskOf(w: World): Exists {
    path => OnDisk(w, path)
  }

  function RunPath(id: string): string {
    "operator/runs/" + id + ".result.json"
  }

  predicate EndsWith(s: string, suffix: string) {
    |suffix| <= |s| && s[|s| - |suffix|..] == suffix
  }

  function RetryResultPath(path: string): string {
    if EndsWith(path, ".result.json") then path[..|path| - 12] + ".retry-1.result.json"
    else path + ".retry-1.result.json"
  }

  datatype Done = Done(world: World, result: RunResult)

  function LastRunOf(r: RunResult): LastRun
    requires r.tracePath.Some?
  {
    LastRun(r.taskId, r.status, r.tracePath.value,
            Unique(Tokens(r.evidence) + if r.lifecycle.Some? then r.lifecycle.value.proofTokens else []),
            r.evaluation, r.promotion, r.lifecycle)
  }

  function WriteTrace(w: World, r: RunResult, path: Option<string>, persist: bool): (d: Done)
    ensures d.result.tracePath == OrElse(OrElse(path, r.tracePath), Some(RunPath(r.taskId)))
    ensures d.result == r.(tracePath := d.result.tracePath, evidence := d.result.evidence)
    ensures r.evidence <= d.result.evidence
    ensures d.world == w.(files := w.files[d.result.tracePath.value := d.result], last := d.world.last)
    ensures !persist ==> d.world.last == w.last
  {
    var tracePath := OrElse(OrElse(path, r.tracePath), Some(RunPath(r.taskId))).value;
    var stored := WithBrowserSessionTrace(r.(tracePath := Some(tracePath)));
    var written := w.(files := w.files[tracePath := stored]);
    if !persist then Done(written, stored)
    else
      var last := LastRunOf(stored);
      var promotion :=
        if stored.promotion.Some? then stored.promotion.value
        else DecidePromotion(DiskOf(written), OrElse(stored.evaluation, last.evaluation),
                             last.proofTokens + Tokens(stored.evidence), []);
      Done(written.(last := Some(last.(promotion := Some(promotion)))), stored)
  }

  // ── Dispatch ──────────────────────────────────────────────────────────

  /** What one dispatch meets: whether the working directory exists, whether control is
      active, whether an allowed path is missing, and what the route's runner produces. */
  datatype Step = Step(cwdExists: bool, active: bool, pathsMissing: bool, status: Status, found: seq<Evidence>,
    errors: seq<string>)

  function Proof(id: string, kind: EvidenceType, source: string): Evidence {
    Evidence(id, kind, source, Some(id))
  }

  function Plain(taskId: string, status: Status, evidence: seq<Evidence>, errors: seq<string>): RunResult {
    RunResult(taskId, status, evidence, errors, None, None, None, None)
  }

  function CwdEvidence(task: Task, step: Step): seq<Evidence> {
    if step.cwdExists then [Proof(task.id + ".cwd", FileExists, "cwd")] else []
  }

  function Stopped(task: Task, step: Step): Option<RunResult> {
    if !step.active then
      Some(Plain(task.id, BlockedStatus,
                 CwdEvidence(task, step) + [Proof(task.id + ".control", ManualNote, "control state")],
                 ["control blocked"]))
    else if step.pathsMissing then
      Some(Plain(task.id, BlockedStatus, CwdEvidence(task, step), ["allowed path missing"]))
    else None
  }

  function Note(w: World, task: Task): World {
    w.(dispatched := w.dispatched + [task])
  }

  /** Dispatch on a route other than the manual one. */
  function DispatchRunner(w: World, task: Task, step: Step, path: Option<string>): Done {
    var stopped := Stopped(task, step);
    if stopped.Some? then WriteTrace(Note(w, task), stopped.value, path, false)
    else WriteTrace(Note(w, task),
      Plain(task.id, step.status, CwdEvidence(task, step) + step.found, step.errors), path, false)
  }

  // ── Evaluation with one retry ─────────────────────────────────────────

  datatype Evaluated = Evaluated(world: World, evaluation: Evaluation)

  predicate NeedsRetry(w: World, task: Task, r: RunResult) {
    !Evaluate(DiskOf(w), task, r).passed && IsRetryable(task)
  }

  function EvaluateWithRetry(w: World, task: Task, source: RunResult, sourcePath: string, retry: Step): Evaluated {
    var first := BuildAttempt(false, sourcePath, source, Evaluate(DiskOf(w), task, source));
    if !NeedsRetry(w, task, source) then Evaluated(w, Compose(sourcePath, first, IsRetryable(task), None))
    else
      var again := DispatchRunner(w, task, retry, Some(RetryResultPath(sourcePath)));
      var second := BuildAttempt(true, again.result.tracePath.value, again.result,
                                 Evaluate(DiskOf(again.world), task, again.result));
      Evaluated(again.world, Compose(sourcePath, first, IsRetryable(task), Some(second)))
  }

  // ── The manual route ──────────────────────────────────────────────────

  function TargetId(w: World, task: Task): string {
    var explicit := if task.inputs.resultTaskId.Some? then Trim(task.inputs.resultTaskId.value) else "";
    var fallback := if w.last.Some? then Trim(w.last.value.taskId) else "";
    if explicit != "" then explicit
    else if fallback != "" && fallback != task.id then fallback
    else ""
  }

  function Refused(task: Task, found: seq<Evidence>, error: string): RunResult {
    Plain(task.id, BlockedStatus, found, [error])
  }

  /** The task an evaluation judges: the stored one when there is a file, else the one
      handed over in the inputs. */
  function JudgedTask(w: World, task: Task, target: string): Option<Task> {
    if target in w.tasks then Some(w.tasks[target]) else task.inputs.sourceTask
  }

  /** A success that misses its expected evidence is blocked before it is written. */
  function Gate(task: Task, r: RunResult): RunResult {
    if GatePassed(task, r) then r else r.(status := BlockedStatus, errors := r.errors + ["missing evidence"])
  }

  function DispatchEvaluation(w: World, task: Task, found: seq<Evidence>, retry: Step, path: Option<string>): Done {
    var target := TargetId(w, task);
    var judged := JudgedTask(w, task, target);
    if target == "" then WriteTrace(w, Refused(task, found, "result_task_id missing"), path, false)
    else if judged.None? then WriteTrace(w, Refused(task, found, "target task missing"), path, false)
    else if target !in w.tasks && judged.value.id != target then
      WriteTrace(w, Refused(task, found, "source_task id mismatch"), path, false)
    else
      var loaded := found + [Proof(task.id + ".task", if target in w.tasks then FileRead else ManualNote, "task")];
      if RunPath(target) !in w.files then WriteTrace(w, Refused(task, loaded, "target result missing"), path, false)
      else
        var e := EvaluateWithRetry(w, judged.value, w.files[RunPath(target)], RunPath(target), retry);
        WriteTrace(e.world, Gate(task, EvaluationResult(task, loaded, target, e.evaluation)), path, false)
  }

  function EvaluationResult(task: Task, found: seq<Evidence>, target: string, e: Evaluation): RunResult {
    RunResult(
      task.id,
      if e.passed then Success else BlockedStatus,
      found + [Proof(task.id + ".result", FileRead, RunPath(target)),
               Proof(task.id + ".verdict", ManualNote, RunPath(target)),
               Proof(task.id + ".trace", LogTrace, RunPath(target))],
      seq(if e.passed then 0 else |e.issues|, _ => "issue"),
      None, Some(e), None, None)
  }

  function DispatchPromotion(w: World, task: Task, found: seq<Evidence>, path: Option<string>): Done
    requires task.inputs.promotionResultTaskId.Some?
  {
    var target := Trim(task.inputs.promotionResultTaskId.value);
    if target == "" then WriteTrace(w, Refused(task, found, "promotion_result_task_id missing"), path, false)
    else if RunPath(target) !in w.files then WriteTrace(w, Refused(task, found, "target result missing"), path, false)
    else
      var source := w.files[RunPath(target)];
      var promotion := DecidePromotion(DiskOf(w), source.evaluation, Tokens(source.evidence), []);
      WriteTrace(w, Gate(task, PromotionResult(task, found, target, source.evaluation, promotion)), path, false)
  }

  function PromotionResult(task: Task, found: seq<Evidence>, target: string, e: Option<Evaluation>,
                           p: Promotion): RunResult {
    RunResult(
      task.id,
      if p.promoted then Success else BlockedStatus,
      found + [Proof(task.id + ".result", FileRead, RunPath(target)),
               Proof(task.id + ".verdict", ManualNote, RunPath(target)),
               Proof(task.id + ".trace", LogTrace, RunPath(target))],
      if p.promoted then [] else [p.reason],
      None, e, Some(p), None)
  }

  /** One dispatch; `retry` is what a retry inside an evaluation would meet. */
  function Dispatch(w: World, task: Task, step: Step, retry: Step): Done {
    var stopped := Stopped(task, step);
    if task.route != Manual then DispatchRunner(w, task, step, None)
    else if stopped.Some? then WriteTrace(Note(w, task), stopped.value, None, false)
    else if task.inputs.promotionResultTaskId.Some? then
      DispatchPromotion(Note(w, task), task, CwdEvidence(task, step), None)
    else
      DispatchEvaluation(Note(w, task), task, CwdEvidence(task, step), retry, None)
  }

  // ── The lifecycle ─────────────────────────────────────────────────────

  function Max(a: int, b: int): int {
    if a > b then a else b
  }

  function Slice(s: string, n: int): string
    requires n >= 0
  {
    if |s| <= n then s else s[..n]
  }

  function ShortTaskId(sourceId: string, suffix: string): string {
    var raw := sourceId + "-" + suffix;
    if |raw| <= 80 then raw
    else Slice(Slice(sourceId, Max(3, 79 - |suffix|)) + "-" + suffix, 80)
  }

  function LifecycleId(id: string): string { ShortTaskId(id, "lifecycle") }

  function EvaluationId(id: string): string { ShortTaskId(id, "life-eval") }

  function PromotionId(id: string): string { ShortTaskId(id, "life-prom") }

  const LIFECYCLE_EVIDENCE: seq<EvidenceType> := [FileRead, ManualNote, LogTrace]

  function EvaluationTask(source: Task): Task {
    Task(EvaluationId(source.id), Manual, ReadOnly, Inputs(Some(source.id), Some(source), None),
      LIFECYCLE_EVIDENCE, false)
  }

  function PromotionTask(source: Task): Task {
    Task(PromotionId(source.id), Manual, ReadOnly, Inputs(None, None, Some(EvaluationId(source.id))),
      LIFECYCLE_EVIDENCE, false)
  }

  /** What the dispatches of one lifecycle meet, in order. */
  datatype Surroundings = Surroundings(dispatch: Step, nested: Step, evaluation: Step, retry: Step, promotion: Step)

  function ResultTokens(r: RunResult): seq<string> {
    UniqueNonBlank(
      Tokens(r.evidence)
      + (if r.lifecycle.Some? then r.lifecycle.value.proofTokens else [])
      + (if r.promotion.Some? then r.promotion.value.proofTokens else []))
  }

  function PathOf(r: RunResult): string {
    if r.tracePath.Some? then r.tracePath.value else RunPath(r.taskId)
  }

  predicate IsPromoted(r: RunResult) {
    r.promotion.Some? && r.promotion.value.promoted && r.status == Success
  }

  /** The result of a lifecycle whose source dispatch did not succeed. */
  function StoppedLifecycle(source: Task, dispatch: RunResult): RunResult {
    var id := LifecycleId(source.id);
    var path := RunPath(source.id + ".lifecycle");
    var tokens := UniqueNonBlank([id + ".dispatch", id + ".trace"] + UniqueNonBlank(ResultTokens(dispatch)));
    RunResult(id, BlockedStatus,
           [Proof(id + ".dispatch", LogTrace, PathOf(dispatch)), Proof(id + ".trace", LogTrace, path)],
           ["dispatch failed"], Some(path), None, None,
           Some(Lifecycle(source.id, PathOf(dispatch), None, None, None, None, [PathOf(dispatch)],
                          tokens, BlockedStatus)))
  }

  function FullLifecycle(source: Task, dispatch: RunResult, evaluation: RunResult, promotion: RunResult): RunResult {
    var id := LifecycleId(source.id);
    var path := RunPath(source.id + ".lifecycle");
    var status := if IsPromoted(promotion) then Success else BlockedStatus;
    var tokens := UniqueNonBlank(
                    [id + ".dispatch", id + ".evaluation", id + ".promotion", id + ".trace"]
                    + UniqueNonBlank(ResultTokens(dispatch) + ResultTokens(evaluation) + ResultTokens(promotion)));
    RunResult(id, status,
           [Proof(id + ".dispatch", LogTrace, PathOf(dispatch)),
            Proof(id + ".evaluation", ManualNote, PathOf(evaluation)),
            Proof(id + ".promotion", ManualNote, PathOf(promotion)), Proof(id + ".trace", LogTrace, path)],
           if IsPromoted(promotion) then [] else ["not promoted"],
           Some(path), OrElse(promotion.evaluation, evaluation.evaluation), promotion.promotion,
           Some(Lifecycle(source.id, PathOf(dispatch), Some(EvaluationId(source.id)), Some(PathOf(evaluation)),
                          Some(PromotionId(source.id)), Some(PathOf(promotion)),
                          [PathOf(dispatch), PathOf(evaluation), PathOf(promotion)], tokens, status)))
  }

  function DispatchStage(w: World, source: Task, s: Surroundings): Done {
    Dispatch(w, source, s.dispatch, s.nested)
  }

  function EvaluationStage(w: World, source: Task, s: Surroundings): Done {
    Dispatch(DispatchStage(w, source, s).world, EvaluationTask(source), s.evaluation, s.retry)
  }

  function PromotionStage(w: World, source: Task, s: Surroundings): Done {
    Dispatch(EvaluationStage(w, source, s).world, PromotionTask(source), s.promotion, s.retry)
  }

  function RunLifecycle(w: World, source: Task, s: Surroundings, persist: bool): Done {
    var path := Some(RunPath(source.id + ".lifecycle"));
    var dispatch := DispatchStage(w, source, s);
    if dispatch.result.status != Success then
      WriteTrace(dispatch.world, StoppedLifecycle(source, dispatch.result), path, persist)
    else
      var evaluation, promotion := EvaluationStage(w, source, s), PromotionStage(w, source, s);
      WriteTrace(promotion.world,
        FullLifecycle(source, dispatch.result, evaluation.result, promotion.result), path, persist)
  }

  // ── The run ledger ────────────────────────────────────────────────────

  datatype LedgerEntry = LedgerEntry(taskId: string, status: Status, verdict: Verdict, evidenceMet: bool,
    proofTokens: seq<string>, resultPath: string)

  predicate ExpectedEvidenceMet(task: Task, r: RunResult) {
    && r.status == Success
    && if r.lifecycle.Some? then
         && r.lifecycle.value.sourceTaskId == task.id
         && r.lifecycle.value.finalStatus == Success
         && r.promotion.Some? && r.promotion.value.promoted
         && r.promotion.value.finalVerdict != Some(Blocked)
       else GatePassed(task, r)
  }

  /** The cross-field rules of the entry schema. */
  predicate LedgerEntryOk(e: LedgerEntry) {
    && (e.status != Success ==> e.verdict != Passed)
    && (e.verdict == Passed ==> e.evidenceMet)
    && (e.verdict == Passed ==> e.proofTokens != [])
  }

  function BuildLedgerEntry(task: Task, r: RunResult): (e: LedgerEntry)
    ensures LedgerEntryOk(e)
  {
    var tokens := ResultTokens(r);
    var met := ExpectedEvidenceMet(task, r);
    var verdict := if r.status == Success && met && tokens != [] then Passed else Blocked;
    LedgerEntry(task.id, r.status, verdict, met, tokens, PathOf(r))
  }

  // ── Ids and paths ─────────────────────────────────────────────────────

  lemma RunPathsDiffer(a: string, b: string)
    ensures RunPath(a) == RunPath(b) <==> a == b
  {
    var head, tail := "operator/runs/", ".result.json";
    if RunPath(a) == RunPath(b) {
      assert |RunPath(a)| == |head| + |a| + |tail| && |RunPath(b)| == |head| + |b| + |tail|;
      assert RunPath(a)[|head|..|head| + |a|] == a;
      assert RunPath(b)[|head|..|head| + |b|] == b;
    }
  }

  lemma RetryPathOfRun(id: string)
    ensures RetryResultPath(RunPath(id)) == RunPath(id + ".retry-1")
  {}

  /** A derived id is the source id exactly when the source id already is a cut-off
      derived id: 80 characters ending in the suffix. */
  lemma DerivedIdCollides(id: string, suffix: string)
    requires |suffix| == 9 && |id| <= 81
    ensures ShortTaskId(id, suffix) == id <==> |id| == 80 && id[70..] == "-" + suffix
    ensures ShortTaskId(id, suffix) == (if |id| <= 70 then id else id[..70]) + "-" + suffix
  {}

  /** Source ids for which no child result shares the file of another. */
  predicate IdsAreSeparate(id: string) {
    |id| <= 81 && EvaluationId(id) != id && PromotionId(id) != id
  }

  lemma ShortIdsAreSeparate(id: string)
    requires |id| <= 70
    ensures IdsAreSeparate(id)
  {
    DerivedIdCollides(id, "life-eval");
    DerivedIdCollides(id, "life-prom");
  }

  lemma DerivedIdsAreApart(id: string, dotted: string)
    requires |id| <= 81 && dotted != "" && dotted[0] == '.'
    requires |dotted| == 8 || |dotted| == 10
    ensures id + dotted != id
    ensures id + dotted != EvaluationId(id) && id + dotted != PromotionId(id)
    ensures EvaluationId(id) != PromotionId(id)
  {
    DerivedIdCollides(id, "life-eval");
    DerivedIdCollides(id, "life-prom");
    var e, p := EvaluationId(id), PromotionId(id);
    assert |id + dotted| == |id| + |dotted|;
    if |id| <= 70 {
      assert e[|id|] == '-' && p[|id|] == '-' && (id + dotted)[|id|] == '.';
      assert e[|id| + 6] == 'e' && p[|id| + 6] == 'p';
    } else {
      assert e[70 + 6] == 'e' && p[70 + 6] == 'p';
      if |id| < 80 {
        assert e[|id|] == ("-life-eval")[|id| - 70] && p[|id|] == ("-life-prom")[|id| - 70];
        assert (id + dotted)[|id|] == '.';
      }
    }
  }
}
