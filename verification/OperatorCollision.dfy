/**
 * What happens to source ids that are their own cut-off derived ids
 * (src/operator/lifecycle.ts:29-33): a child of the lifecycle then writes its result over
 * the source's.  A passed run-ledger entry still rests on a passing file exactly when the
 * winner was a retry, or the child's evidence covers what the source expects.
 */
module OperatorCollision {
  import opened Common
  import opened Text
  import opened OperatorContracts
  import opened OperatorPipeline
  import opened OperatorSoundness

  // ── What the children of a lifecycle record ───────────────────────────

  /** The evidence of a successful evaluation or promotion covers these kinds and no others. */
  predicate ChildKind(kind: EvidenceType, cwd: bool) {
    kind == FileRead || kind == ManualNote || kind == LogTrace || (cwd && kind == FileExists)
  }

  predicate Covered(source: Task, cwd: bool) {
    forall kind :: kind in source.expected ==> ChildKind(kind, cwd)
  }

  predicate ChildResult(r: RunResult, cwd: bool) {
    && r.status == Success && r.errors == [] && AllProved(r) && HasProofToken(r)
    && (forall kind :: Observes(r, kind) <==> ChildKind(kind, cwd))
  }

  lemma ChildPassesIffCovered(onDisk: Exists, source: Task, r: RunResult, cwd: bool)
    requires ChildResult(r, cwd) && !TraceLost(onDisk, r)
    ensures Passes(onDisk, source, r) <==> Covered(source, cwd)
  {}

  /** The evidence list of a child: what was found on the way, then its three own entries. */
  function ChildEvidence(found: seq<Evidence>, id: string, path: string): seq<Evidence> {
    found + [Proof(id + ".result", FileRead, path), Proof(id + ".verdict", ManualNote, path),
      Proof(id + ".trace", LogTrace, path)]
  }

  predicate FoundOnTheWay(found: seq<Evidence>, id: string, cwd: bool) {
    && (forall e :: e in found ==> e.proofToken == Some(e.id) && e.id != "" && ChildKind(e.kind, cwd))
    && (cwd ==> exists e :: e in found && e.kind == FileExists)
  }

  lemma ChildEvidenceShape(r: RunResult, found: seq<Evidence>, id: string, path: string, cwd: bool)
    requires r.status == Success && r.errors == [] && FoundOnTheWay(found, id, cwd)
    requires r.evidence == ChildEvidence(found, id, path)
    ensures ChildResult(r, cwd)
  {
    var n := |found|;
    assert r.evidence[n].kind == FileRead && r.evidence[n + 1].kind == ManualNote && r.evidence[n + 2].kind == LogTrace;
    assert forall e :: e in r.evidence ==>
      e in found || e == r.evidence[n] || e == r.evidence[n + 1] || e == r.evidence[n + 2];
    var token := id + ".result";
    assert token[|id| + 1] == 'r';
    TrimKeepsInk(token, |id| + 1);
    assert r.evidence[n].proofToken == Some(token);
    if cwd {
      var e :| e in found && e.kind == FileExists;
      assert e in r.evidence;
    }
  }

  lemma NothingToTrace(r: RunResult, path: string, cwd: bool)
    requires ChildResult(r, cwd)
    ensures WithBrowserSessionTrace(r.(tracePath := Some(path))) == r.(tracePath := Some(path))
  {
    forall e | e in r.evidence ensures e.kind != BrowserObservation {
      assert Observes(r, e.kind);
    }
    NoObservationsNoTraces(r.evidence, path);
  }

  lemma WrittenChild(w: World, r: RunResult, cwd: bool)
    requires ChildResult(r, cwd) && r.tracePath.None?
    ensures var d := WriteTrace(w, r, None, false);
            d.result == r.(tracePath := Some(RunPath(r.taskId))) && ChildResult(d.result, cwd)
  {
    NothingToTrace(r, RunPath(r.taskId), cwd);
    var written := r.(tracePath := Some(RunPath(r.taskId)));
    assert forall kind :: Observes(written, kind) == Observes(r, kind);
  }

  lemma CwdIsFoundOnTheWay(task: Task, step: Step, id: string)
    requires task.id != ""
    ensures FoundOnTheWay(CwdEvidence(task, step), id, step.cwdExists)
    ensures forall kind :: kind == FileRead || kind == ManualNote ==>
              FoundOnTheWay(CwdEvidence(task, step) + [Proof(task.id + ".task", kind, "task")], id, step.cwdExists)
  {
    if step.cwdExists {
      assert CwdEvidence(task, step)[0].kind == FileExists;
      forall kind: EvidenceType
        ensures Proof(task.id + ".cwd", FileExists, "cwd")
             in CwdEvidence(task, step) + [Proof(task.id + ".task", kind, "task")]
      {}
    }
  }

  lemma GateLetsChildrenPass(task: Task, r: RunResult, cwd: bool)
    requires task.expected == LIFECYCLE_EVIDENCE && ChildResult(r, cwd)
    ensures Gate(task, r) == r
  {}

  /** An evaluation stage that passed its source wrote a child result. */
  lemma EvaluationStageIsChild(w: World, source: Task, step: Step, retry: Step)
    requires IdOk(source.id) && StoredTaskMatches(w, source) && RunPath(source.id) in w.files
    ensures var r := Dispatch(w, EvaluationTask(source), step, retry).result;
            r.evaluation.Some? && r.evaluation.value.passed ==> ChildResult(r, step.cwdExists)
  {
    var task := EvaluationTask(source);
    if Stopped(task, step).None? {
      EvaluationIsChild(Note(w, task), source, step, retry);
    }
  }

  lemma EvaluationIsChild(w: World, source: Task, step: Step, retry: Step)
    requires IdOk(source.id) && StoredTaskMatches(w, source) && RunPath(source.id) in w.files
    ensures var task := EvaluationTask(source);
            var r := DispatchEvaluation(w, task, CwdEvidence(task, step), retry, None).result;
            r.evaluation.Some? && r.evaluation.value.passed ==> ChildResult(r, step.cwdExists)
  {
    var task, id := EvaluationTask(source), source.id;
    EvaluationTaskEvaluates(w, source);
    IdsAreTrimmed(id);
    CwdIsFoundOnTheWay(task, step, task.id);
    var e := EvaluateWithRetry(w, source, w.files[RunPath(id)], RunPath(id), retry);
    if e.evaluation.passed {
      var loaded := CwdEvidence(task, step)
        + [Proof(task.id + ".task", if id in w.tasks then FileRead else ManualNote, "task")];
      var r := EvaluationResult(task, loaded, id, e.evaluation);
      ChildEvidenceShape(r, loaded, task.id, RunPath(id), step.cwdExists);
      GateLetsChildrenPass(task, r, step.cwdExists);
      WrittenChild(e.world, r, step.cwdExists);
    }
  }

  /** A promotion stage that promoted wrote a child result, and its status is success. */
  lemma PromotionStageIsChild(w: World, source: Task, step: Step, retry: Step)
    requires IdOk(source.id) && RunPath(EvaluationId(source.id)) in w.files
    ensures var r := Dispatch(w, PromotionTask(source), step, retry).result;
            r.promotion.Some? && r.promotion.value.promoted ==> ChildResult(r, step.cwdExists)
  {
    var task := PromotionTask(source);
    if Stopped(task, step).None? {
      PromotionIsChild(Note(w, task), source, step);
    }
  }

  lemma PromotionIsChild(w: World, source: Task, step: Step)
    requires IdOk(source.id) && RunPath(EvaluationId(source.id)) in w.files
    ensures var task := PromotionTask(source);
            var r := DispatchPromotion(w, task, CwdEvidence(task, step), None).result;
            r.promotion.Some? && r.promotion.value.promoted ==> ChildResult(r, step.cwdExists)
  {
    var task, target := PromotionTask(source), EvaluationId(source.id);
    IdsAreTrimmed(source.id);
    CwdIsFoundOnTheWay(task, step, task.id);
    var loaded := w.files[RunPath(target)];
    var p := DecidePromotion(DiskOf(w), loaded.evaluation, Tokens(loaded.evidence), []);
    if p.promoted {
      var r := PromotionResult(task, CwdEvidence(task, step), target, loaded.evaluation, p);
      ChildEvidenceShape(r, CwdEvidence(task, step), task.id, RunPath(target), step.cwdExists);
      GateLetsChildrenPass(task, r, step.cwdExists);
      WrittenChild(w, r, step.cwdExists);
    }
  }

  // ── The exact condition ───────────────────────────────────────────────

  /** The step of the child that shares the source's id. */
  function Collider(id: string, s: Surroundings): Step {
    if EvaluationId(id) == id then s.evaluation else s.promotion
  }

  /** At the end of a successful run with a colliding id, the source's file holds the child's result. */
  lemma ColliderIsLeft(w: World, source: Task, s: Surroundings, persist: bool)
    requires IdOk(source.id) && StoredTaskMatches(w, source) && !IdsAreSeparate(source.id)
    requires RunLifecycle(w, source, s, persist).result.status == Success
    ensures var final, path := RunLifecycle(w, source, s, persist).world, RunPath(source.id);
            && path in final.files && ChildResult(final.files[path], Collider(source.id, s).cwdExists)
            && final.files[path].tracePath == Some(path)
  {
    var id := source.id;
    var evaluated, promoted := EvaluationStage(w, source, s), PromotionStage(w, source, s);
    StagesInOrder(w, source, s);
    SuccessWasWonFairly(w, source, s, persist);
    PromotionStageOutcome(evaluated.world, source, s.promotion, s.retry);
    EvaluationStageIsChild(DispatchStage(w, source, s).world, source, s.evaluation, s.retry);
    PromotionStageIsChild(evaluated.world, source, s.promotion, s.retry);
    DerivedIdsAreApart(id, ".lifecycle");
    RunPathsDiffer(id, id + ".lifecycle");
    RunPathsDiffer(EvaluationId(id), PromotionId(id));
  }

  lemma RetryWinnerSurvives(w: World, source: Task, s: Surroundings, persist: bool)
    requires IdOk(source.id) && StoredTaskMatches(w, source)
    requires RunLifecycle(w, source, s, persist).result.status == Success
    ensures var d := RunLifecycle(w, source, s, persist);
            && d.result.evaluation.Some?
            && (Retried(d.result.evaluation.value) ==>
                  RestsOn(d.world, source, d.result.evaluation.value, RunPath(source.id + ".retry-1")))
  {
    var id, d := source.id, RunLifecycle(w, source, s, persist);
    SuccessWasWonFairly(w, source, s, persist);
    if Retried(d.result.evaluation.value) {
      StagesInOrder(w, source, s);
      PromotionStageOutcome(EvaluationStage(w, source, s).world, source, s.promotion, s.retry);
      RetryFileIsApart(id);
      var path := RunPath(id + ".retry-1");
      WinnerIsKept(EvaluationStage(w, source, s).world, PromotionStage(w, source, s).world, source,
        path, {RunPath(PromotionId(id))});
      WinnerIsKept(PromotionStage(w, source, s).world, d.world, source, path, {RunPath(id + ".lifecycle")});
    }
  }

  lemma RetryFileIsApart(id: string)
    requires |id| <= 81
    ensures RunPath(id + ".retry-1") != RunPath(PromotionId(id))
      && RunPath(id + ".retry-1") != RunPath(id + ".lifecycle")
  {
    DerivedIdsAreApart(id, ".retry-1");
    assert |id + ".retry-1"| != |id + ".lifecycle"|;
    RunPathsDiffer(id + ".retry-1", PromotionId(id));
    RunPathsDiffer(id + ".retry-1", id + ".lifecycle");
  }

  /** Without a retry and with a colliding id, the file a passed run rests on is the child's. */
  lemma OverwrittenIsSoundIffCovered(w: World, source: Task, s: Surroundings, persist: bool)
    requires IdOk(source.id) && StoredTaskMatches(w, source) && !IdsAreSeparate(source.id)
    requires RunLifecycle(w, source, s, persist).result.status == Success
    ensures SoundAt(RunLifecycle(w, source, s, persist).world, source, RunPath(source.id))
       <==> Covered(source, Collider(source.id, s).cwdExists)
  {
    ColliderIsLeft(w, source, s, persist);
    var final, path := RunLifecycle(w, source, s, persist).world, RunPath(source.id);
    ChildPassesIffCovered(DiskOf(final), source, final.files[path], Collider(source.id, s).cwdExists);
  }

  /**
   * When a passed run rests on a passing file: exactly if the winner was a retry, or the
   * source id is not one of its own derived ids, or every kind of evidence the source
   * expects is one the overwriting child records.
   */
  lemma PassedRunIsSoundIff(w: World, source: Task, s: Surroundings, persist: bool)
    requires IdOk(source.id) && StoredTaskMatches(w, source)
    requires RunLifecycle(w, source, s, persist).result.status == Success
    ensures var d := RunLifecycle(w, source, s, persist);
            && d.result.evaluation.Some?
            && var e := d.result.evaluation.value;
               (exists path :: RestsOn(d.world, source, e, path)) <==>
               (Retried(e) || IdsAreSeparate(source.id) || Covered(source, Collider(source.id, s).cwdExists))
  {
    var d := RunLifecycle(w, source, s, persist);
    RetryWinnerSurvives(w, source, s, persist);
    SuccessWasWonFairly(w, source, s, persist);
    var e := d.result.evaluation.value;
    if IdsAreSeparate(source.id) {
      EntryPassesIffLifecycleSucceeds(w, source, s, persist);
      PassedEntriesAreSound(w, source, s, persist);
    } else {
      OverwrittenIsSoundIffCovered(w, source, s, persist);
      if !Retried(e) && Covered(source, Collider(source.id, s).cwdExists) {
        assert RestsOn(d.world, source, e, RunPath(source.id));
      }
    }
  }

  // ── A passing dispatch is promoted ────────────────────────────────────

  predicate Runs(step: Step) {
    step.active && !step.pathsMissing
  }

  lemma PassingSourceIsEvaluated(w: World, source: Task, step: Step, retry: Step)
    requires IdOk(source.id) && StoredTaskMatches(w, source) && RunPath(source.id) in w.files && Runs(step)
    requires Passes(DiskOf(w), source, w.files[RunPath(source.id)])
    ensures var r := Dispatch(w, EvaluationTask(source), step, retry).result;
            r.evaluation.Some? && r.evaluation.value.passed && !Retried(r.evaluation.value)
            && r.evaluation.value.winningPath == Some(RunPath(source.id))
  {
    var task, id := EvaluationTask(source), source.id;
    var noted := Note(w, task);
    assert forall p :: OnDisk(noted, p) == OnDisk(w, p);
    EvaluationTaskEvaluates(noted, source);
    EvaluatingDispatch(noted, task, CwdEvidence(task, step), retry);
    PassesIffNoIssue(DiskOf(noted), source, noted.files[RunPath(id)]);
    var first := BuildAttempt(false, RunPath(id), noted.files[RunPath(id)],
      Evaluate(DiskOf(noted), source, noted.files[RunPath(id)]));
    ComposedVerdict(RunPath(id), first, IsRetryable(source), None);
  }

  lemma ChildHasToken(r: RunResult, cwd: bool)
    requires ChildResult(r, cwd)
    ensures exists t :: t in Tokens(r.evidence) + [] && Trim(t) != ""
  {
    var e :| e in r.evidence && e.proofToken.Some? && Trim(e.proofToken.value) != "";
    var i :| 0 <= i < |r.evidence| && r.evidence[i] == e;
    assert Tokens(r.evidence)[i] == e.proofToken.value;
    assert e.proofToken.value in Tokens(r.evidence) + [];
  }

  lemma PassingEvaluationIsPromoted(w: World, source: Task, step: Step, retry: Step, cwd: bool)
    requires IdOk(source.id) && RunPath(EvaluationId(source.id)) in w.files && Runs(step)
    requires var r := w.files[RunPath(EvaluationId(source.id))];
      && ChildResult(r, cwd) && r.evaluation.Some? && WellFormed(r.evaluation.value) && r.evaluation.value.passed
      && !Retried(r.evaluation.value) && OnDisk(w, r.evaluation.value.winningPath.value)
    ensures IsPromoted(Dispatch(w, PromotionTask(source), step, retry).result)
  {
    var task := PromotionTask(source);
    var noted := Note(w, task);
    assert forall p :: OnDisk(noted, p) == OnDisk(w, p);
    var loaded := w.files[RunPath(EvaluationId(source.id))];
    ChildHasToken(loaded, cwd);
    PromotedIff(DiskOf(noted), loaded.evaluation, Tokens(loaded.evidence), []);
    PromotingDispatch(noted, source, CwdEvidence(task, step));
    PromotionStageIsChild(w, source, step, retry);
  }

  /** A dispatched result that passes for its task is promoted, without a retry, when the two children may run. */
  lemma PassingDispatchIsPromoted(w: World, source: Task, s: Surroundings, persist: bool)
    requires IdOk(source.id) && StoredTaskMatches(w, source) && Runs(s.evaluation) && Runs(s.promotion)
    requires Passes(DiskOf(DispatchStage(w, source, s).world), source, DispatchStage(w, source, s).result)
    ensures var r := RunLifecycle(w, source, s, persist).result;
            r.status == Success && r.evaluation.Some? && !Retried(r.evaluation.value)
  {
    var dispatched, evaluated := DispatchStage(w, source, s).world, EvaluationStage(w, source, s).world;
    StagesInOrder(w, source, s);
    PassingSourceIsEvaluated(dispatched, source, s.evaluation, s.retry);
    EvaluationStageIsChild(dispatched, source, s.evaluation, s.retry);
    EvaluationStageIsWellFormed(dispatched, source, s.evaluation, s.retry);
    PassingEvaluationIsPromoted(evaluated, source, s.promotion, s.retry, s.evaluation.cwdExists);
    PromotionStageOutcome(evaluated, source, s.promotion, s.retry);
  }

  // ── A colliding run ───────────────────────────────────────────────────

  /** The run is entered as passed while no file in place passes for its task. */
  ghost predicate PassedUnsoundly(w: World, source: Task, s: Surroundings, persist: bool) {
    var d := RunLifecycle(w, source, s, persist);
    && BuildLedgerEntry(source, d.result).verdict == Passed
    && d.result.evaluation.Some?
    && !exists path :: RestsOn(d.world, source, d.result.evaluation.value, path)
  }

  /** Whenever a dispatch passes under a colliding id, and the child cannot stand in for it. */
  lemma CollisionsAreUnsound(w: World, source: Task, s: Surroundings, persist: bool)
    requires IdOk(source.id) && StoredTaskMatches(w, source) && Runs(s.evaluation) && Runs(s.promotion)
    requires Passes(DiskOf(DispatchStage(w, source, s).world), source, DispatchStage(w, source, s).result)
    requires !IdsAreSeparate(source.id) && !Covered(source, Collider(source.id, s).cwdExists)
    ensures PassedUnsoundly(w, source, s, persist)
  {
    PassingDispatchIsPromoted(w, source, s, persist);
    EntryPassesIffLifecycleSucceeds(w, source, s, persist);
    PassedRunIsSoundIff(w, source, s, persist);
  }

  const COLLIDING_ID: string := seq(70, _ => 'a') + "-life-eval"

  const COLLIDING := Task(COLLIDING_ID, Vellum, ReadOnly, Inputs(None, None, None), [CommandExit], false)

  const EMPTY_WORLD := World(map[], map[], {}, None, [])

  const CALM := Step(false, true, false, Success, [Proof("run", CommandExit, "shell")], [])

  const CALM_SURROUNDINGS := Surroundings(CALM, CALM, CALM, CALM, CALM)

  lemma CollidingIdIsOk()
    ensures IdOk(COLLIDING_ID) && !IdsAreSeparate(COLLIDING_ID)
  {
    DerivedIdCollides(COLLIDING_ID, "life-eval");
    assert COLLIDING_ID[70..] == "-life-eval" == "-" + "life-eval";
    forall i | 0 <= i < |COLLIDING_ID| ensures IdChar(COLLIDING_ID[i]) {
      if i >= 70 {
        assert COLLIDING_ID[i] == ("-life-eval")[i - 70];
      }
    }
  }

  lemma CollidingDispatchPasses()
    ensures var d := DispatchStage(EMPTY_WORLD, COLLIDING, CALM_SURROUNDINGS);
            Passes(DiskOf(d.world), COLLIDING, d.result)
  {
    var noted := Note(EMPTY_WORLD, COLLIDING);
    var token := Proof("run", CommandExit, "shell");
    var r := Plain(COLLIDING_ID, Success, [token], []);
    assert CwdEvidence(COLLIDING, CALM) + CALM.found == [token];
    NoObservationsNoTraces(r.evidence, RunPath(COLLIDING_ID));
    assert WithBrowserSessionTrace(r.(tracePath := Some(RunPath(COLLIDING_ID))))
      == r.(tracePath := Some(RunPath(COLLIDING_ID)));
    var d := DispatchStage(EMPTY_WORLD, COLLIDING, CALM_SURROUNDINGS);
    assert d == WriteTrace(noted, r, None, false);
    assert d.result.evidence[0] == token;
    assert !IsWhitespace(("run")[0]);
    TrimKeepsInk("run", 0);
  }

  /** So such a run exists. */
  lemma ACollidingRunIsUnsound(persist: bool) returns (w: World, source: Task, s: Surroundings)
    ensures PassedUnsoundly(w, source, s, persist)
  {
    w, source, s := EMPTY_WORLD, COLLIDING, CALM_SURROUNDINGS;
    CollidingIdIsOk();
    CollidingDispatchPasses();
    assert CommandExit in source.expected && !ChildKind(CommandExit, Collider(source.id, s).cwdExists);
    CollisionsAreUnsound(w, source, s, persist);
  }
}
