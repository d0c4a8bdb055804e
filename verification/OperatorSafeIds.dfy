/**
 * Which source tasks are sound in every run (src/operator/lifecycle.ts:29-33): whatever the
 * files, the surroundings and the retries, a run that is entered as passed rests on a file
 * that passes for the source.  The condition can be read off the task before it is run.
 */
module OperatorSafeIds {
  import opened Common
  import opened Text
  import opened OperatorContracts
  import opened OperatorPipeline
  import opened OperatorSoundness
  import opened OperatorCollision

  /** If the run succeeds, some file in place at its end passes for the source. */
  ghost predicate SoundRun(w: World, source: Task, s: Surroundings, persist: bool) {
    var d := RunLifecycle(w, source, s, persist);
    d.result.status == Success ==>
      d.result.evaluation.Some? && exists path :: RestsOn(d.world, source, d.result.evaluation.value, path)
  }

  ghost predicate AlwaysSound(source: Task) {
    forall w, s, persist :: StoredTaskMatches(w, source) ==> SoundRun(w, source, s, persist)
  }

  // ── Runners ───────────────────────────────────────────────────────────

  /** One proof for every kind of evidence the task expects. */
  function ProofOf(kinds: seq<EvidenceType>): seq<Evidence> {
    seq(|kinds|, i requires 0 <= i < |kinds| => Proof("run", kinds[i], "shell"))
  }

  const QUIET := Step(false, true, false, Success, [], [])

  function Proving(task: Task): Step {
    QUIET.(found := ProofOf(task.expected))
  }

  lemma {:induction false} TracesAreProofs(evidence: seq<Evidence>, path: string)
    ensures forall e :: e in BrowserTraces(evidence, path) ==> e.kind == BrowserSessionTrace && Named(e.proofToken)
    ensures (exists e :: e in evidence && e.kind == BrowserObservation) ==> BrowserTraces(evidence, path) != []
  {
    if evidence != [] {
      var n := |evidence| - 1;
      TracesAreProofs(evidence[..n], path);
      assert evidence == evidence[..n] + [evidence[n]];
    }
  }

  lemma RunPathIsInked(id: string)
    ensures RunPath(id) != "" && Trim(RunPath(id)) != ""
  {
    assert RunPath(id)[0] == 'o';
    TrimKeepsInk(RunPath(id), 0);
  }

  /** The traces a browser run gets complete its evidence. */
  lemma TracedEvidence(r: RunResult, path: string)
    requires r.tracePath == Some(path) && path != "" && Trim(path) != ""
    requires AllProved(r) && HasProofToken(r)
    ensures var t := WithBrowserSessionTrace(r);
            AllProved(t) && HasProofToken(t) && !BrowserUntraced(t) && r.evidence <= t.evidence
    ensures var t := WithBrowserSessionTrace(r);
      t.status == r.status && t.errors == r.errors && t.tracePath == r.tracePath
  {
    var t := WithBrowserSessionTrace(r);
    TracesAreProofs(r.evidence, path);
    assert r.evidence <= t.evidence;
    var e :| e in r.evidence && e.proofToken.Some? && Trim(e.proofToken.value) != "";
    assert e in t.evidence;
    var traces := BrowserTraces(r.evidence, path);
    if Observes(t, BrowserObservation) && !Observes(r, BrowserSessionTrace) {
      var o :| o in t.evidence && o.kind == BrowserObservation;
      assert o in r.evidence;
      assert traces[0] in t.evidence;
    }
  }

  lemma ProofsProve(r: RunResult, kinds: seq<EvidenceType>)
    requires r.evidence == ProofOf(kinds) && kinds != []
    ensures AllProved(r) && HasProofToken(r) && forall kind :: kind in kinds ==> Observes(r, kind)
  {
    assert !IsWhitespace(("run")[0]);
    TrimKeepsInk("run", 0);
    assert r.evidence[0] in r.evidence && r.evidence[0].proofToken == Some("run");
    forall kind | kind in kinds ensures Observes(r, kind) {
      var i :| 0 <= i < |kinds| && kinds[i] == kind;
      assert r.evidence[i].kind == kind;
    }
  }

  /** A runner that proves everything the task expects passes. */
  lemma ProvingRunnerPasses(w: World, source: Task)
    requires source.route != Manual && source.expected != []
    ensures var d := Dispatch(w, source, Proving(source), QUIET); Passes(DiskOf(d.world), source, d.result)
  {
    var step, noted := Proving(source), Note(w, source);
    var r := Plain(source.id, Success, ProofOf(source.expected), []);
    var path := RunPath(source.id);
    assert CwdEvidence(source, step) + step.found == ProofOf(source.expected);
    ProofsProve(r, source.expected);
    RunPathIsInked(source.id);
    TracedEvidence(r.(tracePath := Some(path)), path);
    var d := Dispatch(w, source, step, QUIET);
    assert d == WriteTrace(noted, r, None, false);
    forall kind | kind in source.expected ensures Observes(d.result, kind) {
      var e :| e in r.evidence && e.kind == kind;
      assert e in d.result.evidence;
    }
  }

  // ── Manual sources ────────────────────────────────────────────────────

  /** A promotion task without a target is always refused. */
  predicate NeverPromotes(task: Task) {
    task.inputs.promotionResultTaskId.Some? && Trim(task.inputs.promotionResultTaskId.value) == ""
  }

  lemma GateOfChild(task: Task, r: RunResult, cwd: bool)
    requires ChildResult(r, cwd)
    ensures if Covered(task, cwd) then Gate(task, r) == r else Gate(task, r).status == BlockedStatus
  {}

  lemma ManualPromotion(w: World, task: Task, step: Step)
    requires task.id != "" && task.inputs.promotionResultTaskId.Some?
    ensures var target := Trim(task.inputs.promotionResultTaskId.value);
            var r := DispatchPromotion(w, task, CwdEvidence(task, step), None).result;
            if target != "" && RunPath(target) in w.files && Covered(task, step.cwdExists)
               && DecidePromotion(DiskOf(w), w.files[RunPath(target)].evaluation,
                                  Tokens(w.files[RunPath(target)].evidence), []).promoted
            then ChildResult(r, step.cwdExists) else r.status != Success
  {
    var target := Trim(task.inputs.promotionResultTaskId.value);
    if target != "" && RunPath(target) in w.files {
      var loaded := w.files[RunPath(target)];
      var p := DecidePromotion(DiskOf(w), loaded.evaluation, Tokens(loaded.evidence), []);
      if p.promoted {
        var r := PromotionResult(task, CwdEvidence(task, step), target, loaded.evaluation, p);
        CwdIsFoundOnTheWay(task, step, task.id);
        ChildEvidenceShape(r, CwdEvidence(task, step), task.id, RunPath(target), step.cwdExists);
        GateOfChild(task, r, step.cwdExists);
        if Covered(task, step.cwdExists) {
          WrittenChild(w, r, step.cwdExists);
        }
      }
    }
  }

  lemma ManualEvaluation(w: World, task: Task, step: Step, retry: Step)
    requires task.id != ""
    ensures var r := DispatchEvaluation(w, task, CwdEvidence(task, step), retry, None).result;
            if Evaluates(w, task) && Covered(task, step.cwdExists) && r.evaluation.Some? && r.evaluation.value.passed
            then ChildResult(r, step.cwdExists) else r.status != Success
  {
    if Evaluates(w, task) {
      var target := TargetId(w, task);
      var judged := JudgedTask(w, task, target).value;
      EvaluatingDispatch(w, task, CwdEvidence(task, step), retry);
      var e := EvaluateWithRetry(w, judged, w.files[RunPath(target)], RunPath(target), retry);
      if e.evaluation.passed {
        var kind := if target in w.tasks then FileRead else ManualNote;
        var loaded := CwdEvidence(task, step) + [Proof(task.id + ".task", kind, "task")];
        var r := EvaluationResult(task, loaded, target, e.evaluation);
        CwdIsFoundOnTheWay(task, step, task.id);
        ChildEvidenceShape(r, loaded, task.id, RunPath(target), step.cwdExists);
        GateOfChild(task, r, step.cwdExists);
        if Covered(task, step.cwdExists) {
          WrittenChild(e.world, r, step.cwdExists);
        }
      }
    } else {
      RefusedDispatch(w, task, CwdEvidence(task, step), retry);
    }
  }

  /** A manual task that succeeds expects no more than a child records, and has a target. */
  lemma ManualSuccess(w: World, task: Task, step: Step, retry: Step)
    requires task.route == Manual && task.id != ""
    requires Dispatch(w, task, step, retry).result.status == Success
    ensures Covered(task, step.cwdExists) && !NeverPromotes(task)
  {
    if Stopped(task, step).None? {
      if task.inputs.promotionResultTaskId.Some? {
        ManualPromotion(Note(w, task), task, step);
      } else {
        ManualEvaluation(Note(w, task), task, step, retry);
      }
    }
  }

  const EVERY_CHILD_KIND: seq<EvidenceType> := [FileExists, FileRead, ManualNote, LogTrace]

  const HELD := Plain("held", Success, ProofOf(EVERY_CHILD_KIND), [])

  const PRESENT := QUIET.(cwdExists := true)

  lemma HeldPasses(onDisk: Exists, task: Task)
    requires Covered(task, true)
    ensures Passes(onDisk, task, HELD)
  {
    ProofsProve(HELD, EVERY_CHILD_KIND);
    assert EVERY_CHILD_KIND[0] in EVERY_CHILD_KIND && EVERY_CHILD_KIND[1] in EVERY_CHILD_KIND;
    assert EVERY_CHILD_KIND[2] in EVERY_CHILD_KIND && EVERY_CHILD_KIND[3] in EVERY_CHILD_KIND;
  }

  /** A world in which an evaluation task finds a passing result to judge. */
  function EvaluableWorld(task: Task): World {
    var explicit := if task.inputs.resultTaskId.Some? then Trim(task.inputs.resultTaskId.value) else "";
    var target := if explicit != "" then explicit else "other";
    var judged := if target == task.id then task
      else Task(target, Vellum, ReadOnly, Inputs(None, None, None), [], false);
    World(map[RunPath(target) := HELD], map[target := judged], {},
          Some(LastRun("other", Success, "", [], None, None, None)), [])
  }

  /** An evaluation of a result that passes succeeds. */
  lemma PassingTargetIsPassed(w: World, task: Task, step: Step, retry: Step)
    requires Evaluates(w, task)
    requires var target := TargetId(w, task);
      Passes(DiskOf(w), JudgedTask(w, task, target).value, w.files[RunPath(target)])
    ensures var r := DispatchEvaluation(w, task, CwdEvidence(task, step), retry, None).result;
            r.evaluation.Some? && r.evaluation.value.passed
  {
    var target := TargetId(w, task);
    var judged, result := JudgedTask(w, task, target).value, w.files[RunPath(target)];
    PassesIffNoIssue(DiskOf(w), judged, result);
    var first := BuildAttempt(false, RunPath(target), result, Evaluate(DiskOf(w), judged, result));
    RunPathIsInked(target);
    ComposedVerdict(RunPath(target), first, IsRetryable(judged), None);
    EvaluatingDispatch(w, task, CwdEvidence(task, step), retry);
  }

  lemma EvaluableWorldEvaluates(task: Task)
    requires task.id != "" && task.id != "other"
    ensures var w := EvaluableWorld(task);
            && StoredTaskMatches(w, task) && Evaluates(Note(w, task), task)
            && var target := TargetId(Note(w, task), task);
               && w.files[RunPath(target)] == HELD
               && (JudgedTask(w, task, target).value == task || JudgedTask(w, task, target).value.expected == [])
               && JudgedTask(Note(w, task), task, target) == JudgedTask(w, task, target)
  {
    TrimmedAlready("other");
  }

  lemma EvaluationCanSucceed(task: Task)
    requires task.id != "" && task.id != "other" && Covered(task, true)
    ensures var w := EvaluableWorld(task);
            && StoredTaskMatches(w, task)
            && ChildResult(DispatchEvaluation(Note(w, task), task, CwdEvidence(task, PRESENT), QUIET,
              None).result, true)
  {
    var w := Note(EvaluableWorld(task), task);
    EvaluableWorldEvaluates(task);
    HeldPasses(DiskOf(w), JudgedTask(w, task, TargetId(w, task)).value);
    PassingTargetIsPassed(w, task, PRESENT, QUIET);
    ManualEvaluation(w, task, PRESENT, QUIET);
  }

  const WON: Evaluation :=
    Evaluation(true, 100, [], Some(Passed), None, Some(false), None, None, Some("won"), [], [], [])

  /** A world in which a promotion task finds a passing evaluation. */
  function PromotableWorld(target: string): World {
    World(map[RunPath(target) := HELD.(evaluation := Some(WON))], map[], {"won"}, None, [])
  }

  lemma PromotionCanSucceed(task: Task)
    requires task.id != "" && task.inputs.promotionResultTaskId.Some? && !NeverPromotes(task) && Covered(task, true)
    ensures var w := PromotableWorld(Trim(task.inputs.promotionResultTaskId.value));
            ChildResult(DispatchPromotion(Note(w, task), task, CwdEvidence(task, PRESENT), None).result, true)
  {
    var target := Trim(task.inputs.promotionResultTaskId.value);
    var w := Note(PromotableWorld(target), task);
    var loaded := w.files[RunPath(target)];
    assert !IsWhitespace(("run")[0]);
    TrimKeepsInk("run", 0);
    assert Tokens(loaded.evidence)[0] == "run";
    assert "run" in Tokens(loaded.evidence) + [];
    PromotedIff(DiskOf(w), loaded.evaluation, Tokens(loaded.evidence), []);
    ManualPromotion(w, task, PRESENT);
  }

  /** Where a manual task can succeed. */
  function ManualWorld(task: Task): World {
    if task.inputs.promotionResultTaskId.Some? then PromotableWorld(Trim(task.inputs.promotionResultTaskId.value))
    else EvaluableWorld(task)
  }

  lemma ManualCanPass(task: Task)
    requires task.route == Manual && task.id != "" && task.id != "other" && Covered(task, true) && !NeverPromotes(task)
    ensures var w := ManualWorld(task);
            var d := Dispatch(w, task, PRESENT, QUIET);
            StoredTaskMatches(w, task) && Passes(DiskOf(d.world), task, d.result)
  {
    var w := ManualWorld(task);
    if task.inputs.promotionResultTaskId.Some? {
      PromotionCanSucceed(task);
    } else {
      EvaluationCanSucceed(task);
    }
    var d := Dispatch(w, task, PRESENT, QUIET);
    var extra := DispatchExtends(w, task, PRESENT, QUIET);
    assert ChildResult(d.result, true);
    ChildPassesIffCovered(DiskOf(d.world), task, d.result, true);
  }

  // ── The condition ─────────────────────────────────────────────────────

  /** What the child that shares the id records for certain covers the source; or a manual
      source can only fail. */
  predicate SafeSource(source: Task) {
    || IdsAreSeparate(source.id)
    || Covered(source, false)
    || (source.route == Manual && (!Covered(source, true) || NeverPromotes(source)))
  }

  lemma CoverGrows(source: Task, cwd: bool)
    requires Covered(source, false)
    ensures Covered(source, cwd)
  {}

  lemma SafeRunsAreSound(w: World, source: Task, s: Surroundings, persist: bool)
    requires IdOk(source.id) && StoredTaskMatches(w, source) && SafeSource(source)
    ensures SoundRun(w, source, s, persist)
  {
    if RunLifecycle(w, source, s, persist).result.status == Success {
      PassedRunIsSoundIff(w, source, s, persist);
      SuccessWasWonFairly(w, source, s, persist);
      if Covered(source, false) {
        CoverGrows(source, Collider(source.id, s).cwdExists);
      } else if !IdsAreSeparate(source.id) {
        ManualSuccess(w, source, s.dispatch, s.nested);
        assert false;
      }
    }
  }

  lemma UnsafeRunExists(source: Task) returns (w: World, s: Surroundings)
    requires IdOk(source.id) && !SafeSource(source)
    ensures StoredTaskMatches(w, source) && !SoundRun(w, source, s, true)
  {
    s := Surroundings(QUIET, QUIET, QUIET, QUIET, QUIET);
    if source.route == Manual {
      w, s := ManualWorld(source), s.(dispatch := PRESENT);
      SeparateMeansNotCutOff(source.id);
      ManualCanPass(source);
    } else {
      w, s := EMPTY_WORLD, s.(dispatch := Proving(source));
      ProvingRunnerPasses(w, source);
    }
    CollisionsAreUnsound(w, source, s, true);
    PassingDispatchIsPromoted(w, source, s, true);
  }

  /**
   * Soundness of a source, before it is run: every run in which it succeeds, in every world
   * and surroundings, rests on a file that passes for it, exactly if its id is not its own
   * cut-off derived id, or it expects nothing but what every child records, or it is a
   * manual task that cannot succeed.
   */
  lemma AlwaysSoundIff(source: Task)
    requires IdOk(source.id)
    ensures AlwaysSound(source) <==> SafeSource(source)
  {
    if SafeSource(source) {
      forall w, s, persist | StoredTaskMatches(w, source) ensures SoundRun(w, source, s, persist) {
        SafeRunsAreSound(w, source, s, persist);
      }
    } else {
      var w, s := UnsafeRunExists(source);
    }
  }
}
