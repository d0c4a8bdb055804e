/**
 * The control state, its commands, and the validator of the persisted last run
 * (src/atlas/control-plane.ts), with the theorem that the operator lifecycle writes
 * states the validator accepts.
 */
module ControlPlane {
  import opened Common
  import opened Text
  import opened OperatorContracts
  import opened OperatorPipeline
  import opened OperatorSoundness

  datatype ControlMode = ActiveMode | PausedMode | StoppedMode

  /** The raw state file: any part may be missing. */
  datatype State = State(phaseNext: Option<string>, mode: string, nextLane: Option<string>, last: Option<LastRun>)

  datatype Control = Control(mode: ControlMode, nextLane: string)

  function Trimmed(s: Option<string>): string {
    if s.Some? then Trim(s.value) else ""
  }

  function GetControlState(s: State): Control {
    Control(
      if s.mode == "paused" then PausedMode else if s.mode == "stopped" then StoppedMode else ActiveMode,
      if Trimmed(s.nextLane) != "" then Trimmed(s.nextLane)
      else if Trimmed(s.phaseNext) != "" then Trimmed(s.phaseNext)
      else "pick next lane")
  }

  // ── Validation ────────────────────────────────────────────────────────

  datatype ControlIssue =
    | PhaseNextMissing | NextLaneMissing | LaneDrift
    | RunTokensMissing | RunTraceMissing
    | RetryWithoutAttempt | ChainMissingRetry | ChainWithoutRetry | WinningPathMissing
    | PromotedButFalse | PromotionTokensMissing | PromotionPathMissing | PromotionFileMissing
    | PromotionVerdictNotPassed
    | ChildPathsMissing | ChildMissing | LifecycleTokensMissing | SuccessOfFailedRun | SuccessWithoutPromotion

  function LaneIssues(s: State): seq<ControlIssue> {
    var next, lane := Trimmed(s.phaseNext), GetControlState(s).nextLane;
    When(next == "", PhaseNextMissing)
    + When(Trim(lane) == "", NextLaneMissing)
    + When(next != "" && lane != "" && next != lane, LaneDrift)
  }

  function BasicIssues(onDisk: Exists, run: LastRun): seq<ControlIssue> {
    When(run.proofTokens == [], RunTokensMissing)
    + When(Trim(run.tracePath) != "" && !onDisk(run.tracePath), RunTraceMissing)
  }

  function EvaluationIssues(evaluation: Option<Evaluation>): seq<ControlIssue> {
    if evaluation.None? || evaluation.value.attempts == [] then []
    else
      var e := evaluation.value;
      When(e.retryUsed == Some(true) && |e.attempts| < 2, RetryWithoutAttempt)
      + When(e.retryUsed == Some(true) && |e.resultChain| < 2, ChainMissingRetry)
      + When(e.retryUsed == Some(false) && |e.resultChain| > 1, ChainWithoutRetry)
      + When(e.finalVerdict == Some(Passed) && !Named(e.winningPath), WinningPathMissing)
  }

  function PromotionIssues(onDisk: Exists, promotion: Option<Promotion>): seq<ControlIssue> {
    if promotion.None? || promotion.value.status != Promoted then []
    else
      var p := promotion.value;
      When(!p.promoted, PromotedButFalse)
      + When(p.proofTokens == [], PromotionTokensMissing)
      + When(!Named(p.winningPath), PromotionPathMissing)
      + When(Named(p.winningPath) && !onDisk(p.winningPath.value), PromotionFileMissing)
      + When(p.finalVerdict != Some(Passed), PromotionVerdictNotPassed)
  }

  function MissingChildren(onDisk: Exists, paths: seq<string>): seq<ControlIssue> {
    if paths == [] then []
    else
      var n := |paths| - 1;
      MissingChildren(onDisk, paths[..n]) + When(!onDisk(paths[n]), ChildMissing)
  }

  function LifecycleIssues(onDisk: Exists, run: LastRun): seq<ControlIssue> {
    if run.lifecycle.None? then []
    else
      var l := run.lifecycle.value;
      (if l.childPaths == [] then [ChildPathsMissing] else MissingChildren(onDisk, l.childPaths))
      + When(l.proofTokens == [], LifecycleTokensMissing)
      + When(l.finalStatus == Success && run.status != Success, SuccessOfFailedRun)
      + When(l.finalStatus == Success
             && !(run.promotion.Some? && run.promotion.value.status == Promoted && run.promotion.value.promoted),
             SuccessWithoutPromotion)
  }

  function RunIssues(onDisk: Exists, run: LastRun): seq<ControlIssue> {
    BasicIssues(onDisk, run) + EvaluationIssues(run.evaluation) + PromotionIssues(onDisk, run.promotion)
    + LifecycleIssues(onDisk, run)
  }

  function Summarize(onDisk: Exists, s: State): seq<ControlIssue> {
    LaneIssues(s) + if s.last.Some? then RunIssues(onDisk, s.last.value) else []
  }

  method SummarizeValidation(onDisk: Exists, s: State) returns (passed: bool, issues: seq<ControlIssue>)
    ensures issues == Summarize(onDisk, s)
    ensures passed <==> issues == []
  {
    issues := CheckLanes(s);
    if s.last.Some? {
      var run := CheckRun(onDisk, s.last.value);
      issues := issues + run;
    }
    passed := issues == [];
  }

  method CheckLanes(s: State) returns (issues: seq<ControlIssue>)
    ensures issues == LaneIssues(s)
  {
    var next, lane := Trimmed(s.phaseNext), GetControlState(s).nextLane;
    issues := AddIssue([], next == "", PhaseNextMissing);
    issues := AddIssue(issues, Trim(lane) == "", NextLaneMissing);
    issues := AddIssue(issues, next != "" && lane != "" && next != lane, LaneDrift);
  }

  method CheckRun(onDisk: Exists, run: LastRun) returns (issues: seq<ControlIssue>)
    ensures issues == RunIssues(onDisk, run)
  {
    var basic := CheckBasics(onDisk, run);
    var evaluation := CheckEvaluation(run.evaluation);
    var promotion := CheckPromotion(onDisk, run.promotion);
    var children := CheckChildren(onDisk, run);
    issues := basic + evaluation + promotion + children;
  }

  method CheckBasics(onDisk: Exists, run: LastRun) returns (issues: seq<ControlIssue>)
    ensures issues == BasicIssues(onDisk, run)
  {
    issues := AddIssue([], run.proofTokens == [], RunTokensMissing);
    issues := AddIssue(issues, Trim(run.tracePath) != "" && !onDisk(run.tracePath), RunTraceMissing);
  }

  method CheckEvaluation(evaluation: Option<Evaluation>) returns (issues: seq<ControlIssue>)
    ensures issues == EvaluationIssues(evaluation)
  {
    if evaluation.None? || evaluation.value.attempts == [] {
      return [];
    }
    var e := evaluation.value;
    issues := AddIssue([], e.retryUsed == Some(true) && |e.attempts| < 2, RetryWithoutAttempt);
    issues := AddIssue(issues, e.retryUsed == Some(true) && |e.resultChain| < 2, ChainMissingRetry);
    issues := AddIssue(issues, e.retryUsed == Some(false) && |e.resultChain| > 1, ChainWithoutRetry);
    issues := AddIssue(issues, e.finalVerdict == Some(Passed) && !Named(e.winningPath), WinningPathMissing);
  }

  method CheckPromotion(onDisk: Exists, promotion: Option<Promotion>) returns (issues: seq<ControlIssue>)
    ensures issues == PromotionIssues(onDisk, promotion)
  {
    if promotion.None? || promotion.value.status != Promoted {
      return [];
    }
    var p := promotion.value;
    issues := AddIssue([], !p.promoted, PromotedButFalse);
    issues := AddIssue(issues, p.proofTokens == [], PromotionTokensMissing);
    issues := AddIssue(issues, !Named(p.winningPath), PromotionPathMissing);
    issues := AddIssue(issues, Named(p.winningPath) && !onDisk(p.winningPath.value), PromotionFileMissing);
    issues := AddIssue(issues, p.finalVerdict != Some(Passed), PromotionVerdictNotPassed);
  }

  method CheckChildren(onDisk: Exists, run: LastRun) returns (issues: seq<ControlIssue>)
    ensures issues == LifecycleIssues(onDisk, run)
  {
    if run.lifecycle.None? {
      return [];
    }
    var l := run.lifecycle.value;
    issues := [];
    if l.childPaths == [] {
      issues := [ChildPathsMissing];
    } else {
      var i := 0;
      while i < |l.childPaths|
        invariant 0 <= i <= |l.childPaths|
        invariant issues == MissingChildren(onDisk, l.childPaths[..i])
      {
        assert l.childPaths[..i + 1][..i] == l.childPaths[..i];
        if !onDisk(l.childPaths[i]) {
          issues := issues + [ChildMissing];
        }
        i := i + 1;
      }
      assert l.childPaths[..i] == l.childPaths;
    }
    issues := AddIssue(issues, l.proofTokens == [], LifecycleTokensMissing);
    issues := AddIssue(issues, l.finalStatus == Success && run.status != Success, SuccessOfFailedRun);
    issues := AddIssue(
      issues,
      l.finalStatus == Success
      && !(run.promotion.Some? && run.promotion.value.status == Promoted && run.promotion.value.promoted),
      SuccessWithoutPromotion);
  }

  // ── Commands ──────────────────────────────────────────────────────────

  datatype Command = Pause | Stop | Resume | Reroute(lane: Option<string>) | Validate

  /** The state after a command; a reroute without a lane changes nothing. */
  function NextControlState(s: State, c: Command): State {
    var current := GetControlState(s);
    var kept := s.(mode := ModeName(current.mode), nextLane := Some(current.nextLane));
    match c
    case Pause => kept.(mode := "paused")
    case Stop => kept.(mode := "stopped")
    case Resume => kept.(mode := "active")
    case Reroute(lane) =>
      if Trimmed(lane) == "" then s
      else kept.(nextLane := Some(Trimmed(lane)), phaseNext := Some(Trimmed(lane)))
    case Validate => kept
  }

  function ModeName(mode: ControlMode): string {
    match mode
    case ActiveMode => "active"
    case PausedMode => "paused"
    case StoppedMode => "stopped"
  }

  lemma {:induction false} TrimTwice(s: string)
    ensures Trim(Trim(s)) == Trim(s)
    decreases |s|
  {
    if s != "" && IsWhitespace(s[0]) {
      TrimTwice(s[1..]);
    } else if s != "" && IsWhitespace(s[|s| - 1]) {
      TrimTwice(s[..|s| - 1]);
    }
  }

  lemma LaneIsTrimmed(s: State)
    ensures var lane := GetControlState(s).nextLane; Trim(lane) == lane && lane != ""
  {
    TrimTwice(Trimmed(s.nextLane));
    TrimTwice(Trimmed(s.phaseNext));
    if s.nextLane.Some? {
      TrimTwice(s.nextLane.value);
    }
    if s.phaseNext.Some? {
      TrimTwice(s.phaseNext.value);
    }
    TrimmedAlready("pick next lane");
  }

  /** Commands never touch the last run; a reroute to a lane leaves no lane issue, and every
      other command leaves the lane issues as they were. */
  lemma CommandsKeepTheRun(s: State, c: Command)
    ensures NextControlState(s, c).last == s.last
    ensures LaneIssues(NextControlState(s, c)) ==
            if c.Reroute? && Trimmed(c.lane) != "" then [] else LaneIssues(s)
  {
    LaneIsTrimmed(s);
    LaneIsTrimmed(NextControlState(s, c));
    if c.Reroute? && c.lane.Some? {
      TrimTwice(c.lane.value);
    }
  }

  // ── The lifecycle satisfies the validator ─────────────────────────────

  lemma WellFormedIsClean(evaluation: Option<Evaluation>)
    requires evaluation.Some? ==> WellFormed(evaluation.value)
    ensures EvaluationIssues(evaluation) == []
  {
  }

  lemma SoundPromotionIsClean(onDisk: Exists, promotion: Option<Promotion>)
    requires promotion.Some? ==> PromotionSound(promotion.value)
    requires promotion.Some? && promotion.value.promoted ==> onDisk(promotion.value.winningPath.value)
    ensures PromotionIssues(onDisk, promotion) == []
  {
  }

  lemma {:induction false} PresentChildrenAreClean(onDisk: Exists, paths: seq<string>)
    requires forall p :: p in paths ==> onDisk(p)
    ensures MissingChildren(onDisk, paths) == []
  {
    if paths != [] {
      PresentChildrenAreClean(onDisk, paths[..|paths| - 1]);
    }
  }

  /** What the validator asks of a lifecycle record, files included. */
  predicate LifecycleSound(onDisk: Exists, r: RunResult) {
    && r.lifecycle.Some?
    && var l := r.lifecycle.value;
       && l.childPaths != [] && (forall p :: p in l.childPaths ==> onDisk(p))
       && l.proofTokens != []
       && l.finalStatus == r.status
       && (r.status == Success ==> r.promotion.Some? && r.promotion.value.promoted)
  }

  /** A result whose parts are sound, to be persisted at a path. */
  ghost predicate Persistable(w: World, r: RunResult, path: string, onDisk: Exists) {
    && (forall p :: p == path || OnDisk(w, p) ==> onDisk(p))
    && r.evidence != []
    && (r.evaluation.Some? ==> WellFormed(r.evaluation.value))
    && (r.promotion.Some? ==> PromotionSound(r.promotion.value))
    && (r.promotion.Some? && r.promotion.value.promoted ==> onDisk(r.promotion.value.winningPath.value))
    && LifecycleSound(onDisk, r)
  }

  lemma PersistedRunIsClean(w: World, r: RunResult, path: string, onDisk: Exists)
    requires Persistable(w, r, path, onDisk)
    ensures WriteTrace(w, r, Some(path), true).world.last.Some?
    ensures RunIssues(onDisk, WriteTrace(w, r, Some(path), true).world.last.value) == []
  {
    var d := WriteTrace(w, r, Some(path), true);
    var run := d.world.last.value;
    var written := w.(files := w.files[path := d.result]);
    PersistedParts(w, r, path);
    if r.promotion.None? {
      PromotedIff(DiskOf(written), r.evaluation, LastRunOf(d.result).proofTokens + Tokens(d.result.evidence), []);
    }
    WellFormedIsClean(run.evaluation);
    SoundPromotionIsClean(onDisk, run.promotion);
    PresentChildrenAreClean(onDisk, run.lifecycle.value.childPaths);
  }

  lemma PersistedParts(w: World, r: RunResult, path: string)
    ensures var d := WriteTrace(w, r, Some(path), true);
            && d.world.last.Some?
            && var run := d.world.last.value;
               && run.status == r.status && run.tracePath == path
               && run.evaluation == r.evaluation && run.lifecycle == r.lifecycle
               && (r.evidence != [] ==> run.proofTokens != [])
               && run.promotion == Some(
                    if r.promotion.Some? then r.promotion.value
                    else DecidePromotion(DiskOf(w.(files := w.files[path := d.result])), r.evaluation,
                                         LastRunOf(d.result).proofTokens + Tokens(d.result.evidence), []))
  {}

  lemma StoppedLifecycleIsSound(source: Task, dispatch: RunResult, onDisk: Exists)
    requires onDisk(PathOf(dispatch))
    ensures LifecycleSound(onDisk, StoppedLifecycle(source, dispatch))
  {
    var id := LifecycleId(source.id);
    LifecycleTokensExist([id + ".dispatch", id + ".trace"] + UniqueNonBlank(ResultTokens(dispatch)), id);
  }

  lemma FullLifecycleIsSound(source: Task, dispatch: RunResult, evaluation: RunResult, promotion: RunResult,
                             onDisk: Exists)
    requires onDisk(PathOf(dispatch)) && onDisk(PathOf(evaluation)) && onDisk(PathOf(promotion))
    ensures LifecycleSound(onDisk, FullLifecycle(source, dispatch, evaluation, promotion))
  {
    var id := LifecycleId(source.id);
    LifecycleTokensExist(
      [id + ".dispatch", id + ".evaluation", id + ".promotion", id + ".trace"]
      + UniqueNonBlank(ResultTokens(dispatch) + ResultTokens(evaluation) + ResultTokens(promotion)), id);
  }

  /** The persisting write of a lifecycle, after all its dispatches. */
  function FinalWorld(w: World, source: Task, s: Surroundings): World {
    if DispatchStage(w, source, s).result.status != Success then DispatchStage(w, source, s).world
    else PromotionStage(w, source, s).world
  }

  function FinalResult(w: World, source: Task, s: Surroundings): RunResult {
    if DispatchStage(w, source, s).result.status != Success then
      StoppedLifecycle(source, DispatchStage(w, source, s).result)
    else
      FullLifecycle(source, DispatchStage(w, source, s).result, EvaluationStage(w, source, s).result,
                    PromotionStage(w, source, s).result)
  }

  lemma LifecycleIsOneWrite(w: World, source: Task, s: Surroundings, persist: bool)
    ensures RunLifecycle(w, source, s, persist) ==
            WriteTrace(FinalWorld(w, source, s), FinalResult(w, source, s),
              Some(RunPath(source.id + ".lifecycle")), persist)
  {
  }

  lemma StagesArePersistable(w: World, source: Task, s: Surroundings, path: string, onDisk: Exists)
    requires IdOk(source.id)
    requires forall p :: p == path || OnDisk(FinalWorld(w, source, s), p) ==> onDisk(p)
    ensures Persistable(FinalWorld(w, source, s), FinalResult(w, source, s), path, onDisk)
  {
    var dispatch := DispatchStage(w, source, s);
    StagesInOrder(w, source, s);
    if dispatch.result.status != Success {
      StoppedLifecycleIsSound(source, dispatch.result, onDisk);
    } else {
      var evaluation, promotion := EvaluationStage(w, source, s), PromotionStage(w, source, s);
      EvaluationStageIsWellFormed(dispatch.world, source, s.evaluation, s.retry);
      PromotionStageOutcome(evaluation.world, source, s.promotion, s.retry);
      FullLifecycleIsSound(source, dispatch.result, evaluation.result, promotion.result, onDisk);
    }
  }

  lemma JustWrittenIsClean(w: World, source: Task, s: Surroundings)
    requires IdOk(source.id)
    ensures var d := RunLifecycle(w, source, s, true);
            d.world.last.Some? && RunIssues(DiskOf(d.world), d.world.last.value) == []
    ensures RunLifecycle(w, source, s, true).world.last.value.tracePath == RunPath(source.id + ".lifecycle")
  {
    var path := RunPath(source.id + ".lifecycle");
    var onDisk := DiskOf(RunLifecycle(w, source, s, true).world);
    LifecycleIsOneWrite(w, source, s, true);
    assert forall p :: p == path || OnDisk(FinalWorld(w, source, s), p) ==>
        OnDisk(WriteTrace(FinalWorld(w, source, s), FinalResult(w, source, s), Some(path), true).world, p);
    StagesArePersistable(w, source, s, path, onDisk);
    PersistedRunIsClean(FinalWorld(w, source, s), FinalResult(w, source, s), path, onDisk);
    PersistedParts(FinalWorld(w, source, s), FinalResult(w, source, s), path);
  }

  /** The files that a persisted run names are there: its trace, the winner of its promotion, its children. */
  predicate FilesPresent(onDisk: Exists, run: LastRun) {
    && onDisk(run.tracePath)
    && (run.promotion.Some? && run.promotion.value.status == Promoted && Named(run.promotion.value.winningPath) ==>
          onDisk(run.promotion.value.winningPath.value))
    && (run.lifecycle.Some? ==> forall p :: p in run.lifecycle.value.childPaths ==> onDisk(p))
  }

  lemma {:induction false} MissingChildrenIff(onDisk: Exists, paths: seq<string>)
    ensures MissingChildren(onDisk, paths) == [] <==> forall p :: p in paths ==> onDisk(p)
  {
    if paths != [] {
      var n := |paths| - 1;
      MissingChildrenIff(onDisk, paths[..n]);
      assert paths == paths[..n] + [paths[n]];
    }
  }

  /** A run that is clean on one disk is clean on another exactly if its files are there. */
  lemma CleanWhereItsFilesAre(before: Exists, onDisk: Exists, run: LastRun)
    requires RunIssues(before, run) == [] && Trim(run.tracePath) != ""
    ensures RunIssues(onDisk, run) == [] <==> FilesPresent(onDisk, run)
  {
    if run.lifecycle.Some? {
      MissingChildrenIff(before, run.lifecycle.value.childPaths);
      MissingChildrenIff(onDisk, run.lifecycle.value.childPaths);
    }
  }

  /** The producer satisfies its validator: the state a persisted lifecycle writes raises no
      issue from the run, evaluation, promotion or lifecycle checks on any disk, then or
      later, exactly if the trace, the winning file and the child files it names are there. */
  lemma LifecycleSatisfiesValidator(w: World, source: Task, s: Surroundings, onDisk: Exists)
    requires IdOk(source.id)
    ensures var last := RunLifecycle(w, source, s, true).world.last;
            last.Some? && (RunIssues(onDisk, last.value) == [] <==> FilesPresent(onDisk, last.value))
    ensures var d := RunLifecycle(w, source, s, true); FilesPresent(DiskOf(d.world), d.world.last.value)
  {
    var d := RunLifecycle(w, source, s, true);
    JustWrittenIsClean(w, source, s);
    var path := RunPath(source.id + ".lifecycle");
    assert path[0] == 'o';
    TrimKeepsInk(path, 0);
    CleanWhereItsFilesAre(DiskOf(d.world), onDisk, d.world.last.value);
    CleanWhereItsFilesAre(DiskOf(d.world), DiskOf(d.world), d.world.last.value);
  }
}
