/**
 * What control commands come to (src/atlas/control-plane.ts:112-132, 333-444): the mode and
 * lane after any run of commands, what the mode lets through, and when the validator is
 * content with the persisted last run (src/atlas/control-plane.ts:227-327).
 */
module ControlAnswers {
  import opened Common
  import opened Text
  import opened OperatorContracts
  import opened OperatorPipeline
  import opened OperatorGates
  import opened ControlPlane

  // ── Runs of commands ──────────────────────────────────────────────────

  function Run(s: ControlPlane.State, commands: seq<Command>): ControlPlane.State {
    if commands == [] then s
    else NextControlState(Run(s, commands[..|commands| - 1]), commands[|commands| - 1])
  }

  predicate SetsMode(c: Command) {
    c.Pause? || c.Stop? || c.Resume?
  }

  predicate SetsLane(c: Command) {
    c.Reroute? && c.lane.Some? && Trim(c.lane.value) != ""
  }

  /** The last command that sets the mode is number `i`. */
  predicate LastMode(commands: seq<Command>, i: nat) {
    i < |commands| && SetsMode(commands[i]) && forall k :: i < k < |commands| ==> !SetsMode(commands[k])
  }

  predicate LastLane(commands: seq<Command>, i: nat) {
    i < |commands| && SetsLane(commands[i]) && forall k :: i < k < |commands| ==> !SetsLane(commands[k])
  }

  lemma OneCommand(s: ControlPlane.State, c: Command)
    ensures var was, now := GetControlState(s), GetControlState(NextControlState(s, c));
      && now.mode == (match c
           case Pause => PausedMode case Stop => StoppedMode case Resume => ActiveMode case _ => was.mode)
      && now.nextLane == (if SetsLane(c) then Trim(c.lane.value) else was.nextLane)
      && (SetsLane(c) ==> NextControlState(s, c).phaseNext == Some(Trim(c.lane.value)))
      && (!SetsLane(c) ==> NextControlState(s, c).phaseNext == s.phaseNext)
  {
    LaneIsTrimmed(s);
    if SetsLane(c) {
      TrimTwice(c.lane.value);
    }
  }

  function ModeSet(c: Command): ControlMode {
    match c case Pause => PausedMode case Stop => StoppedMode case _ => ActiveMode
  }

  /** The mode is that of the last pause, stop or resume; without any it stays. */
  lemma {:induction false} TheLastCommandSetsTheMode(s: ControlPlane.State, commands: seq<Command>, i: nat)
    requires LastMode(commands, i)
    ensures var mode := GetControlState(Run(s, commands)).mode;
      mode == ModeSet(commands[i])
  {
    var n := |commands| - 1;
    OneCommand(Run(s, commands[..n]), commands[n]);
    if i < n {
      TheLastCommandSetsTheMode(s, commands[..n], i);
    }
  }

  lemma {:induction false} WithoutOneTheModeStays(s: ControlPlane.State, commands: seq<Command>)
    requires forall k :: 0 <= k < |commands| ==> !SetsMode(commands[k])
    ensures GetControlState(Run(s, commands)).mode == GetControlState(s).mode
  {
    if commands != [] {
      var n := |commands| - 1;
      OneCommand(Run(s, commands[..n]), commands[n]);
      WithoutOneTheModeStays(s, commands[..n]);
    }
  }

  /** State `s` is on this lane, next phase included, with no lane issue. */
  predicate OnLane(s: ControlPlane.State, lane: string) {
    GetControlState(s).nextLane == lane && s.phaseNext == Some(lane) && LaneIssues(s) == []
  }

  lemma ARerouteSetsTheLane(s: ControlPlane.State, c: Command)
    requires SetsLane(c)
    ensures OnLane(NextControlState(s, c), Trim(c.lane.value))
  {
    OneCommand(s, c);
    CommandsKeepTheRun(s, c);
  }

  lemma OthersKeepTheLane(s: ControlPlane.State, c: Command, lane: string)
    requires OnLane(s, lane) && !SetsLane(c)
    ensures OnLane(NextControlState(s, c), lane)
  {
    OneCommand(s, c);
    CommandsKeepTheRun(s, c);
  }

  /** The lane, and the next phase with it, is that of the last reroute that names one. */
  lemma {:induction false} TheLastRerouteSetsTheLane(s: ControlPlane.State, commands: seq<Command>, i: nat)
    requires LastLane(commands, i)
    ensures OnLane(Run(s, commands), Trim(commands[i].lane.value))
  {
    var n := |commands| - 1;
    if i < n {
      TheLastRerouteSetsTheLane(s, commands[..n], i);
      OthersKeepTheLane(Run(s, commands[..n]), commands[n], Trim(commands[i].lane.value));
    } else {
      ARerouteSetsTheLane(Run(s, commands[..n]), commands[n]);
    }
  }

  lemma {:induction false} WithoutOneTheLaneStays(s: ControlPlane.State, commands: seq<Command>)
    requires forall k :: 0 <= k < |commands| ==> !SetsLane(commands[k])
    ensures var end := Run(s, commands);
      && GetControlState(end).nextLane == GetControlState(s).nextLane && end.phaseNext == s.phaseNext
      && end.last == s.last && LaneIssues(end) == LaneIssues(s)
  {
    if commands != [] {
      var n := |commands| - 1;
      OneCommand(Run(s, commands[..n]), commands[n]);
      CommandsKeepTheRun(Run(s, commands[..n]), commands[n]);
      WithoutOneTheLaneStays(s, commands[..n]);
    }
  }

  /** What a state file says: paused and stopped by those names, else active; the lane asked
      for, else the next phase. */
  lemma WhatAStateSays(s: ControlPlane.State)
    ensures var control := GetControlState(s);
      && (control.mode == PausedMode <==> s.mode == "paused")
      && (control.mode == StoppedMode <==> s.mode == "stopped")
      && (s.nextLane.Some? && Trim(s.nextLane.value) != "" ==> control.nextLane == Trim(s.nextLane.value))
      && ((s.nextLane.Some? ==> Trim(s.nextLane.value) == "") && s.phaseNext.Some? && Trim(s.phaseNext.value) != "" ==>
            control.nextLane == Trim(s.phaseNext.value))
  {}

  // ── What control lets through ─────────────────────────────────────────

  /** The gate a dispatch finds under this control state. */
  predicate AllowsModelCalls(s: ControlPlane.State) {
    GetControlState(s).mode == ActiveMode
  }

  /** After a pause or stop, and until a resume, every dispatch is blocked. */
  lemma NothingIsDispatchedUntilResumed(
    s: ControlPlane.State, commands: seq<Command>, i: nat, w: World, task: Task, step: Step, retry: Step)
    requires LastMode(commands, i) && !commands[i].Resume?
    requires step.active == AllowsModelCalls(Run(s, commands))
    ensures Dispatch(w, task, step, retry).result.status == BlockedStatus
  {
    TheLastCommandSetsTheMode(s, commands, i);
    AClosedGateBlocks(w, task, step, retry);
  }

  /** After a resume, a task of any other route ends as its runner does, if its paths are there. */
  lemma EverythingIsDispatchedOnceResumed(
    s: ControlPlane.State, commands: seq<Command>, i: nat, w: World, task: Task, step: Step, retry: Step)
    requires LastMode(commands, i) && commands[i].Resume? && task.route != Manual && !step.pathsMissing
    requires step.active == AllowsModelCalls(Run(s, commands))
    ensures Dispatch(w, task, step, retry).result.status == step.status
  {
    TheLastCommandSetsTheMode(s, commands, i);
    AnOpenGateRuns(w, task, step, retry);
  }

  // ── The validator ─────────────────────────────────────────────────────

  predicate LaneIsSet(s: ControlPlane.State) {
    && s.phaseNext.Some? && Trim(s.phaseNext.value) != ""
    && (s.nextLane.Some? ==> Trim(s.nextLane.value) == "" || Trim(s.nextLane.value) == Trim(s.phaseNext.value))
  }

  /** The lane is in order exactly if there is a next phase and no other lane is named. */
  lemma LaneIsInOrderIff(s: ControlPlane.State)
    ensures LaneIssues(s) == [] <==> LaneIsSet(s)
  {
    LaneIsTrimmed(s);
  }

  /** The attempts recorded agree with whether there was a retry, and a passed verdict names its file. */
  predicate EvaluationInOrder(e: Evaluation) {
    || |e.attempts| == 0
    || (&& (e.retryUsed == Some(true) ==> |e.attempts| >= 2 && |e.resultChain| >= 2)
        && (e.retryUsed == Some(false) ==> |e.resultChain| <= 1)
        && (e.finalVerdict == Some(Passed) ==> e.winningPath.Some? && e.winningPath.value != ""))
  }

  predicate PromotionInOrder(onDisk: Exists, p: Promotion) {
    p.status == Promoted ==>
      && p.promoted && |p.proofTokens| > 0 && p.finalVerdict == Some(Passed)
      && p.winningPath.Some? && p.winningPath.value != "" && onDisk(p.winningPath.value)
  }

  predicate LifecycleInOrder(onDisk: Exists, run: LastRun, l: Lifecycle) {
    && |l.childPaths| > 0 && (forall path :: path in l.childPaths ==> onDisk(path)) && |l.proofTokens| > 0
    && (l.finalStatus == Success ==>
          && run.status == Success && run.promotion.Some?
          && run.promotion.value.status == Promoted && run.promotion.value.promoted)
  }

  lemma {:induction false} NoChildMissesIff(onDisk: Exists, paths: seq<string>)
    ensures MissingChildren(onDisk, paths) == [] <==> forall path :: path in paths ==> onDisk(path)
  {
    if paths != [] {
      var n := |paths| - 1;
      NoChildMissesIff(onDisk, paths[..n]);
      assert paths == paths[..n] + [paths[n]];
    }
  }

  lemma LifecycleInOrderIff(onDisk: Exists, run: LastRun)
    requires run.lifecycle.Some?
    ensures LifecycleIssues(onDisk, run) == [] <==> LifecycleInOrder(onDisk, run, run.lifecycle.value)
  {
    NoChildMissesIff(onDisk, run.lifecycle.value.childPaths);
  }

  predicate BasicsInOrder(onDisk: Exists, run: LastRun) {
    |run.proofTokens| > 0 && (Trim(run.tracePath) != "" ==> onDisk(run.tracePath))
  }

  lemma BasicsInOrderIff(onDisk: Exists, run: LastRun)
    ensures BasicIssues(onDisk, run) == [] <==> BasicsInOrder(onDisk, run)
  {}

  lemma EvaluationInOrderIff(e: Evaluation)
    ensures EvaluationIssues(Some(e)) == [] <==> EvaluationInOrder(e)
    ensures EvaluationIssues(None) == []
  {}

  lemma PromotionInOrderIff(onDisk: Exists, p: Promotion)
    ensures PromotionIssues(onDisk, Some(p)) == [] <==> PromotionInOrder(onDisk, p)
    ensures PromotionIssues(onDisk, None) == []
  {}

  /** What the last run is checked for: trace and tokens, evaluation, promotion and lifecycle. */
  predicate RunInOrder(onDisk: Exists, run: LastRun) {
    && BasicsInOrder(onDisk, run)
    && (run.evaluation.Some? ==> EvaluationInOrder(run.evaluation.value))
    && (run.promotion.Some? ==> PromotionInOrder(onDisk, run.promotion.value))
    && (run.lifecycle.Some? ==> LifecycleInOrder(onDisk, run, run.lifecycle.value))
  }

  lemma RunInOrderIff(onDisk: Exists, run: LastRun)
    ensures RunIssues(onDisk, run) == [] <==> RunInOrder(onDisk, run)
  {
    BasicsInOrderIff(onDisk, run);
    if run.evaluation.Some? {
      EvaluationInOrderIff(run.evaluation.value);
    }
    if run.promotion.Some? {
      PromotionInOrderIff(onDisk, run.promotion.value);
    }
    if run.lifecycle.Some? {
      LifecycleInOrderIff(onDisk, run);
    }
    NothingAtAll(BasicIssues(onDisk, run), EvaluationIssues(run.evaluation),
                 PromotionIssues(onDisk, run.promotion), LifecycleIssues(onDisk, run));
  }

  lemma NothingAtAll(a: seq<ControlIssue>, b: seq<ControlIssue>, c: seq<ControlIssue>, d: seq<ControlIssue>)
    ensures a + b + c + d == [] <==> a == [] && b == [] && c == [] && d == []
  {
    assert |a + b + c + d| == |a| + |b| + |c| + |d|;
  }

  /** The validator passes exactly if the lane and the last run, if there is one, are in order. */
  lemma ValidIff(onDisk: Exists, s: ControlPlane.State)
    ensures Summarize(onDisk, s) == [] <==> LaneIsSet(s) && (s.last.Some? ==> RunInOrder(onDisk, s.last.value))
  {
    LaneIsInOrderIff(s);
    if s.last.Some? {
      RunInOrderIff(onDisk, s.last.value);
      assert |Summarize(onDisk, s)| == |LaneIssues(s)| + |RunIssues(onDisk, s.last.value)|;
    } else {
      assert Summarize(onDisk, s) == LaneIssues(s);
    }
  }
}
