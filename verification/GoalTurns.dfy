/**
 * How a turn of the plan loop ends (src/goal-runner/runner.ts:108-330): on a working disk,
 * what it reports and where it leaves its task, for everything it can meet.
 */
module GoalTurns {
  import opened Common
  import opened Text
  import opened HandContract
  import opened ExecContracts
  import opened ExecLedger
  import opened ExecApi
  import opened ExecSafety
  import opened ExecAnswers
  import ExecVerdicts
  import opened GoalRunner

  /** The turn ended in this report, and reads show its task in this status. */
  predicate EndsIn(o: Outcome<Report>, id: TaskId, report: string, status: Status) {
    && o.result == Ok(Report(id, report))
    && GetTask(o.st, id).Some? && GetTask(o.st, id).value.status == status
  }

  lemma MovingOn(m: Machine, st: State, task: Task, to: Status, ts: int)
    requires Standing(m.disk, st, task) && task.status in Predecessors(to) && !task.status.Escalated?
    requires to.Planned? || to.Escalated?
    ensures var o := Move(m, st, task.id, to, ts);
      && o.result.Ok? && Standing(m.disk, o.st, o.result.value) && o.result.value.id == task.id
      && o.result.value.status == to && o.result.value.evidence == task.evidence
      && o.result.value.title == task.title
  {
    assert !IsWhitespace(RUNNER[0]);
    MovingIs(m.disk, st, task, MoveInput(task.id, to, RUNNER, [], None, ts));
    assert WithCited(task, []) == task;
  }

  lemma Escalating(m: Machine, st: State, task: Task, report: string, ts: int)
    requires Standing(m.disk, st, task) && (task.status.Accepted? || task.status.Planned?)
    ensures EndsIn(Escalate(m, st, task.id, report, ts), task.id, report, Escalated)
  {
    MovingOn(m, st, task, Escalated, ts);
  }

  // ── The attempt ───────────────────────────────────────────────────────

  /** The receipt a hand left is taken for its task. */
  predicate Taken(m: Machine, task: Task, r: Receipt) {
    Submittable(m, task, r) && !IsBlank(r.submittedBy)
  }

  lemma HandedOver(m: Machine, st: State, task: Task, handId: string, ts: int)
    requires Standing(m.disk, st, task) && task.status.Planned?
    ensures var o := AssignHand(m.policy, m.disk, st, task.id, handId, RUNNER, false, ts);
      && (o.result.Ok? <==> m.policy.hands(handId).Some?) && (o.result.Err? ==> o.st == st)
      && (o.result.Ok? ==>
            && Standing(m.disk, o.st, o.result.value) && o.result.value.id == task.id
            && o.result.value.status.Delegated? && o.result.value.evidence == task.evidence
            && o.result.value.title == task.title && o.result.value.owner == "hand:" + handId)
  {
    assert !IsWhitespace(RUNNER[0]);
    AssigningIs(m, st, task, handId, RUNNER, false, ts);
  }

  lemma BlockedWithoutAnExecutor(m: Machine, st: State, task: Task, ts: int)
    requires Standing(m.disk, st, task) && task.status.Delegated?
    ensures var o := AbortHandTask(m.disk, st, task.id, RUNNER, "not implemented", ts);
      o.result.Ok? && GetTask(o.st, task.id).Some? && GetTask(o.st, task.id).value.status.Blocked?
  {
    assert !IsWhitespace(RUNNER[0]);
    AbortingIs(m.disk, st, task, RUNNER, "not implemented", ts);
  }

  /** The two looks taken after `st` find the receipt to hold. */
  predicate Holds(m: Machine, st: State, task: Task, r: Receipt) {
    && Verify(m.policy, m.env(st.ticks), r)
    && (m.policy.classifyRisk(task.title, HandActions(m.policy, task.owner)) == LowRisk
        || Verify(m.policy, m.env(st.ticks + 1), r))
  }

  lemma ASubmittedTaskIsReady(disk: Disk, st: State, task: Task, r: Receipt)
    requires Standing(disk, st, task) && task.status.EvidenceSubmitted? && ReceiptOk(r)
    requires LatestReceipt(task.evidence) == Some(EvidenceEntry(Digest(r), ToolReceipt, Some(Json(r))))
    ensures ExecVerdicts.Ready(disk, st, task)
    ensures ExecVerdicts.Submitted(st, task.id, EvidenceEntry(Digest(r), ToolReceipt, Some(Json(r))), r)
  {}

  /** A task submitted with this receipt is verified exactly if it holds. */
  lemma JudgingIs(m: Machine, st: State, task: Task, r: Receipt, ts: int)
    requires Standing(m.disk, st, task) && task.status.EvidenceSubmitted? && ReceiptOk(r)
    requires LatestReceipt(task.evidence) == Some(EvidenceEntry(Digest(r), ToolReceipt, Some(Json(r))))
    ensures var o := VerifyAndTransition(m.policy, m.env, m.disk, st, task.id, RUNNER, ts);
      && o.result.Ok? && o.result.value.status == (if Holds(m, st, task, r) then Verified else Rejected)
      && GetTask(o.st, task.id) == Some(o.result.value)
  {
    ASubmittedTaskIsReady(m.disk, st, task, r);
    HoldingIs(m, st, task, r);
    assert !IsWhitespace(RUNNER[0]);
    ExecVerdicts.ReadyTasksGetTheirVerdict(
      m, st, task, EvidenceEntry(Digest(r), ToolReceipt, Some(Json(r))), r, RUNNER, ts);
  }

  lemma HoldingIs(m: Machine, st: State, task: Task, r: Receipt)
    ensures Holds(m, st, task, r) <==> ExecVerdicts.AcceptedTwice(m, st, task, r)
  {}

  /** The state in which the hand's receipt is judged. */
  function BeforeJudging(m: Machine, st: State, id: TaskId, r: Receipt, ts: int): State {
    SubmitReceipt(m.policy, m.disk, st, id, r, ts).st
  }

  /** The end of an attempt whose hand left a receipt. */
  function Settled(m: Machine, st: State, id: TaskId, r: Receipt, ts: int): Outcome<Report> {
    var submitted := SubmitReceipt(m.policy, m.disk, st, id, r, ts);
    if submitted.result.Err? then Outcome(submitted.st, Ok(Report(id, "failed")))
    else
      var judged := VerifyAndTransition(m.policy, m.env, m.disk, submitted.st, id, RUNNER, ts);
      Outcome(judged.st,
              Ok(if judged.result.Err? then Report(id, "failed")
                 else Report(id, if judged.result.value.status.Verified? then "verified" else "rejected")))
  }

  lemma ATakenReceiptSettles(m: Machine, st: State, task: Task, r: Receipt, ts: int)
    requires Standing(m.disk, st, task) && task.status.Delegated? && Taken(m, task, r)
    ensures var holds := Holds(m, BeforeJudging(m, st, task.id, r, ts), task, r);
      EndsIn(Settled(m, st, task.id, r, ts), task.id,
             if holds then "verified" else "rejected", if holds then Verified else Rejected)
  {
    SubmittingIs(m, st, task, r, ts);
    var submitted := SubmitReceipt(m.policy, m.disk, st, task.id, r, ts);
    JudgingIs(m, submitted.st, submitted.result.value, r, ts);
    assert Holds(m, submitted.st, submitted.result.value, r) == Holds(m, submitted.st, task, r);
  }

  /** A receipt that is malformed, of another task or leaks a secret fails the attempt. */
  lemma ARefusedReceiptFails(m: Machine, st: State, task: Task, r: Receipt, ts: int)
    requires Standing(m.disk, st, task) && (!ReceiptOk(r) || r.taskId != task.id || Leaks(m.policy, r))
    ensures EndsIn(Settled(m, st, task.id, r, ts), task.id, "failed", task.status)
  {
    ReceiptsThatAreRefused(m, st, task.id, r, ts);
  }

  /** What an attempt reports and where it leaves the planned task. */
  lemma TheAttemptEnds(m: Machine, st: State, task: Task, plan: Plan, moment: Moment)
    requires Standing(m.disk, st, task) && task.status.Planned?
    ensures var o := Attempt(m, st, task.id, plan, moment);
      && (m.policy.hands(plan.handId).None? ==> EndsIn(o, task.id, "failed", Planned))
      && (m.policy.hands(plan.handId).Some? ==>
            match moment.execution
            case Threw => EndsIn(o, task.id, "failed", Delegated)
            case NotImplemented => EndsIn(o, task.id, "blocked", Blocked)
            case Submitted(_) => true)
  {
    HandedOver(m, st, task, plan.handId, moment.ts);
    var handed := AssignHand(m.policy, m.disk, st, task.id, plan.handId, RUNNER, false, moment.ts);
    if handed.result.Ok? {
      BlockedWithoutAnExecutor(m, handed.st, handed.result.value, moment.ts);
    }
  }

  lemma AnAttemptWithAReceipt(m: Machine, st: State, id: TaskId, plan: Plan, moment: Moment)
    requires moment.execution.Submitted?
    ensures var handed := AssignHand(m.policy, m.disk, st, id, plan.handId, RUNNER, false, moment.ts);
      handed.result.Ok? ==>
        Attempt(m, st, id, plan, moment) == Settled(m, handed.st, id, moment.execution.receipt, moment.ts)
  {}

  /** With a registered hand that left a receipt: verified or rejected as it holds, or failed if refused. */
  lemma TheReceiptDecides(m: Machine, st: State, task: Task, plan: Plan, moment: Moment)
    requires Standing(m.disk, st, task) && task.status.Planned? && m.policy.hands(plan.handId).Some?
    requires moment.execution.Submitted?
    ensures var o, r := Attempt(m, st, task.id, plan, moment), moment.execution.receipt;
      var handed := AssignHand(m.policy, m.disk, st, task.id, plan.handId, RUNNER, false, moment.ts);
      && handed.result.Ok?
      && (!ReceiptOk(r) || r.taskId != task.id || Leaks(m.policy, r) ==> EndsIn(o, task.id, "failed", Delegated))
      && (Taken(m, handed.result.value, r) ==>
            var holds := Holds(m, BeforeJudging(m, handed.st, task.id, r, moment.ts), handed.result.value, r);
            EndsIn(o, task.id, if holds then "verified" else "rejected", if holds then Verified else Rejected))
  {
    var r := moment.execution.receipt;
    HandedOver(m, st, task, plan.handId, moment.ts);
    var handed := AssignHand(m.policy, m.disk, st, task.id, plan.handId, RUNNER, false, moment.ts);
    AnAttemptWithAReceipt(m, st, task.id, plan, moment);
    if !ReceiptOk(r) || r.taskId != task.id || Leaks(m.policy, r) {
      ARefusedReceiptFails(m, handed.st, handed.result.value, r, moment.ts);
    }
    if Taken(m, handed.result.value, r) {
      ATakenReceiptSettles(m, handed.st, handed.result.value, r, moment.ts);
    }
  }

  // ── The turn ──────────────────────────────────────────────────────────

  /** What stops a turn before its attempt, with the report that gives: paused control first,
      then a red line or an outside target, then the budget, then a repeated attempt. */
  function StopReport(moment: Moment): Option<string> {
    if moment.paused then Some("blocked")
    else if moment.redLine || moment.externalTarget then Some("escalated")
    else if !moment.budgetAllows then Some("budget-exceeded")
    else if moment.repeated then Some("blocked")
    else None
  }

  /** A stopped turn escalates its task and attempts nothing. */
  lemma StoppedTurnsEscalate(m: Machine, st: State, task: Task, plan: Plan, moment: Moment)
    requires Standing(m.disk, st, task) && task.status.Accepted? && StopReport(moment).Some?
    ensures EndsIn(Proceed(m, st, task.id, plan, moment), task.id, StopReport(moment).value, Escalated)
  {
    if moment.paused || moment.redLine || moment.externalTarget {
      Escalating(m, st, task, StopReport(moment).value, moment.ts);
    } else {
      MovingOn(m, st, task, Planned, moment.ts);
      var planned := Move(m, st, task.id, Planned, moment.ts);
      Escalating(m, planned.st, planned.result.value, StopReport(moment).value, moment.ts);
    }
  }

  /** Any other turn plans its task and ends as the attempt does. */
  lemma OtherTurnsAttempt(m: Machine, st: State, task: Task, plan: Plan, moment: Moment)
    requires Standing(m.disk, st, task) && task.status.Accepted? && StopReport(moment).None?
    ensures var planned := Move(m, st, task.id, Planned, moment.ts);
      && planned.result.Ok? && Standing(m.disk, planned.st, planned.result.value)
      && planned.result.value.id == task.id && planned.result.value.status.Planned?
      && Proceed(m, st, task.id, plan, moment) == Attempt(m, planned.st, task.id, plan, moment)
  {
    MovingOn(m, st, task, Planned, moment.ts);
  }

  /**
   * How a turn that gets its task ends.  Stopped, it escalates the task; with no hand of that
   * name it fails and leaves it planned; if the hand threw it fails and leaves it delegated;
   * without an executor it is blocked.  (What a receipt decides is `TheReceiptDecides`.)
   */
  lemma TheTurnEnds(m: Machine, st: State, goalId: string, plan: Plan, moment: Moment)
    requires Reliable(m.disk) && Inv(m, st) && Valid(goalId, plan) && !RunnerTaskStarted(ReadGraph(st))
    ensures var o := RunPlan(m, st, goalId, plan, moment);
      && o.result.Ok?
      && var id := o.result.value.taskId;
         var known := m.policy.hands(plan.handId).Some?;
         if StopReport(moment).Some? then EndsIn(o, id, StopReport(moment).value, Escalated)
         else if !known then EndsIn(o, id, "failed", Planned)
         else if moment.execution.Threw? then EndsIn(o, id, "failed", Delegated)
         else if moment.execution.NotImplemented? then EndsIn(o, id, "blocked", Blocked)
         else o.result.value.finalStatus in {"failed", "verified", "rejected"}
  {
    StartSucceedsIff(m, st, goalId, plan, RiskAt(moment), moment.ts);
    var started := StartTask(m, st, goalId, plan, RiskAt(moment), moment.ts);
    var id := started.result.value.id;
    ShownTasksStand(m, started.st, id);
    ProceedingEnds(m, started.st, GetTask(started.st, id).value, plan, moment);
  }

  lemma ProceedingEnds(m: Machine, st: State, task: Task, plan: Plan, moment: Moment)
    requires Standing(m.disk, st, task) && task.status.Accepted?
    ensures var o := Proceed(m, st, task.id, plan, moment);
      && o.result.Ok? && o.result.value.taskId == task.id
      && var id := task.id;
         if StopReport(moment).Some? then EndsIn(o, id, StopReport(moment).value, Escalated)
         else if m.policy.hands(plan.handId).None? then EndsIn(o, id, "failed", Planned)
         else if moment.execution.Threw? then EndsIn(o, id, "failed", Delegated)
         else if moment.execution.NotImplemented? then EndsIn(o, id, "blocked", Blocked)
         else o.result.value.finalStatus in {"failed", "verified", "rejected"}
  {
    if StopReport(moment).Some? {
      StoppedTurnsEscalate(m, st, task, plan, moment);
    } else {
      OtherTurnsAttempt(m, st, task, plan, moment);
      var planned := Move(m, st, task.id, Planned, moment.ts);
      TheAttemptEnds(m, planned.st, planned.result.value, plan, moment);
      AttemptsReportOneOf(m, planned.st, task.id, plan, moment);
    }
  }

  lemma AttemptsReportOneOf(m: Machine, st: State, id: TaskId, plan: Plan, moment: Moment)
    ensures var o := Attempt(m, st, id, plan, moment);
      && o.result.Ok? && o.result.value.taskId == id
      && (moment.execution.Submitted? ==> o.result.value.finalStatus in {"failed", "verified", "rejected"})
  {}

  /** The task a turn creates is that of its plan; it is irreversible exactly if a red line stops the turn. */
  lemma TheTaskOfATurn(m: Machine, st: State, goalId: string, plan: Plan, moment: Moment)
    ensures var created := CreateTask(m.disk, st, RunnerInput(goalId, plan, RiskAt(moment), moment.ts));
      created.result.Ok? && created.result.value.created ==>
        var task := created.result.value.task;
        && task.title == plan.title && task.goalId == goalId && task.owner == "atlas"
        && task.idempotencyKey == "exec-graph:goal-runner"
        && (task.riskClass == Irreversible <==> StopReport(moment) == Some("escalated"))
        && (task.riskClass == Low <==> StopReport(moment) != Some("escalated"))
  {
    NewTasksAre(m.disk, st, RunnerInput(goalId, plan, RiskAt(moment), moment.ts));
  }

  /** A stop that cannot be recorded, on whatever disk, leaves the loop with an error, and nothing is written. */
  lemma AStopOutOfPlaceLeavesTheLoop(m: Machine, st: State, id: TaskId, report: string, ts: int)
    requires GetTask(st, id).Some? ==> GetTask(st, id).value.status !in Predecessors(Escalated)
    ensures Escalate(m, st, id, report, ts)
         == Outcome(st, Err(if GetTask(st, id).None? then UnknownTask else IllegalTransition))
  {
    assert !IsWhitespace(RUNNER[0]);
    if GetTask(st, id).Some? {
      EdgesBothWays(GetTask(st, id).value.status, Escalated);
    }
  }

  /** A goal that is not well formed, and not there yet, is not run, whatever its plans. */
  lemma AMalformedGoalIsNotRun(m: Machine, st: State, goal: Goal, work: seq<Work>)
    requires goal.id !in ReadGraph(st).goals
    requires !GoalIdOk(goal.id) || goal.title == "" || goal.source.ref == ""
    ensures var o := RunNewGoal(m, st, goal, work); o.result.Err? && o.st == st
  {
    CreatingAGoalIs(m.disk, st, goal, RUNNER);
    assert CreateGoal(m.disk, st, goal, RUNNER).st == st;
  }
}
