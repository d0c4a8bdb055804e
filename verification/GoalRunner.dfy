/**
 * The plan loop of the goal runner (src/goal-runner/runner.ts) over the execution graph.
 *
 * The runner creates every task with one and the same source and no idempotency key, so
 * the graph's reconciliation gives all its plans, of every goal, a single task.  This
 * module proves what follows: exactly when a plan can start, a turn succeeds and a whole
 * goal run completes.
 */
module GoalRunner {
  import opened Common
  import opened Text
  import opened HandContract
  import opened ExecContracts
  import opened ExecLedger
  import opened ExecApi
  import opened ExecSafety
  import opened ExecReconciliation
  import ExecGraph

  const RUNNER := "goal-runner"
  const RUNNER_SOURCE := SourceRef(ExecGraphSource, RUNNER)

  datatype Plan = Plan(title: string, handId: string)

  /** How the hand's work ends: an exception, no executor for this hand, or a receipt. */
  datatype Execution = Threw | NotImplemented | Submitted(receipt: Receipt)

  /** What the runner meets while it handles one plan. */
  datatype Moment = Moment(
    paused: bool,
    redLine: bool,
    externalTarget: bool,
    budgetAllows: bool,
    repeated: bool,
    execution: Execution,
    ts: int
  )

  datatype Work = Work(plan: Plan, moment: Moment)

  type Step = (State, Work) -> Outcome<Report>

  datatype Report = Report(taskId: TaskId, finalStatus: string)

  function RunnerInput(goalId: string, plan: Plan, risk: RiskClass, ts: int): TaskInput {
    TaskInput(goalId, plan.title, "atlas", risk, RUNNER_SOURCE, None, RUNNER, ts)
  }

  function Move(m: Machine, st: State, id: TaskId, to: Status, ts: int): Outcome<Task> {
    MoveTask(m.disk, st, MoveInput(id, to, RUNNER, [], None, ts))
  }

  /** Create the plan's task and accept it: the first two calls of every branch. */
  function StartTask(m: Machine, st: State, goalId: string, plan: Plan, risk: RiskClass, ts: int): Outcome<Task> {
    var created := CreateTask(m.disk, st, RunnerInput(goalId, plan, risk, ts));
    if created.result.Err? then Outcome(created.st, Err(created.result.error))
    else Move(m, created.st, created.result.value.task.id, Accepted, ts)
  }

  function Escalate(m: Machine, st: State, id: TaskId, status: string, ts: int): Outcome<Report> {
    var escalated := Move(m, st, id, Escalated, ts);
    if escalated.result.Err? then Outcome(escalated.st, Err(escalated.result.error))
    else Outcome(escalated.st, Ok(Report(id, status)))
  }

  /** The attempt proper; its errors are caught and reported. */
  function Attempt(m: Machine, st: State, id: TaskId, plan: Plan, moment: Moment): Outcome<Report> {
    var failed := Report(id, "failed");
    var handed := AssignHand(m.policy, m.disk, st, id, plan.handId, RUNNER, false, moment.ts);
    if handed.result.Err? then Outcome(handed.st, Ok(failed))
    else match moment.execution
      case Threw => Outcome(handed.st, Ok(failed))
      case NotImplemented =>
        var aborted := AbortHandTask(m.disk, handed.st, id, RUNNER, "not implemented", moment.ts);
        Outcome(aborted.st, Ok(if aborted.result.Err? then failed else Report(id, "blocked")))
      case Submitted(receipt) =>
        var submitted := SubmitReceipt(m.policy, m.disk, handed.st, id, receipt, moment.ts);
        if submitted.result.Err? then Outcome(submitted.st, Ok(failed))
        else
          var judged := VerifyAndTransition(m.policy, m.env, m.disk, submitted.st, id, RUNNER, moment.ts);
          Outcome(judged.st,
                  Ok(if judged.result.Err? then failed
                     else Report(id, if judged.result.value.status.Verified? then "verified" else "rejected")))
  }

  /** The risk class the branch taken gives to the plan's task. */
  function RiskAt(moment: Moment): RiskClass {
    if !moment.paused && (moment.redLine || moment.externalTarget) then Irreversible else Low
  }

  /** Plan the accepted task, then budget, circuit breaker and attempt. */
  function WorkOn(m: Machine, st: State, id: TaskId, plan: Plan, moment: Moment): Outcome<Report> {
    var planned := Move(m, st, id, Planned, moment.ts);
    if planned.result.Err? then Outcome(planned.st, Err(planned.result.error))
    else if !moment.budgetAllows then Escalate(m, planned.st, id, "budget-exceeded", moment.ts)
    else if moment.repeated then Escalate(m, planned.st, id, "blocked", moment.ts)
    else Attempt(m, planned.st, id, plan, moment)
  }

  /** What a turn does with its accepted task. */
  function Proceed(m: Machine, st: State, id: TaskId, plan: Plan, moment: Moment): Outcome<Report> {
    if moment.paused then Escalate(m, st, id, "blocked", moment.ts)
    else if moment.redLine || moment.externalTarget then Escalate(m, st, id, "escalated", moment.ts)
    else WorkOn(m, st, id, plan, moment)
  }

  /** One turn of the plan loop of a goal that is not resumed. */
  function RunPlan(m: Machine, st: State, goalId: string, plan: Plan, moment: Moment): Outcome<Report> {
    var started := StartTask(m, st, goalId, plan, RiskAt(moment), moment.ts);
    if started.result.Err? then Outcome(started.st, Err(started.result.error))
    else Proceed(m, started.st, started.result.value.id, plan, moment)
  }

  /** A loop over work items: a report for each, or the error that leaves it. */
  function Loop(step: Step, st: State, work: seq<Work>): Outcome<seq<Report>>
    decreases |work|
  {
    if work == [] then Outcome(st, Ok([]))
    else
      var turn := step(st, work[0]);
      if turn.result.Err? then Outcome(turn.st, Err(turn.result.error))
      else Prepend([turn.result.value], Loop(step, turn.st, work[1..]))
  }

  function Prepend(reports: seq<Report>, rest: Outcome<seq<Report>>): Outcome<seq<Report>> {
    if rest.result.Err? then rest else Outcome(rest.st, Ok(reports + rest.result.value))
  }

  function Turn(m: Machine, goalId: string): Step {
    (st, item: Work) => RunPlan(m, st, goalId, item.plan, item.moment)
  }

  /** The plan loop of one goal. */
  function RunPlans(m: Machine, st: State, goalId: string, work: seq<Work>): Outcome<seq<Report>> {
    Loop(Turn(m, goalId), st, work)
  }

  // ── The loop as it runs ───────────────────────────────────────────────

  method MoveBy(graph: ExecGraph.Graph, id: TaskId, to: Status, ts: int) returns (r: Result<Task, Error>)
    modifies graph
    ensures Outcome(graph.St(), r) == Move(graph.machine, old(graph.St()), id, to, ts)
  {
    r := graph.MoveTask(MoveInput(id, to, RUNNER, [], None, ts));
  }

  method Start(graph: ExecGraph.Graph, goalId: string, plan: Plan, risk: RiskClass, ts: int)
    returns (r: Result<Task, Error>)
    modifies graph
    ensures Outcome(graph.St(), r) == StartTask(graph.machine, old(graph.St()), goalId, plan, risk, ts)
  {
    var created := graph.CreateTask(RunnerInput(goalId, plan, risk, ts));
    if created.Err? {
      return Err(created.error);
    }
    r := MoveBy(graph, created.value.task.id, Accepted, ts);
  }

  method EscalateBy(graph: ExecGraph.Graph, id: TaskId, status: string, ts: int) returns (r: Result<Report, Error>)
    modifies graph
    ensures Outcome(graph.St(), r) == Escalate(graph.machine, old(graph.St()), id, status, ts)
  {
    var moved := MoveBy(graph, id, Escalated, ts);
    r := if moved.Err? then Err(moved.error) else Ok(Report(id, status));
  }

  method Execute(graph: ExecGraph.Graph, id: TaskId, plan: Plan, moment: Moment) returns (r: Result<Report, Error>)
    modifies graph
    ensures Outcome(graph.St(), r) == Attempt(graph.machine, old(graph.St()), id, plan, moment)
  {
    var failed := Report(id, "failed");
    var handed := graph.AssignHand(id, plan.handId, RUNNER, false, moment.ts);
    if handed.Err? {
      return Ok(failed);
    }
    match moment.execution {
      case Threw =>
        r := Ok(failed);
      case NotImplemented =>
        var aborted := graph.AbortHandTask(id, RUNNER, "not implemented", moment.ts);
        r := Ok(if aborted.Err? then failed else Report(id, "blocked"));
      case Submitted(receipt) =>
        var submitted := graph.SubmitReceipt(id, receipt, moment.ts);
        if submitted.Err? {
          return Ok(failed);
        }
        var judged := graph.VerifyAndTransition(id, RUNNER, moment.ts);
        r := Ok(if judged.Err? then failed
          else Report(id, if judged.value.status.Verified? then "verified" else "rejected"));
    }
  }

  method WorkWith(graph: ExecGraph.Graph, id: TaskId, plan: Plan, moment: Moment) returns (r: Result<Report, Error>)
    modifies graph
    ensures Outcome(graph.St(), r) == WorkOn(graph.machine, old(graph.St()), id, plan, moment)
  {
    var planned := MoveBy(graph, id, Planned, moment.ts);
    if planned.Err? {
      return Err(planned.error);
    }
    if !moment.budgetAllows {
      r := EscalateBy(graph, id, "budget-exceeded", moment.ts);
    } else if moment.repeated {
      r := EscalateBy(graph, id, "blocked", moment.ts);
    } else {
      r := Execute(graph, id, plan, moment);
    }
  }

  method HandlePlan(graph: ExecGraph.Graph, goalId: string, plan: Plan, moment: Moment)
    returns (r: Result<Report, Error>)
    modifies graph
    ensures Outcome(graph.St(), r) == RunPlan(graph.machine, old(graph.St()), goalId, plan, moment)
  {
    var started := Start(graph, goalId, plan, RiskAt(moment), moment.ts);
    if started.Err? {
      return Err(started.error);
    }
    var id := started.value.id;
    if moment.paused {
      r := EscalateBy(graph, id, "blocked", moment.ts);
    } else if moment.redLine || moment.externalTarget {
      r := EscalateBy(graph, id, "escalated", moment.ts);
    } else {
      r := WorkWith(graph, id, plan, moment);
    }
  }

  lemma LoopStep(step: Step, st: State, work: seq<Work>, i: nat, reports: seq<Report>)
    requires i < |work|
    ensures var turn := step(st, work[i]);
            Prepend(reports, Loop(step, st, work[i..])) ==
            if turn.result.Err? then Outcome(turn.st, Err(turn.result.error))
            else Prepend(reports + [turn.result.value], Loop(step, turn.st, work[i + 1..]))
  {
    var turn := step(st, work[i]);
    assert work[i..][1..] == work[i + 1..];
    var rest := Loop(step, turn.st, work[i + 1..]);
    if turn.result.Ok? && rest.result.Ok? {
      assert reports + ([turn.result.value] + rest.result.value) == reports + [turn.result.value] + rest.result.value;
    }
  }

  lemma LoopEnds(step: Step, st: State, work: seq<Work>, reports: seq<Report>)
    ensures Prepend(reports, Loop(step, st, work[|work|..])) == Outcome(st, Ok(reports))
    ensures Prepend([], Loop(step, st, work[0..])) == Loop(step, st, work)
  {
    assert reports + [] == reports && work[0..] == work;
    var all := Loop(step, st, work);
    if all.result.Ok? {
      assert [] + all.result.value == all.result.value;
    }
  }

  method RunGoal(graph: ExecGraph.Graph, goalId: string, work: seq<Work>) returns (r: Result<seq<Report>, Error>)
    modifies graph
    ensures Outcome(graph.St(), r) == RunPlans(graph.machine, old(graph.St()), goalId, work)
  {
    var reports: seq<Report> := [];
    var i := 0;
    ghost var step := Turn(graph.machine, goalId);
    LoopEnds(step, graph.St(), work, reports);
    while i < |work|
      invariant 0 <= i <= |work|
      invariant Loop(step, old(graph.St()), work) == Prepend(reports, Loop(step, graph.St(), work[i..]))
    {
      LoopStep(step, graph.St(), work, i, reports);
      var turn := HandlePlan(graph, goalId, work[i].plan, work[i].moment);
      if turn.Err? {
        return Err(turn.error);
      }
      reports := reports + [turn.value];
      i := i + 1;
    }
    LoopEnds(step, graph.St(), work, reports);
    return Ok(reports);
  }

  // ── Nothing the runner does reopens a task ────────────────────────────

  predicate Reopens(e: Event) {
    e.Transitioned? && e.transition.to.Proposed?
  }

  /** The ledger only grew, by events that send no task back to proposed. */
  predicate Onward(st: State, later: State) {
    && st.ledger <= later.ledger
    && forall i :: |st.ledger| <= i < |later.ledger| ==> !Reopens(later.ledger[i])
  }

  lemma AppendIsOnward(disk: Disk, st: State, e: Event)
    requires !Reopens(e)
    ensures Onward(st, AppendEvent(disk, st, e))
  {
  }

  lemma {:induction false} PromoteIsOnward(disk: Disk, st: State, task: Task, refs: seq<Ref>, actor: string)
    ensures Onward(st, PromoteRefs(disk, st, task, refs, actor).st)
    decreases |refs|
  {
    if refs != [] {
      var entry := EvidenceEntry(refs[0], Other, None);
      AppendIsOnward(disk, st, EvidenceAdded(actor, task.id, entry));
      var added := AddEvidence(disk, st, task.id, entry, actor);
      if added.result.Ok? {
        PromoteIsOnward(disk, added.st, added.result.value, refs[1..], actor);
      }
    }
  }

  lemma MoveIsOnward(disk: Disk, st: State, input: MoveInput)
    requires !input.to.Proposed?
    ensures Onward(st, MoveTaskAsVerifier(disk, st, input).st)
    ensures Onward(st, MoveTask(disk, st, input).st)
  {
    var task := GetTask(st, input.taskId);
    if task.Some? {
      PromoteIsOnward(disk, st, task.value, input.evidenceRefs, input.actor);
      var promoted := PromoteRefs(disk, st, task.value, input.evidenceRefs, input.actor);
      if promoted.result.Ok? && ApplyTransition(promoted.result.value, input).Ok? {
        var moved := ApplyTransition(promoted.result.value, input).value;
        var last := moved.transitions[|moved.transitions| - 1];
        assert last.to == input.to;
        AppendIsOnward(disk, promoted.st, Transitioned(input.actor, promoted.result.value.id, last));
      }
    }
  }

  predicate RunnerOp(op: Op) {
    match op
    case OpCreateTask(_) => true
    case OpMoveTask(move) => !move.to.Proposed?
    case OpAssignHand(_, _, _, _, _) => true
    case OpSubmitReceipt(_, _, _) => true
    case OpAbortHandTask(_, _, _, _) => true
    case OpVerifyAndTransition(_, _, _) => true
    case _ => false
  }

  lemma RunnerOpIsOnward(m: Machine, st: State, op: Op)
    requires RunnerOp(op)
    ensures Onward(st, Apply(m, st, op))
  {
    match op
    case OpCreateTask(input) =>
      var named := st.(nextTask := st.nextTask + 1);
      AppendIsOnward(m.disk, named, TaskCreated(input.actor, NewTask(input, st.nextTask)));
    case OpMoveTask(move) => MoveIsOnward(m.disk, st, move);
    case OpAssignHand(id, handId, actor, unattended, ts) => AssignIsOnward(m, st, id, handId, actor, unattended, ts);
    case OpSubmitReceipt(id, r, ts) => SubmitIsOnward(m, st, id, r, ts);
    case OpAbortHandTask(id, actor, reason, ts) =>
      MoveIsOnward(m.disk, st, MoveInput(id, Blocked, actor, [], Some("hand task aborted: " + reason), ts));
    case OpVerifyAndTransition(id, actor, ts) => VerifyIsOnward(m, st, id, actor, ts);
  }

  lemma AssignIsOnward(m: Machine, st: State, id: TaskId, handId: string, actor: string, unattended: bool, ts: int)
    ensures Onward(st, AssignHand(m.policy, m.disk, st, id, handId, actor, unattended, ts).st)
  {
    var move := MoveInput(id, Delegated, actor, [], Some("assigned to hand:" + handId), ts);
    MoveIsOnward(m.disk, st, move);
    var moved := MoveTask(m.disk, st, move).st;
    var task := GetTask(moved, id);
    if task.Some? {
      AppendIsOnward(m.disk, moved,
        OwnerReassigned(actor, id, task.value.owner, HAND_OWNER_PREFIX + handId, "assigned to hand " + handId));
    }
  }

  lemma RecordIsOnward(m: Machine, st: State, id: TaskId, r: Receipt, ts: int)
    ensures Onward(st, RecordReceipt(m.disk, st, id, r, ts).st)
  {
    var entry := EvidenceEntry(Digest(r), ToolReceipt, Some(Json(r)));
    AppendIsOnward(m.disk, st, EvidenceAdded(r.submittedBy, id, entry));
    var added := AddEvidence(m.disk, st, id, entry, r.submittedBy);
    MoveIsOnward(m.disk, added.st,
      MoveInput(id, EvidenceSubmitted, r.submittedBy, [Digest(r)], Some("receipt kind"), ts));
  }

  lemma OnwardTwice(a: State, b: State, c: State)
    requires Onward(a, b) && Onward(b, c)
    ensures Onward(a, c)
  {
  }

  lemma SubmitIsOnward(m: Machine, st: State, id: TaskId, r: Receipt, ts: int)
    ensures Onward(st, SubmitReceipt(m.policy, m.disk, st, id, r, ts).st)
  {
    var task := GetTask(st, id);
    if task.Some? {
      MoveIsOnward(m.disk, st,
        MoveInput(id, InProgress, r.submittedBy, [], Some("receipt submission requires in-progress"), ts));
      var started := StartWork(m.disk, st, task.value, id, r, ts).st;
      RecordIsOnward(m, started, id, r, ts);
      OnwardTwice(st, started, RecordReceipt(m.disk, started, id, r, ts).st);
    }
  }

  lemma VerifyIsOnward(m: Machine, st: State, id: TaskId, actor: string, ts: int)
    ensures Onward(st, VerifyAndTransition(m.policy, m.env, m.disk, st, id, actor, ts).st)
  {
    var task := GetTask(st, id);
    if task.Some? {
      var latest := LatestReceipt(task.value.evidence);
      MoveIsOnward(m.disk, st, MoveInput(id, Rejected, actor, [], Some("no receipt evidence found to verify"), ts));
      if latest.Some? {
        var judged := st.(ticks := st.ticks + 2);
        MoveIsOnward(m.disk, judged, MoveInput(id, Verified, actor, [latest.value.ref], Some("verified"), ts));
        MoveIsOnward(m.disk, judged, MoveInput(id, Rejected, actor, [], Some("rejected"), ts));
      }
    }
  }

  /** Once a task has left proposed, onward events never bring it back. */
  predicate Started(g: Snapshot, id: TaskId) {
    id in g.tasks && !g.tasks[id].status.Proposed?
  }

  lemma EventKeepsStarted(g: Snapshot, e: Event, id: TaskId)
    requires Started(g, id) && !Reopens(e) && (e.TaskCreated? ==> e.task.id !in g.tasks)
    ensures Started(ApplyEvent(g, e), id)
  {
  }

  /** Every task is created under an id that is new. */
  predicate NewIds(events: seq<Event>) {
    forall i :: 0 <= i < |events| && events[i].TaskCreated? ==> events[i].task.id !in Fold(events[..i]).tasks
  }

  lemma SoundLedgersHaveNewIds(m: Machine, st: State)
    requires LedgerSound(m, st)
    ensures NewIds(st.ledger)
  {
    forall i | 0 <= i < |st.ledger| && st.ledger[i].TaskCreated?
      ensures st.ledger[i].task.id !in Fold(st.ledger[..i]).tasks
    {
      assert EventSound(m, st.ticks, st.ledger[..i], st.ledger[i]);
    }
  }

  lemma OneEventKeepsStarted(events: seq<Event>, id: TaskId, n: nat)
    requires NewIds(events) && n < |events| && Started(Fold(events[..n]), id) && !Reopens(events[n])
    ensures Started(Fold(events[..n + 1]), id)
  {
    assert events[..n + 1] == events[..n] + [events[n]];
    FoldAppend(events[..n], events[n]);
    EventKeepsStarted(Fold(events[..n]), events[n], id);
  }

  lemma {:induction false} StartedStays(events: seq<Event>, id: TaskId, k: nat, n: nat)
    requires NewIds(events) && k <= n <= |events| && Started(Fold(events[..k]), id)
    requires forall i :: k <= i < n ==> !Reopens(events[i])
    ensures Started(Fold(events[..n]), id)
  {
    if k < n {
      StartedStays(events, id, k, n - 1);
      OneEventKeepsStarted(events, id, n - 1);
    }
  }

  lemma OnwardKeepsStarted(m: Machine, st: State, later: State, id: TaskId)
    requires NeverStale(m.disk) && Inv(m, st) && Inv(m, later) && Onward(st, later)
    requires Started(ReadGraph(st), id)
    ensures Started(ReadGraph(later), id)
  {
    SyncedRead(st);
    SyncedRead(later);
    assert later.ledger[..|st.ledger|] == st.ledger && later.ledger[..|later.ledger|] == later.ledger;
    SoundLedgersHaveNewIds(m, later);
    StartedStays(later.ledger, id, |st.ledger|, |later.ledger|);
  }

  // ── The one task of the runner ────────────────────────────────────────

  /** The task carries the key derived from the runner's source. */
  predicate IsRunnerTask(g: Snapshot, id: TaskId) {
    id in g.tasks && g.tasks[id].idempotencyKey == DeriveIdempotencyKey(RUNNER_SOURCE)
  }

  /** The runner's task has left proposed. */
  ghost predicate RunnerTaskStarted(g: Snapshot) {
    exists id :: IsRunnerTask(g, id) && Started(g, id)
  }

  lemma AcceptIsLegalIffProposed(task: Task, ts: int)
    requires FieldsOk(task)
    ensures ApplyTransition(task, MoveInput(task.id, Accepted, RUNNER, [], None, ts)).Ok? <==> task.status.Proposed?
  {
    assert !IsWhitespace(RUNNER[0]);
  }

  lemma MoveIsOneStep(m: Machine, st: State, id: TaskId, to: Status, ts: int)
    requires FileInv(st) && id in ReadGraph(st).tasks && !to.Verified? && !to.Rejected?
    ensures Move(m, st, id, to, ts) ==
            FinishMove(m.disk, st, ReadGraph(st).tasks[id], MoveInput(id, to, RUNNER, [], None, ts))
  {
  }

  /** The runner may accept a task exactly when it is proposed. */
  lemma AcceptSucceedsIffProposed(m: Machine, st: State, id: TaskId, ts: int)
    requires Reliable(m.disk) && Inv(m, st) && id in ReadGraph(st).tasks
    ensures var o := Move(m, st, id, Accepted, ts);
            && (o.result.Ok? <==> ReadGraph(st).tasks[id].status.Proposed?)
            && (o.result.Ok? ==>
                  && id in ReadGraph(o.st).tasks && ReadGraph(o.st).tasks[id].status.Accepted?
                  && ReadGraph(o.st).tasks[id].idempotencyKey == ReadGraph(st).tasks[id].idempotencyKey
                  && o.result.value.id == id)
  {
    ReadFieldsAreOk(m, st);
    ReadKeepsIds(st, id);
    var task := ReadGraph(st).tasks[id];
    MoveIsOneStep(m, st, id, Accepted, ts);
    AcceptIsLegalIffProposed(task, ts);
    ReliableFinish(m.disk, st, task, MoveInput(id, Accepted, RUNNER, [], None, ts));
  }

  /** The goal id and title the schemas ask for. */
  predicate Valid(goalId: string, plan: Plan) {
    GoalIdOk(goalId) && plan.title != ""
  }

  lemma RunnerCreateSucceeds(m: Machine, st: State, goalId: string, plan: Plan, risk: RiskClass, ts: int)
    requires Valid(goalId, plan)
    ensures CreateTask(m.disk, st, RunnerInput(goalId, plan, risk, ts)).result.Ok?
  {
    var task := NewTask(RunnerInput(goalId, plan, risk, ts), st.nextTask);
    assert "atlas"[0] != HAND_OWNER_PREFIX[0];
    assert task.idempotencyKey[0] == 'e';
    assert TaskOk(task);
  }

  /** A plan can start exactly when the graph holds no task of the runner that has left
      proposed: the task is looked up by the runner's source alone, whatever the goal,
      title or risk of the plan. */
  lemma StartSucceedsIff(m: Machine, st: State, goalId: string, plan: Plan, risk: RiskClass, ts: int)
    requires Reliable(m.disk) && Inv(m, st) && Valid(goalId, plan)
    ensures StartTask(m, st, goalId, plan, risk, ts).result.Ok? <==> !RunnerTaskStarted(ReadGraph(st))
    ensures var started := StartTask(m, st, goalId, plan, risk, ts);
            started.result.Ok? ==>
              && Inv(m, started.st) && IsRunnerTask(ReadGraph(started.st), started.result.value.id)
              && ReadGraph(started.st).tasks[started.result.value.id].status.Accepted?
  {
    var input := RunnerInput(goalId, plan, risk, ts);
    var created := CreateTask(m.disk, st, input);
    RunnerCreateSucceeds(m, st, goalId, plan, risk, ts);
    CreateTaskKeepsInv(m, st, input);
    CreatedTaskIsTheRunners(m, st, input);
    var id := created.result.value.task.id;
    AcceptSucceedsIffProposed(m, created.st, id, ts);
    StartReaches(m, st, goalId, plan, risk, ts);
  }

  /** The task a create call of the runner yields is proposed exactly when none had started. */
  lemma CreatedTaskIsTheRunners(m: Machine, st: State, input: TaskInput)
    requires Reliable(m.disk) && Inv(m, st) && CreateTask(m.disk, st, input).result.Ok?
    requires input.source == RUNNER_SOURCE && input.idempotencyKey.None?
    ensures var o := CreateTask(m.disk, st, input);
            var id := o.result.value.task.id;
            && IsRunnerTask(ReadGraph(o.st), id)
            && (ReadGraph(o.st).tasks[id].status.Proposed? <==> !RunnerTaskStarted(ReadGraph(st)))
  {
    CreateYieldsItsKey(m, st, input);
    var o := CreateTask(m.disk, st, input);
    if !o.result.value.created && RunnerTaskStarted(ReadGraph(st)) {
      var other :| IsRunnerTask(ReadGraph(st), other) && Started(ReadGraph(st), other);
      SameKeySameTask(m, st, o.result.value.task.id, other);
    } else if !o.result.value.created {
      assert IsRunnerTask(ReadGraph(st), o.result.value.task.id);
    }
  }

  // ── The loop ──────────────────────────────────────────────────────────

  /** The invariant is kept and no task went back to proposed. */
  ghost predicate Reaches(m: Machine, st: State, later: State) {
    Inv(m, later) && Onward(st, later)
  }

  lemma OpReaches(m: Machine, start: State, st: State, op: Op)
    requires RunnerOp(op) && Inv(m, start) && Reaches(m, start, st)
    ensures Reaches(m, start, Apply(m, st, op))
  {
    RunnerOpIsOnward(m, st, op);
    ApplyKeepsInv(m, st, op);
  }

  lemma MoveReaches(m: Machine, start: State, st: State, id: TaskId, to: Status, ts: int)
    requires !to.Proposed? && Inv(m, start) && Reaches(m, start, st)
    ensures Reaches(m, start, Move(m, st, id, to, ts).st)
  {
    OpReaches(m, start, st, OpMoveTask(MoveInput(id, to, RUNNER, [], None, ts)));
  }

  lemma AttemptReaches(m: Machine, start: State, st: State, id: TaskId, plan: Plan, moment: Moment)
    requires Inv(m, start) && Reaches(m, start, st)
    ensures Reaches(m, start, Attempt(m, st, id, plan, moment).st)
  {
    var assign := OpAssignHand(id, plan.handId, RUNNER, false, moment.ts);
    OpReaches(m, start, st, assign);
    var handed := Apply(m, st, assign);
    OpReaches(m, start, handed, OpAbortHandTask(id, RUNNER, "not implemented", moment.ts));
    if moment.execution.Submitted? {
      var submit := OpSubmitReceipt(id, moment.execution.receipt, moment.ts);
      OpReaches(m, start, handed, submit);
      OpReaches(m, start, Apply(m, handed, submit), OpVerifyAndTransition(id, RUNNER, moment.ts));
    }
  }

  lemma StartReaches(m: Machine, st: State, goalId: string, plan: Plan, risk: RiskClass, ts: int)
    requires Inv(m, st)
    ensures Reaches(m, st, StartTask(m, st, goalId, plan, risk, ts).st)
  {
    var input := RunnerInput(goalId, plan, risk, ts);
    OpReaches(m, st, st, OpCreateTask(input));
    var created := CreateTask(m.disk, st, input);
    if created.result.Ok? {
      MoveReaches(m, st, created.st, created.result.value.task.id, Accepted, ts);
    }
  }

  lemma EscalateReaches(m: Machine, start: State, st: State, id: TaskId, status: string, ts: int)
    requires Inv(m, start) && Reaches(m, start, st)
    ensures Reaches(m, start, Escalate(m, st, id, status, ts).st)
  {
    MoveReaches(m, start, st, id, Escalated, ts);
  }

  lemma WorkReaches(m: Machine, st: State, id: TaskId, plan: Plan, moment: Moment)
    requires Inv(m, st)
    ensures Reaches(m, st, WorkOn(m, st, id, plan, moment).st)
  {
    MoveReaches(m, st, st, id, Planned, moment.ts);
    var planned := Move(m, st, id, Planned, moment.ts);
    if !moment.budgetAllows {
      EscalateReaches(m, st, planned.st, id, "budget-exceeded", moment.ts);
    } else if moment.repeated {
      EscalateReaches(m, st, planned.st, id, "blocked", moment.ts);
    } else {
      AttemptReaches(m, st, planned.st, id, plan, moment);
    }
  }

  lemma ProceedReaches(m: Machine, st: State, id: TaskId, plan: Plan, moment: Moment)
    requires Inv(m, st)
    ensures Reaches(m, st, Proceed(m, st, id, plan, moment).st)
  {
    if moment.paused {
      EscalateReaches(m, st, st, id, "blocked", moment.ts);
    } else if moment.redLine || moment.externalTarget {
      EscalateReaches(m, st, st, id, "escalated", moment.ts);
    } else {
      WorkReaches(m, st, id, plan, moment);
    }
  }

  // ── When a turn succeeds ──────────────────────────────────────────────

  /** The moves a turn makes by itself. */
  predicate TurnMove(from: Status, to: Status) {
    (from.Accepted? || from.Planned?) && to in LegalTransitions(from) && (to.Planned? || to.Escalated?)
  }

  lemma TurnMoveIsLegal(task: Task, to: Status, ts: int)
    requires FieldsOk(task) && TurnMove(task.status, to)
    ensures ApplyTransition(task, MoveInput(task.id, to, RUNNER, [], None, ts)).Ok?
  {
    assert !IsWhitespace(RUNNER[0]);
  }

  lemma TurnMoveSucceeds(m: Machine, st: State, id: TaskId, to: Status, ts: int)
    requires Reliable(m.disk) && Inv(m, st) && id in ReadGraph(st).tasks && TurnMove(ReadGraph(st).tasks[id].status, to)
    ensures var o := Move(m, st, id, to, ts);
            o.result.Ok? && id in ReadGraph(o.st).tasks && ReadGraph(o.st).tasks[id].status == to
  {
    ReadFieldsAreOk(m, st);
    ReadKeepsIds(st, id);
    var task := ReadGraph(st).tasks[id];
    MoveIsOneStep(m, st, id, to, ts);
    TurnMoveIsLegal(task, to, ts);
    ReliableFinish(m.disk, st, task, MoveInput(id, to, RUNNER, [], None, ts));
  }

  lemma EscalateSucceeds(m: Machine, st: State, id: TaskId, status: string, ts: int)
    requires Reliable(m.disk) && Inv(m, st) && id in ReadGraph(st).tasks
    requires TurnMove(ReadGraph(st).tasks[id].status, Escalated)
    ensures Escalate(m, st, id, status, ts).result.Ok?
  {
    TurnMoveSucceeds(m, st, id, Escalated, ts);
  }

  lemma AttemptReports(m: Machine, st: State, id: TaskId, plan: Plan, moment: Moment)
    ensures Attempt(m, st, id, plan, moment).result.Ok?
  {
  }

  lemma WorkSucceeds(m: Machine, st: State, id: TaskId, plan: Plan, moment: Moment)
    requires Reliable(m.disk) && Inv(m, st) && id in ReadGraph(st).tasks && ReadGraph(st).tasks[id].status.Accepted?
    ensures WorkOn(m, st, id, plan, moment).result.Ok?
  {
    TurnMoveSucceeds(m, st, id, Planned, moment.ts);
    MoveReaches(m, st, st, id, Planned, moment.ts);
    var planned := Move(m, st, id, Planned, moment.ts).st;
    EscalateSucceeds(m, planned, id, "budget-exceeded", moment.ts);
    EscalateSucceeds(m, planned, id, "blocked", moment.ts);
    AttemptReports(m, planned, id, plan, moment);
  }

  /** With its task accepted, a turn ends in a report whatever it meets. */
  lemma ProceedSucceeds(m: Machine, st: State, id: TaskId, plan: Plan, moment: Moment)
    requires Reliable(m.disk) && Inv(m, st) && id in ReadGraph(st).tasks && ReadGraph(st).tasks[id].status.Accepted?
    ensures Proceed(m, st, id, plan, moment).result.Ok?
  {
    if moment.paused {
      EscalateSucceeds(m, st, id, "blocked", moment.ts);
    } else if moment.redLine || moment.externalTarget {
      EscalateSucceeds(m, st, id, "escalated", moment.ts);
    } else {
      WorkSucceeds(m, st, id, plan, moment);
    }
  }

  lemma ProceedUsesUpTheTask(m: Machine, st: State, id: TaskId, plan: Plan, moment: Moment)
    requires Reliable(m.disk) && Inv(m, st)
    requires IsRunnerTask(ReadGraph(st), id) && ReadGraph(st).tasks[id].status.Accepted?
    ensures var turn := Proceed(m, st, id, plan, moment);
            turn.result.Ok? && Inv(m, turn.st) && RunnerTaskStarted(ReadGraph(turn.st))
  {
    ProceedSucceeds(m, st, id, plan, moment);
    ProceedReaches(m, st, id, plan, moment);
    StartedTaskStays(m, st, Proceed(m, st, id, plan, moment).st);
  }

  /** A turn succeeds exactly if the runner's task had not started, and leaves it started. */
  lemma TurnUsesUpTheTask(m: Machine, st: State, goalId: string, plan: Plan, moment: Moment)
    requires Reliable(m.disk) && Inv(m, st) && Valid(goalId, plan)
    ensures var turn := RunPlan(m, st, goalId, plan, moment);
            && (turn.result.Ok? <==> !RunnerTaskStarted(ReadGraph(st)))
            && (turn.result.Ok? ==> Inv(m, turn.st) && RunnerTaskStarted(ReadGraph(turn.st)))
  {
    StartSucceedsIff(m, st, goalId, plan, RiskAt(moment), moment.ts);
    var started := StartTask(m, st, goalId, plan, RiskAt(moment), moment.ts);
    if started.result.Ok? {
      ProceedUsesUpTheTask(m, started.st, started.result.value.id, plan, moment);
    }
  }

  lemma RunnerTaskStays(m: Machine, st: State, later: State, id: TaskId)
    requires NeverStale(m.disk) && Inv(m, st) && Inv(m, later) && Onward(st, later) && IsRunnerTask(ReadGraph(st), id)
    ensures IsRunnerTask(ReadGraph(later), id)
  {
    SyncedRead(st);
    SyncedRead(later);
    assert later.ledger[..|st.ledger|] == st.ledger && later.ledger[..|later.ledger|] == later.ledger;
    TasksOnlyGrow(m, later, id, |st.ledger|, |later.ledger|);
  }

  lemma StartedTaskStays(m: Machine, st: State, later: State)
    requires NeverStale(m.disk) && Inv(m, st) && Reaches(m, st, later) && RunnerTaskStarted(ReadGraph(st))
    ensures RunnerTaskStarted(ReadGraph(later))
  {
    var id :| IsRunnerTask(ReadGraph(st), id) && Started(ReadGraph(st), id);
    OnwardKeepsStarted(m, st, later, id);
    RunnerTaskStays(m, st, later, id);
  }

  predicate AllValid(goalId: string, work: seq<Work>) {
    forall i :: 0 <= i < |work| ==> Valid(goalId, work[i].plan)
  }

  /** A plan loop completes exactly if it had no plan, or one and the runner's only task was
      still unused; the one plan then uses it up. */
  lemma PlansCompleteIffOneTaskSuffices(m: Machine, st: State, goalId: string, work: seq<Work>)
    requires Reliable(m.disk) && Inv(m, st) && AllValid(goalId, work)
    ensures var o := RunPlans(m, st, goalId, work);
            && (o.result.Ok? <==> work == [] || (|work| == 1 && !RunnerTaskStarted(ReadGraph(st))))
            && (o.result.Ok? ==> Inv(m, o.st) && (work != [] ==> RunnerTaskStarted(ReadGraph(o.st))))
  {
    if work != [] {
      LoopUnfolds(m, st, goalId, work);
      TurnUsesUpTheTask(m, st, goalId, work[0].plan, work[0].moment);
      var turn := RunPlan(m, st, goalId, work[0].plan, work[0].moment);
      if turn.result.Ok? && |work| > 1 {
        LoopUnfolds(m, turn.st, goalId, work[1..]);
        TurnUsesUpTheTask(m, turn.st, goalId, work[1].plan, work[1].moment);
      }
    }
  }

  /** A loop fails with its first turn, and a loop of one turn ends as that turn does. */
  lemma LoopUnfolds(m: Machine, st: State, goalId: string, work: seq<Work>)
    requires work != []
    ensures var turn := RunPlan(m, st, goalId, work[0].plan, work[0].moment);
            var o := RunPlans(m, st, goalId, work);
            && (turn.result.Err? ==> o.result.Err?)
            && (turn.result.Ok? ==> (o.result.Ok? <==> RunPlans(m, turn.st, goalId, work[1..]).result.Ok?))
            && (turn.result.Ok? && |work| == 1 ==> o.result.Ok? && o.st == turn.st)
  {
  }

  // ── Whole goals ───────────────────────────────────────────────────────

  /** A goal that is not resumed: the goal is created, then its plans are run. */
  function RunNewGoal(m: Machine, st: State, goal: Goal, work: seq<Work>): Outcome<seq<Report>> {
    var created := CreateGoal(m.disk, st, goal, RUNNER);
    if created.result.Err? then Outcome(created.st, Err(created.result.error))
    else RunPlans(m, created.st, goal.id, work)
  }

  method StartGoal(graph: ExecGraph.Graph, goal: Goal, work: seq<Work>) returns (r: Result<seq<Report>, Error>)
    modifies graph
    ensures Outcome(graph.St(), r) == RunNewGoal(graph.machine, old(graph.St()), goal, work)
  {
    var created := graph.CreateGoal(goal, RUNNER);
    if created.Err? {
      return Err(created.error);
    }
    r := RunGoal(graph, goal.id, work);
  }

  lemma CreatingAGoalLeavesTasks(m: Machine, st: State, goal: Goal)
    requires Reliable(m.disk) && Inv(m, st) && GoalOk(goal)
    ensures var o := CreateGoal(m.disk, st, goal, RUNNER);
            o.result.Ok? && Inv(m, o.st) && ReadGraph(o.st).tasks == ReadGraph(st).tasks
  {
    CreateGoalKeepsInv(m, st, goal, RUNNER);
    if AppendVerdict(st, GoalCreated(RUNNER, goal)).Recorded? {
      ReliableAppend(m.disk, st, GoalCreated(RUNNER, goal));
    }
  }

  /** While graph writes succeed, a goal run completes exactly if it has no plan, or one and
      no task of the runner has left proposed, whatever the goals before. */
  lemma GoalCompletesIff(m: Machine, st: State, goal: Goal, work: seq<Work>)
    requires Reliable(m.disk) && Inv(m, st) && GoalOk(goal) && AllValid(goal.id, work)
    ensures var o := RunNewGoal(m, st, goal, work);
            && (o.result.Ok? <==> work == [] || (|work| == 1 && !RunnerTaskStarted(ReadGraph(st))))
            && (o.result.Ok? ==> Inv(m, o.st) && (work != [] ==> RunnerTaskStarted(ReadGraph(o.st))))
  {
    CreatingAGoalLeavesTasks(m, st, goal);
    var created := CreateGoal(m.disk, st, goal, RUNNER).st;
    assert forall id :: IsRunnerTask(ReadGraph(created), id) == IsRunnerTask(ReadGraph(st), id);
    assert forall id :: Started(ReadGraph(created), id) == Started(ReadGraph(st), id);
    PlansCompleteIffOneTaskSuffices(m, created, goal.id, work);
  }

  /** So on a new graph the first goal with one plan completes, and from then on every goal
      with a plan fails. */
  lemma OnlyTheFirstGoalCompletes(m: Machine, goal: Goal, work: seq<Work>, next: Goal, nextWork: seq<Work>)
    requires Reliable(m.disk) && GoalOk(goal) && GoalOk(next)
    requires AllValid(goal.id, work) && AllValid(next.id, nextWork) && |work| == 1 && nextWork != []
    ensures var first := RunNewGoal(m, INITIAL_STATE, goal, work);
            first.result.Ok? && RunNewGoal(m, first.st, next, nextWork).result.Err?
  {
    EveryRunKeepsInv(m, []);
    assert ReadGraph(INITIAL_STATE).tasks == map[];
    GoalCompletesIff(m, INITIAL_STATE, goal, work);
    GoalCompletesIff(m, RunNewGoal(m, INITIAL_STATE, goal, work).st, next, nextWork);
  }

  /** After a goal that completed with a plan, on any graph, the next goal with a plan fails. */
  lemma TheNextGoalFails(m: Machine, st: State, goal: Goal, work: seq<Work>, next: Goal, nextWork: seq<Work>)
    requires Reliable(m.disk) && Inv(m, st) && GoalOk(goal) && GoalOk(next)
    requires AllValid(goal.id, work) && AllValid(next.id, nextWork) && work != [] && nextWork != []
    ensures var first := RunNewGoal(m, st, goal, work);
            first.result.Ok? ==> RunNewGoal(m, first.st, next, nextWork).result.Err?
  {
    GoalCompletesIff(m, st, goal, work);
    var first := RunNewGoal(m, st, goal, work);
    if first.result.Ok? {
      GoalCompletesIff(m, first.st, next, nextWork);
    }
  }
}
