/**
 * Every operation on the execution graph is a few elementary steps: a goal, a task, an
 * evidence entry, a change of owner, a move through the port, a look outside
 * (src/exec-graph/api.ts, src/hands/exec-graph-adapter.ts).  A claim about states that
 * every such step keeps holds after every run.
 */
module ExecSteps {
  import opened Common
  import opened Text
  import opened HandContract
  import opened ExecContracts
  import opened ExecLedger
  import opened ExecApi
  import opened ExecSafety

  datatype Step =
    | GoalStep(goal: Goal, actor: string)
    | TaskStep(input: TaskInput)
    | EvidenceStep(id: TaskId, entry: EvidenceEntry, actor: string)
    | OwnerStep(id: TaskId, owner: string, actor: string, reason: string)
    | MoveStep(move: MoveInput)
    | LookStep

  function Do(m: Machine, st: State, step: Step): State {
    match step
    case GoalStep(goal, actor) => CreateGoal(m.disk, st, goal, actor).st
    case TaskStep(input) => CreateTask(m.disk, st, input).st
    case EvidenceStep(id, entry, actor) => AddEvidence(m.disk, st, id, entry, actor).st
    case OwnerStep(id, owner, actor, reason) => ReassignOwnerAsVerifier(m.disk, st, id, owner, actor, reason).st
    case MoveStep(move) => MoveTaskAsVerifier(m.disk, st, move).st
    case LookStep => st.(ticks := st.ticks + 2)
  }

  /** When the program moves a task to verified or rejected: it is then evidence-submitted,
      and verified cites the newest receipt that reads show. */
  predicate Guarded(st: State, step: Step) {
    step.MoveStep? && (step.move.to.Verified? || step.move.to.Rejected?) ==>
      var task := GetTask(st, step.move.taskId);
      && task.Some? && task.value.status.EvidenceSubmitted?
      && (step.move.to.Verified? ==>
            LatestReceipt(task.value.evidence).Some?
            && step.move.evidenceRefs == [LatestReceipt(task.value.evidence).value.ref])
  }

  /** A receipt recorded as evidence of a task names that task. */
  predicate OwnReceipt(id: TaskId, entry: EvidenceEntry) {
    entry.kind.ToolReceipt? && ParseNote(entry.note).Some? ==> ParseNote(entry.note).value.taskId == id
  }

  predicate OwnStep(step: Step) {
    step.EvidenceStep? ==> OwnReceipt(step.id, step.entry)
  }

  predicate OwnOp(op: Op) {
    op.OpAddEvidence? ==> OwnReceipt(op.id, op.evidence)
  }

  type Claim = State -> bool

  /** Every step keeps the claim; with `own`, every step that records no foreign receipt does. */
  ghost predicate Kept(m: Machine, claim: Claim, own: bool) {
    forall st, step ::
      Inv(m, st) && claim(st) && Guarded(st, step) && (own ==> OwnStep(step)) && Inv(m, Do(m, st, step)) ==>
        claim(Do(m, st, step))
  }

  lemma StepKeeps(m: Machine, claim: Claim, own: bool, st: State, step: Step)
    requires Kept(m, claim, own) && Inv(m, st) && claim(st) && Guarded(st, step) && (own ==> OwnStep(step))
    requires Inv(m, Do(m, st, step))
    ensures claim(Do(m, st, step))
  {}

  lemma MoveKeeps(m: Machine, claim: Claim, own: bool, st: State, input: MoveInput)
    requires Kept(m, claim, own) && Inv(m, st) && claim(st)
    ensures claim(MoveTask(m.disk, st, input).st)
  {
    MoveKeepsInv(m, st, input);
    if GetTask(st, input.taskId).Some? && !input.to.Verified? && !input.to.Rejected? {
      StepKeeps(m, claim, own, st, MoveStep(input));
    }
  }

  lemma AssignKeeps(
    m: Machine, claim: Claim, own: bool, st: State, id: TaskId, handId: string, actor: string,
    unattended: bool, ts: int)
    requires Kept(m, claim, own) && Inv(m, st) && claim(st)
    ensures claim(AssignHand(m.policy, m.disk, st, id, handId, actor, unattended, ts).st)
  {
    var move := MoveInput(id, Delegated, actor, [], Some("assigned to hand:" + handId), ts);
    MoveKeeps(m, claim, own, st, move);
    MoveKeepsInv(m, st, move);
    var owner := HAND_OWNER_PREFIX + handId;
    assert owner[|HAND_OWNER_PREFIX|..] == handId;
    if m.policy.hands(handId).Some? {
      var moved := MoveTask(m.disk, st, move).st;
      ReassignKeepsInv(m, moved, id, owner, actor, "assigned to hand " + handId);
      StepKeeps(m, claim, own, moved, OwnerStep(id, owner, actor, "assigned to hand " + handId));
    }
  }

  lemma RecordKeeps(m: Machine, claim: Claim, own: bool, st: State, id: TaskId, r: Receipt, ts: int)
    requires Kept(m, claim, own) && Inv(m, st) && claim(st) && r.taskId == id
    ensures claim(RecordReceipt(m.disk, st, id, r, ts).st)
  {
    var entry := EvidenceEntry(Digest(r), ToolReceipt, Some(Json(r)));
    AddEvidenceKeepsInv(m, st, id, entry, r.submittedBy);
    StepKeeps(m, claim, own, st, EvidenceStep(id, entry, r.submittedBy));
    MoveKeeps(m, claim, own, AddEvidence(m.disk, st, id, entry, r.submittedBy).st,
              MoveInput(id, EvidenceSubmitted, r.submittedBy, [Digest(r)], Some("receipt kind"), ts));
  }

  lemma SubmitOfAnotherTask(m: Machine, st: State, id: TaskId, r: Receipt, ts: int)
    requires r.taskId != id
    ensures SubmitReceipt(m.policy, m.disk, st, id, r, ts).st == st
  {}

  lemma SubmitKeeps(m: Machine, claim: Claim, own: bool, st: State, id: TaskId, r: Receipt, ts: int)
    requires Kept(m, claim, own) && Inv(m, st) && claim(st)
    ensures claim(SubmitReceipt(m.policy, m.disk, st, id, r, ts).st)
  {
    SubmitEndsInOneOf(m, st, id, r, ts);
    if r.taskId != id {
      SubmitOfAnotherTask(m, st, id, r, ts);
    } else if GetTask(st, id).Some? {
      var task := GetTask(st, id).value;
      var start := MoveInput(id, InProgress, r.submittedBy, [], Some("receipt submission requires in-progress"), ts);
      MoveKeeps(m, claim, own, st, start);
      StartWorkKeepsInv(m, st, task, id, r, ts);
      RecordKeeps(m, claim, own, StartWork(m.disk, st, task, id, r, ts).st, id, r, ts);
    }
  }

  lemma VerdictKeeps(m: Machine, claim: Claim, own: bool, st: State, input: MoveInput)
    requires Kept(m, claim, own) && Inv(m, st) && claim(st) && Guarded(st, MoveStep(input))
    requires Inv(m, MoveTaskAsVerifier(m.disk, st.(ticks := st.ticks + 2), input).st)
    ensures claim(MoveTaskAsVerifier(m.disk, st.(ticks := st.ticks + 2), input).st)
  {
    var judged := st.(ticks := st.ticks + 2);
    TickKeepsInv(m, st);
    StepKeeps(m, claim, own, st, LookStep);
    assert ReadGraph(judged) == ReadGraph(st);
    StepKeeps(m, claim, own, judged, MoveStep(input));
  }

  lemma ConcludeKeeps(
    m: Machine, claim: Claim, own: bool, st: State, task: Task, latest: EvidenceEntry, id: TaskId,
    actor: string, ts: int)
    requires Kept(m, claim, own) && Inv(m, st) && claim(st)
    requires GetTask(st, id) == Some(task) && task.status.EvidenceSubmitted?
      && LatestReceipt(task.evidence) == Some(latest)
    requires ParseNote(latest.note).Some?
    ensures var receipt := ParseNote(latest.note).value;
      claim(Conclude(m.policy, m.env, m.disk, st, task, latest.ref, receipt, id, actor, ts).st)
  {
    ConcludeKeepsInv(m, st, task, latest, id, actor, ts);
    if Accepts(m.policy, m.env, st.ticks, RiskOf(m.policy, task), ParseNote(latest.note).value) {
      VerdictKeeps(m, claim, own, st, MoveInput(id, Verified, actor, [latest.ref], Some("verified"), ts));
    } else {
      VerdictKeeps(m, claim, own, st, MoveInput(id, Rejected, actor, [], Some("rejected"), ts));
    }
  }

  lemma VerifyKeeps(m: Machine, claim: Claim, own: bool, st: State, id: TaskId, actor: string, ts: int)
    requires Kept(m, claim, own) && Inv(m, st) && claim(st)
    ensures claim(VerifyAndTransition(m.policy, m.env, m.disk, st, id, actor, ts).st)
  {
    var task := GetTask(st, id);
    if task.Some? && task.value.status.EvidenceSubmitted? {
      var latest := LatestReceipt(task.value.evidence);
      if latest.None? {
        var input := MoveInput(id, Rejected, actor, [], Some("no receipt evidence found to verify"), ts);
        VerifyKeepsInv(m, st, id, actor, ts);
        StepKeeps(m, claim, own, st, MoveStep(input));
      } else if ParseNote(latest.value.note).Some? {
        ConcludeKeeps(m, claim, own, st, task.value, latest.value, id, actor, ts);
      }
    }
  }

  lemma HandOpKeeps(m: Machine, claim: Claim, own: bool, st: State, op: Op)
    requires Kept(m, claim, own) && Inv(m, st) && claim(st) && HandOp(op)
    ensures claim(Apply(m, st, op))
  {
    match op
    case OpAssignHand(id, handId, actor, unattended, ts) =>
      AssignKeeps(m, claim, own, st, id, handId, actor, unattended, ts);
    case OpSubmitReceipt(id, receipt, ts) => SubmitKeeps(m, claim, own, st, id, receipt, ts);
    case OpAbortHandTask(id, actor, reason, ts) =>
      MoveKeeps(m, claim, own, st, MoveInput(id, Blocked, actor, [], Some("hand task aborted: " + reason), ts));
    case OpVerifyAndTransition(id, actor, ts) => VerifyKeeps(m, claim, own, st, id, actor, ts);
  }

  lemma OpKeeps(m: Machine, claim: Claim, own: bool, st: State, op: Op)
    requires Kept(m, claim, own) && Inv(m, st) && claim(st) && (own ==> OwnOp(op))
    ensures claim(Apply(m, st, op))
  {
    ApplyKeepsInv(m, st, op);
    if HandOp(op) {
      HandOpKeeps(m, claim, own, st, op);
    } else {
      match op
      case OpCreateGoal(goal, actor) => StepKeeps(m, claim, own, st, GoalStep(goal, actor));
      case OpCreateTask(input) => StepKeeps(m, claim, own, st, TaskStep(input));
      case OpImportTask(input) =>
        StepKeeps(m, claim, own, st, TaskStep(input.(idempotencyKey := Some(DeriveIdempotencyKey(input.source)))));
      case OpMoveTask(move) => MoveKeeps(m, claim, own, st, move);
      case OpReassignOwner(id, owner, actor, reason) =>
        if !StartsWith(owner, HAND_OWNER_PREFIX) {
          StepKeeps(m, claim, own, st, OwnerStep(id, owner, actor, reason));
        }
      case OpAddEvidence(id, evidence, actor) => StepKeeps(m, claim, own, st, EvidenceStep(id, evidence, actor));
    }
  }

  /** A claim that every step keeps holds after every run. */
  lemma {:induction false} RunKeeps(m: Machine, claim: Claim, own: bool, st: State, ops: seq<Op>)
    requires Kept(m, claim, own) && Inv(m, st) && claim(st)
    requires own ==> forall i :: 0 <= i < |ops| ==> OwnOp(ops[i])
    ensures claim(Run(m, st, ops))
  {
    if ops != [] {
      var n := |ops| - 1;
      RunKeeps(m, claim, own, st, ops[..n]);
      RunAdvances(m, st, ops[..n]);
      OpKeeps(m, claim, own, Run(m, st, ops[..n]), ops[n]);
    }
  }
}
