/**
 * The operations on the execution graph: the public API (src/exec-graph/api.ts), the
 * privileged port (src/exec-graph/verifier-port.ts) and the hand adapter that
 * composes them (src/hands/exec-graph-adapter.ts).  Each operation yields the new
 * state and either its result or the error it throws; whatever was appended before an
 * error stays appended.
 */
module ExecApi {
  import opened Common
  import opened Text
  import opened HandContract
  import opened ExecContracts
  import opened ExecLedger

  datatype Outcome<+T> = Outcome(st: State, result: Result<T, Error>)

  function Fail<T>(st: State, error: Error): Outcome<T> {
    Outcome(st, Err(error))
  }

  function GetTask(st: State, id: TaskId): Option<Task> {
    var tasks := ReadGraph(st).tasks;
    if id in tasks then Some(tasks[id]) else None
  }

  // ── Goals and tasks ───────────────────────────────────────────────────

  function CreateGoal(disk: Disk, st: State, goal: Goal, actor: string): Outcome<Goal> {
    if goal.id in ReadGraph(st).goals then Outcome(st, Ok(ReadGraph(st).goals[goal.id]))
    else if !GoalOk(goal) || actor == "" then Fail(st, InvalidInput)
    else Outcome(AppendEvent(disk, st, GoalCreated(actor, goal)), Ok(goal))
  }

  datatype TaskInput = TaskInput(
    goalId: string, title: string, owner: string, riskClass: RiskClass, source: SourceRef,
    idempotencyKey: Option<string>, actor: string, ts: int)

  datatype Created = Created(task: Task, created: bool)

  const HAND_OWNER_PREFIX := "hand:"

  function DeriveIdempotencyKey(source: SourceRef): string {
    KindName(source.kind) + ":" + source.ref
  }

  function NewTask(input: TaskInput, id: TaskId): Task {
    Task(id, input.goalId, input.title, input.source, input.owner, Proposed, input.riskClass,
         if input.idempotencyKey.Some? then input.idempotencyKey.value else DeriveIdempotencyKey(input.source),
         [], input.ts, [Transition(None, Proposed, input.ts, input.actor, [], Some("created"))])
  }

  function CreateTask(disk: Disk, st: State, input: TaskInput): Outcome<Created> {
    var task := NewTask(input, st.nextTask);
    var named := st.(nextTask := st.nextTask + 1);
    var event := TaskCreated(input.actor, task);
    if StartsWith(input.owner, HAND_OWNER_PREFIX) then Fail(st, HandAuthority)
    else if !TaskOk(task) then Fail(named, InvalidInput)
    else match AppendVerdict(named, event)
      case DedupedTask(id) => Outcome(named, Ok(Created(ReadGraph(named).tasks[id], false)))
      case Invalid => Fail(named, InvalidInput)
      case _ => Outcome(AppendEvent(disk, named, event), Ok(Created(task, true)))
  }

  /** Importing never takes a caller's key. */
  function ImportTask(disk: Disk, st: State, input: TaskInput): Outcome<Created> {
    CreateTask(disk, st, input.(idempotencyKey := Some(DeriveIdempotencyKey(input.source))))
  }

  // ── Evidence and moves ────────────────────────────────────────────────

  function AddEvidence(disk: Disk, st: State, id: TaskId, evidence: EvidenceEntry, actor: string): Outcome<Task> {
    var event := EvidenceAdded(actor, id, evidence);
    var task := GetTask(st, id);
    if task.None? then Fail(st, UnknownTask)
    else if AppendVerdict(st, event).Invalid? then Fail(st, InvalidInput)
    else Outcome(AppendEvent(disk, st, event), Ok(task.value.(evidence := task.value.evidence + [evidence])))
  }

  /** The loop of a move that records each cited reference as evidence of the task. */
  function PromoteRefs(disk: Disk, st: State, task: Task, refs: seq<Ref>, actor: string): Outcome<Task>
    decreases |refs|
  {
    if refs == [] then Outcome(st, Ok(task))
    else
      var added := AddEvidence(disk, st, task.id, EvidenceEntry(refs[0], Other, None), actor);
      if added.result.Err? then added
      else PromoteRefs(disk, added.st, added.result.value, refs[1..], actor)
  }

  /** Apply the transition to the task in hand and append it. */
  function FinishMove(disk: Disk, st: State, task: Task, input: MoveInput): Outcome<Task> {
    var moved := ApplyTransition(task, input);
    if moved.Err? then Fail(st, moved.error)
    else
      var event := Transitioned(input.actor, task.id, moved.value.transitions[|moved.value.transitions| - 1]);
      Outcome(AppendEvent(disk, st, event), moved)
  }

  /** A move without the authority guard: the verifier port's. */
  function MoveTaskAsVerifier(disk: Disk, st: State, input: MoveInput): Outcome<Task> {
    var task := GetTask(st, input.taskId);
    if task.None? then Fail(st, UnknownTask)
    else
      var promoted := PromoteRefs(disk, st, task.value, input.evidenceRefs, input.actor);
      if promoted.result.Err? then promoted
      else FinishMove(disk, promoted.st, promoted.result.value, input)
  }

  function MoveTask(disk: Disk, st: State, input: MoveInput): Outcome<Task> {
    if GetTask(st, input.taskId).None? then Fail(st, UnknownTask)
    else if input.to.Verified? || input.to.Rejected? then Fail(st, HandAuthority)
    else MoveTaskAsVerifier(disk, st, input)
  }

  function ReassignOwnerAsVerifier(disk: Disk, st: State, id: TaskId, owner: string, actor: string,
                                   reason: string): Outcome<Task> {
    var task := GetTask(st, id);
    if IsBlank(owner) || IsBlank(actor) || IsBlank(reason) then Fail(st, InvalidInput)
    else if task.None? then Fail(st, UnknownTask)
    else Outcome(AppendEvent(disk, st, OwnerReassigned(actor, id, task.value.owner, owner, reason)),
                 Ok(task.value.(owner := owner)))
  }

  function ReassignOwner(disk: Disk, st: State, id: TaskId, owner: string, actor: string,
                         reason: string): Outcome<Task> {
    if IsBlank(owner) || IsBlank(actor) || IsBlank(reason) then Fail(st, InvalidInput)
    else if StartsWith(owner, HAND_OWNER_PREFIX) then Fail(st, HandAuthority)
    else ReassignOwnerAsVerifier(disk, st, id, owner, actor, reason)
  }

  // ── The hand adapter ──────────────────────────────────────────────────

  predicate IsActiveHandOwner(task: Task) {
    StartsWith(task.owner, HAND_OWNER_PREFIX) && (task.status.Delegated? || task.status.InProgress?)
  }

  function AssignHand(policy: Policy, disk: Disk, st: State, id: TaskId, handId: string, actor: string,
                      unattended: bool, ts: int)
    : Outcome<Task>
  {
    var hand := policy.hands(handId);
    var task := GetTask(st, id);
    if hand.None? then Fail(st, HandAdapter)
    else if unattended && hand.value.foregroundOnly then Fail(st, HandContext)
    else if task.None? then Fail(st, HandAdapter)
    else if IsActiveHandOwner(task.value) then Fail(st, HandContext)
    else
      var moved := MoveTask(disk, st, MoveInput(id, Delegated, actor, [], Some("assigned to hand:" + handId), ts));
      if moved.result.Err? then moved
      else ReassignOwnerAsVerifier(disk, moved.st, id, HAND_OWNER_PREFIX + handId, actor, "assigned to hand " + handId)
  }

  predicate AlreadySubmitted(task: Task, r: Receipt) {
    exists i :: 0 <= i < |task.evidence| && task.evidence[i].kind.ToolReceipt? && task.evidence[i].ref == Digest(r)
  }

  /** Enter in-progress if the task is still delegated. */
  function StartWork(disk: Disk, st: State, task: Task, id: TaskId, r: Receipt, ts: int): Outcome<Task> {
    if task.status.Delegated?
    then MoveTask(disk, st,
      MoveInput(id, InProgress, r.submittedBy, [], Some("receipt submission requires in-progress"), ts))
    else Outcome(st, Ok(task))
  }

  function RecordReceipt(disk: Disk, st: State, id: TaskId, r: Receipt, ts: int): Outcome<Task> {
    var added := AddEvidence(disk, st, id, EvidenceEntry(Digest(r), ToolReceipt, Some(Json(r))), r.submittedBy);
    if added.result.Err? then added
    else MoveTask(disk, added.st,
      MoveInput(id, EvidenceSubmitted, r.submittedBy, [Digest(r)], Some("receipt kind"), ts))
  }

  function SubmitReceipt(policy: Policy, disk: Disk, st: State, id: TaskId, r: Receipt, ts: int): Outcome<Task> {
    var task := GetTask(st, id);
    if !ReceiptOk(r) then Fail(st, InvalidInput)
    else if r.taskId != id then Fail(st, ReceiptTaskMismatch)
    else if HasSecrets(policy, r) then Fail(st, ReceiptSecret)
    else if task.None? then Fail(st, HandAdapter)
    else if AlreadySubmitted(task.value, r) then Outcome(st, Ok(task.value))
    else
      var started := StartWork(disk, st, task.value, id, r, ts);
      if started.result.Err? then started else RecordReceipt(disk, started.st, id, r, ts)
  }

  function AbortHandTask(disk: Disk, st: State, id: TaskId, actor: string, reason: string, ts: int): Outcome<Task> {
    var task := GetTask(st, id);
    if task.None? then Fail(st, HandAdapter)
    else if !task.value.status.Delegated? && !task.value.status.InProgress? then Fail(st, HandAdapter)
    else MoveTask(disk, st, MoveInput(id, Blocked, actor, [], Some("hand task aborted: " + reason), ts))
  }

  /** The newest tool-receipt entry of an evidence list. */
  function LatestReceipt(evidence: seq<EvidenceEntry>): (e: Option<EvidenceEntry>)
    ensures e.Some? ==> e.value in evidence && e.value.kind.ToolReceipt?
    ensures e.None? ==> forall i :: 0 <= i < |evidence| ==> !evidence[i].kind.ToolReceipt?
  {
    if evidence == [] then None
    else if evidence[|evidence| - 1].kind.ToolReceipt? then Some(evidence[|evidence| - 1])
    else LatestReceipt(evidence[..|evidence| - 1])
  }

  function ParseNote(note: Option<Note>): Option<Receipt> {
    if note.Some? && note.value.Json? && ReceiptOk(note.value.receipt) then Some(note.value.receipt) else None
  }

  function HandActions(policy: Policy, owner: string): seq<string> {
    if !StartsWith(owner, HAND_OWNER_PREFIX) then []
    else
      var hand := policy.hands(owner[|HAND_OWNER_PREFIX|..]);
      if hand.Some? then hand.value.allowedActions else []
  }

  function RiskOf(policy: Policy, task: Task): DelegationRisk {
    policy.classifyRisk(task.title, HandActions(policy, task.owner))
  }

  /** The verdict on a receipt: the primary check at time `tick`, the refuter's at `tick + 1`. */
  predicate Accepts(policy: Policy, env: nat -> Environment, tick: nat, risk: DelegationRisk, r: Receipt) {
    var primary := Verify(policy, env(tick), r);
    var refuter := RunRefuter(policy, env(tick + 1), risk, r, primary);
    primary && (!refuter.triggered || refuter.passed)
  }

  /** Both looks outside, then the move they call for. */
  function Conclude(policy: Policy, env: nat -> Environment, disk: Disk, st: State,
                    task: Task, ref: Ref, receipt: Receipt, id: TaskId, actor: string, ts: int): Outcome<Task>
  {
    var judged := st.(ticks := st.ticks + 2);
    if Accepts(policy, env, st.ticks, RiskOf(policy, task), receipt)
    then MoveTaskAsVerifier(disk, judged, MoveInput(id, Verified, actor, [ref], Some("verified"), ts))
    else MoveTaskAsVerifier(disk, judged, MoveInput(id, Rejected, actor, [], Some("rejected"), ts))
  }

  function VerifyAndTransition(policy: Policy, env: nat -> Environment, disk: Disk, st: State, id: TaskId,
                               actor: string, ts: int)
    : Outcome<Task>
  {
    var task := GetTask(st, id);
    if task.None? then Fail(st, HandAdapter)
    else if !task.value.status.EvidenceSubmitted? then Fail(st, HandAdapter)
    else
      var latest := LatestReceipt(task.value.evidence);
      if latest.None? then
        MoveTaskAsVerifier(disk, st,
          MoveInput(id, Rejected, actor, [], Some("no receipt evidence found to verify"), ts))
      else
        var receipt := ParseNote(latest.value.note);
        if receipt.None? then Fail(st, HandAdapter)
        else Conclude(policy, env, disk, st, task.value, latest.value.ref, receipt.value, id, actor, ts)
  }

  // ── Runs ──────────────────────────────────────────────────────────────

  /** Everything a caller outside the verifier port can ask for. */
  datatype Op =
    | OpCreateGoal(goal: Goal, actor: string)
    | OpCreateTask(input: TaskInput)
    | OpImportTask(input: TaskInput)
    | OpMoveTask(move: MoveInput)
    | OpReassignOwner(id: TaskId, owner: string, actor: string, reason: string)
    | OpAddEvidence(id: TaskId, evidence: EvidenceEntry, actor: string)
    | OpAssignHand(id: TaskId, handId: string, actor: string, unattended: bool, ts: int)
    | OpSubmitReceipt(id: TaskId, receipt: Receipt, ts: int)
    | OpAbortHandTask(id: TaskId, actor: string, reason: string, ts: int)
    | OpVerifyAndTransition(id: TaskId, actor: string, ts: int)

  datatype Machine = Machine(policy: Policy, env: nat -> Environment, disk: Disk)

  function Apply(m: Machine, st: State, op: Op): State {
    match op
    case OpCreateGoal(goal, actor) => CreateGoal(m.disk, st, goal, actor).st
    case OpCreateTask(input) => CreateTask(m.disk, st, input).st
    case OpImportTask(input) => ImportTask(m.disk, st, input).st
    case OpMoveTask(move) => MoveTask(m.disk, st, move).st
    case OpReassignOwner(id, owner, actor, reason) => ReassignOwner(m.disk, st, id, owner, actor, reason).st
    case OpAddEvidence(id, evidence, actor) => AddEvidence(m.disk, st, id, evidence, actor).st
    case OpAssignHand(id, handId, actor, unattended, ts) =>
      AssignHand(m.policy, m.disk, st, id, handId, actor, unattended, ts).st
    case OpSubmitReceipt(id, receipt, ts) => SubmitReceipt(m.policy, m.disk, st, id, receipt, ts).st
    case OpAbortHandTask(id, actor, reason, ts) => AbortHandTask(m.disk, st, id, actor, reason, ts).st
    case OpVerifyAndTransition(id, actor, ts) => VerifyAndTransition(m.policy, m.env, m.disk, st, id, actor, ts).st
  }

  function Run(m: Machine, st: State, ops: seq<Op>): State {
    if ops == [] then st else Apply(m, Run(m, st, ops[..|ops| - 1]), ops[|ops| - 1])
  }
}
