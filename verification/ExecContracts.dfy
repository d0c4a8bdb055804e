/**
 * Goals, tasks, transitions and ledger events of the execution graph with their
 * schema rules (src/exec-graph/contracts.ts), and the lifecycle table with the pure
 * transition function (src/exec-graph/transitions.ts).
 */
module ExecContracts {
  import opened Common
  import opened Text
  import opened HandContract

  datatype Status =
    | Proposed | Accepted | Planned | Delegated | InProgress | Blocked
    | EvidenceSubmitted | Verified | Rejected | Closed | Escalated

  datatype RiskClass = Low | Medium | High | Irreversible

  datatype SourceKind =
    | ExecGraphSource | ExternalCtoBrief | CeoChat | VolauraWorkQueue | OperatorTasks | SupabaseQueue | TelegramSpawner

  datatype SourceRef = SourceRef(kind: SourceKind, ref: string)

  function KindName(kind: SourceKind): string {
    match kind
    case ExecGraphSource => "exec-graph"
    case ExternalCtoBrief => "external-cto-brief"
    case CeoChat => "ceo-chat"
    case VolauraWorkQueue => "volaura-work-queue"
    case OperatorTasks => "operator-tasks"
    case SupabaseQueue => "supabase-queue"
    case TelegramSpawner => "telegram-spawner"
  }

  datatype EvidenceKind = Commit | TestOutput | File | Url | ToolReceipt | Other

  /** Evidence references: text, or the digest of a receipt (an injective function of it). */
  datatype Ref = Text(text: string) | Digest(receipt: Receipt)

  /** Evidence notes: text, or the JSON text of a receipt-shaped object. */
  datatype Note = Plain(text: string) | Json(receipt: Receipt)

  datatype EvidenceEntry = EvidenceEntry(ref: Ref, kind: EvidenceKind, note: Option<Note>)

  datatype Transition = Transition(
    from: Option<Status>, to: Status, ts: int, actor: string, evidenceRefs: seq<Ref>, note: Option<string>)

  datatype Goal = Goal(id: string, title: string, source: SourceRef, createdAt: int)

  datatype Task = Task(
    id: TaskId,
    goalId: string,
    title: string,
    source: SourceRef,
    owner: string,
    status: Status,
    riskClass: RiskClass,
    idempotencyKey: string,
    evidence: seq<EvidenceEntry>,
    createdAt: int,
    transitions: seq<Transition>)

  datatype Event =
    | GoalCreated(actor: string, goal: Goal)
    | TaskCreated(actor: string, task: Task)
    | Transitioned(actor: string, taskId: TaskId, transition: Transition)
    | EvidenceAdded(actor: string, taskId: TaskId, evidence: EvidenceEntry)
    | OwnerReassigned(actor: string, taskId: TaskId, from: string, to: string, reason: string)

  // ── Schemas ───────────────────────────────────────────────────────────

  predicate RefOk(ref: Ref) {
    ref.Text? ==> ref.text != ""
  }

  predicate EvidenceOk(e: EvidenceEntry) {
    RefOk(e.ref) && (e.note.Some? && e.note.value.Plain? ==> e.note.value.text != "")
  }

  predicate TransitionOk(t: Transition) {
    && t.actor != ""
    && (forall i :: 0 <= i < |t.evidenceRefs| ==> RefOk(t.evidenceRefs[i]))
    && NonEmptyIfPresent(t.note)
    && (t.to.Verified? || t.to.EvidenceSubmitted? ==> t.evidenceRefs != [])
  }

  predicate IdChar(c: char) {
    'a' <= c <= 'z' || '0' <= c <= '9'
  }

  predicate GoalIdOk(id: string) {
    && StartsWith(id, "gol_") && 6 <= |id| <= 85 && IdChar(id[4])
    && forall i :: 5 <= i < |id| ==> IdChar(id[i]) || id[i] == '.' || id[i] == '_' || id[i] == '-'
  }

  predicate GoalOk(g: Goal) {
    GoalIdOk(g.id) && g.title != "" && g.source.ref != ""
  }

  predicate TaskOk(t: Task) {
    && GoalIdOk(t.goalId) && t.title != "" && t.source.ref != "" && t.owner != "" && t.idempotencyKey != ""
    && (forall i :: 0 <= i < |t.evidence| ==> EvidenceOk(t.evidence[i]))
    && (forall i :: 0 <= i < |t.transitions| ==> TransitionOk(t.transitions[i]))
    && (t.status.Verified? || t.status.Closed? ==> t.evidence != [])
  }

  predicate EventOk(e: Event) {
    && e.actor != ""
    && match e
       case GoalCreated(_, goal) => GoalOk(goal)
       case TaskCreated(_, task) => TaskOk(task)
       case Transitioned(_, _, transition) => TransitionOk(transition)
       case EvidenceAdded(_, _, evidence) => EvidenceOk(evidence)
       case OwnerReassigned(_, _, _, to, reason) => to != "" && reason != ""
  }

  // ── Lifecycle ─────────────────────────────────────────────────────────

  function LegalTransitions(from: Status): set<Status> {
    match from
    case Proposed => {Accepted, Rejected, Escalated}
    case Accepted => {Planned, Escalated}
    case Planned => {Delegated, InProgress, Escalated}
    case Delegated => {InProgress, Blocked, Escalated}
    case InProgress => {Blocked, EvidenceSubmitted, Escalated}
    case Blocked => {InProgress, Rejected, Escalated}
    case EvidenceSubmitted => {Verified, Rejected, Escalated}
    case Verified => {Closed, Escalated}
    case Rejected => {Closed, Proposed, Escalated}
    case Escalated => {Accepted, Rejected, Blocked, InProgress}
    case Closed => {}
  }

  predicate MayLeaveEscalation(actor: string) {
    actor == "ceo" || actor == "external-cto"
  }

  datatype Error =
    | UnknownTask | InvalidInput | HandAuthority
    | IllegalTransition | UnauthorizedTransition | InvalidTransition
    | HandContext | HandAdapter | ReceiptSecret | ReceiptTaskMismatch

  datatype MoveInput = MoveInput(taskId: TaskId, to: Status, actor: string, evidenceRefs: seq<Ref>,
    note: Option<string>, ts: int)

  function ApplyTransition(task: Task, input: MoveInput): Result<Task, Error> {
    var transition := Transition(Some(task.status), input.to, input.ts, input.actor, input.evidenceRefs, input.note);
    var next := task.(status := input.to, transitions := task.transitions + [transition]);
    if IsBlank(input.actor) then Err(InvalidTransition)
    else if input.to !in LegalTransitions(task.status) then Err(IllegalTransition)
    else if task.status.Escalated? && !MayLeaveEscalation(input.actor) then Err(UnauthorizedTransition)
    else if !TransitionOk(transition) then Err(InvalidTransition)
    else if !TaskOk(next) then Err(InvalidTransition)
    else Ok(next)
  }
}
