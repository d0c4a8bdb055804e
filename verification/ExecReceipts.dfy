/**
 * Whose receipt a verified task cites (src/hands/exec-graph-adapter.ts:348-405,
 * src/exec-graph/api.ts:309-319).  Submitting a receipt compares its task with the one it
 * is submitted for; recording it as evidence and verifying it do not.  So every verdict is
 * about a receipt of its own task exactly if those recorded directly name their task.
 */
module ExecReceipts {
  import opened Common
  import opened Text
  import opened HandContract
  import opened ExecContracts
  import opened ExecLedger
  import opened ExecApi
  import opened ExecSafety
  import opened ExecSteps
  import opened ExecWaiting
  import opened ExecBare

  // ── Own receipts ──────────────────────────────────────────────────────

  predicate OwnEvent(e: Event) {
    e.EvidenceAdded? ==> OwnReceipt(e.taskId, e.evidence)
  }

  predicate AllOwn(st: State) {
    forall i :: 0 <= i < |st.ledger| ==> OwnEvent(st.ledger[i])
  }

  lemma AppendKeepsOwn(disk: Disk, st: State, e: Event)
    requires AllOwn(st) && OwnEvent(e)
    ensures AllOwn(AppendEvent(disk, st, e))
  {}

  lemma {:induction false} PromoteKeepsOwn(disk: Disk, st: State, task: Task, refs: seq<Ref>, actor: string)
    requires AllOwn(st)
    ensures AllOwn(PromoteRefs(disk, st, task, refs, actor).st)
    decreases |refs|
  {
    if refs != [] {
      var entry := EvidenceEntry(refs[0], Other, None);
      AppendKeepsOwn(disk, st, EvidenceAdded(actor, task.id, entry));
      var added := AddEvidence(disk, st, task.id, entry, actor);
      if added.result.Ok? {
        PromoteKeepsOwn(disk, added.st, added.result.value, refs[1..], actor);
      }
    }
  }

  lemma FinishKeepsOwn(disk: Disk, st: State, task: Task, input: MoveInput)
    requires AllOwn(st)
    ensures AllOwn(FinishMove(disk, st, task, input).st)
  {
    var moved := ApplyTransition(task, input);
    if moved.Ok? {
      var t := moved.value.transitions[|moved.value.transitions| - 1];
      AppendKeepsOwn(disk, st, Transitioned(input.actor, task.id, t));
    }
  }

  lemma PortKeepsOwn(disk: Disk, st: State, input: MoveInput)
    requires AllOwn(st)
    ensures AllOwn(MoveTaskAsVerifier(disk, st, input).st)
  {
    var task := GetTask(st, input.taskId);
    if task.Some? {
      PromoteKeepsOwn(disk, st, task.value, input.evidenceRefs, input.actor);
      var promoted := PromoteRefs(disk, st, task.value, input.evidenceRefs, input.actor);
      if promoted.result.Ok? {
        FinishKeepsOwn(disk, promoted.st, promoted.result.value, input);
      }
    }
  }

  lemma StepKeepsOwn(m: Machine, st: State, step: Step)
    requires AllOwn(st) && OwnStep(step)
    ensures AllOwn(Do(m, st, step))
  {
    match step
    case GoalStep(goal, actor) => AppendKeepsOwn(m.disk, st, GoalCreated(actor, goal));
    case TaskStep(input) =>
      CreateEndsInOneOf(m.disk, st, input);
      var named := st.(nextTask := st.nextTask + 1);
      AppendKeepsOwn(m.disk, named, TaskCreated(input.actor, NewTask(input, st.nextTask)));
    case EvidenceStep(id, entry, actor) => AppendKeepsOwn(m.disk, st, EvidenceAdded(actor, id, entry));
    case OwnerStep(id, owner, actor, reason) =>
      if GetTask(st, id).Some? {
        AppendKeepsOwn(m.disk, st, OwnerReassigned(actor, id, GetTask(st, id).value.owner, owner, reason));
      }
    case MoveStep(move) => PortKeepsOwn(m.disk, st, move);
    case LookStep =>
  }

  /** The transition is justified, by a receipt that names the task. */
  ghost predicate JustifiedByOwn(m: Machine, ticks: nat, prefix: seq<Event>, id: TaskId, t: Transition) {
    exists j: nat, n: nat, shown :: j < |prefix| && n + 2 <= ticks && JustifiedBy(m, prefix, id, t, j, n, shown)
      && ParseNote(prefix[j].evidence.note).value.taskId == id
  }

  ghost predicate OwnVerdicts(m: Machine, st: State) {
    forall i :: 0 <= i < |st.ledger| && st.ledger[i].Transitioned? && st.ledger[i].transition.to.Verified? ==>
      JustifiedByOwn(m, st.ticks, st.ledger[..i], st.ledger[i].taskId, st.ledger[i].transition)
  }

  lemma OwnReceiptsJustify(m: Machine, st: State)
    requires LedgerSound(m, st) && AllOwn(st)
    ensures OwnVerdicts(m, st)
  {
    forall i | 0 <= i < |st.ledger| && st.ledger[i].Transitioned? && st.ledger[i].transition.to.Verified?
      ensures JustifiedByOwn(m, st.ticks, st.ledger[..i], st.ledger[i].taskId, st.ledger[i].transition)
    {
      var e, prefix := st.ledger[i], st.ledger[..i];
      assert EventSound(m, st.ticks, prefix, e);
      var j: nat, n: nat, shown :|
        j < |prefix| && n + 2 <= st.ticks && JustifiedBy(m, prefix, e.taskId, e.transition, j, n, shown);
      assert prefix[j] == st.ledger[j] && OwnEvent(st.ledger[j]);
    }
  }

  /** Under any disk failure: if callers record only receipts of the task they record them
      for, every verified task was verified on a receipt of its own. */
  lemma OwnReceiptsVerifyTheirTask(m: Machine, ops: seq<Op>)
    requires forall i :: 0 <= i < |ops| ==> OwnOp(ops[i])
    ensures OwnVerdicts(m, Run(m, INITIAL_STATE, ops))
  {
    var claim: Claim := st => AllOwn(st);
    forall st, step | Inv(m, st) && claim(st) && Guarded(st, step) && OwnStep(step) && Inv(m, Do(m, st, step))
      ensures claim(Do(m, st, step))
    {
      StepKeepsOwn(m, st, step);
    }
    EveryRunKeepsInv(m, []);
    RunKeeps(m, claim, true, INITIAL_STATE, ops);
    EveryRunKeepsInv(m, ops);
    OwnReceiptsJustify(m, Run(m, INITIAL_STATE, ops));
  }

  // ── A receipt of another task ─────────────────────────────────────────

  /** graph.json shows just this task, after `ticks` looks outside. */
  predicate Lone(st: State, ticks: nat, id: TaskId, task: Task) {
    && st.file == Some(Only(id, task)) && st.ticks == ticks
    && task.id == id && TaskOk(task) && task.owner == "atlas" && task.title == INPUT.title
  }

  /** The only receipt on record is `entry`. */
  predicate SoleReceipt(ledger: seq<Event>, entry: EvidenceEntry) {
    forall i :: 0 <= i < |ledger| && ledger[i].EvidenceAdded? && ledger[i].evidence.kind.ToolReceipt? ==>
      ledger[i].evidence == entry
  }

  predicate Neutral(e: Event, entry: EvidenceEntry) {
    e.EvidenceAdded? ==> e.evidence == entry || !e.evidence.kind.ToolReceipt?
  }

  predicate Stands(st: State, ticks: nat, id: TaskId, task: Task, entry: EvidenceEntry) {
    Lone(st, ticks, id, task) && SoleReceipt(st.ledger, entry)
  }

  lemma LoneAppend(m: Machine, st: State, id: TaskId, task: Task, entry: EvidenceEntry, e: Event, next: Task)
    requires Reliable(m.disk) && Stands(st, st.ticks, id, task, entry) && EventOk(e) && Neutral(e, entry)
    requires (e.Transitioned? || e.EvidenceAdded?) && ApplyEvent(Only(id, task), e) == Only(id, next)
    requires next.id == id && TaskOk(next) && next.owner == "atlas" && next.title == INPUT.title
    ensures AppendVerdict(st, e).Recorded? && Stands(AppendEvent(m.disk, st, e), st.ticks, id, next, entry)
    ensures AppendEvent(m.disk, st, e).ledger == st.ledger + [e]
  {
    assert m.disk(st.writes) == AllOk;
    assert ReadGraph(st) == Only(id, task);
  }

  function WithEvidence(task: Task, entry: EvidenceEntry): Task {
    task.(evidence := task.evidence + [entry])
  }

  lemma LoneAdd(m: Machine, st: State, id: TaskId, task: Task, entry: EvidenceEntry, added: EvidenceEntry)
    requires Reliable(m.disk) && Stands(st, st.ticks, id, task, entry)
    requires EvidenceOk(added) && (added == entry || !added.kind.ToolReceipt?)
    ensures var o := AddEvidence(m.disk, st, id, added, "ceo");
      o.result == Ok(WithEvidence(task, added)) && Stands(o.st, st.ticks, id, WithEvidence(task, added), entry)
  {
    assert ReadGraph(st) == Only(id, task);
    LoneAppend(m, st, id, task, entry, EvidenceAdded("ceo", id, added), WithEvidence(task, added));
  }

  lemma LoneFinish(m: Machine, st: State, task: Task, entry: EvidenceEntry, input: MoveInput)
    requires Reliable(m.disk) && Stands(st, st.ticks, input.taskId, task, entry) && input.actor == "ceo"
    requires input.to in LegalTransitions(task.status) && NonEmptyIfPresent(input.note)
    requires forall i :: 0 <= i < |input.evidenceRefs| ==> RefOk(input.evidenceRefs[i])
    requires input.to.EvidenceSubmitted? || input.to.Verified? ==> input.evidenceRefs != [] && task.evidence != []
    requires !input.to.Closed?
    ensures var o := FinishMove(m.disk, st, task, input);
      && o.result.Ok? && o.result.value.status == input.to && o.result.value.evidence == task.evidence
      && Stands(o.st, st.ticks, input.taskId, o.result.value, entry)
      && (exists t :: o.st.ledger == st.ledger + [Transitioned("ceo", input.taskId, t)] && t.to == input.to)
  {
    var t := Transition(Some(task.status), input.to, input.ts, "ceo", input.evidenceRefs, input.note);
    var next := task.(status := input.to, transitions := task.transitions + [t]);
    assert !IsWhitespace("ceo"[0]);
    assert TransitionOk(t) && TaskOk(next);
    assert ApplyTransition(task, input) == Ok(next);
    assert next.transitions[|next.transitions| - 1] == t;
    var e := Transitioned("ceo", input.taskId, t);
    assert ApplyEvent(Only(input.taskId, task), e) == Only(input.taskId, next);
    LoneAppend(m, st, input.taskId, task, entry, e, next);
  }

  /** A move that cites nothing. */
  lemma LoneMove(m: Machine, st: State, id: TaskId, task: Task, entry: EvidenceEntry, to: Status) returns (next: Task)
    requires Reliable(m.disk) && Stands(st, st.ticks, id, task, entry) && to in LegalTransitions(task.status)
    requires !to.EvidenceSubmitted? && !to.Verified? && !to.Rejected? && !to.Closed?
    ensures Stands(Apply(m, st, MoveTo(id, to, [])), st.ticks, id, next, entry) && next.status == to
      && next.evidence == task.evidence
  {
    var input := MoveInput(id, to, "ceo", [], None, 0);
    assert ReadGraph(st) == Only(id, task);
    assert PromoteRefs(m.disk, st, task, [], "ceo") == Outcome(st, Ok(task));
    LoneFinish(m, st, task, entry, input);
    next := FinishMove(m.disk, st, task, input).result.value;
  }

  /** A move through the port that cites one reference. */
  lemma LoneCite(m: Machine, st: State, task: Task, entry: EvidenceEntry, input: MoveInput) returns (next: Task)
    requires Reliable(m.disk) && Stands(st, st.ticks, input.taskId, task, entry) && input.actor == "ceo"
    requires input.to in LegalTransitions(task.status) && !input.to.Closed?
    requires input.evidenceRefs == [entry.ref] && RefOk(entry.ref) && NonEmptyIfPresent(input.note)
    ensures var o := MoveTaskAsVerifier(m.disk, st, input);
      && Stands(o.st, st.ticks, input.taskId, next, entry) && next.status == input.to
      && next.evidence == task.evidence + [EvidenceEntry(entry.ref, Other, None)]
      && o.st.ledger != [] && o.st.ledger[|o.st.ledger| - 1].Transitioned?
      && o.st.ledger[|o.st.ledger| - 1].taskId == input.taskId
      && o.st.ledger[|o.st.ledger| - 1].transition.to == input.to
  {
    var cited := EvidenceEntry(entry.ref, Other, None);
    assert ReadGraph(st) == Only(input.taskId, task);
    LoneAdd(m, st, input.taskId, task, entry, cited);
    var added := AddEvidence(m.disk, st, input.taskId, cited, "ceo");
    assert [entry.ref][1..] == [];
    assert PromoteRefs(m.disk, st, task, [entry.ref], "ceo") == Outcome(added.st, Ok(WithEvidence(task, cited)));
    LoneFinish(m, added.st, WithEvidence(task, cited), entry, input);
    next := FinishMove(m.disk, added.st, WithEvidence(task, cited), input).result.value;
  }

  // ── The run ───────────────────────────────────────────────────────────

  /** An input that takes an id and creates nothing. */
  const UNTITLED := INPUT.(title := "")

  lemma {:induction false} TakesIds(m: Machine, id: TaskId) returns (ops: seq<Op>)
    ensures Reached(m, ops) == INITIAL_STATE.(nextTask := id) && forall i :: 0 <= i < |ops| ==> OwnOp(ops[i])
  {
    if id == 0 {
      ops := [];
    } else {
      var before := TakesIds(m, id - 1);
      ops := before + [OpCreateTask(UNTITLED)];
      RunStep(m, INITIAL_STATE, before, OpCreateTask(UNTITLED));
      assert "atlas"[0] != HAND_OWNER_PREFIX[0];
    }
  }

  lemma CreatesLone(m: Machine, id: TaskId, entry: EvidenceEntry)
    requires Reliable(m.disk)
    ensures var st := Apply(m, INITIAL_STATE.(nextTask := id), OpCreateTask(INPUT));
      Stands(st, 0, id, NewTask(INPUT, id), entry)
  {
    InputIsOk(id);
    var named := INITIAL_STATE.(nextTask := id + 1);
    var e := TaskCreated("atlas", NewTask(INPUT, id));
    assert ReadGraph(named) == EMPTY_SNAPSHOT;
    assert AppendVerdict(named, e).Recorded?;
    assert ApplyEvent(EMPTY_SNAPSHOT, e) == OneTask(id) == Only(id, NewTask(INPUT, id));
    assert m.disk(0) == AllOk;
  }

  predicate IsAddOf(op: Op, id: TaskId, entry: EvidenceEntry) {
    op.OpAddEvidence? && op.id == id && op.evidence == entry
  }

  /** Of all receipts recorded directly as evidence, only `entry`, for task `id`, may name another task. */
  predicate AddsAtMost(ops: seq<Op>, id: TaskId, entry: EvidenceEntry) {
    forall i :: 0 <= i < |ops| ==> OwnOp(ops[i]) || IsAddOf(ops[i], id, entry)
  }

  /** A receipt that is fit to be recorded, and that the verifier accepts for the task of these runs. */
  predicate Acceptable(m: Machine, entry: EvidenceEntry) {
    && entry.kind.ToolReceipt? && EvidenceOk(entry) && ParseNote(entry.note).Some?
    && Accepts(m.policy, m.env, 0, m.policy.classifyRisk(INPUT.title, []), ParseNote(entry.note).value)
  }

  /** After `st` accepts `entry` for `task`, the verified transition has no receipt but `entry` to cite. */
  lemma ForeignVerdict(m: Machine, st: State, id: TaskId, task: Task, entry: EvidenceEntry)
    requires Stands(st, st.ticks, id, task, entry) && ParseNote(entry.note).Some?
    requires st.ledger != [] && st.ledger[|st.ledger| - 1].Transitioned?
    requires st.ledger[|st.ledger| - 1].taskId == id && st.ledger[|st.ledger| - 1].transition.to.Verified?
    requires ParseNote(entry.note).value.taskId != id
    ensures !OwnVerdicts(m, st)
  {
    var i := |st.ledger| - 1;
    assert !JustifiedByOwn(m, st.ticks, st.ledger[..i], id, st.ledger[i].transition);
  }

  lemma VerifiesLone(m: Machine, st: State, id: TaskId, task: Task, entry: EvidenceEntry)
    requires Reliable(m.disk) && Acceptable(m, entry) && Stands(st, 0, id, task, entry)
      && task.status.EvidenceSubmitted?
    requires task.evidence == [entry, EvidenceEntry(entry.ref, Other, None)]
    requires ParseNote(entry.note).value.taskId != id
    ensures !OwnVerdicts(m, Apply(m, st, OpVerifyAndTransition(id, "ceo", 0)))
  {
    var input := MoveInput(id, Verified, "ceo", [entry.ref], Some("verified"), 0);
    var judged := st.(ticks := 2);
    VerifyIsMove(m, st, id, task, entry);
    var next := LoneCite(m, judged, task, entry, input);
    ForeignVerdict(m, MoveTaskAsVerifier(m.disk, judged, input).st, id, next, entry);
  }

  lemma VerifyIsMove(m: Machine, st: State, id: TaskId, task: Task, entry: EvidenceEntry)
    requires Acceptable(m, entry) && Stands(st, 0, id, task, entry) && task.status.EvidenceSubmitted?
    requires task.evidence == [entry, EvidenceEntry(entry.ref, Other, None)]
    ensures Apply(m, st, OpVerifyAndTransition(id, "ceo", 0))
         == MoveTaskAsVerifier(m.disk, st.(ticks := 2),
           MoveInput(id, Verified, "ceo", [entry.ref], Some("verified"), 0)).st
  {
    assert ReadGraph(st) == Only(id, task);
    assert task.evidence[..1] == [entry] && LatestReceipt(task.evidence) == Some(entry);
    assert "atlas"[0] != HAND_OWNER_PREFIX[0];
    assert RiskOf(m.policy, task) == m.policy.classifyRisk(INPUT.title, []);
  }

  /** After `ops`, which record at most `entry`, graph.json shows just this task. */
  predicate StandsAfter(m: Machine, ops: seq<Op>, id: TaskId, task: Task, entry: EvidenceEntry) {
    AddsAtMost(ops, id, entry) && Stands(Reached(m, ops), 0, id, task, entry)
  }

  lemma Created(m: Machine, id: TaskId, entry: EvidenceEntry) returns (ops: seq<Op>)
    requires Reliable(m.disk)
    ensures StandsAfter(m, ops, id, NewTask(INPUT, id), entry)
  {
    var before := TakesIds(m, id);
    ops := before + [OpCreateTask(INPUT)];
    RunStep(m, INITIAL_STATE, before, OpCreateTask(INPUT));
    CreatesLone(m, id, entry);
  }

  lemma MovedOn(m: Machine, before: seq<Op>, id: TaskId, task: Task, entry: EvidenceEntry, to: Status)
    returns (ops: seq<Op>, next: Task)
    requires Reliable(m.disk) && StandsAfter(m, before, id, task, entry) && to in LegalTransitions(task.status)
    requires !to.EvidenceSubmitted? && !to.Verified? && !to.Rejected? && !to.Closed?
    ensures StandsAfter(m, ops, id, next, entry) && next.status == to && next.evidence == task.evidence
  {
    ops := before + [MoveTo(id, to, [])];
    RunStep(m, INITIAL_STATE, before, MoveTo(id, to, []));
    next := LoneMove(m, Reached(m, before), id, task, entry, to);
  }

  lemma Added(m: Machine, before: seq<Op>, id: TaskId, task: Task, entry: EvidenceEntry) returns (ops: seq<Op>)
    requires Reliable(m.disk) && StandsAfter(m, before, id, task, entry) && EvidenceOk(entry)
    ensures StandsAfter(m, ops, id, WithEvidence(task, entry), entry)
  {
    ops := before + [OpAddEvidence(id, entry, "ceo")];
    RunStep(m, INITIAL_STATE, before, OpAddEvidence(id, entry, "ceo"));
    LoneAdd(m, Reached(m, before), id, task, entry, entry);
  }

  lemma Submitted(m: Machine, before: seq<Op>, id: TaskId, task: Task, entry: EvidenceEntry)
    returns (ops: seq<Op>, next: Task)
    requires Reliable(m.disk) && StandsAfter(m, before, id, task, entry) && task.status.InProgress? && RefOk(entry.ref)
    ensures StandsAfter(m, ops, id, next, entry) && next.status.EvidenceSubmitted?
    ensures next.evidence == task.evidence + [EvidenceEntry(entry.ref, Other, None)]
  {
    var op := MoveTo(id, EvidenceSubmitted, [entry.ref]);
    ops := before + [op];
    RunStep(m, INITIAL_STATE, before, op);
    assert ReadGraph(Reached(m, before)) == Only(id, task);
    next := LoneCite(m, Reached(m, before), task, entry, op.move);
  }

  /** A run that records a receipt of another task, and verifies the task on it. */
  lemma AForeignReceiptVerifies(m: Machine, id: TaskId, entry: EvidenceEntry) returns (ops: seq<Op>)
    requires Reliable(m.disk) && Acceptable(m, entry) && ParseNote(entry.note).value.taskId != id
    ensures AddsAtMost(ops, id, entry) && !OwnVerdicts(m, Run(m, INITIAL_STATE, ops))
  {
    var task := NewTask(INPUT, id);
    ops := Created(m, id, entry);
    ops, task := MovedOn(m, ops, id, task, entry, Escalated);
    ops, task := MovedOn(m, ops, id, task, entry, InProgress);
    ops := Added(m, ops, id, task, entry);
    ops, task := Submitted(m, ops, id, WithEvidence(task, entry), entry);
    VerifiesLone(m, Reached(m, ops), id, task, entry);
    var op := OpVerifyAndTransition(id, "ceo", 0);
    RunStep(m, INITIAL_STATE, ops, op);
    ops := ops + [op];
  }

  /**
   * When the ids agree.  Let callers record, apart from receipts of the tasks they record
   * them for, one more receipt that the verifier accepts.  Every task then verified, in
   * whatever run, was verified on a receipt of its own exactly if that receipt, too, names
   * the task it is recorded for -- even if no write ever fails.
   */
  lemma VerdictsAreOwnIff(m: Machine, id: TaskId, entry: EvidenceEntry)
    requires Reliable(m.disk) && Acceptable(m, entry)
    ensures (forall ops :: AddsAtMost(ops, id, entry) ==> OwnVerdicts(m, Run(m, INITIAL_STATE, ops)))
        <==> ParseNote(entry.note).value.taskId == id
  {
    if ParseNote(entry.note).value.taskId == id {
      forall ops | AddsAtMost(ops, id, entry) ensures OwnVerdicts(m, Run(m, INITIAL_STATE, ops)) {
        OwnReceiptsVerifyTheirTask(m, ops);
      }
    } else {
      var ops := AForeignReceiptVerifies(m, id, entry);
    }
  }
}
