/**
 * On which disks every task that rests on evidence has some (src/exec-graph/contracts.ts:80-149,
 * src/exec-graph/api.ts:208-245), in what reads show and in the rebuild.
 */
module ExecResting {
  import opened Common
  import opened Text
  import opened HandContract
  import opened ExecContracts
  import opened ExecLedger
  import opened ExecApi
  import opened ExecSafety
  import opened ExecSteps
  import opened ExecShown
  import opened ExecReconciliation

  // ── The rebuild ───────────────────────────────────────────────────────

  /** Before `w`, a task can have been recorded as submitted without evidence: after three
      shown writes, an append that fails and then one that does not. */
  predicate BareRecorded(disk: Disk, w: nat) {
    w > 0 && (BareRecorded(disk, w - 1)
              || (w >= 2 && disk(w - 2).AppendFails? && !disk(w - 1).AppendFails? && ShownCount(disk, w - 2) >= 3))
  }

  predicate HasEvidence(g: Snapshot, id: TaskId) {
    id in g.tasks && g.tasks[id].evidence != []
  }

  /** Every recorded step into a status that rests on evidence is of a task that has some. */
  predicate EventsBacked(ledger: seq<Event>) {
    forall i :: 0 <= i < |ledger| && ledger[i].Transitioned? && RestsOnEvidence(ledger[i].transition.to) ==>
      HasEvidence(Fold(ledger), ledger[i].taskId)
  }

  predicate Backed(disk: Disk, st: State) {
    BareRecorded(disk, st.writes) || EventsBacked(st.ledger)
  }

  lemma {:induction false} BareRecordedLasts(disk: Disk, w: nat, v: nat)
    requires w <= v && BareRecorded(disk, w)
    ensures BareRecorded(disk, v)
  {
    if w < v {
      BareRecordedLasts(disk, w, v - 1);
    }
  }

  lemma {:induction false} SubmittedMeansThree(disk: Disk, w: nat)
    requires BareSubmitted(disk, w)
    ensures ShownCount(disk, w) >= 3
  {
    if BareSubmitted(disk, w - 1) {
      SubmittedMeansThree(disk, w - 1);
    } else {
      CountGrows(disk, w - 2, w);
    }
  }

  /** A task shown in progress took three shown writes, whatever became of the snapshots. */
  lemma InProgressMeansThree(m: Machine, st: State, id: TaskId)
    requires Inv(m, st) && Paced(m.disk, st) && id in ReadGraph(st).tasks && ReadGraph(st).tasks[id].status.InProgress?
    ensures ShownCount(m.disk, st.writes) >= 3
  {
    if st.clean {
      InProgressIsThird(ReadGraph(st).tasks[id]);
      assert Stage(m.disk, st.writes, ReadGraph(st).tasks[id]);
    } else {
      StagesNest(m.disk, st.writes);
      SubmittedMeansThree(m.disk, st.writes);
    }
  }

  lemma {:induction false} StatusIsRecorded(events: seq<Event>, id: TaskId) returns (j: nat)
    requires id in Fold(events).tasks && !Fold(events).tasks[id].status.Proposed?
    requires forall i :: 0 <= i < |events| && events[i].TaskCreated? ==> events[i].task.status.Proposed?
    ensures j < |events| && events[j].Transitioned? && events[j].taskId == id
    ensures events[j].transition.to == Fold(events).tasks[id].status
  {
    var front, last := events[..|events| - 1], events[|events| - 1];
    if last.Transitioned? && last.taskId == id && id in Fold(front).tasks {
      j := |events| - 1;
    } else {
      j := StatusIsRecorded(front, id);
    }
  }

  /** A task that reads show resting on evidence was recorded as doing so. */
  lemma ShownRestIsRecorded(m: Machine, st: State, id: TaskId)
    requires Inv(m, st) && id in ReadGraph(st).tasks && RestsOnEvidence(ReadGraph(st).tasks[id].status)
    requires EventsBacked(st.ledger)
    ensures HasEvidence(Fold(st.ledger), id)
  {
    var part := ReadShowsSubsequence(st);
    forall i | 0 <= i < |part| && part[i].TaskCreated? ensures part[i].task.status.Proposed? {
      SubsequenceMembers(part, st.ledger, i);
      var k :| 0 <= k < |st.ledger| && st.ledger[k] == part[i];
      assert EventSound(m, st.ticks, st.ledger[..k], st.ledger[k]);
    }
    var j := StatusIsRecorded(part, id);
    SubsequenceMembers(part, st.ledger, j);
    var k :| 0 <= k < |st.ledger| && st.ledger[k] == part[j];
    assert RestsOnEvidence(st.ledger[k].transition.to);
  }

  // ── One append ────────────────────────────────────────────────────────

  predicate EventBacked(disk: Disk, st: State, e: Event) {
    e.Transitioned? && RestsOnEvidence(e.transition.to) && !disk(st.writes).AppendFails? ==>
      HasEvidence(Fold(st.ledger), e.taskId) || BareRecorded(disk, st.writes + 1)
  }

  lemma GrownEventsBacked(ledger: seq<Event>, e: Event)
    requires EventsBacked(ledger) && Grows(Fold(ledger), Fold(ledger + [e]))
    requires e.Transitioned? && RestsOnEvidence(e.transition.to) ==> HasEvidence(Fold(ledger), e.taskId)
    ensures EventsBacked(ledger + [e])
  {
    forall i | 0 <= i < |ledger| + 1 && (ledger + [e])[i].Transitioned?
      && RestsOnEvidence((ledger + [e])[i].transition.to)
      ensures HasEvidence(Fold(ledger + [e]), (ledger + [e])[i].taskId)
    {
      var id := (ledger + [e])[i].taskId;
      assert HasEvidence(Fold(ledger), id);
      assert GrewInto(Fold(ledger).tasks[id], Fold(ledger + [e]).tasks[id]);
    }
  }

  lemma RecordedEventBacked(m: Machine, st: State, e: Event)
    requires LedgerSound(m, AppendEvent(m.disk, st, e)) && EventsBacked(st.ledger)
    requires e.Transitioned? && RestsOnEvidence(e.transition.to) && !m.disk(st.writes).AppendFails? ==>
      HasEvidence(Fold(st.ledger), e.taskId)
    ensures EventsBacked(AppendEvent(m.disk, st, e).ledger)
  {
    var st' := AppendEvent(m.disk, st, e);
    if st'.ledger != st.ledger {
      RebuildOnlyGrows(m, st.ledger, st');
      GrownEventsBacked(st.ledger, e);
    }
  }

  lemma AppendBacks(m: Machine, st: State, e: Event)
    requires LedgerSound(m, AppendEvent(m.disk, st, e)) && Backed(m.disk, st) && EventBacked(m.disk, st, e)
    ensures Backed(m.disk, AppendEvent(m.disk, st, e))
  {
    WritesOnlyGrow(m.disk, st, e);
    var v := AppendEvent(m.disk, st, e).writes;
    if BareRecorded(m.disk, st.writes) {
      BareRecordedLasts(m.disk, st.writes, v);
    } else if !BareRecorded(m.disk, v) {
      if v > st.writes {
        RecordedEventBacked(m, st, e);
      }
    }
  }

  lemma WritesOnlyGrow(disk: Disk, st: State, e: Event)
    ensures var st' := AppendEvent(disk, st, e);
      st'.writes == st.writes + 1 || (st'.writes == st.writes && st'.ledger == st.ledger)
  {}

  // ── Moves ─────────────────────────────────────────────────────────────

  /** From write `w` on, `n` evidence appends ended in `st`; unless the last failed, the rebuild has evidence. */
  predicate Recorded(disk: Disk, w: nat, st: State, id: TaskId, n: nat) {
    && st.writes == w + n && id in Fold(st.ledger).tasks
    && (n > 0 && !disk(st.writes - 1).AppendFails? ==> HasEvidence(Fold(st.ledger), id))
  }

  lemma EvidenceIsRecorded(disk: Disk, st: State, e: Event)
    requires e.EvidenceAdded? && e.taskId in Fold(st.ledger).tasks && AppendVerdict(st, e).Recorded?
    ensures Recorded(disk, st.writes, AppendEvent(disk, st, e), e.taskId, 1)
  {
    FoldAppend(st.ledger, e);
  }

  lemma AddRecords(disk: Disk, st: State, id: TaskId, entry: EvidenceEntry, actor: string)
    requires id in Fold(st.ledger).tasks
    ensures var o := AddEvidence(disk, st, id, entry, actor); o.result.Ok? ==> Recorded(disk, st.writes, o.st, id, 1)
  {
    if AddEvidence(disk, st, id, entry, actor).result.Ok? {
      EvidenceIsRecorded(disk, st, EvidenceAdded(actor, id, entry));
    }
  }

  lemma {:induction false} PromoteRecords(disk: Disk, st: State, task: Task, refs: seq<Ref>, actor: string)
    requires task.id in Fold(st.ledger).tasks
    requires task.id in ReadGraph(st).tasks && SameButEvidence(task, ReadGraph(st).tasks[task.id])
    ensures var o := PromoteRefs(disk, st, task, refs, actor);
      o.result.Ok? ==> Recorded(disk, st.writes, o.st, task.id, |refs|)
    decreases |refs|
  {
    if refs != [] {
      var entry := EvidenceEntry(refs[0], Other, None);
      AddRecords(disk, st, task.id, entry, actor);
      AddKeepsHold(disk, st, task, entry, actor);
      var added := AddEvidence(disk, st, task.id, entry, actor);
      if added.result.Ok? {
        var next := added.result.value;
        SameTwice(task, next, ReadGraph(added.st).tasks[task.id]);
        PromoteRecords(disk, added.st, next, refs[1..], actor);
      }
    }
  }

  lemma AddBacks(m: Machine, st: State, id: TaskId, entry: EvidenceEntry, actor: string)
    requires Inv(m, st) && Backed(m.disk, st)
    ensures Backed(m.disk, AddEvidence(m.disk, st, id, entry, actor).st)
  {
    AddEvidenceKeepsInv(m, st, id, entry, actor);
    if AddEvidence(m.disk, st, id, entry, actor).result.Ok? {
      AppendBacks(m, st, EvidenceAdded(actor, id, entry));
    }
  }

  lemma {:induction false} PromoteBacks(m: Machine, st: State, task: Task, refs: seq<Ref>, actor: string)
    requires Inv(m, st) && Backed(m.disk, st)
    ensures Backed(m.disk, PromoteRefs(m.disk, st, task, refs, actor).st)
    decreases |refs|
  {
    if refs != [] {
      var entry := EvidenceEntry(refs[0], Other, None);
      AddEvidenceKeepsInv(m, st, task.id, entry, actor);
      AddBacks(m, st, task.id, entry, actor);
      var added := AddEvidence(m.disk, st, task.id, entry, actor);
      if added.result.Ok? {
        PromoteBacks(m, added.st, added.result.value, refs[1..], actor);
      }
    }
  }

  /** Into evidence-submitted: the last reference was recorded, or it was lost after three shown writes. */
  lemma SubmissionIsBacked(disk: Disk, w: nat, st: State, id: TaskId, n: nat)
    requires Recorded(disk, w, st, id, n) && n > 0 && ShownCount(disk, w) >= 3 && !disk(st.writes).AppendFails?
    ensures HasEvidence(Fold(st.ledger), id) || BareRecorded(disk, st.writes + 1)
  {
    CountGrows(disk, w, st.writes - 1);
  }

  lemma RestWasBacked(m: Machine, st: State, id: TaskId)
    requires Inv(m, st) && Backed(m.disk, st)
    requires id in ReadGraph(st).tasks && RestsOnEvidence(ReadGraph(st).tasks[id].status)
    ensures HasEvidence(Fold(st.ledger), id) || BareRecorded(m.disk, st.writes)
  {
    if !BareRecorded(m.disk, st.writes) {
      ShownRestIsRecorded(m, st, id);
    }
  }

  lemma EvidenceStays(m: Machine, ledger: seq<Event>, later: State, id: TaskId)
    requires LedgerSound(m, later) && ledger <= later.ledger && HasEvidence(Fold(ledger), id)
    ensures HasEvidence(Fold(later.ledger), id)
  {
    RebuildOnlyGrows(m, ledger, later);
    assert GrewInto(Fold(ledger).tasks[id], Fold(later.ledger).tasks[id]);
  }

  /** Out of a status that rests on evidence: there was some, or the disk could lose it. */
  lemma RestIsBacked(m: Machine, st: State, later: State, id: TaskId)
    requires Inv(m, st) && Backed(m.disk, st) && LedgerSound(m, later)
    requires st.ledger <= later.ledger && st.writes <= later.writes
    requires id in ReadGraph(st).tasks && RestsOnEvidence(ReadGraph(st).tasks[id].status)
    ensures HasEvidence(Fold(later.ledger), id) || BareRecorded(m.disk, later.writes + 1)
  {
    RestWasBacked(m, st, id);
    if BareRecorded(m.disk, st.writes) {
      BareRecordedLasts(m.disk, st.writes, later.writes + 1);
    } else {
      EvidenceStays(m, st.ledger, later, id);
    }
  }

  /** What promotion leaves, of the task read in `st`. */
  ghost predicate PromotedTo(m: Machine, st: State, later: State, before: Task, inHand: Task, n: nat) {
    && inHand.id == before.id && inHand.status == before.status
    && LedgerSound(m, later) && st.ledger <= later.ledger
    && Recorded(m.disk, st.writes, later, before.id, n)
  }

  lemma PromotionLeaves(m: Machine, st: State, task: Task, refs: seq<Ref>, actor: string)
    requires Inv(m, st) && task.id in ReadGraph(st).tasks && ReadGraph(st).tasks[task.id] == task
    ensures var o := PromoteRefs(m.disk, st, task, refs, actor);
      o.result.Ok? ==> PromotedTo(m, st, o.st, task, o.result.value, |refs|)
  {
    ReadIdsAreRecorded(m, st, task.id);
    PromoteKeepsInv(m, st, task, refs, actor);
    PromoteRecords(m.disk, st, task, refs, actor);
  }

  lemma SourceOfRest(st: State, input: MoveInput, task: Task, inHand: Task)
    requires Guarded(st, MoveStep(input)) && GetTask(st, input.taskId) == Some(task)
    requires inHand.status == task.status && ApplyTransition(inHand, input).Ok? && RestsOnEvidence(input.to)
    ensures if input.to.EvidenceSubmitted? then task.status.InProgress? && input.evidenceRefs != []
            else RestsOnEvidence(task.status)
  {}

  /** The transition may be recorded: it rests on nothing, or on evidence, or is lost, or the disk may lose it. */
  predicate MayFinish(disk: Disk, st: State, task: Task, input: MoveInput) {
    ApplyTransition(task, input).Ok? && RestsOnEvidence(input.to) && !disk(st.writes).AppendFails? ==>
      HasEvidence(Fold(st.ledger), task.id) || BareRecorded(disk, st.writes + 1)
  }

  lemma MoveIsBacked(m: Machine, st: State, later: State, input: MoveInput, task: Task, inHand: Task)
    requires Inv(m, st) && Paced(m.disk, st) && Backed(m.disk, st) && Guarded(st, MoveStep(input))
    requires GetTask(st, input.taskId) == Some(task) && task.id == input.taskId
    requires PromotedTo(m, st, later, task, inHand, |input.evidenceRefs|)
    ensures MayFinish(m.disk, later, inHand, input)
  {
    if ApplyTransition(inHand, input).Ok? && !m.disk(later.writes).AppendFails? && RestsOnEvidence(input.to) {
      SourceOfRest(st, input, task, inHand);
      if input.to.EvidenceSubmitted? {
        InProgressMeansThree(m, st, task.id);
        SubmissionIsBacked(m.disk, st.writes, later, task.id, |input.evidenceRefs|);
      } else {
        RestIsBacked(m, st, later, task.id);
      }
    }
  }

  lemma FinishBacks(m: Machine, st: State, task: Task, input: MoveInput)
    requires LedgerSound(m, FinishMove(m.disk, st, task, input).st)
    requires Backed(m.disk, st) && MayFinish(m.disk, st, task, input)
    ensures Backed(m.disk, FinishMove(m.disk, st, task, input).st)
  {
    var moved := ApplyTransition(task, input);
    if moved.Ok? {
      var t := Transition(Some(task.status), input.to, input.ts, input.actor, input.evidenceRefs, input.note);
      assert moved.value.transitions[|moved.value.transitions| - 1] == t;
      AppendBacks(m, st, Transitioned(input.actor, task.id, t));
    }
  }

  lemma PromotionMayFinish(m: Machine, st: State, input: MoveInput, task: Task)
    requires Inv(m, st) && Paced(m.disk, st) && Backed(m.disk, st) && Guarded(st, MoveStep(input))
    requires GetTask(st, input.taskId) == Some(task) && task.id == input.taskId
    ensures var promoted := PromoteRefs(m.disk, st, task, input.evidenceRefs, input.actor);
      promoted.result.Ok? ==> MayFinish(m.disk, promoted.st, promoted.result.value, input)
  {
    var promoted := PromoteRefs(m.disk, st, task, input.evidenceRefs, input.actor);
    PromotionLeaves(m, st, task, input.evidenceRefs, input.actor);
    if promoted.result.Ok? {
      MoveIsBacked(m, st, promoted.st, input, task, promoted.result.value);
    }
  }

  lemma PortBacks(m: Machine, st: State, input: MoveInput)
    requires Inv(m, st) && Paced(m.disk, st) && Backed(m.disk, st) && Guarded(st, MoveStep(input))
    requires LedgerSound(m, MoveTaskAsVerifier(m.disk, st, input).st)
    ensures Backed(m.disk, MoveTaskAsVerifier(m.disk, st, input).st)
  {
    var found := GetTask(st, input.taskId);
    if found.Some? {
      ReadKeepsIds(st, input.taskId);
      var promoted := PromoteRefs(m.disk, st, found.value, input.evidenceRefs, input.actor);
      PromoteBacks(m, st, found.value, input.evidenceRefs, input.actor);
      PromotionMayFinish(m, st, input, found.value);
      if promoted.result.Ok? {
        FinishBacks(m, promoted.st, promoted.result.value, input);
      }
    }
  }

  // ── Every run ─────────────────────────────────────────────────────────

  lemma CreateBacks(m: Machine, st: State, input: TaskInput)
    requires Inv(m, st) && Backed(m.disk, st)
    ensures Backed(m.disk, CreateTask(m.disk, st, input).st)
  {
    CreateEndsInOneOf(m.disk, st, input);
    CreateTaskKeepsInv(m, st, input);
    var named := st.(nextTask := st.nextTask + 1);
    if CreateTask(m.disk, st, input).st != st && CreateTask(m.disk, st, input).st != named {
      AppendBacks(m, named, TaskCreated(input.actor, NewTask(input, st.nextTask)));
    }
  }

  lemma StepBacks(m: Machine, st: State, step: Step)
    requires Inv(m, st) && Paced(m.disk, st) && Backed(m.disk, st) && Guarded(st, step) && Inv(m, Do(m, st, step))
    ensures Backed(m.disk, Do(m, st, step))
  {
    match step
    case GoalStep(goal, actor) => GoalBacks(m, st, goal, actor);
    case TaskStep(input) => CreateBacks(m, st, input);
    case EvidenceStep(id, entry, actor) => AddBacks(m, st, id, entry, actor);
    case OwnerStep(id, owner, actor, reason) => OwnerBacks(m, st, id, owner, actor, reason);
    case MoveStep(move) => PortBacks(m, st, move);
    case LookStep =>
  }

  lemma GoalBacks(m: Machine, st: State, goal: Goal, actor: string)
    requires LedgerSound(m, CreateGoal(m.disk, st, goal, actor).st) && Backed(m.disk, st)
    ensures Backed(m.disk, CreateGoal(m.disk, st, goal, actor).st)
  {
    if CreateGoal(m.disk, st, goal, actor).st != st {
      AppendBacks(m, st, GoalCreated(actor, goal));
    }
  }

  lemma OwnerBacks(m: Machine, st: State, id: TaskId, owner: string, actor: string, reason: string)
    requires LedgerSound(m, ReassignOwnerAsVerifier(m.disk, st, id, owner, actor, reason).st) && Backed(m.disk, st)
    ensures Backed(m.disk, ReassignOwnerAsVerifier(m.disk, st, id, owner, actor, reason).st)
  {
    if ReassignOwnerAsVerifier(m.disk, st, id, owner, actor, reason).st != st {
      AppendBacks(m, st, OwnerReassigned(actor, id, GetTask(st, id).value.owner, owner, reason));
    }
  }

  lemma EveryRunIsBacked(m: Machine, ops: seq<Op>)
    ensures Backed(m.disk, Run(m, INITIAL_STATE, ops))
  {
    var claim: Claim := st => Paced(m.disk, st) && Backed(m.disk, st);
    forall st, step | Inv(m, st) && claim(st) && Guarded(st, step) && Inv(m, Do(m, st, step))
      ensures claim(Do(m, st, step))
    {
      StepPaces(m, st, step);
      StepBacks(m, st, step);
    }
    EveryRunKeepsInv(m, []);
    RunKeeps(m, claim, false, INITIAL_STATE, ops);
  }

  // ── What the stages mean ──────────────────────────────────────────────

  /** A rebuilt task that rests on evidence was recorded as doing so. */
  lemma BackedRebuildIsEvidenced(m: Machine, st: State)
    requires LedgerSound(m, st) && EventsBacked(st.ledger)
    ensures GraphEvidenced(Fold(st.ledger))
  {
    forall id | id in Fold(st.ledger).tasks && RestsOnEvidence(Fold(st.ledger).tasks[id].status)
      ensures Fold(st.ledger).tasks[id].evidence != []
    {
      forall i | 0 <= i < |st.ledger| && st.ledger[i].TaskCreated? ensures st.ledger[i].task.status.Proposed? {
        assert EventSound(m, st.ticks, st.ledger[..i], st.ledger[i]);
      }
      var j := StatusIsRecorded(st.ledger, id);
      assert HasEvidence(Fold(st.ledger), st.ledger[j].taskId);
    }
  }

  lemma PacedReadsAreEvidenced(disk: Disk, st: State)
    requires Paced(disk, st) && !BareSubmitted(disk, st.writes)
    ensures st.clean && GraphEvidenced(ReadGraph(st))
  {
    StagesNest(disk, st.writes);
    forall id | id in ReadGraph(st).tasks && RestsOnEvidence(ReadGraph(st).tasks[id].status)
      ensures st.clean && ReadGraph(st).tasks[id].evidence != []
    {
      assert st.clean ==> Stage(disk, st.writes, ReadGraph(st).tasks[id]);
    }
  }
}
