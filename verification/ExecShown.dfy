/**
 * How far tasks can get on a disk (src/exec-graph/ledger.ts:278-360,
 * src/exec-graph/api.ts:208-245).  A write is shown if the reads that follow see its event.
 * Every transition of a task that reads show took one shown write, and a task comes to rest
 * without evidence only past an evidence write that was not shown, followed by a move that
 * was.  So the disk alone decides how far a task without evidence can get, and whether a
 * graph.json that fails its schema is ever written.
 */
module ExecShown {
  import opened Common
  import opened Text
  import opened HandContract
  import opened ExecContracts
  import opened ExecLedger
  import opened ExecApi
  import opened ExecSafety
  import opened ExecSteps

  // ── Writes that reads see ─────────────────────────────────────────────

  /** No snapshot is written before `w`. */
  predicate NoneWritten(disk: Disk, w: nat) {
    w == 0 || (NoneWritten(disk, w - 1) && !disk(w - 1).AllOk?)
  }

  /** The snapshot is written, or there is none yet and reads rebuild. */
  predicate Shown(disk: Disk, w: nat) {
    disk(w).AllOk? || (disk(w).SnapshotFails? && NoneWritten(disk, w))
  }

  /** How many of the writes before `w` are shown. */
  function ShownCount(disk: Disk, w: nat): nat {
    if w == 0 then 0 else ShownCount(disk, w - 1) + if Shown(disk, w - 1) then 1 else 0
  }

  /** Evidence lost to reads: a write that is not shown, then one that is, the second just before `w`. */
  predicate LostThenShown(disk: Disk, w: nat) {
    w >= 2 && !Shown(disk, w - 2) && Shown(disk, w - 1)
  }

  /** Before `w`, a task can have been submitted without evidence: three shown writes, then
      one that is not shown followed by one that is. */
  predicate BareSubmitted(disk: Disk, w: nat) {
    w > 0 && (BareSubmitted(disk, w - 1) || (LostThenShown(disk, w) && ShownCount(disk, w - 2) >= 3))
  }

  /** ... and then rejected by a shown write. */
  predicate BareRejected(disk: Disk, w: nat) {
    w > 0 && (BareRejected(disk, w - 1) || (BareSubmitted(disk, w - 1) && Shown(disk, w - 1)))
  }

  /** ... and then closed by a shown write, citing evidence by one that is not. */
  predicate BareClosed(disk: Disk, w: nat) {
    w > 0 && (BareClosed(disk, w - 1) || (LostThenShown(disk, w) && BareRejected(disk, w - 2)))
  }

  /** ... and this was written to graph.json. */
  predicate BareWritten(disk: Disk, w: nat) {
    w > 0 && (BareWritten(disk, w - 1) || (BareClosed(disk, w) && disk(w - 1).AllOk?))
  }

  lemma {:induction false} CountGrows(disk: Disk, w: nat, v: nat)
    requires w <= v
    ensures ShownCount(disk, w) <= ShownCount(disk, v)
  {
    if w < v {
      CountGrows(disk, w, v - 1);
    }
  }

  lemma {:induction false} StagesLast(disk: Disk, w: nat, v: nat)
    requires w <= v
    ensures BareSubmitted(disk, w) ==> BareSubmitted(disk, v)
    ensures BareRejected(disk, w) ==> BareRejected(disk, v)
    ensures BareClosed(disk, w) ==> BareClosed(disk, v)
    ensures BareWritten(disk, w) ==> BareWritten(disk, v)
  {
    if w < v {
      StagesLast(disk, w, v - 1);
    }
  }

  lemma {:induction false} StagesNest(disk: Disk, w: nat)
    ensures BareRejected(disk, w) ==> BareSubmitted(disk, w)
    ensures BareClosed(disk, w) ==> BareRejected(disk, w)
    ensures BareWritten(disk, w) ==> BareClosed(disk, w)
  {
    if w > 0 {
      StagesNest(disk, w - 1);
      if w > 1 {
        StagesLast(disk, w - 2, w);
      }
    }
  }

  // ── What a shown task tells of the disk ───────────────────────────────

  predicate Stage(disk: Disk, w: nat, task: Task) {
    && |task.transitions| <= ShownCount(disk, w)
    && (task.evidence == [] ==>
          && !task.status.Verified?
          && (task.status.EvidenceSubmitted? ==> BareSubmitted(disk, w))
          && (task.status.Rejected? ==> BareRejected(disk, w))
          && (task.status.Closed? ==> BareClosed(disk, w)))
  }

  predicate Stages(disk: Disk, w: nat, g: Snapshot) {
    forall id :: id in g.tasks ==> Stage(disk, w, g.tasks[id])
  }

  /** The invariant: there is a graph.json once one was written; while all that were written
      pass their schema, every shown task is at its stage; else a bare task was written. */
  predicate Paced(disk: Disk, st: State) {
    && (st.file.None? <==> NoneWritten(disk, st.writes))
    && (if st.clean then Stages(disk, st.writes, ReadGraph(st)) else BareWritten(disk, st.writes))
  }

  lemma StageLasts(disk: Disk, w: nat, v: nat, task: Task)
    requires Stage(disk, w, task) && w <= v
    ensures Stage(disk, v, task)
  {
    CountGrows(disk, w, v);
    StagesLast(disk, w, v);
  }

  /** What a transition to a bare task must come after. */
  predicate BareMoveOk(disk: Disk, w: nat, before: Task, to: Status) {
    && !to.Verified?
    && (to.EvidenceSubmitted? ==> w > 0 && ShownCount(disk, w - 1) >= 3 && !Shown(disk, w - 1))
    && (to.Rejected? ==> before.status.EvidenceSubmitted?)
    && (to.Closed? ==> w > 0 && BareRejected(disk, w - 1) && !Shown(disk, w - 1))
  }

  predicate EventPaced(disk: Disk, w: nat, g: Snapshot, e: Event) {
    && (e.TaskCreated? ==> |e.task.transitions| == 1 && e.task.status.Proposed?)
    && (e.Transitioned? && e.taskId in g.tasks && g.tasks[e.taskId].evidence == [] ==>
          BareMoveOk(disk, w, g.tasks[e.taskId], e.transition.to))
  }

  lemma MovedStage(disk: Disk, w: nat, before: Task, t: Transition)
    requires Stage(disk, w, before) && Shown(disk, w)
    requires before.evidence == [] ==> BareMoveOk(disk, w, before, t.to)
    ensures Stage(disk, w + 1, before.(status := t.to, transitions := before.transitions + [t]))
  {}

  /** A shown event takes every task to its next stage. */
  lemma NextStage(disk: Disk, w: nat, g: Snapshot, e: Event, id: TaskId)
    requires Stages(disk, w, g) && EventPaced(disk, w, g, e) && Shown(disk, w) && id in ApplyEvent(g, e).tasks
    ensures Stage(disk, w + 1, ApplyEvent(g, e).tasks[id])
  {
    if e.Transitioned? && e.taskId == id && id in g.tasks {
      MovedStage(disk, w, g.tasks[id], e.transition);
    } else if e.TaskCreated? && e.task.id == id {
      assert ShownCount(disk, w + 1) >= 1;
    } else {
      StageLasts(disk, w, w + 1, g.tasks[id]);
    }
  }

  lemma NextStages(disk: Disk, w: nat, g: Snapshot, e: Event)
    requires Stages(disk, w, g) && EventPaced(disk, w, g, e)
    ensures Stages(disk, w + 1, g)
    ensures Shown(disk, w) ==> Stages(disk, w + 1, ApplyEvent(g, e))
  {
    forall id | id in g.tasks ensures Stage(disk, w + 1, g.tasks[id]) {
      StageLasts(disk, w, w + 1, g.tasks[id]);
    }
    if Shown(disk, w) {
      forall id | id in ApplyEvent(g, e).tasks ensures Stage(disk, w + 1, ApplyEvent(g, e).tasks[id]) {
        NextStage(disk, w, g, e, id);
      }
    }
  }

  /** A graph that fails its schema shows a closed task without evidence. */
  lemma FailingGraphIsBare(disk: Disk, w: nat, g: Snapshot)
    requires GraphFieldsOk(g) && Stages(disk, w, g) && !SnapshotOk(g)
    ensures BareClosed(disk, w)
  {
    var id :| id in g.tasks && !TaskOk(g.tasks[id]);
    assert Stage(disk, w, g.tasks[id]);
  }

  // ── One append ────────────────────────────────────────────────────────

  /** While snapshots pass their schema, reads move exactly by the shown writes. */
  lemma CleanReads(disk: Disk, st: State, e: Event)
    requires FileClean(st) && (st.file.None? <==> NoneWritten(disk, st.writes)) && AppendVerdict(st, e).Recorded?
    ensures var st' := AppendEvent(disk, st, e);
      st'.clean ==> ReadGraph(st') == if Shown(disk, st.writes) then ApplyEvent(ReadGraph(st), e) else ReadGraph(st)
  {
    FoldAppend(st.ledger, e);
  }

  lemma FileFollowsWrites(disk: Disk, st: State, e: Event)
    requires st.file.None? <==> NoneWritten(disk, st.writes)
    ensures var st' := AppendEvent(disk, st, e); st'.file.None? <==> NoneWritten(disk, st'.writes)
  {}

  /** A snapshot that fails its schema was written, and shows the event. */
  lemma UncleanAppend(disk: Disk, st: State, e: Event)
    requires st.clean && !AppendEvent(disk, st, e).clean
    ensures disk(st.writes).AllOk? && !SnapshotOk(ApplyEvent(ReadGraph(st), e))
    ensures AppendEvent(disk, st, e).writes == st.writes + 1
  {}

  lemma FailingWriteIsBare(disk: Disk, w: nat, g: Snapshot, e: Event)
    requires GraphFieldsOk(g) && EventOk(e) && Stages(disk, w, g) && EventPaced(disk, w, g, e)
    requires disk(w).AllOk? && !SnapshotOk(ApplyEvent(g, e))
    ensures BareWritten(disk, w + 1)
  {
    NextStages(disk, w, g, e);
    EventKeepsFields(g, e);
    FailingGraphIsBare(disk, w + 1, ApplyEvent(g, e));
  }

  lemma CleanAppendPaces(disk: Disk, st: State, e: Event)
    requires FileClean(st) && GraphFieldsOk(ReadGraph(st)) && (st.file.None? <==> NoneWritten(disk, st.writes))
    requires Stages(disk, st.writes, ReadGraph(st)) && EventPaced(disk, st.writes, ReadGraph(st), e)
    requires st.clean && AppendVerdict(st, e).Recorded?
    ensures var st' := AppendEvent(disk, st, e);
      if st'.clean then Stages(disk, st'.writes, ReadGraph(st')) else BareWritten(disk, st'.writes)
  {
    if AppendEvent(disk, st, e).clean {
      CleanReads(disk, st, e);
      NextStages(disk, st.writes, ReadGraph(st), e);
    } else {
      UncleanAppend(disk, st, e);
      FailingWriteIsBare(disk, st.writes, ReadGraph(st), e);
    }
  }

  lemma AppendPaces(m: Machine, st: State, e: Event)
    requires Inv(m, st) && Paced(m.disk, st)
    requires st.clean ==> EventPaced(m.disk, st.writes, ReadGraph(st), e)
    ensures Paced(m.disk, AppendEvent(m.disk, st, e))
  {
    FileFollowsWrites(m.disk, st, e);
    if AppendVerdict(st, e).Recorded? {
      if st.clean {
        ReadFieldsAreOk(m, st);
        CleanAppendPaces(m.disk, st, e);
      } else {
        StagesLast(m.disk, st.writes, st.writes + 1);
      }
    }
  }

  // ── Moves ─────────────────────────────────────────────────────────────

  /** What the disk and the schema tell of graph.json. */
  predicate FileAsWritten(disk: Disk, st: State) {
    (st.file.None? <==> NoneWritten(disk, st.writes)) && (st.clean ==> FileClean(st))
  }

  predicate ShowsEvidence(st: State, id: TaskId) {
    id in ReadGraph(st).tasks && ReadGraph(st).tasks[id].evidence != []
  }

  /** From write `w` on, `n` evidence appends ended in `st`; if the last is shown, reads show evidence. */
  predicate Added(disk: Disk, w: nat, st: State, id: TaskId, n: nat) {
    st.writes == w + n && (n > 0 && st.clean && Shown(disk, st.writes - 1) ==> ShowsEvidence(st, id))
  }

  /** An evidence append that is shown leaves evidence in what reads show. */
  lemma AddShows(disk: Disk, st: State, id: TaskId, entry: EvidenceEntry, actor: string)
    requires FileAsWritten(disk, st)
    ensures var o := AddEvidence(disk, st, id, entry, actor);
      FileAsWritten(disk, o.st) && (o.result.Ok? ==> Added(disk, st.writes, o.st, id, 1))
  {
    var e := EvidenceAdded(actor, id, entry);
    FileFollowsWrites(disk, st, e);
    if AddEvidence(disk, st, id, entry, actor).result.Ok? && AppendEvent(disk, st, e).clean {
      CleanReads(disk, st, e);
      CleanAppendReads(disk, st, e);
    }
  }

  /** One reference of the promotion loop, task in hand and task shown kept together. */
  lemma AddKeepsHold(disk: Disk, st: State, task: Task, entry: EvidenceEntry, actor: string)
    requires task.id in ReadGraph(st).tasks && SameButEvidence(task, ReadGraph(st).tasks[task.id])
    ensures var o := AddEvidence(disk, st, task.id, entry, actor);
      o.result.Ok? ==>
        SameButEvidence(task, o.result.value)
        && task.id in ReadGraph(o.st).tasks && SameButEvidence(task, ReadGraph(o.st).tasks[task.id])
  {
    if AddEvidence(disk, st, task.id, entry, actor).result.Ok? {
      EvidenceAppendRead(disk, st, task.id, entry, actor);
    }
  }

  lemma SameTwice(a: Task, b: Task, c: Task)
    requires SameButEvidence(a, b) && SameButEvidence(a, c)
    ensures SameButEvidence(b, c) && b.id == a.id
  {}

  /** After the promotion loop: unless the last reference was not shown, there is evidence. */
  lemma {:induction false} PromoteShows(disk: Disk, st: State, task: Task, refs: seq<Ref>, actor: string)
    requires FileAsWritten(disk, st)
    requires task.id in ReadGraph(st).tasks && SameButEvidence(task, ReadGraph(st).tasks[task.id])
    ensures var o := PromoteRefs(disk, st, task, refs, actor);
      FileAsWritten(disk, o.st) && (o.result.Ok? ==> Added(disk, st.writes, o.st, task.id, |refs|))
    decreases |refs|
  {
    if refs != [] {
      var entry := EvidenceEntry(refs[0], Other, None);
      AddShows(disk, st, task.id, entry, actor);
      AddKeepsHold(disk, st, task, entry, actor);
      var added := AddEvidence(disk, st, task.id, entry, actor);
      if added.result.Ok? {
        var next := added.result.value;
        SameTwice(task, next, ReadGraph(added.st).tasks[task.id]);
        PromoteShows(disk, added.st, next, refs[1..], actor);
      }
    }
  }

  lemma AddPaces(m: Machine, st: State, id: TaskId, entry: EvidenceEntry, actor: string)
    requires Inv(m, st) && Paced(m.disk, st)
    ensures Paced(m.disk, AddEvidence(m.disk, st, id, entry, actor).st)
  {
    AppendPaces(m, st, EvidenceAdded(actor, id, entry));
  }

  lemma {:induction false} PromotePaces(m: Machine, st: State, task: Task, refs: seq<Ref>, actor: string)
    requires Inv(m, st) && Paced(m.disk, st)
    ensures Paced(m.disk, PromoteRefs(m.disk, st, task, refs, actor).st)
    decreases |refs|
  {
    if refs != [] {
      var entry := EvidenceEntry(refs[0], Other, None);
      AddEvidenceKeepsInv(m, st, task.id, entry, actor);
      AddPaces(m, st, task.id, entry, actor);
      var added := AddEvidence(m.disk, st, task.id, entry, actor);
      if added.result.Ok? {
        PromotePaces(m, added.st, added.result.value, refs[1..], actor);
      }
    }
  }

  /** A task in progress took three transitions to get there. */
  lemma InProgressIsThird(task: Task)
    requires LegalPath(task) && task.status.InProgress?
    ensures |task.transitions| >= 3
  {}

  /** Why a move of a task without evidence is at its stage: `before` is the task as first
      read, at write `w`, and its references were appended by writes `w` to `v`. */
  lemma MoveIsAtItsStage(disk: Disk, w: nat, v: nat, before: Task, inHand: Task, input: MoveInput)
    requires Stage(disk, w, before) && LegalPath(before) && before.evidence == [] && v == w + |input.evidenceRefs|
    requires inHand.status == before.status && (input.evidenceRefs == [] ==> inHand == before)
    requires ApplyTransition(inHand, input).Ok?
    requires input.to.Verified? ==> before.evidence != []
    requires input.to.Rejected? ==> before.status.EvidenceSubmitted?
    requires input.evidenceRefs != [] ==> !Shown(disk, v - 1)
    ensures BareMoveOk(disk, v, before, input.to)
  {
    if input.to.EvidenceSubmitted? {
      InProgressIsThird(before);
      CountGrows(disk, w, v - 1);
    }
    if input.to.Closed? {
      StagesLast(disk, w, v - 1);
    }
  }

  /** The move of the task in hand, if it is legal and the shown task has no evidence, is at its stage. */
  predicate ReadyToFinish(disk: Disk, st: State, task: Task, input: MoveInput) {
    && task.id in ReadGraph(st).tasks
    && var shown := ReadGraph(st).tasks[task.id];
       st.clean && ApplyTransition(task, input).Ok? && shown.evidence == [] ==>
         BareMoveOk(disk, st.writes, shown, input.to)
  }

  lemma FinishPaces(m: Machine, st: State, task: Task, input: MoveInput)
    requires Inv(m, st) && Paced(m.disk, st) && ReadyToFinish(m.disk, st, task, input)
    ensures Paced(m.disk, FinishMove(m.disk, st, task, input).st)
  {
    var moved := ApplyTransition(task, input);
    if moved.Ok? {
      var t := Transition(Some(task.status), input.to, input.ts, input.actor, input.evidenceRefs, input.note);
      assert moved.value.transitions[|moved.value.transitions| - 1] == t;
      AppendPaces(m, st, Transitioned(input.actor, task.id, t));
    }
  }

  /** A task shown after more steps was on a legal path before, and lost no evidence since. */
  lemma ShownBefore(m: Machine, st: State, later: State, id: TaskId)
    requires Inv(m, st) && Paced(m.disk, st) && ReadsAdvance(st, later) && later.clean && id in ReadGraph(st).tasks
    ensures var task := ReadGraph(st).tasks[id];
      && Stage(m.disk, st.writes, task) && LegalPath(task)
      && id in ReadGraph(later).tasks && (ReadGraph(later).tasks[id].evidence == [] ==> task.evidence == [])
  {
    assert GrewInto(ReadGraph(st).tasks[id], ReadGraph(later).tasks[id]);
  }

  lemma GuardedMove(st: State, input: MoveInput, task: Task)
    requires Guarded(st, MoveStep(input)) && GetTask(st, input.taskId) == Some(task)
    ensures input.to.Verified? ==> task.evidence != []
    ensures input.to.Rejected? ==> task.status.EvidenceSubmitted?
  {}

  /** What is known of a move between its promotion and its transition: `before` was read at
      write `w`, `inHand` is what promotion made of it. */
  predicate Held(disk: Disk, w: nat, st: State, before: Task, inHand: Task, input: MoveInput) {
    && Stage(disk, w, before)
    && inHand.id == before.id && inHand.status == before.status && (input.evidenceRefs == [] ==> inHand == before)
    && Added(disk, w, st, before.id, |input.evidenceRefs|)
    && before.id in ReadGraph(st).tasks && SameButEvidence(before, ReadGraph(st).tasks[before.id])
    && (ReadGraph(st).tasks[before.id].evidence == [] ==> before.evidence == [])
    && (input.to.Verified? ==> before.evidence != [])
    && (input.to.Rejected? ==> before.status.EvidenceSubmitted?)
  }

  lemma HeldIsReady(disk: Disk, w: nat, st: State, before: Task, inHand: Task, input: MoveInput)
    requires Held(disk, w, st, before, inHand, input) && LegalPath(before)
    ensures ReadyToFinish(disk, st, inHand, input)
  {
    var shown := ReadGraph(st).tasks[before.id];
    if st.clean && ApplyTransition(inHand, input).Ok? && shown.evidence == [] {
      MoveIsAtItsStage(disk, w, st.writes, before, inHand, input);
    }
  }

  lemma PromotionHolds(m: Machine, st: State, input: MoveInput, task: Task)
    requires Inv(m, st) && Paced(m.disk, st) && Guarded(st, MoveStep(input))
    requires GetTask(st, input.taskId) == Some(task) && task.id == input.taskId
    ensures var promoted := PromoteRefs(m.disk, st, task, input.evidenceRefs, input.actor);
      promoted.result.Ok? && promoted.st.clean ==>
        Held(m.disk, st.writes, promoted.st, task, promoted.result.value, input) && LegalPath(task)
  {
    var promoted := PromoteRefs(m.disk, st, task, input.evidenceRefs, input.actor);
    PromoteKeepsInv(m, st, task, input.evidenceRefs, input.actor);
    if promoted.result.Ok? && promoted.st.clean {
      PromoteShows(m.disk, st, task, input.evidenceRefs, input.actor);
      ShownBefore(m, st, promoted.st, task.id);
      GuardedMove(st, input, task);
    }
  }

  lemma PortPaces(m: Machine, st: State, input: MoveInput)
    requires Inv(m, st) && Paced(m.disk, st) && Guarded(st, MoveStep(input))
    ensures Paced(m.disk, MoveTaskAsVerifier(m.disk, st, input).st)
  {
    if input.taskId in ReadGraph(st).tasks {
      ReadKeepsIds(st, input.taskId);
      var task := ReadGraph(st).tasks[input.taskId];
      var promoted := PromoteRefs(m.disk, st, task, input.evidenceRefs, input.actor);
      PromoteKeepsInv(m, st, task, input.evidenceRefs, input.actor);
      PromotePaces(m, st, task, input.evidenceRefs, input.actor);
      PromotionHolds(m, st, input, task);
      if promoted.result.Ok? {
        if promoted.st.clean {
          HeldIsReady(m.disk, st.writes, promoted.st, task, promoted.result.value, input);
        }
        FinishPaces(m, promoted.st, promoted.result.value, input);
      }
    }
  }

  // ── Every run ─────────────────────────────────────────────────────────

  lemma CreatePaces(m: Machine, st: State, input: TaskInput)
    requires Inv(m, st) && Paced(m.disk, st)
    ensures Paced(m.disk, CreateTask(m.disk, st, input).st)
  {
    var named := st.(nextTask := st.nextTask + 1);
    assert ReadGraph(named) == ReadGraph(st);
    CreateEndsInOneOf(m.disk, st, input);
    NamingKeepsInv(m, st);
    AppendPaces(m, named, TaskCreated(input.actor, NewTask(input, st.nextTask)));
  }

  lemma StepPaces(m: Machine, st: State, step: Step)
    requires Inv(m, st) && Paced(m.disk, st) && Guarded(st, step)
    ensures Paced(m.disk, Do(m, st, step))
  {
    match step
    case GoalStep(goal, actor) => AppendPaces(m, st, GoalCreated(actor, goal));
    case TaskStep(input) => CreatePaces(m, st, input);
    case EvidenceStep(id, entry, actor) => AddPaces(m, st, id, entry, actor);
    case OwnerStep(id, owner, actor, reason) =>
      if GetTask(st, id).Some? {
        AppendPaces(m, st, OwnerReassigned(actor, id, GetTask(st, id).value.owner, owner, reason));
      }
    case MoveStep(move) => PortPaces(m, st, move);
    case LookStep => assert ReadGraph(Do(m, st, step)) == ReadGraph(st);
  }

  /** Whatever is done on whatever disk, shown tasks are no further than the shown writes allow. */
  lemma EveryRunIsPaced(m: Machine, ops: seq<Op>)
    ensures Inv(m, Run(m, INITIAL_STATE, ops)) && Paced(m.disk, Run(m, INITIAL_STATE, ops))
  {
    var claim: Claim := st => Paced(m.disk, st);
    forall st, step | Inv(m, st) && claim(st) && Guarded(st, step) && Inv(m, Do(m, st, step))
      ensures claim(Do(m, st, step))
    {
      StepPaces(m, st, step);
    }
    EveryRunKeepsInv(m, []);
    RunKeeps(m, claim, false, INITIAL_STATE, ops);
    EveryRunKeepsInv(m, ops);
  }
}
