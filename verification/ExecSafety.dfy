/**
 * What holds in every reachable execution graph, for a single writer.  One invariant is
 * carried through all operations.  Its clauses about the ledger hold under every write
 * failure; what reads show is a legal graph as long as every snapshot written passes its
 * schema; and the rebuild is one on disks on which nothing is recorded once graph.json
 * has gone stale (`ExecFork` shows that no other disk keeps it so).  On which disks every
 * snapshot written passes its schema is in `ExecBare`.
 */
module ExecSafety {
  import opened Common
  import opened Text
  import opened HandContract
  import opened ExecContracts
  import opened ExecLedger
  import opened ExecApi

  // ── Legal graphs ──────────────────────────────────────────────────────

  /** A lifecycle edge as the guards let it through. */
  predicate LegalStep(t: Transition) {
    && t.from.Some? && t.to in LegalTransitions(t.from.value)
    && (t.from.value.Escalated? ==> MayLeaveEscalation(t.actor))
    && (t.to.Verified? || t.to.Rejected? ==> t.from.value.EvidenceSubmitted?)
  }

  ghost predicate LegalPath(task: Task) {
    var ts := task.transitions;
    && ts != [] && ts[0].from.None? && ts[0].to.Proposed?
    && (forall i :: 1 <= i < |ts| ==> LegalStep(ts[i]) && ts[i].from == Some(ts[i - 1].to))
    && task.status == ts[|ts| - 1].to
  }

  ghost predicate GraphLegal(g: Snapshot, limit: TaskId) {
    && (forall id :: id in g.tasks ==> g.tasks[id].id == id && id < limit && LegalPath(g.tasks[id]))
    && (forall a, b :: a in g.tasks && b in g.tasks && a != b ==>
      g.tasks[a].idempotencyKey != g.tasks[b].idempotencyKey)
  }

  predicate RestsOnEvidence(status: Status) {
    status.EvidenceSubmitted? || status.Verified? || status.Rejected? || status.Closed?
  }

  ghost predicate GraphEvidenced(g: Snapshot) {
    forall id :: id in g.tasks && RestsOnEvidence(g.tasks[id].status) ==> g.tasks[id].evidence != []
  }

  // ── Disks ─────────────────────────────────────────────────────────────

  /** Before write `w`, graph.json has missed an event: a snapshot write failed after one had succeeded. */
  ghost predicate StaleAt(disk: Disk, w: nat) {
    exists i: nat, j: nat :: i < j < w && disk(i).AllOk? && disk(j).SnapshotFails?
  }

  /** Once graph.json is stale, nothing is recorded any more. */
  ghost predicate NoFork(disk: Disk) {
    forall k: nat :: StaleAt(disk, k) ==> disk(k).AppendFails?
  }

  lemma NeverStaleNeverForks(disk: Disk)
    requires NeverStale(disk)
    ensures NoFork(disk)
  {}

  // ── Growth ────────────────────────────────────────────────────────────

  /** The same task, later: nothing of its identity, evidence or transitions was lost or rewritten. */
  predicate GrewInto(a: Task, b: Task) {
    && b.id == a.id && b.goalId == a.goalId && b.title == a.title && b.source == a.source
    && b.idempotencyKey == a.idempotencyKey && b.createdAt == a.createdAt && b.riskClass == a.riskClass
    && a.evidence <= b.evidence && a.transitions <= b.transitions
  }

  predicate Grows(g: Snapshot, h: Snapshot) {
    forall id :: id in g.tasks ==> id in h.tasks && GrewInto(g.tasks[id], h.tasks[id])
  }

  /** Tasks that are new in `h` have ids from `limit` on. */
  predicate AddsFrom(limit: TaskId, g: Snapshot, h: Snapshot) {
    forall id :: id in h.tasks ==> id in g.tasks || id >= limit
  }

  lemma EventGrowsTask(g: Snapshot, e: Event, id: TaskId)
    requires id in g.tasks && (e.TaskCreated? ==> e.task.id !in g.tasks)
    ensures id in ApplyEvent(g, e).tasks && GrewInto(g.tasks[id], ApplyEvent(g, e).tasks[id])
  {}

  // ── What the ledger says ──────────────────────────────────────────────

  /**
   * Why transition `t` of task `id`, appended after `prefix`, may say "verified": entry
   * `j` recorded a receipt as evidence of that task, the transition cites exactly that
   * receipt, and the verifier accepted it in the environment of time `n` -- and, if the
   * task's risk was not low, once more in the environment of time `n + 1`.  The risk is
   * that of the task in the graph that was read, the fold of `shown`.
   */
  ghost predicate JustifiedBy(m: Machine, prefix: seq<Event>, id: TaskId, t: Transition, j: nat, n: nat,
                              shown: seq<Event>)
    requires j < |prefix|
  {
    var e := prefix[j];
    && e.EvidenceAdded? && e.taskId == id && e.evidence.kind.ToolReceipt?
    && t.evidenceRefs == [e.evidence.ref]
    && ParseNote(e.evidence.note).Some?
    && var receipt := ParseNote(e.evidence.note).value;
       && !receipt.kind.Narrative?
       && Verify(m.policy, m.env(n), receipt)
       && SubsequenceOf(shown, prefix) && (NeverStale(m.disk) ==> Fold(shown) == Fold(prefix))
       && id in Fold(shown).tasks
       && (NeedsRefuter(RiskOf(m.policy, Fold(shown).tasks[id])) ==> Verify(m.policy, m.env(n + 1), receipt))
  }

  ghost predicate Justified(m: Machine, ticks: nat, prefix: seq<Event>, id: TaskId, t: Transition) {
    exists j: nat, n: nat, shown :: j < |prefix| && n + 2 <= ticks && JustifiedBy(m, prefix, id, t, j, n, shown)
  }

  predicate RegisteredOwner(policy: Policy, owner: string) {
    StartsWith(owner, HAND_OWNER_PREFIX) ==> policy.hands(owner[|HAND_OWNER_PREFIX|..]).Some?
  }

  /** What every recorded event satisfies, whatever the disk did. */
  ghost predicate EventSound(m: Machine, ticks: nat, prefix: seq<Event>, e: Event) {
    && EventOk(e)
    && (e.Transitioned? ==> LegalStep(e.transition))
    && (e.Transitioned? && e.transition.to.Verified? ==> Justified(m, ticks, prefix, e.taskId, e.transition))
    && (e.EvidenceAdded? ==> e.taskId in Fold(prefix).tasks)
    && (e.TaskCreated? ==> e.task.evidence == [] && !StartsWith(e.task.owner, HAND_OWNER_PREFIX))
    && (e.TaskCreated? ==> e.task.status.Proposed? && e.task.id !in Fold(prefix).tasks)
    && (e.OwnerReassigned? ==> RegisteredOwner(m.policy, e.to))
  }

  ghost predicate LedgerSound(m: Machine, st: State) {
    forall i :: 0 <= i < |st.ledger| ==> EventSound(m, st.ticks, st.ledger[..i], st.ledger[i])
  }

  predicate CreatedBelow(st: State) {
    forall i :: 0 <= i < |st.ledger| && st.ledger[i].TaskCreated? ==> st.ledger[i].task.id < st.nextTask
  }

  // ── The invariant ─────────────────────────────────────────────────────

  ghost predicate ReadsLegal(st: State) {
    FileClean(st) && GraphLegal(ReadGraph(st), st.nextTask)
  }

  ghost predicate RebuildLegal(disk: Disk, st: State) {
    && GraphLegal(Fold(st.ledger), st.nextTask)
    && (st.file.Some? ==>
          && (exists i: nat :: i < st.writes && disk(i).AllOk?)
          && GraphLegal(st.file.value, st.nextTask)
          && (!StaleAt(disk, st.writes) ==> st.file.value == Fold(st.ledger)))
  }

  ghost predicate Inv(m: Machine, st: State) {
    && FileInv(st) && LedgerSound(m, st) && CreatedBelow(st)
    && (st.clean ==> ReadsLegal(st))
    && (NoFork(m.disk) ==> RebuildLegal(m.disk, st))
    && (NeverStale(m.disk) ==> Synced(st))
    && (Reliable(m.disk) ==> st.clean && SnapshotOk(Fold(st.ledger)) && GraphEvidenced(Fold(st.ledger)))
  }

  /** `later` continues `st`: the invariant holds, and what was recorded or shown is only added to. */
  ghost predicate Advances(m: Machine, st: State, later: State) {
    Inv(m, later) && st.ledger <= later.ledger && st.nextTask <= later.nextTask && ReadsAdvance(st, later)
  }

  ghost predicate ReadsAdvance(st: State, later: State) {
    later.clean ==>
      st.clean && Grows(ReadGraph(st), ReadGraph(later)) && AddsFrom(st.nextTask, ReadGraph(st), ReadGraph(later))
  }

  lemma AdvancesTwice(m: Machine, a: State, b: State, c: State)
    requires Advances(m, a, b) && Advances(m, b, c)
    ensures Advances(m, a, c)
  {}

  /** When an event may be appended without breaking the invariant. */
  ghost predicate MayAppend(m: Machine, st: State, e: Event) {
    && (EventOk(e) ==> EventSound(m, st.ticks, st.ledger, e))
    && FitsGraph(ReadGraph(st), st.nextTask, e)
    && (Reliable(m.disk) && e.Transitioned? && e.transition.to.EvidenceSubmitted? ==>
          e.taskId in Fold(st.ledger).tasks && Fold(st.ledger).tasks[e.taskId].evidence != [])
  }

  ghost predicate FitsGraph(g: Snapshot, limit: TaskId, e: Event) {
    && (e.Transitioned? ==> e.taskId in g.tasks && e.transition.from == Some(g.tasks[e.taskId].status))
    && (e.TaskCreated? ==>
          && e.task.id !in g.tasks && e.task.id < limit
          && e.task.status.Proposed? && |e.task.transitions| == 1
          && e.task.transitions[0].from.None? && e.task.transitions[0].to.Proposed?)
  }

  // ── One append ────────────────────────────────────────────────────────

  lemma AppendKeepsLedgerSound(m: Machine, st: State, e: Event)
    requires LedgerSound(m, st) && (EventOk(e) ==> EventSound(m, st.ticks, st.ledger, e))
    ensures LedgerSound(m, AppendEvent(m.disk, st, e))
  {
    var st' := AppendEvent(m.disk, st, e);
    forall i | 0 <= i < |st'.ledger| ensures EventSound(m, st'.ticks, st'.ledger[..i], st'.ledger[i]) {
      if i < |st.ledger| {
        assert st'.ledger[..i] == st.ledger[..i];
      } else {
        assert st'.ledger[..i] == st.ledger;
      }
    }
  }

  lemma AppendKeepsPaths(g: Snapshot, limit: TaskId, e: Event, id: TaskId)
    requires GraphLegal(g, limit) && FitsGraph(g, limit, e) && (e.Transitioned? ==> LegalStep(e.transition))
    requires id in ApplyEvent(g, e).tasks
    ensures var task := ApplyEvent(g, e).tasks[id]; task.id == id && id < limit && LegalPath(task)
  {}

  lemma AppendKeepsKeysApart(g: Snapshot, limit: TaskId, e: Event)
    requires GraphLegal(g, limit)
    requires e.TaskCreated? ==> FindByKey(g.tasks, e.task.idempotencyKey, 0, limit).None?
    ensures var g' := ApplyEvent(g, e);
      forall a, b :: a in g'.tasks && b in g'.tasks && a != b ==>
        g'.tasks[a].idempotencyKey != g'.tasks[b].idempotencyKey
  {}

  lemma AppendKeepsGraphLegal(g: Snapshot, limit: TaskId, e: Event)
    requires GraphLegal(g, limit) && FitsGraph(g, limit, e)
    requires e.TaskCreated? ==> FindByKey(g.tasks, e.task.idempotencyKey, 0, limit).None?
    requires e.Transitioned? ==> LegalStep(e.transition)
    ensures GraphLegal(ApplyEvent(g, e), limit)
  {
    AppendKeepsKeysApart(g, limit, e);
    forall id | id in ApplyEvent(g, e).tasks
      ensures var task := ApplyEvent(g, e).tasks[id]; task.id == id && id < limit && LegalPath(task)
    {
      AppendKeepsPaths(g, limit, e, id);
    }
  }

  lemma AppendKeepsEvidence(g: Snapshot, limit: TaskId, e: Event)
    requires GraphLegal(g, limit) && GraphEvidenced(g) && FitsGraph(g, limit, e)
    requires e.Transitioned? ==> LegalStep(e.transition)
    requires e.Transitioned? && e.transition.to.EvidenceSubmitted? ==> g.tasks[e.taskId].evidence != []
    ensures GraphEvidenced(ApplyEvent(g, e))
  {}

  /** One event at most further on. */
  lemma NextGraphIsLegal(g: Snapshot, h: Snapshot, limit: TaskId, e: Event)
    requires GraphLegal(g, limit) && FitsGraph(g, limit, e)
    requires h == g || (h == ApplyEvent(g, e) && (e.Transitioned? ==> LegalStep(e.transition))
                        && (e.TaskCreated? ==> FindByKey(g.tasks, e.task.idempotencyKey, 0, limit).None?))
    ensures GraphLegal(h, limit)
  {
    if h != g {
      AppendKeepsGraphLegal(g, limit, e);
    }
  }

  lemma AppendKeepsReadsLegal(m: Machine, st: State, e: Event)
    requires ReadsLegal(st) && AppendEvent(m.disk, st, e).clean
    requires FitsGraph(ReadGraph(st), st.nextTask, e) && (EventOk(e) && e.Transitioned? ==> LegalStep(e.transition))
    ensures ReadsLegal(AppendEvent(m.disk, st, e))
  {
    CleanAppendReads(m.disk, st, e);
    AppendOnlyAdds(m.disk, st, e);
    NextGraphIsLegal(ReadGraph(st), ReadGraph(AppendEvent(m.disk, st, e)), st.nextTask, e);
  }

  lemma StaleStays(disk: Disk, w: nat)
    requires StaleAt(disk, w)
    ensures StaleAt(disk, w + 1)
  {
    var i: nat, j: nat :| i < j < w && disk(i).AllOk? && disk(j).SnapshotFails?;
    assert i < j < w + 1;
  }

  /** On a disk without forks, an append changes the ledger only while graph.json is the rebuild. */
  lemma AppendKeepsRebuildLegal(m: Machine, st: State, e: Event)
    requires NoFork(m.disk) && RebuildLegal(m.disk, st) && MayAppend(m, st, e)
    requires AppendVerdict(st, e).Recorded?
    ensures RebuildLegal(m.disk, AppendEvent(m.disk, st, e))
  {
    var w := st.writes;
    if StaleAt(m.disk, w) {
      StaleStays(m.disk, w);
    } else if !m.disk(w).AppendFails? {
      FoldAppend(st.ledger, e);
      AppendKeepsGraphLegal(Fold(st.ledger), st.nextTask, e);
      if m.disk(w).SnapshotFails? && st.file.Some? {
        var i: nat :| i < w && m.disk(i).AllOk?;
        assert i < w < w + 1;
        assert StaleAt(m.disk, w + 1);
      }
    }
  }

  /** `from` is the state before the id of a new task was taken, if the event creates one. */
  lemma AppendAdvancesReads(disk: Disk, from: State, st: State, e: Event)
    requires st.clean ==> FileClean(st)
    requires FitsGraph(ReadGraph(st), st.nextTask, e) && (e.TaskCreated? ==> e.task.id >= from.nextTask)
    requires ReadGraph(from) == ReadGraph(st) && from.clean == st.clean
    ensures ReadsAdvance(from, AppendEvent(disk, st, e))
  {
    if AppendEvent(disk, st, e).clean {
      CleanAppendReads(disk, st, e);
      var g := ReadGraph(st);
      forall id | id in g.tasks
        ensures id in ApplyEvent(g, e).tasks && GrewInto(g.tasks[id], ApplyEvent(g, e).tasks[id])
      {
        EventGrowsTask(g, e, id);
      }
    }
  }

  lemma EvidencedGraphPasses(g: Snapshot, e: Event)
    requires SnapshotOk(g) && EventOk(e) && GraphEvidenced(ApplyEvent(g, e))
    ensures SnapshotOk(ApplyEvent(g, e))
  {}

  lemma AppendKeepsReliable(m: Machine, st: State, e: Event)
    requires Inv(m, st) && MayAppend(m, st, e) && Reliable(m.disk)
    ensures var st' := AppendEvent(m.disk, st, e);
      st'.clean && SnapshotOk(Fold(st'.ledger)) && GraphEvidenced(Fold(st'.ledger))
  {
    AppendKeepsSync(m.disk, st, e);
    NeverStaleNeverForks(m.disk);
    if AppendEvent(m.disk, st, e).ledger != st.ledger {
      AppendKeepsEvidence(Fold(st.ledger), st.nextTask, e);
      EvidencedGraphPasses(Fold(st.ledger), e);
    }
  }

  lemma AppendKeepsInv(m: Machine, st: State, e: Event)
    requires Inv(m, st) && MayAppend(m, st, e)
    ensures Inv(m, AppendEvent(m.disk, st, e))
  {
    if AppendVerdict(st, e).Recorded? {
      AppendKeepsFile(m.disk, st, e);
      AppendKeepsLedgerSound(m, st, e);
      if NoFork(m.disk) {
        AppendKeepsRebuildLegal(m, st, e);
      }
      if NeverStale(m.disk) {
        AppendKeepsSync(m.disk, st, e);
      }
      if Reliable(m.disk) {
        AppendKeepsReliable(m, st, e);
      }
      if AppendEvent(m.disk, st, e).clean {
        AppendKeepsReadsLegal(m, st, e);
      }
    }
  }

  lemma AppendOnlyAdds(disk: Disk, st: State, e: Event)
    ensures st.ledger <= AppendEvent(disk, st, e).ledger && AppendEvent(disk, st, e).nextTask == st.nextTask
  {}

  lemma AppendAdvances(m: Machine, st: State, e: Event)
    requires Inv(m, st) && MayAppend(m, st, e) && !e.TaskCreated?
    ensures Advances(m, st, AppendEvent(m.disk, st, e))
  {
    AppendAdvancesReads(m.disk, st, st, e);
    AppendOnlyAdds(m.disk, st, e);
    AppendKeepsInv(m, st, e);
  }

  // ── Ids ───────────────────────────────────────────────────────────────

  lemma {:induction false} FoldIdsAreCreated(events: seq<Event>, id: TaskId) returns (j: nat)
    requires id in Fold(events).tasks
    ensures j < |events| && events[j].TaskCreated? && events[j].task.id == id
  {
    var front, last := events[..|events| - 1], events[|events| - 1];
    if last.TaskCreated? && last.task.id == id {
      j := |events| - 1;
    } else {
      j := FoldIdsAreCreated(front, id);
    }
  }

  lemma {:induction false} CreatedIdsAreFolded(events: seq<Event>, j: nat)
    requires j < |events| && events[j].TaskCreated?
    ensures events[j].task.id in Fold(events).tasks
  {
    if j < |events| - 1 {
      CreatedIdsAreFolded(events[..|events| - 1], j);
    }
  }

  /** What reads show was created in the ledger, under an id already given out. */
  lemma ReadIdsAreRecorded(m: Machine, st: State, id: TaskId)
    requires Inv(m, st) && id in ReadGraph(st).tasks
    ensures id in Fold(st.ledger).tasks && id < st.nextTask
  {
    var part := ReadShowsSubsequence(st);
    var j := FoldIdsAreCreated(part, id);
    SubsequenceMembers(part, st.ledger, j);
    var k: nat :| k < |st.ledger| && st.ledger[k] == part[j];
    CreatedIdsAreFolded(st.ledger, k);
  }

  /** The next id is new everywhere. */
  lemma NextIdIsNew(m: Machine, st: State)
    requires Inv(m, st)
    ensures st.nextTask !in Fold(st.ledger).tasks && st.nextTask !in ReadGraph(st).tasks
  {
    if st.nextTask in Fold(st.ledger).tasks {
      var j := FoldIdsAreCreated(st.ledger, st.nextTask);
      assert false;
    }
    if st.nextTask in ReadGraph(st).tasks {
      ReadIdsAreRecorded(m, st, st.nextTask);
    }
  }

  // ── Fields ────────────────────────────────────────────────────────────

  /** What every field of a task keeps to, its status apart. */
  predicate FieldsOk(t: Task) {
    && GoalIdOk(t.goalId) && t.title != "" && t.source.ref != "" && t.owner != "" && t.idempotencyKey != ""
    && (forall i :: 0 <= i < |t.evidence| ==> EvidenceOk(t.evidence[i]))
    && (forall i :: 0 <= i < |t.transitions| ==> TransitionOk(t.transitions[i]))
  }

  predicate GraphFieldsOk(g: Snapshot) {
    && (forall id :: id in g.goals ==> GoalOk(g.goals[id]))
    && (forall id :: id in g.tasks ==> FieldsOk(g.tasks[id]))
  }

  lemma EventKeepsFields(g: Snapshot, e: Event)
    requires EventOk(e) && GraphFieldsOk(g)
    ensures GraphFieldsOk(ApplyEvent(g, e))
  {}

  lemma {:induction false} FoldFieldsAreOk(events: seq<Event>)
    requires forall i :: 0 <= i < |events| ==> EventOk(events[i])
    ensures GraphFieldsOk(Fold(events))
  {
    if events != [] {
      FoldFieldsAreOk(events[..|events| - 1]);
      EventKeepsFields(Fold(events[..|events| - 1]), events[|events| - 1]);
    }
  }

  /** Whatever the disk did, all that can go wrong with what reads show is missing evidence. */
  lemma ReadFieldsAreOk(m: Machine, st: State)
    requires Inv(m, st)
    ensures GraphFieldsOk(ReadGraph(st))
  {
    var part := ReadShowsSubsequence(st);
    forall i | 0 <= i < |part| ensures EventOk(part[i]) {
      SubsequenceMembers(part, st.ledger, i);
      var k :| 0 <= k < |st.ledger| && st.ledger[k] == part[i];
      assert EventSound(m, st.ticks, st.ledger[..k], st.ledger[k]);
    }
    FoldFieldsAreOk(part);
  }

  // ── Evidence never disturbs the rest of a task ────────────────────────

  predicate SameButEvidence(a: Task, b: Task) {
    b == a.(evidence := b.evidence)
  }

  /** After an evidence append, reads show the task as before, with or without the new entry. */
  lemma EvidenceAppendRead(disk: Disk, st: State, id: TaskId, evidence: EvidenceEntry, actor: string)
    requires id in ReadGraph(st).tasks && EvidenceOk(evidence) && actor != ""
    ensures var st' := AppendEvent(disk, st, EvidenceAdded(actor, id, evidence));
      id in ReadGraph(st').tasks && SameButEvidence(ReadGraph(st).tasks[id], ReadGraph(st').tasks[id])
  {}

  lemma AddEvidenceKeepsInv(m: Machine, st: State, id: TaskId, evidence: EvidenceEntry, actor: string)
    requires Inv(m, st)
    ensures var o := AddEvidence(m.disk, st, id, evidence, actor);
      && Advances(m, st, o.st) && o.st.ticks == st.ticks
      && (o.result.Ok? ==>
            && id in ReadGraph(st).tasks && id in ReadGraph(o.st).tasks
            && SameButEvidence(ReadGraph(st).tasks[id], ReadGraph(o.st).tasks[id])
            && SameButEvidence(ReadGraph(st).tasks[id], o.result.value)
            && (Reliable(m.disk) ==> ReadGraph(o.st).tasks[id] == o.result.value && o.result.value.evidence != []))
  {
    var e := EvidenceAdded(actor, id, evidence);
    if AddEvidence(m.disk, st, id, evidence, actor).result.Ok? {
      ReadIdsAreRecorded(m, st, id);
      AppendAdvances(m, st, e);
      EvidenceAppendRead(m.disk, st, id, evidence, actor);
      if Reliable(m.disk) {
        AppendKeepsSync(m.disk, st, e);
        SyncedRead(st);
      }
    }
  }

  /** The promotion loop of a move. */
  lemma {:induction false} PromoteKeepsInv(m: Machine, st: State, task: Task, refs: seq<Ref>, actor: string)
    requires Inv(m, st)
    requires task.id in ReadGraph(st).tasks && SameButEvidence(ReadGraph(st).tasks[task.id], task)
    requires Reliable(m.disk) ==> ReadGraph(st).tasks[task.id] == task
    ensures var o := PromoteRefs(m.disk, st, task, refs, actor);
      && Advances(m, st, o.st) && o.st.ticks == st.ticks
      && (o.result.Ok? ==>
            && task.id in ReadGraph(o.st).tasks
            && SameButEvidence(task, ReadGraph(o.st).tasks[task.id])
            && SameButEvidence(task, o.result.value)
            && (Reliable(m.disk) ==> ReadGraph(o.st).tasks[task.id] == o.result.value
                                     && (refs != [] || task.evidence != [] ==> o.result.value.evidence != [])))
    decreases |refs|
  {
    if refs != [] {
      var entry := EvidenceEntry(refs[0], Other, None);
      AddEvidenceKeepsInv(m, st, task.id, entry, actor);
      var added := AddEvidence(m.disk, st, task.id, entry, actor);
      if added.result.Ok? {
        PromoteKeepsInv(m, added.st, added.result.value, refs[1..], actor);
        AdvancesTwice(m, st, added.st, PromoteRefs(m.disk, st, task, refs, actor).st);
      }
    }
  }

  // ── The operations ────────────────────────────────────────────────────

  lemma {:induction false} FoldKeepsIds(events: seq<Event>, id: TaskId)
    requires id in Fold(events).tasks
    ensures Fold(events).tasks[id].id == id
  {
    var front := events[..|events| - 1];
    if id in Fold(front).tasks {
      FoldKeepsIds(front, id);
    }
  }

  lemma ReadKeepsIds(st: State, id: TaskId)
    requires FileInv(st) && id in ReadGraph(st).tasks
    ensures ReadGraph(st).tasks[id].id == id
  {
    var part := ReadShowsSubsequence(st);
    FoldKeepsIds(part, id);
  }

  /** The grounds for a verified transition citing `ref`, as they stand before the port is called. */
  ghost predicate Grounds(m: Machine, st: State, id: TaskId, refs: seq<Ref>, j: nat, n: nat) {
    && j < |st.ledger| && n + 2 <= st.ticks && id in ReadGraph(st).tasks
    && var e := st.ledger[j];
       && e.EvidenceAdded? && e.taskId == id && e.evidence.kind.ToolReceipt? && refs == [e.evidence.ref]
       && ParseNote(e.evidence.note).Some?
       && Verify(m.policy, m.env(n), ParseNote(e.evidence.note).value)
       && (NeedsRefuter(RiskOf(m.policy, ReadGraph(st).tasks[id])) ==>
             Verify(m.policy, m.env(n + 1), ParseNote(e.evidence.note).value))
  }

  /** Grounds become a justification once the snapshot read is named. */
  lemma GroundsJustify(m: Machine, st: State, id: TaskId, t: Transition, j: nat, n: nat)
    requires Inv(m, st) && Grounds(m, st, id, t.evidenceRefs, j, n)
    ensures Justified(m, st.ticks, st.ledger, id, t)
  {
    var shown := ReadShowsSubsequence(st);
    if NeverStale(m.disk) {
      SyncedRead(st);
    }
    assert JustifiedBy(m, st.ledger, id, t, j, n, shown);
  }

  lemma FinishKeepsInv(m: Machine, st: State, task: Task, input: MoveInput, j: nat, n: nat)
    requires Inv(m, st)
    requires task.id in ReadGraph(st).tasks && SameButEvidence(task, ReadGraph(st).tasks[task.id])
    requires Reliable(m.disk) && input.evidenceRefs != [] ==> ReadGraph(st).tasks[task.id].evidence != []
    requires input.to.Verified? || input.to.Rejected? ==> task.status.EvidenceSubmitted?
    requires input.to.Verified? ==> Grounds(m, st, task.id, input.evidenceRefs, j, n)
    ensures Advances(m, st, FinishMove(m.disk, st, task, input).st)
  {
    var moved := ApplyTransition(task, input);
    if moved.Ok? {
      var t := Transition(Some(task.status), input.to, input.ts, input.actor, input.evidenceRefs, input.note);
      assert moved.value.transitions[|moved.value.transitions| - 1] == t;
      var e := Transitioned(input.actor, task.id, t);
      if input.to.Verified? {
        GroundsJustify(m, st, task.id, t, j, n);
      }
      if NeverStale(m.disk) {
        SyncedRead(st);
      }
      AppendAdvances(m, st, e);
    }
  }

  /** A move through the port keeps the invariant; moves to verified need grounds, those and
      rejections the right status. */
  lemma PortMoveKeepsInv(m: Machine, st: State, input: MoveInput, j: nat, n: nat)
    requires Inv(m, st)
    requires input.to.Verified? || input.to.Rejected? ==>
      input.taskId in ReadGraph(st).tasks ==> ReadGraph(st).tasks[input.taskId].status.EvidenceSubmitted?
    requires input.to.Verified? ==> Grounds(m, st, input.taskId, input.evidenceRefs, j, n)
    ensures Advances(m, st, MoveTaskAsVerifier(m.disk, st, input).st)
  {
    if input.taskId in ReadGraph(st).tasks {
      ReadKeepsIds(st, input.taskId);
      var task := ReadGraph(st).tasks[input.taskId];
      PromoteKeepsInv(m, st, task, input.evidenceRefs, input.actor);
      var promoted := PromoteRefs(m.disk, st, task, input.evidenceRefs, input.actor);
      if promoted.result.Ok? {
        assert input.to.Verified? ==> Grounds(m, promoted.st, input.taskId, input.evidenceRefs, j, n);
        FinishKeepsInv(m, promoted.st, promoted.result.value, input, j, n);
        AdvancesTwice(m, st, promoted.st, MoveTaskAsVerifier(m.disk, st, input).st);
      }
    }
  }

  lemma MoveKeepsInv(m: Machine, st: State, input: MoveInput)
    requires Inv(m, st)
    ensures Advances(m, st, MoveTask(m.disk, st, input).st)
  {
    if !input.to.Verified? && !input.to.Rejected? {
      PortMoveKeepsInv(m, st, input, 0, 0);
    }
  }

  lemma ReassignKeepsInv(m: Machine, st: State, id: TaskId, owner: string, actor: string, reason: string)
    requires Inv(m, st) && RegisteredOwner(m.policy, owner)
    ensures Advances(m, st, ReassignOwnerAsVerifier(m.disk, st, id, owner, actor, reason).st)
  {
    if GetTask(st, id).Some? {
      AppendAdvances(m, st, OwnerReassigned(actor, id, GetTask(st, id).value.owner, owner, reason));
    }
  }

  lemma CreateGoalKeepsInv(m: Machine, st: State, goal: Goal, actor: string)
    requires Inv(m, st)
    ensures Advances(m, st, CreateGoal(m.disk, st, goal, actor).st)
  {
    AppendAdvances(m, st, GoalCreated(actor, goal));
  }

  lemma NamingKeepsInv(m: Machine, st: State)
    requires Inv(m, st)
    ensures Advances(m, st, st.(nextTask := st.nextTask + 1))
  {}

  /** Appending a task under the id just taken. */
  lemma NewTaskAdvances(m: Machine, st: State, e: Event)
    requires Inv(m, st) && e.TaskCreated? && e.task.id == st.nextTask
    requires e.task.status.Proposed? && e.task.evidence == [] && !StartsWith(e.task.owner, HAND_OWNER_PREFIX)
    requires |e.task.transitions| == 1 && e.task.transitions[0].from.None? && e.task.transitions[0].to.Proposed?
    ensures Advances(m, st, AppendEvent(m.disk, st.(nextTask := st.nextTask + 1), e))
  {
    var named := st.(nextTask := st.nextTask + 1);
    NamingKeepsInv(m, st);
    NextIdIsNew(m, st);
    AppendKeepsInv(m, named, e);
    AppendAdvancesReads(m.disk, st, named, e);
  }

  lemma CreateEndsInOneOf(disk: Disk, st: State, input: TaskInput)
    ensures var st' := CreateTask(disk, st, input).st;
      var named := st.(nextTask := st.nextTask + 1);
      || st' == st || st' == named
      || (!StartsWith(input.owner, HAND_OWNER_PREFIX)
        && st' == AppendEvent(disk, named, TaskCreated(input.actor, NewTask(input, st.nextTask))))
  {}

  lemma CreateTaskKeepsInv(m: Machine, st: State, input: TaskInput)
    requires Inv(m, st)
    ensures Advances(m, st, CreateTask(m.disk, st, input).st)
  {
    CreateEndsInOneOf(m.disk, st, input);
    NamingKeepsInv(m, st);
    if !StartsWith(input.owner, HAND_OWNER_PREFIX) {
      NewTaskAdvances(m, st, TaskCreated(input.actor, NewTask(input, st.nextTask)));
    }
  }

  lemma AssignKeepsInv(m: Machine, st: State, id: TaskId, handId: string, actor: string, unattended: bool, ts: int)
    requires Inv(m, st)
    ensures Advances(m, st, AssignHand(m.policy, m.disk, st, id, handId, actor, unattended, ts).st)
  {
    var move := MoveInput(id, Delegated, actor, [], Some("assigned to hand:" + handId), ts);
    MoveKeepsInv(m, st, move);
    var owner := HAND_OWNER_PREFIX + handId;
    assert owner[|HAND_OWNER_PREFIX|..] == handId;
    if m.policy.hands(handId).Some? {
      var moved := MoveTask(m.disk, st, move).st;
      ReassignKeepsInv(m, moved, id, owner, actor, "assigned to hand " + handId);
      AdvancesTwice(m, st, moved,
        ReassignOwnerAsVerifier(m.disk, moved, id, owner, actor, "assigned to hand " + handId).st);
    }
  }

  lemma RecordKeepsInv(m: Machine, st: State, id: TaskId, r: Receipt, ts: int)
    requires Inv(m, st)
    ensures Advances(m, st, RecordReceipt(m.disk, st, id, r, ts).st)
  {
    var entry := EvidenceEntry(Digest(r), ToolReceipt, Some(Json(r)));
    AddEvidenceKeepsInv(m, st, id, entry, r.submittedBy);
    var added := AddEvidence(m.disk, st, id, entry, r.submittedBy).st;
    var move := MoveInput(id, EvidenceSubmitted, r.submittedBy, [Digest(r)], Some("receipt kind"), ts);
    MoveKeepsInv(m, added, move);
    AdvancesTwice(m, st, added, MoveTask(m.disk, added, move).st);
  }

  lemma StartWorkKeepsInv(m: Machine, st: State, task: Task, id: TaskId, r: Receipt, ts: int)
    requires Inv(m, st)
    ensures Advances(m, st, StartWork(m.disk, st, task, id, r, ts).st)
  {
    MoveKeepsInv(m, st,
      MoveInput(id, InProgress, r.submittedBy, [], Some("receipt submission requires in-progress"), ts));
  }

  lemma SubmitEndsInOneOf(m: Machine, st: State, id: TaskId, r: Receipt, ts: int)
    ensures var st' := SubmitReceipt(m.policy, m.disk, st, id, r, ts).st;
      st' == st || (GetTask(st, id).Some? &&
                    var started := StartWork(m.disk, st, GetTask(st, id).value, id, r, ts).st;
                    st' == started || st' == RecordReceipt(m.disk, started, id, r, ts).st)
  {}

  lemma SubmitKeepsInv(m: Machine, st: State, id: TaskId, r: Receipt, ts: int)
    requires Inv(m, st)
    ensures Advances(m, st, SubmitReceipt(m.policy, m.disk, st, id, r, ts).st)
  {
    SubmitEndsInOneOf(m, st, id, r, ts);
    if GetTask(st, id).Some? {
      var task := GetTask(st, id).value;
      StartWorkKeepsInv(m, st, task, id, r, ts);
      var started := StartWork(m.disk, st, task, id, r, ts).st;
      RecordKeepsInv(m, started, id, r, ts);
      AdvancesTwice(m, st, started, RecordReceipt(m.disk, started, id, r, ts).st);
    }
  }

  /** Evidence shown on a task was recorded by an evidence event of that task. */
  lemma {:induction false} FoldEvidenceIsRecorded(events: seq<Event>, id: TaskId, e: EvidenceEntry) returns (j: nat)
    requires id in Fold(events).tasks && e in Fold(events).tasks[id].evidence
    requires forall i :: 0 <= i < |events| && events[i].TaskCreated? ==> events[i].task.evidence == []
    ensures j < |events| && events[j].EvidenceAdded? && events[j].taskId == id && events[j].evidence == e
  {
    var front, last := events[..|events| - 1], events[|events| - 1];
    if last.EvidenceAdded? && last.taskId == id && last.evidence == e {
      j := |events| - 1;
    } else {
      j := FoldEvidenceIsRecorded(front, id, e);
    }
  }

  lemma ReadEvidenceIsRecorded(m: Machine, st: State, id: TaskId, e: EvidenceEntry) returns (j: nat)
    requires Inv(m, st) && id in ReadGraph(st).tasks && e in ReadGraph(st).tasks[id].evidence
    ensures j < |st.ledger| && st.ledger[j].EvidenceAdded? && st.ledger[j].taskId == id && st.ledger[j].evidence == e
  {
    var part := ReadShowsSubsequence(st);
    forall i | 0 <= i < |part| && part[i].TaskCreated? ensures part[i].task.evidence == [] {
      SubsequenceMembers(part, st.ledger, i);
      var k :| 0 <= k < |st.ledger| && st.ledger[k] == part[i];
      assert EventSound(m, st.ticks, st.ledger[..k], st.ledger[k]);
    }
    var i := FoldEvidenceIsRecorded(part, id, e);
    SubsequenceMembers(part, st.ledger, i);
    j :| 0 <= j < |st.ledger| && st.ledger[j] == part[i];
  }

  lemma TickKeepsInv(m: Machine, st: State)
    requires Inv(m, st)
    ensures Advances(m, st, st.(ticks := st.ticks + 2))
  {}

  lemma AcceptanceIsGrounded(m: Machine, st: State, task: Task, latest: EvidenceEntry, id: TaskId) returns (j: nat)
    requires Inv(m, st) && GetTask(st, id) == Some(task)
    requires latest in task.evidence && latest.kind.ToolReceipt? && ParseNote(latest.note).Some?
    requires Accepts(m.policy, m.env, st.ticks, RiskOf(m.policy, task), ParseNote(latest.note).value)
    ensures Grounds(m, st.(ticks := st.ticks + 2), id, [latest.ref], j, st.ticks)
  {
    j := ReadEvidenceIsRecorded(m, st, id, latest);
  }

  lemma VerdictKeepsInv(m: Machine, st: State, input: MoveInput, j: nat, n: nat)
    requires Inv(m, st)
    requires input.taskId in ReadGraph(st).tasks ==> ReadGraph(st).tasks[input.taskId].status.EvidenceSubmitted?
    requires input.to.Verified? ==> Grounds(m, st.(ticks := st.ticks + 2), input.taskId, input.evidenceRefs, j, n)
    ensures Advances(m, st, MoveTaskAsVerifier(m.disk, st.(ticks := st.ticks + 2), input).st)
  {
    var judged := st.(ticks := st.ticks + 2);
    TickKeepsInv(m, st);
    assert ReadGraph(judged) == ReadGraph(st);
    PortMoveKeepsInv(m, judged, input, j, n);
    AdvancesTwice(m, st, judged, MoveTaskAsVerifier(m.disk, judged, input).st);
  }

  lemma ConcludeKeepsInv(m: Machine, st: State, task: Task, latest: EvidenceEntry, id: TaskId, actor: string, ts: int)
    requires Inv(m, st) && GetTask(st, id) == Some(task) && task.status.EvidenceSubmitted?
    requires latest in task.evidence && latest.kind.ToolReceipt? && ParseNote(latest.note).Some?
    ensures Advances(m, st,
      Conclude(m.policy, m.env, m.disk, st, task, latest.ref, ParseNote(latest.note).value, id, actor, ts).st)
  {
    if Accepts(m.policy, m.env, st.ticks, RiskOf(m.policy, task), ParseNote(latest.note).value) {
      var j := AcceptanceIsGrounded(m, st, task, latest, id);
      VerdictKeepsInv(m, st, MoveInput(id, Verified, actor, [latest.ref], Some("verified"), ts), j, st.ticks);
    } else {
      VerdictKeepsInv(m, st, MoveInput(id, Rejected, actor, [], Some("rejected"), ts), 0, 0);
    }
  }

  lemma VerifyKeepsInv(m: Machine, st: State, id: TaskId, actor: string, ts: int)
    requires Inv(m, st)
    ensures Advances(m, st, VerifyAndTransition(m.policy, m.env, m.disk, st, id, actor, ts).st)
  {
    var task := GetTask(st, id);
    if task.Some? && task.value.status.EvidenceSubmitted? {
      var latest := LatestReceipt(task.value.evidence);
      if latest.None? {
        PortMoveKeepsInv(m, st,
          MoveInput(id, Rejected, actor, [], Some("no receipt evidence found to verify"), ts), 0, 0);
      } else if ParseNote(latest.value.note).Some? {
        ConcludeKeepsInv(m, st, task.value, latest.value, id, actor, ts);
      }
    }
  }

  predicate HandOp(op: Op) {
    op.OpAssignHand? || op.OpSubmitReceipt? || op.OpAbortHandTask? || op.OpVerifyAndTransition?
  }

  lemma HandOpKeepsInv(m: Machine, st: State, op: Op)
    requires Inv(m, st) && HandOp(op)
    ensures Advances(m, st, Apply(m, st, op))
  {
    match op
    case OpAssignHand(id, handId, actor, unattended, ts) => AssignKeepsInv(m, st, id, handId, actor, unattended, ts);
    case OpSubmitReceipt(id, receipt, ts) => SubmitKeepsInv(m, st, id, receipt, ts);
    case OpAbortHandTask(id, actor, reason, ts) =>
      MoveKeepsInv(m, st, MoveInput(id, Blocked, actor, [], Some("hand task aborted: " + reason), ts));
    case OpVerifyAndTransition(id, actor, ts) => VerifyKeepsInv(m, st, id, actor, ts);
  }

  lemma ImportKeepsInv(m: Machine, st: State, input: TaskInput)
    requires Inv(m, st)
    ensures Advances(m, st, ImportTask(m.disk, st, input).st)
  {
    CreateTaskKeepsInv(m, st, input.(idempotencyKey := Some(DeriveIdempotencyKey(input.source))));
  }

  lemma OwnerKeepsInv(m: Machine, st: State, id: TaskId, owner: string, actor: string, reason: string)
    requires Inv(m, st)
    ensures Advances(m, st, ReassignOwner(m.disk, st, id, owner, actor, reason).st)
  {
    if !StartsWith(owner, HAND_OWNER_PREFIX) {
      ReassignKeepsInv(m, st, id, owner, actor, reason);
    }
  }

  lemma ApplyKeepsInv(m: Machine, st: State, op: Op)
    requires Inv(m, st)
    ensures Advances(m, st, Apply(m, st, op))
  {
    if HandOp(op) {
      HandOpKeepsInv(m, st, op);
    } else {
      match op
      case OpCreateGoal(goal, actor) => CreateGoalKeepsInv(m, st, goal, actor);
      case OpCreateTask(input) => CreateTaskKeepsInv(m, st, input);
      case OpImportTask(input) => ImportKeepsInv(m, st, input);
      case OpMoveTask(move) => MoveKeepsInv(m, st, move);
      case OpReassignOwner(id, owner, actor, reason) => OwnerKeepsInv(m, st, id, owner, actor, reason);
      case OpAddEvidence(id, evidence, actor) => AddEvidenceKeepsInv(m, st, id, evidence, actor);
    }
  }

  lemma RunStep(m: Machine, st: State, ops: seq<Op>, op: Op)
    ensures Run(m, st, ops + [op]) == Apply(m, Run(m, st, ops), op)
  {
    assert (ops + [op])[..|ops|] == ops;
  }

  lemma {:induction false} RunAdvances(m: Machine, st: State, ops: seq<Op>)
    requires Inv(m, st)
    ensures Advances(m, st, Run(m, st, ops))
  {
    if ops != [] {
      var before := Run(m, st, ops[..|ops| - 1]);
      RunAdvances(m, st, ops[..|ops| - 1]);
      ApplyKeepsInv(m, before, ops[|ops| - 1]);
      AdvancesTwice(m, st, before, Run(m, st, ops));
    }
  }

  lemma EveryRunKeepsInv(m: Machine, ops: seq<Op>)
    ensures Inv(m, Run(m, INITIAL_STATE, ops))
  {
    RunAdvances(m, INITIAL_STATE, ops);
  }

  // ── Theorems ──────────────────────────────────────────────────────────

  /**
   * The incremental snapshot refines the full rebuild.  If no snapshot write fails,
   * graph.json is the fold of the whole ledger after every run; and however writes
   * fail, every read is the fold of some subsequence of the ledger.
   */
  lemma SnapshotRefinesRebuild(m: Machine, ops: seq<Op>)
    ensures var st := Run(m, INITIAL_STATE, ops);
      && (NeverStale(m.disk) ==> Synced(st) && ReadGraph(st) == Fold(st.ledger))
      && ShowsSubsequence(ReadGraph(st), st.ledger)
  {
    EveryRunKeepsInv(m, ops);
    var part := ReadShowsSubsequence(Run(m, INITIAL_STATE, ops));
  }

  /** A closed task has stopped: it left verified or rejected, which it entered from evidence-submitted. */
  ghost predicate JudgedBeforeClosing(task: Task) {
    var ts := task.transitions;
    && (forall i :: 0 <= i < |ts| - 1 ==> !ts[i].to.Closed?)
    && (task.status.Closed? ==>
          && |ts| >= 3
          && (ts[|ts| - 2].to.Verified? || ts[|ts| - 2].to.Rejected?)
          && ts[|ts| - 2].from == Some(EvidenceSubmitted))
  }

  lemma LegalPathsAreJudged(task: Task)
    requires LegalPath(task)
    ensures JudgedBeforeClosing(task)
  {
    var ts := task.transitions;
    forall i | 0 <= i < |ts| - 1 ensures !ts[i].to.Closed? {
      assert LegalStep(ts[i + 1]) && ts[i + 1].from == Some(ts[i].to);
    }
    if task.status.Closed? {
      assert LegalStep(ts[|ts| - 1]) && ts[|ts| - 1].from == Some(ts[|ts| - 2].to);
      assert LegalStep(ts[|ts| - 2]);
    }
  }

  lemma ReadsAreLegal(m: Machine, st: State)
    requires Inv(m, st) && (st.clean || NoFork(m.disk))
    ensures GraphLegal(ReadGraph(st), st.nextTask)
  {}

  ghost predicate LegalHistories(g: Snapshot) {
    forall id :: id in g.tasks ==> g.tasks[id].id == id && LegalPath(g.tasks[id]) && JudgedBeforeClosing(g.tasks[id])
  }

  lemma LegalGraphsHaveLegalHistories(g: Snapshot, limit: TaskId)
    requires GraphLegal(g, limit)
    ensures LegalHistories(g)
  {
    forall id | id in g.tasks ensures LegalPath(g.tasks[id]) && JudgedBeforeClosing(g.tasks[id]) {
      LegalPathsAreJudged(g.tasks[id]);
    }
  }

  /**
   * Legal histories.  However writes fail, every task that reads show walked a legal path
   * as long as every snapshot written passes its schema.  And on a disk that never forks,
   * every task of the rebuild did, and every task reads show, schema or not.
   */
  lemma HistoriesAreLegal(m: Machine, ops: seq<Op>)
    ensures var st := Run(m, INITIAL_STATE, ops);
      && (st.clean || NoFork(m.disk) ==> LegalHistories(ReadGraph(st)))
      && (NoFork(m.disk) ==> LegalHistories(Fold(st.ledger)))
  {
    EveryRunKeepsInv(m, ops);
    var st := Run(m, INITIAL_STATE, ops);
    if st.clean || NoFork(m.disk) {
      ReadsAreLegal(m, st);
      LegalGraphsHaveLegalHistories(ReadGraph(st), st.nextTask);
    }
    if NoFork(m.disk) {
      LegalGraphsHaveLegalHistories(Fold(st.ledger), st.nextTask);
    }
  }

  /**
   * Verified means checked.  Under any disk failure, each transition to verified in the
   * ledger cites a receipt recorded for that task which is not a narrative and which the
   * verifier accepted -- twice, if the risk of the task as it was read was not low -- and
   * it left evidence-submitted.
   */
  lemma VerifiedMeansChecked(m: Machine, ops: seq<Op>, i: nat)
    ensures var st := Run(m, INITIAL_STATE, ops);
      i < |st.ledger| && st.ledger[i].Transitioned? && st.ledger[i].transition.to.Verified? ==>
        && st.ledger[i].transition.from == Some(EvidenceSubmitted)
        && Justified(m, st.ticks, st.ledger[..i], st.ledger[i].taskId, st.ledger[i].transition)
  {
    EveryRunKeepsInv(m, ops);
    var st := Run(m, INITIAL_STATE, ops);
    if i < |st.ledger| {
      assert EventSound(m, st.ticks, st.ledger[..i], st.ledger[i]);
    }
  }

  /** If every write succeeds, whatever rests on evidence has some. */
  lemma RestingTasksHaveEvidence(m: Machine, ops: seq<Op>, id: TaskId)
    requires Reliable(m.disk)
    ensures var tasks := ReadGraph(Run(m, INITIAL_STATE, ops)).tasks;
      id in tasks && RestsOnEvidence(tasks[id].status) ==> tasks[id].evidence != []
  {
    EveryRunKeepsInv(m, ops);
    SyncedRead(Run(m, INITIAL_STATE, ops));
  }

  lemma {:induction false} FoldOwnersAreRegistered(policy: Policy, events: seq<Event>, id: TaskId)
    requires forall i :: 0 <= i < |events| ==>
      && (events[i].TaskCreated? ==> !StartsWith(events[i].task.owner, HAND_OWNER_PREFIX))
      && (events[i].OwnerReassigned? ==> RegisteredOwner(policy, events[i].to))
    requires id in Fold(events).tasks
    ensures RegisteredOwner(policy, Fold(events).tasks[id].owner)
  {
    var front, last := events[..|events| - 1], events[|events| - 1];
    assert events == front + [last];
    if id in Fold(front).tasks {
      FoldOwnersAreRegistered(policy, front, id);
    }
  }

  /** Under any disk failure, a hand-owned task is owned by a hand of the registry. */
  lemma HandOwnersAreRegistered(m: Machine, ops: seq<Op>, id: TaskId)
    ensures var tasks := ReadGraph(Run(m, INITIAL_STATE, ops)).tasks;
      id in tasks ==> RegisteredOwner(m.policy, tasks[id].owner)
  {
    EveryRunKeepsInv(m, ops);
    var st := Run(m, INITIAL_STATE, ops);
    var part := ReadShowsSubsequence(st);
    forall i | 0 <= i < |part|
      ensures part[i].TaskCreated? ==> !StartsWith(part[i].task.owner, HAND_OWNER_PREFIX)
      ensures part[i].OwnerReassigned? ==> RegisteredOwner(m.policy, part[i].to)
    {
      SubsequenceMembers(part, st.ledger, i);
      var k :| 0 <= k < |st.ledger| && st.ledger[k] == part[i];
      assert EventSound(m, st.ticks, st.ledger[..k], st.ledger[k]);
    }
    if id in ReadGraph(st).tasks {
      FoldOwnersAreRegistered(m.policy, part, id);
    }
  }
}
