/**
 * Properties that relate several operations on the execution graph: tasks only grow,
 * importing reconciles by source, a resubmitted receipt is a no-op, and a refused move
 * leaves its evidence behind.
 */
module ExecReconciliation {
  import opened Common
  import opened Text
  import opened HandContract
  import opened ExecContracts
  import opened ExecLedger
  import opened ExecApi
  import opened ExecSafety

  // ── Tasks only grow ───────────────────────────────────────────────────

  lemma NextEventGrows(m: Machine, st: State, id: TaskId, n: nat)
    requires LedgerSound(m, st) && n < |st.ledger| && id in Fold(st.ledger[..n]).tasks
    ensures id in Fold(st.ledger[..n + 1]).tasks
    ensures GrewInto(Fold(st.ledger[..n]).tasks[id], Fold(st.ledger[..n + 1]).tasks[id])
  {
    var front, e := st.ledger[..n], st.ledger[n];
    assert st.ledger[..n + 1] == front + [e];
    FoldAppend(front, e);
    assert EventSound(m, st.ticks, front, e);
    EventGrowsTask(Fold(front), e, id);
  }

  lemma {:induction false} TasksOnlyGrow(m: Machine, st: State, id: TaskId, k: nat, n: nat)
    requires LedgerSound(m, st) && k <= n <= |st.ledger|
    requires id in Fold(st.ledger[..k]).tasks
    ensures id in Fold(st.ledger[..n]).tasks && GrewInto(Fold(st.ledger[..k]).tasks[id], Fold(st.ledger[..n]).tasks[id])
  {
    if k < n {
      TasksOnlyGrow(m, st, id, k, n - 1);
      NextEventGrows(m, st, id, n - 1);
    }
  }

  /** A longer ledger rebuilds to the same tasks, grown. */
  lemma RebuildOnlyGrows(m: Machine, ledger: seq<Event>, later: State)
    requires LedgerSound(m, later) && ledger <= later.ledger
    ensures Grows(Fold(ledger), Fold(later.ledger))
  {
    assert later.ledger[..|ledger|] == ledger && later.ledger[..|later.ledger|] == later.ledger;
    forall id | id in Fold(ledger).tasks
      ensures id in Fold(later.ledger).tasks && GrewInto(Fold(ledger).tasks[id], Fold(later.ledger).tasks[id])
    {
      TasksOnlyGrow(m, later, id, |ledger|, |later.ledger|);
    }
  }

  /**
   * Whatever is done afterwards and however the disk fails, a task of the rebuild keeps its
   * identity, and its evidence and transitions are only ever extended.  The same holds of
   * the tasks that reads show, as long as every snapshot written passes its schema, and
   * always if no snapshot write fails.
   */
  lemma TaskHistoryIsAppendOnly(m: Machine, st: State, ops: seq<Op>)
    requires Inv(m, st)
    ensures var later := Run(m, st, ops);
      && Grows(Fold(st.ledger), Fold(later.ledger))
      && (later.clean || NeverStale(m.disk) ==> Grows(ReadGraph(st), ReadGraph(later)))
  {
    var later := Run(m, st, ops);
    RunAdvances(m, st, ops);
    RebuildOnlyGrows(m, st.ledger, later);
    if NeverStale(m.disk) {
      SyncedRead(st);
      SyncedRead(later);
    }
  }

  // ── Idempotency keys ──────────────────────────────────────────────────

  predicate NoColon(s: string) {
    forall i :: 0 <= i < |s| ==> s[i] != ':'
  }

  lemma SplitAtColon(x: string, u: string, y: string, v: string)
    requires NoColon(x) && NoColon(y) && x + ":" + u == y + ":" + v
    ensures x == y && u == v
  {
    var key := x + ":" + u;
    assert key == y + ":" + v;
    assert key[|x|] == ':' && key[|y|] == ':';
    assert forall i :: 0 <= i < |x| ==> key[i] == x[i] && key[i] != ':';
    assert forall i :: 0 <= i < |y| ==> key[i] == y[i] && key[i] != ':';
    assert |x| == |y|;
    assert x == key[..|x|] && y == key[..|y|];
    assert u == key[|x| + 1..] && v == key[|y| + 1..];
  }

  /** Kind names are told apart by length and first letter, and none contains the separator. */
  lemma KindNames(a: SourceKind, b: SourceKind)
    ensures NoColon(KindName(a))
    ensures KindName(a) == KindName(b) ==> a == b
  {
    assert |KindName(a)| == |KindName(b)| && KindName(a)[0] == KindName(b)[0] ==> a == b;
  }

  /** The derived key determines the source, and the other way round. */
  lemma DerivedKeyIsInjective(a: SourceRef, b: SourceRef)
    ensures DeriveIdempotencyKey(a) == DeriveIdempotencyKey(b) <==> a == b
  {
    if DeriveIdempotencyKey(a) == DeriveIdempotencyKey(b) {
      KindNames(a.kind, b.kind);
      KindNames(b.kind, a.kind);
      SplitAtColon(KindName(a.kind), a.ref, KindName(b.kind), b.ref);
    }
  }

  predicate KeysApart(g: Snapshot) {
    forall a, b :: a in g.tasks && b in g.tasks && g.tasks[a].idempotencyKey == g.tasks[b].idempotencyKey ==> a == b
  }

  /**
   * Idempotency keys are pairwise distinct in what reads show, as long as every snapshot
   * written passes its schema or the disk never forks; and on such a disk in the rebuild.
   */
  lemma KeysAreDistinct(m: Machine, ops: seq<Op>)
    ensures var st := Run(m, INITIAL_STATE, ops);
      && (st.clean || NoFork(m.disk) ==> KeysApart(ReadGraph(st)))
      && (NoFork(m.disk) ==> KeysApart(Fold(st.ledger)))
  {
    EveryRunKeepsInv(m, ops);
    var st := Run(m, INITIAL_STATE, ops);
    if st.clean || NoFork(m.disk) {
      ReadsAreLegal(m, st);
    }
  }

  /** Whether an event recorded now is shown by the reads that follow. */
  predicate WriteShows(disk: Disk, st: State) {
    match disk(st.writes)
    case AllOk => true
    case SnapshotFails => st.file.None? || !SnapshotOk(st.file.value)
    case AppendFails => false
  }

  /** The look-up by key finds the task with that key, if reads show one. */
  lemma TwinIsTheKeyed(m: Machine, st: State, key: string)
    requires Inv(m, st)
    ensures var g := ReadGraph(st);
      var twin := FindByKey(g.tasks, key, 0, st.nextTask + 1);
      && (twin.None? <==> forall id :: id in g.tasks ==> g.tasks[id].idempotencyKey != key)
      && (twin.Some? ==> g.tasks[twin.value].id == twin.value)
  {
    var g := ReadGraph(st);
    forall id | id in g.tasks ensures id < st.nextTask && g.tasks[id].id == id {
      ReadIdsAreRecorded(m, st, id);
      ReadKeepsIds(st, id);
    }
  }

  lemma AppendedTaskShows(disk: Disk, st: State, e: Event)
    requires e.TaskCreated? && AppendVerdict(st, e).Recorded? && e.task.id !in ReadGraph(st).tasks
    ensures var g := ReadGraph(AppendEvent(disk, st, e));
      && (e.task.id in g.tasks <==> WriteShows(disk, st))
      && (e.task.id in g.tasks ==> g.tasks[e.task.id] == e.task)
  {
    FoldAppend(st.ledger, e);
  }

  /**
   * A successful create returns a task with the key that was asked for: the one reads
   * show under that key, and then nothing is written, or a new one if there is none.  The
   * new one is shown exactly if its write gets through to the reads.
   */
  lemma CreateYieldsItsKey(m: Machine, st: State, input: TaskInput)
    requires Inv(m, st)
    ensures var o := CreateTask(m.disk, st, input);
      o.result.Ok? ==>
        var task := o.result.value.task;
        var key := NewTask(input, 0).idempotencyKey;
        && task.idempotencyKey == key
        && (o.result.value.created
          <==> forall id :: id in ReadGraph(st).tasks ==> ReadGraph(st).tasks[id].idempotencyKey != key)
        && (!o.result.value.created ==>
              && o.st == st.(nextTask := st.nextTask + 1)
              && task.id in ReadGraph(st).tasks && ReadGraph(st).tasks[task.id] == task)
        && (o.result.value.created ==>
              && task == NewTask(input, st.nextTask) && task.id !in ReadGraph(st).tasks
              && (task.id in ReadGraph(o.st).tasks <==> WriteShows(m.disk, st))
              && (task.id in ReadGraph(o.st).tasks ==> ReadGraph(o.st).tasks[task.id] == task))
  {
    var named := st.(nextTask := st.nextTask + 1);
    var event := TaskCreated(input.actor, NewTask(input, st.nextTask));
    NextIdIsNew(m, st);
    assert ReadGraph(named) == ReadGraph(st);
    TwinIsTheKeyed(m, st, NewTask(input, 0).idempotencyKey);
    if AppendVerdict(named, event).Recorded? {
      AppendedTaskShows(m.disk, named, event);
    }
  }

  /** What the schema and the authority guard ask of a create request. */
  predicate Admissible(input: TaskInput) {
    !StartsWith(input.owner, HAND_OWNER_PREFIX) && input.actor != "" && TaskOk(NewTask(input, 0))
  }

  lemma AdmissibleImportsSucceed(m: Machine, st: State, input: TaskInput)
    requires Admissible(input)
    ensures ImportTask(m.disk, st, input).result.Ok?
  {
    var keyed := input.(idempotencyKey := Some(DeriveIdempotencyKey(input.source)));
    assert NewTask(keyed, st.nextTask).idempotencyKey != "";
  }

  lemma SameKeySameTask(m: Machine, st: State, a: TaskId, b: TaskId)
    requires Inv(m, st) && (st.clean || NoFork(m.disk)) && a in ReadGraph(st).tasks && b in ReadGraph(st).tasks
    requires ReadGraph(st).tasks[a].idempotencyKey == ReadGraph(st).tasks[b].idempotencyKey
    ensures a == b
  {
    ReadsAreLegal(m, st);
  }

  lemma CreatedIdIsTaken(m: Machine, st: State, input: TaskInput)
    requires Inv(m, st) && CreateTask(m.disk, st, input).result.Ok?
    ensures var o := CreateTask(m.disk, st, input); o.result.value.task.id < o.st.nextTask == st.nextTask + 1
  {
    CreateYieldsItsKey(m, st, input);
    var o := CreateTask(m.disk, st, input);
    if !o.result.value.created {
      ReadIdsAreRecorded(m, st, o.result.value.task.id);
    }
    AppendOnlyAdds(m.disk, st.(nextTask := st.nextTask + 1), TaskCreated(input.actor, NewTask(input, st.nextTask)));
  }

  /** A later create that yields an earlier task found it in what reads show, and under the same key. */
  lemma SharingIsShown(m: Machine, between: State, id: TaskId, key: string, later: State, second: TaskInput)
    requires Advances(m, between, later) && later.clean && id < between.nextTask
    requires id in ReadGraph(between).tasks ==> ReadGraph(between).tasks[id].idempotencyKey == key
    requires CreateTask(m.disk, later, second).result.Ok?
    ensures var two := CreateTask(m.disk, later, second);
      && (two.result.value.task.id == id
        <==> key == NewTask(second, 0).idempotencyKey && id in ReadGraph(between).tasks)
      && (two.result.value.task.id == id ==> !two.result.value.created && two.st.ledger == later.ledger)
  {
    CreateYieldsItsKey(m, later, second);
    var two := CreateTask(m.disk, later, second);
    if id in ReadGraph(between).tasks {
      assert GrewInto(ReadGraph(between).tasks[id], ReadGraph(later).tasks[id]);
      if !two.result.value.created && key == NewTask(second, 0).idempotencyKey {
        SameKeySameTask(m, later, id, two.result.value.task.id);
      }
    }
  }

  lemma CreatedKey(m: Machine, st: State, input: TaskInput)
    requires Inv(m, st) && CreateTask(m.disk, st, input).result.Ok?
    ensures var o := CreateTask(m.disk, st, input);
      var id := o.result.value.task.id;
      && (id in ReadGraph(o.st).tasks ==> ReadGraph(o.st).tasks[id].idempotencyKey == NewTask(input, 0).idempotencyKey)
      && (Reliable(m.disk) ==> id in ReadGraph(o.st).tasks)
  {
    CreateYieldsItsKey(m, st, input);
  }

  /**
   * Reconciliation.  Take two imports with anything happening in between, on any disk, as
   * long as every snapshot written passes its schema.  They yield the same task exactly
   * when their sources are equal and the first one's task was shown after its import; and
   * then the second creates nothing and writes nothing.  If every write succeeds, they
   * share a task exactly when the sources are equal.
   */
  lemma ImportsShareExactlyBySource(m: Machine, st: State, first: TaskInput, ops: seq<Op>, second: TaskInput)
    requires Inv(m, st) && st.clean && Admissible(first) && Admissible(second)
    ensures var imported := ImportTask(m.disk, st, first);
      var later := Run(m, imported.st, ops);
      var again := ImportTask(m.disk, later, second);
      && imported.result.Ok? && again.result.Ok?
      && var id := imported.result.value.task.id;
      && (later.clean ==>
            && (again.result.value.task.id == id
              <==> first.source == second.source && id in ReadGraph(imported.st).tasks)
            && (again.result.value.task.id == id ==> !again.result.value.created && again.st.ledger == later.ledger))
      && (Reliable(m.disk) ==> later.clean && id in ReadGraph(imported.st).tasks)
  {
    var key1 := first.(idempotencyKey := Some(DeriveIdempotencyKey(first.source)));
    var key2 := second.(idempotencyKey := Some(DeriveIdempotencyKey(second.source)));
    var imported := ImportTask(m.disk, st, first);
    var later := Run(m, imported.st, ops);
    AdmissibleImportsSucceed(m, st, first);
    AdmissibleImportsSucceed(m, later, second);
    CreateTaskKeepsInv(m, st, key1);
    CreatedKey(m, st, key1);
    CreatedIdIsTaken(m, st, key1);
    RunAdvances(m, imported.st, ops);
    DerivedKeyIsInjective(first.source, second.source);
    if later.clean {
      SharingIsShown(m, imported.st, imported.result.value.task.id, key1.idempotencyKey.value, later, key2);
    }
  }

  // ── Moves, refused or not ─────────────────────────────────────────────

  /** The evidence events a move appends for the references it cites. */
  function Promoted(id: TaskId, refs: seq<Ref>, actor: string): seq<Event> {
    seq(|refs|, i requires 0 <= i < |refs| => EvidenceAdded(actor, id, EvidenceEntry(refs[i], Other, None)))
  }

  /** With a working disk an append does exactly what it says. */
  lemma ReliableAppend(disk: Disk, st: State, e: Event)
    requires Reliable(disk) && Synced(st) && AppendVerdict(st, e).Recorded?
    ensures var st' := AppendEvent(disk, st, e);
      Synced(st') && st'.ledger == st.ledger + [e] && ReadGraph(st') == ApplyEvent(ReadGraph(st), e)
  {
    SyncedRead(st);
    AppendKeepsSync(disk, st, e);
  }

  lemma ReliableAddEvidence(disk: Disk, st: State, id: TaskId, evidence: EvidenceEntry, actor: string)
    requires Reliable(disk) && Synced(st) && id in ReadGraph(st).tasks && EvidenceOk(evidence) && actor != ""
    ensures var o := AddEvidence(disk, st, id, evidence, actor);
      var task := ReadGraph(st).tasks[id];
      && o.result == Ok(task.(evidence := task.evidence + [evidence]))
      && Synced(o.st) && o.st.ledger == st.ledger + [EvidenceAdded(actor, id, evidence)]
      && id in ReadGraph(o.st).tasks && ReadGraph(o.st).tasks[id] == o.result.value
  {
    ReliableAppend(disk, st, EvidenceAdded(actor, id, evidence));
  }

  /** Of the events a caller tries to append from write `w` on, those the disk takes. */
  function Kept(disk: Disk, w: nat, events: seq<Event>): seq<Event>
    decreases |events|
  {
    if events == [] then []
    else (if disk(w).AppendFails? then [] else [events[0]]) + Kept(disk, w + 1, events[1..])
  }

  lemma {:induction false} KeptOfBoth(disk: Disk, w: nat, a: seq<Event>, b: seq<Event>)
    ensures Kept(disk, w, a + b) == Kept(disk, w, a) + Kept(disk, w + |a|, b)
    decreases |a|
  {
    if a == [] {
      assert a + b == b;
    } else {
      assert (a + b)[1..] == a[1..] + b;
      KeptOfBoth(disk, w + 1, a[1..], b);
    }
  }

  lemma {:induction false} ReliableKeepsAll(disk: Disk, w: nat, events: seq<Event>)
    requires Reliable(disk)
    ensures Kept(disk, w, events) == events
    decreases |events|
  {
    if events != [] {
      ReliableKeepsAll(disk, w + 1, events[1..]);
    }
  }

  /** One cited reference: the entry is taken or lost, the rest of the task stays. */
  lemma AddRefRecords(disk: Disk, st: State, task: Task, ref: Ref, actor: string)
    requires actor != "" && RefOk(ref)
    requires task.id in ReadGraph(st).tasks && SameButEvidence(task, ReadGraph(st).tasks[task.id])
    ensures var entry := EvidenceEntry(ref, Other, None);
      var o := AddEvidence(disk, st, task.id, entry, actor);
      && o.result.Ok? && o.st.writes == st.writes + 1
      && o.st.ledger == st.ledger + Kept(disk, st.writes, [EvidenceAdded(actor, task.id, entry)])
      && task.id in ReadGraph(o.st).tasks
      && SameButEvidence(task, o.result.value)
      && SameButEvidence(o.result.value, ReadGraph(o.st).tasks[task.id])
  {
    var entry := EvidenceEntry(ref, Other, None);
    EvidenceAppendRead(disk, st, task.id, entry, actor);
    assert [EvidenceAdded(actor, task.id, entry)][1..] == [];
  }

  lemma PromotedUnfolds(disk: Disk, w: nat, ledger: seq<Event>, id: TaskId, refs: seq<Ref>, actor: string)
    requires refs != []
    ensures ledger + Kept(disk, w, [EvidenceAdded(actor, id, EvidenceEntry(refs[0], Other, None))])
            + Kept(disk, w + 1, Promoted(id, refs[1..], actor))
         == ledger + Kept(disk, w, Promoted(id, refs, actor))
  {
    var e := EvidenceAdded(actor, id, EvidenceEntry(refs[0], Other, None));
    assert Promoted(id, refs, actor) == [e] + Promoted(id, refs[1..], actor);
    KeptOfBoth(disk, w, [e], Promoted(id, refs[1..], actor));
  }

  lemma {:induction false} PromotionIsRecorded(disk: Disk, st: State, task: Task, refs: seq<Ref>, actor: string)
    requires actor != ""
    requires task.id in ReadGraph(st).tasks && SameButEvidence(task, ReadGraph(st).tasks[task.id])
    requires forall i :: 0 <= i < |refs| ==> RefOk(refs[i])
    ensures var o := PromoteRefs(disk, st, task, refs, actor);
      && o.result.Ok? && o.st.writes == st.writes + |refs|
      && o.st.ledger == st.ledger + Kept(disk, st.writes, Promoted(task.id, refs, actor))
      && task.id in ReadGraph(o.st).tasks
      && SameButEvidence(task, o.result.value)
      && SameButEvidence(o.result.value, ReadGraph(o.st).tasks[task.id])
    decreases |refs|
  {
    if refs != [] {
      AddRefRecords(disk, st, task, refs[0], actor);
      var added := AddEvidence(disk, st, task.id, EvidenceEntry(refs[0], Other, None), actor);
      PromotionIsRecorded(disk, added.st, added.result.value, refs[1..], actor);
      PromotedUnfolds(disk, st.writes, st.ledger, task.id, refs, actor);
    }
  }

  /** With a working disk, the task in hand is the one reads show. */
  lemma {:induction false} ReliablePromotion(disk: Disk, st: State, task: Task, refs: seq<Ref>, actor: string)
    requires Reliable(disk) && Synced(st) && actor != ""
    requires task.id in ReadGraph(st).tasks && ReadGraph(st).tasks[task.id] == task
    requires forall i :: 0 <= i < |refs| ==> RefOk(refs[i])
    ensures var o := PromoteRefs(disk, st, task, refs, actor);
      o.result.Ok? && Synced(o.st) && o.result.value.id == task.id
      && task.id in ReadGraph(o.st).tasks && ReadGraph(o.st).tasks[task.id] == o.result.value
    decreases |refs|
  {
    if refs != [] {
      var entry := EvidenceEntry(refs[0], Other, None);
      ReliableAddEvidence(disk, st, task.id, entry, actor);
      var added := AddEvidence(disk, st, task.id, entry, actor);
      ReliablePromotion(disk, added.st, added.result.value, refs[1..], actor);
    }
  }

  /** The last step of a move: one transition, taken or lost. */
  lemma FinishRecords(disk: Disk, st: State, task: Task, input: MoveInput)
    ensures var o := FinishMove(disk, st, task, input);
      var t := Transition(Some(task.status), input.to, input.ts, input.actor, input.evidenceRefs, input.note);
      var events := if o.result.Ok? then [Transitioned(input.actor, task.id, t)] else [];
      && o.st.ledger == st.ledger + Kept(disk, st.writes, events) && o.st.writes == st.writes + |events|
      && (o.result.Ok? ==> input.to in LegalTransitions(task.status))
  {
    var t := Transition(Some(task.status), input.to, input.ts, input.actor, input.evidenceRefs, input.note);
    assert [Transitioned(input.actor, task.id, t)][1..] == [];
  }

  lemma ReliableFinish(disk: Disk, st: State, task: Task, input: MoveInput)
    requires Reliable(disk) && Synced(st) && task.id in ReadGraph(st).tasks && ReadGraph(st).tasks[task.id] == task
    ensures var o := FinishMove(disk, st, task, input);
      var t := Transition(Some(task.status), input.to, input.ts, input.actor, input.evidenceRefs, input.note);
      && (o.result.Err? ==> o.st == st)
      && (o.result.Ok? ==>
            && o.st.ledger == st.ledger + [Transitioned(input.actor, task.id, t)]
            && task.id in ReadGraph(o.st).tasks && ReadGraph(o.st).tasks[task.id] == o.result.value)
      && (input.to !in LegalTransitions(task.status) ==> o.result.Err?)
  {}

  lemma MoveIsPromoteThenFinish(disk: Disk, st: State, input: MoveInput)
    requires input.taskId in ReadGraph(st).tasks && !input.to.Verified? && !input.to.Rejected?
    ensures var promoted := PromoteRefs(disk, st, ReadGraph(st).tasks[input.taskId], input.evidenceRefs, input.actor);
      promoted.result.Ok? ==> MoveTask(disk, st, input) == FinishMove(disk, promoted.st, promoted.result.value, input)
  {}

  lemma ReliableMoveShows(m: Machine, st: State, input: MoveInput)
    requires Inv(m, st) && Reliable(m.disk) && input.actor != "" && input.taskId in ReadGraph(st).tasks
    requires forall i :: 0 <= i < |input.evidenceRefs| ==> RefOk(input.evidenceRefs[i])
    ensures var o := MoveTask(m.disk, st, input);
      o.result.Ok? ==> input.taskId in ReadGraph(o.st).tasks && ReadGraph(o.st).tasks[input.taskId] == o.result.value
  {
    var task := ReadGraph(st).tasks[input.taskId];
    ReadKeepsIds(st, input.taskId);
    ReliablePromotion(m.disk, st, task, input.evidenceRefs, input.actor);
    var promoted := PromoteRefs(m.disk, st, task, input.evidenceRefs, input.actor);
    if !input.to.Verified? && !input.to.Rejected? {
      MoveIsPromoteThenFinish(m.disk, st, input);
      ReliableFinish(m.disk, promoted.st, promoted.result.value, input);
    }
  }

  /** What a public move tries to append. */
  function MoveEvents(before: Task, input: MoveInput, accepted: bool): seq<Event> {
    var t := Transition(Some(before.status), input.to, input.ts, input.actor, input.evidenceRefs, input.note);
    Promoted(input.taskId, input.evidenceRefs, input.actor)
    + if accepted then [Transitioned(input.actor, input.taskId, t)] else []
  }

  lemma KeptMove(disk: Disk, w: nat, ledger: seq<Event>, before: Task, input: MoveInput, accepted: bool)
    ensures var t := Transition(Some(before.status), input.to, input.ts, input.actor, input.evidenceRefs, input.note);
      var last := if accepted then [Transitioned(input.actor, input.taskId, t)] else [];
      && ledger + Kept(disk, w, Promoted(input.taskId, input.evidenceRefs, input.actor))
         + Kept(disk, w + |input.evidenceRefs|, last)
         == ledger + Kept(disk, w, MoveEvents(before, input, accepted))
      && |MoveEvents(before, input, accepted)| == |input.evidenceRefs| + |last|
  {
    var t := Transition(Some(before.status), input.to, input.ts, input.actor, input.evidenceRefs, input.note);
    KeptOfBoth(disk, w, Promoted(input.taskId, input.evidenceRefs, input.actor),
               if accepted then [Transitioned(input.actor, input.taskId, t)] else []);
  }

  lemma MoveAppends(m: Machine, st: State, input: MoveInput)
    requires Inv(m, st) && input.actor != "" && input.taskId in ReadGraph(st).tasks
    requires !input.to.Verified? && !input.to.Rejected?
    requires forall i :: 0 <= i < |input.evidenceRefs| ==> RefOk(input.evidenceRefs[i])
    ensures var o := MoveTask(m.disk, st, input);
      var before := ReadGraph(st).tasks[input.taskId];
      var events := MoveEvents(before, input, o.result.Ok?);
      && o.st.ledger == st.ledger + Kept(m.disk, st.writes, events)
      && o.st.writes == st.writes + |events|
      && (o.result.Ok? ==> input.to in LegalTransitions(before.status))
  {
    var task := ReadGraph(st).tasks[input.taskId];
    ReadKeepsIds(st, input.taskId);
    PromotionIsRecorded(m.disk, st, task, input.evidenceRefs, input.actor);
    var promoted := PromoteRefs(m.disk, st, task, input.evidenceRefs, input.actor);
    MoveIsPromoteThenFinish(m.disk, st, input);
    FinishRecords(m.disk, promoted.st, promoted.result.value, input);
    KeptMove(m.disk, st.writes, st.ledger, task, input, MoveTask(m.disk, st, input).result.Ok?);
  }

  /**
   * The exact effect of a public move on a known task with well-formed references, on any
   * disk: the references it cites become evidence whether or not the move is then refused,
   * an accepted one adds its transition, and of these events exactly those whose append
   * fails are missing.  If every write succeeds, the task returned is the one reads show.
   */
  lemma MoveRecordsItsEvidenceEvenWhenRefused(m: Machine, st: State, input: MoveInput)
    requires Inv(m, st) && input.actor != "" && input.taskId in ReadGraph(st).tasks
    requires !input.to.Verified? && !input.to.Rejected?
    requires forall i :: 0 <= i < |input.evidenceRefs| ==> RefOk(input.evidenceRefs[i])
    ensures var o := MoveTask(m.disk, st, input);
      var before := ReadGraph(st).tasks[input.taskId];
      var events := MoveEvents(before, input, o.result.Ok?);
      && o.st.ledger == st.ledger + Kept(m.disk, st.writes, events)
      && o.st.writes == st.writes + |events|
      && (o.result.Ok? ==> input.to in LegalTransitions(before.status))
      && (Reliable(m.disk) ==>
            && o.st.ledger == st.ledger + events
            && (o.result.Ok? ==>
                  input.taskId in ReadGraph(o.st).tasks && ReadGraph(o.st).tasks[input.taskId] == o.result.value))
  {
    MoveAppends(m, st, input);
    if Reliable(m.disk) {
      ReliableKeepsAll(m.disk, st.writes,
        MoveEvents(ReadGraph(st).tasks[input.taskId], input, MoveTask(m.disk, st, input).result.Ok?));
      ReliableMoveShows(m, st, input);
    }
  }

  // ── Receipts ──────────────────────────────────────────────────────────

  predicate ReceiptShown(st: State, id: TaskId, r: Receipt) {
    id in ReadGraph(st).tasks && AlreadySubmitted(ReadGraph(st).tasks[id], r)
  }

  lemma ShownReceiptStays(a: State, b: State, id: TaskId, r: Receipt)
    requires ReceiptShown(a, id, r) && Grows(ReadGraph(a), ReadGraph(b))
    ensures ReceiptShown(b, id, r)
  {
    var x, y := ReadGraph(a).tasks[id], ReadGraph(b).tasks[id];
    var i :| 0 <= i < |x.evidence| && x.evidence[i].kind.ToolReceipt? && x.evidence[i].ref == Digest(r);
    assert y.evidence[i] == x.evidence[i];
  }

  lemma MoveKeepsReceipt(m: Machine, st: State, input: MoveInput, id: TaskId, r: Receipt)
    requires Inv(m, st) && Reliable(m.disk) && ReceiptShown(st, id, r)
    ensures ReceiptShown(MoveTask(m.disk, st, input).st, id, r)
  {
    MoveKeepsInv(m, st, input);
    ShownReceiptStays(st, MoveTask(m.disk, st, input).st, id, r);
  }

  lemma AddedReceiptIsShown(m: Machine, st: State, id: TaskId, r: Receipt)
    requires Inv(m, st) && Reliable(m.disk)
    ensures var added :=
      AddEvidence(m.disk, st, id, EvidenceEntry(Digest(r), ToolReceipt, Some(Json(r))), r.submittedBy);
      added.result.Ok? ==> ReceiptShown(added.st, id, r)
  {
    var entry := EvidenceEntry(Digest(r), ToolReceipt, Some(Json(r)));
    var added := AddEvidence(m.disk, st, id, entry, r.submittedBy);
    if added.result.Ok? {
      ReliableAddEvidence(m.disk, st, id, entry, r.submittedBy);
      var shown := added.result.value.evidence;
      assert shown[|shown| - 1] == entry;
    }
  }

  lemma RecordedReceiptIsShown(m: Machine, st: State, id: TaskId, r: Receipt, ts: int)
    requires Inv(m, st) && Reliable(m.disk) && RecordReceipt(m.disk, st, id, r, ts).result.Ok?
    ensures ReceiptShown(RecordReceipt(m.disk, st, id, r, ts).st, id, r)
  {
    var entry := EvidenceEntry(Digest(r), ToolReceipt, Some(Json(r)));
    AddEvidenceKeepsInv(m, st, id, entry, r.submittedBy);
    AddedReceiptIsShown(m, st, id, r);
    var added := AddEvidence(m.disk, st, id, entry, r.submittedBy);
    MoveKeepsReceipt(m, added.st,
      MoveInput(id, EvidenceSubmitted, r.submittedBy, [Digest(r)], Some("receipt kind"), ts), id, r);
  }

  lemma SubmittingIsRecording(m: Machine, st: State, id: TaskId, r: Receipt, ts: int)
    requires SubmitReceipt(m.policy, m.disk, st, id, r, ts).result.Ok?
    ensures GetTask(st, id).Some?
    ensures var task := GetTask(st, id).value;
      var started := StartWork(m.disk, st, task, id, r, ts);
      !AlreadySubmitted(task, r) ==>
        started.result.Ok?
          && SubmitReceipt(m.policy, m.disk, st, id, r, ts) == RecordReceipt(m.disk, started.st, id, r, ts)
    ensures AlreadySubmitted(GetTask(st, id).value, r) ==> SubmitReceipt(m.policy, m.disk, st, id, r, ts).st == st
  {
  }

  lemma SubmittedReceiptIsShown(m: Machine, st: State, id: TaskId, r: Receipt, ts: int)
    requires Inv(m, st) && Reliable(m.disk) && SubmitReceipt(m.policy, m.disk, st, id, r, ts).result.Ok?
    ensures ReceiptShown(SubmitReceipt(m.policy, m.disk, st, id, r, ts).st, id, r)
  {
    SubmittingIsRecording(m, st, id, r, ts);
    var task := GetTask(st, id).value;
    if !AlreadySubmitted(task, r) {
      StartWorkKeepsInv(m, st, task, id, r, ts);
      RecordedReceiptIsShown(m, StartWork(m.disk, st, task, id, r, ts).st, id, r, ts);
    }
  }

  /**
   * Resubmission.  Once a submitted receipt is shown, submitting it again, after whatever
   * else happened, changes nothing and returns the task as it is: on any disk as long as
   * snapshots pass their schema, and always if no snapshot write fails.  If every write
   * succeeds, a submitted receipt is shown.
   */
  lemma ResubmissionIsANoOp(m: Machine, st: State, id: TaskId, r: Receipt, ts: int, ops: seq<Op>, again: int)
    requires Inv(m, st) && SubmitReceipt(m.policy, m.disk, st, id, r, ts).result.Ok?
    ensures var submitted := SubmitReceipt(m.policy, m.disk, st, id, r, ts).st;
      var later := Run(m, submitted, ops);
      && (ReceiptShown(submitted, id, r) && (later.clean || NeverStale(m.disk)) ==>
            && id in ReadGraph(later).tasks
            && SubmitReceipt(m.policy, m.disk, later, id, r, again) == Outcome(later, Ok(ReadGraph(later).tasks[id])))
      && (Reliable(m.disk) ==> ReceiptShown(submitted, id, r))
  {
    var submitted := SubmitReceipt(m.policy, m.disk, st, id, r, ts).st;
    var later := Run(m, submitted, ops);
    SubmitKeepsInv(m, st, id, r, ts);
    TaskHistoryIsAppendOnly(m, submitted, ops);
    if Reliable(m.disk) {
      SubmittedReceiptIsShown(m, st, id, r, ts);
    }
    if ReceiptShown(submitted, id, r) && (later.clean || NeverStale(m.disk)) {
      ShownReceiptStays(submitted, later, id, r);
    }
  }
}
