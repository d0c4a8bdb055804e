/**
 * Evidence of single tasks and moves (src/exec-graph/contracts.ts:80-149,
 * src/hands/exec-graph-adapter.ts:348-405).  A verified task has some on every disk; a
 * move that cites references leaves its task without evidence exactly if all of them are
 * lost, to the rebuild or to the reads.  On which disks some run does is in `ExecBare`.
 */
module ExecEvidence {
  import opened Common
  import opened Text
  import opened HandContract
  import opened ExecContracts
  import opened ExecLedger
  import opened ExecApi
  import opened ExecSafety
  import opened ExecReconciliation
  import opened ExecShown

  // ── Verified tasks ────────────────────────────────────────────────────

  /** Evidence once recorded is not lost again. */
  lemma RecordedEvidenceIsKept(m: Machine, st: State, id: TaskId, j: nat, n: nat)
    requires LedgerSound(m, st) && j < n <= |st.ledger| && st.ledger[j].EvidenceAdded? && st.ledger[j].taskId == id
    ensures id in Fold(st.ledger[..n]).tasks && Fold(st.ledger[..n]).tasks[id].evidence != []
  {
    var e := st.ledger[j];
    assert EventSound(m, st.ticks, st.ledger[..j], e);
    FoldAppend(st.ledger[..j], e);
    assert st.ledger[..j + 1] == st.ledger[..j] + [e];
    TasksOnlyGrow(m, st, id, j + 1, n);
  }

  lemma CitedReceipt(m: Machine, ticks: nat, prefix: seq<Event>, id: TaskId, t: Transition) returns (j: nat)
    requires Justified(m, ticks, prefix, id, t)
    ensures j < |prefix| && prefix[j].EvidenceAdded? && prefix[j].taskId == id
  {
    var k: nat, shown;
    j, k, shown :| j < |prefix| && k + 2 <= ticks && JustifiedBy(m, prefix, id, t, j, k, shown);
  }

  lemma {:induction false} FoldVerifiedHasEvidence(m: Machine, st: State, id: TaskId, n: nat)
    requires LedgerSound(m, st) && n <= |st.ledger|
    requires id in Fold(st.ledger[..n]).tasks && Fold(st.ledger[..n]).tasks[id].status.Verified?
    ensures Fold(st.ledger[..n]).tasks[id].evidence != []
  {
    var front, e := st.ledger[..n - 1], st.ledger[n - 1];
    assert st.ledger[..n] == front + [e];
    FoldAppend(front, e);
    assert EventSound(m, st.ticks, front, e);
    if e.Transitioned? && e.taskId == id && e.transition.to.Verified? {
      var j := CitedReceipt(m, st.ticks, front, id, e.transition);
      RecordedEvidenceIsKept(m, st, id, j, n - 1);
    } else {
      FoldVerifiedHasEvidence(m, st, id, n - 1);
    }
  }

  /** Under any disk failure, a verified task has evidence, in what reads show and in the rebuild. */
  lemma VerifiedTasksHaveEvidence(m: Machine, ops: seq<Op>, id: TaskId)
    ensures var st := Run(m, INITIAL_STATE, ops);
      && (id in ReadGraph(st).tasks && ReadGraph(st).tasks[id].status.Verified? ==>
        ReadGraph(st).tasks[id].evidence != [])
      && (id in Fold(st.ledger).tasks && Fold(st.ledger).tasks[id].status.Verified? ==>
        Fold(st.ledger).tasks[id].evidence != [])
  {
    EveryRunKeepsInv(m, ops);
    var st := Run(m, INITIAL_STATE, ops);
    assert st.ledger[..|st.ledger|] == st.ledger;
    if id in Fold(st.ledger).tasks && Fold(st.ledger).tasks[id].status.Verified? {
      FoldVerifiedHasEvidence(m, st, id, |st.ledger|);
    }
  }

  // ── What a move leaves ────────────────────────────────────────────────

  predicate AllLost(disk: Disk, w: nat, n: nat) {
    forall k: nat :: w <= k < w + n ==> disk(k).AppendFails?
  }

  lemma KeptSingle(disk: Disk, w: nat, ledger: seq<Event>, e: Event)
    ensures ledger + Kept(disk, w, [e]) == if disk(w).AppendFails? then ledger else ledger + [e]
  {
    assert [e][1..] == [];
    assert Kept(disk, w, [e]) == (if disk(w).AppendFails? then [] else [e]) + Kept(disk, w + 1, []);
  }

  lemma KeptReference(disk: Disk, w: nat, ledger: seq<Event>, id: TaskId, e: Event)
    requires id in Fold(ledger).tasks && e.EvidenceAdded? && e.taskId == id
    ensures var g := Fold(ledger + Kept(disk, w, [e]));
      && id in g.tasks
      && (g.tasks[id].evidence == [] <==> Fold(ledger).tasks[id].evidence == [] && disk(w).AppendFails?)
  {
    KeptSingle(disk, w, ledger, e);
    FoldAppend(ledger, e);
  }

  lemma AllLostUnfolds(disk: Disk, w: nat, n: nat)
    requires n > 0
    ensures AllLost(disk, w, n) <==> disk(w).AppendFails? && AllLost(disk, w + 1, n - 1)
  {}

  lemma {:induction false} KeptReferences(disk: Disk, w: nat, ledger: seq<Event>, id: TaskId, refs: seq<Ref>,
                                          actor: string)
    requires id in Fold(ledger).tasks
    ensures var g := Fold(ledger + Kept(disk, w, Promoted(id, refs, actor)));
      && id in g.tasks
      && (g.tasks[id].evidence == [] <==> Fold(ledger).tasks[id].evidence == [] && AllLost(disk, w, |refs|))
    decreases |refs|
  {
    if refs == [] {
      assert ledger + [] == ledger;
    } else {
      var e := EvidenceAdded(actor, id, EvidenceEntry(refs[0], Other, None));
      KeptReference(disk, w, ledger, id, e);
      KeptReferences(disk, w + 1, ledger + Kept(disk, w, [e]), id, refs[1..], actor);
      PromotedUnfolds(disk, w, ledger, id, refs, actor);
      AllLostUnfolds(disk, w, |refs|);
    }
  }

  /**
   * When a task comes to rest without evidence.  After a public move on any disk, the
   * rebuilt task has no evidence exactly when it had none before and the append of every
   * reference the move cites failed -- whether or not the move itself was recorded.
   */
  lemma EvidenceIsLostIffAllAppendsFail(m: Machine, st: State, input: MoveInput)
    requires Inv(m, st) && input.actor != "" && input.taskId in ReadGraph(st).tasks
    requires !input.to.Verified? && !input.to.Rejected?
    requires forall i :: 0 <= i < |input.evidenceRefs| ==> RefOk(input.evidenceRefs[i])
    ensures var id := input.taskId;
      var f, f' := Fold(st.ledger), Fold(MoveTask(m.disk, st, input).st.ledger);
      && id in f.tasks && id in f'.tasks
      && (f'.tasks[id].evidence == []
        <==> f.tasks[id].evidence == [] && AllLost(m.disk, st.writes, |input.evidenceRefs|))
  {
    ReadIdsAreRecorded(m, st, input.taskId);
    var last := MoveLedger(m, st, input);
    KeptLedger(m.disk, st.writes, st.ledger, input.taskId, input.evidenceRefs, input.actor, last,
               MoveTask(m.disk, st, input).st.ledger);
  }

  lemma KeptLedger(disk: Disk, w: nat, ledger: seq<Event>, id: TaskId, refs: seq<Ref>, actor: string, last: seq<Event>,
                   after: seq<Event>)
    requires id in Fold(ledger).tasks && (last == [] || (|last| == 1 && last[0].Transitioned?))
    requires after == ledger + Kept(disk, w, Promoted(id, refs, actor)) + Kept(disk, w + |refs|, last)
    ensures id in Fold(after).tasks
    ensures Fold(after).tasks[id].evidence == [] <==> Fold(ledger).tasks[id].evidence == [] && AllLost(disk, w, |refs|)
  {
    KeptReferences(disk, w, ledger, id, refs, actor);
    AfterReferences(disk, w + |refs|, ledger + Kept(disk, w, Promoted(id, refs, actor)), last, id, after);
  }

  lemma AfterReferences(disk: Disk, w: nat, before: seq<Event>, last: seq<Event>, id: TaskId, after: seq<Event>)
    requires id in Fold(before).tasks && (last == [] || (|last| == 1 && last[0].Transitioned?))
    requires after == before + Kept(disk, w, last)
    ensures id in Fold(after).tasks && Fold(after).tasks[id].evidence == Fold(before).tasks[id].evidence
  {
    KeptTransitionAddsNoEvidence(disk, w, before, last, id);
  }

  /** The ledger after a public move: what is kept of its references, then of its transition. */
  lemma MoveLedger(m: Machine, st: State, input: MoveInput) returns (last: seq<Event>)
    requires Inv(m, st) && input.actor != "" && input.taskId in ReadGraph(st).tasks
    requires !input.to.Verified? && !input.to.Rejected?
    requires forall i :: 0 <= i < |input.evidenceRefs| ==> RefOk(input.evidenceRefs[i])
    ensures last == [] || (|last| == 1 && last[0].Transitioned?)
    ensures MoveTask(m.disk, st, input).st.ledger
         == st.ledger + Kept(m.disk, st.writes, Promoted(input.taskId, input.evidenceRefs, input.actor))
            + Kept(m.disk, st.writes + |input.evidenceRefs|, last)
  {
    MoveAppends(m, st, input);
    var events := MoveEvents(ReadGraph(st).tasks[input.taskId], input, MoveTask(m.disk, st, input).result.Ok?);
    var promoted := Promoted(input.taskId, input.evidenceRefs, input.actor);
    last := events[|input.evidenceRefs|..];
    assert events == promoted + last;
    KeptOfBoth(m.disk, st.writes, promoted, last);
  }

  lemma KeptTransitionAddsNoEvidence(disk: Disk, w: nat, ledger: seq<Event>, last: seq<Event>, id: TaskId)
    requires id in Fold(ledger).tasks && (last == [] || (|last| == 1 && last[0].Transitioned?))
    ensures var g := Fold(ledger + Kept(disk, w, last));
      id in g.tasks && g.tasks[id].evidence == Fold(ledger).tasks[id].evidence
  {
    if last == [] {
      assert ledger + [] == ledger;
    } else {
      assert last == [last[0]];
      KeptSingle(disk, w, ledger, last[0]);
      FoldAppend(ledger, last[0]);
    }
  }

  // ── What reads show of it ─────────────────────────────────────────────

  predicate NoneShown(disk: Disk, w: nat, n: nat)
    decreases n
  {
    n == 0 || (!Shown(disk, w) && NoneShown(disk, w + 1, n - 1))
  }

  /** Reads show the task without evidence. */
  predicate ShowsBare(st: State, id: TaskId) {
    id in ReadGraph(st).tasks && ReadGraph(st).tasks[id].evidence == []
  }

  /** Between `st` and `later` lie `n` evidence appends, and they show if one of their writes does. */
  predicate BareIff(disk: Disk, st: State, later: State, id: TaskId, n: nat) {
    later.clean ==> st.clean && (ShowsBare(later, id) <==> ShowsBare(st, id) && NoneShown(disk, st.writes, n))
  }

  lemma BareIffTwice(disk: Disk, a: State, b: State, c: State, id: TaskId, n: nat)
    requires BareIff(disk, a, b, id, 1) && BareIff(disk, b, c, id, n) && b.writes == a.writes + 1
    ensures BareIff(disk, a, c, id, n + 1)
  {
    assert NoneShown(disk, a.writes, 1) <==> !Shown(disk, a.writes) && NoneShown(disk, a.writes + 1, 0);
    assert NoneShown(disk, a.writes, n + 1) <==> !Shown(disk, a.writes) && NoneShown(disk, a.writes + 1, n);
  }

  lemma AddShowsIff(disk: Disk, st: State, id: TaskId, entry: EvidenceEntry, actor: string)
    requires FileAsWritten(disk, st) && id in ReadGraph(st).tasks
    ensures var o := AddEvidence(disk, st, id, entry, actor);
      o.result.Ok? ==> BareIff(disk, st, o.st, id, 1)
  {
    var e := EvidenceAdded(actor, id, entry);
    if AddEvidence(disk, st, id, entry, actor).result.Ok? && AppendEvent(disk, st, e).clean {
      CleanAppendReads(disk, st, e);
      CleanReads(disk, st, e);
      assert NoneShown(disk, st.writes, 1) <==> !Shown(disk, st.writes) && NoneShown(disk, st.writes + 1, 0);
    }
  }

  lemma {:induction false} PromoteShowsIff(disk: Disk, st: State, task: Task, refs: seq<Ref>, actor: string)
    requires FileAsWritten(disk, st)
    requires task.id in ReadGraph(st).tasks && SameButEvidence(task, ReadGraph(st).tasks[task.id])
    ensures var o := PromoteRefs(disk, st, task, refs, actor);
      o.result.Ok? ==> BareIff(disk, st, o.st, task.id, |refs|)
    decreases |refs|
  {
    if refs != [] {
      var entry := EvidenceEntry(refs[0], Other, None);
      AddShows(disk, st, task.id, entry, actor);
      AddShowsIff(disk, st, task.id, entry, actor);
      AddKeepsHold(disk, st, task, entry, actor);
      var added := AddEvidence(disk, st, task.id, entry, actor);
      if added.result.Ok? {
        var next := added.result.value;
        SameTwice(task, next, ReadGraph(added.st).tasks[task.id]);
        PromoteShowsIff(disk, added.st, next, refs[1..], actor);
        var rest := PromoteRefs(disk, added.st, next, refs[1..], actor);
        if rest.result.Ok? {
          BareIffTwice(disk, st, added.st, rest.st, task.id, |refs| - 1);
        }
      }
    }
  }

  lemma FinishShowsIff(disk: Disk, st: State, task: Task, input: MoveInput)
    requires FileAsWritten(disk, st) && task.id in ReadGraph(st).tasks && FinishMove(disk, st, task, input).st.clean
    ensures ShowsBare(FinishMove(disk, st, task, input).st, task.id) <==> ShowsBare(st, task.id)
    ensures st.clean
  {
    var moved := ApplyTransition(task, input);
    if moved.Ok? {
      var e := Transitioned(input.actor, task.id, moved.value.transitions[|moved.value.transitions| - 1]);
      CleanAppendReads(disk, st, e);
    }
  }

  /**
   * The same of what reads show: after a public move of any run that stays clean, they show
   * the task without evidence exactly when they did before and none of the writes of the
   * references it cites is shown.
   */
  lemma EvidenceIsUnshownIffNoneIsShown(m: Machine, st: State, input: MoveInput)
    requires Inv(m, st) && Paced(m.disk, st) && input.actor != "" && input.taskId in ReadGraph(st).tasks
    requires !input.to.Verified? && !input.to.Rejected?
    requires forall i :: 0 <= i < |input.evidenceRefs| ==> RefOk(input.evidenceRefs[i])
    ensures var later := MoveTask(m.disk, st, input).st;
      later.clean ==>
        (ShowsBare(later, input.taskId) <==>
         ShowsBare(st, input.taskId) && NoneShown(m.disk, st.writes, |input.evidenceRefs|))
  {
    var task := ReadGraph(st).tasks[input.taskId];
    ReadKeepsIds(st, input.taskId);
    PromotionIsRecorded(m.disk, st, task, input.evidenceRefs, input.actor);
    PromoteShows(m.disk, st, task, input.evidenceRefs, input.actor);
    PromoteShowsIff(m.disk, st, task, input.evidenceRefs, input.actor);
    MoveIsPromoteThenFinish(m.disk, st, input);
    var promoted := PromoteRefs(m.disk, st, task, input.evidenceRefs, input.actor);
    if MoveTask(m.disk, st, input).st.clean {
      FinishShowsIff(m.disk, promoted.st, promoted.result.value, input);
    }
  }
}
