/**
 * Using up writes: runs that create one task and then wait, whatever the disk does
 * (src/exec-graph/api.ts:124-166, 265-299).  From them the runs are built that show which
 * disks break a property.
 */
module ExecWaiting {
  import opened Common
  import opened Text
  import opened HandContract
  import opened ExecContracts
  import opened ExecLedger
  import opened ExecApi
  import opened ExecSafety

  // ── Waiting ───────────────────────────────────────────────────────────

  const INPUT := TaskInput("gol_main", "a task", "atlas", Low, SourceRef(CeoChat, "1"), Some("key"), "atlas", 0)

  /** The rebuild is `f`, reads show `g`, and both know task `p` of owner "atlas". */
  predicate Steady(st: State, p: TaskId, f: Snapshot, g: Snapshot) {
    && Fold(st.ledger) == f && (if st.file.None? then f == g else st.file.value == g && SnapshotOk(g))
    && p in f.tasks && f.tasks[p].owner == "atlas" && p in g.tasks && g.tasks[p].owner == "atlas"
  }

  function Wait(p: TaskId): Op {
    OpReassignOwner(p, "atlas", "atlas", "wait")
  }

  lemma SameOwnerChangesNothing(g: Snapshot, p: TaskId)
    requires p in g.tasks && g.tasks[p].owner == "atlas"
    ensures ApplyEvent(g, OwnerReassigned("atlas", p, "atlas", "atlas", "wait")) == g
  {
    assert g.tasks[p := g.tasks[p]] == g.tasks;
  }

  /** Reassigning a task to its owner uses up a write and records an event that changes nothing. */
  lemma WaitIsPersisted(m: Machine, st: State, p: TaskId, f: Snapshot, g: Snapshot)
    requires Steady(st, p, f, g)
    ensures Apply(m, st, Wait(p)) == Persist(m.disk, st, OwnerReassigned("atlas", p, "atlas", "atlas", "wait"), g)
    ensures Fold(st.ledger + [OwnerReassigned("atlas", p, "atlas", "atlas", "wait")]) == f
  {
    var e := OwnerReassigned("atlas", p, "atlas", "atlas", "wait");
    assert !StartsWith("atlas", HAND_OWNER_PREFIX) by {
      assert "atlas"[0] != HAND_OWNER_PREFIX[0];
    }
    assert !IsWhitespace("atlas"[0]) && !IsWhitespace("wait"[0]);
    assert ReadGraph(st) == g;
    SameOwnerChangesNothing(f, p);
    SameOwnerChangesNothing(g, p);
    FoldAppend(st.ledger, e);
  }

  lemma WaitStep(m: Machine, st: State, p: TaskId, f: Snapshot, g: Snapshot)
    requires Steady(st, p, f, g) && (SnapshotOk(g) || !m.disk(st.writes).AllOk?)
    ensures var st' := Apply(m, st, Wait(p));
      && Steady(st', p, f, g) && st'.writes == st.writes + 1
      && (st.file.Some? || m.disk(st.writes).AllOk? ==> st'.file.Some?)
  {
    WaitIsPersisted(m, st, p, f, g);
  }

  function Reached(m: Machine, ops: seq<Op>): State {
    Run(m, INITIAL_STATE, ops)
  }

  lemma WaitsOnce(m: Machine, before: seq<Op>, p: TaskId, f: Snapshot, g: Snapshot) returns (ops: seq<Op>)
    requires Steady(Reached(m, before), p, f, g) && (SnapshotOk(g) || !m.disk(Reached(m, before).writes).AllOk?)
    ensures var st, st' := Reached(m, before), Reached(m, ops);
      && Steady(st', p, f, g) && st'.writes == st.writes + 1
      && (st.file.Some? || m.disk(st.writes).AllOk? ==> st'.file.Some?)
  {
    ops := before + [Wait(p)];
    RunStep(m, INITIAL_STATE, before, Wait(p));
    WaitStep(m, Reached(m, before), p, f, g);
  }

  /** None of the next `n` writes stores a snapshot. */
  predicate NoSnapshot(disk: Disk, w: nat, n: nat) {
    forall i: nat :: w <= i < w + n ==> !disk(i).AllOk?
  }

  /** After `before`, wait for `n` writes; a snapshot that fails its schema must not be written meanwhile. */
  lemma {:induction false} Waits(m: Machine, before: seq<Op>, p: TaskId, f: Snapshot, g: Snapshot, n: nat)
    returns (ops: seq<Op>)
    requires Steady(Reached(m, before), p, f, g)
    requires SnapshotOk(g) || NoSnapshot(m.disk, Reached(m, before).writes, n)
    ensures var st, st' := Reached(m, before), Reached(m, ops);
      Steady(st', p, f, g) && st'.writes == st.writes + n && (st.file.Some? ==> st'.file.Some?)
  {
    if n == 0 {
      ops := before;
    } else {
      var shorter := Waits(m, before, p, f, g, n - 1);
      ops := WaitsOnce(m, shorter, p, f, g);
    }
  }

  // ── One task ──────────────────────────────────────────────────────────

  function OneTask(p: TaskId): Snapshot {
    Snapshot(map[], map[p := NewTask(INPUT, p)])
  }

  lemma InputIsOk(p: TaskId)
    ensures EventOk(TaskCreated("atlas", NewTask(INPUT, p))) && !StartsWith(INPUT.owner, HAND_OWNER_PREFIX)
    ensures SnapshotOk(OneTask(p))
  {
    var task := NewTask(INPUT, p);
    assert TransitionOk(task.transitions[0]);
    assert TaskOk(task);
    assert "atlas"[0] != HAND_OWNER_PREFIX[0];
  }

  predicate NothingYet(st: State, w: nat) {
    st.ledger == [] && st.file.None? && st.writes == w && st.nextTask == w
  }

  lemma CreateIsPersisted(m: Machine, st: State, w: nat)
    requires NothingYet(st, w)
    ensures Apply(m, st, OpCreateTask(INPUT))
         == Persist(m.disk, st.(nextTask := w + 1), TaskCreated("atlas", NewTask(INPUT, w)), OneTask(w))
  {
    InputIsOk(w);
    var e := TaskCreated("atlas", NewTask(INPUT, w));
    var named := st.(nextTask := w + 1);
    assert ReadGraph(st) == EMPTY_SNAPSHOT && ReadGraph(named) == EMPTY_SNAPSHOT;
    assert AppendVerdict(named, e).Recorded?;
    assert ApplyEvent(EMPTY_SNAPSHOT, e) == OneTask(w);
  }

  lemma OneTaskIsFolded(w: nat)
    ensures Fold([TaskCreated("atlas", NewTask(INPUT, w))]) == OneTask(w)
  {
    var e := TaskCreated("atlas", NewTask(INPUT, w));
    FoldAppend([], e);
    assert [] + [e] == [e];
    assert ApplyEvent(EMPTY_SNAPSHOT, e) == OneTask(w);
  }

  lemma CreateFirst(m: Machine, st: State, w: nat)
    requires NothingYet(st, w)
    ensures var st' := Apply(m, st, OpCreateTask(INPUT));
      && st'.writes == w + 1
      && (m.disk(w).AppendFails? ==> NothingYet(st', w + 1))
      && (!m.disk(w).AppendFails? ==> Steady(st', w, OneTask(w), OneTask(w)))
      && (m.disk(w).AllOk? ==> st'.file.Some?)
  {
    CreateIsPersisted(m, st, w);
    InputIsOk(w);
    OneTaskIsFolded(w);
    var e := TaskCreated("atlas", NewTask(INPUT, w));
    assert [] + [e] == [e];
  }

  lemma {:induction false} LostCreates(m: Machine, n: nat) returns (ops: seq<Op>)
    requires forall w: nat :: w < n ==> m.disk(w).AppendFails?
    ensures NothingYet(Reached(m, ops), n)
  {
    if n == 0 {
      ops := [];
    } else {
      var before := LostCreates(m, n - 1);
      ops := before + [OpCreateTask(INPUT)];
      RunStep(m, INITIAL_STATE, before, OpCreateTask(INPUT));
      CreateFirst(m, Reached(m, before), n - 1);
    }
  }

  /** One task, created by the first write that records anything. */
  lemma OneCreate(m: Machine, p: nat) returns (ops: seq<Op>)
    requires !m.disk(p).AppendFails? && forall w: nat :: w < p ==> m.disk(w).AppendFails?
    ensures var st := Reached(m, ops);
      Steady(st, p, OneTask(p), OneTask(p)) && st.writes == p + 1 && (m.disk(p).AllOk? ==> st.file.Some?)
  {
    var before := LostCreates(m, p);
    ops := before + [OpCreateTask(INPUT)];
    RunStep(m, INITIAL_STATE, before, OpCreateTask(INPUT));
    CreateFirst(m, Reached(m, before), p);
  }

  /** The first write that records anything. */
  lemma FirstRecorded(disk: Disk, i: nat) returns (p: nat)
    requires !disk(i).AppendFails?
    ensures p <= i && !disk(p).AppendFails? && forall w: nat :: w < p ==> disk(w).AppendFails?
  {
    p := 0;
    while disk(p).AppendFails?
      invariant p <= i && forall w: nat :: w < p ==> disk(w).AppendFails?
      decreases i - p
    {
      p := p + 1;
    }
  }
}
