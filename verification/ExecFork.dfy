/**
 * On which disks the rebuilt histories stay legal (src/exec-graph/ledger.ts:296-318).  A
 * snapshot write that fails after one that succeeded leaves graph.json stale; a move that
 * is in the ledger but not in graph.json can then be recorded a second time.  The disks
 * on which that never happens are exactly those that record nothing after such a failure.
 */
module ExecFork {
  import opened Common
  import opened Text
  import opened HandContract
  import opened ExecContracts
  import opened ExecLedger
  import opened ExecApi
  import opened ExecSafety
  import opened ExecWaiting

  // ── Accepting twice ───────────────────────────────────────────────────

  function Accept(id: TaskId): MoveInput {
    MoveInput(id, Accepted, "atlas", [], None, 0)
  }

  /** Accepting a proposed task appends the same event whenever reads show it proposed. */
  lemma AcceptAppends(disk: Disk, st: State, task: Task)
    requires task.id in ReadGraph(st).tasks && ReadGraph(st).tasks[task.id] == task
    requires task.status.Proposed? && TaskOk(task)
    ensures var o := MoveTask(disk, st, Accept(task.id));
      var t := Transition(Some(Proposed), Accepted, 0, "atlas", [], None);
      && o.result.Ok? && o.st == AppendEvent(disk, st, Transitioned("atlas", task.id, t))
      && AppendVerdict(st, Transitioned("atlas", task.id, t)).Recorded?
  {
    var t := Transition(Some(Proposed), Accepted, 0, "atlas", [], None);
    var next := task.(status := Accepted, transitions := task.transitions + [t]);
    assert TransitionOk(t) && TaskOk(next);
    assert !IsWhitespace("atlas"[0]);
    assert PromoteRefs(disk, st, task, [], "atlas") == Outcome(st, Ok(task));
    assert ApplyTransition(task, Accept(task.id)) == Ok(next);
    assert next.transitions[|next.transitions| - 1] == t;
  }

  lemma TwiceTheSameStepIsNoPath(g: Snapshot, id: TaskId, t: Transition)
    requires id in g.tasks && t.from == Some(Proposed) && t.to.Accepted?
    ensures var e := Transitioned("atlas", id, t);
      var twice := ApplyEvent(ApplyEvent(g, e), e);
      id in twice.tasks && !LegalPath(twice.tasks[id])
  {
    var e := Transitioned("atlas", id, t);
    var ts := ApplyEvent(ApplyEvent(g, e), e).tasks[id].transitions;
    assert ts == g.tasks[id].transitions + [t] + [t];
    assert ts[|ts| - 1].from != Some(ts[|ts| - 2].to);
  }

  lemma RepeatedEventForks(ledger: seq<Event>, id: TaskId, t: Transition)
    requires id in Fold(ledger).tasks && t.from == Some(Proposed) && t.to.Accepted?
    ensures var e := Transitioned("atlas", id, t);
      var g := Fold(ledger + [e] + [e]); id in g.tasks && !LegalPath(g.tasks[id])
  {
    var e := Transitioned("atlas", id, t);
    FoldAppend(ledger, e);
    FoldAppend(ledger + [e], e);
    TwiceTheSameStepIsNoPath(Fold(ledger), id, t);
  }

  /**
   * One failed snapshot write is enough to break a history: the move is in the ledger but
   * not in graph.json, so the same move is accepted a second time and the rebuilt task
   * accepts twice out of proposed.
   */
  lemma StaleSnapshotForksHistory(disk: Disk, st: State, id: TaskId)
    requires st.file == Some(Fold(st.ledger)) && SnapshotOk(Fold(st.ledger))
    requires id in Fold(st.ledger).tasks
    requires var task := Fold(st.ledger).tasks[id]; task.id == id && task.status.Proposed?
    requires disk(st.writes).SnapshotFails? && disk(st.writes + 1).AllOk?
    ensures var once := MoveTask(disk, st, Accept(id));
      var twice := MoveTask(disk, once.st, Accept(id));
      && once.result.Ok? && twice.result.Ok?
      && id in Fold(twice.st.ledger).tasks && !LegalPath(Fold(twice.st.ledger).tasks[id])
  {
    var task := Fold(st.ledger).tasks[id];
    var t := Transition(Some(Proposed), Accepted, 0, "atlas", [], None);
    var e := Transitioned("atlas", id, t);
    AcceptAppends(disk, st, task);
    var once := AppendEvent(disk, st, e);
    assert once.ledger == st.ledger + [e] && once.file == st.file && ReadGraph(once) == ReadGraph(st);
    AcceptAppends(disk, once, task);
    assert AppendEvent(disk, once, e).ledger == st.ledger + [e] + [e];
    RepeatedEventForks(st.ledger, id, t);
  }

  // ── A task on offer ───────────────────────────────────────────────────

  lemma WaitsUntilWritten(m: Machine, before: seq<Op>, p: TaskId, f: Snapshot, g: Snapshot, n: nat)
    returns (ops: seq<Op>)
    requires Steady(Reached(m, before), p, f, g) && SnapshotOk(g) && m.disk(Reached(m, before).writes + n).AllOk?
    ensures var st, st' := Reached(m, before), Reached(m, ops);
      Steady(st', p, f, g) && st'.writes == st.writes + n + 1 && st'.file.Some?
  {
    var waited := Waits(m, before, p, f, g, n);
    ops := WaitsOnce(m, waited, p, f, g);
  }

  lemma TaskWritten(m: Machine, p: nat, i: nat) returns (ops: seq<Op>)
    requires p <= i && m.disk(i).AllOk?
    requires !m.disk(p).AppendFails? && forall w: nat :: w < p ==> m.disk(w).AppendFails?
    ensures var st := Reached(m, ops);
      st.writes == i + 1 && Steady(st, p, OneTask(p), OneTask(p)) && st.file.Some?
  {
    ops := OneCreate(m, p);
    if p < i {
      ops := WaitsUntilWritten(m, ops, p, OneTask(p), OneTask(p), i - p - 1);
    }
  }

  /** After write `j`, graph.json offers the task, if some write before got through. */
  lemma TaskOnOffer(m: Machine, i: nat, j: nat) returns (ops: seq<Op>, p: TaskId)
    requires i < j && m.disk(i).AllOk?
    ensures var st := Reached(m, ops);
      st.writes == j && Steady(st, p, OneTask(p), OneTask(p)) && st.file.Some?
  {
    p := FirstRecorded(m.disk, i);
    var written := TaskWritten(m, p, i);
    ops := Waits(m, written, p, OneTask(p), OneTask(p), j - i - 1);
  }

  // ── The witness ───────────────────────────────────────────────────────

  const ACCEPTANCE := Transition(Some(Proposed), Accepted, 0, "atlas", [], None)

  /** While graph.json shows the task proposed, its acceptance is recorded, whatever the rebuild says. */
  lemma OfferedIsAccepted(m: Machine, before: seq<Op>, p: TaskId, f: Snapshot) returns (ops: seq<Op>)
    requires var st := Reached(m, before);
      Steady(st, p, f, OneTask(p)) && st.file.Some? && !m.disk(st.writes).AppendFails?
    ensures var st, st' := Reached(m, before), Reached(m, ops);
      var f' := ApplyEvent(f, Transitioned("atlas", p, ACCEPTANCE));
      && Fold(st'.ledger) == f' && st'.writes == st.writes + 1
      && (m.disk(st.writes).SnapshotFails? ==> Steady(st', p, f', OneTask(p)) && st'.file.Some?)
  {
    var st := Reached(m, before);
    ops := before + [OpMoveTask(Accept(p))];
    RunStep(m, INITIAL_STATE, before, OpMoveTask(Accept(p)));
    assert ReadGraph(st) == OneTask(p);
    AcceptAppends(m.disk, st, NewTask(INPUT, p));
    FoldAppend(st.ledger, Transitioned("atlas", p, ACCEPTANCE));
  }

  /** Accept a task unseen, wait until write `k`, accept it again: the rebuild is no legal history. */
  lemma AForkIsReachable(m: Machine, i: nat, j: nat, k: nat) returns (ops: seq<Op>, p: TaskId)
    requires i < j < k && m.disk(i).AllOk? && m.disk(j).SnapshotFails? && !m.disk(k).AppendFails?
    ensures var g := Fold(Run(m, INITIAL_STATE, ops).ledger); p in g.tasks && !LegalPath(g.tasks[p])
  {
    var offer;
    offer, p := TaskOnOffer(m, i, j);
    var f := ApplyEvent(OneTask(p), Transitioned("atlas", p, ACCEPTANCE));
    var once := OfferedIsAccepted(m, offer, p, OneTask(p));
    var wait := Waits(m, once, p, f, OneTask(p), k - j - 1);
    ops := OfferedIsAccepted(m, wait, p, f);
    TwiceTheSameStepIsNoPath(OneTask(p), p, ACCEPTANCE);
  }

  // ── The exact condition ───────────────────────────────────────────────

  /** Every run rebuilds to legal histories. */
  ghost predicate RebuildsStayLegal(m: Machine) {
    forall ops: seq<Op> :: LegalHistories(Fold(Run(m, INITIAL_STATE, ops).ledger))
  }

  /**
   * The rebuilt histories of all runs on a disk are legal exactly when no snapshot write
   * that fails after a successful one is followed by a write that records its event:
   * there are no i < j < k with AllOk at i, SnapshotFails at j and no AppendFails at k.
   */
  lemma RebuildsStayLegalIffNoFork(m: Machine)
    ensures RebuildsStayLegal(m) <==> NoFork(m.disk)
  {
    if NoFork(m.disk) {
      forall ops: seq<Op> ensures LegalHistories(Fold(Run(m, INITIAL_STATE, ops).ledger)) {
        HistoriesAreLegal(m, ops);
      }
    } else {
      var k: nat :| StaleAt(m.disk, k) && !m.disk(k).AppendFails?;
      var i: nat, j: nat :| i < j < k && m.disk(i).AllOk? && m.disk(j).SnapshotFails?;
      var ops, p := AForkIsReachable(m, i, j, k);
      assert !LegalHistories(Fold(Run(m, INITIAL_STATE, ops).ledger));
    }
  }
}
