/**
 * The disks on which tasks come to rest without evidence, and on which a graph.json that
 * fails its schema is written (src/exec-graph/ledger.ts:278-360,
 * src/exec-graph/contracts.ts:80-149): exactly those whose shown and lost writes allow it.
 */
module ExecBare {
  import opened Common
  import opened Text
  import opened HandContract
  import opened ExecContracts
  import opened ExecLedger
  import opened ExecApi
  import opened ExecSafety
  import opened ExecShown
  import opened ExecResting
  import opened ExecWaiting

  // ── A task on its way ─────────────────────────────────────────────────

  const CITED := Text("report")

  function Only(p: TaskId, task: Task): Snapshot {
    Snapshot(map[], map[p := task])
  }

  function Moved(task: Task, to: Status, refs: seq<Ref>, note: Option<string>): Task {
    task.(status := to, transitions := task.transitions + [Hop(task, to, refs, note)])
  }

  function Hop(task: Task, to: Status, refs: seq<Ref>, note: Option<string>): Transition {
    Transition(Some(task.status), to, 0, "ceo", refs, note)
  }

  function HopEvent(p: TaskId, task: Task, to: Status, refs: seq<Ref>, note: Option<string>): Event {
    Transitioned("ceo", p, Hop(task, to, refs, note))
  }

  function MoveTo(p: TaskId, to: Status, refs: seq<Ref>): Op {
    OpMoveTask(MoveInput(p, to, "ceo", refs, None, 0))
  }

  /** Reads show just this task, without evidence; the rebuild is `f`. */
  predicate Shows(st: State, p: TaskId, f: Snapshot, task: Task, w: nat) {
    && Steady(st, p, f, Only(p, task)) && st.writes == w
    && task.id == p && task.owner == "atlas" && task.evidence == [] && TaskOk(task)
  }

  lemma OnlyMoves(p: TaskId, task: Task, to: Status, refs: seq<Ref>, note: Option<string>)
    ensures ApplyEvent(Only(p, task), HopEvent(p, task, to, refs, note)) == Only(p, Moved(task, to, refs, note))
  {}

  /** The event of a move, appended where reads show the task. */
  lemma HopIsPersisted(disk: Disk, st: State, p: TaskId, f: Snapshot, task: Task, e: Event, next: Task)
    requires Steady(st, p, f, Only(p, task)) && EventOk(e) && e.Transitioned?
    requires ApplyEvent(Only(p, task), e) == Only(p, next)
    ensures AppendEvent(disk, st, e) == Persist(disk, st, e, Only(p, next))
    ensures Fold(st.ledger + [e]) == ApplyEvent(f, e)
  {
    assert ReadGraph(st) == Only(p, task);
    FoldAppend(st.ledger, e);
  }

  /** A shown move takes reads and rebuild a step further. */
  lemma ShownHop(disk: Disk, st: State, p: TaskId, f: Snapshot, task: Task, e: Event, next: Task, w: nat)
    requires Shows(st, p, f, task, w) && Shown(disk, w) && (st.file.None? <==> NoneWritten(disk, w))
    requires EventOk(e) && e.Transitioned? && e.taskId == p && ApplyEvent(Only(p, task), e) == Only(p, next)
    requires next.id == p && next.owner == "atlas" && next.evidence == []
    ensures var st' := AppendEvent(disk, st, e);
      && st'.writes == w + 1
      && (TaskOk(next) ==> Shows(st', p, ApplyEvent(f, e), next, w + 1))
      && (!disk(w).AllOk? ==> Steady(st', p, ApplyEvent(f, e), Only(p, next)))
      && (disk(w).AllOk? ==> st'.file == Some(Only(p, next)) && Fold(st'.ledger) == ApplyEvent(f, e))
  {
    HopIsPersisted(disk, st, p, f, task, e, next);
  }

  // ── The operations of the run ─────────────────────────────────────────

  /** A move without references, of a task in a status that allows it. */
  lemma MoveIsHop(m: Machine, st: State, p: TaskId, f: Snapshot, task: Task, w: nat, to: Status)
    requires Shows(st, p, f, task, w) && to in LegalTransitions(task.status)
    requires !to.Verified? && !to.Rejected? && !to.EvidenceSubmitted? && !to.Closed?
    ensures Apply(m, st, MoveTo(p, to, [])) == AppendEvent(m.disk, st, HopEvent(p, task, to, [], None))
    ensures EventOk(HopEvent(p, task, to, [], None)) && TaskOk(Moved(task, to, [], None))
  {
    var input := MoveInput(p, to, "ceo", [], None, 0);
    var next := Moved(task, to, [], None);
    assert !IsWhitespace("ceo"[0]);
    assert TransitionOk(Hop(task, to, [], None)) && TaskOk(next);
    assert ReadGraph(st) == Only(p, task);
    assert ApplyTransition(task, input) == Ok(next);
    assert next.transitions[|next.transitions| - 1] == Hop(task, to, [], None);
    assert PromoteRefs(m.disk, st, task, [], "ceo") == Outcome(st, Ok(task));
  }

  const NO_RECEIPT := Some("no receipt evidence found to verify")

  /** Verification of a task without a receipt rejects it. */
  lemma RejectIsHop(m: Machine, st: State, p: TaskId, f: Snapshot, task: Task, w: nat)
    requires Shows(st, p, f, task, w) && task.status.EvidenceSubmitted?
    ensures Apply(m, st, OpVerifyAndTransition(p, "ceo", 0))
         == AppendEvent(m.disk, st, HopEvent(p, task, Rejected, [], NO_RECEIPT))
    ensures EventOk(HopEvent(p, task, Rejected, [], NO_RECEIPT)) && TaskOk(Moved(task, Rejected, [], NO_RECEIPT))
  {
    var input := MoveInput(p, Rejected, "ceo", [], NO_RECEIPT, 0);
    var next := Moved(task, Rejected, [], NO_RECEIPT);
    assert !IsWhitespace("ceo"[0]);
    assert TransitionOk(Hop(task, Rejected, [], NO_RECEIPT)) && TaskOk(next);
    assert ReadGraph(st) == Only(p, task);
    assert ApplyTransition(task, input) == Ok(next);
    assert next.transitions[|next.transitions| - 1] == Hop(task, Rejected, [], NO_RECEIPT);
    assert PromoteRefs(m.disk, st, task, [], "ceo") == Outcome(st, Ok(task));
  }

  function Citation(p: TaskId): Event {
    EvidenceAdded("ceo", p, EvidenceEntry(CITED, Other, None))
  }

  /** The state between the evidence append of a move and its transition. */
  function Cited(disk: Disk, st: State, p: TaskId): State {
    AppendEvent(disk, st, Citation(p))
  }

  /** An evidence append that is not shown leaves reads as they are. */
  lemma LostCitation(disk: Disk, st: State, p: TaskId, f: Snapshot, task: Task, w: nat)
    requires Shows(st, p, f, task, w) && !Shown(disk, w) && (st.file.None? <==> NoneWritten(disk, w))
    ensures var f' := if disk(w).AppendFails? then f else ApplyEvent(f, Citation(p));
      Shows(Cited(disk, st, p), p, f', task, w + 1)
    ensures Cited(disk, st, p).file == st.file
  {
    assert ReadGraph(st) == Only(p, task);
    FoldAppend(st.ledger, Citation(p));
  }

  lemma CitationIsInHand(disk: Disk, st: State, p: TaskId, f: Snapshot, task: Task, w: nat)
    requires Shows(st, p, f, task, w)
    ensures PromoteRefs(disk, st, task, [CITED], "ceo")
         == Outcome(Cited(disk, st, p), Ok(task.(evidence := [EvidenceEntry(CITED, Other, None)])))
  {
    assert ReadGraph(st) == Only(p, task);
    assert [CITED][1..] == [];
    var entry := EvidenceEntry(CITED, Other, None);
    assert task.evidence + [entry] == [entry];
    assert AddEvidence(disk, st, p, entry, "ceo") == Outcome(Cited(disk, st, p), Ok(task.(evidence := [entry])));
  }

  /** A move that cites a reference is made by the task in hand, whatever became of the evidence. */
  lemma CitingIsHop(m: Machine, st: State, p: TaskId, f: Snapshot, task: Task, w: nat, to: Status)
    requires Shows(st, p, f, task, w) && to in LegalTransitions(task.status) && !to.Verified? && !to.Rejected?
    requires !task.status.Escalated?
    ensures Apply(m, st, MoveTo(p, to, [CITED]))
         == AppendEvent(m.disk, Cited(m.disk, st, p), HopEvent(p, task, to, [CITED], None))
    ensures EventOk(HopEvent(p, task, to, [CITED], None)) && (!to.Closed? ==> TaskOk(Moved(task, to, [CITED], None)))
  {
    var inHand := task.(evidence := [EvidenceEntry(CITED, Other, None)]);
    var input := MoveInput(p, to, "ceo", [CITED], None, 0);
    var next := Moved(inHand, to, [CITED], None);
    assert !IsWhitespace("ceo"[0]);
    assert TransitionOk(Hop(task, to, [CITED], None)) && TaskOk(next);
    assert ReadGraph(st) == Only(p, task);
    CitationIsInHand(m.disk, st, p, f, task, w);
    assert ApplyTransition(inHand, input) == Ok(next);
    assert next.transitions[|next.transitions| - 1] == Hop(task, to, [CITED], None);
  }

  // ── Stretches of the run ──────────────────────────────────────────────

  /** After `ops`, reads show just this task, without evidence. */
  predicate At(m: Machine, ops: seq<Op>, p: TaskId, f: Snapshot, task: Task, w: nat) {
    Shows(Reached(m, ops), p, f, task, w)
  }

  lemma FileIsAsWritten(m: Machine, ops: seq<Op>, p: TaskId, f: Snapshot, task: Task, w: nat)
    requires At(m, ops, p, f, task, w)
    ensures Reached(m, ops).file.None? <==> NoneWritten(m.disk, w)
  {
    EveryRunIsPaced(m, ops);
  }

  lemma WaitUntil(m: Machine, before: seq<Op>, p: TaskId, f: Snapshot, task: Task, w: nat, v: nat)
    returns (ops: seq<Op>)
    requires At(m, before, p, f, task, w) && w <= v
    ensures At(m, ops, p, f, task, v)
  {
    ops := Waits(m, before, p, f, Only(p, task), v - w);
  }

  lemma MoveOn(m: Machine, before: seq<Op>, p: TaskId, f: Snapshot, task: Task, w: nat, to: Status)
    returns (ops: seq<Op>)
    requires At(m, before, p, f, task, w) && Shown(m.disk, w) && to in LegalTransitions(task.status)
    requires !to.Verified? && !to.Rejected? && !to.EvidenceSubmitted? && !to.Closed?
    ensures At(m, ops, p, ApplyEvent(f, HopEvent(p, task, to, [], None)), Moved(task, to, [], None), w + 1)
  {
    var st, e, next := Reached(m, before), HopEvent(p, task, to, [], None), Moved(task, to, [], None);
    ops := before + [MoveTo(p, to, [])];
    RunStep(m, INITIAL_STATE, before, MoveTo(p, to, []));
    FileIsAsWritten(m, before, p, f, task, w);
    MoveIsHop(m, st, p, f, task, w, to);
    OnlyMoves(p, task, to, [], None);
    ShownHop(m.disk, st, p, f, task, e, next, w);
  }

  lemma RejectOn(m: Machine, before: seq<Op>, p: TaskId, f: Snapshot, task: Task, w: nat) returns (ops: seq<Op>)
    requires At(m, before, p, f, task, w) && Shown(m.disk, w) && task.status.EvidenceSubmitted?
    ensures var e := HopEvent(p, task, Rejected, [], NO_RECEIPT);
      At(m, ops, p, ApplyEvent(f, e), Moved(task, Rejected, [], NO_RECEIPT), w + 1)
  {
    var st, e, next := Reached(m, before), HopEvent(p, task, Rejected, [], NO_RECEIPT),
      Moved(task, Rejected, [], NO_RECEIPT);
    var op := OpVerifyAndTransition(p, "ceo", 0);
    ops := before + [op];
    RunStep(m, INITIAL_STATE, before, op);
    FileIsAsWritten(m, before, p, f, task, w);
    RejectIsHop(m, st, p, f, task, w);
    OnlyMoves(p, task, Rejected, [], NO_RECEIPT);
    ShownHop(m.disk, st, p, f, task, e, next, w);
  }

  /** The rebuild between the evidence append of a move and its transition. */
  function CitedRebuild(disk: Disk, p: TaskId, f: Snapshot, w: nat): Snapshot {
    if disk(w).AppendFails? then f else ApplyEvent(f, Citation(p))
  }

  /** What a citing move comes to whose evidence is not shown, but whose transition is. */
  predicate CitedMove(
    disk: Disk, st: State, p: TaskId, f: Snapshot, next: Task, w: nat)
  {
    && st.writes == w + 2
    && (TaskOk(next) ==> Shows(st, p, f, next, w + 2))
    && (!disk(w + 1).AllOk? ==> Steady(st, p, f, Only(p, next)))
    && (disk(w + 1).AllOk? ==> st.file == Some(Only(p, next)) && Fold(st.ledger) == f)
  }

  function CitedHop(disk: Disk, p: TaskId, f: Snapshot, task: Task, w: nat, to: Status): Snapshot {
    ApplyEvent(CitedRebuild(disk, p, f, w), HopEvent(p, task, to, [CITED], None))
  }

  lemma ShownCitedHop(disk: Disk, st: State, p: TaskId, f: Snapshot, task: Task, w: nat, to: Status)
    requires Shows(st, p, f, task, w) && !Shown(disk, w) && Shown(disk, w + 1)
    requires (st.file.None? <==> NoneWritten(disk, w)) && EventOk(HopEvent(p, task, to, [CITED], None))
    ensures CitedMove(disk, AppendEvent(disk, Cited(disk, st, p), HopEvent(p, task, to, [CITED], None)), p,
                      CitedHop(disk, p, f, task, w, to), Moved(task, to, [CITED], None), w)
  {
    LostCitation(disk, st, p, f, task, w);
    OnlyMoves(p, task, to, [CITED], None);
    ShownHop(disk, Cited(disk, st, p), p, CitedRebuild(disk, p, f, w), task, HopEvent(p, task, to, [CITED], None),
             Moved(task, to, [CITED], None), w + 1);
  }

  lemma CiteOn(m: Machine, before: seq<Op>, p: TaskId, f: Snapshot, task: Task, w: nat, to: Status)
    returns (ops: seq<Op>)
    requires At(m, before, p, f, task, w) && !Shown(m.disk, w) && Shown(m.disk, w + 1)
    requires to in LegalTransitions(task.status) && !to.Verified? && !to.Rejected? && !task.status.Escalated?
    ensures CitedMove(m.disk, Reached(m, ops), p, CitedHop(m.disk, p, f, task, w, to),
      Moved(task, to, [CITED], None), w)
    ensures !to.Closed? ==> TaskOk(Moved(task, to, [CITED], None))
  {
    var st := Reached(m, before);
    ops := before + [MoveTo(p, to, [CITED])];
    RunStep(m, INITIAL_STATE, before, MoveTo(p, to, [CITED]));
    FileIsAsWritten(m, before, p, f, task, w);
    CitingIsHop(m, st, p, f, task, w, to);
    ShownCitedHop(m.disk, st, p, f, task, w, to);
  }

  lemma RecordedCitedHop(disk: Disk, st: State, p: TaskId, f: Snapshot, task: Task, w: nat, to: Status)
    requires Shows(st, p, f, task, w) && disk(w).AppendFails? && !disk(w + 1).AppendFails?
    requires (st.file.None? <==> NoneWritten(disk, w)) && EventOk(HopEvent(p, task, to, [CITED], None))
    ensures var e := HopEvent(p, task, to, [CITED], None);
      Fold(AppendEvent(disk, Cited(disk, st, p), e).ledger) == ApplyEvent(f, e)
  {
    LostCitation(disk, st, p, f, task, w);
    OnlyMoves(p, task, to, [CITED], None);
    HopIsPersisted(disk, Cited(disk, st, p), p, f, task, HopEvent(p, task, to, [CITED], None),
      Moved(task, to, [CITED], None));
  }

  /** A citing move whose evidence is lost, but whose transition is recorded. */
  lemma RecordOn(m: Machine, before: seq<Op>, p: TaskId, f: Snapshot, task: Task, w: nat, to: Status)
    returns (ops: seq<Op>)
    requires At(m, before, p, f, task, w) && m.disk(w).AppendFails? && !m.disk(w + 1).AppendFails?
    requires to in LegalTransitions(task.status) && !to.Verified? && !to.Rejected? && !task.status.Escalated?
    ensures Fold(Reached(m, ops).ledger) == ApplyEvent(f, HopEvent(p, task, to, [CITED], None))
  {
    var st := Reached(m, before);
    ops := before + [MoveTo(p, to, [CITED])];
    RunStep(m, INITIAL_STATE, before, MoveTo(p, to, [CITED]));
    FileIsAsWritten(m, before, p, f, task, w);
    CitingIsHop(m, st, p, f, task, w, to);
    RecordedCitedHop(m.disk, st, p, f, task, w, to);
  }

  // ── Into progress ─────────────────────────────────────────────────────

  /** The shown write that `n` others come before. */
  lemma {:induction false} ShownAfter(disk: Disk, n: nat, w: nat) returns (c: nat)
    requires ShownCount(disk, w) > n
    ensures c < w && Shown(disk, c) && ShownCount(disk, c) == n
  {
    if ShownCount(disk, w - 1) > n {
      c := ShownAfter(disk, n, w - 1);
    } else {
      c := w - 1;
    }
  }

  /** Before the first shown write, nothing is recorded. */
  lemma {:induction false} NothingBeforeTheFirst(disk: Disk, a: nat, w: nat)
    requires ShownCount(disk, a) == 0 && w < a
    ensures disk(w).AppendFails?
    decreases a
  {
    CountGrows(disk, w, a);
    CountGrows(disk, w + 1, a);
    NoneBeforeTheFirst(disk, w);
  }

  lemma {:induction false} NoneBeforeTheFirst(disk: Disk, w: nat)
    requires ShownCount(disk, w) == 0
    ensures NoneWritten(disk, w)
  {
    if w > 0 {
      NoneBeforeTheFirst(disk, w - 1);
    }
  }

  lemma CountsInOrder(disk: Disk, a: nat, b: nat)
    requires ShownCount(disk, a) < ShownCount(disk, b)
    ensures a < b
  {
    if b <= a {
      CountGrows(disk, b, a);
    }
  }

  /** Three shown writes get a task in progress, in reads and rebuild alike. */
  lemma TaskInProgress(m: Machine, q: nat) returns (ops: seq<Op>, p: TaskId, task: Task)
    requires ShownCount(m.disk, q) >= 3
    ensures At(m, ops, p, Only(p, task), task, q) && task.status.InProgress?
    ensures !m.disk(p).AppendFails? && forall w: nat :: w < p ==> m.disk(w).AppendFails?
  {
    p := ShownAfter(m.disk, 0, q);
    var b := ShownAfter(m.disk, 1, q);
    var c := ShownAfter(m.disk, 2, q);
    CountsInOrder(m.disk, p, b);
    CountsInOrder(m.disk, b, c);
    forall w: nat | w < p ensures m.disk(w).AppendFails? {
      NothingBeforeTheFirst(m.disk, p, w);
    }
    ops, task := CreatedAt(m, p);
    ops, task := MovedAt(m, ops, p, task, p + 1, b, Escalated);
    ops, task := MovedAt(m, ops, p, task, b + 1, c, InProgress);
    ops := WaitUntil(m, ops, p, Only(p, task), task, c + 1, q);
  }

  lemma CreatedAt(m: Machine, p: nat) returns (ops: seq<Op>, task: Task)
    requires !m.disk(p).AppendFails? && forall w: nat :: w < p ==> m.disk(w).AppendFails?
    ensures At(m, ops, p, Only(p, task), task, p + 1) && task.status.Proposed?
  {
    ops := OneCreate(m, p);
    task := NewTask(INPUT, p);
    InputIsOk(p);
  }

  /** Wait until write `b`, which is shown, and use it for a move. */
  lemma MovedAt(m: Machine, before: seq<Op>, p: TaskId, task: Task, w: nat, b: nat, to: Status)
    returns (ops: seq<Op>, next: Task)
    requires At(m, before, p, Only(p, task), task, w) && w <= b && Shown(m.disk, b)
      && to in LegalTransitions(task.status)
    requires !to.Verified? && !to.Rejected? && !to.EvidenceSubmitted? && !to.Closed?
    ensures At(m, ops, p, Only(p, next), next, b + 1) && next.status == to
  {
    next := Moved(task, to, [], None);
    ops := WaitUntil(m, before, p, Only(p, task), task, w, b);
    ops := MoveOn(m, ops, p, Only(p, task), task, b, to);
    OnlyMoves(p, task, to, [], None);
  }

  // ── Out without evidence ──────────────────────────────────────────────

  /** After three shown writes, one that is not shown and one that is. */
  predicate LosesSubmission(disk: Disk, q: nat) {
    ShownCount(disk, q) >= 3 && !Shown(disk, q) && Shown(disk, q + 1)
  }

  /** After three shown writes, an append that fails and one that does not. */
  predicate LosesRecord(disk: Disk, q: nat) {
    ShownCount(disk, q) >= 3 && disk(q).AppendFails? && !disk(q + 1).AppendFails?
  }

  /** After a lost submission, a shown write, then one that is not shown and one that is, and
      then, or with the last, a snapshot is written. */
  predicate LosesClosing(disk: Disk, q: nat, r: nat, s: nat, t: nat) {
    && LosesSubmission(disk, q) && q + 1 < r < s < t
    && Shown(disk, r) && !Shown(disk, s) && Shown(disk, s + 1) && disk(t).AllOk?
  }

  /** A run to a task submitted without evidence in what reads show. */
  lemma SubmittedBare(m: Machine, q: nat) returns (ops: seq<Op>, p: TaskId, f: Snapshot, task: Task)
    requires LosesSubmission(m.disk, q)
    ensures At(m, ops, p, f, task, q + 2) && task.status.EvidenceSubmitted?
    ensures m.disk(q).AppendFails? ==> f == Only(p, task)
    ensures !m.disk(p).AppendFails? && forall w: nat :: w < p ==> m.disk(w).AppendFails?
  {
    var before;
    ops, p, before := TaskInProgress(m, q);
    task := Moved(before, EvidenceSubmitted, [CITED], None);
    f := CitedHop(m.disk, p, Only(p, before), before, q, EvidenceSubmitted);
    OnlyMoves(p, before, EvidenceSubmitted, [CITED], None);
    ops := CiteOn(m, ops, p, Only(p, before), before, q, EvidenceSubmitted);
  }

  /** A run to a task recorded as submitted without evidence. */
  lemma RecordedBare(m: Machine, q: nat) returns (ops: seq<Op>)
    requires LosesRecord(m.disk, q)
    ensures !GraphEvidenced(Fold(Run(m, INITIAL_STATE, ops).ledger))
  {
    var p, task;
    ops, p, task := TaskInProgress(m, q);
    OnlyMoves(p, task, EvidenceSubmitted, [CITED], None);
    ops := RecordOn(m, ops, p, Only(p, task), task, q, EvidenceSubmitted);
    var g := Only(p, Moved(task, EvidenceSubmitted, [CITED], None));
    assert p in g.tasks && RestsOnEvidence(g.tasks[p].status) && g.tasks[p].evidence == [];
  }

  /** From there, the task is rejected for lack of a receipt. */
  lemma RejectedBare(m: Machine, q: nat, r: nat, s: nat) returns (ops: seq<Op>, p: TaskId, f: Snapshot, task: Task)
    requires LosesSubmission(m.disk, q) && q + 1 < r < s && Shown(m.disk, r)
    ensures At(m, ops, p, f, task, s) && task.status.Rejected?
    ensures m.disk(q).AppendFails? ==> f == Only(p, task)
    ensures !m.disk(p).AppendFails? && forall w: nat :: w < p ==> m.disk(w).AppendFails?
  {
    var before, g;
    ops, p, g, before := SubmittedBare(m, q);
    task := Moved(before, Rejected, [], NO_RECEIPT);
    f := ApplyEvent(g, HopEvent(p, before, Rejected, [], NO_RECEIPT));
    OnlyMoves(p, before, Rejected, [], NO_RECEIPT);
    ops := WaitUntil(m, ops, p, g, before, q + 2, r);
    ops := RejectOn(m, ops, p, g, before, r);
    ops := WaitUntil(m, ops, p, f, task, r + 1, s);
  }

  lemma FirstSnapshotFrom(disk: Disk, w: nat, t: nat) returns (u: nat)
    requires w <= t && disk(t).AllOk?
    ensures w <= u <= t && disk(u).AllOk? && NoSnapshot(disk, w, u - w)
  {
    u := w;
    while !disk(u).AllOk?
      invariant w <= u <= t && NoSnapshot(disk, w, u - w)
      decreases t - u
    {
      u := u + 1;
    }
  }

  lemma WaitsUnstored(m: Machine, before: seq<Op>, p: TaskId, f: Snapshot, g: Snapshot, n: nat) returns (ops: seq<Op>)
    requires Steady(Reached(m, before), p, f, g) && NoSnapshot(m.disk, Reached(m, before).writes, n)
    ensures Steady(Reached(m, ops), p, f, g) && Reached(m, ops).writes == Reached(m, before).writes + n
  {
    ops := Waits(m, before, p, f, g, n);
  }

  lemma StoreBy(m: Machine, before: seq<Op>, p: TaskId, f: Snapshot, g: Snapshot) returns (ops: seq<Op>)
    requires Steady(Reached(m, before), p, f, g) && m.disk(Reached(m, before).writes).AllOk?
    ensures Reached(m, ops).file == Some(g) && Fold(Reached(m, ops).ledger) == f
  {
    ops := before + [Wait(p)];
    RunStep(m, INITIAL_STATE, before, Wait(p));
    WaitIsPersisted(m, Reached(m, before), p, f, g);
  }

  /** Wait until the next snapshot is written, though it fails its schema. */
  lemma WaitUntilStored(m: Machine, before: seq<Op>, p: TaskId, f: Snapshot, g: Snapshot, t: nat) returns (ops: seq<Op>)
    requires Steady(Reached(m, before), p, f, g) && Reached(m, before).writes <= t && m.disk(t).AllOk?
    ensures Reached(m, ops).file == Some(g) && Fold(Reached(m, ops).ledger) == f
  {
    var w := Reached(m, before).writes;
    var u := FirstSnapshotFrom(m.disk, w, t);
    ops := WaitsUnstored(m, before, p, f, g, u - w);
    ops := StoreBy(m, ops, p, f, g);
  }

  /** graph.json shows a closed task without evidence. */
  predicate StoresBare(st: State, p: TaskId, task: Task) {
    st.file == Some(Only(p, task)) && task.status.Closed? && task.evidence == []
  }

  lemma StoreCited(m: Machine, before: seq<Op>, p: TaskId, f: Snapshot, next: Task, s: nat, t: nat)
    returns (ops: seq<Op>)
    requires CitedMove(m.disk, Reached(m, before), p, f, next, s) && s < t && m.disk(t).AllOk?
    ensures Reached(m, ops).file == Some(Only(p, next)) && Fold(Reached(m, ops).ledger) == f
  {
    ops := before;
    if !m.disk(s + 1).AllOk? {
      ops := WaitUntilStored(m, before, p, f, Only(p, next), t);
    }
  }

  /** From rejected: close the task, and wait for the snapshot if the move did not store it. */
  lemma CloseOn(m: Machine, before: seq<Op>, p: TaskId, f: Snapshot, task: Task, s: nat, t: nat) returns (ops: seq<Op>)
    requires At(m, before, p, f, task, s) && task.status.Rejected?
    requires !Shown(m.disk, s) && Shown(m.disk, s + 1) && s < t && m.disk(t).AllOk?
    ensures Reached(m, ops).file == Some(Only(p, Moved(task, Closed, [CITED], None)))
    ensures Fold(Reached(m, ops).ledger) == CitedHop(m.disk, p, f, task, s, Closed)
  {
    var closed := CiteOn(m, before, p, f, task, s, Closed);
    ops := StoreCited(m, closed, p, CitedHop(m.disk, p, f, task, s, Closed), Moved(task, Closed, [CITED], None), s, t);
  }

  /** A run that stores a closed task without evidence. */
  lemma ClosedBare(m: Machine, q: nat, r: nat, s: nat, t: nat) returns (ops: seq<Op>, p: TaskId, task: Task)
    requires LosesClosing(m.disk, q, r, s, t)
    ensures StoresBare(Run(m, INITIAL_STATE, ops), p, task)
    ensures m.disk(q).AppendFails? && m.disk(s).AppendFails? ==>
      Fold(Run(m, INITIAL_STATE, ops).ledger) == Only(p, task)
    ensures !m.disk(p).AppendFails? && forall w: nat :: w < p ==> m.disk(w).AppendFails?
  {
    var before, f;
    ops, p, f, before := RejectedBare(m, q, r, s);
    task := Moved(before, Closed, [CITED], None);
    OnlyMoves(p, before, Closed, [CITED], None);
    ops := CloseOn(m, ops, p, f, before, s, t);
  }

  lemma StoredBareIsUnclean(m: Machine, ops: seq<Op>, p: TaskId, task: Task)
    requires StoresBare(Run(m, INITIAL_STATE, ops), p, task)
    ensures var st := Run(m, INITIAL_STATE, ops); !SnapshotOk(st.file.value) && !st.clean
  {
    assert !TaskOk(Only(p, task).tasks[p]);
    EveryRunKeepsInv(m, ops);
  }

  // ── The exact conditions ──────────────────────────────────────────────

  lemma {:induction false} LostSubmission(disk: Disk, w: nat) returns (q: nat)
    requires BareSubmitted(disk, w)
    ensures q + 1 < w && LosesSubmission(disk, q)
  {
    if BareSubmitted(disk, w - 1) {
      q := LostSubmission(disk, w - 1);
    } else {
      q := w - 2;
    }
  }

  lemma {:induction false} LostRecord(disk: Disk, w: nat) returns (q: nat)
    requires BareRecorded(disk, w)
    ensures LosesRecord(disk, q)
  {
    if BareRecorded(disk, w - 1) {
      q := LostRecord(disk, w - 1);
    } else {
      q := w - 2;
    }
  }

  lemma {:induction false} LostRejection(disk: Disk, w: nat) returns (q: nat, r: nat)
    requires BareRejected(disk, w)
    ensures LosesSubmission(disk, q) && q + 1 < r < w && Shown(disk, r)
  {
    if BareRejected(disk, w - 1) {
      q, r := LostRejection(disk, w - 1);
    } else {
      r := w - 1;
      q := LostSubmission(disk, r);
    }
  }

  lemma {:induction false} LostClosing(disk: Disk, w: nat) returns (q: nat, r: nat, s: nat)
    requires BareClosed(disk, w)
    ensures LosesSubmission(disk, q) && q + 1 < r < s && s + 1 < w && Shown(disk, r)
    ensures !Shown(disk, s) && Shown(disk, s + 1)
  {
    if BareClosed(disk, w - 1) {
      q, r, s := LostClosing(disk, w - 1);
    } else {
      s := w - 2;
      q, r := LostRejection(disk, s);
    }
  }

  lemma {:induction false} LostSnapshot(disk: Disk, w: nat) returns (q: nat, r: nat, s: nat, t: nat)
    requires BareWritten(disk, w)
    ensures LosesClosing(disk, q, r, s, t)
  {
    if BareWritten(disk, w - 1) {
      q, r, s, t := LostSnapshot(disk, w - 1);
    } else {
      t := w - 1;
      q, r, s := LostClosing(disk, w);
    }
  }

  /** Where no submission can be lost, reads are evidenced. */
  lemma UnlostReadsAreEvidenced(m: Machine, ops: seq<Op>)
    requires !exists q: nat :: LosesSubmission(m.disk, q)
    ensures GraphEvidenced(ReadGraph(Run(m, INITIAL_STATE, ops)))
  {
    var st := Run(m, INITIAL_STATE, ops);
    EveryRunIsPaced(m, ops);
    if BareSubmitted(m.disk, st.writes) {
      var q := LostSubmission(m.disk, st.writes);
    }
    PacedReadsAreEvidenced(m.disk, st);
  }

  /** A lost submission leaves a run whose reads show a task that rests on evidence it has not. */
  lemma ALostSubmissionShows(m: Machine, q: nat) returns (ops: seq<Op>)
    requires LosesSubmission(m.disk, q)
    ensures !GraphEvidenced(ReadGraph(Run(m, INITIAL_STATE, ops)))
  {
    var p, f, task;
    ops, p, f, task := SubmittedBare(m, q);
    var g := ReadGraph(Run(m, INITIAL_STATE, ops));
    assert g == Only(p, task) && RestsOnEvidence(g.tasks[p].status) && g.tasks[p].evidence == [];
  }

  /**
   * What reads show: after all runs on a disk, every task that rests on evidence has some,
   * exactly if the disk never loses a submission, that is, no write after three shown ones
   * is not shown and followed by one that is.
   */
  lemma ReadsStayEvidencedIff(m: Machine)
    ensures (forall ops: seq<Op> :: GraphEvidenced(ReadGraph(Run(m, INITIAL_STATE, ops))))
       <==> !exists q: nat :: LosesSubmission(m.disk, q)
  {
    if q: nat :| LosesSubmission(m.disk, q) {
      var ops := ALostSubmissionShows(m, q);
    } else {
      forall ops: seq<Op> ensures GraphEvidenced(ReadGraph(Run(m, INITIAL_STATE, ops))) {
        UnlostReadsAreEvidenced(m, ops);
      }
    }
  }

  /** Where no record can be lost, rebuilds are evidenced. */
  lemma UnlostRebuildsAreEvidenced(m: Machine, ops: seq<Op>)
    requires !exists q: nat :: LosesRecord(m.disk, q)
    ensures GraphEvidenced(Fold(Run(m, INITIAL_STATE, ops).ledger))
  {
    var st := Run(m, INITIAL_STATE, ops);
    EveryRunIsBacked(m, ops);
    EveryRunKeepsInv(m, ops);
    if BareRecorded(m.disk, st.writes) {
      var q := LostRecord(m.disk, st.writes);
    }
    BackedRebuildIsEvidenced(m, st);
  }

  /**
   * The rebuild: after all runs on a disk, every task that rests on evidence has some,
   * exactly if no append after three shown writes fails and is followed by one that does not.
   */
  lemma RebuildsStayEvidencedIff(m: Machine)
    ensures (forall ops: seq<Op> :: GraphEvidenced(Fold(Run(m, INITIAL_STATE, ops).ledger)))
       <==> !exists q: nat :: LosesRecord(m.disk, q)
  {
    if q: nat :| LosesRecord(m.disk, q) {
      var ops := RecordedBare(m, q);
      assert !GraphEvidenced(Fold(Run(m, INITIAL_STATE, ops).ledger));
    } else {
      forall ops: seq<Op> ensures GraphEvidenced(Fold(Run(m, INITIAL_STATE, ops).ledger)) {
        UnlostRebuildsAreEvidenced(m, ops);
      }
    }
  }

  /**
   * All runs on a disk write only snapshots that pass their schema exactly if the disk never
   * loses a closing: a lost submission, then a shown write, then one that is not shown
   * followed by one that is, and a snapshot written then or later.
   */
  lemma RunsStayCleanIff(m: Machine)
    ensures (forall ops: seq<Op> :: Run(m, INITIAL_STATE, ops).clean)
       <==> !exists q: nat, r: nat, s: nat, t: nat :: LosesClosing(m.disk, q, r, s, t)
  {
    if q: nat, r: nat, s: nat, t: nat :| LosesClosing(m.disk, q, r, s, t) {
      var ops, p, task := ClosedBare(m, q, r, s, t);
      StoredBareIsUnclean(m, ops, p, task);
      assert !Run(m, INITIAL_STATE, ops).clean;
    } else {
      forall ops: seq<Op> ensures Run(m, INITIAL_STATE, ops).clean {
        var st := Run(m, INITIAL_STATE, ops);
        EveryRunIsPaced(m, ops);
        if !st.clean {
          var q, r, s, t := LostSnapshot(m.disk, st.writes);
        }
      }
    }
  }

  // ── Two disks ─────────────────────────────────────────────────────────

  /** Every write succeeds but the fifth and the eighth, which fail in this way. */
  ghost predicate FailsTwice(disk: Disk, how: WriteOutcome) {
    forall n :: disk(n) == if n == 4 || n == 7 then how else AllOk
  }

  lemma FailingTwiceLosesAClosing(disk: Disk, how: WriteOutcome)
    requires FailsTwice(disk, how) && !how.AllOk?
    ensures LosesClosing(disk, 4, 6, 7, 8)
  {
    WrittenStays(disk, 0, 4);
    WrittenStays(disk, 0, 7);
    assert ShownCount(disk, 1) == 1;
    assert ShownCount(disk, 2) == 2;
    assert ShownCount(disk, 3) == 3;
    CountGrows(disk, 3, 4);
  }

  lemma {:induction false} WrittenStays(disk: Disk, i: nat, w: nat)
    requires disk(i).AllOk? && i < w
    ensures !NoneWritten(disk, w)
  {
    if i < w - 1 {
      WrittenStays(disk, i, w - 1);
    }
  }

  /**
   * Two lost evidence writes, with no other failure: a run ends with a graph.json that shows
   * a task submitted, rejected and closed without evidence, and fails its schema.  It is
   * enough that the snapshot writes fail; no append need fail.  If the appends fail, the
   * rebuild, to which reads then fall back, shows the same task.
   */
  lemma AClosedTaskWithoutEvidence(m: Machine, how: WriteOutcome) returns (ops: seq<Op>)
    requires FailsTwice(m.disk, how) && !how.AllOk?
    ensures var st := Run(m, INITIAL_STATE, ops);
      && st.file.Some? && !SnapshotOk(st.file.value) && ReadGraph(st) == Fold(st.ledger)
      && 0 in st.file.value.tasks
      && st.file.value.tasks[0].status.Closed? && st.file.value.tasks[0].evidence == []
      && (how.AppendFails? ==> ReadGraph(st) == st.file.value)
  {
    FailingTwiceLosesAClosing(m.disk, how);
    var p, task;
    ops, p, task := ClosedBare(m, 4, 6, 7, 8);
    StoredBareIsUnclean(m, ops, p, task);
    assert p == 0;
  }
}
