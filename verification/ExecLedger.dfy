/**
 * The append-only event ledger of the execution graph and its cached snapshot
 * (src/exec-graph/ledger.ts).
 *
 * A `Disk` tells for each write attempt, in order, whether the ledger append and the
 * snapshot write succeed.  Failures are swallowed by the program: after a failed
 * append nothing is recorded, after a failed snapshot write graph.json is stale and
 * later appends build on it.
 */
module ExecLedger {
  import opened Common
  import opened HandContract
  import opened ExecContracts

  datatype Snapshot = Snapshot(goals: map<string, Goal>, tasks: map<TaskId, Task>)

  const EMPTY_SNAPSHOT := Snapshot(map[], map[])

  function UpdateTask(s: Snapshot, id: TaskId, task: Task): Snapshot {
    s.(tasks := s.tasks[id := task])
  }

  /** The one place an event is folded into a snapshot; events about unknown tasks are skipped. */
  function ApplyEvent(s: Snapshot, e: Event): Snapshot {
    match e
    case GoalCreated(_, goal) => s.(goals := s.goals[goal.id := goal])
    case TaskCreated(_, task) => UpdateTask(s, task.id, task)
    case Transitioned(_, id, t) =>
      if id !in s.tasks then s
      else UpdateTask(s, id, s.tasks[id].(status := t.to, transitions := s.tasks[id].transitions + [t]))
    case EvidenceAdded(_, id, evidence) =>
      if id !in s.tasks then s
      else UpdateTask(s, id, s.tasks[id].(evidence := s.tasks[id].evidence + [evidence]))
    case OwnerReassigned(_, id, _, to, _) =>
      if id !in s.tasks then s else UpdateTask(s, id, s.tasks[id].(owner := to))
  }

  function Fold(events: seq<Event>): Snapshot {
    if events == [] then EMPTY_SNAPSHOT
    else ApplyEvent(Fold(events[..|events| - 1]), events[|events| - 1])
  }

  lemma FoldAppend(events: seq<Event>, e: Event)
    ensures Fold(events + [e]) == ApplyEvent(Fold(events), e)
  {
    assert (events + [e])[..|events|] == events;
  }

  predicate SnapshotOk(s: Snapshot) {
    && (forall id :: id in s.goals ==> GoalOk(s.goals[id]))
    && (forall id :: id in s.tasks ==> TaskOk(s.tasks[id]))
  }

  datatype WriteOutcome = AllOk | SnapshotFails | AppendFails

  type Disk = nat -> WriteOutcome

  /**
   * `file`: graph.json, None if missing; `writes`: write attempts so far; `nextTask`: the
   * next fresh task id; `clean`: whether every graph.json written so far passes the
   * schema it is read with (history only, nothing the program does depends on it).
   */
  datatype State = State(
    ledger: seq<Event>, file: Option<Snapshot>, writes: nat, nextTask: TaskId, ticks: nat, clean: bool)

  const INITIAL_STATE := State([], None, 0, 0, 0, true)

  /** The snapshot on disk if it passes its schema, else a full rebuild. */
  function ReadGraph(st: State): Snapshot {
    if st.file.Some? && SnapshotOk(st.file.value) then st.file.value else Fold(st.ledger)
  }

  function Persist(disk: Disk, st: State, e: Event, next: Snapshot): State {
    match disk(st.writes)
    case AppendFails => st.(writes := st.writes + 1)
    case SnapshotFails => st.(writes := st.writes + 1, ledger := st.ledger + [e])
    case AllOk =>
      st.(writes := st.writes + 1, ledger := st.ledger + [e], file := Some(next), clean := st.clean && SnapshotOk(next))
  }

  /** The oldest task with this idempotency key among ids from..limit. */
  function FindByKey(tasks: map<TaskId, Task>, key: string, from: TaskId, limit: TaskId): (found: Option<TaskId>)
    ensures found.Some? ==> found.value in tasks && tasks[found.value].idempotencyKey == key
    ensures found.None? ==> forall id :: id in tasks && from <= id < limit ==> tasks[id].idempotencyKey != key
    decreases limit - from
  {
    if from >= limit then None
    else if from in tasks && tasks[from].idempotencyKey == key then Some(from)
    else FindByKey(tasks, key, from + 1, limit)
  }

  datatype AppendResult = Recorded | DedupedGoal | DedupedTask(id: TaskId) | Invalid

  function AppendVerdict(st: State, e: Event): AppendResult {
    var current := ReadGraph(st);
    var twin := if e.TaskCreated? then FindByKey(current.tasks, e.task.idempotencyKey, 0, st.nextTask) else None;
    if e.GoalCreated? && e.goal.id in current.goals then DedupedGoal
    else if twin.Some? then DedupedTask(twin.value)
    else if !EventOk(e) then Invalid
    else Recorded
  }

  function AppendEvent(disk: Disk, st: State, e: Event): State {
    if AppendVerdict(st, e).Recorded? then Persist(disk, st, e, ApplyEvent(ReadGraph(st), e)) else st
  }

  // ── The snapshot refines the full rebuild ─────────────────────────────

  /** `part` is obtained from `whole` by dropping events. */
  ghost predicate SubsequenceOf(part: seq<Event>, whole: seq<Event>) {
    part == [] ||
    (whole != [] &&
      var front := whole[..|whole| - 1];
      || SubsequenceOf(part, front)
      || (part[|part| - 1] == whole[|whole| - 1] && SubsequenceOf(part[..|part| - 1], front)))
  }

  lemma {:induction false} SubsequenceReflexive(s: seq<Event>)
    ensures SubsequenceOf(s, s)
  {
    if s != [] {
      SubsequenceReflexive(s[..|s| - 1]);
    }
  }

  lemma SubsequenceExtend(part: seq<Event>, whole: seq<Event>, e: Event)
    requires SubsequenceOf(part, whole)
    ensures SubsequenceOf(part, whole + [e]) && SubsequenceOf(part + [e], whole + [e])
  {
    assert (whole + [e])[..|whole|] == whole && (part + [e])[..|part|] == part;
  }

  lemma {:induction false} SubsequenceMembers(part: seq<Event>, whole: seq<Event>, i: nat)
    requires SubsequenceOf(part, whole) && i < |part|
    ensures part[i] in whole
  {
    var front := whole[..|whole| - 1];
    if SubsequenceOf(part, front) {
      SubsequenceMembers(part, front, i);
      assert part[i] in front;
    } else if i < |part| - 1 {
      SubsequenceMembers(part[..|part| - 1], front, i);
      assert part[i] in front;
    }
  }

  /** What graph.json (and hence every read) shows: the fold of a subsequence of the ledger. */
  ghost predicate ShowsSubsequence(s: Snapshot, ledger: seq<Event>) {
    exists part :: SubsequenceOf(part, ledger) && s == Fold(part)
  }

  ghost predicate FileInv(st: State) {
    st.file.Some? ==> ShowsSubsequence(st.file.value, st.ledger)
  }

  lemma ReadShowsSubsequence(st: State) returns (part: seq<Event>)
    requires FileInv(st)
    ensures SubsequenceOf(part, st.ledger) && ReadGraph(st) == Fold(part)
  {
    if st.file.Some? && SnapshotOk(st.file.value) {
      part :| SubsequenceOf(part, st.ledger) && st.file.value == Fold(part);
    } else {
      SubsequenceReflexive(st.ledger);
      part := st.ledger;
    }
  }

  /** Whatever the disk does, an append keeps graph.json a fold of a subsequence. */
  lemma AppendKeepsFile(disk: Disk, st: State, e: Event)
    requires FileInv(st)
    ensures FileInv(AppendEvent(disk, st, e))
    ensures st.ledger <= AppendEvent(disk, st, e).ledger
  {
    var st' := AppendEvent(disk, st, e);
    if AppendVerdict(st, e).Recorded? && !disk(st.writes).AppendFails? {
      var part := ReadShowsSubsequence(st);
      SubsequenceExtend(part, st.ledger, e);
      FoldAppend(part, e);
      if disk(st.writes).SnapshotFails? && st.file.Some? {
        var old' :| SubsequenceOf(old', st.ledger) && st.file.value == Fold(old');
        SubsequenceExtend(old', st.ledger, e);
      }
    }
  }

  predicate FileClean(st: State) {
    st.file.Some? ==> SnapshotOk(st.file.value)
  }

  /** As long as written snapshots pass their schema, an append leaves reads alone or moves them by its event. */
  lemma CleanAppendReads(disk: Disk, st: State, e: Event)
    requires FileClean(st) && AppendEvent(disk, st, e).clean
    ensures var st' := AppendEvent(disk, st, e);
      && st.clean && FileClean(st')
      && (ReadGraph(st') == ReadGraph(st)
          || (AppendVerdict(st, e).Recorded? && ReadGraph(st') == ApplyEvent(ReadGraph(st), e)))
  {
    if AppendVerdict(st, e).Recorded? {
      FoldAppend(st.ledger, e);
    }
  }

  /** graph.json is exactly the rebuild (or absent, with an empty ledger). */
  ghost predicate Synced(st: State) {
    st.file == if st.ledger == [] then None else Some(Fold(st.ledger))
  }

  lemma SyncedRead(st: State)
    requires Synced(st)
    ensures ReadGraph(st) == Fold(st.ledger)
  {}

  ghost predicate NeverStale(disk: Disk) {
    forall n :: disk(n) != SnapshotFails
  }

  ghost predicate Reliable(disk: Disk) {
    forall n :: disk(n) == AllOk
  }

  /** Without a failed snapshot write, the incremental update equals the full rebuild after every append. */
  lemma AppendKeepsSync(disk: Disk, st: State, e: Event)
    requires NeverStale(disk) && Synced(st)
    ensures var st' := AppendEvent(disk, st, e);
      && Synced(st')
      && (st'.ledger == st.ledger || st'.ledger == st.ledger + [e])
      && ReadGraph(st') == Fold(st'.ledger)
      && (st'.ledger != st.ledger ==>
        AppendVerdict(st, e).Recorded? && Fold(st'.ledger) == ApplyEvent(Fold(st.ledger), e))
      && (Reliable(disk) && AppendVerdict(st, e).Recorded? ==> st'.ledger == st.ledger + [e])
  {}
}
