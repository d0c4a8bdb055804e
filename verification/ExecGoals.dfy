/**
 * Creating a goal again (src/exec-graph/api.ts:81-104, src/learning/projections.ts:40-92):
 * a replay that repeats a creation, after anything else, records the goal a second time
 * exactly when reads have lost the first event.
 */
module ExecGoals {
  import opened Common
  import opened Text
  import opened HandContract
  import opened ExecContracts
  import opened ExecLedger
  import opened ExecApi
  import opened ExecSafety
  import opened ExecSteps
  import opened ExecReconciliation

  // ── Goals only come from their events ─────────────────────────────────

  predicate RecordedSince(ledger: seq<Event>, n: nat, id: string) {
    exists i :: n <= i < |ledger| && ledger[i].GoalCreated? && ledger[i].goal.id == id
  }

  /** From `st` to `later` no goal is lost from reads, and a new one was recorded meanwhile. */
  ghost predicate GoalsAdvance(st: State, later: State) {
    && st.ledger <= later.ledger
    && (later.clean ==>
          && st.clean && FileClean(later)
          && (forall id :: id in ReadGraph(st).goals ==> id in ReadGraph(later).goals)
          && (forall id :: id in ReadGraph(later).goals ==>
                id in ReadGraph(st).goals || RecordedSince(later.ledger, |st.ledger|, id)))
  }

  lemma RecordedLonger(a: seq<Event>, b: seq<Event>, n: nat, k: nat, id: string)
    requires a <= b && k <= n && RecordedSince(a, n, id)
    ensures RecordedSince(b, k, id)
  {
    var i :| n <= i < |a| && a[i].GoalCreated? && a[i].goal.id == id;
    assert b[i] == a[i];
  }

  lemma GoalsAdvanceTwice(a: State, b: State, c: State)
    requires GoalsAdvance(a, b) && GoalsAdvance(b, c)
    ensures GoalsAdvance(a, c)
  {
    if c.clean {
      forall id | id in ReadGraph(c).goals && id !in ReadGraph(a).goals
        ensures RecordedSince(c.ledger, |a.ledger|, id)
      {
        if id in ReadGraph(b).goals {
          RecordedLonger(b.ledger, c.ledger, |a.ledger|, |a.ledger|, id);
        } else {
          RecordedLonger(c.ledger, c.ledger, |b.ledger|, |a.ledger|, id);
        }
      }
    }
  }

  lemma AppendAdvancesGoals(disk: Disk, st: State, e: Event)
    requires st.clean ==> FileClean(st)
    ensures GoalsAdvance(st, AppendEvent(disk, st, e))
  {
    var st' := AppendEvent(disk, st, e);
    if st'.clean {
      CleanAppendReads(disk, st, e);
      if e.GoalCreated? && ReadGraph(st') != ReadGraph(st) {
        AShownEventIsRecorded(disk, st, e);
        assert st'.ledger[|st.ledger|] == e;
        assert RecordedSince(st'.ledger, |st.ledger|, e.goal.id);
      }
    }
  }

  lemma AShownEventIsRecorded(disk: Disk, st: State, e: Event)
    requires ReadGraph(AppendEvent(disk, st, e)) != ReadGraph(st)
    ensures AppendEvent(disk, st, e).ledger == st.ledger + [e]
  {}

  lemma {:induction false} PromoteAdvancesGoals(disk: Disk, st: State, task: Task, refs: seq<Ref>, actor: string)
    requires st.clean ==> FileClean(st)
    ensures GoalsAdvance(st, PromoteRefs(disk, st, task, refs, actor).st)
    decreases |refs|
  {
    if refs != [] {
      var entry := EvidenceEntry(refs[0], Other, None);
      AppendAdvancesGoals(disk, st, EvidenceAdded(actor, task.id, entry));
      var added := AddEvidence(disk, st, task.id, entry, actor);
      if added.result.Ok? {
        PromoteAdvancesGoals(disk, added.st, added.result.value, refs[1..], actor);
        GoalsAdvanceTwice(st, added.st, PromoteRefs(disk, added.st, added.result.value, refs[1..], actor).st);
      }
    }
  }

  lemma FinishAdvancesGoals(disk: Disk, st: State, task: Task, input: MoveInput)
    requires st.clean ==> FileClean(st)
    ensures GoalsAdvance(st, FinishMove(disk, st, task, input).st)
  {
    var moved := ApplyTransition(task, input);
    if moved.Ok? {
      AppendAdvancesGoals(disk, st,
        Transitioned(input.actor, task.id, moved.value.transitions[|moved.value.transitions| - 1]));
    }
  }

  lemma PortAdvancesGoals(disk: Disk, st: State, input: MoveInput)
    requires st.clean ==> FileClean(st)
    ensures GoalsAdvance(st, MoveTaskAsVerifier(disk, st, input).st)
  {
    var task := GetTask(st, input.taskId);
    if task.Some? {
      PromoteAdvancesGoals(disk, st, task.value, input.evidenceRefs, input.actor);
      var promoted := PromoteRefs(disk, st, task.value, input.evidenceRefs, input.actor);
      if promoted.result.Ok? {
        FinishAdvancesGoals(disk, promoted.st, promoted.result.value, input);
        GoalsAdvanceTwice(st, promoted.st, FinishMove(disk, promoted.st, promoted.result.value, input).st);
      }
    }
  }

  lemma CreateAdvancesGoals(disk: Disk, st: State, input: TaskInput)
    requires st.clean ==> FileClean(st)
    ensures GoalsAdvance(st, CreateTask(disk, st, input).st)
  {
    var named := st.(nextTask := st.nextTask + 1);
    assert ReadGraph(named) == ReadGraph(st);
    CreateEndsInOneOf(disk, st, input);
    AppendAdvancesGoals(disk, named, TaskCreated(input.actor, NewTask(input, st.nextTask)));
    assert GoalsAdvance(st, named);
    GoalsAdvanceTwice(st, named, AppendEvent(disk, named, TaskCreated(input.actor, NewTask(input, st.nextTask))));
  }

  lemma StepAdvancesGoals(m: Machine, st: State, step: Step)
    requires st.clean ==> FileClean(st)
    ensures GoalsAdvance(st, Do(m, st, step))
  {
    match step
    case GoalStep(goal, actor) => AppendAdvancesGoals(m.disk, st, GoalCreated(actor, goal));
    case TaskStep(input) => CreateAdvancesGoals(m.disk, st, input);
    case EvidenceStep(id, entry, actor) => AppendAdvancesGoals(m.disk, st, EvidenceAdded(actor, id, entry));
    case OwnerStep(id, owner, actor, reason) =>
      if GetTask(st, id).Some? {
        AppendAdvancesGoals(m.disk, st, OwnerReassigned(actor, id, GetTask(st, id).value.owner, owner, reason));
      }
    case MoveStep(move) => PortAdvancesGoals(m.disk, st, move);
    case LookStep => assert ReadGraph(Do(m, st, step)) == ReadGraph(st);
  }

  lemma RunAdvancesGoals(m: Machine, st: State, ops: seq<Op>)
    requires Inv(m, st)
    ensures GoalsAdvance(st, Run(m, st, ops))
  {
    var claim: Claim := s => GoalsAdvance(st, s);
    forall s, step | Inv(m, s) && claim(s) && Guarded(s, step) && Inv(m, Do(m, s, step)) ensures claim(Do(m, s, step)) {
      StepAdvancesGoals(m, s, step);
      GoalsAdvanceTwice(st, s, Do(m, s, step));
    }
    assert GoalsAdvance(st, st);
    RunKeeps(m, claim, false, st, ops);
  }

  // ── Twice ─────────────────────────────────────────────────────────────

  lemma AppendedGoalShows(disk: Disk, st: State, e: Event)
    requires e.GoalCreated? && AppendVerdict(st, e).Recorded?
    ensures e.goal.id in ReadGraph(AppendEvent(disk, st, e)).goals <==> WriteShows(disk, st)
  {
    FoldAppend(st.ledger, e);
  }

  /**
   * A goal that is created again, as a replay does, is recorded twice exactly if the first
   * event was recorded but did not get through to the reads, and the second is recorded.
   */
  lemma GoalIsRecordedTwiceIff(disk: Disk, st: State, goal: Goal, actor: string)
    requires GoalOk(goal) && actor != "" && goal.id !in ReadGraph(st).goals
    ensures var once := CreateGoal(disk, st, goal, actor);
      var twice := CreateGoal(disk, once.st, goal, actor);
      var e := GoalCreated(actor, goal);
      && once.result.Ok? && twice.result.Ok?
      && (twice.st.ledger == st.ledger + [e, e] <==>
          disk(st.writes).SnapshotFails? && !WriteShows(disk, st) && !disk(st.writes + 1).AppendFails?)
  {
    var e := GoalCreated(actor, goal);
    AppendedGoalShows(disk, st, e);
    var once := AppendEvent(disk, st, e);
    if goal.id !in ReadGraph(once).goals && !disk(st.writes).AppendFails? && !disk(st.writes + 1).AppendFails? {
      assert AppendEvent(disk, once, e).ledger == st.ledger + [e] + [e] == st.ledger + [e, e];
    } else {
      assert |CreateGoal(disk, once, goal, actor).st.ledger| <= |st.ledger| + 1;
    }
  }

  /** A creation records its event exactly if reads do not show the goal and the append does not fail. */
  lemma CreationRecordsIff(disk: Disk, st: State, goal: Goal, actor: string)
    requires GoalOk(goal) && actor != ""
    ensures var o := CreateGoal(disk, st, goal, actor);
      && o.result.Ok?
      && (o.st.ledger == st.ledger + [GoalCreated(actor, goal)] <==>
          goal.id !in ReadGraph(st).goals && !disk(st.writes).AppendFails?)
  {}

  lemma FirstCreationShows(disk: Disk, st: State, goal: Goal, actor: string)
    requires GoalOk(goal) && actor != "" && goal.id !in ReadGraph(st).goals
    ensures goal.id in ReadGraph(CreateGoal(disk, st, goal, actor).st).goals <==> WriteShows(disk, st)
  {
    AppendedGoalShows(disk, st, GoalCreated(actor, goal));
  }

  /**
   * With anything in between, as long as the run stays clean: a goal whose first creation is
   * shown is not recorded again.  One whose first creation is not shown, and which nobody
   * else creates meanwhile, is recorded again exactly if the second append does not fail.
   */
  lemma GoalIsRecordedAgainIff(m: Machine, st: State, goal: Goal, actor: string, ops: seq<Op>)
    requires Inv(m, st) && GoalOk(goal) && actor != "" && goal.id !in ReadGraph(st).goals
    ensures var once := CreateGoal(m.disk, st, goal, actor).st;
      var later := Run(m, once, ops);
      var again := CreateGoal(m.disk, later, goal, actor).st;
      later.clean && !RecordedSince(later.ledger, |once.ledger|, goal.id) ==>
        (again.ledger == later.ledger + [GoalCreated(actor, goal)] <==>
         !WriteShows(m.disk, st) && !m.disk(later.writes).AppendFails?)
    ensures var once := CreateGoal(m.disk, st, goal, actor).st;
      var later := Run(m, once, ops);
      later.clean && WriteShows(m.disk, st) ==> CreateGoal(m.disk, later, goal, actor).st == later
  {
    var once := CreateGoal(m.disk, st, goal, actor).st;
    var later := Run(m, once, ops);
    CreateGoalKeepsInv(m, st, goal, actor);
    FirstCreationShows(m.disk, st, goal, actor);
    RunAdvancesGoals(m, once, ops);
    CreationRecordsIff(m.disk, later, goal, actor);
  }
}
