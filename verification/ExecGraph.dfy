/**
 * The execution graph as the program runs it: files updated in place, loops over
 * cited references and evidence.  Every method is proved against the function of the
 * same name in `ExecApi`, whose properties are in `ExecSafety` and the modules built on it.
 */
module ExecGraph {
  import opened Common
  import opened Text
  import opened HandContract
  import opened ExecContracts
  import opened ExecLedger
  import opened ExecApi

  class Graph {
    const machine: Machine
    /** ledger.jsonl */
    var ledger: seq<Event>
    /** graph.json */
    var file: Option<Snapshot>
    var writes: nat
    var nextTask: TaskId
    /** How often the verifier has looked outside. */
    var ticks: nat
    /** Whether every graph.json written so far passes its schema; never read. */
    var clean: bool

    constructor (machine: Machine)
      ensures this.machine == machine && St() == INITIAL_STATE
    {
      this.machine := machine;
      ledger, file, writes, nextTask, ticks, clean := [], None, 0, 0, 0, true;
    }

    function St(): State
      reads this
    {
      State(ledger, file, writes, nextTask, ticks, clean)
    }

    method PersistEvent(e: Event, next: Snapshot)
      modifies this
      ensures St() == Persist(machine.disk, old(St()), e, next)
    {
      var outcome := machine.disk(writes);
      writes := writes + 1;
      if outcome.AppendFails? {
        return;
      }
      ledger := ledger + [e];
      if outcome.SnapshotFails? {
        return;
      }
      file := Some(next);
      clean := clean && SnapshotOk(next);
    }

    method Append(e: Event) returns (verdict: AppendResult)
      modifies this
      ensures St() == AppendEvent(machine.disk, old(St()), e)
      ensures verdict == AppendVerdict(old(St()), e)
    {
      var current := ReadGraph(St());
      if e.GoalCreated? && e.goal.id in current.goals {
        return DedupedGoal;
      }
      if e.TaskCreated? {
        var twin := FindByKey(current.tasks, e.task.idempotencyKey, 0, nextTask);
        if twin.Some? {
          return DedupedTask(twin.value);
        }
      }
      if !EventOk(e) {
        return Invalid;
      }
      PersistEvent(e, ApplyEvent(current, e));
      verdict := Recorded;
    }

    method CreateGoal(goal: Goal, actor: string) returns (result: Result<Goal, Error>)
      modifies this
      ensures Outcome(St(), result) == ExecApi.CreateGoal(machine.disk, old(St()), goal, actor)
    {
      if goal.id in ReadGraph(St()).goals {
        return Ok(ReadGraph(St()).goals[goal.id]);
      }
      if !GoalOk(goal) || actor == "" {
        return Err(InvalidInput);
      }
      var _ := Append(GoalCreated(actor, goal));
      result := Ok(goal);
    }

    method CreateTask(input: TaskInput) returns (result: Result<Created, Error>)
      modifies this
      ensures Outcome(St(), result) == ExecApi.CreateTask(machine.disk, old(St()), input)
    {
      if StartsWith(input.owner, HAND_OWNER_PREFIX) {
        return Err(HandAuthority);
      }
      var task := NewTask(input, nextTask);
      nextTask := nextTask + 1;
      if !TaskOk(task) {
        return Err(InvalidInput);
      }
      var verdict := Append(TaskCreated(input.actor, task));
      match verdict {
        case DedupedTask(id) => result := Ok(Created(ReadGraph(St()).tasks[id], false));
        case Invalid => result := Err(InvalidInput);
        case _ => result := Ok(Created(task, true));
      }
    }

    method ImportTask(input: TaskInput) returns (result: Result<Created, Error>)
      modifies this
      ensures Outcome(St(), result) == ExecApi.ImportTask(machine.disk, old(St()), input)
    {
      result := CreateTask(input.(idempotencyKey := Some(DeriveIdempotencyKey(input.source))));
    }

    method AddEvidence(id: TaskId, evidence: EvidenceEntry, actor: string) returns (result: Result<Task, Error>)
      modifies this
      ensures Outcome(St(), result) == ExecApi.AddEvidence(machine.disk, old(St()), id, evidence, actor)
    {
      var task := GetTask(St(), id);
      if task.None? {
        return Err(UnknownTask);
      }
      var verdict := Append(EvidenceAdded(actor, id, evidence));
      if verdict.Invalid? {
        return Err(InvalidInput);
      }
      result := Ok(task.value.(evidence := task.value.evidence + [evidence]));
    }

    /** The verifier port's move: cited references become evidence first, whatever the transition then says. */
    method MoveTaskAsVerifier(input: MoveInput) returns (result: Result<Task, Error>)
      modifies this
      ensures Outcome(St(), result) == ExecApi.MoveTaskAsVerifier(machine.disk, old(St()), input)
    {
      var found := GetTask(St(), input.taskId);
      if found.None? {
        return Err(UnknownTask);
      }
      var task := found.value;
      var refs := input.evidenceRefs;
      for i := 0 to |refs|
        invariant PromoteRefs(machine.disk, old(St()), found.value, refs, input.actor)
               == PromoteRefs(machine.disk, St(), task, refs[i..], input.actor)
      {
        assert refs[i..][1..] == refs[i + 1..];
        var added := AddEvidence(task.id, EvidenceEntry(refs[i], Other, None), input.actor);
        if added.Err? {
          return added;
        }
        task := added.value;
      }
      result := ApplyTransition(task, input);
      if result.Ok? {
        var _ := Append(Transitioned(input.actor, task.id, result.value.transitions[|result.value.transitions| - 1]));
      }
    }

    method MoveTask(input: MoveInput) returns (result: Result<Task, Error>)
      modifies this
      ensures Outcome(St(), result) == ExecApi.MoveTask(machine.disk, old(St()), input)
    {
      if GetTask(St(), input.taskId).None? {
        return Err(UnknownTask);
      }
      if input.to.Verified? || input.to.Rejected? {
        return Err(HandAuthority);
      }
      result := MoveTaskAsVerifier(input);
    }

    method ReassignOwnerAsVerifier(id: TaskId, owner: string, actor: string, reason: string)
      returns (result: Result<Task, Error>)
      modifies this
      ensures Outcome(St(), result)
        == ExecApi.ReassignOwnerAsVerifier(machine.disk, old(St()), id, owner, actor, reason)
    {
      if IsBlank(owner) || IsBlank(actor) || IsBlank(reason) {
        return Err(InvalidInput);
      }
      var task := GetTask(St(), id);
      if task.None? {
        return Err(UnknownTask);
      }
      var _ := Append(OwnerReassigned(actor, id, task.value.owner, owner, reason));
      result := Ok(task.value.(owner := owner));
    }

    method ReassignOwner(id: TaskId, owner: string, actor: string, reason: string) returns (result: Result<Task, Error>)
      modifies this
      ensures Outcome(St(), result) == ExecApi.ReassignOwner(machine.disk, old(St()), id, owner, actor, reason)
    {
      if IsBlank(owner) || IsBlank(actor) || IsBlank(reason) {
        return Err(InvalidInput);
      }
      if StartsWith(owner, HAND_OWNER_PREFIX) {
        return Err(HandAuthority);
      }
      result := ReassignOwnerAsVerifier(id, owner, actor, reason);
    }

    method AssignHand(id: TaskId, handId: string, actor: string, unattended: bool, ts: int)
      returns (result: Result<Task, Error>)
      modifies this
      ensures Outcome(St(), result)
        == ExecApi.AssignHand(machine.policy, machine.disk, old(St()), id, handId, actor, unattended, ts)
    {
      var hand := machine.policy.hands(handId);
      if hand.None? {
        return Err(HandAdapter);
      }
      if unattended && hand.value.foregroundOnly {
        return Err(HandContext);
      }
      var task := GetTask(St(), id);
      if task.None? {
        return Err(HandAdapter);
      }
      if IsActiveHandOwner(task.value) {
        return Err(HandContext);
      }
      result := MoveTask(MoveInput(id, Delegated, actor, [], Some("assigned to hand:" + handId), ts));
      if result.Ok? {
        result := ReassignOwnerAsVerifier(id, HAND_OWNER_PREFIX + handId, actor, "assigned to hand " + handId);
      }
    }

    method SubmitReceipt(id: TaskId, r: Receipt, ts: int) returns (result: Result<Task, Error>)
      modifies this
      ensures Outcome(St(), result) == ExecApi.SubmitReceipt(machine.policy, machine.disk, old(St()), id, r, ts)
    {
      if !ReceiptOk(r) {
        return Err(InvalidInput);
      }
      if r.taskId != id {
        return Err(ReceiptTaskMismatch);
      }
      if HasSecrets(machine.policy, r) {
        return Err(ReceiptSecret);
      }
      var task := GetTask(St(), id);
      if task.None? {
        return Err(HandAdapter);
      }
      if AlreadySubmitted(task.value, r) {
        return Ok(task.value);
      }
      if task.value.status.Delegated? {
        result := MoveTask(MoveInput(id, InProgress, r.submittedBy, [],
          Some("receipt submission requires in-progress"), ts));
        if result.Err? {
          return;
        }
      }
      result := AddEvidence(id, EvidenceEntry(Digest(r), ToolReceipt, Some(Json(r))), r.submittedBy);
      if result.Ok? {
        result := MoveTask(MoveInput(id, EvidenceSubmitted, r.submittedBy, [Digest(r)], Some("receipt kind"), ts));
      }
    }

    method AbortHandTask(id: TaskId, actor: string, reason: string, ts: int) returns (result: Result<Task, Error>)
      modifies this
      ensures Outcome(St(), result) == ExecApi.AbortHandTask(machine.disk, old(St()), id, actor, reason, ts)
    {
      var task := GetTask(St(), id);
      if task.None? || (!task.value.status.Delegated? && !task.value.status.InProgress?) {
        return Err(HandAdapter);
      }
      result := MoveTask(MoveInput(id, Blocked, actor, [], Some("hand task aborted: " + reason), ts));
    }

    /** The newest tool-receipt entry, found from the end. */
    static method FindLatestReceipt(evidence: seq<EvidenceEntry>) returns (found: Option<EvidenceEntry>)
      ensures found == LatestReceipt(evidence)
    {
      var i := |evidence|;
      assert evidence[..i] == evidence;
      while i > 0
        invariant 0 <= i <= |evidence|
        invariant LatestReceipt(evidence) == LatestReceipt(evidence[..i])
      {
        i := i - 1;
        assert evidence[..i + 1][..i] == evidence[..i];
        if evidence[i].kind.ToolReceipt? {
          return Some(evidence[i]);
        }
      }
      found := None;
    }

    /** The primary verdict and the second opinion, each looking outside once. */
    static method Judge(policy: Policy, env: nat -> Environment, tick: nat, risk: DelegationRisk, receipt: Receipt)
      returns (accepted: bool)
      ensures accepted == Accepts(policy, env, tick, risk, receipt)
      ensures accepted <==>
        && Verify(policy, env(tick), receipt)
        && (NeedsRefuter(risk) ==> Verify(policy, env(tick + 1), receipt))
    {
      var primary := Verify(policy, env(tick), receipt);
      var refuter := RunRefuter(policy, env(tick + 1), risk, receipt, primary);
      accepted := primary && (!refuter.triggered || refuter.passed);
    }

    /** Both looks outside, then the move they call for. */
    method Conclude(task: Task, ref: Ref, receipt: Receipt, id: TaskId, actor: string, ts: int)
      returns (result: Result<Task, Error>)
      modifies this
      ensures Outcome(St(), result)
           == ExecApi.Conclude(machine.policy, machine.env, machine.disk, old(St()), task, ref, receipt, id, actor, ts)
    {
      var accepted := Judge(machine.policy, machine.env, ticks, RiskOf(machine.policy, task), receipt);
      ticks := ticks + 2;
      if accepted {
        result := MoveTaskAsVerifier(MoveInput(id, Verified, actor, [ref], Some("verified"), ts));
      } else {
        result := MoveTaskAsVerifier(MoveInput(id, Rejected, actor, [], Some("rejected"), ts));
      }
    }

    /** The only place a task becomes verified or rejected. */
    method VerifyAndTransition(id: TaskId, actor: string, ts: int) returns (result: Result<Task, Error>)
      modifies this
      ensures Outcome(St(), result)
           == ExecApi.VerifyAndTransition(machine.policy, machine.env, machine.disk, old(St()), id, actor, ts)
    {
      var task := GetTask(St(), id);
      if task.None? || !task.value.status.EvidenceSubmitted? {
        return Err(HandAdapter);
      }
      var latest := FindLatestReceipt(task.value.evidence);
      if latest.None? {
        result := MoveTaskAsVerifier(MoveInput(id, Rejected, actor, [],
          Some("no receipt evidence found to verify"), ts));
        return;
      }
      var receipt := ParseNote(latest.value.note);
      if receipt.None? {
        return Err(HandAdapter);
      }
      result := Conclude(task.value, latest.value.ref, receipt.value, id, actor, ts);
    }
  }
}
