/**
 * What the operations on the execution graph answer on a working disk
 * (src/exec-graph/api.ts:81-330, src/hands/exec-graph-adapter.ts:159-330): exactly when
 * each succeeds, and what reads show of the task afterwards.
 */
module ExecAnswers {
  import opened Common
  import opened Text
  import opened HandContract
  import opened ExecContracts
  import opened ExecLedger
  import opened ExecApi
  import opened ExecSafety
  import opened ExecReconciliation

  // ── The lifecycle, read backwards ─────────────────────────────────────

  /** From where a status can be entered. */
  function Predecessors(to: Status): set<Status> {
    match to
    case Proposed => {Rejected}
    case Accepted => {Proposed, Escalated}
    case Planned => {Accepted}
    case Delegated => {Planned}
    case InProgress => {Planned, Delegated, Blocked, Escalated}
    case Blocked => {Delegated, InProgress, Escalated}
    case EvidenceSubmitted => {InProgress}
    case Verified => {EvidenceSubmitted}
    case Rejected => {Proposed, Blocked, EvidenceSubmitted, Escalated}
    case Closed => {Verified, Rejected}
    case Escalated =>
      {Proposed, Accepted, Planned, Delegated, InProgress, Blocked, EvidenceSubmitted, Verified, Rejected}
  }

  /** The table of exits and that of entrances say the same. */
  lemma EdgesBothWays(a: Status, b: Status)
    ensures b in LegalTransitions(a) <==> a in Predecessors(b)
  {}

  // ── A task that reads show ────────────────────────────────────────────

  /** On a working disk reads show this task, well formed. */
  ghost predicate Standing(disk: Disk, st: State, task: Task) {
    Reliable(disk) && Synced(st) && GetTask(st, task.id) == Some(task) && FieldsOk(task)
  }

  lemma ShownTasksStand(m: Machine, st: State, id: TaskId)
    requires Reliable(m.disk) && Inv(m, st) && GetTask(st, id).Some?
    ensures Standing(m.disk, st, GetTask(st, id).value) && GetTask(st, id).value.id == id
  {
    ReadFieldsAreOk(m, st);
    ReadKeepsIds(st, id);
  }

  /** An event about the task takes it to `next`. */
  lemma EventStands(disk: Disk, st: State, task: Task, e: Event, next: Task)
    requires Standing(disk, st, task) && EventOk(e) && FieldsOk(next) && next.id == task.id
    requires e.Transitioned? || e.EvidenceAdded? || e.OwnerReassigned?
    requires ApplyEvent(ReadGraph(st), e) == UpdateTask(ReadGraph(st), task.id, next)
    ensures Standing(disk, AppendEvent(disk, st, e), next)
  {
    AppendKeepsSync(disk, st, e);
    SyncedRead(st);
    SyncedRead(AppendEvent(disk, st, e));
  }

  function Cited(ref: Ref): EvidenceEntry {
    EvidenceEntry(ref, Other, None)
  }

  function WithCited(task: Task, refs: seq<Ref>): Task {
    task.(evidence := task.evidence + seq(|refs|, i requires 0 <= i < |refs| => Cited(refs[i])))
  }

  predicate RefsOk(refs: seq<Ref>) {
    forall i :: 0 <= i < |refs| ==> RefOk(refs[i])
  }

  // ── Evidence ──────────────────────────────────────────────────────────

  /** Evidence is added exactly to a known task, if it is well formed and somebody adds it. */
  lemma AddingEvidenceIs(disk: Disk, st: State, task: Task, evidence: EvidenceEntry, actor: string)
    requires Standing(disk, st, task)
    ensures var o := AddEvidence(disk, st, task.id, evidence, actor);
      && (o.result.Ok? <==> EvidenceOk(evidence) && actor != "")
      && (o.result.Ok? ==>
            && o.result.value == task.(evidence := task.evidence + [evidence])
            && Standing(disk, o.st, o.result.value))
      && (o.result.Err? ==> o.st == st)
  {
    if EvidenceOk(evidence) && actor != "" {
      EventStands(disk, st, task, EvidenceAdded(actor, task.id, evidence),
                  task.(evidence := task.evidence + [evidence]));
    }
  }

  lemma {:induction false} CitingIs(disk: Disk, st: State, task: Task, refs: seq<Ref>, actor: string)
    requires Standing(disk, st, task)
    ensures var o := PromoteRefs(disk, st, task, refs, actor);
      && (o.result.Ok? <==> refs == [] || (RefsOk(refs) && actor != ""))
      && (o.result.Ok? ==> o.result.value == WithCited(task, refs) && Standing(disk, o.st, o.result.value))
    decreases |refs|
  {
    if refs == [] {
      assert WithCited(task, []) == task;
    } else {
      AddingEvidenceIs(disk, st, task, Cited(refs[0]), actor);
      var added := AddEvidence(disk, st, task.id, Cited(refs[0]), actor);
      if added.result.Ok? {
        CitingIs(disk, added.st, added.result.value, refs[1..], actor);
        CitedInOrder(task, refs);
        assert forall i :: 0 < i < |refs| ==> refs[i] == refs[1..][i - 1];
      }
    }
  }

  lemma CitedInOrder(task: Task, refs: seq<Ref>)
    requires refs != []
    ensures WithCited(WithCited(task, [refs[0]]), refs[1..]) == WithCited(task, refs)
    ensures WithCited(task, [refs[0]]) == task.(evidence := task.evidence + [Cited(refs[0])])
  {}

  // ── Moves ─────────────────────────────────────────────────────────────

  /** What a move asks of the task besides its references. */
  predicate MayMove(task: Task, input: MoveInput) {
    && task.status in Predecessors(input.to) && !IsBlank(input.actor)
    && (task.status.Escalated? ==> input.actor == "ceo" || input.actor == "external-cto")
    && (input.note.Some? ==> input.note.value != "")
    && (input.to.Verified? || input.to.EvidenceSubmitted? ==> input.evidenceRefs != [])
  }

  function Moved(task: Task, input: MoveInput): Task {
    task.(status := input.to, transitions := task.transitions + [
      Transition(Some(task.status), input.to, input.ts, input.actor, input.evidenceRefs, input.note)])
  }

  lemma TransitionIs(task: Task, input: MoveInput)
    requires FieldsOk(task) && RefsOk(input.evidenceRefs)
    ensures var moved := ApplyTransition(task, input);
      && (moved.Ok? <==>
            MayMove(task, input) && (input.to.Verified? || input.to.Closed? ==> task.evidence != []))
      && (moved.Ok? ==> moved.value == Moved(task, input) && FieldsOk(moved.value))
  {
    EdgesBothWays(task.status, input.to);
    assert IsBlank("");
  }

  /** Why a transition fails: no actor, no such exit, no right to leave escalation, or a flaw
      of the transition itself, in this order. */
  lemma WhyTransitionsFail(task: Task, input: MoveInput)
    ensures var moved := ApplyTransition(task, input);
      moved.Err? ==>
        moved.error ==
          if IsBlank(input.actor) then InvalidTransition
          else if task.status !in Predecessors(input.to) then IllegalTransition
          else if task.status.Escalated? && input.actor != "ceo" && input.actor != "external-cto"
            then UnauthorizedTransition
          else InvalidTransition
  {
    EdgesBothWays(task.status, input.to);
  }

  /** Verdicts are not for the public, and unknown tasks are not moved, whatever the disk. */
  lemma MovesThatAreRefused(disk: Disk, st: State, input: MoveInput)
    ensures GetTask(st, input.taskId).None? ==> MoveTask(disk, st, input) == Outcome(st, Err(UnknownTask))
    ensures GetTask(st, input.taskId).Some? && (input.to.Verified? || input.to.Rejected?) ==>
      MoveTask(disk, st, input) == Outcome(st, Err(HandAuthority))
  {}

  lemma FinishingIs(disk: Disk, st: State, task: Task, input: MoveInput)
    requires Standing(disk, st, task) && input.taskId == task.id && RefsOk(input.evidenceRefs)
    ensures var o := FinishMove(disk, st, task, input);
      && (o.result.Ok? <==>
            MayMove(task, input) && (input.to.Verified? || input.to.Closed? ==> task.evidence != []))
      && (o.result.Ok? ==> o.result.value == Moved(task, input) && Standing(disk, o.st, o.result.value))
      && (o.result.Err? ==> o.st == st)
  {
    TransitionIs(task, input);
    var moved := ApplyTransition(task, input);
    if moved.Ok? {
      var t := Transition(Some(task.status), input.to, input.ts, input.actor, input.evidenceRefs, input.note);
      assert moved.value.transitions[|moved.value.transitions| - 1] == t;
      assert TransitionOk(moved.value.transitions[|moved.value.transitions| - 1]);
      assert !IsBlank("") || input.actor != "";
      EventStands(disk, st, task, Transitioned(input.actor, task.id, t), moved.value);
    }
  }

  lemma MovesAreTwoSteps(disk: Disk, st: State, task: Task, input: MoveInput)
    requires GetTask(st, input.taskId) == Some(task) && !input.to.Verified? && !input.to.Rejected?
    ensures var promoted := PromoteRefs(disk, st, task, input.evidenceRefs, input.actor);
      MoveTask(disk, st, input)
      == if promoted.result.Err? then promoted else FinishMove(disk, promoted.st, promoted.result.value, input)
  {}

  /**
   * A public move succeeds exactly if the task is where it may enter from, somebody entitled
   * makes it, its references are well formed, and there is the evidence it needs; it never
   * makes a verdict.  The task then shows the new status and the references as evidence.
   */
  lemma MovingIs(disk: Disk, st: State, task: Task, input: MoveInput)
    requires Standing(disk, st, task) && input.taskId == task.id
    ensures var o := MoveTask(disk, st, input);
      && (o.result.Ok? <==>
            && !input.to.Verified? && !input.to.Rejected? && MayMove(task, input) && RefsOk(input.evidenceRefs)
            && (input.to.Closed? ==> task.evidence != [] || input.evidenceRefs != []))
      && (o.result.Ok? ==>
            && o.result.value == Moved(WithCited(task, input.evidenceRefs), input)
            && Standing(disk, o.st, o.result.value))
      && (o.result.Err? && input.evidenceRefs == [] ==> o.st == st)
  {
    if !input.to.Verified? && !input.to.Rejected? {
      CitingIs(disk, st, task, input.evidenceRefs, input.actor);
      MovesAreTwoSteps(disk, st, task, input);
      var promoted := PromoteRefs(disk, st, task, input.evidenceRefs, input.actor);
      if promoted.result.Ok? {
        FinishingIs(disk, promoted.st, promoted.result.value, input);
      } else {
        assert IsBlank("");
      }
    }
  }

  // ── Owners and hands ──────────────────────────────────────────────────

  lemma OwningIs(disk: Disk, st: State, task: Task, owner: string, actor: string, reason: string)
    requires Standing(disk, st, task)
    ensures var o := ReassignOwnerAsVerifier(disk, st, task.id, owner, actor, reason);
      && (o.result.Ok? <==> !IsBlank(owner) && !IsBlank(actor) && !IsBlank(reason))
      && (o.result.Ok? ==> o.result.value == task.(owner := owner) && Standing(disk, o.st, o.result.value))
      && (o.result.Err? ==> o.st == st)
  {
    assert IsBlank("");
    if !IsBlank(owner) && !IsBlank(actor) && !IsBlank(reason) {
      EventStands(disk, st, task, OwnerReassigned(actor, task.id, task.owner, owner, reason), task.(owner := owner));
    }
  }

  /** A task changes hands publicly to anybody but a hand. */
  lemma ReassigningIs(disk: Disk, st: State, task: Task, owner: string, actor: string, reason: string)
    requires Standing(disk, st, task)
    ensures var o := ReassignOwner(disk, st, task.id, owner, actor, reason);
      && (o.result.Ok? <==>
            !IsBlank(owner) && !IsBlank(actor) && !IsBlank(reason) && !(|owner| >= 5 && owner[..5] == "hand:"))
      && (o.result.Ok? ==> o.result.value == task.(owner := owner) && Standing(disk, o.st, o.result.value))
      && (o.result.Err? ==> o.st == st)
  {
    OwningIs(disk, st, task, owner, actor, reason);
  }

  lemma Lettered(s: string)
    requires s != "" && !IsWhitespace(s[0])
    ensures !IsBlank(s)
  {}

  function Assigned(task: Task, handId: string, actor: string, ts: int): Task {
    Moved(task, MoveInput(task.id, Delegated, actor, [], Some("assigned to hand:" + handId), ts))
      .(owner := "hand:" + handId)
  }

  /**
   * A task is handed to a registered hand exactly if it is planned, somebody does it, and a
   * hand that needs the foreground is attended.  The task is then delegated and owned by
   * that hand; a refusal changes nothing.
   */
  lemma AssigningIs(m: Machine, st: State, task: Task, handId: string, actor: string, unattended: bool, ts: int)
    requires Standing(m.disk, st, task)
    ensures var o := AssignHand(m.policy, m.disk, st, task.id, handId, actor, unattended, ts);
      && (o.result.Ok? <==>
            && m.policy.hands(handId).Some? && !(unattended && m.policy.hands(handId).value.foregroundOnly)
            && task.status.Planned? && !IsBlank(actor))
      && (o.result.Ok? ==>
            o.result.value == Assigned(task, handId, actor, ts) && Standing(m.disk, o.st, o.result.value))
      && (o.result.Err? ==> o.st == st)
  {
    DelegatingIs(m.disk, st, task, handId, actor, ts);
  }

  function DelegatedTo(disk: Disk, st: State, id: TaskId, handId: string, actor: string, ts: int): Outcome<Task> {
    MoveTask(disk, st, MoveInput(id, Delegated, actor, [], Some("assigned to hand:" + handId), ts))
  }

  lemma DelegatingIs(disk: Disk, st: State, task: Task, handId: string, actor: string, ts: int)
    requires Standing(disk, st, task)
    ensures var moved := DelegatedTo(disk, st, task.id, handId, actor, ts);
      && (moved.result.Ok? <==> task.status.Planned? && !IsBlank(actor))
      && (moved.result.Err? ==> moved.st == st)
      && (moved.result.Ok? ==>
            var o := ReassignOwnerAsVerifier(
                       disk, moved.st, task.id, "hand:" + handId, actor, "assigned to hand " + handId);
            && o.result == Ok(Assigned(task, handId, actor, ts)) && Standing(disk, o.st, o.result.value))
  {
    MovedToDelegated(disk, st, task, handId, actor, ts);
    var moved := DelegatedTo(disk, st, task.id, handId, actor, ts);
    if moved.result.Ok? {
      GivingToAHand(disk, moved.st, moved.result.value, handId, actor);
    }
  }

  lemma MovedToDelegated(disk: Disk, st: State, task: Task, handId: string, actor: string, ts: int)
    requires Standing(disk, st, task)
    ensures var moved := DelegatedTo(disk, st, task.id, handId, actor, ts);
      && (moved.result.Ok? <==> task.status.Planned? && !IsBlank(actor))
      && (moved.result.Err? ==> moved.st == st)
      && (moved.result.Ok? ==>
            && Assigned(task, handId, actor, ts) == moved.result.value.(owner := "hand:" + handId)
            && moved.result.value.id == task.id && Standing(disk, moved.st, moved.result.value))
  {
    MovingIs(disk, st, task, MoveInput(task.id, Delegated, actor, [], Some("assigned to hand:" + handId), ts));
    assert WithCited(task, []) == task;
  }

  lemma GivingToAHand(disk: Disk, st: State, task: Task, handId: string, actor: string)
    requires Standing(disk, st, task) && !IsBlank(actor)
    ensures var o := ReassignOwnerAsVerifier(
                       disk, st, task.id, "hand:" + handId, actor, "assigned to hand " + handId);
      o.result == Ok(task.(owner := "hand:" + handId)) && Standing(disk, o.st, o.result.value)
  {
    Lettered("hand:" + handId);
    Lettered("assigned to hand " + handId);
    OwningIs(disk, st, task, "hand:" + handId, actor, "assigned to hand " + handId);
  }

  /** A hand that is not registered, or needs the foreground, gets nothing, whatever the disk;
      and no hand gets what another is at work on. */
  lemma HandsThatMayNotWork(m: Machine, st: State, id: TaskId, handId: string, actor: string, unattended: bool, ts: int)
    ensures var o := AssignHand(m.policy, m.disk, st, id, handId, actor, unattended, ts);
      && (m.policy.hands(handId).None? ==> o == Outcome(st, Err(HandAdapter)))
      && (m.policy.hands(handId).Some? && unattended && m.policy.hands(handId).value.foregroundOnly ==>
            o == Outcome(st, Err(HandContext)))
      && (GetTask(st, id).Some? && m.policy.hands(handId).Some? && StartsWith(GetTask(st, id).value.owner, "hand:")
          && (GetTask(st, id).value.status.Delegated? || GetTask(st, id).value.status.InProgress?) ==>
            o == Outcome(st, Err(HandContext)))
  {}

  /** A hand's task is aborted exactly while it is delegated or in progress; it is then blocked. */
  lemma AbortingIs(disk: Disk, st: State, task: Task, actor: string, reason: string, ts: int)
    requires Standing(disk, st, task)
    ensures var o := AbortHandTask(disk, st, task.id, actor, reason, ts);
      && (o.result.Ok? <==> (task.status.Delegated? || task.status.InProgress?) && !IsBlank(actor))
      && (o.result.Ok? ==>
            && o.result.value.status.Blocked? && o.result.value.evidence == task.evidence
            && Standing(disk, o.st, o.result.value) && o.result.value.id == task.id)
      && (o.result.Err? ==> o.st == st)
  {
    MovingIs(disk, st, task, MoveInput(task.id, Blocked, actor, [], Some("hand task aborted: " + reason), ts));
    assert WithCited(task, []) == task;
  }

  // ── Receipts ──────────────────────────────────────────────────────────

  /** What a receipt needs, kind by kind. */
  lemma WhatAReceiptNeeds(r: Receipt)
    ensures ReceiptOk(r) <==>
      && |r.handId| > 0 && |r.submittedBy| > 0 && |r.claimedResult| > 0 && (forall a :: a in r.artifacts ==> |a| > 0)
      && r.ref != Some("") && r.command != Some("") && r.expectedSubstring != Some("")
      && (match r.kind
          case FileExists => r.ref.Some?
          case CommitExists => r.ref.Some?
          case FileContains => r.ref.Some? && r.expectedSubstring.Some? && |Trim(r.expectedSubstring.value)| > 2
          case CommandOutputMatch =>
            r.command.Some? && r.expectedSubstring.Some? && |Trim(r.expectedSubstring.value)| > 2
          case BrowserAction => |r.actions| > 0 && |r.actionResults| > 0
          case Narrative => true)
  {}

  /** The text is one of those a receipt states. */
  predicate States(r: Receipt, text: string) {
    text == r.claimedResult || r.expectedSubstring == Some(text) || r.command == Some(text) || r.ref == Some(text)
    || text in r.artifacts
  }

  /** Some text of the receipt looks like a secret. */
  ghost predicate Leaks(policy: Policy, r: Receipt) {
    exists text :: States(r, text) && text != "" && policy.hasSecretShape(text)
  }

  lemma LeaksIff(policy: Policy, r: Receipt)
    ensures HasSecrets(policy, r) <==> Leaks(policy, r)
  {
    var fields := TextFields(r);
    if text :| States(r, text) && text != "" && policy.hasSecretShape(text) {
      FieldOf(r, text);
    }
    if HasSecrets(policy, r) {
      var i :| 0 <= i < |fields| && fields[i].Some? && fields[i].value != "" && policy.hasSecretShape(fields[i].value);
      assert i >= 4 ==> fields[i] == Some(r.artifacts[i - 4]);
      assert i < 4 ==> fields[i] == [Some(r.claimedResult), r.expectedSubstring, r.command, r.ref][i];
      assert States(r, fields[i].value);
    }
  }

  lemma FieldOf(r: Receipt, text: string)
    requires States(r, text)
    ensures exists i :: 0 <= i < |TextFields(r)| && TextFields(r)[i] == Some(text)
  {
    var fields := TextFields(r);
    assert fields[0] == Some(r.claimedResult) && fields[1] == r.expectedSubstring;
    assert fields[2] == r.command && fields[3] == r.ref;
    if text in r.artifacts {
      var k :| 0 <= k < |r.artifacts| && r.artifacts[k] == text;
      assert fields[4 + k] == Some(text);
    }
  }

  /** A receipt is refused, and nothing changes, if it is malformed, of another task, leaks a
      secret, or is for no known task -- whatever the disk. */
  lemma ReceiptsThatAreRefused(m: Machine, st: State, id: TaskId, r: Receipt, ts: int)
    requires !ReceiptOk(r) || r.taskId != id || Leaks(m.policy, r) || GetTask(st, id).None?
    ensures var o := SubmitReceipt(m.policy, m.disk, st, id, r, ts);
      o == Outcome(st, Err(if !ReceiptOk(r) then InvalidInput else if r.taskId != id then ReceiptTaskMismatch
                           else if Leaks(m.policy, r) then ReceiptSecret else HandAdapter))
  {
    LeaksIff(m.policy, r);
  }

  predicate Submittable(m: Machine, task: Task, r: Receipt) {
    && ReceiptOk(r) && r.taskId == task.id && !HasSecrets(m.policy, r) && !AlreadySubmitted(task, r)
  }

  function ReceiptEntry(r: Receipt): EvidenceEntry {
    EvidenceEntry(Digest(r), ToolReceipt, Some(Json(r)))
  }

  function HandingIn(id: TaskId, r: Receipt, ts: int): MoveInput {
    MoveInput(id, EvidenceSubmitted, r.submittedBy, [Digest(r)], Some("receipt kind"), ts)
  }

  lemma MayHandIn(task: Task, r: Receipt, ts: int)
    ensures MayMove(task, HandingIn(task.id, r, ts)) <==> task.status.InProgress? && !IsBlank(r.submittedBy)
    ensures RefsOk(HandingIn(task.id, r, ts).evidenceRefs)
    ensures var handed := Moved(WithCited(task, [Digest(r)]), HandingIn(task.id, r, ts));
      && handed.status.EvidenceSubmitted? && handed.id == task.id && handed.owner == task.owner
      && handed.title == task.title && handed.evidence == task.evidence + [Cited(Digest(r))]
  {
    CitedInOrder(task, [Digest(r)]);
  }

  lemma HandingInIs(disk: Disk, st: State, task: Task, r: Receipt, ts: int)
    requires Standing(disk, st, task) && r.submittedBy != ""
    ensures var o := MoveTask(disk, st, HandingIn(task.id, r, ts));
      && (o.result.Ok? <==> task.status.InProgress? && !IsBlank(r.submittedBy))
      && (o.result.Ok? ==>
            && o.result.value.status.EvidenceSubmitted? && Standing(disk, o.st, o.result.value)
            && o.result.value.id == task.id && o.result.value.owner == task.owner
            && o.result.value.title == task.title
            && o.result.value.evidence == task.evidence + [Cited(Digest(r))])
  {
    MayHandIn(task, r, ts);
    MovingIs(disk, st, task, HandingIn(task.id, r, ts));
  }

  lemma RecordingIs(disk: Disk, st: State, task: Task, r: Receipt, ts: int)
    requires Standing(disk, st, task) && r.submittedBy != ""
    ensures var o := RecordReceipt(disk, st, task.id, r, ts);
      && (o.result.Ok? <==> task.status.InProgress? && !IsBlank(r.submittedBy))
      && (o.result.Ok? ==>
            && o.result.value.status.EvidenceSubmitted? && Standing(disk, o.st, o.result.value)
            && o.result.value.id == task.id && o.result.value.owner == task.owner
            && o.result.value.title == task.title
            && o.result.value.evidence == task.evidence + [ReceiptEntry(r)] + [Cited(Digest(r))])
  {
    AddingEvidenceIs(disk, st, task, ReceiptEntry(r), r.submittedBy);
    var added := AddEvidence(disk, st, task.id, ReceiptEntry(r), r.submittedBy);
    HandingInIs(disk, added.st, added.result.value, r, ts);
  }

  lemma StartingIs(disk: Disk, st: State, task: Task, r: Receipt, ts: int)
    requires Standing(disk, st, task)
    ensures var o := StartWork(disk, st, task, task.id, r, ts);
      && (o.result.Ok? <==> (task.status.Delegated? ==> !IsBlank(r.submittedBy)))
      && (o.result.Ok? ==>
            && Standing(disk, o.st, o.result.value) && o.result.value.id == task.id
            && o.result.value.owner == task.owner && o.result.value.title == task.title
            && o.result.value.status == (if task.status.Delegated? then InProgress else task.status)
            && o.result.value.evidence == task.evidence)
      && (o.result.Err? ==> o.st == st)
  {
    if task.status.Delegated? {
      MovingIs(disk, st, task, MoveInput(
        task.id, InProgress, r.submittedBy, [], Some("receipt submission requires in-progress"), ts));
      assert WithCited(task, []) == task;
    }
  }

  /**
   * A new receipt is submitted exactly while its task is delegated or in progress; the task
   * is then submitted, with this receipt as its newest.
   */
  lemma SubmittingIs(m: Machine, st: State, task: Task, r: Receipt, ts: int)
    requires Standing(m.disk, st, task) && Submittable(m, task, r)
    ensures var o := SubmitReceipt(m.policy, m.disk, st, task.id, r, ts);
      && (o.result.Ok? <==> (task.status.Delegated? || task.status.InProgress?) && !IsBlank(r.submittedBy))
      && (o.result.Ok? ==>
            && o.result.value.status.EvidenceSubmitted? && Standing(m.disk, o.st, o.result.value)
            && o.result.value.id == task.id && o.result.value.owner == task.owner && o.result.value.title == task.title
            && LatestReceipt(o.result.value.evidence) == Some(ReceiptEntry(r)))
  {
    StartingIs(m.disk, st, task, r, ts);
    var started := StartWork(m.disk, st, task, task.id, r, ts);
    if started.result.Ok? {
      RecordingIs(m.disk, started.st, started.result.value, r, ts);
      NewestOfTwo(task.evidence, ReceiptEntry(r), Cited(Digest(r)));
    }
  }

  lemma NewestOfTwo(evidence: seq<EvidenceEntry>, receipt: EvidenceEntry, cited: EvidenceEntry)
    requires receipt.kind.ToolReceipt? && !cited.kind.ToolReceipt?
    ensures LatestReceipt(evidence + [receipt] + [cited]) == Some(receipt)
  {
    assert (evidence + [receipt] + [cited])[..|evidence| + 1] == evidence + [receipt];
  }

  // ── Creation ──────────────────────────────────────────────────────────

  /** "gol_", the first character of the id proper, and the rest. */
  predicate Spells(id: string, first: char, rest: string) {
    && id == "gol_" + [first] + rest && 1 <= |rest| <= 80 && IdChar(first)
    && forall c :: c in rest ==> IdChar(c) || c in {'.', '_', '-'}
  }

  lemma GoalIdsAreSpelt(id: string)
    requires GoalIdOk(id)
    ensures |id| > 5 && Spells(id, id[4], id[5..])
  {
    assert id == "gol_" + [id[4]] + id[5..];
    assert forall c :: c in id[5..] ==> IdChar(c) || c in {'.', '_', '-'};
  }

  lemma WhatIsSpeltIsAGoalId(id: string, first: char, rest: string)
    requires Spells(id, first, rest)
    ensures GoalIdOk(id)
  {
    assert id[..4] == "gol_" && id[4] == first;
    assert forall i :: 5 <= i < |id| ==> id[i] == rest[i - 5] && id[i] in rest;
  }

  /** The id of a goal: "gol_", a letter or digit, and up to eighty of those or of ". _ -", at least one. */
  lemma GoalIdsAre(id: string)
    ensures GoalIdOk(id) <==> exists first: char, rest: string :: Spells(id, first, rest)
  {
    if GoalIdOk(id) {
      GoalIdsAreSpelt(id);
    }
    if first: char, rest: string :| Spells(id, first, rest) {
      WhatIsSpeltIsAGoalId(id, first, rest);
    }
  }

  /** The key a task is found under: the one asked for, else that of its source. */
  predicate KeyAsked(input: TaskInput, key: string) {
    if input.idempotencyKey.Some? then key == input.idempotencyKey.value
    else key == KindName(input.source.kind) + ":" + input.source.ref
  }

  /** A new task is just what was asked for: proposed, without evidence, with its creation as history. */
  lemma NewTasksAre(disk: Disk, st: State, input: TaskInput)
    ensures var o := CreateTask(disk, st, input);
      && (o.result.Ok? && o.result.value.created ==>
            var task := o.result.value.task;
            && task.id == st.nextTask && task.status.Proposed? && task.evidence == [] && task.goalId == input.goalId
            && task.title == input.title && task.owner == input.owner && task.riskClass == input.riskClass
            && task.source == input.source && task.createdAt == input.ts && KeyAsked(input, task.idempotencyKey)
            && |task.transitions| == 1 && task.transitions[0].from.None? && task.transitions[0].to.Proposed?
            && task.transitions[0].actor == input.actor && task.transitions[0].ts == input.ts)
      && (o.result.Ok? <==>
            && !(|input.owner| >= 5 && input.owner[..5] == "hand:") && GoalIdOk(input.goalId)
            && input.title != "" && input.source.ref != "" && input.owner != "" && input.actor != ""
            && input.idempotencyKey != Some(""))
  {
    var task := NewTask(input, st.nextTask);
    assert task.idempotencyKey == "" ==> input.idempotencyKey == Some("");
    assert TransitionOk(task.transitions[0]) <==> input.actor != "";
  }

  /** A goal is created exactly if it is well formed and somebody creates it, or if it is there. */
  lemma CreatingAGoalIs(disk: Disk, st: State, goal: Goal, actor: string)
    ensures var o := CreateGoal(disk, st, goal, actor);
      && (o.result.Ok? <==>
            || goal.id in ReadGraph(st).goals
            || (GoalIdOk(goal.id) && goal.title != "" && goal.source.ref != "" && actor != ""))
      && (o.result.Ok? ==>
            o.result.value == if goal.id in ReadGraph(st).goals then ReadGraph(st).goals[goal.id] else goal)
      && (goal.id in ReadGraph(st).goals ==> o.st == st)
  {}
}
