/**
 * Which status a verification leaves (src/hands/exec-graph-adapter.ts:348-405): on a
 * working disk, that of the world outside as it was looked at, receipt kind by receipt kind.
 */
module ExecVerdicts {
  import opened Common
  import opened Text
  import opened HandContract
  import opened HandVerdicts
  import opened ExecContracts
  import opened ExecLedger
  import opened ExecApi
  import opened ExecSafety
  import opened ExecReconciliation

  /** The newest receipt is the one that no other comes after. */
  lemma {:induction false} TheNewestReceipt(evidence: seq<EvidenceEntry>, i: nat)
    requires i < |evidence| && evidence[i].kind.ToolReceipt?
    requires forall j :: i < j < |evidence| ==> !evidence[j].kind.ToolReceipt?
    ensures LatestReceipt(evidence) == Some(evidence[i])
  {
    if i < |evidence| - 1 {
      TheNewestReceipt(evidence[..|evidence| - 1], i);
    }
  }

  /** Reads show the task submitted, with this receipt as its newest. */
  predicate Submitted(st: State, id: TaskId, e: EvidenceEntry, r: Receipt) {
    && GetTask(st, id).Some? && GetTask(st, id).value.status.EvidenceSubmitted?
    && LatestReceipt(GetTask(st, id).value.evidence) == Some(e) && ParseNote(e.note) == Some(r)
  }

  predicate Shows(st: State, id: TaskId, result: Result<Task, Error>, status: Status) {
    && result.Ok? && result.value.status == status
    && id in ReadGraph(st).tasks && ReadGraph(st).tasks[id] == result.value
  }

  /** On a working disk reads show this task, submitted and well formed. */
  ghost predicate Ready(disk: Disk, st: State, task: Task) {
    && Reliable(disk) && Synced(st) && GetTask(st, task.id) == Some(task)
    && FieldsOk(task) && task.status.EvidenceSubmitted?
  }

  lemma ShownTasksAreReady(m: Machine, st: State, id: TaskId)
    requires Reliable(m.disk) && Inv(m, st) && GetTask(st, id).Some? && GetTask(st, id).value.status.EvidenceSubmitted?
    ensures Ready(m.disk, st, GetTask(st, id).value) && GetTask(st, id).value.id == id
  {
    ReadFieldsAreOk(m, st);
    ReadKeepsIds(st, id);
  }

  predicate Verdict(task: Task, input: MoveInput) {
    && input.taskId == task.id && !IsBlank(input.actor) && NonEmptyIfPresent(input.note)
    && (forall i :: 0 <= i < |input.evidenceRefs| ==> RefOk(input.evidenceRefs[i]))
    && (input.to.Rejected? || (input.to.Verified? && input.evidenceRefs != []))
  }

  lemma VerdictIsLegal(task: Task, input: MoveInput)
    requires FieldsOk(task) && task.status.EvidenceSubmitted? && Verdict(task, input)
    requires input.to.Verified? ==> task.evidence != []
    ensures ApplyTransition(task, input).Ok? && ApplyTransition(task, input).value.status == input.to
  {
    var t := Transition(Some(task.status), input.to, input.ts, input.actor, input.evidenceRefs, input.note);
    assert input.actor != "";
    assert TransitionOk(t) && TaskOk(task.(status := input.to, transitions := task.transitions + [t]));
  }

  lemma FinishedMoveIs(disk: Disk, st: State, task: Task, input: MoveInput)
    requires Ready(disk, st, task) && Verdict(task, input) && (input.to.Verified? ==> task.evidence != [])
    ensures var o := FinishMove(disk, st, task, input); Shows(o.st, input.taskId, o.result, input.to)
  {
    VerdictIsLegal(task, input);
    ReliableFinish(disk, st, task, input);
  }

  lemma CitingKeepsReady(disk: Disk, st: State, task: Task, ref: Ref, actor: string)
    requires Ready(disk, st, task) && RefOk(ref) && actor != ""
    ensures var o := AddEvidence(disk, st, task.id, EvidenceEntry(ref, Other, None), actor);
      && o.result.Ok? && Ready(disk, o.st, o.result.value) && o.result.value.id == task.id
      && o.result.value.evidence != []
  {
    ReliableAddEvidence(disk, st, task.id, EvidenceEntry(ref, Other, None), actor);
  }

  lemma {:induction false} PromotionKeepsReady(disk: Disk, st: State, task: Task, refs: seq<Ref>, actor: string)
    requires Ready(disk, st, task) && actor != "" && forall i :: 0 <= i < |refs| ==> RefOk(refs[i])
    ensures var o := PromoteRefs(disk, st, task, refs, actor);
      && o.result.Ok? && Ready(disk, o.st, o.result.value) && o.result.value.id == task.id
      && (refs != [] || task.evidence != [] ==> o.result.value.evidence != [])
    decreases |refs|
  {
    if refs != [] {
      CitingKeepsReady(disk, st, task, refs[0], actor);
      var added := AddEvidence(disk, st, task.id, EvidenceEntry(refs[0], Other, None), actor);
      PromotionKeepsReady(disk, added.st, added.result.value, refs[1..], actor);
    }
  }

  /** A verdict that is reached is recorded and shown. */
  lemma VerdictIsShown(disk: Disk, st: State, task: Task, input: MoveInput)
    requires Ready(disk, st, task) && Verdict(task, input)
    ensures var o := MoveTaskAsVerifier(disk, st, input); Shows(o.st, input.taskId, o.result, input.to)
  {
    assert input.actor != "";
    PromotionKeepsReady(disk, st, task, input.evidenceRefs, input.actor);
    var promoted := PromoteRefs(disk, st, task, input.evidenceRefs, input.actor);
    FinishedMoveIs(disk, promoted.st, promoted.result.value, input);
  }

  // ── The status a verification leaves ──────────────────────────────────

  lemma NewestReceiptIsCitable(st: State, id: TaskId, e: EvidenceEntry, r: Receipt)
    requires Submitted(st, id, e, r) && FieldsOk(GetTask(st, id).value)
    ensures RefOk(e.ref)
  {}

  lemma VerdictAfterLooking(disk: Disk, st: State, task: Task, input: MoveInput)
    requires Ready(disk, st, task) && Verdict(task, input)
    ensures var o := MoveTaskAsVerifier(disk, st.(ticks := st.ticks + 2), input);
      Shows(o.st, input.taskId, o.result, input.to)
  {
    var judged := st.(ticks := st.ticks + 2);
    assert ReadGraph(judged) == ReadGraph(st);
    VerdictIsShown(disk, judged, task, input);
  }

  function Conclusion(task: Task, ref: Ref, actor: string, ts: int, accepted: bool): MoveInput {
    if accepted then MoveInput(task.id, Verified, actor, [ref], Some("verified"), ts)
    else MoveInput(task.id, Rejected, actor, [], Some("rejected"), ts)
  }

  lemma ConcludingIs(m: Machine, st: State, task: Task, ref: Ref, r: Receipt, actor: string, ts: int)
    ensures var accepted := Accepts(m.policy, m.env, st.ticks, RiskOf(m.policy, task), r);
      Conclude(m.policy, m.env, m.disk, st, task, ref, r, task.id, actor, ts)
      == MoveTaskAsVerifier(m.disk, st.(ticks := st.ticks + 2), Conclusion(task, ref, actor, ts, accepted))
  {}

  lemma ConclusionsAreVerdicts(task: Task, ref: Ref, actor: string, ts: int, accepted: bool)
    requires RefOk(ref) && !IsBlank(actor)
    ensures Verdict(task, Conclusion(task, ref, actor, ts, accepted))
  {}

  lemma ConcludingShows(m: Machine, st: State, task: Task, e: EvidenceEntry, r: Receipt, actor: string, ts: int)
    requires Ready(m.disk, st, task) && RefOk(e.ref) && !IsBlank(actor)
    ensures var o := Conclude(m.policy, m.env, m.disk, st, task, e.ref, r, task.id, actor, ts);
      var accepted := Accepts(m.policy, m.env, st.ticks, RiskOf(m.policy, task), r);
      Shows(o.st, task.id, o.result, if accepted then Verified else Rejected)
  {
    var accepted := Accepts(m.policy, m.env, st.ticks, RiskOf(m.policy, task), r);
    ConcludingIs(m, st, task, e.ref, r, actor, ts);
    ConclusionsAreVerdicts(task, e.ref, actor, ts, accepted);
    VerdictAfterLooking(m.disk, st, task, Conclusion(task, e.ref, actor, ts, accepted));
  }

  predicate LowRiskTask(m: Machine, st: State, id: TaskId) {
    GetTask(st, id).Some? && RiskOf(m.policy, GetTask(st, id).value) == LowRisk
  }

  /** Accepted at the first look and, unless the task is of low risk, at the second. */
  predicate AcceptedTwice(m: Machine, st: State, task: Task, r: Receipt) {
    && Verify(m.policy, m.env(st.ticks), r)
    && (RiskOf(m.policy, task) == LowRisk || Verify(m.policy, m.env(st.ticks + 1), r))
  }

  lemma AcceptingIsTwice(m: Machine, st: State, task: Task, r: Receipt)
    ensures Accepts(m.policy, m.env, st.ticks, RiskOf(m.policy, task), r) <==> AcceptedTwice(m, st, task, r)
  {
    TheSecondLookConfirms(m.policy, m.env(st.ticks), m.env(st.ticks + 1), RiskOf(m.policy, task), r);
  }

  lemma VerifyingIs(m: Machine, st: State, id: TaskId, e: EvidenceEntry, r: Receipt, actor: string, ts: int)
    requires Submitted(st, id, e, r)
    ensures VerifyAndTransition(m.policy, m.env, m.disk, st, id, actor, ts)
         == Conclude(m.policy, m.env, m.disk, st, GetTask(st, id).value, e.ref, r, id, actor, ts)
  {}

  lemma ReadyTasksGetTheirVerdict(m: Machine, st: State, task: Task, e: EvidenceEntry, r: Receipt, actor: string,
                                  ts: int)
    requires Ready(m.disk, st, task) && Submitted(st, task.id, e, r) && !IsBlank(actor)
    ensures var o := VerifyAndTransition(m.policy, m.env, m.disk, st, task.id, actor, ts);
      Shows(o.st, task.id, o.result, if AcceptedTwice(m, st, task, r) then Verified else Rejected)
  {
    NewestReceiptIsCitable(st, task.id, e, r);
    AcceptingIsTwice(m, st, task, r);
    VerifyingIs(m, st, task.id, e, r, actor, ts);
    ConcludingShows(m, st, task, e, r, actor, ts);
  }

  /** The status a verification leaves: verified if the receipt was accepted at the first look
      and, unless the task is of low risk, at the second; else rejected. */
  lemma TheVerdictIs(m: Machine, st: State, id: TaskId, e: EvidenceEntry, r: Receipt, actor: string, ts: int)
    requires Reliable(m.disk) && Inv(m, st) && Submitted(st, id, e, r) && !IsBlank(actor)
    ensures var o := VerifyAndTransition(m.policy, m.env, m.disk, st, id, actor, ts);
      Shows(o.st, id, o.result, if AcceptedTwice(m, st, GetTask(st, id).value, r) then Verified else Rejected)
  {
    ShownTasksAreReady(m, st, id);
    ReadyTasksGetTheirVerdict(m, st, GetTask(st, id).value, e, r, actor, ts);
  }

  /** Verified at both looks, or at the first alone if the task is of low risk. */
  predicate Twice(m: Machine, st: State, id: TaskId, first: bool, second: bool) {
    first && (LowRiskTask(m, st, id) || second)
  }

  /** The status `VerifyAndTransition` leaves. */
  predicate Leaves(m: Machine, st: State, id: TaskId, actor: string, ts: int, verified: bool) {
    var o := VerifyAndTransition(m.policy, m.env, m.disk, st, id, actor, ts);
    Shows(o.st, id, o.result, if verified then Verified else Rejected)
  }

  /** What is asked of the task before a verification: it is submitted, and somebody verifies it. */
  ghost predicate Asked(m: Machine, st: State, id: TaskId, e: EvidenceEntry, r: Receipt, actor: string) {
    Reliable(m.disk) && Inv(m, st) && Submitted(st, id, e, r) && !IsBlank(actor)
  }

  lemma ReadingsDecide(
    m: Machine, st: State, id: TaskId, e: EvidenceEntry, r: Receipt, actor: string, ts: int, first: bool, second: bool)
    requires Asked(m, st, id, e, r, actor)
    requires Verify(m.policy, m.env(st.ticks), r) == first && Verify(m.policy, m.env(st.ticks + 1), r) == second
    ensures Leaves(m, st, id, actor, ts, Twice(m, st, id, first, second))
  {
    TwiceIs(m, st, id, r, first, second);
    TheVerdictIs(m, st, id, e, r, actor, ts);
  }

  lemma TwiceIs(m: Machine, st: State, id: TaskId, r: Receipt, first: bool, second: bool)
    requires GetTask(st, id).Some?
    requires Verify(m.policy, m.env(st.ticks), r) == first && Verify(m.policy, m.env(st.ticks + 1), r) == second
    ensures Twice(m, st, id, first, second) == AcceptedTwice(m, st, GetTask(st, id).value, r)
  {}

  /** A task submitted with a file is verified exactly if the file is there when it is looked for. */
  lemma AFileDecides(m: Machine, st: State, id: TaskId, e: EvidenceEntry, r: Receipt, actor: string, ts: int)
    requires Asked(m, st, id, e, r, actor) && r.kind.FileExists? && Unguarded(m.policy, r)
    ensures r.ref.Some? && Leaves(m, st, id, actor, ts,
              Twice(m, st, id, m.env(st.ticks).fileExists(r.ref.value), m.env(st.ticks + 1).fileExists(r.ref.value)))
  {
    FileAccepted(m.policy, m.env(st.ticks), r);
    FileAccepted(m.policy, m.env(st.ticks + 1), r);
    ReadingsDecide(m, st, id, e, r, actor, ts, m.env(st.ticks).fileExists(r.ref.value),
                   m.env(st.ticks + 1).fileExists(r.ref.value));
  }

  lemma FileAccepted(policy: Policy, env: Environment, r: Receipt)
    requires ReceiptOk(r) && r.kind.FileExists? && Unguarded(policy, r)
    ensures Verify(policy, env, r) == env.fileExists(r.ref.value)
  {
    FileExistsTurnsOnItsFile(policy, env, r);
    if env.fileExists(r.ref.value) {
      OnlyItsLookMatters(policy, env, env.(fileExists := path => path == r.ref.value || env.fileExists(path)), r);
    } else {
      OnlyItsLookMatters(policy, env, env.(fileExists := path => path != r.ref.value && env.fileExists(path)), r);
    }
  }

  /** A task submitted with a commit is verified exactly if the commit is there. */
  lemma ACommitDecides(m: Machine, st: State, id: TaskId, e: EvidenceEntry, r: Receipt, actor: string, ts: int)
    requires Asked(m, st, id, e, r, actor) && r.kind.CommitExists? && Unguarded(m.policy, r)
    ensures r.ref.Some? && Leaves(m, st, id, actor, ts,
              Twice(m, st, id, m.env(st.ticks).gitType(r.ref.value) == Some("commit"),
                    m.env(st.ticks + 1).gitType(r.ref.value) == Some("commit")))
  {
    CommitAccepted(m.policy, m.env(st.ticks), r);
    CommitAccepted(m.policy, m.env(st.ticks + 1), r);
    ReadingsDecide(m, st, id, e, r, actor, ts, m.env(st.ticks).gitType(r.ref.value) == Some("commit"),
                   m.env(st.ticks + 1).gitType(r.ref.value) == Some("commit"));
  }

  lemma CommitAccepted(policy: Policy, env: Environment, r: Receipt)
    requires ReceiptOk(r) && r.kind.CommitExists? && Unguarded(policy, r)
    ensures Verify(policy, env, r) == (env.gitType(r.ref.value) == Some("commit"))
  {
    var found := env.gitType(r.ref.value);
    CommitExistsTurnsOnItsObject(policy, env, r, found);
    OnlyItsLookMatters(
      policy, env, env.(gitType := ref => if ref == r.ref.value then found else env.gitType(ref)), r);
  }

  /** The text that was found has `part` in it. */
  ghost predicate Has(found: Option<string>, part: Option<string>) {
    && found.Some? && part.Some?
    && exists before: string, after: string :: found.value == before + part.value + after
  }

  /** A task submitted with a text in a file is verified exactly if the file reads so. */
  lemma AFilesContentDecides(m: Machine, st: State, id: TaskId, e: EvidenceEntry, r: Receipt, actor: string, ts: int)
    requires Asked(m, st, id, e, r, actor) && r.kind.FileContains? && Unguarded(m.policy, r)
    ensures r.ref.Some?
         && var first := Has(m.env(st.ticks).readFile(r.ref.value), r.expectedSubstring);
            var second := Has(m.env(st.ticks + 1).readFile(r.ref.value), r.expectedSubstring);
            Leaves(m, st, id, actor, ts, Twice(m, st, id, first, second))
  {
    ContentAccepted(m.policy, m.env(st.ticks), r);
    ContentAccepted(m.policy, m.env(st.ticks + 1), r);
    ReadingsDecide(m, st, id, e, r, actor, ts, Has(m.env(st.ticks).readFile(r.ref.value), r.expectedSubstring),
                   Has(m.env(st.ticks + 1).readFile(r.ref.value), r.expectedSubstring));
  }

  lemma ContentAccepted(policy: Policy, env: Environment, r: Receipt)
    requires ReceiptOk(r) && r.kind.FileContains? && Unguarded(policy, r)
    ensures Verify(policy, env, r) == Has(env.readFile(r.ref.value), r.expectedSubstring)
  {
    var found := env.readFile(r.ref.value);
    FileContainsTurnsOnItsFile(policy, env, r, found);
    OnlyItsLookMatters(
      policy, env, env.(readFile := path => if path == r.ref.value then found else env.readFile(path)), r);
  }

  /** A task submitted with a command's output is verified exactly if the command prints so. */
  lemma ACommandDecides(m: Machine, st: State, id: TaskId, e: EvidenceEntry, r: Receipt, actor: string, ts: int)
    requires Asked(m, st, id, e, r, actor) && r.kind.CommandOutputMatch? && Unguarded(m.policy, r)
    requires !RunsForbidden(m.policy, r)
    ensures r.command.Some?
         && var first := Has(m.env(st.ticks).run(r.command.value), r.expectedSubstring);
            var second := Has(m.env(st.ticks + 1).run(r.command.value), r.expectedSubstring);
            Leaves(m, st, id, actor, ts, Twice(m, st, id, first, second))
  {
    OutputAccepted(m.policy, m.env(st.ticks), r);
    OutputAccepted(m.policy, m.env(st.ticks + 1), r);
    ReadingsDecide(m, st, id, e, r, actor, ts, Has(m.env(st.ticks).run(r.command.value), r.expectedSubstring),
                   Has(m.env(st.ticks + 1).run(r.command.value), r.expectedSubstring));
  }

  lemma OutputAccepted(policy: Policy, env: Environment, r: Receipt)
    requires ReceiptOk(r) && r.kind.CommandOutputMatch? && Unguarded(policy, r) && !RunsForbidden(policy, r)
    ensures Verify(policy, env, r) == Has(env.run(r.command.value), r.expectedSubstring)
  {
    var found := env.run(r.command.value);
    CommandOutputTurnsOnItsCommand(policy, env, r, found);
    OnlyItsLookMatters(
      policy, env, env.(run := command => if command == r.command.value then found else env.run(command)), r);
  }

  /** A task submitted with browser actions is verified exactly if none failed and the text it expects was seen. */
  lemma BrowserActionsDecide(m: Machine, st: State, id: TaskId, e: EvidenceEntry, r: Receipt, actor: string, ts: int)
    requires Asked(m, st, id, e, r, actor) && r.kind.BrowserAction?
    ensures Leaves(m, st, id, actor, ts,
              && (forall result :: result in r.actionResults ==> result.success)
              && (r.expectedSubstring.Some? ==> ResultShows(r, r.expectedSubstring.value)))
  {
    BrowserActionsSpeakForThemselves(m.policy, m.env(st.ticks), r);
    BrowserActionsSpeakForThemselves(m.policy, m.env(st.ticks + 1), r);
    var accepted := Verify(m.policy, m.env(st.ticks), r);
    ReadingsDecide(m, st, id, e, r, actor, ts, accepted, accepted);
  }

  /** Narratives, protected paths and forbidden commands are rejected, whatever is outside. */
  lemma GuardedReceiptsAreRejected(m: Machine, st: State, id: TaskId, e: EvidenceEntry, r: Receipt, actor: string,
                                   ts: int)
    requires Asked(m, st, id, e, r, actor)
    requires r.kind.Narrative? || CitesProtected(m.policy, r) || RunsForbidden(m.policy, r)
    ensures Leaves(m, st, id, actor, ts, false)
  {
    if r.kind.Narrative? {
      NarrativesAreRefused(m.policy, m.env(st.ticks), r);
      NarrativesAreRefused(m.policy, m.env(st.ticks + 1), r);
    } else {
      GuardsRefuse(m.policy, m.env(st.ticks), r);
      GuardsRefuse(m.policy, m.env(st.ticks + 1), r);
    }
    ReadingsDecide(m, st, id, e, r, actor, ts, false, false);
  }

  /** A submitted task without any receipt is rejected. */
  lemma WithoutAReceiptItIsRejected(m: Machine, st: State, id: TaskId, actor: string, ts: int)
    requires Reliable(m.disk) && Inv(m, st) && GetTask(st, id).Some? && !IsBlank(actor)
    requires GetTask(st, id).value.status.EvidenceSubmitted?
    requires forall i :: 0 <= i < |GetTask(st, id).value.evidence| ==>
      !GetTask(st, id).value.evidence[i].kind.ToolReceipt?
    ensures Leaves(m, st, id, actor, ts, false)
  {
    ShownTasksAreReady(m, st, id);
    VerdictIsShown(m.disk, st, GetTask(st, id).value,
                   MoveInput(id, Rejected, actor, [], Some("no receipt evidence found to verify"), ts));
  }

  /** Nothing is verified or recorded unless the task is submitted and its newest receipt can be read. */
  lemma ElseNothingHappens(m: Machine, st: State, id: TaskId, actor: string, ts: int)
    requires
      || GetTask(st, id).None? || !GetTask(st, id).value.status.EvidenceSubmitted?
      || (LatestReceipt(GetTask(st, id).value.evidence).Some?
          && ParseNote(LatestReceipt(GetTask(st, id).value.evidence).value.note).None?)
    ensures var o := VerifyAndTransition(m.policy, m.env, m.disk, st, id, actor, ts); o.result.Err? && o.st == st
  {}
}
