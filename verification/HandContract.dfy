/**
 * Receipts and their deterministic verification (src/hands/contract.ts,
 * src/hands/verifier.ts, src/hands/refuter.ts, src/hands/risk.ts).
 *
 * What the verifier reads outside the program is an `Environment`; it may differ at
 * every call.  Regular-expression lists (protected paths, allowlisted commands,
 * secret shapes, risk keywords) and the hand registry are fields of a `Policy`.
 */
module HandContract {
  import opened Common
  import opened Text

  /** Task ids are fresh at creation; they are numbered here. */
  type TaskId = nat

  // ── Receipts ──────────────────────────────────────────────────────────

  datatype ReceiptKind = FileExists | CommitExists | FileContains | CommandOutputMatch | BrowserAction | Narrative

  datatype ActionResult = ActionResult(success: bool, value: Option<string>)

  datatype Receipt = Receipt(
    taskId: TaskId,
    handId: string,
    submittedBy: string,
    kind: ReceiptKind,
    ref: Option<string>,
    command: Option<string>,
    expectedSubstring: Option<string>,
    claimedResult: string,
    artifacts: seq<string>,
    actions: seq<string>,
    actionResults: seq<ActionResult>)

  predicate NonEmptyIfPresent(s: Option<string>) {
    s.Some? ==> s.value != ""
  }

  /** The receipt schema with its cross-field rules. */
  predicate ReceiptOk(r: Receipt) {
    && r.handId != "" && r.submittedBy != "" && r.claimedResult != ""
    && NonEmptyIfPresent(r.ref) && NonEmptyIfPresent(r.command) && NonEmptyIfPresent(r.expectedSubstring)
    && (forall i :: 0 <= i < |r.artifacts| ==> r.artifacts[i] != "")
    && (r.kind.FileExists? || r.kind.CommitExists? || r.kind.FileContains? ==> r.ref.Some?)
    && (r.kind.FileContains? || r.kind.CommandOutputMatch? ==>
          r.expectedSubstring.Some? && |Trim(r.expectedSubstring.value)| >= 3)
    && (r.kind.CommandOutputMatch? ==> r.command.Some?)
    && (r.kind.BrowserAction? ==> r.actions != [] && r.actionResults != [])
  }

  datatype DelegationRisk = LowRisk | Security | Production | DataMutation | HighBlastRadius

  datatype HandSpec = HandSpec(handId: string, foregroundOnly: bool, allowedActions: seq<string>)

  datatype Policy = Policy(
    isProtected: string -> bool,
    isAllowlisted: string -> bool,
    hasSecretShape: string -> bool,
    classifyRisk: (string, seq<string>) -> DelegationRisk,
    hands: string -> Option<HandSpec>)

  /** Outcomes of the outside reads; None is an exception. */
  datatype Environment = Environment(
    fileExists: string -> bool,
    gitType: string -> Option<string>,
    readFile: string -> Option<string>,
    run: string -> Option<string>)

  function TextFields(r: Receipt): seq<Option<string>> {
    [Some(r.claimedResult), r.expectedSubstring, r.command, r.ref]
    + seq(|r.artifacts|, i requires 0 <= i < |r.artifacts| => Some(r.artifacts[i]))
  }

  predicate HasSecrets(policy: Policy, r: Receipt) {
    exists i :: 0 <= i < |TextFields(r)| && TextFields(r)[i].Some?
                && TextFields(r)[i].value != "" && policy.hasSecretShape(TextFields(r)[i].value)
  }

  predicate GuardedRef(policy: Policy, ref: Option<string>) {
    ref.Some? && ref.value != "" && !policy.isProtected(ref.value)
  }

  /** The verdict of verify(receipt) in one environment. */
  predicate Verify(policy: Policy, env: Environment, r: Receipt) {
    match r.kind
    case Narrative => false
    case FileExists => GuardedRef(policy, r.ref) && env.fileExists(r.ref.value)
    case CommitExists => GuardedRef(policy, r.ref) && env.gitType(r.ref.value) == Some("commit")
    case FileContains =>
      && GuardedRef(policy, r.ref) && r.expectedSubstring.Some? && r.expectedSubstring.value != ""
      && env.readFile(r.ref.value).Some? && Includes(env.readFile(r.ref.value).value, r.expectedSubstring.value)
    case CommandOutputMatch =>
      && r.command.Some? && r.command.value != "" && !policy.isProtected(r.command.value)
      && !(r.ref.Some? && r.ref.value != "" && policy.isProtected(r.ref.value))
      && policy.isAllowlisted(r.command.value)
      && r.expectedSubstring.Some? && r.expectedSubstring.value != ""
      && env.run(r.command.value).Some? && Includes(env.run(r.command.value).value, r.expectedSubstring.value)
    case BrowserAction =>
      && r.actions != [] && r.actionResults != []
      && (forall i :: 0 <= i < |r.actionResults| ==> r.actionResults[i].success)
      && (r.expectedSubstring.Some? && r.expectedSubstring.value != "" ==>
            exists i :: 0 <= i < |r.actionResults| && r.actionResults[i].value.Some?
                        && Includes(r.actionResults[i].value.value, r.expectedSubstring.value))
  }

  predicate NeedsRefuter(risk: DelegationRisk) {
    !risk.LowRisk?
  }

  datatype RefuterResult = RefuterResult(triggered: bool, passed: bool)

  /** The second opinion, taken in its own environment. */
  function RunRefuter(policy: Policy, env: Environment, risk: DelegationRisk, r: Receipt,
                      primary: bool): RefuterResult {
    if !NeedsRefuter(risk) then RefuterResult(false, true)
    else RefuterResult(true, Verify(policy, env, r) == primary)
  }
}
