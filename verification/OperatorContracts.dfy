/**
 * Operator tasks, results, their evaluation and promotion (src/operator/contracts.ts,
 * src/operator/evaluator.ts, src/operator/promotion.ts, src/operator/browser-trace.ts).
 * Message texts and timestamps are not modelled.
 */
module OperatorContracts {
  import opened Common
  import opened Text

  // ── Records ───────────────────────────────────────────────────────────

  datatype EvidenceType =
    | FileExists | FileRead | CommandExit | BrowserObservation | BrowserSessionTrace | LogTrace | ManualNote

  datatype Route = Local | OpenManus | Octogent | Vellum | Manual

  datatype Mode = ReadOnly | Write

  datatype Status = Success | Failure | BlockedStatus | Skipped

  datatype Verdict = Passed | Blocked

  /** The inputs that the manual route reads. */
  datatype Inputs = Inputs(resultTaskId: Option<string>, sourceTask: Option<Task>,
    promotionResultTaskId: Option<string>)

  datatype Task = Task(
    id: string,
    route: Route,
    mode: Mode,
    inputs: Inputs,
    expected: seq<EvidenceType>,
    writeAllowed: bool
  )

  datatype Evidence = Evidence(id: string, kind: EvidenceType, source: string, proofToken: Option<string>)

  datatype Issue =
    | ResultNotSuccess | MissingExpectedEvidence | MissingProofTokens | MissingEvidenceProof
    | TraceMissing | UnexpectedErrors | MissingBrowserTrace

  datatype Attempt = Attempt(
    retry: bool,
    resultPath: string,
    resultStatus: Status,
    verdict: Verdict,
    score: nat,
    issues: seq<Issue>,
    proofTokens: seq<string>,
    evidencePaths: seq<string>
  )

  datatype Evaluation = Evaluation(
    passed: bool,
    score: nat,
    issues: seq<Issue>,
    finalVerdict: Option<Verdict>,
    retryableRoute: Option<bool>,
    retryUsed: Option<bool>,
    sourcePath: Option<string>,
    retryPath: Option<string>,
    winningPath: Option<string>,
    resultChain: seq<string>,
    evidenceChain: seq<string>,
    attempts: seq<Attempt>
  )

  datatype PromotionStatus = Promoted | NotPromoted

  datatype Promotion = Promotion(
    promoted: bool,
    status: PromotionStatus,
    reason: string,
    proofTokens: seq<string>,
    turnTokens: seq<string>,
    finalVerdict: Option<Verdict>,
    winningPath: Option<string>,
    sourcePath: Option<string>,
    retryPath: Option<string>
  )

  datatype Lifecycle = Lifecycle(
    sourceTaskId: string,
    dispatchPath: string,
    evaluationTaskId: Option<string>,
    evaluationPath: Option<string>,
    promotionTaskId: Option<string>,
    promotionPath: Option<string>,
    childPaths: seq<string>,
    proofTokens: seq<string>,
    finalStatus: Status
  )

  datatype RunResult = RunResult(
    taskId: string,
    status: Status,
    evidence: seq<Evidence>,
    errors: seq<string>,
    tracePath: Option<string>,
    evaluation: Option<Evaluation>,
    promotion: Option<Promotion>,
    lifecycle: Option<Lifecycle>
  )

  // ── Evidence ──────────────────────────────────────────────────────────

  predicate Named(s: Option<string>) {
    s.Some? && s.value != ""
  }

  predicate Observes(r: RunResult, kind: EvidenceType) {
    exists e :: e in r.evidence && e.kind == kind
  }

  predicate ExpectedMet(task: Task, r: RunResult) {
    forall kind :: kind in task.expected ==> Observes(r, kind)
  }

  /** The evidence gate: only a success can miss evidence. */
  predicate GatePassed(task: Task, r: RunResult) {
    r.status == Success ==> ExpectedMet(task, r)
  }

  function TokenOf(e: Evidence): string {
    if e.proofToken.Some? then e.proofToken.value else e.id
  }

  /** The proof tokens, trimmed, without blanks and repetitions. */
  function UniqueProofTokens(evidence: seq<Evidence>): seq<string> {
    Unique(TrimmedTokens(evidence))
  }

  function TrimmedTokens(evidence: seq<Evidence>): seq<string> {
    if evidence == [] then []
    else
      var e := evidence[|evidence| - 1];
      TrimmedTokens(evidence[..|evidence| - 1])
      + if e.proofToken.Some? && Trim(e.proofToken.value) != "" then [Trim(e.proofToken.value)] else []
  }

  lemma {:induction false} TrimmedTokensComeFromEvidence(evidence: seq<Evidence>)
    ensures TrimmedTokens(evidence) != [] <==>
            exists e :: e in evidence && e.proofToken.Some? && Trim(e.proofToken.value) != ""
  {
    if evidence != [] {
      var n := |evidence| - 1;
      TrimmedTokensComeFromEvidence(evidence[..n]);
      assert evidence == evidence[..n] + [evidence[n]];
    }
  }

  function EvidencePaths(evidence: seq<Evidence>): seq<string> {
    Unique(TrimmedSources(evidence))
  }

  function TrimmedSources(evidence: seq<Evidence>): seq<string> {
    if evidence == [] then []
    else
      var e := evidence[|evidence| - 1];
      TrimmedSources(evidence[..|evidence| - 1]) + if Trim(e.source) != "" then [Trim(e.source)] else []
  }

  function Tokens(evidence: seq<Evidence>): seq<string> {
    seq(|evidence|, i requires 0 <= i < |evidence| => TokenOf(evidence[i]))
  }

  function NonBlank(values: seq<string>): seq<string> {
    if values == [] then []
    else
      var n := |values| - 1;
      NonBlank(values[..n]) + if Trim(values[n]) != "" then [values[n]] else []
  }

  function UniqueNonBlank(values: seq<string>): seq<string> {
    Unique(NonBlank(values))
  }

  function BrowserTrace(e: Evidence, tracePath: string): Evidence {
    Evidence(e.id + ".trace", BrowserSessionTrace, tracePath, Some(e.id + ".trace"))
  }

  function BrowserTraces(evidence: seq<Evidence>, tracePath: string): seq<Evidence> {
    if evidence == [] then []
    else
      var n := |evidence| - 1;
      BrowserTraces(evidence[..n], tracePath)
      + if evidence[n].kind == BrowserObservation then [BrowserTrace(evidence[n], tracePath)] else []
  }

  function WithBrowserSessionTrace(r: RunResult): RunResult {
    if !Named(r.tracePath) || Observes(r, BrowserSessionTrace) || Trim(r.tracePath.value) == "" then r
    else r.(evidence := r.evidence + BrowserTraces(r.evidence, r.tracePath.value))
  }

  // ── Evaluation ────────────────────────────────────────────────────────

  type Exists = string -> bool

  predicate IsRetryable(task: Task) {
    (task.route == Local || task.route == OpenManus || task.route == Octogent) && task.mode == ReadOnly
      && !task.writeAllowed
  }

  predicate MayWrite(task: Task) {
    task.mode == Write || task.writeAllowed
  }

  function When<T>(condition: bool, issue: T): seq<T> {
    if condition then [issue] else []
  }

  /** Some proof token is more than white space. */
  predicate HasProofToken(r: RunResult) {
    exists e :: e in r.evidence && e.proofToken.Some? && Trim(e.proofToken.value) != ""
  }

  predicate AllProved(r: RunResult) {
    forall e :: e in r.evidence ==> Named(e.proofToken)
  }

  predicate TraceLost(onDisk: Exists, r: RunResult) {
    Named(r.tracePath) && !onDisk(r.tracePath.value)
  }

  predicate BrowserUntraced(r: RunResult) {
    Observes(r, BrowserObservation) && !Observes(r, BrowserSessionTrace)
  }

  function Issues(onDisk: Exists, task: Task, r: RunResult): seq<Issue> {
    var success := r.status == Success;
    When(!success, ResultNotSuccess)
    + When(!GatePassed(task, r), MissingExpectedEvidence)
    + When(success && UniqueProofTokens(r.evidence) == [], MissingProofTokens)
    + When(success && !AllProved(r), MissingEvidenceProof)
    + When(success && TraceLost(onDisk, r), TraceMissing)
    + When(success && r.errors != [], UnexpectedErrors)
    + When(BrowserUntraced(r), MissingBrowserTrace)
  }

  /** What a result must be to pass. */
  predicate Passes(onDisk: Exists, task: Task, r: RunResult) {
    && r.status == Success
    && ExpectedMet(task, r)
    && HasProofToken(r)
    && AllProved(r)
    && !TraceLost(onDisk, r)
    && r.errors == []
    && !BrowserUntraced(r)
  }

  function Score(issues: nat): nat {
    if 20 * issues >= 100 then 0 else 100 - 20 * issues
  }

  function Evaluate(onDisk: Exists, task: Task, r: RunResult): Evaluation {
    Judgement(Issues(onDisk, task, r), r)
  }

  function Judgement(issues: seq<Issue>, r: RunResult): Evaluation {
    Evaluation(
      issues == [],
      Score(|issues|),
      issues, None, None, None, None, None, None,
      if Named(r.tracePath) then [r.tracePath.value] else [],
      EvidencePaths(r.evidence),
      [])
  }

  lemma NoTokensIff(r: RunResult)
    ensures UniqueProofTokens(r.evidence) == [] <==> !HasProofToken(r)
  {
    TrimmedTokensComeFromEvidence(r.evidence);
    var tokens := TrimmedTokens(r.evidence);
    assert tokens != [] ==> tokens[0] in tokens;
  }

  /** A result passes exactly when the evaluator raises nothing against it. */
  lemma PassesIffNoIssue(onDisk: Exists, task: Task, r: RunResult)
    ensures Evaluate(onDisk, task, r).passed <==> Passes(onDisk, task, r)
    ensures Evaluate(onDisk, task, r).passed <==> Evaluate(onDisk, task, r).score == 100
  {
    NoTokensIff(r);
    var issues := Issues(onDisk, task, r);
    if Passes(onDisk, task, r) {
      assert |issues| == 0;
    } else {
      assert |issues| > 0;
    }
  }

  method EvaluateOperatorResult(onDisk: Exists, task: Task, r: RunResult) returns (evaluation: Evaluation)
    ensures evaluation.passed <==> Passes(onDisk, task, r)
    ensures evaluation.passed <==> evaluation.score == 100
    ensures evaluation == Evaluate(onDisk, task, r)
  {
    PassesIffNoIssue(onDisk, task, r);
    var issues: seq<Issue> := [];
    var success := r.status == Success;
    issues := AddIssue(issues, !success, ResultNotSuccess);
    issues := AddIssue(issues, !GatePassed(task, r), MissingExpectedEvidence);
    issues := AddIssue(issues, success && UniqueProofTokens(r.evidence) == [], MissingProofTokens);
    issues := AddIssue(issues, success && !AllProved(r), MissingEvidenceProof);
    issues := AddIssue(issues, success && TraceLost(onDisk, r), TraceMissing);
    issues := AddIssue(issues, success && r.errors != [], UnexpectedErrors);
    issues := AddIssue(issues, BrowserUntraced(r), MissingBrowserTrace);
    evaluation := Judgement(issues, r);
  }

  method AddIssue<T>(issues: seq<T>, condition: bool, issue: T) returns (more: seq<T>)
    ensures more == issues + When(condition, issue)
  {
    more := issues;
    if condition {
      more := more + [issue];
    }
  }

  function BuildAttempt(retry: bool, path: string, r: RunResult, e: Evaluation): Attempt {
    Attempt(retry, path, r.status, if e.passed then Passed else Blocked, e.score, e.issues,
            UniqueProofTokens(r.evidence), EvidencePaths(r.evidence))
  }

  /** The verdict over one attempt, or over a source attempt and its retry. */
  function Compose(sourcePath: string, source: Attempt, retryableRoute: bool, retry: Option<Attempt>): Evaluation {
    var final := if retry.Some? then retry.value else source;
    var passed := final.verdict == Passed;
    Evaluation(
      passed,
      final.score,
      if passed then [] else final.issues,
      Some(if passed then Passed else Blocked),
      Some(retryableRoute),
      Some(retry.Some?),
      Some(sourcePath),
      if retry.Some? then Some(retry.value.resultPath) else None,
      if passed then Some(final.resultPath) else None,
      if retry.Some? then [source.resultPath, retry.value.resultPath] else [source.resultPath],
      Unique(source.evidencePaths + if retry.Some? then retry.value.evidencePaths else []),
      if retry.Some? then [source, retry.value] else [source])
  }

  // ── Promotion ─────────────────────────────────────────────────────────

  function FinalVerdict(e: Evaluation): Verdict {
    if e.finalVerdict.Some? then e.finalVerdict.value else if e.passed then Passed else Blocked
  }

  /** The promotion of an evaluation, given the tokens collected from the state, the
      result and the current turn. */
  function DecidePromotion(onDisk: Exists, evaluation: Option<Evaluation>, tokens: seq<string>,
                           turnTokens: seq<string>): Promotion {
    var proofTokens := UniqueNonBlank(tokens + turnTokens);
    if evaluation.None? then
      Promotion(false, NotPromoted, "evaluator verdict missing", proofTokens, turnTokens, None, None, None, None)
    else
      var e := evaluation.value;
      var verdict := FinalVerdict(e);
      if !e.passed || verdict != Passed then
        Promotion(false, NotPromoted, "evaluator verdict did not pass", proofTokens, turnTokens,
                  Some(verdict), e.winningPath, e.sourcePath, e.retryPath)
      else if !Named(e.winningPath) then
        Promotion(false, NotPromoted, "winning_result_path missing", proofTokens, turnTokens,
                  Some(verdict), None, e.sourcePath, e.retryPath)
      else if !onDisk(e.winningPath.value) then
        Promotion(false, NotPromoted, "winning result missing", proofTokens, turnTokens,
                  Some(verdict), e.winningPath, e.sourcePath, e.retryPath)
      else if e.retryUsed == Some(true) && (!Named(e.retryPath) || !onDisk(e.retryPath.value)) then
        Promotion(false, NotPromoted, "retry result missing", proofTokens, turnTokens,
                  Some(verdict), e.winningPath, e.sourcePath, e.retryPath)
      else if proofTokens == [] then
        Promotion(false, NotPromoted, "proof tokens missing", proofTokens, turnTokens,
                  Some(verdict), e.winningPath, e.sourcePath, e.retryPath)
      else
        Promotion(true, Promoted, "evaluator verdict and durable proof present", proofTokens, turnTokens,
                  Some(verdict), e.winningPath, e.sourcePath, e.retryPath)
  }

  /** Promotion happens exactly on a passing evaluation whose files exist and that has a token. */
  lemma PromotedIff(onDisk: Exists, evaluation: Option<Evaluation>, tokens: seq<string>, turnTokens: seq<string>)
    ensures var p := DecidePromotion(onDisk, evaluation, tokens, turnTokens);
            && (p.status == Promoted <==> p.promoted)
            && (p.promoted <==>
                && evaluation.Some?
                && evaluation.value.passed && evaluation.value.finalVerdict != Some(Blocked)
                && Named(evaluation.value.winningPath) && onDisk(evaluation.value.winningPath.value)
                && (evaluation.value.retryUsed == Some(true) ==>
                      Named(evaluation.value.retryPath) && onDisk(evaluation.value.retryPath.value))
                && exists t :: t in tokens + turnTokens && Trim(t) != "")
            && (p.promoted ==>
                  && p.winningPath == evaluation.value.winningPath
                  && p.finalVerdict == Some(Passed) && p.proofTokens != [])
  {
    NonBlankKeeps(tokens + turnTokens);
    var kept := NonBlank(tokens + turnTokens);
    assert kept != [] ==> kept[0] in kept;
    assert UniqueNonBlank(tokens + turnTokens) == [] <==> kept == [];
  }

  lemma {:induction false} NonBlankKeeps(values: seq<string>)
    ensures forall v :: v in NonBlank(values) <==> v in values && Trim(v) != ""
  {
    if values != [] {
      var n := |values| - 1;
      NonBlankKeeps(values[..n]);
      assert values == values[..n] + [values[n]];
    }
  }
}
