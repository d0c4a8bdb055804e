/**
 * The durable claim record of the learning request protocol and the pure
 * builders over it (src/learning/claim-contract.ts).
 *
 * Times are integers in milliseconds.  The SHA-256 digests of the program are
 * free constructors here, that is, injective functions of what they digest.
 */
module ClaimContract {
  import opened Common

  datatype RequestKind = Decide | Outcome

  /** `payload` stands for the serialised, schema-checked payload. */
  datatype Request = Request(requestId: string, idempotencyKey: string, kind: RequestKind, payload: string)

  /** The digest covers kind and payload only: neither the request id nor the key. */
  datatype RequestHash = RequestHash(kind: RequestKind, payload: string)

  function HashLearningRequest(req: Request): RequestHash {
    RequestHash(req.kind, req.payload)
  }

  /** Ids of the projected artifacts; `Foreign` ids belong to other producers. */
  datatype ArtifactId =
    | GoalId(key: string)
    | EvidenceId(key: string, kind: RequestKind)
    | SpendId(key: string, kind: RequestKind)
    | Foreign(n: nat)

  datatype ArtifactHashes = ArtifactHashes(
    goalId: Option<ArtifactId>, evidenceClaimId: Option<ArtifactId>, spendCorrelationId: Option<ArtifactId>)

  datatype Receipt = Receipt(
    requestId: string, idempotencyKey: string, kind: RequestKind, decision: Option<string>, updatedAt: int)

  datatype Proof = Proof(
    requestHash: RequestHash, requestId: string, receipt: Receipt,
    artifactHashes: ArtifactHashes, claimedAt: int, completedAt: int)

  datatype ClaimState = Processing | Completed | Failed

  datatype RetryMetadata = RetryMetadata(lastRequestId: string, failedAt: int, priorAttempt: nat)

  datatype Claim = Claim(
    idempotencyKey: string,
    kind: RequestKind,
    state: ClaimState,
    owner: string,
    requestHash: RequestHash,
    leaseUntil: int,
    generation: nat,
    attempt: nat,
    createdAt: int,
    updatedAt: int,
    proof: Option<Proof>,
    failureReason: Option<string>,
    retryMetadata: Option<RetryMetadata>)

  /** One invocation of the request port: its request, owner, clock reading and lease length. */
  datatype Call = Call(req: Request, owner: string, now: int, leaseMs: int)

  function ExtendLease(from: int, leaseMs: int): int {
    from + leaseMs
  }

  predicate LeaseExpired(claim: Claim, now: int) {
    claim.leaseUntil <= now
  }

  function BuildProcessingClaim(call: Call, attempt: nat, generation: nat): Claim {
    Claim(call.req.idempotencyKey, call.req.kind, Processing, call.owner, HashLearningRequest(call.req),
          ExtendLease(call.now, call.leaseMs), generation, attempt, call.now, call.now, None, None, None)
  }

  /** What computing the artifacts yields: a decision (for `Decide`) and the receipt's timestamp. */
  datatype Artifacts = Artifacts(decision: string, updatedAt: int)

  function BuildReceipt(req: Request, a: Artifacts): Receipt {
    Receipt(req.requestId, req.idempotencyKey, req.kind,
            if req.kind.Decide? then Some(a.decision) else None, a.updatedAt)
  }

  function BuildArtifactHashes(req: Request): ArtifactHashes {
    ArtifactHashes(
      if req.kind.Decide? then Some(GoalId(req.idempotencyKey)) else None,
      Some(EvidenceId(req.idempotencyKey, req.kind)),
      Some(SpendId(req.idempotencyKey, req.kind)))
  }

  function BuildProofBundle(req: Request, a: Artifacts, claimedAt: int): Proof {
    Proof(HashLearningRequest(req), req.requestId, BuildReceipt(req, a),
          BuildArtifactHashes(req), claimedAt, a.updatedAt)
  }

  // ── File names ────────────────────────────────────────────────────────

  predicate IsFileSafe(c: char) {
    'a' <= c <= 'z' || 'A' <= c <= 'Z' || '0' <= c <= '9' || c == '.' || c == '_' || c == '-'
  }

  function SanitizeChar(c: char): char {
    if IsFileSafe(c) then c else '_'
  }

  /** The name of the claim file (and of the projection lock) of an idempotency key. */
  function SanitizeFileKey(key: string): (name: string)
    ensures |name| == |key|
  {
    seq(|key|, i requires 0 <= i < |key| => SanitizeChar(key[i]))
  }

  /** The characters a file name keeps: letters, digits, and ". _ -"; any other becomes an underscore. */
  lemma WhatAFileNameKeeps(key: string, i: nat)
    requires i < |key|
    ensures var c, kept := key[i], SanitizeFileKey(key)[i];
      && (c in "._-" || '0' <= c <= '9' || 'a' <= c <= 'z' || 'A' <= c <= 'Z' ==> kept == c)
      && (c !in "._-" && !('0' <= c <= '9') && !('a' <= c <= 'z') && !('A' <= c <= 'Z') ==> kept == '_')
  {}

  /** Two characters that the file name cannot tell apart. */
  predicate Confused(c: char, d: char) {
    c == d || ((c == '_' || !IsFileSafe(c)) && (d == '_' || !IsFileSafe(d)))
  }

  /**
   * When two keys share one claim file.  A key made of file-safe characters other
   * than '_' never shares its file; any other key shares it with different keys.
   */
  lemma SharedClaimFile(a: string, b: string)
    ensures SanitizeFileKey(a) == SanitizeFileKey(b)
       <==> |a| == |b| && forall i :: 0 <= i < |a| ==> Confused(a[i], b[i])
  {
    if SanitizeFileKey(a) == SanitizeFileKey(b) {
      forall i | 0 <= i < |a| ensures Confused(a[i], b[i]) {
        assert SanitizeFileKey(a)[i] == SanitizeFileKey(b)[i];
      }
    }
    if |a| == |b| && forall i :: 0 <= i < |a| ==> Confused(a[i], b[i]) {
      forall i | 0 <= i < |a| ensures SanitizeFileKey(a)[i] == SanitizeFileKey(b)[i] {
        assert Confused(a[i], b[i]);
      }
    }
  }

  /** Keys do not own their claim file: these two differ and share one. */
  lemma DistinctKeysMayShareAFile()
    ensures "goal/1" != "goal_1" && SanitizeFileKey("goal/1") == SanitizeFileKey("goal_1")
  {
    SharedClaimFile("goal/1", "goal_1");
  }
}
