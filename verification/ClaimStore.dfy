/**
 * The claim store (src/learning/claim-store.ts): the decision taken from one read
 * of a claim, the exclusive create and the compare-and-swap on `generation`, and
 * the file store whose methods perform them.
 */
module ClaimStore {
  import opened Common
  import opened ClaimContract

  datatype CasReason = Refresh | Takeover | Retry

  /** What beginOperation decides from the claim it has just read. */
  datatype BeginPlan =
    | PlanCreate(first: Claim)
    | PlanCas(expected: nat, next: Claim, why: CasReason)
    | PlanConflict
    | PlanCompleted(proof: Proof)
    | PlanInFlight(seen: Claim)

  function PlanBegin(call: Call, existing: Option<Claim>): BeginPlan {
    match existing
    case None => PlanCreate(BuildProcessingClaim(call, 1, 1))
    case Some(c) =>
      if c.requestHash != HashLearningRequest(call.req) then PlanConflict
      else if c.state.Completed? && c.proof.Some? then PlanCompleted(c.proof.value)
      else match c.state
        case Processing =>
          if c.owner == call.owner then
            PlanCas(c.generation, c.(leaseUntil := ExtendLease(call.now, call.leaseMs), updatedAt := call.now), Refresh)
          else if !LeaseExpired(c, call.now) then PlanInFlight(c)
          else PlanCas(c.generation, BuildProcessingClaim(call, c.attempt + 1, c.generation), Takeover)
        case Failed =>
          var last := if c.retryMetadata.Some? then c.retryMetadata.value.lastRequestId else call.req.requestId;
          PlanCas(c.generation,
                  BuildProcessingClaim(call, c.attempt + 1, c.generation).(
                    retryMetadata := Some(RetryMetadata(last, c.updatedAt, c.attempt))),
                  Retry)
        case Completed => PlanInFlight(c)
  }

  // ── The two atomic writes of one claim cell ───────────────────────────

  /** Exclusive create: succeeds only on an empty cell. */
  function CreateResult(cell: Option<Claim>, claim: Claim): Option<Claim> {
    if cell.Some? then None else Some(claim)
  }

  /** Compare-and-swap: succeeds only if the stored generation is the expected one, and then bumps it. */
  function CasResult(cell: Option<Claim>, expected: nat, next: Claim): Option<Claim> {
    if cell.None? || cell.value.generation != expected then None
    else Some(next.(generation := expected + 1))
  }

  /** The cell after a write that returned `written`. */
  function CellAfter(cell: Option<Claim>, written: Option<Claim>): Option<Claim> {
    if written.Some? then written else cell
  }

  // ── complete and fail ─────────────────────────────────────────────────

  datatype CompleteOutcome = CompleteOk | StaleOwner | CasLost

  /** The checks completeOperation and failOperation make on the claim they read; None means "go on". */
  function RefuseWrite(existing: Option<Claim>, owner: string, generation: nat): Option<CompleteOutcome> {
    if existing.None? then Some(CasLost)
    else if existing.value.owner != owner then Some(StaleOwner)
    else if existing.value.generation != generation then Some(CasLost)
    else if !existing.value.state.Processing? then Some(CasLost)
    else None
  }

  function CompletedClaim(existing: Claim, proof: Proof, now: int): Claim {
    existing.(state := Completed, proof := Some(proof), updatedAt := now)
  }

  function Truncate(reason: string): string {
    if |reason| <= 500 then reason else reason[..500]
  }

  function FailedClaim(existing: Claim, reason: string, requestId: string, now: int): Claim {
    existing.(state := Failed, failureReason := Some(Truncate(reason)), updatedAt := now,
              retryMetadata := Some(RetryMetadata(requestId, now, existing.attempt)))
  }

  function DurableProof(existing: Option<Claim>): Option<Proof> {
    if existing.Some? && existing.value.state.Completed? then existing.value.proof else None
  }

  datatype BeginOutcome =
    | Proceed(claim: Claim, generation: nat)
    | AlreadyCompleted(proof: Proof)
    | Conflict
    | InFlight(claim: Claim)

  /** Outcome and cell of one uninterrupted beginOperation. */
  function BeginAlone(call: Call, cell: Option<Claim>): (BeginOutcome, Option<Claim>)
  {
    match PlanBegin(call, cell)
    case PlanCreate(first) => (Proceed(first, first.generation), Some(first))
    case PlanCas(expected, next, _) =>
      var written := next.(generation := expected + 1);
      (Proceed(written, expected + 1), Some(written))
    case PlanConflict => (Conflict, cell)
    case PlanCompleted(proof) => (AlreadyCompleted(proof), cell)
    case PlanInFlight(seen) => (InFlight(seen), cell)
  }

  /**
   * The file store.  The three primitives are the atomic sections of the program;
   * the operations are stated for a caller that nobody interrupts between two of
   * them, and their retries after a lost race belong to `ClaimProtocol`.
   */
  class FileLearningClaimStore {
    /** Claim files by file name. */
    var claims: map<string, Claim>

    constructor ()
      ensures claims == map[]
    {
      claims := map[];
    }

    function Cell(key: string): (cell: Option<Claim>)
      reads this
    {
      var name := SanitizeFileKey(key);
      if name in claims then Some(claims[name]) else None
    }

    /** Every file but the one of `key` is as it was in `was`. */
    ghost predicate OnlyTouched(key: string, was: map<string, Claim>)
      reads this
    {
      forall name :: name != SanitizeFileKey(key) ==>
        (name in claims <==> name in was) && (name in claims ==> claims[name] == was[name])
    }

    method ReadClaim(key: string) returns (claim: Option<Claim>)
      ensures claim == Cell(key)
    {
      claim := None;
      if SanitizeFileKey(key) in claims {
        claim := Some(claims[SanitizeFileKey(key)]);
      }
    }

    method CreateClaim(claim: Claim) returns (created: Option<Claim>)
      modifies this
      ensures created == CreateResult(old(Cell(claim.idempotencyKey)), claim)
      ensures Cell(claim.idempotencyKey) == CellAfter(old(Cell(claim.idempotencyKey)), created)
      ensures OnlyTouched(claim.idempotencyKey, old(claims))
    {
      var name := SanitizeFileKey(claim.idempotencyKey);
      if name in claims {
        created := None;
      } else {
        claims := claims[name := claim];
        created := Some(claim);
      }
    }

    method CasClaim(key: string, expected: nat, next: Claim) returns (updated: Option<Claim>)
      modifies this
      ensures updated == CasResult(old(Cell(key)), expected, next)
      ensures Cell(key) == CellAfter(old(Cell(key)), updated)
      ensures OnlyTouched(key, old(claims))
    {
      var name := SanitizeFileKey(key);
      if name !in claims || claims[name].generation != expected {
        return None;
      }
      claims := claims[name := next.(generation := expected + 1)];
      updated := Some(claims[name]);
    }

    method BeginOperation(call: Call) returns (outcome: BeginOutcome)
      modifies this
      ensures (outcome, Cell(call.req.idempotencyKey)) == BeginAlone(call, old(Cell(call.req.idempotencyKey)))
      ensures OnlyTouched(call.req.idempotencyKey, old(claims))
    {
      var existing := ReadClaim(call.req.idempotencyKey);
      match PlanBegin(call, existing) {
        case PlanCreate(first) =>
          var created := CreateClaim(first);
          outcome := Proceed(created.value, created.value.generation);
        case PlanCas(expected, next, _) =>
          var updated := CasClaim(call.req.idempotencyKey, expected, next);
          outcome := Proceed(updated.value, updated.value.generation);
        case PlanConflict => outcome := Conflict;
        case PlanCompleted(proof) => outcome := AlreadyCompleted(proof);
        case PlanInFlight(seen) => outcome := InFlight(seen);
      }
    }

    method CompleteOperation(key: string, owner: string, generation: nat, proof: Proof, now: int)
      returns (outcome: CompleteOutcome)
      modifies this
      ensures outcome.CompleteOk? <==> RefuseWrite(old(Cell(key)), owner, generation).None?
      ensures !outcome.CompleteOk? ==>
        Some(outcome) == RefuseWrite(old(Cell(key)), owner, generation) && claims == old(claims)
      ensures outcome.CompleteOk? ==>
        Cell(key) == Some(CompletedClaim(old(Cell(key)).value, proof, now).(generation := generation + 1))
      ensures OnlyTouched(key, old(claims))
    {
      var existing := ReadClaim(key);
      var refusal := RefuseWrite(existing, owner, generation);
      if refusal.Some? {
        return refusal.value;
      }
      var updated := CasClaim(key, generation, CompletedClaim(existing.value, proof, now));
      outcome := if updated.Some? then CompleteOk else CasLost;
    }

    method FailOperation(key: string, owner: string, generation: nat, reason: string, requestId: string, now: int)
      returns (outcome: CompleteOutcome)
      modifies this
      ensures outcome.CompleteOk? <==> RefuseWrite(old(Cell(key)), owner, generation).None?
      ensures !outcome.CompleteOk? ==>
        Some(outcome) == RefuseWrite(old(Cell(key)), owner, generation) && claims == old(claims)
      ensures outcome.CompleteOk? ==>
        Cell(key) == Some(FailedClaim(old(Cell(key)).value, reason, requestId, now).(generation := generation + 1))
      ensures OnlyTouched(key, old(claims))
    {
      var existing := ReadClaim(key);
      var refusal := RefuseWrite(existing, owner, generation);
      if refusal.Some? {
        return refusal.value;
      }
      var updated := CasClaim(key, generation, FailedClaim(existing.value, reason, requestId, now));
      outcome := if updated.Some? then CompleteOk else CasLost;
    }

    method ReadProof(key: string) returns (proof: Option<Proof>)
      ensures proof == DurableProof(Cell(key))
    {
      var claim := ReadClaim(key);
      proof := None;
      if claim.Some? && claim.value.state.Completed? {
        proof := claim.value.proof;
      }
    }
  }
}
