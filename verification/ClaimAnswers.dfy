/**
 * What a claim grants and for how long (src/learning/claim-store.ts:96-226,
 * src/learning/claim-contract.ts:73-103): the answers of one operation after another on
 * one claim file, in terms of the callers' requests, owners, clocks and lease lengths.
 */
module ClaimAnswers {
  import opened Common
  import opened ClaimContract
  import opened ClaimStore
  import opened ClaimProtocol

  /** The part of a request that a claim is for. */
  predicate SameWork(a: Request, b: Request) {
    a.kind == b.kind && a.payload == b.payload
  }

  /** The claim with which `call` owns the claim file. */
  predicate Owns(call: Call, c: Claim) {
    && c.state.Processing? && c.owner == call.owner
    && c.requestHash == RequestHash(call.req.kind, call.req.payload) && c.updatedAt == call.now
  }

  // ── One begin after another ───────────────────────────────────────────

  /** An empty claim file is claimed at once. */
  lemma FirstBeginProceeds(a: Call)
    ensures var (outcome, after) := BeginAlone(a, None);
      && outcome.Proceed? && after == Some(outcome.claim) && Owns(a, outcome.claim)
      && outcome.generation == 1 == outcome.claim.generation && outcome.claim.attempt == 1
      && outcome.claim.createdAt == a.now && outcome.claim.proof.None? && outcome.claim.retryMetadata.None?
      && outcome.claim.idempotencyKey == a.req.idempotencyKey && outcome.claim.kind == a.req.kind
  {}

  /** Whoever may go on owns the file, under the next generation. */
  lemma ProceedingOwns(a: Call, cell: Option<Claim>)
    ensures var (outcome, after) := BeginAlone(a, cell);
      && (outcome.Proceed? ==>
            && after == Some(outcome.claim) && Owns(a, outcome.claim)
            && outcome.generation == outcome.claim.generation == if cell.None? then 1 else cell.value.generation + 1)
      && (!outcome.Proceed? ==> after == cell)
  {}

  /**
   * How long a lease lasts.  After a begin that may go on -- a creation, refresh, takeover
   * or retry alike -- a begin of the same request by another owner is told that it is in
   * flight exactly while its clock is less than the lease length past the first one's;
   * after that it takes over, for one attempt more.
   */
  lemma TheLeaseLasts(a: Call, cell: Option<Claim>, b: Call)
    requires BeginAlone(a, cell).0.Proceed? && SameWork(a.req, b.req) && a.owner != b.owner
    ensures var held := BeginAlone(a, cell).0.claim;
      var (outcome, after) := BeginAlone(b, BeginAlone(a, cell).1);
      if b.now < a.now + a.leaseMs then outcome == InFlight(held) && after == Some(held)
      else
        && outcome.Proceed? && after == Some(outcome.claim) && Owns(b, outcome.claim)
        && outcome.claim.attempt == held.attempt + 1 && outcome.claim.generation == held.generation + 1
        && outcome.claim.createdAt == b.now
  {
    ProceedingOwns(a, cell);
  }

  /** The owner itself is never told to wait; it keeps the claim and its attempt. */
  lemma TheOwnerRefreshes(a: Call, cell: Option<Claim>, b: Call)
    requires BeginAlone(a, cell).0.Proceed? && SameWork(a.req, b.req) && a.owner == b.owner
    ensures var held := BeginAlone(a, cell).0.claim;
      var (outcome, after) := BeginAlone(b, BeginAlone(a, cell).1);
      && outcome.Proceed? && after == Some(outcome.claim) && Owns(b, outcome.claim)
      && outcome.claim.attempt == held.attempt && outcome.claim.generation == held.generation + 1
      && outcome.claim.createdAt == held.createdAt && outcome.claim.retryMetadata == held.retryMetadata
  {
    ProceedingOwns(a, cell);
  }

  /** A refresh grants the whole lease again, from the refreshing clock on. */
  lemma TheRefreshedLeaseLasts(a: Call, cell: Option<Claim>, refresh: Call, b: Call)
    requires BeginAlone(a, cell).0.Proceed? && SameWork(a.req, refresh.req) && a.owner == refresh.owner
    requires SameWork(refresh.req, b.req) && b.owner != refresh.owner
    ensures var refreshed := BeginAlone(refresh, BeginAlone(a, cell).1);
      var (outcome, _) := BeginAlone(b, refreshed.1);
      && refreshed.0.Proceed?
      && (outcome.InFlight? <==> b.now < refresh.now + refresh.leaseMs)
      && (outcome.Proceed? <==> refresh.now + refresh.leaseMs <= b.now)
      && (outcome.Proceed? ==> outcome.claim.attempt == BeginAlone(a, cell).0.claim.attempt + 1)
  {
    TheOwnerRefreshes(a, cell, refresh);
    ProceedingOwns(a, cell);
    TheLeaseLasts(refresh, BeginAlone(a, cell).1, b);
  }

  /** Other work under a claimed key conflicts, whatever became of the claim. */
  lemma OtherWorkConflicts(a: Call, cell: Option<Claim>, b: Call)
    requires BeginAlone(a, cell).0.Proceed?
    ensures var (outcome, after) := BeginAlone(b, BeginAlone(a, cell).1);
      (outcome.Conflict? <==> !SameWork(a.req, b.req)) && (outcome.Conflict? ==> after == BeginAlone(a, cell).1)
  {
    ProceedingOwns(a, cell);
  }

  /** What a claim, in whatever state, is answered with: other work conflicts; a proof is
      handed on; a live foreign claim, or a completed one that lost its proof, is waited for;
      everything else goes on. */
  lemma EveryClaimIsAnswered(b: Call, c: Claim)
    ensures var (outcome, _) := BeginAlone(b, Some(c));
      var same := c.requestHash == RequestHash(b.req.kind, b.req.payload);
      && (outcome.Conflict? <==> !same)
      && (outcome.AlreadyCompleted? <==> same && c.state == Completed && c.proof != None)
      && (outcome.AlreadyCompleted? ==> Some(outcome.proof) == c.proof)
      && (outcome.InFlight? <==>
            same && (if c.state == Completed then c.proof == None
                     else c.state == Processing && c.owner != b.owner && b.now < c.leaseUntil))
      && (outcome.InFlight? ==> outcome.claim == c)
  {}

  // ── Completing and failing ────────────────────────────────────────────

  /** After a begin, only its owner may complete or fail, and only under its generation. */
  lemma OnlyTheHolderMayWrite(a: Call, cell: Option<Claim>, owner: string, generation: nat)
    requires BeginAlone(a, cell).0.Proceed?
    ensures var refusal := RefuseWrite(BeginAlone(a, cell).1, owner, generation);
      && (refusal.None? <==> owner == a.owner && generation == BeginAlone(a, cell).0.generation)
      && (refusal == Some(StaleOwner) <==> owner != a.owner)
      && (refusal == Some(CasLost) <==> owner == a.owner && generation != BeginAlone(a, cell).0.generation)
      && RefuseWrite(None, owner, generation) == Some(CasLost)
  {
    ProceedingOwns(a, cell);
  }

  /** The claim file after its holder completed it. */
  function Completing(held: Claim, proof: Proof, now: int): Claim {
    CasResult(Some(held), held.generation, CompletedClaim(held, proof, now)).value
  }

  /**
   * Completing is final.  From then on every begin of the same work, by whomever and
   * whenever, is answered with that proof, other work conflicts, nobody may complete or fail
   * the claim, and the proof is what is read.
   */
  lemma CompletingIsFinal(a: Call, cell: Option<Claim>, proof: Proof, now: int, b: Call, owner: string, generation: nat)
    requires BeginAlone(a, cell).0.Proceed?
    ensures var held := BeginAlone(a, cell).0.claim;
      var done := Completing(held, proof, now);
      && BeginAlone(b, Some(done)) == (if SameWork(a.req, b.req) then AlreadyCompleted(proof) else Conflict, Some(done))
      && RefuseWrite(Some(done), owner, generation).Some? && DurableProof(Some(done)) == Some(proof)
      && done.generation == held.generation + 1 && done.attempt == held.attempt && done.owner == a.owner
      && done.updatedAt == now && done.createdAt == held.createdAt
      && DurableProof(Some(held)).None? && DurableProof(None).None?
  {
    ProceedingOwns(a, cell);
  }

  /** The claim file after its holder failed it. */
  function Failing(held: Claim, reason: string, requestId: string, now: int): Claim {
    CasResult(Some(held), held.generation, FailedClaim(held, reason, requestId, now)).value
  }

  /**
   * Failing gives the claim up.  A begin of the same work, by whomever and however long the
   * lease had to run, goes on at once with one attempt more and remembers the failure; the
   * reason is kept up to its 500th character.
   */
  lemma FailingAllowsARetry(a: Call, cell: Option<Claim>, reason: string, requestId: string, now: int, b: Call)
    requires BeginAlone(a, cell).0.Proceed?
    ensures var held := BeginAlone(a, cell).0.claim;
      var failed := Failing(held, reason, requestId, now);
      var (outcome, after) := BeginAlone(b, Some(failed));
      && failed.failureReason.Some? && failed.failureReason.value <= reason
      && |failed.failureReason.value| == (if |reason| < 500 then |reason| else 500)
      && failed.owner == a.owner && DurableProof(Some(failed)).None?
      && RefuseWrite(Some(failed), a.owner, failed.generation).Some?
      && if !SameWork(a.req, b.req) then outcome == Conflict && after == Some(failed)
         else
           && outcome.Proceed? && after == Some(outcome.claim) && Owns(b, outcome.claim)
           && outcome.claim.attempt == held.attempt + 1 && outcome.claim.createdAt == b.now
           && outcome.claim.retryMetadata == Some(RetryMetadata(requestId, now, held.attempt))
  {
    ProceedingOwns(a, cell);
  }

  // ── One worker left alone ─────────────────────────────────────────────

  /** What a completed claim proves: whose request it was, what was computed, and from when to when. */
  predicate Proves(proof: Proof, req: Request, a: Artifacts, claimedAt: int) {
    && proof.requestHash == RequestHash(req.kind, req.payload) && proof.requestId == req.requestId
    && proof.claimedAt == claimedAt && proof.completedAt == a.updatedAt
    && proof.receipt.requestId == req.requestId && proof.receipt.idempotencyKey == req.idempotencyKey
    && proof.receipt.kind == req.kind && proof.receipt.updatedAt == a.updatedAt
    && proof.receipt.decision == (if req.kind.Decide? then Some(a.decision) else None)
    && proof.artifactHashes.evidenceClaimId == Some(EvidenceId(req.idempotencyKey, req.kind))
    && proof.artifactHashes.spendCorrelationId == Some(SpendId(req.idempotencyKey, req.kind))
    && proof.artifactHashes.goalId == (if req.kind.Decide? then Some(GoalId(req.idempotencyKey)) else None)
  }

  /** `steps` unfolds one step of `Alone`. */
  lemma AloneUnfolds(w: nat, call: Call, pc: Pc, versions: seq<Version>, env: Env, n: nat)
    requires n > 0
    ensures var effect := StepPc(w, call, pc, Stored(versions), env);
      Alone(w, call, pc, versions, env, n) == Alone(w, call, effect.pc, After(versions, effect), env, n - 1)
  {}

  /** From the claim it holds, an undisturbed worker stores and reports the proof of its own work. */
  lemma TheHolderProvesItsWork(w: nat, call: Call, held: Claim, versions: seq<Version>, env: Env)
    requires Stored(versions) == Some(held) && held.state.Processing? && held.owner == call.owner
    requires env.fault.NoFault? && env.artifacts.Some?
    ensures var (pc, after) := Alone(w, call, Computing(held), versions, env, 4);
      && pc.Done? && pc.report.CompletedReport? && DurableProof(Stored(after)) == Some(pc.report.proof)
      && Proves(pc.report.proof, call.req, env.artifacts.value, held.createdAt)
      && |after| == |versions| + 1 && after[|versions|].at == env.now
  {
    var proof := BuildProofBundle(call.req, env.artifacts.value, held.createdAt);
    AloneUnfolds(w, call, Computing(held), versions, env, 4);
    AloneUnfolds(w, call, CompleteRead(held, proof), versions, env, 3);
    AloneUnfolds(w, call, CompleteCas(held, held, proof, env.now), versions, env, 2);
    var after := After(versions, StepPc(w, call, CompleteCas(held, held, proof, env.now), Stored(versions), env));
    AloneUnfolds(w, call, Deliver(proof), after, env, 1);
  }

  /** If computing throws, it fails its claim and reports the error, cut off alike. */
  lemma TheHolderReportsItsFailure(w: nat, call: Call, held: Claim, versions: seq<Version>, env: Env)
    requires Stored(versions) == Some(held) && held.state.Processing? && held.owner == call.owner
    requires env.fault.NoFault? && env.artifacts.None?
    ensures var (pc, after) := Alone(w, call, Computing(held), versions, env, 3);
      && |after| == |versions| + 1 && Stored(after).Some? && Stored(after).value.state.Failed?
      && Stored(after).value.failureReason.Some?
      && pc == Done(FailedReport(Stored(after).value.failureReason.value))
      && Stored(after).value.failureReason.value <= env.error
      && |Stored(after).value.failureReason.value| == (if |env.error| < 500 then |env.error| else 500)
      && Stored(after).value.retryMetadata == Some(RetryMetadata(call.req.requestId, env.now, held.attempt))
  {
    AloneUnfolds(w, call, Computing(held), versions, env, 3);
    AloneUnfolds(w, call, FailRead(held, env.error), versions, env, 2);
    AloneUnfolds(w, call, FailCas(held, held, env.error, env.now), versions, env, 1);
  }

  /** What an overtaken worker finds keeps it from writing. */
  predicate Overtaken(call: Call, held: Claim, stored: Option<Claim>) {
    stored.None? || stored.value.owner != call.owner || stored.value.generation != held.generation
    || !stored.value.state.Processing?
  }

  lemma AnOvertakenWorkerGivesUp(w: nat, call: Call, held: Claim, reason: string, versions: seq<Version>, env: Env)
    requires env.fault.NoFault? && Overtaken(call, held, Stored(versions)) && |reason| <= 500
    ensures Alone(w, call, FailRead(held, reason), versions, env, 2) == (Done(FailedReport(reason)), versions)
  {
    AloneUnfolds(w, call, FailRead(held, reason), versions, env, 2);
    AloneUnfolds(w, call, Done(FailedReport(reason)), versions, env, 1);
  }

  lemma AnOvertakenWorkerLooksForAProof(
    w: nat, call: Call, held: Claim, lost: CompleteOutcome, versions: seq<Version>, env: Env)
    requires env.fault.NoFault? && Overtaken(call, held, Stored(versions))
    ensures var (pc, after) := Alone(w, call, ProofRead(held, lost), versions, env, 3);
      var stored := Stored(versions);
      && after == versions
      && pc == Done(
           if stored.Some? && stored.value.state.Completed? && stored.value.proof.Some?
           then CompletedReport(stored.value.proof.value)
           else if lost.StaleOwner? then Duplicate
           else FailedReport("claim CAS lost after operation"))
  {
    AloneUnfolds(w, call, ProofRead(held, lost), versions, env, 3);
    var next := StepPc(w, call, ProofRead(held, lost), Stored(versions), env).pc;
    if next.FailRead? {
      AnOvertakenWorkerGivesUp(w, call, held, next.reason, versions, env);
    } else {
      AloneUnfolds(w, call, next, versions, env, 2);
      AloneUnfolds(w, call, StepPc(w, call, next, Stored(versions), env).pc, versions, env, 1);
    }
  }

  /**
   * An overtaken worker writes nothing.  If the claim it finds is completed it reports that
   * proof, whoever completed it; if somebody else holds it, a duplicate; and if its own
   * owner moved it on, or it is gone, a failure.
   */
  lemma AnOvertakenWorkerReports(w: nat, call: Call, held: Claim, proof: Proof, versions: seq<Version>, env: Env)
    requires env.fault.NoFault? && Overtaken(call, held, Stored(versions))
    ensures var (pc, after) := Alone(w, call, CompleteRead(held, proof), versions, env, 4);
      var stored := Stored(versions);
      && after == versions
      && pc == Done(
           if stored.Some? && stored.value.state.Completed? && stored.value.proof.Some?
           then CompletedReport(stored.value.proof.value)
           else if stored.Some? && stored.value.owner != call.owner then Duplicate
           else FailedReport("claim CAS lost after operation"))
  {
    AloneUnfolds(w, call, CompleteRead(held, proof), versions, env, 4);
    var lost := RefuseWrite(Stored(versions), call.owner, held.generation).value;
    AnOvertakenWorkerLooksForAProof(w, call, held, lost, versions, env);
  }

  /**
   * A completion is acknowledged, in the order of the writes, exactly when its swap is written
   * without a throw: with the worker that wrote it, its file and its proof.
   */
  lemma CompletionsAreAcknowledged(s: System, w: nat, env: Env)
    requires w in s.workers
    ensures var name := FileOf(s.workers[w].call);
      var pc, stored := s.workers[w].pc, Stored(Versions(s, name));
      Next(s, Step(w, env)).acks ==
        if pc.CompleteCas? && env.fault.NoFault? && stored.Some? && stored.value.generation == pc.held.generation
        then s.acks + [Ack(name, w, pc.proof)] else s.acks
  {}

  /** A create or swap that lost the race starts over from the read, and is counted as one retry. */
  lemma ALostRaceStartsOver(s: System, w: nat, env: Env)
    requires w in s.workers && env.fault.NoFault?
    requires var stored := Stored(Versions(s, FileOf(s.workers[w].call)));
      var pc := s.workers[w].pc;
      || (pc.BeginCreate? && stored.Some?)
      || (pc.BeginCas? && PlanBegin(s.workers[w].call, Some(pc.seen)).PlanCas?
          && (stored.None? || stored.value.generation != pc.seen.generation))
    ensures var s' := Next(s, Step(w, env));
      && s'.workers[w].pc == BeginRead && s'.workers[w].retries == s.workers[w].retries + 1 && s'.log == s.log
  {}

  predicate Beginning(pc: Pc) {
    pc.BeginRead? || pc.BeginCreate? || pc.BeginCas?
  }

  predicate Finishing(pc: Pc) {
    pc.CompleteRead? || pc.CompleteCas? || pc.ProofRead?
  }

  /** A throwing store ends a begin, even where the write took place or was lost; only a write
      that took place is kept. */
  lemma AThrowEndsTheBegin(s: System, w: nat, env: Env)
    requires w in s.workers && Beginning(s.workers[w].pc) && !env.fault.NoFault?
    ensures var s' := Next(s, Step(w, env));
      && s'.workers[w].pc == Crashed && s'.acks == s.acks
      && (env.fault.ThrowBefore? || s.workers[w].pc.BeginRead? ==> s'.log == s.log)
  {}

  /**
   * A throwing store turns a completion into the report of a failure, under the claim held,
   * even where the completion was written; the worker is told of no completion it did not write.
   */
  lemma AThrowFailsTheWork(s: System, w: nat, env: Env)
    requires w in s.workers && Finishing(s.workers[w].pc) && !env.fault.NoFault?
    ensures var s' := Next(s, Step(w, env));
      && s'.workers[w].pc == FailRead(s.workers[w].pc.held, env.error) && s'.acks == s.acks
      && (env.fault.ThrowBefore? || !s.workers[w].pc.CompleteCas? ==> s'.log == s.log)
  {}

  /** A throwing store ends the report of a failure; only a failure that was written is kept. */
  lemma AThrowEndsTheReport(s: System, w: nat, env: Env)
    requires w in s.workers && (s.workers[w].pc.FailRead? || s.workers[w].pc.FailCas?) && !env.fault.NoFault?
    ensures var s' := Next(s, Step(w, env));
      && s'.workers[w].pc == Crashed && s'.acks == s.acks
      && (env.fault.ThrowBefore? || s.workers[w].pc.FailRead? ==> s'.log == s.log)
  {}

  /** What the first read saw is remembered: the stored generation, or that there was none. */
  lemma TheFirstReadIsRemembered(s: System, w: nat, env: Env)
    requires w in s.workers && s.workers[w].pc.BeginRead? && s.workers[w].firstSeen.None?
    ensures var stored := Stored(Versions(s, FileOf(s.workers[w].call)));
      Next(s, Step(w, env)).workers[w].firstSeen == Some(if stored.Some? then stored.value.generation else 0)
  {}

  /** A worker that crashed does nothing any more, whatever the others do. */
  lemma ACrashIsFinal(s: System, w: nat, actions: seq<Action>)
    requires Inv(s) && w in s.workers && !s.workers[w].pc.Done?
    ensures var crashed := Next(s, Crash(w));
      var name := FileOf(s.workers[w].call);
      && crashed.workers[w].pc == Crashed && crashed.log == s.log
      && WritesNothing(Versions(crashed, name), Versions(Run(crashed, actions), name), w)
      && forall i :: |s.acks| <= i < |Run(crashed, actions).acks| ==> Run(crashed, actions).acks[i].worker != w
  {
    NextPreservesInv(s, Crash(w));
    StaleHolderIsFenced(Next(s, Crash(w)), w, actions);
  }

  // ── Over all runs ─────────────────────────────────────────────────────

  /**
   * No live lease is taken over.  In every run, the version a takeover replaces was itself
   * written by a creation, takeover, retry or refresh, and the takeover is stamped at least
   * that write's lease length after it.
   */
  lemma TakeoversWaitForTheLease(actions: seq<Action>, name: string, i: nat)
    ensures var versions := Versions(Run(INITIAL, actions), name);
      i < |versions| && versions[i].how.TakenOver? ==>
        && 0 < i && !versions[i - 1].how.CompletedWrite? && !versions[i - 1].how.FailedWrite?
        && versions[i - 1].at + versions[i - 1].lease <= versions[i].at
        && versions[i - 1].claim.owner != versions[i].claim.owner
  {
    EveryRunKeepsInv(actions);
    var versions := Versions(Run(INITIAL, actions), name);
    if i < |versions| && versions[i].how.TakenOver? {
      assert LegalAt(versions, i) && LegalAt(versions, i - 1);
    }
  }
}
