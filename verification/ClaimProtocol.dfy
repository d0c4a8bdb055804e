/**
 * Any number of request-port invocations ("workers") racing on claim files
 * (src/learning/request-port.ts over src/learning/claim-store.ts).
 *
 * Every read, exclusive create and compare-and-swap is one atomic step.  Between
 * two steps of a worker anything may happen: steps of others, new invocations, the
 * worker's own crash.  A store call may also throw, before or after its write took
 * effect.  Owners need not be unique and clocks need not agree.
 *
 * `log` keeps every version ever written to a claim file.  The protocol reads only
 * the last one; the older ones are history for the theorems.
 */
module ClaimProtocol {
  import opened Common
  import opened ClaimContract
  import opened ClaimStore

  datatype WriteKind = Created | Refreshed | TakenOver | Retried | CompletedWrite | FailedWrite

  /** A version with the time it is stamped with and the lease length its writer works with. */
  datatype Version = Version(claim: Claim, writer: nat, how: WriteKind, at: int, lease: int)

  datatype Report = Rejected | Duplicate | FailedReport(reason: string) | CompletedReport(proof: Proof)

  /** Where an invocation stands; each constructor carries the invocation's local variables. */
  datatype Pc =
    | BeginRead
    | BeginCreate
    | BeginCas(seen: Claim)
    | Computing(held: Claim)
    | CompleteRead(held: Claim, proof: Proof)
    | CompleteCas(held: Claim, seen: Claim, proof: Proof, at: int)
    | ProofRead(held: Claim, lost: CompleteOutcome)
    | FailRead(held: Claim, reason: string)
    | FailCas(held: Claim, seen: Claim, reason: string, at: int)
    | Deliver(proof: Proof)
    | Done(report: Report)
    | Crashed

  datatype Fault = NoFault | ThrowBefore | ThrowAfter

  /** The world's contribution to one step: a clock reading, the computed artifacts (None: an exception), a fault. */
  datatype Env = Env(now: int, artifacts: Option<Artifacts>, error: string, fault: Fault)

  /** The worker's next program point, the version it wrote, and the proof whose completion it was told is ok. */
  datatype Effect = Effect(pc: Pc, written: Option<Version>, acked: Option<Proof>)

  function Goto(pc: Pc): Effect {
    Effect(pc, None, None)
  }

  function WriteKindOf(why: CasReason): WriteKind {
    match why case Refresh => Refreshed case Takeover => TakenOver case Retry => Retried
  }

  /** One step of worker `w`, as a function of its own program point and the one claim file it uses. */
  function StepPc(w: nat, call: Call, pc: Pc, cell: Option<Claim>, env: Env): Effect {
    match pc
    case BeginRead =>
      if !env.fault.NoFault? then Goto(Crashed)
      else (match PlanBegin(call, cell)
        case PlanCreate(_) => Goto(BeginCreate)
        case PlanCas(_, _, _) => Goto(BeginCas(cell.value))
        case PlanConflict => Goto(Done(Rejected))
        case PlanCompleted(proof) => Goto(Deliver(proof))
        case PlanInFlight(_) => Goto(Done(Duplicate)))
    case BeginCreate =>
      if env.fault.ThrowBefore? then Goto(Crashed)
      else BeginWrite(w, call, CreateResult(cell, BuildProcessingClaim(call, 1, 1)), Created, env)
    case BeginCas(seen) =>
      var plan := PlanBegin(call, Some(seen));
      if env.fault.ThrowBefore? || !plan.PlanCas? then Goto(Crashed)
      else BeginWrite(w, call, CasResult(cell, plan.expected, plan.next), WriteKindOf(plan.why), env)
    case Computing(held) =>
      (match env.artifacts
        case Some(a) => Goto(CompleteRead(held, BuildProofBundle(call.req, a, held.createdAt)))
        case None => Goto(FailRead(held, env.error)))
    case CompleteRead(held, proof) =>
      if !env.fault.NoFault? then Goto(FailRead(held, env.error))
      else (match RefuseWrite(cell, call.owner, held.generation)
        case Some(lost) => Goto(ProofRead(held, lost))
        case None => Goto(CompleteCas(held, cell.value, proof, env.now)))
    case CompleteCas(held, seen, proof, at) =>
      if env.fault.ThrowBefore? then Goto(FailRead(held, env.error))
      else (match CasResult(cell, held.generation, CompletedClaim(seen, proof, at))
        case None => Goto(if env.fault.ThrowAfter? then FailRead(held, env.error) else ProofRead(held, CasLost))
        case Some(c) =>
          var v := Version(c, w, CompletedWrite, at, call.leaseMs);
          if env.fault.ThrowAfter? then Effect(FailRead(held, env.error), Some(v), None)
          else Effect(Deliver(proof), Some(v), Some(proof)))
    case ProofRead(held, lost) =>
      if !env.fault.NoFault? then Goto(FailRead(held, env.error))
      else (match DurableProof(cell)
        case Some(proof) => Goto(Deliver(proof))
        case None =>
          if lost.StaleOwner? then Goto(Done(Duplicate))
          else Goto(FailRead(held, "claim CAS lost after operation")))
    case FailRead(held, reason) =>
      if !env.fault.NoFault? then Goto(Crashed)
      else (match RefuseWrite(cell, call.owner, held.generation)
        case Some(_) => Goto(Done(FailedReport(Truncate(reason))))
        case None => Goto(FailCas(held, cell.value, reason, env.now)))
    case FailCas(held, seen, reason, at) =>
      if env.fault.ThrowBefore? then Goto(Crashed)
      else
        var after := if env.fault.ThrowAfter? then Crashed else Done(FailedReport(Truncate(reason)));
        (match CasResult(cell, held.generation, FailedClaim(seen, reason, call.req.requestId, at))
          case None => Goto(after)
          case Some(c) => Effect(after, Some(Version(c, w, FailedWrite, at, call.leaseMs)), None))
    case Deliver(proof) => Goto(Done(CompletedReport(proof)))
    case Done(_) => Goto(pc)
    case Crashed => Goto(pc)
  }

  /** A write of beginOperation: lost means "start over", won means "go on with the written claim". */
  function BeginWrite(w: nat, call: Call, result: Option<Claim>, how: WriteKind, env: Env): Effect {
    match result
    case None => Goto(if env.fault.ThrowAfter? then Crashed else BeginRead)
    case Some(c) =>
      Effect(if env.fault.ThrowAfter? then Crashed else Computing(c),
             Some(Version(c, w, how, call.now, call.leaseMs)), None)
  }

  // ── The system ────────────────────────────────────────────────────────

  /** `firstSeen`: generation at the first read (0: no claim); `retries`: create or CAS attempts lost in begin. */
  datatype Worker = Worker(call: Call, pc: Pc, firstSeen: Option<nat>, retries: nat)

  datatype Ack = Ack(name: string, worker: nat, proof: Proof)

  datatype System = System(log: map<string, seq<Version>>, workers: map<nat, Worker>, acks: seq<Ack>)

  const INITIAL := System(map[], map[], [])

  datatype Action =
    | Spawn(w: nat, call: Call)
    | Step(w: nat, env: Env)
    | Crash(w: nat)

  function FileOf(call: Call): string {
    SanitizeFileKey(call.req.idempotencyKey)
  }

  function Versions(s: System, name: string): seq<Version> {
    if name in s.log then s.log[name] else []
  }

  /** The stored claim: the last version written. */
  function Stored(versions: seq<Version>): Option<Claim> {
    if versions == [] then None else Some(versions[|versions| - 1].claim)
  }

  function Generation(versions: seq<Version>): nat {
    if versions == [] then 0 else versions[|versions| - 1].claim.generation
  }

  function Advance(worker: Worker, versions: seq<Version>, pc: Pc): Worker {
    var lostRace := (worker.pc.BeginCreate? || worker.pc.BeginCas?) && pc.BeginRead?;
    Worker(worker.call, pc,
           if worker.pc.BeginRead? && worker.firstSeen.None? then Some(Generation(versions)) else worker.firstSeen,
           if lostRace then worker.retries + 1 else worker.retries)
  }

  function Next(s: System, a: Action): System {
    match a
    case Spawn(w, call) =>
      if w in s.workers then s else s.(workers := s.workers[w := Worker(call, BeginRead, None, 0)])
    case Crash(w) =>
      if w !in s.workers || s.workers[w].pc.Done? then s
      else s.(workers := s.workers[w := s.workers[w].(pc := Crashed)])
    case Step(w, env) =>
      if w !in s.workers then s
      else
        var worker := s.workers[w];
        Apply(s, w, StepPc(w, worker.call, worker.pc, Stored(Versions(s, FileOf(worker.call))), env))
  }

  /** The system after worker `w` made a step with this effect on its claim file. */
  function Apply(s: System, w: nat, effect: Effect): System
    requires w in s.workers
  {
    var name := FileOf(s.workers[w].call);
    var versions := Versions(s, name);
    System(
      if effect.written.Some? then s.log[name := versions + [effect.written.value]] else s.log,
      s.workers[w := Advance(s.workers[w], versions, effect.pc)],
      if effect.acked.Some? then s.acks + [Ack(name, w, effect.acked.value)] else s.acks)
  }

  function Run(s: System, actions: seq<Action>): System {
    if actions == [] then s else Next(Run(s, actions[..|actions| - 1]), actions[|actions| - 1])
  }

  // ── Invariants ────────────────────────────────────────────────────────

  /** A claim carries a proof exactly when it is completed, and then a proof of its own request. */
  predicate ProofMatches(c: Claim) {
    && (c.proof.Some? <==> c.state.Completed?)
    && (c.proof.Some? ==> c.proof.value.requestHash == c.requestHash)
  }

  /** The only ways one stored claim may be replaced by the next version. */
  predicate LegalSuccessor(before: Claim, v: Version) {
    var after := v.claim;
    && !before.state.Completed?
    && after.generation == before.generation + 1
    && after.requestHash == before.requestHash
    && match v.how
       case Created => false
       case Refreshed =>
         && before.state.Processing?
         && after == before.(leaseUntil := after.leaseUntil, updatedAt := after.updatedAt,
           generation := after.generation)
       case TakenOver =>
         && before.state.Processing? && LeaseExpired(before, v.at)
         && after.state.Processing? && after.attempt == before.attempt + 1 && after.owner != before.owner
       case Retried =>
         && before.state.Failed?
         && after.state.Processing? && after.attempt == before.attempt + 1
       case CompletedWrite =>
         && before.state.Processing? && after.state.Completed?
         && after == before.(state := Completed, proof := after.proof, updatedAt := after.updatedAt,
           generation := after.generation)
       case FailedWrite =>
         && before.state.Processing? && after.state.Failed?
         && after.attempt == before.attempt && after.owner == before.owner
  }

  /** A version written by beginOperation is leased from its stamp on, for the lease length. */
  predicate LeasedAsStamped(v: Version) {
    v.how.Created? || v.how.Refreshed? || v.how.TakenOver? || v.how.Retried? ==>
      v.claim.state.Processing? && v.claim.leaseUntil == v.at + v.lease
  }

  predicate LegalAt(versions: seq<Version>, i: nat)
    requires i < |versions|
  {
    && versions[i].claim.generation == i + 1
    && ProofMatches(versions[i].claim) && LeasedAsStamped(versions[i])
    && if i > 0 then LegalSuccessor(versions[i - 1].claim, versions[i])
       else versions[0].how.Created? && versions[0].claim.state.Processing? && versions[0].claim.attempt == 1
  }

  /** A claim file's history: a creation at generation 1, then versions that legally succeed each other. */
  ghost predicate LegalHistory(versions: seq<Version>) {
    forall i :: 0 <= i < |versions| ==> LegalAt(versions, i)
  }

  /** A worker's snapshot is the version of its generation; so at the current generation it is the stored claim. */
  ghost predicate Snapshot(versions: seq<Version>, c: Claim) {
    1 <= c.generation <= |versions| && c == versions[c.generation - 1].claim
  }

  /** The claim file is completed, with this proof. */
  ghost predicate Durable(versions: seq<Version>, proof: Proof) {
    var stored := Stored(versions);
    stored.Some? && stored.value.state.Completed? && stored.value.proof == Some(proof)
  }

  ghost predicate Holds(versions: seq<Version>, call: Call, held: Claim) {
    Snapshot(versions, held) && held.state.Processing? && held.requestHash == HashLearningRequest(call.req)
  }

  predicate InBegin(pc: Pc) {
    pc.BeginRead? || pc.BeginCreate? || pc.BeginCas?
  }

  /** The claim an invocation acts on after beginOperation told it to proceed. */
  function HeldBy(pc: Pc): Option<Claim> {
    match pc
    case Computing(held) => Some(held)
    case CompleteRead(held, _) => Some(held)
    case CompleteCas(held, _, _, _) => Some(held)
    case ProofRead(held, _) => Some(held)
    case FailRead(held, _) => Some(held)
    case FailCas(held, _, _, _) => Some(held)
    case _ => None
  }

  ghost predicate PcOk(versions: seq<Version>, call: Call, pc: Pc) {
    && (HeldBy(pc).Some? ==> Holds(versions, call, HeldBy(pc).value))
    && (match pc
        case BeginCas(seen) => Snapshot(versions, seen) && PlanBegin(call, Some(seen)).PlanCas?
        case CompleteRead(_, proof) => proof.requestHash == HashLearningRequest(call.req)
        case CompleteCas(held, seen, proof, _) => seen == held && proof.requestHash == HashLearningRequest(call.req)
        case FailCas(held, seen, _, _) => seen == held
        case Deliver(proof) => Durable(versions, proof) && proof.requestHash == HashLearningRequest(call.req)
        case Done(CompletedReport(proof)) =>
          Durable(versions, proof) && proof.requestHash == HashLearningRequest(call.req)
        case _ => true)
  }

  /** What the retries of one beginOperation have cost: one version by somebody else each. */
  ghost predicate RetriesPaid(versions: seq<Version>, w: nat, worker: Worker) {
    && (worker.firstSeen.None? ==> worker.retries == 0)
    && (worker.firstSeen.None? ==> worker.pc.BeginRead? || worker.pc.Crashed?)
    && (worker.firstSeen.Some? ==>
      var paid := worker.firstSeen.value + worker.retries;
      && paid <= |versions|
      && (worker.pc.BeginCreate? ==> paid == 0)
      && (worker.pc.BeginCas? ==> paid <= worker.pc.seen.generation)
      && forall i :: worker.firstSeen.value <= i < paid ==> versions[i].writer != w)
    && (InBegin(worker.pc) ==> forall i :: 0 <= i < |versions| ==> versions[i].writer != w)
  }

  ghost predicate WorkerOk(versions: seq<Version>, w: nat, worker: Worker) {
    PcOk(versions, worker.call, worker.pc) && RetriesPaid(versions, w, worker)
  }

  ghost predicate AcksOk(s: System) {
    && (forall i :: 0 <= i < |s.acks| ==> Durable(Versions(s, s.acks[i].name), s.acks[i].proof))
    && (forall i, j :: 0 <= i < j < |s.acks| ==> s.acks[i].name != s.acks[j].name)
  }

  ghost predicate Inv(s: System) {
    && (forall name :: name in s.log ==> LegalHistory(s.log[name]))
    && (forall w :: w in s.workers ==> WorkerOk(Versions(s, FileOf(s.workers[w].call)), w, s.workers[w]))
    && (forall name, i :: name in s.log && 0 <= i < |s.log[name]| ==> s.log[name][i].writer in s.workers)
    && AcksOk(s)
  }

  // ── Every step keeps the invariant ────────────────────────────────────

  function After(versions: seq<Version>, effect: Effect): seq<Version> {
    if effect.written.Some? then versions + [effect.written.value] else versions
  }

  /** The successful write of a step is the only change a claim file can see, and it is a legal one. */
  lemma WritesAreLegal(versions: seq<Version>, w: nat, call: Call, pc: Pc, env: Env)
    requires LegalHistory(versions) && PcOk(versions, call, pc)
    ensures var effect := StepPc(w, call, pc, Stored(versions), env);
      LegalHistory(After(versions, effect)) && (effect.written.Some? ==> effect.written.value.writer == w)
  {
    var effect := StepPc(w, call, pc, Stored(versions), env);
    if versions != [] {
      assert LegalAt(versions, |versions| - 1);
    }
    if effect.written.Some? {
      var all := After(versions, effect);
      forall i | 0 <= i < |all| ensures LegalAt(all, i) {
        if i < |versions| {
          assert LegalAt(versions, i);
        }
      }
    }
  }

  /** A claim file never changes the request it is for. */
  lemma {:induction false} RequestHashIsConstant(versions: seq<Version>, i: nat, j: nat)
    requires LegalHistory(versions) && i <= j < |versions|
    ensures versions[i].claim.requestHash == versions[j].claim.requestHash
  {
    if i < j {
      assert LegalAt(versions, j);
      RequestHashIsConstant(versions, i, j - 1);
    }
  }

  lemma LastVersion(versions: seq<Version>)
    requires LegalHistory(versions) && versions != []
    ensures Stored(versions).Some? && Snapshot(versions, Stored(versions).value)
    ensures Stored(versions).value.generation == |versions| && ProofMatches(Stored(versions).value)
  {
    assert LegalAt(versions, |versions| - 1);
  }

  /** The key fact: a snapshot whose generation is the stored one is the stored claim. */
  lemma CurrentSnapshotIsStored(versions: seq<Version>, seen: Claim)
    requires LegalHistory(versions) && Snapshot(versions, seen)
    ensures Stored(versions).Some? && seen.generation <= Stored(versions).value.generation
    ensures seen.generation == Stored(versions).value.generation ==> Stored(versions) == Some(seen)
  {
    LastVersion(versions);
  }

  lemma BeginKeepsOwnPc(versions: seq<Version>, w: nat, call: Call, pc: Pc, env: Env)
    requires LegalHistory(versions) && PcOk(versions, call, pc) && InBegin(pc)
    ensures var effect := StepPc(w, call, pc, Stored(versions), env);
      PcOk(After(versions, effect), call, effect.pc) && effect.acked.None?
  {
    WritesAreLegal(versions, w, call, pc, env);
    var effect := StepPc(w, call, pc, Stored(versions), env);
    if versions != [] {
      LastVersion(versions);
    }
    if effect.written.Some? {
      LastVersion(After(versions, effect));
    }
  }

  lemma CompleteKeepsOwnPc(versions: seq<Version>, w: nat, call: Call, pc: Pc, env: Env)
    requires LegalHistory(versions) && PcOk(versions, call, pc) && HeldBy(pc).Some?
    ensures var effect := StepPc(w, call, pc, Stored(versions), env);
      && PcOk(After(versions, effect), call, effect.pc)
      && (effect.acked.Some? ==> effect.written.Some? && Durable(After(versions, effect), effect.acked.value))
  {
    WritesAreLegal(versions, w, call, pc, env);
    var effect := StepPc(w, call, pc, Stored(versions), env);
    var held := HeldBy(pc).value;
    CurrentSnapshotIsStored(versions, held);
    LastVersion(versions);
    RequestHashIsConstant(versions, held.generation - 1, |versions| - 1);
    assert Holds(After(versions, effect), call, held);
  }

  /** The stepping worker's own assertions hold at its next program point. */
  lemma StepKeepsOwnPc(versions: seq<Version>, w: nat, call: Call, pc: Pc, env: Env)
    requires LegalHistory(versions) && PcOk(versions, call, pc)
    ensures var effect := StepPc(w, call, pc, Stored(versions), env);
      && PcOk(After(versions, effect), call, effect.pc)
      && (effect.acked.Some? ==> effect.written.Some? && Durable(After(versions, effect), effect.acked.value))
  {
    if InBegin(pc) {
      BeginKeepsOwnPc(versions, w, call, pc, env);
    } else if HeldBy(pc).Some? {
      CompleteKeepsOwnPc(versions, w, call, pc, env);
    }
  }

  lemma BeginKeepsOwnRetries(versions: seq<Version>, w: nat, worker: Worker, env: Env)
    requires LegalHistory(versions) && WorkerOk(versions, w, worker) && InBegin(worker.pc)
    ensures var effect := StepPc(w, worker.call, worker.pc, Stored(versions), env);
      RetriesPaid(After(versions, effect), w, Advance(worker, versions, effect.pc))
  {
    if versions != [] {
      LastVersion(versions);
    }
  }

  /** Past begin a worker never retries; it may only extend the history. */
  lemma StepKeepsOwnRetries(versions: seq<Version>, w: nat, worker: Worker, env: Env)
    requires LegalHistory(versions) && WorkerOk(versions, w, worker)
    ensures var effect := StepPc(w, worker.call, worker.pc, Stored(versions), env);
      RetriesPaid(After(versions, effect), w, Advance(worker, versions, effect.pc))
  {
    if InBegin(worker.pc) {
      BeginKeepsOwnRetries(versions, w, worker, env);
    } else {
      NeverBackToBegin(w, worker.call, worker.pc, Stored(versions), env);
    }
  }

  lemma NeverBackToBegin(w: nat, call: Call, pc: Pc, cell: Option<Claim>, env: Env)
    requires !InBegin(pc)
    ensures !InBegin(StepPc(w, call, pc, cell, env).pc)
  {}

  /** A worker's assertions survive a version written by somebody else. */
  lemma OthersSurvive(versions: seq<Version>, v: Version, w: nat, worker: Worker)
    requires LegalHistory(versions + [v]) && WorkerOk(versions, w, worker) && v.writer != w
    ensures WorkerOk(versions + [v], w, worker)
  {
    var all := versions + [v];
    assert forall i :: 0 <= i < |versions| ==> all[i] == versions[i];
    if versions != [] {
      assert LegalAt(all, |versions|);
    }
  }

  lemma StepPreservesInv(s: System, w: nat, env: Env)
    requires Inv(s) && w in s.workers
    ensures Inv(Next(s, Step(w, env)))
  {
    var worker := s.workers[w];
    var name := FileOf(worker.call);
    var versions := Versions(s, name);
    assert LegalHistory(versions) && WorkerOk(versions, w, worker);
    var effect := StepPc(w, worker.call, worker.pc, Stored(versions), env);
    WritesAreLegal(versions, w, worker.call, worker.pc, env);
    StepKeepsOwnPc(versions, w, worker.call, worker.pc, env);
    StepKeepsOwnRetries(versions, w, worker, env);
    EffectPreservesInv(s, w, effect);
  }

  /** Any local effect that keeps its own worker's assertions keeps the whole system's. */
  lemma VersionsAfter(s: System, w: nat, effect: Effect)
    requires w in s.workers
    ensures var name, s' := FileOf(s.workers[w].call), Apply(s, w, effect);
      && Versions(s', name) == After(Versions(s, name), effect)
      && forall other :: other != name ==> Versions(s', other) == Versions(s, other)
  {}

  /** Another worker's knowledge survives a step. */
  lemma AnotherSurvives(s: System, w: nat, effect: Effect, u: nat)
    requires Inv(s) && w in s.workers && u in s.workers && u != w
    requires LegalHistory(After(Versions(s, FileOf(s.workers[w].call)), effect))
    requires effect.written.Some? ==> effect.written.value.writer == w
    ensures WorkerOk(Versions(Apply(s, w, effect), FileOf(s.workers[u].call)), u, s.workers[u])
  {
    var name := FileOf(s.workers[w].call);
    VersionsAfter(s, w, effect);
    if effect.written.Some? && FileOf(s.workers[u].call) == name {
      OthersSurvive(Versions(s, name), effect.written.value, u, s.workers[u]);
    }
  }

  /** A completed claim file takes no further version, so no acknowledgement is ever contradicted or repeated. */
  lemma AcksSurvive(s: System, name: string, effect: Effect)
    requires AcksOk(s) && LegalHistory(Versions(s, name)) && LegalHistory(After(Versions(s, name), effect))
    requires effect.acked.Some? ==>
      effect.written.Some? && Durable(After(Versions(s, name), effect), effect.acked.value)
    ensures effect.written.Some? ==> forall i :: 0 <= i < |s.acks| ==> s.acks[i].name != name
  {
    var versions := Versions(s, name);
    if effect.written.Some? && versions != [] {
      assert LegalAt(versions + [effect.written.value], |versions|);
    }
  }

  lemma AcksStayOk(s: System, w: nat, effect: Effect)
    requires Inv(s) && w in s.workers
    requires var versions := Versions(s, FileOf(s.workers[w].call));
      && LegalHistory(versions) && LegalHistory(After(versions, effect))
      && (effect.acked.Some? ==> effect.written.Some? && Durable(After(versions, effect), effect.acked.value))
    ensures AcksOk(Apply(s, w, effect))
  {
    AcksSurvive(s, FileOf(s.workers[w].call), effect);
    VersionsAfter(s, w, effect);
  }

  lemma EffectPreservesInv(s: System, w: nat, effect: Effect)
    requires Inv(s) && w in s.workers
    requires var versions := Versions(s, FileOf(s.workers[w].call));
      && LegalHistory(After(versions, effect))
      && WorkerOk(After(versions, effect), w, Advance(s.workers[w], versions, effect.pc))
      && (effect.written.Some? ==> effect.written.value.writer == w)
      && (effect.acked.Some? ==> effect.written.Some? && Durable(After(versions, effect), effect.acked.value))
    ensures Inv(Apply(s, w, effect))
  {
    VersionsAfter(s, w, effect);
    AcksStayOk(s, w, effect);
    var s' := Apply(s, w, effect);
    forall u | u in s'.workers
      ensures WorkerOk(Versions(s', FileOf(s'.workers[u].call)), u, s'.workers[u])
    {
      if u != w {
        AnotherSurvives(s, w, effect, u);
      }
    }
  }

  lemma SpawnPreservesInv(s: System, w: nat, call: Call)
    requires Inv(s)
    ensures Inv(Next(s, Spawn(w, call)))
  {
    var s' := Next(s, Spawn(w, call));
    if w !in s.workers {
      assert WorkerOk(Versions(s, FileOf(call)), w, s'.workers[w]);
    }
  }

  lemma CrashPreservesInv(s: System, w: nat)
    requires Inv(s)
    ensures Inv(Next(s, Crash(w)))
  {
  }

  lemma NextPreservesInv(s: System, a: Action)
    requires Inv(s)
    ensures Inv(Next(s, a))
  {
    match a
    case Spawn(w, call) => SpawnPreservesInv(s, w, call);
    case Crash(w) => CrashPreservesInv(s, w);
    case Step(w, env) =>
      if w in s.workers {
        StepPreservesInv(s, w, env);
      }
  }

  lemma {:induction false} RunPreservesInv(s: System, actions: seq<Action>)
    requires Inv(s)
    ensures Inv(Run(s, actions))
  {
    if actions != [] {
      RunPreservesInv(s, actions[..|actions| - 1]);
      NextPreservesInv(Run(s, actions[..|actions| - 1]), actions[|actions| - 1]);
    }
  }

  // ── Theorems over all runs ────────────────────────────────────────────

  lemma EveryRunKeepsInv(actions: seq<Action>)
    ensures Inv(Run(INITIAL, actions))
  {
    RunPreservesInv(INITIAL, actions);
  }

  ghost predicate ReportsCompleted(s: System, w: nat, name: string, proof: Proof) {
    w in s.workers && FileOf(s.workers[w].call) == name && s.workers[w].pc == Done(CompletedReport(proof))
  }

  /**
   * Agreement.  In every run at most one completion per claim file is acknowledged;
   * an acknowledged proof is the stored one; and whoever reports `completed` reports
   * exactly the stored proof, which is a proof of the request it was called with.
   */
  lemma Agreement(actions: seq<Action>)
    ensures var s := Run(INITIAL, actions);
      && (forall i, j :: 0 <= i < j < |s.acks| ==> s.acks[i].name != s.acks[j].name)
      && (forall i :: 0 <= i < |s.acks| ==>
            DurableProof(Stored(Versions(s, s.acks[i].name))) == Some(s.acks[i].proof))
      && (forall w, name, proof :: ReportsCompleted(s, w, name, proof) ==>
            && DurableProof(Stored(Versions(s, name))) == Some(proof)
            && proof.requestHash == HashLearningRequest(s.workers[w].call.req))
  {
    EveryRunKeepsInv(actions);
    var s := Run(INITIAL, actions);
    forall w, name, proof | ReportsCompleted(s, w, name, proof)
      ensures DurableProof(Stored(Versions(s, name))) == Some(proof)
      ensures proof.requestHash == HashLearningRequest(s.workers[w].call.req)
    {
      assert WorkerOk(Versions(s, name), w, s.workers[w]);
    }
  }

  /** Versions are only ever added, by legal successors, and a completed claim is the last version forever. */
  lemma {:induction false} HistoryOnlyGrows(s: System, actions: seq<Action>, name: string)
    requires Inv(s)
    ensures Versions(s, name) <= Versions(Run(s, actions), name)
    ensures LegalHistory(Versions(Run(s, actions), name))
    ensures DurableProof(Stored(Versions(s, name))).Some? ==> Versions(Run(s, actions), name) == Versions(s, name)
  {
    RunPreservesInv(s, actions);
    if actions != [] {
      var before := Run(s, actions[..|actions| - 1]);
      HistoryOnlyGrows(s, actions[..|actions| - 1], name);
      RunPreservesInv(s, actions[..|actions| - 1]);
      CompletedTakesNoVersion(before, actions[|actions| - 1], name);
    }
  }

  lemma CompletedTakesNoVersion(s: System, a: Action, name: string)
    requires Inv(s)
    ensures Versions(s, name) <= Versions(Next(s, a), name)
    ensures DurableProof(Stored(Versions(s, name))).Some? ==> Versions(Next(s, a), name) == Versions(s, name)
  {
    NextPreservesInv(s, a);
    var all := Versions(Next(s, a), name);
    if |all| > |Versions(s, name)| > 0 {
      assert LegalAt(all, |Versions(s, name)|);
    }
  }

  /** How often the claim was taken over or retried after a failure. */
  function Restarts(versions: seq<Version>): nat {
    if versions == [] then 0
    else Restarts(versions[..|versions| - 1])
         + (var how := versions[|versions| - 1].how; if how.TakenOver? || how.Retried? then 1 else 0)
  }

  /**
   * Lineage.  In every run the stored generation counts the writes, `attempt` is one
   * more than the number of takeovers and retries, every version has the request hash
   * of the first, and only the last version can be a completion.
   */
  lemma Lineage(actions: seq<Action>, name: string)
    ensures var versions := Versions(Run(INITIAL, actions), name);
      versions != [] ==>
      && Stored(versions).value.generation == |versions|
      && Stored(versions).value.attempt == 1 + Restarts(versions)
      && (forall i :: 0 <= i < |versions| ==> versions[i].claim.requestHash == versions[0].claim.requestHash)
      && (forall i :: 0 <= i < |versions| - 1 ==> !versions[i].how.CompletedWrite?)
  {
    EveryRunKeepsInv(actions);
    var versions := Versions(Run(INITIAL, actions), name);
    if versions != [] {
      LastVersion(versions);
      AttemptCountsRestarts(versions, |versions|);
      assert versions[..|versions|] == versions;
      forall i | 0 <= i < |versions|
        ensures versions[i].claim.requestHash == versions[0].claim.requestHash
        ensures i < |versions| - 1 ==> !versions[i].how.CompletedWrite?
      {
        RequestHashIsConstant(versions, 0, i);
        assert LegalAt(versions, i) && (i < |versions| - 1 ==> LegalAt(versions, i + 1));
      }
    }
  }

  /**
   * In every run a takeover replaces a claim that was processing under another owner and
   * whose lease had run out by the clock of the one taking over, and a version is
   * completed exactly when it carries a proof, which is then a proof of its own request.
   */
  lemma TakeoversReplaceExpiredLeases(actions: seq<Action>, name: string, i: nat)
    ensures var versions := Versions(Run(INITIAL, actions), name);
      i < |versions| ==>
      && (versions[i].how.TakenOver? ==>
            && 0 < i && versions[i - 1].claim.state.Processing?
            && versions[i - 1].claim.owner != versions[i].claim.owner
            && versions[i - 1].claim.leaseUntil <= versions[i].at)
      && (versions[i].claim.state.Completed? <==> versions[i].claim.proof.Some?)
      && (versions[i].claim.proof.Some? ==> versions[i].claim.proof.value.requestHash == versions[i].claim.requestHash)
  {
    EveryRunKeepsInv(actions);
    var versions := Versions(Run(INITIAL, actions), name);
    if i < |versions| {
      assert LegalAt(versions, i);
    }
  }

  lemma {:induction false} AttemptCountsRestarts(versions: seq<Version>, n: nat)
    requires LegalHistory(versions) && 0 < n <= |versions|
    ensures versions[n - 1].claim.attempt == 1 + Restarts(versions[..n])
  {
    assert LegalAt(versions, n - 1);
    assert versions[..n][..n - 1] == versions[..n - 1];
    if n > 1 {
      AttemptCountsRestarts(versions, n - 1);
    }
  }

  /** Worker `w` acts on a generation that is no longer the stored one. */
  ghost predicate Stale(s: System, w: nat) {
    && w in s.workers
    && !InBegin(s.workers[w].pc)
    && (HeldBy(s.workers[w].pc).Some? ==>
          HeldBy(s.workers[w].pc).value.generation < |Versions(s, FileOf(s.workers[w].call))|)
  }

  ghost predicate WritesNothing(before: seq<Version>, after: seq<Version>, w: nat) {
    before <= after && forall i :: |before| <= i < |after| ==> after[i].writer != w
  }

  /**
   * Fencing.  Once the stored generation has moved past the one a worker holds, that
   * worker neither completes nor fails the claim: in every continuation it writes no
   * version and is told no ok.
   */
  lemma {:induction false} StaleHolderIsFenced(s: System, w: nat, actions: seq<Action>)
    requires Inv(s) && Stale(s, w)
    ensures var s' := Run(s, actions);
      && Stale(s', w) && s'.workers[w].call == s.workers[w].call
      && WritesNothing(Versions(s, FileOf(s.workers[w].call)), Versions(s', FileOf(s.workers[w].call)), w)
      && s.acks <= s'.acks && forall i :: |s.acks| <= i < |s'.acks| ==> s'.acks[i].worker != w
  {
    if actions != [] {
      var shorter := actions[..|actions| - 1];
      StaleHolderIsFenced(s, w, shorter);
      RunPreservesInv(s, shorter);
      StaleStep(Run(s, shorter), w, actions[|actions| - 1]);
    }
  }

  /** With an outdated generation neither the checks nor the compare-and-swap lets a write through. */
  lemma StalePcWritesNothing(w: nat, call: Call, pc: Pc, cell: Option<Claim>, env: Env)
    requires !InBegin(pc)
    requires HeldBy(pc).Some? ==> cell.Some? && HeldBy(pc).value.generation < cell.value.generation
    ensures var effect := StepPc(w, call, pc, cell, env);
      && effect.written.None? && effect.acked.None? && !InBegin(effect.pc)
      && (HeldBy(effect.pc).Some? ==> HeldBy(effect.pc) == HeldBy(pc))
  {}

  lemma StaleStep(s: System, w: nat, a: Action)
    requires Inv(s) && Stale(s, w)
    ensures var s' := Next(s, a);
      && Stale(s', w) && s'.workers[w].call == s.workers[w].call
      && WritesNothing(Versions(s, FileOf(s.workers[w].call)), Versions(s', FileOf(s.workers[w].call)), w)
      && s.acks <= s'.acks && forall i :: |s.acks| <= i < |s'.acks| ==> s'.acks[i].worker != w
  {
    if a.Step? && a.w in s.workers {
      var worker := s.workers[a.w];
      var versions := Versions(s, FileOf(worker.call));
      assert WorkerOk(versions, a.w, worker) && LegalHistory(versions);
      if a.w == w {
        if HeldBy(worker.pc).Some? {
          CurrentSnapshotIsStored(versions, HeldBy(worker.pc).value);
          LastVersion(versions);
        }
        StalePcWritesNothing(w, worker.call, worker.pc, Stored(versions), a.env);
      } else {
        WritesAreLegal(versions, a.w, worker.call, worker.pc, a.env);
        OtherStepKeepsStale(s, w, a.w, StepPc(a.w, worker.call, worker.pc, Stored(versions), a.env));
      }
    }
  }

  lemma OtherStepKeepsStale(s: System, w: nat, u: nat, effect: Effect)
    requires Stale(s, w) && u in s.workers && u != w
    requires effect.written.Some? ==> effect.written.value.writer == u
    ensures var s' := Apply(s, u, effect);
      && Stale(s', w) && s'.workers[w] == s.workers[w]
      && WritesNothing(Versions(s, FileOf(s.workers[w].call)), Versions(s', FileOf(s.workers[w].call)), w)
      && s.acks <= s'.acks && forall i :: |s.acks| <= i < |s'.acks| ==> s'.acks[i].worker != w
  {}

  /**
   * Lock-free progress, as a count.  Whatever a worker's beginOperation lost, create
   * or compare-and-swap, was lost to versions other workers wrote after its first
   * read: there are at least as many of those as retries.
   */
  lemma RetriesArePaidByOthers(actions: seq<Action>, w: nat)
    ensures var s := Run(INITIAL, actions);
      w in s.workers && s.workers[w].firstSeen.Some? ==>
        var versions := Versions(s, FileOf(s.workers[w].call));
        var first := s.workers[w].firstSeen.value;
        && s.workers[w].retries <= |versions| - first
        && forall i :: first <= i < first + s.workers[w].retries ==> versions[i].writer != w
  {
    EveryRunKeepsInv(actions);
  }

  /** Alone, the two begin steps of a worker are the store's beginOperation; nothing is retried. */
  lemma BeginAloneIsTwoSteps(w: nat, call: Call, cell: Option<Claim>, env: Env)
    requires env.fault.NoFault?
    ensures
      var (outcome, after) := BeginAlone(call, cell);
      var first := StepPc(w, call, BeginRead, cell, env);
      var second := StepPc(w, call, first.pc, cell, env);
      match outcome
      case Proceed(claim, generation) =>
        second.pc == Computing(claim) && second.written.Some? && Some(second.written.value.claim) == after
        && generation == claim.generation
      case AlreadyCompleted(proof) => first == Goto(Deliver(proof)) && after == cell
      case Conflict => first == Goto(Done(Rejected)) && after == cell
      case InFlight(_) => first == Goto(Done(Duplicate)) && after == cell
  {}

  /** `n` fault-free steps of one worker alone with its claim file. */
  function Alone(w: nat, call: Call, pc: Pc, versions: seq<Version>, env: Env, n: nat): (Pc, seq<Version>)
    decreases n
  {
    if n == 0 then (pc, versions)
    else
      var effect := StepPc(w, call, pc, Stored(versions), env);
      Alone(w, call, effect.pc, After(versions, effect), env, n - 1)
  }

  /**
   * The protocol does get somewhere: whenever beginOperation may write (no claim, own
   * claim, expired lease, failed claim), a worker left alone completes the claim with
   * the proof of its own request, and reports it, within six steps.
   */
  lemma AloneItCompletes(w: nat, call: Call, versions: seq<Version>, env: Env)
    requires LegalHistory(versions)
    requires env.fault.NoFault? && env.artifacts.Some?
    requires PlanBegin(call, Stored(versions)).PlanCreate? || PlanBegin(call, Stored(versions)).PlanCas?
    ensures var (pc, after) := Alone(w, call, BeginRead, versions, env, 6);
      && pc.Done? && pc.report.CompletedReport? && Durable(after, pc.report.proof)
      && pc.report.proof.requestHash == HashLearningRequest(call.req)
      && |after| == |versions| + 2
  {
    if versions != [] {
      LastVersion(versions);
    }
    var begun := StepPc(w, call, BeginRead, Stored(versions), env);
    var written := StepPc(w, call, begun.pc, Stored(versions), env);
    var owned := After(versions, written);
    var held := written.written.value.claim;
    assert written.pc == Computing(held) && Stored(owned) == Some(held) && held.owner == call.owner
      && held.state.Processing?;
    var proof := BuildProofBundle(call.req, env.artifacts.value, held.createdAt);
    assert StepPc(w, call, Computing(held), Stored(owned), env).pc == CompleteRead(held, proof);
    assert StepPc(w, call, CompleteRead(held, proof), Stored(owned), env).pc == CompleteCas(held, held, proof, env.now);
    var completed := StepPc(w, call, CompleteCas(held, held, proof, env.now), Stored(owned), env);
    assert completed.pc == Deliver(proof) && Durable(After(owned, completed), proof);
    assert Alone(w, call, BeginRead, versions, env, 6) == Alone(w, call, begun.pc, versions, env, 5);
    assert Alone(w, call, begun.pc, versions, env, 5) == Alone(w, call, Computing(held), owned, env, 4);
    assert Alone(w, call, Computing(held), owned, env, 4) == Alone(w, call, CompleteRead(held, proof), owned, env, 3);
    assert Alone(w, call, CompleteRead(held, proof), owned, env, 3)
        == Alone(w, call, CompleteCas(held, held, proof, env.now), owned, env, 2);
    assert Alone(w, call, CompleteCas(held, held, proof, env.now), owned, env, 2)
        == Alone(w, call, Deliver(proof), After(owned, completed), env, 1);
    assert Alone(w, call, Deliver(proof), After(owned, completed), env, 1)
        == Alone(w, call, Done(CompletedReport(proof)), After(owned, completed), env, 0);
  }
}
