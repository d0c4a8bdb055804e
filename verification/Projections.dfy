/**
 * Projection of a durable proof into the goal graph, the evidence ledger and the
 * spend receipts (src/learning/projections.ts), run by every worker that holds a
 * durable proof (src/learning/request-port.ts).
 *
 * Each effect is a check followed by an append, two atomic steps, with steps of
 * other workers, of other producers and crashes in between.  The appends here are
 * plain appends: that createGoal, appendClaim and recordSpend look for the id once
 * more themselves is not relied on.  The lock file gives mutual exclusion per claim
 * file name; a crash frees it.
 */
module Projections {
  import opened Common
  import opened ClaimContract
  import opened ClaimStore
  import opened ClaimProtocol

  datatype Ledger = Goals | Evidence | Spend

  /** Program points of the projection. */
  datatype Stage =
    | Waiting
    | Check(ledger: Ledger)
    | Append(ledger: Ledger)
    | Released

  /** `clean`: the lock was obtained and no write was lost or threw. */
  datatype Progress = Progress(stage: Stage, clean: bool)

  datatype Logs = Logs(goals: seq<ArtifactId>, evidence: seq<ArtifactId>, spend: seq<ArtifactId>) {
    function Get(ledger: Ledger): seq<ArtifactId> {
      match ledger case Goals => goals case Evidence => evidence case Spend => spend
    }

    function Add(ledger: Ledger, id: ArtifactId): (logs: Logs)
      ensures logs.Get(ledger) == Get(ledger) + [id]
      ensures forall other :: other != ledger ==> logs.Get(other) == Get(other)
    {
      match ledger
      case Goals => this.(goals := goals + [id])
      case Evidence => this.(evidence := evidence + [id])
      case Spend => this.(spend := spend + [id])
    }
  }

  datatype World = World(core: System, progress: map<nat, Progress>, locks: map<string, nat>, logs: Logs)

  const INITIAL_WORLD := World(INITIAL, map[], map[], Logs([], [], []))

  /** How an append ends: `Lost` writes are swallowed by the program, thrown errors abort the projection. */
  datatype WriteOutcome = Written | Lost | ThrewBefore | ThrewAfter

  datatype WorldAction =
    | Core(action: Action)
    | LockAcquired(w: nat)
    | LockTimeout(w: nat)
    | Project(w: nat, outcome: WriteOutcome)
    | OtherProducer(ledger: Ledger, n: nat)

  // ── The ids a proof projects to ───────────────────────────────────────

  function OrElse(id: Option<ArtifactId>, otherwise: ArtifactId): ArtifactId {
    if id.Some? then id.value else otherwise
  }

  function ProjectedId(req: Request, proof: Proof, ledger: Ledger): ArtifactId {
    match ledger
    case Goals => OrElse(proof.artifactHashes.goalId, GoalId(req.idempotencyKey))
    case Evidence => OrElse(proof.artifactHashes.evidenceClaimId, EvidenceId(req.idempotencyKey, req.kind))
    case Spend => OrElse(proof.artifactHashes.spendCorrelationId, SpendId(req.idempotencyKey, req.kind))
  }

  /** Where the projection of this request starts: goals only for a decision; a decide without one projects nothing. */
  function FirstStage(req: Request, proof: Proof): Stage {
    if req.kind.Decide? then (if proof.receipt.decision.Some? then Check(Goals) else Released)
    else Check(Evidence)
  }

  /** The effects a request of this kind requires. */
  predicate Requires(kind: RequestKind, ledger: Ledger) {
    ledger.Goals? ==> kind.Decide?
  }

  function NextLedger(ledger: Ledger): Stage {
    match ledger case Goals => Check(Evidence) case Evidence => Check(Spend) case Spend => Released
  }

  // ── Steps ─────────────────────────────────────────────────────────────

  function ProgressOf(world: World, w: nat): Progress {
    if w in world.progress then world.progress[w] else Progress(Waiting, true)
  }

  predicate Delivering(world: World, w: nat) {
    w in world.core.workers && world.core.workers[w].pc.Deliver?
  }

  predicate HoldsLock(progress: Progress) {
    progress.stage.Check? || progress.stage.Append?
  }

  function Unlock(world: World, w: nat): map<string, nat> {
    map name | name in world.locks && world.locks[name] != w :: world.locks[name]
  }

  /** Moves `w` on; reaching `Released` gives the lock back. */
  function MoveTo(world: World, w: nat, progress: Progress): World {
    world.(progress := world.progress[w := progress],
           locks := if progress.stage.Released? then Unlock(world, w) else world.locks)
  }

  function AfterCheck(logs: Logs, id: ArtifactId, p: Progress): Progress
    requires p.stage.Check?
  {
    p.(stage := if id in logs.Get(p.stage.ledger) then NextLedger(p.stage.ledger) else Append(p.stage.ledger))
  }

  predicate TookEffect(outcome: WriteOutcome) {
    outcome.Written? || outcome.ThrewAfter?
  }

  function LogsAfter(logs: Logs, ledger: Ledger, id: ArtifactId, outcome: WriteOutcome): Logs {
    if TookEffect(outcome) then logs.Add(ledger, id) else logs
  }

  function AfterAppend(p: Progress, outcome: WriteOutcome): Progress
    requires p.stage.Append?
  {
    Progress(if outcome.ThrewBefore? || outcome.ThrewAfter? then Released else NextLedger(p.stage.ledger),
             p.clean && outcome.Written?)
  }

  function ProjectStep(world: World, w: nat, outcome: WriteOutcome): World
    requires Delivering(world, w)
  {
    var worker := world.core.workers[w];
    var p := ProgressOf(world, w);
    match p.stage
    case Check(ledger) =>
      MoveTo(world, w, AfterCheck(world.logs, ProjectedId(worker.call.req, worker.pc.proof, ledger), p))
    case Append(ledger) =>
      var id := ProjectedId(worker.call.req, worker.pc.proof, ledger);
      MoveTo(world, w, AfterAppend(p, outcome)).(logs := LogsAfter(world.logs, ledger, id, outcome))
    case _ => world
  }

  function NextWorld(world: World, a: WorldAction): World {
    match a
    case Core(Crash(w)) =>
      if w !in world.core.workers || world.core.workers[w].pc.Done? then world
      else MoveTo(world.(core := Next(world.core, Crash(w))), w, Progress(Released, false))
    case Core(action) =>
      if action.Step? && Delivering(world, action.w) && !ProgressOf(world, action.w).stage.Released? then world
      else world.(core := Next(world.core, action))
    case LockAcquired(w) =>
      if Delivering(world, w) && ProgressOf(world, w).stage.Waiting?
        && FileOf(world.core.workers[w].call) !in world.locks
      then
        var worker := world.core.workers[w];
        MoveTo(world.(locks := world.locks[FileOf(worker.call) := w]), w,
               Progress(FirstStage(worker.call.req, worker.pc.proof), true))
      else world
    case LockTimeout(w) =>
      if Delivering(world, w) && ProgressOf(world, w).stage.Waiting?
      then MoveTo(world, w, Progress(Released, false))
      else world
    case Project(w, outcome) => if Delivering(world, w) then ProjectStep(world, w, outcome) else world
    case OtherProducer(ledger, n) => world.(logs := world.logs.Add(ledger, Foreign(n)))
  }

  function RunWorld(world: World, actions: seq<WorldAction>): World {
    if actions == [] then world
    else NextWorld(RunWorld(world, actions[..|actions| - 1]), actions[|actions| - 1])
  }

  // ── Invariants ────────────────────────────────────────────────────────

  /** The proof was built from a request that uses claim file `name`. */
  predicate ProofOfFile(name: string, proof: Proof) {
    var key, kind := proof.receipt.idempotencyKey, proof.receipt.kind;
    && SanitizeFileKey(key) == name
    && proof.requestHash.kind == kind
    && (proof.receipt.decision.Some? <==> kind.Decide?)
    && proof.artifactHashes == ArtifactHashes(
         if kind.Decide? then Some(GoalId(key)) else None, Some(EvidenceId(key, kind)), Some(SpendId(key, kind)))
  }

  function StoredProof(s: System, name: string): Option<Proof> {
    DurableProof(Stored(Versions(s, name)))
  }

  ghost predicate ProofsFitFiles(s: System) {
    && (forall name :: StoredProof(s, name).Some? ==> ProofOfFile(name, StoredProof(s, name).value))
    && (forall w :: w in s.workers ==>
          var pc := s.workers[w].pc;
          (pc.CompleteRead? ==> ProofOfFile(FileOf(s.workers[w].call), pc.proof))
          && (pc.CompleteCas? ==> ProofOfFile(FileOf(s.workers[w].call), pc.proof)))
  }

  /** The claim file and kind an id was derived from, and the ledger it belongs to. */
  predicate IdFits(id: ArtifactId, ledger: Ledger, proof: Proof) {
    match ledger
    case Goals => id == GoalId(proof.receipt.idempotencyKey) && proof.receipt.kind.Decide?
    case Evidence => id == EvidenceId(proof.receipt.idempotencyKey, proof.receipt.kind)
    case Spend => id == SpendId(proof.receipt.idempotencyKey, proof.receipt.kind)
  }

  /** The id is projected from the proof its claim file is completed with. */
  predicate Backed(s: System, ledger: Ledger, id: ArtifactId) {
    !id.Foreign? ==>
      var proof := StoredProof(s, SanitizeFileKey(id.key));
      proof.Some? && IdFits(id, ledger, proof.value)
  }

  predicate OnceEach(log: seq<ArtifactId>) {
    forall i, j :: 0 <= i < j < |log| && log[i] == log[j] ==> log[i].Foreign?
  }

  ghost predicate LogOk(s: System, logs: Logs, ledger: Ledger) {
    OnceEach(logs.Get(ledger)) && forall i :: 0 <= i < |logs.Get(ledger)| ==> Backed(s, ledger, logs.Get(ledger)[i])
  }

  /** The stage has the effect on `ledger` behind it. */
  predicate Past(stage: Stage, ledger: Ledger) {
    match stage
    case Waiting => false
    case Check(at) => Rank(ledger) < Rank(at)
    case Append(at) => Rank(ledger) < Rank(at)
    case Released => true
  }

  function Rank(ledger: Ledger): nat {
    match ledger case Goals => 0 case Evidence => 1 case Spend => 2
  }

  /** The durable proof a worker projects or has reported. */
  function ProofHeld(s: System, w: nat): Option<Proof> {
    if w !in s.workers then None
    else match s.workers[w].pc
      case Deliver(proof) => Some(proof)
      case Done(CompletedReport(proof)) => Some(proof)
      case _ => None
  }

  ghost predicate LockOk(world: World, w: nat) {
    HoldsLock(ProgressOf(world, w)) ==>
      && Delivering(world, w)
      && var name := FileOf(world.core.workers[w].call);
         name in world.locks && world.locks[name] == w
  }

  ghost predicate LockOwnerOk(world: World, name: string)
    requires name in world.locks
  {
    var w := world.locks[name];
    HoldsLock(ProgressOf(world, w)) && w in world.core.workers && FileOf(world.core.workers[w].call) == name
  }

  /** What a worker's progress says about the three logs. */
  ghost predicate ProgressOk(s: System, logs: Logs, w: nat, p: Progress) {
    match ProofHeld(s, w)
    case None => p.stage.Waiting? || !p.clean
    case Some(proof) =>
      var req := s.workers[w].call.req;
      && (p.stage.Append? || p.stage.Check? ==> Requires(req.kind, p.stage.ledger))
      && (p.stage.Append? ==> ProjectedId(req, proof, p.stage.ledger) !in logs.Get(p.stage.ledger))
      && (p.clean ==> forall ledger :: Requires(req.kind, ledger) && Past(p.stage, ledger) ==>
            ProjectedId(req, proof, ledger) in logs.Get(ledger))
  }

  ghost predicate WorldInv(world: World) {
    && Inv(world.core)
    && ProofsFitFiles(world.core)
    && (forall w: nat :: LockOk(world, w))
    && (forall name :: name in world.locks ==> LockOwnerOk(world, name))
    && (forall w: nat :: ProgressOk(world.core, world.logs, w, ProgressOf(world, w)))
    && (forall ledger :: LogOk(world.core, world.logs, ledger))
  }

  // ── Steps of the claim protocol underneath ────────────────────────────

  lemma ProofsKeepFittingFiles(s: System, a: Action)
    requires Inv(s) && ProofsFitFiles(s)
    ensures ProofsFitFiles(Next(s, a))
  {
    if a.Step? && a.w in s.workers {
      var worker := s.workers[a.w];
      var versions := Versions(s, FileOf(worker.call));
      assert StoredProof(s, FileOf(worker.call)) == DurableProof(Stored(versions));
      assert WorkerOk(versions, a.w, worker) && LegalHistory(versions);
      StepKeepsProofShape(versions, a.w, worker.call, worker.pc, a.env);
      EffectKeepsFitting(s, a.w, StepPc(a.w, worker.call, worker.pc, Stored(versions), a.env));
    } else {
      assert forall name :: StoredProof(Next(s, a), name) == StoredProof(s, name);
    }
  }

  lemma EffectKeepsFitting(s: System, w: nat, effect: Effect)
    requires ProofsFitFiles(s) && w in s.workers
    requires var name, pc := FileOf(s.workers[w].call), effect.pc;
      && (var stored := DurableProof(Stored(After(Versions(s, name), effect)));
        stored.Some? ==> ProofOfFile(name, stored.value))
      && (pc.CompleteRead? ==> ProofOfFile(name, pc.proof))
      && (pc.CompleteCas? ==> ProofOfFile(name, pc.proof))
    ensures ProofsFitFiles(Apply(s, w, effect))
  {
    var name := FileOf(s.workers[w].call);
    var s' := Apply(s, w, effect);
    assert Versions(s', name) == After(Versions(s, name), effect);
    assert forall other :: other != name ==> StoredProof(s', other) == StoredProof(s, other);
  }

  /** The proofs a worker carries, and the one stored for its file, are proofs of that file. */
  predicate ProofsFit(call: Call, pc: Pc, stored: Option<Claim>) {
    && (DurableProof(stored).Some? ==> ProofOfFile(FileOf(call), DurableProof(stored).value))
    && (pc.CompleteRead? ==> ProofOfFile(FileOf(call), pc.proof))
    && (pc.CompleteCas? ==> ProofOfFile(FileOf(call), pc.proof))
  }

  lemma StepKeepsCarriedProof(w: nat, call: Call, pc: Pc, cell: Option<Claim>, env: Env)
    requires ProofsFit(call, pc, cell)
    ensures var next := StepPc(w, call, pc, cell, env).pc;
      && (next.CompleteRead? ==> ProofOfFile(FileOf(call), next.proof))
      && (next.CompleteCas? ==> ProofOfFile(FileOf(call), next.proof))
  {}

  lemma StepWritesFittingProof(w: nat, call: Call, pc: Pc, cell: Option<Claim>, env: Env)
    requires ProofsFit(call, pc, cell)
    ensures var written := StepPc(w, call, pc, cell, env).written;
      written.Some? && DurableProof(Some(written.value.claim)).Some? ==>
        ProofOfFile(FileOf(call), DurableProof(Some(written.value.claim)).value)
  {}

  lemma StepKeepsProofShape(versions: seq<Version>, w: nat, call: Call, pc: Pc, env: Env)
    requires LegalHistory(versions) && PcOk(versions, call, pc)
    requires ProofsFit(call, pc, Stored(versions))
    ensures var effect := StepPc(w, call, pc, Stored(versions), env);
      ProofsFit(call, effect.pc, Stored(After(versions, effect)))
  {
    StepKeepsCarriedProof(w, call, pc, Stored(versions), env);
    StepWritesFittingProof(w, call, pc, Stored(versions), env);
  }

  /** Durable proofs stay, so what is backed stays backed. */
  lemma DurableProofsStay(s: System, a: Action, name: string)
    requires Inv(s) && StoredProof(s, name).Some?
    ensures StoredProof(Next(s, a), name) == StoredProof(s, name)
  {
    CompletedTakesNoVersion(s, a, name);
  }

  lemma CoreStepKeepsLogs(s: System, a: Action, logs: Logs, ledger: Ledger)
    requires Inv(s) && LogOk(s, logs, ledger)
    ensures LogOk(Next(s, a), logs, ledger)
  {
    forall i | 0 <= i < |logs.Get(ledger)| ensures Backed(Next(s, a), ledger, logs.Get(ledger)[i]) {
      var id := logs.Get(ledger)[i];
      assert Backed(s, ledger, id);
      if !id.Foreign? {
        DurableProofsStay(s, a, SanitizeFileKey(id.key));
      }
    }
  }

  /** A step concerns one worker; what it holds a proof of never changes once it has one, short of a crash. */
  lemma StepFrame(s: System, a: Action, w: nat)
    requires !a.Crash?
    ensures var s' := Next(s, a);
      && (w in s.workers ==> w in s'.workers && s'.workers[w].call == s.workers[w].call)
      && (ProofHeld(s, w).Some? ==> ProofHeld(s', w) == ProofHeld(s, w))
      && (a.w != w ==> ProofHeld(s', w) == ProofHeld(s, w) && (w in s.workers ==> s'.workers[w] == s.workers[w]))
      && (a.Spawn? && w !in s.workers ==> ProofHeld(s', w).None?)
  {}

  lemma CoreStepKeepsWorker(world: World, a: Action, w: nat)
    requires !a.Crash? && NextWorld(world, Core(a)) != world
    requires LockOk(world, w) && ProgressOk(world.core, world.logs, w, ProgressOf(world, w))
    ensures var world' := NextWorld(world, Core(a));
      LockOk(world', w) && ProgressOk(world'.core, world'.logs, w, ProgressOf(world', w))
  {
    StepFrame(world.core, a, w);
  }

  lemma CoreStepKeepsWorld(world: World, a: Action)
    requires WorldInv(world) && !a.Crash?
    ensures WorldInv(NextWorld(world, Core(a)))
  {
    var world' := NextWorld(world, Core(a));
    if world' != world {
      NextPreservesInv(world.core, a);
      ProofsKeepFittingFiles(world.core, a);
      forall ledger ensures LogOk(world'.core, world'.logs, ledger) {
        CoreStepKeepsLogs(world.core, a, world.logs, ledger);
      }
      forall w: nat
        ensures LockOk(world', w) && ProgressOk(world'.core, world'.logs, w, ProgressOf(world', w))
      {
        CoreStepKeepsWorker(world, a, w);
      }
      forall name | name in world'.locks ensures LockOwnerOk(world', name) {
        assert LockOwnerOk(world, name);
        StepFrame(world.core, a, world.locks[name]);
      }
    }
  }

  // ── Steps of the projection itself ────────────────────────────────────

  /** The id a worker projects belongs to its own claim file, whose stored proof backs it. */
  lemma ProjectedIdIsBacked(s: System, w: nat, ledger: Ledger)
    requires Inv(s) && ProofsFitFiles(s) && ProofHeld(s, w).Some? && Requires(s.workers[w].call.req.kind, ledger)
    ensures var call, proof := s.workers[w].call, ProofHeld(s, w).value;
      var id := ProjectedId(call.req, proof, ledger);
      && proof.receipt.kind == call.req.kind && (proof.receipt.decision.Some? <==> call.req.kind.Decide?)
      && !id.Foreign? && SanitizeFileKey(id.key) == FileOf(call) && Backed(s, ledger, id)
  {
    var worker := s.workers[w];
    assert WorkerOk(Versions(s, FileOf(worker.call)), w, worker);
    assert StoredProof(s, FileOf(worker.call)) == ProofHeld(s, w);
  }

  lemma AppendKeepsLog(s: System, logs: Logs, ledger: Ledger, id: ArtifactId, other: Ledger)
    requires LogOk(s, logs, other) && Backed(s, ledger, id) && (id.Foreign? || id !in logs.Get(ledger))
    ensures LogOk(s, logs.Add(ledger, id), other)
  {}

  /** An append leaves a worker's assertions alone, unless that worker is about to append this very id. */
  lemma AppendKeepsProgress(s: System, logs: Logs, ledger: Ledger, id: ArtifactId, w: nat, p: Progress)
    requires ProgressOk(s, logs, w, p)
    requires p.stage.Append? && ProofHeld(s, w).Some? ==>
      id != ProjectedId(s.workers[w].call.req, ProofHeld(s, w).value, p.stage.ledger)
    ensures ProgressOk(s, logs.Add(ledger, id), w, p)
  {}

  /** Giving `w` a new progress (and perhaps the lock back) leaves everybody else's locks in order. */
  lemma MoveKeepsLocks(world: World, w: nat, p: Progress)
    requires forall u: nat :: LockOk(world, u)
    requires forall name :: name in world.locks ==> LockOwnerOk(world, name)
    requires HoldsLock(p) ==> HoldsLock(ProgressOf(world, w))
    requires HoldsLock(p) || p.stage.Released?
    ensures var world' := MoveTo(world, w, p);
      (forall u: nat :: LockOk(world', u)) && (forall name :: name in world'.locks ==> LockOwnerOk(world', name))
  {
    var world' := MoveTo(world, w, p);
    forall u: nat ensures LockOk(world', u) {
      assert LockOk(world, u);
    }
    forall name | name in world'.locks ensures LockOwnerOk(world', name) {
      assert LockOwnerOk(world, name);
    }
  }

  lemma MoveKeepsWorld(world: World, w: nat, p: Progress)
    requires WorldInv(world)
    requires HoldsLock(p) ==> HoldsLock(ProgressOf(world, w))
    requires HoldsLock(p) || p.stage.Released?
    requires ProgressOk(world.core, world.logs, w, p)
    ensures WorldInv(MoveTo(world, w, p))
  {
    MoveKeepsLocks(world, w, p);
    var world' := MoveTo(world, w, p);
    forall u: nat ensures ProgressOk(world'.core, world'.logs, u, ProgressOf(world', u)) {
      assert ProgressOk(world.core, world.logs, u, ProgressOf(world, u));
    }
  }

  lemma AcquireKeepsOwnProgress(s: System, logs: Logs, w: nat)
    requires Inv(s) && ProofsFitFiles(s) && w in s.workers && s.workers[w].pc.Deliver?
    ensures var first := FirstStage(s.workers[w].call.req, s.workers[w].pc.proof);
      first.Check? && ProgressOk(s, logs, w, Progress(first, true))
  {
    ProjectedIdIsBacked(s, w, Evidence);
  }

  lemma AcquireKeepsLocks(world: World, w: nat, p: Progress)
    requires forall u: nat :: LockOk(world, u)
    requires forall name :: name in world.locks ==> LockOwnerOk(world, name)
    requires Delivering(world, w) && FileOf(world.core.workers[w].call) !in world.locks
    requires !HoldsLock(ProgressOf(world, w)) && HoldsLock(p)
    ensures var world' := world.(progress := world.progress[w := p],
                                 locks := world.locks[FileOf(world.core.workers[w].call) := w]);
      (forall u: nat :: LockOk(world', u)) && (forall name :: name in world'.locks ==> LockOwnerOk(world', name))
  {
    var name := FileOf(world.core.workers[w].call);
    var world' := world.(progress := world.progress[w := p], locks := world.locks[name := w]);
    forall u: nat ensures LockOk(world', u) {
      assert LockOk(world, u);
    }
    forall other | other in world'.locks ensures LockOwnerOk(world', other) {
      assert other != name ==> LockOwnerOk(world, other);
    }
  }

  lemma AcquireKeepsWorld(world: World, w: nat)
    requires WorldInv(world)
    ensures WorldInv(NextWorld(world, LockAcquired(w)))
  {
    if Delivering(world, w) && ProgressOf(world, w).stage.Waiting?
      && FileOf(world.core.workers[w].call) !in world.locks {
      var worker := world.core.workers[w];
      var p := Progress(FirstStage(worker.call.req, worker.pc.proof), true);
      AcquireKeepsOwnProgress(world.core, world.logs, w);
      AcquireKeepsLocks(world, w, p);
      var world' := NextWorld(world, LockAcquired(w));
      assert world' == world.(progress := world.progress[w := p], locks := world.locks[FileOf(worker.call) := w]);
      forall u: nat ensures ProgressOk(world'.core, world'.logs, u, ProgressOf(world', u)) {
        assert u != w ==> ProgressOk(world.core, world.logs, u, ProgressOf(world, u));
      }
    }
  }

  lemma TimeoutKeepsWorld(world: World, w: nat)
    requires WorldInv(world)
    ensures WorldInv(NextWorld(world, LockTimeout(w)))
  {
    if Delivering(world, w) && ProgressOf(world, w).stage.Waiting? {
      MoveKeepsWorld(world, w, Progress(Released, false));
    }
  }

  lemma CheckKeepsOwnProgress(s: System, logs: Logs, w: nat, p: Progress)
    requires ProgressOk(s, logs, w, p) && p.stage.Check? && ProofHeld(s, w).Some?
    ensures ProgressOk(s, logs, w,
              AfterCheck(logs, ProjectedId(s.workers[w].call.req, ProofHeld(s, w).value, p.stage.ledger), p))
  {}

  lemma CheckIsAMove(world: World, w: nat, outcome: WriteOutcome)
    requires Delivering(world, w) && ProgressOf(world, w).stage.Check?
    ensures var worker, p := world.core.workers[w], ProgressOf(world, w);
      NextWorld(world, Project(w, outcome)) == MoveTo(
        world, w, AfterCheck(world.logs, ProjectedId(worker.call.req, worker.pc.proof, p.stage.ledger), p))
  {}

  lemma CheckKeepsWorld(world: World, w: nat, outcome: WriteOutcome)
    requires WorldInv(world) && Delivering(world, w) && ProgressOf(world, w).stage.Check?
    ensures WorldInv(NextWorld(world, Project(w, outcome)))
  {
    var worker, p := world.core.workers[w], ProgressOf(world, w);
    var id := ProjectedId(worker.call.req, worker.pc.proof, p.stage.ledger);
    CheckIsAMove(world, w, outcome);
    CheckKeepsOwnProgress(world.core, world.logs, w, p);
    MoveKeepsWorld(world, w, AfterCheck(world.logs, id, p));
  }

  /** Two lock holders use different claim files, so they never append the same id. */
  lemma HoldersAppendDifferentIds(world: World, w: nat, u: nat)
    requires WorldInv(world) && w != u
    requires ProgressOf(world, w).stage.Append? && ProgressOf(world, u).stage.Append?
    ensures Delivering(world, w) && Delivering(world, u)
    ensures ProjectedId(world.core.workers[w].call.req, world.core.workers[w].pc.proof,
      ProgressOf(world, w).stage.ledger)
         != ProjectedId(world.core.workers[u].call.req, world.core.workers[u].pc.proof,
           ProgressOf(world, u).stage.ledger)
  {
    assert LockOk(world, w) && LockOk(world, u);
    assert ProgressOk(world.core, world.logs, w, ProgressOf(world, w));
    assert ProgressOk(world.core, world.logs, u, ProgressOf(world, u));
    ProjectedIdIsBacked(world.core, w, ProgressOf(world, w).stage.ledger);
    ProjectedIdIsBacked(world.core, u, ProgressOf(world, u).stage.ledger);
  }

  lemma AppendKeepsOwnProgress(s: System, logs: Logs, w: nat, p: Progress, outcome: WriteOutcome)
    requires ProgressOk(s, logs, w, p) && p.stage.Append? && ProofHeld(s, w).Some?
    ensures var id := ProjectedId(s.workers[w].call.req, ProofHeld(s, w).value, p.stage.ledger);
      ProgressOk(s, LogsAfter(logs, p.stage.ledger, id, outcome), w, AfterAppend(p, outcome))
  {}

  lemma AppendKeepsOthersProgress(world: World, w: nat, u: nat, outcome: WriteOutcome)
    requires WorldInv(world) && Delivering(world, w) && ProgressOf(world, w).stage.Append? && u != w
    ensures ProgressOk(world.core, LogsAppended(world, w, outcome), u, ProgressOf(world, u))
  {
    var worker, ledger := world.core.workers[w], ProgressOf(world, w).stage.ledger;
    if ProgressOf(world, u).stage.Append? {
      HoldersAppendDifferentIds(world, w, u);
    }
    AppendKeepsProgress(world.core, world.logs, ledger, ProjectedId(worker.call.req, worker.pc.proof, ledger),
                        u, ProgressOf(world, u));
  }

  function LogsAppended(world: World, w: nat, outcome: WriteOutcome): Logs
    requires Delivering(world, w) && ProgressOf(world, w).stage.Append?
  {
    var worker, ledger := world.core.workers[w], ProgressOf(world, w).stage.ledger;
    LogsAfter(world.logs, ledger, ProjectedId(worker.call.req, worker.pc.proof, ledger), outcome)
  }

  lemma AppendKeepsLogs(world: World, w: nat, outcome: WriteOutcome, other: Ledger)
    requires WorldInv(world) && Delivering(world, w) && ProgressOf(world, w).stage.Append?
    ensures LogOk(world.core, LogsAppended(world, w, outcome), other)
  {
    var worker, ledger := world.core.workers[w], ProgressOf(world, w).stage.ledger;
    assert ProgressOk(world.core, world.logs, w, ProgressOf(world, w)) && LogOk(world.core, world.logs, other);
    ProjectedIdIsBacked(world.core, w, ledger);
    AppendKeepsLog(world.core, world.logs, ledger, ProjectedId(worker.call.req, worker.pc.proof, ledger), other);
  }

  lemma AppendKeepsAllOthers(world: World, w: nat, outcome: WriteOutcome)
    requires WorldInv(world) && Delivering(world, w) && ProgressOf(world, w).stage.Append?
    ensures forall u: nat :: u != w ==> ProgressOk(world.core, LogsAppended(world, w, outcome), u, ProgressOf(world, u))
  {
    forall u: nat | u != w
      ensures ProgressOk(world.core, LogsAppended(world, w, outcome), u, ProgressOf(world, u))
    {
      AppendKeepsOthersProgress(world, w, u, outcome);
    }
  }

  lemma AppendKeepsAllLogs(world: World, w: nat, outcome: WriteOutcome)
    requires WorldInv(world) && Delivering(world, w) && ProgressOf(world, w).stage.Append?
    ensures forall other :: LogOk(world.core, LogsAppended(world, w, outcome), other)
  {
    forall other ensures LogOk(world.core, LogsAppended(world, w, outcome), other) {
      AppendKeepsLogs(world, w, outcome, other);
    }
  }

  lemma AppendIsAMove(world: World, w: nat, outcome: WriteOutcome)
    requires Delivering(world, w) && ProgressOf(world, w).stage.Append?
    ensures NextWorld(world, Project(w, outcome)) ==
            MoveTo(world, w, AfterAppend(ProgressOf(world, w), outcome)).(logs := LogsAppended(world, w, outcome))
  {}

  lemma AppendKeepsWorld(world: World, w: nat, outcome: WriteOutcome)
    requires WorldInv(world) && Delivering(world, w) && ProgressOf(world, w).stage.Append?
    ensures WorldInv(NextWorld(world, Project(w, outcome)))
  {
    var p := ProgressOf(world, w);
    AppendIsAMove(world, w, outcome);
    AppendKeepsOwnProgress(world.core, world.logs, w, p, outcome);
    MoveKeepsLocks(world, w, AfterAppend(p, outcome));
    AppendKeepsAllOthers(world, w, outcome);
    AppendKeepsAllLogs(world, w, outcome);
    MoveWithLogsKeepsWorld(world, w, AfterAppend(p, outcome), LogsAppended(world, w, outcome));
  }

  lemma MoveWithLogsKeepsWorld(world: World, w: nat, p: Progress, logs: Logs)
    requires Inv(world.core) && ProofsFitFiles(world.core)
    requires var moved := MoveTo(world, w, p);
      (forall u: nat :: LockOk(moved, u)) && (forall name :: name in moved.locks ==> LockOwnerOk(moved, name))
    requires ProgressOk(world.core, logs, w, p)
    requires forall u: nat :: u != w ==> ProgressOk(world.core, logs, u, ProgressOf(world, u))
    requires forall ledger :: LogOk(world.core, logs, ledger)
    ensures WorldInv(MoveTo(world, w, p).(logs := logs))
  {
    var moved := MoveTo(world, w, p);
    var world' := moved.(logs := logs);
    forall u: nat
      ensures LockOk(world', u) && ProgressOk(world'.core, world'.logs, u, ProgressOf(world', u))
    {
      assert LockOk(moved, u);
      if u != w {
        assert ProgressOk(world.core, logs, u, ProgressOf(world, u));
      }
    }
    forall name | name in world'.locks ensures LockOwnerOk(world', name) {
      assert LockOwnerOk(moved, name);
    }
  }

  lemma CrashFrame(s: System, w: nat, u: nat)
    ensures u != w ==> ProofHeld(Next(s, Crash(w)), u) == ProofHeld(s, u)
    ensures u in s.workers ==> u in Next(s, Crash(w)).workers && Next(s, Crash(w)).workers[u].call == s.workers[u].call
    ensures u != w && u in s.workers ==> Next(s, Crash(w)).workers[u] == s.workers[u]
  {}

  lemma CrashKeepsWorker(world: World, w: nat, u: nat)
    requires w in world.core.workers && !world.core.workers[w].pc.Done?
    requires LockOk(world, u) && ProgressOk(world.core, world.logs, u, ProgressOf(world, u))
    ensures var world' := NextWorld(world, Core(Crash(w)));
      LockOk(world', u) && ProgressOk(world'.core, world'.logs, u, ProgressOf(world', u))
  {
    CrashFrame(world.core, w, u);
  }

  lemma CrashKeepsWorld(world: World, w: nat)
    requires WorldInv(world)
    ensures WorldInv(NextWorld(world, Core(Crash(w))))
  {
    if w in world.core.workers && !world.core.workers[w].pc.Done? {
      NextPreservesInv(world.core, Crash(w));
      ProofsKeepFittingFiles(world.core, Crash(w));
      var world' := NextWorld(world, Core(Crash(w)));
      forall ledger ensures LogOk(world'.core, world'.logs, ledger) {
        CoreStepKeepsLogs(world.core, Crash(w), world.logs, ledger);
      }
      forall u: nat
        ensures LockOk(world', u) && ProgressOk(world'.core, world'.logs, u, ProgressOf(world', u))
      {
        CrashKeepsWorker(world, w, u);
      }
      forall name | name in world'.locks ensures LockOwnerOk(world', name) {
        assert LockOwnerOk(world, name);
        CrashFrame(world.core, w, world.locks[name]);
      }
    }
  }

  lemma OtherProducerKeepsWorld(world: World, ledger: Ledger, n: nat)
    requires WorldInv(world)
    ensures WorldInv(NextWorld(world, OtherProducer(ledger, n)))
  {
    var world' := NextWorld(world, OtherProducer(ledger, n));
    forall u: nat
      ensures LockOk(world', u) && ProgressOk(world'.core, world'.logs, u, ProgressOf(world', u))
    {
      var p := ProgressOf(world, u);
      assert LockOk(world, u) && ProgressOk(world.core, world.logs, u, p);
      if p.stage.Append? && ProofHeld(world.core, u).Some? {
        ProjectedIdIsBacked(world.core, u, p.stage.ledger);
      }
      AppendKeepsProgress(world.core, world.logs, ledger, Foreign(n), u, p);
    }
    forall other ensures LogOk(world'.core, world'.logs, other) {
      AppendKeepsLog(world.core, world.logs, ledger, Foreign(n), other);
    }
    forall name | name in world'.locks ensures LockOwnerOk(world', name) {
      assert LockOwnerOk(world, name);
    }
  }

  lemma NextKeepsWorld(world: World, a: WorldAction)
    requires WorldInv(world)
    ensures WorldInv(NextWorld(world, a))
  {
    match a
    case Core(action) =>
      if action.Crash? {
        CrashKeepsWorld(world, action.w);
      } else {
        CoreStepKeepsWorld(world, action);
      }
    case LockAcquired(w) => AcquireKeepsWorld(world, w);
    case LockTimeout(w) => TimeoutKeepsWorld(world, w);
    case Project(w, outcome) =>
      if Delivering(world, w) && ProgressOf(world, w).stage.Check? {
        CheckKeepsWorld(world, w, outcome);
      } else if Delivering(world, w) && ProgressOf(world, w).stage.Append? {
        AppendKeepsWorld(world, w, outcome);
      }
    case OtherProducer(ledger, n) => OtherProducerKeepsWorld(world, ledger, n);
  }

  lemma {:induction false} EveryRunKeepsWorld(actions: seq<WorldAction>)
    ensures WorldInv(RunWorld(INITIAL_WORLD, actions))
  {
    if actions != [] {
      EveryRunKeepsWorld(actions[..|actions| - 1]);
      NextKeepsWorld(RunWorld(INITIAL_WORLD, actions[..|actions| - 1]), actions[|actions| - 1]);
    }
  }

  // ── Theorems ──────────────────────────────────────────────────────────

  function Occurrences(log: seq<ArtifactId>, id: ArtifactId): nat {
    multiset(log)[id]
  }

  lemma {:induction false} OnceEachCounts(log: seq<ArtifactId>, id: ArtifactId)
    requires OnceEach(log) && !id.Foreign?
    ensures Occurrences(log, id) == if id in log then 1 else 0
  {
    if log != [] {
      var front := log[..|log| - 1];
      assert log == front + [log[|log| - 1]];
      OnceEachCounts(front, id);
    }
  }

  /**
   * At most once, and never early.  In every run, under every interleaving, crash and
   * lost write, each learning id occurs at most once in its log; and if it occurs, the
   * claim file of its key is completed with the proof the id is projected from.
   */
  lemma AtMostOnceAndNeverEarly(actions: seq<WorldAction>, ledger: Ledger, id: ArtifactId)
    requires !id.Foreign?
    ensures var world := RunWorld(INITIAL_WORLD, actions);
      && Occurrences(world.logs.Get(ledger), id) <= 1
      && (id in world.logs.Get(ledger) ==>
            var proof := StoredProof(world.core, SanitizeFileKey(id.key));
            proof.Some? && IdFits(id, ledger, proof.value))
  {
    EveryRunKeepsWorld(actions);
    var world := RunWorld(INITIAL_WORLD, actions);
    assert LogOk(world.core, world.logs, ledger);
    OnceEachCounts(world.logs.Get(ledger), id);
  }

  /**
   * Exactly once.  A worker whose projection ran to its end with every write
   * successful leaves exactly one of each effect its kind requires, however often and
   * by whomever the proof was or will be replayed.
   */
  lemma ExactlyOnceAfterACleanReplay(actions: seq<WorldAction>, w: nat, ledger: Ledger)
    ensures var world := RunWorld(INITIAL_WORLD, actions);
      var p := ProgressOf(world, w);
      ProofHeld(world.core, w).Some? && p == Progress(Released, true)
      && Requires(world.core.workers[w].call.req.kind, ledger) ==>
        Occurrences(world.logs.Get(ledger),
                    ProjectedId(world.core.workers[w].call.req, ProofHeld(world.core, w).value, ledger)) == 1
  {
    EveryRunKeepsWorld(actions);
    var world := RunWorld(INITIAL_WORLD, actions);
    var p := ProgressOf(world, w);
    if ProofHeld(world.core, w).Some? && p == Progress(Released, true)
       && Requires(world.core.workers[w].call.req.kind, ledger)
    {
      assert ProgressOk(world.core, world.logs, w, p) && LogOk(world.core, world.logs, ledger);
      ProjectedIdIsBacked(world.core, w, ledger);
      OnceEachCounts(world.logs.Get(ledger),
                     ProjectedId(world.core.workers[w].call.req, ProofHeld(world.core, w).value, ledger));
    }
  }

  /**
   * The same in plain ids: a decision projected to its end has its goal, its evidence claim
   * and its spend receipt exactly once, an outcome its evidence claim and spend receipt,
   * under the key of the request the claim file was completed for.
   */
  lemma ACleanReplayLeaves(actions: seq<WorldAction>, w: nat)
    ensures var world := RunWorld(INITIAL_WORLD, actions);
      ProofHeld(world.core, w).Some? && ProgressOf(world, w) == Progress(Released, true) ==>
        var kind := world.core.workers[w].call.req.kind;
        var key := ProofHeld(world.core, w).value.receipt.idempotencyKey;
        && (kind.Decide? ==> Occurrences(world.logs.goals, GoalId(key)) == 1)
        && Occurrences(world.logs.evidence, EvidenceId(key, kind)) == 1
        && Occurrences(world.logs.spend, SpendId(key, kind)) == 1
  {
    EveryRunKeepsWorld(actions);
    var world := RunWorld(INITIAL_WORLD, actions);
    if ProofHeld(world.core, w).Some? && ProgressOf(world, w) == Progress(Released, true) {
      if world.core.workers[w].call.req.kind.Decide? {
        ExactlyOnceAfterACleanReplay(actions, w, Goals);
        ProjectedIdIsBacked(world.core, w, Goals);
      }
      ExactlyOnceAfterACleanReplay(actions, w, Evidence);
      ProjectedIdIsBacked(world.core, w, Evidence);
      ExactlyOnceAfterACleanReplay(actions, w, Spend);
      ProjectedIdIsBacked(world.core, w, Spend);
    }
  }

  // ── The uninterrupted replay ──────────────────────────────────────────

  /** One check-then-append effect that nothing disturbs. */
  function Ensured(log: seq<ArtifactId>, id: ArtifactId): (after: seq<ArtifactId>)
    ensures id in after && log <= after
    ensures OnceEach(log) ==> OnceEach(after)
  {
    if id in log then log else log + [id]
  }

  function Replayed(logs: Logs, req: Request, proof: Proof): Logs {
    if FirstStage(req, proof).Released? then logs
    else Logs(
      if req.kind.Decide? then Ensured(logs.goals, ProjectedId(req, proof, Goals)) else logs.goals,
      Ensured(logs.evidence, ProjectedId(req, proof, Evidence)),
      Ensured(logs.spend, ProjectedId(req, proof, Spend)))
  }

  /** `after` is `log` with `id` in it, appended if it was not there. */
  predicate Gained(log: seq<ArtifactId>, id: ArtifactId, after: seq<ArtifactId>) {
    after == if id in log then log else log + [id]
  }

  /**
   * What replaying a completed request leaves: the ids of its key and kind, each appended
   * unless it is there, the goal for decisions only.
   */
  lemma WhatAReplayLeaves(logs: Logs, req: Request, a: Artifacts, claimedAt: int)
    ensures var after := Replayed(logs, req, BuildProofBundle(req, a, claimedAt));
      && (if req.kind.Decide? then Gained(logs.goals, GoalId(req.idempotencyKey), after.goals)
          else after.goals == logs.goals)
      && Gained(logs.evidence, EvidenceId(req.idempotencyKey, req.kind), after.evidence)
      && Gained(logs.spend, SpendId(req.idempotencyKey, req.kind), after.spend)
  {}

  /** A decision that carries none projects nothing; ids a proof does not name are those of the request. */
  lemma WhatAnOddProofLeaves(logs: Logs, req: Request, proof: Proof)
    requires proof.artifactHashes == ArtifactHashes(None, None, None)
    ensures var after := Replayed(logs, req, proof);
      if req.kind.Decide? && proof.receipt.decision.None? then after == logs else
      && (if req.kind.Decide? then Gained(logs.goals, GoalId(req.idempotencyKey), after.goals)
          else after.goals == logs.goals)
      && Gained(logs.evidence, EvidenceId(req.idempotencyKey, req.kind), after.evidence)
      && Gained(logs.spend, SpendId(req.idempotencyKey, req.kind), after.spend)
  {}

  /** Replaying a proof again, by a request for the same file and kind, changes nothing. */
  lemma ReplayIsIdempotent(logs: Logs, req: Request, again: Request, proof: Proof)
    requires ProofOfFile(SanitizeFileKey(req.idempotencyKey), proof)
    requires again.kind == req.kind == proof.receipt.kind
    ensures Replayed(Replayed(logs, req, proof), again, proof) == Replayed(logs, req, proof)
  {
    assert forall ledger :: Requires(req.kind, ledger) ==>
      ProjectedId(req, proof, ledger) == ProjectedId(again, proof, ledger);
  }

  /** In the interleaved system, a lock holder left alone performs exactly one such effect per check. */
  lemma EffectLeftAlone(world: World, w: nat)
    requires Delivering(world, w) && ProgressOf(world, w).stage.Check?
    ensures var p, worker := ProgressOf(world, w), world.core.workers[w];
      var ledger := p.stage.ledger;
      var id := ProjectedId(worker.call.req, worker.pc.proof, ledger);
      var checked := NextWorld(world, Project(w, Written));
      var done := if id in world.logs.Get(ledger) then checked else NextWorld(checked, Project(w, Written));
      && done.logs.Get(ledger) == Ensured(world.logs.Get(ledger), id)
      && (forall other :: other != ledger ==> done.logs.Get(other) == world.logs.Get(other))
      && ProgressOf(done, w) == p.(stage := NextLedger(ledger)) && done.core == world.core
  {}

  /** A check and, if the id is not there, the append, with nobody in between. */
  function Effected(world: World, w: nat): World
    requires Delivering(world, w) && ProgressOf(world, w).stage.Check?
  {
    var checked := NextWorld(world, Project(w, Written));
    if ProgressOf(checked, w).stage.Append? then NextWorld(checked, Project(w, Written)) else checked
  }

  lemma EffectedIs(world: World, w: nat)
    requires Delivering(world, w) && ProgressOf(world, w).stage.Check?
    ensures var p, worker := ProgressOf(world, w), world.core.workers[w];
      var ledger := p.stage.ledger;
      var done := Effected(world, w);
      && done.logs.Get(ledger) == Ensured(world.logs.Get(ledger), ProjectedId(worker.call.req, worker.pc.proof, ledger))
      && (forall other :: other != ledger ==> done.logs.Get(other) == world.logs.Get(other))
      && ProgressOf(done, w) == p.(stage := NextLedger(ledger)) && done.core == world.core && Delivering(done, w)
  {
    EffectLeftAlone(world, w);
  }

  /**
   * A throwing append ends the replay: nothing further is projected and the lock is given back.
   * The log has the id if it was written before the throw.
   */
  lemma AThrowEndsTheReplay(world: World, w: nat, outcome: WriteOutcome)
    requires Delivering(world, w) && ProgressOf(world, w).stage.Append?
    requires outcome.ThrewBefore? || outcome.ThrewAfter?
    ensures var after := NextWorld(world, Project(w, outcome));
      var ledger := ProgressOf(world, w).stage.ledger;
      var id := ProjectedId(world.core.workers[w].call.req, world.core.workers[w].pc.proof, ledger);
      && ProgressOf(after, w) == Progress(Released, false) && after.core == world.core
      && after.logs == (if outcome.ThrewAfter? then world.logs.Add(ledger, id) else world.logs)
      && forall name :: name in after.locks <==> name in world.locks && world.locks[name] != w
  {}

  /** A lost append is not noticed: the replay goes on, and is no clean one any more. */
  lemma ALostAppendIsNotNoticed(world: World, w: nat)
    requires Delivering(world, w) && ProgressOf(world, w).stage.Append?
    ensures var after := NextWorld(world, Project(w, Lost));
      && ProgressOf(after, w) == Progress(NextLedger(ProgressOf(world, w).stage.ledger), false)
      && after.logs == world.logs && after.core == world.core
  {}

  /**
   * A worker that gets the projection lock and is left alone replays its proof as a whole
   * and is then done, without a lost write.
   */
  lemma AWorkerAloneReplays(world: World, w: nat)
    requires Delivering(world, w) && ProgressOf(world, w).stage.Waiting?
    requires FileOf(world.core.workers[w].call) !in world.locks
    requires var req, proof := world.core.workers[w].call.req, world.core.workers[w].pc.proof;
      req.kind.Decide? ==> proof.receipt.decision.Some?
    ensures var req, proof := world.core.workers[w].call.req, world.core.workers[w].pc.proof;
      var locked := NextWorld(world, LockAcquired(w));
      && Delivering(locked, w) && ProgressOf(locked, w).stage.Check?
      && var first := Effected(locked, w);
         && Delivering(first, w) && ProgressOf(first, w).stage.Check?
         && var second := Effected(first, w);
            && Delivering(second, w)
            && (req.kind.Decide? ==> ProgressOf(second, w).stage.Check?)
            && var last := if req.kind.Decide? then Effected(second, w) else second;
               last.logs == Replayed(world.logs, req, proof) && ProgressOf(last, w) == Progress(Released, true)
  {
    var locked := NextWorld(world, LockAcquired(w));
    EffectedIs(locked, w);
    var first := Effected(locked, w);
    EffectedIs(first, w);
    var second := Effected(first, w);
    if world.core.workers[w].call.req.kind.Decide? {
      EffectedIs(second, w);
    }
    assert forall logs: Logs :: logs == Logs(logs.Get(Goals), logs.Get(Evidence), logs.Get(Spend));
  }

  class LocalLedgers {
    var goals: seq<ArtifactId>
    var evidence: seq<ArtifactId>
    var spend: seq<ArtifactId>

    function Contents(): Logs
      reads this
    {
      Logs(goals, evidence, spend)
    }

    method ProjectDecision(req: Request, proof: Proof)
      modifies this
      ensures Contents() == Logs(
        Ensured(old(goals), ProjectedId(req, proof, Goals)),
        Ensured(old(evidence), ProjectedId(req, proof, Evidence)),
        Ensured(old(spend), ProjectedId(req, proof, Spend)))
    {
      if ProjectedId(req, proof, Goals) !in goals {
        goals := goals + [ProjectedId(req, proof, Goals)];
      }
      ProjectOutcome(req, proof);
    }

    method ProjectOutcome(req: Request, proof: Proof)
      modifies this`evidence, this`spend
      ensures evidence == Ensured(old(evidence), ProjectedId(req, proof, Evidence))
      ensures spend == Ensured(old(spend), ProjectedId(req, proof, Spend))
    {
      if ProjectedId(req, proof, Evidence) !in evidence {
        evidence := evidence + [ProjectedId(req, proof, Evidence)];
      }
      if ProjectedId(req, proof, Spend) !in spend {
        spend := spend + [ProjectedId(req, proof, Spend)];
      }
    }

    /** The body of the projection lock when every write succeeds. */
    method ProjectFromProof(req: Request, proof: Proof)
      modifies this
      ensures Contents() == Replayed(old(Contents()), req, proof)
    {
      if req.kind.Decide? && proof.receipt.decision.Some? {
        ProjectDecision(req, proof);
        return;
      }
      if req.kind.Outcome? {
        ProjectOutcome(req, proof);
      }
    }
  }
}
