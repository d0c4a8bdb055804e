/**
 * What the two layers of the learning claims have to do with each other, and that they get
 * somewhere: from whatever a run has left, a request that may be begun can be served, claim,
 * proof, effects and report (src/learning/request-port.ts:212-341).
 */
module ClaimRuns {
  import opened Common
  import opened ClaimContract
  import opened ClaimStore
  import opened ClaimProtocol
  import opened ClaimAnswers
  import opened Projections

  // ── The two layers ────────────────────────────────────────────────────

  lemma RunExtends(s: System, actions: seq<Action>, a: Action)
    ensures Run(s, actions + [a]) == Next(Run(s, actions), a)
  {
    assert (actions + [a])[..|actions|] == actions;
  }

  lemma WorldExtends(world: World, actions: seq<WorldAction>, a: WorldAction)
    ensures RunWorld(world, actions + [a]) == NextWorld(RunWorld(world, actions), a)
  {
    assert (actions + [a])[..|actions|] == actions;
  }

  lemma ClaimsMoveByTheProtocol(world: World, a: WorldAction)
    ensures var next := NextWorld(world, a);
      next.core == world.core || (a.Core? && next.core == Next(world.core, a.action))
  {}

  /**
   * Whatever the world does -- locks, effects, other producers -- its claim files and workers
   * go through a run of the protocol, so that all that holds of those runs holds there.
   */
  lemma {:induction false} ClaimsGoThroughARun(actions: seq<WorldAction>) returns (core: seq<Action>)
    ensures RunWorld(INITIAL_WORLD, actions).core == Run(INITIAL, core)
  {
    core := [];
    if actions != [] {
      var n := |actions| - 1;
      core := ClaimsGoThroughARun(actions[..n]);
      var before := RunWorld(INITIAL_WORLD, actions[..n]);
      ClaimsMoveByTheProtocol(before, actions[n]);
      if NextWorld(before, actions[n]).core != before.core {
        RunExtends(INITIAL, core, actions[n].action);
        core := core + [actions[n].action];
      }
    }
  }

  // ── One worker after another run ──────────────────────────────────────

  predicate OnlyWorkersProgress(world: World) {
    forall w :: w in world.progress ==> w in world.core.workers
  }

  lemma ProgressIsByWorkers(world: World, a: WorldAction)
    requires OnlyWorkersProgress(world)
    ensures OnlyWorkersProgress(NextWorld(world, a))
  {}

  lemma {:induction false} NewWorkersWait(actions: seq<WorldAction>)
    ensures OnlyWorkersProgress(RunWorld(INITIAL_WORLD, actions))
  {
    if actions != [] {
      var n := |actions| - 1;
      NewWorkersWait(actions[..n]);
      ProgressIsByWorkers(RunWorld(INITIAL_WORLD, actions[..n]), actions[n]);
    }
  }

  /** In `now`, the worker has come to `pc` and its claim file to `versions`; effects and locks are those of `start`. */
  predicate At(start: World, now: World, w: nat, call: Call, pc: Pc, versions: seq<Version>) {
    && now.logs == start.logs && now.locks == start.locks && now.progress == start.progress
    && w in now.core.workers && now.core.workers[w].call == call && now.core.workers[w].pc == pc
    && Versions(now.core, FileOf(call)) == versions
  }

  lemma StepMoves(start: World, now: World, w: nat, call: Call, pc: Pc, versions: seq<Version>, env: Env)
    requires At(start, now, w, call, pc, versions) && !pc.Deliver?
    ensures var effect := StepPc(w, call, pc, Stored(versions), env);
      At(start, NextWorld(now, Core(Step(w, env))), w, call, effect.pc, After(versions, effect))
  {}

  lemma OneMore(start: World, done: seq<WorldAction>, w: nat, call: Call, pc: Pc, versions: seq<Version>, env: Env)
    returns (more: seq<WorldAction>)
    requires At(start, RunWorld(INITIAL_WORLD, done), w, call, pc, versions) && !pc.Deliver?
    ensures var effect := StepPc(w, call, pc, Stored(versions), env);
      At(start, RunWorld(INITIAL_WORLD, more), w, call, effect.pc, After(versions, effect))
  {
    more := done + [Core(Step(w, env))];
    WorldExtends(INITIAL_WORLD, done, Core(Step(w, env)));
    StepMoves(start, RunWorld(INITIAL_WORLD, done), w, call, pc, versions, env);
  }

  /** The claim is begun. */
  lemma CanBegin(start: World, done: seq<WorldAction>, w: nat, call: Call, versions: seq<Version>, env: Env)
    returns (more: seq<WorldAction>, v: Version)
    requires env.fault.NoFault? && At(start, RunWorld(INITIAL_WORLD, done), w, call, BeginRead, versions)
    requires BeginAlone(call, Stored(versions)).0.Proceed?
    ensures var held := BeginAlone(call, Stored(versions)).0.claim;
      At(start, RunWorld(INITIAL_WORLD, more), w, call, Computing(held), versions + [v]) && v.claim == held
  {
    BeginAloneIsTwoSteps(w, call, Stored(versions), env);
    var first := StepPc(w, call, BeginRead, Stored(versions), env);
    var second := StepPc(w, call, first.pc, Stored(versions), env);
    more := OneMore(start, done, w, call, BeginRead, versions, env);
    more := OneMore(start, more, w, call, first.pc, versions, env);
    v := second.written.value;
    ProceedingOwns(call, Stored(versions));
  }

  /** What was begun is completed. */
  lemma CanComplete(start: World, done: seq<WorldAction>, w: nat, call: Call, held: Claim, versions: seq<Version>,
                    env: Env)
    returns (more: seq<WorldAction>, proof: Proof)
    requires env.fault.NoFault? && env.artifacts.Some?
    requires At(start, RunWorld(INITIAL_WORLD, done), w, call, Computing(held), versions)
    requires Stored(versions) == Some(held) && held.state.Processing? && held.owner == call.owner
    ensures proof == BuildProofBundle(call.req, env.artifacts.value, held.createdAt)
    ensures exists after: seq<Version> ::
      && At(start, RunWorld(INITIAL_WORLD, more), w, call, Deliver(proof), after)
      && DurableProof(Stored(after)) == Some(proof)
  {
    proof := BuildProofBundle(call.req, env.artifacts.value, held.createdAt);
    more := OneMore(start, done, w, call, Computing(held), versions, env);
    more := OneMore(start, more, w, call, CompleteRead(held, proof), versions, env);
    var cas := CompleteCas(held, held, proof, env.now);
    more := OneMore(start, more, w, call, cas, versions, env);
    var after := After(versions, StepPc(w, call, cas, Stored(versions), env));
    assert At(start, RunWorld(INITIAL_WORLD, more), w, call, Deliver(proof), after);
  }

  /** An effect is projected. */
  lemma CanProject(done: seq<WorldAction>, w: nat) returns (more: seq<WorldAction>)
    requires var world := RunWorld(INITIAL_WORLD, done); Delivering(world, w) && ProgressOf(world, w).stage.Check?
    ensures RunWorld(INITIAL_WORLD, more) == Effected(RunWorld(INITIAL_WORLD, done), w)
  {
    more := done + [Project(w, Written)];
    WorldExtends(INITIAL_WORLD, done, Project(w, Written));
    if ProgressOf(RunWorld(INITIAL_WORLD, more), w).stage.Append? {
      WorldExtends(INITIAL_WORLD, more, Project(w, Written));
      more := more + [Project(w, Written)];
    }
  }

  /** All effects are projected, under the lock. */
  lemma CanReplay(done: seq<WorldAction>, w: nat) returns (more: seq<WorldAction>)
    requires var world := RunWorld(INITIAL_WORLD, done);
      && Delivering(world, w) && ProgressOf(world, w).stage.Waiting?
      && FileOf(world.core.workers[w].call) !in world.locks
      && var req, proof := world.core.workers[w].call.req, world.core.workers[w].pc.proof;
         req.kind.Decide? ==> proof.receipt.decision.Some?
    ensures var before, after := RunWorld(INITIAL_WORLD, done), RunWorld(INITIAL_WORLD, more);
      && after.core == before.core && ProgressOf(after, w) == Progress(Released, true)
      && after.logs == Replayed(before.logs, before.core.workers[w].call.req, before.core.workers[w].pc.proof)
  {
    var world := RunWorld(INITIAL_WORLD, done);
    AWorkerAloneReplays(world, w);
    WorldExtends(INITIAL_WORLD, done, LockAcquired(w));
    more := done + [LockAcquired(w)];
    EffectedIs(RunWorld(INITIAL_WORLD, more), w);
    more := CanProject(more, w);
    EffectedIs(RunWorld(INITIAL_WORLD, more), w);
    more := CanProject(more, w);
    if world.core.workers[w].call.req.kind.Decide? {
      EffectedIs(RunWorld(INITIAL_WORLD, more), w);
      more := CanProject(more, w);
    }
  }

  // ── Every request can be served ───────────────────────────────────────

  /** The worker has reported the proof, and all its effects are there. */
  predicate Served(before: World, after: World, w: nat, proof: Proof) {
    && w in after.core.workers && after.core.workers[w].pc == Done(CompletedReport(proof))
    && DurableProof(Stored(Versions(after.core, FileOf(after.core.workers[w].call)))) == Some(proof)
    && after.logs == Replayed(before.logs, after.core.workers[w].call.req, proof)
    && ProgressOf(after, w) == Progress(Released, true)
  }

  lemma ReportMoves(world: World, w: nat, env: Env)
    requires Delivering(world, w) && ProgressOf(world, w).stage.Released?
    ensures var next := NextWorld(world, Core(Step(w, env)));
      var worker := world.core.workers[w];
      && next.logs == world.logs && next.progress == world.progress && w in next.core.workers
      && next.core.workers[w].call == worker.call && next.core.workers[w].pc == Done(CompletedReport(worker.pc.proof))
      && Versions(next.core, FileOf(worker.call)) == Versions(world.core, FileOf(worker.call))
  {}

  lemma CanReport(before: World, done: seq<WorldAction>, w: nat, proof: Proof, env: Env)
    returns (more: seq<WorldAction>)
    requires var world := RunWorld(INITIAL_WORLD, done);
      && Delivering(world, w) && world.core.workers[w].pc.proof == proof
      && DurableProof(Stored(Versions(world.core, FileOf(world.core.workers[w].call)))) == Some(proof)
      && ProgressOf(world, w) == Progress(Released, true)
      && world.logs == Replayed(before.logs, world.core.workers[w].call.req, proof)
    ensures Served(before, RunWorld(INITIAL_WORLD, more), w, proof)
    ensures RunWorld(INITIAL_WORLD, more).core.workers[w].call == RunWorld(INITIAL_WORLD, done).core.workers[w].call
  {
    more := done + [Core(Step(w, env))];
    WorldExtends(INITIAL_WORLD, done, Core(Step(w, env)));
    ReportMoves(RunWorld(INITIAL_WORLD, done), w, env);
  }

  /**
   * No run can spoil a request for good.  Whatever happened before, a new worker whose request
   * may be begun, and whose projection lock is free, can be served to the end: its claim
   * completed with the proof of its own work, every effect of the proof in its log, and the
   * proof reported.
   */
  lemma ARequestCanBeServed(actions: seq<WorldAction>, w: nat, call: Call, env: Env)
    returns (more: seq<WorldAction>, proof: Proof)
    requires var world := RunWorld(INITIAL_WORLD, actions);
      && w !in world.core.workers && FileOf(call) !in world.locks
      && BeginAlone(call, Stored(Versions(world.core, FileOf(call)))).0.Proceed?
    requires env.fault.NoFault? && env.artifacts.Some?
    ensures var world, after := RunWorld(INITIAL_WORLD, actions), RunWorld(INITIAL_WORLD, more);
      var held := BeginAlone(call, Stored(Versions(world.core, FileOf(call)))).0.claim;
      && Served(world, after, w, proof) && after.core.workers[w].call == call
      && Proves(proof, call.req, env.artifacts.value, held.createdAt)
  {
    var world := RunWorld(INITIAL_WORLD, actions);
    var versions := Versions(world.core, FileOf(call));
    NewWorkersWait(actions);
    WorldExtends(INITIAL_WORLD, actions, Core(Spawn(w, call)));
    more := actions + [Core(Spawn(w, call))];
    ProceedingOwns(call, Stored(versions));
    var v;
    more, v := CanBegin(world, more, w, call, versions, env);
    more, proof := CanComplete(world, more, w, call, v.claim, versions + [v], env);
    more := CanReplay(more, w);
    more := CanReport(world, more, w, proof, env);
  }
}
