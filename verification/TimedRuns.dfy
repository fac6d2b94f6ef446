/** Runs in which time passes only as `Latency.MayPass` allows in every process. In those every
    claim is finished within `workers` seconds plus three calls; and for a process in which that
    fits in five minutes, recovery at startup never touches an execution it owns, and none of its
    executions changes status twice. */
module TimedRuns {
  import opened Domain
  import opened Tables
  import opened Replica
  import opened ReplicaInvariants
  import opened System
  import opened Ownership
  import opened Invariant
  import opened Guarantees
  import opened Answers
  import opened Latency
  import opened Provenance

  /** `c` bounds a call of `executeJob`. */
  ghost predicate Timely(s: State, step: Step, c: nat) {
    step.Elapse? ==> forall r :: r in s.reps ==> MayPass(s.reps[r], s.now, step.dt, c)
  }

  ghost predicate TimelyRun(env: Env, s: State, steps: seq<Step>, c: nat)
    requires Run(env, s, steps)
    decreases steps
  {
    steps != [] ==> Timely(s, steps[0], c) && TimelyRun(env, After(env, s, steps[0]), steps[1..], c)
  }

  /** The process finishes every claim within the age at which recovery takes it for lost. */
  predicate Fits(rep: Replica, c: nat) {
    LatencyBound(|rep.workers|, c) <= STALE_RUNNING_AGE
  }

  /** Recovery has marked nothing that the process owns, or wrote the verdict of. */
  ghost predicate SafeIn(rep: Replica, recovered: set<ExecId>) {
    forall e :: e in recovered ==> e !in rep.done && (rep.phase != Crashed ==> e !in Places(rep))
  }

  ghost predicate RecoverySafe(s: State, c: nat) {
    forall r :: r in s.reps && Fits(s.reps[r], c) ==> SafeIn(s.reps[r], s.recovered)
  }

  ghost predicate TimedInv(env: Env, s: State, c: nat) {
    Inv(env, s) && (forall r :: r in s.reps ==> Timed(s.reps[r], s.now, c)) && RecoverySafe(s, c)
  }

  lemma {:induction false} WorkersFixed(env: Env, now: Time, rep: Replica, act: Act)
    requires CanAct(now, rep, act)
    ensures |Next(env, now, rep, act).workers| == |rep.workers|
  {
    match act
    case Tick(t) => assert TickNext(env, now, rep, t).workers == rep.workers;
    case Work(w, a) => assert |WorkNext(env, now, rep, w, a).workers| == |rep.workers|;
    case _ =>
  }

  lemma {:induction false} DeadStaysDead(env: Env, now: Time, rep: Replica, act: Act)
    requires CanAct(now, rep, act)
    ensures rep.phase != Crashed
  {
  }

  lemma {:induction false} DoKeepsTiming(env: Env, s: State, r: ReplicaId, act: Act, c: nat)
    requires TimedInv(env, s, c) && Enabled(env, s, Do(r, act))
    ensures var s' := After(env, s, Do(r, act)); forall q :: q in s'.reps ==> Timed(s'.reps[q], s'.now, c)
  {
    assert LocalOk(s.reps[r]);
    ActKeepsTimed(env, s.reps[r], act, s.now, c);
  }

  lemma {:induction false} FreshTimed(workers: nat, now: Time, c: nat)
    ensures Timed(Fresh(workers), now, c)
  {
  }

  lemma {:induction false} ElapseKeepsTiming(s: State, dt: nat, c: nat)
    requires AllLocal(s) && (forall r :: r in s.reps ==> Timed(s.reps[r], s.now, c)) && Timely(s, Elapse(dt), c)
    ensures forall r :: r in s.reps ==> Timed(s.reps[r], s.now + dt, c)
  {
    forall r | r in s.reps
      ensures Timed(s.reps[r], s.now + dt, c)
    {
      LocalPasses(s.reps[r], s.now, dt, c);
    }
  }

  lemma {:induction false} LocalPasses(rep: Replica, now: Time, dt: nat, c: nat)
    requires LocalOk(rep) && Timed(rep, now, c) && MayPass(rep, now, dt, c)
    ensures Timed(rep, now + dt, c)
  {
    TimePasses(rep, now, dt, c);
  }

  // ---------------------------------------------------------------- recovery spares the living

  lemma {:induction false} InBatch(batch: seq<Claim>, e: ExecId) returns (i: nat)
    requires e in ClaimIds(batch)
    ensures i < |batch| && batch[i].execId == e
  {
    i :| 0 <= i < |batch| && ClaimIds(batch)[i] == e;
  }

  lemma {:induction false} RunningWorker(ws: seq<Worker>, e: ExecId) returns (w: nat)
    requires e in ExecutingIds(ws)
    ensures w < |ws| && ws[w].Busy? && ws[w].claim.execId == e
  {
    var last := |ws| - 1;
    if ws[last].Busy? && ws[last].stage.Executing? && ws[last].claim.execId == e {
      w := last;
    } else {
      w := RunningWorker(ws[..last], e);
    }
  }

  lemma {:induction false} PlaceClaim(rep: Replica, e: ExecId) returns (c: Claim)
    requires e in Places(rep)
    ensures Holds(rep, c) && c.execId == e
  {
    if e in ClaimIds(rep.batch) {
      var i := InBatch(rep.batch, e);
      c := rep.batch[i];
    } else if e in QueueIds(rep.queue) {
      var p :| 0 <= p < |rep.queue| && QueueIds(rep.queue)[p] == e;
      c := rep.queue[p].claim;
      assert InQueue(rep.queue, c);
    } else {
      var w := RunningWorker(rep.workers, e);
      c := rep.workers[w].claim;
      assert InHands(rep.workers, c);
    }
  }

  lemma {:induction false} YoungHeld(rep: Replica, now: Time, c: nat, claim: Claim)
    requires Young(rep, now, c) && Holds(rep, claim)
    ensures now <= claim.startedAt + LatencyBound(|rep.workers|, c)
  {
  }

  lemma {:induction false} ReturnedHoldsNothing(rep: Replica)
    requires Phased(rep)
    ensures rep.phase == Returned ==> Places(rep) == []
  {
    ExecutingLength(rep.workers);
  }

  /** An execution a live process still has to finish is not stale, if the process fits. */
  lemma {:induction false} OwnedIsNotStale(env: Env, s: State, r: ReplicaId, e: ExecId, c: nat)
    requires Inv(env, s) && r in s.reps && Timed(s.reps[r], s.now, c) && Fits(s.reps[r], c)
    requires s.reps[r].phase != Crashed && e in Places(s.reps[r])
    ensures e !in StaleRows(s.db, s.now - STALE_RUNNING_AGE)
  {
    var rep := s.reps[r];
    assert LocalOk(rep);
    var claim := PlaceClaim(rep, e);
    ReturnedHoldsNothing(rep);
    TimedIsYoung(rep, s.now, c);
    YoungHeld(rep, s.now, c, claim);
    if e in s.db.execs {
      assert ExecOk(s, e);
    }
  }

  lemma {:induction false} PlacesShrink(env: Env, now: Time, rep: Replica, act: Act, e: ExecId)
    requires CanAct(now, rep, act) && Placed(rep) && Placed(Next(env, now, rep, act))
    requires e in rep.claimed && e !in Places(rep)
    ensures e !in Places(Next(env, now, rep, act))
  {
    var rep' := Next(env, now, rep, act);
    PlacedOnce(rep, e);
    PlacedOnce(rep', e);
    DoneAfter(env, now, rep, act);
    FailedAfter(env, now, rep, act);
  }

  lemma {:induction false} SafeFrame(s: State, s': State, r: ReplicaId, rep': Replica, c: nat)
    requires RecoverySafe(s, c) && s'.reps == s.reps[r := rep'] && s'.recovered == s.recovered
    requires Fits(rep', c) ==> SafeIn(rep', s.recovered)
    ensures RecoverySafe(s', c)
  {
    assert forall q :: q in s'.reps && q != r ==> q in s.reps && s'.reps[q] == s.reps[q];
  }

  /** A process never comes to hold again what recovery marked. */
  lemma {:induction false} DoKeepsSafe(env: Env, s: State, r: ReplicaId, act: Act, c: nat)
    requires TimedInv(env, s, c) && Enabled(env, s, Do(r, act)) && !act.Recover?
    requires LocalOk(Next(env, s.now, s.reps[r], act))
    ensures RecoverySafe(After(env, s, Do(r, act)), c)
  {
    var rep' := Next(env, s.now, s.reps[r], act);
    WorkersFixed(env, s.now, s.reps[r], act);
    if Fits(rep', c) {
      forall e | e in s.recovered
        ensures e !in rep'.done && (rep'.phase != Crashed ==> e !in Places(rep'))
      {
        SafeOne(env, s, r, act, e);
      }
    }
    SafeFrame(s, AfterDo(env, s, r, act), r, rep', c);
  }

  lemma {:induction false} SafeOne(env: Env, s: State, r: ReplicaId, act: Act, e: ExecId)
    requires IdsOk(s) && HeldOk(s) && ExecsOk(s) && Enabled(env, s, Do(r, act)) && e in s.recovered
    requires LocalOk(s.reps[r]) && SafeIn(s.reps[r], s.recovered) && Placed(Next(env, s.now, s.reps[r], act))
    ensures var rep' := Next(env, s.now, s.reps[r], act);
            e !in rep'.done && (rep'.phase != Crashed ==> e !in Places(rep'))
  {
    var rep, rep' := s.reps[r], Next(env, s.now, s.reps[r], act);
    DoneAfter(env, s.now, rep, act);
    DeadStaysDead(env, s.now, rep, act);
    if Settles(rep, act).Some? {
      SettledIsOwned(s, r, act);
    }
    if e in rep.claimed {
      PlacesShrink(env, s.now, rep, act, e);
    } else {
      NewcomerUnmarked(env, s, r, act, e);
    }
  }

  /** What a commit adds to a process's claims was never marked. */
  lemma {:induction false} NewcomerUnmarked(env: Env, s: State, r: ReplicaId, act: Act, e: ExecId)
    requires IdsOk(s) && ExecsOk(s) && Enabled(env, s, Do(r, act)) && e in s.recovered && e !in s.reps[r].claimed
    requires Placed(Next(env, s.now, s.reps[r], act))
    ensures e !in Places(Next(env, s.now, s.reps[r], act))
  {
    PlacedOnce(Next(env, s.now, s.reps[r], act), e);
    if act == Tick(Commit) {
      assert CanTick(s.now, s.reps[r], Commit);
    } else {
      RepFrame(env, s.now, s.reps[r], act);
    }
  }

  lemma {:induction false} RecoverFrame(env: Env, now: Time, rep: Replica, ok: bool)
    requires CanAct(now, rep, Recover(ok))
    ensures var rep' := Next(env, now, rep, Recover(ok));
            rep'.done == rep.done && Places(rep') == Places(rep) && |rep'.workers| == |rep.workers|
            && rep.phase != Crashed && rep'.phase != Crashed
  {
  }

  /** Told by the fields that a recovery changes. */
  lemma {:induction false} MarkingKeepsSafe(s: State, s': State, r: ReplicaId, rep': Replica,
        marked: set<ExecId>, c: nat)
    requires RecoverySafe(s, c) && r in s.reps && s'.reps == s.reps[r := rep'] && s'.recovered <= s.recovered + marked
    requires rep'.done == s.reps[r].done && Places(rep') == Places(s.reps[r])
    requires |rep'.workers| == |s.reps[r].workers| && s.reps[r].phase != Crashed
    requires forall q, e :: q in s.reps && Fits(s.reps[q], c) && e in marked ==>
               e !in s.reps[q].done && (s.reps[q].phase != Crashed ==> e !in Places(s.reps[q]))
    ensures RecoverySafe(s', c)
  {
    forall q | q in s'.reps && Fits(s'.reps[q], c)
      ensures SafeIn(s'.reps[q], s'.recovered)
    {
      assert SafeIn(s.reps[q], s.recovered);
    }
  }

  lemma {:induction false} RecoverKeepsSafe(env: Env, s: State, r: ReplicaId, ok: bool, c: nat)
    requires TimedInv(env, s, c) && Enabled(env, s, Do(r, Recover(ok)))
    ensures RecoverySafe(After(env, s, Do(r, Recover(ok))), c)
  {
    var rep', stale := Next(env, s.now, s.reps[r], Recover(ok)), StaleRows(s.db, s.now - STALE_RUNNING_AGE);
    forall q, e | q in s.reps && Fits(s.reps[q], c) && e in stale
      ensures e !in s.reps[q].done && (s.reps[q].phase != Crashed ==> e !in Places(s.reps[q]))
    {
      StaleIsFree(env, s, q, e, c);
    }
    RecoverFrame(env, s.now, s.reps[r], ok);
    MarkingKeepsSafe(s, AfterDo(env, s, r, Recover(ok)), r, rep', stale, c);
  }

  lemma {:induction false} StaleIsFree(env: Env, s: State, q: ReplicaId, e: ExecId, c: nat)
    requires Inv(env, s) && q in s.reps && Timed(s.reps[q], s.now, c) && Fits(s.reps[q], c)
    requires e in StaleRows(s.db, s.now - STALE_RUNNING_AGE)
    ensures e !in s.reps[q].done && (s.reps[q].phase != Crashed ==> e !in Places(s.reps[q]))
  {
    assert ExecOk(s, e) && LocalOk(s.reps[q]);
    PlacedOnce(s.reps[q], e);
    if s.reps[q].phase != Crashed && e in Places(s.reps[q]) {
      OwnedIsNotStale(env, s, q, e, c);
    }
  }

  // ---------------------------------------------------------------- all steps

  lemma {:induction false} DoKeepsTimed(env: Env, s: State, r: ReplicaId, act: Act, c: nat)
    requires TimedInv(env, s, c) && Enabled(env, s, Do(r, act))
    ensures TimedInv(env, After(env, s, Do(r, act)), c)
  {
    StepKeepsInv(env, s, Do(r, act));
    DoKeepsTiming(env, s, r, act, c);
    if act.Recover? {
      RecoverKeepsSafe(env, s, r, act.ok, c);
    } else {
      DoKeepsLocal(env, s, r, act);
      DoKeepsSafe(env, s, r, act, c);
    }
  }

  /** Timing and safety, told by what changes. */
  lemma {:induction false} SameReps(s: State, s': State, c: nat)
    requires s'.reps == s.reps && s'.recovered == s.recovered && RecoverySafe(s, c)
    requires forall r :: r in s.reps ==> Timed(s.reps[r], s'.now, c)
    ensures RecoverySafe(s', c) && forall r :: r in s'.reps ==> Timed(s'.reps[r], s'.now, c)
  {
  }

  lemma {:induction false} LaunchKeepsTimed(env: Env, s: State, r: ReplicaId, workers: nat, c: nat)
    requires TimedInv(env, s, c) && Enabled(env, s, Launch(r, workers))
    ensures TimedInv(env, s.(reps := s.reps[r := Fresh(workers)]), c)
  {
    var idle := Fresh(workers);
    MoreKeepsInv(env, s, r, workers);
    FreshTimed(workers, s.now, c);
    ExecutingLength(idle.workers);
    assert Places(idle) == [];
    SafeFrame(s, s.(reps := s.reps[r := idle]), r, idle, c);
  }

  lemma {:induction false} ElapseKeepsTimed(env: Env, s: State, dt: nat, c: nat)
    requires TimedInv(env, s, c) && Timely(s, Elapse(dt), c)
    ensures TimedInv(env, s.(now := s.now + dt), c)
  {
    LaterKeepsInv(env, s, dt);
    ElapseKeepsTiming(s, dt, c);
    SameReps(s, s.(now := s.now + dt), c);
  }

  lemma {:induction false} MoreKeepsInv(env: Env, s: State, r: ReplicaId, workers: nat)
    requires Inv(env, s) && r !in s.reps
    ensures Inv(env, s.(reps := s.reps[r := Fresh(workers)]))
  {
    StepKeepsInv(env, s, Launch(r, workers));
    assert After(env, s, Launch(r, workers)) == s.(reps := s.reps[r := Fresh(workers)]);
  }

  lemma {:induction false} LaterKeepsInv(env: Env, s: State, dt: nat)
    requires Inv(env, s)
    ensures Inv(env, s.(now := s.now + dt))
  {
    StepKeepsInv(env, s, Elapse(dt));
    assert After(env, s, Elapse(dt)) == s.(now := s.now + dt);
  }

  lemma {:induction false} RequestFrame(env: Env, s: State, step: Step)
    requires Enabled(env, s, step) && !step.Do? && !step.Elapse? && !step.Launch?
    ensures var s' := After(env, s, step); s'.now == s.now && s'.reps == s.reps && s'.recovered == s.recovered
  {
    ServiceFrame(env, s, step);
    RequestTime(env, s, step);
  }

  lemma {:induction false} RequestKeepsTimed(env: Env, s: State, step: Step, c: nat)
    requires TimedInv(env, s, c) && Enabled(env, s, step) && !step.Do? && !step.Elapse? && !step.Launch?
    ensures TimedInv(env, After(env, s, step), c)
  {
    StepKeepsInv(env, s, step);
    RequestFrame(env, s, step);
    SameReps(s, After(env, s, step), c);
  }

  lemma {:induction false} StepKeepsTimed(env: Env, s: State, step: Step, c: nat)
    requires TimedInv(env, s, c) && Enabled(env, s, step) && Timely(s, step, c)
    ensures TimedInv(env, After(env, s, step), c)
  {
    match step
    case Do(r, act) => DoKeepsTimed(env, s, r, act, c);
    case Elapse(dt) =>
      ElapseKeepsTimed(env, s, dt, c);
      assert After(env, s, step) == s.(now := s.now + dt);
    case Launch(r, workers) =>
      LaunchKeepsTimed(env, s, r, workers, c);
      assert After(env, s, step) == s.(reps := s.reps[r := Fresh(workers)]);
    case _ => RequestKeepsTimed(env, s, step, c);
  }

  lemma {:induction false} TimelyRunKeepsTimed(env: Env, s: State, steps: seq<Step>, c: nat)
    requires TimedInv(env, s, c) && Run(env, s, steps) && TimelyRun(env, s, steps, c)
    ensures TimedInv(env, End(env, s, steps), c)
    decreases steps
  {
    if steps != [] {
      StepKeepsTimed(env, s, steps[0], c);
      TimelyRunKeepsTimed(env, After(env, s, steps[0]), steps[1..], c);
    }
  }

  // ---------------------------------------------------------------- the theorems

  ghost predicate TimelyReachable(env: Env, s: State, c: nat) {
    exists steps :: Run(env, INIT, steps) && TimelyRun(env, INIT, steps, c) && End(env, INIT, steps) == s
  }

  lemma {:induction false} TimelySnoc(env: Env, s: State, steps: seq<Step>, step: Step, c: nat)
    requires Run(env, s, steps) && TimelyRun(env, s, steps, c)
    requires Enabled(env, End(env, s, steps), step) && Timely(End(env, s, steps), step, c)
    ensures Run(env, s, steps + [step]) && TimelyRun(env, s, steps + [step], c)
    ensures End(env, s, steps + [step]) == After(env, End(env, s, steps), step)
    decreases steps
  {
    RunSnoc(env, s, steps, step);
    if steps == [] {
      assert [] + [step] == [step] && [step][1..] == [];
    } else {
      TimelySnoc(env, After(env, s, steps[0]), steps[1..], step, c);
      assert (steps + [step])[1..] == steps[1..] + [step];
    }
  }

  lemma {:induction false} TimelyOn(env: Env, s: State, step: Step, c: nat)
    requires TimelyReachable(env, s, c) && Enabled(env, s, step) && Timely(s, step, c)
    ensures TimelyReachable(env, After(env, s, step), c)
  {
    var steps :| Run(env, INIT, steps) && TimelyRun(env, INIT, steps, c) && End(env, INIT, steps) == s;
    TimelySnoc(env, INIT, steps, step, c);
  }

  lemma {:induction false} TimelyReachableInv(env: Env, s: State, c: nat)
    requires TimelyReachable(env, s, c)
    ensures TimedInv(env, s, c)
  {
    var steps :| Run(env, INIT, steps) && TimelyRun(env, INIT, steps, c) && End(env, INIT, steps) == s;
    InitInv(env);
    TimelyRunKeepsTimed(env, INIT, steps, c);
  }

  /** In every process, of whatever size, a claim is finished within `workers` seconds plus three
      calls of its start. */
  lemma {:induction false} FinishesInTime(env: Env, s: State, r: ReplicaId, claim: Claim, c: nat)
    requires TimelyReachable(env, s, c) && r in s.reps && Alive(s.reps[r]) && Holds(s.reps[r], claim)
    ensures s.now <= claim.startedAt + 1000 * |s.reps[r].workers| + 3 * c
  {
    TimelyReachableInv(env, s, c);
    assert LocalOk(s.reps[r]) && Timed(s.reps[r], s.now, c);
    TimedIsYoung(s.reps[r], s.now, c);
    YoungHeld(s.reps[r], s.now, c, claim);
  }

  /** Recovery, by whichever process, marks no row whose owner is alive and fits. */
  lemma {:induction false} RecoverySparesTheLiving(env: Env, s: State, r: ReplicaId, q: ReplicaId, e: ExecId, c: nat)
    requires TimelyReachable(env, s, c) && Enabled(env, s, Do(r, Recover(true))) && Owns(s, q, e) && e in s.db.execs
    requires 1000 * |s.reps[q].workers| + 3 * c <= STALE_RUNNING_AGE
    ensures var s' := After(env, s, Do(r, Recover(true)));
            e in s'.db.execs && s'.db.execs[e] == s.db.execs[e] && e !in s'.recovered
  {
    TimelyReachableInv(env, s, c);
    NotMarked(env, s, q, e, c);
    RecoverStep(env, s, r);
    Spared(s, After(env, s, Do(r, Recover(true))), e);
  }

  lemma {:induction false} NotMarked(env: Env, s: State, q: ReplicaId, e: ExecId, c: nat)
    requires TimedInv(env, s, c) && Owns(s, q, e) && Fits(s.reps[q], c)
    ensures e !in s.recovered && e !in StaleRows(s.db, s.now - STALE_RUNNING_AGE)
  {
    OwnedIsNotStale(env, s, q, e, c);
    assert SafeIn(s.reps[q], s.recovered);
  }

  lemma {:induction false} RecoverStep(env: Env, s: State, r: ReplicaId)
    requires Enabled(env, s, Do(r, Recover(true)))
    ensures var s' := After(env, s, Do(r, Recover(true)));
            && s'.db == RecoverStale(s.db, s.now - STALE_RUNNING_AGE, s.now)
            && s'.recovered == s.recovered + StaleRows(s.db, s.now - STALE_RUNNING_AGE)
            && s'.now == s.now && s'.reps == s.reps[r := s.reps[r].(phase := Up)] && s'.tickets == s.tickets
  {
  }

  lemma {:induction false} Spared(s: State, s': State, e: ExecId)
    requires e in s.db.execs && e !in s.recovered && e !in StaleRows(s.db, s.now - STALE_RUNNING_AGE)
    requires s'.db == RecoverStale(s.db, s.now - STALE_RUNNING_AGE, s.now)
    requires s'.recovered == s.recovered + StaleRows(s.db, s.now - STALE_RUNNING_AGE)
    ensures e in s'.db.execs && s'.db.execs[e] == s.db.execs[e] && e !in s'.recovered
  {
  }

  /** Execution `e` is claimed by a process that fits. */
  ghost predicate OwnerFits(s: State, e: ExecId, c: nat) {
    e in s.tickets && s.tickets[e].rep in s.reps && Fits(s.reps[s.tickets[e].rep], c)
  }

  lemma {:induction false} OwnerStaysFit(env: Env, s: State, step: Step, e: ExecId, c: nat)
    requires Inv(env, s) && Enabled(env, s, step) && OwnerFits(s, e, c)
    ensures OwnerFits(After(env, s, step), e, c)
  {
    TicketsStay(env, s, step, e);
    var r := s.tickets[e].rep;
    if step.Do? && step.r == r {
      WorkersFixed(env, s.now, s.reps[r], step.act);
    } else {
      OthersKeepRep(env, s, step, r);
    }
  }

  /** What a process that fits is about to settle is `running`. */
  lemma {:induction false} SettledIsRunning(s: State, r: ReplicaId, act: Act, e: ExecId, c: nat)
    requires HeldOk(s) && ExecsOk(s) && RecoverySafe(s, c) && OwnerFits(s, e, c) && e in s.db.execs
    requires r in s.reps && CanAct(s.now, s.reps[r], act) && LocalOk(s.reps[r]) && s.reps[r].phase != Crashed
    requires Settles(s.reps[r], act) == Some(e)
    ensures s.db.execs[e].status == Running
  {
    assert ExecOk(s, e);
    SettledIsOwned(s, r, act);
    assert SafeIn(s.reps[r], s.recovered);
  }

  /** Nobody overwrites the terminal row of an execution whose owner fits. */
  lemma {:induction false} TerminalUntouched(env: Env, s: State, r: ReplicaId, act: Act, e: ExecId, c: nat)
    requires IdsOk(s) && HeldOk(s) && ExecsOk(s) && RecoverySafe(s, c) && Enabled(env, s, Do(r, act))
    requires LocalOk(s.reps[r]) && OwnerFits(s, e, c)
    requires e in s.db.execs && s.db.execs[e].status != Running
    ensures e in DoDb(env, s, r, act).execs && DoDb(env, s, r, act).execs[e] == s.db.execs[e]
  {
    if act == Tick(Commit) {
      CommitSparesRows(env, s, r, e);
    } else {
      DeadStaysDead(env, s.now, s.reps[r], act);
      if Settles(s.reps[r], act) == Some(e) {
        SettledIsRunning(s, r, act, e, c);
      } else {
        OtherRowsKept(env, s, r, act, e);
      }
    }
  }

  /** The terminal row of an execution whose owner fits is never written again while it exists:
      its status changes at most once. */
  lemma {:induction false} StatusChangesOnceInRuns(env: Env, s: State, steps: seq<Step>, e: ExecId, c: nat)
    requires TimedInv(env, s, c) && Run(env, s, steps) && TimelyRun(env, s, steps, c) && OwnerFits(s, e, c)
    requires e in s.db.execs && s.db.execs[e].status != Running && e in End(env, s, steps).db.execs
    ensures End(env, s, steps).db.execs[e] == s.db.execs[e]
    decreases steps
  {
    if steps != [] {
      var s' := After(env, s, steps[0]);
      StepKeepsTimed(env, s, steps[0], c);
      OwnerStaysFit(env, s, steps[0], e, c);
      StaysInRun(env, s', steps[1..], e);
      TerminalStep(env, s, steps[0], e, c);
      StatusChangesOnceInRuns(env, s', steps[1..], e, c);
    }
  }

  lemma {:induction false} StaysInRun(env: Env, s: State, steps: seq<Step>, e: ExecId)
    requires Inv(env, s) && Run(env, s, steps) && e in s.tickets && e in End(env, s, steps).db.execs
    ensures e in s.db.execs
    decreases steps
  {
    if steps != [] {
      StepKeepsInv(env, s, steps[0]);
      TicketsStay(env, s, steps[0], e);
      StaysInRun(env, After(env, s, steps[0]), steps[1..], e);
      RowsAppear(env, s, steps[0], e);
    }
  }

  lemma {:induction false} TerminalStep(env: Env, s: State, step: Step, e: ExecId, c: nat)
    requires TimedInv(env, s, c) && Enabled(env, s, step) && OwnerFits(s, e, c)
    requires e in s.db.execs && s.db.execs[e].status != Running && e in After(env, s, step).db.execs
    ensures After(env, s, step).db.execs[e] == s.db.execs[e]
  {
    match step
    case Do(r, act) =>
      assert LocalOk(s.reps[r]);
      TerminalUntouched(env, s, r, act, e, c);
    case Launch(_, _) =>
    case _ => ServiceFrame(env, s, step);
  }

  // ---------------------------------------------------------------- the bound is needed

  /** Another process starts after `dt`, and its recovery succeeds. */
  lemma {:induction false} StartLater(env: Env, s: State, dt: nat, r: ReplicaId) returns (s': State)
    requires Reachable(env, s) && r !in s.reps
    ensures Before(env, s, s') && s'.now == s.now + dt && s'.reps == s.reps[r := Fresh(1).(phase := Up)]
    ensures s'.db == RecoverStale(s.db, s.now + dt - STALE_RUNNING_AGE, s.now + dt)
  {
    var s1 := LaunchLater(env, s, dt, r, 1);
    assert Enabled(env, s1, Do(r, Recover(true)));
    RecoverStep(env, s1, r);
    BeforeStep(env, s, s1, Do(r, Recover(true)));
    s' := After(env, s1, Do(r, Recover(true)));
  }

  lemma {:induction false} MarkedRow(t: Tables, cutoff: Time, now: Time, e: ExecId)
    requires e in t.execs && t.execs[e].status == Running && t.execs[e].startedAt < cutoff
    ensures var t' := RecoverStale(t, cutoff, now); e in t'.execs && t'.execs[e] == Recovered(t.execs[e], now)
  {
  }

  /** `s'` comes after `s`: process `q` has not moved and still owns `e`, whose row says it crashed. */
  ghost predicate MarkedAlive(env: Env, s: State, s': State, q: ReplicaId, e: ExecId) {
    && Before(env, s, s') && q in s.reps && q in s'.reps && s'.reps[q] == s.reps[q] && Owns(s', q, e)
    && e in s.db.execs && e in s'.db.execs && s'.db.execs[e] == Recovered(s.db.execs[e], s'.now)
  }

  lemma {:induction false} StillHeld(env: Env, s: State, s': State, q: ReplicaId, e: ExecId, r: ReplicaId)
    requires Before(env, s, s') && Owns(s, q, e) && r !in s.reps && r in s'.reps && s'.reps == s.reps[r := s'.reps[r]]
    requires s'.db == RecoverStale(s.db, s'.now - STALE_RUNNING_AGE, s'.now) && e in s.db.execs
    requires s.db.execs[e].status == Running && s.db.execs[e].startedAt < s'.now - STALE_RUNNING_AGE
    ensures MarkedAlive(env, s, s', q, e)
  {
    MarkedRow(s.db, s'.now - STALE_RUNNING_AGE, s'.now, e);
  }

  /** From any reachable state in which a process owns a running execution, time can pass and the
      start of another process then marks the row as crashed, while its owner is alive and still
      holds it. */
  lemma {:induction false} RecoveryHitsTheLiving(env: Env, s: State, q: ReplicaId, e: ExecId, r: ReplicaId)
    returns (s': State)
    requires Reachable(env, s) && Owns(s, q, e) && r !in s.reps
    requires e in s.db.execs && s.db.execs[e].status == Running
    ensures MarkedAlive(env, s, s', q, e)
  {
    var startedAt := s.db.execs[e].startedAt;
    var dt: nat := STALE_RUNNING_AGE + 1 + if startedAt > s.now then startedAt - s.now else 0;
    s' := StartLater(env, s, dt, r);
    StillHeld(env, s, s', q, e, r);
  }
}
