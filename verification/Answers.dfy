/** What the database answered earlier in a run: the rows a transaction works on were the answer of
    its query, and the channels a worker sends to were those of its look-up. */
module Answers {
  import opened Domain
  import opened Tables
  import opened Claiming
  import opened Replica
  import opened System

  /** `m` lies on a run that leads to `s`. */
  ghost predicate Before(env: Env, m: State, s: State) {
    Reachable(env, m) && exists steps :: Run(env, m, steps) && End(env, m, steps) == s
  }

  lemma {:induction false} BeforeItself(env: Env, s: State)
    requires Reachable(env, s)
    ensures Before(env, s, s)
  {
    assert Run(env, s, []) && End(env, s, []) == s;
  }

  lemma {:induction false} BeforeReachable(env: Env, m: State, s: State)
    requires Before(env, m, s)
    ensures Reachable(env, s)
  {
    var steps :| Run(env, m, steps) && End(env, m, steps) == s;
    ReachableRun(env, m, steps);
  }

  lemma {:induction false} ReachableRun(env: Env, m: State, steps: seq<Step>)
    requires Reachable(env, m) && Run(env, m, steps)
    ensures Reachable(env, End(env, m, steps))
    decreases steps
  {
    if steps != [] {
      ReachableStep(env, m, steps[0]);
      ReachableRun(env, After(env, m, steps[0]), steps[1..]);
    }
  }

  lemma {:induction false} BeforeStep(env: Env, m: State, s: State, step: Step)
    requires Before(env, m, s) && Enabled(env, s, step)
    ensures Before(env, m, After(env, s, step))
  {
    var steps :| Run(env, m, steps) && End(env, m, steps) == s;
    RunSnoc(env, m, steps, step);
  }

  /** After `dt` another process is launched. */
  lemma {:induction false} LaunchLater(env: Env, s: State, dt: nat, r: ReplicaId, workers: nat) returns (s': State)
    requires Reachable(env, s) && r !in s.reps
    ensures Before(env, s, s') && s' == s.(now := s.now + dt, reps := s.reps[r := Fresh(workers)])
  {
    BeforeItself(env, s);
    var s1 := s.(now := s.now + dt);
    assert After(env, s, Elapse(dt)) == s1;
    BeforeStep(env, s, s, Elapse(dt));
    s' := s1.(reps := s.reps[r := Fresh(workers)]);
    assert After(env, s1, Launch(r, workers)) == s';
    BeforeStep(env, s, s1, Launch(r, workers));
  }

  /** In `m` process `r` had just begun its transaction, and `rep.tx` works on what its query
      answered there, at the instant it stamps its claims with. */
  ghost predicate Asked(env: Env, m: State, s: State, r: ReplicaId, tx: Tx, limit: nat)
    requires tx.Looping?
  {
    && Before(env, m, s) && r in m.reps && m.reps[r].tx == Begun(tx.at) && m.now == tx.startedAt
    && EarliestDue(tx.rows, m.db.jobs, OthersLocks(m, r), tx.at, limit)
  }

  /** A worker of the process has written back its run of execution `e` and looks up channels next. */
  ghost predicate LookingUp(rep: Replica, e: ExecId, job: Job, status: ExecStatus) {
    exists w :: && 0 <= w < |rep.workers| && rep.workers[w].Busy? && rep.workers[w].stage == WroteBack(status)
                && rep.workers[w].claim.execId == e && rep.workers[w].claim.job == job
  }

  /** In `m` process `r` looked up the channels of execution `e`, and those of the fetch were the
      answer for its job's list. */
  ghost predicate Looked(env: Env, m: State, s: State, r: ReplicaId, e: ExecId, f: Fetch) {
    && Before(env, m, s) && r in m.reps && Alive(m.reps[r]) && LookingUp(m.reps[r], e, f.job, f.status)
    && ChannelsOf(m.db.chans, f.job.notifyChannels, f.targets)
  }

  ghost predicate RepAnswered(env: Env, s: State, r: ReplicaId, rep: Replica) {
    && (rep.tx.Looping? ==> exists m :: Asked(env, m, s, r, rep.tx, rep.Capacity()))
    && (forall e :: e in rep.fetched ==> exists m :: Looked(env, m, s, r, e, rep.fetched[e]))
  }

  ghost predicate Answered(env: Env, s: State) {
    forall r :: r in s.reps ==> RepAnswered(env, s, r, s.reps[r])
  }

  ghost predicate SameTx(tx: Tx, tx': Tx) {
    tx'.Looping? ==> tx.Looping? && tx'.rows == tx.rows && tx'.at == tx.at && tx'.startedAt == tx.startedAt
  }

  /** Steps after which a process relies on nothing it did not rely on before. */
  lemma {:induction false} QuietAnswered(env: Env, s: State, step: Step, r: ReplicaId, rep: Replica, rep': Replica)
    requires RepAnswered(env, s, r, rep) && Enabled(env, s, step)
    requires SameTx(rep.tx, rep'.tx) && |rep'.workers| == |rep.workers|
    requires forall e :: e in rep'.fetched ==> e in rep.fetched && rep'.fetched[e] == rep.fetched[e]
    ensures RepAnswered(env, After(env, s, step), r, rep')
  {
    var s' := After(env, s, step);
    if rep'.tx.Looping? {
      var m :| Asked(env, m, s, r, rep.tx, rep.Capacity());
      BeforeStep(env, m, s, step);
      assert Asked(env, m, s', r, rep'.tx, rep'.Capacity());
    }
    forall e | e in rep'.fetched
      ensures exists m :: Looked(env, m, s', r, e, rep'.fetched[e])
    {
      var m :| Looked(env, m, s, r, e, rep.fetched[e]);
      BeforeStep(env, m, s, step);
      assert Looked(env, m, s', r, e, rep'.fetched[e]);
    }
  }

  lemma {:induction false} SelectAnswered(env: Env, s: State, r: ReplicaId, rows: seq<Job>, rep': Replica)
    requires Reachable(env, s) && Enabled(env, s, Do(r, Tick(Select(rows)))) && RepAnswered(env, s, r, s.reps[r])
    requires rep' == Next(env, s.now, s.reps[r], Tick(Select(rows)))
    ensures RepAnswered(env, After(env, s, Do(r, Tick(Select(rows)))), r, rep')
  {
    var step := Do(r, Tick(Select(rows)));
    BeforeItself(env, s);
    BeforeStep(env, s, s, step);
    QuietAnswered(env, s, step, r, s.reps[r], s.reps[r]);
    assert Asked(env, s, After(env, s, step), r, rep'.tx, rep'.Capacity());
  }

  lemma {:induction false} FetchedOne(env: Env, m: State, s: State, r: ReplicaId, rep: Replica, rep': Replica,
        e: ExecId, f: Fetch)
    requires RepAnswered(env, s, r, rep) && rep'.tx == rep.tx && |rep'.workers| == |rep.workers|
    requires rep'.fetched == rep.fetched || (Looked(env, m, s, r, e, f) && rep'.fetched == rep.fetched[e := f])
    ensures RepAnswered(env, s, r, rep')
  {
    if rep'.tx.Looping? {
      var n :| Asked(env, n, s, r, rep.tx, rep.Capacity());
      assert Asked(env, n, s, r, rep'.tx, rep'.Capacity());
    }
    forall x | x in rep'.fetched
      ensures exists n :: Looked(env, n, s, r, x, rep'.fetched[x])
    {
      if x in rep.fetched && rep'.fetched[x] == rep.fetched[x] {
        var n :| Looked(env, n, s, r, x, rep.fetched[x]);
      } else {
        assert Looked(env, m, s, r, x, rep'.fetched[x]);
      }
    }
  }

  lemma {:induction false} FetchFrame(env: Env, now: Time, rep: Replica, w: nat, targets: seq<Channel>)
    requires w < |rep.workers| && CanWork(rep, rep.workers[w], FetchChannels(targets, true))
    ensures var rep', wk := WorkNext(env, now, rep, w, FetchChannels(targets, true)), rep.workers[w];
            var f := Fetch(wk.claim.job, wk.stage.status, targets);
            && rep'.tx == rep.tx && |rep'.workers| == |rep.workers|
            && (rep'.fetched == rep.fetched || rep'.fetched == rep.fetched[wk.claim.execId := f])
  {
  }

  lemma {:induction false} FetchAnswered(env: Env, s: State, r: ReplicaId, w: nat, targets: seq<Channel>)
    requires Reachable(env, s) && Enabled(env, s, Do(r, Work(w, FetchChannels(targets, true))))
    requires RepAnswered(env, s, r, s.reps[r])
    ensures var act := Work(w, FetchChannels(targets, true));
            RepAnswered(env, After(env, s, Do(r, act)), r, Next(env, s.now, s.reps[r], act))
  {
    var act, wk := Work(w, FetchChannels(targets, true)), s.reps[r].workers[w];
    BeforeItself(env, s);
    BeforeStep(env, s, s, Do(r, act));
    QuietAnswered(env, s, Do(r, act), r, s.reps[r], s.reps[r]);
    FetchFrame(env, s.now, s.reps[r], w, targets);
    assert LookingUp(s.reps[r], wk.claim.execId, wk.claim.job, wk.stage.status);
    FetchedOne(env, s, After(env, s, Do(r, act)), r, s.reps[r], Next(env, s.now, s.reps[r], act), wk.claim.execId,
               Fetch(wk.claim.job, wk.stage.status, targets));
  }

  lemma {:induction false} TickSame(env: Env, now: Time, rep: Replica, t: TickAct)
    requires CanTick(now, rep, t) && !t.Select?
    ensures var rep' := TickNext(env, now, rep, t);
            SameTx(rep.tx, rep'.tx) && rep'.workers == rep.workers && rep'.fetched == rep.fetched
  {
  }

  lemma {:induction false} WorkSame(env: Env, now: Time, rep: Replica, w: nat, a: WorkAct)
    requires w < |rep.workers| && CanWork(rep, rep.workers[w], a) && !(a.FetchChannels? && a.ok)
    ensures var rep' := WorkNext(env, now, rep, w, a);
            rep'.tx == rep.tx && |rep'.workers| == |rep.workers| && rep'.fetched == rep.fetched
  {
  }

  lemma {:induction false} ActFrame(env: Env, now: Time, rep: Replica, act: Act)
    requires CanAct(now, rep, act) && !(act.Tick? && act.t.Select?) && !(act.Work? && act.a.FetchChannels? && act.a.ok)
    ensures var rep' := Next(env, now, rep, act);
            SameTx(rep.tx, rep'.tx) && |rep'.workers| == |rep.workers| && rep'.fetched == rep.fetched
  {
    match act
    case Tick(t) => TickSame(env, now, rep, t);
    case Work(w, a) => WorkSame(env, now, rep, w, a);
    case _ =>
  }

  lemma {:induction false} DoAnswered(env: Env, s: State, r: ReplicaId, act: Act)
    requires Reachable(env, s) && Answered(env, s) && Enabled(env, s, Do(r, act))
    ensures RepAnswered(env, After(env, s, Do(r, act)), r, Next(env, s.now, s.reps[r], act))
  {
    var rep' := Next(env, s.now, s.reps[r], act);
    if act.Tick? && act.t.Select? {
      SelectAnswered(env, s, r, act.t.rows, rep');
    } else if act.Work? && act.a.FetchChannels? && act.a.ok {
      FetchAnswered(env, s, r, act.w, act.a.targets);
    } else {
      ActFrame(env, s.now, s.reps[r], act);
      QuietAnswered(env, s, Do(r, act), r, s.reps[r], rep');
    }
  }

  lemma {:induction false} StepAnswered(env: Env, s: State, step: Step)
    requires Reachable(env, s) && Answered(env, s) && Enabled(env, s, step)
    ensures Answered(env, After(env, s, step))
  {
    forall r | r in After(env, s, step).reps
      ensures RepAnswered(env, After(env, s, step), r, After(env, s, step).reps[r])
    {
      if step.Do? && step.r == r {
        DoAnswered(env, s, r, step.act);
      } else if r in s.reps {
        OthersKeepRep(env, s, step, r);
        QuietAnswered(env, s, step, r, s.reps[r], s.reps[r]);
      }
    }
  }

  lemma {:induction false} RunAnswered(env: Env, s: State, steps: seq<Step>)
    requires Reachable(env, s) && Answered(env, s) && Run(env, s, steps)
    ensures Answered(env, End(env, s, steps))
    decreases steps
  {
    if steps != [] {
      StepAnswered(env, s, steps[0]);
      ReachableStep(env, s, steps[0]);
      RunAnswered(env, After(env, s, steps[0]), steps[1..]);
    }
  }

  lemma {:induction false} ReachableAnswered(env: Env, s: State)
    requires Reachable(env, s)
    ensures Answered(env, s)
  {
    var steps :| Run(env, INIT, steps) && End(env, INIT, steps) == s;
    assert Run(env, INIT, []) && End(env, INIT, []) == INIT;
    RunAnswered(env, INIT, steps);
  }
}
