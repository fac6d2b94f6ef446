/** Bounded waiting in the whole system: a run in which claiming transactions do not overlap, and job
    rows are otherwise only created, or overwritten without a change of schedule, status and due
    time, induces a history of `Claiming`. */
module SerialClaims {
  import opened Domain
  import opened Tables
  import opened Claiming
  import opened Replica
  import opened System
  import opened JobRows
  import opened Invariant
  import opened Snapshots

  ghost predicate NobodyClaims(s: State) {
    forall r :: r in s.reps ==> s.reps[r].tx.NoTx?
  }

  /** Overwriting the stored row, if there is one, leaves the job's turn alone. */
  ghost predicate KeepsTurn(s: State, row: Job) {
    row.id in s.db.jobs ==> SameTurn(s.db.jobs[row.id], row)
  }

  /** Transactions do not overlap each other or a creation; jobs are created with satisfiable
      schedules and stored at once; other job-row writes keep the job's turn; all pools have the same
      size. */
  ghost predicate Serial(env: Env, s: State, step: Step, limit: nat)
    requires Enabled(env, s, step)
  {
    match step
    case Do(r, act) =>
      && (act == Tick(Begin) ==> NobodyClaims(s))
      && (act.Work? && act.a.WriteBack? && act.a.ok ==> KeepsTurn(s, WrittenBack(s.reps[r].workers[act.w])))
    case Launch(_, workers) => 2 * workers == limit
    case WriteJob(o, ok) =>
      ok ==>
        if s.ops[o].insert then
          && NobodyClaims(s) && Satisfiable(env.cron, s.ops[o].row.schedule)
          && s.ops[o].row.nextRunAt == Some(env.cron.next(s.ops[o].row.schedule, s.now))
        else KeepsTurn(s, s.ops[o].row)
    case RemoveJob(_) => false
    case _ => true
  }

  ghost predicate SerialRun(env: Env, s: State, steps: seq<Step>, limit: nat)
    requires Run(env, s, steps)
    decreases steps
  {
    steps != [] ==> Serial(env, s, steps[0], limit) && SerialRun(env, After(env, s, steps[0]), steps[1..], limit)
  }

  predicate IsCommit(step: Step) {
    step.Do? && step.act == Tick(Commit)
  }

  function Commits(steps: seq<Step>): nat {
    if steps == [] then 0 else (if IsCommit(steps[0]) then 1 else 0) + Commits(steps[1..])
  }

  /** Some commit of the run claims job `j`. */
  ghost predicate ClaimedIn(env: Env, s: State, steps: seq<Step>, j: JobId)
    requires Run(env, s, steps)
    decreases steps
  {
    steps != [] && ((IsCommit(steps[0]) && Listed(s.reps[steps[0].r].tx.rows, j))
                    || ClaimedIn(env, After(env, s, steps[0]), steps[1..], j))
  }

  // ---------------------------------------------------------------- the history beside the run

  ghost predicate OnlyTx(s: State, r: ReplicaId) {
    r in s.reps && !s.reps[r].tx.NoTx? && forall q :: q in s.reps && q != r ==> s.reps[q].tx.NoTx?
  }

  /** The transaction of `r` began at `now` and works on the earliest due rows of that instant. */
  ghost predicate TxMirrors(s: State, r: ReplicaId, t: Tables, now: Time, limit: nat) {
    && OnlyTx(s, r) && s.reps[r].tx.at == now
    && (s.reps[r].tx.Looping? ==> EarliestDue(s.reps[r].tx.rows, t.jobs, {}, now, limit))
  }

  /** The history stands at tables `t` with the system's jobs, and at the present or, while somebody
      claims, at the instant that transaction began. */
  ghost predicate Mirrors(s: State, t: Tables, now: Time, limit: nat) {
    && t.jobs == s.db.jobs && now <= s.now
    && (forall r :: r in s.reps ==> s.reps[r].Capacity() == limit)
    && (if NobodyClaims(s) then now == s.now else exists r :: TxMirrors(s, r, t, now, limit))
  }

  lemma {:induction false} LegalCons(cron: Cron, limit: nat, t: Tables, now: Time, ev: Event, rest: seq<Event>)
    requires Legal(cron, limit, t, now, ev) && LegalRun(cron, limit, AfterEvent(t, now, ev), Later(now, ev), rest)
    ensures LegalRun(cron, limit, t, now, [ev] + rest)
    ensures ClaimCount([ev] + rest) == (if ev.Claiming? then 1 else 0) + ClaimCount(rest)
    ensures forall j :: PassesOver([ev] + rest, j) <==> !Takes(ev, j) && PassesOver(rest, j)
  {
    var run := [ev] + rest;
    assert run[1..] == rest && run[0] == ev;
    forall j
      ensures PassesOver(run, j) <==> !Takes(ev, j) && PassesOver(rest, j)
    {
      assert forall k :: 0 <= k < |rest| ==> run[k + 1] == rest[k];
      assert forall k :: 0 < k < |run| ==> run[k] == rest[k - 1];
    }
  }

  /** Claims do the same to equal job tables. */
  lemma {:induction false} SameJobs(t: Tables, u: Tables, claims: seq<Claim>, at: Time)
    requires t.jobs == u.jobs
    ensures ApplyClaims(t, claims, at).jobs == ApplyClaims(u, claims, at).jobs
  {
    if claims != [] {
      SameJobs(t, u, claims[..|claims| - 1], at);
    }
  }

  /** The instants at which the loop computed the next runs. */
  lemma {:induction false} Clocks(cron: Cron, rows: seq<Job>, claims: seq<Claim>, start: Time, until: Time, n: nat)
    returns (clock: seq<Time>)
    requires n <= |rows| == |claims|
    requires forall i :: 0 <= i < |rows| ==> AdvancedFrom(cron, rows[i], claims[i].job, start, until)
    ensures |clock| == n
    ensures forall i :: 0 <= i < n ==>
              && clock[i] >= start
              && claims[i].job == rows[i].(nextRunAt := Some(cron.next(rows[i].schedule, clock[i])))
  {
    if n == 0 {
      clock := [];
    } else {
      clock := Clocks(cron, rows, claims, start, until, n - 1);
      assert AdvancedFrom(cron, rows[n - 1], claims[n - 1].job, start, until);
      var u: Time :| start <= u <= until && cron.next(rows[n - 1].schedule, u) == claims[n - 1].job.nextRunAt.value;
      clock := clock + [u];
    }
  }

  // ---------------------------------------------------------------- one step

  /** What a step adds to the history, the tables and instant it then stands at. */
  datatype Effect = Effect(events: seq<Event>, t: Tables, now: Time)

  ghost predicate Follows(env: Env, s: State, step: Step, limit: nat, t: Tables, now: Time, eff: Effect)
    requires Enabled(env, s, step)
  {
    && |eff.events| <= 2 && Mirrors(After(env, s, step), eff.t, eff.now, limit)
    && (if eff.events == [] then eff.t == t && eff.now == now && !IsCommit(step)
        else if |eff.events| == 1 then
          && Legal(env.cron, limit, t, now, eff.events[0]) && !eff.events[0].Claiming? && !IsCommit(step)
          && eff.t == AfterEvent(t, now, eff.events[0]) && eff.now == Later(now, eff.events[0])
        else
          && IsCommit(step) && eff.events[0].Claiming? && eff.events[1].Waiting?
          && Legal(env.cron, limit, t, now, eff.events[0]) && eff.t == AfterEvent(t, now, eff.events[0])
          && eff.events[0].rows == s.reps[step.r].tx.rows && eff.now == Later(now, eff.events[1]))
  }

  lemma {:induction false} CommitIsLegal(env: Env, s: State, r: ReplicaId, limit: nat, t: Tables, now: Time)
    returns (ev: Event)
    requires Enabled(env, s, Do(r, Tick(Commit))) && Mirrors(s, t, now, limit) && TxExact(env.cron, s.reps[r], s.now)
    ensures ev.Claiming? && ev.rows == s.reps[r].tx.rows && Legal(env.cron, limit, t, now, ev)
    ensures AfterEvent(t, now, ev) == ApplyClaims(t, s.reps[r].tx.claims, now)
  {
    var tx := s.reps[r].tx;
    OwnTx(s, r, t, now, limit);
    var clock := Clocks(env.cron, tx.rows, tx.claims, tx.startedAt, s.now, |tx.rows|);
    ev := Claiming(tx.rows, tx.claims, clock);
  }

  lemma {:induction false} CommitMirrors(env: Env, s: State, r: ReplicaId, limit: nat, t: Tables, now: Time)
    requires Enabled(env, s, Do(r, Tick(Commit))) && Mirrors(s, t, now, limit)
    ensures Mirrors(After(env, s, Do(r, Tick(Commit))), ApplyClaims(t, s.reps[r].tx.claims, now), s.now, limit)
  {
    var s' := After(env, s, Do(r, Tick(Commit)));
    OwnTx(s, r, t, now, limit);
    SameJobs(t, s.db, s.reps[r].tx.claims, now);
    CommitFrame(env, s, r);
    Settled(s', ApplyClaims(t, s.reps[r].tx.claims, now), limit);
  }

  lemma {:induction false} CommitEffect(env: Env, s: State, r: ReplicaId, limit: nat, t: Tables, now: Time)
    returns (eff: Effect)
    requires Enabled(env, s, Do(r, Tick(Commit))) && Mirrors(s, t, now, limit) && TxExact(env.cron, s.reps[r], s.now)
    ensures Follows(env, s, Do(r, Tick(Commit)), limit, t, now, eff)
  {
    var ev := CommitIsLegal(env, s, r, limit, t, now);
    CommitMirrors(env, s, r, limit, t, now);
    OwnTx(s, r, t, now, limit);
    eff := Effect([ev, Waiting(s.now - now)], ApplyClaims(t, s.reps[r].tx.claims, now), s.now);
  }

  lemma {:induction false} OwnTx(s: State, r: ReplicaId, t: Tables, now: Time, limit: nat)
    requires Mirrors(s, t, now, limit) && r in s.reps && !s.reps[r].tx.NoTx?
    ensures TxMirrors(s, r, t, now, limit)
  {
    var q :| TxMirrors(s, q, t, now, limit);
  }

  lemma {:induction false} Settled(s: State, t: Tables, limit: nat)
    requires t.jobs == s.db.jobs && NobodyClaims(s) && forall r :: r in s.reps ==> s.reps[r].Capacity() == limit
    ensures Mirrors(s, t, s.now, limit)
  {
  }

  lemma {:induction false} CommitFrame(env: Env, s: State, r: ReplicaId)
    requires Enabled(env, s, Do(r, Tick(Commit))) && OnlyTx(s, r)
    ensures var s' := After(env, s, Do(r, Tick(Commit)));
            && s'.now == s.now && s'.db.jobs == ApplyClaims(s.db, s.reps[r].tx.claims, s.reps[r].tx.at).jobs
            && NobodyClaims(s') && s'.reps.Keys == s.reps.Keys
            && forall q :: q in s.reps ==> s'.reps[q].Capacity() == s.reps[q].Capacity()
  {
  }

  ghost predicate SameOpen(tx: Tx, tx': Tx) {
    && (tx.NoTx? <==> tx'.NoTx?) && (!tx.NoTx? ==> tx'.at == tx.at)
    && (tx'.Looping? ==> tx.Looping? && tx'.rows == tx.rows)
  }

  /** A step after which the same transactions are open on the same rows. */
  ghost predicate Quiet(s: State, s': State, limit: nat) {
    && s'.db.jobs == s.db.jobs && (s'.now == s.now || (!NobodyClaims(s) && s'.now >= s.now))
    && (forall q :: q in s.reps ==> q in s'.reps && SameOpen(s.reps[q].tx, s'.reps[q].tx))
    && (forall q :: q in s'.reps && q !in s.reps ==> s'.reps[q].tx.NoTx?)
    && (forall q :: q in s'.reps ==> s'.reps[q].Capacity() == limit)
  }

  lemma {:induction false} QuietMirrors(s: State, s': State, t: Tables, now: Time, limit: nat)
    requires Mirrors(s, t, now, limit) && Quiet(s, s', limit)
    ensures Mirrors(s', t, now, limit)
  {
    if NobodyClaims(s) {
      assert NobodyClaims(s');
    } else {
      var r :| TxMirrors(s, r, t, now, limit);
      assert TxMirrors(s', r, t, now, limit);
      assert !NobodyClaims(s');
    }
  }

  lemma {:induction false} TickTx(env: Env, now: Time, rep: Replica, t: TickAct)
    requires CanTick(now, rep, t) && !t.Begin? && !t.Select? && !t.Commit? && !t.Abort?
    ensures SameOpen(rep.tx, TickNext(env, now, rep, t).tx) && TickNext(env, now, rep, t).workers == rep.workers
  {
  }

  lemma {:induction false} WorkTx(env: Env, now: Time, rep: Replica, w: nat, a: WorkAct)
    requires w < |rep.workers| && CanWork(rep, rep.workers[w], a)
    ensures WorkNext(env, now, rep, w, a).tx == rep.tx && |WorkNext(env, now, rep, w, a).workers| == |rep.workers|
  {
  }

  predicate MovesTx(act: Act) {
    act.Crash? || (act.Tick? && (act.t.Begin? || act.t.Select? || act.t.Commit? || act.t.Abort?))
  }

  lemma {:induction false} ActTx(env: Env, now: Time, rep: Replica, act: Act)
    requires CanAct(now, rep, act) && !MovesTx(act)
    ensures var rep' := Next(env, now, rep, act); SameOpen(rep.tx, rep'.tx) && |rep'.workers| == |rep.workers|
  {
    match act
    case Tick(t) => TickTx(env, now, rep, t);
    case Work(w, a) => WorkTx(env, now, rep, w, a);
    case _ =>
  }

  lemma {:induction false} DoEffect(env: Env, s: State, r: ReplicaId, act: Act, limit: nat, t: Tables, now: Time)
    returns (eff: Effect)
    requires Enabled(env, s, Do(r, act)) && Serial(env, s, Do(r, act), limit) && Mirrors(s, t, now, limit)
    requires TxExact(env.cron, s.reps[r], s.now)
    ensures Follows(env, s, Do(r, act), limit, t, now, eff)
  {
    if act == Tick(Commit) {
      eff := CommitEffect(env, s, r, limit, t, now);
    } else if act == Tick(Begin) {
      eff := Effect([], t, now);
      BeginMirrors(env, s, r, limit, t, now);
    } else if act.Tick? && act.t.Select? {
      eff := Effect([], t, now);
      SelectMirrors(env, s, r, act.t.rows, limit, t, now);
    } else if MovesTx(act) && !s.reps[r].tx.NoTx? {
      eff := CloseEffect(env, s, r, act, limit, t, now);
    } else if act.Work? && act.a.WriteBack? && act.a.ok {
      eff := WriteBackEffect(env, s, r, act.w, limit, t, now);
    } else {
      eff := Effect([], t, now);
      OtherIsQuiet(env, s, r, act, limit, t, now);
      QuietMirrors(s, AfterDo(env, s, r, act), t, now, limit);
    }
  }

  lemma {:induction false} BeginMirrors(env: Env, s: State, r: ReplicaId, limit: nat, t: Tables, now: Time)
    requires Enabled(env, s, Do(r, Tick(Begin))) && NobodyClaims(s) && Mirrors(s, t, now, limit)
    ensures Mirrors(After(env, s, Do(r, Tick(Begin))), t, now, limit)
  {
    var s' := After(env, s, Do(r, Tick(Begin)));
    assert s'.reps == s.reps[r := s.reps[r].(tx := Begun(s.now))] && s'.db == s.db;
    assert TxMirrors(s', r, t, now, limit);
    assert !NobodyClaims(s');
  }

  lemma {:induction false} SelectMirrors(env: Env, s: State, r: ReplicaId, rows: seq<Job>, limit: nat,
        t: Tables, now: Time)
    requires Enabled(env, s, Do(r, Tick(Select(rows)))) && Mirrors(s, t, now, limit)
    ensures Mirrors(After(env, s, Do(r, Tick(Select(rows)))), t, now, limit)
  {
    var s', tx := After(env, s, Do(r, Tick(Select(rows)))), s.reps[r].tx;
    OwnTx(s, r, t, now, limit);
    assert OthersLocks(s, r) == {};
    assert s'.reps == s.reps[r := s.reps[r].(tx := Looping(tx.at, s.now, rows, 0, []))] && s'.db == s.db;
    assert TxMirrors(s', r, t, now, limit);
    assert !NobodyClaims(s');
  }

  /** The transaction ends without a claim: only time has passed. */
  lemma {:induction false} CloseEffect(env: Env, s: State, r: ReplicaId, act: Act, limit: nat, t: Tables, now: Time)
    returns (eff: Effect)
    requires Enabled(env, s, Do(r, act)) && Mirrors(s, t, now, limit) && !s.reps[r].tx.NoTx?
    requires act == Tick(Abort) || act.Crash?
    ensures Follows(env, s, Do(r, act), limit, t, now, eff)
  {
    OwnTx(s, r, t, now, limit);
    eff := Effect([Waiting(s.now - now)], t, s.now);
    var s' := After(env, s, Do(r, act));
    assert s'.db == s.db && s'.now == s.now && s'.reps == s.reps[r := Next(env, s.now, s.reps[r], act)];
    Settled(s', t, limit);
  }

  lemma {:induction false} OtherIsQuiet(env: Env, s: State, r: ReplicaId, act: Act, limit: nat, t: Tables, now: Time)
    requires Enabled(env, s, Do(r, act)) && Serial(env, s, Do(r, act), limit) && Mirrors(s, t, now, limit)
    requires !MovesTx(act) || (act.Crash? && s.reps[r].tx.NoTx?)
    requires !(act.Work? && act.a.WriteBack? && act.a.ok)
    ensures Quiet(s, AfterDo(env, s, r, act), limit)
  {
    JobsUntouched(env, s, r, act);
    if !act.Crash? {
      ActTx(env, s.now, s.reps[r], act);
    }
  }

  /** The same transactions are open on the same rows, and one row that nobody has locked was
      overwritten. */
  ghost predicate Rewritten(s: State, s': State, row: Job, limit: nat) {
    && s'.db.jobs == UpdateJob(s.db, row, s.now).jobs && s'.now == s.now && KeepsTurn(s, row) && !JobLocked(s, row.id)
    && s'.reps.Keys == s.reps.Keys && (forall q :: q in s.reps ==> SameOpen(s.reps[q].tx, s'.reps[q].tx))
    && (forall q :: q in s'.reps ==> s'.reps[q].Capacity() == limit)
  }

  /** Overwriting an unlocked row without a change of turn leaves the query's answer as it is. */
  lemma {:induction false} SameAnswer(rows: seq<Job>, t: Tables, row: Job, at: Time, now: Time, limit: nat)
    requires EarliestDue(rows, t.jobs, {}, now, limit) && !Listed(rows, row.id)
    requires row.id in t.jobs ==> SameTurn(t.jobs[row.id], row)
    ensures EarliestDue(rows, UpdateJob(t, row, at).jobs, {}, now, limit)
  {
    var jobs' := UpdateJob(t, row, at).jobs;
    forall i | 0 <= i < |rows|
      ensures Eligible(jobs', {}, now, rows[i].id) && rows[i] == jobs'[rows[i].id]
    {
      assert Eligible(t.jobs, {}, now, rows[i].id);
      assert rows[i].id != row.id;
    }
    forall j | j in jobs' && Eligible(jobs', {}, now, j) && !Listed(rows, j)
      ensures |rows| == limit && forall i :: 0 <= i < |rows| ==> NoLater(rows[i], jobs'[j])
    {
      assert Eligible(t.jobs, {}, now, j);
      assert jobs'[j].nextRunAt == t.jobs[j].nextRunAt;
    }
  }

  lemma {:induction false} RewriteMirrors(s: State, s': State, row: Job, t: Tables, now: Time, limit: nat)
    requires Mirrors(s, t, now, limit) && Rewritten(s, s', row, limit)
    ensures Mirrors(s', UpdateJob(t, row, s.now), now, limit)
  {
    var t' := UpdateJob(t, row, s.now);
    if NobodyClaims(s) {
      assert NobodyClaims(s');
    } else {
      var r :| TxMirrors(s, r, t, now, limit);
      if s'.reps[r].tx.Looping? {
        var rows := s.reps[r].tx.rows;
        forall i | 0 <= i < |rows| ensures rows[i].id != row.id {
          assert rows[i].id in LockSet(s.reps[r]);
        }
        SameAnswer(rows, t, row, s.now, now, limit);
      }
      assert TxMirrors(s', r, t', now, limit);
      assert !NobodyClaims(s');
    }
  }

  lemma {:induction false} WriteBackEffect(env: Env, s: State, r: ReplicaId, w: nat, limit: nat, t: Tables, now: Time)
    returns (eff: Effect)
    requires var step := Do(r, Work(w, WriteBack(true)));
             Enabled(env, s, step) && Serial(env, s, step, limit) && Mirrors(s, t, now, limit)
    ensures Follows(env, s, Do(r, Work(w, WriteBack(true))), limit, t, now, eff)
  {
    var s', row := AfterDo(env, s, r, Work(w, WriteBack(true))), WrittenBack(s.reps[r].workers[w]);
    assert After(env, s, Do(r, Work(w, WriteBack(true)))) == s';
    eff := Effect([Rewriting(row, s.now)], UpdateJob(t, row, s.now), now);
    WriteBackRewrites(env, s, r, w, limit, t, now);
    RewriteMirrors(s, s', row, t, now, limit);
  }

  lemma {:induction false} WriteBackRewrites(env: Env, s: State, r: ReplicaId, w: nat, limit: nat, t: Tables, now: Time)
    requires var step := Do(r, Work(w, WriteBack(true)));
             Enabled(env, s, step) && Serial(env, s, step, limit) && Mirrors(s, t, now, limit)
    ensures Rewritten(s, AfterDo(env, s, r, Work(w, WriteBack(true))), WrittenBack(s.reps[r].workers[w]), limit)
  {
    ActTx(env, s.now, s.reps[r], Work(w, WriteBack(true)));
    WriteBackDb(env, s, r, w);
  }

  lemma {:induction false} WriteBackDb(env: Env, s: State, r: ReplicaId, w: nat)
    requires Enabled(env, s, Do(r, Work(w, WriteBack(true))))
    ensures var s', row := AfterDo(env, s, r, Work(w, WriteBack(true))), WrittenBack(s.reps[r].workers[w]);
            s'.db == UpdateJob(s.db, row, s.now) && s'.now == s.now && !JobLocked(s, row.id)
  {
  }

  lemma {:induction false} ServiceEffect(env: Env, s: State, step: Step, limit: nat, t: Tables, now: Time)
    returns (eff: Effect)
    requires Enabled(env, s, step) && !step.Do? && Serial(env, s, step, limit) && Mirrors(s, t, now, limit)
    requires forall j :: j in s.db.jobs ==> j in s.jobIds
    ensures Follows(env, s, step, limit, t, now, eff)
  {
    if step.Elapse? {
      eff := ElapseEffect(env, s, step.dt, limit, t, now);
    } else if step.WriteJob? {
      eff := WriteEffect(env, s, step.o, step.ok, limit, t, now);
    } else {
      eff := Effect([], t, now);
      RequestIsQuiet(env, s, step, limit, t, now);
      QuietMirrors(s, After(env, s, step), t, now, limit);
    }
  }

  lemma {:induction false} RequestIsQuiet(env: Env, s: State, step: Step, limit: nat, t: Tables, now: Time)
    requires Enabled(env, s, step) && Serial(env, s, step, limit) && Mirrors(s, t, now, limit)
    requires !step.Do? && !step.Elapse? && !step.WriteJob? && !step.RemoveJob?
    ensures Quiet(s, After(env, s, step), limit)
  {
    if step.Launch? {
      assert After(env, s, step) == s.(reps := s.reps[step.r := Fresh(step.workers)]);
    } else {
      QuietService(env, s, step);
      RequestTime(env, s, step);
    }
  }

  lemma {:induction false} ElapseEffect(env: Env, s: State, dt: nat, limit: nat, t: Tables, now: Time)
    returns (eff: Effect)
    requires Mirrors(s, t, now, limit)
    ensures Follows(env, s, Elapse(dt), limit, t, now, eff)
  {
    var s' := s.(now := s.now + dt);
    assert After(env, s, Elapse(dt)) == s';
    if NobodyClaims(s) {
      eff := Effect([Waiting(dt)], t, now + dt);
      Settled(s', t, limit);
    } else {
      eff := Effect([], t, now);
      QuietMirrors(s, s', t, now, limit);
    }
  }

  lemma {:induction false} WriteEffect(env: Env, s: State, o: OpId, ok: bool, limit: nat, t: Tables, now: Time)
    returns (eff: Effect)
    requires Enabled(env, s, WriteJob(o, ok)) && Serial(env, s, WriteJob(o, ok), limit) && Mirrors(s, t, now, limit)
    requires forall j :: j in s.db.jobs ==> j in s.jobIds
    ensures Follows(env, s, WriteJob(o, ok), limit, t, now, eff)
  {
    var s' := AfterWrite(s, o, ok);
    if ok && s.ops[o].insert {
      var row := s.ops[o].row;
      eff := Effect([Creating(row)], InsertJob(t, row, now), now);
      Settled(s', eff.t, limit);
    } else if ok {
      eff := Effect([Rewriting(s.ops[o].row, s.now)], UpdateJob(t, s.ops[o].row, s.now), now);
      RewriteMirrors(s, s', s.ops[o].row, t, now, limit);
    } else {
      eff := Effect([], t, now);
      QuietMirrors(s, s', t, now, limit);
    }
  }

  lemma {:induction false} StepEffect(env: Env, s: State, step: Step, limit: nat, t: Tables, now: Time)
    returns (eff: Effect)
    requires Inv(env, s) && Enabled(env, s, step) && Serial(env, s, step, limit) && Mirrors(s, t, now, limit)
    ensures Follows(env, s, step, limit, t, now, eff)
  {
    if step.Do? {
      assert TxExact(env.cron, s.reps[step.r], s.now);
      eff := DoEffect(env, s, step.r, step.act, limit, t, now);
    } else {
      assert JobsOk(env.cron, s);
      eff := ServiceEffect(env, s, step, limit, t, now);
    }
  }

  /** The write-back of a claim whose job nobody wrote in the meantime keeps the job's turn. */
  lemma {:induction false} UndisturbedIsSerial(env: Env, s: State, r: ReplicaId, w: nat, limit: nat)
    requires Reachable(env, s) && Enabled(env, s, Do(r, Work(w, WriteBack(true))))
    requires var c := s.reps[r].workers[w].claim; c.execId in s.tickets && Untouched(s, s.tickets[c.execId])
    ensures Serial(env, s, Do(r, Work(w, WriteBack(true))), limit)
  {
    ReachableInv(env, s);
    assert JobsOk(env.cron, s);
    ReachableAgreement(env, s, r, w);
  }

  // ---------------------------------------------------------------- whole runs

  /** The events of one step, and then those of the rest of the run. */
  lemma {:induction false} Prepend(env: Env, s: State, steps: seq<Step>, limit: nat, t: Tables, now: Time, eff: Effect,
        rest: seq<Event>) returns (events: seq<Event>)
    requires steps != [] && Run(env, s, steps) && Follows(env, s, steps[0], limit, t, now, eff)
    requires LegalRun(env.cron, limit, eff.t, eff.now, rest) && ClaimCount(rest) == Commits(steps[1..])
    requires forall j :: !ClaimedIn(env, After(env, s, steps[0]), steps[1..], j) ==> PassesOver(rest, j)
    ensures LegalRun(env.cron, limit, t, now, events) && ClaimCount(events) == Commits(steps)
    ensures forall j :: !ClaimedIn(env, s, steps, j) ==> PassesOver(events, j)
  {
    if eff.events == [] {
      events := rest;
    } else if |eff.events| == 1 {
      LegalCons(env.cron, limit, t, now, eff.events[0], rest);
      events := [eff.events[0]] + rest;
    } else {
      var ev, wait := eff.events[0], eff.events[1];
      LegalCons(env.cron, limit, eff.t, now, wait, rest);
      LegalCons(env.cron, limit, t, now, ev, [wait] + rest);
      events := [ev] + ([wait] + rest);
    }
  }

  lemma {:induction false} Induced(env: Env, s: State, steps: seq<Step>, limit: nat, t: Tables, now: Time)
    returns (events: seq<Event>)
    requires Inv(env, s) && Run(env, s, steps) && SerialRun(env, s, steps, limit) && Mirrors(s, t, now, limit)
    ensures LegalRun(env.cron, limit, t, now, events) && ClaimCount(events) == Commits(steps)
    ensures forall j :: !ClaimedIn(env, s, steps, j) ==> PassesOver(events, j)
    decreases steps
  {
    if steps == [] {
      events := [];
    } else {
      var eff := StepEffect(env, s, steps[0], limit, t, now);
      StepKeepsInv(env, s, steps[0]);
      var rest := Induced(env, After(env, s, steps[0]), steps[1..], limit, eff.t, eff.now);
      events := Prepend(env, s, steps, limit, t, now, eff, rest);
    }
  }

  /** In a serial run of the system, with any number of replicas, a due active job with k others due
      no later is claimed once more than k / limit transactions have committed. */
  lemma {:induction false} ServedInTurn(env: Env, s: State, steps: seq<Step>, j: JobId, limit: nat)
    requires Reachable(env, s) && NobodyClaims(s) && Run(env, s, steps) && SerialRun(env, s, steps, limit)
    requires limit > 0 && (forall r :: r in s.reps ==> s.reps[r].Capacity() == limit)
    requires (forall i :: i in s.db.jobs ==> Satisfiable(env.cron, s.db.jobs[i].schedule))
    requires j in s.db.jobs && Due(s.db.jobs[j], s.now)
    requires Commits(steps) >= |Ahead(s.db, j)| / limit + 1
    ensures ClaimedIn(env, s, steps, j)
  {
    ReachableInv(env, s);
    assert JobsOk(env.cron, s);
    assert AllSatisfiable(env.cron, s.db);
    var events := Induced(env, s, steps, limit, s.db, s.now);
    BoundedWaiting(env.cron, limit, s.db, s.now, events, j);
  }
}
