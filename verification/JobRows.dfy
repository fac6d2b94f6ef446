/** The job rows under interleaved read-modify-write: what every stored row and every
    outstanding snapshot satisfies although whole rows are overwritten from stale reads. */
module JobRows {
  import opened Domain
  import opened Tables
  import opened Claiming
  import opened Replica
  import opened Service
  import opened System
  import opened Ownership

  // ---------------------------------------------------------------- good rows

  /** A row a computation may hand to the repository. */
  predicate Sound(cron: Cron, job: Job) {
    && cron.parses(job.schedule) && job.timeoutSeconds > 0
    && (job.status == Active ==> job.nextRunAt.Some?)
  }

  /** A row that is stored, or was read from the table. */
  predicate Stored(cron: Cron, job: Job) {
    Sound(cron, job) && Storable(job)
  }

  lemma {:induction false} NewJobIsSound(cron: Cron, id: JobId, input: CreateInput, now: Time)
    requires NewJob(cron, id, input, now).Ok?
    ensures Sound(cron, NewJob(cron, id, input, now).value)
  {
  }

  /** No change turns a sound row into an unsound one, and resuming one always succeeds. */
  lemma {:induction false} ModifiedIsSound(cron: Cron, change: Change, row: Job, now: Time)
    requires Sound(cron, row)
    ensures var res := Modified(cron, change, row, now);
            && (res.Ok? ==> Sound(cron, res.value))
            && (res.Err? <==> change.Edit? && change.schedule.Some? && !cron.parses(change.schedule.value))
            && (res.Err? ==> res.error == InvalidInput)
  {
  }

  // ---------------------------------------------------------------- locks

  ghost predicate RowsLocked(s: State, rep: Replica) {
    rep.tx.Looping? ==>
      && DistinctRows(rep.tx.rows)
      && forall i :: 0 <= i < |rep.tx.rows| ==>
           && rep.tx.rows[i].id in s.db.jobs && s.db.jobs[rep.tx.rows[i].id] == rep.tx.rows[i]
           && rep.tx.rows[i].status == Active && rep.tx.rows[i].nextRunAt.Some?
           && rep.tx.rows[i].nextRunAt.value <= rep.tx.at
  }

  ghost predicate LocksDisjoint(s: State) {
    forall q, r, j :: q in s.reps && r in s.reps && j in LockSet(s.reps[q]) && j in LockSet(s.reps[r]) ==> q == r
  }

  /** Locked rows are as they were read, and no row is locked twice. */
  ghost predicate LocksOk(s: State) {
    (forall r :: r in s.reps ==> RowsLocked(s, s.reps[r])) && LocksDisjoint(s)
  }

  lemma {:induction false} LockedIsStored(s: State, r: ReplicaId, j: JobId)
    requires LocksOk(s) && r in s.reps && j in LockSet(s.reps[r])
    ensures j in s.db.jobs && s.db.jobs[j].status == Active && s.db.jobs[j].nextRunAt.Some?
  {
    var rows := s.reps[r].tx.rows;
    var i :| 0 <= i < |rows| && rows[i].id == j;
  }

  /** Jobs outside the locks may be written; the locks see nothing of it. */
  ghost predicate LockedUnchanged(s: State, db': Tables) {
    forall r, j :: r in s.reps && j in LockSet(s.reps[r]) && j in s.db.jobs ==>
      j in db'.jobs && db'.jobs[j] == s.db.jobs[j]
  }

  lemma {:induction false} WriteKeepsLocks(s: State, s': State)
    requires LocksOk(s) && s'.reps == s.reps && LockedUnchanged(s, s'.db)
    ensures LocksOk(s')
  {
    forall r | r in s'.reps
      ensures RowsLocked(s', s'.reps[r])
    {
      assert RowsLocked(s, s.reps[r]);
      if s.reps[r].tx.Looping? {
        assert forall i :: 0 <= i < |s.reps[r].tx.rows| ==> s.reps[r].tx.rows[i].id in LockSet(s.reps[r]);
      }
    }
  }

  lemma {:induction false} RepKeepsLocks(s: State, s': State, r: ReplicaId, rep': Replica)
    requires LocksOk(s) && r in s.reps && s'.reps == s.reps[r := rep'] && s'.db.jobs == s.db.jobs
    requires rep'.tx.Looping? ==>
               s.reps[r].tx.Looping? && rep'.tx.rows == s.reps[r].tx.rows && rep'.tx.at == s.reps[r].tx.at
    ensures LocksOk(s')
  {
    assert LockSet(rep') <= LockSet(s.reps[r]);
    forall q | q in s'.reps
      ensures RowsLocked(s', s'.reps[q])
    {
      assert RowsLocked(s, s.reps[q]);
    }
  }

  lemma {:induction false} SelectKeepsLocks(s: State, s': State, r: ReplicaId, rep': Replica)
    requires LocksOk(s) && r in s.reps && s'.reps == s.reps[r := rep'] && s'.db.jobs == s.db.jobs
    requires rep'.tx.Looping?
    requires EarliestDue(rep'.tx.rows, s.db.jobs, OthersLocks(s, r), rep'.tx.at, rep'.Capacity())
    ensures LocksOk(s')
  {
    forall q | q in s'.reps
      ensures RowsLocked(s', s'.reps[q])
    {
      if q != r {
        assert RowsLocked(s, s.reps[q]);
      }
    }
    forall j | j in LockSet(rep')
      ensures j !in OthersLocks(s, r)
    {
      var i :| 0 <= i < |rep'.tx.rows| && rep'.tx.rows[i].id == j;
      assert Eligible(s.db.jobs, OthersLocks(s, r), rep'.tx.at, rep'.tx.rows[i].id);
    }
  }

  // ---------------------------------------------------------------- the loop's claims

  /** `job` is the row with its next run computed at some instant between the two given. */
  ghost predicate AdvancedFrom(cron: Cron, row: Job, job: Job, start: Time, until: Time) {
    && job == row.(nextRunAt := job.nextRunAt) && job.nextRunAt.Some?
    && exists u: Time :: start <= u <= until && cron.next(row.schedule, u) == job.nextRunAt.value
  }

  /** When every locked row parses, the loop claims them all, in order. */
  ghost predicate TxExact(cron: Cron, rep: Replica, now: Time) {
    && (!rep.tx.NoTx? ==> rep.tx.at <= now)
    && (rep.tx.Looping? ==>
          && |rep.tx.claims| == rep.tx.pos && rep.tx.pos <= |rep.tx.rows|
          && rep.tx.at <= rep.tx.startedAt <= now
          && forall i :: 0 <= i < |rep.tx.claims| ==>
               && rep.tx.claims[i].startedAt == rep.tx.startedAt
               && AdvancedFrom(cron, rep.tx.rows[i], rep.tx.claims[i].job, rep.tx.startedAt, now))
  }

  lemma {:induction false} AdvanceExact(cron: Cron, now: Time, rep: Replica, rep': Replica, e: ExecId)
    requires rep.tx.Looping? && rep.tx.pos < |rep.tx.rows| && TxExact(cron, rep, now)
    requires cron.parses(rep.tx.rows[rep.tx.pos].schedule)
    requires rep'.tx == LoopOver(cron, now, rep.tx, e)
    ensures TxExact(cron, rep', now)
  {
    var row := rep.tx.rows[rep.tx.pos];
    var job := rep'.tx.claims[rep.tx.pos].job;
    assert AdvancedFrom(cron, row, job, rep.tx.startedAt, now) by {
      assert cron.next(row.schedule, now) == job.nextRunAt.value;
    }
  }

  lemma {:induction false} DoKeepsExact(env: Env, s: State, r: ReplicaId, act: Act)
    requires Enabled(env, s, Do(r, act)) && TxExact(env.cron, s.reps[r], s.now)
    requires RowsLocked(s, s.reps[r]) && forall j :: j in s.db.jobs ==> env.cron.parses(s.db.jobs[j].schedule)
    ensures TxExact(env.cron, Next(env, s.now, s.reps[r], act), s.now)
  {
    if act.Tick? && act.t.AdvanceRow? {
      AdvanceExact(env.cron, s.now, s.reps[r], Next(env, s.now, s.reps[r], act), act.t.execId);
    }
  }

  lemma {:induction false} ExactJobs(cron: Cron, s: State, rep: Replica, now: Time)
    requires TxExact(cron, rep, now) && RowsLocked(s, rep) && rep.tx.Looping?
    ensures TxJobsOk(s, rep)
    ensures forall i :: 0 <= i < |rep.tx.claims| ==>
              rep.tx.claims[i].job.id == rep.tx.rows[i].id && rep.tx.claims[i].job.id in LockSet(rep)
  {
    forall i | 0 <= i < |rep.tx.claims|
      ensures rep.tx.claims[i].job.id == rep.tx.rows[i].id && rep.tx.claims[i].job.id in LockSet(rep)
    {
      assert AdvancedFrom(cron, rep.tx.rows[i], rep.tx.claims[i].job, rep.tx.startedAt, now);
    }
  }

  lemma {:induction false} CommitLeavesOthers(cron: Cron, s: State, r: ReplicaId, now: Time, j: JobId)
    requires r in s.reps && TxExact(cron, s.reps[r], now) && RowsLocked(s, s.reps[r]) && s.reps[r].tx.Looping?
    requires j in s.db.jobs && j !in LockSet(s.reps[r])
    ensures var db' := ApplyClaims(s.db, s.reps[r].tx.claims, s.reps[r].tx.at);
            j in db'.jobs && db'.jobs[j] == s.db.jobs[j]
  {
    ExactJobs(cron, s, s.reps[r], now);
    assert !Claims(s.reps[r].tx.claims, j);
    ApplyClaimsOtherJob(s.db, s.reps[r].tx.claims, s.reps[r].tx.at, j);
  }

  lemma {:induction false} CommitKeepsLocks(cron: Cron, s: State, s': State, r: ReplicaId, rep': Replica)
    requires LocksOk(s) && r in s.reps && s.reps[r].tx.Looping? && TxExact(cron, s.reps[r], s.now)
    requires s'.reps == s.reps[r := rep'] && rep'.tx.NoTx?
    requires s'.db.jobs == ApplyClaims(s.db, s.reps[r].tx.claims, s.reps[r].tx.at).jobs
    ensures LocksOk(s')
  {
    assert RowsLocked(s, s.reps[r]);
    forall q | q in s'.reps
      ensures RowsLocked(s', s'.reps[q])
    {
      if q != r && s.reps[q].tx.Looping? {
        assert RowsLocked(s, s.reps[q]);
        forall i | 0 <= i < |s.reps[q].tx.rows|
          ensures s.reps[q].tx.rows[i].id in s'.db.jobs
          ensures s'.db.jobs[s.reps[q].tx.rows[i].id] == s.db.jobs[s.reps[q].tx.rows[i].id]
        {
          assert s.reps[q].tx.rows[i].id in LockSet(s.reps[q]);
          CommitLeavesOthers(cron, s, r, s.now, s.reps[q].tx.rows[i].id);
        }
      }
    }
  }

  // ---------------------------------------------------------------- rows and snapshots

  ghost predicate OpOk(cron: Cron, op: Op) {
    if op.Fetched? then Stored(cron, op.row) else Sound(cron, op.row)
  }

  /** Every stored row is good, and so is every snapshot: the row of an outstanding claim, and
      of a service request that has read it or is about to write it. */
  ghost predicate JobsOk(cron: Cron, s: State) {
    && (forall j :: j in s.db.jobs ==> s.db.jobs[j].id == j && j in s.jobIds && Stored(cron, s.db.jobs[j]))
    && (forall e :: e in s.tickets ==> Stored(cron, s.tickets[e].claim.job) && s.tickets[e].claim.job.status == Active)
    && (forall o :: o in s.ops ==> OpOk(cron, s.ops[o]))
  }

  lemma {:induction false} CommitStored(cron: Cron, s: State, r: ReplicaId, j: JobId)
    requires r in s.reps && s.reps[r].tx.Looping? && TxExact(cron, s.reps[r], s.now) && RowsLocked(s, s.reps[r])
    requires JobsOk(cron, s) && j in s.db.jobs
    ensures var db' := ApplyClaims(s.db, s.reps[r].tx.claims, s.reps[r].tx.at);
            j in db'.jobs && db'.jobs[j].id == j && Stored(cron, db'.jobs[j])
  {
    var claims, at := s.reps[r].tx.claims, s.reps[r].tx.at;
    ExactJobs(cron, s, s.reps[r], s.now);
    if Claims(claims, j) {
      var k :| 0 <= k < |claims| && claims[k].job.id == j;
      JobAdvanced(s.db, claims, at, k);
      assert AdvancedFrom(cron, s.reps[r].tx.rows[k], claims[k].job, s.reps[r].tx.startedAt, s.now);
    } else {
      ApplyClaimsOtherJob(s.db, claims, at, j);
    }
  }

  lemma {:induction false} ClaimStored(cron: Cron, s: State, r: ReplicaId, c: Claim)
    requires r in s.reps && s.reps[r].tx.Looping? && TxExact(cron, s.reps[r], s.now) && RowsLocked(s, s.reps[r])
    requires JobsOk(cron, s) && c in s.reps[r].tx.claims
    ensures Stored(cron, c.job) && c.job.status == Active
  {
    var k :| 0 <= k < |s.reps[r].tx.claims| && s.reps[r].tx.claims[k] == c;
    assert AdvancedFrom(cron, s.reps[r].tx.rows[k], c.job, s.reps[r].tx.startedAt, s.now);
  }

  lemma {:induction false} CommitKeepsJobs(env: Env, s: State, r: ReplicaId)
    requires Enabled(env, s, Do(r, Tick(Commit))) && JobsOk(env.cron, s)
    requires TxExact(env.cron, s.reps[r], s.now) && RowsLocked(s, s.reps[r])
    ensures JobsOk(env.cron, After(env, s, Do(r, Tick(Commit))))
  {
    var s', claims := After(env, s, Do(r, Tick(Commit))), s.reps[r].tx.claims;
    ApplyClaimsJobs(s.db, claims, s.reps[r].tx.at);
    forall j | j in s'.db.jobs
      ensures s'.db.jobs[j].id == j && j in s'.jobIds && Stored(env.cron, s'.db.jobs[j])
    {
      CommitStored(env.cron, s, r, j);
    }
    CommitTickets(env, s, r);
    forall e | e in s'.tickets
      ensures Stored(env.cron, s'.tickets[e].claim.job) && s'.tickets[e].claim.job.status == Active
    {
      if e in ClaimIds(claims) {
        ClaimStored(env.cron, s, r, s'.tickets[e].claim);
      }
    }
  }

  lemma {:induction false} WriteBackStored(env: Env, s: State, r: ReplicaId, w: nat, ok: bool)
    requires Enabled(env, s, Do(r, Work(w, WriteBack(ok)))) && JobsOk(env.cron, s) && HeldOk(s)
    ensures Stored(env.cron, WrittenBack(s.reps[r].workers[w]))
  {
    var wk := s.reps[r].workers[w];
    assert InHands(s.reps[r].workers, wk.claim);
    assert Holds(s.reps[r], wk.claim);
  }

  lemma {:induction false} DoKeepsJobs(env: Env, s: State, r: ReplicaId, act: Act)
    requires Enabled(env, s, Do(r, act)) && JobsOk(env.cron, s) && HeldOk(s)
    requires TxExact(env.cron, s.reps[r], s.now) && RowsLocked(s, s.reps[r])
    ensures JobsOk(env.cron, After(env, s, Do(r, act)))
  {
    if act == Tick(Commit) {
      CommitKeepsJobs(env, s, r);
    } else {
      var s' := After(env, s, Do(r, act));
      assert s'.tickets == s.tickets && s'.ops == s.ops && s'.jobIds == s.jobIds;
      if act.Work? && act.a.WriteBack? && act.a.ok {
        WriteBackStored(env, s, r, act.w, true);
      } else {
        JobsUntouched(env, s, r, act);
      }
    }
  }

  lemma {:induction false} JobsUntouched(env: Env, s: State, r: ReplicaId, act: Act)
    requires r in s.reps && CanAct(s.now, s.reps[r], act)
    requires act != Tick(Commit) && !(act.Work? && act.a.WriteBack? && act.a.ok)
    ensures DoDb(env, s, r, act).jobs == s.db.jobs
  {
  }

  lemma {:induction false} WriteKeepsJobs(env: Env, s: State, o: OpId, ok: bool)
    requires Enabled(env, s, WriteJob(o, ok)) && JobsOk(env.cron, s)
    ensures JobsOk(env.cron, AfterWrite(s, o, ok))
  {
    assert OpOk(env.cron, s.ops[o]);
    assert forall p :: p in s.ops - {o} ==> (s.ops - {o})[p] == s.ops[p];
  }

  lemma {:induction false} OpKeepsJobs(env: Env, s: State, s': State, o: OpId)
    requires JobsOk(env.cron, s) && s'.db == s.db && s'.tickets == s.tickets && s'.jobIds == s.jobIds
    requires forall p :: p in s'.ops && p != o ==> p in s.ops && s'.ops[p] == s.ops[p]
    requires o in s'.ops ==> OpOk(env.cron, s'.ops[o])
    ensures JobsOk(env.cron, s')
  {
  }

  lemma {:induction false} ServiceKeepsJobs(env: Env, s: State, step: Step)
    requires Enabled(env, s, step) && !step.Do? && JobsOk(env.cron, s)
    ensures JobsOk(env.cron, After(env, s, step))
  {
    match step
    case WriteJob(o, ok) => WriteKeepsJobs(env, s, o, ok);
    case DraftJob(o, id, input) =>
      NewJobIsSound(env.cron, id, input, s.now);
      OpKeepsJobs(env, s, After(env, s, step), o);
    case ReadJob(o, _, _) => OpKeepsJobs(env, s, After(env, s, step), o);
    case PrepareJob(o) =>
      assert OpOk(env.cron, s.ops[o]);
      ModifiedIsSound(env.cron, s.ops[o].change, s.ops[o].row, s.now);
      OpKeepsJobs(env, s, After(env, s, step), o);
    case _ =>
  }

  // ---------------------------------------------------------------- locks over all steps

  lemma {:induction false} DoKeepsLocks(env: Env, s: State, r: ReplicaId, act: Act)
    requires Enabled(env, s, Do(r, act)) && LocksOk(s) && TxExact(env.cron, s.reps[r], s.now)
    ensures LocksOk(After(env, s, Do(r, act)))
  {
    var s', rep' := After(env, s, Do(r, act)), Next(env, s.now, s.reps[r], act);
    if act == Tick(Commit) {
      CommitKeepsLocks(env.cron, s, s', r, rep');
    } else if act.Tick? && act.t.Select? {
      JobsUntouched(env, s, r, act);
      SelectKeepsLocks(s, s', r, rep');
    } else if act.Work? && act.a.WriteBack? && act.a.ok {
      WriteBackKeepsLocks(env, s, r, act.w);
    } else {
      JobsUntouched(env, s, r, act);
      TxFrame(env, s.now, s.reps[r], act);
      RepKeepsLocks(s, s', r, rep');
    }
  }

  lemma {:induction false} WriteBackKeepsLocks(env: Env, s: State, r: ReplicaId, w: nat)
    requires Enabled(env, s, Do(r, Work(w, WriteBack(true)))) && LocksOk(s)
    ensures LocksOk(After(env, s, Do(r, Work(w, WriteBack(true)))))
  {
    var act := Work(w, WriteBack(true));
    var s', rep' := After(env, s, Do(r, act)), Next(env, s.now, s.reps[r], act);
    WorkFrame(env, s.now, s.reps[r], w, WriteBack(true));
    var mid := s'.(reps := s.reps);
    assert LockedUnchanged(s, mid.db);
    WriteKeepsLocks(s, mid);
    RepKeepsLocks(mid, s', r, rep');
  }

  lemma {:induction false} TxFrame(env: Env, now: Time, rep: Replica, act: Act)
    requires CanAct(now, rep, act) && !(act.Tick? && act.t.Select?)
    ensures var tx' := Next(env, now, rep, act).tx;
            tx'.Looping? ==> rep.tx.Looping? && tx'.rows == rep.tx.rows && tx'.at == rep.tx.at
  {
    if act.Work? {
      WorkFrame(env, now, rep, act.w, act.a);
    }
  }

  lemma {:induction false} ServiceKeepsLocks(env: Env, s: State, step: Step)
    requires Enabled(env, s, step) && !step.Do? && LocksOk(s) && JobsOk(env.cron, s)
    ensures LocksOk(After(env, s, step))
  {
    match step
    case Launch(r, workers) => LaunchKeepsLocks(s, After(env, s, step), r, workers);
    case WriteJob(o, ok) => WriteJobKeepsLocks(env, s, o, ok);
    case RemoveJob(j) => RemoveKeepsLocks(env, s, j);
    case _ => QuietKeepsLocks(env, s, step);
  }

  lemma {:induction false} LaunchKeepsLocks(s: State, s': State, r: ReplicaId, workers: nat)
    requires LocksOk(s) && r !in s.reps && s'.db == s.db && s'.reps == s.reps[r := Fresh(workers)]
    ensures LocksOk(s')
  {
    forall q | q in s'.reps
      ensures RowsLocked(s', s'.reps[q])
    {
      if q in s.reps {
        assert RowsLocked(s, s.reps[q]);
      }
    }
  }

  lemma {:induction false} WriteJobKeepsLocks(env: Env, s: State, o: OpId, ok: bool)
    requires Enabled(env, s, WriteJob(o, ok)) && LocksOk(s) && JobsOk(env.cron, s)
    ensures LocksOk(AfterWrite(s, o, ok))
  {
    assert LockedUnchanged(s, AfterWrite(s, o, ok).db);
    WriteKeepsLocks(s, AfterWrite(s, o, ok));
  }

  lemma {:induction false} RemoveKeepsLocks(env: Env, s: State, j: JobId)
    requires Enabled(env, s, RemoveJob(j)) && LocksOk(s)
    ensures LocksOk(After(env, s, RemoveJob(j)))
  {
    assert LockedUnchanged(s, DeleteJob(s.db, j));
    WriteKeepsLocks(s, After(env, s, RemoveJob(j)));
  }

  lemma {:induction false} QuietKeepsLocks(env: Env, s: State, step: Step)
    requires Enabled(env, s, step) && LocksOk(s)
    requires !step.Do? && !step.Launch? && !step.WriteJob? && !step.RemoveJob?
    ensures LocksOk(After(env, s, step))
  {
    QuietService(env, s, step);
    WriteKeepsLocks(s, After(env, s, step));
  }

  lemma {:induction false} QuietService(env: Env, s: State, step: Step)
    requires Enabled(env, s, step) && !step.Do? && !step.Launch? && !step.WriteJob? && !step.RemoveJob?
    ensures After(env, s, step).db.jobs == s.db.jobs && After(env, s, step).reps == s.reps
  {
  }
}
