/** Stale snapshots of job rows: when the worker's write-back is harmless, and when a pause lasts. */
module Snapshots {
  import opened Domain
  import opened Tables
  import opened Claiming
  import opened Replica
  import opened Service
  import opened System
  import opened Ownership
  import opened JobRows
  import opened Invariant
  import opened Guarantees

  // ---------------------------------------------------------------- the write-back's frame

  predicate SameButStamp(a: Job, b: Job) {
    a == b.(updatedAt := a.updatedAt)
  }

  /** No job-row write has hit the claim's job since the claim was committed. */
  ghost predicate Untouched(s: State, tk: Ticket) {
    forall k :: tk.writesSeen <= k < |s.jobWrites| ==> s.jobWrites[k] != tk.claim.job.id
  }

  ghost predicate TicketAgrees(s: State, tk: Ticket) {
    && tk.writesSeen <= |s.jobWrites| && tk.claim.job.status == Active && tk.claim.job.nextRunAt.Some?
    && (Untouched(s, tk) && tk.claim.job.id in s.db.jobs ==>
          SameButStamp(s.db.jobs[tk.claim.job.id], tk.claim.job))
  }

  /** A claim's snapshot is active, and while its job is untouched it is the stored row but for
      its time stamp. */
  ghost predicate TicketsAgree(s: State) {
    forall e :: e in s.tickets ==> TicketAgrees(s, s.tickets[e])
  }

  /** A step that logs its job-row writes and changes no other row. */
  ghost predicate Logged(s: State, s': State, written: seq<JobId>) {
    && s'.jobWrites == s.jobWrites + written
    && forall j :: j in s'.db.jobs && j !in written ==> j in s.db.jobs && s'.db.jobs[j] == s.db.jobs[j]
  }

  lemma {:induction false} LoggedAgrees(s: State, s': State, written: seq<JobId>, tk: Ticket)
    requires TicketAgrees(s, tk) && Logged(s, s', written)
    ensures TicketAgrees(s', tk)
  {
    if Untouched(s', tk) && tk.claim.job.id in s'.db.jobs {
      assert forall k :: 0 <= k < |s.jobWrites| ==> s'.jobWrites[k] == s.jobWrites[k];
      assert forall k :: 0 <= k < |written| ==> s'.jobWrites[|s.jobWrites| + k] == written[k];
      assert tk.claim.job.id !in written;
    }
  }

  lemma {:induction false} CommitLogged(env: Env, s: State, r: ReplicaId)
    requires Enabled(env, s, Do(r, Tick(Commit))) && RowsLocked(s, s.reps[r]) && TxExact(env.cron, s.reps[r], s.now)
    ensures Logged(s, After(env, s, Do(r, Tick(Commit))), ClaimedJobs(s.reps[r].tx.claims))
  {
    var claims, s' := s.reps[r].tx.claims, After(env, s, Do(r, Tick(Commit)));
    ApplyClaimsJobs(s.db, claims, s.reps[r].tx.at);
    forall j | j in s'.db.jobs && j !in ClaimedJobs(claims)
      ensures j in s.db.jobs && s'.db.jobs[j] == s.db.jobs[j]
    {
      forall k | 0 <= k < |claims| ensures claims[k].job.id != j {
        assert ClaimedJobs(claims)[k] == claims[k].job.id;
      }
      ApplyClaimsOtherJob(s.db, claims, s.reps[r].tx.at, j);
    }
  }

  lemma {:induction false} NewTicketAgrees(env: Env, s: State, r: ReplicaId, e: ExecId)
    requires Enabled(env, s, Do(r, Tick(Commit))) && RowsLocked(s, s.reps[r]) && TxExact(env.cron, s.reps[r], s.now)
    requires e in ClaimIds(s.reps[r].tx.claims)
    ensures var s' := After(env, s, Do(r, Tick(Commit))); e in s'.tickets && TicketAgrees(s', s'.tickets[e])
  {
    var rep, s' := s.reps[r], After(env, s, Do(r, Tick(Commit)));
    CommitTickets(env, s, r);
    var c := s'.tickets[e].claim;
    var k :| 0 <= k < |rep.tx.claims| && rep.tx.claims[k] == c;
    ExactJobs(env.cron, s, rep, s.now);
    JobAdvanced(s.db, rep.tx.claims, rep.tx.at, k);
    assert AdvancedFrom(env.cron, rep.tx.rows[k], c.job, rep.tx.startedAt, s.now);
  }

  lemma {:induction false} StepKeepsAgreement(env: Env, s: State, step: Step)
    requires Inv(env, s) && TicketsAgree(s) && Enabled(env, s, step)
    ensures TicketsAgree(After(env, s, step))
  {
    var s' := After(env, s, step);
    var written := LogOf(env, s, step);
    StepLogged(env, s, step);
    forall e | e in s'.tickets
      ensures TicketAgrees(s', s'.tickets[e])
    {
      if e in s.tickets {
        TicketsStay(env, s, step, e);
        LoggedAgrees(s, s', written, s.tickets[e]);
      } else {
        OnlyCommitsMakeTickets(env, s, step, e);
        assert RowsLocked(s, s.reps[step.r]) && TxExact(env.cron, s.reps[step.r], s.now);
        NewTicketAgrees(env, s, step.r, e);
      }
    }
  }

  lemma {:induction false} OnlyCommitsMakeTickets(env: Env, s: State, step: Step, e: ExecId)
    requires Enabled(env, s, step) && e in After(env, s, step).tickets && e !in s.tickets
    ensures step.Do? && step.act == Tick(Commit) && e in ClaimIds(s.reps[step.r].tx.claims)
  {
    if step.Do? {
      if step.act == Tick(Commit) {
        CommitTickets(env, s, step.r);
      }
    } else if !step.Launch? {
      ServiceFrame(env, s, step);
    }
  }

  ghost function LogOf(env: Env, s: State, step: Step): seq<JobId>
    requires Enabled(env, s, step)
  {
    match step
    case Do(r, act) =>
      if act == Tick(Commit) then ClaimedJobs(s.reps[r].tx.claims)
      else if act.Work? && act.a.WriteBack? && act.a.ok then [s.reps[r].workers[act.w].claim.job.id]
      else []
    case WriteJob(o, ok) => if ok then [s.ops[o].row.id] else []
    case _ => []
  }

  lemma {:induction false} StepLogged(env: Env, s: State, step: Step)
    requires Inv(env, s) && Enabled(env, s, step)
    ensures Logged(s, After(env, s, step), LogOf(env, s, step))
  {
    match step
    case Do(r, act) =>
      assert RowsLocked(s, s.reps[r]) && TxExact(env.cron, s.reps[r], s.now);
      DoLogged(env, s, r, act);
    case _ => ServiceLogged(env, s, step);
  }

  lemma {:induction false} DoLogged(env: Env, s: State, r: ReplicaId, act: Act)
    requires Enabled(env, s, Do(r, act)) && RowsLocked(s, s.reps[r]) && TxExact(env.cron, s.reps[r], s.now)
    ensures Logged(s, After(env, s, Do(r, act)), LogOf(env, s, Do(r, act)))
  {
    if act == Tick(Commit) {
      CommitLogged(env, s, r);
    } else if !(act.Work? && act.a.WriteBack? && act.a.ok) {
      JobsUntouched(env, s, r, act);
    }
  }

  lemma {:induction false} ServiceLogged(env: Env, s: State, step: Step)
    requires Enabled(env, s, step) && !step.Do?
    ensures Logged(s, After(env, s, step), LogOf(env, s, step))
  {
  }

  lemma {:induction false} RunKeepsAgreement(env: Env, s: State, steps: seq<Step>)
    requires Inv(env, s) && TicketsAgree(s) && Run(env, s, steps)
    ensures TicketsAgree(End(env, s, steps))
    decreases steps
  {
    if steps != [] {
      StepKeepsInv(env, s, steps[0]);
      StepKeepsAgreement(env, s, steps[0]);
      RunKeepsAgreement(env, After(env, s, steps[0]), steps[1..]);
    }
  }

  lemma {:induction false} ReachableAgreement(env: Env, s: State, r: ReplicaId, w: nat)
    requires Reachable(env, s) && r in s.reps && w < |s.reps[r].workers| && s.reps[r].workers[w].Busy?
    ensures var c := s.reps[r].workers[w].claim;
            c.execId in s.tickets && s.tickets[c.execId].claim == c && TicketAgrees(s, s.tickets[c.execId])
  {
    var steps :| Run(env, INIT, steps) && End(env, INIT, steps) == s;
    InitInv(env);
    RunKeepsInv(env, INIT, steps);
    RunKeepsAgreement(env, INIT, steps);
    var c := s.reps[r].workers[w].claim;
    assert InHands(s.reps[r].workers, c) && Holds(s.reps[r], c);
  }

  /** If nothing wrote the job between its claim and the worker's write-back, the write-back
      changes two columns of that row and nothing else. */
  lemma {:induction false} WriteBackFrame(env: Env, s: State, r: ReplicaId, w: nat)
    requires Reachable(env, s) && Enabled(env, s, Do(r, Work(w, WriteBack(true))))
    requires var c := s.reps[r].workers[w].claim;
             c.execId in s.tickets && Untouched(s, s.tickets[c.execId]) && c.job.id in s.db.jobs
    ensures var wk, s' := s.reps[r].workers[w], After(env, s, Do(r, Work(w, WriteBack(true))));
            var j := wk.claim.job.id;
            s'.db == s.db.(jobs := s.db.jobs[j := s.db.jobs[j].(lastRunAt := Some(wk.stage.finishedAt),
                                                                 updatedAt := s.now)])
  {
    ReachableAgreement(env, s, r, w);
  }

  /** Every write-back that succeeds leaves its job active and due as when it was claimed: a pause
      made during the run never survives it. */
  lemma {:induction false} WriteBackReactivates(env: Env, s: State, r: ReplicaId, w: nat)
    requires Reachable(env, s) && Enabled(env, s, Do(r, Work(w, WriteBack(true))))
    requires s.reps[r].workers[w].claim.job.id in s.db.jobs
    ensures var c, s' := s.reps[r].workers[w].claim, After(env, s, Do(r, Work(w, WriteBack(true))));
            && c.job.id in s'.db.jobs && c.job.nextRunAt.Some?
            && s'.db.jobs[c.job.id].status == Active && s'.db.jobs[c.job.id].nextRunAt == c.job.nextRunAt
  {
    ReachableAgreement(env, s, r, w);
  }

  /** The columns `UPDATE jobs` sets, other than the two a worker means to change. */
  predicate SameSettings(a: Job, b: Job) {
    && a.name == b.name && a.kind == b.kind && a.schedule == b.schedule && a.config == b.config
    && a.status == b.status && a.notifyChannels == b.notifyChannels && a.condition == b.condition
    && a.timeoutSeconds == b.timeoutSeconds && a.nextRunAt == b.nextRunAt
  }

  /** The exact condition: the write-back loses no concurrent change iff the stored row still
      has the settings the claim was made with. */
  lemma {:induction false} WriteBackLosesNothingIff(env: Env, s: State, r: ReplicaId, w: nat)
    requires Enabled(env, s, Do(r, Work(w, WriteBack(true))))
    requires s.reps[r].workers[w].claim.job.id in s.db.jobs
    ensures var wk, s' := s.reps[r].workers[w], After(env, s, Do(r, Work(w, WriteBack(true))));
            var j := wk.claim.job.id;
            && j in s'.db.jobs
            && (SameSettings(s'.db.jobs[j], s.db.jobs[j]) <==> SameSettings(s.db.jobs[j], wk.claim.job))
  {
  }

  // ---------------------------------------------------------------- pause

  /** The job is paused and so is every outstanding snapshot of it: in live processes and in
      service requests, none of which is about to resume it. */
  ghost predicate PausedEverywhere(s: State, j: JobId) {
    && j in s.jobIds
    && (j in s.db.jobs ==> s.db.jobs[j].status == Paused)
    && (forall r, c :: r in s.reps && s.reps[r].phase != Crashed && Holds(s.reps[r], c) && c.job.id == j ==>
          c.job.status == Paused)
    && (forall o :: o in s.ops ==> OpPaused(s.ops[o], j))
  }

  ghost predicate OpPaused(op: Op, j: JobId) {
    op.row.id == j ==> op.row.status == Paused || (op.Ready? && op.insert)
  }

  ghost predicate Resumes(s: State, step: Step, j: JobId) {
    step.PrepareJob? && step.o in s.ops && s.ops[step.o].Fetched?
    && s.ops[step.o].change == Resume && s.ops[step.o].row.id == j
  }

  lemma {:induction false} PausedUnlocked(s: State, j: JobId, r: ReplicaId)
    requires PausedEverywhere(s, j) && LocksOk(s) && r in s.reps
    ensures j !in LockSet(s.reps[r])
  {
    if j in LockSet(s.reps[r]) {
      LockedIsStored(s, r, j);
    }
  }

  lemma {:induction false} DoKeepsPause(env: Env, s: State, r: ReplicaId, act: Act, j: JobId)
    requires Inv(env, s) && Enabled(env, s, Do(r, act)) && PausedEverywhere(s, j)
    ensures PausedEverywhere(After(env, s, Do(r, act)), j)
  {
    var rep, s' := s.reps[r], After(env, s, Do(r, act));
    assert RowsLocked(s, rep) && TxExact(env.cron, rep, s.now);
    PausedUnlocked(s, j, r);
    PausedRow(env, s, r, act, j);
    forall q, c | q in s'.reps && s'.reps[q].phase != Crashed && Holds(s'.reps[q], c) && c.job.id == j
      ensures c.job.status == Paused
    {
      if q == r {
        HeldPaused(env, s, r, act, j, c);
      }
    }
  }

  lemma {:induction false} HeldPaused(env: Env, s: State, r: ReplicaId, act: Act, j: JobId, c: Claim)
    requires Enabled(env, s, Do(r, act)) && PausedEverywhere(s, j)
    requires RowsLocked(s, s.reps[r]) && TxExact(env.cron, s.reps[r], s.now) && j !in LockSet(s.reps[r])
    requires Holds(Next(env, s.now, s.reps[r], act), c) && c.job.id == j
    requires Next(env, s.now, s.reps[r], act).phase != Crashed
    ensures c.job.status == Paused
  {
    ActHeld(env, s.now, s.reps[r], act, c);
    if !Holds(s.reps[r], c) {
      ExactJobs(env.cron, s, s.reps[r], s.now);
    }
  }

  lemma {:induction false} PausedRow(env: Env, s: State, r: ReplicaId, act: Act, j: JobId)
    requires Enabled(env, s, Do(r, act)) && PausedEverywhere(s, j)
    requires RowsLocked(s, s.reps[r]) && TxExact(env.cron, s.reps[r], s.now) && j !in LockSet(s.reps[r])
    ensures j in DoDb(env, s, r, act).jobs ==> DoDb(env, s, r, act).jobs[j].status == Paused
  {
    if act == Tick(Commit) {
      ApplyClaimsJobs(s.db, s.reps[r].tx.claims, s.reps[r].tx.at);
      if j in s.db.jobs {
        CommitLeavesOthers(env.cron, s, r, s.now, j);
      }
    } else if act.Work? && act.a.WriteBack? && act.a.ok {
      var c := s.reps[r].workers[act.w].claim;
      assert InHands(s.reps[r].workers, c) && Holds(s.reps[r], c);
    } else {
      JobsUntouched(env, s, r, act);
    }
  }

  lemma {:induction false} ServiceKeepsPause(env: Env, s: State, step: Step, j: JobId)
    requires Inv(env, s) && Enabled(env, s, step) && !step.Do? && PausedEverywhere(s, j) && !Resumes(s, step, j)
    ensures PausedEverywhere(After(env, s, step), j)
  {
    var s' := After(env, s, step);
    assert JobsOk(env.cron, s);
    if step.Launch? {
      assert forall c :: !Holds(Fresh(step.workers), c);
    } else {
      ServiceFrame(env, s, step);
    }
    PausedOps(env, s, step, j);
  }

  lemma {:induction false} PreparedPaused(cron: Cron, op: Op, j: JobId, now: Time)
    requires op.Fetched? && OpPaused(op, j) && !(op.change == Resume && op.row.id == j)
    requires Modified(cron, op.change, op.row, now).Ok?
    ensures OpPaused(Ready(false, Modified(cron, op.change, op.row, now).value), j)
  {
  }

  lemma {:induction false} WrittenPaused(env: Env, s: State, o: OpId, ok: bool, j: JobId)
    requires Enabled(env, s, WriteJob(o, ok)) && PausedEverywhere(s, j) && JobsOk(env.cron, s)
    ensures var s' := AfterWrite(s, o, ok);
            && j in s'.jobIds && (j in s'.db.jobs ==> s'.db.jobs[j].status == Paused)
            && forall p :: p in s'.ops ==> OpPaused(s'.ops[p], j)
  {
    assert OpPaused(s.ops[o], j);
  }

  lemma {:induction false} PausedOps(env: Env, s: State, step: Step, j: JobId)
    requires Enabled(env, s, step) && !step.Do? && PausedEverywhere(s, j) && !Resumes(s, step, j)
    requires JobsOk(env.cron, s)
    ensures var s' := After(env, s, step);
            && j in s'.jobIds && (j in s'.db.jobs ==> s'.db.jobs[j].status == Paused)
            && forall o :: o in s'.ops ==> OpPaused(s'.ops[o], j)
  {
    match step
    case WriteJob(o, ok) => WrittenPaused(env, s, o, ok, j);
    case PrepareJob(o) =>
      if Modified(env.cron, s.ops[o].change, s.ops[o].row, s.now).Ok? {
        PreparedPaused(env.cron, s.ops[o], j, s.now);
      }
    case _ =>
  }

  /** Pause is durable: in every continuation without a Resume of the job, whatever triggers,
      edits and claims occur, it stays paused, unlocked and unclaimed. */
  lemma {:induction false} PauseIsDurable(env: Env, s: State, steps: seq<Step>, j: JobId)
    requires Inv(env, s) && PausedEverywhere(s, j) && Run(env, s, steps) && NeverResumed(env, s, steps, j)
    ensures var t := End(env, s, steps);
            && PausedEverywhere(t, j)
            && (j in t.db.jobs ==> t.db.jobs[j].status == Paused)
            && (forall r :: r in t.reps ==> j !in LockSet(t.reps[r]))
            && (forall r, c :: r in t.reps && t.reps[r].phase != Crashed && Holds(t.reps[r], c) ==> c.job.id != j)
    decreases steps
  {
    if steps == [] {
      forall r | r in s.reps ensures j !in LockSet(s.reps[r]) {
        PausedUnlocked(s, j, r);
      }
    } else {
      StepKeepsInv(env, s, steps[0]);
      if steps[0].Do? {
        DoKeepsPause(env, s, steps[0].r, steps[0].act, j);
      } else {
        ServiceKeepsPause(env, s, steps[0], j);
      }
      PauseIsDurable(env, After(env, s, steps[0]), steps[1..], j);
    }
  }

  ghost predicate NeverResumed(env: Env, s: State, steps: seq<Step>, j: JobId)
    requires Run(env, s, steps)
    decreases steps
  {
    steps != [] ==> !Resumes(s, steps[0], j) && NeverResumed(env, After(env, s, steps[0]), steps[1..], j)
  }
}
