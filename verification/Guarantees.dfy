/** What the invariant says about every reachable state and every step from one. */
module Guarantees {
  import opened Domain
  import opened Tables
  import opened Replica
  import opened ReplicaInvariants
  import opened Service
  import opened System
  import opened Ownership
  import opened JobRows
  import opened Notifications
  import opened Invariant

  // ---------------------------------------------------------------- ownership

  /** `e` waits in, or runs on, process `r`, which is alive to finish it. */
  ghost predicate Owns(s: State, r: ReplicaId, e: ExecId) {
    r in s.reps && s.reps[r].phase != Crashed && e in Places(s.reps[r])
  }

  /** `e` was held when its process crashed, or its terminal write failed. */
  ghost predicate Orphaned(s: State, r: ReplicaId, e: ExecId) {
    r in s.reps && (e in s.reps[r].failed || (s.reps[r].phase == Crashed && e in Places(s.reps[r])))
  }

  /** Each `running` row is owned in exactly one place of exactly one live process, or else it
      is an orphan of exactly one; never both. */
  lemma {:induction false} OwnershipPartition(env: Env, s: State, e: ExecId)
    requires Reachable(env, s) && e in s.db.execs && s.db.execs[e].status == Running
    ensures e in s.tickets && s.tickets[e].rep in s.reps
    ensures var r := s.tickets[e].rep;
            && (Owns(s, r, e) <==> !Orphaned(s, r, e))
            && (Owns(s, r, e) ==> Count(Places(s.reps[r]), e) == 1)
            && forall q :: q != r ==> !Owns(s, q, e) && !Orphaned(s, q, e)
  {
    ReachableInv(env, s);
    assert ExecOk(s, e);
    var r := s.tickets[e].rep;
    PlacedOnce(s.reps[r], e);
    CountIn(Places(s.reps[r]), e);
    forall q | q != r
      ensures !Owns(s, q, e) && !Orphaned(s, q, e)
    {
      if q in s.reps {
        PlacedOnce(s.reps[q], e);
      }
    }
  }

  lemma {:induction false} PlacesDisjoint(s: State, q: ReplicaId, r: ReplicaId, e: ExecId)
    requires TicketsOk(s) && q in s.reps && r in s.reps && Placed(s.reps[q]) && Placed(s.reps[r])
    requires e in Places(s.reps[q]) && e in Places(s.reps[r])
    ensures q == r && Count(Places(s.reps[r]), e) == 1
  {
    PlacedOnce(s.reps[q], e);
    PlacedOnce(s.reps[r], e);
    assert e in s.reps[q].claimed && e in s.reps[r].claimed;
    assert s.tickets[e].rep == q;
    CountIn(Places(s.reps[r]), e);
  }

  /** An execution is in at most one place of all processes together. */
  lemma {:induction false} OwnedOnce(env: Env, s: State, q: ReplicaId, r: ReplicaId, e: ExecId)
    requires Reachable(env, s) && q in s.reps && r in s.reps
    requires e in Places(s.reps[q]) && e in Places(s.reps[r])
    ensures q == r && Count(Places(s.reps[r]), e) == 1
  {
    ReachableInv(env, s);
    PlacesDisjoint(s, q, r, e);
  }

  /** No process holds more than five claims per worker, or three between ticks. */
  lemma {:induction false} HeldAtMost(env: Env, s: State, r: ReplicaId)
    requires Reachable(env, s) && r in s.reps
    ensures |Places(s.reps[r])| <= 5 * |s.reps[r].workers|
    ensures s.reps[r].batch == [] ==> |Places(s.reps[r])| <= 3 * |s.reps[r].workers|
  {
    ReachableInv(env, s);
    HeldBound(s.reps[r]);
  }

  lemma {:induction false} LocalOrder(rep: Replica)
    requires LocalOk(rep)
    ensures |rep.batch| <= |rep.claimed|
    ensures rep.claimed == Passed(rep) + ClaimIds(rep.batch)
    ensures Kept(Passed(rep), rep.shed) == rep.started + QueueIds(rep.queue)
    ensures NoDup(rep.claimed)
  {
  }

  /** The started and the buffered executions are, in order, the claims passed on and not shed. */
  lemma {:induction false} FirstInFirstOut(env: Env, s: State, r: ReplicaId)
    requires Reachable(env, s) && r in s.reps
    ensures var rep := s.reps[r];
            && |rep.batch| <= |rep.claimed|
            && rep.claimed == Passed(rep) + ClaimIds(rep.batch)
            && Kept(Passed(rep), rep.shed) == rep.started + QueueIds(rep.queue)
            && NoDup(rep.claimed)
  {
    ReachableInv(env, s);
    LocalOrder(s.reps[r]);
  }

  // ---------------------------------------------------------------- execution rows

  /** In every reachable state a row is `running` iff it has no finish time, and is in error iff
      it has an error text; job and channel references hold; `sent_at` is set on sent rows only. */
  lemma {:induction false} RowsAreSound(env: Env, s: State)
    requires Reachable(env, s)
    ensures forall e :: e in s.db.execs ==> ExecRowOk(s.db.execs[e]) && s.db.execs[e].jobId in s.db.jobs
    ensures forall n :: n in s.db.notifs ==>
              && NotifRowOk(s.db.notifs[n])
              && s.db.notifs[n].executionId in s.db.execs && s.db.notifs[n].channelId in s.db.chans
  {
    ReachableInv(env, s);
  }

  lemma {:induction false} HistoryGrows(env: Env, s: State, step: Step)
    requires Enabled(env, s, step)
    ensures var s' := After(env, s, step);
            && s.recovered <= s'.recovered
            && forall r :: r in s.reps ==> r in s'.reps && s.reps[r].done <= s'.reps[r].done
  {
    if step.Do? {
      DoneAfter(env, s.now, s.reps[step.r], step.act);
    } else if !step.Launch? {
      ServiceFrame(env, s, step);
    }
  }

  lemma {:induction false} TicketsStay(env: Env, s: State, step: Step, e: ExecId)
    requires Enabled(env, s, step) && Inv(env, s) && e in s.tickets
    ensures e in After(env, s, step).tickets && After(env, s, step).tickets[e] == s.tickets[e]
  {
    if step.Do? {
      if step.act == Tick(Commit) {
        CommitTickets(env, s, step.r);
        assert CanTick(s.now, s.reps[step.r], Commit);
      }
    } else if !step.Launch? {
      ServiceFrame(env, s, step);
    }
  }

  /** A terminal execution is never `running` again. */
  lemma {:induction false} TerminalForever(env: Env, s: State, step: Step, e: ExecId)
    requires Inv(env, s) && Enabled(env, s, step)
    requires e in s.db.execs && s.db.execs[e].status != Running && e in After(env, s, step).db.execs
    ensures After(env, s, step).db.execs[e].status != Running
  {
    var s' := After(env, s, step);
    StepKeepsInv(env, s, step);
    HistoryGrows(env, s, step);
    TicketsStay(env, s, step, e);
    assert ExecOk(s, e) && ExecOk(s', e);
    var r := s.tickets[e].rep;
    assert r in s.reps;
  }

  lemma {:induction false} TerminalForeverInRuns(env: Env, s: State, steps: seq<Step>, e: ExecId)
    requires Inv(env, s) && Run(env, s, steps)
    requires e in s.tickets && (e in s.db.execs ==> s.db.execs[e].status != Running)
    requires e in End(env, s, steps).db.execs
    ensures End(env, s, steps).db.execs[e].status != Running
    decreases steps
  {
    if steps != [] {
      var s' := After(env, s, steps[0]);
      StepKeepsInv(env, s, steps[0]);
      TicketsStay(env, s, steps[0], e);
      if e in s'.db.execs {
        RowsAppear(env, s, steps[0], e);
        TerminalForever(env, s, steps[0], e);
      }
      TerminalForeverInRuns(env, s', steps[1..], e);
    }
  }

  // ---------------------------------------------------------------- no resurrection

  lemma {:induction false} CommitAppears(env: Env, s: State, r: ReplicaId, e: ExecId)
    requires IdsOk(s) && Enabled(env, s, Do(r, Tick(Commit))) && e in s.tickets
    requires e in ApplyClaims(s.db, s.reps[r].tx.claims, s.reps[r].tx.at).execs
    ensures e in s.db.execs
  {
    assert CanTick(s.now, s.reps[r], Commit);
    ApplyClaimsExecs(s.db, s.reps[r].tx.claims, s.reps[r].tx.at);
  }

  lemma {:induction false} DoAppears(env: Env, s: State, r: ReplicaId, act: Act, e: ExecId)
    requires IdsOk(s) && Enabled(env, s, Do(r, act)) && e in s.tickets && e in DoDb(env, s, r, act).execs
    ensures e in s.db.execs
  {
    ExecsAfter(env, s, r, act);
    if act == Tick(Commit) {
      CommitAppears(env, s, r, e);
    }
  }

  /** A row for an id that has a ticket already is never inserted again. */
  lemma {:induction false} RowsAppear(env: Env, s: State, step: Step, e: ExecId)
    requires Inv(env, s) && Enabled(env, s, step) && e in s.tickets
    requires e in After(env, s, step).db.execs
    ensures e in s.db.execs
  {
    if step.Do? {
      DoAppears(env, s, step.r, step.act, e);
    } else if !step.Launch? {
      ServiceFrame(env, s, step);
    }
  }

  lemma {:induction false} JobKeysAfter(env: Env, s: State, r: ReplicaId, act: Act)
    requires r in s.reps && CanAct(s.now, s.reps[r], act)
    ensures DoDb(env, s, r, act).jobs.Keys == s.db.jobs.Keys
  {
    if act == Tick(Commit) {
      ApplyClaimsJobs(s.db, s.reps[r].tx.claims, s.reps[r].tx.at);
    } else if !(act.Work? && act.a.WriteBack? && act.a.ok) {
      JobsUntouched(env, s, r, act);
    }
  }

  /** Once a stored job is gone, no stale claim, service write or run brings it back. */
  lemma {:induction false} DeletedJobStaysDeleted(env: Env, s: State, step: Step, j: JobId)
    requires Enabled(env, s, step) && j in s.jobIds && j !in s.db.jobs
    ensures var s' := After(env, s, step); j in s'.jobIds && j !in s'.db.jobs
  {
    match step
    case Do(r, act) => JobKeysAfter(env, s, r, act);
    case _ =>
  }

  lemma {:induction false} DeletedJobStaysDeletedInRuns(env: Env, s: State, steps: seq<Step>, j: JobId)
    requires Run(env, s, steps) && j in s.jobIds && j !in s.db.jobs
    ensures j !in End(env, s, steps).db.jobs
    decreases steps
  {
    if steps != [] {
      DeletedJobStaysDeleted(env, s, steps[0], j);
      DeletedJobStaysDeletedInRuns(env, After(env, s, steps[0]), steps[1..], j);
    }
  }

  /** Deleting a job leaves no execution of it, and none appears in any continuation: neither
      the terminal writes of its running claims nor their notifications re-create a row. */
  lemma {:induction false} NothingOfADeletedJob(env: Env, s: State, steps: seq<Step>, j: JobId)
    requires Inv(env, s) && Run(env, s, steps) && j in s.jobIds && j !in s.db.jobs
    ensures var t := End(env, s, steps).db;
            && j !in t.jobs
            && (forall e :: e in t.execs ==> t.execs[e].jobId != j)
            && (forall n :: n in t.notifs ==>
                  t.notifs[n].executionId in t.execs && t.execs[t.notifs[n].executionId].jobId != j)
  {
    DeletedJobStaysDeletedInRuns(env, s, steps, j);
    RunKeepsInv(env, s, steps);
  }

  // ---------------------------------------------------------------- recovery

  /** A successful recovery leaves no `running` row started more than five minutes ago, and
      touches no other row. */
  lemma {:induction false} RecoveryInRuns(env: Env, s: State, r: ReplicaId)
    requires Enabled(env, s, Do(r, Recover(true)))
    ensures var s', cutoff := After(env, s, Do(r, Recover(true))), s.now - STALE_RUNNING_AGE;
            && (forall e :: e in s'.db.execs && s'.db.execs[e].status == Running ==>
                  s'.db.execs[e].startedAt >= cutoff)
            && s'.db.(execs := s.db.execs) == s.db
            && s'.db.execs.Keys == s.db.execs.Keys
            && (forall e :: e in s.db.execs && e !in StaleRows(s.db, cutoff) ==> s'.db.execs[e] == s.db.execs[e])
            && s'.recovered - s.recovered <= StaleRows(s.db, cutoff) <= s'.recovered
  {
    var cutoff := s.now - STALE_RUNNING_AGE;
    var t' := RecoverStale(s.db, cutoff, s.now);
    RecoveryIsComplete(s.db, cutoff, s.now, s.now);
    forall e | e in t'.execs && t'.execs[e].status == Running
      ensures t'.execs[e].startedAt >= cutoff
    {
      assert e !in StaleRows(t', cutoff);
    }
  }

  // ---------------------------------------------------------------- notifications

  /** There is at most one notification of an execution on a channel. */
  lemma {:induction false} OneNotificationEach(env: Env, s: State, m: NotifId, n: NotifId)
    requires Reachable(env, s) && m in s.db.notifs && n in s.db.notifs
    requires s.db.notifs[m].executionId == s.db.notifs[n].executionId
    requires s.db.notifs[m].channelId == s.db.notifs[n].channelId
    ensures m == n
  {
    ReachableInv(env, s);
    NotifOwner(env, s, m);
    NotifOwner(env, s, n);
  }

  lemma {:induction false} NotifOwner(env: Env, s: State, n: NotifId)
    requires Inv(env, s) && n in s.db.notifs
    ensures var e := s.db.notifs[n].executionId;
            && e in s.tickets && n in s.notifIds && s.notifIds[n] == s.tickets[e].rep && s.tickets[e].rep in s.reps
            && var rep := s.reps[s.tickets[e].rep];
               && n in rep.created && rep.created[n] == Link(e, s.db.notifs[n].channelId)
               && e in rep.started && e !in rep.shed && e in rep.fetched
               && Authorises(rep.fetched[e], s.db.notifs[n].channelId)
  {
    assert NotifOk(s, n);
    var r, e := s.notifIds[n], s.db.notifs[n].executionId;
    assert r in s.reps && LocalOk(s.reps[r]);
    StartedOnce(s.reps[r]);
    assert e in s.reps[r].started + QueueIds(s.reps[r].queue);
  }

  // ---------------------------------------------------------------- job rows

  /** A stored timeout survives the multiplication in 64 bits. */
  lemma {:induction false} TimeoutFits(job: Job)
    requires 0 < job.timeoutSeconds <= MAX_INT32
    ensures RunTimeout(job) == job.timeoutSeconds * NANOS_PER_SECOND
  {
  }

  /** No interleaving of stale whole-row writes strands a job: every row that is stored, claimed,
      read by a request or about to be written by one parses, is due at some instant if active,
      and has a positive timeout, within 32 bits once stored. So the error branch of Resume, the skip
      branch of ClaimDue and the default timeout are never taken, and the 64-bit timeout is the
      configured one. */
  lemma {:induction false} NoStrandedJob(env: Env, s: State)
    requires Reachable(env, s)
    ensures forall j :: j in s.db.jobs ==> Stored(env.cron, s.db.jobs[j])
    ensures forall r, c :: r in s.reps && Holds(s.reps[r], c) ==>
              Stored(env.cron, c.job) && RunTimeout(c.job) == c.job.timeoutSeconds * NANOS_PER_SECOND
    ensures forall r :: r in s.reps && s.reps[r].tx.Looping? ==>
              && |s.reps[r].tx.claims| == s.reps[r].tx.pos
              && forall i :: 0 <= i < |s.reps[r].tx.rows| ==> env.cron.parses(s.reps[r].tx.rows[i].schedule)
    ensures forall o :: o in s.ops ==> OpOk(env.cron, s.ops[o])
    ensures forall o :: o in s.ops && s.ops[o].Fetched? && s.ops[o].change == Resume ==>
              Modified(env.cron, Resume, s.ops[o].row, s.now).Ok?
  {
    ReachableInv(env, s);
    forall r, c | r in s.reps && Holds(s.reps[r], c)
      ensures Stored(env.cron, c.job) && RunTimeout(c.job) == c.job.timeoutSeconds * NANOS_PER_SECOND
    {
      TimeoutFits(c.job);
    }
    forall r | r in s.reps && s.reps[r].tx.Looping?
      ensures |s.reps[r].tx.claims| == s.reps[r].tx.pos
      ensures forall i :: 0 <= i < |s.reps[r].tx.rows| ==> env.cron.parses(s.reps[r].tx.rows[i].schedule)
    {
      assert RowsLocked(s, s.reps[r]) && TxExact(env.cron, s.reps[r], s.now);
    }
    forall o | o in s.ops && s.ops[o].Fetched? && s.ops[o].change == Resume
      ensures Modified(env.cron, Resume, s.ops[o].row, s.now).Ok?
    {
      assert OpOk(env.cron, s.ops[o]);
    }
  }
}
