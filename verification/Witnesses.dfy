/** Reachable runs in which a whole-row write undoes a change made meanwhile, and one in which
    recovery marks the execution of a living process: they show that the conditions of `Snapshots`,
    `CommittedClaims` and `TimedRuns` cannot be dropped. */
module Witnesses {
  import opened Domain
  import opened Tables
  import opened Claiming
  import opened Replica
  import opened ReplicaInvariants
  import opened Service
  import opened System
  import opened Answers
  import opened TimedRuns

  /** A job due every minute, at 60, 120, 180, ... seconds. */
  const EVERY_MINUTE := Cron(_ => true, (_, t) => t + 60_000)
  const ENV := Env(EVERY_MINUTE, {"command"}, {}, false)
  const INPUT := CreateInput(1, "j", "command", "* * * * *", "{}", [], None, 90)

  /** One process with one worker, between ticks, and one job, due at `due`. */
  ghost predicate Simple(s: State, due: Time) {
    && 0 in s.reps && s.reps.Keys == {0} && |s.reps[0].workers| == 1
    && s.reps[0].phase == Up && !s.reps[0].ctxDone && s.reps[0].tx.NoTx? && s.reps[0].batch == []
    && 1 in s.db.jobs && s.db.jobs.Keys == {1} && s.db.jobs[1].id == 1 && s.db.jobs[1].kind == "command"
    && Storable(s.db.jobs[1])
    && s.db.jobs[1].status == Active && s.db.jobs[1].nextRunAt == Some(due)
  }

  lemma {:induction false} CreateOne() returns (s: State)
    ensures Reachable(ENV, s)
    ensures s == INIT.(db := s.db, jobIds := s.jobIds, jobWrites := s.jobWrites) && s.db.jobs.Keys == {1}
    ensures var job := s.db.jobs[1];
            && job.id == 1 && job.kind == "command" && Storable(job) && job.status == Active
            && job.nextRunAt == Some(60_000)
  {
    assert Run(ENV, INIT, []) && End(ENV, INIT, []) == INIT;
    var draft := DraftJob(7, 1, INPUT);
    var s1 := After(ENV, INIT, draft);
    ReachableStep(ENV, INIT, draft);
    assert Enabled(ENV, s1, WriteJob(7, true));
    s := After(ENV, s1, WriteJob(7, true));
    ReachableStep(ENV, s1, WriteJob(7, true));
    assert s.ops == map[];
  }

  lemma {:induction false} Setup() returns (s: State)
    ensures Reachable(ENV, s) && Simple(s, 60_000) && s.now == 0 && s.slots == [] && s.issued == map[]
    ensures s.reps[0].queue == [] && s.reps[0].workers == [Idle] && s.ops == map[]
  {
    var s2 := CreateOne();
    var s3 := After(ENV, s2, Launch(0, 1));
    ReachableStep(ENV, s2, Launch(0, 1));
    assert Enabled(ENV, s3, Do(0, Recover(false)));
    s := After(ENV, s3, Do(0, Recover(false)));
    ReachableStep(ENV, s3, Do(0, Recover(false)));
  }

  lemma {:induction false} Wait(s: State, dt: nat, due: Time) returns (s': State)
    requires Reachable(ENV, s) && Simple(s, due)
    ensures Reachable(ENV, s') && Simple(s', due) && s' == s.(now := s.now + dt)
  {
    s' := After(ENV, s, Elapse(dt));
    ReachableStep(ENV, s, Elapse(dt));
  }

  /** What one tick that claims the job with execution id `e` and buffers the claim leads to. */
  ghost predicate Claimed(s: State, s': State, due: Time, e: ExecId) {
    && Simple(s', s.now + 60_000) && s'.now == s.now && s'.ops == s.ops && 0 in s.reps && 1 in s.db.jobs
    && s'.issued == s.issued[e := 0] && s'.reps[0].workers == s.reps[0].workers
    && s'.slots == s.slots + [Slot(1, Some(due), e)]
    && s'.db.execs == s.db.execs[e := Execution(1, Running, "", "", 0, s.now, None)]
    && |s'.reps[0].queue| == |s.reps[0].queue| + 1
    && (s.reps[0].queue == [] ==>
          s'.reps[0].queue[0].claim == Claim(s.db.jobs[1].(nextRunAt := Some(s.now + 60_000)), e, s.now))
  }

  lemma {:induction false} ClaimOnce(s: State, due: Time, e: ExecId) returns (s': State)
    requires Reachable(ENV, s) && Simple(s, due) && due <= s.now && e !in s.issued && |s.reps[0].queue| < 2
    ensures Reachable(ENV, s') && Claimed(s, s', due, e)
  {
    var s2 := SelectOne(s, due);
    var s3 := After(ENV, s2, Do(0, Tick(AdvanceRow(e))));
    ReachableStep(ENV, s2, Do(0, Tick(AdvanceRow(e))));
    var claim := Claim(s.db.jobs[1].(nextRunAt := Some(s.now + 60_000)), e, s.now);
    assert s3.reps[0].tx.claims == [claim];
    assert s3.reps == s.reps[0 := s.reps[0].(tx := Looping(s.now, s.now, [s.db.jobs[1]], 1, [claim]))];
    s' := CommitAndBuffer(s, s3, s.db.jobs[1], due, e);
  }

  lemma {:induction false} SelectOne(s: State, due: Time) returns (s2: State)
    requires Reachable(ENV, s) && Simple(s, due) && due <= s.now
    ensures Reachable(ENV, s2)
    ensures s2 == s.(reps := s.reps[0 := s.reps[0].(tx := Looping(s.now, s.now, [s.db.jobs[1]], 0, []))])
  {
    var s1 := s.(reps := s.reps[0 := s.reps[0].(tx := Begun(s.now))]);
    assert After(ENV, s, Do(0, Tick(Begin))) == s1;
    ReachableStep(ENV, s, Do(0, Tick(Begin)));
    s2 := LockOne(s1, due);
  }

  lemma {:induction false} LockOne(s: State, due: Time) returns (s': State)
    requires Reachable(ENV, s) && 0 in s.reps && s.reps.Keys == {0} && s.reps[0].tx == Begun(s.now)
    requires Simple(s.(reps := s.reps[0 := s.reps[0].(tx := NoTx)]), due) && due <= s.now
    ensures Reachable(ENV, s')
    ensures s' == s.(reps := s.reps[0 := s.reps[0].(tx := Looping(s.now, s.now, [s.db.jobs[1]], 0, []))])
  {
    var row := s.db.jobs[1];
    assert EarliestDue([row], s.db.jobs, OthersLocks(s, 0), s.now, 2) by {
      assert Listed([row], 1) by { assert [row][0].id == 1; }
    }
    assert Enabled(ENV, s, Do(0, Tick(Select([row]))));
    s' := After(ENV, s, Do(0, Tick(Select([row]))));
    ReachableStep(ENV, s, Do(0, Tick(Select([row]))));
  }

  lemma {:induction false} CommitAndBuffer(s: State, s3: State, row: Job, due: Time, e: ExecId) returns (s': State)
    requires Reachable(ENV, s3) && Simple(s, due) && row == s.db.jobs[1]
    requires |s.reps[0].queue| < 2 && s3.issued == s.issued[e := 0]
    requires var claim := Claim(row.(nextRunAt := Some(s.now + 60_000)), e, s.now);
             s3 == s.(reps := s.reps[0 := s.reps[0].(tx := Looping(s.now, s.now, [row], 1, [claim]))],
                      issued := s3.issued)
    ensures Reachable(ENV, s') && Claimed(s, s', due, e)
  {
    var claim := Claim(row.(nextRunAt := Some(s.now + 60_000)), e, s.now);
    var s4 := CommitOne(s3, row, claim);
    assert Enabled(ENV, s4, Do(0, Tick(Enqueue)));
    s' := After(ENV, s4, Do(0, Tick(Enqueue)));
    ReachableStep(ENV, s4, Do(0, Tick(Enqueue)));
  }

  lemma {:induction false} CommitOne(s: State, row: Job, claim: Claim) returns (s': State)
    requires Reachable(ENV, s) && 0 in s.reps && s.reps[0].phase == Up && 1 in s.db.jobs && s.db.jobs[1] == row
    requires row.id == 1 && claim.job == row.(nextRunAt := claim.job.nextRunAt) && !s.reps[0].ctxDone
    requires s.reps[0].tx == Looping(s.now, s.now, [row], 1, [claim])
    ensures Reachable(ENV, s')
    ensures s' == s.(reps := s'.reps, db := ApplyClaim(s.db, claim, s.now), tickets := s'.tickets,
                     jobWrites := s'.jobWrites, slots := s.slots + [Slot(1, row.nextRunAt, claim.execId)])
    ensures s'.reps == s.reps[0 := s.reps[0].(tx := NoTx, batch := [claim], passed := 0, waitSince := s.now,
                                              claimed := s.reps[0].claimed + [claim.execId])]
  {
    assert Enabled(ENV, s, Do(0, Tick(Commit)));
    s' := After(ENV, s, Do(0, Tick(Commit)));
    ReachableStep(ENV, s, Do(0, Tick(Commit)));
    assert [claim][..0] == [];
    assert ApplyClaims(s.db, [claim], s.now) == ApplyClaim(s.db, claim, s.now);
    assert SlotsOf(s.db, [claim]) == [Slot(1, row.nextRunAt, claim.execId)];
    assert ClaimIds([claim]) == [claim.execId];
  }

  /** The worker takes the buffered claim. */
  lemma {:induction false} TakeOne(s: State, due: Time) returns (s': State)
    requires Reachable(ENV, s) && Simple(s, due) && s.reps[0].queue != [] && s.reps[0].workers == [Idle]
    ensures Reachable(ENV, s') && Simple(s', due)
    ensures s'.now == s.now && s'.slots == s.slots && s'.issued == s.issued && s'.db == s.db && s'.ops == s.ops
    ensures s'.reps[0].queue == s.reps[0].queue[1..]
    ensures var wk := s'.reps[0].workers[0];
            wk.Busy? && wk.stage.Executing? && wk.claim == s.reps[0].queue[0].claim
  {
    assert Enabled(ENV, s, Do(0, Work(0, Dequeue)));
    s' := After(ENV, s, Do(0, Work(0, Dequeue)));
    ReachableStep(ENV, s, Do(0, Work(0, Dequeue)));
  }

  /** A run of the job is in flight; its claim moved the due time to 120 seconds. */
  ghost predicate InFlight(s: State) {
    && 0 in s.reps && s.reps[0].phase == Up && |s.reps[0].workers| == 1 && s.reps[0].workers[0].Busy?
    && var job := s.reps[0].workers[0].claim.job;
       job.id == 1 && job.kind == "command" && job.status == Active && job.nextRunAt == Some(120_000) && Storable(job)
  }

  lemma {:induction false} FirstRun() returns (s: State)
    ensures Reachable(ENV, s) && Simple(s, 120_000) && InFlight(s) && s.now == 60_000 && s.ops == map[]
    ensures s.reps[0].workers[0].stage.Executing? && s.reps[0].queue == []
    ensures s.slots == [Slot(1, Some(60_000), 100)] && s.issued == map[100 := 0]
    ensures s.reps[0].workers[0].claim.execId == 100
    ensures 100 in s.db.execs && s.db.execs[100] == Execution(1, Running, "", "", 0, 60_000, None)
  {
    var s0 := Setup();
    var s1 := Wait(s0, 60_000, 60_000);
    var s2 := ClaimOnce(s1, 60_000, 100);
    s := TakeOne(s2, 120_000);
  }

  /** The worker finishes the run, then writes the job row back. */
  lemma {:induction false} FinishOne(s: State) returns (s': State)
    requires Reachable(ENV, s) && InFlight(s) && s.reps[0].workers[0].stage.Executing?
    ensures Reachable(ENV, s') && InFlight(s') && s'.reps[0].workers[0].stage.Saved?
    ensures s'.now == s.now && s'.db.jobs == s.db.jobs && s'.slots == s.slots
    ensures s'.issued == s.issued && s'.ops == s.ops && s'.reps.Keys == s.reps.Keys
    ensures s'.reps[0].ctxDone == s.reps[0].ctxDone && s'.reps[0].tx == s.reps[0].tx
    ensures s'.reps[0].batch == s.reps[0].batch && s'.reps[0].queue == s.reps[0].queue
  {
    var step := Do(0, Work(0, Finish(Verdict(true, "ok"), true)));
    assert Enabled(ENV, s, step);
    s' := After(ENV, s, step);
    ReachableStep(ENV, s, step);
  }

  lemma {:induction false} WriteBackOne(s: State, due: Time) returns (s': State)
    requires Reachable(ENV, s) && Simple(s, due) && InFlight(s) && s.reps[0].workers[0].stage.Saved?
    ensures Reachable(ENV, s') && Simple(s', 120_000)
    ensures s'.now == s.now && s'.slots == s.slots && s'.issued == s.issued && s'.reps[0].queue == s.reps[0].queue
  {
    var step := Do(0, Work(0, WriteBack(true)));
    assert Enabled(ENV, s, step);
    s' := After(ENV, s, step);
    ReachableStep(ENV, s, step);
  }

  /** The run lasts until the job is due, and claimed, again. */
  lemma {:induction false} SecondClaim() returns (s: State)
    ensures Reachable(ENV, s) && Simple(s, 180_000) && InFlight(s) && s.now == 120_000
    ensures s.reps[0].workers[0].stage.Executing? && |s.reps[0].queue| == 1 && 102 !in s.issued
    ensures s.slots == [Slot(1, Some(60_000), 100), Slot(1, Some(120_000), 101)]
  {
    var s1 := FirstRun();
    var s2 := Wait(s1, 60_000, 120_000);
    s := ClaimOnce(s2, 120_000, 101);
  }

  /** A run that outlives its period: the write-back restores the due time the next tick had
      already consumed, and the same slot of the same job is claimed a second time. */
  lemma {:induction false} SlotClaimedTwice() returns (s: State)
    ensures Reachable(ENV, s)
    ensures |s.slots| == 3 && s.slots[1].jobId == s.slots[2].jobId
    ensures s.slots[1].dueAt == s.slots[2].dueAt == Some(120_000) && s.slots[1].execId != s.slots[2].execId
  {
    var s3 := SecondClaim();
    var s4 := FinishOne(s3);
    var s5 := WriteBackOne(s4, 180_000);
    s := ClaimOnce(s5, 120_000, 102);
  }

  /** A pause requested while a run is in flight: the write-back makes the job active again,
      although nobody resumed it. */
  lemma {:induction false} PauseOverwritten() returns (s: State)
    ensures Reachable(ENV, s) && 0 in s.reps && 1 in s.db.jobs && s.db.jobs[1].status == Paused && s.ops == map[]
    ensures var step := Do(0, Work(0, WriteBack(true)));
            && Enabled(ENV, s, step) && 1 in After(ENV, s, step).db.jobs
            && After(ENV, s, step).db.jobs[1].status == Active
            && Due(After(ENV, s, step).db.jobs[1], 120_000)
  {
    var s1 := FirstRun();
    var s2 := PauseJob(s1);
    s := FinishOne(s2);
    assert s.reps.Keys == {0};
    assert Enabled(ENV, s, Do(0, Work(0, WriteBack(true))));
  }

  lemma {:induction false} PauseJob(s: State) returns (s': State)
    requires Reachable(ENV, s) && Simple(s, 120_000) && s.ops == map[]
    ensures Reachable(ENV, s') && s'.reps == s.reps && s'.ops == map[] && s'.now == s.now
    ensures 1 in s'.db.jobs && s'.db.jobs[1].status == Paused
  {
    var row := s.db.jobs[1].(status := Paused, nextRunAt := None);
    var s1 := s.(ops := map[7 := Fetched(Pause, s.db.jobs[1])]);
    assert After(ENV, s, ReadJob(7, 1, Pause)) == s1;
    ReachableStep(ENV, s, ReadJob(7, 1, Pause));
    var s2 := s.(ops := map[7 := Ready(false, row)]);
    assert After(ENV, s1, PrepareJob(7)) == s2;
    ReachableStep(ENV, s1, PrepareJob(7));
    s' := WriteReady(s2, row);
  }

  lemma {:induction false} WriteReady(s: State, row: Job) returns (s': State)
    requires Reachable(ENV, s) && s.ops == map[7 := Ready(false, row)] && Storable(row) && !JobLocked(s, row.id)
    requires row.id in s.db.jobs
    ensures Reachable(ENV, s') && s'.reps == s.reps && s'.ops == map[] && s'.now == s.now
    ensures s'.db == UpdateJob(s.db, row, s.now)
  {
    s' := AfterWrite(s, 7, true);
    assert After(ENV, s, WriteJob(7, true)) == s';
    ReachableStep(ENV, s, WriteJob(7, true));
    assert s'.ops == map[];
  }

  const RENAME := Edit(Some("k"), None, None, None, None, None)

  /** A request to rename the job has read the row and is about to write it. */
  lemma {:induction false} PrepareRename(s: State) returns (s': State)
    requires Reachable(ENV, s) && Simple(s, 60_000) && s.ops == map[]
    ensures Reachable(ENV, s') && s' == s.(ops := map[7 := Ready(false, s.db.jobs[1].(name := "k"))])
  {
    var read := ReadJob(7, 1, RENAME);
    var s1 := s.(ops := map[7 := Fetched(RENAME, s.db.jobs[1])]);
    assert After(ENV, s, read) == s1;
    ReachableStep(ENV, s, read);
    assert After(ENV, s1, PrepareJob(7)) == s1.(ops := map[7 := Ready(false, s.db.jobs[1].(name := "k"))]);
    ReachableStep(ENV, s1, PrepareJob(7));
    s' := After(ENV, s1, PrepareJob(7));
  }

  lemma {:induction false} WriteRename(s: State, due: Time, row: Job) returns (s': State)
    requires Reachable(ENV, s) && Simple(s, due) && s.ops == map[7 := Ready(false, row)]
    requires row.id == 1 && row.kind == "command" && row.status == Active && Storable(row)
    requires row.nextRunAt == Some(60_000)
    ensures Reachable(ENV, s') && Simple(s', 60_000) && s'.slots == s.slots && s'.issued == s.issued
    ensures s'.now == s.now && s'.reps == s.reps
  {
    assert Enabled(ENV, s, WriteJob(7, true));
    s' := After(ENV, s, WriteJob(7, true));
    ReachableStep(ENV, s, WriteJob(7, true));
  }

  /** A rename across a claim: its write restores the due time the claim consumed, and the slot is
      claimed a second time, although no worker has run anything. */
  lemma {:induction false} RenameReopensSlot() returns (s: State)
    ensures Reachable(ENV, s) && 0 in s.reps && s.reps[0].workers == [Idle]
    ensures |s.slots| == 2 && s.slots[0].jobId == s.slots[1].jobId
    ensures s.slots[0].dueAt == s.slots[1].dueAt == Some(60_000) && s.slots[0].execId != s.slots[1].execId
  {
    var s0 := Setup();
    var s1 := PrepareRename(s0);
    var row := s0.db.jobs[1].(name := "k");
    var s2 := Wait(s1, 60_000, 60_000);
    var s3 := ClaimOnce(s2, 60_000, 100);
    var s4 := WriteRename(s3, 120_000, row);
    s := ClaimOnce(s4, 60_000, 101);
  }

  /** A run of more than five minutes: another process's start marks its execution as crashed, and
      then its own worker overwrites that with success. */
  lemma {:induction false} StatusChangesTwice() returns (s1: State, s2: State, s3: State)
    ensures Before(ENV, s1, s2) && Before(ENV, s2, s3)
    ensures 100 in s1.db.execs && 100 in s2.db.execs && 100 in s3.db.execs
    ensures s1.db.execs[100].status == Running && s2.db.execs[100].status == Error
    ensures s3.db.execs[100].status == Success
  {
    s1 := FirstRun();
    ExecutingMember(s1.reps[0].workers, 0);
    s2 := RecoveryHitsTheLiving(ENV, s1, 0, 100, 1);
    var step := Do(0, Work(0, Finish(Verdict(true, "ok"), true)));
    assert Enabled(ENV, s2, step);
    s3 := After(ENV, s2, step);
    BeforeReachable(ENV, s1, s2);
    BeforeItself(ENV, s2);
    BeforeStep(ENV, s2, s2, step);
  }
}
