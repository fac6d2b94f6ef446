/** A due job can be claimed: from every reachable state a process can start and claim it, at the
    due time stored. So a slot that a write has reopened can be claimed a second time. */
module Reclaims {
  import opened Domain
  import opened Claiming
  import opened Replica
  import opened System
  import opened JobRows
  import opened Invariant
  import opened Answers
  import opened SoloRuns
  import opened CommittedClaims
  import opened SlotConditions

  lemma {:induction false} BeforeLeads(env: Env, r: ReplicaId, m: State, s: State, s': State)
    requires Before(env, m, s) && Leads(env, r, s, s')
    ensures Before(env, m, s')
  {
    var a :| Run(env, m, a) && End(env, m, a) == s;
    var b :| Run(env, s, b) && End(env, s, b) == s';
    RunJoins(env, m, a, b);
  }

  /** A process with `workers` workers has just started, at instant `at`. */
  lemma {:induction false} StartFresh(env: Env, s: State, at: Time, r: ReplicaId, workers: nat) returns (s': State)
    requires Reachable(env, s) && r !in s.reps && at >= s.now
    ensures Before(env, s, s')
    ensures s' == s.(now := at, reps := s.reps[r := Fresh(workers).(phase := Up)])
  {
    var s1 := LaunchLater(env, s, at - s.now, r, workers);
    s' := s.(now := at, reps := s.reps[r := Fresh(workers).(phase := Up)]);
    assert After(env, s1, Do(r, Recover(false))) == s';
    BeforeStep(env, s, s1, Do(r, Recover(false)));
  }

  lemma {:induction false} SameLocks(s: State, s': State, r: ReplicaId)
    requires forall q :: q != r ==> (q in s.reps <==> q in s'.reps) && (q in s.reps ==> s'.reps[q] == s.reps[q])
    ensures OthersLocks(s', r) == OthersLocks(s, r)
  {
    forall j
      ensures j in OthersLocks(s', r) <==> j in OthersLocks(s, r)
    {
      if j in OthersLocks(s, r) {
        var q :| q in s.reps && q != r && j in LockSet(s.reps[q]);
        assert q in s'.reps && j in LockSet(s'.reps[q]);
      }
      if j in OthersLocks(s', r) {
        var q :| q in s'.reps && q != r && j in LockSet(s'.reps[q]);
        assert q in s.reps && j in LockSet(s.reps[q]);
      }
    }
  }

  /** It has locked the rows its query returned. */
  lemma {:induction false} LockRows(env: Env, m: State, s: State, r: ReplicaId, rows: seq<Job>) returns (s': State)
    requires Before(env, m, s) && r in s.reps && CanAct(s.now, s.reps[r], Tick(Begin))
    requires EarliestDue(rows, s.db.jobs, OthersLocks(s, r), s.now, s.reps[r].Capacity())
    ensures Before(env, m, s')
    ensures s' == s.(reps := s.reps[r := s.reps[r].(tx := Looping(s.now, s.now, rows, 0, []))])
  {
    var s1 := s.(reps := s.reps[r := s.reps[r].(tx := Begun(s.now))]);
    assert After(env, s, Do(r, Tick(Begin))) == s1;
    BeforeStep(env, m, s, Do(r, Tick(Begin)));
    SameLocks(s, s1, r);
    s' := After(env, s1, Do(r, Tick(Select(rows))));
    BeforeStep(env, m, s1, Do(r, Tick(Select(rows))));
  }

  /** It has claimed them all. */
  lemma {:induction false} ClaimRows(env: Env, m: State, s: State, r: ReplicaId) returns (s': State)
    requires Before(env, m, s) && r in s.reps && Alive(s.reps[r]) && s.reps[r].tx.Looping?
    requires s.reps[r].tx == Looping(s.now, s.now, s.reps[r].tx.rows, 0, [])
    ensures Before(env, m, s') && s'.slots == s.slots && s'.db == s.db && s'.reps.Keys == s.reps.Keys
    ensures s'.reps[r].tx.Looping? && s'.reps[r].tx.rows == s.reps[r].tx.rows
    ensures CanAct(s'.now, s'.reps[r], Tick(Commit))
  {
    var from := FreshInt(s.issued.Keys);
    var clock, ids := (k: nat) => s.now, (k: nat) => from + k;
    var rows := s.reps[r].tx.rows;
    s' := LoopRun(env, s, r, s.now, clock, ids, rows, |rows|);
    BeforeLeads(env, r, m, s, s');
  }

  lemma {:induction false} CommitRows(env: Env, m: State, s: State, r: ReplicaId, i: nat) returns (s': State)
    requires Before(env, m, s) && r in s.reps && CanAct(s.now, s.reps[r], Tick(Commit)) && i < |s.reps[r].tx.rows|
    ensures Before(env, m, s') && SlotsGrow(s, s')
    ensures var row := s.reps[r].tx.rows[i];
            && |s.slots| + i < |s'.slots| && s'.slots[|s.slots| + i].jobId == row.id
            && s'.slots[|s.slots| + i].dueAt == row.nextRunAt
  {
    BeforeReachable(env, m, s);
    ReachableInv(env, s);
    CommitExtends(env, s, r);
    s' := After(env, s, Do(r, Tick(Commit)));
    BeforeStep(env, m, s, Do(r, Tick(Commit)));
  }

  /** With room for all jobs the query returns every eligible one. */
  lemma {:induction false} RoomForAll(rows: seq<Job>, jobs: map<JobId, Job>, locked: set<JobId>, at: Time, limit: nat,
        j: JobId) returns (i: nat)
    requires EarliestDue(rows, jobs, locked, at, limit) && Eligible(jobs, locked, at, j) && limit >= |jobs|
    ensures i < |rows| && rows[i] == jobs[j] && rows[i].id == j
  {
    if !Listed(rows, j) {
      RowIdsCount(rows);
      forall x | x in RowIds(rows)
        ensures x in jobs.Keys - {j}
      {
        var k :| 0 <= k < |rows| && rows[k].id == x;
        assert Eligible(jobs, locked, at, rows[k].id);
      }
      Within(RowIds(rows), jobs.Keys - {j});
      assert false;
    }
    i :| 0 <= i < |rows| && rows[i].id == j;
  }

  /** From every reachable state in which an active job has a due time and is not locked, a run
      leads to a claim of it for that due time. */
  lemma {:induction false} DueIsClaimed(env: Env, s: State, j: JobId) returns (s': State)
    requires Reachable(env, s) && j in s.db.jobs && !JobLocked(s, j)
    requires s.db.jobs[j].status == Active && s.db.jobs[j].nextRunAt.Some?
    ensures Before(env, s, s') && SlotsGrow(s, s')
    ensures SlotClaimed(s', |s.slots|, j, s.db.jobs[j].nextRunAt.value)
  {
    ReachableJobs(env, s);
    var due := s.db.jobs[j].nextRunAt.value;
    var at := if due > s.now then due else s.now;
    var r := FreshInt(s.reps.Keys);
    var s1 := StartFresh(env, s, at, r, |s.db.jobs|);
    StillUnlocked(s, s1, r, |s.db.jobs|, j);
    s' := ClaimFresh(env, s, s1, r, j);
  }

  lemma {:induction false} StillUnlocked(s: State, s': State, r: ReplicaId, workers: nat, j: JobId)
    requires s'.reps == s.reps[r := Fresh(workers).(phase := Up)] && !JobLocked(s, j)
    ensures !JobLocked(s', j)
  {
  }

  /** The process just started claims what is due. */
  lemma {:induction false} ClaimFresh(env: Env, m: State, s: State, r: ReplicaId, j: JobId) returns (s': State)
    requires Before(env, m, s) && r in s.reps && s.reps[r] == Fresh(|s.db.jobs|).(phase := Up)
    requires forall k :: k in s.db.jobs ==> s.db.jobs[k].id == k
    requires j in s.db.jobs && Due(s.db.jobs[j], s.now) && !JobLocked(s, j)
    ensures Before(env, m, s') && SlotsGrow(s, s')
    ensures SlotClaimed(s', |s.slots|, j, s.db.jobs[j].nextRunAt.value)
  {
    var rows, i := AllDue(s, r, j);
    var s1 := LockRows(env, m, s, r, rows);
    var s2 := ClaimRows(env, m, s1, r);
    s' := CommitRows(env, m, s2, r, i);
    assert s'.slots[|s.slots| + i].dueAt == s.db.jobs[j].nextRunAt;
  }

  lemma {:induction false} ReachableJobs(env: Env, s: State)
    requires Reachable(env, s)
    ensures forall j :: j in s.db.jobs ==> s.db.jobs[j].id == j
  {
    ReachableInv(env, s);
    assert JobsOk(env.cron, s);
  }

  lemma {:induction false} AllDue(s: State, r: ReplicaId, j: JobId) returns (rows: seq<Job>, i: nat)
    requires r in s.reps && s.reps[r].Capacity() >= |s.db.jobs| && forall k :: k in s.db.jobs ==> s.db.jobs[k].id == k
    requires j in s.db.jobs && Due(s.db.jobs[j], s.now) && !JobLocked(s, j)
    ensures EarliestDue(rows, s.db.jobs, OthersLocks(s, r), s.now, s.reps[r].Capacity())
    ensures i < |rows| && rows[i] == s.db.jobs[j] && rows[i].id == j
  {
    rows := EarliestDueExists(s.db.jobs, OthersLocks(s, r), s.now, s.reps[r].Capacity());
    i := RoomForAll(rows, s.db.jobs, OthersLocks(s, r), s.now, s.reps[r].Capacity(), j);
  }

  /** So a reopened slot can be claimed a second time, by two different positions of the history. */
  lemma {:induction false} ReopenedIsClaimedTwice(env: Env, s: State, j: JobId) returns (s': State, i: nat, k: nat)
    requires Reachable(env, s) && Reopened(s, j) && !JobLocked(s, j)
    ensures Before(env, s, s') && i < k < |s'.slots|
    ensures s'.slots[i].jobId == s'.slots[k].jobId == j && s'.slots[i].dueAt == s'.slots[k].dueAt
    ensures s'.slots[i].dueAt == s.db.jobs[j].nextRunAt
  {
    var due := s.db.jobs[j].nextRunAt.value;
    s' := DueIsClaimed(env, s, j);
    i :| 0 <= i < |s.slots| && s.slots[i].jobId == j && s.slots[i].dueAt == Some(due);
    k :| |s.slots| <= k < |s'.slots| && s'.slots[k].jobId == j && s'.slots[k].dueAt == Some(due);
  }
}
