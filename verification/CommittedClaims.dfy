/** What a committed claim is, and when no due slot is claimed twice. */
module CommittedClaims {
  import opened Domain
  import opened Tables
  import opened Claiming
  import opened Replica
  import opened ReplicaInvariants
  import opened System
  import opened Ownership
  import opened JobRows
  import opened Invariant
  import opened Answers

  // ---------------------------------------------------------------- the declarative claim

  /** The due row was claimed: its next run computed between `start` and `until`, and a fresh
      execution running since `start`. */
  ghost predicate RowClaimed(cron: Cron, t: Tables, t': Tables, row: Job, c: Claim,
                             at: Time, start: Time, until: Time) {
    && AdvancedFrom(cron, row, c.job, start, until) && c.startedAt == start && Due(row, at)
    && row.id in t.jobs && t.jobs[row.id] == row && row.id in t'.jobs
    && t'.jobs[row.id] == row.(nextRunAt := c.job.nextRunAt, updatedAt := at)
    && c.execId !in t.execs && c.execId in t'.execs
    && t'.execs[c.execId] == Execution(row.id, Running, "", "", 0, start, None)
  }

  /** The outcome of one claiming transaction that began at `at`, locked `rows` by `start` and
      committed at `until`: the claims are those rows in order, each with its next run computed
      in between; each gets a fresh row, running since `start`; nothing else changes. */
  ghost predicate ClaimsExactly(cron: Cron, t: Tables, t': Tables, rows: seq<Job>, claims: seq<Claim>,
                                at: Time, start: Time, until: Time) {
    && |claims| == |rows| && NoDup(ClaimIds(claims)) && DistinctRows(rows) && at <= start <= until
    && (forall i :: 0 <= i < |rows| ==> RowClaimed(cron, t, t', rows[i], claims[i], at, start, until))
    && t'.jobs.Keys == t.jobs.Keys && t'.notifs == t.notifs && t'.chans == t.chans
    && (forall j :: j in t.jobs && !Listed(rows, j) ==> t'.jobs[j] == t.jobs[j])
    && (forall e :: e in t'.execs ==> (e in t.execs && t'.execs[e] == t.execs[e]) || e in ClaimIds(claims))
    && (forall e :: e in t.execs ==> e in t'.execs)
  }

  lemma {:induction false} CommittedRow(env: Env, s: State, r: ReplicaId, i: nat)
    requires Enabled(env, s, Do(r, Tick(Commit))) && RowsLocked(s, s.reps[r]) && TxExact(env.cron, s.reps[r], s.now)
    requires TxFresh(s.reps[r]) && Placed(s.reps[r]) && IdsOk(s) && ExecsOk(s) && i < |s.reps[r].tx.rows|
    ensures RowClaimed(env.cron, s.db, After(env, s, Do(r, Tick(Commit))).db, s.reps[r].tx.rows[i],
                       s.reps[r].tx.claims[i], s.reps[r].tx.at, s.reps[r].tx.startedAt, s.now)
  {
    var rep := s.reps[r];
    ExactJobs(env.cron, s, rep, s.now);
    TxIdsDistinct(rep);
    ApplyClaimsAt(s.db, rep.tx.claims, rep.tx.at, i);
    assert ClaimIds(rep.tx.claims)[i] == rep.tx.claims[i].execId;
    CommitMakesNew(env, s, r, rep.tx.claims[i].execId);
  }

  /** Every commit is such an outcome. Its rows were the earliest due rows nobody else had locked
      when the transaction's query was answered, and the transaction has kept them locked since. */
  lemma {:induction false} CommitIsDeclarative(env: Env, s: State, r: ReplicaId)
    requires Reachable(env, s) && Enabled(env, s, Do(r, Tick(Commit)))
    ensures var rep, s' := s.reps[r], After(env, s, Do(r, Tick(Commit)));
            && ClaimsExactly(env.cron, s.db, s'.db, rep.tx.rows, rep.tx.claims, rep.tx.at, rep.tx.startedAt, s.now)
            && s'.reps[r].batch == rep.tx.claims
            && exists m :: && Asked(env, m, s, r, rep.tx, rep.Capacity())
                           && forall i :: 0 <= i < |rep.tx.rows| ==> m.db.jobs[rep.tx.rows[i].id] == rep.tx.rows[i]
  {
    ReachableInv(env, s);
    CommitExact(env, s, r);
    RowsWereAnswer(env, s, r);
  }

  lemma {:induction false} RowsWereAnswer(env: Env, s: State, r: ReplicaId)
    requires Reachable(env, s) && r in s.reps && s.reps[r].tx.Looping?
    ensures var rep := s.reps[r];
            exists m :: && Asked(env, m, s, r, rep.tx, rep.Capacity())
                        && forall i :: 0 <= i < |rep.tx.rows| ==> m.db.jobs[rep.tx.rows[i].id] == rep.tx.rows[i]
  {
    ReachableAnswered(env, s);
    var rep := s.reps[r];
    assert RepAnswered(env, s, r, rep);
    var m :| Asked(env, m, s, r, rep.tx, rep.Capacity());
  }

  /** What a commit leaves of the other rows. */
  lemma {:induction false} CommitOthers(env: Env, s: State, r: ReplicaId)
    requires Enabled(env, s, Do(r, Tick(Commit))) && RowsLocked(s, s.reps[r]) && TxExact(env.cron, s.reps[r], s.now)
    ensures var tx, t, t' := s.reps[r].tx, s.db, After(env, s, Do(r, Tick(Commit))).db;
            && t'.jobs.Keys == t.jobs.Keys && t'.notifs == t.notifs && t'.chans == t.chans
            && (forall j :: j in t.jobs && !Listed(tx.rows, j) ==> t'.jobs[j] == t.jobs[j])
  {
    var tx, t' := s.reps[r].tx, After(env, s, Do(r, Tick(Commit))).db;
    ApplyClaimsExecs(s.db, tx.claims, tx.at);
    ApplyClaimsJobs(s.db, tx.claims, tx.at);
    ExactJobs(env.cron, s, s.reps[r], s.now);
    forall j | j in s.db.jobs && !Listed(tx.rows, j)
      ensures t'.jobs[j] == s.db.jobs[j]
    {
      assert forall k :: 0 <= k < |tx.claims| ==> tx.rows[k].id != j && tx.claims[k].job.id == tx.rows[k].id;
      ApplyClaimsOtherJob(s.db, tx.claims, tx.at, j);
    }
  }

  lemma {:induction false} CommitOldExecs(env: Env, s: State, r: ReplicaId)
    requires Enabled(env, s, Do(r, Tick(Commit)))
    ensures var tx, t, t' := s.reps[r].tx, s.db, After(env, s, Do(r, Tick(Commit))).db;
            && (forall e :: e in t'.execs ==> (e in t.execs && t'.execs[e] == t.execs[e]) || e in ClaimIds(tx.claims))
            && (forall e :: e in t.execs ==> e in t'.execs)
  {
    ApplyClaimsExecs(s.db, s.reps[r].tx.claims, s.reps[r].tx.at);
  }

  lemma {:induction false} CommitExact(env: Env, s: State, r: ReplicaId)
    requires Enabled(env, s, Do(r, Tick(Commit))) && RowsLocked(s, s.reps[r]) && TxExact(env.cron, s.reps[r], s.now)
    requires TxFresh(s.reps[r]) && Placed(s.reps[r]) && IdsOk(s) && ExecsOk(s)
    ensures ClaimsExactly(env.cron, s.db, After(env, s, Do(r, Tick(Commit))).db,
                          s.reps[r].tx.rows, s.reps[r].tx.claims, s.reps[r].tx.at,
                          s.reps[r].tx.startedAt, s.now)
  {
    TxIdsDistinct(s.reps[r]);
    CommitOthers(env, s, r);
    CommitOldExecs(env, s, r);
    forall i | 0 <= i < |s.reps[r].tx.rows|
      ensures RowClaimed(env.cron, s.db, After(env, s, Do(r, Tick(Commit))).db, s.reps[r].tx.rows[i],
                         s.reps[r].tx.claims[i], s.reps[r].tx.at, s.reps[r].tx.startedAt, s.now)
    {
      CommittedRow(env, s, r, i);
    }
  }

  /** Aborting leaves no trace in the tables and hands over no claim. */
  lemma {:induction false} AbortLeavesNothing(env: Env, s: State, r: ReplicaId)
    requires Reachable(env, s) && Enabled(env, s, Do(r, Tick(Abort)))
    ensures var s' := After(env, s, Do(r, Tick(Abort)));
            && s'.db == s.db && s'.reps[r].batch == [] && LockSet(s'.reps[r]) == {}
            && s'.reps[r].claimed == s.reps[r].claimed
  {
    ReachableInv(env, s);
    assert LocalOk(s.reps[r]);
  }

  /** No job is locked by two transactions. */
  lemma {:induction false} LockSetsDisjoint(env: Env, s: State, q: ReplicaId, r: ReplicaId)
    requires Reachable(env, s) && q in s.reps && r in s.reps && q != r
    ensures LockSet(s.reps[q]) !! LockSet(s.reps[r])
  {
    ReachableInv(env, s);
  }

  // ---------------------------------------------------------------- slots

  /** Some slot of job `j` at or past `x` was claimed, from position `from` on. */
  ghost predicate SlotReached(s: State, from: nat, j: JobId, x: Time) {
    exists k :: from <= k < |s.slots| && s.slots[k].jobId == j && s.slots[k].dueAt.Some? && s.slots[k].dueAt.value >= x
  }

  /** The slot of job `j` at `x` itself was. */
  ghost predicate SlotClaimed(s: State, from: nat, j: JobId, x: Time) {
    exists k :: from <= k < |s.slots| && s.slots[k].jobId == j && s.slots[k].dueAt == Some(x)
  }

  /** Overwriting the stored row with this one puts the due time at or behind a claimed slot. */
  ghost predicate Rewinds(s: State, row: Job) {
    row.id in s.db.jobs && row.nextRunAt.Some? && SlotReached(s, 0, row.id, row.nextRunAt.value)
  }

  /** The step claims satisfiable schedules only, and if it overwrites a job row, does not rewind it. */
  ghost predicate Forward(env: Env, s: State, step: Step)
    requires Enabled(env, s, step)
  {
    match step
    case Do(r, act) =>
      && (act == Tick(Commit) ==>
            forall i :: 0 <= i < |s.reps[r].tx.rows| ==> Satisfiable(env.cron, s.reps[r].tx.rows[i].schedule))
      && (act.Work? && act.a.WriteBack? && act.a.ok ==>
            !Rewinds(s, WrittenBack(s.reps[r].workers[act.w])))
    case WriteJob(o, ok) => ok && !s.ops[o].insert ==> !Rewinds(s, s.ops[o].row)
    case _ => true
  }

  ghost predicate SlotBefore(s: State, slot: Slot) {
    && slot.dueAt.Some? && slot.jobId in s.jobIds
    && (slot.jobId in s.db.jobs && s.db.jobs[slot.jobId].nextRunAt.Some? ==>
          slot.dueAt.value < s.db.jobs[slot.jobId].nextRunAt.value)
  }

  /** Claimed slots lie before the job's next due time, if it has one, and increase per job. */
  ghost predicate SlotsOk(s: State) {
    && (forall k :: 0 <= k < |s.slots| ==> SlotBefore(s, s.slots[k]))
    && (forall i, k :: 0 <= i < k < |s.slots| && s.slots[i].jobId == s.slots[k].jobId ==>
          s.slots[i].dueAt.value < s.slots[k].dueAt.value)
  }

  lemma {:induction false} OverwriteKeepsSlots(s: State, s': State, row: Job)
    requires SlotsOk(s) && s'.slots == s.slots && s.jobIds <= s'.jobIds
    requires !Rewinds(s, row) && s'.db.jobs == UpdateJob(s.db, row, s.now).jobs
    ensures SlotsOk(s')
  {
    assert forall k :: 0 <= k < |s.slots| ==> SlotBefore(s, s.slots[k]) && SlotBefore(s', s'.slots[k]);
  }

  lemma {:induction false} InsertKeepsSlots(s: State, s': State, row: Job)
    requires SlotsOk(s) && s'.slots == s.slots && row.id !in s.jobIds
    requires s.jobIds <= s'.jobIds && s'.db.jobs == InsertJob(s.db, row, s.now).jobs
    ensures SlotsOk(s')
  {
    assert forall k :: 0 <= k < |s.slots| ==> SlotBefore(s, s.slots[k]) && SlotBefore(s', s'.slots[k]);
  }

  lemma {:induction false} ShrinkKeepsSlots(s: State, s': State)
    requires SlotsOk(s) && s'.slots == s.slots && s'.jobIds == s.jobIds
    requires forall j :: j in s'.db.jobs ==> j in s.db.jobs && s'.db.jobs[j] == s.db.jobs[j]
    ensures SlotsOk(s')
  {
    assert forall k :: 0 <= k < |s.slots| ==> SlotBefore(s, s.slots[k]) && SlotBefore(s', s'.slots[k]);
  }

  /** The slot a commit appends for a row, and the later due time it gives the job. */
  ghost predicate NewSlotOf(s: State, s': State, row: Job, c: Claim, k: nat) {
    && k < |s'.slots| && s'.slots[k] == Slot(row.id, row.nextRunAt, c.execId) && c.job.id == row.id
    && row.id in s.db.jobs && s.db.jobs[row.id] == row && row.id in s'.db.jobs && row.id in s.jobIds
    && row.nextRunAt.Some? && c.job.nextRunAt.Some? && s'.db.jobs[row.id].nextRunAt == c.job.nextRunAt
    && row.nextRunAt.value < c.job.nextRunAt.value
  }

  lemma {:induction false} NewSlots(s: State, s': State, cron: Cron, rows: seq<Job>, claims: seq<Claim>,
        at: Time, start: Time, until: Time, i: nat)
    requires s'.slots == s.slots + SlotsOf(s.db, claims) && i < |rows|
    requires ClaimsExactly(cron, s.db, s'.db, rows, claims, at, start, until) && Satisfiable(cron, rows[i].schedule)
    requires forall j :: j in s.db.jobs ==> j in s.jobIds
    ensures NewSlotOf(s, s', rows[i], claims[i], |s.slots| + i)
  {
    assert RowClaimed(cron, s.db, s'.db, rows[i], claims[i], at, start, until);
    var u: Time :| start <= u <= until && cron.next(rows[i].schedule, u) == claims[i].job.nextRunAt.value;
    assert cron.next(rows[i].schedule, u) > u;
  }

  /** What a commit does to due times: claimed jobs move past the slot just claimed and every
      earlier one. */
  lemma {:induction false} CommitKeepsSlots(s: State, s': State, cron: Cron, rows: seq<Job>, claims: seq<Claim>,
        at: Time, start: Time, until: Time)
    requires SlotsOk(s) && s'.jobIds == s.jobIds && s'.slots == s.slots + SlotsOf(s.db, claims)
    requires ClaimsExactly(cron, s.db, s'.db, rows, claims, at, start, until)
    requires forall i :: 0 <= i < |rows| ==> Satisfiable(cron, rows[i].schedule)
    requires forall j :: j in s.db.jobs ==> j in s.jobIds
    ensures SlotsOk(s')
  {
    forall i | 0 <= i < |rows|
      ensures NewSlotOf(s, s', rows[i], claims[i], |s.slots| + i)
    {
      NewSlots(s, s', cron, rows, claims, at, start, until, i);
    }
    forall k | 0 <= k < |s'.slots|
      ensures SlotBefore(s', s'.slots[k])
    {
      if k < |s.slots| {
        SlotAfterCommit(s, s', cron, rows, claims, at, start, until, k);
      } else {
        assert NewSlotOf(s, s', rows[k - |s.slots|], claims[k - |s.slots|], |s.slots| + (k - |s.slots|));
      }
    }
    NewSlotsAscend(s, s', rows, claims);
  }

  /** No commit makes two slots of one job. */
  lemma {:induction false} OneNewSlot(s: State, s': State, rows: seq<Job>, claims: seq<Claim>, i: nat, k: nat)
    requires DistinctRows(rows) && |claims| == |rows| && |s'.slots| == |s.slots| + |rows| && i < k < |s'.slots|
    requires forall i :: 0 <= i < |rows| ==> NewSlotOf(s, s', rows[i], claims[i], |s.slots| + i)
    requires s'.slots[i].jobId == s'.slots[k].jobId
    ensures i < |s.slots|
  {
    var n := |s.slots|;
    forall a | n <= a < k
      ensures s'.slots[a].jobId != s'.slots[k].jobId
    {
      assert NewSlotOf(s, s', rows[a - n], claims[a - n], n + (a - n));
      assert NewSlotOf(s, s', rows[k - n], claims[k - n], n + (k - n));
    }
  }

  lemma {:induction false} NewSlotsAscend(s: State, s': State, rows: seq<Job>, claims: seq<Claim>)
    requires SlotsOk(s) && DistinctRows(rows) && |claims| == |rows| && |s'.slots| == |s.slots| + |rows|
    requires forall k :: 0 <= k < |s.slots| ==> s'.slots[k] == s.slots[k]
    requires forall i :: 0 <= i < |rows| ==> NewSlotOf(s, s', rows[i], claims[i], |s.slots| + i)
    ensures forall i, k :: 0 <= i < k < |s'.slots| && s'.slots[i].jobId == s'.slots[k].jobId ==>
              s'.slots[i].dueAt.Some? && s'.slots[k].dueAt.Some? && s'.slots[i].dueAt.value < s'.slots[k].dueAt.value
  {
    var n := |s.slots|;
    forall i, k | 0 <= i < k < |s'.slots| && s'.slots[i].jobId == s'.slots[k].jobId
      ensures s'.slots[i].dueAt.Some? && s'.slots[k].dueAt.Some? && s'.slots[i].dueAt.value < s'.slots[k].dueAt.value
    {
      OneNewSlot(s, s', rows, claims, i, k);
      assert SlotBefore(s, s.slots[i]);
      if k < n {
        assert SlotBefore(s, s.slots[k]);
      } else {
        assert NewSlotOf(s, s', rows[k - n], claims[k - n], n + (k - n));
      }
    }
  }

  lemma {:induction false} SlotAfterCommit(s: State, s': State, cron: Cron, rows: seq<Job>, claims: seq<Claim>,
        at: Time, start: Time, until: Time, k: nat)
    requires k < |s.slots| && SlotBefore(s, s.slots[k]) && s'.jobIds == s.jobIds
    requires ClaimsExactly(cron, s.db, s'.db, rows, claims, at, start, until)
    requires forall i :: 0 <= i < |rows| ==> NewSlotOf(s, s', rows[i], claims[i], |s.slots| + i)
    ensures SlotBefore(s', s.slots[k])
  {
    var j := s.slots[k].jobId;
    if j in s'.db.jobs && Listed(rows, j) {
      var i :| 0 <= i < |rows| && rows[i].id == j;
      assert NewSlotOf(s, s', rows[i], claims[i], |s.slots| + i);
    }
  }

  lemma {:induction false} DoKeepsSlots(env: Env, s: State, r: ReplicaId, act: Act)
    requires Inv(env, s) && SlotsOk(s) && Enabled(env, s, Do(r, act)) && Forward(env, s, Do(r, act))
    ensures SlotsOk(After(env, s, Do(r, act)))
  {
    var s' := After(env, s, Do(r, act));
    if act == Tick(Commit) {
      assert LocalOk(s.reps[r]) && RowsLocked(s, s.reps[r]) && TxExact(env.cron, s.reps[r], s.now);
      CommitExact(env, s, r);
      CommitKeepsSlots(s, s', env.cron, s.reps[r].tx.rows, s.reps[r].tx.claims, s.reps[r].tx.at,
                       s.reps[r].tx.startedAt, s.now);
    } else if act.Work? && act.a.WriteBack? && act.a.ok {
      OverwriteKeepsSlots(s, s', WrittenBack(s.reps[r].workers[act.w]));
    } else {
      JobsUntouched(env, s, r, act);
      ShrinkKeepsSlots(s, s');
    }
  }

  lemma {:induction false} ServiceKeepsSlots(env: Env, s: State, step: Step)
    requires SlotsOk(s) && Enabled(env, s, step) && !step.Do? && Forward(env, s, step)
    ensures SlotsOk(After(env, s, step))
  {
    var s' := After(env, s, step);
    if step.WriteJob? && step.ok {
      if s.ops[step.o].insert {
        InsertKeepsSlots(s, s', s.ops[step.o].row);
      } else {
        OverwriteKeepsSlots(s, s', s.ops[step.o].row);
      }
    } else {
      ShrinkKeepsSlots(s, s');
    }
  }

  ghost predicate ForwardRun(env: Env, s: State, steps: seq<Step>)
    requires Run(env, s, steps)
    decreases steps
  {
    steps != [] ==> Forward(env, s, steps[0]) && ForwardRun(env, After(env, s, steps[0]), steps[1..])
  }

  lemma {:induction false} RunKeepsSlots(env: Env, s: State, steps: seq<Step>)
    requires Inv(env, s) && SlotsOk(s) && Run(env, s, steps) && ForwardRun(env, s, steps)
    ensures SlotsOk(End(env, s, steps))
    decreases steps
  {
    if steps != [] {
      StepKeepsInv(env, s, steps[0]);
      StepKeepsSlots(env, s, steps[0]);
      RunKeepsSlots(env, After(env, s, steps[0]), steps[1..]);
    }
  }

  lemma {:induction false} StepKeepsSlots(env: Env, s: State, step: Step)
    requires Inv(env, s) && SlotsOk(s) && Enabled(env, s, step) && Forward(env, s, step)
    ensures SlotsOk(After(env, s, step))
  {
    if step.Do? {
      DoKeepsSlots(env, s, step.r, step.act);
    } else {
      ServiceKeepsSlots(env, s, step);
    }
  }

  /** Over every interleaving of any number of replicas in which no overwritten job row gets a due
      time at or behind a slot already claimed, each claim of a job is of a later slot than the one
      before: no slot is claimed twice. */
  lemma {:induction false} NoSlotClaimedTwice(env: Env, steps: seq<Step>)
    requires Run(env, INIT, steps) && ForwardRun(env, INIT, steps)
    ensures var slots := End(env, INIT, steps).slots;
            && (forall k :: 0 <= k < |slots| ==> slots[k].dueAt.Some?)
            && (forall i, k :: 0 <= i < k < |slots| && slots[i].jobId == slots[k].jobId ==>
                  slots[i].dueAt.value < slots[k].dueAt.value)
  {
    InitInv(env);
    RunKeepsSlots(env, INIT, steps);
    var s := End(env, INIT, steps);
    assert forall k :: 0 <= k < |s.slots| ==> SlotBefore(s, s.slots[k]);
  }
}
