/** Exactly when overwriting a job row from an older read puts its due time at or behind a slot that
    was claimed already: for the worker's write-back and for each change the service makes. */
module SlotConditions {
  import opened Domain
  import opened Tables
  import opened Claiming
  import opened Replica
  import opened ReplicaInvariants
  import opened Service
  import opened System
  import opened Ownership
  import opened JobRows
  import opened Invariant
  import opened Guarantees
  import opened Snapshots
  import opened CommittedClaims

  // ---------------------------------------------------------------- slots and instants, in every run

  /** All slots of job `j` claimed so far are dated `x` at the latest. */
  ghost predicate ClaimedBy(s: State, j: JobId, x: Time) {
    forall k :: 0 <= k < |s.slots| && s.slots[k].jobId == j ==> s.slots[k].dueAt.Some? && s.slots[k].dueAt.value <= x
  }

  ghost predicate SlotDated(s: State, slot: Slot) {
    && slot.dueAt.Some? && slot.dueAt.value <= s.now
    && slot.execId in s.tickets && s.tickets[slot.execId].claim.job.id == slot.jobId
  }

  /** Before position `n`, all slots of job `j` are earlier than `x`. */
  ghost predicate OlderBelow(s: State, n: nat, j: JobId, x: Time) {
    forall k :: 0 <= k < n && k < |s.slots| && s.slots[k].jobId == j ==>
      s.slots[k].dueAt.Some? && s.slots[k].dueAt.value < x
  }

  /** The next run that the claim behind slot `i` computed lies past that slot and all earlier ones
      of its job. */
  ghost predicate NextIsPast(cron: Cron, s: State, i: nat)
    requires i < |s.slots|
  {
    s.slots[i].execId in s.tickets &&
    var job := s.tickets[s.slots[i].execId].claim.job;
    Satisfiable(cron, job.schedule) ==>
      job.nextRunAt.Some? && OlderBelow(s, i + 1, s.slots[i].jobId, job.nextRunAt.value)
  }

  /** The slots claimed of a transaction's rows were due when its loop began. */
  ghost predicate LockedDated(s: State, tx: Tx) {
    tx.Looping? ==> forall i :: 0 <= i < |tx.rows| ==> ClaimedBy(s, tx.rows[i].id, tx.startedAt)
  }

  ghost predicate Dated(cron: Cron, s: State) {
    && (forall k :: 0 <= k < |s.slots| ==> SlotDated(s, s.slots[k]))
    && (forall i :: 0 <= i < |s.slots| ==> NextIsPast(cron, s, i))
    && (forall r :: r in s.reps ==> LockedDated(s, s.reps[r].tx))
  }

  ghost predicate SlotsGrow(s: State, s': State) {
    |s.slots| <= |s'.slots| && forall k :: 0 <= k < |s.slots| ==> s'.slots[k] == s.slots[k]
  }

  ghost predicate TxKept(now: Time, tx: Tx, tx': Tx) {
    tx'.Looping? ==>
      tx'.startedAt >= now || (tx.Looping? && tx'.rows == tx.rows && tx'.startedAt == tx.startedAt)
  }

  lemma {:induction false} QuietDated(cron: Cron, s: State, s': State)
    requires Dated(cron, s) && s'.slots == s.slots && s'.tickets == s.tickets && s.now <= s'.now
    requires forall r :: r in s'.reps ==>
               s'.reps[r].tx.NoTx? || (r in s.reps && TxKept(s.now, s.reps[r].tx, s'.reps[r].tx))
    ensures Dated(cron, s')
  {
    assert forall k :: 0 <= k < |s.slots| ==> SlotDated(s, s.slots[k]) && SlotDated(s', s'.slots[k]);
    forall i | 0 <= i < |s'.slots|
      ensures NextIsPast(cron, s', i)
    {
      SameSlots(cron, s, s', i);
    }
    forall r | r in s'.reps
      ensures LockedDated(s', s'.reps[r].tx)
    {
      if s'.reps[r].tx.Looping? {
        LockedStaysDated(s, s', s.reps[r].tx, s'.reps[r].tx);
      }
    }
  }

  lemma {:induction false} SameSlots(cron: Cron, s: State, s': State, i: nat)
    requires i < |s.slots| && NextIsPast(cron, s, i)
    requires SlotsGrow(s, s') && s.slots[i].execId in s'.tickets
    requires s'.tickets[s.slots[i].execId] == s.tickets[s.slots[i].execId]
    ensures NextIsPast(cron, s', i)
  {
    var job := s.tickets[s.slots[i].execId].claim.job;
    if Satisfiable(cron, job.schedule) {
      assert OlderBelow(s, i + 1, s.slots[i].jobId, job.nextRunAt.value);
      assert OlderBelow(s', i + 1, s.slots[i].jobId, job.nextRunAt.value);
    }
  }

  lemma {:induction false} LockedStaysDated(s: State, s': State, tx: Tx, tx': Tx)
    requires (forall k :: 0 <= k < |s.slots| ==> SlotDated(s, s.slots[k])) && LockedDated(s, tx)
    requires s'.slots == s.slots && TxKept(s.now, tx, tx') && tx'.Looping?
    ensures LockedDated(s', tx')
  {
    forall i | 0 <= i < |tx'.rows|
      ensures ClaimedBy(s', tx'.rows[i].id, tx'.startedAt)
    {
      if tx'.startedAt < s.now {
        assert ClaimedBy(s, tx.rows[i].id, tx.startedAt);
      }
    }
  }

  lemma {:induction false} DoTx(env: Env, now: Time, rep: Replica, act: Act)
    requires CanAct(now, rep, act) && act != Tick(Commit)
    ensures TxKept(now, rep.tx, Next(env, now, rep, act).tx)
  {
    match act
    case Tick(t) => assert TxKept(now, rep.tx, TickNext(env, now, rep, t).tx);
    case Work(w, a) => assert WorkNext(env, now, rep, w, a).tx == rep.tx;
    case _ =>
  }

  lemma {:induction false} DoDated(env: Env, s: State, r: ReplicaId, act: Act)
    requires Dated(env.cron, s) && Enabled(env, s, Do(r, act)) && act != Tick(Commit)
    ensures Dated(env.cron, AfterDo(env, s, r, act))
  {
    DoTx(env, s.now, s.reps[r], act);
    QuietDated(env.cron, s, AfterDo(env, s, r, act));
  }

  lemma {:induction false} RequestSlots(env: Env, s: State, step: Step)
    requires Enabled(env, s, step) && !step.Do?
    ensures var s' := After(env, s, step); s'.slots == s.slots && s'.tickets == s.tickets && s'.now >= s.now
  {
    match step
    case WriteJob(o, ok) => assert AfterWrite(s, o, ok).slots == s.slots && AfterWrite(s, o, ok).now == s.now;
    case _ =>
  }

  lemma {:induction false} ServiceDated(env: Env, s: State, step: Step)
    requires Dated(env.cron, s) && Enabled(env, s, step) && !step.Do?
    ensures Dated(env.cron, After(env, s, step))
  {
    RequestSlots(env, s, step);
    forall r | r in s.reps
      ensures r in After(env, s, step).reps && After(env, s, step).reps[r] == s.reps[r]
    {
      OthersKeepRep(env, s, step, r);
    }
    if !step.Launch? {
      ServiceFrame(env, s, step);
    }
    QuietDated(env.cron, s, After(env, s, step));
  }

  // ---------------------------------------------------------------- a commit

  /** The commit appends one slot per row, each with the ticket of its claim. */
  ghost predicate Extends(s: State, s': State, rows: seq<Job>, claims: seq<Claim>) {
    && |claims| == |rows| && |s'.slots| == |s.slots| + |rows| && s'.now == s.now && SlotsGrow(s, s')
    && (forall i :: 0 <= i < |rows| ==>
          && s'.slots[|s.slots| + i] == Slot(rows[i].id, rows[i].nextRunAt, claims[i].execId)
          && claims[i].execId in s'.tickets && s'.tickets[claims[i].execId].claim == claims[i]
          && claims[i].job.id == rows[i].id)
    && (forall e :: e in s.tickets ==> e in s'.tickets && s'.tickets[e] == s.tickets[e])
  }

  lemma {:induction false} CommitTicket(env: Env, s: State, r: ReplicaId, i: nat)
    requires Enabled(env, s, Do(r, Tick(Commit))) && TxFresh(s.reps[r]) && i < |s.reps[r].tx.claims|
    ensures var c, s' := s.reps[r].tx.claims[i], After(env, s, Do(r, Tick(Commit)));
            c.execId in s'.tickets && s'.tickets[c.execId].claim == c
  {
    var tx, s' := s.reps[r].tx, After(env, s, Do(r, Tick(Commit)));
    TxIdsDistinct(s.reps[r]);
    NewTicketOf(r, tx.claims, |s'.jobWrites|, tx.claims[i]);
  }

  lemma {:induction false} CommitSlots(env: Env, s: State, r: ReplicaId)
    requires Enabled(env, s, Do(r, Tick(Commit))) && RowsLocked(s, s.reps[r]) && TxExact(env.cron, s.reps[r], s.now)
    ensures var tx, s', n := s.reps[r].tx, After(env, s, Do(r, Tick(Commit))), |s.slots|;
            && |tx.claims| == |tx.rows| && SlotsGrow(s, s') && |s'.slots| == n + |tx.rows| && s'.now == s.now
            && forall i :: 0 <= i < |tx.rows| ==>
                 && s'.slots[n + i] == Slot(tx.rows[i].id, tx.rows[i].nextRunAt, tx.claims[i].execId)
                 && tx.claims[i].job.id == tx.rows[i].id
  {
    ExactJobs(env.cron, s, s.reps[r], s.now);
    assert After(env, s, Do(r, Tick(Commit))) == AfterDo(env, s, r, Tick(Commit));
  }

  lemma {:induction false} CommitExtends(env: Env, s: State, r: ReplicaId)
    requires Inv(env, s) && Enabled(env, s, Do(r, Tick(Commit)))
    ensures Extends(s, After(env, s, Do(r, Tick(Commit))), s.reps[r].tx.rows, s.reps[r].tx.claims)
  {
    var tx, s' := s.reps[r].tx, After(env, s, Do(r, Tick(Commit)));
    assert LocalOk(s.reps[r]) && RowsLocked(s, s.reps[r]) && TxExact(env.cron, s.reps[r], s.now);
    CommitSlots(env, s, r);
    forall i | 0 <= i < |tx.rows|
      ensures tx.claims[i].execId in s'.tickets && s'.tickets[tx.claims[i].execId].claim == tx.claims[i]
    {
      CommitTicket(env, s, r, i);
    }
    forall e | e in s.tickets
      ensures e in s'.tickets && s'.tickets[e] == s.tickets[e]
    {
      TicketsStay(env, s, Do(r, Tick(Commit)), e);
    }
  }

  /** The rows of a transaction, each claimed at an instant from `start` on, and due by then. */
  ghost predicate Advances(cron: Cron, s: State, rows: seq<Job>, claims: seq<Claim>, start: Time, until: Time) {
    && |claims| == |rows| && DistinctRows(rows) && start <= until <= s.now
    && forall i :: 0 <= i < |rows| ==>
         && AdvancedFrom(cron, rows[i], claims[i].job, start, until) && Due(rows[i], start)
         && ClaimedBy(s, rows[i].id, start)
  }

  lemma {:induction false} OldSlots(cron: Cron, s: State, s': State, rows: seq<Job>, claims: seq<Claim>)
    requires Dated(cron, s) && Extends(s, s', rows, claims)
    ensures forall k :: 0 <= k < |s.slots| ==> SlotDated(s', s'.slots[k]) && NextIsPast(cron, s', k)
  {
    forall k | 0 <= k < |s.slots|
      ensures SlotDated(s', s'.slots[k]) && NextIsPast(cron, s', k)
    {
      assert SlotDated(s, s.slots[k]) && NextIsPast(cron, s, k);
      SameSlots(cron, s, s', k);
    }
  }

  lemma {:induction false} NewSlot(cron: Cron, s: State, s': State, rows: seq<Job>, claims: seq<Claim>,
        start: Time, until: Time, i: nat)
    requires Extends(s, s', rows, claims) && Advances(cron, s, rows, claims, start, until) && i < |rows|
    ensures SlotDated(s', s'.slots[|s.slots| + i]) && NextIsPast(cron, s', |s.slots| + i)
  {
    var n := |s.slots|;
    assert AdvancedFrom(cron, rows[i], claims[i].job, start, until);
    if Satisfiable(cron, rows[i].schedule) {
      var u: Time :| start <= u <= until && cron.next(rows[i].schedule, u) == claims[i].job.nextRunAt.value;
      assert cron.next(rows[i].schedule, u) > u;
      NewestSlot(s, s', rows, claims, i);
      assert ClaimedBy(s, rows[i].id, start);
    }
  }

  /** The new slot is the only one its commit makes of the job. */
  lemma {:induction false} NewestSlot(s: State, s': State, rows: seq<Job>, claims: seq<Claim>, i: nat)
    requires Extends(s, s', rows, claims) && DistinctRows(rows) && i < |rows|
    ensures forall k :: |s.slots| <= k < |s.slots| + i ==> s'.slots[k].jobId != rows[i].id
  {
    forall k | |s.slots| <= k < |s.slots| + i
      ensures s'.slots[k].jobId != rows[i].id
    {
      assert s'.slots[|s.slots| + (k - |s.slots|)].jobId == rows[k - |s.slots|].id;
    }
  }

  lemma {:induction false} OtherLocksDated(s: State, s': State, r: ReplicaId, q: ReplicaId)
    requires LocksOk(s) && q in s.reps && r in s.reps && q != r && s.reps[r].tx.Looping?
    requires Extends(s, s', s.reps[r].tx.rows, s.reps[r].tx.claims) && LockedDated(s, s.reps[q].tx)
    ensures LockedDated(s', s.reps[q].tx)
  {
    var tx, rows, n := s.reps[q].tx, s.reps[r].tx.rows, |s.slots|;
    if tx.Looping? {
      forall i | 0 <= i < |tx.rows|
        ensures ClaimedBy(s', tx.rows[i].id, tx.startedAt)
      {
        assert tx.rows[i].id in LockSet(s.reps[q]);
        assert ClaimedBy(s, tx.rows[i].id, tx.startedAt);
        forall k | n <= k < |s'.slots|
          ensures s'.slots[k].jobId != tx.rows[i].id
        {
          assert s'.slots[n + (k - n)].jobId == rows[k - n].id;
          assert rows[k - n].id in LockSet(s.reps[r]);
        }
      }
    }
  }

  lemma {:induction false} CommitAdvances(env: Env, s: State, r: ReplicaId)
    requires Inv(env, s) && Dated(env.cron, s) && Enabled(env, s, Do(r, Tick(Commit)))
    ensures var tx := s.reps[r].tx; Advances(env.cron, s, tx.rows, tx.claims, tx.startedAt, s.now)
  {
    var tx := s.reps[r].tx;
    assert RowsLocked(s, s.reps[r]) && TxExact(env.cron, s.reps[r], s.now) && LockedDated(s, tx);
  }

  lemma {:induction false} ExtendedDated(cron: Cron, s: State, s': State, rows: seq<Job>, claims: seq<Claim>,
        start: Time, until: Time)
    requires Dated(cron, s) && Extends(s, s', rows, claims) && Advances(cron, s, rows, claims, start, until)
    ensures forall k :: 0 <= k < |s'.slots| ==> SlotDated(s', s'.slots[k])
    ensures forall k :: 0 <= k < |s'.slots| ==> NextIsPast(cron, s', k)
  {
    OldSlots(cron, s, s', rows, claims);
    forall k | |s.slots| <= k < |s'.slots|
      ensures SlotDated(s', s'.slots[k]) && NextIsPast(cron, s', k)
    {
      NewSlot(cron, s, s', rows, claims, start, until, k - |s.slots|);
    }
  }

  lemma {:induction false} CommitLocks(env: Env, s: State, r: ReplicaId, q: ReplicaId)
    requires LocksOk(s) && Enabled(env, s, Do(r, Tick(Commit))) && q in s.reps && LockedDated(s, s.reps[q].tx)
    requires Extends(s, After(env, s, Do(r, Tick(Commit))), s.reps[r].tx.rows, s.reps[r].tx.claims)
    ensures var s' := After(env, s, Do(r, Tick(Commit))); q in s'.reps && LockedDated(s', s'.reps[q].tx)
  {
    var s' := After(env, s, Do(r, Tick(Commit)));
    if q == r {
      assert s'.reps[q].tx.NoTx?;
    } else {
      OthersKeepRep(env, s, Do(r, Tick(Commit)), q);
      assert CanTick(s.now, s.reps[r], Commit);
      OtherLocksDated(s, s', r, q);
    }
  }

  lemma {:induction false} CommitDated(env: Env, s: State, r: ReplicaId)
    requires Inv(env, s) && Dated(env.cron, s) && Enabled(env, s, Do(r, Tick(Commit)))
    ensures Dated(env.cron, After(env, s, Do(r, Tick(Commit))))
  {
    var tx, s' := s.reps[r].tx, After(env, s, Do(r, Tick(Commit)));
    CommitExtends(env, s, r);
    CommitAdvances(env, s, r);
    ExtendedDated(env.cron, s, s', tx.rows, tx.claims, tx.startedAt, s.now);
    AllLocksDated(env, s, r);
  }

  lemma {:induction false} AllLocksDated(env: Env, s: State, r: ReplicaId)
    requires LocksOk(s) && Enabled(env, s, Do(r, Tick(Commit)))
    requires forall q :: q in s.reps ==> LockedDated(s, s.reps[q].tx)
    requires Extends(s, After(env, s, Do(r, Tick(Commit))), s.reps[r].tx.rows, s.reps[r].tx.claims)
    ensures var s' := After(env, s, Do(r, Tick(Commit))); forall q :: q in s'.reps ==> LockedDated(s', s'.reps[q].tx)
  {
    var s' := After(env, s, Do(r, Tick(Commit)));
    assert s'.reps.Keys == s.reps.Keys;
    forall q | q in s'.reps
      ensures LockedDated(s', s'.reps[q].tx)
    {
      CommitLocks(env, s, r, q);
    }
  }

  // ---------------------------------------------------------------- every run

  lemma {:induction false} StepKeepsDated(env: Env, s: State, step: Step)
    requires Inv(env, s) && Dated(env.cron, s) && Enabled(env, s, step)
    ensures Dated(env.cron, After(env, s, step))
  {
    if step.Do? && step.act == Tick(Commit) {
      CommitDated(env, s, step.r);
    } else if step.Do? {
      DoDated(env, s, step.r, step.act);
    } else {
      ServiceDated(env, s, step);
    }
  }

  lemma {:induction false} RunKeepsDated(env: Env, s: State, steps: seq<Step>)
    requires Inv(env, s) && Dated(env.cron, s) && Run(env, s, steps)
    ensures Dated(env.cron, End(env, s, steps))
    decreases steps
  {
    if steps != [] {
      StepKeepsInv(env, s, steps[0]);
      StepKeepsDated(env, s, steps[0]);
      RunKeepsDated(env, After(env, s, steps[0]), steps[1..]);
    }
  }

  lemma {:induction false} ReachableDated(env: Env, s: State)
    requires Reachable(env, s)
    ensures Dated(env.cron, s)
  {
    var steps :| Run(env, INIT, steps) && End(env, INIT, steps) == s;
    InitInv(env);
    RunKeepsDated(env, INIT, steps);
  }

  lemma {:induction false} StepGrowsSlots(env: Env, s: State, step: Step)
    requires Enabled(env, s, step)
    ensures SlotsGrow(s, After(env, s, step))
  {
    if !step.Do? {
      RequestSlots(env, s, step);
    }
  }

  lemma {:induction false} RunGrowsSlots(env: Env, s: State, steps: seq<Step>)
    requires Run(env, s, steps)
    ensures SlotsGrow(s, End(env, s, steps))
    decreases steps
  {
    if steps != [] {
      StepGrowsSlots(env, s, steps[0]);
      RunGrowsSlots(env, After(env, s, steps[0]), steps[1..]);
    }
  }

  /** Every committed claim has its slot in the history. */
  ghost predicate HasSlot(s: State, e: ExecId) {
    exists i :: 0 <= i < |s.slots| && s.slots[i].execId == e
  }

  ghost predicate AllHaveSlots(s: State) {
    forall e :: e in s.tickets ==> HasSlot(s, e)
  }

  lemma {:induction false} OldHasSlot(s: State, s': State, e: ExecId)
    requires SlotsGrow(s, s') && HasSlot(s, e)
    ensures HasSlot(s', e)
  {
    var i :| 0 <= i < |s.slots| && s.slots[i].execId == e;
    assert s'.slots[i].execId == e;
  }

  lemma {:induction false} NewHasSlot(s: State, s': State, rows: seq<Job>, claims: seq<Claim>, e: ExecId)
    requires Extends(s, s', rows, claims) && e in ClaimIds(claims)
    ensures HasSlot(s', e)
  {
    var i :| 0 <= i < |claims| && ClaimIds(claims)[i] == e;
    assert s'.slots[|s.slots| + i].execId == e;
  }

  lemma {:induction false} StepKeepsHasSlot(env: Env, s: State, step: Step, e: ExecId)
    requires Inv(env, s) && Enabled(env, s, step) && e in After(env, s, step).tickets && AllHaveSlots(s)
    ensures HasSlot(After(env, s, step), e)
  {
    var s' := After(env, s, step);
    if e in s.tickets {
      StepGrowsSlots(env, s, step);
      OldHasSlot(s, s', e);
    } else {
      OnlyCommitsMakeTickets(env, s, step, e);
      CommitExtends(env, s, step.r);
      NewHasSlot(s, s', s.reps[step.r].tx.rows, s.reps[step.r].tx.claims, e);
    }
  }

  lemma {:induction false} StepKeepsAllSlots(env: Env, s: State, step: Step)
    requires Inv(env, s) && Enabled(env, s, step) && AllHaveSlots(s)
    ensures AllHaveSlots(After(env, s, step))
  {
    forall e | e in After(env, s, step).tickets
      ensures HasSlot(After(env, s, step), e)
    {
      StepKeepsHasSlot(env, s, step, e);
    }
  }

  lemma {:induction false} RunKeepsAllSlots(env: Env, s: State, steps: seq<Step>)
    requires Inv(env, s) && Run(env, s, steps) && AllHaveSlots(s)
    ensures AllHaveSlots(End(env, s, steps))
    decreases steps
  {
    if steps != [] {
      StepKeepsInv(env, s, steps[0]);
      StepKeepsAllSlots(env, s, steps[0]);
      RunKeepsAllSlots(env, After(env, s, steps[0]), steps[1..]);
    }
  }

  lemma {:induction false} ClaimHasSlot(env: Env, s: State, e: ExecId)
    requires Reachable(env, s) && e in s.tickets
    ensures HasSlot(s, e)
  {
    var steps :| Run(env, INIT, steps) && End(env, INIT, steps) == s;
    InitInv(env);
    RunKeepsAllSlots(env, INIT, steps);
  }

  // ---------------------------------------------------------------- what a write makes of the slots

  /** Job `j` is active, and due at a slot that was claimed already. */
  ghost predicate Reopened(s: State, j: JobId) {
    && j in s.db.jobs && s.db.jobs[j].status == Active && s.db.jobs[j].nextRunAt.Some?
    && SlotClaimed(s, 0, j, s.db.jobs[j].nextRunAt.value)
  }

  /** Writing `row` puts the due time at or behind a claimed slot exactly if a slot that late was
      claimed from position `from` on; and it reopens the slot at the due time itself exactly if
      the row is active and that very slot was claimed from there on. */
  ghost predicate ReopensSince(s: State, s': State, row: Job, from: nat) {
    && (Rewinds(s, row) <==> row.nextRunAt.Some? && SlotReached(s, from, row.id, row.nextRunAt.value))
    && (Reopened(s', row.id) <==>
          row.status == Active && row.nextRunAt.Some? && SlotClaimed(s, from, row.id, row.nextRunAt.value))
  }

  lemma {:induction false} WriteReopens(s: State, s': State, row: Job, from: nat)
    requires row.id in s.db.jobs && s'.slots == s.slots && s'.db.jobs == UpdateJob(s.db, row, s.now).jobs
    requires row.nextRunAt.Some? ==> OlderBelow(s, from, row.id, row.nextRunAt.value)
    ensures ReopensSince(s, s', row, from)
  {
  }

  lemma {:induction false} ClaimOfSlot(env: Env, s: State, r: ReplicaId, w: nat, i: nat)
    requires Dated(env.cron, s) && HeldOk(s) && r in s.reps && w < |s.reps[r].workers| && s.reps[r].workers[w].Busy?
    requires i < |s.slots| && s.slots[i].execId == s.reps[r].workers[w].claim.execId
    requires Satisfiable(env.cron, s.reps[r].workers[w].claim.job.schedule)
    ensures var job := s.reps[r].workers[w].claim.job;
            job.id == s.slots[i].jobId && job.nextRunAt.Some? && OlderBelow(s, i + 1, job.id, job.nextRunAt.value)
  {
    var c := s.reps[r].workers[w].claim;
    assert InHands(s.reps[r].workers, c) && Holds(s.reps[r], c);
    assert SlotDated(s, s.slots[i]) && NextIsPast(env.cron, s, i);
  }

  /** In every reachable state: a write-back reopens slots exactly if the job was claimed of them
      after the claim it writes back, at position `i` of the history. */
  lemma {:induction false} WriteBackReopensSlotIff(env: Env, s: State, r: ReplicaId, w: nat, i: nat)
    requires Reachable(env, s) && Enabled(env, s, Do(r, Work(w, WriteBack(true))))
    requires i < |s.slots| && s.slots[i].execId == s.reps[r].workers[w].claim.execId
    requires s.reps[r].workers[w].claim.job.id in s.db.jobs
    requires Satisfiable(env.cron, s.reps[r].workers[w].claim.job.schedule)
    ensures ReopensSince(s, After(env, s, Do(r, Work(w, WriteBack(true)))), WrittenBack(s.reps[r].workers[w]), i + 1)
  {
    ReachableInv(env, s);
    ReachableDated(env, s);
    DatedWriteBack(env, s, r, w, i);
  }

  lemma {:induction false} DatedWriteBack(env: Env, s: State, r: ReplicaId, w: nat, i: nat)
    requires Dated(env.cron, s) && HeldOk(s) && Enabled(env, s, Do(r, Work(w, WriteBack(true))))
    requires i < |s.slots| && s.slots[i].execId == s.reps[r].workers[w].claim.execId
    requires s.reps[r].workers[w].claim.job.id in s.db.jobs
    requires Satisfiable(env.cron, s.reps[r].workers[w].claim.job.schedule)
    ensures ReopensSince(s, After(env, s, Do(r, Work(w, WriteBack(true)))), WrittenBack(s.reps[r].workers[w]), i + 1)
  {
    ClaimOfSlot(env, s, r, w, i);
    var s' := AfterDo(env, s, r, Work(w, WriteBack(true)));
    assert After(env, s, Do(r, Work(w, WriteBack(true)))) == s';
    WriteReopens(s, s', WrittenBack(s.reps[r].workers[w]), i + 1);
  }

  // ---------------------------------------------------------------- service writes

  /** Request `o` computed `row` in `p`, and writes it in `s`, whatever happened `between`. */
  ghost predicate WritesLater(env: Env, p: State, o: OpId, row: Job, between: seq<Step>, s: State) {
    && Reachable(env, p) && Enabled(env, p, PrepareJob(o))
    && Modified(env.cron, p.ops[o].change, p.ops[o].row, p.now) == Ok(row)
    && Run(env, After(env, p, PrepareJob(o)), between) && End(env, After(env, p, PrepareJob(o)), between) == s
    && Enabled(env, s, WriteJob(o, true)) && s.ops[o] == Ready(false, row) && row.id in s.db.jobs
  }

  /** The changes that compute a new due time from the schedule. */
  predicate Reschedules(change: Change) {
    change.Resume? || (change.Edit? && change.schedule.Some?)
  }

  lemma {:induction false} WrittenLater(env: Env, p: State, o: OpId, row: Job, between: seq<Step>, s: State)
    requires WritesLater(env, p, o, row, between, s)
    ensures SlotsGrow(p, s) && (forall k :: 0 <= k < |p.slots| ==> SlotDated(p, p.slots[k]))
    ensures var s' := After(env, s, WriteJob(o, true));
            s'.slots == s.slots && s'.db.jobs == UpdateJob(s.db, row, s.now).jobs
  {
    ReachableDated(env, p);
    StepGrowsSlots(env, p, PrepareJob(o));
    RunGrowsSlots(env, After(env, p, PrepareJob(o)), between);
    assert After(env, s, WriteJob(o, true)) == AfterWrite(s, o, true);
  }

  /** Whatever the runs before and after it, a Resume or an edit of the schedule reopens slots
      exactly if the job was claimed of them between its computation and its write. */
  lemma {:induction false} RescheduleReopensSlotIff(env: Env, p: State, o: OpId, row: Job, between: seq<Step>, s: State)
    requires WritesLater(env, p, o, row, between, s)
    requires Reschedules(p.ops[o].change) && Satisfiable(env.cron, row.schedule)
    ensures ReopensSince(s, After(env, s, WriteJob(o, true)), row, |p.slots|)
  {
    WrittenLater(env, p, o, row, between, s);
    assert env.cron.next(row.schedule, p.now) > p.now;
    assert OlderBelow(s, |p.slots|, row.id, row.nextRunAt.value);
    WriteReopens(s, After(env, s, WriteJob(o, true)), row, |p.slots|);
  }

  /** A Trigger puts the due time behind a claimed slot exactly if a slot later than the trigger was
      claimed between its computation and its write; and it reopens the slot of that very instant
      exactly if that was claimed then, or had just been claimed. */
  lemma {:induction false} TriggerReopensSlotIff(env: Env, p: State, o: OpId, row: Job, between: seq<Step>, s: State)
    requires WritesLater(env, p, o, row, between, s) && p.ops[o].change.Trigger?
    ensures SlotReached(s, 0, row.id, p.now + 1) <==> SlotReached(s, |p.slots|, row.id, p.now + 1)
    ensures Rewinds(s, row) <==> SlotReached(s, |p.slots|, row.id, p.now) || SlotClaimed(p, 0, row.id, p.now)
    ensures Reopened(After(env, s, WriteJob(o, true)), row.id) <==>
              row.status == Active && (SlotClaimed(s, |p.slots|, row.id, p.now) || SlotClaimed(p, 0, row.id, p.now))
  {
    WrittenLater(env, p, o, row, between, s);
    TriggeredSlots(p, s, row.id);
  }

  lemma {:induction false} TriggeredSlots(p: State, s: State, j: JobId)
    requires SlotsGrow(p, s) && forall k :: 0 <= k < |p.slots| ==> SlotDated(p, p.slots[k])
    ensures SlotReached(s, 0, j, p.now + 1) <==> SlotReached(s, |p.slots|, j, p.now + 1)
    ensures SlotReached(s, 0, j, p.now) <==> SlotReached(s, |p.slots|, j, p.now) || SlotClaimed(p, 0, j, p.now)
    ensures SlotClaimed(s, 0, j, p.now) <==> SlotClaimed(s, |p.slots|, j, p.now) || SlotClaimed(p, 0, j, p.now)
  {
    assert forall k :: 0 <= k < |p.slots| ==> SlotDated(p, s.slots[k]);
    if SlotClaimed(p, 0, j, p.now) {
      var k :| 0 <= k < |p.slots| && p.slots[k].jobId == j && p.slots[k].dueAt == Some(p.now);
      assert s.slots[k].dueAt == Some(p.now);
    }
    if SlotReached(s, 0, j, p.now) && !SlotReached(s, |p.slots|, j, p.now) {
      var k :| 0 <= k < |s.slots| && s.slots[k].jobId == j && s.slots[k].dueAt.Some? && s.slots[k].dueAt.value >= p.now;
      assert k < |p.slots| && p.slots[k].dueAt == Some(p.now);
    }
    if SlotClaimed(s, 0, j, p.now) && !SlotClaimed(s, |p.slots|, j, p.now) {
      var k :| 0 <= k < |s.slots| && s.slots[k].jobId == j && s.slots[k].dueAt == Some(p.now);
      assert k < |p.slots| && p.slots[k].dueAt == Some(p.now);
    }
  }

  /** The history up to the read, the read itself, and what happens up to the write. */
  ghost predicate EditedAcross(env: Env, before: seq<Step>, read: Step, between: seq<Step>) {
    && Run(env, INIT, before) && ForwardRun(env, INIT, before) && read.ReadJob?
    && Enabled(env, End(env, INIT, before), read)
    && Run(env, After(env, End(env, INIT, before), read), between)
  }

  /** An edit that leaves the schedule alone writes the due time it has read. If no write had rewound
      any before the read, it reopens slots exactly if the job was claimed of them between the read
      and the write, whatever else happened there. */
  lemma {:induction false} EditReopensSlotIff(env: Env, before: seq<Step>, read: Step, between: seq<Step>,
        prepared: Time)
    requires EditedAcross(env, before, read, between) && read.change.Edit? && read.change.schedule.None?
    requires var s0 := End(env, INIT, before); var s := End(env, After(env, s0, read), between);
             && Enabled(env, s, WriteJob(read.o, true)) && read.j in s.db.jobs
             && s.ops[read.o] == Ready(false, Modified(env.cron, read.change, s0.db.jobs[read.j], prepared).value)
    ensures var s0 := End(env, INIT, before); var s := End(env, After(env, s0, read), between);
            ReopensSince(s, After(env, s, WriteJob(read.o, true)), s.ops[read.o].row, |s0.slots|)
  {
    var s0 := End(env, INIT, before);
    InitInv(env);
    RunKeepsInv(env, INIT, before);
    RunKeepsSlots(env, INIT, before);
    StepGrowsSlots(env, s0, read);
    RunGrowsSlots(env, After(env, s0, read), between);
    EditWrites(env, s0, End(env, After(env, s0, read), between), read, prepared);
  }

  lemma {:induction false} EditWrites(env: Env, s0: State, s: State, read: Step, prepared: Time)
    requires SlotsOk(s0) && SlotsGrow(s0, s) && JobsOk(env.cron, s0) && read.ReadJob? && read.j in s0.db.jobs
    requires read.change.Edit? && read.change.schedule.None?
    requires Enabled(env, s, WriteJob(read.o, true)) && read.j in s.db.jobs
    requires s.ops[read.o] == Ready(false, Modified(env.cron, read.change, s0.db.jobs[read.j], prepared).value)
    ensures ReopensSince(s, After(env, s, WriteJob(read.o, true)), s.ops[read.o].row, |s0.slots|)
  {
    var row := s.ops[read.o].row;
    ReadIsPast(s0, s, row, read.j);
    assert After(env, s, WriteJob(read.o, true)) == AfterWrite(s, read.o, true);
    WriteReopens(s, AfterWrite(s, read.o, true), row, |s0.slots|);
  }

  lemma {:induction false} ReadIsPast(s0: State, s: State, row: Job, j: JobId)
    requires SlotsOk(s0) && SlotsGrow(s0, s) && j in s0.db.jobs && row.id == j
    requires row.nextRunAt == s0.db.jobs[j].nextRunAt
    ensures row.nextRunAt.Some? ==> OlderBelow(s, |s0.slots|, j, row.nextRunAt.value)
  {
    assert forall k :: 0 <= k < |s0.slots| ==> SlotBefore(s0, s.slots[k]);
  }
}
