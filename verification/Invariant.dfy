/** The invariant of the whole system, kept by every step and therefore by every run. */
module Invariant {
  import opened Domain
  import opened Tables
  import opened Replica
  import opened ReplicaInvariants
  import opened System
  import opened Ownership
  import opened JobRows
  import opened Notifications

  ghost predicate AllExact(cron: Cron, s: State) {
    forall r :: r in s.reps ==> TxExact(cron, s.reps[r], s.now)
  }

  ghost predicate Inv(env: Env, s: State) {
    && AllLocal(s) && IdsOk(s) && HeldOk(s) && ExecsOk(s)
    && LocksOk(s) && AllExact(env.cron, s) && JobsOk(env.cron, s)
    && NotifsOk(s) && TablesOk(s.db)
  }

  lemma {:induction false} InitInv(env: Env)
    ensures Inv(env, INIT)
  {
  }

  // ---------------------------------------------------------------- the tables

  lemma {:induction false} VerdictIsTerminal(env: Env, s: State, rep: Replica, act: Act)
    requires CanAct(s.now, rep, act) && Settles(rep, act).Some?
    ensures TerminalOk(TerminalWrite(env, s, rep, act))
  {
  }

  lemma {:induction false} WorkKeepsTables(env: Env, s: State, r: ReplicaId, w: nat, a: WorkAct)
    requires Enabled(env, s, Do(r, Work(w, a))) && TablesOk(s.db)
    ensures TablesOk(WorkDb(env, s, s.reps[r], s.reps[r].workers[w], a))
  {
    var rep, wk := s.reps[r], s.reps[r].workers[w];
    match a
    case Finish(outcome, ok) =>
      VerdictIsTerminal(env, s, rep, Work(w, a));
      ExecWritesKeepTables(s.db, wk.claim.execId, TerminalWrite(env, s, rep, Work(w, a)), 0, 0);
    case WriteBack(ok) => JobWritesKeepTables(s.db, WrittenBack(wk), s.now);
    case Notify(n, ok) =>
      if Notifies(wk, a) {
        NotifWritesKeepTables(s.db, n, wk.claim.execId, wk.stage.todo[0].id, Pending, "", 0);
      }
    case _ =>
  }

  lemma {:induction false} TickKeepsTables(env: Env, s: State, r: ReplicaId, t: TickAct)
    requires Enabled(env, s, Do(r, Tick(t))) && TablesOk(s.db) && TxJobsOk(s, s.reps[r])
    ensures TablesOk(TickDb(s, s.reps[r], t))
  {
    var rep := s.reps[r];
    if t.Commit? {
      ClaimsKeepTables(s.db, rep.tx.claims, rep.tx.at);
    } else if t.ShedOnShutdown? || t.ShedOnTimeout? {
      VerdictIsTerminal(env, s, rep, Tick(t));
      ExecWritesKeepTables(s.db, rep.batch[0].execId, TerminalWrite(env, s, rep, Tick(t)), 0, 0);
    }
  }

  lemma {:induction false} DoKeepsTables(env: Env, s: State, r: ReplicaId, act: Act)
    requires Enabled(env, s, Do(r, act)) && TablesOk(s.db) && TxJobsOk(s, s.reps[r])
    ensures TablesOk(After(env, s, Do(r, act)).db)
  {
    match act
    case Tick(t) => TickKeepsTables(env, s, r, t);
    case Work(w, a) => WorkKeepsTables(env, s, r, w, a);
    case SendDone(n, delivered, message, ok) =>
      var ch := s.reps[r].sends[n];
      NotifWritesKeepTables(s.db, n, 0, 0, SendStatus(env.notifiers, ch, delivered),
                            SendError(env.notifiers, ch, delivered, message), s.now);
    case Recover(ok) =>
      ExecWritesKeepTables(s.db, 0, ShedResult("", 0), s.now - STALE_RUNNING_AGE, s.now);
    case _ =>
  }

  // ---------------------------------------------------------------- a replica's step

  lemma {:induction false} DoKeepsAllExact(env: Env, s: State, r: ReplicaId, act: Act)
    requires Enabled(env, s, Do(r, act)) && AllExact(env.cron, s) && LocksOk(s) && JobsOk(env.cron, s)
    ensures AllExact(env.cron, After(env, s, Do(r, act)))
  {
    DoKeepsExact(env, s, r, act);
  }

  lemma {:induction false} OneChanged(s: State, s': State, r: ReplicaId, rep': Replica)
    requires AllLocal(s) && s'.reps == s.reps[r := rep'] && LocalOk(rep')
    ensures AllLocal(s')
  {
  }

  lemma {:induction false} DoKeepsAllLocal(env: Env, s: State, r: ReplicaId, act: Act)
    requires Enabled(env, s, Do(r, act)) && AllLocal(s) && IdsOk(s)
    ensures AllLocal(After(env, s, Do(r, act)))
  {
    DoKeepsLocal(env, s, r, act);
    OneChanged(s, AfterDo(env, s, r, act), r, Next(env, s.now, s.reps[r], act));
  }

  lemma {:induction false} TxJobsFromInv(env: Env, s: State, r: ReplicaId)
    requires LocksOk(s) && AllExact(env.cron, s) && r in s.reps
    ensures TxJobsOk(s, s.reps[r])
  {
    if s.reps[r].tx.Looping? {
      ExactJobs(env.cron, s, s.reps[r], s.now);
    }
  }

  lemma {:induction false} DoKeepsInv(env: Env, s: State, r: ReplicaId, act: Act)
    requires Enabled(env, s, Do(r, act)) && Inv(env, s)
    ensures Inv(env, After(env, s, Do(r, act)))
  {
    TxJobsFromInv(env, s, r);
    DoKeepsAllLocal(env, s, r, act);
    DoKeepsIds(env, s, r, act);
    DoKeepsHeld(env, s, r, act);
    DoKeepsExecs(env, s, r, act);
    DoKeepsLocks(env, s, r, act);
    DoKeepsAllExact(env, s, r, act);
    DoKeepsJobs(env, s, r, act);
    DoKeepsNotifs(env, s, r, act);
    DoKeepsTables(env, s, r, act);
  }

  // ---------------------------------------------------------------- the other steps

  /** All that a step outside the processes changes of what they know about. */
  ghost predicate Outside(s: State, s': State) {
    && s'.issued == s.issued && s'.tickets == s.tickets && s'.recovered == s.recovered
    && s'.notifIds == s.notifIds && s'.slots == s.slots && s'.now >= s.now
    && (forall r :: r in s.reps ==> r in s'.reps && s'.reps[r] == s.reps[r])
  }

  ghost predicate RowsShrink(t: Tables, t': Tables) {
    && (forall e :: e in t'.execs ==> e in t.execs && t'.execs[e] == t.execs[e])
    && (forall n :: n in t'.notifs ==> n in t.notifs && t'.notifs[n] == t.notifs[n])
  }

  lemma {:induction false} OutsideKeepsRows(s: State, s': State)
    requires Outside(s, s') && RowsShrink(s.db, s'.db) && ExecsOk(s)
    ensures ExecsOk(s')
  {
    forall e | e in s'.db.execs ensures ExecOk(s', e) {
      assert ExecOk(s, e);
    }
  }

  lemma {:induction false} OutsideKeepsNotifs(s: State, s': State)
    requires Outside(s, s') && RowsShrink(s.db, s'.db) && NotifsOk(s)
    requires forall r :: r in s'.reps && r !in s.reps ==> s'.reps[r].created == map[]
    ensures NotifsOk(s')
  {
    forall n | n in s'.db.notifs ensures NotifOk(s', n) {
      assert NotifOk(s, n);
      var r := s.notifIds[n];
      assert r in s.reps;
    }
  }

  /** A process new in `s'` holds and remembers nothing. */
  ghost predicate Newcomers(s: State, s': State) {
    forall r :: r in s'.reps && r !in s.reps ==>
      s'.reps[r].claimed == [] && s'.reps[r].tx.NoTx? && forall c :: !Holds(s'.reps[r], c)
  }

  lemma {:induction false} FreshNewcomers(s: State, s': State)
    requires forall r :: r in s'.reps && r !in s.reps ==> exists workers :: s'.reps[r] == Fresh(workers)
    ensures Newcomers(s, s')
  {
    forall r | r in s'.reps && r !in s.reps
      ensures s'.reps[r].claimed == [] && s'.reps[r].tx.NoTx? && forall c :: !Holds(s'.reps[r], c)
    {
      var workers :| s'.reps[r] == Fresh(workers);
      assert forall c :: !Holds(Fresh(workers), c);
    }
  }

  lemma {:induction false} OutsideKeepsTickets(s: State, s': State)
    requires Outside(s, s') && Newcomers(s, s') && TicketsOk(s)
    ensures TicketsOk(s')
  {
  }

  lemma {:induction false} OutsideKeepsTxIds(s: State, s': State)
    requires Outside(s, s') && Newcomers(s, s') && TxIdsOk(s)
    ensures TxIdsOk(s')
  {
    forall r, e | r in s'.reps && s'.reps[r].tx.Looping? && e in ClaimIds(s'.reps[r].tx.claims)
      ensures e in s'.issued && s'.issued[e] == r && e !in s'.tickets
    {
      assert r in s.reps;
    }
  }

  lemma {:induction false} OutsideKeepsHeld(s: State, s': State)
    requires Outside(s, s') && Newcomers(s, s') && HeldOk(s)
    ensures HeldOk(s')
  {
  }

  lemma {:induction false} OutsideKeepsIds(s: State, s': State)
    requires Outside(s, s') && IdsOk(s) && HeldOk(s)
    requires forall r :: r in s'.reps && r !in s.reps ==> exists workers :: s'.reps[r] == Fresh(workers)
    ensures IdsOk(s') && HeldOk(s')
  {
    FreshNewcomers(s, s');
    OutsideKeepsTickets(s, s');
    OutsideKeepsTxIds(s, s');
    OutsideKeepsHeld(s, s');
  }

  lemma {:induction false} LaunchKeepsLocal(s: State, s': State, r: ReplicaId, workers: nat, cron: Cron)
    requires AllLocal(s) && AllExact(cron, s) && s'.reps == s.reps[r := Fresh(workers)] && s'.now == s.now
    ensures AllLocal(s') && AllExact(cron, s')
  {
    LocalStart(workers);
  }

  lemma {:induction false} LaunchKeepsInv(env: Env, s: State, r: ReplicaId, workers: nat)
    requires Enabled(env, s, Launch(r, workers)) && Inv(env, s)
    ensures Inv(env, After(env, s, Launch(r, workers)))
  {
    var s' := s.(reps := s.reps[r := Fresh(workers)]);
    assert After(env, s, Launch(r, workers)) == s';
    assert Outside(s, s') && RowsShrink(s.db, s'.db);
    LaunchKeepsLocal(s, s', r, workers, env.cron);
    OutsideKeepsRows(s, s');
    OutsideKeepsNotifs(s, s');
    OutsideKeepsIds(s, s');
    ServiceKeepsLocks(env, s, Launch(r, workers));
    assert JobsOk(env.cron, s') && TablesOk(s'.db);
  }

  lemma {:induction false} WriteFrame(s: State, o: OpId, ok: bool)
    requires o in s.ops && s.ops[o].Ready?
    ensures Outside(s, AfterWrite(s, o, ok)) && RowsShrink(s.db, AfterWrite(s, o, ok).db)
    ensures AfterWrite(s, o, ok).reps == s.reps
  {
  }

  lemma {:induction false} RequestDb(env: Env, s: State, step: Step)
    requires Enabled(env, s, step) && (step.Elapse? || step.DraftJob? || step.ReadJob? || step.PrepareJob?)
    ensures var s' := After(env, s, step); Outside(s, s') && s'.db == s.db && s'.reps == s.reps
  {
  }

  lemma {:induction false} RemovalFrame(env: Env, s: State, step: Step)
    requires Enabled(env, s, step) && (step.RemoveJob? || step.SaveChannel? || step.RemoveChannel?)
    ensures var s' := After(env, s, step); s' == s.(db := s'.db) && RowsShrink(s.db, s'.db)
  {
  }

  lemma {:induction false} ServiceFrame(env: Env, s: State, step: Step)
    requires Enabled(env, s, step) && !step.Do? && !step.Launch?
    ensures Outside(s, After(env, s, step)) && RowsShrink(s.db, After(env, s, step).db)
    ensures After(env, s, step).reps == s.reps
  {
    match step
    case WriteJob(o, ok) => WriteFrame(s, o, ok);
    case RemoveJob(_) => RemovalFrame(env, s, step);
    case SaveChannel(_) => RemovalFrame(env, s, step);
    case RemoveChannel(_) => RemovalFrame(env, s, step);
    case _ => RequestDb(env, s, step);
  }

  lemma {:induction false} ServiceKeepsTables(env: Env, s: State, step: Step)
    requires Enabled(env, s, step) && !step.Do? && TablesOk(s.db)
    ensures TablesOk(After(env, s, step).db)
  {
    match step
    case WriteJob(o, ok) => JobWritesKeepTables(s.db, s.ops[o].row, s.now);
    case RemoveJob(j) => DeletesKeepTables(s.db, j, 0);
    case SaveChannel(ch) => ChannelWriteKeepsTables(s.db, ch);
    case RemoveChannel(c) => DeletesKeepTables(s.db, 0, c);
    case _ =>
  }

  lemma {:induction false} ServiceKeepsInv(env: Env, s: State, step: Step)
    requires Enabled(env, s, step) && !step.Do? && !step.Launch? && Inv(env, s)
    ensures Inv(env, After(env, s, step))
  {
    var s' := After(env, s, step);
    ServiceFrame(env, s, step);
    OutsideKeepsRows(s, s');
    OutsideKeepsNotifs(s, s');
    OutsideKeepsIds(s, s');
    ServiceKeepsTables(env, s, step);
    ServiceKeepsJobs(env, s, step);
    ServiceKeepsLocks(env, s, step);
    ExactLater(env.cron, s, s');
  }

  lemma {:induction false} ExactLater(cron: Cron, s: State, s': State)
    requires AllExact(cron, s) && s'.reps == s.reps && s'.now >= s.now
    ensures AllExact(cron, s')
  {
  }

  /** Every step keeps the invariant, whoever takes it. */
  lemma {:induction false} StepKeepsInv(env: Env, s: State, step: Step)
    requires Enabled(env, s, step) && Inv(env, s)
    ensures Inv(env, After(env, s, step))
  {
    match step
    case Do(r, act) => DoKeepsInv(env, s, r, act);
    case Launch(r, workers) => LaunchKeepsInv(env, s, r, workers);
    case _ => ServiceKeepsInv(env, s, step);
  }

  lemma {:induction false} RunKeepsInv(env: Env, s: State, steps: seq<Step>)
    requires Run(env, s, steps) && Inv(env, s)
    ensures Inv(env, End(env, s, steps))
    decreases steps
  {
    if steps != [] {
      StepKeepsInv(env, s, steps[0]);
      RunKeepsInv(env, After(env, s, steps[0]), steps[1..]);
    }
  }

  /** The invariant holds in every reachable state. */
  lemma {:induction false} ReachableInv(env: Env, s: State)
    requires Reachable(env, s)
    ensures Inv(env, s)
  {
    var steps :| Run(env, INIT, steps) && End(env, INIT, steps) == s;
    InitInv(env);
    RunKeepsInv(env, INIT, steps);
  }
}
