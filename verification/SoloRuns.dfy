/** Runs in which only one process moves while time passes: the schedule that the process's own
    code follows between two interferences. */
module SoloRuns {
  import opened Domain
  import opened Tables
  import opened Claiming
  import opened Replica
  import opened System
  import opened Repositories
  import opened Dispatching

  ghost predicate Solo(steps: seq<Step>, r: ReplicaId) {
    forall k :: 0 <= k < |steps| ==> steps[k].Elapse? || (steps[k].Do? && steps[k].r == r && !steps[k].act.Crash?)
  }

  /** Process `r`, running alone and not crashing, can take `s` to `s'`. */
  ghost predicate Leads(env: Env, r: ReplicaId, s: State, s': State) {
    exists steps :: Run(env, s, steps) && End(env, s, steps) == s' && Solo(steps, r)
  }

  lemma {:induction false} LeadsSelf(env: Env, r: ReplicaId, s: State)
    ensures Leads(env, r, s, s)
  {
    assert Run(env, s, []) && End(env, s, []) == s && Solo([], r);
  }

  lemma {:induction false} LeadsOn(env: Env, r: ReplicaId, s: State, s': State, step: Step)
    requires Leads(env, r, s, s') && Enabled(env, s', step) && Solo([step], r)
    ensures Leads(env, r, s, After(env, s', step))
  {
    var steps :| Run(env, s, steps) && End(env, s, steps) == s' && Solo(steps, r);
    RunSnoc(env, s, steps, step);
    assert [step][0] == step;
    assert Solo(steps + [step], r);
  }

  /** Time passes, and the process acts. */
  lemma {:induction false} LeadsLater(env: Env, r: ReplicaId, s: State, m: State, dt: nat, act: Act, s': State)
    requires Leads(env, r, s, m) && Enabled(env, After(env, m, Elapse(dt)), Do(r, act)) && !act.Crash?
    requires s' == After(env, After(env, m, Elapse(dt)), Do(r, act))
    ensures Leads(env, r, s, s')
  {
    LeadsOn(env, r, s, m, Elapse(dt));
    LeadsOn(env, r, s, After(env, m, Elapse(dt)), Do(r, act));
  }

  lemma {:induction false} RunJoins(env: Env, s: State, a: seq<Step>, b: seq<Step>)
    requires Run(env, s, a) && Run(env, End(env, s, a), b)
    ensures Run(env, s, a + b) && End(env, s, a + b) == End(env, End(env, s, a), b)
    decreases a
  {
    if a == [] {
      assert a + b == b;
    } else {
      RunJoins(env, After(env, s, a[0]), a[1..], b);
      assert (a + b)[1..] == a[1..] + b;
    }
  }

  lemma {:induction false} LeadsOnward(env: Env, r: ReplicaId, s: State, s': State, s'': State)
    requires Leads(env, r, s, s') && Leads(env, r, s', s'')
    ensures Leads(env, r, s, s'')
  {
    var a :| Run(env, s, a) && End(env, s, a) == s' && Solo(a, r);
    var b :| Run(env, s', b) && End(env, s', b) == s'' && Solo(b, r);
    RunJoins(env, s, a, b);
    assert Solo(a + b, r);
  }

  lemma {:induction false} LeadsReachable(env: Env, r: ReplicaId, s: State, s': State)
    requires Reachable(env, s) && Leads(env, r, s, s')
    ensures Reachable(env, s')
  {
    var a :| Run(env, INIT, a) && End(env, INIT, a) == s;
    var b :| Run(env, s, b) && End(env, s, b) == s';
    RunJoins(env, INIT, a, b);
  }

  // ---------------------------------------------------------------- one claiming transaction

  ghost predicate Monotone(clock: nat -> Time) {
    forall k: nat, l: nat :: k <= l ==> clock(k) <= clock(l)
  }

  function Ids(ids: nat -> int, n: nat): set<int> {
    set k: nat | k < n :: ids(k)
  }

  lemma {:induction false} AdvanceStep(env: Env, s: State, r: ReplicaId, e: ExecId, dt: nat)
    requires r in s.reps && Alive(s.reps[r]) && e !in s.issued
    requires s.reps[r].tx.Looping? && s.reps[r].tx.pos < |s.reps[r].tx.rows|
    ensures Enabled(env, s, Elapse(dt)) && Enabled(env, After(env, s, Elapse(dt)), Do(r, Tick(AdvanceRow(e))))
    ensures After(env, After(env, s, Elapse(dt)), Do(r, Tick(AdvanceRow(e))))
         == s.(now := s.now + dt, issued := s.issued[e := r],
               reps := s.reps[r := s.reps[r].(tx := LoopOver(env.cron, s.now + dt, s.reps[r].tx, e))])
  {
  }

  /** The state inside the claiming transaction after `n` rows. */
  ghost predicate Walked(env: Env, s: State, s': State, r: ReplicaId, at: Time, clock: nat -> Time,
                         ids: nat -> ExecId, rows: seq<Job>, n: nat)
    requires r in s.reps && n <= |rows|
  {
    && s'.now == clock(n + 1)
    && (forall e :: e in s'.issued <==> e in s.issued || e in Ids(ids, n))
    && s' == s.(now := s'.now, issued := s'.issued,
                reps := s.reps[r := s.reps[r].(tx := Looping(at, clock(1), rows, n,
                                                             LoopClaims(env.cron, clock, ids, rows, n)))])
  }

  lemma {:induction false} WalkOn(env: Env, s: State, m: State, s': State, r: ReplicaId, at: Time, clock: nat -> Time,
        ids: nat -> ExecId, rows: seq<Job>, n: nat)
    requires r in s.reps && 0 < n <= |rows| && Walked(env, s, m, r, at, clock, ids, rows, n - 1)
    requires s' == m.(now := clock(n + 1), issued := m.issued[ids(n - 1) := r],
                      reps := m.reps[r := m.reps[r].(tx := LoopOver(env.cron, clock(n + 1), m.reps[r].tx, ids(n - 1)))])
    ensures Walked(env, s, s', r, at, clock, ids, rows, n)
  {
    forall e ensures e in s'.issued <==> e in s.issued || e in Ids(ids, n) {
      assert e in Ids(ids, n) <==> e in Ids(ids, n - 1) || e == ids(n - 1);
    }
    assert LoopOver(env.cron, clock(n + 1), m.reps[r].tx, ids(n - 1)).claims
        == LoopClaims(env.cron, clock, ids, rows, n);
  }

  /** The loop over the locked rows, step by step, makes the claims of `LoopClaims`. */
  lemma {:induction false} LoopRun(env: Env, s: State, r: ReplicaId, at: Time, clock: nat -> Time, ids: nat -> ExecId,
        rows: seq<Job>, n: nat) returns (s': State)
    requires r in s.reps && Alive(s.reps[r]) && n <= |rows| && Monotone(clock)
    requires s.reps[r].tx == Looping(at, clock(1), rows, 0, []) && s.now == clock(1)
    requires FreshIds(ids, s.issued.Keys)
    ensures Leads(env, r, s, s') && Walked(env, s, s', r, at, clock, ids, rows, n)
  {
    if n == 0 {
      s' := s;
      LeadsSelf(env, r, s);
    } else {
      var m := LoopRun(env, s, r, at, clock, ids, rows, n - 1);
      var e, dt := ids(n - 1), clock(n + 1) - clock(n);
      AdvanceStep(env, m, r, e, dt);
      s' := After(env, After(env, m, Elapse(dt)), Do(r, Tick(AdvanceRow(e))));
      LeadsLater(env, r, s, m, dt, Tick(AdvanceRow(e)), s');
      WalkOn(env, s, m, s', r, at, clock, ids, rows, n);
    }
  }

  /** What a process's step leaves of the state. */
  lemma {:induction false} DoStep(env: Env, s: State, r: ReplicaId, act: Act)
    requires Enabled(env, s, Do(r, act))
    ensures var s' := After(env, s, Do(r, act));
            && s'.now == s.now && s'.db == DoDb(env, s, r, act)
            && s'.reps == s.reps[r := Next(env, s.now, s.reps[r], act)]
            && s'.issued == IssuedAfter(s, r, act) && s'.notifIds == NotifIdsAfter(s, r, act)
  {
  }

  lemma {:induction false} LockStep(env: Env, s: State, r: ReplicaId, dt: nat, rows: seq<Job>)
    requires r in s.reps && s.reps[r].tx.Begun? && Alive(s.reps[r])
    requires EarliestDue(rows, s.db.jobs, {}, s.reps[r].tx.at, s.reps[r].Capacity()) && OthersLocks(s, r) == {}
    ensures Enabled(env, s, Elapse(dt)) && Enabled(env, After(env, s, Elapse(dt)), Do(r, Tick(Select(rows))))
    ensures After(env, After(env, s, Elapse(dt)), Do(r, Tick(Select(rows))))
         == s.(now := s.now + dt,
               reps := s.reps[r := s.reps[r].(tx := Looping(s.reps[r].tx.at, s.now + dt, rows, 0, []))])
  {
    assert OthersLocks(After(env, s, Elapse(dt)), r) == OthersLocks(s, r);
  }

  lemma {:induction false} BeginStep(env: Env, s: State, r: ReplicaId, dt: nat)
    requires r in s.reps && CanTick(s.now, s.reps[r], Begin)
    ensures Enabled(env, s, Elapse(dt)) && Enabled(env, After(env, s, Elapse(dt)), Do(r, Tick(Begin)))
    ensures After(env, After(env, s, Elapse(dt)), Do(r, Tick(Begin)))
         == s.(now := s.now + dt, reps := s.reps[r := s.reps[r].(tx := Begun(s.now + dt))])
  {
  }

  lemma {:induction false} LockLeads(env: Env, s: State, m: State, r: ReplicaId, dt: nat, rows: seq<Job>)
    returns (s': State)
    requires Leads(env, r, s, m) && r in m.reps && m.reps[r].tx.Begun? && Alive(m.reps[r])
    requires EarliestDue(rows, m.db.jobs, {}, m.reps[r].tx.at, m.reps[r].Capacity()) && OthersLocks(m, r) == {}
    ensures Leads(env, r, s, s')
    ensures s' == m.(now := m.now + dt,
                     reps := m.reps[r := m.reps[r].(tx := Looping(m.reps[r].tx.at, m.now + dt, rows, 0, []))])
  {
    LockStep(env, m, r, dt, rows);
    s' := After(env, After(env, m, Elapse(dt)), Do(r, Tick(Select(rows))));
    LeadsLater(env, r, s, m, dt, Tick(Select(rows)), s');
  }

  lemma {:induction false} CommitLeads(env: Env, s: State, m: State, r: ReplicaId) returns (s': State)
    requires Leads(env, r, s, m) && r in m.reps && CanAct(m.now, m.reps[r], Tick(Commit))
    ensures Leads(env, r, s, s') && s'.now == m.now && s'.issued == m.issued && s'.notifIds == m.notifIds
    ensures s'.db == ApplyClaims(m.db, m.reps[r].tx.claims, m.reps[r].tx.at)
    ensures s'.reps == m.reps[r := Next(env, m.now, m.reps[r], Tick(Commit))]
  {
    LeadsOn(env, r, s, m, Do(r, Tick(Commit)));
    DoStep(env, m, r, Tick(Commit));
    s' := After(env, m, Do(r, Tick(Commit)));
  }

  /** A claiming transaction that commits, as steps of the machine: its claims are those of the
      repository's loop, and they are the process's next batch. */
  lemma {:induction false} ClaimRun(env: Env, s: State, r: ReplicaId, clock: nat -> Time, ids: nat -> ExecId,
        rows: seq<Job>) returns (s': State)
    requires r in s.reps && CanTick(s.now, s.reps[r], Begin) && OthersLocks(s, r) == {}
    requires Monotone(clock) && s.now <= clock(0) && FreshIds(ids, s.issued.Keys)
    requires EarliestDue(rows, s.db.jobs, {}, clock(0), s.reps[r].Capacity())
    ensures Leads(env, r, s, s') && s'.now == clock(|rows| + 1) && s'.notifIds == s.notifIds
    ensures forall e :: e in s'.issued <==> e in s.issued || e in Ids(ids, |rows|)
    ensures var claims := LoopClaims(env.cron, clock, ids, rows, |rows|);
            && s'.db == ApplyClaims(s.db, claims, clock(0))
            && s'.reps == s.reps[r := s.reps[r].(batch := claims, waitSince := s'.now, passed := 0,
                                                 claimed := s.reps[r].claimed + ClaimIds(claims))]
  {
    LeadsSelf(env, r, s);
    var open := ClaimOpens(env, s, r, clock, rows);
    var walked := LoopRun(env, open, r, clock(0), clock, ids, rows, |rows|);
    LeadsOnward(env, r, s, open, walked);
    s' := CommitLeads(env, s, walked, r);
  }

  lemma {:induction false} ClaimOpens(env: Env, s: State, r: ReplicaId, clock: nat -> Time, rows: seq<Job>)
    returns (s': State)
    requires r in s.reps && CanTick(s.now, s.reps[r], Begin) && OthersLocks(s, r) == {}
    requires Monotone(clock) && s.now <= clock(0)
    requires EarliestDue(rows, s.db.jobs, {}, clock(0), s.reps[r].Capacity())
    ensures Leads(env, r, s, s')
    ensures s' == s.(now := clock(1), reps := s.reps[r := s.reps[r].(tx := Looping(clock(0), clock(1), rows, 0, []))])
  {
    LeadsSelf(env, r, s);
    var dt := clock(0) - s.now;
    BeginStep(env, s, r, dt);
    var begun := s.(now := clock(0), reps := s.reps[r := s.reps[r].(tx := Begun(clock(0)))]);
    LeadsLater(env, r, s, s, dt, Tick(Begin), begun);
    assert OthersLocks(begun, r) == OthersLocks(s, r);
    s' := LockLeads(env, s, begun, r, clock(1) - clock(0), rows);
  }

  // ---------------------------------------------------------------- announcing a result

  /** `rep'` differs from `rep` in the sends it counts, and in worker `w` being at `wk`. */
  ghost predicate OnlySends(rep: Replica, rep': Replica, w: nat, wk: Worker) {
    && w < |rep.workers|
    && rep' == rep.(workers := rep.workers[w := wk], sends := rep'.sends, wg := rep'.wg, created := rep'.created)
  }

  /** The state after worker `w` visited the first `n` of the channels it looked up. */
  ghost predicate Visited(s: State, s': State, r: ReplicaId, w: nat, channels: seq<Channel>,
                          ids: nat -> NotifId, fault: nat -> bool, n: nat)
    requires r in s.reps && w < |s.reps[r].workers| && s.reps[r].workers[w].Busy? && n <= |channels|
  {
    var rep, wk := s.reps[r], s.reps[r].workers[w];
    var e := wk.claim.execId;
    && s'.now == s.now && s'.issued == s.issued && r in s'.reps && s'.reps == s.reps[r := s'.reps[r]]
    && s'.db == Announced(s.db, e, channels, ids, fault, n)
    && OnlySends(rep, s'.reps[r], w, wk.(stage := Fanout(channels[n..])))
    && s'.reps[r].sends == rep.sends + Spawned(s.db, e, channels, ids, fault, n)
    && (forall m :: m in s'.reps[r].created ==> m in rep.created || m in Ids(ids, n))
    && (forall m :: m in s'.notifIds ==> m in s.notifIds || m in Ids(ids, n))
  }

  lemma {:induction false} NotifyStep(env: Env, s: State, r: ReplicaId, w: nat, n: NotifId, ok: bool)
    requires r in s.reps && Alive(s.reps[r]) && w < |s.reps[r].workers|
    requires var wk := s.reps[r].workers[w];
             && wk.Busy? && wk.stage.Fanout? && wk.stage.todo != [] && n !in s.reps[r].created && n !in s.notifIds
             && (ok ==> wk.claim.execId in s.db.execs && wk.stage.todo[0].id in s.db.chans)
    ensures Enabled(env, s, Do(r, Work(w, Notify(n, ok))))
    ensures var s', rep, wk := After(env, s, Do(r, Work(w, Notify(n, ok)))), s.reps[r], s.reps[r].workers[w];
            var ch := wk.stage.todo[0];
            && s'.now == s.now && s'.issued == s.issued && r in s'.reps && s'.reps == s.reps[r := s'.reps[r]]
            && OnlySends(rep, s'.reps[r], w, wk.(stage := Fanout(wk.stage.todo[1..])))
            && s'.db == (if ok && ch.enabled then InsertNotif(s.db, n, wk.claim.execId, ch.id) else s.db)
            && s'.reps[r].sends == (if ok && ch.enabled then rep.sends[n := ch] else rep.sends)
            && (forall m :: m in s'.reps[r].created ==> m in rep.created || m == n)
            && (forall m :: m in s'.notifIds ==> m in s.notifIds || m == n)
  {
    DoStep(env, s, r, Work(w, Notify(n, ok)));
    assert Next(env, s.now, s.reps[r], Work(w, Notify(n, ok))) == WorkNext(env, s.now, s.reps[r], w, Notify(n, ok));
  }

  lemma {:induction false} VisitOn(s: State, m: State, s': State, r: ReplicaId, w: nat, channels: seq<Channel>,
        ids: nat -> NotifId, fault: nat -> bool, n: nat)
    requires r in s.reps && w < |s.reps[r].workers| && s.reps[r].workers[w].Busy? && 0 < n <= |channels|
    requires Visited(s, m, r, w, channels, ids, fault, n - 1)
    requires var e, ch := s.reps[r].workers[w].claim.execId, channels[n - 1];
             var spawns := Spawns(s.db, e, channels, fault, n - 1);
             && s'.now == m.now && s'.issued == m.issued && r in s'.reps && s'.reps == m.reps[r := s'.reps[r]]
             && OnlySends(m.reps[r], s'.reps[r], w, m.reps[r].workers[w].(stage := Fanout(channels[n - 1..][1..])))
             && s'.db == (if spawns then InsertNotif(m.db, ids(n - 1), e, ch.id) else m.db)
             && s'.reps[r].sends == (if spawns then m.reps[r].sends[ids(n - 1) := ch] else m.reps[r].sends)
             && (forall l :: l in s'.reps[r].created ==> l in m.reps[r].created || l == ids(n - 1))
             && (forall l :: l in s'.notifIds ==> l in m.notifIds || l == ids(n - 1))
    ensures Visited(s, s', r, w, channels, ids, fault, n)
  {
    assert channels[n - 1..][1..] == channels[n..];
    assert forall l :: l in Ids(ids, n) <==> l in Ids(ids, n - 1) || l == ids(n - 1);
  }

  lemma {:induction false} NotifyRun(env: Env, s: State, r: ReplicaId, w: nat, channels: seq<Channel>,
        ids: nat -> NotifId, fault: nat -> bool, n: nat) returns (s': State)
    requires r in s.reps && Alive(s.reps[r]) && w < |s.reps[r].workers| && n <= |channels|
    requires s.reps[r].workers[w].Busy? && s.reps[r].workers[w].stage == Fanout(channels)
    requires FreshIds(ids, s.notifIds.Keys + s.reps[r].created.Keys)
    ensures Leads(env, r, s, s') && Visited(s, s', r, w, channels, ids, fault, n)
  {
    if n == 0 {
      s' := s;
      LeadsSelf(env, r, s);
    } else {
      var m := NotifyRun(env, s, r, w, channels, ids, fault, n - 1);
      s' := NotifyOn(env, s, m, r, w, channels, ids, fault, n);
    }
  }

  lemma {:induction false} NotifyOn(env: Env, s: State, m: State, r: ReplicaId, w: nat, channels: seq<Channel>,
        ids: nat -> NotifId, fault: nat -> bool, n: nat) returns (s': State)
    requires r in s.reps && Alive(s.reps[r]) && w < |s.reps[r].workers| && 0 < n <= |channels|
    requires s.reps[r].workers[w].Busy? && s.reps[r].workers[w].stage == Fanout(channels)
    requires FreshIds(ids, s.notifIds.Keys + s.reps[r].created.Keys)
    requires Leads(env, r, s, m) && Visited(s, m, r, w, channels, ids, fault, n - 1)
    ensures Leads(env, r, s, s') && Visited(s, s', r, w, channels, ids, fault, n)
  {
    var e := s.reps[r].workers[w].claim.execId;
    AnnouncedFrame(s.db, e, channels, ids, fault, n - 1);
    var ok := !fault(n - 1) && e in s.db.execs && channels[n - 1].id in s.db.chans;
    NotifyStep(env, m, r, w, ids(n - 1), ok);
    LeadsOn(env, r, s, m, Do(r, Work(w, Notify(ids(n - 1), ok))));
    s' := After(env, m, Do(r, Work(w, Notify(ids(n - 1), ok))));
    VisitOn(s, m, s', r, w, channels, ids, fault, n);
  }

  // ---------------------------------------------------------------- finishing the sends

  lemma {:induction false} SendStep(env: Env, s: State, r: ReplicaId, n: NotifId, end: Ending)
    requires r in s.reps && Alive(s.reps[r]) && n in s.reps[r].sends
    ensures var act := SendDone(n, end.delivered, end.message, !end.fault);
            && Enabled(env, s, Do(r, act))
            && var s', rep, ch := After(env, s, Do(r, act)), s.reps[r], s.reps[r].sends[n];
               && s'.now == s.now && s'.notifIds == s.notifIds && s'.issued == s.issued
               && r in s'.reps && s'.reps == s.reps[r := s'.reps[r]]
               && s'.reps[r] == rep.(sends := rep.sends - {n}, wg := rep.wg - 1, unsaved := s'.reps[r].unsaved)
               && s'.db == if end.fault then s.db
                           else UpdateNotif(s.db, n, SendStatus(env.notifiers, ch, end.delivered),
                                            SendError(env.notifiers, ch, end.delivered, end.message), s.now)
  {
    DoStep(env, s, r, SendDone(n, end.delivered, end.message, !end.fault));
  }

  /** All sends in flight finish, in some order. */
  lemma {:induction false} SendsRun(env: Env, s: State, m: State, r: ReplicaId, ends: NotifId -> Ending)
    returns (s': State)
    requires r in s.reps && Alive(s.reps[r]) && r in m.reps && Leads(env, r, s, m)
    requires m.now == s.now && m.notifIds == s.notifIds && m.issued == s.issued && m.reps == s.reps[r := m.reps[r]]
    requires m.reps[r] == s.reps[r].(sends := m.reps[r].sends, wg := m.reps[r].wg, unsaved := m.reps[r].unsaved)
    requires forall n :: n in m.reps[r].sends ==> n in s.reps[r].sends && m.reps[r].sends[n] == s.reps[r].sends[n]
    requires Ended(s.db, m.db, env.notifiers, s.reps[r].sends, m.reps[r].sends, ends, s.now)
    ensures Leads(env, r, s, s') && r in s'.reps
    ensures s'.now == s.now && s'.notifIds == s.notifIds && s'.issued == s.issued && s'.reps == s.reps[r := s'.reps[r]]
    ensures s'.reps[r] == s.reps[r].(sends := map[], wg := s'.reps[r].wg, unsaved := s'.reps[r].unsaved)
    ensures Ended(s.db, s'.db, env.notifiers, s.reps[r].sends, map[], ends, s.now)
    decreases |m.reps[r].sends|
  {
    var sends := m.reps[r].sends;
    if sends.Keys == {} {
      assert sends == map[];
      s' := m;
    } else {
      var n := Member(sends.Keys);
      SendStep(env, m, r, n, ends(n));
      var act := SendDone(n, ends(n).delivered, ends(n).message, !ends(n).fault);
      LeadsOn(env, r, s, m, Do(r, act));
      var m' := After(env, m, Do(r, act));
      EndedOn(s.db, m.db, m'.db, env.notifiers, s.reps[r].sends, sends, ends, s.now, n);
      assert (sends - {n}).Keys == sends.Keys - {n};
      assert |(sends - {n}).Keys| == |sends.Keys| - 1;
      s' := SendsRun(env, s, m', r, ends);
    }
  }

  lemma {:induction false} SendsEnd(env: Env, s: State, r: ReplicaId, ends: NotifId -> Ending) returns (s': State)
    requires r in s.reps && Alive(s.reps[r])
    ensures Leads(env, r, s, s') && r in s'.reps
    ensures s'.now == s.now && s'.notifIds == s.notifIds && s'.issued == s.issued && s'.reps == s.reps[r := s'.reps[r]]
    ensures s'.reps[r] == s.reps[r].(sends := map[], wg := s'.reps[r].wg, unsaved := s'.reps[r].unsaved)
    ensures Ended(s.db, s'.db, env.notifiers, s.reps[r].sends, map[], ends, s.now)
  {
    LeadsSelf(env, r, s);
    s' := SendsRun(env, s, s, r, ends);
  }
}
