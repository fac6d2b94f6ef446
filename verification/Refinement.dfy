/** One step of the scheduler's code beside one step, or one run of steps, of the machine in
    `Replica` and `System`: what the object holds keeps matching the machine's state. */
module Refinement {
  import opened Domain
  import opened Tables
  import opened Claiming
  import opened Replica
  import opened ReplicaInvariants
  import opened System
  import opened Invariant
  import opened Notifications
  import opened Repositories
  import opened Dispatching
  import opened SoloRuns
  import opened Outcomes
  import Drain

  // ---------------------------------------------------------------- the object and the machine

  /** What the object holds and sees of the world. */
  datatype Locals = Locals(workers: nat, jobChan: seq<Claim>, now: Time, ctxDone: bool, db: Tables,
                       sends: map<NotifId, Channel>, nextExec: ExecId, nextNotif: NotifId)

  function Buffered(q: seq<Queued>): seq<Claim> {
    seq(|q|, i requires 0 <= i < |q| => q[i].claim)
  }

  /** Identifiers from `next` on are unused. */
  ghost predicate Below(ids: set<int>, next: int) {
    forall k :: k in ids ==> k < next
  }

  predicate Carries(rep: Replica, v: Locals) {
    |rep.workers| == v.workers && rep.ctxDone == v.ctxDone && rep.sends == v.sends && Buffered(rep.queue) == v.jobChan
  }

  /** Process `r` of the reachable state `s` is the object; nobody is in a transaction. */
  ghost predicate Matches(env: Env, r: ReplicaId, s: State, v: Locals) {
    && Reachable(env, s) && r in s.reps && s.now == v.now && s.db == v.db
    && Carries(s.reps[r], v)
    && Below(s.issued.Keys, v.nextExec) && Below(s.notifIds.Keys + s.reps[r].created.Keys, v.nextNotif)
    && (forall q :: q in s.reps ==> s.reps[q].tx.NoTx?)
  }

  predicate Plain(act: Act) {
    !act.Crash? && !(act.Tick? && act.t.AdvanceRow?) && !(act.Work? && act.a.Notify?)
  }

  /** One step of the machine beside one of the object. */
  lemma {:induction false} Stepping(env: Env, r: ReplicaId, s: State, v: Locals, act: Act, v': Locals)
    returns (s': State)
    requires Matches(env, r, s, v) && Enabled(env, s, Do(r, act)) && Plain(act)
    requires Carries(Next(env, s.now, s.reps[r], act), v') && v'.db == DoDb(env, s, r, act)
    requires v'.now == v.now && v'.nextExec == v.nextExec && v'.nextNotif == v.nextNotif
    requires Next(env, s.now, s.reps[r], act).created == s.reps[r].created
    requires Next(env, s.now, s.reps[r], act).tx.NoTx?
    ensures Leads(env, r, s, s') && Matches(env, r, s', v')
    ensures s'.reps[r] == Next(env, s.now, s.reps[r], act)
  {
    s' := After(env, s, Do(r, act));
    DoStep(env, s, r, act);
    LeadsSelf(env, r, s);
    LeadsOn(env, r, s, s, Do(r, act));
    LeadsReachable(env, r, s, s');
  }

  lemma {:induction false} Elapsing(env: Env, r: ReplicaId, s: State, v: Locals, dt: nat) returns (s': State)
    requires Matches(env, r, s, v)
    ensures Leads(env, r, s, s') && Matches(env, r, s', v.(now := v.now + dt))
    ensures s'.reps[r] == s.reps[r]
  {
    s' := After(env, s, Elapse(dt));
    LeadsSelf(env, r, s);
    LeadsOn(env, r, s, s, Elapse(dt));
    LeadsReachable(env, r, s, s');
  }

  // ---------------------------------------------------------------- steps of one worker

  /** What everything outside the scheduler makes of one execution. */
  datatype World = World(outcome: Outcome, took: nat, saveFault: bool, lag: nat, backFault: bool,
                         fetchFault: bool, createFault: nat -> bool)

  function ResultOf(env: Env, claim: Claim, start: Time, wd: World): Terminal {
    RunResult(env.executors, claim.job, wd.outcome, start, start + wd.took)
  }

  /** `rep'` differs from `rep` in what worker `w`, now at `wk`, did there. */
  ghost predicate OnlyWork(rep: Replica, rep': Replica, w: nat, wk: Worker) {
    && w < |rep.workers|
    && rep' == rep.(workers := rep.workers[w := wk], done := rep'.done, failed := rep'.failed, fetched := rep'.fetched,
                    sends := rep'.sends, wg := rep'.wg, created := rep'.created)
    && rep.done <= rep'.done && rep.failed <= rep'.failed
  }

  ghost predicate At(s: State, r: ReplicaId, w: nat, wk: Worker) {
    r in s.reps && Alive(s.reps[r]) && w < |s.reps[r].workers| && s.reps[r].workers[w] == wk
  }

  lemma {:induction false} Received(env: Env, r: ReplicaId, s: State, v: Locals, w: nat) returns (s': State)
    requires Matches(env, r, s, v) && At(s, r, w, Idle) && v.jobChan != []
    ensures Leads(env, r, s, s') && Matches(env, r, s', v.(jobChan := v.jobChan[1..]))
    ensures var rep, c := s.reps[r], v.jobChan[0];
            s'.reps[r] == rep.(workers := rep.workers[w := Busy(c, v.now, |rep.started|, Executing)],
                               queue := rep.queue[1..], started := rep.started + [c.execId],
                               starts := rep.starts + [v.now])
  {
    s' := Stepping(env, r, s, v, Work(w, Dequeue), v.(jobChan := v.jobChan[1..]));
  }

  lemma {:induction false} Saving(env: Env, r: ReplicaId, s: State, v: Locals, w: nat, wk: Worker, outcome: Outcome,
        exec: Terminal, failed: bool, v': Locals) returns (s': State)
    requires Matches(env, r, s, v) && At(s, r, w, wk) && wk.Busy? && wk.stage.Executing?
    requires outcome.Broken? ==> outcome.message != ""
    requires exec == RunResult(env.executors, wk.claim.job, outcome, wk.startAt, v.now)
    requires v' == v.(db := if failed then v.db else UpdateExec(v.db, wk.claim.execId, exec))
    ensures Leads(env, r, s, s') && Matches(env, r, s', v')
    ensures OnlyWork(s.reps[r], s'.reps[r], w, wk.(stage := Saved(exec.status, v.now)))
    ensures wk.claim.execId in s'.reps[r].done + s'.reps[r].failed
  {
    s' := Stepping(env, r, s, v, Work(w, Finish(outcome, !failed)), v');
  }

  lemma {:induction false} SavingLater(env: Env, r: ReplicaId, s: State, m: State, v: Locals, w: nat, wk: Worker,
        outcome: Outcome, exec: Terminal, failed: bool, v': Locals) returns (s': State)
    requires Leads(env, r, s, m) && Matches(env, r, m, v) && At(s, r, w, wk) && m.reps[r] == s.reps[r]
    requires wk.Busy? && wk.stage.Executing? && (outcome.Broken? ==> outcome.message != "")
    requires exec == RunResult(env.executors, wk.claim.job, outcome, wk.startAt, v.now)
    requires v' == v.(db := if failed then v.db else UpdateExec(v.db, wk.claim.execId, exec))
    ensures Leads(env, r, s, s') && Matches(env, r, s', v')
    ensures OnlyWork(s.reps[r], s'.reps[r], w, wk.(stage := Saved(exec.status, v.now)))
    ensures wk.claim.execId in s'.reps[r].done + s'.reps[r].failed
  {
    s' := Saving(env, r, m, v, w, wk, outcome, exec, failed, v');
    LeadsOnward(env, r, s, m, s');
  }

  lemma {:induction false} RunningThenSaving(env: Env, r: ReplicaId, s: State, v: Locals, w: nat, wk: Worker,
        wd: World, exec: Terminal, failed: bool, v': Locals) returns (s': State)
    requires Matches(env, r, s, v) && At(s, r, w, wk) && wk.Busy? && wk.stage.Executing? && wk.startAt == v.now
    requires wd.outcome.Broken? ==> wd.outcome.message != ""
    requires exec == ResultOf(env, wk.claim, v.now, wd)
    requires v' == v.(now := v.now + wd.took, db := if failed then v.db else UpdateExec(v.db, wk.claim.execId, exec))
    ensures Leads(env, r, s, s') && Matches(env, r, s', v')
    ensures OnlyWork(s.reps[r], s'.reps[r], w, wk.(stage := Saved(exec.status, v.now + wd.took)))
    ensures wk.claim.execId in s'.reps[r].done + s'.reps[r].failed
  {
    var m := Elapsing(env, r, s, v, wd.took);
    s' := SavingLater(env, r, s, m, v.(now := v.now + wd.took), w, wk, wd.outcome, exec, failed, v');
  }

  lemma {:induction false} NobodyLocks(env: Env, r: ReplicaId, s: State, v: Locals, j: JobId)
    requires Matches(env, r, s, v)
    ensures !JobLocked(s, j) && OthersLocks(s, r) == {}
  {
  }

  lemma {:induction false} WritingBack(env: Env, r: ReplicaId, s: State, v: Locals, w: nat, wk: Worker, job: Job,
        failed: bool, v': Locals) returns (s': State)
    requires Matches(env, r, s, v) && At(s, r, w, wk) && wk.Busy? && wk.stage.Saved?
    requires job == WrittenBack(wk) && (!failed ==> Storable(job))
    requires v' == v.(db := if failed then v.db else UpdateJob(v.db, job, v.now))
    ensures Leads(env, r, s, s') && Matches(env, r, s', v')
    ensures OnlyWork(s.reps[r], s'.reps[r], w, wk.(stage := WroteBack(wk.stage.status)))
  {
    NobodyLocks(env, r, s, v, wk.claim.job.id);
    s' := Stepping(env, r, s, v, Work(w, WriteBack(!failed)), v');
  }

  lemma {:induction false} WaitingThenWriting(env: Env, r: ReplicaId, s: State, v: Locals, w: nat, wk: Worker, dt: nat,
        job: Job, failed: bool, v': Locals) returns (s': State)
    requires Matches(env, r, s, v) && At(s, r, w, wk) && wk.Busy? && wk.stage.Saved?
    requires job == WrittenBack(wk) && (!failed ==> Storable(job))
    requires v' == v.(now := v.now + dt, db := if failed then v.db else UpdateJob(v.db, job, v.now + dt))
    ensures Leads(env, r, s, s') && Matches(env, r, s', v')
    ensures OnlyWork(s.reps[r], s'.reps[r], w, wk.(stage := WroteBack(wk.stage.status)))
  {
    var m := Elapsing(env, r, s, v, dt);
    s' := WritingBack(env, r, m, v.(now := v.now + dt), w, wk, job, failed, v');
    LeadsOnward(env, r, s, m, s');
  }

  lemma {:induction false} NotAnnouncing(env: Env, r: ReplicaId, s: State, v: Locals, w: nat, wk: Worker)
    returns (s': State)
    requires Matches(env, r, s, v) && At(s, r, w, wk) && wk.Busy? && wk.stage.WroteBack?
    ensures Leads(env, r, s, s') && Matches(env, r, s', v)
    ensures OnlyWork(s.reps[r], s'.reps[r], w, Idle)
  {
    s' := Stepping(env, r, s, v, Work(w, FetchChannels([], false)), v);
  }

  function Supply(from: int): nat -> int {
    (k: nat) => from + k
  }

  /** What an announcement makes of the object's fields. */
  ghost predicate AnnouncementMade(v: Locals, v': Locals, e: ExecId, channels: seq<Channel>, fault: nat -> bool) {
    var ids, n := Supply(v.nextNotif), |channels|;
    v' == v.(db := Announced(v.db, e, channels, ids, fault, n),
             sends := v.sends + Spawned(v.db, e, channels, ids, fault, n), nextNotif := v.nextNotif + n)
  }

  lemma {:induction false} Announcing(env: Env, r: ReplicaId, s: State, v: Locals, w: nat, wk: Worker,
        channels: seq<Channel>, fault: nat -> bool, v': Locals) returns (s': State)
    requires Matches(env, r, s, v) && At(s, r, w, wk) && wk.Busy? && wk.stage.WroteBack?
    requires WantsChannels(env, wk.claim.job, wk.stage.status)
    requires ChannelsOf(v.db.chans, wk.claim.job.notifyChannels, channels)
    requires AnnouncementMade(v, v', wk.claim.execId, channels, fault)
    ensures Leads(env, r, s, s') && Matches(env, r, s', v')
    ensures OnlyWork(s.reps[r], s'.reps[r], w, Idle)
  {
    var a := LookingUp(env, r, s, v, w, wk, channels);
    var b, vb := Fanning(env, r, a, v, w, wk.(stage := Fanout(channels)), channels, fault);
    s' := EndingJob(env, r, b, vb, w, wk.(stage := Fanout([])));
    LeadsOnward(env, r, s, a, b);
    LeadsOnward(env, r, s, b, s');
  }

  /** What the dispatcher looks up for a result: the job's channels if there is a dispatcher and the
      condition asks for it, and nothing if the look-up fails. */
  predicate LookedUp(env: Env, job: Job, status: ExecStatus, fault: bool, chans: map<ChannelId, Channel>,
                     channels: seq<Channel>) {
    if WantsChannels(env, job, status) && !fault
    then ChannelsOf(chans, job.notifyChannels, channels) else channels == []
  }

  /** The channels are the job's if they are `wanted` and the look-up succeeds, and none otherwise. */
  ghost predicate Found(wanted: bool, job: Job, fault: bool, chans: map<ChannelId, Channel>, channels: seq<Channel>) {
    if wanted && job.notifyChannels != [] && !fault then ChannelsOf(chans, job.notifyChannels, channels)
    else channels == []
  }

  lemma {:induction false} LookedUpMeans(env: Env, job: Job, status: ExecStatus, fault: bool,
        chans: map<ChannelId, Channel>, channels: seq<Channel>)
    requires LookedUp(env, job, status, fault, chans, channels)
    ensures job.condition == Malformed ==> channels == []
    ensures job.condition == On("always") ==> Found(env.dispatches, job, fault, chans, channels)
    ensures job.condition == On("success") ==>
              Found(env.dispatches && status == Success, job, fault, chans, channels)
    ensures job.condition == NoCondition || (job.condition.On? && job.condition.value !in {"success", "always"}) ==>
              Found(env.dispatches && (status == Failure || status == Error), job, fault, chans, channels)
  {
  }

  /** Both ways the last part of an execution can go. */
  lemma {:induction false} AnnouncingIfWanted(env: Env, r: ReplicaId, s: State, v: Locals, w: nat, wk: Worker,
        channels: seq<Channel>, fetchFault: bool, fault: nat -> bool, v': Locals) returns (s': State)
    requires Matches(env, r, s, v) && At(s, r, w, wk) && wk.Busy? && wk.stage.WroteBack?
    requires LookedUp(env, wk.claim.job, wk.stage.status, fetchFault, v.db.chans, channels)
    requires AnnouncementMade(v, v', wk.claim.execId, channels, fault)
    ensures Leads(env, r, s, s') && Matches(env, r, s', v')
    ensures OnlyWork(s.reps[r], s'.reps[r], w, Idle)
  {
    if WantsChannels(env, wk.claim.job, wk.stage.status) && !fetchFault {
      s' := Announcing(env, r, s, v, w, wk, channels, fault, v');
    } else {
      s' := NotAnnouncing(env, r, s, v, w, wk);
      assert v.sends + map[] == v.sends;
    }
  }

  lemma {:induction false} LookingUp(env: Env, r: ReplicaId, s: State, v: Locals, w: nat, wk: Worker,
        channels: seq<Channel>) returns (s': State)
    requires Matches(env, r, s, v) && At(s, r, w, wk) && wk.Busy? && wk.stage.WroteBack?
    requires WantsChannels(env, wk.claim.job, wk.stage.status)
    requires ChannelsOf(v.db.chans, wk.claim.job.notifyChannels, channels)
    ensures Leads(env, r, s, s') && Matches(env, r, s', v)
    ensures OnlyWork(s.reps[r], s'.reps[r], w, wk.(stage := Fanout(channels)))
  {
    s' := Stepping(env, r, s, v, Work(w, FetchChannels(channels, true)), v);
  }

  lemma {:induction false} Fanning(env: Env, r: ReplicaId, s: State, v: Locals, w: nat, wk: Worker,
        channels: seq<Channel>, fault: nat -> bool) returns (s': State, v': Locals)
    requires Matches(env, r, s, v) && At(s, r, w, wk) && wk.Busy? && wk.stage == Fanout(channels)
    ensures Leads(env, r, s, s') && Matches(env, r, s', v')
    ensures var ids, e := Supply(v.nextNotif), wk.claim.execId;
            v' == v.(db := Announced(v.db, e, channels, ids, fault, |channels|),
                     sends := v.sends + Spawned(v.db, e, channels, ids, fault, |channels|),
                     nextNotif := v.nextNotif + |channels|)
    ensures OnlyWork(s.reps[r], s'.reps[r], w, wk.(stage := Fanout([])))
  {
    assert channels[|channels|..] == [];
    s' := NotifyRun(env, s, r, w, channels, Supply(v.nextNotif), fault, |channels|);
    v' := v.(db := s'.db, sends := s'.reps[r].sends, nextNotif := v.nextNotif + |channels|);
    LeadsReachable(env, r, s, s');
    AnnouncingMatches(env, r, s, v, s', v', w, channels, fault);
  }

  lemma {:induction false} EndingJob(env: Env, r: ReplicaId, s: State, v: Locals, w: nat, wk: Worker)
    returns (s': State)
    requires Matches(env, r, s, v) && At(s, r, w, wk) && wk.Busy? && wk.stage == Fanout([])
    ensures Leads(env, r, s, s') && Matches(env, r, s', v)
    ensures OnlyWork(s.reps[r], s'.reps[r], w, Idle)
  {
    s' := Stepping(env, r, s, v, Work(w, EndJob), v);
  }

  lemma {:induction false} AnnouncingMatches(env: Env, r: ReplicaId, a: State, v: Locals, b: State, vb: Locals, w: nat,
        channels: seq<Channel>, fault: nat -> bool)
    requires Matches(env, r, a, v) && Reachable(env, b)
    requires w < |a.reps[r].workers| && a.reps[r].workers[w].Busy?
    requires Visited(a, b, r, w, channels, Supply(v.nextNotif), fault, |channels|)
    requires vb == v.(db := b.db, sends := b.reps[r].sends, nextNotif := v.nextNotif + |channels|)
    ensures Matches(env, r, b, vb)
  {
    var ids := Supply(v.nextNotif);
    forall n | n in Ids(ids, |channels|) ensures n < vb.nextNotif {
      var k: nat :| k < |channels| && n == ids(k);
    }
  }

  // ---------------------------------------------------------------- steps of the tick loop

  lemma {:induction false} TakingBatch(env: Env, r: ReplicaId, s: State, v: Locals, clock: nat -> Time, rows: seq<Job>,
        claims: seq<Claim>, v': Locals) returns (s': State)
    requires Matches(env, r, s, v) && CanTick(v.now, s.reps[r], Begin) && Monotone(clock) && v.now <= clock(0)
    requires EarliestDue(rows, v.db.jobs, {}, clock(0), 2 * v.workers)
    requires claims == LoopClaims(env.cron, clock, Supply(v.nextExec), rows, |rows|)
    requires v' == v.(now := clock(|rows| + 1), db := ApplyClaims(v.db, claims, clock(0)),
                      nextExec := v.nextExec + |rows|)
    ensures Leads(env, r, s, s') && Matches(env, r, s', v')
    ensures s'.reps[r] == s.reps[r].(batch := claims, waitSince := clock(|rows| + 1), passed := 0,
                                     claimed := s.reps[r].claimed + ClaimIds(claims))
  {
    var ids := Supply(v.nextExec);
    NobodyLocks(env, r, s, v, 0);
    s' := ClaimRun(env, s, r, clock, ids, rows);
    LeadsReachable(env, r, s, s');
    forall e | e in Ids(ids, |rows|) ensures e < v.nextExec + |rows| {
      var k: nat :| k < |rows| && e == ids(k);
    }
  }

  /** What a claim makes of the object's fields: nothing if it failed; otherwise the loop's claims of
      the earliest due rows are stored, and its clock readings and identifiers are used up. */
  ghost predicate ClaimMade(cron: Cron, v: Locals, v': Locals, clock: nat -> Time, rows: seq<Job>,
                            claims: seq<Claim>, failed: bool) {
    if failed then claims == [] && v' == v
    else
      && EarliestDue(rows, v.db.jobs, {}, clock(0), 2 * v.workers)
      && claims == LoopClaims(cron, clock, Supply(v.nextExec), rows, |rows|)
      && v' == v.(now := clock(|rows| + 1), db := ApplyClaims(v.db, claims, clock(0)),
                  nextExec := v.nextExec + |rows|)
  }

  lemma {:induction false} TakingIfClaimed(env: Env, r: ReplicaId, s: State, v: Locals, clock: nat -> Time,
        rows: seq<Job>, claims: seq<Claim>, failed: bool, v': Locals) returns (s': State)
    requires Matches(env, r, s, v) && Monotone(clock) && v.now == clock(0)
    requires ClaimMade(env.cron, v, v', clock, rows, claims, failed)
    requires !failed ==> CanTick(v.now, s.reps[r], Begin)
    ensures Leads(env, r, s, s') && Matches(env, r, s', v') && v'.now >= v.now
    ensures s'.reps[r] == if failed then s.reps[r] else
              s.reps[r].(batch := claims, waitSince := v'.now, passed := 0,
                         claimed := s.reps[r].claimed + ClaimIds(claims))
  {
    if failed {
      LeadsSelf(env, r, s);
      s' := s;
    } else {
      s' := TakingBatch(env, r, s, v, clock, rows, claims, v');
    }
  }

  /** The first claim of the batch went to the channel or was shed. */
  ghost predicate Offered(rep: Replica, rep': Replica, e: ExecId, sent: bool, now: Time)
    requires rep.batch != []
  {
    && rep' == rep.(batch := rep.batch[1..], waitSince := now, passed := rep.passed + 1, queue := rep'.queue,
                    shed := rep'.shed, done := rep'.done, failed := rep'.failed)
    && rep'.shed == if sent then rep.shed else rep.shed + {e}
  }

  lemma {:induction false} Enqueueing(env: Env, r: ReplicaId, s: State, v: Locals) returns (s': State)
    requires Matches(env, r, s, v) && Alive(s.reps[r]) && s.reps[r].batch != [] && |v.jobChan| < 2 * v.workers
    ensures Leads(env, r, s, s') && Matches(env, r, s', v.(jobChan := v.jobChan + [s.reps[r].batch[0]]))
    ensures Offered(s.reps[r], s'.reps[r], s.reps[r].batch[0].execId, true, v.now)
  {
    s' := Stepping(env, r, s, v, Tick(Enqueue), v.(jobChan := v.jobChan + [s.reps[r].batch[0]]));
  }

  /** The tables after an attempt to mark a shed claim's row. */
  function ShedTables(t: Tables, e: ExecId, reason: string, now: Time, failed: bool): Tables {
    if failed then t else UpdateExec(t, e, ShedResult(reason, now))
  }

  /** The row of execution `e`, if there is one, is an error with this text, ended at `now`; nothing else
      has changed. */
  ghost predicate RowShed(t: Tables, t': Tables, e: ExecId, text: string, now: Time) {
    && t'.jobs == t.jobs && t'.notifs == t.notifs && t'.chans == t.chans
    && t'.execs == if e in t.execs
                   then t.execs[e := Execution(t.execs[e].jobId, Error, "", text, 0, t.execs[e].startedAt, Some(now))]
                   else t.execs
  }

  /** The row of a claim given up, by cancellation or by the timeout, says so, unless it is `kept`. */
  ghost predicate GivenUp(t: Tables, t': Tables, e: ExecId, cancelled: bool, kept: bool, now: Time) {
    if kept then t' == t
    else RowShed(t, t', e, if cancelled then "scheduler shutting down" else "worker pool saturated", now)
  }

  lemma {:induction false} Shedding(env: Env, r: ReplicaId, s: State, v: Locals, e: ExecId, onShutdown: bool,
        t: Tables, failed: bool) returns (s': State)
    requires Matches(env, r, s, v) && Alive(s.reps[r]) && s.reps[r].batch != [] && s.reps[r].batch[0].execId == e
    requires if onShutdown then v.ctxDone else v.now >= s.reps[r].waitSince + DISPATCH_TIMEOUT
    requires t == ShedTables(v.db, e, Reason(onShutdown), v.now, failed)
    ensures Leads(env, r, s, s') && Matches(env, r, s', v.(db := t))
    ensures Offered(s.reps[r], s'.reps[r], e, false, v.now)
  {
    var act := Tick(if onShutdown then ShedOnShutdown(!failed) else ShedOnTimeout(!failed));
    s' := Stepping(env, r, s, v, act, v.(db := t));
  }

  function Latest(a: Time, b: Time): Time {
    if a < b then b else a
  }

  function Reason(onShutdown: bool): string {
    if onShutdown then "scheduler shutting down" else "worker pool saturated"
  }

  // ---------------------------------------------------------------- steps of `Run`

  /** The tables after a start-up recovery that may fail. */
  function RecoveredTables(t: Tables, now: Time, failed: bool): Tables {
    if failed then t else RecoverStale(t, now - STALE_RUNNING_AGE, now)
  }

  lemma {:induction false} Recovering(env: Env, r: ReplicaId, s: State, v: Locals, t: Tables, failed: bool)
    returns (s': State)
    requires Matches(env, r, s, v) && s.reps[r].phase == Starting
    requires t == RecoveredTables(v.db, v.now, failed)
    ensures Leads(env, r, s, s') && Matches(env, r, s', v.(db := t))
    ensures s'.reps[r] == s.reps[r].(phase := Up)
  {
    s' := Stepping(env, r, s, v, Recover(!failed), v.(db := t));
  }

  lemma {:induction false} Cancelling(env: Env, r: ReplicaId, s: State, v: Locals) returns (s': State)
    requires Matches(env, r, s, v) && Alive(s.reps[r]) && !v.ctxDone
    ensures Leads(env, r, s, s') && Matches(env, r, s', v.(ctxDone := true))
    ensures s'.reps[r] == s.reps[r].(ctxDone := true)
  {
    s' := Stepping(env, r, s, v, Cancel, v.(ctxDone := true));
  }

  lemma {:induction false} Closing(env: Env, r: ReplicaId, s: State, v: Locals) returns (s': State)
    requires Matches(env, r, s, v) && s.reps[r].phase == Up && s.reps[r].batch == [] && v.ctxDone
    ensures Leads(env, r, s, s') && Matches(env, r, s', v)
    ensures s'.reps[r] == s.reps[r].(phase := Draining)
  {
    s' := Stepping(env, r, s, v, Close, v);
  }

  lemma {:induction false} Expiring(env: Env, r: ReplicaId, s: State, v: Locals) returns (s': State)
    requires Matches(env, r, s, v) && s.reps[r].phase == Draining && !s.reps[r].execCancelled
    ensures Leads(env, r, s, s') && Matches(env, r, s', v)
    ensures s'.reps[r] == s.reps[r].(execCancelled := true)
  {
    s' := Stepping(env, r, s, v, CancelExecutions, v);
  }

  lemma {:induction false} Leaving(env: Env, r: ReplicaId, s: State, v: Locals, w: nat) returns (s': State)
    requires Matches(env, r, s, v) && At(s, r, w, Idle) && s.reps[r].phase == Draining && v.jobChan == []
    ensures Leads(env, r, s, s') && Matches(env, r, s', v)
    ensures s'.reps[r] == s.reps[r].(workers := s.reps[r].workers[w := Exited])
  {
    s' := Stepping(env, r, s, v, Work(w, Exit), v);
  }

  lemma {:induction false} AllLeft(env: Env, r: ReplicaId, s: State, v: Locals) returns (s': State)
    requires Matches(env, r, s, v) && s.reps[r].phase == Draining
    requires forall w :: 0 <= w < v.workers ==> s.reps[r].workers[w].Exited?
    ensures Leads(env, r, s, s') && Matches(env, r, s', v)
    ensures s'.reps[r] == s.reps[r].(phase := AwaitingSends)
  {
    s' := Stepping(env, r, s, v, WorkersGone, v);
  }

  lemma {:induction false} Returning(env: Env, r: ReplicaId, s: State, v: Locals) returns (s': State)
    requires Matches(env, r, s, v) && s.reps[r].phase == AwaitingSends && v.sends == map[]
    ensures Leads(env, r, s, s') && Matches(env, r, s', v)
    ensures s'.reps[r] == s.reps[r].(phase := Returned)
  {
    ReachableInv(env, s);
    assert Counted(s.reps[r]);
    s' := Stepping(env, r, s, v, Return, v);
  }

  lemma {:induction false} FinishingSends(env: Env, r: ReplicaId, s: State, v: Locals, t: Tables,
        ends: NotifId -> Ending) returns (s': State)
    requires Matches(env, r, s, v) && Alive(s.reps[r]) && Ended(v.db, t, env.notifiers, v.sends, map[], ends, v.now)
    ensures Leads(env, r, s, s') && Matches(env, r, s', v.(db := t, sends := map[]))
    ensures s'.reps[r] == s.reps[r].(sends := map[], wg := s'.reps[r].wg, unsaved := s'.reps[r].unsaved)
  {
    s' := SendsEnd(env, s, r, ends);
    LeadsReachable(env, r, s, s');
    EndedIs(v.db, t, s'.db, env.notifiers, v.sends, ends, v.now);
  }

  lemma {:induction false} EndedIs(t: Tables, a: Tables, b: Tables, notifiers: set<string>, sends: map<NotifId,
        Channel>, ends: NotifId -> Ending, now: Time)
    requires Ended(t, a, notifiers, sends, map[], ends, now) && Ended(t, b, notifiers, sends, map[], ends, now)
    ensures a == b
  {
    assert a.notifs.Keys == b.notifs.Keys == t.notifs.Keys;
    forall n | n in a.notifs.Keys ensures a.notifs[n] == b.notifs[n] {
      assert n in t.notifs;
    }
    assert a.notifs == b.notifs;
    assert a.(notifs := t.notifs) == b.(notifs := t.notifs);
  }

  lemma {:induction false} JobsAreFiled(env: Env, r: ReplicaId, s: State, v: Locals)
    requires Matches(env, r, s, v)
    ensures forall j :: j in v.db.jobs ==> v.db.jobs[j].id == j
  {
    ReachableInv(env, s);
  }

  /** New identifiers are new to everything the dispatcher looks at, and channels are filed under
      their own ids. */
  lemma {:induction false} SupplyIsFresh(env: Env, r: ReplicaId, s: State, v: Locals)
    requires Matches(env, r, s, v)
    ensures FreshIds(Supply(v.nextNotif), v.db.notifs.Keys + v.sends.Keys)
    ensures forall c :: c in v.db.chans ==> v.db.chans[c].id == c
  {
    ReachableInv(env, s);
    assert Counted(s.reps[r]);
    forall n | n in v.db.notifs ensures n < v.nextNotif {
      assert NotifOk(s, n);
    }
  }

  // ---------------------------------------------------------------- facts the object relies on

  /** The arms of the `select` that hands a claim over. */
  datatype Arm = SendArm | DoneArm | TimerArm

  /** The tables after an execution's two writes. */
  function Written(env: Env, t: Tables, claim: Claim, start: Time, wd: World): (t': Tables)
    ensures t'.chans == t.chans && t'.notifs == t.notifs && t'.jobs.Keys == t.jobs.Keys
  {
    var saved := if wd.saveFault then t else UpdateExec(t, claim.execId, ResultOf(env, claim, start, wd));
    var job := claim.job.(lastRunAt := Some(start + wd.took));
    if wd.backFault || !Storable(job) then saved else UpdateJob(saved, job, start + wd.took + wd.lag)
  }

  /** What the two writes of an execution leave: its row has the terminal columns of `exec`, its job's
      row the columns of the claim and the run's end, unless the write failed or found no row; and
      nothing else has changed. */
  ghost predicate ResultSaved(t: Tables, t': Tables, claim: Claim, exec: Terminal, saveFails: bool, backFails: bool,
                              now: Time) {
    && t'.notifs == t.notifs && t'.chans == t.chans && t'.jobs.Keys == t.jobs.Keys
    && var e, j := claim.execId, claim.job.id;
       && t'.execs == (if saveFails || e !in t.execs then t.execs
                       else t.execs[e := Execution(t.execs[e].jobId, exec.status, exec.output, exec.error,
                                                   exec.durationMs, t.execs[e].startedAt, Some(exec.finishedAt))])
       && (forall i :: i in t.jobs && i != j ==> t'.jobs[i] == t.jobs[i])
       && (j in t.jobs ==>
             if backFails || !Storable(claim.job) then t'.jobs[j] == t.jobs[j]
             else Replaces(t.jobs[j], t'.jobs[j], claim.job.(lastRunAt := Some(exec.finishedAt)), now))
  }

  lemma {:induction false} WrittenMeans(env: Env, t: Tables, claim: Claim, start: Time, wd: World)
    ensures ResultSaved(t, Written(env, t, claim, start, wd), claim, ResultOf(env, claim, start, wd), wd.saveFault,
                        wd.backFault, start + wd.took + wd.lag)
  {
  }

  /** What one execution makes of the object's tables and sends, by the columns of the rows: the result
      is saved, and the channels its condition asks for are looked up and notified. */
  ghost predicate Told(env: Env, v: Locals, v': Locals, claim: Claim, wd: World, exec: Terminal,
                       channels: seq<Channel>) {
    var job, saved := claim.job, v'.db.(notifs := v.db.notifs);
    && Judged(env.executors, job.kind, wd.outcome, exec.status, exec.output, exec.error)
    && exec.durationMs == wd.took && exec.finishedAt == v.now + wd.took
    && ResultSaved(v.db, saved, claim, exec, wd.saveFault, wd.backFault, v.now + wd.took + wd.lag)
    && (job.condition == Malformed ==> channels == [])
    && (job.condition == On("always") ==> Found(env.dispatches, job, wd.fetchFault, v.db.chans, channels))
    && (job.condition == On("success") ==>
          Found(env.dispatches && exec.status == Success, job, wd.fetchFault, v.db.chans, channels))
    && (job.condition == NoCondition || (job.condition.On? && job.condition.value !in {"success", "always"}) ==>
          Found(env.dispatches && (exec.status == Failure || exec.status == Error), job, wd.fetchFault, v.db.chans,
                channels))
    && Fanned(saved, v'.db, v.sends, v'.sends, claim.execId, channels, Supply(v.nextNotif), wd.createFault)
  }

  lemma {:induction false} ExecutionIsTold(env: Env, v: Locals, t: Tables, v': Locals, claim: Claim, wd: World,
        exec: Terminal, channels: seq<Channel>)
    requires exec == ResultOf(env, claim, v.now, wd) && t == Written(env, v.db, claim, v.now, wd)
    requires LookedUp(env, claim.job, exec.status, wd.fetchFault, v.db.chans, channels)
    requires Fanned(t, v'.db, v.sends, v'.sends, claim.execId, channels, Supply(v.nextNotif), wd.createFault)
    ensures Told(env, v, v', claim, wd, exec, channels)
  {
    ResultIsJudged(env.executors, claim.job, wd.outcome, v.now, v.now + wd.took);
    WrittenMeans(env, v.db, claim, v.now, wd);
    LookedUpMeans(env, claim.job, exec.status, wd.fetchFault, v.db.chans, channels);
    assert v'.db.(notifs := v.db.notifs) == t;
  }

  lemma {:induction false} OnlyWorkTwice(a: Replica, b: Replica, c: Replica, w: nat)
    requires w < |a.workers| == |b.workers| == |c.workers|
    requires OnlyWork(a, b, w, b.workers[w]) && OnlyWork(b, c, w, c.workers[w])
    ensures OnlyWork(a, c, w, c.workers[w])
  {
  }

  lemma {:induction false} WrittenInTwo(env: Env, t: Tables, saved: Tables, t': Tables, claim: Claim, start: Time,
        wd: World, exec: Terminal, now: Time)
    requires exec == ResultOf(env, claim, start, wd) && now == start + wd.took + wd.lag
    requires saved == if wd.saveFault then t else UpdateExec(t, claim.execId, exec)
    requires var job := claim.job.(lastRunAt := Some(exec.finishedAt));
             t' == if wd.backFault || !Storable(job) then saved else UpdateJob(saved, job, now)
    ensures t' == Written(env, t, claim, start, wd)
  {
  }

  /** `rep'` differs from `rep` only in having run some of the claims buffered. */
  ghost predicate Served(rep: Replica, rep': Replica) {
    rep' == rep.(queue := rep'.queue, started := rep'.started, starts := rep'.starts, done := rep'.done,
                 failed := rep'.failed, fetched := rep'.fetched, sends := rep'.sends, wg := rep'.wg,
                 created := rep'.created)
  }

  lemma {:induction false} ServedOnce(rep: Replica, rep': Replica, rep'': Replica, w: nat, c: Claim)
    requires w < |rep.workers| && rep.workers[w] == Idle && OnlyWork(rep', rep'', w, Idle)
    requires rep' == rep.(workers := rep.workers[w := rep'.workers[w]], queue := rep'.queue,
                          started := rep.started + [c.execId], starts := rep'.starts)
    ensures Served(rep, rep'') && rep''.started == rep.started + [c.execId]
  {
    assert rep''.workers == rep.workers;
  }

  lemma {:induction false} ServedTwice(a: Replica, b: Replica, c: Replica)
    requires Served(a, b) && Served(b, c)
    ensures Served(a, c)
  {
  }

  lemma {:induction false} Rest(claims: seq<Claim>, n: nat)
    requires n < |claims|
    ensures claims[n..] != [] && claims[n..][0] == claims[n] && claims[n..][1..] == claims[n + 1..]
  {
  }

  lemma {:induction false} OneMore(started: seq<ExecId>, claims: seq<Claim>, n: nat)
    requires n < |claims|
    ensures (started + ClaimIds(claims[..n])) + [claims[n].execId] == started + ClaimIds(claims[..n + 1])
  {
    assert ClaimIds(claims[..n + 1]) == ClaimIds(claims[..n]) + [claims[n].execId];
  }

  /** Every worker from `from` on waits for a claim. */
  ghost predicate AllIdle(rep: Replica, from: nat) {
    forall w :: from <= w < |rep.workers| ==> rep.workers[w] == Idle
  }

  lemma {:induction false} WorkerCount(env: Env, r: ReplicaId, s: State, v: Locals)
    requires Matches(env, r, s, v)
    ensures v.workers == |s.reps[r].workers|
  {
  }

  /** A buffered claim means there are workers. */
  lemma {:induction false} SomeWorker(env: Env, r: ReplicaId, s: State, v: Locals)
    requires Matches(env, r, s, v) && v.jobChan != []
    ensures v.workers == |s.reps[r].workers| > 0
  {
    ReachableInv(env, s);
    assert Bounded(s.reps[r]);
  }

  /** With no batch in hand a claim is shed exactly if it is neither buffered nor started. */
  lemma {:induction false} EveryClaimSettled(env: Env, r: ReplicaId, s: State, v: Locals)
    requires Matches(env, r, s, v) && s.reps[r].batch == []
    ensures var rep := s.reps[r];
            forall e :: e in rep.claimed ==> (e in rep.shed <==> e !in rep.started + QueueIds(rep.queue))
  {
    ReachableInv(env, s);
    var rep := s.reps[r];
    assert Fifo(rep) && Passed(rep) == rep.claimed;
    KeptIsSublist(rep.claimed, rep.shed);
  }

  /** What `Drain.ReturnedCleanly` says of the object. */
  lemma {:induction false} NothingLeft(env: Env, r: ReplicaId, s: State, v: Locals)
    requires Matches(env, r, s, v) && s.reps[r].phase == Returned
    ensures var rep := s.reps[r];
            && v.jobChan == [] && v.sends == map[]
            && NoDup(rep.claimed) && Kept(rep.claimed, rep.shed) == rep.started
            && (forall e :: e in rep.claimed <==> e in rep.done || e in rep.failed)
            && (forall e :: e in rep.claimed && e in v.db.execs ==>
                  (v.db.execs[e].status == Running <==> e in rep.failed && e !in s.recovered))
            && (forall n :: n in rep.created && n in v.db.notifs ==>
                  (v.db.notifs[n].status == Pending <==> n in rep.unsaved))
  {
    Drain.ReturnedCleanly(env, s, r);
    ReachableInv(env, s);
    assert Phased(s.reps[r]);
  }

  /** The readings of a clock that starts at `now` and never goes back. */
  function Reading(now: Time, at: nat -> Time, k: nat): Time {
    if k == 0 then now else Latest(Reading(now, at, k - 1), at(k))
  }

  lemma {:induction false} ReadingsRise(now: Time, at: nat -> Time, k: nat, l: nat)
    requires k <= l
    ensures Reading(now, at, k) <= Reading(now, at, l)
  {
    if k < l {
      ReadingsRise(now, at, k, l - 1);
    }
  }
}
