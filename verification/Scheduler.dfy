/** The scheduler as an object: `Run`, its tick loop, its workers and its shutdown over the
    repositories and the dispatcher. Every method is proved to take the system of module `System`
    along a run of it, so what holds of all runs holds of this code. What the clock, the
    executors, the network and the database decide is left open by `*`. */
module Scheduling {
  import opened Domain
  import opened Tables
  import opened Claiming
  import opened Replica
  import opened ReplicaInvariants
  import opened System
  import opened Repositories
  import opened Dispatching
  import opened SoloRuns
  import opened Refinement
  import opened Outcomes

  class Scheduler {
    const env: Env
    const id: ReplicaId
    const workers: nat
    const jobRepo: JobRepository
    const execRepo: ExecutionRepository
    const dispatcher: Dispatcher?
    var jobChan: seq<Claim>
    var now: Time
    var ctxDone: bool
    var nextExec: ExecId
    var nextNotif: NotifId
    ghost var s: State

    /** A new process in a system that has just launched it. */
    constructor (env: Env, id: ReplicaId, workers: nat, jobRepo: JobRepository, execRepo: ExecutionRepository,
                 dispatcher: Dispatcher?, now: Time, nextExec: ExecId, nextNotif: NotifId, ghost s: State)
      requires execRepo.pool == jobRepo.pool && env.dispatches == (dispatcher != null)
      requires dispatcher != null ==>
                 && dispatcher.chanRepo.pool == jobRepo.pool && dispatcher.Valid()
                 && dispatcher.notifiers == env.notifiers && dispatcher.sends == map[]
      requires id in s.reps && s.reps[id] == Fresh(workers)
      requires Matches(env, id, s, Locals(workers, [], now, false, jobRepo.pool.View(), map[], nextExec, nextNotif))
      ensures Valid() && this.s == s && jobChan == [] && !ctxDone && this.env == env && this.id == id
      ensures this.workers == workers && this.jobRepo == jobRepo && this.dispatcher == dispatcher
    {
      this.env, this.id, this.workers := env, id, workers;
      this.jobRepo, this.execRepo, this.dispatcher := jobRepo, execRepo, dispatcher;
      jobChan, this.now, ctxDone := [], now, false;
      this.nextExec, this.nextNotif, this.s := nextExec, nextNotif, s;
    }

    ghost function Held(): Locals
      reads this, jobRepo.pool, dispatcher
    {
      Locals(workers, jobChan, now, ctxDone, jobRepo.pool.View(),
             if dispatcher == null then map[] else dispatcher.sends, nextExec, nextNotif)
    }

    /** How the object is put together. */
    ghost predicate Wired()
      reads this, dispatcher
    {
      && execRepo.pool == jobRepo.pool && env.dispatches == (dispatcher != null)
      && (dispatcher != null ==>
            dispatcher.chanRepo.pool == jobRepo.pool && dispatcher.Valid() && dispatcher.notifiers == env.notifiers)
    }

    ghost predicate Valid()
      reads this, jobRepo.pool, dispatcher
    {
      Wired() && Matches(env, id, s, Held())
    }

    ghost function Rep(): Replica
      reads this
      requires id in s.reps
    {
      s.reps[id]
    }

    /** Worker `w` is at this stage of running `claim`. */
    ghost predicate Holding(w: nat, claim: Claim, stage: Stage)
      reads this
    {
      && id in s.reps && Alive(Rep()) && w < |Rep().workers| && Rep().workers[w].Busy?
      && Rep().workers[w].claim == claim && Rep().workers[w].stage == stage
    }

    // ------------------------------------------------------------ one execution

    /** The call of the executor with its time limit, and what is recorded of it. */
    method Execute(claim: Claim, wd: World) returns (exec: Terminal, timeout: int)
      modifies this`now
      ensures now == old(now) + wd.took && exec == ResultOf(env, claim, old(now), wd)
      ensures timeout == RunTimeout(claim.job) && timeout > 0
      ensures Judged(env.executors, claim.job.kind, wd.outcome, exec.status, exec.output, exec.error)
      ensures exec.durationMs == wd.took && exec.finishedAt == now
      ensures 0 < claim.job.timeoutSeconds <= MAX_INT32 ==> timeout == claim.job.timeoutSeconds * 1_000_000_000
      ensures -MAX_INT32 <= claim.job.timeoutSeconds <= 0 ==> timeout == 30_000_000_000
    {
      var job, start := claim.job, now;
      timeout := Wrapped(job.timeoutSeconds * NANOS_PER_SECOND);
      if timeout <= 0 {
        timeout := 30 * NANOS_PER_SECOND;
      }
      var status, output, error := Error, "", "";
      if job.kind !in env.executors {
        error := "unknown job type: " + job.kind;
      } else {
        match wd.outcome
        case Broken(message) => error := message;
        case Verdict(passed, text) =>
          status := if passed then Success else Failure;
          output := text;
      }
      now := now + wd.took;
      exec := Terminal(status, output, error, now - start, now);
    }

    /** The executor's verdict becomes the row's terminal status. */
    method Record(claim: Claim, wd: World) returns (exec: Terminal, failed: bool)
      requires execRepo.pool == jobRepo.pool
      modifies this`now, jobRepo.pool
      ensures exec == ResultOf(env, claim, old(now), wd) && failed == wd.saveFault
      ensures Held() == old(Held()).(now := old(now) + wd.took, db := jobRepo.pool.View())
      ensures jobRepo.pool.View() ==
                if failed then old(jobRepo.pool.View()) else UpdateExec(old(jobRepo.pool.View()), claim.execId, exec)
    {
      var timeout;
      exec, timeout := Execute(claim, wd);
      failed := execRepo.Update(claim.execId, exec, wd.saveFault);
    }

    method Save(w: nat, claim: Claim, wd: World) returns (exec: Terminal)
      requires Valid() && Holding(w, claim, Executing) && Rep().workers[w].startAt == now
      requires wd.outcome.Broken? ==> wd.outcome.message != ""
      modifies this`now, this`s, jobRepo.pool
      ensures Valid() && Leads(env, id, old(s), s)
      ensures exec == ResultOf(env, claim, old(now), wd) && now == old(now) + wd.took
      ensures jobRepo.pool.View() ==
                if wd.saveFault then old(jobRepo.pool.View())
                else UpdateExec(old(jobRepo.pool.View()), claim.execId, exec)
      ensures OnlyWork(old(Rep()), Rep(), w, old(Rep()).workers[w].(stage := Saved(exec.status, now)))
      ensures claim.execId in Rep().done + Rep().failed
    {
      ghost var wk, v := Rep().workers[w], Held();
      var failed;
      exec, failed := Record(claim, wd);
      ghost var v' := Held();
      s := RunningThenSaving(env, id, s, v, w, wk, wd, exec, failed, v');
      assert Held() == v';
    }

    /** The job row is overwritten from the claim, some time later. */
    method Overwrite(claim: Claim, exec: Terminal, wd: World) returns (job: Job, failed: bool)
      requires execRepo.pool == jobRepo.pool
      modifies this`now, jobRepo.pool
      ensures job == claim.job.(lastRunAt := Some(exec.finishedAt)) && failed == (wd.backFault || !Storable(job))
      ensures now == old(now) + wd.lag && Held() == old(Held()).(now := now, db := jobRepo.pool.View())
      ensures jobRepo.pool.View() ==
                if failed then old(jobRepo.pool.View()) else UpdateJob(old(jobRepo.pool.View()), job, now)
    {
      now := now + wd.lag;
      job := claim.job.(lastRunAt := Some(exec.finishedAt));
      failed := jobRepo.Update(job, now, wd.backFault);
    }

    method WriteBack(w: nat, claim: Claim, exec: Terminal, wd: World)
      requires Valid() && Holding(w, claim, Saved(exec.status, exec.finishedAt))
      modifies this`now, this`s, jobRepo.pool
      ensures Valid() && Leads(env, id, old(s), s) && now == old(now) + wd.lag
      ensures var job, t := claim.job.(lastRunAt := Some(exec.finishedAt)), old(jobRepo.pool.View());
              jobRepo.pool.View() == if wd.backFault || !Storable(job) then t else UpdateJob(t, job, now)
      ensures OnlyWork(old(Rep()), Rep(), w, old(Rep()).workers[w].(stage := WroteBack(exec.status)))
    {
      ghost var wk, v := Rep().workers[w], Held();
      var job, failed := Overwrite(claim, exec, wd);
      ghost var v' := Held();
      s := WaitingThenWriting(env, id, s, v, w, wk, wd.lag, job, failed, v');
      assert Held() == v';
    }

    /** Both writes of an execution; a failed one stops nothing. */
    method SaveResult(w: nat, claim: Claim, wd: World) returns (exec: Terminal)
      requires Valid() && Holding(w, claim, Executing) && Rep().workers[w].startAt == now
      requires wd.outcome.Broken? ==> wd.outcome.message != ""
      modifies this`now, this`s, jobRepo.pool
      ensures Valid() && Leads(env, id, old(s), s) && now == old(now) + wd.took + wd.lag
      ensures exec == ResultOf(env, claim, old(now), wd)
      ensures jobRepo.pool.View() == Written(env, old(jobRepo.pool.View()), claim, old(now), wd)
      ensures OnlyWork(old(Rep()), Rep(), w, old(Rep()).workers[w].(stage := WroteBack(exec.status)))
      ensures claim.execId in Rep().done + Rep().failed
    {
      ghost var a, t, start, rep := s, jobRepo.pool.View(), now, Rep();
      exec := Save(w, claim, wd);
      ghost var b, saved, rep' := s, jobRepo.pool.View(), Rep();
      WriteBack(w, claim, exec, wd);
      WrittenInTwo(env, t, saved, jobRepo.pool.View(), claim, start, wd, exec, now);
      LeadsOnward(env, id, a, b, s);
      OnlyWorkTwice(rep, rep', Rep(), w);
    }

    /** `dispatcher.Dispatch`, if there is a dispatcher and the job's condition asks for it. */
    method Notify(claim: Claim, status: ExecStatus, wd: World) returns (channels: seq<Channel>)
      requires Wired() && FreshIds(Supply(nextNotif), jobRepo.pool.notifs.Keys + Held().sends.Keys)
      requires forall c :: c in jobRepo.pool.chans ==> jobRepo.pool.chans[c].id == c
      modifies this`nextNotif, jobRepo.pool, dispatcher
      ensures Wired()
      ensures LookedUp(env, claim.job, status, wd.fetchFault, old(jobRepo.pool.chans), channels)
      ensures claim.job.condition == Malformed ==> channels == []
      ensures claim.job.condition == On("always") ==>
                Found(dispatcher != null, claim.job, wd.fetchFault, old(jobRepo.pool.chans), channels)
      ensures claim.job.condition == On("success") ==>
                Found(dispatcher != null && status == Success, claim.job, wd.fetchFault, old(jobRepo.pool.chans),
                      channels)
      ensures claim.job.condition == NoCondition
              || (claim.job.condition.On? && claim.job.condition.value !in {"success", "always"}) ==>
                Found(dispatcher != null && (status == Failure || status == Error), claim.job, wd.fetchFault,
                      old(jobRepo.pool.chans), channels)
      ensures Fanned(old(Held()).db, Held().db, old(Held()).sends, Held().sends, claim.execId, channels,
                     Supply(old(nextNotif)), wd.createFault)
      ensures AnnouncementMade(old(Held()), Held(), claim.execId, channels, wd.createFault)
    {
      ghost var v := Held();
      channels := [];
      if dispatcher != null && ShouldNotify(claim.job, status) {
        channels := Dispatch(claim, wd);
      } else {
        assert Held().sends + map[] == Held().sends;
      }
      LookedUpMeans(env, claim.job, status, wd.fetchFault, v.db.chans, channels);
      AnnouncedIsFanned(v.db, v.sends, claim.execId, channels, Supply(v.nextNotif), wd.createFault);
    }

    method Dispatch(claim: Claim, wd: World) returns (channels: seq<Channel>)
      requires Wired() && dispatcher != null
      requires FreshIds(Supply(nextNotif), jobRepo.pool.notifs.Keys + dispatcher.sends.Keys)
      requires forall c :: c in jobRepo.pool.chans ==> jobRepo.pool.chans[c].id == c
      modifies this`nextNotif, jobRepo.pool, dispatcher
      ensures Wired()
      ensures if claim.job.notifyChannels != [] && !wd.fetchFault
              then ChannelsOf(old(jobRepo.pool.chans), claim.job.notifyChannels, channels) else channels == []
      ensures AnnouncementMade(old(Held()), Held(), claim.execId, channels, wd.createFault)
    {
      channels := dispatcher.Dispatch(claim.job, claim.execId, Supply(nextNotif), wd.fetchFault, wd.createFault);
      nextNotif := nextNotif + |channels|;
    }

    method Announce(w: nat, claim: Claim, exec: Terminal, wd: World) returns (channels: seq<Channel>)
      requires Valid() && Holding(w, claim, WroteBack(exec.status))
      modifies this`nextNotif, this`s, jobRepo.pool, dispatcher
      ensures Valid() && Leads(env, id, old(s), s)
      ensures LookedUp(env, claim.job, exec.status, wd.fetchFault, old(jobRepo.pool.chans), channels)
      ensures Fanned(old(Held()).db, Held().db, old(Held()).sends, Held().sends, claim.execId, channels,
                     Supply(old(nextNotif)), wd.createFault)
      ensures jobRepo.pool.View() == Announced(old(jobRepo.pool.View()), claim.execId, channels, Supply(old(nextNotif)),
                                               wd.createFault, |channels|)
      ensures OnlyWork(old(Rep()), Rep(), w, Idle)
    {
      ghost var wk, v := Rep().workers[w], Held();
      SupplyIsFresh(env, id, s, v);
      channels := Notify(claim, exec.status, wd);
      ghost var v' := Held();
      s := AnnouncingIfWanted(env, id, s, v, w, wk, channels, wd.fetchFault, wd.createFault, v');
      assert Held() == v';
    }

    /** One whole execution: the terminal row first, then the job row written back from the claim,
        then the notifications of the result; a failed write stops nothing. */
    method ExecuteJob(w: nat, claim: Claim, wd: World) returns (exec: Terminal, channels: seq<Channel>)
      requires Valid() && Holding(w, claim, Executing) && Rep().workers[w].startAt == now
      requires wd.outcome.Broken? ==> wd.outcome.message != ""
      modifies this`now, this`nextNotif, this`s, jobRepo.pool, dispatcher
      ensures Valid() && Leads(env, id, old(s), s) && now == old(now) + wd.took + wd.lag
      ensures OnlyWork(old(Rep()), Rep(), w, Idle) && claim.execId in Rep().done + Rep().failed
      ensures exec == ResultOf(env, claim, old(now), wd)
      ensures LookedUp(env, claim.job, exec.status, wd.fetchFault, old(jobRepo.pool.chans), channels)
      ensures Told(env, old(Held()), Held(), claim, wd, exec, channels)
    {
      ghost var a, v, rep := s, Held(), Rep();
      exec := SaveResult(w, claim, wd);
      ghost var b, mid, rep' := s, Held(), Rep();
      assert mid.sends == v.sends && mid.nextNotif == v.nextNotif;
      channels := Announce(w, claim, exec, wd);
      LeadsOnward(env, id, a, b, s);
      OnlyWorkTwice(rep, rep', Rep(), w);
      ExecutionIsTold(env, v, mid.db, Held(), claim, wd, exec, channels);
    }

    /** Any worker from `from` on. */
    method Pick(from: nat) returns (w: nat)
      requires from < workers
      ensures from <= w < workers
    {
      var any: int := *;
      w := if from <= any < workers then any else from;
    }

    /** Whatever the executor, the database and the network do next. */
    method Fate() returns (wd: World)
      ensures wd.outcome.Broken? ==> wd.outcome.message != ""
    {
      wd := *;
      if wd.outcome.Broken? && wd.outcome.message == "" {
        wd := wd.(outcome := Verdict(false, ""));
      }
    }

    /** One turn of a worker's loop: receive the oldest claim and run it. */
    method Serve(w: nat)
      requires Valid() && jobChan != [] && At(s, id, w, Idle)
      modifies this`jobChan, this`now, this`nextNotif, this`s, jobRepo.pool, dispatcher
      ensures Valid() && Leads(env, id, old(s), s) && now >= old(now)
      ensures jobChan == old(jobChan)[1..]
      ensures Served(old(Rep()), Rep()) && Rep().started == old(Rep()).started + [old(jobChan)[0].execId]
    {
      ghost var a, v, rep := s, Held(), Rep();
      var claim := jobChan[0];
      jobChan := jobChan[1..];
      s := Received(env, id, s, v, w);
      ghost var b, rep' := s, Rep();
      assert rep' == rep.(workers := rep.workers[w := rep'.workers[w]], queue := rep'.queue,
                          started := rep.started + [claim.execId], starts := rep'.starts);
      var wd := Fate();
      var exec, channels := ExecuteJob(w, claim, wd);
      ghost var rep'' := Rep();
      ServedOnce(rep, rep', rep'', w, claim);
      LeadsOnward(env, id, a, b, s);
    }

    /** Some waiting worker, from `from` on, takes a turn. */
    method ServeAny(from: nat)
      requires Valid() && jobChan != [] && from < workers && Alive(Rep()) && AllIdle(Rep(), from)
      modifies this`jobChan, this`now, this`nextNotif, this`s, jobRepo.pool, dispatcher
      ensures Valid() && Leads(env, id, old(s), s) && now >= old(now)
      ensures jobChan == old(jobChan)[1..] && Served(old(Rep()), Rep())
      ensures Rep().started == old(Rep()).started + [old(jobChan)[0].execId]
    {
      var w := Pick(from);
      WorkerCount(env, id, s, Held());
      Serve(w);
    }

    // ------------------------------------------------------------ the tick loop

    method RecoverStaleRuns(fault: bool) returns (failed: bool)
      requires execRepo.pool == jobRepo.pool
      modifies jobRepo.pool
      ensures failed == fault && jobRepo.pool.View() == RecoveredTables(old(jobRepo.pool.View()), now, failed)
      ensures !failed ==> forall e :: e in jobRepo.pool.execs ==>
                e in old(jobRepo.pool.execs) &&
                var row := old(jobRepo.pool.execs)[e];
                jobRepo.pool.execs[e] ==
                  if row.status == Running && row.startedAt < now - 300_000
                  then row.(status := Error, error := "scheduler crashed or timed out", finishedAt := Some(now))
                  else row
    {
      var count;
      count, failed := execRepo.RecoverStaleRunning(now - STALE_RUNNING_AGE, now, fault);
    }

    method StartUp(fault: bool)
      requires Valid() && Rep().phase == Starting
      modifies this`s, jobRepo.pool
      ensures Valid() && Leads(env, id, old(s), s) && Rep() == old(Rep()).(phase := Up)
    {
      ghost var v := Held();
      var failed := RecoverStaleRuns(fault);
      ghost var t := jobRepo.pool.View();
      s := Recovering(env, id, s, v, t, failed);
      assert Held() == v.(db := t);
    }

    method MarkFailed(e: ExecId, reason: string, fault: bool)
      requires execRepo.pool == jobRepo.pool
      modifies jobRepo.pool
      ensures jobRepo.pool.View() == ShedTables(old(jobRepo.pool.View()), e, reason, now, fault)
      ensures if fault then jobRepo.pool.View() == old(jobRepo.pool.View())
              else RowShed(old(jobRepo.pool.View()), jobRepo.pool.View(), e, reason, now)
    {
      var failed := execRepo.Update(e, Terminal(Error, "", reason, 0, now), fault);
    }

    method Cancel()
      requires Valid() && Alive(Rep()) && !ctxDone
      modifies this`ctxDone, this`s
      ensures Valid() && Leads(env, id, old(s), s) && ctxDone && Rep() == old(Rep()).(ctxDone := true)
    {
      ghost var v := Held();
      ctxDone := true;
      ghost var v' := Held();
      s := Cancelling(env, id, s, v);
      assert Held() == v';
    }

    method Sleep(dt: nat)
      requires Valid()
      modifies this`now, this`s
      ensures Valid() && Leads(env, id, old(s), s) && now == old(now) + dt && Rep() == old(Rep())
    {
      ghost var v := Held();
      now := now + dt;
      s := Elapsing(env, id, s, v, dt);
    }

    method Send(claim: Claim)
      requires Valid() && Alive(Rep()) && Rep().batch != [] && Rep().batch[0] == claim && |jobChan| < 2 * workers
      modifies this`jobChan, this`s
      ensures Valid() && Leads(env, id, old(s), s) && jobChan == old(jobChan) + [claim]
      ensures Offered(old(Rep()), Rep(), claim.execId, true, now)
    {
      ghost var v := Held();
      jobChan := jobChan + [claim];
      s := Enqueueing(env, id, s, v);
    }

    method Shed(claim: Claim, onShutdown: bool, fault: bool)
      requires Valid() && Alive(Rep()) && Rep().batch != [] && Rep().batch[0] == claim
      requires if onShutdown then ctxDone else now >= Rep().waitSince + DISPATCH_TIMEOUT
      modifies this`s, jobRepo.pool
      ensures Valid() && Leads(env, id, old(s), s)
      ensures GivenUp(old(jobRepo.pool.View()), jobRepo.pool.View(), claim.execId, onShutdown, fault, now)
      ensures Offered(old(Rep()), Rep(), claim.execId, false, now)
    {
      ghost var v := Held();
      MarkFailed(claim.execId, Reason(onShutdown), fault);
      ghost var t := jobRepo.pool.View();
      s := Shedding(env, id, s, v, claim.execId, onShutdown, t, fault);
      assert Held() == v.(db := t);
    }

    /** The dispatch timeout, counted from `since`, runs out unless the context is done. */
    method AwaitTimer(cancelled: bool, since: Time)
      requires Valid()
      modifies this`now, this`s
      ensures Valid() && Leads(env, id, old(s), s) && Rep() == old(Rep())
      ensures now == if cancelled then old(now) else Latest(old(now), since + DISPATCH_TIMEOUT)
    {
      if cancelled {
        LeadsSelf(env, id, s);
      } else {
        Sleep(Latest(now, since + DISPATCH_TIMEOUT) - now);
      }
    }

    /** The claim is shed at once if the context is done, or else after the dispatch timeout. */
    method GiveUp(claim: Claim, cancelled: bool, fault: bool, since: Time)
      requires Valid() && Alive(Rep()) && Rep().batch != [] && Rep().batch[0] == claim
      requires Rep().waitSince <= since <= now && (cancelled ==> ctxDone)
      modifies this`now, this`s, jobRepo.pool
      ensures Valid() && Leads(env, id, old(s), s)
      ensures now == if cancelled then old(now) else Latest(old(now), since + DISPATCH_TIMEOUT)
      ensures GivenUp(old(jobRepo.pool.View()), jobRepo.pool.View(), claim.execId, cancelled, fault, now)
      ensures Offered(old(Rep()), Rep(), claim.execId, false, now)
    {
      ghost var a := s;
      AwaitTimer(cancelled, since);
      ghost var b := s;
      Shed(claim, cancelled, fault);
      LeadsOnward(env, id, a, b, s);
    }

    /** The `select` that hands a claim to the workers, begun at `since`. The channel takes it if
        it has room; otherwise the claim is shed, by cancellation or after the dispatch timeout, and
        in the latter case the write fails if the context is already done. */
    method Offer(claim: Claim, arm: Arm, fault: bool, since: Time) returns (sent: bool, cancelled: bool)
      requires Valid() && Alive(Rep()) && Rep().batch != [] && Rep().batch[0] == claim
      requires Rep().waitSince <= since <= now
      modifies this`jobChan, this`now, this`s, jobRepo.pool
      ensures Valid() && Leads(env, id, old(s), s)
      ensures sent == (arm == SendArm && |old(jobChan)| < 2 * workers)
      ensures cancelled == (!sent && arm != TimerArm && ctxDone)
      ensures jobChan == if sent then old(jobChan) + [claim] else old(jobChan)
      ensures now == if sent || cancelled then old(now) else Latest(old(now), since + DISPATCH_TIMEOUT)
      ensures GivenUp(old(jobRepo.pool.View()), jobRepo.pool.View(), claim.execId, cancelled,
                      sent || fault || (ctxDone && !cancelled), now)
      ensures Offered(old(Rep()), Rep(), claim.execId, sent, now)
    {
      sent := arm == SendArm && |jobChan| < 2 * workers;
      cancelled := !sent && arm != TimerArm && ctxDone;
      if sent {
        Send(claim);
      } else {
        var fails := fault || (ctxDone && !cancelled);
        GiveUp(claim, cancelled, fails, since);
      }
    }

    /** Between ticks: no batch in hand and every worker waiting for a claim. */
    ghost predicate Resting()
      reads this
    {
      id in s.reps && Rep().phase == Up && !Rep().execCancelled && AllIdle(Rep(), 0)
    }

    /** Meanwhile the workers run some of the claims buffered. */
    method WorkersGoOn()
      requires Valid() && Resting()
      modifies this`jobChan, this`now, this`nextNotif, this`s, jobRepo.pool, dispatcher
      ensures Valid() && Leads(env, id, old(s), s) && now >= old(now) && Served(old(Rep()), Rep())
    {
      ghost var a, rep := s, Rep();
      LeadsSelf(env, id, s);
      var turns: nat := *;
      while turns > 0 && jobChan != []
        invariant Valid() && Leads(env, id, a, s) && now >= old(now) && Served(rep, Rep())
      {
        ghost var b, rep' := s, Rep();
        SomeWorker(env, id, s, Held());
        ServeAny(0);
        LeadsOnward(env, id, a, b, s);
        ServedTwice(rep, rep', Rep());
        turns := turns - 1;
      }
    }

    method MayCancel()
      requires Valid() && Alive(Rep())
      modifies this`ctxDone, this`s
      ensures Valid() && Leads(env, id, old(s), s) && (old(ctxDone) ==> ctxDone)
      ensures Rep() == old(Rep()).(ctxDone := ctxDone)
    {
      LeadsSelf(env, id, s);
      var cancelled: bool := *;
      if cancelled && !ctxDone {
        Cancel();
      }
    }

    /** The claiming transaction: its claims, in due order, become the batch. */
    method ClaimBatch(clock: nat -> Time, fault: ClaimFault) returns (claims: seq<Claim>, failed: bool, rows: seq<Job>)
      requires Valid() && Rep().phase == Up && Rep().batch == [] && Monotone(clock) && clock(0) == now
      modifies this`now, this`nextExec, this`s, jobRepo.pool
      ensures Valid() && Leads(env, id, old(s), s) && now >= old(now)
      ensures failed ==> claims == [] && jobRepo.pool.View() == old(jobRepo.pool.View()) && Rep() == old(Rep())
      ensures (ctxDone ==> failed) && (fault.NoFault? && !ctxDone ==> !failed)
      ensures !failed ==>
                && EarliestDue(rows, old(jobRepo.pool.jobs), {}, clock(0), 2 * workers)
                && claims == LoopClaims(env.cron, clock, Supply(old(nextExec)), rows, |rows|)
                && jobRepo.pool.View() == ApplyClaims(old(jobRepo.pool.View()), claims, clock(0))
                && Rep() == old(Rep()).(batch := claims, waitSince := now, passed := 0,
                                        claimed := old(Rep()).claimed + ClaimIds(claims))
    {
      ghost var v := Held();
      JobsAreFiled(env, id, s, v);
      claims, failed, rows := AskDue(clock, fault);
      ghost var v' := Held();
      s := TakingIfClaimed(env, id, s, v, clock, rows, claims, failed, v');
      assert Held() == v';
    }

    method AskDue(clock: nat -> Time, fault: ClaimFault) returns (claims: seq<Claim>, failed: bool, rows: seq<Job>)
      requires forall j :: j in jobRepo.pool.jobs ==> jobRepo.pool.jobs[j].id == j
      modifies this`now, this`nextExec, jobRepo.pool
      ensures ClaimMade(env.cron, old(Held()), Held(), clock, rows, claims, failed)
      ensures (ctxDone ==> failed) && (fault.NoFault? && !ctxDone ==> !failed)
    {
      claims, failed, rows := jobRepo.ClaimDue(2 * workers, env.cron, clock, Supply(nextExec), {},
                                               if ctxDone then BeginFails else fault);
      if !failed {
        now := clock(|rows| + 1);
        nextExec := nextExec + |rows|;
      }
    }

    /** One turn of the loop over the claims. */
    method HandOver(claim: Claim)
      requires Valid() && Resting() && Rep().batch != [] && Rep().batch[0] == claim && Rep().waitSince <= now
      modifies this`jobChan, this`now, this`ctxDone, this`nextNotif, this`s, jobRepo.pool, dispatcher
      ensures Valid() && Leads(env, id, old(s), s) && Resting() && Rep().waitSince <= now
      ensures Rep().batch == old(Rep()).batch[1..] && Rep().claimed == old(Rep()).claimed
    {
      ghost var a := s;
      var since := now;
      WorkersGoOn();
      ghost var b := s;
      MayCancel();
      LeadsOnward(env, id, a, b, s);
      ghost var c := s;
      var arm: Arm := *;
      var fault: bool := *;
      var sent, cancelled := Offer(claim, arm, fault, since);
      LeadsOnward(env, id, a, c, s);
    }

    method HandOverAll(claims: seq<Claim>)
      requires Valid() && Resting() && Rep().batch == claims && (claims != [] ==> Rep().waitSince <= now)
      modifies this`jobChan, this`now, this`ctxDone, this`nextNotif, this`s, jobRepo.pool, dispatcher
      ensures Valid() && Leads(env, id, old(s), s) && Resting() && Rep().batch == []
      ensures Rep().claimed == old(Rep()).claimed
      ensures claims == [] ==> jobRepo.pool.View() == old(jobRepo.pool.View()) && Rep() == old(Rep())
    {
      if claims == [] {
        LeadsSelf(env, id, s);
      } else {
        HandOverSome(claims);
      }
    }

    method HandOverSome(claims: seq<Claim>)
      requires Valid() && Resting() && Rep().batch == claims && Rep().waitSince <= now
      modifies this`jobChan, this`now, this`ctxDone, this`nextNotif, this`s, jobRepo.pool, dispatcher
      ensures Valid() && Leads(env, id, old(s), s) && Resting() && Rep().batch == []
      ensures Rep().claimed == old(Rep()).claimed
    {
      ghost var a, claimed := s, Rep().claimed;
      LeadsSelf(env, id, s);
      var i := 0;
      while i < |claims|
        invariant 0 <= i <= |claims| && Valid() && Leads(env, id, a, s) && Resting()
        invariant Rep().waitSince <= now && Rep().batch == claims[i..] && Rep().claimed == claimed
      {
        ghost var b := s;
        Rest(claims, i);
        HandOver(claims[i]);
        LeadsOnward(env, id, a, b, s);
        i := i + 1;
      }
    }

    /** Claims what is due and deals with every claim, in order: it is buffered or run, or shed. */
    method Tick(clock: nat -> Time, fault: ClaimFault) returns (claims: seq<Claim>, failed: bool, rows: seq<Job>)
      requires Valid() && Resting() && Rep().batch == [] && Monotone(clock) && clock(0) == now
      modifies this, jobRepo.pool, dispatcher
      ensures Valid() && Leads(env, id, old(s), s) && Resting() && Rep().batch == []
      ensures (old(ctxDone) ==> failed) && (fault.NoFault? && !old(ctxDone) ==> !failed)
      ensures failed ==> claims == [] && jobRepo.pool.View() == old(jobRepo.pool.View()) && Rep() == old(Rep())
      ensures !failed ==>
                && EarliestDue(rows, old(jobRepo.pool.jobs), {}, clock(0), 2 * workers)
                && claims == LoopClaims(env.cron, clock, Supply(old(nextExec)), rows, |rows|)
      ensures Rep().claimed == old(Rep()).claimed + ClaimIds(claims)
      ensures forall e :: e in ClaimIds(claims) ==> (e in Rep().shed <==> e !in Rep().started + QueueIds(Rep().queue))
    {
      ghost var a := s;
      claims, failed, rows := ClaimBatch(clock, fault);
      ghost var b := s;
      HandOverAll(claims);
      LeadsOnward(env, id, a, b, s);
      EveryClaimSettled(env, id, s, Held());
    }

    // ------------------------------------------------------------ starting and stopping

    /** The channel is closed and the workers before `w` are gone. */
    ghost predicate Stopping(w: nat)
      reads this
    {
      && id in s.reps && Rep().phase == Draining && w <= |Rep().workers| && AllIdle(Rep(), w)
      && forall x :: 0 <= x < w ==> Rep().workers[x].Exited?
    }

    /** A worker's loop over the closed channel, other workers receiving from it too: it leaves once
        the channel is empty, and every claim that was buffered has been started, in order. */
    method Worker(w: nat)
      requires Valid() && Stopping(w) && w < workers
      modifies this`jobChan, this`now, this`nextNotif, this`s, jobRepo.pool, dispatcher
      ensures Valid() && Leads(env, id, old(s), s) && Stopping(w + 1) && jobChan == []
      ensures Rep().execCancelled == old(Rep()).execCancelled
      ensures Rep().started == old(Rep()).started + ClaimIds(old(jobChan))
    {
      ghost var a := s;
      ServeAll(w);
      ghost var b := s;
      Leave(w);
      LeadsOnward(env, id, a, b, s);
    }

    /** The channel is emptied, each claim going to `w` or to another worker that is still there. */
    method ServeAll(w: nat)
      requires Valid() && w < workers && At(s, id, w, Idle) && AllIdle(Rep(), w)
      modifies this`jobChan, this`now, this`nextNotif, this`s, jobRepo.pool, dispatcher
      ensures Valid() && Leads(env, id, old(s), s) && Served(old(Rep()), Rep()) && jobChan == []
      ensures Rep().started == old(Rep()).started + ClaimIds(old(jobChan))
    {
      ghost var a, rep, chan, n := s, Rep(), jobChan, 0;
      LeadsSelf(env, id, s);
      while jobChan != []
        invariant Valid() && Leads(env, id, a, s) && Served(rep, Rep())
        invariant 0 <= n <= |chan| && jobChan == chan[n..] && Rep().started == rep.started + ClaimIds(chan[..n])
        decreases |jobChan|
      {
        ghost var b, rep' := s, Rep();
        ServeAny(w);
        LeadsOnward(env, id, a, b, s);
        ServedTwice(rep, rep', Rep());
        Rest(chan, n);
        OneMore(rep.started, chan, n);
        n := n + 1;
      }
      assert chan[..n] == chan;
    }

    method Leave(w: nat)
      requires Valid() && Stopping(w) && w < workers && jobChan == []
      modifies this`s
      ensures Valid() && Leads(env, id, old(s), s) && Stopping(w + 1)
      ensures Rep().started == old(Rep()).started && Rep().execCancelled == old(Rep()).execCancelled
    {
      s := Leaving(env, id, s, Held(), w);
    }

    method Clock() returns (clock: nat -> Time)
      ensures Monotone(clock) && clock(0) == now
    {
      var start := now;
      var at: nat -> Time := *;
      clock := (k: nat) => Reading(start, at, k);
      forall k: nat, l: nat | k <= l ensures clock(k) <= clock(l) {
        ReadingsRise(start, at, k, l);
      }
    }

    /** The dispatch loop: at most `ticks` ticks until the context is done. */
    method DispatchLoop(ticks: nat)
      requires Valid() && Resting() && Rep().batch == []
      modifies this, jobRepo.pool, dispatcher
      ensures Valid() && Leads(env, id, old(s), s) && Resting() && Rep().batch == [] && ctxDone
    {
      ghost var a := s;
      LeadsSelf(env, id, s);
      var k := 0;
      while !ctxDone && k < ticks
        invariant Valid() && Leads(env, id, a, s) && Resting() && Rep().batch == []
      {
        ghost var b := s;
        OneInterval();
        LeadsOnward(env, id, a, b, s);
        k := k + 1;
      }
      if !ctxDone {
        ghost var b := s;
        Cancel();
        LeadsOnward(env, id, a, b, s);
      }
    }

    method OneInterval()
      requires Valid() && Resting() && Rep().batch == []
      modifies this, jobRepo.pool, dispatcher
      ensures Valid() && Leads(env, id, old(s), s) && Resting() && Rep().batch == []
    {
      ghost var a := s;
      var dt: int := *;
      Sleep(if dt < 0 then 0 else dt);
      ghost var b := s;
      MayCancel();
      LeadsOnward(env, id, a, b, s);
      ghost var c := s;
      var clock := Clock();
      var fault: ClaimFault := *;
      var claims, failed, rows := Tick(clock, fault);
      LeadsOnward(env, id, a, c, s);
    }

    method CloseChannel()
      requires Valid() && Resting() && Rep().batch == [] && ctxDone
      modifies this`s
      ensures Valid() && Leads(env, id, old(s), s) && Stopping(0) && !Rep().execCancelled
    {
      s := Closing(env, id, s, Held());
    }

    method CancelExecutions(w: nat)
      requires Valid() && Stopping(w) && !Rep().execCancelled
      modifies this`s
      ensures Valid() && Leads(env, id, old(s), s) && Stopping(w)
    {
      s := Expiring(env, id, s, Held());
    }

    /** Waits for the workers, cancelling their executions if the grace period ends before. */
    method AwaitWorkers()
      requires Valid() && Stopping(0) && !Rep().execCancelled
      modifies this`jobChan, this`now, this`nextNotif, this`s, jobRepo.pool, dispatcher
      ensures Valid() && Leads(env, id, old(s), s) && Stopping(workers)
    {
      ghost var a := s;
      LeadsSelf(env, id, s);
      var w, grace: int := 0, *;
      while w < workers
        invariant 0 <= w <= workers && Valid() && Leads(env, id, a, s) && Stopping(w)
        invariant w <= grace ==> !Rep().execCancelled
      {
        ghost var b := s;
        if w == grace {
          CancelExecutions(w);
          LeadsOnward(env, id, a, b, s);
        }
        ghost var c := s;
        Worker(w);
        LeadsOnward(env, id, a, c, s);
        w := w + 1;
      }
    }

    method WorkersAreGone()
      requires Valid() && Stopping(workers)
      modifies this`s
      ensures Valid() && Leads(env, id, old(s), s) && Rep().phase == AwaitingSends
    {
      s := AllLeft(env, id, s, Held());
    }

    method AwaitNotifications()
      requires Valid() && Rep().phase == AwaitingSends
      modifies this`s, jobRepo.pool, dispatcher
      ensures Valid() && Leads(env, id, old(s), s) && Rep().phase == AwaitingSends && Held().sends == map[]
    {
      if dispatcher == null {
        LeadsSelf(env, id, s);
      } else {
        AwaitSends();
      }
    }

    method AwaitSends()
      requires Valid() && Rep().phase == AwaitingSends && dispatcher != null
      modifies this`s, jobRepo.pool, dispatcher
      ensures Valid() && Leads(env, id, old(s), s) && Rep().phase == AwaitingSends && dispatcher.sends == map[]
    {
      ghost var v := Held();
      var ends: NotifId -> Ending := *;
      WaitForSends(ends);
      ghost var t := jobRepo.pool.View();
      s := FinishingSends(env, id, s, v, t, ends);
      assert Held() == v.(db := t, sends := map[]);
    }

    method WaitForSends(ends: NotifId -> Ending)
      requires Wired() && dispatcher != null
      modifies jobRepo.pool, dispatcher
      ensures Wired() && dispatcher.sends == map[]
      ensures Held() == old(Held()).(db := jobRepo.pool.View(), sends := map[])
      ensures Ended(old(jobRepo.pool.View()), jobRepo.pool.View(), env.notifiers, old(dispatcher.sends), map[], ends,
                    now)
    {
      dispatcher.Wait(ends, now);
    }

    method ReturnNow()
      requires Valid() && Rep().phase == AwaitingSends && Held().sends == map[]
      modifies this`s
      ensures Valid() && Leads(env, id, old(s), s) && Rep().phase == Returned
    {
      s := Returning(env, id, s, Held());
    }

    method Start(ticks: nat)
      requires Valid() && !ctxDone && Rep() == Fresh(workers)
      modifies this, jobRepo.pool, dispatcher
      ensures Valid() && Leads(env, id, old(s), s) && Stopping(0) && !Rep().execCancelled
    {
      ghost var a := s;
      var fault: bool := *;
      StartUp(fault);
      ghost var b := s;
      DispatchLoop(ticks);
      LeadsOnward(env, id, a, b, s);
      ghost var c := s;
      CloseChannel();
      LeadsOnward(env, id, a, c, s);
    }

    method Stop()
      requires Valid() && Stopping(0) && !Rep().execCancelled
      modifies this`jobChan, this`now, this`nextNotif, this`s, jobRepo.pool, dispatcher
      ensures Valid() && Leads(env, id, old(s), s) && Rep().phase == Returned
    {
      ghost var a := s;
      AwaitWorkers();
      ghost var b := s;
      WorkersAreGone();
      LeadsOnward(env, id, a, b, s);
      ghost var c := s;
      AwaitNotifications();
      LeadsOnward(env, id, a, c, s);
      ghost var d := s;
      ReturnNow();
      LeadsOnward(env, id, a, d, s);
    }

    /** From start to return: the whole of it is a run of the system in which this process alone
        moves, and at return every claim it ever made was started or shed, once, in order; its rows
        still `running` are those whose terminal write failed, and its pending notifications those
        whose status write failed. */
    method Run(ticks: nat)
      requires Valid() && !ctxDone && Rep() == Fresh(workers)
      modifies this, jobRepo.pool, dispatcher
      ensures Valid() && Leads(env, id, old(s), s) && Rep().phase == Returned
      ensures jobChan == [] && (dispatcher != null ==> dispatcher.wg == 0)
      ensures NoDup(Rep().claimed) && Kept(Rep().claimed, Rep().shed) == Rep().started
      ensures forall e :: e in Rep().claimed <==> e in Rep().done || e in Rep().failed
      ensures forall e :: e in Rep().claimed && e in jobRepo.pool.execs ==>
                (jobRepo.pool.execs[e].status == Running <==> e in Rep().failed && e !in s.recovered)
      ensures forall n :: n in Rep().created && n in jobRepo.pool.notifs ==>
                (jobRepo.pool.notifs[n].status == Pending <==> n in Rep().unsaved)
    {
      ghost var a := s;
      Start(ticks);
      ghost var b := s;
      Stop();
      LeadsOnward(env, id, a, b, s);
      NothingLeft(env, id, s, Held());
    }
  }
}
