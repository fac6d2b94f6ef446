/** Where a notification comes from: the claim, the verdict and the channels behind it. */
module Provenance {
  import opened Domain
  import opened Tables
  import opened Replica
  import opened ReplicaInvariants
  import opened System
  import opened Ownership
  import opened Invariant
  import opened Guarantees
  import opened Answers

  // ---------------------------------------------------------------- verdicts

  /** The terminal write of `e` was attempted, and if it succeeded the row still says `status`. */
  ghost predicate Recorded(s: State, rep: Replica, e: ExecId, status: ExecStatus) {
    && e in rep.done + rep.failed
    && (e in rep.done && e in s.db.execs ==> s.db.execs[e].status == status)
  }

  /** The status a worker carries to its notifications is the one it recorded. */
  ghost predicate WorkerTells(s: State, rep: Replica, wk: Worker) {
    wk.Busy? ==>
      match wk.stage
      case Saved(status, _) => Recorded(s, rep, wk.claim.execId, status)
      case WroteBack(status) => Recorded(s, rep, wk.claim.execId, status)
      case _ => true
  }

  ghost predicate Lists(job: Job, targets: seq<Channel>) {
    forall i :: 0 <= i < |targets| ==> targets[i].id in job.notifyChannels
  }

  /** A look-up was for the claim of its execution, after its verdict was recorded. */
  ghost predicate FetchTells(s: State, r: ReplicaId, rep: Replica, e: ExecId, f: Fetch) {
    && e in s.tickets && s.tickets[e].rep == r && f.job == s.tickets[e].claim.job
    && Lists(f.job, f.targets) && Recorded(s, rep, e, f.status)
  }

  ghost predicate RepTells(s: State, r: ReplicaId, rep: Replica) {
    && (forall w :: 0 <= w < |rep.workers| ==> WorkerTells(s, rep, rep.workers[w]))
    && (forall e :: e in rep.fetched ==> FetchTells(s, r, rep, e, rep.fetched[e]))
  }

  ghost predicate Told(s: State) {
    forall r :: r in s.reps ==> RepTells(s, r, s.reps[r])
  }

  lemma {:induction false} CommitSparesRows(env: Env, s: State, q: ReplicaId, e: ExecId)
    requires Enabled(env, s, Do(q, Tick(Commit))) && TxIdsOk(s) && e in s.tickets && e in s.db.execs
    ensures var execs' := ApplyClaims(s.db, s.reps[q].tx.claims, s.reps[q].tx.at).execs;
            e in execs' && execs'[e] == s.db.execs[e]
  {
    assert CanTick(s.now, s.reps[q], Commit);
    ApplyClaimsExecs(s.db, s.reps[q].tx.claims, s.reps[q].tx.at);
  }

  /** Nobody settles what is settled. */
  lemma {:induction false} DoneIsSettled(s: State, q: ReplicaId, act: Act, r: ReplicaId, e: ExecId)
    requires AllLocal(s) && HeldOk(s) && q in s.reps && CanAct(s.now, s.reps[q], act)
    requires r in s.reps && e in s.reps[r].done && e in s.tickets && s.tickets[e].rep == r
    ensures Settles(s.reps[q], act) != Some(e)
  {
    assert LocalOk(s.reps[q]);
    if Settles(s.reps[q], act).Some? {
      SettledIsOwned(s, q, act);
    }
  }

  lemma {:induction false} DoneIsTicketed(s: State, r: ReplicaId, e: ExecId)
    requires AllLocal(s) && IdsOk(s) && ExecsOk(s) && r in s.reps && e in s.reps[r].done && e in s.db.execs
    ensures e in s.tickets && s.tickets[e].rep == r && s.db.execs[e].status != Running
  {
    assert ExecOk(s, e) && LocalOk(s.reps[r]);
    PlacedOnce(s.reps[r], e);
  }

  /** The row of an execution whose terminal write succeeded never changes again. */
  lemma {:induction false} DoneRowStays(env: Env, s: State, q: ReplicaId, act: Act, r: ReplicaId, e: ExecId)
    requires AllLocal(s) && IdsOk(s) && HeldOk(s) && ExecsOk(s) && Enabled(env, s, Do(q, act))
    requires r in s.reps && e in s.reps[r].done && e in s.db.execs
    ensures e in DoDb(env, s, q, act).execs && DoDb(env, s, q, act).execs[e] == s.db.execs[e]
  {
    DoneIsTicketed(s, r, e);
    if act == Tick(Commit) {
      CommitSparesRows(env, s, q, e);
    } else {
      DoneIsSettled(s, q, act, r, e);
      OtherRowsKept(env, s, q, act, e);
    }
  }

  lemma {:induction false} OtherRowsKept(env: Env, s: State, r: ReplicaId, act: Act, e: ExecId)
    requires Enabled(env, s, Do(r, act)) && act != Tick(Commit) && Settles(s.reps[r], act) != Some(e)
    requires e in s.db.execs && s.db.execs[e].status != Running
    ensures e in DoDb(env, s, r, act).execs && DoDb(env, s, r, act).execs[e] == s.db.execs[e]
  {
    ExecsAfter(env, s, r, act);
  }

  /** What a process tells stays true while it rests, whoever moves. */
  ghost predicate RowsStay(s: State, s': State, rep: Replica) {
    && (forall e :: e in rep.done && e in s'.db.execs ==> e in s.db.execs && s'.db.execs[e] == s.db.execs[e])
    && (forall e :: e in s.tickets ==> e in s'.tickets && s'.tickets[e] == s.tickets[e])
  }

  lemma {:induction false} RestingTells(s: State, s': State, r: ReplicaId, rep: Replica)
    requires RepTells(s, r, rep) && RowsStay(s, s', rep)
    ensures RepTells(s', r, rep)
  {
    forall w | 0 <= w < |rep.workers|
      ensures WorkerTells(s', rep, rep.workers[w])
    {
      assert WorkerTells(s, rep, rep.workers[w]);
    }
    forall e | e in rep.fetched
      ensures FetchTells(s', r, rep, e, rep.fetched[e])
    {
      assert FetchTells(s, r, rep, e, rep.fetched[e]);
    }
  }

  lemma {:induction false} StepRowsStay(env: Env, s: State, step: Step, r: ReplicaId)
    requires Inv(env, s) && Enabled(env, s, step) && r in s.reps
    ensures RowsStay(s, After(env, s, step), s.reps[r])
  {
    var s' := After(env, s, step);
    forall e | e in s.tickets
      ensures e in s'.tickets && s'.tickets[e] == s.tickets[e]
    {
      TicketsStay(env, s, step, e);
    }
    forall e | e in s.reps[r].done && e in s'.db.execs
      ensures e in s.db.execs && s'.db.execs[e] == s.db.execs[e]
    {
      DoneHasTicket(s, r, e);
      RowsAppear(env, s, step, e);
      if step.Do? {
        DoneRowStays(env, s, step.r, step.act, r, e);
      } else if !step.Launch? {
        ServiceFrame(env, s, step);
      }
    }
  }

  lemma {:induction false} DoneHasTicket(s: State, r: ReplicaId, e: ExecId)
    requires AllLocal(s) && IdsOk(s) && r in s.reps && e in s.reps[r].done
    ensures e in s.tickets && s.tickets[e].rep == r
  {
    assert LocalOk(s.reps[r]);
    PlacedOnce(s.reps[r], e);
  }

  // ---------------------------------------------------------------- a step of the process itself

  /** `rep'` attempted at most one more terminal write, of an execution that had none. */
  ghost predicate SettledMore(rep: Replica, rep': Replica) {
    && rep.done <= rep'.done && rep.failed <= rep'.failed
    && (forall e :: e in rep.done + rep.failed ==> (e in rep'.done <==> e in rep.done))
  }

  lemma {:induction false} MovedTells(s: State, r: ReplicaId, rep: Replica, rep': Replica, w: nat, wk: Worker)
    requires RepTells(s, r, rep) && SettledMore(rep, rep')
    requires rep'.workers == rep.workers || (w < |rep.workers| && rep'.workers == rep.workers[w := wk])
    requires rep'.workers != rep.workers ==> WorkerTells(s, rep', wk)
    requires forall e :: e in rep'.fetched ==>
               (e in rep.fetched && rep'.fetched[e] == rep.fetched[e]) || FetchTells(s, r, rep', e, rep'.fetched[e])
    ensures RepTells(s, r, rep')
  {
    forall v | 0 <= v < |rep'.workers|
      ensures WorkerTells(s, rep', rep'.workers[v])
    {
      assert WorkerTells(s, rep, rep.workers[v]);
    }
    forall e | e in rep'.fetched
      ensures FetchTells(s, r, rep', e, rep'.fetched[e])
    {
      if e in rep.fetched && rep'.fetched[e] == rep.fetched[e] {
        assert FetchTells(s, r, rep, e, rep.fetched[e]);
      }
    }
  }

  lemma {:induction false} DoSettles(env: Env, s: State, r: ReplicaId, act: Act)
    requires Inv(env, s) && Enabled(env, s, Do(r, act))
    ensures SettledMore(s.reps[r], Next(env, s.now, s.reps[r], act))
  {
    var rep, rep' := s.reps[r], Next(env, s.now, s.reps[r], act);
    assert LocalOk(rep);
    DoKeepsLocal(env, s, r, act);
    DoneAfter(env, s.now, rep, act);
    FailedAfter(env, s.now, rep, act);
    forall e | e in rep.done + rep.failed
      ensures e in rep'.done <==> e in rep.done
    {
      PlacedOnce(rep, e);
      PlacedOnce(rep', e);
    }
  }

  lemma {:induction false} FailedAfter(env: Env, now: Time, rep: Replica, act: Act)
    requires CanAct(now, rep, act)
    ensures rep.failed <= Next(env, now, rep, act).failed
  {
    match act
    case Tick(t) => assert rep.failed <= TickNext(env, now, rep, t).failed;
    case Work(w, a) => assert rep.failed <= WorkNext(env, now, rep, w, a).failed;
    case _ =>
  }

  lemma {:induction false} ControlFrame(env: Env, now: Time, rep: Replica, act: Act)
    requires CanAct(now, rep, act) && !act.Tick? && !act.Work?
    ensures Next(env, now, rep, act).workers == rep.workers && Next(env, now, rep, act).fetched == rep.fetched
  {
  }

  lemma {:induction false} WorkerMoves(env: Env, now: Time, rep: Replica, w: nat, a: WorkAct)
    requires w < |rep.workers| && CanWork(rep, rep.workers[w], a)
    ensures var rep', wk := WorkNext(env, now, rep, w, a), rep.workers[w];
            && rep'.workers == rep.workers[w := WorkerNext(env, now, rep, wk, a)]
            && rep'.fetched == (if Fetches(env, wk, a)
                                then rep.fetched[wk.claim.execId := Fetch(wk.claim.job, wk.stage.status, a.targets)]
                                else rep.fetched)
  {
  }

  /** The worker that finishes a run tells the verdict it wrote. */
  lemma {:induction false} FinishTells(env: Env, s: State, r: ReplicaId, w: nat, outcome: Outcome, ok: bool)
    requires Inv(env, s) && Enabled(env, s, Do(r, Work(w, Finish(outcome, ok))))
    ensures var s', rep := After(env, s, Do(r, Work(w, Finish(outcome, ok)))), s.reps[r];
            WorkerTells(s', Next(env, s.now, rep, Work(w, Finish(outcome, ok))),
                        WorkerNext(env, s.now, rep, rep.workers[w], Finish(outcome, ok)))
  {
    var act, rep := Work(w, Finish(outcome, ok)), s.reps[r];
    var rep', e := Next(env, s.now, rep, act), rep.workers[w].claim.execId;
    assert LocalOk(rep);
    SettledIsOwned(s, r, act);
    DoKeepsLocal(env, s, r, act);
    PlacedOnce(rep', e);
    assert e in rep'.done + rep'.failed && (ok <==> e in rep'.done);
    assert DoDb(env, s, r, act) == WorkDb(env, s, rep, rep.workers[w], Finish(outcome, ok));
  }

  lemma {:induction false} FetchIsTold(env: Env, s: State, r: ReplicaId, w: nat, targets: seq<Channel>)
    requires Inv(env, s) && Enabled(env, s, Do(r, Work(w, FetchChannels(targets, true))))
    requires WorkerTells(s, s.reps[r], s.reps[r].workers[w])
    ensures var wk := s.reps[r].workers[w];
            FetchTells(s, r, s.reps[r], wk.claim.execId, Fetch(wk.claim.job, wk.stage.status, targets))
  {
    var c := s.reps[r].workers[w].claim;
    assert InHands(s.reps[r].workers, c) && Holds(s.reps[r], c);
    assert ChannelsOf(s.db.chans, c.job.notifyChannels, targets);
  }

  lemma {:induction false} TellsLater(s: State, s': State, r: ReplicaId, rep: Replica, rep': Replica, e: ExecId,
        f: Fetch)
    requires FetchTells(s, r, rep, e, f) && RowsStay(s, s', rep) && SettledMore(rep, rep')
    ensures FetchTells(s', r, rep', e, f)
  {
  }

  lemma {:induction false} StageTells(env: Env, s: State, s': State, rep: Replica, rep': Replica, wk: Worker,
        a: WorkAct)
    requires CanWork(rep, wk, a) && WorkerTells(s', rep, wk) && SettledMore(rep, rep') && !a.Finish?
    ensures WorkerTells(s', rep', WorkerNext(env, s.now, rep, wk, a))
  {
  }

  lemma {:induction false} WorkTells(env: Env, s: State, r: ReplicaId, w: nat, a: WorkAct)
    requires Inv(env, s) && Enabled(env, s, Do(r, Work(w, a))) && RepTells(s, r, s.reps[r])
    ensures RepTells(After(env, s, Do(r, Work(w, a))), r, Next(env, s.now, s.reps[r], Work(w, a)))
  {
    var act, rep, wk := Work(w, a), s.reps[r], s.reps[r].workers[w];
    var s', rep' := After(env, s, Do(r, act)), Next(env, s.now, rep, act);
    StepRowsStay(env, s, Do(r, act), r);
    RestingTells(s, s', r, rep);
    DoSettles(env, s, r, act);
    WorkerMoves(env, s.now, rep, w, a);
    var wk' := WorkerNext(env, s.now, rep, wk, a);
    assert WorkerTells(s', rep, wk) && WorkerTells(s, rep, wk);
    if a.Finish? {
      FinishTells(env, s, r, w, a.outcome, a.ok);
    } else {
      StageTells(env, s, s', rep, rep', wk, a);
    }
    if Fetches(env, wk, a) {
      FetchIsTold(env, s, r, w, a.targets);
      TellsLater(s, s', r, rep, rep', wk.claim.execId, Fetch(wk.claim.job, wk.stage.status, a.targets));
    }
    MovedTells(s', r, rep, rep', w, wk');
  }

  lemma {:induction false} DoTells(env: Env, s: State, r: ReplicaId, act: Act)
    requires Inv(env, s) && Enabled(env, s, Do(r, act)) && RepTells(s, r, s.reps[r])
    ensures RepTells(After(env, s, Do(r, act)), r, Next(env, s.now, s.reps[r], act))
  {
    if act.Work? {
      WorkTells(env, s, r, act.w, act.a);
    } else {
      var rep, rep' := s.reps[r], Next(env, s.now, s.reps[r], act);
      StepRowsStay(env, s, Do(r, act), r);
      RestingTells(s, After(env, s, Do(r, act)), r, rep);
      DoSettles(env, s, r, act);
      if act.Tick? {
        assert LocalOk(rep);
        TickSameRuns(env, s.now, rep, act.t);
      } else {
        ControlFrame(env, s.now, rep, act);
      }
      MovedTells(After(env, s, Do(r, act)), r, rep, rep', 0, Idle);
    }
  }

  lemma {:induction false} StepTells(env: Env, s: State, step: Step)
    requires Inv(env, s) && Told(s) && Enabled(env, s, step)
    ensures Told(After(env, s, step))
  {
    forall r | r in After(env, s, step).reps
      ensures RepTells(After(env, s, step), r, After(env, s, step).reps[r])
    {
      if step.Do? && step.r == r {
        DoTells(env, s, r, step.act);
      } else if r in s.reps {
        OthersKeepRep(env, s, step, r);
        StepRowsStay(env, s, step, r);
        RestingTells(s, After(env, s, step), r, s.reps[r]);
      }
    }
  }

  lemma {:induction false} RunTells(env: Env, s: State, steps: seq<Step>)
    requires Inv(env, s) && Told(s) && Run(env, s, steps)
    ensures Told(End(env, s, steps))
    decreases steps
  {
    if steps != [] {
      StepTells(env, s, steps[0]);
      StepKeepsInv(env, s, steps[0]);
      RunTells(env, After(env, s, steps[0]), steps[1..]);
    }
  }

  // ---------------------------------------------------------------- the theorem

  lemma {:induction false} ReachableTold(env: Env, s: State)
    requires Reachable(env, s)
    ensures Told(s)
  {
    var steps :| Run(env, INIT, steps) && End(env, INIT, steps) == s;
    InitInv(env);
    RunTells(env, INIT, steps);
  }

  /** Channel `c` was listed by the job of fetch `f` and enabled in `m`, where it was looked up. */
  ghost predicate ListedAndEnabled(env: Env, m: State, s: State, r: ReplicaId, e: ExecId, f: Fetch, c: ChannelId) {
    Looked(env, m, s, r, e, f) && c in f.job.notifyChannels && c in m.db.chans && m.db.chans[c].enabled
  }

  /** A notification was created by the process that claimed its execution and ran it without
      shedding it; the claimed job's condition held for the verdict, which the execution's row still
      shows unless its terminal write failed; and when the channels were looked up, the job's list
      had the channel and the channel was enabled. */
  lemma {:induction false} NotificationProvenance(env: Env, s: State, n: NotifId)
    requires Reachable(env, s) && n in s.db.notifs
    ensures var e, c := s.db.notifs[n].executionId, s.db.notifs[n].channelId;
            && e in s.tickets && n in s.notifIds && s.notifIds[n] == s.tickets[e].rep && s.tickets[e].rep in s.reps
            && var rep, job := s.reps[s.tickets[e].rep], s.tickets[e].claim.job;
               && e in rep.started && e !in rep.shed && e in rep.fetched
               && var f := rep.fetched[e];
                  && f.job == job && ShouldNotify(job, f.status)
                  && e in s.db.execs && e in rep.done + rep.failed
                  && (e in rep.done ==> s.db.execs[e].status == f.status)
                  && c in job.notifyChannels && exists m :: ListedAndEnabled(env, m, s, s.tickets[e].rep, e, f, c)
  {
    ReachableInv(env, s);
    NotifOwner(env, s, n);
    ReachableTold(env, s);
    ReachableAnswered(env, s);
    var e, c := s.db.notifs[n].executionId, s.db.notifs[n].channelId;
    var r := s.tickets[e].rep;
    assert RepTells(s, r, s.reps[r]) && RepAnswered(env, s, r, s.reps[r]);
    var f := s.reps[r].fetched[e];
    assert FetchTells(s, r, s.reps[r], e, f);
    EnabledThen(env, s, r, e, f, c);
  }

  lemma {:induction false} EnabledThen(env: Env, s: State, r: ReplicaId, e: ExecId, f: Fetch, c: ChannelId)
    requires exists m :: Looked(env, m, s, r, e, f)
    requires Authorises(f, c)
    ensures c in f.job.notifyChannels && exists m :: ListedAndEnabled(env, m, s, r, e, f, c)
  {
    var m :| Looked(env, m, s, r, e, f);
    var i :| 0 <= i < |f.targets| && f.targets[i].id == c && f.targets[i].enabled;
    assert f.targets[i] == m.db.chans[c];
    assert ListedAndEnabled(env, m, s, r, e, f, c);
  }
}
