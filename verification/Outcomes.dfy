/** What a run of the system records of each outcome, told by the columns of the rows: the verdict of
    an execution, the reason a claim was shed for, how a notification ended, who is notified of what,
    and what a deletion leaves. */
module Outcomes {
  import opened Domain
  import opened Tables
  import opened Replica
  import opened ReplicaInvariants
  import opened System
  import opened Ownership
  import opened Notifications
  import opened Invariant
  import opened Guarantees
  import opened Provenance

  // ---------------------------------------------------------------- verdicts

  /** The status that the outcome of a job of this kind leads to: success and failure are the verdicts of
      a registered executor, and everything else is an error. */
  ghost predicate Leading(executors: set<string>, kind: string, outcome: Outcome, status: ExecStatus) {
    && (status == Success <==> kind in executors && outcome.Verdict? && outcome.passed)
    && (status == Failure <==> kind in executors && outcome.Verdict? && !outcome.passed)
    && (status == Error <==> kind !in executors || outcome.Broken?)
  }

  /** What is recorded of that outcome. */
  ghost predicate Judged(executors: set<string>, kind: string, outcome: Outcome, status: ExecStatus, output: string,
                         error: string) {
    && Leading(executors, kind, outcome, status)
    && output == (if kind in executors && outcome.Verdict? then outcome.output else "")
    && error == (if kind !in executors then "unknown job type: " + kind
                 else if outcome.Broken? then outcome.message else "")
  }

  lemma {:induction false} ResultIsJudged(executors: set<string>, job: Job, outcome: Outcome, start: Time, finish: Time)
    ensures var u := RunResult(executors, job, outcome, start, finish);
            && Judged(executors, job.kind, outcome, u.status, u.output, u.error)
            && u.durationMs == finish - start && u.finishedAt == finish
  {
  }

  /** The row of an execution that ran from `start` to `finish` with this outcome. */
  ghost predicate RowJudged(env: Env, job: Job, outcome: Outcome, start: Time, finish: Time, row: Execution) {
    && Judged(env.executors, job.kind, outcome, row.status, row.output, row.error)
    && row.durationMs == finish - start && row.finishedAt == Some(finish)
  }

  lemma {:induction false} FinishRecords(env: Env, s: State, r: ReplicaId, w: nat, outcome: Outcome)
    requires Enabled(env, s, Do(r, Work(w, Finish(outcome, true))))
    requires s.reps[r].workers[w].claim.execId in s.db.execs
    ensures var wk, s' := s.reps[r].workers[w], After(env, s, Do(r, Work(w, Finish(outcome, true))));
            var e := wk.claim.execId;
            && e in s'.db.execs && RowJudged(env, wk.claim.job, outcome, wk.startAt, s.now, s'.db.execs[e])
            && r in s'.reps && e in s'.reps[r].done
            && s'.db.execs[e].jobId == s.db.execs[e].jobId && s'.db.execs[e].startedAt == s.db.execs[e].startedAt
  {
    var wk := s.reps[r].workers[w];
    ResultIsJudged(env.executors, wk.claim.job, outcome, wk.startAt, s.now);
    assert After(env, s, Do(r, Work(w, Finish(outcome, true)))) == AfterDo(env, s, r, Work(w, Finish(outcome, true)));
  }

  /** A row its owner has settled is, while it exists, the same at the end of every run. */
  lemma {:induction false} SettledStays(env: Env, s: State, steps: seq<Step>, r: ReplicaId, e: ExecId)
    requires Inv(env, s) && Run(env, s, steps) && r in s.reps && e in s.reps[r].done && e in s.tickets
    requires e in End(env, s, steps).db.execs
    ensures e in s.db.execs && End(env, s, steps).db.execs[e] == s.db.execs[e]
    decreases steps
  {
    if steps != [] {
      var s' := After(env, s, steps[0]);
      StepKeepsInv(env, s, steps[0]);
      HistoryGrows(env, s, steps[0]);
      TicketsStay(env, s, steps[0], e);
      SettledStays(env, s', steps[1..], r, e);
      RowsAppear(env, s, steps[0], e);
      SettledStep(env, s, steps[0], r, e);
    }
  }

  lemma {:induction false} SettledStep(env: Env, s: State, step: Step, r: ReplicaId, e: ExecId)
    requires Inv(env, s) && Enabled(env, s, step) && r in s.reps && e in s.reps[r].done
    requires e in s.db.execs && e in After(env, s, step).db.execs
    ensures After(env, s, step).db.execs[e] == s.db.execs[e]
  {
    if step.Do? {
      DoneRowStays(env, s, step.r, step.act, r, e);
    } else if !step.Launch? {
      ServiceFrame(env, s, step);
    }
  }

  /** Whatever happens afterwards, the row of an execution whose terminal write succeeded shows, while
      it exists, the outcome of its run. */
  lemma {:induction false} OutcomeIsShown(env: Env, s: State, r: ReplicaId, w: nat, outcome: Outcome, steps: seq<Step>)
    requires Reachable(env, s) && Enabled(env, s, Do(r, Work(w, Finish(outcome, true))))
    requires Run(env, After(env, s, Do(r, Work(w, Finish(outcome, true)))), steps)
    requires var s' := After(env, s, Do(r, Work(w, Finish(outcome, true))));
             s.reps[r].workers[w].claim.execId in End(env, s', steps).db.execs
    ensures var wk, s' := s.reps[r].workers[w], After(env, s, Do(r, Work(w, Finish(outcome, true))));
            RowJudged(env, wk.claim.job, outcome, wk.startAt, s.now, End(env, s', steps).db.execs[wk.claim.execId])
  {
    var step, wk := Do(r, Work(w, Finish(outcome, true))), s.reps[r].workers[w];
    var s', e := After(env, s, step), wk.claim.execId;
    ReachableInv(env, s);
    ClaimTicket(s, r, w);
    TicketsStay(env, s, step, e);
    StepKeepsInv(env, s, step);
    FinishSettles(env, s, r, w, outcome);
    SettledStays(env, s', steps, r, e);
    RowsAppear(env, s, step, e);
    FinishRecords(env, s, r, w, outcome);
  }

  lemma {:induction false} ClaimTicket(s: State, r: ReplicaId, w: nat)
    requires HeldOk(s) && r in s.reps && w < |s.reps[r].workers| && s.reps[r].workers[w].Busy?
    ensures var c := s.reps[r].workers[w].claim;
            c.execId in s.tickets && s.tickets[c.execId].rep == r && s.tickets[c.execId].claim == c
  {
    assert InHands(s.reps[r].workers, s.reps[r].workers[w].claim);
    assert Holds(s.reps[r], s.reps[r].workers[w].claim);
  }

  lemma {:induction false} FinishSettles(env: Env, s: State, r: ReplicaId, w: nat, outcome: Outcome)
    requires Enabled(env, s, Do(r, Work(w, Finish(outcome, true))))
    ensures var s' := After(env, s, Do(r, Work(w, Finish(outcome, true))));
            r in s'.reps && s.reps[r].workers[w].claim.execId in s'.reps[r].done
  {
    assert After(env, s, Do(r, Work(w, Finish(outcome, true)))) == AfterDo(env, s, r, Work(w, Finish(outcome, true)));
  }

  /** The reason a claim is shed for, likewise. */
  lemma {:induction false} ShedIsShown(env: Env, s: State, r: ReplicaId, onShutdown: bool, steps: seq<Step>)
    requires var step := Do(r, Tick(if onShutdown then ShedOnShutdown(true) else ShedOnTimeout(true)));
             && Reachable(env, s) && Enabled(env, s, step) && Run(env, After(env, s, step), steps)
             && s.reps[r].batch[0].execId in End(env, After(env, s, step), steps).db.execs
    ensures var step := Do(r, Tick(if onShutdown then ShedOnShutdown(true) else ShedOnTimeout(true)));
            var row := End(env, After(env, s, step), steps).db.execs[s.reps[r].batch[0].execId];
            && row.status == Error && row.output == "" && row.durationMs == 0 && row.finishedAt == Some(s.now)
            && row.error == if onShutdown then "scheduler shutting down" else "worker pool saturated"
  {
    var step := Do(r, Tick(if onShutdown then ShedOnShutdown(true) else ShedOnTimeout(true)));
    var s', e := After(env, s, step), s.reps[r].batch[0].execId;
    ReachableInv(env, s);
    assert Holds(s.reps[r], s.reps[r].batch[0]);
    TicketsStay(env, s, step, e);
    StepKeepsInv(env, s, step);
    ShedSettles(env, s, r, onShutdown);
    SettledStays(env, s', steps, r, e);
    RowsAppear(env, s, step, e);
  }

  lemma {:induction false} ShedSettles(env: Env, s: State, r: ReplicaId, onShutdown: bool)
    requires Enabled(env, s, Do(r, Tick(if onShutdown then ShedOnShutdown(true) else ShedOnTimeout(true))))
    ensures var act := Tick(if onShutdown then ShedOnShutdown(true) else ShedOnTimeout(true));
            var e := s.reps[r].batch[0].execId;
            var s' := After(env, s, Do(r, act));
            && r in s'.reps && e in s'.reps[r].done
            && (e in s.db.execs ==>
                  e in s'.db.execs && s'.db.execs[e] == s.db.execs[e].(
                    status := Error, output := "", durationMs := 0, finishedAt := Some(s.now),
                    error := if onShutdown then "scheduler shutting down" else "worker pool saturated"))
  {
    var act := Tick(if onShutdown then ShedOnShutdown(true) else ShedOnTimeout(true));
    assert After(env, s, Do(r, act)) == AfterDo(env, s, r, act);
  }

  // ---------------------------------------------------------------- sends

  /** The identifier was issued to process `r`, whose send under it has ended. */
  ghost predicate SendOver(s: State, r: ReplicaId, n: NotifId) {
    n in s.notifIds && s.notifIds[n] == r && r in s.reps && n !in s.reps[r].sends
  }

  lemma {:induction false} NotifsAfter(env: Env, s: State, r: ReplicaId, act: Act, n: NotifId)
    requires NotifsOk(s) && Enabled(env, s, Do(r, act)) && Counted(s.reps[r]) && n in s.notifIds
    requires n !in s.reps[r].sends
    ensures var s' := After(env, s, Do(r, act));
            && n in s'.notifIds && s'.notifIds[n] == s.notifIds[n] && n !in s'.reps[r].sends
            && (n in s'.db.notifs ==> n in s.db.notifs && s'.db.notifs[n] == s.db.notifs[n])
  {
    NotifRowsAfter(env, s, r, act, n);
    SendsAfter(env, s.now, s.reps[r], act, n);
    assert After(env, s, Do(r, act)) == AfterDo(env, s, r, act);
  }

  lemma {:induction false} NotifRowsAfter(env: Env, s: State, r: ReplicaId, act: Act, n: NotifId)
    requires NotifsOk(s) && Enabled(env, s, Do(r, act)) && n in s.notifIds && n !in s.reps[r].sends
    ensures var notifs := DoDb(env, s, r, act).notifs; n in notifs ==> n in s.db.notifs && notifs[n] == s.db.notifs[n]
  {
    if act == Tick(Commit) {
      ApplyClaimsExecs(s.db, s.reps[r].tx.claims, s.reps[r].tx.at);
    }
  }

  lemma {:induction false} SendsAfter(env: Env, now: Time, rep: Replica, act: Act, n: NotifId)
    requires CanAct(now, rep, act) && n !in rep.sends && !(act.Work? && act.a.Notify? && act.a.n == n)
    ensures n !in Next(env, now, rep, act).sends
  {
    match act
    case Tick(t) => assert TickNext(env, now, rep, t).sends == rep.sends;
    case Work(w, a) => assert n !in WorkNext(env, now, rep, w, a).sends;
    case _ =>
  }

  lemma {:induction false} OverStays(env: Env, s: State, step: Step, r: ReplicaId, n: NotifId)
    requires Inv(env, s) && Enabled(env, s, step) && SendOver(s, r, n)
    ensures var s' := After(env, s, step);
            SendOver(s', r, n) && (n in s'.db.notifs ==> n in s.db.notifs && s'.db.notifs[n] == s.db.notifs[n])
  {
    if step.Do? {
      assert LocalOk(s.reps[step.r]);
      assert step.r != r ==> n !in s.reps[step.r].sends;
      NotifsAfter(env, s, step.r, step.act, n);
      if step.r != r {
        OthersKeepRep(env, s, step, r);
      }
    } else {
      OthersKeepRep(env, s, step, r);
      if !step.Launch? {
        ServiceFrame(env, s, step);
      }
    }
  }

  lemma {:induction false} OverStaysInRuns(env: Env, s: State, steps: seq<Step>, r: ReplicaId, n: NotifId)
    requires Inv(env, s) && Run(env, s, steps) && SendOver(s, r, n) && n in End(env, s, steps).db.notifs
    ensures n in s.db.notifs && End(env, s, steps).db.notifs[n] == s.db.notifs[n]
    decreases steps
  {
    if steps != [] {
      OverStays(env, s, steps[0], r, n);
      StepKeepsInv(env, s, steps[0]);
      OverStaysInRuns(env, After(env, s, steps[0]), steps[1..], r, n);
    }
  }

  /** How the row of a notification to channel `ch` shows that its send ended at `now`. */
  ghost predicate Reported(notifiers: set<string>, ch: Channel, delivered: bool, message: string, now: Time,
                           row: Notification) {
    if ch.kind !in notifiers then
      row.status == Failed && row.error == "no notifier registered for channel type " + ch.kind && row.sentAt == None
    else if delivered then row.status == Sent && row.error == "" && row.sentAt == Some(now)
    else row.status == Failed && row.error == message && row.sentAt == None
  }

  lemma {:induction false} SendRecords(env: Env, s: State, r: ReplicaId, n: NotifId, delivered: bool, message: string)
    requires Enabled(env, s, Do(r, SendDone(n, delivered, message, true))) && NotifsOk(s) && Counted(s.reps[r])
    ensures var s' := After(env, s, Do(r, SendDone(n, delivered, message, true)));
            && SendOver(s', r, n)
            && (n in s.db.notifs ==>
                  && n in s'.db.notifs
                  && Reported(env.notifiers, s.reps[r].sends[n], delivered, message, s.now, s'.db.notifs[n]))
  {
    var act := SendDone(n, delivered, message, true);
    assert After(env, s, Do(r, act)) == AfterDo(env, s, r, act);
  }

  /** Whatever happens afterwards, the row of a notification whose status write succeeded shows, while
      it exists, how its send ended. */
  lemma {:induction false} SendIsShown(env: Env, s: State, r: ReplicaId, n: NotifId, delivered: bool, message: string,
        steps: seq<Step>)
    requires var step := Do(r, SendDone(n, delivered, message, true));
             && Reachable(env, s) && Enabled(env, s, step) && Run(env, After(env, s, step), steps)
             && n in End(env, After(env, s, step), steps).db.notifs
    ensures var s' := After(env, s, Do(r, SendDone(n, delivered, message, true)));
            Reported(env.notifiers, s.reps[r].sends[n], delivered, message, s.now, End(env, s', steps).db.notifs[n])
  {
    var step := Do(r, SendDone(n, delivered, message, true));
    ReachableInv(env, s);
    assert LocalOk(s.reps[r]);
    StepKeepsInv(env, s, step);
    SendRecords(env, s, r, n, delivered, message);
    OverStaysInRuns(env, After(env, s, step), steps, r, n);
    DoneKeepsKeys(env, s, r, n, delivered, message);
  }

  lemma {:induction false} DoneKeepsKeys(env: Env, s: State, r: ReplicaId, n: NotifId, delivered: bool, message: string)
    requires Enabled(env, s, Do(r, SendDone(n, delivered, message, true)))
    ensures After(env, s, Do(r, SendDone(n, delivered, message, true))).db.notifs.Keys == s.db.notifs.Keys
  {
  }

  // ---------------------------------------------------------------- deletions

  /** Deleting a job takes its executions and their notifications with it, and nothing else. */
  lemma {:induction false} RemovalTakesOnlyItsOwn(env: Env, s: State, j: JobId)
    requires Reachable(env, s) && Enabled(env, s, RemoveJob(j))
    ensures var s' := After(env, s, RemoveJob(j));
            && s' == s.(db := s'.db) && OnlyJobGone(s.db, s'.db, j)
            && forall n :: n in s.db.notifs ==>
                 (n in s'.db.notifs <==> s.db.notifs[n].executionId in s'.db.execs)
  {
    ReachableInv(env, s);
  }

  /** Deleting a channel takes its notifications with it, and nothing else. */
  lemma {:induction false} ChannelRemovalTakesOnlyItsOwn(env: Env, s: State, c: ChannelId)
    requires Enabled(env, s, RemoveChannel(c))
    ensures var s' := After(env, s, RemoveChannel(c)); s' == s.(db := s'.db) && OnlyChannelGone(s.db, s'.db, c)
  {
  }
}
