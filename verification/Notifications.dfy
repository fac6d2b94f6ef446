/** Notification rows: at most one per execution and channel, only for executions a worker ran,
    and none left pending once its process has returned. */
module Notifications {
  import opened Domain
  import opened Tables
  import opened Replica
  import opened ReplicaInvariants
  import opened System

  /** Every row was created by the process its id was issued to, for the link that process
      recorded, and is pending exactly while its send is in flight or after its status write
      failed. */
  ghost predicate NotifOk(s: State, n: NotifId)
    requires n in s.db.notifs
  {
    && n in s.notifIds && s.notifIds[n] in s.reps && n in s.reps[s.notifIds[n]].created
    && var row, rep := s.db.notifs[n], s.reps[s.notifIds[n]];
       && rep.created[n] == Link(row.executionId, row.channelId)
       && (row.status == Pending <==> n in rep.sends || n in rep.unsaved)
  }

  ghost predicate NotifsOk(s: State) {
    && (forall n :: n in s.db.notifs ==> NotifOk(s, n))
    && (forall r, n :: r in s.reps && n in s.reps[r].created ==> n in s.notifIds && s.notifIds[n] == r)
  }

  lemma {:induction false} CreateKeepsNotifs(s: State, s': State, r: ReplicaId, rep': Replica, n: NotifId, e: ExecId,
        ch: Channel)
    requires NotifsOk(s) && r in s.reps && n !in s.notifIds
    requires s'.reps == s.reps[r := rep'] && s'.notifIds == s.notifIds[n := r]
    requires s'.db.notifs == InsertNotif(s.db, n, e, ch.id).notifs
    requires rep'.unsaved == s.reps[r].unsaved
    requires rep'.sends == s.reps[r].sends[n := ch] && rep'.created == s.reps[r].created[n := Link(e, ch.id)]
    ensures NotifsOk(s')
  {
    forall m | m in s'.db.notifs
      ensures NotifOk(s', m)
    {
      if m != n {
        assert NotifOk(s, m);
      }
    }
  }

  lemma {:induction false} SentKeepsNotifs(s: State, s': State, r: ReplicaId, rep': Replica, n: NotifId, ok: bool,
        status: NotifStatus, error: string)
    requires NotifsOk(s) && r in s.reps && n in s.reps[r].created && status != Pending
    requires s'.reps == s.reps[r := rep'] && s'.notifIds == s.notifIds
    requires s'.db.notifs == if ok then UpdateNotif(s.db, n, status, error, s.now).notifs else s.db.notifs
    requires rep'.created == s.reps[r].created && n in s.reps[r].sends && n !in s.reps[r].unsaved
    requires rep'.sends == s.reps[r].sends - {n}
    requires rep'.unsaved == if ok then s.reps[r].unsaved else s.reps[r].unsaved + {n}
    ensures NotifsOk(s')
  {
    forall m | m in s'.db.notifs
      ensures NotifOk(s', m)
    {
      assert NotifOk(s, m);
    }
  }

  lemma {:induction false} QuietKeepsNotifs(s: State, s': State, r: ReplicaId, rep': Replica)
    requires NotifsOk(s) && r in s.reps && s'.reps == s.reps[r := rep'] && s'.notifIds == s.notifIds
    requires forall n :: n in s'.db.notifs ==> n in s.db.notifs && s'.db.notifs[n] == s.db.notifs[n]
    requires SameSends(s.reps[r], rep')
    ensures NotifsOk(s')
  {
    forall n | n in s'.db.notifs
      ensures NotifOk(s', n)
    {
      assert NotifOk(s, n);
    }
  }

  /** Steps that create and finish no notification. */
  predicate Silent(rep: Replica, act: Act) {
    !act.SendDone? && !(act.Work? && act.w < |rep.workers| && Notifies(rep.workers[act.w], act.a))
  }

  ghost predicate SameSends(rep: Replica, rep': Replica) {
    rep'.created == rep.created && rep'.sends == rep.sends && rep'.unsaved == rep.unsaved
  }

  lemma {:induction false} SilentTick(env: Env, now: Time, rep: Replica, t: TickAct)
    requires CanTick(now, rep, t)
    ensures SameSends(rep, TickNext(env, now, rep, t))
  {
  }

  lemma {:induction false} SilentWork(env: Env, now: Time, rep: Replica, w: nat, a: WorkAct)
    requires w < |rep.workers| && CanWork(rep, rep.workers[w], a) && !Notifies(rep.workers[w], a)
    ensures SameSends(rep, WorkNext(env, now, rep, w, a))
  {
  }

  lemma {:induction false} SilentFrame(env: Env, now: Time, rep: Replica, act: Act)
    requires CanAct(now, rep, act) && Silent(rep, act)
    ensures SameSends(rep, Next(env, now, rep, act))
  {
    match act
    case Tick(t) => SilentTick(env, now, rep, t);
    case Work(w, a) => SilentWork(env, now, rep, w, a);
    case _ =>
  }

  lemma {:induction false} SilentRows(env: Env, s: State, r: ReplicaId, act: Act)
    requires r in s.reps && CanAct(s.now, s.reps[r], act) && Silent(s.reps[r], act) && act != Tick(Commit)
    ensures DoDb(env, s, r, act).notifs == s.db.notifs
  {
  }

  lemma {:induction false} DoKeepsNotifs(env: Env, s: State, r: ReplicaId, act: Act)
    requires Enabled(env, s, Do(r, act)) && NotifsOk(s) && Counted(s.reps[r])
    ensures NotifsOk(After(env, s, Do(r, act)))
  {
    var rep, s', rep' := s.reps[r], After(env, s, Do(r, act)), Next(env, s.now, s.reps[r], act);
    if act.SendDone? {
      SentKeepsNotifs(s, s', r, rep', act.n, act.ok, SendStatus(env.notifiers, rep.sends[act.n], act.delivered),
                      SendError(env.notifiers, rep.sends[act.n], act.delivered, act.message));
    } else if !Silent(rep, act) {
      var wk := rep.workers[act.w];
      CreateKeepsNotifs(s, s', r, rep', act.a.n, wk.claim.execId, wk.stage.todo[0]);
    } else {
      SilentFrame(env, s.now, rep, act);
      if act == Tick(Commit) {
        ApplyClaimsExecs(s.db, rep.tx.claims, rep.tx.at);
      } else {
        SilentRows(env, s, r, act);
      }
      QuietKeepsNotifs(s, s', r, rep');
    }
  }
}
