/** Who is notified of a run: from its outcome to the last of its notifications, in every run of the
    system and told by the job's condition and channel list. */
module Announcements {
  import opened Domain
  import opened Tables
  import opened Replica
  import opened ReplicaInvariants
  import opened System
  import opened Ownership
  import opened Notifications
  import opened Invariant
  import opened Guarantees
  import opened Outcomes

  // ---------------------------------------------------------------- when a result is announced

  /** The results a job's condition asks to be told: all of them, the successes, or the failures and
      errors, which it is without a condition and for one that names none of these; one that cannot be
      decoded asks for nothing. */
  ghost predicate Meets(condition: Condition, status: ExecStatus) {
    || condition == On("always")
    || (condition == On("success") && status == Success)
    || ((condition == NoCondition || (condition.On? && condition.value != "success" && condition.value != "always"))
        && (status == Failure || status == Error))
  }

  lemma {:induction false} ConditionDecides(job: Job, status: ExecStatus)
    ensures ShouldNotify(job, status) <==> Meets(job.condition, status)
  {
  }

  /** The worker has run the claim with this result, and not looked up channels yet. */
  ghost predicate Resulted(wk: Worker, claim: Claim, status: ExecStatus) {
    wk.Busy? && wk.claim == claim
    && ((wk.stage.Saved? && wk.stage.status == status) || (wk.stage.WroteBack? && wk.stage.status == status))
  }

  ghost predicate ResultedAt(s: State, r: ReplicaId, w: nat, claim: Claim, status: ExecStatus) {
    r in s.reps && w < |s.reps[r].workers| && Resulted(s.reps[r].workers[w], claim, status)
  }

  /** No step of the run is a look-up by worker `w` of process `r`. */
  ghost predicate NoLookUp(steps: seq<Step>, r: ReplicaId, w: nat) {
    forall k :: 0 <= k < |steps| ==>
      !(steps[k].Do? && steps[k].r == r && steps[k].act.Work? && steps[k].act.w == w && steps[k].act.a.FetchChannels?)
  }

  lemma {:induction false} WorkersAfter(env: Env, now: Time, rep: Replica, act: Act, w: nat)
    requires CanAct(now, rep, act) && w < |rep.workers|
    ensures var rep' := Next(env, now, rep, act);
            && |rep'.workers| == |rep.workers|
            && rep'.workers[w] == if act.Work? && act.w == w then WorkerNext(env, now, rep, rep.workers[w], act.a)
                                  else rep.workers[w]
  {
    match act
    case Tick(t) => assert TickNext(env, now, rep, t).workers == rep.workers;
    case Work(v, a) =>
      assert WorkNext(env, now, rep, v, a).workers == rep.workers[v := WorkerNext(env, now, rep, rep.workers[v], a)];
    case _ =>
  }

  lemma {:induction false} StillResulted(env: Env, s: State, step: Step, r: ReplicaId, w: nat, claim: Claim,
        status: ExecStatus)
    requires Enabled(env, s, step) && ResultedAt(s, r, w, claim, status) && NoLookUp([step], r, w)
    ensures ResultedAt(After(env, s, step), r, w, claim, status)
  {
    assert [step][0] == step;
    if step.Do? && step.r == r {
      WorkersAfter(env, s.now, s.reps[r], step.act, w);
      assert After(env, s, step).reps[r] == Next(env, s.now, s.reps[r], step.act);
    } else {
      OthersKeepRep(env, s, step, r);
    }
  }

  lemma {:induction false} ResultedInRuns(env: Env, s: State, steps: seq<Step>, r: ReplicaId, w: nat, claim: Claim,
        status: ExecStatus)
    requires Run(env, s, steps) && ResultedAt(s, r, w, claim, status) && NoLookUp(steps, r, w)
    ensures ResultedAt(End(env, s, steps), r, w, claim, status)
    decreases steps
  {
    if steps != [] {
      assert NoLookUp([steps[0]], r, w) by { assert [steps[0]][0] == steps[0]; }
      StillResulted(env, s, steps[0], r, w, claim, status);
      ResultedInRuns(env, After(env, s, steps[0]), steps[1..], r, w, claim, status);
    }
  }

  lemma {:induction false} FinishResults(env: Env, s: State, r: ReplicaId, w: nat, outcome: Outcome, ok: bool)
    returns (status: ExecStatus)
    requires Enabled(env, s, Do(r, Work(w, Finish(outcome, ok))))
    ensures Leading(env.executors, s.reps[r].workers[w].claim.job.kind, outcome, status)
    ensures ResultedAt(After(env, s, Do(r, Work(w, Finish(outcome, ok)))), r, w, s.reps[r].workers[w].claim, status)
  {
    var wk := s.reps[r].workers[w];
    status := RunResult(env.executors, wk.claim.job, outcome, wk.startAt, s.now).status;
    WorkersAfter(env, s.now, s.reps[r], Work(w, Finish(outcome, ok)), w);
    assert After(env, s, Do(r, Work(w, Finish(outcome, ok)))).reps[r]
        == Next(env, s.now, s.reps[r], Work(w, Finish(outcome, ok)));
  }

  /** A look-up leads to the fan-out over its answer exactly if it succeeds, there is a dispatcher, the
      job lists channels, and its condition asks for the result; otherwise the worker is done. */
  lemma {:induction false} LookUpDecides(env: Env, s: State, r: ReplicaId, w: nat, targets: seq<Channel>, ok: bool)
    requires Enabled(env, s, Do(r, Work(w, FetchChannels(targets, ok))))
    ensures var wk, s' := s.reps[r].workers[w], After(env, s, Do(r, Work(w, FetchChannels(targets, ok))));
            && r in s'.reps && w < |s'.reps[r].workers|
            && s'.reps[r].workers[w] ==
                 if ok && env.dispatches && wk.claim.job.notifyChannels != []
                    && Meets(wk.claim.job.condition, wk.stage.status)
                 then wk.(stage := Fanout(targets)) else Idle
    ensures ok ==> ChannelsOf(s.db.chans, s.reps[r].workers[w].claim.job.notifyChannels, targets)
  {
    WorkersAfter(env, s.now, s.reps[r], Work(w, FetchChannels(targets, ok)), w);
    assert After(env, s, Do(r, Work(w, FetchChannels(targets, ok)))).reps[r]
        == Next(env, s.now, s.reps[r], Work(w, FetchChannels(targets, ok)));
    ConditionDecides(s.reps[r].workers[w].claim.job, s.reps[r].workers[w].stage.status);
  }

  /** From the outcome of a run, through whatever happens until the channels are looked up: the worker
      goes on to notify them exactly if the look-up succeeds, there is a dispatcher, the job lists
      channels, and its condition asks for what the outcome led to. */
  lemma {:induction false} OutcomeIsAnnounced(env: Env, s: State, r: ReplicaId, w: nat, outcome: Outcome, ok: bool,
        steps: seq<Step>, targets: seq<Channel>, found: bool) returns (status: ExecStatus)
    requires Enabled(env, s, Do(r, Work(w, Finish(outcome, ok)))) && NoLookUp(steps, r, w)
    requires var s0 := After(env, s, Do(r, Work(w, Finish(outcome, ok))));
             Run(env, s0, steps) && Enabled(env, End(env, s0, steps), Do(r, Work(w, FetchChannels(targets, found))))
    ensures Leading(env.executors, s.reps[r].workers[w].claim.job.kind, outcome, status)
    ensures var s0, claim := After(env, s, Do(r, Work(w, Finish(outcome, ok)))), s.reps[r].workers[w].claim;
            var s1 := End(env, s0, steps);
            var s' := After(env, s1, Do(r, Work(w, FetchChannels(targets, found))));
            var announced := && found && env.dispatches && claim.job.notifyChannels != []
                             && Meets(claim.job.condition, status);
            && r in s'.reps && w < |s'.reps[r].workers|
            && (announced ==>
                  && s'.reps[r].workers[w].Busy? && s'.reps[r].workers[w].claim == claim
                  && s'.reps[r].workers[w].stage == Fanout(targets)
                  && ChannelsOf(s1.db.chans, claim.job.notifyChannels, targets))
            && (!announced ==> s'.reps[r].workers[w] == Idle)
  {
    var s0 := After(env, s, Do(r, Work(w, Finish(outcome, ok))));
    status := FinishResults(env, s, r, w, outcome, ok);
    ResultedInRuns(env, s0, steps, r, w, s.reps[r].workers[w].claim, status);
    LookUpDecides(env, End(env, s0, steps), r, w, targets, found);
  }

  // ---------------------------------------------------------------- the fan-out

  /** The acts of worker `w` of process `r`, in order. */
  function ActsOf(steps: seq<Step>, r: ReplicaId, w: nat): seq<WorkAct> {
    if steps == [] then []
    else (if steps[0].Do? && steps[0].r == r && steps[0].act.Work? && steps[0].act.w == w then [steps[0].act.a] else [])
         + ActsOf(steps[1..], r, w)
  }

  /** One visit of the fan-out: an enabled channel whose row the database takes gets one new pending
      row and one new send, under a new identifier; otherwise nothing is new. */
  lemma {:induction false} VisitIsExact(env: Env, s: State, r: ReplicaId, w: nat, n: NotifId, ok: bool)
    requires NotifsOk(s) && Enabled(env, s, Do(r, Work(w, Notify(n, ok))))
    ensures var wk, rep, s' := s.reps[r].workers[w], s.reps[r], After(env, s, Do(r, Work(w, Notify(n, ok))));
            var e, ch := wk.claim.execId, wk.stage.todo[0];
            && n !in s.db.notifs && r in s'.reps
            && s'.reps[r].workers == rep.workers[w := wk.(stage := Fanout(wk.stage.todo[1..]))]
            && (if ok && ch.enabled then
                  && s'.db == s.db.(notifs := s.db.notifs[n := Notification(e, ch.id, Pending, "", None)])
                  && s'.reps[r].sends == rep.sends[n := ch] && s'.reps[r].created == rep.created[n := Link(e, ch.id)]
                else s'.db == s.db && s'.reps[r].sends == rep.sends && s'.reps[r].created == rep.created)
  {
    assert After(env, s, Do(r, Work(w, Notify(n, ok)))) == AfterDo(env, s, r, Work(w, Notify(n, ok)));
  }

  /** Worker `w` of process `r` is at the fan-out over `todo` for this claim. */
  ghost predicate FanningAt(s: State, r: ReplicaId, w: nat, claim: Claim, todo: seq<Channel>) {
    && r in s.reps && w < |s.reps[r].workers| && s.reps[r].workers[w].Busy?
    && s.reps[r].workers[w].claim == claim && s.reps[r].workers[w].stage == Fanout(todo)
  }

  /** Identifier `n` was used for one of the channels visited, enabled and taken by the database. */
  ghost predicate UsedFor(acts: seq<WorkAct>, todo: seq<Channel>, n: NotifId, c: ChannelId) {
    exists i :: 0 <= i < |acts| && i < |todo| && acts[i].Notify? && acts[i].n == n && acts[i].ok
                && todo[i].enabled && todo[i].id == c
  }

  /** What the visits made so far have left in the process: a link for each enabled channel whose row
      was taken, and no other link for this execution. */
  ghost predicate LinksExact(before: map<NotifId, Link>, after: map<NotifId, Link>, e: ExecId, acts: seq<WorkAct>,
                             todo: seq<Channel>) {
    && (forall n :: n in before ==> n in after && after[n] == before[n])
    && (forall i :: 0 <= i < |acts| && i < |todo| && acts[i].Notify? && acts[i].ok && todo[i].enabled ==>
          acts[i].n in after && after[acts[i].n] == Link(e, todo[i].id))
    && (forall n :: n in after && n !in before && after[n].exec == e ==> UsedFor(acts, todo, n, after[n].chan))
  }

  lemma {:induction false} LinksLater(a: map<NotifId, Link>, b: map<NotifId, Link>, c: map<NotifId, Link>, e: ExecId,
        acts: seq<WorkAct>, todo: seq<Channel>)
    requires (forall n :: n in a ==> n in b && b[n] == a[n]) && (forall n :: n in b && n !in a ==> b[n].exec != e)
    requires LinksExact(b, c, e, acts, todo)
    ensures LinksExact(a, c, e, acts, todo)
  {
  }

  lemma {:induction false} LinksOn(a: map<NotifId, Link>, b: map<NotifId, Link>, c: map<NotifId, Link>, e: ExecId,
        n: NotifId, ok: bool, acts: seq<WorkAct>, todo: seq<Channel>)
    requires todo != [] && n !in a && LinksExact(b, c, e, acts, todo[1..])
    requires b == if ok && todo[0].enabled then a[n := Link(e, todo[0].id)] else a
    ensures LinksExact(a, c, e, [Notify(n, ok)] + acts, todo)
  {
    var all := [Notify(n, ok)] + acts;
    forall i | 0 <= i < |all| && i < |todo| && all[i].Notify? && all[i].ok && todo[i].enabled
      ensures all[i].n in c && c[all[i].n] == Link(e, todo[i].id)
    {
      if i > 0 {
        assert all[i] == acts[i - 1] && todo[i] == todo[1..][i - 1];
      } else {
        assert n in b;
      }
    }
    forall m | m in c && m !in a && c[m].exec == e
      ensures UsedFor(all, todo, m, c[m].chan)
    {
      if m in b {
        assert m == n && all[0].n == m;
      } else {
        var i :| 0 <= i < |acts| && i < |todo[1..]| && acts[i].Notify? && acts[i].n == m && acts[i].ok
                 && todo[1..][i].enabled && todo[1..][i].id == c[m].chan;
        assert all[i + 1] == acts[i] && todo[i + 1] == todo[1..][i];
      }
    }
  }

  /** Two workers never run the same execution. */
  lemma {:induction false} DistinctRuns(rep: Replica, v: nat, w: nat)
    requires LocalOk(rep) && v < |rep.workers| && w < |rep.workers| && v != w
    requires rep.workers[v].Busy? && rep.workers[w].Busy?
    ensures rep.workers[v].claim.execId != rep.workers[w].claim.execId
  {
    StartedOnce(rep);
    var all := rep.started + QueueIds(rep.queue);
    var i, k := rep.workers[v].ordinal, rep.workers[w].ordinal;
    assert i != k;
    assert all[i] == rep.workers[v].claim.execId && all[k] == rep.workers[w].claim.execId;
  }

  /** A step of others adds no link for the execution the worker announces. */
  lemma {:induction false} OthersLink(env: Env, now: Time, rep: Replica, act: Act, w: nat)
    requires LocalOk(rep) && CanAct(now, rep, act) && w < |rep.workers| && rep.workers[w].Busy?
    requires !(act.Work? && act.w == w) && (act.Work? && act.a.Notify? ==> act.a.n !in rep.created)
    ensures var created' := Next(env, now, rep, act).created;
            && (forall n :: n in rep.created ==> n in created' && created'[n] == rep.created[n])
            && (forall n :: n in created' && n !in rep.created ==> created'[n].exec != rep.workers[w].claim.execId)
  {
    if act.Work? && act.a.Notify? {
      DistinctRuns(rep, act.w, w);
      assert Next(env, now, rep, act) == WorkNext(env, now, rep, act.w, act.a);
    } else {
      CreatedKept(env, now, rep, act);
    }
  }

  lemma {:induction false} CreatedKept(env: Env, now: Time, rep: Replica, act: Act)
    requires CanAct(now, rep, act) && !(act.Work? && act.a.Notify?)
    ensures Next(env, now, rep, act).created == rep.created
  {
    match act
    case Tick(t) => assert TickNext(env, now, rep, t).created == rep.created;
    case Work(w, a) => assert WorkNext(env, now, rep, w, a).created == rep.created;
    case _ =>
  }

  lemma {:induction false} OtherStep(env: Env, s: State, step: Step, r: ReplicaId, w: nat, claim: Claim,
        todo: seq<Channel>)
    requires Inv(env, s) && Enabled(env, s, step) && FanningAt(s, r, w, claim, todo) && ActsOf([step], r, w) == []
    ensures var s' := After(env, s, step);
            && FanningAt(s', r, w, claim, todo)
            && var a, b := s.reps[r].created, s'.reps[r].created;
               && (forall n :: n in a ==> n in b && b[n] == a[n])
               && (forall n :: n in b && n !in a ==> b[n].exec != claim.execId)
  {
    assert [step][1..] == [] && [step][0] == step;
    if step.Do? && step.r == r {
      assert LocalOk(s.reps[r]);
      OthersLink(env, s.now, s.reps[r], step.act, w);
      WorkersAfter(env, s.now, s.reps[r], step.act, w);
      assert After(env, s, step).reps[r] == Next(env, s.now, s.reps[r], step.act);
    } else {
      OthersKeepRep(env, s, step, r);
    }
  }

  /** In every run up to the end of the job, the worker visits the channels it looked up, each once and
      in order; the visits link exactly the enabled channels whose row the database took. */
  lemma {:induction false} FanoutVisitsInOrder(env: Env, s: State, steps: seq<Step>, r: ReplicaId, w: nat, claim: Claim,
        todo: seq<Channel>)
    requires Inv(env, s) && Run(env, s, steps) && FanningAt(s, r, w, claim, todo) && EndJob !in ActsOf(steps, r, w)
    ensures var acts, s' := ActsOf(steps, r, w), End(env, s, steps);
            && |acts| <= |todo| && (forall i :: 0 <= i < |acts| ==> acts[i].Notify?)
            && FanningAt(s', r, w, claim, todo[|acts|..])
            && LinksExact(s.reps[r].created, s'.reps[r].created, claim.execId, acts, todo)
    decreases steps
  {
    if steps == [] {
      assert todo[0..] == todo;
    } else {
      var s1, rest := After(env, s, steps[0]), ActsOf(steps[1..], r, w);
      StepKeepsInv(env, s, steps[0]);
      if ActsOf([steps[0]], r, w) == [] {
        assert [steps[0]][0] == steps[0];
        assert ActsOf(steps, r, w) == rest;
        OtherStep(env, s, steps[0], r, w, claim, todo);
        FanoutVisitsInOrder(env, s1, steps[1..], r, w, claim, todo);
        LinksLater(s.reps[r].created, s1.reps[r].created, End(env, s, steps).reps[r].created, claim.execId, rest, todo);
      } else {
        VisitFirst(env, s, steps, r, w, claim, todo);
      }
    }
  }

  lemma {:induction false} OneVisit(env: Env, s: State, r: ReplicaId, w: nat, a: WorkAct, claim: Claim,
        todo: seq<Channel>)
    requires NotifsOk(s) && Enabled(env, s, Do(r, Work(w, a))) && FanningAt(s, r, w, claim, todo) && a != EndJob
    ensures a.Notify? && todo != [] && a.n !in s.reps[r].created
    ensures var s' := After(env, s, Do(r, Work(w, a)));
            && FanningAt(s', r, w, claim, todo[1..])
            && s'.reps[r].created ==
                 if a.ok && todo[0].enabled then s.reps[r].created[a.n := Link(claim.execId, todo[0].id)]
                 else s.reps[r].created
  {
    assert a.Notify?;
    VisitIsExact(env, s, r, w, a.n, a.ok);
  }

  lemma {:induction false} VisitFirst(env: Env, s: State, steps: seq<Step>, r: ReplicaId, w: nat, claim: Claim,
        todo: seq<Channel>)
    requires Inv(env, s) && steps != [] && Run(env, s, steps) && FanningAt(s, r, w, claim, todo)
    requires EndJob !in ActsOf(steps, r, w) && ActsOf([steps[0]], r, w) != []
    ensures var acts, s' := ActsOf(steps, r, w), End(env, s, steps);
            && |acts| <= |todo| && (forall i :: 0 <= i < |acts| ==> acts[i].Notify?)
            && FanningAt(s', r, w, claim, todo[|acts|..])
            && LinksExact(s.reps[r].created, s'.reps[r].created, claim.execId, acts, todo)
    decreases steps, 0
  {
    var rest := ActsOf(steps[1..], r, w);
    assert [steps[0]][0] == steps[0];
    var a := steps[0].act.a;
    assert steps[0] == Do(r, Work(w, a)) && ActsOf(steps, r, w) == [a] + rest && ([a] + rest)[0] == a;
    OneVisit(env, s, r, w, a, claim, todo);
    StepKeepsInv(env, s, steps[0]);
    FanoutVisitsInOrder(env, After(env, s, steps[0]), steps[1..], r, w, claim, todo[1..]);
    Prepended(s.reps[r].created, After(env, s, steps[0]).reps[r].created, End(env, s, steps).reps[r].created,
              claim.execId, a, rest, todo);
  }

  lemma {:induction false} Prepended(a: map<NotifId, Link>, b: map<NotifId, Link>, c: map<NotifId, Link>, e: ExecId,
        act: WorkAct, acts: seq<WorkAct>, todo: seq<Channel>)
    requires act.Notify? && todo != [] && act.n !in a && |acts| <= |todo[1..]| && LinksExact(b, c, e, acts, todo[1..])
    requires b == if act.ok && todo[0].enabled then a[act.n := Link(e, todo[0].id)] else a
    requires forall i :: 0 <= i < |acts| ==> acts[i].Notify?
    ensures var all := [act] + acts;
            && |all| <= |todo| && (forall i :: 0 <= i < |all| ==> all[i].Notify?)
            && todo[1..][|acts|..] == todo[|all|..] && LinksExact(a, c, e, all, todo)
  {
    LinksOn(a, b, c, e, act.n, act.ok, acts, todo);
  }

  // ---------------------------------------------------------------- the whole announcement

  /** Worker `w` of process `r` has fetched `targets` in `s`, and in `s'`, at the end of its fan-out,
      its visits since then were `acts`. */
  ghost predicate FannedOut(env: Env, s: State, r: ReplicaId, w: nat, targets: seq<Channel>, steps: seq<Step>,
                            s': State) {
    var fetch := Do(r, Work(w, FetchChannels(targets, true)));
    && Reachable(env, s) && Enabled(env, s, fetch) && Run(env, After(env, s, fetch), steps)
    && End(env, After(env, s, fetch), steps) == s' && EndJob !in ActsOf(steps, r, w)
    && FanningAt(After(env, s, fetch), r, w, s.reps[r].workers[w].claim, targets)
    && FanningAt(s', r, w, s.reps[r].workers[w].claim, [])
  }

  lemma {:induction false} NothingLinked(env: Env, s: State, r: ReplicaId, w: nat, targets: seq<Channel>)
    requires Inv(env, s) && Enabled(env, s, Do(r, Work(w, FetchChannels(targets, true))))
    ensures var s' := After(env, s, Do(r, Work(w, FetchChannels(targets, true))));
            && r in s'.reps && s'.reps[r].created == s.reps[r].created
            && forall n :: n in s.reps[r].created ==> s.reps[r].created[n].exec != s.reps[r].workers[w].claim.execId
  {
    assert LocalOk(s.reps[r]) && WorkerLinked(s.reps[r].fetched, s.reps[r].created, s.reps[r].workers[w]);
    CreatedKept(env, s.now, s.reps[r], Work(w, FetchChannels(targets, true)));
    assert After(env, s, Do(r, Work(w, FetchChannels(targets, true)))).reps[r]
        == Next(env, s.now, s.reps[r], Work(w, FetchChannels(targets, true)));
  }

  lemma {:induction false} VisitsAll(env: Env, s: State, r: ReplicaId, w: nat, targets: seq<Channel>, steps: seq<Step>,
        s': State)
    requires FannedOut(env, s, r, w, targets, steps, s')
    ensures var acts, e := ActsOf(steps, r, w), s.reps[r].workers[w].claim.execId;
            && |acts| == |targets| && (forall i :: 0 <= i < |acts| ==> acts[i].Notify?)
            && LinksExact(map[], s'.reps[r].created, e, acts, targets)
  {
    var s1, acts := After(env, s, Do(r, Work(w, FetchChannels(targets, true)))), ActsOf(steps, r, w);
    ReachableInv(env, s);
    NothingLinked(env, s, r, w, targets);
    StepKeepsInv(env, s, Do(r, Work(w, FetchChannels(targets, true))));
    FanoutVisitsInOrder(env, s1, steps, r, w, s.reps[r].workers[w].claim, targets);
    assert |targets[|acts|..]| == 0;
    FromNothing(s1.reps[r].created, s'.reps[r].created, s.reps[r].workers[w].claim.execId, acts, targets);
  }

  lemma {:induction false} FromNothing(a: map<NotifId, Link>, b: map<NotifId, Link>, e: ExecId, acts: seq<WorkAct>,
        todo: seq<Channel>)
    requires LinksExact(a, b, e, acts, todo) && forall n :: n in a ==> a[n].exec != e
    ensures LinksExact(map[], b, e, acts, todo)
  {
  }

  /** At the end of its fan-out the worker has visited each channel it looked up, once; the notifications
      of the execution, in all the database, are those of the enabled channels whose row it took. */
  lemma {:induction false} AnnouncementIsExact(env: Env, s: State, r: ReplicaId, w: nat, targets: seq<Channel>,
        steps: seq<Step>, s': State)
    requires FannedOut(env, s, r, w, targets, steps, s')
    ensures var acts, e := ActsOf(steps, r, w), s.reps[r].workers[w].claim.execId;
            && |acts| == |targets| && (forall i :: 0 <= i < |acts| ==> acts[i].Notify?)
            && (forall i :: 0 <= i < |acts| && acts[i].ok && targets[i].enabled ==>
                  && acts[i].n in s'.reps[r].created && s'.reps[r].created[acts[i].n] == Link(e, targets[i].id)
                  && (acts[i].n in s'.db.notifs ==>
                        s'.db.notifs[acts[i].n].executionId == e && s'.db.notifs[acts[i].n].channelId == targets[i].id))
            && (forall n :: n in s'.db.notifs && s'.db.notifs[n].executionId == e ==>
                  UsedFor(acts, targets, n, s'.db.notifs[n].channelId))
  {
    var acts, e := ActsOf(steps, r, w), s.reps[r].workers[w].claim.execId;
    VisitsAll(env, s, r, w, targets, steps, s');
    ReachedInv(env, s, r, w, targets, steps, s');
    RowsAreLinked(env, s', r, w, e);
  }

  lemma {:induction false} ReachedInv(env: Env, s: State, r: ReplicaId, w: nat, targets: seq<Channel>, steps: seq<Step>,
        s': State)
    requires FannedOut(env, s, r, w, targets, steps, s')
    ensures Inv(env, s')
  {
    ReachableInv(env, s);
    StepKeepsInv(env, s, Do(r, Work(w, FetchChannels(targets, true))));
    RunKeepsInv(env, After(env, s, Do(r, Work(w, FetchChannels(targets, true)))), steps);
  }

  lemma {:induction false} RowsAreLinked(env: Env, s: State, r: ReplicaId, w: nat, e: ExecId)
    requires Inv(env, s) && r in s.reps && w < |s.reps[r].workers| && s.reps[r].workers[w].Busy?
    requires s.reps[r].workers[w].claim.execId == e
    ensures forall n :: n in s.db.notifs && s.db.notifs[n].executionId == e ==>
              n in s.reps[r].created && s.reps[r].created[n] == Link(e, s.db.notifs[n].channelId)
    ensures forall n :: n in s.db.notifs && n in s.reps[r].created ==>
              s.reps[r].created[n] == Link(s.db.notifs[n].executionId, s.db.notifs[n].channelId)
  {
    assert InHands(s.reps[r].workers, s.reps[r].workers[w].claim);
    assert Holds(s.reps[r], s.reps[r].workers[w].claim);
    forall n | n in s.db.notifs
      ensures s.db.notifs[n].executionId == e ==>
                n in s.reps[r].created && s.reps[r].created[n] == Link(e, s.db.notifs[n].channelId)
      ensures n in s.reps[r].created ==>
                s.reps[r].created[n] == Link(s.db.notifs[n].executionId, s.db.notifs[n].channelId)
    {
      NotifOwner(env, s, n);
      assert NotifOk(s, n);
    }
  }
}
