/** Shutdown: once the run's context is cancelled, every step of the process brings it closer to
    returning, some step is always possible, and at return nothing it claimed or created is
    left undone except what a failed write left behind. */
module Drain {
  import opened Domain
  import opened Replica
  import opened ReplicaInvariants
  import opened System
  import opened Ownership
  import opened Notifications
  import opened Invariant

  // ---------------------------------------------------------------- the measure

  function Sum(ws: seq<Worker>, weight: Worker -> nat): nat {
    if ws == [] then 0 else Sum(ws[..|ws| - 1], weight) + weight(ws[|ws| - 1])
  }

  lemma {:induction false} SumUpdate(ws: seq<Worker>, w: nat, wk: Worker, weight: Worker -> nat)
    requires w < |ws|
    ensures Sum(ws[w := wk], weight) + weight(ws[w]) == Sum(ws, weight) + weight(wk)
  {
    var k, ws' := |ws| - 1, ws[w := wk];
    if w < k {
      SumUpdate(ws[..k], w, wk, weight);
      assert ws'[..k] == ws[..k][w := wk];
    } else {
      assert ws'[..k] == ws[..k];
    }
  }

  /** Writes and look-ups a worker has ahead of it. */
  function StagesLeft(wk: Worker): nat {
    if !wk.Busy? then 0
    else match wk.stage
      case Executing => 3
      case Saved(_, _) => 2
      case WroteBack(_) => 1
      case Fanout(_) => 0
  }

  /** Channels a worker has ahead of it, plus its return to the pool. */
  function ChannelsLeft(wk: Worker): nat {
    if wk.Busy? && wk.stage.Fanout? then |wk.stage.todo| + 1 else 0
  }

  function Present(wk: Worker): nat {
    if wk.Exited? then 0 else 1
  }

  function TxRank(rep: Replica): nat {
    match rep.tx
    case NoTx => 0
    case Looping(_, _, _, _, _) => 1
    case Begun(_) => 2
  }

  function RowsLeft(rep: Replica): nat {
    if rep.tx.Looping? && rep.tx.pos <= |rep.tx.rows| then |rep.tx.rows| - rep.tx.pos else 0
  }

  function PhaseRank(rep: Replica): nat {
    match rep.phase
    case Starting => 5
    case Up => 4
    case Draining => if rep.execCancelled then 2 else 3
    case AwaitingSends => 1
    case _ => 0
  }

  /** What is left to do, most significant first. */
  datatype Left = Left(tx: nat, rows: nat, batch: nat, queue: nat, stages: nat, channels: nat,
                       sends: nat, present: nat, phase: nat)

  function LeftOf(rep: Replica): Left {
    Left(TxRank(rep), RowsLeft(rep), |rep.batch|, |rep.queue|, Sum(rep.workers, StagesLeft),
         Sum(rep.workers, ChannelsLeft), |rep.sends|, Sum(rep.workers, Present), PhaseRank(rep))
  }

  /** The lexicographic order. */
  predicate Less(a: Left, b: Left) {
    a.tx < b.tx || (a.tx == b.tx &&
    (a.rows < b.rows || (a.rows == b.rows &&
    (a.batch < b.batch || (a.batch == b.batch &&
    (a.queue < b.queue || (a.queue == b.queue &&
    (a.stages < b.stages || (a.stages == b.stages &&
    (a.channels < b.channels || (a.channels == b.channels &&
    (a.sends < b.sends || (a.sends == b.sends &&
    (a.present < b.present || (a.present == b.present &&
     a.phase < b.phase)))))))))))))))
  }

  lemma {:induction false} TickLeft(env: Env, now: Time, rep: Replica, t: TickAct)
    requires CanTick(now, rep, t) && Bounded(rep) && rep.ctxDone
    ensures Less(LeftOf(TickNext(env, now, rep, t)), LeftOf(rep))
  {
  }

  lemma {:induction false} WorkLeft(env: Env, now: Time, rep: Replica, w: nat, a: WorkAct)
    requires w < |rep.workers| && CanWork(rep, rep.workers[w], a)
    ensures Less(LeftOf(WorkNext(env, now, rep, w, a)), LeftOf(rep))
  {
    var wk := WorkerNext(env, now, rep, rep.workers[w], a);
    SumUpdate(rep.workers, w, wk, StagesLeft);
    SumUpdate(rep.workers, w, wk, ChannelsLeft);
    SumUpdate(rep.workers, w, wk, Present);
  }

  lemma {:induction false} ControlLeft(env: Env, now: Time, rep: Replica, act: Act)
    requires CanAct(now, rep, act) && !act.Tick? && !act.Work? && rep.ctxDone
    ensures Less(LeftOf(Next(env, now, rep, act)), LeftOf(rep))
  {
    if act.SendDone? {
      assert (rep.sends - {act.n}).Keys == rep.sends.Keys - {act.n};
      assert |(rep.sends - {act.n}).Keys| == |rep.sends.Keys| - 1;
    }
  }

  /** After cancellation every step of the process, before or after `execCancel`, leaves less to
      do, and no step adds a claim. */
  lemma {:induction false} DrainDecreases(env: Env, now: Time, rep: Replica, act: Act)
    requires CanAct(now, rep, act) && LocalOk(rep) && rep.ctxDone
    ensures Less(LeftOf(Next(env, now, rep, act)), LeftOf(rep)) && Next(env, now, rep, act).ctxDone
  {
    match act
    case Tick(t) => TickLeft(env, now, rep, t);
    case Work(w, a) => WorkLeft(env, now, rep, w, a);
    case _ => ControlLeft(env, now, rep, act);
  }

  // ---------------------------------------------------------------- no deadlock

  /** A busy worker can always go on, at worst with a write that fails. */
  lemma {:induction false} BusyGoesOn(env: Env, s: State, r: ReplicaId, w: nat) returns (a: WorkAct)
    requires r in s.reps && Alive(s.reps[r]) && w < |s.reps[r].workers| && s.reps[r].workers[w].Busy?
    ensures Enabled(env, s, Do(r, Work(w, a)))
  {
    var rep, wk := s.reps[r], s.reps[r].workers[w];
    match wk.stage
    case Executing => a := Finish(Broken("context canceled"), true);
    case Saved(_, _) => a := WriteBack(false);
    case WroteBack(_) => a := FetchChannels([], false);
    case Fanout(todo) =>
      if todo == [] {
        a := EndJob;
      } else {
        var n := FreshInt(s.notifIds.Keys + rep.created.Keys);
        assert n !in s.notifIds.Keys + rep.created.Keys;
        a := Notify(n, false);
      }
  }

  lemma {:induction false} DrainingGoesOn(env: Env, s: State, r: ReplicaId) returns (act: Act)
    requires r in s.reps && s.reps[r].phase == Draining && Bounded(s.reps[r]) && Phased(s.reps[r])
    ensures Enabled(env, s, Do(r, act)) && !act.Crash?
  {
    var rep := s.reps[r];
    if w :| 0 <= w < |rep.workers| && rep.workers[w].Busy? {
      var a := BusyGoesOn(env, s, r, w);
      act := Work(w, a);
    } else if rep.queue != [] {
      assert !rep.workers[0].Exited?;
      act := Work(0, Dequeue);
    } else if w :| 0 <= w < |rep.workers| && rep.workers[w].Idle? {
      act := Work(w, Exit);
    } else {
      assert forall w :: 0 <= w < |rep.workers| ==> rep.workers[w].Exited?;
      act := WorkersGone;
    }
  }

  lemma {:induction false} AwaitingGoesOn(env: Env, s: State, r: ReplicaId) returns (act: Act)
    requires r in s.reps && s.reps[r].phase == AwaitingSends && Counted(s.reps[r])
    ensures Enabled(env, s, Do(r, act)) && !act.Crash?
  {
    var rep := s.reps[r];
    if rep.sends == map[] {
      act := Return;
    } else {
      assert rep.sends.Keys != {};
      var n := Member(rep.sends.Keys);
      act := SendDone(n, true, "", true);
    }
  }

  /** A cancelled process that has not returned can always take a step of its own. */
  lemma {:induction false} DrainGoesOn(env: Env, s: State, r: ReplicaId) returns (act: Act)
    requires r in s.reps && LocalOk(s.reps[r]) && s.reps[r].ctxDone && Alive(s.reps[r])
    ensures Enabled(env, s, Do(r, act)) && !act.Crash?
  {
    var rep := s.reps[r];
    match rep.phase
    case Starting => act := Recover(false);
    case Up =>
      act := if !rep.tx.NoTx? then Tick(Abort) else if rep.batch != [] then Tick(ShedOnShutdown(true)) else Close;
    case Draining => act := DrainingGoesOn(env, s, r);
    case AwaitingSends => act := AwaitingGoesOn(env, s, r);
  }

  ghost predicate OnlySteps(steps: seq<Step>, r: ReplicaId) {
    forall k :: 0 <= k < |steps| ==> steps[k].Do? && steps[k].r == r && !steps[k].act.Crash?
  }

  /** From every reachable state a cancelled, uncrashed process returns by its own steps alone. */
  lemma {:induction false} DrainCompletes(env: Env, s: State, r: ReplicaId, left: Left) returns (steps: seq<Step>)
    requires Reachable(env, s) && r in s.reps && s.reps[r].ctxDone && s.reps[r].phase != Crashed
    requires left == LeftOf(s.reps[r])
    ensures Run(env, s, steps) && OnlySteps(steps, r)
    ensures r in End(env, s, steps).reps && End(env, s, steps).reps[r].phase == Returned
    decreases left.tx, left.rows, left.batch, left.queue, left.stages, left.channels, left.sends,
              left.present, left.phase
  {
    if s.reps[r].phase == Returned {
      steps := [];
    } else {
      var act, left' := DrainStep(env, s, r);
      var s' := After(env, s, Do(r, act));
      var rest := DrainCompletes(env, s', r, left');
      RunCons(env, s, Do(r, act), rest);
      steps := [Do(r, act)] + rest;
    }
  }

  lemma {:induction false} DrainStep(env: Env, s: State, r: ReplicaId) returns (act: Act, left': Left)
    requires Reachable(env, s) && r in s.reps && s.reps[r].ctxDone && Alive(s.reps[r])
    ensures !act.Crash? && Enabled(env, s, Do(r, act))
    ensures var s' := After(env, s, Do(r, act));
            && Reachable(env, s') && r in s'.reps && s'.reps[r].ctxDone && s'.reps[r].phase != Crashed
            && left' == LeftOf(s'.reps[r]) && Less(left', LeftOf(s.reps[r]))
  {
    ReachableInv(env, s);
    assert LocalOk(s.reps[r]);
    act := DrainGoesOn(env, s, r);
    ReachableStep(env, s, Do(r, act));
    DrainDecreases(env, s.now, s.reps[r], act);
    OnlyCrashCrashes(env, s.now, s.reps[r], act);
    left' := LeftOf(Next(env, s.now, s.reps[r], act));
  }

  lemma {:induction false} OnlyCrashCrashes(env: Env, now: Time, rep: Replica, act: Act)
    requires CanAct(now, rep, act) && !act.Crash?
    ensures Next(env, now, rep, act).phase != Crashed
  {
    match act
    case Tick(t) => assert TickNext(env, now, rep, t).phase == rep.phase;
    case Work(w, a) => assert WorkNext(env, now, rep, w, a).phase == rep.phase;
    case _ =>
  }

  // ---------------------------------------------------------------- safety

  /** Nothing is sent on the claims channel once it is closed. */
  lemma {:induction false} NoSendAfterClose(env: Env, s: State, r: ReplicaId)
    requires Reachable(env, s) && r in s.reps
    requires s.reps[r].phase == Draining || s.reps[r].phase == AwaitingSends || s.reps[r].phase == Returned
    ensures !Enabled(env, s, Do(r, Tick(Enqueue)))
  {
    ReachableInv(env, s);
    assert LocalOk(s.reps[r]);
  }

  /** Once `Run` waits for the dispatcher no send can be added to those it waits for, and it
      returns exactly when the count is zero. */
  lemma {:induction false} NoAddWhileWaiting(env: Env, s: State, r: ReplicaId, act: Act)
    requires Reachable(env, s) && Enabled(env, s, Do(r, act)) && s.reps[r].phase == AwaitingSends
    ensures var rep' := Next(env, s.now, s.reps[r], act);
            && s.reps[r].wg == |s.reps[r].sends|
            && rep'.sends.Keys <= s.reps[r].sends.Keys && rep'.wg <= s.reps[r].wg
            && (act.Return? ==> s.reps[r].sends == map[])
  {
    ReachableInv(env, s);
    assert LocalOk(s.reps[r]);
    SendsShrink(env, s.now, s.reps[r], act);
  }

  lemma {:induction false} SendsShrink(env: Env, now: Time, rep: Replica, act: Act)
    requires LocalOk(rep) && CanAct(now, rep, act) && rep.phase == AwaitingSends
    ensures var rep' := Next(env, now, rep, act);
            && rep.wg == |rep.sends| && rep'.sends.Keys <= rep.sends.Keys && rep'.wg <= rep.wg
            && (act.Return? ==> rep.sends == map[])
  {
    if act.Return? {
      assert |rep.sends| == 0;
    }
  }

  /** What a returned process leaves: every claim was started once or shed once, in claiming
      order; a row of its is `running` exactly if its terminal write failed and no recovery
      marked it since; a notification of its is pending exactly if its status write failed. */
  lemma {:induction false} ReturnedCleanly(env: Env, s: State, r: ReplicaId)
    requires Reachable(env, s) && r in s.reps && s.reps[r].phase == Returned
    ensures var rep := s.reps[r];
            && NoDup(rep.claimed) && Kept(rep.claimed, rep.shed) == rep.started && rep.sends == map[]
            && (forall e :: e in rep.claimed <==> e in rep.done || e in rep.failed)
            && (forall e :: !(e in rep.done && e in rep.failed))
            && (forall e :: e in rep.claimed && e in s.db.execs ==>
                  (s.db.execs[e].status == Running <==> e in rep.failed && e !in s.recovered))
            && (forall n :: n in rep.created && n in s.db.notifs ==>
                  (s.db.notifs[n].status == Pending <==> n in rep.unsaved)
                  && (s.db.notifs[n].status == Sent <==> s.db.notifs[n].sentAt.Some?))
  {
    ReachableInv(env, s);
    var rep := s.reps[r];
    assert LocalOk(rep);
    ReturnedPlaces(rep);
    forall e ensures e in rep.claimed <==> e in rep.done || e in rep.failed
             ensures !(e in rep.done && e in rep.failed)
    {
      PlacedOnce(rep, e);
    }
    forall e | e in rep.claimed && e in s.db.execs
      ensures s.db.execs[e].status == Running <==> e in rep.failed && e !in s.recovered
    {
      assert ExecOk(s, e);
      assert s.tickets[e].rep == r;
      PlacedOnce(rep, e);
    }
    forall n | n in rep.created && n in s.db.notifs
      ensures s.db.notifs[n].status == Pending <==> n in rep.unsaved
      ensures s.db.notifs[n].status == Sent <==> s.db.notifs[n].sentAt.Some?
    {
      assert NotifOk(s, n);
      assert s.notifIds[n] == r;
    }
  }

  lemma {:induction false} ReturnedPlaces(rep: Replica)
    requires Phased(rep) && Fifo(rep) && rep.phase == Returned
    ensures Places(rep) == [] && Kept(rep.claimed, rep.shed) == rep.started
  {
    ExecutingLength(rep.workers);
    assert Passed(rep) == rep.claimed;
  }
}
