/** How long a claim can wait in one process, when a call of `executeJob` takes at most `c`
    milliseconds, ready goroutines run at once and the tick's own database time is neglected. */
module Latency {
  import opened Domain
  import opened Replica
  import opened ReplicaInvariants

  /** The assumption on the passing of time: no run outlives `c`, no worker idles beside a
      buffered claim, the dispatch timer fires on time, and no time passes inside the claim loop. */
  ghost predicate MayPass(rep: Replica, now: Time, dt: nat, c: nat) {
    Alive(rep) ==>
      && (rep.tx.Looping? ==> dt == 0)
      && (rep.batch != [] ==> now + dt <= rep.waitSince + DISPATCH_TIMEOUT)
      && (rep.queue != [] ==> forall w :: 0 <= w < |rep.workers| ==> !rep.workers[w].Idle?)
      && (forall w :: 0 <= w < |rep.workers| && rep.workers[w].Busy? ==> now + dt <= rep.workers[w].startAt + c)
  }

  /** The longest a claim can take to reach the channel: one dispatch wait per slot of the batch. */
  function DispatchBound(workers: nat): Time {
    DISPATCH_TIMEOUT * (2 * workers)
  }

  ghost predicate TickTimed(rep: Replica, now: Time) {
    && (rep.tx.Looping? ==> rep.tx.startedAt == now)
    && (rep.tx.Looping? ==> forall i :: 0 <= i < |rep.tx.claims| ==> rep.tx.claims[i].startedAt == now)
    && (rep.batch != [] ==> now <= rep.waitSince + DISPATCH_TIMEOUT && rep.passed + |rep.batch| <= rep.Capacity())
    && (forall i :: 0 <= i < |rep.batch| ==>
          rep.waitSince <= rep.batch[i].startedAt + DISPATCH_TIMEOUT * rep.passed)
  }

  ghost predicate StartsTimed(rep: Replica, now: Time) {
    && |rep.starts| == |rep.started|
    && (forall k :: 0 <= k < |rep.starts| ==> rep.starts[k] <= now)
    && (forall i, k :: 0 <= i < k < |rep.starts| ==> rep.starts[i] <= rep.starts[k])
  }

  /** A claim buffered at `since` behind fewer than `2 * workers` others: whatever was received
      before it came started by then, the next `workers` claims started within `c`, and it is
      itself received within `2 * c`. */
  ghost predicate QueuedTimed(starts: seq<Time>, workers: nat, q: Queued, p: nat, now: Time, c: nat) {
    && q.since <= q.claim.startedAt + DispatchBound(workers)
    && q.startedBefore <= |starts| && |starts| + p < q.startedBefore + 2 * workers
    && now <= q.since + 2 * c
    && (|starts| < q.startedBefore + workers ==> now <= q.since + c)
    && (forall k :: 0 <= k < q.startedBefore ==> starts[k] <= q.since)
    && (forall k :: q.startedBefore <= k < |starts| && k < q.startedBefore + workers ==> starts[k] <= q.since + c)
  }

  ghost predicate WorkerTimed(starts: seq<Time>, workers: nat, wk: Worker, now: Time, c: nat) {
    wk.Busy? ==>
      && wk.ordinal < |starts| && wk.startAt == starts[wk.ordinal]
      && now <= wk.startAt + c
      && wk.startAt <= wk.claim.startedAt + DispatchBound(workers) + 2 * c
  }

  ghost predicate Timed(rep: Replica, now: Time, c: nat) {
    Alive(rep) ==>
      && TickTimed(rep, now) && StartsTimed(rep, now)
      && (forall p :: 0 <= p < |rep.queue| ==> QueuedTimed(rep.starts, |rep.workers|, rep.queue[p], p, now, c))
      && (forall w :: 0 <= w < |rep.workers| ==> WorkerTimed(rep.starts, |rep.workers|, rep.workers[w], now, c))
  }

  // ---------------------------------------------------------------- pigeonhole

  lemma {:induction false} Fits(s: set<int>, lo: nat, hi: nat)
    requires lo <= hi && forall i :: i in s ==> lo <= i < hi
    ensures |s| <= hi - lo
    decreases hi
  {
    if lo == hi {
      if s != {} {
        var i := Member(s);
        assert false;
      }
    } else {
      Fits(s - {hi - 1}, lo, hi - 1);
    }
  }

  ghost function Ordinals(ws: seq<Worker>): set<int> {
    set w | 0 <= w < |ws| && ws[w].Busy? :: ws[w].ordinal
  }

  lemma {:induction false} OrdinalsCount(ws: seq<Worker>)
    requires forall w :: 0 <= w < |ws| ==> ws[w].Busy?
    requires forall v, w :: 0 <= v < w < |ws| ==> ws[v].ordinal != ws[w].ordinal
    ensures |Ordinals(ws)| == |ws|
  {
    if ws != [] {
      var k := |ws| - 1;
      OrdinalsCount(ws[..k]);
      assert Ordinals(ws) == Ordinals(ws[..k]) + {ws[k].ordinal};
    }
  }

  /** Of `|ws|` busy workers one runs a claim at least `|ws|` behind the latest received. */
  lemma {:induction false} OldestWorker(ws: seq<Worker>, received: nat) returns (w: nat)
    requires ws != [] && forall v :: 0 <= v < |ws| ==> ws[v].Busy? && ws[v].ordinal < received
    requires forall u, v :: 0 <= u < v < |ws| ==> ws[u].ordinal != ws[v].ordinal
    ensures w < |ws| && ws[w].ordinal + |ws| <= received
  {
    OrdinalsCount(ws);
    if received < |ws| || forall v :: 0 <= v < |ws| ==> ws[v].ordinal > received - |ws| {
      var lo := if received < |ws| then 0 else received - |ws| + 1;
      Fits(Ordinals(ws), lo, received);
      assert false;
    }
    w :| 0 <= w < |ws| && ws[w].ordinal <= received - |ws|;
  }

  // ---------------------------------------------------------------- time passes

  lemma {:induction false} QueuedWaits(rep: Replica, now: Time, dt: nat, c: nat, p: nat)
    requires Alive(rep) && Timed(rep, now, c) && Ordered(rep) && Bounded(rep) && Phased(rep)
    requires MayPass(rep, now, dt, c) && p < |rep.queue|
    ensures QueuedTimed(rep.starts, |rep.workers|, rep.queue[p], p, now + dt, c)
  {
    var ws, starts, q := rep.workers, rep.starts, rep.queue[p];
    assert forall v :: 0 <= v < |ws| ==> ws[v].Busy?;
    assert QueuedTimed(starts, |ws|, q, p, now, c);
    var w := OldestWorker(ws, |starts|);
    var k := |starts| - |ws|;
    assert WorkerTimed(starts, |ws|, ws[w], now, c);
    assert starts[ws[w].ordinal] <= starts[k];
    assert now + dt <= starts[k] + c;
  }

  lemma {:induction false} TimePasses(rep: Replica, now: Time, dt: nat, c: nat)
    requires Timed(rep, now, c) && Ordered(rep) && Bounded(rep) && Phased(rep)
    requires MayPass(rep, now, dt, c)
    ensures Timed(rep, now + dt, c)
  {
    if Alive(rep) {
      forall p | 0 <= p < |rep.queue|
        ensures QueuedTimed(rep.starts, |rep.workers|, rep.queue[p], p, now + dt, c)
      {
        QueuedWaits(rep, now, dt, c, p);
      }
      forall w | 0 <= w < |rep.workers|
        ensures WorkerTimed(rep.starts, |rep.workers|, rep.workers[w], now + dt, c)
      {
        assert WorkerTimed(rep.starts, |rep.workers|, rep.workers[w], now, c);
      }
    }
  }

  // ---------------------------------------------------------------- steps

  lemma {:induction false} EnqueueTimed(env: Env, rep: Replica, now: Time, c: nat)
    requires CanTick(now, rep, Enqueue) && Alive(rep) && Timed(rep, now, c)
    ensures Timed(TickNext(env, now, rep, Enqueue), now, c)
  {
    var rep' := TickNext(env, now, rep, Enqueue);
    var n := |rep.queue|;
    assert QueuedTimed(rep.starts, |rep.workers|, rep'.queue[n], n, now, c) by {
      assert rep.waitSince <= rep.batch[0].startedAt + DISPATCH_TIMEOUT * rep.passed;
    }
  }

  lemma {:induction false} TickTimes(env: Env, rep: Replica, t: TickAct, now: Time)
    requires CanTick(now, rep, t) && Alive(rep) && Bounded(rep) && TickTimed(rep, now)
    ensures TickTimed(TickNext(env, now, rep, t), now)
  {
  }

  lemma {:induction false} TickKeepsTimed(env: Env, rep: Replica, t: TickAct, now: Time, c: nat)
    requires CanTick(now, rep, t) && Alive(rep) && Bounded(rep) && Timed(rep, now, c)
    ensures Timed(TickNext(env, now, rep, t), now, c)
  {
    if t.Enqueue? {
      EnqueueTimed(env, rep, now, c);
    } else {
      var rep' := TickNext(env, now, rep, t);
      assert rep'.queue == rep.queue && rep'.workers == rep.workers && rep'.starts == rep.starts;
      TickTimes(env, rep, t, now);
    }
  }

  lemma {:induction false} ReceiveTimed(starts: seq<Time>, workers: nat, q: Queued, p: nat, now: Time, c: nat)
    requires p > 0 && QueuedTimed(starts, workers, q, p, now, c)
    ensures QueuedTimed(starts + [now], workers, q, p - 1, now, c)
  {
  }

  lemma {:induction false} DequeueTimed(env: Env, rep: Replica, w: nat, now: Time, c: nat)
    requires w < |rep.workers| && CanWork(rep, rep.workers[w], Dequeue) && Alive(rep) && Timed(rep, now, c)
    ensures Timed(WorkNext(env, now, rep, w, Dequeue), now, c)
  {
    var rep' := WorkNext(env, now, rep, w, Dequeue);
    assert rep'.starts == rep.starts + [now] && rep'.queue == rep.queue[1..] && |rep'.workers| == |rep.workers|;
    assert QueuedTimed(rep.starts, |rep.workers|, rep.queue[0], 0, now, c);
    forall p | 0 <= p < |rep'.queue|
      ensures QueuedTimed(rep'.starts, |rep'.workers|, rep'.queue[p], p, now, c)
    {
      ReceiveTimed(rep.starts, |rep.workers|, rep.queue[p + 1], p + 1, now, c);
    }
    forall v | 0 <= v < |rep'.workers|
      ensures WorkerTimed(rep'.starts, |rep'.workers|, rep'.workers[v], now, c)
    {
      assert WorkerTimed(rep.starts, |rep.workers|, rep.workers[v], now, c);
    }
  }

  lemma {:induction false} StageTimed(rep: Replica, rep': Replica, w: nat, wk: Worker, now: Time, c: nat)
    requires w < |rep.workers| && Alive(rep) && Timed(rep, now, c)
    requires rep'.phase == rep.phase && rep'.tx == rep.tx && rep'.batch == rep.batch
    requires rep'.waitSince == rep.waitSince && rep'.passed == rep.passed && rep'.queue == rep.queue
    requires rep'.starts == rep.starts && rep'.started == rep.started
    requires rep'.workers == rep.workers[w := wk]
    requires wk.Busy? ==> rep.workers[w].Busy? && wk == rep.workers[w].(stage := wk.stage)
    ensures Timed(rep', now, c)
  {
    assert WorkerTimed(rep.starts, |rep.workers|, rep.workers[w], now, c);
    assert TickTimed(rep', now);
  }

  lemma {:induction false} WorkKeepsTimed(env: Env, rep: Replica, w: nat, a: WorkAct, now: Time, c: nat)
    requires w < |rep.workers| && CanWork(rep, rep.workers[w], a) && Alive(rep)
    requires Timed(rep, now, c)
    ensures Timed(WorkNext(env, now, rep, w, a), now, c)
  {
    if a.Dequeue? {
      DequeueTimed(env, rep, w, now, c);
    } else {
      StageTimed(rep, WorkNext(env, now, rep, w, a), w, WorkerNext(env, now, rep, rep.workers[w], a), now, c);
    }
  }

  lemma {:induction false} ActKeepsTimed(env: Env, rep: Replica, act: Act, now: Time, c: nat)
    requires CanAct(now, rep, act) && Timed(rep, now, c) && Bounded(rep)
    ensures Timed(Next(env, now, rep, act), now, c)
  {
    if act.Tick? {
      TickKeepsTimed(env, rep, act.t, now, c);
    } else if act.Work? {
      WorkKeepsTimed(env, rep, act.w, act.a, now, c);
    } else {
      var rep' := Next(env, now, rep, act);
      assert rep'.queue == rep.queue && rep'.starts == rep.starts && rep'.workers == rep.workers;
    }
  }

  // ---------------------------------------------------------------- the bound

  function LatencyBound(workers: nat, c: nat): Time {
    DispatchBound(workers) + 3 * c
  }

  /** A claim the process still has to finish is no older than `workers` seconds and three calls. */
  ghost predicate Young(rep: Replica, now: Time, c: nat) {
    var bound := LatencyBound(|rep.workers|, c);
    && (forall i :: 0 <= i < |rep.batch| ==> now <= rep.batch[i].startedAt + bound)
    && (forall p :: 0 <= p < |rep.queue| ==> now <= rep.queue[p].claim.startedAt + bound)
    && (forall w :: 0 <= w < |rep.workers| && rep.workers[w].Busy? ==> now <= rep.workers[w].claim.startedAt + bound)
  }

  lemma {:induction false} TimedIsYoung(rep: Replica, now: Time, c: nat)
    requires Alive(rep) && Timed(rep, now, c) && Bounded(rep)
    ensures Young(rep, now, c)
  {
    forall i | 0 <= i < |rep.batch|
      ensures now <= rep.batch[i].startedAt + LatencyBound(|rep.workers|, c)
    {
      assert rep.waitSince <= rep.batch[i].startedAt + DISPATCH_TIMEOUT * rep.passed;
    }
    forall p | 0 <= p < |rep.queue|
      ensures now <= rep.queue[p].claim.startedAt + LatencyBound(|rep.workers|, c)
    {
      assert QueuedTimed(rep.starts, |rep.workers|, rep.queue[p], p, now, c);
    }
    forall w | 0 <= w < |rep.workers| && rep.workers[w].Busy?
      ensures now <= rep.workers[w].claim.startedAt + LatencyBound(|rep.workers|, c)
    {
      assert WorkerTimed(rep.starts, |rep.workers|, rep.workers[w], now, c);
    }
  }
}
