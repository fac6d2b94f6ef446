/** What every action of one process keeps, whatever the others do. */
module ReplicaInvariants {
  import opened Domain
  import opened Tables
  import opened Replica

  // ---------------------------------------------------------------- shape

  /** Buffer bounds. */
  ghost predicate Bounded(rep: Replica) {
    && |rep.batch| <= rep.Capacity() && |rep.queue| <= rep.Capacity()
    && (rep.tx.Looping? ==>
          |rep.tx.rows| <= rep.Capacity() && rep.tx.pos <= |rep.tx.rows| && |rep.tx.claims| <= rep.tx.pos)
    && (!rep.tx.NoTx? ==> rep.batch == [])
  }

  /** What each phase of `Run` implies. */
  ghost predicate Phased(rep: Replica) {
    && (!rep.tx.NoTx? ==> rep.phase == Up)
    && (rep.batch != [] ==> rep.phase == Up || rep.phase == Crashed)
    && (rep.phase == Starting ==> rep.queue == [])
    && (rep.phase == Draining || rep.phase == AwaitingSends || rep.phase == Returned ==> rep.ctxDone)
    && (rep.phase == AwaitingSends || rep.phase == Returned ==>
          rep.queue == [] && forall w :: 0 <= w < |rep.workers| ==> rep.workers[w].Exited?)
    && (forall w :: 0 <= w < |rep.workers| && rep.workers[w].Exited? ==>
          rep.queue == [] && rep.phase != Starting && rep.phase != Up)
  }

  /** The WaitGroup counts exactly the sends in flight. */
  ghost predicate Counted(rep: Replica) {
    && rep.wg == |rep.sends|
    && (forall n :: n in rep.sends ==> n in rep.created && n !in rep.unsaved)
    && (forall n :: n in rep.unsaved ==> n in rep.created)
    && (rep.phase == Returned ==> rep.sends == map[])
  }

  lemma {:induction false} TickKeepsShape(env: Env, now: Time, rep: Replica, t: TickAct)
    requires CanTick(now, rep, t) && Alive(rep) && Bounded(rep) && Phased(rep)
    ensures Bounded(TickNext(env, now, rep, t)) && Phased(TickNext(env, now, rep, t))
  {
  }

  lemma {:induction false} WorkKeepsShape(env: Env, now: Time, rep: Replica, w: nat, a: WorkAct)
    requires Alive(rep) && w < |rep.workers| && CanWork(rep, rep.workers[w], a) && Bounded(rep) && Phased(rep)
    ensures Bounded(WorkNext(env, now, rep, w, a)) && Phased(WorkNext(env, now, rep, w, a))
  {
  }

  lemma {:induction false} WorkKeepsCount(env: Env, now: Time, rep: Replica, w: nat, a: WorkAct)
    requires Alive(rep) && w < |rep.workers| && CanWork(rep, rep.workers[w], a) && Counted(rep)
    ensures Counted(WorkNext(env, now, rep, w, a))
  {
  }

  lemma {:induction false} ControlKeepsShape(env: Env, now: Time, rep: Replica, act: Act)
    requires CanAct(now, rep, act) && !act.Tick? && !act.Work? && Bounded(rep) && Phased(rep)
    ensures var rep' := Next(env, now, rep, act); Bounded(rep') && Phased(rep')
  {
    assert act.WorkersGone? && |rep.workers| > 0 ==> rep.workers[0].Exited?;
  }

  lemma {:induction false} ControlKeepsCount(env: Env, now: Time, rep: Replica, act: Act)
    requires CanAct(now, rep, act) && !act.Tick? && !act.Work? && Counted(rep)
    ensures Counted(Next(env, now, rep, act))
  {
    if act.SendDone? {
      assert (rep.sends - {act.n}).Keys == rep.sends.Keys - {act.n};
      assert |(rep.sends - {act.n}).Keys| == |rep.sends.Keys| - 1;
    } else if act.Return? {
      assert |rep.sends| == 0;
    }
  }

  lemma {:induction false} TickKeepsCount(env: Env, now: Time, rep: Replica, t: TickAct)
    requires CanTick(now, rep, t) && Alive(rep) && Counted(rep)
    ensures Counted(TickNext(env, now, rep, t))
  {
  }

  lemma {:induction false} ShapeKept(env: Env, now: Time, rep: Replica, act: Act)
    requires CanAct(now, rep, act) && Bounded(rep) && Phased(rep)
    ensures Bounded(Next(env, now, rep, act)) && Phased(Next(env, now, rep, act))
  {
    match act
    case Tick(t) => TickKeepsShape(env, now, rep, t);
    case Work(w, a) => WorkKeepsShape(env, now, rep, w, a);
    case _ => ControlKeepsShape(env, now, rep, act);
  }

  lemma {:induction false} CountKept(env: Env, now: Time, rep: Replica, act: Act)
    requires CanAct(now, rep, act) && Counted(rep)
    ensures Counted(Next(env, now, rep, act))
  {
    match act
    case Tick(t) => TickKeepsCount(env, now, rep, t);
    case Work(w, a) => WorkKeepsCount(env, now, rep, w, a);
    case _ => ControlKeepsCount(env, now, rep, act);
  }

  // ---------------------------------------------------------------- where each claim is

  function QueueIds(q: seq<Queued>): (ids: seq<ExecId>)
    ensures |ids| == |q|
    ensures forall i :: 0 <= i < |q| ==> ids[i] == q[i].claim.execId
  {
    seq(|q|, i requires 0 <= i < |q| => q[i].claim.execId)
  }

  function Count(ids: seq<ExecId>, e: ExecId): nat {
    if ids == [] then 0 else Count(ids[..|ids| - 1], e) + (if ids[|ids| - 1] == e then 1 else 0)
  }

  lemma {:induction false} CountConcat(a: seq<ExecId>, b: seq<ExecId>, e: ExecId)
    ensures Count(a + b, e) == Count(a, e) + Count(b, e)
  {
    if b == [] {
      assert a + b == a;
    } else {
      CountConcat(a, b[..|b| - 1], e);
      assert (a + b)[..|a + b| - 1] == a + b[..|b| - 1];
    }
  }

  lemma {:induction false} CountIn(ids: seq<ExecId>, e: ExecId)
    ensures Count(ids, e) > 0 <==> e in ids
    ensures NoDup(ids) ==> Count(ids, e) <= 1
  {
    if ids != [] {
      assert ids == ids[..|ids| - 1] + [ids[|ids| - 1]];
      CountIn(ids[..|ids| - 1], e);
    }
  }

  function Executed(wk: Worker): seq<ExecId> {
    if wk.Busy? && wk.stage.Executing? then [wk.claim.execId] else []
  }

  /** The executions that workers run and have not written back yet. */
  function ExecutingIds(ws: seq<Worker>): seq<ExecId> {
    if ws == [] then [] else ExecutingIds(ws[..|ws| - 1]) + Executed(ws[|ws| - 1])
  }

  function Runs(wk: Worker, e: ExecId): nat {
    if wk.Busy? && wk.stage.Executing? && wk.claim.execId == e then 1 else 0
  }

  function RunsOf(ws: seq<Worker>, e: ExecId): nat {
    if ws == [] then 0 else RunsOf(ws[..|ws| - 1], e) + Runs(ws[|ws| - 1], e)
  }

  lemma {:induction false} RunsAre(ws: seq<Worker>, e: ExecId)
    ensures Count(ExecutingIds(ws), e) == RunsOf(ws, e)
  {
    if ws != [] {
      var front, last := ws[..|ws| - 1], ws[|ws| - 1];
      RunsAre(front, e);
      CountConcat(ExecutingIds(front), Executed(last), e);
    }
  }

  lemma {:induction false} RunsUpdate(ws: seq<Worker>, w: nat, wk: Worker, e: ExecId)
    requires w < |ws|
    ensures RunsOf(ws[w := wk], e) + Runs(ws[w], e) == RunsOf(ws, e) + Runs(wk, e)
  {
    var k, ws' := |ws| - 1, ws[w := wk];
    if w < k {
      RunsUpdate(ws[..k], w, wk, e);
      assert ws'[..k] == ws[..k][w := wk];
    } else {
      assert ws'[..k] == ws[..k];
    }
  }

  lemma {:induction false} ExecutingUpdate(ws: seq<Worker>, w: nat, wk: Worker, e: ExecId)
    requires w < |ws|
    ensures Count(ExecutingIds(ws[w := wk]), e) + Count(Executed(ws[w]), e)
         == Count(ExecutingIds(ws), e) + Count(Executed(wk), e)
  {
    RunsAre(ws, e);
    RunsAre(ws[w := wk], e);
    RunsUpdate(ws, w, wk, e);
  }

  lemma {:induction false} ExecutingLength(ws: seq<Worker>)
    ensures |ExecutingIds(ws)| <= |ws|
    ensures (forall w :: 0 <= w < |ws| ==> !ws[w].Busy?) ==> ExecutingIds(ws) == []
  {
    if ws != [] {
      ExecutingLength(ws[..|ws| - 1]);
    }
  }

  lemma {:induction false} ExecutingMember(ws: seq<Worker>, w: nat)
    requires w < |ws| && ws[w].Busy? && ws[w].stage.Executing?
    ensures ws[w].claim.execId in ExecutingIds(ws)
  {
    if w < |ws| - 1 {
      ExecutingMember(ws[..|ws| - 1], w);
    }
  }

  /** The places a claim whose terminal write is still to come can be: the undispatched batch,
      the channel, or a worker. */
  function Places(rep: Replica): seq<ExecId> {
    ClaimIds(rep.batch) + QueueIds(rep.queue) + ExecutingIds(rep.workers)
  }

  lemma {:induction false} PlaceCount(rep: Replica, e: ExecId)
    ensures Count(Places(rep), e)
         == Count(ClaimIds(rep.batch), e) + Count(QueueIds(rep.queue), e) + Count(ExecutingIds(rep.workers), e)
  {
    CountConcat(ClaimIds(rep.batch) + QueueIds(rep.queue), ExecutingIds(rep.workers), e);
    CountConcat(ClaimIds(rep.batch), QueueIds(rep.queue), e);
  }

  function One(b: bool): nat {
    if b then 1 else 0
  }

  /** How often `e` is waiting, running, or had its terminal write attempted. */
  function Tally(rep: Replica, e: ExecId): nat {
    Count(Places(rep), e) + One(e in rep.done) + One(e in rep.failed)
  }

  /** Every claim ever returned to the process is in exactly one place, or had its terminal
      write attempted once. */
  ghost predicate Placed(rep: Replica) {
    && NoDup(rep.claimed)
    && (forall e :: Tally(rep, e) == One(e in rep.claimed))
    && rep.shed <= rep.done + rep.failed
  }

  ghost predicate TxFresh(rep: Replica) {
    rep.tx.Looping? ==> NoDup(rep.claimed + ClaimIds(rep.tx.claims))
  }

  lemma {:induction false} BatchHead(batch: seq<Claim>, e: ExecId)
    requires batch != []
    ensures ClaimIds(batch) == [batch[0].execId] + ClaimIds(batch[1..])
    ensures Count(ClaimIds(batch), e) == One(batch[0].execId == e) + Count(ClaimIds(batch[1..]), e)
  {
    assert ClaimIds(batch) == [batch[0].execId] + ClaimIds(batch[1..]);
    CountConcat([batch[0].execId], ClaimIds(batch[1..]), e);
  }

  lemma {:induction false} QueueIdsHead(q: seq<Queued>)
    requires q != []
    ensures QueueIds(q) == [q[0].claim.execId] + QueueIds(q[1..])
  {
    assert QueueIds(q) == [q[0].claim.execId] + QueueIds(q[1..]);
  }

  lemma {:induction false} QueueIdsLast(q: seq<Queued>, x: Queued)
    ensures QueueIds(q + [x]) == QueueIds(q) + [x.claim.execId]
  {
    assert QueueIds(q + [x]) == QueueIds(q) + [x.claim.execId];
  }

  lemma {:induction false} QueueHead(q: seq<Queued>, e: ExecId)
    requires q != []
    ensures Count(QueueIds(q), e) == One(q[0].claim.execId == e) + Count(QueueIds(q[1..]), e)
  {
    QueueIdsHead(q);
    CountConcat([q[0].claim.execId], QueueIds(q[1..]), e);
  }

  lemma {:induction false} QueueLast(q: seq<Queued>, x: Queued, e: ExecId)
    ensures Count(QueueIds(q + [x]), e) == Count(QueueIds(q), e) + One(x.claim.execId == e)
  {
    QueueIdsLast(q, x);
  }

  lemma {:induction false} EnqueueTally(env: Env, now: Time, rep: Replica, e: ExecId)
    requires CanTick(now, rep, Enqueue)
    ensures Tally(TickNext(env, now, rep, Enqueue), e) == Tally(rep, e)
  {
    var rep' := TickNext(env, now, rep, Enqueue);
    PlaceCount(rep, e);
    PlaceCount(rep', e);
    BatchHead(rep.batch, e);
    QueueLast(rep.queue, rep'.queue[|rep.queue|], e);
  }

  lemma {:induction false} ShedTally(now: Time, rep: Replica, ok: bool, e: ExecId)
    requires rep.batch != [] && rep.batch[0].execId !in rep.done && rep.batch[0].execId !in rep.failed
    ensures Tally(Shed(now, rep, ok), e) == Tally(rep, e)
  {
    PlaceCount(rep, e);
    PlaceCount(Shed(now, rep, ok), e);
    BatchHead(rep.batch, e);
  }

  lemma {:induction false} CommitTally(env: Env, now: Time, rep: Replica, e: ExecId)
    requires CanTick(now, rep, Commit) && Bounded(rep)
    ensures Tally(TickNext(env, now, rep, Commit), e) == Tally(rep, e) + Count(ClaimIds(rep.tx.claims), e)
  {
    PlaceCount(rep, e);
    PlaceCount(TickNext(env, now, rep, Commit), e);
  }

  lemma {:induction false} TickPlaced(env: Env, now: Time, rep: Replica, t: TickAct)
    requires CanTick(now, rep, t) && Bounded(rep) && Placed(rep) && TxFresh(rep)
    ensures Placed(TickNext(env, now, rep, t))
  {
    var rep' := TickNext(env, now, rep, t);
    match t
    case Enqueue =>
      forall e ensures Tally(rep', e) == Tally(rep, e) { EnqueueTally(env, now, rep, e); }
    case ShedOnShutdown(ok) => ShedPlaced(now, rep, ok);
    case ShedOnTimeout(ok) => ShedPlaced(now, rep, ok);
    case Commit => CommitPlaced(env, now, rep);
    case _ => assert forall e :: Tally(rep', e) == Tally(rep, e);
  }

  /** A claim in some place has no terminal write behind it. */
  lemma {:induction false} PlacedOnce(rep: Replica, e: ExecId)
    requires Placed(rep)
    ensures Count(Places(rep), e) <= 1
    ensures e in Places(rep) ==> e in rep.claimed && e !in rep.done && e !in rep.failed && e !in rep.shed
    ensures e in rep.claimed <==> e in Places(rep) || e in rep.done || e in rep.failed
    ensures !(e in rep.done && e in rep.failed)
  {
    CountIn(Places(rep), e);
    assert Tally(rep, e) == One(e in rep.claimed);
  }

  lemma {:induction false} ShedPlaced(now: Time, rep: Replica, ok: bool)
    requires rep.batch != [] && Placed(rep)
    ensures Placed(Shed(now, rep, ok))
  {
    var b := rep.batch[0].execId;
    assert Places(rep)[0] == b;
    PlacedOnce(rep, b);
    forall e ensures Tally(Shed(now, rep, ok), e) == Tally(rep, e) { ShedTally(now, rep, ok, e); }
  }

  lemma {:induction false} CommitPlaced(env: Env, now: Time, rep: Replica)
    requires CanTick(now, rep, Commit) && Bounded(rep) && Placed(rep) && TxFresh(rep)
    ensures Placed(TickNext(env, now, rep, Commit))
  {
    var rep' := TickNext(env, now, rep, Commit);
    forall e ensures Tally(rep', e) == One(e in rep'.claimed) {
      CommitTally(env, now, rep, e);
      CountConcat(rep.claimed, ClaimIds(rep.tx.claims), e);
      CountIn(rep.claimed, e);
      CountIn(rep'.claimed, e);
      CountIn(ClaimIds(rep.tx.claims), e);
      assert Tally(rep, e) == One(e in rep.claimed);
    }
  }

  /** What a step of worker `w` does to the places, told by the fields it changes. */
  ghost predicate WorkerMoved(rep: Replica, rep': Replica, w: nat, wk: Worker) {
    w < |rep.workers| && rep'.workers == rep.workers[w := wk] && rep'.batch == rep.batch
    && rep'.claimed == rep.claimed && rep'.shed == rep.shed
  }

  lemma {:induction false} DequeueTally(rep: Replica, rep': Replica, w: nat, wk: Worker, e: ExecId)
    requires WorkerMoved(rep, rep', w, wk) && rep.queue != [] && rep'.queue == rep.queue[1..]
    requires rep'.done == rep.done && rep'.failed == rep.failed
    requires Executed(rep.workers[w]) == [] && Executed(wk) == [rep.queue[0].claim.execId]
    ensures Tally(rep', e) == Tally(rep, e)
  {
    PlaceCount(rep, e);
    PlaceCount(rep', e);
    ExecutingUpdate(rep.workers, w, wk, e);
    QueueHead(rep.queue, e);
  }

  lemma {:induction false} FinishTally(rep: Replica, rep': Replica, w: nat, wk: Worker, f: ExecId, e: ExecId)
    requires WorkerMoved(rep, rep', w, wk) && rep'.queue == rep.queue
    requires Executed(rep.workers[w]) == [f] && Executed(wk) == []
    requires f !in rep.done && f !in rep.failed
    requires rep'.done + rep'.failed == rep.done + rep.failed + {f}
    requires One(f in rep'.done) + One(f in rep'.failed) == 1
    requires forall x :: x != f ==> (x in rep'.done <==> x in rep.done) && (x in rep'.failed <==> x in rep.failed)
    ensures Tally(rep', e) == Tally(rep, e)
  {
    PlaceCount(rep, e);
    PlaceCount(rep', e);
    ExecutingUpdate(rep.workers, w, wk, e);
  }

  lemma {:induction false} QuietTally(rep: Replica, rep': Replica, w: nat, wk: Worker, e: ExecId)
    requires WorkerMoved(rep, rep', w, wk) && rep'.queue == rep.queue
    requires rep'.done == rep.done && rep'.failed == rep.failed
    requires Executed(rep.workers[w]) == [] && Executed(wk) == []
    ensures Tally(rep', e) == Tally(rep, e)
  {
    PlaceCount(rep, e);
    PlaceCount(rep', e);
    ExecutingUpdate(rep.workers, w, wk, e);
  }

  lemma {:induction false} FinishPlaced(env: Env, now: Time, rep: Replica, w: nat, a: WorkAct)
    requires w < |rep.workers| && CanWork(rep, rep.workers[w], a) && a.Finish? && Placed(rep)
    ensures Placed(WorkNext(env, now, rep, w, a))
  {
    var rep', wk := WorkNext(env, now, rep, w, a), WorkerNext(env, now, rep, rep.workers[w], a);
    var f := rep.workers[w].claim.execId;
    ExecutingMember(rep.workers, w);
    PlacedOnce(rep, f);
    forall e ensures Tally(rep', e) == Tally(rep, e) { FinishTally(rep, rep', w, wk, f, e); }
  }

  lemma {:induction false} WorkPlaced(env: Env, now: Time, rep: Replica, w: nat, a: WorkAct)
    requires w < |rep.workers| && CanWork(rep, rep.workers[w], a) && Placed(rep)
    ensures Placed(WorkNext(env, now, rep, w, a))
  {
    if a.Finish? {
      FinishPlaced(env, now, rep, w, a);
    } else {
      var rep', wk := WorkNext(env, now, rep, w, a), WorkerNext(env, now, rep, rep.workers[w], a);
      forall e ensures Tally(rep', e) == Tally(rep, e) {
        if a.Dequeue? {
          DequeueTally(rep, rep', w, wk, e);
        } else {
          QuietTally(rep, rep', w, wk, e);
        }
      }
    }
  }

  /** Each replica holds at most five claims per worker, three between ticks. */
  lemma {:induction false} HeldBound(rep: Replica)
    requires Bounded(rep)
    ensures |Places(rep)| <= 5 * |rep.workers|
    ensures rep.batch == [] ==> |Places(rep)| <= 3 * |rep.workers|
  {
    ExecutingLength(rep.workers);
  }

  // ---------------------------------------------------------------- order

  /** `ids` without the members of `out`, in the same order. */
  function Kept(ids: seq<ExecId>, out: set<ExecId>): seq<ExecId> {
    if ids == [] then []
    else Kept(ids[..|ids| - 1], out) + (if ids[|ids| - 1] in out then [] else [ids[|ids| - 1]])
  }

  lemma {:induction false} KeptIsSublist(ids: seq<ExecId>, out: set<ExecId>)
    ensures forall e :: e in Kept(ids, out) <==> e in ids && e !in out
    ensures NoDup(ids) ==> NoDup(Kept(ids, out))
  {
    if ids != [] {
      var front, last := ids[..|ids| - 1], ids[|ids| - 1];
      KeptIsSublist(front, out);
      assert ids == front + [last];
    }
  }

  lemma {:induction false} KeptGrows(ids: seq<ExecId>, out: set<ExecId>, e: ExecId)
    requires e !in ids
    ensures Kept(ids, out + {e}) == Kept(ids, out)
  {
    if ids != [] {
      KeptGrows(ids[..|ids| - 1], out, e);
    }
  }

  /** The claims the tick loop has dealt with. */
  function Passed(rep: Replica): seq<ExecId>
    requires |rep.batch| <= |rep.claimed|
  {
    rep.claimed[..|rep.claimed| - |rep.batch|]
  }

  /** First in, first out: the executions started, then those buffered, are the claims passed
      on so far without the shed ones, in claiming order; the batch is what is left. */
  ghost predicate Fifo(rep: Replica) {
    && |rep.batch| <= |rep.claimed|
    && rep.claimed[|rep.claimed| - |rep.batch|..] == ClaimIds(rep.batch)
    && Kept(Passed(rep), rep.shed) == rep.started + QueueIds(rep.queue)
  }

  /** Each busy worker runs the claim its ordinal says, and no two share one. */
  ghost predicate Ordered(rep: Replica) {
    && |rep.starts| == |rep.started|
    && (forall w :: 0 <= w < |rep.workers| && rep.workers[w].Busy? ==>
          rep.workers[w].ordinal < |rep.started|
          && rep.started[rep.workers[w].ordinal] == rep.workers[w].claim.execId)
    && (forall v, w :: 0 <= v < w < |rep.workers| && rep.workers[v].Busy? && rep.workers[w].Busy? ==>
          rep.workers[v].ordinal != rep.workers[w].ordinal)
  }

  lemma {:induction false} StartedOnce(rep: Replica)
    requires Placed(rep) && Fifo(rep)
    ensures NoDup(rep.started + QueueIds(rep.queue))
    ensures forall e :: e in rep.started + QueueIds(rep.queue) ==> e in rep.claimed && e !in rep.shed
  {
    KeptIsSublist(Passed(rep), rep.shed);
  }

  lemma {:induction false} PassHead(rep: Replica)
    requires rep.batch != [] && Fifo(rep)
    ensures var n := |rep.claimed| - |rep.batch|;
            && rep.claimed[n] == rep.batch[0].execId
            && rep.claimed[..n + 1] == Passed(rep) + [rep.batch[0].execId]
            && rep.claimed[n + 1..] == ClaimIds(rep.batch[1..])
  {
    var n := |rep.claimed| - |rep.batch|;
    BatchHead(rep.batch, 0);
    assert rep.claimed[n] == rep.claimed[n..][0];
    assert rep.claimed[n + 1..] == rep.claimed[n..][1..];
  }

  lemma {:induction false} KeptLast(ids: seq<ExecId>, out: set<ExecId>, e: ExecId)
    ensures Kept(ids + [e], out) == Kept(ids, out) + (if e in out then [] else [e])
  {
    assert (ids + [e])[..|ids|] == ids;
  }

  lemma {:induction false} HeadNotShed(rep: Replica)
    requires rep.batch != [] && Placed(rep)
    ensures rep.batch[0].execId !in rep.shed
  {
    assert Places(rep)[0] == rep.batch[0].execId;
    PlacedOnce(rep, rep.batch[0].execId);
  }

  lemma {:induction false} EnqueueFifo(env: Env, now: Time, rep: Replica)
    requires CanTick(now, rep, Enqueue) && Placed(rep) && Fifo(rep)
    ensures Fifo(TickNext(env, now, rep, Enqueue))
  {
    var rep', b := TickNext(env, now, rep, Enqueue), rep.batch[0].execId;
    PassHead(rep);
    HeadNotShed(rep);
    QueueIdsLast(rep.queue, rep'.queue[|rep.queue|]);
    KeptLast(Passed(rep), rep.shed, b);
    EnqueuedInOrder(rep, rep', b);
  }

  lemma {:induction false} EnqueuedInOrder(rep: Replica, rep': Replica, b: ExecId)
    requires |rep.batch| <= |rep.claimed| && |rep'.batch| + 1 == |rep.batch|
    requires Kept(Passed(rep), rep.shed) == rep.started + QueueIds(rep.queue)
    requires Kept(Passed(rep) + [b], rep.shed) == Kept(Passed(rep), rep.shed) + [b]
    requires rep'.claimed == rep.claimed && rep'.shed == rep.shed && rep'.started == rep.started
    requires Passed(rep') == Passed(rep) + [b] && QueueIds(rep'.queue) == QueueIds(rep.queue) + [b]
    requires rep'.claimed[|rep'.claimed| - |rep'.batch|..] == ClaimIds(rep'.batch)
    ensures Fifo(rep')
  {
  }

  lemma {:induction false} ShedFifo(now: Time, rep: Replica, ok: bool)
    requires rep.batch != [] && Placed(rep) && Fifo(rep)
    ensures Fifo(Shed(now, rep, ok))
  {
    var rep', b := Shed(now, rep, ok), rep.batch[0].execId;
    PassHead(rep);
    assert Passed(rep') == Passed(rep) + [b];
    assert Passed(rep')[..|Passed(rep')| - 1] == Passed(rep);
    assert b !in Passed(rep);
    KeptGrows(Passed(rep), rep.shed, b);
  }

  lemma {:induction false} CommitFifo(env: Env, now: Time, rep: Replica)
    requires CanTick(now, rep, Commit) && Bounded(rep) && Fifo(rep)
    ensures Fifo(TickNext(env, now, rep, Commit))
  {
    assert Passed(rep) == rep.claimed;
    assert Passed(TickNext(env, now, rep, Commit)) == rep.claimed;
  }

  lemma {:induction false} TickFifo(env: Env, now: Time, rep: Replica, t: TickAct)
    requires CanTick(now, rep, t) && Bounded(rep) && Placed(rep) && Fifo(rep)
    ensures Fifo(TickNext(env, now, rep, t))
  {
    match t
    case Enqueue => EnqueueFifo(env, now, rep);
    case ShedOnShutdown(ok) => ShedFifo(now, rep, ok);
    case ShedOnTimeout(ok) => ShedFifo(now, rep, ok);
    case Commit => CommitFifo(env, now, rep);
    case _ =>
  }

  ghost predicate SameOrder(rep: Replica, rep': Replica) {
    && rep'.batch == rep.batch && rep'.claimed == rep.claimed && rep'.shed == rep.shed
    && rep'.queue == rep.queue && rep'.started == rep.started
  }

  lemma {:induction false} SameOrderFifo(rep: Replica, rep': Replica)
    requires Fifo(rep) && SameOrder(rep, rep')
    ensures Fifo(rep')
  {
    assert Passed(rep') == Passed(rep);
  }

  lemma {:induction false} DequeueFifo(rep: Replica, rep': Replica)
    requires Fifo(rep) && rep.queue != []
    requires rep'.batch == rep.batch && rep'.claimed == rep.claimed && rep'.shed == rep.shed
    requires rep'.queue == rep.queue[1..] && rep'.started == rep.started + [rep.queue[0].claim.execId]
    ensures Fifo(rep')
  {
    QueueIdsHead(rep.queue);
    MoveOver(rep.started, rep.queue[0].claim.execId, QueueIds(rep.queue[1..]));
    assert Passed(rep') == Passed(rep);
  }

  lemma {:induction false} MoveOver(a: seq<ExecId>, x: ExecId, b: seq<ExecId>)
    ensures a + ([x] + b) == (a + [x]) + b
  {
  }

  lemma {:induction false} WorkFifo(env: Env, now: Time, rep: Replica, w: nat, a: WorkAct)
    requires w < |rep.workers| && CanWork(rep, rep.workers[w], a) && Fifo(rep)
    ensures Fifo(WorkNext(env, now, rep, w, a))
  {
    if a.Dequeue? {
      DequeueFifo(rep, WorkNext(env, now, rep, w, a));
    } else {
      SameOrderFifo(rep, WorkNext(env, now, rep, w, a));
    }
  }

  lemma {:induction false} WorkOrdered(env: Env, now: Time, rep: Replica, w: nat, a: WorkAct)
    requires w < |rep.workers| && CanWork(rep, rep.workers[w], a) && Ordered(rep)
    ensures Ordered(WorkNext(env, now, rep, w, a))
  {
  }

  lemma {:induction false} DistinctClaims(rep: Replica)
    requires Placed(rep) && Fifo(rep) && Ordered(rep)
    ensures forall v, w :: 0 <= v < w < |rep.workers| && rep.workers[v].Busy? && rep.workers[w].Busy? ==>
              rep.workers[v].claim.execId != rep.workers[w].claim.execId
    ensures rep.queue != [] ==> rep.queue[0].claim.execId !in rep.started
  {
    StartedOnce(rep);
    var all := rep.started + QueueIds(rep.queue);
    assert forall i :: 0 <= i < |rep.started| ==> all[i] == rep.started[i];
    assert rep.queue != [] ==> all[|rep.started|] == rep.queue[0].claim.execId;
  }

  // ---------------------------------------------------------------- notifications

  predicate DistinctTargets(targets: seq<Channel>) {
    forall i, k :: 0 <= i < k < |targets| ==> targets[i].id != targets[k].id
  }

  /** The fetch allows a notification on channel `c`. */
  ghost predicate Authorises(f: Fetch, c: ChannelId) {
    && ShouldNotify(f.job, f.status)
    && exists i :: 0 <= i < |f.targets| && f.targets[i].id == c && f.targets[i].enabled
  }

  ghost predicate Unsent(created: map<NotifId, Link>, e: ExecId, todo: seq<Channel>) {
    forall n, i :: n in created && 0 <= i < |todo| ==> created[n] != Link(e, todo[i].id)
  }

  /** A worker has looked up channels for its claim exactly when it is sending, and no channel
      it still has to visit has a notification of that execution. */
  ghost predicate WorkerLinked(fetched: map<ExecId, Fetch>, created: map<NotifId, Link>, wk: Worker) {
    wk.Busy? ==>
      var e := wk.claim.execId;
      if wk.stage.Fanout? then
        && e in fetched && ShouldNotify(fetched[e].job, fetched[e].status)
        && (forall i :: 0 <= i < |wk.stage.todo| ==> wk.stage.todo[i] in fetched[e].targets)
        && DistinctTargets(wk.stage.todo)
        && Unsent(created, e, wk.stage.todo)
      else e !in fetched
  }

  ghost predicate Linked(rep: Replica) {
    && (forall m, n :: m in rep.created && n in rep.created && m != n ==> rep.created[m] != rep.created[n])
    && (forall n :: n in rep.created ==>
          rep.created[n].exec in rep.fetched && Authorises(rep.fetched[rep.created[n].exec], rep.created[n].chan))
    && (forall e :: e in rep.fetched ==> e in rep.started)
    && (forall w :: 0 <= w < |rep.workers| ==> WorkerLinked(rep.fetched, rep.created, rep.workers[w]))
  }

  lemma {:induction false} DequeueLinked(rep: Replica, rep': Replica, w: nat, wk: Worker)
    requires Linked(rep) && w < |rep.workers| && rep'.workers == rep.workers[w := wk]
    requires rep'.fetched == rep.fetched && rep'.created == rep.created
    requires wk.Busy? && !wk.stage.Fanout? && wk.claim.execId !in rep.started
    requires rep'.started == rep.started + [wk.claim.execId]
    ensures Linked(rep')
  {
  }

  lemma {:induction false} StageLinked(rep: Replica, rep': Replica, w: nat, wk: Worker)
    requires Linked(rep) && w < |rep.workers| && rep'.workers == rep.workers[w := wk]
    requires rep'.fetched == rep.fetched && rep'.created == rep.created && rep'.started == rep.started
    requires WorkerLinked(rep.fetched, rep.created, wk)
    ensures Linked(rep')
  {
  }

  ghost predicate OthersDiffer(rep: Replica, w: nat, e: ExecId) {
    forall v :: 0 <= v < |rep.workers| && v != w && rep.workers[v].Busy? ==> rep.workers[v].claim.execId != e
  }

  lemma {:induction false} FetchLinked(rep: Replica, rep': Replica, w: nat, wk: Worker, f: Fetch)
    requires Linked(rep) && w < |rep.workers| && rep'.workers == rep.workers[w := wk]
    requires rep.workers[w].Busy? && !rep.workers[w].stage.Fanout?
    requires wk == rep.workers[w].(stage := Fanout(f.targets))
    requires wk.claim.execId in rep.started && OthersDiffer(rep, w, wk.claim.execId)
    requires ShouldNotify(f.job, f.status) && DistinctTargets(f.targets)
    requires rep'.fetched == rep.fetched[wk.claim.execId := f]
    requires rep'.created == rep.created && rep'.started == rep.started
    ensures Linked(rep')
  {
    var e := wk.claim.execId;
    assert WorkerLinked(rep.fetched, rep.created, rep.workers[w]);
    assert Unsent(rep.created, e, f.targets);
    assert WorkerLinked(rep'.fetched, rep'.created, wk);
    forall v | 0 <= v < |rep.workers| && v != w
      ensures WorkerLinked(rep'.fetched, rep'.created, rep.workers[v])
    {
      assert WorkerLinked(rep.fetched, rep.created, rep.workers[v]);
    }
  }

  lemma {:induction false} NotifyLinked(rep: Replica, rep': Replica, w: nat, n: NotifId)
    requires Linked(rep) && w < |rep.workers| && n !in rep.created
    requires rep.workers[w].Busy? && rep.workers[w].stage.Fanout? && rep.workers[w].stage.todo != []
    requires OthersDiffer(rep, w, rep.workers[w].claim.execId)
    requires var wk := rep.workers[w];
             && rep'.workers == rep.workers[w := wk.(stage := Fanout(wk.stage.todo[1..]))]
             && wk.stage.todo[0].enabled
             && rep'.created == rep.created[n := Link(wk.claim.execId, wk.stage.todo[0].id)]
    requires rep'.fetched == rep.fetched && rep'.started == rep.started
    ensures Linked(rep')
  {
    var wk := rep.workers[w];
    var e, todo := wk.claim.execId, wk.stage.todo;
    assert WorkerLinked(rep.fetched, rep.created, wk);
    assert Authorises(rep.fetched[e], todo[0].id) by {
      var i :| 0 <= i < |rep.fetched[e].targets| && rep.fetched[e].targets[i] == todo[0];
    }
    assert Unsent(rep'.created, e, todo[1..]);
    assert DistinctTargets(todo[1..]);
    assert WorkerLinked(rep'.fetched, rep'.created, rep'.workers[w]);
    forall v | 0 <= v < |rep.workers| && v != w
      ensures WorkerLinked(rep'.fetched, rep'.created, rep.workers[v])
    {
      assert WorkerLinked(rep.fetched, rep.created, rep.workers[v]);
    }
  }

  lemma {:induction false} SkipLinked(rep: Replica, w: nat)
    requires Linked(rep) && w < |rep.workers|
    requires rep.workers[w].Busy? && rep.workers[w].stage.Fanout? && rep.workers[w].stage.todo != []
    ensures var wk := rep.workers[w];
            WorkerLinked(rep.fetched, rep.created, wk.(stage := Fanout(wk.stage.todo[1..])))
  {
    assert WorkerLinked(rep.fetched, rep.created, rep.workers[w]);
  }

  lemma {:induction false} WorkLinked(env: Env, now: Time, rep: Replica, w: nat, a: WorkAct)
    requires w < |rep.workers| && CanWork(rep, rep.workers[w], a)
    requires Placed(rep) && Fifo(rep) && Ordered(rep) && Linked(rep)
    requires a.FetchChannels? && a.ok ==> DistinctTargets(a.targets)
    ensures Linked(WorkNext(env, now, rep, w, a))
  {
    var rep', wk := WorkNext(env, now, rep, w, a), WorkerNext(env, now, rep, rep.workers[w], a);
    DistinctClaims(rep);
    assert WorkerLinked(rep.fetched, rep.created, rep.workers[w]);
    if a.Dequeue? {
      DequeueLinked(rep, rep', w, wk);
    } else if a.FetchChannels? && wk.Busy? {
      FetchLinked(rep, rep', w, wk, rep'.fetched[wk.claim.execId]);
    } else if a.Notify? && rep'.created != rep.created {
      NotifyLinked(rep, rep', w, a.n);
    } else {
      if a.Notify? {
        SkipLinked(rep, w);
      }
      StageLinked(rep, rep', w, wk);
    }
  }

  // ---------------------------------------------------------------- all together

  ghost predicate LocalOk(rep: Replica) {
    && Bounded(rep) && Phased(rep) && Counted(rep) && Placed(rep) && TxFresh(rep)
    && Fifo(rep) && Ordered(rep) && Linked(rep)
  }

  /** A process that has done nothing yet. */
  predicate Blank(rep: Replica) {
    && rep.phase == Starting && rep.tx.NoTx? && rep.batch == [] && rep.queue == []
    && (forall w :: 0 <= w < |rep.workers| ==> rep.workers[w] == Idle)
    && rep.sends == map[] && rep.wg == 0 && rep.claimed == [] && rep.started == [] && rep.starts == []
    && rep.shed == {} && rep.done == {} && rep.failed == {}
    && rep.fetched == map[] && rep.created == map[] && rep.unsaved == {}
  }

  lemma {:induction false} BlankPlaced(rep: Replica)
    requires Blank(rep)
    ensures Placed(rep)
  {
    ExecutingLength(rep.workers);
    assert Places(rep) == [];
    assert forall e :: Tally(rep, e) == 0;
  }

  lemma {:induction false} BlankLinked(rep: Replica)
    requires Blank(rep)
    ensures Fifo(rep) && Ordered(rep) && Linked(rep)
  {
  }

  lemma {:induction false} LocalStart(workers: nat)
    ensures LocalOk(Fresh(workers))
  {
    var rep := Fresh(workers);
    assert Blank(rep);
    BlankPlaced(rep);
    BlankLinked(rep);
  }

  /** The execution id the database hands out is new to the process. */
  ghost predicate NewId(rep: Replica, act: Act) {
    act.Tick? && act.t.AdvanceRow? && rep.tx.Looping? ==>
      act.t.execId !in rep.claimed + ClaimIds(rep.tx.claims)
  }

  ghost predicate DistinctAnswer(act: Act) {
    act.Work? && act.a.FetchChannels? && act.a.ok ==> DistinctTargets(act.a.targets)
  }

  lemma {:induction false} TickFresh(env: Env, now: Time, rep: Replica, t: TickAct)
    requires CanTick(now, rep, t) && TxFresh(rep) && Placed(rep) && NewId(rep, Tick(t))
    ensures TxFresh(TickNext(env, now, rep, t))
  {
    if t.AdvanceRow? {
      var rep' := TickNext(env, now, rep, t);
      if rep'.tx.claims != rep.tx.claims {
        ClaimIdsSplit(rep'.tx.claims);
        assert rep'.tx.claims[..|rep'.tx.claims| - 1] == rep.tx.claims;
        assert rep.claimed + ClaimIds(rep'.tx.claims) == (rep.claimed + ClaimIds(rep.tx.claims)) + [t.execId];
      }
    } else if t.Select? {
      assert rep.claimed + ClaimIds([]) == rep.claimed;
    }
  }

  ghost predicate SameRuns(rep: Replica, rep': Replica) {
    && rep'.starts == rep.starts && rep'.started == rep.started && rep'.workers == rep.workers
    && rep'.fetched == rep.fetched && rep'.created == rep.created
  }

  lemma {:induction false} SameRunsKeep(rep: Replica, rep': Replica)
    requires Ordered(rep) && Linked(rep) && SameRuns(rep, rep')
    ensures Ordered(rep') && Linked(rep')
  {
  }

  lemma {:induction false} TickSameRuns(env: Env, now: Time, rep: Replica, t: TickAct)
    requires CanTick(now, rep, t) && Counted(rep)
    ensures SameRuns(rep, TickNext(env, now, rep, t))
  {
  }

  lemma {:induction false} TickLocal(env: Env, now: Time, rep: Replica, t: TickAct)
    requires CanTick(now, rep, t) && Alive(rep) && LocalOk(rep) && NewId(rep, Tick(t))
    ensures LocalOk(TickNext(env, now, rep, t))
  {
    var rep' := Next(env, now, rep, Tick(t));
    ShapeKept(env, now, rep, Tick(t));
    CountKept(env, now, rep, Tick(t));
    TickPlaced(env, now, rep, t);
    TickFresh(env, now, rep, t);
    TickFifo(env, now, rep, t);
    TickSameRuns(env, now, rep, t);
    SameRunsKeep(rep, rep');
  }

  lemma {:induction false} WorkLocal(env: Env, now: Time, rep: Replica, w: nat, a: WorkAct)
    requires CanAct(now, rep, Work(w, a)) && LocalOk(rep) && DistinctAnswer(Work(w, a))
    ensures LocalOk(WorkNext(env, now, rep, w, a))
  {
    ShapeKept(env, now, rep, Work(w, a));
    CountKept(env, now, rep, Work(w, a));
    WorkPlaced(env, now, rep, w, a);
    WorkFifo(env, now, rep, w, a);
    WorkOrdered(env, now, rep, w, a);
    WorkLinked(env, now, rep, w, a);
    var rep' := WorkNext(env, now, rep, w, a);
    assert rep'.tx == rep.tx && rep'.claimed == rep.claimed;
  }

  lemma {:induction false} SameClaimsPlaced(rep: Replica, rep': Replica)
    requires Placed(rep) && SameOrder(rep, rep') && rep'.workers == rep.workers
    requires rep'.done == rep.done && rep'.failed == rep.failed
    ensures Placed(rep')
  {
    assert Places(rep') == Places(rep);
    assert forall e :: Tally(rep', e) == Tally(rep, e);
  }

  lemma {:induction false} ControlSame(env: Env, now: Time, rep: Replica, act: Act)
    requires CanAct(now, rep, act) && !act.Tick? && !act.Work?
    ensures var rep' := Next(env, now, rep, act);
            && SameOrder(rep, rep') && SameRuns(rep, rep') && rep'.done == rep.done && rep'.failed == rep.failed
            && (rep'.tx == rep.tx || rep'.tx.NoTx?)
  {
  }

  lemma {:induction false} ControlLocal(env: Env, now: Time, rep: Replica, act: Act)
    requires CanAct(now, rep, act) && !act.Tick? && !act.Work? && LocalOk(rep)
    ensures LocalOk(Next(env, now, rep, act))
  {
    var rep' := Next(env, now, rep, act);
    ShapeKept(env, now, rep, act);
    CountKept(env, now, rep, act);
    ControlSame(env, now, rep, act);
    SameOrderFifo(rep, rep');
    SameClaimsPlaced(rep, rep');
    SameRunsKeep(rep, rep');
  }

  /** Every step of a process keeps all of the above. */
  lemma {:induction false} LocalKept(env: Env, now: Time, rep: Replica, act: Act)
    requires CanAct(now, rep, act) && LocalOk(rep) && NewId(rep, act) && DistinctAnswer(act)
    ensures LocalOk(Next(env, now, rep, act))
  {
    match act
    case Tick(t) => TickLocal(env, now, rep, t);
    case Work(w, a) => WorkLocal(env, now, rep, w, a);
    case _ => ControlLocal(env, now, rep, act);
  }
}
