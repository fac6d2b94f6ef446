/** The bound of `TimedRuns` is attained: in a run in which every call of `executeJob` takes at most
    100 seconds and no timer is late, a process with one worker finishes a claim exactly one second
    and three calls after making it, and the start of another process marks its row before that. */
module Tightness {
  import opened Domain
  import opened Tables
  import opened Claiming
  import opened Replica
  import opened ReplicaInvariants
  import opened Service
  import opened System
  import opened Ownership
  import opened Guarantees
  import opened Latency
  import opened TimedRuns
  import opened Witnesses

  const CALL := 100_000

  /** One process, which has one worker and is between ticks or handing over a batch. */
  ghost predicate Lone(s: State) {
    && s.reps.Keys == {0} && s.reps[0].phase == Up && !s.reps[0].ctxDone && s.reps[0].tx.NoTx?
    && |s.reps[0].workers| == 1
  }

  /** Jobs 1 and 2, both active and due at `due`. */
  ghost predicate BothDue(t: Tables, due: Time) {
    && t.jobs.Keys == {1, 2} && t.jobs[1].id == 1 && t.jobs[2].id == 2
    && t.jobs[1].status == t.jobs[2].status == Active && t.jobs[1].nextRunAt == t.jobs[2].nextRunAt == Some(due)
  }

  lemma {:induction false} Go(s: State, step: Step)
    requires TimelyReachable(ENV, s, CALL) && Enabled(ENV, s, step) && !step.Elapse?
    ensures TimelyReachable(ENV, After(ENV, s, step), CALL)
  {
    TimelyOn(ENV, s, step, CALL);
  }

  lemma {:induction false} Pass(s: State, dt: nat) returns (s': State)
    requires TimelyReachable(ENV, s, CALL) && Lone(s) && MayPass(s.reps[0], s.now, dt, CALL)
    ensures TimelyReachable(ENV, s', CALL) && s' == s.(now := s.now + dt)
  {
    s' := s.(now := s.now + dt);
    assert After(ENV, s, Elapse(dt)) == s';
    TimelyOn(ENV, s, Elapse(dt), CALL);
  }

  // ---------------------------------------------------------------- setting up

  lemma {:induction false} AddJob(s: State, id: JobId) returns (s': State)
    requires TimelyReachable(ENV, s, CALL) && id !in s.jobIds && id !in s.db.jobs && s.ops == map[] && s.reps == map[]
    ensures TimelyReachable(ENV, s', CALL)
    ensures s' == s.(db := s'.db, jobIds := s.jobIds + {id}, jobWrites := s'.jobWrites)
    ensures s'.db.jobs.Keys == s.db.jobs.Keys + {id} && (forall j :: j in s.db.jobs ==> s'.db.jobs[j] == s.db.jobs[j])
    ensures var job := s'.db.jobs[id]; job.id == id && job.status == Active && job.nextRunAt == Some(s.now + 60_000)
  {
    var draft := DraftJob(7, id, INPUT);
    var row := NewJob(EVERY_MINUTE, id, INPUT, s.now).value;
    var s1 := s.(ops := map[7 := Ready(true, row)]);
    assert After(ENV, s, draft) == s1;
    Go(s, draft);
    s' := InsertReady(s1, row);
    assert map[7 := Ready(true, row)] - {7} == map[];
  }

  lemma {:induction false} InsertReady(s: State, row: Job) returns (s': State)
    requires TimelyReachable(ENV, s, CALL) && 7 in s.ops && s.ops[7] == Ready(true, row) && s.reps == map[]
    requires row.id !in s.jobIds && Storable(row)
    ensures TimelyReachable(ENV, s', CALL)
    ensures s' == s.(ops := s.ops - {7}, db := InsertJob(s.db, row, s.now), jobIds := s.jobIds + {row.id},
                     jobWrites := s.jobWrites + [row.id])
  {
    s' := AfterWrite(s, 7, true);
    assert After(ENV, s, WriteJob(7, true)) == s';
    Go(s, WriteJob(7, true));
  }

  lemma {:induction false} BothCreated() returns (s: State)
    ensures TimelyReachable(ENV, s, CALL) && s.now == 0 && BothDue(s.db, 60_000) && s.issued == map[]
    ensures s.reps == map[] && s.ops == map[]
  {
    assert Run(ENV, INIT, []) && TimelyRun(ENV, INIT, [], CALL) && End(ENV, INIT, []) == INIT;
    var s1 := AddJob(INIT, 1);
    s := AddJob(s1, 2);
  }

  lemma {:induction false} Started() returns (s: State)
    ensures TimelyReachable(ENV, s, CALL) && s.now == 0 && BothDue(s.db, 60_000) && s.issued == map[]
    ensures Lone(s) && s.reps[0] == Fresh(1).(phase := Up)
  {
    var s0 := BothCreated();
    var s1 := s0.(reps := map[0 := Fresh(1)]);
    assert After(ENV, s0, Launch(0, 1)) == s1;
    Go(s0, Launch(0, 1));
    s := s1.(reps := map[0 := Fresh(1).(phase := Up)]);
    assert After(ENV, s1, Do(0, Recover(false))) == s;
    Go(s1, Do(0, Recover(false)));
  }

  // ---------------------------------------------------------------- one tick

  /** The tick has claimed jobs 1 and 2 with ids `e` and `e + 1`. */
  ghost predicate ClaimedBoth(s: State, s': State, e: ExecId, a: Claim, b: Claim) {
    && 0 in s.reps && s'.now == s.now && s'.issued == s.issued[e := 0][e + 1 := 0] && BothDue(s'.db, s.now + 60_000)
    && s'.reps == s.reps[0 := s.reps[0].(batch := [a, b], waitSince := s.now, passed := 0,
                                         claimed := s.reps[0].claimed + [e, e + 1])]
    && a.startedAt == s.now && b.startedAt == s.now && b.execId == e + 1
    && e + 1 in s'.db.execs && s'.db.execs[e + 1].status == Running && s'.db.execs[e + 1].startedAt == s.now
  }

  lemma {:induction false} BothListed(s: State, rows: seq<Job>, due: Time)
    requires s.reps.Keys == {0} && BothDue(s.db, due) && due <= s.now && rows == [s.db.jobs[1], s.db.jobs[2]]
    ensures EarliestDue(rows, s.db.jobs, OthersLocks(s, 0), s.now, 2)
  {
    assert rows[0].id == 1 && rows[1].id == 2;
    assert Listed(rows, 1) && Listed(rows, 2);
    assert OthersLocks(s, 0) == {};
  }

  lemma {:induction false} LockBoth(s: State, due: Time) returns (s': State)
    requires TimelyReachable(ENV, s, CALL) && Lone(s) && s.reps[0].batch == [] && BothDue(s.db, due) && due <= s.now
    ensures TimelyReachable(ENV, s', CALL)
    ensures var rows := [s.db.jobs[1], s.db.jobs[2]];
            s' == s.(reps := s.reps[0 := s.reps[0].(tx := Looping(s.now, s.now, rows, 0, []))])
  {
    var s1 := s.(reps := s.reps[0 := s.reps[0].(tx := Begun(s.now))]);
    assert After(ENV, s, Do(0, Tick(Begin))) == s1;
    Go(s, Do(0, Tick(Begin)));
    s' := SelectBoth(s1, [s.db.jobs[1], s.db.jobs[2]], due);
  }

  lemma {:induction false} SelectBoth(s: State, rows: seq<Job>, due: Time) returns (s': State)
    requires TimelyReachable(ENV, s, CALL) && s.reps.Keys == {0} && Alive(s.reps[0]) && s.reps[0].tx == Begun(s.now)
    requires |s.reps[0].workers| == 1 && BothDue(s.db, due) && due <= s.now && rows == [s.db.jobs[1], s.db.jobs[2]]
    ensures TimelyReachable(ENV, s', CALL)
    ensures s' == s.(reps := s.reps[0 := s.reps[0].(tx := Looping(s.now, s.now, rows, 0, []))])
  {
    BothListed(s, rows, due);
    s' := s.(reps := s.reps[0 := s.reps[0].(tx := Looping(s.now, s.now, rows, 0, []))]);
    assert After(ENV, s, Do(0, Tick(Select(rows)))) == s';
    Go(s, Do(0, Tick(Select(rows))));
  }

  function Advanced(job: Job, e: ExecId, now: Time): Claim {
    Claim(job.(nextRunAt := Some(now + 60_000)), e, now)
  }

  lemma {:induction false} LoopOne(s: State, rows: seq<Job>, claims: seq<Claim>, e: ExecId) returns (s': State)
    requires TimelyReachable(ENV, s, CALL) && 0 in s.reps && Alive(s.reps[0]) && e !in s.issued && |claims| < |rows|
    requires s.reps[0].tx == Looping(s.now, s.now, rows, |claims|, claims)
    ensures TimelyReachable(ENV, s', CALL)
    ensures var more := claims + [Advanced(rows[|claims|], e, s.now)];
            s' == s.(reps := s.reps[0 := s.reps[0].(tx := Looping(s.now, s.now, rows, |more|, more))],
                     issued := s.issued[e := 0])
  {
    var more := claims + [Advanced(rows[|claims|], e, s.now)];
    s' := s.(reps := s.reps[0 := s.reps[0].(tx := Looping(s.now, s.now, rows, |more|, more))],
             issued := s.issued[e := 0]);
    assert After(ENV, s, Do(0, Tick(AdvanceRow(e)))) == s';
    Go(s, Do(0, Tick(AdvanceRow(e))));
  }

  lemma {:induction false} LoopBoth(s: State, x: Job, y: Job, e: ExecId) returns (s': State)
    requires TimelyReachable(ENV, s, CALL) && 0 in s.reps && Alive(s.reps[0]) && e !in s.issued && e + 1 !in s.issued
    requires s.reps[0].tx == Looping(s.now, s.now, [x, y], 0, [])
    ensures TimelyReachable(ENV, s', CALL)
    ensures var claims := [Advanced(x, e, s.now), Advanced(y, e + 1, s.now)];
            s' == s.(reps := s.reps[0 := s.reps[0].(tx := Looping(s.now, s.now, [x, y], 2, claims))],
                     issued := s.issued[e := 0][e + 1 := 0])
  {
    var a, b := Advanced(x, e, s.now), Advanced(y, e + 1, s.now);
    var s1 := LoopOne(s, [x, y], [], e);
    assert [] + [a] == [a] && [a] + [b] == [a, b];
    s' := LoopOne(s1, [x, y], [a], e + 1);
  }

  lemma {:induction false} AppliedBoth(t: Tables, due: Time, e: ExecId, now: Time)
    requires BothDue(t, due)
    ensures var claims := [Advanced(t.jobs[1], e, now), Advanced(t.jobs[2], e + 1, now)];
            var t' := ApplyClaims(t, claims, now);
            && BothDue(t', now + 60_000)
            && e + 1 in t'.execs && t'.execs[e + 1].status == Running && t'.execs[e + 1].startedAt == now
  {
    var a, b := Advanced(t.jobs[1], e, now), Advanced(t.jobs[2], e + 1, now);
    assert [a, b][..1] == [a] && [a][..0] == [];
    assert ApplyClaims(t, [a], now) == ApplyClaim(t, a, now);
    assert ApplyClaims(t, [a, b], now) == ApplyClaim(ApplyClaim(t, a, now), b, now);
  }

  lemma {:induction false} CommitBoth(s: State, rows: seq<Job>, claims: seq<Claim>) returns (s': State)
    requires TimelyReachable(ENV, s, CALL) && 0 in s.reps && Alive(s.reps[0])
    requires s.reps[0].tx == Looping(s.now, s.now, rows, |rows|, claims)
    ensures TimelyReachable(ENV, s', CALL) && s'.now == s.now && s'.issued == s.issued
    ensures s'.db == ApplyClaims(s.db, claims, s.now)
    ensures s'.reps == s.reps[0 := s.reps[0].(tx := NoTx, batch := claims, waitSince := s.now, passed := 0,
                                              claimed := s.reps[0].claimed + ClaimIds(claims))]
  {
    s' := AfterDo(ENV, s, 0, Tick(Commit));
    assert After(ENV, s, Do(0, Tick(Commit))) == s';
    Go(s, Do(0, Tick(Commit)));
  }

  lemma {:induction false} ClaimBoth(s: State, due: Time, e: ExecId) returns (s': State, a: Claim, b: Claim)
    requires TimelyReachable(ENV, s, CALL) && Lone(s) && s.reps[0].batch == [] && BothDue(s.db, due) && due <= s.now
    requires e !in s.issued && e + 1 !in s.issued
    ensures TimelyReachable(ENV, s', CALL) && ClaimedBoth(s, s', e, a, b)
  {
    a, b := Advanced(s.db.jobs[1], e, s.now), Advanced(s.db.jobs[2], e + 1, s.now);
    var s1 := LockBoth(s, due);
    var s2 := LoopBoth(s1, s.db.jobs[1], s.db.jobs[2], e);
    s' := CommitBoth(s2, [s.db.jobs[1], s.db.jobs[2]], [a, b]);
    CommittedBoth(s, s', s2.reps[0], due, e, a, b);
  }

  lemma {:induction false} CommittedBoth(s: State, s': State, rep: Replica, due: Time, e: ExecId, a: Claim, b: Claim)
    requires 0 in s.reps && s.reps[0].tx.NoTx? && rep == s.reps[0].(tx := rep.tx) && BothDue(s.db, due)
    requires a == Advanced(s.db.jobs[1], e, s.now) && b == Advanced(s.db.jobs[2], e + 1, s.now)
    requires s'.now == s.now && s'.issued == s.issued[e := 0][e + 1 := 0] && s'.db == ApplyClaims(s.db, [a, b], s.now)
    requires s'.reps == s.reps[0 := rep.(tx := NoTx, batch := [a, b], waitSince := s.now, passed := 0,
                                         claimed := rep.claimed + ClaimIds([a, b]))]
    ensures ClaimedBoth(s, s', e, a, b)
  {
    AppliedBoth(s.db, due, e, s.now);
    assert ClaimIds([a, b]) == [e, e + 1];
  }

  // ---------------------------------------------------------------- the channel and the worker

  lemma {:induction false} Buffer(s: State) returns (s': State)
    requires TimelyReachable(ENV, s, CALL) && Lone(s) && s.reps[0].batch != [] && |s.reps[0].queue| < 2
    ensures TimelyReachable(ENV, s', CALL)
    ensures var rep := s.reps[0];
            s' == s.(reps := s.reps[0 := rep.(batch := rep.batch[1..], waitSince := s.now, passed := rep.passed + 1,
                                              queue := rep.queue + [Queued(rep.batch[0], s.now, |rep.started|)])])
  {
    var rep := s.reps[0];
    s' := s.(reps := s.reps[0 := rep.(batch := rep.batch[1..], waitSince := s.now, passed := rep.passed + 1,
                                      queue := rep.queue + [Queued(rep.batch[0], s.now, |rep.started|)])]);
    assert After(ENV, s, Do(0, Tick(Enqueue))) == s';
    Go(s, Do(0, Tick(Enqueue)));
  }

  /** The worker has received the oldest claim. */
  function Received(rep: Replica, now: Time): Replica
    requires rep.queue != []
  {
    rep.(workers := [Busy(rep.queue[0].claim, now, |rep.started|, Executing)], queue := rep.queue[1..],
         started := rep.started + [rep.queue[0].claim.execId], starts := rep.starts + [now])
  }

  lemma {:induction false} Take(s: State) returns (s': State)
    requires TimelyReachable(ENV, s, CALL) && Lone(s) && s.reps[0].queue != [] && s.reps[0].workers == [Idle]
    ensures TimelyReachable(ENV, s', CALL) && s' == s.(reps := s.reps[0 := Received(s.reps[0], s.now)])
  {
    var rep := s.reps[0];
    assert rep.workers[0 := Received(rep, s.now).workers[0]] == Received(rep, s.now).workers;
    s' := s.(reps := s.reps[0 := Received(rep, s.now)]);
    assert After(ENV, s, Do(0, Work(0, Dequeue))) == s';
    Go(s, Do(0, Work(0, Dequeue)));
  }

  lemma {:induction false} StageRep(now: Time, rep: Replica, a: WorkAct, wk: Worker, failed: set<ExecId>)
    requires |rep.workers| == 1 && CanWork(rep, rep.workers[0], a) && wk == WorkerNext(ENV, now, rep, rep.workers[0], a)
    requires a == Finish(Broken("x"), false) || a == WriteBack(false) || a == FetchChannels([], false)
    requires failed == if a.Finish? then rep.failed + {rep.workers[0].claim.execId} else rep.failed
    ensures WorkNext(ENV, now, rep, 0, a) == rep.(workers := [wk], failed := failed)
  {
    assert rep.workers[0 := wk] == [wk];
  }

  lemma {:induction false} Stage(s: State, a: WorkAct, wk: Worker, failed: set<ExecId>) returns (s': State)
    requires TimelyReachable(ENV, s, CALL) && Lone(s) && CanWork(s.reps[0], s.reps[0].workers[0], a)
    requires a == Finish(Broken("x"), false) || a == WriteBack(false) || a == FetchChannels([], false)
    requires wk == WorkerNext(ENV, s.now, s.reps[0], s.reps[0].workers[0], a)
    requires failed == if a.Finish? then s.reps[0].failed + {s.reps[0].workers[0].claim.execId} else s.reps[0].failed
    ensures TimelyReachable(ENV, s', CALL)
    ensures s' == s.(reps := s.reps[0 := s.reps[0].(workers := [wk], failed := failed)])
  {
    StageRep(s.now, s.reps[0], a, wk, failed);
    s' := s.(reps := s.reps[0 := s.reps[0].(workers := [wk], failed := failed)]);
    assert AfterDo(ENV, s, 0, Work(0, a)) == s';
    assert After(ENV, s, Do(0, Work(0, a))) == s';
    Go(s, Do(0, Work(0, a)));
  }

  /** The worker ends its run, every write of it failing, and receives the next claim. */
  lemma {:induction false} RunNext(s: State) returns (s': State)
    requires TimelyReachable(ENV, s, CALL) && Lone(s) && s.reps[0].queue != []
    requires s.reps[0].workers[0].Busy? && s.reps[0].workers[0].stage.Executing?
    ensures TimelyReachable(ENV, s', CALL)
    ensures var rep := s.reps[0]; var failed := rep.failed + {rep.workers[0].claim.execId};
            s' == s.(reps := s.reps[0 := Received(rep.(failed := failed), s.now)])
  {
    var wk, failed := s.reps[0].workers[0], s.reps[0].failed + {s.reps[0].workers[0].claim.execId};
    var s1 := Stage(s, Finish(Broken("x"), false), wk.(stage := Saved(Error, s.now)), failed);
    var s2 := Stage(s1, WriteBack(false), wk.(stage := WroteBack(Error)), failed);
    var s3 := Stage(s2, FetchChannels([], false), Idle, failed);
    s' := Take(s3);
  }

  // ---------------------------------------------------------------- the run

  /** A run of the first job has just begun at 60 seconds; a claim of the second is buffered. */
  lemma {:induction false} Occupied() returns (s: State)
    ensures TimelyReachable(ENV, s, CALL) && Lone(s) && s.now == 60_000 && BothDue(s.db, 120_000)
    ensures s.issued.Keys == {100, 101} && s.reps[0].batch == [] && |s.reps[0].queue| == 1
    ensures var wk := s.reps[0].workers[0]; wk.Busy? && wk.stage.Executing? && wk.startAt == 60_000
  {
    var s0 := Started();
    var s1 := Pass(s0, 60_000);
    var s2, a, b := ClaimBoth(s1, 60_000, 100);
    var s3 := Buffer(s2);
    var s4 := Take(s3);
    s := Buffer(s4);
  }

  /** At 160 seconds the batch claimed at 159 has waited its full second, and its last claim gets
      into the channel the moment a run begins. */
  lemma {:induction false} Waited() returns (s: State, c: Claim)
    ensures TimelyReachable(ENV, s, CALL) && Lone(s) && s.now == 160_000 && s.reps[0].batch == []
    ensures |s.reps[0].queue| == 2 && s.reps[0].queue[1].claim == c && c.startedAt == 159_000 && c.execId == 103
    ensures var wk := s.reps[0].workers[0]; wk.Busy? && wk.stage.Executing? && wk.startAt == 160_000
    ensures 103 in s.db.execs && s.db.execs[103].status == Running && s.db.execs[103].startedAt == 159_000
  {
    var s0 := Occupied();
    var s1 := Pass(s0, 99_000);
    var s2, a, b := ClaimBoth(s1, 120_000, 102);
    c := b;
    s := WaitOut(s2, a, b);
  }

  lemma {:induction false} WaitOut(s0: State, a: Claim, b: Claim) returns (s: State)
    requires TimelyReachable(ENV, s0, CALL) && Lone(s0) && s0.now == 159_000 && s0.reps[0].waitSince == 159_000
    requires s0.reps[0].batch == [a, b] && |s0.reps[0].queue| == 1
    requires var wk := s0.reps[0].workers[0]; wk.Busy? && wk.stage.Executing? && wk.startAt == 60_000
    ensures TimelyReachable(ENV, s, CALL) && Lone(s) && s.now == 160_000 && s.reps[0].batch == [] && s.db == s0.db
    ensures |s.reps[0].queue| == 2 && s.reps[0].queue[1].claim == b
    ensures var wk := s.reps[0].workers[0]; wk.Busy? && wk.stage.Executing? && wk.startAt == 160_000
  {
    var s1 := Pass(s0, 500);
    var s2 := Buffer(s1);
    s := WaitOn(s2, b);
  }

  lemma {:induction false} WaitOn(s0: State, b: Claim) returns (s: State)
    requires TimelyReachable(ENV, s0, CALL) && Lone(s0) && s0.now == s0.reps[0].waitSince == 159_500
    requires s0.reps[0].batch == [b] && |s0.reps[0].queue| == 2
    requires var wk := s0.reps[0].workers[0]; wk.Busy? && wk.stage.Executing? && wk.startAt == 60_000
    ensures TimelyReachable(ENV, s, CALL) && Lone(s) && s.now == 160_000 && s.reps[0].batch == [] && s.db == s0.db
    ensures |s.reps[0].queue| == 2 && s.reps[0].queue[1].claim == b
    ensures var wk := s.reps[0].workers[0]; wk.Busy? && wk.stage.Executing? && wk.startAt == 160_000
  {
    var s1 := Pass(s0, 500);
    var s2 := RunNext(s1);
    s := Buffer(s2);
  }

  lemma {:induction false} OneCall(s0: State) returns (s: State)
    requires TimelyReachable(ENV, s0, CALL) && Lone(s0) && s0.reps[0].batch == [] && s0.reps[0].queue != []
    requires var wk := s0.reps[0].workers[0]; wk.Busy? && wk.stage.Executing? && wk.startAt == s0.now
    ensures TimelyReachable(ENV, s, CALL) && Lone(s) && s.now == s0.now + CALL && s.reps[0].batch == [] && s.db == s0.db
    ensures s.reps[0].queue == s0.reps[0].queue[1..]
    ensures var wk := s.reps[0].workers[0];
            wk.Busy? && wk.stage.Executing? && wk.startAt == s.now && wk.claim == s0.reps[0].queue[0].claim
  {
    var s1 := Pass(s0, CALL);
    s := RunNext(s1);
  }

  /** The bound of `FinishesInTime` is attained for one worker and calls of 100 seconds. */
  lemma {:induction false} BoundIsAttained() returns (s: State, c: Claim)
    ensures TimelyReachable(ENV, s, CALL) && Lone(s) && Holds(s.reps[0], c)
    ensures s.now == c.startedAt + 1000 * |s.reps[0].workers| + 3 * CALL
    ensures c.execId in Places(s.reps[0]) && c.execId in s.db.execs
    ensures s.db.execs[c.execId].status == Running && s.db.execs[c.execId].startedAt == c.startedAt
  {
    var s0;
    s0, c := Waited();
    var s1 := OneCall(s0);
    var s2 := OneCall(s1);
    s := Pass(s2, CALL);
    assert InHands(s.reps[0].workers, c);
    ExecutingMember(s.reps[0].workers, 0);
  }

  /** So five minutes can pass over a claim although every timer and every call is on time: the
      start of a second process then marks the row while the first is still running the job. */
  lemma {:induction false} TimelyRecoveryHitsTheLiving() returns (s: State, e: ExecId)
    ensures TimelyReachable(ENV, s, CALL) && Owns(s, 0, e)
    ensures e in s.recovered && e in s.db.execs && s.db.execs[e].status == Error
  {
    var s0, c := BoundIsAttained();
    e := c.execId;
    var s1 := s0.(reps := s0.reps[1 := Fresh(1)]);
    assert After(ENV, s0, Launch(1, 1)) == s1;
    Go(s0, Launch(1, 1));
    RecoverStep(ENV, s1, 1);
    Go(s1, Do(1, Recover(true)));
    s := After(ENV, s1, Do(1, Recover(true)));
    MarkedRow(s1.db, s1.now - STALE_RUNNING_AGE, s1.now, e);
  }
}
