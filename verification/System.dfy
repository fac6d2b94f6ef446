/** The whole deployment: one database, any number of replicas, and the service requests
    between their read and their write, as one transition system. */
module System {
  import opened Domain
  import opened Tables
  import opened Claiming
  import opened Replica
  import opened Service

  /** A service request after its read, and after computing the row it will write. */
  datatype Op = Fetched(change: Change, row: Job) | Ready(insert: bool, row: Job)

  /** A committed claim: who made it and how many job-row writes preceded it. */
  datatype Ticket = Ticket(rep: ReplicaId, claim: Claim, writesSeen: nat)

  /** The instant a claimed job was due at. */
  datatype Slot = Slot(jobId: JobId, dueAt: Option<Time>, execId: ExecId)

  /** The fields from `issued` on are history. */
  datatype State = State(
    now: Time, db: Tables, reps: map<ReplicaId, Replica>, ops: map<OpId, Op>,
    issued: map<ExecId, ReplicaId>, tickets: map<ExecId, Ticket>, recovered: set<ExecId>,
    notifIds: map<NotifId, ReplicaId>, jobIds: set<JobId>, jobWrites: seq<JobId>, slots: seq<Slot>)

  datatype Step =
    | Elapse(dt: nat)
    | Launch(r: ReplicaId, workers: nat)
    | Do(r: ReplicaId, act: Act)
    | DraftJob(o: OpId, id: JobId, input: CreateInput)
    | ReadJob(o: OpId, j: JobId, change: Change)
    | PrepareJob(o: OpId)
    | WriteJob(o: OpId, ok: bool)
    | RemoveJob(j: JobId)
    | SaveChannel(ch: Channel)
    | RemoveChannel(c: ChannelId)

  const EMPTY := Tables(map[], map[], map[], map[])

  const INIT := State(0, EMPTY, map[], map[], map[], map[], {}, map[], {}, [], [])

  // ---------------------------------------------------------------- row locks

  function LockSet(rep: Replica): set<JobId> {
    if rep.tx.Looping? then set i | 0 <= i < |rep.tx.rows| :: rep.tx.rows[i].id else {}
  }

  ghost predicate JobLocked(s: State, j: JobId) {
    exists r :: r in s.reps && j in LockSet(s.reps[r])
  }

  function OthersLocks(s: State, r: ReplicaId): set<JobId> {
    set q, j | q in s.reps && q != r && j in LockSet(s.reps[q]) :: j
  }

  // ---------------------------------------------------------------- a replica's step

  /** What the database and the identifier sources allow. */
  ghost predicate Permits(s: State, r: ReplicaId, act: Act)
    requires r in s.reps && CanAct(s.now, s.reps[r], act)
  {
    var rep := s.reps[r];
    match act
    case Tick(t) =>
      (match t
       case Select(rows) => EarliestDue(rows, s.db.jobs, OthersLocks(s, r), rep.tx.at, rep.Capacity())
       case AdvanceRow(e) => e !in s.issued
       case _ => true)
    case Work(w, a) =>
      var wk := rep.workers[w];
      (match a
       case WriteBack(ok) => ok ==> Storable(wk.claim.job) && !JobLocked(s, wk.claim.job.id)
       case FetchChannels(targets, ok) => ok ==> ChannelsOf(s.db.chans, wk.claim.job.notifyChannels, targets)
       case Notify(n, ok) =>
         n !in s.notifIds && (ok ==> wk.claim.execId in s.db.execs && wk.stage.todo[0].id in s.db.chans)
       case _ => true)
    case _ => true
  }

  function TickDb(s: State, rep: Replica, t: TickAct): Tables
    requires CanTick(s.now, rep, t)
  {
    match t
    case Commit => ApplyClaims(s.db, rep.tx.claims, rep.tx.at)
    case ShedOnShutdown(ok) =>
      if ok then UpdateExec(s.db, rep.batch[0].execId, ShedResult("scheduler shutting down", s.now)) else s.db
    case ShedOnTimeout(ok) =>
      if ok then UpdateExec(s.db, rep.batch[0].execId, ShedResult("worker pool saturated", s.now)) else s.db
    case _ => s.db
  }

  function WrittenBack(wk: Worker): Job
    requires wk.Busy? && wk.stage.Saved?
  {
    wk.claim.job.(lastRunAt := Some(wk.stage.finishedAt))
  }

  function WorkDb(env: Env, s: State, rep: Replica, wk: Worker, a: WorkAct): Tables
    requires CanWork(rep, wk, a)
  {
    match a
    case Finish(outcome, ok) =>
      if ok
      then UpdateExec(s.db, wk.claim.execId, RunResult(env.executors, wk.claim.job, outcome, wk.startAt, s.now))
      else s.db
    case WriteBack(ok) => if ok then UpdateJob(s.db, WrittenBack(wk), s.now) else s.db
    case Notify(n, ok) =>
      if Notifies(wk, a) then InsertNotif(s.db, n, wk.claim.execId, wk.stage.todo[0].id) else s.db
    case _ => s.db
  }

  function DoDb(env: Env, s: State, r: ReplicaId, act: Act): Tables
    requires r in s.reps && CanAct(s.now, s.reps[r], act)
  {
    var rep := s.reps[r];
    match act
    case Tick(t) => TickDb(s, rep, t)
    case Work(w, a) => WorkDb(env, s, rep, rep.workers[w], a)
    case SendDone(n, delivered, message, ok) =>
      var ch := rep.sends[n];
      if ok
      then UpdateNotif(s.db, n, SendStatus(env.notifiers, ch, delivered),
                       SendError(env.notifiers, ch, delivered, message), s.now)
      else s.db
    case Recover(ok) => if ok then RecoverStale(s.db, s.now - STALE_RUNNING_AGE, s.now) else s.db
    case _ => s.db
  }

  function IndexOf(claims: seq<Claim>, e: ExecId): (k: nat)
    requires e in ClaimIds(claims)
    ensures k < |claims| && claims[k].execId == e
  {
    var last := |claims| - 1;
    if claims[last].execId == e then last
    else
      assert ClaimIds(claims) == ClaimIds(claims[..last]) + [claims[last].execId];
      IndexOf(claims[..last], e)
  }

  function NewTickets(r: ReplicaId, claims: seq<Claim>, writesSeen: nat): map<ExecId, Ticket> {
    map e | e in ClaimIds(claims) :: Ticket(r, claims[IndexOf(claims, e)], writesSeen)
  }

  function ClaimedJobs(claims: seq<Claim>): seq<JobId> {
    seq(|claims|, i requires 0 <= i < |claims| => claims[i].job.id)
  }

  function SlotsOf(db: Tables, claims: seq<Claim>): seq<Slot> {
    seq(|claims|, i requires 0 <= i < |claims| =>
      Slot(claims[i].job.id,
           if claims[i].job.id in db.jobs then db.jobs[claims[i].job.id].nextRunAt else None,
           claims[i].execId))
  }

  function IssuedAfter(s: State, r: ReplicaId, act: Act): map<ExecId, ReplicaId> {
    if act.Tick? && act.t.AdvanceRow? then s.issued[act.t.execId := r] else s.issued
  }

  function TicketsAfter(s: State, r: ReplicaId, act: Act): map<ExecId, Ticket>
    requires r in s.reps && CanAct(s.now, s.reps[r], act)
  {
    if act == Tick(Commit)
    then s.tickets + NewTickets(r, s.reps[r].tx.claims, |WritesAfter(s, r, act)|)
    else s.tickets
  }

  function RecoveredAfter(s: State, act: Act): set<ExecId> {
    if act.Recover? && act.ok then s.recovered + StaleRows(s.db, s.now - STALE_RUNNING_AGE) else s.recovered
  }

  function NotifIdsAfter(s: State, r: ReplicaId, act: Act): map<NotifId, ReplicaId>
    requires r in s.reps && CanAct(s.now, s.reps[r], act)
  {
    if act.Work? && Notifies(s.reps[r].workers[act.w], act.a)
    then s.notifIds[act.a.n := r]
    else s.notifIds
  }

  /** The log of job-row writes. */
  function WritesAfter(s: State, r: ReplicaId, act: Act): seq<JobId>
    requires r in s.reps && CanAct(s.now, s.reps[r], act)
  {
    if act == Tick(Commit) then s.jobWrites + ClaimedJobs(s.reps[r].tx.claims)
    else if act.Work? && act.a.WriteBack? && act.a.ok then s.jobWrites + [s.reps[r].workers[act.w].claim.job.id]
    else s.jobWrites
  }

  function SlotsAfter(s: State, r: ReplicaId, act: Act): seq<Slot>
    requires r in s.reps && CanAct(s.now, s.reps[r], act)
  {
    if act == Tick(Commit) then s.slots + SlotsOf(s.db, s.reps[r].tx.claims) else s.slots
  }

  function AfterDo(env: Env, s: State, r: ReplicaId, act: Act): State
    requires r in s.reps && CanAct(s.now, s.reps[r], act)
  {
    State(s.now, DoDb(env, s, r, act), s.reps[r := Next(env, s.now, s.reps[r], act)], s.ops,
          IssuedAfter(s, r, act), TicketsAfter(s, r, act), RecoveredAfter(s, act),
          NotifIdsAfter(s, r, act), s.jobIds, WritesAfter(s, r, act), SlotsAfter(s, r, act))
  }

  // ---------------------------------------------------------------- all steps

  ghost predicate Enabled(env: Env, s: State, step: Step) {
    match step
    case Elapse(_) => true
    case Launch(r, _) => r !in s.reps
    case Do(r, act) => r in s.reps && CanAct(s.now, s.reps[r], act) && Permits(s, r, act)
    case DraftJob(o, id, input) => o !in s.ops && NewJob(env.cron, id, input, s.now).Ok?
    case ReadJob(o, j, _) => o !in s.ops && j in s.db.jobs
    case PrepareJob(o) => o in s.ops && s.ops[o].Fetched?
    case WriteJob(o, ok) =>
      && o in s.ops && s.ops[o].Ready?
      && (ok ==> Storable(s.ops[o].row) && !JobLocked(s, s.ops[o].row.id)
                 && (s.ops[o].insert ==> s.ops[o].row.id !in s.jobIds))
    case RemoveJob(j) => !JobLocked(s, j)
    case SaveChannel(_) => true
    case RemoveChannel(_) => true
  }

  function AfterWrite(s: State, o: OpId, ok: bool): State
    requires o in s.ops && s.ops[o].Ready?
  {
    var op := s.ops[o];
    var s' := s.(ops := s.ops - {o});
    if !ok then s'
    else if op.insert then
      s'.(db := InsertJob(s.db, op.row, s.now), jobIds := s.jobIds + {op.row.id},
          jobWrites := s.jobWrites + [op.row.id])
    else s'.(db := UpdateJob(s.db, op.row, s.now), jobWrites := s.jobWrites + [op.row.id])
  }

  function After(env: Env, s: State, step: Step): State
    requires Enabled(env, s, step)
  {
    match step
    case Elapse(dt) => s.(now := s.now + dt)
    case Launch(r, workers) => s.(reps := s.reps[r := Fresh(workers)])
    case Do(r, act) => AfterDo(env, s, r, act)
    case DraftJob(o, id, input) => s.(ops := s.ops[o := Ready(true, NewJob(env.cron, id, input, s.now).value)])
    case ReadJob(o, j, change) => s.(ops := s.ops[o := Fetched(change, s.db.jobs[j])])
    case PrepareJob(o) =>
      (match Modified(env.cron, s.ops[o].change, s.ops[o].row, s.now)
       case Ok(row) => s.(ops := s.ops[o := Ready(false, row)])
       case Err(_) => s.(ops := s.ops - {o}))
    case WriteJob(o, ok) => AfterWrite(s, o, ok)
    case RemoveJob(j) => s.(db := DeleteJob(s.db, j))
    case SaveChannel(ch) => s.(db := PutChannel(s.db, ch))
    case RemoveChannel(c) => s.(db := DeleteChannel(s.db, c))
  }

  /** No other process, no request and no passing of time changes a process. */
  lemma {:induction false} OthersKeepRep(env: Env, s: State, step: Step, r: ReplicaId)
    requires Enabled(env, s, step) && r in s.reps && !(step.Do? && step.r == r)
    ensures r in After(env, s, step).reps && After(env, s, step).reps[r] == s.reps[r]
  {
  }

  lemma {:induction false} RequestTime(env: Env, s: State, step: Step)
    requires Enabled(env, s, step) && !step.Do? && !step.Elapse?
    ensures After(env, s, step).now == s.now
  {
    match step
    case WriteJob(o, ok) => assert AfterWrite(s, o, ok).now == s.now;
    case _ =>
  }

  // ---------------------------------------------------------------- runs

  ghost predicate Run(env: Env, s: State, steps: seq<Step>)
    decreases steps
  {
    steps != [] ==> Enabled(env, s, steps[0]) && Run(env, After(env, s, steps[0]), steps[1..])
  }

  ghost function End(env: Env, s: State, steps: seq<Step>): State
    requires Run(env, s, steps)
    decreases steps
  {
    if steps == [] then s else End(env, After(env, s, steps[0]), steps[1..])
  }

  ghost predicate Reachable(env: Env, s: State) {
    exists steps :: Run(env, INIT, steps) && End(env, INIT, steps) == s
  }

  lemma {:induction false} RunCons(env: Env, s: State, step: Step, rest: seq<Step>)
    requires Enabled(env, s, step) && Run(env, After(env, s, step), rest)
    ensures Run(env, s, [step] + rest) && End(env, s, [step] + rest) == End(env, After(env, s, step), rest)
  {
    assert ([step] + rest)[1..] == rest;
  }

  lemma {:induction false} RunSnoc(env: Env, s: State, steps: seq<Step>, step: Step)
    requires Run(env, s, steps) && Enabled(env, End(env, s, steps), step)
    ensures Run(env, s, steps + [step]) && End(env, s, steps + [step]) == After(env, End(env, s, steps), step)
    decreases steps
  {
    if steps == [] {
      assert [] + [step] == [step];
      assert [step][1..] == [];
    } else {
      RunSnoc(env, After(env, s, steps[0]), steps[1..], step);
      assert (steps + [step])[1..] == steps[1..] + [step];
    }
  }

  lemma {:induction false} ReachableStep(env: Env, s: State, step: Step)
    requires Reachable(env, s) && Enabled(env, s, step)
    ensures Reachable(env, After(env, s, step))
  {
    var steps :| Run(env, INIT, steps) && End(env, INIT, steps) == s;
    RunSnoc(env, INIT, steps, step);
  }
}
