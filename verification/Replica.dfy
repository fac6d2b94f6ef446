/** One scheduler process: its tick loop, its worker pool, its dispatcher and its shutdown, as
    a state machine. Every action is one atomic step between two interleaving points; all that
    the database, the executors and the clock decide arrives as an argument of the action.
    The fields from `claimed` on are a history that nothing reads back. */
module Replica {
  import opened Domain
  import opened Tables

  datatype Env = Env(cron: Cron, executors: set<string>, notifiers: set<string>, dispatches: bool)

  /** The claiming transaction: not open, open since `at`, or walking the rows it locked. */
  datatype Tx =
    | NoTx
    | Begun(at: Time)
    | Looping(at: Time, startedAt: Time, rows: seq<Job>, pos: nat, claims: seq<Claim>)

  /** A buffered claim, when it was sent, and how many claims had been received by then. */
  datatype Queued = Queued(claim: Claim, since: Time, startedBefore: nat)

  datatype Stage =
    | Executing
    | Saved(status: ExecStatus, finishedAt: Time)
    | WroteBack(status: ExecStatus)
    | Fanout(todo: seq<Channel>)

  /** `ordinal` counts the claims received before this one. */
  datatype Worker = Idle | Exited | Busy(claim: Claim, startAt: Time, ordinal: nat, stage: Stage)

  datatype Phase = Starting | Up | Draining | AwaitingSends | Returned | Crashed

  datatype Fetch = Fetch(job: Job, status: ExecStatus, targets: seq<Channel>)
  datatype Link = Link(exec: ExecId, chan: ChannelId)

  datatype Replica = Replica(
    phase: Phase, ctxDone: bool, execCancelled: bool,
    tx: Tx, batch: seq<Claim>, waitSince: Time, passed: nat,
    queue: seq<Queued>, workers: seq<Worker>,
    sends: map<NotifId, Channel>, wg: int,
    claimed: seq<ExecId>, started: seq<ExecId>, starts: seq<Time>,
    shed: set<ExecId>, done: set<ExecId>, failed: set<ExecId>,
    fetched: map<ExecId, Fetch>, created: map<NotifId, Link>, unsaved: set<NotifId>)
  {
    function Capacity(): nat { 2 * |workers| }
  }

  function Fresh(workers: nat): Replica {
    Replica(Starting, false, false, NoTx, [], 0, 0, [], seq(workers, _ => Idle), map[], 0,
            [], [], [], {}, {}, {}, map[], map[], {})
  }

  /** Steps of the tick loop: claiming, then handing the claims to the workers' channel. */
  datatype TickAct =
    | Begin
    | Select(rows: seq<Job>)
    | AdvanceRow(execId: ExecId)
    | Commit
    | Abort
    | Enqueue
    | ShedOnShutdown(ok: bool)
    | ShedOnTimeout(ok: bool)

  /** Steps of one worker goroutine. */
  datatype WorkAct =
    | Dequeue
    | Finish(outcome: Outcome, ok: bool)
    | WriteBack(ok: bool)
    | FetchChannels(targets: seq<Channel>, ok: bool)
    | Notify(n: NotifId, ok: bool)
    | EndJob
    | Exit

  datatype Act =
    | Tick(t: TickAct)
    | Work(w: nat, a: WorkAct)
    | SendDone(n: NotifId, delivered: bool, message: string, ok: bool)
    | Recover(ok: bool)
    | Cancel
    | Close
    | CancelExecutions
    | WorkersGone
    | Return
    | Crash

  // ---------------------------------------------------------------- pure parts of the code

  /** A signed 64-bit integer holding `x`. */
  function Wrapped(x: int): int {
    (x + MAX_INT64 + 1) % (2 * (MAX_INT64 + 1)) - (MAX_INT64 + 1)
  }

  /** The time limit of a run in nanoseconds, as `executeJob` computes it in 64 bits. */
  function RunTimeout(job: Job): int {
    var timeout := Wrapped(job.timeoutSeconds * NANOS_PER_SECOND);
    if timeout <= 0 then DEFAULT_TIMEOUT_SECONDS * NANOS_PER_SECOND else timeout
  }

  /** What `executeJob` records about a run that took from `start` to `finish`. */
  function RunResult(executors: set<string>, job: Job, outcome: Outcome, start: Time, finish: Time): Terminal {
    if job.kind !in executors
    then Terminal(Error, "", "unknown job type: " + job.kind, finish - start, finish)
    else match outcome
      case Broken(message) => Terminal(Error, "", message, finish - start, finish)
      case Verdict(passed, output) =>
        Terminal(if passed then Success else Failure, output, "", finish - start, finish)
  }

  function ShedResult(reason: string, now: Time): Terminal {
    Terminal(Error, "", reason, 0, now)
  }

  /** What `send` records about a notification. */
  function SendStatus(notifiers: set<string>, ch: Channel, delivered: bool): NotifStatus {
    if ch.kind in notifiers && delivered then Sent else Failed
  }

  function SendError(notifiers: set<string>, ch: Channel, delivered: bool, message: string): string {
    if ch.kind !in notifiers then "no notifier registered for channel type " + ch.kind
    else if delivered then "" else message
  }

  /** Whether the worker goes on to look up channels. */
  predicate WantsChannels(env: Env, job: Job, status: ExecStatus) {
    env.dispatches && ShouldNotify(job, status) && job.notifyChannels != []
  }

  // ---------------------------------------------------------------- steps

  predicate Alive(rep: Replica) {
    rep.phase != Crashed && rep.phase != Returned
  }

  predicate CanTick(now: Time, rep: Replica, t: TickAct) {
    match t
    case Begin => rep.phase == Up && !rep.ctxDone && rep.tx.NoTx? && rep.batch == []
    case Select(rows) => rep.tx.Begun? && |rows| <= rep.Capacity()
    case AdvanceRow(_) => rep.tx.Looping? && rep.tx.pos < |rep.tx.rows|
    case Commit => rep.tx.Looping? && rep.tx.pos == |rep.tx.rows|
    case Abort => !rep.tx.NoTx?
    case Enqueue => rep.batch != [] && |rep.queue| < rep.Capacity()
    case ShedOnShutdown(_) => rep.batch != [] && rep.ctxDone
    case ShedOnTimeout(_) => rep.batch != [] && now >= rep.waitSince + DISPATCH_TIMEOUT
  }

  predicate CanWork(rep: Replica, wk: Worker, a: WorkAct) {
    match a
    case Dequeue => wk.Idle? && rep.queue != []
    case Finish(outcome, _) => wk.Busy? && wk.stage.Executing? && (outcome.Broken? ==> outcome.message != "")
    case WriteBack(_) => wk.Busy? && wk.stage.Saved?
    case FetchChannels(_, _) => wk.Busy? && wk.stage.WroteBack?
    case Notify(n, _) => wk.Busy? && wk.stage.Fanout? && wk.stage.todo != [] && n !in rep.created
    case EndJob => wk.Busy? && wk.stage.Fanout? && wk.stage.todo == []
    case Exit => wk.Idle? && rep.phase == Draining && rep.queue == []
  }

  predicate CanAct(now: Time, rep: Replica, act: Act) {
    Alive(rep) &&
    match act
    case Tick(t) => CanTick(now, rep, t)
    case Work(w, a) => w < |rep.workers| && CanWork(rep, rep.workers[w], a)
    case SendDone(n, _, _, _) => n in rep.sends
    case Recover(_) => rep.phase == Starting
    case Cancel => !rep.ctxDone
    case Close => rep.phase == Up && rep.ctxDone && rep.tx.NoTx? && rep.batch == []
    case CancelExecutions => rep.phase == Draining && !rep.execCancelled
    case WorkersGone => rep.phase == Draining && forall w :: 0 <= w < |rep.workers| ==> rep.workers[w].Exited?
    case Return => rep.phase == AwaitingSends && rep.wg == 0
    case Crash => true
  }

  /** The terminal write of `e` was attempted. */
  function Settled(rep: Replica, e: ExecId, ok: bool): Replica {
    if ok then rep.(done := rep.done + {e}) else rep.(failed := rep.failed + {e})
  }

  function Shed(now: Time, rep: Replica, ok: bool): Replica
    requires rep.batch != []
  {
    var e := rep.batch[0].execId;
    Settled(rep.(batch := rep.batch[1..], waitSince := now, passed := rep.passed + 1, shed := rep.shed + {e}), e, ok)
  }

  /** One turn of the loop over the locked rows: a row whose schedule does not parse is skipped. */
  function LoopOver(cron: Cron, now: Time, tx: Tx, e: ExecId): Tx
    requires tx.Looping? && tx.pos < |tx.rows|
  {
    var job := tx.rows[tx.pos];
    if cron.parses(job.schedule)
    then tx.(pos := tx.pos + 1,
             claims := tx.claims + [Claim(job.(nextRunAt := Some(cron.next(job.schedule, now))), e, tx.startedAt)])
    else tx.(pos := tx.pos + 1)
  }

  function TickNext(env: Env, now: Time, rep: Replica, t: TickAct): Replica
    requires CanTick(now, rep, t)
  {
    match t
    case Begin => rep.(tx := Begun(now))
    case Select(rows) => rep.(tx := Looping(rep.tx.at, now, rows, 0, []))
    case AdvanceRow(e) => rep.(tx := LoopOver(env.cron, now, rep.tx, e))
    case Commit =>
      rep.(tx := NoTx, batch := rep.tx.claims, waitSince := now, passed := 0,
           claimed := rep.claimed + ClaimIds(rep.tx.claims))
    case Abort => rep.(tx := NoTx)
    case Enqueue =>
      rep.(batch := rep.batch[1..], waitSince := now, passed := rep.passed + 1,
           queue := rep.queue + [Queued(rep.batch[0], now, |rep.started|)])
    case ShedOnShutdown(ok) => Shed(now, rep, ok)
    case ShedOnTimeout(ok) => Shed(now, rep, ok)
  }

  /** Where the step leaves the worker that takes it. */
  function WorkerNext(env: Env, now: Time, rep: Replica, wk: Worker, a: WorkAct): Worker
    requires CanWork(rep, wk, a)
  {
    match a
    case Dequeue => Busy(rep.queue[0].claim, now, |rep.started|, Executing)
    case Finish(outcome, _) =>
      wk.(stage := Saved(RunResult(env.executors, wk.claim.job, outcome, wk.startAt, now).status, now))
    case WriteBack(_) => wk.(stage := WroteBack(wk.stage.status))
    case FetchChannels(targets, ok) =>
      if WantsChannels(env, wk.claim.job, wk.stage.status) && ok then wk.(stage := Fanout(targets)) else Idle
    case Notify(_, _) => wk.(stage := Fanout(wk.stage.todo[1..]))
    case EndJob => Idle
    case Exit => Exited
  }

  /** Whether the step stores the channels looked up, or a notification. */
  predicate Fetches(env: Env, wk: Worker, a: WorkAct) {
    a.FetchChannels? && wk.Busy? && wk.stage.WroteBack? && a.ok && WantsChannels(env, wk.claim.job, wk.stage.status)
  }

  predicate Notifies(wk: Worker, a: WorkAct) {
    a.Notify? && wk.Busy? && wk.stage.Fanout? && wk.stage.todo != [] && a.ok && wk.stage.todo[0].enabled
  }

  function WorkNext(env: Env, now: Time, rep: Replica, w: nat, a: WorkAct): Replica
    requires w < |rep.workers| && CanWork(rep, rep.workers[w], a)
  {
    var wk := rep.workers[w];
    rep.(workers := rep.workers[w := WorkerNext(env, now, rep, wk, a)],
         queue := if a.Dequeue? then rep.queue[1..] else rep.queue,
         started := if a.Dequeue? then rep.started + [rep.queue[0].claim.execId] else rep.started,
         starts := if a.Dequeue? then rep.starts + [now] else rep.starts,
         done := if a.Finish? && a.ok then rep.done + {wk.claim.execId} else rep.done,
         failed := if a.Finish? && !a.ok then rep.failed + {wk.claim.execId} else rep.failed,
         fetched := if Fetches(env, wk, a)
                    then rep.fetched[wk.claim.execId := Fetch(wk.claim.job, wk.stage.status, a.targets)]
                    else rep.fetched,
         sends := if Notifies(wk, a) then rep.sends[a.n := wk.stage.todo[0]] else rep.sends,
         wg := if Notifies(wk, a) then rep.wg + 1 else rep.wg,
         created := if Notifies(wk, a) then rep.created[a.n := Link(wk.claim.execId, wk.stage.todo[0].id)]
                    else rep.created)
  }

  function Next(env: Env, now: Time, rep: Replica, act: Act): Replica
    requires CanAct(now, rep, act)
  {
    match act
    case Tick(t) => TickNext(env, now, rep, t)
    case Work(w, a) => WorkNext(env, now, rep, w, a)
    case SendDone(n, _, _, ok) =>
      rep.(sends := rep.sends - {n}, wg := rep.wg - 1,
           unsaved := if ok then rep.unsaved else rep.unsaved + {n})
    case Recover(_) => rep.(phase := Up)
    case Cancel => rep.(ctxDone := true)
    case Close => rep.(phase := Draining)
    case CancelExecutions => rep.(execCancelled := true)
    case WorkersGone => rep.(phase := AwaitingSends)
    case Return => rep.(phase := Returned)
    case Crash => rep.(phase := Crashed, tx := NoTx)
  }
}
