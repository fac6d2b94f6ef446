/** The database tables and the effect of each statement the repositories send: an UPDATE by
    id does nothing to a missing row, a DELETE cascades, an INSERT needs the rows it refers to. */
module Tables {
  import opened Domain

  datatype Tables = Tables(
    jobs: map<JobId, Job>, execs: map<ExecId, Execution>,
    notifs: map<NotifId, Notification>, chans: map<ChannelId, Channel>)

  /** The terminal columns a finished execution is updated with. */
  datatype Terminal = Terminal(status: ExecStatus, output: string, error: string, durationMs: int, finishedAt: Time)

  // ---------------------------------------------------------------- jobs

  const JOB_KINDS: set<string> := {"http_check", "command", "rss_watch"}

  /** The column constraints a job row must meet to be stored. */
  predicate Storable(job: Job) {
    job.kind in JOB_KINDS && -MAX_INT32 - 1 <= job.timeoutSeconds <= MAX_INT32
  }

  function InsertJob(t: Tables, job: Job, now: Time): Tables {
    t.(jobs := t.jobs[job.id := job.(lastRunAt := None, createdAt := now, updatedAt := now)])
  }

  /** The columns of `row` the whole-row UPDATE leaves alone. */
  function Overwritten(row: Job, job: Job, now: Time): Job {
    job.(id := row.id, userId := row.userId, createdAt := row.createdAt, updatedAt := now)
  }

  function UpdateJob(t: Tables, job: Job, now: Time): Tables {
    if job.id in t.jobs
    then t.(jobs := t.jobs[job.id := Overwritten(t.jobs[job.id], job, now)])
    else t
  }

  function DeleteJob(t: Tables, j: JobId): Tables {
    t.(jobs := t.jobs - {j},
       execs := map e | e in t.execs && t.execs[e].jobId != j :: t.execs[e],
       notifs := map n | n in t.notifs
                   && !(t.notifs[n].executionId in t.execs && t.execs[t.notifs[n].executionId].jobId == j)
                   :: t.notifs[n])
  }

  /** Advance the job and insert the `running` row, inside the claiming transaction that
      began at `at`. */
  function ApplyClaim(t: Tables, c: Claim, at: Time): Tables {
    var jobs := if c.job.id in t.jobs
                then t.jobs[c.job.id := t.jobs[c.job.id].(nextRunAt := c.job.nextRunAt, updatedAt := at)]
                else t.jobs;
    t.(jobs := jobs, execs := t.execs[c.execId := Execution(c.job.id, Running, "", "", 0, c.startedAt, None)])
  }

  function ApplyClaims(t: Tables, claims: seq<Claim>, at: Time): Tables {
    if claims == [] then t
    else ApplyClaim(ApplyClaims(t, claims[..|claims| - 1], at), claims[|claims| - 1], at)
  }

  // ---------------------------------------------------------------- executions

  function Finished(row: Execution, u: Terminal): Execution {
    row.(status := u.status, output := u.output, error := u.error, durationMs := u.durationMs,
         finishedAt := Some(u.finishedAt))
  }

  function UpdateExec(t: Tables, e: ExecId, u: Terminal): Tables {
    if e in t.execs then t.(execs := t.execs[e := Finished(t.execs[e], u)]) else t
  }

  function StaleRows(t: Tables, cutoff: Time): set<ExecId> {
    set e | e in t.execs && t.execs[e].status == Running && t.execs[e].startedAt < cutoff
  }

  function Recovered(row: Execution, now: Time): Execution {
    row.(status := Error, error := "scheduler crashed or timed out", finishedAt := Some(now))
  }

  function RecoverStale(t: Tables, cutoff: Time, now: Time): Tables {
    t.(execs := map e | e in t.execs ::
         if e in StaleRows(t, cutoff) then Recovered(t.execs[e], now) else t.execs[e])
  }

  // ---------------------------------------------------------------- channels and notifications

  function PutChannel(t: Tables, ch: Channel): Tables {
    t.(chans := t.chans[ch.id := ch])
  }

  function DeleteChannel(t: Tables, c: ChannelId): Tables {
    t.(chans := t.chans - {c},
       notifs := map n | n in t.notifs && t.notifs[n].channelId != c :: t.notifs[n])
  }

  /** The rows answering `id = ANY(ids)`: one per listed channel that exists, however often
      the list repeats it. */
  predicate ChannelsOf(chans: map<ChannelId, Channel>, ids: seq<ChannelId>, rows: seq<Channel>) {
    && (forall i :: 0 <= i < |rows| ==> rows[i].id in ids && rows[i].id in chans && rows[i] == chans[rows[i].id])
    && (forall i, k :: 0 <= i < k < |rows| ==> rows[i].id != rows[k].id)
    && (forall i :: 0 <= i < |ids| && ids[i] in chans ==> chans[ids[i]] in rows)
  }

  function InsertNotif(t: Tables, n: NotifId, e: ExecId, c: ChannelId): Tables {
    t.(notifs := t.notifs[n := Notification(e, c, Pending, "", None)])
  }

  function Marked(row: Notification, status: NotifStatus, error: string, now: Time): Notification {
    row.(status := status, error := error, sentAt := if status == Sent then Some(now) else None)
  }

  function UpdateNotif(t: Tables, n: NotifId, status: NotifStatus, error: string, now: Time): Tables {
    if n in t.notifs then t.(notifs := t.notifs[n := Marked(t.notifs[n], status, error, now)]) else t
  }

  // ---------------------------------------------------------------- what every statement keeps

  /** Foreign keys hold, and each row is filed under its own id. */
  ghost predicate Referential(t: Tables) {
    && (forall j :: j in t.jobs ==> t.jobs[j].id == j)
    && (forall c :: c in t.chans ==> t.chans[c].id == c)
    && (forall e :: e in t.execs ==> t.execs[e].jobId in t.jobs)
    && (forall n :: n in t.notifs ==> t.notifs[n].executionId in t.execs && t.notifs[n].channelId in t.chans)
  }

  predicate ExecRowOk(row: Execution) {
    && (row.status == Running <==> row.finishedAt.None?)
    && (row.status == Error <==> row.error != "")
  }

  predicate NotifRowOk(row: Notification) {
    row.status == Sent <==> row.sentAt.Some?
  }

  ghost predicate RowsOk(t: Tables) {
    && (forall e :: e in t.execs ==> ExecRowOk(t.execs[e]))
    && (forall n :: n in t.notifs ==> NotifRowOk(t.notifs[n]))
  }

  predicate TerminalOk(u: Terminal) {
    u.status != Running && (u.status == Error <==> u.error != "")
  }

  // ---------------------------------------------------------------- deletion

  /** Job `j` is gone with its executions and their notifications, and nothing else is. */
  ghost predicate OnlyJobGone(t: Tables, t': Tables, j: JobId) {
    && t'.chans == t.chans
    && (forall i :: i in t'.jobs <==> i in t.jobs && i != j) && (forall i :: i in t'.jobs ==> t'.jobs[i] == t.jobs[i])
    && (forall e :: e in t'.execs <==> e in t.execs && t.execs[e].jobId != j)
    && (forall e :: e in t'.execs ==> t'.execs[e] == t.execs[e])
    && (forall n :: n in t'.notifs <==>
          n in t.notifs && !(t.notifs[n].executionId in t.execs && t.execs[t.notifs[n].executionId].jobId == j))
    && (forall n :: n in t'.notifs ==> t'.notifs[n] == t.notifs[n])
  }

  /** Channel `c` is gone with its notifications, and nothing else is. */
  ghost predicate OnlyChannelGone(t: Tables, t': Tables, c: ChannelId) {
    && t'.jobs == t.jobs && t'.execs == t.execs
    && (forall i :: i in t'.chans <==> i in t.chans && i != c)
    && (forall i :: i in t'.chans ==> t'.chans[i] == t.chans[i])
    && (forall n :: n in t'.notifs <==> n in t.notifs && t.notifs[n].channelId != c)
    && (forall n :: n in t'.notifs ==> t'.notifs[n] == t.notifs[n])
  }

  // ---------------------------------------------------------------- crash recovery

  /** One recovery leaves no `running` row older than the cutoff, changes exactly the stale
      rows, marking each as crashed, and repeating it with the same cutoff changes nothing. */
  lemma {:induction false} RecoveryIsComplete(t: Tables, cutoff: Time, now: Time, later: Time)
    ensures StaleRows(RecoverStale(t, cutoff, now), cutoff) == {}
    ensures var t' := RecoverStale(t, cutoff, now);
            && t'.execs.Keys == t.execs.Keys && t'.(execs := t.execs) == t
            && StaleRows(t, cutoff) == (set e | e in t.execs && t'.execs[e] != t.execs[e])
            && (forall e :: e in t.execs ==>
                  var row := t.execs[e];
                  t'.execs[e] ==
                    if row.status == Running && row.startedAt < cutoff
                    then row.(status := Error, error := "scheduler crashed or timed out", finishedAt := Some(now))
                    else row)
    ensures RecoverStale(RecoverStale(t, cutoff, now), cutoff, later) == RecoverStale(t, cutoff, now)
  {
    var t' := RecoverStale(t, cutoff, now);
    assert forall e :: e in StaleRows(t, cutoff) ==> t'.execs[e].status != t.execs[e].status;
    assert StaleRows(t', cutoff) == {};
    assert RecoverStale(t', cutoff, later).execs == t'.execs;
  }

  // ---------------------------------------------------------------- claims

  lemma {:induction false} ClaimIdsSplit(claims: seq<Claim>)
    requires claims != []
    ensures ClaimIds(claims) == ClaimIds(claims[..|claims| - 1]) + [claims[|claims| - 1].execId]
  {
  }

  lemma {:induction false} ApplyClaimsExecs(t: Tables, claims: seq<Claim>, at: Time)
    ensures var t' := ApplyClaims(t, claims, at);
            && t'.notifs == t.notifs && t'.chans == t.chans
            && (forall e :: e in t'.execs <==> e in t.execs || e in ClaimIds(claims))
            && (forall e :: e in t.execs && e !in ClaimIds(claims) ==> t'.execs[e] == t.execs[e])
  {
    if claims != [] {
      ApplyClaimsExecs(t, claims[..|claims| - 1], at);
      ClaimIdsSplit(claims);
    }
  }

  /** The claiming UPDATE touches only these two columns. */
  predicate OnlyAdvanced(before: Job, after: Job) {
    after == before.(nextRunAt := after.nextRunAt, updatedAt := after.updatedAt)
  }

  lemma {:induction false} ApplyClaimsJobs(t: Tables, claims: seq<Claim>, at: Time)
    ensures var t' := ApplyClaims(t, claims, at);
            && t'.jobs.Keys == t.jobs.Keys
            && forall j :: j in t.jobs ==> OnlyAdvanced(t.jobs[j], t'.jobs[j])
  {
    if claims != [] {
      ApplyClaimsJobs(t, claims[..|claims| - 1], at);
    }
  }

  ghost predicate Claims(claims: seq<Claim>, j: JobId) {
    exists k :: 0 <= k < |claims| && claims[k].job.id == j
  }

  lemma {:induction false} ApplyClaimsOtherJob(t: Tables, claims: seq<Claim>, at: Time, j: JobId)
    requires j in t.jobs && !Claims(claims, j)
    ensures j in ApplyClaims(t, claims, at).jobs && ApplyClaims(t, claims, at).jobs[j] == t.jobs[j]
  {
    if claims != [] {
      assert claims[|claims| - 1].job.id != j;
      ApplyClaimsOtherJob(t, claims[..|claims| - 1], at, j);
    }
  }

  ghost predicate DistinctJobs(claims: seq<Claim>) {
    forall a, b :: 0 <= a < b < |claims| ==> claims[a].job.id != claims[b].job.id
  }

  /** Each claim's own rows, when neither jobs nor execution ids repeat. */
  lemma {:induction false} ApplyClaimsAt(t: Tables, claims: seq<Claim>, at: Time, k: nat)
    requires k < |claims| && NoDup(ClaimIds(claims)) && DistinctJobs(claims)
    requires claims[k].job.id in t.jobs
    ensures var t' := ApplyClaims(t, claims, at); var c := claims[k];
            && c.execId in t'.execs
            && t'.execs[c.execId] == Execution(c.job.id, Running, "", "", 0, c.startedAt, None)
            && c.job.id in t'.jobs
            && t'.jobs[c.job.id] == t.jobs[c.job.id].(nextRunAt := c.job.nextRunAt, updatedAt := at)
  {
    var last := |claims| - 1;
    var front := claims[..last];
    ClaimIdsSplit(claims);
    if k < last {
      assert NoDup(ClaimIds(front)) by { assert ClaimIds(front) == ClaimIds(claims)[..last]; }
      ApplyClaimsAt(t, front, at, k);
      assert claims[k].execId != claims[last].execId by { assert ClaimIds(claims)[k] != ClaimIds(claims)[last]; }
    } else {
      assert !Claims(front, claims[k].job.id);
      ApplyClaimsOtherJob(t, front, at, claims[k].job.id);
    }
  }

  // ---------------------------------------------------------------- each statement keeps the tables sound

  ghost predicate TablesOk(t: Tables) {
    Referential(t) && RowsOk(t)
  }

  lemma {:induction false} JobWritesKeepTables(t: Tables, job: Job, now: Time)
    requires TablesOk(t)
    ensures TablesOk(InsertJob(t, job, now)) && TablesOk(UpdateJob(t, job, now))
  {
  }

  lemma {:induction false} DeletesKeepTables(t: Tables, j: JobId, c: ChannelId)
    requires TablesOk(t)
    ensures TablesOk(DeleteJob(t, j)) && TablesOk(DeleteChannel(t, c))
  {
  }

  lemma {:induction false} ExecWritesKeepTables(t: Tables, e: ExecId, u: Terminal, cutoff: Time, now: Time)
    requires TablesOk(t)
    ensures TerminalOk(u) ==> TablesOk(UpdateExec(t, e, u))
    ensures TablesOk(RecoverStale(t, cutoff, now))
  {
  }

  lemma {:induction false} NotifWritesKeepTables(t: Tables, n: NotifId, e: ExecId, c: ChannelId, status: NotifStatus,
        error: string, now: Time)
    requires TablesOk(t)
    ensures e in t.execs && c in t.chans ==> TablesOk(InsertNotif(t, n, e, c))
    ensures TablesOk(UpdateNotif(t, n, status, error, now))
  {
  }

  lemma {:induction false} ChannelWriteKeepsTables(t: Tables, ch: Channel)
    requires TablesOk(t)
    ensures TablesOk(PutChannel(t, ch))
  {
  }

  lemma {:induction false} ClaimsKeepTables(t: Tables, claims: seq<Claim>, at: Time)
    requires TablesOk(t) && forall k :: 0 <= k < |claims| ==> claims[k].job.id in t.jobs
    ensures TablesOk(ApplyClaims(t, claims, at))
  {
    if claims != [] {
      ClaimsKeepTables(t, claims[..|claims| - 1], at);
      ApplyClaimsJobs(t, claims[..|claims| - 1], at);
    }
  }
}
