/** The repositories as objects over one shared pool. Each method is one statement, or one
    transaction, and is proved against the statement's effect in `Tables`. A `fault` argument
    stands for whatever makes the database refuse; the clock arrives as an argument too. */
module Repositories {
  import opened Domain
  import opened Tables
  import opened Claiming

  class Pool {
    var jobs: map<JobId, Job>
    var execs: map<ExecId, Execution>
    var notifs: map<NotifId, Notification>
    var chans: map<ChannelId, Channel>

    constructor (t: Tables)
      ensures View() == t
    {
      jobs, execs, notifs, chans := t.jobs, t.execs, t.notifs, t.chans;
    }

    function View(): Tables
      reads this
    {
      Tables(jobs, execs, notifs, chans)
    }

    /** What a committed transaction, or somebody else, leaves behind. */
    method Become(t: Tables)
      modifies this
      ensures View() == t
    {
      jobs, execs, notifs, chans := t.jobs, t.execs, t.notifs, t.chans;
    }
  }

  // ---------------------------------------------------------------- jobs

  /** Where a claiming transaction breaks off, if it does. */
  datatype ClaimFault = NoFault | BeginFails | QueryFails | RowFails(row: nat) | CommitFails

  /** The claims of the first `n` locked rows: those that parse, each with the next run computed
      at its own reading of the clock. */
  function LoopClaims(cron: Cron, clock: nat -> Time, ids: nat -> ExecId, rows: seq<Job>, n: nat): seq<Claim>
    requires n <= |rows|
  {
    if n == 0 then []
    else
      var row := rows[n - 1];
      LoopClaims(cron, clock, ids, rows, n - 1)
      + if cron.parses(row.schedule)
        then [Claim(row.(nextRunAt := Some(cron.next(row.schedule, clock(n + 1)))), ids(n - 1), clock(1))]
        else []
  }

  /** A stored row after a whole-row update from `job`: its identity, owner and creation stamp stay. */
  ghost predicate Replaces(before: Job, after: Job, job: Job, now: Time) {
    && after.id == before.id && after.userId == before.userId && after.createdAt == before.createdAt
    && after.updatedAt == now && after.name == job.name && after.kind == job.kind && after.schedule == job.schedule
    && after.config == job.config && after.status == job.status && after.notifyChannels == job.notifyChannels
    && after.condition == job.condition && after.timeoutSeconds == job.timeoutSeconds
    && after.lastRunAt == job.lastRunAt && after.nextRunAt == job.nextRunAt
  }

  class JobRepository {
    const pool: Pool

    constructor (pool: Pool)
      ensures this.pool == pool
    {
      this.pool := pool;
    }

    method Create(job: Job, now: Time, fault: bool) returns (failed: bool)
      modifies pool
      ensures failed <==> fault || !Storable(job) || job.id in old(pool.jobs)
      ensures failed <==> fault || job.kind !in {"http_check", "command", "rss_watch"} || job.id in old(pool.jobs)
                          || job.timeoutSeconds < -0x8000_0000 || job.timeoutSeconds > 0x7fff_ffff
      ensures pool.View() == if failed then old(pool.View()) else InsertJob(old(pool.View()), job, now)
      ensures pool.execs == old(pool.execs) && pool.notifs == old(pool.notifs) && pool.chans == old(pool.chans)
      ensures pool.jobs == if failed then old(pool.jobs)
                           else old(pool.jobs)[job.id := job.(lastRunAt := None, createdAt := now, updatedAt := now)]
    {
      failed := fault || !Storable(job) || job.id in pool.jobs;
      if !failed {
        pool.jobs := pool.jobs[job.id := job.(lastRunAt := None, createdAt := now, updatedAt := now)];
      }
    }

    method GetByID(id: JobId, fault: bool) returns (row: Option<Job>)
      ensures row == if fault || id !in pool.jobs then None else Some(pool.jobs[id])
    {
      if fault || id !in pool.jobs {
        return None;
      }
      return Some(pool.jobs[id]);
    }

    method Update(job: Job, now: Time, fault: bool) returns (failed: bool)
      modifies pool
      ensures failed <==> fault || !Storable(job)
      ensures failed <==> fault || job.kind !in {"http_check", "command", "rss_watch"}
                          || job.timeoutSeconds < -0x8000_0000 || job.timeoutSeconds > 0x7fff_ffff
      ensures pool.View() == if failed then old(pool.View()) else UpdateJob(old(pool.View()), job, now)
      ensures pool.execs == old(pool.execs) && pool.notifs == old(pool.notifs) && pool.chans == old(pool.chans)
      ensures pool.jobs.Keys == old(pool.jobs).Keys && (failed ==> pool.jobs == old(pool.jobs))
      ensures forall j :: j in pool.jobs && j != job.id ==> pool.jobs[j] == old(pool.jobs)[j]
      ensures !failed && job.id in pool.jobs ==> Replaces(old(pool.jobs)[job.id], pool.jobs[job.id], job, now)
    {
      failed := fault || !Storable(job);
      if !failed && job.id in pool.jobs {
        var row := pool.jobs[job.id];
        pool.jobs := pool.jobs[job.id := job.(userId := row.userId, createdAt := row.createdAt, updatedAt := now,
                                              id := row.id)];
      }
    }

    method Delete(id: JobId, fault: bool) returns (failed: bool)
      modifies pool
      ensures failed == fault
      ensures pool.View() == if failed then old(pool.View()) else DeleteJob(old(pool.View()), id)
      ensures !failed ==> OnlyJobGone(old(pool.View()), pool.View(), id)
    {
      failed := fault;
      if !failed {
        var gone := set e | e in pool.execs && pool.execs[e].jobId == id;
        pool.notifs := map n | n in pool.notifs && pool.notifs[n].executionId !in gone :: pool.notifs[n];
        pool.execs := pool.execs - gone;
        pool.jobs := pool.jobs - {id};
      }
    }

    /** One claiming transaction. `clock` gives its successive readings of the clock, `ids` the
        execution ids the database generates, `locked` the rows other transactions hold. On any
        fault the private copy it works on is dropped. */
    method ClaimDue(limit: nat, cron: Cron, clock: nat -> Time, ids: nat -> ExecId, locked: set<JobId>,
                    fault: ClaimFault)
      returns (claims: seq<Claim>, failed: bool, rows: seq<Job>)
      requires forall j :: j in pool.jobs ==> pool.jobs[j].id == j
      modifies pool
      ensures failed ==> claims == [] && pool.View() == old(pool.View())
      ensures !failed ==>
                && EarliestDue(rows, old(pool.jobs), locked, clock(0), limit)
                && claims == LoopClaims(cron, clock, ids, rows, |rows|)
                && pool.View() == ApplyClaims(old(pool.View()), claims, clock(0))
      ensures !failed && FreshIds(ids, old(pool.execs).Keys) ==>
                ClaimsStored(old(pool.View()), pool.View(), claims, clock(0))
      ensures fault.NoFault? ==> !failed
      ensures fault.BeginFails? || fault.QueryFails? || fault.CommitFails? ==> failed
    {
      claims, rows := [], [];
      if fault.BeginFails? || fault.QueryFails? {
        return [], true, [];
      }
      rows := QueryDue(clock(0), limit, locked);
      var work, broken;
      claims, work, broken := ClaimRows(rows, cron, clock, ids, fault);
      if broken {
        return [], true, [];
      }
      if fault.CommitFails? {
        return [], true, [];
      }
      ClaimsAreStored(cron, clock, ids, rows, pool.View(), locked, limit);
      pool.Become(work);
      failed := false;
    }

    /** The loop over the locked rows, on the transaction's own copy of the tables. */
    method ClaimRows(rows: seq<Job>, cron: Cron, clock: nat -> Time, ids: nat -> ExecId, fault: ClaimFault)
      returns (claims: seq<Claim>, work: Tables, broken: bool)
      ensures broken ==> fault.RowFails?
      ensures !broken ==>
                && claims == LoopClaims(cron, clock, ids, rows, |rows|)
                && work == ApplyClaims(pool.View(), claims, clock(0))
    {
      claims, work, broken := [], pool.View(), false;
      var i := 0;
      while i < |rows|
        invariant 0 <= i <= |rows| && !broken
        invariant claims == LoopClaims(cron, clock, ids, rows, i)
        invariant work == ApplyClaims(pool.View(), claims, clock(0))
      {
        var row := rows[i];
        if cron.parses(row.schedule) {
          if fault == RowFails(i) {
            return [], work, true;
          }
          var claim := Claim(row.(nextRunAt := Some(cron.next(row.schedule, clock(i + 2)))), ids(i), clock(1));
          work := ApplyClaim(work, claim, clock(0));
          assert (claims + [claim])[..|claims|] == claims;
          claims := claims + [claim];
        }
        i := i + 1;
      }
    }

    /** The answer of the claiming query. */
    method QueryDue(at: Time, limit: nat, locked: set<JobId>) returns (rows: seq<Job>)
      requires forall j :: j in pool.jobs ==> pool.jobs[j].id == j
      ensures EarliestDue(rows, pool.jobs, locked, at, limit)
      ensures |rows| <= limit
      ensures forall i :: 0 <= i < |rows| ==>
                && rows[i].id in pool.jobs && rows[i] == pool.jobs[rows[i].id] && rows[i].id !in locked
                && rows[i].status == Active && rows[i].nextRunAt.Some? && rows[i].nextRunAt.value <= at
      ensures forall i, k :: 0 <= i < k < |rows| ==>
                rows[i].id != rows[k].id && rows[i].nextRunAt.value <= rows[k].nextRunAt.value
      ensures forall j :: j in pool.jobs && j !in locked && pool.jobs[j].status == Active
                          && pool.jobs[j].nextRunAt.Some? && pool.jobs[j].nextRunAt.value <= at ==>
                pool.jobs[j] in rows
                || (|rows| == limit
                    && forall i :: 0 <= i < |rows| ==> rows[i].nextRunAt.value <= pool.jobs[j].nextRunAt.value)
    {
      ghost var answer := EarliestDueExists(pool.jobs, locked, at, limit);
      rows :| EarliestDue(rows, pool.jobs, locked, at, limit);
      AnswerMeans(rows, pool.jobs, locked, at, limit);
    }
  }

  /** The answer of the claiming query in plain words: the earliest due rows that nobody has locked. */
  lemma {:induction false} AnswerMeans(rows: seq<Job>, jobs: map<JobId, Job>, locked: set<JobId>, at: Time, limit: nat)
    requires EarliestDue(rows, jobs, locked, at, limit)
    ensures |rows| <= limit
    ensures forall i :: 0 <= i < |rows| ==>
              && rows[i].id in jobs && rows[i] == jobs[rows[i].id] && rows[i].id !in locked
              && rows[i].status == Active && rows[i].nextRunAt.Some? && rows[i].nextRunAt.value <= at
    ensures forall i, k :: 0 <= i < k < |rows| ==>
              rows[i].id != rows[k].id && rows[i].nextRunAt.value <= rows[k].nextRunAt.value
    ensures forall j :: j in jobs && j !in locked && jobs[j].status == Active
                        && jobs[j].nextRunAt.Some? && jobs[j].nextRunAt.value <= at ==>
              jobs[j] in rows
              || (|rows| == limit
                  && forall i :: 0 <= i < |rows| ==> rows[i].nextRunAt.value <= jobs[j].nextRunAt.value)
  {
    forall j | j in jobs && Eligible(jobs, locked, at, j)
      ensures jobs[j] in rows || (|rows| == limit && forall i :: 0 <= i < |rows| ==> NoLater(rows[i], jobs[j]))
    {
      if Listed(rows, j) {
        var i :| 0 <= i < |rows| && rows[i].id == j;
        assert Eligible(jobs, locked, at, rows[i].id);
      }
    }
    assert forall i :: 0 <= i < |rows| ==> Eligible(jobs, locked, at, rows[i].id);
    assert forall i, k :: 0 <= i < k < |rows| ==> NoLater(rows[i], rows[k]);
  }

  /** The rows the loop does not skip. */
  function Parsing(cron: Cron, rows: seq<Job>): seq<Job> {
    if rows == [] then []
    else Parsing(cron, rows[..|rows| - 1])
         + if cron.parses(rows[|rows| - 1].schedule) then [rows[|rows| - 1]] else []
  }

  lemma {:induction false} ParsingMembers(cron: Cron, rows: seq<Job>)
    ensures forall row :: row in Parsing(cron, rows) <==> row in rows && cron.parses(row.schedule)
  {
    if rows != [] {
      ParsingMembers(cron, rows[..|rows| - 1]);
      assert rows == rows[..|rows| - 1] + [rows[|rows| - 1]];
    }
  }

  predicate InOrder(rows: seq<Job>) {
    forall i, k :: 0 <= i < k < |rows| ==> rows[i].id != rows[k].id && NoLater(rows[i], rows[k])
  }

  lemma {:induction false} ParsingKeepsOrder(cron: Cron, rows: seq<Job>)
    requires InOrder(rows)
    ensures InOrder(Parsing(cron, rows))
  {
    if rows != [] {
      var front, last := rows[..|rows| - 1], rows[|rows| - 1];
      ParsingKeepsOrder(cron, front);
      ParsingMembers(cron, front);
      forall i | 0 <= i < |Parsing(cron, front)|
        ensures Parsing(cron, front)[i].id != last.id && NoLater(Parsing(cron, front)[i], last)
      {
        assert Parsing(cron, front)[i] in front;
      }
    }
  }

  /** The claim of the `k`-th row: its job with only the due time changed, computed at its own
      reading of the clock, and its own execution id. */
  predicate ClaimOf(cron: Cron, clock: nat -> Time, ids: nat -> ExecId, row: Job, k: nat, c: Claim) {
    c == Claim(row.(nextRunAt := Some(cron.next(row.schedule, clock(k + 2)))), ids(k), clock(1))
  }

  /** The loop's claims are, in the same order, exactly those of the rows whose schedule parses. */
  lemma {:induction false} LoopClaimsAre(cron: Cron, clock: nat -> Time, ids: nat -> ExecId, rows: seq<Job>, n: nat)
    requires n <= |rows|
    ensures |LoopClaims(cron, clock, ids, rows, n)| == |Parsing(cron, rows[..n])|
    ensures forall i :: 0 <= i < |LoopClaims(cron, clock, ids, rows, n)| ==>
              exists k :: 0 <= k < n && rows[k] == Parsing(cron, rows[..n])[i]
                          && ClaimOf(cron, clock, ids, rows[k], k, LoopClaims(cron, clock, ids, rows, n)[i])
  {
    if n > 0 {
      LoopClaimsAre(cron, clock, ids, rows, n - 1);
      assert rows[..n][..n - 1] == rows[..n - 1];
      var claims, front := LoopClaims(cron, clock, ids, rows, n), LoopClaims(cron, clock, ids, rows, n - 1);
      var parsed, before := Parsing(cron, rows[..n]), Parsing(cron, rows[..n - 1]);
      forall i | 0 <= i < |claims|
        ensures exists k :: 0 <= k < n && rows[k] == parsed[i] && ClaimOf(cron, clock, ids, rows[k], k, claims[i])
      {
        if i < |front| {
          var k :| 0 <= k < n - 1 && rows[k] == before[i] && ClaimOf(cron, clock, ids, rows[k], k, front[i]);
          assert rows[k] == parsed[i] && claims[i] == front[i];
        } else {
          assert ClaimOf(cron, clock, ids, rows[n - 1], n - 1, claims[i]);
        }
      }
    }
  }

  lemma {:induction false} LoopClaimsDiffer(cron: Cron, clock: nat -> Time, ids: nat -> ExecId, rows: seq<Job>, n: nat)
    requires n <= |rows| && forall i: nat, k: nat :: i < k ==> ids(i) != ids(k)
    ensures NoDup(ClaimIds(LoopClaims(cron, clock, ids, rows, n)))
    ensures forall e :: e in ClaimIds(LoopClaims(cron, clock, ids, rows, n)) ==> exists k: nat :: k < n && e == ids(k)
  {
    if n > 0 {
      LoopClaimsDiffer(cron, clock, ids, rows, n - 1);
      var claims, front := LoopClaims(cron, clock, ids, rows, n), LoopClaims(cron, clock, ids, rows, n - 1);
      if claims != front {
        ClaimIdsSplit(claims);
        assert claims[..|claims| - 1] == front;
        assert ids(n - 1) !in ClaimIds(front);
      }
    }
  }

  /** What a committed transaction leaves: each claim's job has its new due time and the transaction's
      stamp, each claim a new execution, running since the claim; and nothing else has changed. */
  ghost predicate ClaimsStored(t: Tables, t': Tables, claims: seq<Claim>, at: Time) {
    && t'.notifs == t.notifs && t'.chans == t.chans && t'.jobs.Keys == t.jobs.Keys
    && (forall k :: 0 <= k < |claims| ==> ClaimStored(t, t', claims[k], at))
    && (forall j :: j in t.jobs && !Claims(claims, j) ==> t'.jobs[j] == t.jobs[j])
    && (forall e :: e in t.execs ==> e in t'.execs && t'.execs[e] == t.execs[e])
    && (forall e :: e in t'.execs && e !in t.execs ==> exists k :: 0 <= k < |claims| && claims[k].execId == e)
  }

  ghost predicate ClaimStored(t: Tables, t': Tables, c: Claim, at: Time) {
    && c.job.id in t.jobs && c.job.id in t'.jobs
    && t'.jobs[c.job.id] == t.jobs[c.job.id].(nextRunAt := c.job.nextRunAt, updatedAt := at)
    && c.execId !in t.execs && c.execId in t'.execs
    && t'.execs[c.execId] == Execution(c.job.id, Running, "", "", 0, c.startedAt, None)
  }

  /** The loop's claims are of different jobs, all of them rows. */
  lemma {:induction false} LoopJobsDiffer(cron: Cron, clock: nat -> Time, ids: nat -> ExecId, rows: seq<Job>)
    requires InOrder(rows)
    ensures var claims := LoopClaims(cron, clock, ids, rows, |rows|);
            DistinctJobs(claims) && forall i :: 0 <= i < |claims| ==> Listed(rows, claims[i].job.id)
  {
    var claims := LoopClaims(cron, clock, ids, rows, |rows|);
    assert rows[..|rows|] == rows;
    LoopClaimsAre(cron, clock, ids, rows, |rows|);
    ParsingKeepsOrder(cron, rows);
    forall i | 0 <= i < |claims|
      ensures claims[i].job.id == Parsing(cron, rows)[i].id
      ensures Listed(rows, claims[i].job.id)
    {
      var k :| 0 <= k < |rows| && rows[k] == Parsing(cron, rows)[i] && ClaimOf(cron, clock, ids, rows[k], k, claims[i]);
    }
  }

  lemma {:induction false} ClaimsAreStored(cron: Cron, clock: nat -> Time, ids: nat -> ExecId, rows: seq<Job>,
        t: Tables, locked: set<JobId>, limit: nat)
    requires EarliestDue(rows, t.jobs, locked, clock(0), limit)
    ensures var claims := LoopClaims(cron, clock, ids, rows, |rows|);
            FreshIds(ids, t.execs.Keys) ==> ClaimsStored(t, ApplyClaims(t, claims, clock(0)), claims, clock(0))
  {
    var claims := LoopClaims(cron, clock, ids, rows, |rows|);
    if FreshIds(ids, t.execs.Keys) {
      LoopJobsDiffer(cron, clock, ids, rows);
      LoopClaimsDiffer(cron, clock, ids, rows, |rows|);
      forall i | 0 <= i < |claims|
        ensures claims[i].job.id in t.jobs && claims[i].execId !in t.execs
      {
        assert ClaimIds(claims)[i] in ClaimIds(claims);
        var n: nat :| n < |rows| && ClaimIds(claims)[i] == ids(n);
        var k :| 0 <= k < |rows| && rows[k].id == claims[i].job.id;
        assert Eligible(t.jobs, locked, clock(0), rows[k].id);
      }
      StoredOnce(t, claims, clock(0));
    }
  }

  lemma {:induction false} StoredOnce(t: Tables, claims: seq<Claim>, at: Time)
    requires DistinctJobs(claims) && NoDup(ClaimIds(claims))
    requires forall i :: 0 <= i < |claims| ==> claims[i].job.id in t.jobs && claims[i].execId !in t.execs
    ensures ClaimsStored(t, ApplyClaims(t, claims, at), claims, at)
  {
    ApplyClaimsExecs(t, claims, at);
    ApplyClaimsJobs(t, claims, at);
    forall k | 0 <= k < |claims|
      ensures ClaimStored(t, ApplyClaims(t, claims, at), claims[k], at)
    {
      ApplyClaimsAt(t, claims, at, k);
    }
    forall j | j in t.jobs && !Claims(claims, j)
      ensures ApplyClaims(t, claims, at).jobs[j] == t.jobs[j]
    {
      ApplyClaimsOtherJob(t, claims, at, j);
    }
  }

  // ---------------------------------------------------------------- executions

  class ExecutionRepository {
    const pool: Pool

    constructor (pool: Pool)
      ensures this.pool == pool
    {
      this.pool := pool;
    }

    method Update(e: ExecId, u: Terminal, fault: bool) returns (failed: bool)
      modifies pool
      ensures failed == fault
      ensures pool.View() == if failed then old(pool.View()) else UpdateExec(old(pool.View()), e, u)
      ensures pool.jobs == old(pool.jobs) && pool.notifs == old(pool.notifs) && pool.chans == old(pool.chans)
      ensures pool.execs ==
                if failed || e !in old(pool.execs) then old(pool.execs)
                else old(pool.execs)[e := Execution(old(pool.execs)[e].jobId, u.status, u.output, u.error, u.durationMs,
                                                    old(pool.execs)[e].startedAt, Some(u.finishedAt))]
    {
      failed := fault;
      if !failed && e in pool.execs {
        pool.execs := pool.execs[e := pool.execs[e].(status := u.status, output := u.output, error := u.error,
                                                     durationMs := u.durationMs, finishedAt := Some(u.finishedAt))];
      }
    }

    /** Reports how many rows it changed. */
    method RecoverStaleRunning(cutoff: Time, now: Time, fault: bool) returns (count: nat, failed: bool)
      modifies pool
      ensures failed == fault
      ensures pool.View() == if failed then old(pool.View()) else RecoverStale(old(pool.View()), cutoff, now)
      ensures count == if failed then 0 else |StaleRows(old(pool.View()), cutoff)|
      ensures pool.jobs == old(pool.jobs) && pool.notifs == old(pool.notifs) && pool.chans == old(pool.chans)
      ensures pool.execs.Keys == old(pool.execs).Keys && (failed ==> pool.execs == old(pool.execs))
      ensures !failed ==> forall e :: e in pool.execs ==>
                var row := old(pool.execs)[e];
                pool.execs[e] ==
                  if row.status == Running && row.startedAt < cutoff
                  then row.(status := Error, error := "scheduler crashed or timed out", finishedAt := Some(now))
                  else row
      ensures !failed ==>
                count == |set e | e in old(pool.execs) && e in pool.execs && pool.execs[e] != old(pool.execs)[e]|
    {
      count, failed := 0, fault;
      if !failed {
        ghost var before := pool.View();
        var stale := StaleRows(pool.View(), cutoff);
        var rows := pool.execs;
        pool.execs := map e | e in rows ::
          if e in stale
          then rows[e].(status := Error, error := "scheduler crashed or timed out", finishedAt := Some(now))
          else rows[e];
        count := |stale|;
        forall e | e in rows
          ensures pool.execs[e] == RecoverStale(before, cutoff, now).execs[e]
        {
          assert e in stale <==> e in StaleRows(before, cutoff);
        }
        assert pool.execs == RecoverStale(before, cutoff, now).execs;
        RecoveryIsComplete(before, cutoff, now, now);
        assert stale == (set e | e in before.execs && e in pool.execs && pool.execs[e] != before.execs[e]);
      }
    }
  }

  // ---------------------------------------------------------------- notifications and channels

  class NotificationRepository {
    const pool: Pool

    constructor (pool: Pool)
      ensures this.pool == pool
    {
      this.pool := pool;
    }

    method Create(n: NotifId, e: ExecId, c: ChannelId, fault: bool) returns (failed: bool)
      modifies pool
      ensures failed <==> fault || n in old(pool.notifs) || e !in pool.execs || c !in pool.chans
      ensures pool.View() == if failed then old(pool.View()) else InsertNotif(old(pool.View()), n, e, c)
      ensures pool.jobs == old(pool.jobs) && pool.execs == old(pool.execs) && pool.chans == old(pool.chans)
      ensures pool.notifs == if failed then old(pool.notifs)
                             else old(pool.notifs)[n := Notification(e, c, Pending, "", None)]
    {
      failed := fault || n in pool.notifs || e !in pool.execs || c !in pool.chans;
      if !failed {
        pool.notifs := pool.notifs[n := Notification(e, c, Pending, "", None)];
      }
    }

    method UpdateStatus(n: NotifId, status: NotifStatus, error: string, now: Time, fault: bool) returns (failed: bool)
      modifies pool
      ensures failed == fault
      ensures pool.View() == if failed then old(pool.View()) else UpdateNotif(old(pool.View()), n, status, error, now)
      ensures pool.jobs == old(pool.jobs) && pool.execs == old(pool.execs) && pool.chans == old(pool.chans)
      ensures pool.notifs ==
                if failed || n !in old(pool.notifs) then old(pool.notifs)
                else old(pool.notifs)[n := Notification(old(pool.notifs)[n].executionId, old(pool.notifs)[n].channelId,
                                                        status, error, if status == Sent then Some(now) else None)]
    {
      failed := fault;
      var sentAt: Option<Time> := None;
      if status == Sent {
        sentAt := Some(now);
      }
      if !failed && n in pool.notifs {
        pool.notifs := pool.notifs[n := pool.notifs[n].(status := status, error := error, sentAt := sentAt)];
      }
    }
  }

  class ChannelRepository {
    const pool: Pool

    constructor (pool: Pool)
      ensures this.pool == pool
    {
      this.pool := pool;
    }

    /** Each listed channel that exists, once. */
    method GetByIDs(ids: seq<ChannelId>, fault: bool) returns (channels: seq<Channel>, failed: bool)
      requires forall c :: c in pool.chans ==> pool.chans[c].id == c
      ensures failed <==> fault && ids != []
      ensures failed ==> channels == []
      ensures !failed ==> ChannelsOf(pool.chans, ids, channels)
      ensures !failed ==>
                && (forall i :: 0 <= i < |channels| ==>
                      && channels[i].id in ids && channels[i].id in pool.chans
                      && channels[i] == pool.chans[channels[i].id])
                && (forall i, k :: 0 <= i < k < |channels| ==> channels[i].id != channels[k].id)
                && (forall c :: c in ids && c in pool.chans ==> pool.chans[c] in channels)
    {
      channels, failed := [], false;
      if ids == [] {
        return;
      }
      if fault {
        return [], true;
      }
      var left := set i | 0 <= i < |ids| && ids[i] in pool.chans :: ids[i];
      while left != {}
        invariant forall c :: c in left ==> c in ids && c in pool.chans && pool.chans[c] !in channels
        invariant forall i :: 0 <= i < |channels| ==>
                    channels[i].id in ids && channels[i].id in pool.chans
                    && channels[i] == pool.chans[channels[i].id]
        invariant forall i, k :: 0 <= i < k < |channels| ==> channels[i].id != channels[k].id
        invariant forall i :: 0 <= i < |ids| && ids[i] in pool.chans ==>
                    ids[i] in left || pool.chans[ids[i]] in channels
        decreases left
      {
        ghost var some := Member(left);
        var c :| c in left;
        channels := channels + [pool.chans[c]];
        left := left - {c};
      }
    }
  }
}
