/** Which rows the claiming query returns, and how long a due job can wait for its turn. */
module Claiming {
  import opened Domain
  import opened Tables

  predicate Due(job: Job, at: Time) {
    job.status == Active && job.nextRunAt.Some? && job.nextRunAt.value <= at
  }

  predicate Eligible(jobs: map<JobId, Job>, locked: set<JobId>, at: Time, j: JobId) {
    j in jobs && j !in locked && Due(jobs[j], at)
  }

  predicate NoLater(a: Job, b: Job) {
    a.nextRunAt.Some? && b.nextRunAt.Some? && a.nextRunAt.value <= b.nextRunAt.value
  }

  predicate DistinctRows(rows: seq<Job>) {
    forall i, k :: 0 <= i < k < |rows| ==> rows[i].id != rows[k].id
  }

  predicate Listed(rows: seq<Job>, j: JobId) {
    exists i :: 0 <= i < |rows| && rows[i].id == j
  }

  /** The answer of `SELECT ... WHERE status = 'active' AND next_run_at <= at
      ORDER BY next_run_at LIMIT limit FOR UPDATE SKIP LOCKED`, ties broken either way. */
  predicate EarliestDue(rows: seq<Job>, jobs: map<JobId, Job>, locked: set<JobId>, at: Time, limit: nat) {
    && |rows| <= limit
    && DistinctRows(rows)
    && (forall i :: 0 <= i < |rows| ==>
          Eligible(jobs, locked, at, rows[i].id) && rows[i] == jobs[rows[i].id])
    && (forall i, k :: 0 <= i < k < |rows| ==> NoLater(rows[i], rows[k]))
    && (forall j :: j in jobs && Eligible(jobs, locked, at, j) && !Listed(rows, j) ==>
          |rows| == limit && forall i :: 0 <= i < |rows| ==> NoLater(rows[i], jobs[j]))
  }

  lemma {:induction false} EarliestOf(jobs: map<JobId, Job>, ids: set<JobId>) returns (least: JobId)
    requires ids != {} && forall j :: j in ids ==> j in jobs && jobs[j].nextRunAt.Some?
    ensures least in ids && forall j :: j in ids ==> NoLater(jobs[least], jobs[j])
    decreases |ids|
  {
    least := Member(ids);
    if ids != {least} {
      var rest := EarliestOf(jobs, ids - {least});
      if jobs[rest].nextRunAt.value < jobs[least].nextRunAt.value {
        least := rest;
      }
    }
  }

  /** The query always has an answer. */
  lemma {:induction false} EarliestDueExists(jobs: map<JobId, Job>, locked: set<JobId>, at: Time, limit: nat)
    returns (rows: seq<Job>)
    requires forall j :: j in jobs ==> jobs[j].id == j
    ensures EarliestDue(rows, jobs, locked, at, limit)
    decreases limit
  {
    if limit == 0 {
      rows := [];
    } else {
      rows := EarliestDueExists(jobs, locked, at, limit - 1);
      var left := set j | j in jobs && Eligible(jobs, locked, at, j) && !Listed(rows, j);
      if left != {} {
        var least := EarliestOf(jobs, left);
        var front := rows;
        rows := front + [jobs[least]];
        assert forall j :: Listed(front, j) ==> Listed(rows, j) by {
          forall j | Listed(front, j) ensures Listed(rows, j) {
            var i :| 0 <= i < |front| && front[i].id == j;
            assert rows[i].id == j;
          }
        }
        assert rows[|front|].id == least;
      } else {
        assert forall j :: j in jobs && Eligible(jobs, locked, at, j) && !Listed(rows, j) ==> j in left;
      }
    }
  }

  // ---------------------------------------------------------------- bounded waiting

  /** One step of a serial history: a successful claim whose clock readings follow `now`, the
      passing of time, the creation of a job, or an overwriting of a row, stamped `at`. */
  datatype Event =
    | Claiming(rows: seq<Job>, claims: seq<Claim>, clock: seq<Time>)
    | Waiting(dt: nat)
    | Creating(job: Job)
    | Rewriting(job: Job, at: Time)

  /** The columns that decide when a job is claimed. */
  predicate SameTurn(a: Job, b: Job) {
    a.id == b.id && a.schedule == b.schedule && a.status == b.status && a.nextRunAt == b.nextRunAt
  }

  /** The claims the loop makes of rows that all parse, reading the clock once per row. */
  ghost predicate ClaimedAll(cron: Cron, rows: seq<Job>, claims: seq<Claim>, clock: seq<Time>, now: Time) {
    && |claims| == |rows| == |clock|
    && (forall i :: 0 <= i < |rows| ==> clock[i] >= now)
    && (forall i :: 0 <= i < |rows| ==>
          claims[i].job == rows[i].(nextRunAt := Some(cron.next(rows[i].schedule, clock[i]))))
  }

  ghost predicate Legal(cron: Cron, limit: nat, t: Tables, now: Time, ev: Event) {
    match ev
    case Claiming(rows, claims, clock) =>
      EarliestDue(rows, t.jobs, {}, now, limit) && ClaimedAll(cron, rows, claims, clock, now)
    case Waiting(_) => true
    case Creating(job) =>
      && job.id !in t.jobs && Satisfiable(cron, job.schedule)
      && job.nextRunAt == Some(cron.next(job.schedule, now))
    case Rewriting(job, _) => job.id in t.jobs ==> SameTurn(t.jobs[job.id], job)
  }

  ghost function AfterEvent(t: Tables, now: Time, ev: Event): Tables {
    match ev
    case Claiming(_, claims, _) => ApplyClaims(t, claims, now)
    case Waiting(_) => t
    case Creating(job) => InsertJob(t, job, now)
    case Rewriting(job, at) => UpdateJob(t, job, at)
  }

  ghost function Later(now: Time, ev: Event): Time {
    if ev.Waiting? then now + ev.dt else now
  }

  ghost predicate LegalRun(cron: Cron, limit: nat, t: Tables, now: Time, run: seq<Event>)
    decreases run
  {
    run != [] ==>
      && Legal(cron, limit, t, now, run[0])
      && LegalRun(cron, limit, AfterEvent(t, now, run[0]), Later(now, run[0]), run[1..])
  }

  ghost function ClaimCount(run: seq<Event>): nat {
    if run == [] then 0 else (if run[0].Claiming? then 1 else 0) + ClaimCount(run[1..])
  }

  ghost predicate Takes(ev: Event, j: JobId) {
    ev.Claiming? && Listed(ev.rows, j)
  }

  ghost predicate AllSatisfiable(cron: Cron, t: Tables) {
    forall j :: j in t.jobs ==> t.jobs[j].id == j && Satisfiable(cron, t.jobs[j].schedule)
  }

  /** The other active jobs due no later than job `j`. */
  ghost function Ahead(t: Tables, j: JobId): set<JobId>
    requires j in t.jobs
  {
    set i | i in t.jobs && i != j && t.jobs[i].status == Active && NoLater(t.jobs[i], t.jobs[j])
  }

  ghost function RowIds(rows: seq<Job>): set<JobId> {
    set i | 0 <= i < |rows| :: rows[i].id
  }

  lemma {:induction false} RowIdsCount(rows: seq<Job>)
    requires DistinctRows(rows)
    ensures |RowIds(rows)| == |rows|
  {
    if rows != [] {
      var k := |rows| - 1;
      RowIdsCount(rows[..k]);
      assert RowIds(rows) == RowIds(rows[..k]) + {rows[k].id};
      assert rows[k].id !in RowIds(rows[..k]);
    }
  }

  lemma {:induction false} ClaimEffect(cron: Cron, limit: nat, t: Tables, now: Time, ev: Event, j: JobId)
    requires ev.Claiming? && Legal(cron, limit, t, now, ev) && AllSatisfiable(cron, t)
    requires j in t.jobs
    ensures var t' := AfterEvent(t, now, ev);
            && t'.jobs.Keys == t.jobs.Keys
            && OnlyAdvanced(t.jobs[j], t'.jobs[j])
            && (Takes(ev, j) ==> t'.jobs[j].nextRunAt.Some? && t'.jobs[j].nextRunAt.value > now)
            && (!Takes(ev, j) ==> t'.jobs[j] == t.jobs[j])
  {
    var rows, claims := ev.rows, ev.claims;
    ApplyClaimsJobs(t, claims, now);
    if Takes(ev, j) {
      var k :| 0 <= k < |rows| && rows[k].id == j;
      assert claims[k].job.id == j;
      JobAdvanced(t, claims, now, k);
      assert t.jobs[j] == rows[k];
    } else {
      assert forall k :: 0 <= k < |claims| ==> rows[k].id != j && claims[k].job.id == rows[k].id;
      ApplyClaimsOtherJob(t, claims, now, j);
    }
  }

  lemma {:induction false} JobAdvanced(t: Tables, claims: seq<Claim>, at: Time, k: nat)
    requires k < |claims| && DistinctJobs(claims) && claims[k].job.id in t.jobs
    ensures var t' := ApplyClaims(t, claims, at); var j := claims[k].job.id;
            j in t'.jobs && t'.jobs[j] == t.jobs[j].(nextRunAt := claims[k].job.nextRunAt, updatedAt := at)
  {
    var last := |claims| - 1;
    ApplyClaimsJobs(t, claims[..last], at);
    if k < last {
      JobAdvanced(t, claims[..last], at, k);
      assert claims[k].job.id != claims[last].job.id;
    } else {
      assert !Claims(claims[..last], claims[k].job.id);
      ApplyClaimsOtherJob(t, claims[..last], at, claims[k].job.id);
    }
  }

  /** A claim that passes `j` over takes `limit` jobs from ahead of it and puts none back. */
  lemma {:induction false} RankDrops(cron: Cron, limit: nat, t: Tables, now: Time, ev: Event, j: JobId)
    requires ev.Claiming? && Legal(cron, limit, t, now, ev) && AllSatisfiable(cron, t)
    requires j in t.jobs && Due(t.jobs[j], now) && !Takes(ev, j)
    ensures j in AfterEvent(t, now, ev).jobs && AfterEvent(t, now, ev).jobs[j] == t.jobs[j]
    ensures |Ahead(AfterEvent(t, now, ev), j)| + limit <= |Ahead(t, j)|
  {
    var t' := AfterEvent(t, now, ev);
    ClaimEffect(cron, limit, t, now, ev, j);
    var taken := RowIds(ev.rows);
    RowIdsCount(ev.rows);
    assert Eligible(t.jobs, {}, now, j);
    assert |taken| == limit;
    assert taken <= Ahead(t, j);
    forall i | i in Ahead(t', j)
      ensures i in Ahead(t, j) - taken
    {
      ClaimEffect(cron, limit, t, now, ev, i);
      if i in taken {
        assert Takes(ev, i);
      }
    }
    Within(Ahead(t', j), Ahead(t, j) - taken);
    assert |Ahead(t, j) - taken| == |Ahead(t, j)| - |taken|;
  }

  lemma {:induction false} OtherEventKeepsRank(cron: Cron, limit: nat, t: Tables, now: Time, ev: Event, j: JobId)
    requires !ev.Claiming? && Legal(cron, limit, t, now, ev)
    requires j in t.jobs && Due(t.jobs[j], now)
    ensures j in AfterEvent(t, now, ev).jobs && Due(AfterEvent(t, now, ev).jobs[j], now)
    ensures Ahead(AfterEvent(t, now, ev), j) == Ahead(t, j)
  {
    assert ev.Creating? ==> cron.next(ev.job.schedule, now) > now;
    var t' := AfterEvent(t, now, ev);
    assert t'.jobs[j].nextRunAt == t.jobs[j].nextRunAt && t'.jobs[j].status == t.jobs[j].status;
  }

  lemma {:induction false} EventKeepsSatisfiable(cron: Cron, limit: nat, t: Tables, now: Time, ev: Event)
    requires Legal(cron, limit, t, now, ev) && AllSatisfiable(cron, t)
    ensures AllSatisfiable(cron, AfterEvent(t, now, ev))
  {
    if ev.Claiming? {
      ApplyClaimsJobs(t, ev.claims, now);
      var t' := AfterEvent(t, now, ev);
      assert forall j :: j in t'.jobs ==> OnlyAdvanced(t.jobs[j], t'.jobs[j]);
    }
  }

  lemma {:induction false} OneMoreBatch(n: nat, limit: nat)
    ensures (n + 1) * limit == n * limit + limit
  {
  }

  ghost predicate PassesOver(run: seq<Event>, j: JobId) {
    forall k :: 0 <= k < |run| ==> !Takes(run[k], j)
  }

  /** A job passed over by every claim of a run has that many full batches ahead of it. */
  lemma {:induction false} PassedOver(cron: Cron, limit: nat, t: Tables, now: Time, run: seq<Event>, j: JobId)
    requires LegalRun(cron, limit, t, now, run) && AllSatisfiable(cron, t)
    requires j in t.jobs && Due(t.jobs[j], now)
    requires PassesOver(run, j)
    ensures ClaimCount(run) * limit <= |Ahead(t, j)|
    decreases run
  {
    if run == [] {
      return;
    }
    var ev, t', rest := run[0], AfterEvent(t, now, run[0]), run[1..];
    assert !Takes(ev, j);
    EventKeepsSatisfiable(cron, limit, t, now, ev);
    if ev.Claiming? {
      RankDrops(cron, limit, t, now, ev, j);
      PassedOver(cron, limit, t', Later(now, ev), rest, j);
      OneMoreBatch(ClaimCount(rest), limit);
    } else {
      OtherEventKeepsRank(cron, limit, t, now, ev, j);
      PassedOver(cron, limit, t', Later(now, ev), rest, j);
    }
  }

  lemma {:induction false} TooManyBatches(ahead: nat, claims: nat, limit: nat)
    requires limit > 0 && claims >= ahead / limit + 1
    ensures claims * limit > ahead
  {
    var q := ahead / limit;
    assert ahead == q * limit + ahead % limit;
    assert (q + 1) * limit == q * limit + limit;
    assert (claims - (q + 1)) * limit >= 0;
    assert claims * limit == (q + 1) * limit + (claims - (q + 1)) * limit;
  }

  /** A due active job with `k` jobs due no later is claimed by the (k / limit + 1)-th
      successful claim, whatever jobs are created meanwhile, and however rows are overwritten that
      keep their schedule, status and due time. */
  lemma {:induction false} BoundedWaiting(cron: Cron, limit: nat, t: Tables, now: Time, run: seq<Event>, j: JobId)
    requires limit > 0 && LegalRun(cron, limit, t, now, run) && AllSatisfiable(cron, t)
    requires j in t.jobs && Due(t.jobs[j], now)
    requires ClaimCount(run) >= |Ahead(t, j)| / limit + 1
    ensures exists k :: 0 <= k < |run| && Takes(run[k], j)
  {
    TooManyBatches(|Ahead(t, j)|, ClaimCount(run), limit);
    if PassesOver(run, j) {
      PassedOver(cron, limit, t, now, run, j);
    }
  }
}
