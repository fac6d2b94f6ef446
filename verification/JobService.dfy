/** The job service over the repository. Each change reads a row, computes, and writes the whole
    row back; `others` is what everybody else made of the tables in between. */
module JobServices {
  import opened Domain
  import opened Tables
  import opened Service
  import opened Repositories

  /** What a change does: the row written is computed from the row read, not from the row stored
      by then, and a refused request leaves the others' work alone. */
  ghost predicate Rewrites(cron: Cron, change: Change, id: JobId, now: Time, readFault: bool, writeFault: bool,
                           before: Tables, others: Tables, after: Tables, res: Result<Job>)
  {
    if readFault || id !in before.jobs then res == Err(NotFound) && after == before
    else match Modified(cron, change, before.jobs[id], now)
      case Err(e) => res == Err(e) && after == others
      case Ok(row) =>
        if writeFault || !Storable(row) then res == Err(StoreFailed) && after == others
        else res == Ok(row) && after == UpdateJob(others, row, now)
  }

  /** What creating a job does. */
  ghost predicate Creates(cron: Cron, id: JobId, input: CreateInput, now: Time, fault: bool,
                          before: Tables, after: Tables, res: Result<Job>)
  {
    match NewJob(cron, id, input, now)
    case Err(e) => res == Err(e) && after == before
    case Ok(job) =>
      if fault || !Storable(job) || id in before.jobs then res == Err(StoreFailed) && after == before
      else res == Ok(job) && after == InsertJob(before, job, now)
  }

  /** `row` is the row read with what an edit gives: each column given, and no other, is taken over;
      a timeout only if it is positive; and a schedule sets the due time. */
  ghost predicate Edited(cron: Cron, edit: Change, read: Job, row: Job, now: Time)
    requires edit.Edit?
  {
    && row.name == (if edit.name.Some? then edit.name.value else read.name)
    && row.schedule == (if edit.schedule.Some? then edit.schedule.value else read.schedule)
    && row.config == (if edit.config.Some? then edit.config.value else read.config)
    && row.notifyChannels == (if edit.notifyChannels.Some? then edit.notifyChannels.value else read.notifyChannels)
    && row.condition == (if edit.condition.Some? then edit.condition.value else read.condition)
    && row.timeoutSeconds == (if edit.timeoutSeconds.Some? && edit.timeoutSeconds.value > 0
                              then edit.timeoutSeconds.value else read.timeoutSeconds)
    && row.nextRunAt == (if edit.schedule.Some? then Some(cron.next(edit.schedule.value, now)) else read.nextRunAt)
    && row.id == read.id && row.status == read.status && row.kind == read.kind && row.userId == read.userId
    && row.lastRunAt == read.lastRunAt && row.createdAt == read.createdAt
  }

  /** The others' tables after the whole-row update of a request whose row is `row`. */
  ghost predicate RowWritten(t: Tables, t': Tables, row: Job, now: Time) {
    && t'.execs == t.execs && t'.notifs == t.notifs && t'.chans == t.chans && t'.jobs.Keys == t.jobs.Keys
    && (forall j :: j in t'.jobs && j != row.id ==> t'.jobs[j] == t.jobs[j])
    && (row.id in t.jobs ==> Replaces(t.jobs[row.id], t'.jobs[row.id], row, now))
  }

  lemma {:induction false} UpdateWritesRow(t: Tables, row: Job, now: Time)
    ensures RowWritten(t, UpdateJob(t, row, now), row, now)
  {
  }

  class JobService {
    const repo: JobRepository
    const cron: Cron

    constructor (repo: JobRepository, cron: Cron)
      ensures this.repo == repo && this.cron == cron
    {
      this.repo, this.cron := repo, cron;
    }

    method Create(id: JobId, input: CreateInput, now: Time, fault: bool) returns (res: Result<Job>)
      modifies repo.pool
      ensures Creates(cron, id, input, now, fault, old(repo.pool.View()), repo.pool.View(), res)
      ensures res == Err(InvalidInput) <==> !cron.parses(input.schedule)
      ensures res.Ok? ==>
                var job := res.value;
                && job.id == id && job.userId == input.userId && job.name == input.name && job.kind == input.kind
                && job.schedule == input.schedule && job.config == input.config && job.status == Active
                && job.notifyChannels == input.notifyChannels && job.lastRunAt == None
                && job.nextRunAt == Some(cron.next(input.schedule, now))
                && job.condition == (if input.condition.Some? then input.condition.value else On("failure"))
                && job.timeoutSeconds == if input.timeoutSeconds > 0 then input.timeoutSeconds else 30
      ensures var t := old(repo.pool.View());
              repo.pool.View() == if res.Err? then t
                                  else t.(jobs := t.jobs[id := res.value.(createdAt := now, updatedAt := now)])
    {
      if !cron.parses(input.schedule) {
        return Err(InvalidInput);
      }
      var nextRun := cron.next(input.schedule, now);
      var condition := On("failure");
      if input.condition.Some? {
        condition := input.condition.value;
      }
      var timeout := input.timeoutSeconds;
      if timeout <= 0 {
        timeout := 30;
      }
      var job := Job(id, input.userId, input.name, input.kind, input.schedule, input.config, Active,
                     input.notifyChannels, condition, timeout, None, Some(nextRun), 0, 0);
      var failed := repo.Create(job, now, fault);
      if failed {
        return Err(StoreFailed);
      }
      return Ok(job);
    }

    /** The row an update makes of the row it has read. */
    method Computed(read: Job, change: Change, now: Time) returns (res: Result<Job>)
      requires change.Edit?
      ensures res == Modified(cron, change, read, now)
      ensures res == Err(InvalidInput) <==> change.schedule.Some? && !cron.parses(change.schedule.value)
      ensures res.Ok? ==> Edited(cron, change, read, res.value, now)
    {
      var job := read;
      if change.name.Some? {
        job := job.(name := change.name.value);
      }
      if change.schedule.Some? {
        if !cron.parses(change.schedule.value) {
          return Err(InvalidInput);
        }
        job := job.(schedule := change.schedule.value, nextRunAt := Some(cron.next(change.schedule.value, now)));
      }
      if change.config.Some? {
        job := job.(config := change.config.value);
      }
      if change.notifyChannels.Some? {
        job := job.(notifyChannels := change.notifyChannels.value);
      }
      if change.condition.Some? {
        job := job.(condition := change.condition.value);
      }
      if change.timeoutSeconds.Some? && change.timeoutSeconds.value > 0 {
        job := job.(timeoutSeconds := change.timeoutSeconds.value);
      }
      return Ok(job);
    }

    method Update(id: JobId, change: Change, now: Time, readFault: bool, others: Tables, writeFault: bool)
      returns (res: Result<Job>)
      requires change.Edit?
      modifies repo.pool
      ensures Rewrites(cron, change, id, now, readFault, writeFault,
                       old(repo.pool.View()), others, repo.pool.View(), res)
      ensures res == Err(NotFound) <==> readFault || id !in old(repo.pool.jobs)
      ensures res.Ok? ==> RowWritten(others, repo.pool.View(), res.value, now)
      ensures res.Err? ==> repo.pool.View() == if res.error == NotFound then old(repo.pool.View()) else others
      ensures res == Err(InvalidInput) <==>
                !readFault && id in old(repo.pool.jobs) && change.schedule.Some? && !cron.parses(change.schedule.value)
      ensures res.Ok? ==> Edited(cron, change, old(repo.pool.jobs)[id], res.value, now)
    {
      var found := Read(id, readFault, others);
      if found.None? {
        return Err(NotFound);
      }
      res := Computed(found.value, change, now);
      if res.Ok? {
        res := Write(res.value, now, writeFault);
      }
    }

    method TriggerRun(id: JobId, now: Time, readFault: bool, others: Tables, writeFault: bool)
      returns (res: Result<Job>)
      modifies repo.pool
      ensures Rewrites(cron, Trigger, id, now, readFault, writeFault,
                       old(repo.pool.View()), others, repo.pool.View(), res)
      ensures res == Err(NotFound) <==> readFault || id !in old(repo.pool.jobs)
      ensures res.Ok? ==> RowWritten(others, repo.pool.View(), res.value, now)
      ensures res.Err? ==> repo.pool.View() == if res.error == NotFound then old(repo.pool.View()) else others
      ensures res.Ok? ==> res.value == old(repo.pool.jobs)[id].(nextRunAt := Some(now))
    {
      var found := Read(id, readFault, others);
      if found.None? {
        return Err(NotFound);
      }
      var job := found.value.(nextRunAt := Some(now));
      res := Write(job, now, writeFault);
    }

    method Pause(id: JobId, now: Time, readFault: bool, others: Tables, writeFault: bool)
      returns (res: Result<Job>)
      modifies repo.pool
      ensures Rewrites(cron, Change.Pause, id, now, readFault, writeFault,
                       old(repo.pool.View()), others, repo.pool.View(), res)
      ensures res == Err(NotFound) <==> readFault || id !in old(repo.pool.jobs)
      ensures res.Ok? ==> RowWritten(others, repo.pool.View(), res.value, now)
      ensures res.Err? ==> repo.pool.View() == if res.error == NotFound then old(repo.pool.View()) else others
      ensures res.Ok? ==> res.value == old(repo.pool.jobs)[id].(status := Paused, nextRunAt := None)
    {
      var found := Read(id, readFault, others);
      if found.None? {
        return Err(NotFound);
      }
      var job := found.value.(status := Paused);
      job := job.(nextRunAt := None);
      res := Write(job, now, writeFault);
    }

    method Resume(id: JobId, now: Time, readFault: bool, others: Tables, writeFault: bool)
      returns (res: Result<Job>)
      modifies repo.pool
      ensures Rewrites(cron, Change.Resume, id, now, readFault, writeFault,
                       old(repo.pool.View()), others, repo.pool.View(), res)
      ensures res == Err(NotFound) <==> readFault || id !in old(repo.pool.jobs)
      ensures res.Ok? ==> RowWritten(others, repo.pool.View(), res.value, now)
      ensures res.Err? ==> repo.pool.View() == if res.error == NotFound then old(repo.pool.View()) else others
      ensures res == Err(StoredScheduleInvalid) <==>
                !readFault && id in old(repo.pool.jobs) && !cron.parses(old(repo.pool.jobs)[id].schedule)
      ensures res.Ok? ==> res.value == old(repo.pool.jobs)[id].(
                             status := Active, nextRunAt := Some(cron.next(old(repo.pool.jobs)[id].schedule, now)))
    {
      var found := Read(id, readFault, others);
      if found.None? {
        return Err(NotFound);
      }
      var job := found.value;
      if !cron.parses(job.schedule) {
        return Err(StoredScheduleInvalid);
      }
      job := job.(status := Active);
      job := job.(nextRunAt := Some(cron.next(job.schedule, now)));
      res := Write(job, now, writeFault);
    }

    /** The read each change begins with, and then the others' writes. */
    method Read(id: JobId, fault: bool, others: Tables) returns (found: Option<Job>)
      modifies repo.pool
      ensures found == if fault || id !in old(repo.pool.View()).jobs then None
                       else Some(old(repo.pool.View()).jobs[id])
      ensures repo.pool.View() == if found.None? then old(repo.pool.View()) else others
    {
      found := repo.GetByID(id, fault);
      if found.Some? {
        repo.pool.Become(others);
      }
    }

    /** The whole-row update each change ends with. */
    method Write(job: Job, now: Time, fault: bool) returns (res: Result<Job>)
      modifies repo.pool
      ensures var t := old(repo.pool.View());
              if fault || !Storable(job) then res == Err(StoreFailed) && repo.pool.View() == t
              else res == Ok(job) && repo.pool.View() == UpdateJob(t, job, now)
                   && RowWritten(t, repo.pool.View(), job, now)
    {
      UpdateWritesRow(repo.pool.View(), job, now);
      var failed := repo.Update(job, now, fault);
      if failed {
        return Err(StoreFailed);
      }
      return Ok(job);
    }

    method Delete(id: JobId, fault: bool) returns (failed: bool)
      modifies repo.pool
      ensures failed == fault
      ensures if failed then repo.pool.View() == old(repo.pool.View())
              else OnlyJobGone(old(repo.pool.View()), repo.pool.View(), id)
    {
      failed := repo.Delete(id, fault);
    }
  }

  /** A change made without interference writes only its own columns: the ones it does not speak
      of keep the stored value. */
  lemma {:induction false} UndisturbedChange(cron: Cron, change: Change, id: JobId, now: Time, t: Tables, t': Tables,
        res: Result<Job>)
    requires Rewrites(cron, change, id, now, false, false, t, t, t', res) && res.Ok?
    requires id in t.jobs && t.jobs[id].id == id
    ensures id in t'.jobs && t'.(jobs := t.jobs) == t && t'.jobs.Keys == t.jobs.Keys
    ensures forall j :: j in t.jobs && j != id ==> t'.jobs[j] == t.jobs[j]
    ensures var a, b := t.jobs[id], t'.jobs[id];
            && b.lastRunAt == a.lastRunAt && b.kind == a.kind && b.userId == a.userId && b.createdAt == a.createdAt
            && (change.Edit? ==> Edited(cron, change, a, b, now))
            && (!change.Edit? ==>
                  && b.name == a.name && b.schedule == a.schedule && b.timeoutSeconds == a.timeoutSeconds
                  && b.config == a.config && b.notifyChannels == a.notifyChannels && b.condition == a.condition)
            && (change.Edit? || change.Trigger? ==> b.status == a.status)
            && (change == Change.Pause ==> b.status == Paused && b.nextRunAt == None)
            && (change == Change.Resume ==> b.status == Active && b.nextRunAt == Some(cron.next(a.schedule, now)))
            && (change.Trigger? ==> b.nextRunAt == Some(now))
            && (change.Edit? && change.schedule.None? ==> b.nextRunAt == a.nextRunAt && b.schedule == a.schedule)
  {
  }
}
