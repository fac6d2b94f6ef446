/** What the job service computes between reading a row and writing it. */
module Service {
  import opened Domain

  datatype CreateInput = CreateInput(
    userId: int, name: string, kind: string, schedule: string, config: string,
    notifyChannels: seq<ChannelId>, condition: Option<Condition>, timeoutSeconds: int)

  /** The read-modify-write operations; `Edit` leaves alone what is `None`. */
  datatype Change =
    | Trigger
    | Pause
    | Resume
    | Edit(name: Option<string>, schedule: Option<string>, config: Option<string>,
           notifyChannels: Option<seq<ChannelId>>, condition: Option<Condition>, timeoutSeconds: Option<int>)

  datatype ServiceError = InvalidInput | NotFound | StoredScheduleInvalid | StoreFailed
  datatype Result<+T> = Ok(value: T) | Err(error: ServiceError)

  function NewJob(cron: Cron, id: JobId, input: CreateInput, now: Time): Result<Job> {
    if !cron.parses(input.schedule) then Err(InvalidInput)
    else
      var condition := if input.condition.None? then On("failure") else input.condition.value;
      var timeout := if input.timeoutSeconds <= 0 then 30 else input.timeoutSeconds;
      Ok(Job(id, input.userId, input.name, input.kind, input.schedule, input.config, Active,
             input.notifyChannels, condition, timeout, None, Some(cron.next(input.schedule, now)), 0, 0))
  }

  function Given<T>(change: Option<T>, current: T): T {
    if change.Some? then change.value else current
  }

  function Modified(cron: Cron, change: Change, row: Job, now: Time): Result<Job> {
    match change
    case Trigger => Ok(row.(nextRunAt := Some(now)))
    case Pause => Ok(row.(status := Paused, nextRunAt := None))
    case Resume =>
      if !cron.parses(row.schedule) then Err(StoredScheduleInvalid)
      else Ok(row.(status := Active, nextRunAt := Some(cron.next(row.schedule, now))))
    case Edit(name, schedule, config, channels, condition, timeout) =>
      if schedule.Some? && !cron.parses(schedule.value) then Err(InvalidInput)
      else
        var next := if schedule.Some? then Some(cron.next(schedule.value, now)) else row.nextRunAt;
        var seconds := if timeout.Some? && timeout.value > 0 then timeout.value else row.timeoutSeconds;
        Ok(row.(name := Given(name, row.name), schedule := Given(schedule, row.schedule),
                config := Given(config, row.config), notifyChannels := Given(channels, row.notifyChannels),
                condition := Given(condition, row.condition), timeoutSeconds := seconds, nextRunAt := next))
  }
}
