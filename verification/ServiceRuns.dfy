/** The service object beside the transition system: a change is a read, whatever others do, a
    computation, and a write. */
module ServiceRuns {
  import opened Domain
  import opened Tables
  import opened Service
  import opened System
  import opened JobServices

  /** The request's two steps after its read. */
  lemma {:induction false} WriteSteps(env: Replica.Env, m: State, o: OpId, ok: bool) returns (end: State)
    requires o in m.ops && m.ops[o].Fetched? && Modified(env.cron, m.ops[o].change, m.ops[o].row, m.now).Ok?
    requires var row := Modified(env.cron, m.ops[o].change, m.ops[o].row, m.now).value;
             ok ==> Storable(row) && !JobLocked(m, row.id)
    ensures var row := Modified(env.cron, m.ops[o].change, m.ops[o].row, m.now).value;
            var steps := [PrepareJob(o), WriteJob(o, ok)];
            && Run(env, m, steps) && End(env, m, steps) == end && o !in end.ops
            && end.db == if ok then UpdateJob(m.db, row, m.now) else m.db
  {
    var row := Modified(env.cron, m.ops[o].change, m.ops[o].row, m.now).value;
    var p := After(env, m, PrepareJob(o));
    Unlocked(m, p, row.id);
    end := After(env, p, WriteJob(o, ok));
    RunCons(env, p, WriteJob(o, ok), []);
    RunCons(env, m, PrepareJob(o), [WriteJob(o, ok)] + []);
    assert [PrepareJob(o)] + ([WriteJob(o, ok)] + []) == [PrepareJob(o), WriteJob(o, ok)];
  }

  /** After the read in `s` and the others' steps to `m`, the request's own steps bring about what
      `JobService` returns and stores, a refused change and a failing write included. */
  lemma {:induction false} ChangeFollowsSystem(env: Replica.Env, s: State, m: State, o: OpId, j: JobId, change: Change,
        ok: bool) returns (steps: seq<Step>, res: Result<Job>)
    requires Enabled(env, s, ReadJob(o, j, change)) && s.db.jobs[j].id == j
    requires o in m.ops && m.ops[o] == Fetched(change, s.db.jobs[j])
    requires ok ==> !JobLocked(m, j)
    ensures Run(env, m, steps) && o !in End(env, m, steps).ops
    ensures Rewrites(env.cron, change, j, m.now, false, !ok, s.db, m.db, End(env, m, steps).db, res)
  {
    match Modified(env.cron, change, s.db.jobs[j], m.now)
    case Err(e) =>
      RunCons(env, m, PrepareJob(o), []);
      steps, res := [PrepareJob(o)] + [], Err(e);
    case Ok(row) =>
      var stored := ok && Storable(row);
      var end := WriteSteps(env, m, o, stored);
      steps := [PrepareJob(o), WriteJob(o, stored)];
      res := if stored then Ok(row) else Err(StoreFailed);
  }

  lemma {:induction false} Unlocked(m: State, p: State, j: JobId)
    requires p.reps == m.reps
    ensures JobLocked(p, j) <==> JobLocked(m, j)
  {
  }

  lemma {:induction false} InsertSteps(env: Replica.Env, s: State, o: OpId, id: JobId, input: CreateInput, ok: bool)
    requires o !in s.ops && NewJob(env.cron, id, input, s.now).Ok?
    requires ok ==> Storable(NewJob(env.cron, id, input, s.now).value) && id !in s.jobIds && !JobLocked(s, id)
    ensures var job, steps := NewJob(env.cron, id, input, s.now).value, [DraftJob(o, id, input), WriteJob(o, ok)];
            && Run(env, s, steps) && End(env, s, steps).ops == s.ops
            && End(env, s, steps).db == if ok then InsertJob(s.db, job, s.now) else s.db
  {
    var job := NewJob(env.cron, id, input, s.now).value;
    var d := s.(ops := s.ops[o := Ready(true, job)]);
    assert After(env, s, DraftJob(o, id, input)) == d;
    Unlocked(s, d, id);
    RunCons(env, d, WriteJob(o, ok), []);
    RunCons(env, s, DraftJob(o, id, input), [WriteJob(o, ok)] + []);
    assert [DraftJob(o, id, input)] + ([WriteJob(o, ok)] + []) == [DraftJob(o, id, input), WriteJob(o, ok)];
    assert AfterWrite(d, o, ok).ops == s.ops;
  }

  /** Creating a job, as a draft and an insert, brings about what `JobService.Create` returns and
      stores: a refused schedule, a failing or a refused insert, or the new row. */
  lemma {:induction false} CreateFollowsSystem(env: Replica.Env, s: State, o: OpId, id: JobId, input: CreateInput,
        fault: bool) returns (steps: seq<Step>, res: Result<Job>)
    requires o !in s.ops && id !in s.jobIds && id !in s.db.jobs && !JobLocked(s, id)
    ensures Run(env, s, steps) && End(env, s, steps).ops == s.ops
    ensures Creates(env.cron, id, input, s.now, fault, s.db, End(env, s, steps).db, res)
  {
    match NewJob(env.cron, id, input, s.now)
    case Err(e) =>
      steps, res := [], Err(e);
    case Ok(job) =>
      var stored := !fault && Storable(job);
      InsertSteps(env, s, o, id, input, stored);
      steps := [DraftJob(o, id, input), WriteJob(o, stored)];
      res := if stored then Ok(job) else Err(StoreFailed);
  }
}
