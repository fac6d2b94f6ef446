/** The entities of SignalFlow (internal/domain) and the constants of its scheduler.
    Identifiers are opaque integers, instants and durations are integers in milliseconds,
    and every clock reading comes from one monotone clock. */
module Domain {

  type Time = int
  type JobId = int
  type ExecId = int
  type ChannelId = int
  type NotifId = int
  type ReplicaId = int
  type OpId = int

  datatype Option<+T> = None | Some(value: T)

  const DISPATCH_TIMEOUT: Time := 500
  const STALE_RUNNING_AGE: Time := 300_000
  const DEFAULT_TIMEOUT_SECONDS := 30
  const MAX_INT32 := 0x7fff_ffff
  const MAX_INT64 := 0x7fff_ffff_ffff_ffff
  const NANOS_PER_SECOND := 1_000_000_000

  /** The cron library, uninterpreted: which expressions parse, and the activation that
      follows an instant. */
  datatype Cron = Cron(parses: string -> bool, next: (string, Time) -> Time)

  /** A schedule that has an activation after every instant. Others parse too, and for them
      the library answers with the zero time. */
  ghost predicate Satisfiable(cron: Cron, schedule: string) {
    forall t: Time :: cron.next(schedule, t) > t
  }

  datatype JobStatus = Active | Paused | Disabled
  datatype ExecStatus = Running | Success | Failure | Error
  datatype NotifStatus = Pending | Sent | Failed

  /** A job's notification condition after decoding. */
  datatype Condition = NoCondition | Malformed | On(value: string)

  datatype Job = Job(
    id: JobId, userId: int, name: string, kind: string, schedule: string, config: string,
    status: JobStatus, notifyChannels: seq<ChannelId>, condition: Condition, timeoutSeconds: int,
    lastRunAt: Option<Time>, nextRunAt: Option<Time>, createdAt: Time, updatedAt: Time)

  datatype Execution = Execution(
    jobId: JobId, status: ExecStatus, output: string, error: string, durationMs: int,
    startedAt: Time, finishedAt: Option<Time>)

  datatype Channel = Channel(id: ChannelId, kind: string, enabled: bool)

  datatype Notification = Notification(
    executionId: ExecId, channelId: ChannelId, status: NotifStatus, error: string,
    sentAt: Option<Time>)

  /** A claimed job together with the `running` row created for it. `startedAt` is the value
      that row was inserted with. */
  datatype Claim = Claim(job: Job, execId: ExecId, startedAt: Time)

  /** What an executor reports: a result with a verdict, or an error. */
  datatype Outcome = Verdict(passed: bool, output: string) | Broken(message: string)

  predicate IsFailure(s: ExecStatus) {
    s == Failure || s == Error
  }

  predicate ShouldNotify(job: Job, status: ExecStatus) {
    match job.condition
    case NoCondition => IsFailure(status)
    case Malformed => false
    case On(v) =>
      if v == "failure" then IsFailure(status)
      else if v == "success" then status == Success
      else if v == "always" then true
      else IsFailure(status)
  }

  predicate NoDup<T(==)>(s: seq<T>) {
    forall i, j :: 0 <= i < j < |s| ==> s[i] != s[j]
  }

  function ClaimIds(claims: seq<Claim>): (ids: seq<ExecId>)
    ensures |ids| == |claims|
    ensures forall i :: 0 <= i < |claims| ==> ids[i] == claims[i].execId
  {
    seq(|claims|, i requires 0 <= i < |claims| => claims[i].execId)
  }

  /** A supply of identifiers that are all new and different. */
  ghost predicate FreshIds(ids: nat -> int, used: set<int>) {
    && (forall i: nat, k: nat :: i < k ==> ids(i) != ids(k))
    && (forall i: nat :: ids(i) !in used)
  }

  lemma {:induction false} Member<T>(s: set<T>) returns (x: T)
    requires s != {}
    ensures x in s
  {
    x :| x in s;
  }

  lemma {:induction false} FreshInt(used: set<int>) returns (n: int)
    ensures forall u :: u in used ==> u < n
  {
    if used == {} {
      n := 0;
    } else {
      var u := Member(used);
      var m := FreshInt(used - {u});
      n := if u < m then m else u + 1;
      forall x | x in used ensures x < n {
        assert x == u || x in used - {u};
      }
    }
  }

  lemma {:induction false} Within<T>(a: set<T>, b: set<T>)
    requires a <= b
    ensures |a| <= |b|
  {
    if a != {} {
      var x :| x in a;
      Within(a - {x}, b - {x});
    }
  }
}
