/** The rows of `boss.queue` and `boss.job`, and what each statement does to one row. */
module Jobs {
  import opened Base
  import opened Json

  /** A uuid, as the number its bytes spell: uuids are compared bytewise. */
  type Id = nat

  datatype JobState = Created | Retry | Active | Completed | Cancelled | Failed

  datatype Queue = Queue(
    retryLimit: int,
    retryDelay: int,
    expireSeconds: int,
    retentionSeconds: int,
    createdOn: Time)

  datatype Job = Job(
    id: Id,
    name: string,
    priority: int,
    data: Json,
    state: JobState,
    retryLimit: int,
    retryCount: int,
    retryDelay: int,
    expireSeconds: int,
    startAfter: Time,
    createdOn: Time,
    startedOn: Option<Time>,
    completedOn: Option<Time>,
    keepUntil: Time,
    output: Option<Json>)

  // ---- predicates of the WHERE clauses ----

  predicate Waiting(j: Job) {
    j.state == Created || j.state == Retry
  }

  predicate Terminal(j: Job) {
    j.state == Completed || j.state == Failed || j.state == Cancelled
  }

  /** What `fetch` selects. */
  predicate Due(j: Job, queue: string, now: Time) {
    j.name == queue && Waiting(j) && j.startAfter <= now
  }

  /** What `complete` and `fail` select: no claim token, only the state. */
  predicate Running(j: Job, queue: string) {
    j.name == queue && j.state == Active
  }

  /** What the UPDATE of `maintain` selects. */
  predicate Overdue(j: Job, now: Time) {
    j.state == Active && j.startedOn.Some? && now - j.startedOn.value > j.expireSeconds * SECOND
  }

  /** What the DELETE of `maintain` selects. */
  predicate Purgeable(j: Job, now: Time) {
    Terminal(j) && j.keepUntil < now
  }

  // ---- the SET clauses ----

  function ClaimRow(j: Job, now: Time): Job {
    j.(state := Active, startedOn := Some(now))
  }

  /** `started_on` stays as it was. */
  function CompleteRow(j: Job, now: Time, output: Option<Json>): Job {
    j.(state := Completed, completedOn := Some(now), output := output)
  }

  function FailRow(j: Job, now: Time, output: Option<Json>): Job {
    if j.retryCount < j.retryLimit then
      j.(state := Retry,
         retryCount := j.retryCount + 1,
         startAfter := now + j.retryDelay * SECOND,
         startedOn := None,
         output := output)
    else
      j.(state := Failed, completedOn := Some(now), startedOn := None, output := output)
  }

  const EXPIRED_MARK: Json := Obj(map["__expired" := Bool(true)])

  /** The UPDATE of `maintain`, column by column as its CASE expressions have it. */
  function ExpireRow(j: Job, now: Time): Job {
    var again := j.retryCount < j.retryLimit;
    j.(state := if again then Retry else Failed,
       retryCount := if again then j.retryCount + 1 else j.retryCount,
       startAfter := if again then now + j.retryDelay * SECOND else j.startAfter,
       completedOn := if again then None else Some(now),
       startedOn := None,
       output := Some(Concat(j.output.GetOr(EMPTY_OBJECT), EXPIRED_MARK)))
  }

  // ---- what a row keeps ----

  /** A row as `send` inserts it. */
  predicate Newborn(j: Job) {
    && j.state == Created
    && j.retryCount == 0
    && j.startedOn == None
    && j.completedOn == None
    && j.output == None
  }

  /** The columns no statement ever rewrites. */
  predicate SameIdentity(a: Job, b: Job) {
    && a.id == b.id
    && a.name == b.name
    && a.priority == b.priority
    && a.data == b.data
    && a.retryLimit == b.retryLimit
    && a.retryDelay == b.retryDelay
    && a.expireSeconds == b.expireSeconds
    && a.createdOn == b.createdOn
    && a.keepUntil == b.keepUntil
  }

  /** The shape every row has in every reachable state. */
  predicate RowOk(j: Job) {
    && j.state != Cancelled
    && 0 <= j.retryCount <= Max(0, j.retryLimit)
    && (j.state == Created ==> j.retryCount == 0)
    && (j.state == Retry ==> j.retryCount >= 1)
    && (j.startedOn.Some? <==> j.state == Active || j.state == Completed)
    && (j.completedOn.Some? <==> j.state == Completed || j.state == Failed)
  }

  /** How many claims and outcomes a row can still see. */
  function Measure(j: Job): nat {
    2 * Max(0, Max(0, j.retryLimit) - j.retryCount)
    + (if Waiting(j) then 2 else if j.state == Active then 1 else 0)
  }

  /** The measure of a row fresh from `send`. */
  function Budget(j: Job): nat {
    2 * (Max(0, j.retryLimit) + 1)
  }
}
