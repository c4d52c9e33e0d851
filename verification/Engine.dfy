/**
 The SQL functions of `boss`, each as one statement run alone on the committed database:
 WHERE, ORDER BY, LIMIT and SET, in the set form SQL gives them.
 */
module Engine {
  import opened Base
  import opened Json
  import opened Jobs
  import opened Lifecycle
  import opened Ordering
  import opened Channels

  datatype Error = UndefinedQueue | IntegerOutOfRange | InvalidTimestamp | NegativeLimit | ChannelTooLong

  // ---- queues ----

  datatype QueueOptions = QueueOptions(
    retryLimit: Option<int>,
    retryDelay: Option<int>,
    expireInSeconds: Option<int>,
    retentionSeconds: Option<int>)

  /** `v as i32`. */
  function AsInt32(v: int): int {
    (v - INT32_MIN) % 0x1_0000_0000 + INT32_MIN
  }

  function AsInt32Or(v: Option<int>, default: int): int {
    match v
    case Some(n) => AsInt32(n)
    case None => default
  }

  function NewQueue(opts: QueueOptions, now: Time): Queue {
    Queue(AsInt32Or(opts.retryLimit, 2),
          AsInt32Or(opts.retryDelay, 0),
          AsInt32Or(opts.expireInSeconds, 900),
          AsInt32Or(opts.retentionSeconds, 60 * 60 * 24 * 14),
          now)
  }

  /** INSERT ... ON CONFLICT DO NOTHING: the first creation decides. */
  function CreateQueue(db: Db, name: string, opts: QueueOptions, now: Time): Db {
    if name in db.queues then db
    else db.(queues := db.queues[name := NewQueue(opts, now)])
  }

  /** DELETE with its cascade. */
  function DeleteQueue(db: Db, name: string): Db {
    db.(queues := db.queues - {name}, jobs := db.jobs - RowsOf(db.jobs, name))
  }

  // ---- send ----

  datatype StartAfter = Seconds(n: int) | At(t: Time)

  datatype SendOptions = SendOptions(
    priority: Option<int>,
    startAfter: Option<StartAfter>,
    retryLimit: Option<int>,
    retryDelay: Option<int>,
    expireInSeconds: Option<int>)

  /** The ::int cast of an option raises outside 32 bits. */
  predicate Castable(v: Option<int>) {
    v.Some? ==> InInt32(v.value)
  }

  /** A digit string counts seconds; any other string has to be a timestamp, which a negative number is not. */
  function StartTime(s: Option<StartAfter>, now: Time): Result<Time, Error> {
    match s
    case None => Ok(now)
    case Some(Seconds(n)) =>
      if n < 0 then Err(InvalidTimestamp)
      else if !InInt32(n) then Err(IntegerOutOfRange)
      else Ok(now + n * SECOND)
    case Some(At(t)) => Ok(t)
  }

  function NewJob(id: Id, name: string, q: Queue, data: Option<Json>, opts: SendOptions, now: Time)
    : Result<Job, Error>
  {
    match StartTime(opts.startAfter, now)
    case Err(e) => Err(e)
    case Ok(startAfter) =>
      if !(Castable(opts.priority) && Castable(opts.retryLimit)
           && Castable(opts.retryDelay) && Castable(opts.expireInSeconds))
      then Err(IntegerOutOfRange)
      else Ok(Job(
        id, name,
        opts.priority.GetOr(0),
        data.GetOr(EMPTY_OBJECT),
        Created,
        opts.retryLimit.GetOr(q.retryLimit),
        0,
        opts.retryDelay.GetOr(q.retryDelay),
        opts.expireInSeconds.GetOr(q.expireSeconds),
        startAfter,
        now,
        None,
        None,
        now + q.retentionSeconds * SECOND,
        None))
  }

  /** The insert and the notification after it: an error of either takes the row back. */
  function Enqueue(id: Id, name: string, q: Queue, data: Option<Json>, opts: SendOptions, now: Time)
    : Result<Job, Error>
  {
    match NewJob(id, name, q, data, opts, now)
    case Err(e) => Err(e)
    case Ok(job) => if Notifiable(name) then Ok(job) else Err(ChannelTooLong)
  }

  function Send(db: Db, id: Id, name: string, data: Option<Json>, opts: SendOptions, now: Time): Result<Job, Error> {
    if name in db.queues then Enqueue(id, name, db.queues[name], data, opts, now) else Err(UndefinedQueue)
  }

  function Sent(db: Db, job: Job): Db {
    db.(jobs := db.jobs[job.id := job], issued := db.issued + {job.id})
  }

  // ---- fetch ----

  /** Rows are filed under their own id. */
  ghost predicate Keyed(db: Db) {
    forall id | id in db.jobs :: db.jobs[id].id == id
  }

  /** The rows that pass WHERE and that no other session holds. */
  ghost function Claimable(db: Db, locked: set<Id>, queue: string, now: Time): set<Key> {
    set id | id in db.jobs && id !in locked && Due(db.jobs[id], queue, now) :: KeyOf(db.jobs[id])
  }

  ghost function Ids(keys: seq<Key>): (ids: seq<Id>)
    ensures |ids| == |keys|
    ensures forall i | 0 <= i < |keys| :: ids[i] == keys[i].id
  {
    if keys == [] then [] else [keys[0].id] + Ids(keys[1..])
  }

  function UpTo(keys: seq<Key>, n: nat): seq<Key> {
    if n <= |keys| then keys[..n] else keys
  }

  /** ORDER BY, then LIMIT. */
  ghost function FirstKeys(db: Db, locked: set<Id>, queue: string, batch: nat, now: Time): seq<Key> {
    UpTo(Ranked(Claimable(db, locked, queue, now)), batch)
  }

  ghost function FetchIds(db: Db, locked: set<Id>, queue: string, batch: nat, now: Time): seq<Id> {
    Ids(FirstKeys(db, locked, queue, batch, now))
  }

  function Claimed(db: Db, ids: set<Id>, now: Time): Db {
    db.(jobs := map id | id in db.jobs :: if id in ids then ClaimRow(db.jobs[id], now) else db.jobs[id])
  }

  ghost function Members(ids: seq<Id>): set<Id> {
    set id | id in ids
  }

  ghost function Fetch(db: Db, locked: set<Id>, queue: string, batch: nat, now: Time): Db {
    Claimed(db, Members(FetchIds(db, locked, queue, batch, now)), now)
  }

  // ---- complete and fail ----

  predicate IsRunning(db: Db, queue: string, id: Id) {
    id in db.jobs && Running(db.jobs[id], queue)
  }

  /** Returns false and changes nothing unless the job is active in that queue. */
  function Finished(db: Db, queue: string, id: Id, output: Option<Json>, now: Time): Db {
    if IsRunning(db, queue, id) then db.(jobs := db.jobs[id := CompleteRow(db.jobs[id], now, output)]) else db
  }

  function Failed(db: Db, queue: string, id: Id, output: Option<Json>, now: Time): Db {
    if IsRunning(db, queue, id) then db.(jobs := db.jobs[id := FailRow(db.jobs[id], now, output)]) else db
  }

  // ---- maintain ----

  function ExpireAll(db: Db, now: Time): Db {
    db.(jobs := map id | id in db.jobs ::
                  if Overdue(db.jobs[id], now) then ExpireRow(db.jobs[id], now) else db.jobs[id])
  }

  function PurgeAll(db: Db, now: Time): Db {
    db.(jobs := map id | id in db.jobs && !Purgeable(db.jobs[id], now) :: db.jobs[id])
  }

  function Maintain(db: Db, now: Time): Db {
    PurgeAll(ExpireAll(db, now), now)
  }

  // ---------------------------------------------------------------------------
  // Claiming in batches
  // ---------------------------------------------------------------------------

  lemma FetchIdsAreClaimable(db: Db, locked: set<Id>, queue: string, batch: nat, now: Time)
    requires Keyed(db)
    ensures var ids := FetchIds(db, locked, queue, batch, now);
            && (forall i | 0 <= i < |ids| :: ids[i] in db.jobs && ids[i] !in locked
                                              && Due(db.jobs[ids[i]], queue, now))
            && (forall i, j | 0 <= i < j < |ids| :: ids[i] != ids[j]
                                              && Before(KeyOf(db.jobs[ids[i]]), KeyOf(db.jobs[ids[j]])))
  {
    var keys := FirstKeys(db, locked, queue, batch, now);
    var all := Ranked(Claimable(db, locked, queue, now));
    RankedSorts(Claimable(db, locked, queue, now));
    forall i | 0 <= i < |keys|
      ensures keys[i].id in db.jobs && KeyOf(db.jobs[keys[i].id]) == keys[i] && keys[i].id !in locked
              && Due(db.jobs[keys[i].id], queue, now)
    {
      assert keys[i] in Elems(all);
    }
  }

  /** The claimed rows are exactly the first ones: as many as LIMIT allows and there are,
      and every claimable row left behind comes after each of them. */
  lemma FetchTakesTheFirst(db: Db, locked: set<Id>, queue: string, batch: nat, now: Time)
    requires Keyed(db)
    ensures var ids := FetchIds(db, locked, queue, batch, now);
            var claimable := Claimable(db, locked, queue, now);
            && |ids| == Min(batch, |claimable|)
            && (forall id | id in db.jobs && id !in locked && Due(db.jobs[id], queue, now) && id !in ids ::
                  forall i | 0 <= i < |ids| :: ids[i] in db.jobs
                                                && Before(KeyOf(db.jobs[ids[i]]), KeyOf(db.jobs[id])))
  {
    var all := Ranked(Claimable(db, locked, queue, now));
    var ids := FetchIds(db, locked, queue, batch, now);
    RankedSorts(Claimable(db, locked, queue, now));
    FetchIdsAreClaimable(db, locked, queue, batch, now);
    forall id, i | id in db.jobs && id !in locked && Due(db.jobs[id], queue, now) && id !in ids && 0 <= i < |ids|
      ensures Before(KeyOf(db.jobs[ids[i]]), KeyOf(db.jobs[id]))
    {
      assert KeyOf(db.jobs[id]) in Elems(all);
      var n :| 0 <= n < |all| && all[n] == KeyOf(db.jobs[id]);
      assert forall m | 0 <= m < |ids| :: ids[m] == all[m].id;
      assert all[i] in Elems(all);
    }
  }

  lemma FirstKeysAreClaimable(db: Db, locked: set<Id>, queue: string, batch: nat, now: Time)
    ensures Elems(FirstKeys(db, locked, queue, batch, now)) <= Claimable(db, locked, queue, now)
  {
    RankedSorts(Claimable(db, locked, queue, now));
    PrefixElems(Ranked(Claimable(db, locked, queue, now)), Min(batch, |Claimable(db, locked, queue, now)|));
  }

  lemma IdsOf(keys: seq<Key>, id: Id)
    ensures id in Members(Ids(keys)) <==> exists k :: k in Elems(keys) && k.id == id
  {
    if id in Ids(keys) {
      var i :| 0 <= i < |keys| && Ids(keys)[i] == id;
      assert keys[i] in Elems(keys);
    }
    if exists k :: k in Elems(keys) && k.id == id {
      var k :| k in Elems(keys) && k.id == id;
      var i :| 0 <= i < |keys| && keys[i] == k;
      assert Ids(keys)[i] == id;
    }
  }

  /** Claiming the first keys leaves the others claimable, and nothing else. */
  lemma ClaimableAfter(db: Db, locked: set<Id>, queue: string, batch: nat, now: Time)
    requires Keyed(db)
    ensures Claimable(Fetch(db, locked, queue, batch, now), locked, queue, now)
            == Claimable(db, locked, queue, now) - Elems(FirstKeys(db, locked, queue, batch, now))
  {
    var keys := FirstKeys(db, locked, queue, batch, now);
    var db' := Fetch(db, locked, queue, batch, now);
    FirstKeysAreClaimable(db, locked, queue, batch, now);
    forall k
      ensures k in Claimable(db', locked, queue, now)
              <==> k in Claimable(db, locked, queue, now) && k !in Elems(keys)
    {
      IdsOf(keys, k.id);
      if k in Claimable(db, locked, queue, now) && k !in Elems(keys) {
        assert db'.jobs[k.id] == db.jobs[k.id];
      }
    }
  }

  lemma ClaimedTwice(db: Db, a: set<Id>, b: set<Id>, now: Time)
    ensures Claimed(Claimed(db, a, now), b, now) == Claimed(db, a + b, now)
  {
  }

  lemma FirstKeysSplit(db: Db, locked: set<Id>, queue: string, a: nat, b: nat, now: Time)
    requires Keyed(db)
    ensures FirstKeys(db, locked, queue, a + b, now)
            == FirstKeys(db, locked, queue, a, now)
               + FirstKeys(Fetch(db, locked, queue, a, now), locked, queue, b, now)
  {
    hide Fetch, Claimable, Ranked;
    var all := Ranked(Claimable(db, locked, queue, now));
    RankedAfter(db, locked, queue, a, now);
    UpToSplits(all, a, b);
  }

  lemma UpToSplits(keys: seq<Key>, a: nat, b: nat)
    ensures UpTo(keys, a + b) == UpTo(keys, a) + UpTo(keys[|UpTo(keys, a)|..], b)
  {
    if a <= |keys| {
      if a + b <= |keys| {
        assert keys[a..][..b] == keys[a..a + b];
      } else {
        assert keys[..a] + keys[a..] == keys;
      }
    } else {
      assert keys[|keys|..] == [];
    }
  }

  /** What is left to fetch, in order. */
  lemma RankedAfter(db: Db, locked: set<Id>, queue: string, a: nat, now: Time)
    requires Keyed(db)
    ensures Ranked(Claimable(Fetch(db, locked, queue, a, now), locked, queue, now))
            == Ranked(Claimable(db, locked, queue, now))[|FirstKeys(db, locked, queue, a, now)|..]
  {
    hide Fetch, Claimable, Ranked;
    var claimable := Claimable(db, locked, queue, now);
    var all := Ranked(claimable);
    ClaimableAfter(db, locked, queue, a, now);
    RankedRest(claimable, Min(a, |all|));
    assert FirstKeys(db, locked, queue, a, now) == all[..Min(a, |all|)];
  }

  lemma IdsConcat(a: seq<Key>, b: seq<Key>)
    ensures Ids(a + b) == Ids(a) + Ids(b)
    ensures Members(Ids(a + b)) == Members(Ids(a)) + Members(Ids(b))
  {
  }

  /** Batch splitting: at one instant, fetching a + b is fetching a and then b. */
  lemma FetchSplits(db: Db, locked: set<Id>, queue: string, a: nat, b: nat, now: Time)
    requires Keyed(db)
    ensures var mid := Fetch(db, locked, queue, a, now);
            && FetchIds(db, locked, queue, a + b, now)
               == FetchIds(db, locked, queue, a, now) + FetchIds(mid, locked, queue, b, now)
            && Fetch(db, locked, queue, a + b, now) == Fetch(mid, locked, queue, b, now)
  {
    var mid := Fetch(db, locked, queue, a, now);
    var first, second := FirstKeys(db, locked, queue, a, now), FirstKeys(mid, locked, queue, b, now);
    FirstKeysSplit(db, locked, queue, a, b, now);
    IdsConcat(first, second);
    ClaimedTwice(db, Members(Ids(first)), Members(Ids(second)), now);
  }

  /** Fetching one job at a time until nothing is claimable. */
  ghost function DrainIds(db: Db, locked: set<Id>, queue: string, now: Time, rounds: nat): seq<Id>
    decreases rounds
  {
    if rounds == 0 then []
    else FetchIds(db, locked, queue, 1, now)
         + DrainIds(Fetch(db, locked, queue, 1, now), locked, queue, now, rounds - 1)
  }

  lemma FetchKeepsKeys(db: Db, locked: set<Id>, queue: string, batch: nat, now: Time)
    requires Keyed(db)
    ensures Keyed(Fetch(db, locked, queue, batch, now))
  {
  }

  /** Drain order: repeated fetch(1) claims every due job once, in index order. */
  lemma FetchAll(db: Db, locked: set<Id>, queue: string, batch: nat, now: Time)
    ensures batch == 0 ==> FetchIds(db, locked, queue, batch, now) == []
    ensures batch >= |Ranked(Claimable(db, locked, queue, now))| ==>
              FetchIds(db, locked, queue, batch, now) == Ids(Ranked(Claimable(db, locked, queue, now)))
  {
    hide Claimable, Ranked;
    var all := Ranked(Claimable(db, locked, queue, now));
    assert all[..|all|] == all && all[..0] == [];
  }

  lemma {:induction false} DrainInOrder(db: Db, locked: set<Id>, queue: string, now: Time, rounds: nat)
    requires Keyed(db)
    ensures DrainIds(db, locked, queue, now, rounds) == FetchIds(db, locked, queue, rounds, now)
    ensures rounds >= |Claimable(db, locked, queue, now)| ==>
              DrainIds(db, locked, queue, now, rounds) == Ids(Ranked(Claimable(db, locked, queue, now)))
    decreases rounds
  {
    hide Fetch, Claimable, Ranked, FirstKeys, Ids;
    RankedSorts(Claimable(db, locked, queue, now));
    FetchAll(db, locked, queue, rounds, now);
    if rounds > 0 {
      var mid := Fetch(db, locked, queue, 1, now);
      FetchKeepsKeys(db, locked, queue, 1, now);
      DrainInOrder(mid, locked, queue, now, rounds - 1);
      FetchSplits(db, locked, queue, 1, rounds - 1, now);
    }
  }

  /** The row a fetch of one job claims: due, held by nobody, and before all others of that kind. */
  predicate FirstDue(db: Db, held: set<Id>, queue: string, id: Id, now: Time) {
    && id in db.jobs && id !in held && Due(db.jobs[id], queue, now)
    && forall o | o in db.jobs && o !in held && Due(db.jobs[o], queue, now) ::
         o == id || Before(KeyOf(db.jobs[id]), KeyOf(db.jobs[o]))
  }

  lemma FirstDueIsFetched(db: Db, held: set<Id>, queue: string, id: Id, now: Time)
    requires Keyed(db) && FirstDue(db, held, queue, id, now)
    ensures FetchIds(db, held, queue, 1, now) == [id]
  {
    hide FetchIds;
    FetchTakesTheFirst(db, held, queue, 1, now);
    FetchIdsAreClaimable(db, held, queue, 1, now);
    assert KeyOf(db.jobs[id]) in Claimable(db, held, queue, now);
  }

  lemma FetchedIsFirstDue(db: Db, held: set<Id>, queue: string, now: Time)
    requires Keyed(db)
    ensures var ids := FetchIds(db, held, queue, 1, now);
            ids == [] || (|ids| == 1 && FirstDue(db, held, queue, ids[0], now))
  {
    hide FetchIds, Claimable;
    FetchTakesTheFirst(db, held, queue, 1, now);
    FetchIdsAreClaimable(db, held, queue, 1, now);
  }

  /** A claim of one job is the atomic claim of that row. */
  lemma FetchIsClaim(db: Db, held: set<Id>, queue: string, id: Id, now: Time)
    requires Keyed(db) && FetchIds(db, held, queue, 1, now) == [id]
    ensures Next(db, Claim(queue, id, now)) == Some(Fetch(db, held, queue, 1, now))
  {
    hide Fetch, FetchIds, Next;
    FetchRuns(db, held, queue, 1, now);
    OneOp(db, id, Claiming(queue, now));
  }

  lemma OneOp(db: Db, id: Id, mk: Id -> Op)
    ensures Run(db, OpsOver([id], mk)) == Next(db, mk(id))
  {
    assert [id][..0] == [];
    assert OpsOver([id], mk) == [] + [mk(id)];
    RunSnoc(db, [], mk(id));
  }

  // ---------------------------------------------------------------------------
  // Statements as runs of the atomic machine
  // ---------------------------------------------------------------------------

  function Rewritten(db: Db, ids: seq<Id>, f: Job -> Job): Db {
    db.(jobs := map id | id in db.jobs :: if id in ids then f(db.jobs[id]) else db.jobs[id])
  }

  function OpsOver(ids: seq<Id>, mk: Id -> Op): (ops: seq<Op>)
    ensures |ops| == |ids|
  {
    if ids == [] then [] else OpsOver(ids[..|ids| - 1], mk) + [mk(ids[|ids| - 1])]
  }

  ghost predicate Distinct(order: seq<Id>) {
    forall i, j | 0 <= i < j < |order| :: order[i] != order[j]
  }

  /** `mk(id)` rewrites the row of `id` by `f`, wherever that row is as it is in `db`. */
  ghost predicate Rewrites(db: Db, id: Id, mk: Id -> Op, f: Job -> Job) {
    id in db.jobs
    && forall other: Db | id in other.jobs && other.jobs[id] == db.jobs[id] ::
         Next(other, mk(id)) == Some(other.(jobs := other.jobs[id := f(db.jobs[id])]))
  }

  lemma RewrittenSnoc(db: Db, init: seq<Id>, id: Id, f: Job -> Job)
    requires id in db.jobs && id !in init
    ensures var before := Rewritten(db, init, f);
            && before.jobs[id] == db.jobs[id]
            && before.(jobs := before.jobs[id := f(db.jobs[id])]) == Rewritten(db, init + [id], f)
  {
    assert Rewritten(db, init, f).jobs[id := f(db.jobs[id])] == Rewritten(db, init + [id], f).jobs;
  }

  lemma RewritesIn(db: Db, other: Db, id: Id, mk: Id -> Op, f: Job -> Job)
    requires Rewrites(db, id, mk, f) && id in other.jobs && other.jobs[id] == db.jobs[id]
    ensures Next(other, mk(id)) == Some(other.(jobs := other.jobs[id := f(db.jobs[id])]))
  {
  }

  lemma OpsOverSnoc(init: seq<Id>, id: Id, mk: Id -> Op)
    ensures OpsOver(init + [id], mk) == OpsOver(init, mk) + [mk(id)]
  {
    assert (init + [id])[..|init|] == init;
  }

  /** One operation per row, in any order, is the statement over the whole set. */
  lemma {:induction false} RunOver(db: Db, ids: seq<Id>, mk: Id -> Op, f: Job -> Job)
    requires Distinct(ids)
    requires forall i | 0 <= i < |ids| :: Rewrites(db, ids[i], mk, f)
    ensures Run(db, OpsOver(ids, mk)) == Some(Rewritten(db, ids, f))
    decreases |ids|
  {
    if ids == [] {
      assert Rewritten(db, [], f).jobs == db.jobs;
    } else {
      hide Next, Rewritten, Rewrites, Run, OpsOver;
      var init, id := ids[..|ids| - 1], ids[|ids| - 1];
      assert init + [id] == ids;
      assert forall i | 0 <= i < |init| :: init[i] == ids[i];
      RunOver(db, init, mk, f);
      assert id !in init;
      LastRewritten(db, ids, mk, f);
      RewrittenSnoc(db, init, id, f);
      RewritesIn(db, Rewritten(db, init, f), id, mk, f);
      OpsOverSnoc(init, id, mk);
      RunSnoc(db, OpsOver(init, mk), mk(id));
    }
  }

  lemma LastRewritten(db: Db, ids: seq<Id>, mk: Id -> Op, f: Job -> Job)
    requires ids != [] && forall i | 0 <= i < |ids| :: Rewrites(db, ids[i], mk, f)
    ensures Rewrites(db, ids[|ids| - 1], mk, f) && ids[|ids| - 1] in db.jobs
  {
  }

  function Claiming(queue: string, now: Time): Id -> Op {
    (id: Id) => Claim(queue, id, now)
  }

  function Expiring(now: Time): Id -> Op {
    (id: Id) => Expire(id, now)
  }

  function Purging(now: Time): Id -> Op {
    (id: Id) => Purge(id, now)
  }

  /** `fail` on the row of `id`, under its own queue's name. */
  function Failing(db: Db, output: Option<Json>, now: Time): Id -> Op {
    (id: Id) => Fail(if id in db.jobs then db.jobs[id].name else "", id, now, output)
  }

  function ByClaim(now: Time): Job -> Job {
    (j: Job) => ClaimRow(j, now)
  }

  function ByExpiry(now: Time): Job -> Job {
    (j: Job) => ExpireRow(j, now)
  }

  function ByFailure(output: Option<Json>, now: Time): Job -> Job {
    (j: Job) => FailRow(j, now, output)
  }

  /** fetch is a serial run of claims, one per returned row. */
  lemma FetchRuns(db: Db, locked: set<Id>, queue: string, batch: nat, now: Time)
    requires Keyed(db)
    ensures var ids := FetchIds(db, locked, queue, batch, now);
            Run(db, OpsOver(ids, Claiming(queue, now))) == Some(Fetch(db, locked, queue, batch, now))
  {
    var ids := FetchIds(db, locked, queue, batch, now);
    FetchIdsAreClaimable(db, locked, queue, batch, now);
    RunOver(db, ids, Claiming(queue, now), ByClaim(now));
    assert Fetch(db, locked, queue, batch, now).jobs == Rewritten(db, ids, ByClaim(now)).jobs;
  }

  /** `order` lists the overdue rows, each once. */
  ghost predicate ListsOverdue(db: Db, order: seq<Id>, now: Time) {
    Distinct(order) && forall id: Id :: id in order <==> id in db.jobs && Overdue(db.jobs[id], now)
  }

  ghost predicate ListsPurgeable(db: Db, order: seq<Id>, now: Time) {
    Distinct(order) && forall id: Id :: id in order <==> id in db.jobs && Purgeable(db.jobs[id], now)
  }

  lemma ExpireRuns(db: Db, order: seq<Id>, now: Time)
    requires ListsOverdue(db, order, now)
    ensures Run(db, OpsOver(order, Expiring(now))) == Some(ExpireAll(db, now))
  {
    RunOver(db, order, Expiring(now), ByExpiry(now));
    assert ExpireAll(db, now).jobs == Rewritten(db, order, ByExpiry(now)).jobs;
  }

  lemma PurgeOne(db: Db, init: seq<Id>, id: Id, now: Time)
    requires id in db.jobs && Purgeable(db.jobs[id], now) && id !in init
    ensures Next(db.(jobs := db.jobs - Members(init)), Purge(id, now))
            == Some(db.(jobs := db.jobs - Members(init + [id])))
  {
    assert Members(init + [id]) == Members(init) + {id};
    assert db.jobs - Members(init) - {id} == db.jobs - Members(init + [id]);
  }

  lemma {:induction false} PurgeRuns(db: Db, order: seq<Id>, now: Time)
    requires forall i, j | 0 <= i < j < |order| :: order[i] != order[j]
    requires forall i | 0 <= i < |order| :: order[i] in db.jobs && Purgeable(db.jobs[order[i]], now)
    ensures Run(db, OpsOver(order, Purging(now))) == Some(db.(jobs := db.jobs - Members(order)))
    decreases |order|
  {
    if order == [] {
      assert db.jobs - Members([]) == db.jobs;
    } else {
      hide Next, Run, OpsOver, Members, Purgeable;
      var init, id := order[..|order| - 1], order[|order| - 1];
      assert init + [id] == order && id !in init;
      PurgeRuns(db, init, now);
      PurgeOne(db, init, id, now);
      OpsOverSnoc(init, id, Purging(now));
      RunSnoc(db, OpsOver(init, Purging(now)), Purge(id, now));
    }
  }

  /** maintain is a serial run of per-row steps: the overdue rows in any order, then the purgeable rows,
      those just failed included, in any order. */
  lemma MaintainRuns(db: Db, overdue: seq<Id>, purgeable: seq<Id>, now: Time)
    requires ListsOverdue(db, overdue, now)
    requires ListsPurgeable(ExpireAll(db, now), purgeable, now)
    ensures Run(db, OpsOver(overdue, Expiring(now)) + OpsOver(purgeable, Purging(now)))
            == Some(Maintain(db, now))
  {
    ExpireRuns(db, overdue, now);
    var mid := ExpireAll(db, now);
    PurgeRuns(mid, purgeable, now);
    assert mid.jobs - Members(purgeable) == PurgeAll(mid, now).jobs;
    RunConcat(db, OpsOver(overdue, Expiring(now)), OpsOver(purgeable, Purging(now)));
  }

  // ---------------------------------------------------------------------------
  // maintain against fail
  // ---------------------------------------------------------------------------

  /** The CASE expressions of maintain and the branches of fail agree on every column but `output`,
      because a running row has no completed_on. */
  lemma ExpireIsFail(j: Job, now: Time, output: Option<Json>)
    requires RowOk(j) && j.state == Active
    ensures ExpireRow(j, now).(output := output) == FailRow(j, now, output)
  {
  }

  function Forget(j: Job): Job {
    j.(output := None)
  }

  function WithoutOutput(db: Db): Db {
    db.(jobs := map id | id in db.jobs :: Forget(db.jobs[id]))
  }

  /** The set form refines the simple form: maintain is `fail` on exactly the overdue rows, in any
      order, and then the purge; `output` aside. */
  lemma MaintainIsFailThenPurge(db: Db, order: seq<Id>, output: Option<Json>, now: Time)
    requires forall id | id in db.jobs :: RowOk(db.jobs[id])
    requires ListsOverdue(db, order, now)
    ensures var fails := OpsOver(order, Failing(db, output, now));
            && Run(db, fails).Some?
            && WithoutOutput(PurgeAll(Run(db, fails).value, now)) == WithoutOutput(Maintain(db, now))
  {
    hide Run, OpsOver, Rewrites, Overdue, FailRow, ExpireRow, Forget, RowOk, PurgeAll, WithoutOutput, Rewritten;
    var f := ByFailure(output, now);
    forall i | 0 <= i < |order| ensures Rewrites(db, order[i], Failing(db, output, now), f) {
      FailureRewrites(db, order[i], output, now);
    }
    RunOver(db, order, Failing(db, output, now), f);
    FailuresAreExpiries(db, order, output, now);
    PurgeIgnoresOutput(Rewritten(db, order, f), ExpireAll(db, now), now);
  }

  lemma FailureRewrites(db: Db, id: Id, output: Option<Json>, now: Time)
    requires id in db.jobs && Overdue(db.jobs[id], now)
    ensures Rewrites(db, id, Failing(db, output, now), ByFailure(output, now))
  {
  }

  ghost predicate SameButOutput(a: Db, b: Db) {
    && a.queues == b.queues && a.issued == b.issued && a.jobs.Keys == b.jobs.Keys
    && forall id | id in a.jobs :: Forget(a.jobs[id]) == Forget(b.jobs[id])
  }

  lemma FailuresAreExpiries(db: Db, order: seq<Id>, output: Option<Json>, now: Time)
    requires forall id | id in db.jobs :: RowOk(db.jobs[id])
    requires ListsOverdue(db, order, now)
    ensures SameButOutput(Rewritten(db, order, ByFailure(output, now)), ExpireAll(db, now))
  {
    hide FailRow, ExpireRow, RowOk;
    var a, b := Rewritten(db, order, ByFailure(output, now)), ExpireAll(db, now);
    forall id | id in db.jobs ensures Forget(a.jobs[id]) == Forget(b.jobs[id]) {
      if Overdue(db.jobs[id], now) {
        ExpireIsFail(db.jobs[id], now, output);
      }
    }
  }

  lemma PurgeIgnoresOutput(a: Db, b: Db, now: Time)
    requires SameButOutput(a, b)
    ensures WithoutOutput(PurgeAll(a, now)) == WithoutOutput(PurgeAll(b, now))
  {
    forall id | id in a.jobs ensures Purgeable(a.jobs[id], now) == Purgeable(b.jobs[id], now) {
      assert Forget(a.jobs[id]) == Forget(b.jobs[id]);
      assert Purgeable(Forget(a.jobs[id]), now) == Purgeable(Forget(b.jobs[id]), now);
    }
    assert WithoutOutput(PurgeAll(a, now)).jobs == WithoutOutput(PurgeAll(b, now)).jobs;
  }

  /** At a fixed instant a second maintain changes nothing. */
  lemma MaintainIdempotent(db: Db, now: Time)
    ensures Maintain(Maintain(db, now), now) == Maintain(db, now)
  {
    var once := Maintain(db, now);
    assert ExpireAll(once, now).jobs == once.jobs;
    assert PurgeAll(once, now).jobs == once.jobs;
  }

  // ---- the remaining statements ----

  lemma SendRuns(db: Db, id: Id, name: string, data: Option<Json>, opts: SendOptions, now: Time)
    requires id !in db.issued && Send(db, id, name, data, opts, now).Ok?
    ensures var job := Send(db, id, name, data, opts, now).value;
            job.id == id && job.name == name && Next(db, Insert(job)) == Some(Sent(db, job))
  {
  }

  lemma OutcomeRuns(db: Db, queue: string, id: Id, output: Option<Json>, now: Time)
    ensures Finished(db, queue, id, output, now)
            == (match Next(db, Complete(queue, id, now, output)) case Some(db') => db' case None => db)
    ensures Failed(db, queue, id, output, now)
            == (match Next(db, Fail(queue, id, now, output)) case Some(db') => db' case None => db)
  {
  }

  lemma QueueRuns(db: Db, name: string, opts: QueueOptions, now: Time)
    ensures CreateQueue(db, name, opts, now)
            == (match Next(db, OpenQueue(name, NewQueue(opts, now))) case Some(db') => db' case None => db)
    ensures (forall id | id in db.jobs :: db.jobs[id].name in db.queues) ==>
              DeleteQueue(db, name) == (match Next(db, DropQueue(name)) case Some(db') => db' case None => db)
  {
    if name !in db.queues {
      assert db.queues - {name} == db.queues;
      assert (forall id | id in db.jobs :: db.jobs[id].name in db.queues) ==>
               db.jobs - RowsOf(db.jobs, name) == db.jobs;
    }
  }
}
