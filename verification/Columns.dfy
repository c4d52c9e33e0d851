/**
 What the SQL functions do, column by column: no name of another module stands between these statements
 and the rows.
 */
module Columns {
  import opened Base
  import opened Json
  import opened Jobs
  import opened Lifecycle
  import opened Ordering
  import opened Channels
  import Engine

  // ---- fetch ----

  /** Which rows `fetch` claims, `due` being those that wait in the queue, are due, and are held by nobody: as many
      as there are and LIMIT allows; by priority downwards, then by creation time, then by id; and every due row
      left out comes after them. */
  lemma FetchedColumns(db: Db, held: set<Id>, queue: string, batch: nat, now: Time, due: set<Id>)
    requires Engine.Keyed(db)
    requires forall id :: id in due <==>
               && id in db.jobs && id !in held && db.jobs[id].name == queue
               && (db.jobs[id].state == Created || db.jobs[id].state == Retry)
               && db.jobs[id].startAfter <= now
    ensures var ids := Engine.FetchIds(db, held, queue, batch, now);
            && |ids| == (if batch < |due| then batch else |due|)
            && (forall i | 0 <= i < |ids| :: ids[i] in due)
            && (forall i, j | 0 <= i < j < |ids| ::
                  var a, b := db.jobs[ids[i]], db.jobs[ids[j]];
                  || a.priority > b.priority
                  || (a.priority == b.priority && a.createdOn < b.createdOn)
                  || (a.priority == b.priority && a.createdOn == b.createdOn && ids[i] < ids[j]))
            && (forall i, id | 0 <= i < |ids| && id in due && id !in ids ::
                  var a, b := db.jobs[ids[i]], db.jobs[id];
                  || a.priority > b.priority
                  || (a.priority == b.priority && a.createdOn < b.createdOn)
                  || (a.priority == b.priority && a.createdOn == b.createdOn && ids[i] < id))
  {
    hide Engine.FetchIds, Engine.Claimable;
    var ids := Engine.FetchIds(db, held, queue, batch, now);
    Engine.FetchIdsAreClaimable(db, held, queue, batch, now);
    Engine.FetchTakesTheFirst(db, held, queue, batch, now);
    DueCount(db, held, queue, now, due);
    forall i | 0 <= i < |ids| ensures db.jobs[ids[i]].id == ids[i] {
      assert ids[i] in db.jobs;
    }
  }

  lemma DueCount(db: Db, held: set<Id>, queue: string, now: Time, due: set<Id>)
    requires Engine.Keyed(db)
    requires forall id :: id in due <==> id in db.jobs && id !in held && Due(db.jobs[id], queue, now)
    ensures |Engine.Claimable(db, held, queue, now)| == |due|
  {
    assert Engine.Claimable(db, held, queue, now) == set id | id in due :: KeyOf(db.jobs[id]);
    KeysOfRows(db.jobs, due);
  }

  lemma {:induction false} KeysOfRows(jobs: map<Id, Job>, ids: set<Id>)
    requires forall id | id in ids :: id in jobs && jobs[id].id == id
    ensures |set id | id in ids :: KeyOf(jobs[id])| == |ids|
    decreases |ids|
  {
    var keys := set id | id in ids :: KeyOf(jobs[id]);
    if ids != {} {
      var first :| first in ids;
      var rest := ids - {first};
      KeysOfRows(jobs, rest);
      assert keys == (set id | id in rest :: KeyOf(jobs[id])) + {KeyOf(jobs[first])};
    }
  }

  lemma {:induction false} CountMembers(ids: seq<Id>)
    requires forall i, j | 0 <= i < j < |ids| :: ids[i] != ids[j]
    ensures |Engine.Members(ids)| == |ids|
    decreases |ids|
  {
    if ids != [] {
      var init, last := ids[..|ids| - 1], ids[|ids| - 1];
      CountMembers(init);
      assert Engine.Members(ids) == Engine.Members(init) + {last};
    }
  }

  /** The same for the claimed ids as a set: at most LIMIT of them, and fewer only if no due row is left. */
  lemma BatchColumns(db: Db, held: set<Id>, queue: string, batch: nat, now: Time, claimed: set<Id>)
    requires Engine.Keyed(db) && claimed == Engine.Members(Engine.FetchIds(db, held, queue, batch, now))
    ensures |claimed| <= batch
    ensures forall id | id in claimed ::
              && id in db.jobs && id !in held && db.jobs[id].name == queue
              && (db.jobs[id].state == Created || db.jobs[id].state == Retry) && db.jobs[id].startAfter <= now
    ensures forall id | id in db.jobs && id !in held && id !in claimed && db.jobs[id].name == queue
                        && (db.jobs[id].state == Created || db.jobs[id].state == Retry)
                        && db.jobs[id].startAfter <= now ::
              && |claimed| == batch
              && forall c | c in claimed ::
                   || db.jobs[c].priority > db.jobs[id].priority
                   || (db.jobs[c].priority == db.jobs[id].priority && db.jobs[c].createdOn < db.jobs[id].createdOn)
                   || (db.jobs[c].priority == db.jobs[id].priority && db.jobs[c].createdOn == db.jobs[id].createdOn
                       && c < id)
  {
    hide Engine.FetchIds;
    var ids := Engine.FetchIds(db, held, queue, batch, now);
    var due := set id | id in db.jobs && id !in held && db.jobs[id].name == queue
                        && (db.jobs[id].state == Created || db.jobs[id].state == Retry)
                        && db.jobs[id].startAfter <= now;
    FetchedColumns(db, held, queue, batch, now, due);
    Engine.FetchIdsAreClaimable(db, held, queue, batch, now);
    CountMembers(ids);
    forall id | id in due && id !in claimed
      ensures |claimed| == batch && id !in ids
      ensures forall c | c in claimed :: exists i :: 0 <= i < |ids| && ids[i] == c
    {
      if |ids| == |due| {
        SameSize(claimed, due);
        assert false;
      }
    }
  }

  lemma SameSize(a: set<Id>, b: set<Id>)
    requires a <= b && |a| == |b|
    ensures a == b
  {
    if x :| x in b && x !in a {
      assert a <= b - {x};
      SubsetSize(a, b - {x});
    }
  }

  lemma {:induction false} SubsetSize(a: set<Id>, b: set<Id>)
    requires a <= b
    ensures |a| <= |b|
    decreases |a|
  {
    if x :| x in a {
      SubsetSize(a - {x}, b - {x});
    }
  }

  /** What becomes of the rows: the claimed ones are active since now, all else is as it was. */
  lemma ClaimedColumns(db: Db, held: set<Id>, queue: string, batch: nat, now: Time)
    ensures var ids := Engine.FetchIds(db, held, queue, batch, now);
            var after := Engine.Fetch(db, held, queue, batch, now);
            && after.queues == db.queues && after.jobs.Keys == db.jobs.Keys
            && (forall id | id in db.jobs && id in ids ::
                  after.jobs[id] == db.jobs[id].(state := Active, startedOn := Some(now)))
            && (forall id | id in db.jobs && id !in ids :: after.jobs[id] == db.jobs[id])
  {
    hide Engine.FetchIds;
    var ids := Engine.FetchIds(db, held, queue, batch, now);
    assert forall id :: id in ids <==> id in Engine.Members(ids);
  }

  // ---- send ----

  /** When `send` succeeds, and the row it inserts. */
  lemma SentColumns(db: Db, id: Id, name: string, data: Option<Json>, opts: Engine.SendOptions, now: Time)
    ensures Engine.Send(db, id, name, data, opts, now).Ok? <==>
              && name in db.queues
              && (opts.priority.Some? ==> -0x8000_0000 <= opts.priority.value <= 0x7fff_ffff)
              && (opts.retryLimit.Some? ==> -0x8000_0000 <= opts.retryLimit.value <= 0x7fff_ffff)
              && (opts.retryDelay.Some? ==> -0x8000_0000 <= opts.retryDelay.value <= 0x7fff_ffff)
              && (opts.expireInSeconds.Some? ==> -0x8000_0000 <= opts.expireInSeconds.value <= 0x7fff_ffff)
              && (opts.startAfter.Some? && opts.startAfter.value.Seconds? ==> 0 <= opts.startAfter.value.n <= 0x7fff_ffff)
              && (|name| > 58 || ByteLength(name) <= 58)
    ensures Engine.Send(db, id, name, data, opts, now).Ok? ==>
              var job, q := Engine.Send(db, id, name, data, opts, now).value, db.queues[name];
              && job.id == id && job.name == name
              && job.data == (if data.Some? then data.value else Obj(map[]))
              && job.priority == (if opts.priority.Some? then opts.priority.value else 0)
              && job.retryLimit == (if opts.retryLimit.Some? then opts.retryLimit.value else q.retryLimit)
              && job.retryDelay == (if opts.retryDelay.Some? then opts.retryDelay.value else q.retryDelay)
              && job.expireSeconds == (if opts.expireInSeconds.Some? then opts.expireInSeconds.value else q.expireSeconds)
              && job.startAfter == (match opts.startAfter
                                    case None => now
                                    case Some(Seconds(n)) => now + n * 1_000_000
                                    case Some(At(t)) => t)
              && job.createdOn == now && job.keepUntil == now + q.retentionSeconds * 1_000_000
              && job.state == Created && job.retryCount == 0
              && job.startedOn == None && job.completedOn == None && job.output == None
    ensures Engine.Send(db, id, name, data, opts, now).Ok? ==>
              var job := Engine.Send(db, id, name, data, opts, now).value;
              Engine.Sent(db, job) == Db(db.queues, db.jobs[id := job], db.issued + {id})
    ensures name !in db.queues <==> Engine.Send(db, id, name, data, opts, now) == Err(Engine.UndefinedQueue)
  {
  }

  // ---- complete and fail ----

  /** A job is completed if it is active in that queue, and nothing else changes. */
  lemma CompletedColumns(db: Db, queue: string, id: Id, output: Option<Json>, now: Time)
    ensures Engine.Finished(db, queue, id, output, now)
            == if id in db.jobs && db.jobs[id].name == queue && db.jobs[id].state == Active
               then db.(jobs := db.jobs[id := db.jobs[id].(state := Completed, completedOn := Some(now),
                                                           output := output)])
               else db
  {
  }

  /** A job is failed if it is active in that queue: it waits again while attempts remain. */
  lemma FailedColumns(db: Db, queue: string, id: Id, output: Option<Json>, now: Time)
    ensures Engine.Failed(db, queue, id, output, now)
            == if id in db.jobs && db.jobs[id].name == queue && db.jobs[id].state == Active
               then
                 var row := db.jobs[id];
                 db.(jobs := db.jobs[id :=
                       if row.retryCount < row.retryLimit
                       then row.(state := Retry, retryCount := row.retryCount + 1,
                                 startAfter := now + row.retryDelay * 1_000_000, startedOn := None, output := output)
                       else row.(state := Failed, completedOn := Some(now), startedOn := None, output := output)])
               else db
  {
  }

  // ---- maintain ----

  /** The output of an expired job: an object gets the mark as one more field. */
  lemma MarkedOutput(row: Job, now: Time)
    ensures row.output == None ==> ExpireRow(row, now).output == Some(Obj(map["__expired" := Bool(true)]))
    ensures row.output.Some? && row.output.value.Obj? ==>
              ExpireRow(row, now).output == Some(Obj(row.output.value.fields["__expired" := Bool(true)]))
  {
    if row.output == None {
      assert map[] + map["__expired" := Bool(true)] == map["__expired" := Bool(true)];
    } else if row.output.value.Obj? {
      var fields := row.output.value.fields;
      assert fields + map["__expired" := Bool(true)] == fields["__expired" := Bool(true)];
    }
  }

  /** Row by row: an active row that overran waits again while attempts remain and fails otherwise; finished rows
      past keep_until go, those just failed included; every other row is there unchanged. */
  lemma MaintainedRow(db: Db, id: Id, now: Time)
    requires id in db.jobs
    ensures var row, after := db.jobs[id], RowAt(Engine.Maintain(db, now), id);
            var overran := row.state == Active && row.startedOn.Some?
                           && row.startedOn.value + row.expireSeconds * 1_000_000 < now;
            if overran && row.retryCount < row.retryLimit then
              after == Some(row.(state := Retry, retryCount := row.retryCount + 1,
                                 startAfter := now + row.retryDelay * 1_000_000,
                                 completedOn := None, startedOn := None, output := ExpireRow(row, now).output))
            else if overran then
              after == if row.keepUntil < now then None
                       else Some(row.(state := Failed, completedOn := Some(now), startedOn := None,
                                      output := ExpireRow(row, now).output))
            else if (row.state == Completed || row.state == Failed || row.state == Cancelled) && row.keepUntil < now then
              after == None
            else after == Some(row)
  {
  }

  /** After maintain no finished row is past keep_until and no active row has overrun; no row is new. */
  lemma MaintainedColumns(db: Db, now: Time)
    ensures var after := Engine.Maintain(db, now);
            && after.queues == db.queues && after.jobs.Keys <= db.jobs.Keys
            && (forall id | id in after.jobs ::
                  !((after.jobs[id].state == Completed || after.jobs[id].state == Failed
                     || after.jobs[id].state == Cancelled) && after.jobs[id].keepUntil < now))
            && (forall id | id in after.jobs && after.jobs[id].state == Active && after.jobs[id].startedOn.Some? ::
                  after.jobs[id].startedOn.value + after.jobs[id].expireSeconds * 1_000_000 >= now)
  {
  }

  /** Both at once: what is gone or changed, and what is as it was. */
  lemma MaintainLeaves(db: Db, now: Time)
    ensures var after := Engine.Maintain(db, now);
            && (forall id | id in after.jobs ::
                  && id in db.jobs
                  && !((after.jobs[id].state == Completed || after.jobs[id].state == Failed
                        || after.jobs[id].state == Cancelled) && after.jobs[id].keepUntil < now)
                  && !(after.jobs[id].state == Active && after.jobs[id].startedOn.Some?
                       && after.jobs[id].startedOn.value + after.jobs[id].expireSeconds * 1_000_000 < now))
            && (forall id | id in db.jobs
                            && !((db.jobs[id].state == Completed || db.jobs[id].state == Failed
                                  || db.jobs[id].state == Cancelled) && db.jobs[id].keepUntil < now)
                            && !(db.jobs[id].state == Active && db.jobs[id].startedOn.Some?
                                 && db.jobs[id].startedOn.value + db.jobs[id].expireSeconds * 1_000_000 < now) ::
                  id in after.jobs && after.jobs[id] == db.jobs[id])
  {
    MaintainedColumns(db, now);
    hide Engine.Maintain;
    forall id | id in db.jobs
      ensures var row := db.jobs[id];
              !((row.state == Completed || row.state == Failed || row.state == Cancelled) && row.keepUntil < now)
              && !(row.state == Active && row.startedOn.Some?
                   && row.startedOn.value + row.expireSeconds * 1_000_000 < now) ==>
                id in Engine.Maintain(db, now).jobs && Engine.Maintain(db, now).jobs[id] == row
    {
      MaintainedRow(db, id, now);
    }
  }

  // ---- queues ----

  /** What `v as i32` leaves of a number: it is taken modulo 2^32 into the range of 32 bits. */
  lemma Narrowed(v: int)
    ensures -0x8000_0000 <= v <= 0x7fff_ffff ==> Engine.AsInt32(v) == v
    ensures -0x8000_0000 <= Engine.AsInt32(v) <= 0x7fff_ffff
    ensures exists k: int :: v == Engine.AsInt32(v) + k * 0x1_0000_0000
  {
    var k := (v + 0x8000_0000) / 0x1_0000_0000;
    assert v == Engine.AsInt32(v) + k * 0x1_0000_0000;
  }

  /** A queue that is created has the options given, narrowed, and the defaults for the others. An existing queue
      stays as it is, and so does everything else. */
  lemma CreatedColumns(db: Db, name: string, opts: Engine.QueueOptions, now: Time)
    ensures name in db.queues ==> Engine.CreateQueue(db, name, opts, now) == db
    ensures name !in db.queues ==>
              var after := Engine.CreateQueue(db, name, opts, now);
              && after.jobs == db.jobs && after.queues.Keys == db.queues.Keys + {name}
              && (forall other | other in db.queues :: after.queues[other] == db.queues[other])
              && var q := after.queues[name];
                 && q.retryLimit == (if opts.retryLimit.Some? then Engine.AsInt32(opts.retryLimit.value) else 2)
                 && q.retryDelay == (if opts.retryDelay.Some? then Engine.AsInt32(opts.retryDelay.value) else 0)
                 && q.expireSeconds
                    == (if opts.expireInSeconds.Some? then Engine.AsInt32(opts.expireInSeconds.value) else 900)
                 && q.retentionSeconds
                    == (if opts.retentionSeconds.Some? then Engine.AsInt32(opts.retentionSeconds.value) else 1_209_600)
                 && q.createdOn == now
  {
  }

  /** A queue that is deleted is gone with all its jobs, and no other queue or job is. */
  lemma DeletedColumns(db: Db, name: string)
    ensures var after := Engine.DeleteQueue(db, name);
            && (forall other :: other in after.queues <==> other in db.queues && other != name)
            && (forall other | other in after.queues :: after.queues[other] == db.queues[other])
            && (forall id :: id in after.jobs <==> id in db.jobs && db.jobs[id].name != name)
            && (forall id | id in after.jobs :: after.jobs[id] == db.jobs[id])
  {
  }
}
