/**
 `boss.job` updated in place, with `job_fetch_idx` kept beside it.
 Every method is proved to do what the set-form statement of module Engine says.
 */
module JobTable {
  import opened Base
  import opened Json
  import opened Jobs
  import opened Lifecycle
  import opened Ordering
  import opened Channels
  import Columns
  import Engine

  // ---- the index as a function of the table ----

  ghost function WaitingKeys(jobs: map<Id, Job>, name: string): set<Key> {
    set id | id in jobs && jobs[id].name == name && Waiting(jobs[id]) :: KeyOf(jobs[id])
  }

  ghost function WaitingIds(jobs: map<Id, Job>, name: string): set<Id> {
    set id | id in jobs && jobs[id].name == name && Waiting(jobs[id])
  }

  function Listing(index: map<string, seq<Key>>, name: string): seq<Key> {
    if name in index then index[name] else []
  }

  /** For every queue the index lists exactly the created and retry rows, in order. */
  ghost predicate Indexed(jobs: map<Id, Job>, index: map<string, seq<Key>>) {
    forall name: string :: Listing(index, name) == Ranked(WaitingKeys(jobs, name))
  }

  ghost predicate RowsFiled(jobs: map<Id, Job>) {
    forall id | id in jobs :: jobs[id].id == id
  }

  /** Membership in the index, without the comprehension. */
  ghost predicate IsWaitingKey(jobs: map<Id, Job>, name: string, k: Key) {
    k.id in jobs && jobs[k.id].name == name && Waiting(jobs[k.id]) && KeyOf(jobs[k.id]) == k
  }

  lemma InWaiting(jobs: map<Id, Job>, name: string)
    requires RowsFiled(jobs)
    ensures forall k :: k in WaitingKeys(jobs, name) <==> IsWaitingKey(jobs, name, k)
  {
    forall k | IsWaitingKey(jobs, name, k) ensures k in WaitingKeys(jobs, name) {
      assert KeyOf(jobs[k.id]) in WaitingKeys(jobs, name);
    }
  }

  lemma WaitingPut(jobs: map<Id, Job>, id: Id, j: Job, name: string)
    requires RowsFiled(jobs) && j.id == id
    requires id in jobs ==> SameIdentity(jobs[id], j)
    ensures j.name == name && Waiting(j) ==>
              WaitingKeys(jobs[id := j], name) == WaitingKeys(jobs, name) + {KeyOf(j)}
    ensures j.name == name && !Waiting(j) ==>
              WaitingKeys(jobs[id := j], name) == WaitingKeys(jobs, name) - {KeyOf(j)}
    ensures j.name != name ==> WaitingKeys(jobs[id := j], name) == WaitingKeys(jobs, name)
  {
    hide WaitingKeys;
    InWaiting(jobs, name);
    InWaiting(jobs[id := j], name);
  }

  /** Rewriting a row that is not listed and will not be changes no listing. */
  lemma SettledPut(jobs: map<Id, Job>, j: Job, name: string)
    requires RowsFiled(jobs) && j.id in jobs && SameIdentity(jobs[j.id], j)
    requires !Waiting(jobs[j.id]) && !Waiting(j)
    ensures WaitingKeys(jobs[j.id := j], name) == WaitingKeys(jobs, name)
  {
    hide WaitingKeys;
    InWaiting(jobs, name);
    InWaiting(jobs[j.id := j], name);
  }

  /** Dropping the rows of one queue leaves the listings of the others. */
  lemma WaitingDropped(jobs: map<Id, Job>, dropped: string, name: string)
    requires RowsFiled(jobs)
    ensures WaitingKeys(jobs - RowsOf(jobs, dropped), name)
            == if name == dropped then {} else WaitingKeys(jobs, name)
  {
    hide WaitingKeys;
    InWaiting(jobs, name);
    InWaiting(jobs - RowsOf(jobs, dropped), name);
  }

  // ---- sorted listings ----

  ghost predicate AllBefore(keys: seq<Key>, k: Key) {
    forall i | 0 <= i < |keys| :: Before(keys[i], k)
  }

  /** Puts a key where the order wants it. */
  method InsertKey(keys: seq<Key>, k: Key) returns (out: seq<Key>)
    requires Sorted(keys)
    ensures Sorted(out) && Elems(out) == Elems(keys) + {k}
  {
    var i := 0;
    while i < |keys| && Before(keys[i], k)
      invariant 0 <= i <= |keys| && AllBefore(keys[..i], k)
    {
      i := i + 1;
    }
    if i < |keys| && keys[i] == k {
      out := keys;
    } else {
      out := keys[..i] + [k] + keys[i..];
      InsertedAt(keys, k, i);
    }
  }

  lemma InsertedAt(keys: seq<Key>, k: Key, i: nat)
    requires Sorted(keys) && i <= |keys| && AllBefore(keys[..i], k)
    requires i < |keys| ==> keys[i] != k && !Before(keys[i], k)
    ensures Sorted(keys[..i] + [k] + keys[i..])
    ensures Elems(keys[..i] + [k] + keys[i..]) == Elems(keys) + {k}
  {
    var out := keys[..i] + [k] + keys[i..];
    forall x ensures x in Elems(out) <==> x in Elems(keys) || x == k {
      assert keys == keys[..i] + keys[i..];
    }
    forall j | 0 <= j < i ensures Before(keys[j], k) {
      assert keys[..i][j] == keys[j];
    }
  }

  /** Takes a key out. */
  method RemoveKey(keys: seq<Key>, k: Key) returns (out: seq<Key>)
    requires Sorted(keys)
    ensures Sorted(out) && Elems(out) == Elems(keys) - {k}
  {
    var i := 0;
    while i < |keys| && keys[i] != k
      invariant 0 <= i <= |keys| && k !in Elems(keys[..i])
    {
      assert keys[..i + 1] == keys[..i] + [keys[i]];
      i := i + 1;
    }
    if i < |keys| {
      DropAt(keys, i);
      out := keys[..i] + keys[i + 1..];
    } else {
      assert keys[..i] == keys;
      out := keys;
    }
  }

  lemma DropAt(keys: seq<Key>, p: nat)
    requires Sorted(keys) && p < |keys|
    ensures Sorted(keys[..p] + keys[p + 1..])
    ensures Elems(keys[..p] + keys[p + 1..]) == Elems(keys) - {keys[p]}
  {
    var rest := keys[..p] + keys[p + 1..];
    forall x ensures x in Elems(rest) <==> x in Elems(keys) && x != keys[p] {
      if x in Elems(keys) && x != keys[p] {
        var i :| 0 <= i < |keys| && keys[i] == x;
        assert rest[if i < p then i else i - 1] == x;
      }
    }
  }

  // ---- the scan of fetch ----

  /** What the scan of the index lets through. */
  predicate Admits(jobs: map<Id, Job>, locked: set<Id>, now: Time, k: Key) {
    k.id in jobs && k.id !in locked && jobs[k.id].startAfter <= now
  }

  function Admitted(keys: seq<Key>, jobs: map<Id, Job>, locked: set<Id>, now: Time): seq<Key> {
    if keys == [] then []
    else (if Admits(jobs, locked, now, keys[0]) then [keys[0]] else [])
         + Admitted(keys[1..], jobs, locked, now)
  }

  lemma {:induction false} AdmittedElems(keys: seq<Key>, jobs: map<Id, Job>, locked: set<Id>, now: Time, x: Key)
    ensures x in Elems(Admitted(keys, jobs, locked, now)) <==> x in Elems(keys) && Admits(jobs, locked, now, x)
    decreases |keys|
  {
    if keys != [] {
      AdmittedElems(keys[1..], jobs, locked, now, x);
      assert keys == [keys[0]] + keys[1..];
    }
  }

  lemma {:induction false} AdmittedSorted(keys: seq<Key>, jobs: map<Id, Job>, locked: set<Id>, now: Time)
    requires Sorted(keys)
    ensures Sorted(Admitted(keys, jobs, locked, now))
    decreases |keys|
  {
    if keys != [] {
      AdmittedSorted(keys[1..], jobs, locked, now);
      var rest := Admitted(keys[1..], jobs, locked, now);
      forall i | 0 <= i < |rest| ensures Before(keys[0], rest[i]) {
        AdmittedElems(keys[1..], jobs, locked, now, rest[i]);
        assert rest[i] in Elems(rest);
      }
    }
  }

  /** Scanning the index in order is filtering and then sorting. */
  lemma ScanIsFilterSort(db: Db, locked: set<Id>, queue: string, now: Time)
    requires RowsFiled(db.jobs)
    ensures Admitted(Ranked(WaitingKeys(db.jobs, queue)), db.jobs, locked, now)
            == Ranked(Engine.Claimable(db, locked, queue, now))
  {
    var run := Ranked(WaitingKeys(db.jobs, queue));
    RankedSorts(WaitingKeys(db.jobs, queue));
    AdmittedSorted(run, db.jobs, locked, now);
    var scan := Admitted(run, db.jobs, locked, now);
    forall x ensures x in Elems(scan) <==> x in Engine.Claimable(db, locked, queue, now) {
      AdmittedElems(run, db.jobs, locked, now, x);
      if x in Elems(run) && Admits(db.jobs, locked, now, x) {
        assert x == KeyOf(db.jobs[x.id]);
      }
    }
    RankedIs(Engine.Claimable(db, locked, queue, now), scan);
  }

  lemma ClaimedNone(db: Db, now: Time)
    ensures Engine.Claimed(db, {}, now).jobs == db.jobs
  {
  }

  lemma ClaimedMore(db: Db, ids: set<Id>, id: Id, now: Time)
    requires id in db.jobs && id !in ids
    ensures var before := Engine.Claimed(db, ids, now).jobs;
            && id in before && before[id] == db.jobs[id]
            && before[id := ClaimRow(db.jobs[id], now)] == Engine.Claimed(db, ids + {id}, now).jobs
  {
  }

  lemma TakenMore(keys: seq<Key>, k: Key)
    ensures Engine.Members(Engine.Ids(keys + [k])) == Engine.Members(Engine.Ids(keys)) + {k.id}
    ensures Elems(keys + [k]) == Elems(keys) + {k}
  {
    Engine.IdsConcat(keys, [k]);
    assert Engine.Members(Engine.Ids([k])) == {k.id};
  }

  /** A listed key not yet taken belongs to a row not yet claimed. */
  lemma Unclaimed(db: Db, queue: string, taken: seq<Key>, k: Key)
    requires RowsFiled(db.jobs)
    requires Elems(taken) <= WaitingKeys(db.jobs, queue) && k in WaitingKeys(db.jobs, queue) - Elems(taken)
    ensures k.id in db.jobs && KeyOf(db.jobs[k.id]) == k && k.id !in Engine.Members(Engine.Ids(taken))
  {
    Engine.IdsOf(taken, k.id);
  }

  /** How far a scan of `run` got: `taken` was claimed, `kept` passed over, the rest not looked at. */
  ghost predicate Scanned(db: Db, queue: string, locked: set<Id>, now: Time, run: seq<Key>, i: nat,
                          kept: seq<Key>, taken: seq<Key>)
  {
    && i <= |run|
    && Elems(run) == WaitingKeys(db.jobs, queue)
    && Elems(taken) <= Elems(run)
    && Admitted(run, db.jobs, locked, now) == taken + Admitted(run[i..], db.jobs, locked, now)
    && Sorted(kept + run[i..])
    && Elems(kept + run[i..]) == Elems(run) - Elems(taken)
  }

  lemma ScanStarts(db: Db, queue: string, locked: set<Id>, now: Time, run: seq<Key>)
    requires run == Ranked(WaitingKeys(db.jobs, queue))
    ensures Scanned(db, queue, locked, now, run, 0, [], [])
  {
    hide WaitingKeys, Ranked, Admitted, Sorted;
    RankedSorts(WaitingKeys(db.jobs, queue));
    assert run[0..] == run && [] + run == run;
    assert [] + Admitted(run, db.jobs, locked, now) == Admitted(run, db.jobs, locked, now);
  }

  lemma ScanEnds(db: Db, queue: string, locked: set<Id>, batch: nat, now: Time, run: seq<Key>, i: nat,
                 kept: seq<Key>, taken: seq<Key>)
    requires RowsFiled(db.jobs) && run == Ranked(WaitingKeys(db.jobs, queue))
    requires Scanned(db, queue, locked, now, run, i, kept, taken)
    requires |taken| <= batch && (i == |run| || |taken| == batch)
    ensures taken == Engine.FirstKeys(db, locked, queue, batch, now)
    ensures Elems(taken) <= WaitingKeys(db.jobs, queue)
    ensures Sorted(kept + run[i..])
    ensures Elems(kept + run[i..]) == WaitingKeys(db.jobs, queue) - Elems(taken)
  {
    hide WaitingKeys, Sorted, Engine.Claimable;
    ScanIsFilterSort(db, locked, queue, now);
    var due := Admitted(run, db.jobs, locked, now);
    assert due[..|taken|] == taken;
    assert i == |run| ==> due == taken;
  }

  lemma ScanStep(db: Db, queue: string, locked: set<Id>, now: Time, run: seq<Key>, i: nat,
                 kept: seq<Key>, taken: seq<Key>)
    requires RowsFiled(db.jobs) && i < |run| && Scanned(db, queue, locked, now, run, i, kept, taken)
    ensures var k := run[i];
            && k.id in db.jobs && k.id !in Engine.Members(Engine.Ids(taken))
            && if Admits(db.jobs, locked, now, k) then Scanned(db, queue, locked, now, run, i + 1, kept, taken + [k])
               else Scanned(db, queue, locked, now, run, i + 1, kept + [k], taken)
  {
    hide WaitingKeys, Sorted, Admitted;
    var k, left := run[i], kept + run[i..];
    assert left[|kept|] == k && k in Elems(left);
    Unclaimed(db, queue, taken, k);
    AdmittedStep(run, db.jobs, locked, now, i);
    if Admits(db.jobs, locked, now, k) {
      DropAt(left, |kept|);
      assert left[..|kept|] + left[|kept| + 1..] == kept + run[i + 1..];
      TakenMore(taken, k);
      assert (taken + [k]) + Admitted(run[i + 1..], db.jobs, locked, now)
             == taken + ([k] + Admitted(run[i + 1..], db.jobs, locked, now));
    } else {
      assert left == (kept + [k]) + run[i + 1..];
    }
  }

  lemma AdmittedStep(run: seq<Key>, jobs: map<Id, Job>, locked: set<Id>, now: Time, i: nat)
    requires i < |run|
    ensures Admitted(run[i..], jobs, locked, now)
            == (if Admits(jobs, locked, now, run[i]) then [run[i]] else []) + Admitted(run[i + 1..], jobs, locked, now)
  {
    assert run[i..][1..] == run[i + 1..];
  }

  /** Claiming listed rows takes exactly their keys out of the index. */
  lemma Reindexed(db: Db, queue: string, taken: seq<Key>, now: Time, name: string)
    requires RowsFiled(db.jobs) && Elems(taken) <= WaitingKeys(db.jobs, queue)
    ensures var after := Engine.Claimed(db, Engine.Members(Engine.Ids(taken)), now).jobs;
            WaitingKeys(after, name) ==
            if name == queue then WaitingKeys(db.jobs, name) - Elems(taken) else WaitingKeys(db.jobs, name)
  {
    hide WaitingKeys;
    var ids := Engine.Members(Engine.Ids(taken));
    var after := Engine.Claimed(db, ids, now).jobs;
    InWaiting(db.jobs, name);
    InWaiting(db.jobs, queue);
    InWaiting(after, name);
    forall k: Key | k.id in db.jobs && KeyOf(db.jobs[k.id]) == k
      ensures k in Elems(taken) <==> k.id in ids
    {
      Engine.IdsOf(taken, k.id);
    }
  }

  /** The table after expiring every overdue row outside `todo`. */
  ghost function ExpiredBut(db: Db, todo: set<Id>, now: Time): map<Id, Job> {
    map id | id in db.jobs ::
      if Overdue(db.jobs[id], now) && id !in todo then ExpireRow(db.jobs[id], now) else db.jobs[id]
  }

  lemma ExpiredNone(db: Db, todo: set<Id>, now: Time)
    requires forall id :: id in todo <==> id in db.jobs && Overdue(db.jobs[id], now)
    ensures ExpiredBut(db, todo, now) == db.jobs
  {
  }

  lemma StillOverdue(db: Db, todo: set<Id>, id: Id, now: Time)
    requires id in todo && id in db.jobs
    ensures id in ExpiredBut(db, todo, now) && ExpiredBut(db, todo, now)[id] == db.jobs[id]
  {
  }

  lemma ExpiredAll(db: Db, now: Time)
    ensures ExpiredBut(db, {}, now) == Engine.ExpireAll(db, now).jobs
  {
  }

  lemma ExpiredMore(db: Db, todo: set<Id>, id: Id, now: Time)
    requires id in todo && id in db.jobs && Overdue(db.jobs[id], now)
    ensures ExpiredBut(db, todo, now)[id := ExpireRow(db.jobs[id], now)] == ExpiredBut(db, todo - {id}, now)
  {
  }

  lemma TakenColumns(db: Db, locked: set<Id>, queue: string, batch: nat, now: Time, claimed: set<Id>)
    requires claimed == Engine.Members(Engine.FetchIds(db, locked, queue, batch, now))
    ensures var after := Engine.Fetch(db, locked, queue, batch, now).jobs;
            && after.Keys == db.jobs.Keys
            && (forall id | id in db.jobs && id in claimed ::
                  after[id] == db.jobs[id].(state := Active, startedOn := Some(now)))
            && (forall id | id in db.jobs && id !in claimed :: after[id] == db.jobs[id])
  {
    hide Engine.FetchIds;
    Columns.ClaimedColumns(db, locked, queue, batch, now);
  }

  class Table {
    var queues: map<string, Queue>
    var jobs: map<Id, Job>
    var index: map<string, seq<Key>>
    // every id ever drawn
    var issued: set<Id>

    ghost function State(): Db
      reads this
    {
      Db(queues, jobs, issued)
    }

    /** The primary key, the foreign key, the index, and that the queues of the rows can be notified. */
    ghost predicate Valid()
      reads this
    {
      && RowsFiled(jobs)
      && (forall id | id in jobs :: jobs[id].name in queues && id in issued && Notifiable(jobs[id].name))
      && Indexed(jobs, index)
    }

    constructor ()
      ensures Valid() && State() == EMPTY_DB
    {
      queues, jobs, index, issued := map[], map[], map[], {};
      new;
      forall name: string ensures Listing(index, name) == Ranked(WaitingKeys(jobs, name)) {
        assert WaitingKeys(jobs, name) == {};
      }
    }

    method CreateQueue(name: string, opts: Engine.QueueOptions, now: Time)
      requires Valid()
      modifies this`queues
      ensures Valid() && State() == Engine.CreateQueue(old(State()), name, opts, now)
    {
      if name !in queues {
        queues := queues[name := Engine.NewQueue(opts, now)];
      }
    }

    method DeleteQueue(name: string)
      requires Valid()
      modifies this`queues, this`jobs, this`index
      ensures Valid() && State() == Engine.DeleteQueue(old(State()), name)
    {
      ghost var before := jobs;
      queues := queues - {name};
      jobs := map id | id in jobs && jobs[id].name != name :: jobs[id];
      index := index - {name};
      assert jobs == before - RowsOf(before, name);
      forall other: string ensures Listing(index, other) == Ranked(WaitingKeys(jobs, other)) {
        WaitingDropped(before, name, other);
      }
    }

    /** Stores a row that becomes or stays waiting, and files its key. */
    method StoreWaiting(j: Job)
      requires Valid() && Waiting(j) && j.name in queues && j.id in issued && Notifiable(j.name)
      requires j.id in jobs ==> SameIdentity(jobs[j.id], j)
      modifies this`jobs, this`index
      ensures Valid() && jobs == old(jobs)[j.id := j]
    {
      hide WaitingKeys, Ranked;
      ghost var before := jobs;
      RankedSorts(WaitingKeys(jobs, j.name));
      var listing := InsertKey(Listing(index, j.name), KeyOf(j));
      jobs := jobs[j.id := j];
      index := index[j.name := listing];
      forall name: string ensures Listing(index, name) == Ranked(WaitingKeys(jobs, name)) {
        WaitingPut(before, j.id, j, name);
        if name == j.name {
          RankedIs(WaitingKeys(jobs, name), listing);
        }
      }
    }

    /** Rewrites a row that was not waiting and is not waiting now: the index is left alone. */
    method StoreSettled(j: Job)
      requires Valid() && j.id in jobs && SameIdentity(jobs[j.id], j)
      requires !Waiting(jobs[j.id]) && !Waiting(j)
      modifies this`jobs
      ensures Valid() && jobs == old(jobs)[j.id := j]
    {
      ghost var before := jobs;
      jobs := jobs[j.id := j];
      forall name: string ensures Listing(index, name) == Ranked(WaitingKeys(jobs, name)) {
        SettledPut(before, j, name);
      }
    }

    /** Rewrites a row that was waiting and no longer is, and takes its key out. */
    method StoreClaimed(j: Job)
      requires Valid() && j.id in jobs && SameIdentity(jobs[j.id], j)
      requires Waiting(jobs[j.id]) && !Waiting(j)
      modifies this`jobs, this`index
      ensures Valid() && jobs == old(jobs)[j.id := j]
    {
      hide WaitingKeys, Ranked;
      ghost var before := jobs;
      RankedSorts(WaitingKeys(jobs, j.name));
      var listing := RemoveKey(Listing(index, j.name), KeyOf(j));
      jobs := jobs[j.id := j];
      index := index[j.name := listing];
      forall name: string ensures Listing(index, name) == Ranked(WaitingKeys(jobs, name)) {
        WaitingPut(before, j.id, j, name);
        if name == j.name {
          RankedIs(WaitingKeys(jobs, name), listing);
        }
      }
    }

    method Send(id: Id, name: string, data: Option<Json>, opts: Engine.SendOptions, now: Time)
      returns (r: Result<Id, Engine.Error>)
      requires Valid() && id !in issued
      modifies this
      ensures Valid()
      ensures match Engine.Send(old(State()), id, name, data, opts, now)
              case Ok(job) => r == Ok(id) && State() == Engine.Sent(old(State()), job)
              case Err(e) => r == Err(e) && State() == old(State())
    {
      if name !in queues {
        return Err(Engine.UndefinedQueue);
      }
      match Engine.Enqueue(id, name, queues[name], data, opts, now)
      case Err(e) =>
        r := Err(e);
      case Ok(job) =>
        issued := issued + {id};
        StoreWaiting(job);
        r := Ok(id);
    }

    /** Scans the listing of a queue from its front, skipping rows not yet due and rows other sessions
        hold, and claims up to `batch` rows; `rest` is what stays listed. */
    method Scan(locked: set<Id>, queue: string, batch: nat, now: Time)
      returns (claimed: set<Id>, rest: seq<Key>, ghost taken: seq<Key>)
      requires Valid()
      modifies this`jobs
      ensures taken == Engine.FirstKeys(old(State()), locked, queue, batch, now)
      ensures claimed == Engine.Members(Engine.Ids(taken))
      ensures jobs == Engine.Claimed(old(State()), claimed, now).jobs
      ensures Elems(taken) <= WaitingKeys(old(jobs), queue)
      ensures Sorted(rest) && Elems(rest) == WaitingKeys(old(jobs), queue) - Elems(taken)
    {
      hide WaitingKeys, Ranked, Engine.Claimed, Engine.Claimable, Scanned;
      ghost var db := State();
      var run := Listing(index, queue);
      ScanStarts(db, queue, locked, now, run);
      var i, n := 0, 0;
      var kept: seq<Key> := [];
      claimed, taken := {}, [];
      ClaimedNone(db, now);
      while i < |run| && n < batch
        invariant 0 <= i <= |run| && n == |taken| <= batch
        invariant claimed == Engine.Members(Engine.Ids(taken))
        invariant jobs == Engine.Claimed(db, claimed, now).jobs
        invariant Scanned(db, queue, locked, now, run, i, kept, taken)
      {
        var k := run[i];
        ScanStep(db, queue, locked, now, run, i, kept, taken);
        ClaimedMore(db, claimed, k.id, now);
        if Admits(jobs, locked, now, k) {
          TakenMore(taken, k);
          jobs := jobs[k.id := ClaimRow(jobs[k.id], now)];
          claimed := claimed + {k.id};
          taken := taken + [k];
          n := n + 1;
        } else {
          kept := kept + [k];
        }
        i := i + 1;
      }
      rest := kept + run[i..];
      ScanEnds(db, queue, locked, batch, now, run, i, kept, taken);
    }

    /** Claims the first due rows no other session holds, and takes them out of the index. */
    method Fetch(locked: set<Id>, queue: string, batch: int, now: Time)
      returns (r: Result<set<Id>, Engine.Error>)
      requires Valid()
      modifies this`jobs, this`index
      ensures Valid()
      ensures batch < 0 ==> r == Err(Engine.NegativeLimit) && State() == old(State())
      ensures batch >= 0 ==>
                && r == Ok(Engine.Members(Engine.FetchIds(old(State()), locked, queue, batch, now)))
                && State() == Engine.Fetch(old(State()), locked, queue, batch, now)
      // on columns: rows that wait in the queue, are due, and are held by nobody
      ensures r.Ok? ==> |r.value| <= batch && forall id | id in r.value ::
                          && id in old(jobs) && id !in locked && old(jobs)[id].name == queue
                          && (old(jobs)[id].state == Created || old(jobs)[id].state == Retry)
                          && old(jobs)[id].startAfter <= now
                          && jobs[id] == old(jobs)[id].(state := Active, startedOn := Some(now))
      // such a row is left out only if the batch is full of rows of higher priority, or older, or of smaller id
      ensures r.Ok? ==> forall id | id in old(jobs) && id !in locked && id !in r.value && old(jobs)[id].name == queue
                                    && (old(jobs)[id].state == Created || old(jobs)[id].state == Retry)
                                    && old(jobs)[id].startAfter <= now ::
                          && |r.value| == batch
                          && forall c | c in r.value ::
                               || old(jobs)[c].priority > old(jobs)[id].priority
                               || (old(jobs)[c].priority == old(jobs)[id].priority
                                   && old(jobs)[c].createdOn < old(jobs)[id].createdOn)
                               || (old(jobs)[c].priority == old(jobs)[id].priority
                                   && old(jobs)[c].createdOn == old(jobs)[id].createdOn && c < id)
      ensures forall id | id in old(jobs) && (r.Err? || id !in r.value) :: id in jobs && jobs[id] == old(jobs)[id]
    {
      hide Engine.FetchIds, Engine.Fetch, Engine.Members, Indexed;
      if batch < 0 {
        return Err(Engine.NegativeLimit);
      }
      ghost var db := State();
      var claimed := Take(locked, queue, batch, now);
      Columns.BatchColumns(db, locked, queue, batch, now, claimed);
      TakenColumns(db, locked, queue, batch, now, claimed);
      r := Ok(claimed);
    }

    method Take(locked: set<Id>, queue: string, batch: nat, now: Time) returns (claimed: set<Id>)
      requires Valid()
      modifies this`jobs, this`index
      ensures Valid()
      ensures claimed == Engine.Members(Engine.FetchIds(old(State()), locked, queue, batch, now))
      ensures State() == Engine.Fetch(old(State()), locked, queue, batch, now)
    {
      ghost var db, index0 := State(), index;
      var rest;
      ghost var taken;
      claimed, rest, taken := Scan(locked, queue, batch, now);
      index := index[queue := rest];
      forall name: string ensures Listing(index, name) == Ranked(WaitingKeys(jobs, name)) {
        Reindexed(db, queue, taken, now, name);
        if name == queue {
          RankedIs(WaitingKeys(jobs, name), rest);
        } else {
          assert Listing(index, name) == Listing(index0, name);
        }
      }
    }

    method Complete(queue: string, id: Id, output: Option<Json>, now: Time) returns (done: bool)
      requires Valid()
      modifies this`jobs
      ensures Valid()
      ensures done == Engine.IsRunning(old(State()), queue, id)
      ensures State() == Engine.Finished(old(State()), queue, id, output, now)
    {
      done := id in jobs && Running(jobs[id], queue);
      if done {
        StoreSettled(CompleteRow(jobs[id], now, output));
      }
    }

    /** One more attempt, or the end of the job. Notifying the queue of a retry raises no error. */
    method Fail(queue: string, id: Id, output: Option<Json>, now: Time) returns (done: bool)
      requires Valid()
      modifies this`jobs, this`index
      ensures Valid()
      ensures done == Engine.IsRunning(old(State()), queue, id)
      ensures State() == Engine.Failed(old(State()), queue, id, output, now)
    {
      if id !in jobs || !Running(jobs[id], queue) {
        return false;
      }
      if jobs[id].retryCount < jobs[id].retryLimit {
        assert Notifiable(queue);
        StoreWaiting(FailRow(jobs[id], now, output));
      } else {
        StoreSettled(FailRow(jobs[id], now, output));
      }
      done := true;
    }

    method ExpireOne(id: Id, now: Time)
      requires Valid() && id in jobs && Overdue(jobs[id], now)
      modifies this`jobs, this`index
      ensures Valid() && jobs == old(jobs)[id := ExpireRow(old(jobs)[id], now)]
    {
      var row := ExpireRow(jobs[id], now);
      if Waiting(row) {
        StoreWaiting(row);
      } else {
        StoreSettled(row);
      }
    }

    /** Expires the overdue rows one by one, in no particular order. */
    method ExpireOverdue(now: Time)
      requires Valid()
      modifies this`jobs, this`index
      ensures Valid() && State() == Engine.ExpireAll(old(State()), now)
    {
      hide WaitingKeys, Ranked, Indexed, RowsFiled, ExpireRow, Overdue, ExpiredBut, Notifiable;
      ghost var db := State();
      var todo := set id | id in jobs && Overdue(jobs[id], now);
      ExpiredNone(db, todo, now);
      while todo != {}
        invariant Valid() && jobs == ExpiredBut(db, todo, now) && queues == db.queues && issued == db.issued
        invariant forall id | id in todo :: id in db.jobs && Overdue(db.jobs[id], now)
        decreases |todo|
      {
        var id :| id in todo;
        StillOverdue(db, todo, id, now);
        ExpireOne(id, now);
        ExpiredMore(db, todo, id, now);
        todo := todo - {id};
      }
      ExpiredAll(db, now);
    }

    method Maintain(now: Time)
      requires Valid()
      modifies this`jobs, this`index
      ensures Valid() && State() == Engine.Maintain(old(State()), now)
    {
      ExpireOverdue(now);
      Purge(now);
    }

    /** The effect of one operation of another session, if it has any. */
    method Act(op: Op)
      requires Valid()
      modifies this
      ensures Valid() && State() == Tried(old(State()), op)
    {
      match op
      case OpenQueue(name, q) =>
        if name !in queues {
          queues := queues[name := q];
        }
      case DropQueue(name) =>
        if name in queues {
          DeleteQueue(name);
        }
      case Insert(job) =>
        if job.name in queues && job.id !in issued && Newborn(job) && Notifiable(job.name) {
          issued := issued + {job.id};
          StoreWaiting(job);
        }
      case Claim(queue, id, now) =>
        if id in jobs && Due(jobs[id], queue, now) {
          StoreClaimed(ClaimRow(jobs[id], now));
        }
      case Complete(queue, id, now, output) =>
        var _ := Complete(queue, id, output, now);
      case Fail(queue, id, now, output) =>
        var _ := Fail(queue, id, output, now);
      case Expire(id, now) =>
        if id in jobs && Overdue(jobs[id], now) {
          ExpireOne(id, now);
        }
      case Purge(id, now) =>
        if id in jobs && Purgeable(jobs[id], now) {
          Forget(id);
        }
    }

    method Forget(id: Id)
      requires Valid() && id in jobs && !Waiting(jobs[id])
      modifies this`jobs
      ensures Valid() && jobs == old(jobs) - {id}
    {
      ghost var before := jobs;
      jobs := jobs - {id};
      forall name: string ensures WaitingKeys(jobs, name) == WaitingKeys(before, name) {
        InWaiting(before, name);
        InWaiting(jobs, name);
      }
    }

    /** Operations of other sessions, one after another. */
    method ActAll(ops: seq<Op>)
      requires Valid()
      modifies this
      ensures Valid() && State() == TriedAll(old(State()), ops)
    {
      hide Indexed, RowsFiled, Tried;
      var i := 0;
      while i < |ops|
        invariant 0 <= i <= |ops| && Valid()
        invariant State() == TriedAll(old(State()), ops[..i])
      {
        Act(ops[i]);
        assert ops[..i + 1][..i] == ops[..i];
        i := i + 1;
      }
      assert ops[..|ops|] == ops;
    }

    /** Retention: finished rows past keep_until go. None of them is indexed. */
    method Purge(now: Time)
      requires Valid()
      modifies this`jobs
      ensures Valid() && State() == Engine.PurgeAll(old(State()), now)
    {
      ghost var before := jobs;
      jobs := map id | id in jobs && !Purgeable(jobs[id], now) :: jobs[id];
      forall name: string ensures WaitingKeys(jobs, name) == WaitingKeys(before, name) {
        InWaiting(before, name);
        InWaiting(jobs, name);
      }
    }

    /** How many jobs of a queue still wait to be claimed. */
    method PendingCount(queue: string) returns (n: nat)
      requires Valid()
      ensures n == |set id | id in jobs && jobs[id].name == queue
                             && (jobs[id].state == Created || jobs[id].state == Retry)|
    {
      n := |Listing(index, queue)|;
      RankedSorts(WaitingKeys(jobs, queue));
      CountKeys(jobs, queue);
      assert WaitingIds(jobs, queue) == set id | id in jobs && jobs[id].name == queue
                                                 && (jobs[id].state == Created || jobs[id].state == Retry);
    }
  }

  lemma {:induction false} KeysOfIds(jobs: map<Id, Job>, ids: set<Id>)
    requires RowsFiled(jobs) && ids <= jobs.Keys
    ensures |set id | id in ids :: KeyOf(jobs[id])| == |ids|
    decreases |ids|
  {
    var keys := set id | id in ids :: KeyOf(jobs[id]);
    if ids != {} {
      var id :| id in ids;
      var rest := ids - {id};
      KeysOfIds(jobs, rest);
      var fewer := set i | i in rest :: KeyOf(jobs[i]);
      assert keys == fewer + {KeyOf(jobs[id])};
      assert KeyOf(jobs[id]) !in fewer;
    } else {
      assert keys == {};
    }
  }

  lemma CountKeys(jobs: map<Id, Job>, name: string)
    requires RowsFiled(jobs)
    ensures |WaitingKeys(jobs, name)| == |WaitingIds(jobs, name)|
  {
    var ids := WaitingIds(jobs, name);
    KeysOfIds(jobs, ids);
    assert WaitingKeys(jobs, name) == set id | id in ids :: KeyOf(jobs[id]);
  }
}
