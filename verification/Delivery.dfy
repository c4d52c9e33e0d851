/** What callers of the concurrent system are promised, over every interleaving. */
module Delivery {
  import opened Base
  import opened Jobs
  import opened Lifecycle
  import opened Ordering
  import opened Sessions
  import opened Serialization
  import Histories
  import Termination
  import Engine

  /** The committed database is what the committed operations produce one after another, each of them
      enabled when its turn comes. Nothing an open or aborted transaction did is in it. */
  lemma SerialRun(evs: seq<Event>)
    requires Execute(INIT, evs).Some?
    ensures var sys := Execute(INIT, evs).value;
            Run(EMPTY_DB, sys.trace) == Some(sys.db)
  {
    Reached(evs);
  }

  /** No row is ever held by two sessions, and a row is written only by the session that holds it. */
  lemma LocksAreExclusive(evs: seq<Event>, a: Sid, b: Sid, id: Id)
    requires Execute(INIT, evs).Some?
    requires var sys := Execute(INIT, evs).value;
             a in sys.txs && b in sys.txs && a != b && id in sys.txs[a].locks
    ensures var sys := Execute(INIT, evs).value;
            id !in sys.txs[b].locks && id !in sys.txs[b].writes
  {
    hide Run, Faithful;
    Reached(evs);
    var sys := Execute(INIT, evs).value;
    assert Apart(sys.txs[a], sys.txs[b]);
    TxGuarded(sys.db, sys.txs[b]);
  }

  /** Aborting leaves the committed data as it was and frees every row the session held. */
  lemma AbortLeavesNoTrace(evs: seq<Event>, s: Sid, id: Id)
    requires Execute(INIT, evs).Some? && s in Execute(INIT, evs).value.txs
    requires id in Execute(INIT, evs).value.txs[s].locks
    ensures Execute(INIT, evs + [Abort(s)]).Some?
    ensures var sys, after := Execute(INIT, evs).value, Execute(INIT, evs + [Abort(s)]).value;
            && after.db == sys.db && after.trace == sys.trace
            && forall o | o in after.txs :: id !in OthersOf(after, o).locks && id !in after.txs[o].locks
  {
    hide Run, TxOk;
    Reached(evs);
    assert (evs + [Abort(s)])[..|evs|] == evs;
    var sys := Execute(INIT, evs).value;
    assert forall o | o in sys.txs && o != s :: Apart(sys.txs[s], sys.txs[o]);
  }

  /** Exactly-once claims: two committed claims of a job are of different attempts. */
  lemma ClaimedOncePerAttempt(evs: seq<Event>, i: nat, j: nat, id: Id)
    requires Execute(INIT, evs).Some?
    requires var trace := Execute(INIT, evs).value.trace;
             && i < j < |trace|
             && trace[i].Claim? && trace[i].id == id && trace[j].Claim? && trace[j].id == id
    ensures var trace := Execute(INIT, evs).value.trace;
            && Run(EMPTY_DB, trace).Some?
            && Histories.Row(trace, i, id).Some? && Histories.Row(trace, j, id).Some?
            && Histories.Row(trace, i, id).value.retryCount < Histories.Row(trace, j, id).value.retryCount
  {
    SerialRun(evs);
    Histories.ClaimsAreDistinct(Execute(INIT, evs).value.trace, i, j, id);
  }

  /** The books of every job, in every reachable state of the system. */
  lemma CommittedBooks(evs: seq<Event>, id: Id)
    requires Execute(INIT, evs).Some?
    ensures var sys := Execute(INIT, evs).value;
            var c := Tally(sys.trace, id);
            && (id in sys.db.jobs ==>
                  var row := sys.db.jobs[id];
                  && RowOk(row) && row.id == id && row.name in sys.db.queues
                  && c.claims == row.retryCount
                       + (if row.state == Active || row.state == Completed || row.state == Failed then 1 else 0)
                  && c.claims == c.completes + c.fails + c.expiries + (if row.state == Active then 1 else 0))
            && (Born(sys.trace, id).Some? ==>
                  && c.claims <= Max(0, Born(sys.trace, id).value.retryLimit) + 1
                  && c.completes <= 1
                  && c.completes + c.fails + c.expiries <= c.claims <= c.completes + c.fails + c.expiries + 1)
  {
    SerialRun(evs);
    var sys := Execute(INIT, evs).value;
    if id in sys.db.jobs {
      Histories.Reachable(sys.trace, id);
      Histories.ClaimLedger(sys.trace, id);
    }
    if Born(sys.trace, id).Some? {
      Histories.DeliveryBound(sys.trace, id);
    }
  }

  /** A committed job stays with its identity, unless its queue is dropped or it is purged. */
  lemma CommittedJobsAreKept(evs: seq<Event>, k: nat)
    requires Execute(INIT, evs).Some?
    requires k < |Execute(INIT, evs).value.trace| && Execute(INIT, evs).value.trace[k].Insert?
    ensures var sys := Execute(INIT, evs).value;
            var job := sys.trace[k].job;
            && Run(EMPTY_DB, sys.trace).Some?
            && match RowAt(sys.db, job.id)
               case Some(row) =>
                 SameIdentity(job, row)
                 && !exists r | k < r < |sys.trace| :: Histories.Removes(sys.trace, r, job.id)
               case None => exists r | k < r < |sys.trace| :: Histories.Removes(sys.trace, r, job.id)
  {
    SerialRun(evs);
    var trace := Execute(INIT, evs).value.trace;
    Histories.JobConservation(trace, k, |trace|);
    assert trace[..|trace|] == trace;
  }

  /** A finished row in the committed history never changes again. */
  lemma CommittedOutcomesAreFinal(evs: seq<Event>, m: nat, n: nat, id: Id)
    requires Execute(INIT, evs).Some? && Run(EMPTY_DB, Execute(INIT, evs).value.trace).Some?
    requires var trace := Execute(INIT, evs).value.trace;
             && m <= n <= |trace|
             && Histories.Row(trace, m, id).Some? && Terminal(Histories.Row(trace, m, id).value)
    ensures var trace := Execute(INIT, evs).value.trace;
            Histories.Row(trace, n, id).Some? ==> Histories.Row(trace, n, id) == Histories.Row(trace, m, id)
  {
    Histories.TerminalIsFinal(Execute(INIT, evs).value.trace, m, n, id);
  }

  /** Consecutive committed claims of a job keep retry_delay, and expire_seconds after an expiry. */
  lemma CommittedRetriesAreSpaced(evs: seq<Event>, i: nat, j: nat, id: Id)
    requires Execute(INIT, evs).Some?
    requires var trace := Execute(INIT, evs).value.trace;
             && i < j < |trace| && Histories.Claims(trace[i], id) && Histories.Claims(trace[j], id)
             && forall m | i < m < j :: !Histories.Claims(trace[m], id)
    ensures var trace := Execute(INIT, evs).value.trace;
            && Run(EMPTY_DB, trace).Some? && Histories.Row(trace, i, id).Some?
            && var row := Histories.Row(trace, i, id).value;
               exists k | i < k < j ::
                 && Histories.Ends(trace[k], id)
                 && trace[j].now >= trace[k].now + row.retryDelay * SECOND
                 && (trace[k].Expire? ==>
                       trace[j].now > trace[i].now + row.expireSeconds * SECOND + row.retryDelay * SECOND)
  {
    SerialRun(evs);
    Histories.RetrySpacing(Execute(INIT, evs).value.trace, i, j, id);
  }

  /** However sessions interleave, the work committed stays within the allowance of the jobs sent. */
  lemma CommittedWorkIsBounded(evs: seq<Event>)
    requires Execute(INIT, evs).Some?
    ensures var trace := Execute(INIT, evs).value.trace;
            Termination.Worked(trace) <= Termination.Allowance(trace)
  {
    SerialRun(evs);
    Termination.WorkIsBounded(Execute(INIT, evs).value.trace);
  }

  // ---------------------------------------------------------------------------
  // A fetch that nobody interrupts is the fetch of module Engine
  // ---------------------------------------------------------------------------

  ghost function FetchLoop(db: Db, tx: Tx, others: Others): Tx
    requires tx.stmt == Idle || (tx.stmt.Fetching? && tx.stmt.room > 0 && tx.stmt.rows != [])
    decreases if tx.stmt.Fetching? then |tx.stmt.rows| else 0
  {
    if tx.stmt == Idle then tx else FetchLoop(db, FetchRow(db, tx, others), others)
  }

  /** The rows such a loop claims: the first `room` that nobody else holds. */
  function TakeFree(rows: seq<Id>, held: set<Id>, room: nat): seq<Id> {
    if room == 0 || rows == [] then []
    else if rows[0] in held then TakeFree(rows[1..], held, room)
    else [rows[0]] + TakeFree(rows[1..], held, room - 1)
  }

  lemma {:induction false} OpsOverCons(id: Id, rest: seq<Id>, mk: Id -> Op)
    ensures Engine.OpsOver([id] + rest, mk) == [mk(id)] + Engine.OpsOver(rest, mk)
    decreases |rest|
  {
    if rest == [] {
      assert [id] + rest == [id];
      assert [id][..0] == [];
    } else {
      OpsOverCons(id, rest[..|rest| - 1], mk);
      assert ([id] + rest)[..|rest|] == [id] + rest[..|rest| - 1];
    }
  }

  ghost predicate Ready(db: Db, tx: Tx, queue: string, rows: seq<Id>) {
    && Engine.Distinct(rows)
    && forall i | 0 <= i < |rows| ::
         Visible(db, tx, rows[i]).Some? && Due(Visible(db, tx, rows[i]).value, queue, tx.now)
  }

  lemma SkipsFirst(db: Db, tx: Tx, others: Others, queue: string, room: nat, rows: seq<Id>)
    requires tx.stmt == Fetching(queue, room, rows) && room > 0 && rows != [] && Ready(db, tx, queue, rows)
    requires rows[0] in others.locks
    ensures var next := FetchRow(db, tx, others);
            && next.stmt == Resume(queue, room, rows[1..]) && next.now == tx.now && next.log == tx.log
            && Ready(db, next, queue, rows[1..])
  {
  }

  /** A row nobody holds is claimed, and the rows after it are still as the scan found them. */
  lemma TakesFirst(db: Db, tx: Tx, others: Others, queue: string, room: nat, rows: seq<Id>)
    requires tx.stmt == Fetching(queue, room, rows) && room > 0 && rows != [] && Ready(db, tx, queue, rows)
    requires rows[0] !in others.locks
    ensures var next := FetchRow(db, tx, others);
            && next.stmt == Resume(queue, room - 1, rows[1..]) && next.now == tx.now
            && next.log == tx.log + [Claim(queue, rows[0], tx.now)]
            && Ready(db, next, queue, rows[1..])
  {
    var id, next := rows[0], FetchRow(db, tx, others);
    var op := Claim(queue, id, tx.now);
    assert next == Write(tx, id, RowAfter(Visible(db, tx, id), op, id), op)
                     .(stmt := Resume(queue, room - 1, rows[1..]));
    forall i | 0 <= i < |rows| - 1 ensures rows[1..][i] != id {
      assert rows[i + 1] != rows[0];
    }
  }

  lemma {:induction false} FetchLoopClaims(db: Db, tx: Tx, others: Others, queue: string, room: nat, rows: seq<Id>)
    requires tx.stmt == Resume(queue, room, rows) && Ready(db, tx, queue, rows)
    ensures var tx' := FetchLoop(db, tx, others);
            && tx'.log == tx.log + Engine.OpsOver(TakeFree(rows, others.locks, room), Engine.Claiming(queue, tx.now))
            && tx'.stmt == Idle && tx'.now == tx.now
    decreases |rows|
  {
    hide Ready, FetchRow, Visible;
    if tx.stmt != Idle {
      var next := FetchRow(db, tx, others);
      var id := rows[0];
      if id in others.locks {
        SkipsFirst(db, tx, others, queue, room, rows);
        FetchLoopClaims(db, next, others, queue, room, rows[1..]);
      } else {
        TakesFirst(db, tx, others, queue, room, rows);
        FetchLoopClaims(db, next, others, queue, room - 1, rows[1..]);
        OpsOverCons(id, TakeFree(rows[1..], others.locks, room - 1), Engine.Claiming(queue, tx.now));
      }
    }
  }

  function Free(keys: seq<Key>, held: set<Id>): seq<Key> {
    if keys == [] then []
    else (if keys[0].id in held then [] else [keys[0]]) + Free(keys[1..], held)
  }

  lemma {:induction false} FreeKeys(keys: seq<Key>, held: set<Id>)
    requires Sorted(keys)
    ensures Sorted(Free(keys, held))
    ensures forall k :: k in Elems(Free(keys, held)) <==> k in Elems(keys) && k.id !in held
    decreases |keys|
  {
    if keys != [] {
      FreeKeys(keys[1..], held);
      assert keys == [keys[0]] + keys[1..];
      var rest := Free(keys[1..], held);
      forall i | 0 <= i < |rest| ensures Before(keys[0], rest[i]) {
        assert rest[i] in Elems(rest);
      }
      assert forall k :: k in Elems(keys) <==> k == keys[0] || k in Elems(keys[1..]);
    }
  }

  lemma UpToCons(k: Key, rest: seq<Key>, room: nat)
    requires room > 0
    ensures Engine.UpTo([k] + rest, room) == [k] + Engine.UpTo(rest, room - 1)
  {
  }

  lemma {:induction false} TakeFreeIds(keys: seq<Key>, held: set<Id>, room: nat)
    ensures TakeFree(Engine.Ids(keys), held, room) == Engine.Ids(Engine.UpTo(Free(keys, held), room))
    decreases |keys|
  {
    hide Engine.Ids, Engine.UpTo;
    if keys == [] || room == 0 {
      IdsOfNone();
      UpToNone(Free(keys, held), room);
    } else {
      var rest := Free(keys[1..], held);
      IdsCons(keys);
      assert Engine.Ids(keys)[1..] == Engine.Ids(keys[1..]);
      if keys[0].id in held {
        assert Free(keys, held) == rest;
        TakeFreeIds(keys[1..], held, room);
      } else {
        TakeFreeIds(keys[1..], held, room - 1);
        UpToCons(keys[0], rest, room);
        IdsCons([keys[0]] + Engine.UpTo(rest, room - 1));
      }
    }
  }

  lemma UpToNone(keys: seq<Key>, room: nat)
    requires keys == [] || room == 0
    ensures Engine.UpTo(keys, room) == []
  {
  }

  lemma IdsCons(keys: seq<Key>)
    requires keys != []
    ensures Engine.Ids(keys) == [keys[0].id] + Engine.Ids(keys[1..])
  {
  }

  lemma IdsOfNone()
    ensures Engine.Ids([]) == []
  {
  }

  /** Skipping held rows of the ordered scan is fetching in order among the rows nobody holds. */
  lemma SkipLockedIsFetch(db: Db, held: set<Id>, queue: string, batch: nat, now: Time)
    requires Engine.Keyed(db)
    ensures TakeFree(Engine.Ids(Ranked(Engine.Claimable(db, {}, queue, now))), held, batch)
            == Engine.FetchIds(db, held, queue, batch, now)
  {
    var all, claimable := Engine.Claimable(db, {}, queue, now), Engine.Claimable(db, held, queue, now);
    RankedSorts(all);
    FreeKeys(Ranked(all), held);
    forall k ensures k in Elems(Free(Ranked(all), held)) <==> k in claimable {
      if k in all && k.id !in held {
        assert k == KeyOf(db.jobs[k.id]);
      }
    }
    RankedIs(claimable, Free(Ranked(all), held));
    TakeFreeIds(Ranked(all), held, batch);
  }

  /** What an open transaction sees is itself the end of a serial run: its log after the committed ones. */
  lemma ViewIsSerial(sys: Sys, s: Sid)
    requires Inv(sys) && s in sys.txs
    ensures Run(EMPTY_DB, sys.trace + sys.txs[s].log) == Some(View(sys.db, sys.txs[s]))
    ensures Engine.Keyed(View(sys.db, sys.txs[s]))
  {
    hide View;
    CommitReplays(sys.db, sys.txs[s]);
    RunConcat(EMPTY_DB, sys.trace, sys.txs[s].log);
    Histories.AllRegistered(sys.trace + sys.txs[s].log);
  }

  lemma ScanReady(db: Db, tx: Tx, queue: string)
    requires Engine.Keyed(View(db, tx))
    ensures Ready(db, tx, queue, Engine.Ids(Ranked(Engine.Claimable(View(db, tx), {}, queue, tx.now))))
  {
    var view := View(db, tx);
    hide View, Engine.Claimable, Ranked, Sorted, Elems, Due, Visible;
    var all := Ranked(Engine.Claimable(view, {}, queue, tx.now));
    RankedSorts(Engine.Claimable(view, {}, queue, tx.now));
    assert all[..|all|] == all;
    Engine.FetchIdsAreClaimable(view, {}, queue, |all|, tx.now);
    var rows := Engine.FetchIds(view, {}, queue, |all|, tx.now);
    assert rows == Engine.Ids(all);
    forall i | 0 <= i < |rows|
      ensures Visible(db, tx, rows[i]).Some? && Due(Visible(db, tx, rows[i]).value, queue, tx.now)
    {
      ViewRows(db, tx, rows[i]);
      assert RowAt(view, rows[i]) == Some(view.jobs[rows[i]]);
    }
  }

  /** What the transaction holds after fetching without interruption. */
  ghost function Fetched(db: Db, tx: Tx, others: Others, queue: string, batch: nat): Tx {
    var rows := Engine.Ids(Ranked(Engine.Claimable(View(db, tx), {}, queue, tx.now)));
    FetchLoop(db, tx.(stmt := Resume(queue, batch, rows)), others)
  }

  lemma FetchedLog(db: Db, tx: Tx, others: Others, queue: string, batch: nat)
    requires Engine.Keyed(View(db, tx))
    ensures var ids := Engine.FetchIds(View(db, tx), others.locks, queue, batch, tx.now);
            && Fetched(db, tx, others, queue, batch).log
               == tx.log + Engine.OpsOver(ids, Engine.Claiming(queue, tx.now))
            && Fetched(db, tx, others, queue, batch).stmt == Idle
  {
    var rows := Engine.Ids(Ranked(Engine.Claimable(View(db, tx), {}, queue, tx.now)));
    hide View, Engine.Claimable;
    ScanReady(db, tx, queue);
    var scanned := tx.(stmt := Resume(queue, batch, rows));
    assert Ready(db, scanned, queue, rows);
    FetchLoopClaims(db, scanned, others, queue, batch, rows);
    SkipLockedIsFetch(View(db, tx), others.locks, queue, batch, tx.now);
  }

  // ---- the loop as events of the system ----

  /** `sys` with a later transaction of session `s`. */
  function With(sys: Sys, s: Sid, tx: Tx): Sys {
    sys.(txs := sys.txs[s := tx], drawn := sys.drawn + tx.inserted)
  }

  lemma OthersStay(sys: Sys, s: Sid, tx: Tx)
    requires s in sys.txs
    ensures OthersOf(With(sys, s, tx), s) == OthersOf(sys, s)
  {
    var after := With(sys, s, tx);
    assert forall o | o != s :: (o in after.txs <==> o in sys.txs) && (o in sys.txs ==> after.txs[o] == sys.txs[o]);
    assert OthersOf(after, s).locks == OthersOf(sys, s).locks;
    assert OthersOf(after, s).shares == OthersOf(sys, s).shares;
    assert OthersOf(after, s).owns == OthersOf(sys, s).owns;
  }

  lemma NextIsAStep(sys: Sys, s: Sid)
    requires s in sys.txs && sys.txs[s].stmt.Fetching? && sys.txs[s].stmt.room > 0 && sys.txs[s].stmt.rows != []
    ensures Step(sys, Do(s, FetchNext)) == Some(With(sys, s, FetchRow(sys.db, sys.txs[s], OthersOf(sys, s))))
    ensures FetchRow(sys.db, sys.txs[s], OthersOf(sys, s)).inserted == sys.txs[s].inserted
  {
    hide OthersOf;
  }

  lemma {:induction false} LoopIsARun(sys: Sys, s: Sid)
    requires s in sys.txs && sys.txs[s].inserted <= sys.drawn
    requires var stmt := sys.txs[s].stmt; stmt == Idle || (stmt.Fetching? && stmt.room > 0 && stmt.rows != [])
    ensures LeadsTo(sys, With(sys, s, FetchLoop(sys.db, sys.txs[s], OthersOf(sys, s))))
    decreases if sys.txs[s].stmt.Fetching? then |sys.txs[s].stmt.rows| else 0
  {
    hide OthersOf, Step, FetchRow;
    var tx := sys.txs[s];
    if tx.stmt == Idle {
      assert With(sys, s, tx) == sys;
      assert Execute(sys, []) == Some(sys);
    } else {
      NextIsAStep(sys, s);
      var tx' := FetchRow(sys.db, tx, OthersOf(sys, s));
      NextRow(sys.db, tx, OthersOf(sys, s));
      var mid := With(sys, s, tx');
      OthersStay(sys, s, tx');
      LoopIsARun(mid, s);
      LoopKeepsInserted(sys.db, tx', OthersOf(sys, s));
      var end := FetchLoop(sys.db, tx', OthersOf(sys, s));
      assert With(mid, s, end) == With(sys, s, end);
      StepLeads(sys, Do(s, FetchNext));
      LeadsOn(sys, mid, With(sys, s, end));
    }
  }

  lemma NextRow(db: Db, tx: Tx, others: Others)
    requires tx.stmt.Fetching? && tx.stmt.room > 0 && tx.stmt.rows != []
    ensures var stmt := FetchRow(db, tx, others).stmt;
            stmt == Idle || (stmt.Fetching? && stmt.room > 0 && stmt.rows != [] && |stmt.rows| < |tx.stmt.rows|)
  {
  }

  lemma {:induction false} LoopKeepsInserted(db: Db, tx: Tx, others: Others)
    requires tx.stmt == Idle || (tx.stmt.Fetching? && tx.stmt.room > 0 && tx.stmt.rows != [])
    ensures FetchLoop(db, tx, others).inserted == tx.inserted
    decreases if tx.stmt.Fetching? then |tx.stmt.rows| else 0
  {
    if tx.stmt != Idle {
      LoopKeepsInserted(db, FetchRow(db, tx, others), others);
    }
  }

  /** The scan and the row visits are steps that session `s` can take one after the other. */
  lemma FetchIsARun(sys: Sys, s: Sid, queue: string, batch: nat)
    requires s in sys.txs && sys.txs[s].stmt == Idle
    ensures var fetched := Fetched(sys.db, sys.txs[s], OthersOf(sys, s), queue, batch);
            LeadsTo(sys, With(sys, s, fetched)) && fetched.inserted == sys.txs[s].inserted
  {
    hide OthersOf, FetchLoop, View;
    var tx, others := sys.txs[s], OthersOf(sys, s);
    var rows := Engine.Ids(Ranked(Engine.Claimable(View(sys.db, tx), {}, queue, tx.now)));
    var scanned := tx.(stmt := Resume(queue, batch, rows));
    assert Step(sys, Do(s, FetchScan(queue, batch))) == Some(With(sys, s, scanned));
    OthersStay(sys, s, scanned);
    LoopIsARun(With(sys, s, scanned), s);
    LoopKeepsInserted(sys.db, scanned, others);
    var fetched := FetchLoop(sys.db, scanned, others);
    assert With(With(sys, s, scanned), s, fetched) == With(sys, s, fetched);
    StepLeads(sys, Do(s, FetchScan(queue, batch)));
    LeadsOn(sys, With(sys, s, scanned), With(sys, s, fetched));
  }

  /** A fetch statement that runs without interruption claims, of the rows no other session holds,
      exactly the first due ones; replaying what it logged is the atomic fetch. */
  lemma FetchStatement(evs: seq<Event>, s: Sid, queue: string, batch: nat)
    requires Execute(INIT, evs).Some? && s in Execute(INIT, evs).value.txs
    requires Execute(INIT, evs).value.txs[s].stmt == Idle
    ensures var sys := Execute(INIT, evs).value;
            var tx, others := sys.txs[s], OthersOf(sys, s);
            var view := View(sys.db, tx);
            var claims := Engine.OpsOver(Engine.FetchIds(view, others.locks, queue, batch, tx.now),
                                         Engine.Claiming(queue, tx.now));
            && LeadsTo(sys, With(sys, s, Fetched(sys.db, tx, others, queue, batch)))
            && Fetched(sys.db, tx, others, queue, batch).log == tx.log + claims
            && Fetched(sys.db, tx, others, queue, batch).stmt == Idle
            && Run(view, claims) == Some(Engine.Fetch(view, others.locks, queue, batch, tx.now))
  {
    Reached(evs);
    var sys := Execute(INIT, evs).value;
    ViewIsSerial(sys, s);
    hide View, Inv, Engine.Fetch, Engine.FetchIds, Fetched, OthersOf, Execute, Run, LeadsTo;
    FetchIsARun(sys, s, queue, batch);
    FetchedLog(sys.db, sys.txs[s], OthersOf(sys, s), queue, batch);
    Engine.FetchRuns(View(sys.db, sys.txs[s]), OthersOf(sys, s).locks, queue, batch, sys.txs[s].now);
  }
}
