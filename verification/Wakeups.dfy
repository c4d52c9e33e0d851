/**
 Push consumers: `Work` listens, drains its queue one job at a time, then sleeps until a notification.
 Workers are sessions of the concurrent system; notifications arrive when a transaction commits.
 */
module Wakeups {
  import opened Base
  import opened Json
  import opened Jobs
  import opened Lifecycle
  import opened Sessions
  import opened Serialization
  import opened Channels
  import Engine
  import Ordering
  import Histories

  /** Where `Work` stands. A worker has a transaction open from Begun to the end of its fetch,
      and again while it reports an outcome. */
  datatype Phase = Starting | Draining | Begun | Scanned | Handling | Sleeping

  /**
   `inbox` counts notifications not yet waited for. The three sets say why a due job may be left behind:
   `skipped` rows were held by another session when the last fetch came by and still are; `stranded` rows
   were, and their holder ended without changing them; `putBack` rows were put back by maintenance since
   that fetch looked.
   */
  datatype Worker = Worker(
    queue: string,
    phase: Phase,
    inbox: nat,
    seen: Time,
    skipped: set<Id>,
    stranded: set<Id>,
    putBack: set<Id>)

  datatype World = World(sys: Sys, workers: map<Sid, Worker>, md5: string -> string)

  datatype Move =
    | Outside(ev: Event)
    | Hire(w: Sid, queue: string)
    | Listen(w: Sid)
    | Work(w: Sid, ev: Event)
    | Wake(w: Sid)

  // ---- what a committed or aborted transaction means to a worker ----

  /** How many of the notifications sent reach a listener of `queue`. */
  function Heard(md5: string -> string, queue: string, notes: seq<string>): nat {
    if notes == [] then 0
    else (if BossChannel(md5, notes[|notes| - 1]) == ClientChannel(md5, queue) then 1 else 0)
         + Heard(md5, queue, notes[..|notes| - 1])
  }

  function Expired(log: seq<Op>): set<Id> {
    set k | 0 <= k < |log| && log[k].Expire? :: log[k].id
  }

  /** The rows a transaction leaves waiting without having said so: maintenance put them back. */
  function PutBackBy(tx: Tx): set<Id> {
    set id | id in Expired(tx.log) && id in tx.writes && tx.writes[id].Some? && Waiting(tx.writes[id].value)
  }

  function AfterCommit(md5: string -> string, w: Worker, tx: Tx): Worker {
    w.(inbox := if w.phase == Starting then w.inbox else w.inbox + Heard(md5, w.queue, tx.notes),
       stranded := (w.stranded - tx.writes.Keys) + w.skipped * (tx.locks - tx.writes.Keys),
       skipped := w.skipped - tx.locks,
       putBack := (w.putBack - tx.writes.Keys) + PutBackBy(tx))
  }

  function AfterAbort(w: Worker, tx: Tx): Worker {
    w.(stranded := w.stranded + w.skipped * tx.locks, skipped := w.skipped - tx.locks)
  }

  function Observe(md5: string -> string, w: Worker, sys: Sys, ev: Event): Worker {
    match ev
    case Commit(s) => if s in sys.txs then AfterCommit(md5, w, sys.txs[s]) else w
    case Abort(s) => if s in sys.txs then AfterAbort(w, sys.txs[s]) else w
    case _ => w
  }

  /** What `Work` does next; `tx` is the transaction the worker has open, if any. */
  function Advance(w: Worker, tx: Option<Tx>, others: Others, ev: Event): Option<Worker> {
    match (w.phase, ev)
    case (Draining, Begin(_)) => Some(w.(phase := Begun))
    case (Begun, Do(_, FetchScan(queue, batch))) =>
      if queue == w.queue && batch == 1 then
        Some(w.(phase := Scanned, skipped := {}, stranded := {}, putBack := {}))
      else None
    case (Scanned, Do(_, FetchNext)) =>
      if tx.Some? && tx.value.stmt.Fetching? && tx.value.stmt.rows != []
         && tx.value.stmt.rows[0] in others.locks
      then Some(w.(skipped := w.skipped + {tx.value.stmt.rows[0]}))
      else Some(w)
    case (Scanned, Commit(_)) =>
      if tx.None? then None
      else if tx.value.log == [] then Some(w.(phase := Sleeping, seen := tx.value.now))
      else Some(w.(phase := Handling))
    case (Handling, Begin(_)) => Some(w)
    case (Handling, Do(_, CompleteScan(queue, _, _))) => if queue == w.queue then Some(w) else None
    case (Handling, Do(_, FailScan(queue, _, _))) => if queue == w.queue then Some(w) else None
    case (Handling, Do(_, OutcomeRow)) => Some(w)
    case (Handling, Commit(_)) => Some(w.(phase := Draining))
    case _ => None
  }

  function SessionOf(ev: Event): Option<Sid> {
    match ev
    case Tick(_) => None
    case Begin(s) => Some(s)
    case Do(s, _) => Some(s)
    case Commit(s) => Some(s)
    case Abort(s) => Some(s)
  }

  function TxOf(sys: Sys, s: Sid): Option<Tx> {
    if s in sys.txs then Some(sys.txs[s]) else None
  }

  ghost function Next(world: World, move: Move): Option<World> {
    match move
    case Hire(w, queue) =>
      if w in world.workers || w in world.sys.txs then None
      else Some(world.(workers := world.workers[w := Worker(queue, Starting, 0, 0, {}, {}, {})]))
    case Listen(w) =>
      if w !in world.workers || world.workers[w].phase != Starting then None
      else Some(world.(workers := world.workers[w := world.workers[w].(phase := Draining)]))
    case Wake(w) =>
      if w !in world.workers || world.workers[w].phase != Sleeping || world.workers[w].inbox == 0 then None
      else Some(world.(workers := world.workers[w := world.workers[w].(phase := Draining,
                                                                      inbox := world.workers[w].inbox - 1)]))
    case Outside(ev) =>
      if SessionOf(ev).Some? && SessionOf(ev).value in world.workers then None
      else (match Step(world.sys, ev)
            case None => None
            case Some(sys') =>
              Some(World(sys', map w | w in world.workers :: Observe(world.md5, world.workers[w], world.sys, ev),
                         world.md5)))
    case Work(w, ev) =>
      if SessionOf(ev) != Some(w) || w !in world.workers then None
      else (match (Step(world.sys, ev),
                   Advance(world.workers[w], TxOf(world.sys, w), OthersOf(world.sys, w), ev))
            case (Some(sys'), Some(next)) =>
              Some(World(sys',
                         map o | o in world.workers ::
                           Observe(world.md5, if o == w then next else world.workers[o], world.sys, ev),
                         world.md5))
            case _ => None)
  }

  ghost function Play(world: World, moves: seq<Move>): Option<World> {
    if moves == [] then Some(world)
    else
      match Play(world, moves[..|moves| - 1])
      case None => None
      case Some(before) => Next(before, moves[|moves| - 1])
  }

  // ---------------------------------------------------------------------------
  // Whatever becomes claimable is announced, or was put back by maintenance
  // ---------------------------------------------------------------------------

  /** A waiting row that a transaction wrote is announced to its queue, or comes from maintenance. */
  ghost predicate Announced(tx: Tx) {
    forall id | id in tx.writes && tx.writes[id].Some? && Waiting(tx.writes[id].value) ::
      tx.writes[id].value.name in tx.notes || id in Expired(tx.log)
  }

  lemma ExpiredSnoc(log: seq<Op>, op: Op)
    ensures Expired(log + [op]) == Expired(log) + (if op.Expire? then {op.id} else {})
  {
    forall id ensures id in Expired(log + [op]) <==> id in Expired(log) || (op.Expire? && op.id == id) {
      if id in Expired(log) {
        var k :| 0 <= k < |log| && log[k].Expire? && log[k].id == id;
        assert (log + [op])[k] == log[k];
      }
      if op.Expire? && op.id == id {
        assert (log + [op])[|log|] == op;
      }
    }
  }

  lemma VisitAnnounced(db: Db, tx: Tx, id: Id, op: Op)
    requires Announced(tx) && OnRow(op, id) && !op.Fail?
    ensures Announced(Visit(db, tx, id, op))
  {
    ExpiredSnoc(tx.log, op);
  }

  lemma FailAnnounced(db: Db, tx: Tx, queue: string, id: Id, output: Option<Json>)
    requires Announced(tx)
    ensures Announced(FailVisit(db, tx, queue, id, output))
  {
    ExpiredSnoc(tx.log, Fail(queue, id, tx.now, output));
    var tx' := FailVisit(db, tx, queue, id, output);
    assert forall name | name in tx.notes :: name in tx'.notes;
    assert queue in (tx.notes + [queue]);
  }

  lemma InsertAnnounced(tx: Tx, job: Job)
    requires Announced(tx)
    ensures Announced(Inserted(tx, job))
  {
    ExpiredSnoc(tx.log, Insert(job));
    assert job.name in tx.notes + [job.name];
  }

  lemma DropAnnounced(db: Db, tx: Tx, name: string)
    requires Announced(tx)
    ensures Announced(DropAll(db, tx, name))
  {
    ExpiredSnoc(tx.log, DropQueue(name));
  }

  lemma ActAnnounced(db: Db, drawn: set<Id>, tx: Tx, others: Others, a: Action)
    requires Announced(tx) && Act(db, drawn, tx, others, a).Some?
    ensures Announced(Act(db, drawn, tx, others, a).value)
    ensures tx.locks <= Act(db, drawn, tx, others, a).value.locks
  {
    hide View, Visit, FailVisit, DropAll;
    match a
    case CreateQueue(name, defaults) => ExpiredSnoc(tx.log, OpenQueue(name, Engine.NewQueue(defaults, tx.now)));
    case DropDone => DropAnnounced(db, tx, tx.stmt.name); DropKeepsLocks(db, tx, tx.stmt.name);
    case SendInsert(id) =>
      InsertAnnounced(tx, Engine.Enqueue(id, tx.stmt.name, tx.stmt.q, tx.stmt.data, tx.stmt.opts, tx.now).value);
    case FetchNext =>
      VisitAnnounced(db, tx, tx.stmt.rows[0], Claim(tx.stmt.queue, tx.stmt.rows[0], tx.now));
      VisitKeepsLocks(db, tx, tx.stmt.rows[0], Claim(tx.stmt.queue, tx.stmt.rows[0], tx.now));
    case OutcomeRow =>
      VisitAnnounced(db, tx, tx.stmt.id, Complete(tx.stmt.queue, tx.stmt.id, tx.now, tx.stmt.output));
      VisitKeepsLocks(db, tx, tx.stmt.id, Complete(tx.stmt.queue, tx.stmt.id, tx.now, tx.stmt.output));
      FailAnnounced(db, tx, tx.stmt.queue, tx.stmt.id, tx.stmt.output);
      FailKeepsLocks(db, tx, tx.stmt.queue, tx.stmt.id, tx.stmt.output);
    case ExpireNext(id) =>
      VisitAnnounced(db, tx, id, Expire(id, tx.now));
      VisitKeepsLocks(db, tx, id, Expire(id, tx.now));
    case PurgeNext(id) => VisitAnnounced(db, tx, id, Purge(id, tx.now)); VisitKeepsLocks(db, tx, id, Purge(id, tx.now));
    case _ =>
  }

  lemma VisitKeepsLocks(db: Db, tx: Tx, id: Id, op: Op)
    ensures tx.locks <= Visit(db, tx, id, op).locks
  {
  }

  lemma FailKeepsLocks(db: Db, tx: Tx, queue: string, id: Id, output: Option<Json>)
    ensures tx.locks <= FailVisit(db, tx, queue, id, output).locks
  {
  }

  lemma DropKeepsLocks(db: Db, tx: Tx, name: string)
    ensures DropAll(db, tx, name).locks == tx.locks
  {
  }

  // ---------------------------------------------------------------------------
  // The invariant
  // ---------------------------------------------------------------------------

  predicate Agrees(md5: string -> string, queue: string) {
    ClientChannel(md5, queue) == BossChannel(md5, queue)
  }

  /** Every waiting job of the worker's queue is not due at `cutoff`, still to be visited, or excused. */
  ghost predicate Covered(db: Db, w: Worker, cutoff: Time, rows: set<Id>) {
    forall id | id in db.jobs && db.jobs[id].name == w.queue && Waiting(db.jobs[id]) ::
      db.jobs[id].startAfter > cutoff || id in rows || id in w.skipped + w.stranded + w.putBack
  }

  ghost function RowsLeft(stmt: Stmt): set<Id> {
    if stmt.Fetching? then Engine.Members(stmt.rows) else {}
  }

  /** The transaction of a fetch in progress: nothing written before a claim, nothing to do after it. */
  ghost predicate FetchingOne(tx: Tx, queue: string) {
    && (tx.log == [] ==> tx.writes == map[])
    && (tx.stmt == Idle || (tx.stmt.Fetching? && tx.stmt.queue == queue && tx.stmt.room == 1 && tx.log == []))
  }

  ghost predicate PhaseOk(sys: Sys, s: Sid, w: Worker) {
    match w.phase
    case Starting => s !in sys.txs
    case Draining => s !in sys.txs
    case Sleeping => s !in sys.txs
    case Begun => s in sys.txs && sys.txs[s] == NewTx(sys.txs[s].now)
    case Scanned => s in sys.txs && FetchingOne(sys.txs[s], w.queue)
    case Handling => true
  }

  ghost predicate HeldByOther(sys: Sys, s: Sid, id: Id) {
    exists o | o in sys.txs :: o != s && id in sys.txs[o].locks
  }

  ghost predicate Attentive(sys: Sys, s: Sid, w: Worker) {
    && (w.phase == Scanned ==>
          w.inbox > 0 || (s in sys.txs && (sys.txs[s].log != []
                                           || Covered(sys.db, w, sys.txs[s].now, RowsLeft(sys.txs[s].stmt)))))
    && (w.phase == Sleeping ==> w.inbox > 0 || Covered(sys.db, w, w.seen, {}))
  }

  ghost predicate WorkerOk(md5: string -> string, sys: Sys, s: Sid, w: Worker) {
    && PhaseOk(sys, s, w)
    && (forall id | id in w.skipped :: HeldByOther(sys, s, id))
    && (Agrees(md5, w.queue) ==> Attentive(sys, s, w))
  }

  ghost predicate WorldInv(world: World) {
    && Inv(world.sys)
    && (forall s | s in world.sys.txs :: Announced(world.sys.txs[s]))
    && (forall w | w in world.workers :: WorkerOk(world.md5, world.sys, w, world.workers[w]))
  }

  // ---- commits and aborts, as a worker sees them ----

  lemma {:induction false} HeardNote(md5: string -> string, queue: string, notes: seq<string>)
    requires Agrees(md5, queue) && queue in notes
    ensures Heard(md5, queue, notes) > 0
    decreases |notes|
  {
    if notes[|notes| - 1] != queue {
      assert queue in notes[..|notes| - 1];
      HeardNote(md5, queue, notes[..|notes| - 1]);
    }
  }

  lemma CommitCovers(md5: string -> string, db: Db, w: Worker, tx: Tx, cutoff: Time, rows: set<Id>)
    requires Announced(tx) && Agrees(md5, w.queue) && w.phase != Starting
    requires w.inbox > 0 || Covered(db, w, cutoff, rows)
    ensures var w' := AfterCommit(md5, w, tx);
            w'.inbox > 0 || Covered(View(db, tx), w', cutoff, rows)
  {
    var w' := AfterCommit(md5, w, tx);
    if w.queue in tx.notes {
      HeardNote(md5, w.queue, tx.notes);
    } else if w.inbox == 0 {
      var after := View(db, tx);
      forall id | id in after.jobs && after.jobs[id].name == w.queue && Waiting(after.jobs[id])
        ensures after.jobs[id].startAfter > cutoff || id in rows || id in w'.skipped + w'.stranded + w'.putBack
      {
        ViewRows(db, tx, id);
      }
    }
  }

  /** A worker that does not act stays as the invariant wants it. */
  lemma BystanderOk(md5: string -> string, sys: Sys, ev: Event, s: Sid, w: Worker)
    requires Inv(sys) && Step(sys, ev).Some? && SessionOf(ev) != Some(s)
    requires forall o | o in sys.txs :: Announced(sys.txs[o])
    requires WorkerOk(md5, sys, s, w)
    ensures WorkerOk(md5, Step(sys, ev).value, s, Observe(md5, w, sys, ev))
  {
    hide View, Act, Inv;
    var sys' := Step(sys, ev).value;
    var w' := Observe(md5, w, sys, ev);
    forall id | id in w'.skipped ensures HeldByOther(sys', s, id) {
      var o :| o in sys.txs && o != s && id in sys.txs[o].locks;
      if ev.Do? && ev.s == o {
        ActAnnounced(sys.db, sys.drawn, sys.txs[o], OthersOf(sys, o), ev.a);
      }
      assert o in sys'.txs;
    }
    if ev.Commit? && Agrees(md5, w.queue) {
      var tx := sys.txs[ev.s];
      if w.phase == Scanned && sys.txs[s].log == [] {
        CommitCovers(md5, sys.db, w, tx, sys.txs[s].now, RowsLeft(sys.txs[s].stmt));
      } else if w.phase == Sleeping {
        CommitCovers(md5, sys.db, w, tx, w.seen, {});
      }
    }
    if ev.Abort? {
      assert w'.skipped + w'.stranded + w'.putBack == w.skipped + w.stranded + w.putBack;
    }
  }

  // ---- the worker's own steps ----

  lemma NewTxSees(db: Db, now: Time)
    ensures View(db, NewTx(now)) == db
  {
    var tx := NewTx(now);
    forall id ensures RowAt(View(db, tx), id) == RowAt(db, id) {
      ViewRows(db, tx, id);
    }
    forall name ensures QueueAt(View(db, tx), name) == QueueAt(db, name) {
      ViewQueues(db, tx, name);
    }
    ViewIssued(db, tx);
    SameDb(View(db, tx), db);
  }

  /** The scan lists every row that is due. */
  lemma ScanCovers(db: Db, w: Worker, now: Time)
    requires forall id | id in db.jobs :: db.jobs[id].id == id
    ensures Covered(db, w, now,
                    RowsLeft(Resume(w.queue, 1, Engine.Ids(Ordering.Ranked(Engine.Claimable(db, {}, w.queue, now))))))
  {
    var keys := Ordering.Ranked(Engine.Claimable(db, {}, w.queue, now));
    Ordering.RankedSorts(Engine.Claimable(db, {}, w.queue, now));
    forall id | id in db.jobs && db.jobs[id].name == w.queue && Waiting(db.jobs[id]) && db.jobs[id].startAfter <= now
      ensures id in Engine.Members(Engine.Ids(keys))
    {
      assert Ordering.KeyOf(db.jobs[id]) in Ordering.Elems(keys);
      Engine.IdsOf(keys, id);
    }
  }

  /** Visiting a row claims it, finds it not due, or excuses it. */
  lemma VisitCovers(db: Db, w: Worker, tx: Tx, others: Others)
    requires FetchingOne(tx, w.queue) && tx.stmt.Fetching? && tx.stmt.rows != []
    requires Covered(db, w, tx.now, RowsLeft(tx.stmt))
    ensures var tx' := FetchRow(db, tx, others);
            var w' := if tx.stmt.rows[0] in others.locks then w.(skipped := w.skipped + {tx.stmt.rows[0]}) else w;
            && FetchingOne(tx', w.queue) && tx'.now == tx.now
            && (tx'.log != [] || Covered(db, w', tx.now, RowsLeft(tx'.stmt)))
  {
    var rows := tx.stmt.rows;
    assert forall id | id in rows :: id == rows[0] || id in rows[1..];
  }

  ghost predicate OwnStep(md5: string -> string, sys: Sys, s: Sid, w: Worker, ev: Event) {
    && Inv(sys) && WorkerOk(md5, sys, s, w) && SessionOf(ev) == Some(s)
    && Step(sys, ev).Some? && Advance(w, TxOf(sys, s), OthersOf(sys, s), ev).Some?
    && (forall o | o in sys.txs :: Announced(sys.txs[o]))
  }

  lemma OwnScanOk(md5: string -> string, sys: Sys, s: Sid, w: Worker, ev: Event)
    requires OwnStep(md5, sys, s, w, ev) && w.phase == Begun
    ensures var next := Advance(w, TxOf(sys, s), OthersOf(sys, s), ev).value;
            WorkerOk(md5, Step(sys, ev).value, s, Observe(md5, next, sys, ev))
  {
    hide View, Inv, Announced, Engine.Claimable, Covered, Ordering.Ranked, Engine.Ids, OthersOf, Act, WorkerOk;
    var next, sys' := Advance(w, TxOf(sys, s), OthersOf(sys, s), ev).value, Step(sys, ev).value;
    BegunOk(md5, sys, s, w);
    var now := sys.txs[s].now;
    BegunScans(sys.db, sys.drawn, OthersOf(sys, s), now, w.queue);
    Filed(sys);
    ScanCovers(sys.db, next, now);
    assert sys'.db == sys.db;
    JustScannedOk(md5, sys', s, next, now);
  }

  lemma BegunOk(md5: string -> string, sys: Sys, s: Sid, w: Worker)
    requires WorkerOk(md5, sys, s, w) && w.phase == Begun
    ensures s in sys.txs && sys.txs[s] == NewTx(sys.txs[s].now)
  {
  }

  lemma BegunScans(db: Db, drawn: set<Id>, others: Others, now: Time, queue: string)
    ensures var rows := Engine.Ids(Ordering.Ranked(Engine.Claimable(db, {}, queue, now)));
            Act(db, drawn, NewTx(now), others, FetchScan(queue, 1))
            == Some(NewTx(now).(stmt := Resume(queue, 1, rows)))
  {
    hide View;
    NewTxSees(db, now);
  }

  lemma JustScannedOk(md5: string -> string, sys: Sys, s: Sid, w: Worker, now: Time)
    requires w.phase == Scanned && w.skipped == {} && s in sys.txs
    requires var rows := Engine.Ids(Ordering.Ranked(Engine.Claimable(sys.db, {}, w.queue, now)));
             && sys.txs[s] == NewTx(now).(stmt := Resume(w.queue, 1, rows))
             && Covered(sys.db, w, now, RowsLeft(Resume(w.queue, 1, rows)))
    ensures WorkerOk(md5, sys, s, w)
  {
    hide Engine.Claimable, Covered, Ordering.Ranked, Engine.Ids;
  }

  lemma OwnVisitOk(md5: string -> string, sys: Sys, s: Sid, w: Worker, ev: Event)
    requires OwnStep(md5, sys, s, w, ev) && w.phase == Scanned && ev.Do?
    ensures var next := Advance(w, TxOf(sys, s), OthersOf(sys, s), ev).value;
            WorkerOk(md5, Step(sys, ev).value, s, Observe(md5, next, sys, ev))
  {
    hide View, Inv, FetchRow, Covered, Announced;
    var next := Advance(w, TxOf(sys, s), OthersOf(sys, s), ev).value;
    var sys' := Step(sys, ev).value;
    var tx, others := sys.txs[s], OthersOf(sys, s);
    assert ev.a == FetchNext && sys'.db == sys.db && sys'.txs[s] == FetchRow(sys.db, tx, others);
    if w.inbox == 0 && Agrees(md5, w.queue) {
      VisitCovers(sys.db, w, tx, others);
    } else {
      VisitFetches(sys.db, w.queue, tx, others);
    }
    forall id | id in next.skipped ensures HeldByOther(sys', s, id) {
      assert HeldByOther(sys, s, id);
      var o :| o in sys.txs && o != s && id in sys.txs[o].locks;
      assert o in sys'.txs && sys'.txs[o] == sys.txs[o];
    }
  }

  lemma OwnCommitOk(md5: string -> string, sys: Sys, s: Sid, w: Worker, ev: Event)
    requires OwnStep(md5, sys, s, w, ev) && ev.Commit?
    ensures var next := Advance(w, TxOf(sys, s), OthersOf(sys, s), ev).value;
            WorkerOk(md5, Step(sys, ev).value, s, Observe(md5, next, sys, ev))
  {
    hide View, Inv, Covered, Announced;
    var next := Advance(w, TxOf(sys, s), OthersOf(sys, s), ev).value;
    var sys', tx := Step(sys, ev).value, sys.txs[s];
    SkippedStay(sys, sys', s, next);
    if next.phase == Sleeping && Agrees(md5, w.queue) {
      assert RowsLeft(tx.stmt) == {};
      CoveredSame(sys.db, w, next, tx.now);
      CommitCovers(md5, sys.db, next, tx, next.seen, {});
    }
  }

  lemma CoveredSame(db: Db, w: Worker, w': Worker, cutoff: Time)
    requires w'.queue == w.queue && w'.skipped == w.skipped && w'.stranded == w.stranded && w'.putBack == w.putBack
    ensures Covered(db, w, cutoff, {}) <==> Covered(db, w', cutoff, {})
  {
  }

  lemma OwnOtherOk(md5: string -> string, sys: Sys, s: Sid, w: Worker, ev: Event)
    requires OwnStep(md5, sys, s, w, ev) && (w.phase == Draining || w.phase == Handling) && !ev.Commit?
    ensures var next := Advance(w, TxOf(sys, s), OthersOf(sys, s), ev).value;
            WorkerOk(md5, Step(sys, ev).value, s, Observe(md5, next, sys, ev))
  {
    hide View, Inv, Covered, Announced, Act;
    SkippedStay(sys, Step(sys, ev).value, s, w);
  }

  lemma OwnStepOk(md5: string -> string, sys: Sys, s: Sid, w: Worker, ev: Event)
    requires OwnStep(md5, sys, s, w, ev)
    ensures var next := Advance(w, TxOf(sys, s), OthersOf(sys, s), ev).value;
            WorkerOk(md5, Step(sys, ev).value, s, Observe(md5, next, sys, ev))
  {
    hide Inv, Step, WorkerOk, Announced, Observe;
    if ev.Commit? {
      OwnCommitOk(md5, sys, s, w, ev);
    } else if w.phase == Begun {
      OwnScanOk(md5, sys, s, w, ev);
    } else if w.phase == Scanned {
      OwnVisitOk(md5, sys, s, w, ev);
    } else {
      OwnOtherOk(md5, sys, s, w, ev);
    }
  }

  lemma Filed(sys: Sys)
    requires Inv(sys)
    ensures forall id | id in sys.db.jobs :: sys.db.jobs[id].id == id
  {
    Histories.AllRegistered(sys.trace);
  }

  lemma VisitFetches(db: Db, queue: string, tx: Tx, others: Others)
    requires FetchingOne(tx, queue) && tx.stmt.Fetching? && tx.stmt.rows != []
    ensures FetchingOne(FetchRow(db, tx, others), queue) && FetchRow(db, tx, others).now == tx.now
  {
  }

  lemma SkippedStay(sys: Sys, sys': Sys, s: Sid, w: Worker)
    requires forall id | id in w.skipped :: HeldByOther(sys, s, id)
    requires forall o | o in sys.txs && o != s :: o in sys'.txs && sys'.txs[o] == sys.txs[o]
    ensures forall id | id in w.skipped :: HeldByOther(sys', s, id)
  {
    forall id | id in w.skipped ensures HeldByOther(sys', s, id) {
      var o :| o in sys.txs && o != s && id in sys.txs[o].locks;
      assert o in sys'.txs;
    }
  }

  // ---- whole runs ----

  lemma BooksAnnounced(sys: Sys, ev: Event)
    requires Step(sys, ev).Some? && forall o | o in sys.txs :: Announced(sys.txs[o])
    ensures forall o | o in Step(sys, ev).value.txs :: Announced(Step(sys, ev).value.txs[o])
  {
    hide Act, View;
    if ev.Do? {
      ActAnnounced(sys.db, sys.drawn, sys.txs[ev.s], OthersOf(sys, ev.s), ev.a);
    }
  }

  /** Sessions that are no workers, and workers not yet hired, change nothing for the others. */
  lemma MoveOk(world: World, move: Move)
    requires WorldInv(world) && Next(world, move).Some?
    ensures WorldInv(Next(world, move).value)
  {
    hide Inv, Step, Announced, Attentive, Observe, Advance;
    var world' := Next(world, move).value;
    match move
    case Hire(w, _) => HiredOk(world, move);
    case Listen(w) => HiredOk(world, move);
    case Wake(w) => HiredOk(world, move);
    case Outside(ev) =>
      StepOk(world.sys, ev);
      BooksAnnounced(world.sys, ev);
      forall w | w in world'.workers ensures WorkerOk(world.md5, world'.sys, w, world'.workers[w]) {
        BystanderOk(world.md5, world.sys, ev, w, world.workers[w]);
      }
    case Work(s, ev) =>
      StepOk(world.sys, ev);
      BooksAnnounced(world.sys, ev);
      forall w | w in world'.workers ensures WorkerOk(world.md5, world'.sys, w, world'.workers[w]) {
        if w == s {
          OwnStepOk(world.md5, world.sys, w, world.workers[w], ev);
        } else {
          BystanderOk(world.md5, world.sys, ev, w, world.workers[w]);
        }
      }
  }

  lemma HiredOk(world: World, move: Move)
    requires WorldInv(world) && Next(world, move).Some?
    requires move.Hire? || move.Listen? || move.Wake?
    ensures WorldInv(Next(world, move).value)
  {
    hide Inv, Announced, Covered;
  }

  lemma {:induction false} Always(world: World, moves: seq<Move>)
    requires WorldInv(world) && Play(world, moves).Some?
    ensures WorldInv(Play(world, moves).value)
    decreases |moves|
  {
    hide WorldInv, Next;
    if moves != [] {
      Always(world, moves[..|moves| - 1]);
      MoveOk(Play(world, moves[..|moves| - 1]).value, moves[|moves| - 1]);
    }
  }

  /** The system before anyone connects. */
  function Start(md5: string -> string): World {
    World(INIT, map[], md5)
  }

  lemma StartOk(md5: string -> string)
    ensures WorldInv(Start(md5))
  {
  }

  /** No lost wakeup. While a worker sleeps with an empty inbox, every job waiting in its queue either was
      not yet due when the worker last looked, or was put back by maintenance since, or is held by a session
      that held it then, or was stranded: its holder ended (by aborting, or on a failed re-check) without
      changing it. Nothing else can be left behind, whatever the other sessions do. */
  lemma NoLostWakeup(md5: string -> string, moves: seq<Move>, s: Sid, id: Id)
    requires Play(Start(md5), moves).Some?
    requires var world := Play(Start(md5), moves).value;
             && s in world.workers
             && IsDigest(md5(world.workers[s].queue))
             && world.workers[s].phase == Sleeping && world.workers[s].inbox == 0
             && id in world.sys.db.jobs
             && world.sys.db.jobs[id].name == world.workers[s].queue
             && Waiting(world.sys.db.jobs[id])
    ensures var world := Play(Start(md5), moves).value;
            var w := world.workers[s];
            || world.sys.db.jobs[id].startAfter > w.seen
            || id in w.putBack
            || id in w.stranded
            || (id in w.skipped && HeldByOther(world.sys, s, id))
  {
    hide Inv, Announced;
    StartOk(md5);
    Always(Start(md5), moves);
    var world := Play(Start(md5), moves).value;
    assert world.md5 == md5 by { SameDigest(md5, moves); }
    assert WorkerOk(md5, world.sys, s, world.workers[s]);
    Heeded(world, id);
  }

  /** A queue that has jobs can be notified, and then client and server name the same channel. */
  lemma Heeded(world: World, id: Id)
    requires Inv(world.sys) && id in world.sys.db.jobs && IsDigest(world.md5(world.sys.db.jobs[id].name))
    ensures Agrees(world.md5, world.sys.db.jobs[id].name)
  {
    Histories.Reachable(world.sys.trace, id);
    ChannelsAgree(world.md5, world.sys.db.jobs[id].name);
  }

  lemma {:induction false} SameDigest(md5: string -> string, moves: seq<Move>)
    requires Play(Start(md5), moves).Some?
    ensures Play(Start(md5), moves).value.md5 == md5
    decreases |moves|
  {
    hide Step, Advance;
    if moves != [] {
      SameDigest(md5, moves[..|moves| - 1]);
    }
  }
}
