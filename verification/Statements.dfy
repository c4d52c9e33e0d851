/**
 Statements that take several steps: a fetch with other sessions at work between its rows, and a maintain
 that nobody interrupts.
 */
module Statements {
  import opened Base
  import opened Json
  import opened Jobs
  import opened Lifecycle
  import opened Ordering
  import opened Sessions
  import opened Serialization
  import Engine
  import Columns
  import Delivery

  // ---------------------------------------------------------------------------
  // fetch
  // ---------------------------------------------------------------------------

  /** `ids` is what is left of `rows` when some of them are passed over. */
  predicate Among(ids: seq<Id>, rows: seq<Id>)
    decreases |rows|
  {
    if rows == [] then ids == []
    else
      || Among(ids, rows[..|rows| - 1])
      || (ids != [] && ids[|ids| - 1] == rows[|rows| - 1] && Among(ids[..|ids| - 1], rows[..|rows| - 1]))
  }

  lemma AmongSnoc(ids: seq<Id>, rows: seq<Id>, id: Id)
    requires Among(ids, rows)
    ensures Among(ids, rows + [id]) && Among(ids + [id], rows + [id])
  {
    assert (rows + [id])[..|rows|] == rows && (ids + [id])[..|ids|] == ids;
  }

  /** The scan, and then the session's own events are row visits; the others do as they like. */
  ghost predicate FetchEvents(s: Sid, queue: string, batch: nat, evs: seq<Event>) {
    && evs != [] && evs[0] == Do(s, FetchScan(queue, batch))
    && forall i | 0 < i < |evs| :: match evs[i]
                                   case Tick(_) => true
                                   case Begin(o) => o != s
                                   case Do(o, a) => o == s ==> a == FetchNext
                                   case Commit(o) => o != s
                                   case Abort(o) => o != s
  }

  /** At its `k`-th event the fetch came upon a row that was due then, in the version it locked, and that
      nobody else held. */
  ghost predicate TookAt(sys: Sys, evs: seq<Event>, k: nat, s: Sid, queue: string, now: Time, id: Id) {
    && k < |evs| && evs[k] == Do(s, FetchNext) && Execute(sys, evs[..k]).Some?
    && (var at := Execute(sys, evs[..k]).value;
        && s in at.txs && id !in OthersOf(at, s).locks
        && Visible(at.db, at.txs[s], id).Some? && Due(Visible(at.db, at.txs[s], id).value, queue, now))
  }

  ghost predicate Took(sys: Sys, evs: seq<Event>, s: Sid, queue: string, now: Time, id: Id) {
    exists k: nat :: TookAt(sys, evs, k, s, queue, now, id)
  }

  /** How far the fetch got: `seen` of the `found` rows were visited and `ids` of those claimed. */
  ghost predicate Got(tx: Tx, begun: Tx, queue: string, batch: nat, found: seq<Id>, seen: nat, ids: seq<Id>) {
    && seen <= |found| && tx.now == begun.now && |ids| <= batch
    && tx.log == begun.log + Engine.OpsOver(ids, Engine.Claiming(queue, begun.now))
    && Among(ids, found[..seen])
    && tx.stmt == Resume(queue, batch - |ids|, found[seen..])
    && forall i | 0 <= i < |ids| :: ids[i] in tx.locks
  }

  lemma VisitGets(db: Db, tx: Tx, others: Others, begun: Tx, queue: string, batch: nat, found: seq<Id>, seen: nat,
                  ids: seq<Id>)
    requires Got(tx, begun, queue, batch, found, seen, ids) && tx.stmt.Fetching?
    ensures var tx' := FetchRow(db, tx, others);
            var id := found[seen];
            || Got(tx', begun, queue, batch, found, seen + 1, ids)
            || (&& Got(tx', begun, queue, batch, found, seen + 1, ids + [id])
                && id !in others.locks && Visible(db, tx, id).Some? && Due(Visible(db, tx, id).value, queue, begun.now))
  {
    hide Engine.OpsOver;
    var id := found[seen];
    assert found[..seen + 1] == found[..seen] + [id];
    assert found[seen..][1..] == found[seen + 1..];
    AmongSnoc(ids, found[..seen], id);
    Engine.OpsOverSnoc(ids, id, Engine.Claiming(queue, begun.now));
    assert begun.log + Engine.OpsOver(ids, Engine.Claiming(queue, begun.now)) + [Claim(queue, id, begun.now)]
           == begun.log + (Engine.OpsOver(ids, Engine.Claiming(queue, begun.now)) + [Claim(queue, id, begun.now)]);
  }

  lemma ScanGets(sys: Sys, s: Sid, queue: string, batch: nat)
    requires s in sys.txs && sys.txs[s].stmt == Idle && Step(sys, Do(s, FetchScan(queue, batch))).Some?
    ensures var after := Step(sys, Do(s, FetchScan(queue, batch))).value;
            s in after.txs && Got(after.txs[s], sys.txs[s], queue, batch, Scan(sys, s, queue), 0, [])
  {
    hide View;
    var found := Scan(sys, s, queue);
    assert found[0..] == found && found[..0] == [];
    var begun := sys.txs[s];
    assert begun.log + Engine.OpsOver([], Engine.Claiming(queue, begun.now)) == begun.log;
  }

  ghost function Scan(sys: Sys, s: Sid, queue: string): seq<Id>
    requires s in sys.txs
  {
    Engine.Ids(Ranked(Engine.Claimable(View(sys.db, sys.txs[s]), {}, queue, sys.txs[s].now)))
  }

  lemma Bystander(sys: Sys, ev: Event, s: Sid)
    requires Step(sys, ev).Some? && s in sys.txs
    requires match ev case Tick(_) => true case Begin(o) => o != s case Do(o, _) => o != s
                      case Commit(o) => o != s case Abort(o) => o != s
    ensures s in Step(sys, ev).value.txs && Step(sys, ev).value.txs[s] == sys.txs[s]
  {
    hide Act, View;
  }

  lemma {:induction false} FetchProgress(sys: Sys, s: Sid, queue: string, batch: nat, evs: seq<Event>)
    returns (seen: nat, ids: seq<Id>)
    requires s in sys.txs && sys.txs[s].stmt == Idle
    requires FetchEvents(s, queue, batch, evs) && Execute(sys, evs).Some?
    ensures s in Execute(sys, evs).value.txs
    ensures Got(Execute(sys, evs).value.txs[s], sys.txs[s], queue, batch, Scan(sys, s, queue), seen, ids)
    ensures forall i | 0 <= i < |ids| :: Took(sys, evs, s, queue, sys.txs[s].now, ids[i])
    decreases |evs|
  {
    hide Got, View, Act, Scan, Execute, Step, FetchRow, Took;
    var init, ev := evs[..|evs| - 1], evs[|evs| - 1];
    LastStep(sys, evs);
    if |evs| == 1 {
      NothingYet(sys);
      assert init == [];
      ScanGets(sys, s, queue, batch);
      seen, ids := 0, [];
    } else {
      assert forall i | 0 < i < |init| :: init[i] == evs[i];
      seen, ids := FetchProgress(sys, s, queue, batch, init);
      var mid, begun, found := Execute(sys, init).value, sys.txs[s], Scan(sys, s, queue);
      TookLater(sys, evs, s, queue, begun.now, ids);
      if ev == Do(s, FetchNext) {
        NextVisits(mid, s);
        var others := OthersOf(mid, s);
        GotStmt(mid.txs[s], begun, queue, batch, found, seen, ids);
        VisitGets(mid.db, mid.txs[s], others, begun, queue, batch, found, seen, ids);
        var id := found[seen];
        if !Got(FetchRow(mid.db, mid.txs[s], others), begun, queue, batch, found, seen + 1, ids) {
          TakesNow(sys, evs, s, queue, begun.now, id);
          ids := ids + [id];
        }
        seen := seen + 1;
      } else {
        Bystander(mid, ev, s);
      }
    }
  }

  lemma NothingYet(sys: Sys)
    ensures Execute(sys, []) == Some(sys)
  {
  }

  lemma LastStep(sys: Sys, evs: seq<Event>)
    requires evs != [] && Execute(sys, evs).Some?
    ensures Execute(sys, evs[..|evs| - 1]).Some?
    ensures Step(Execute(sys, evs[..|evs| - 1]).value, evs[|evs| - 1]) == Execute(sys, evs)
  {
    hide Step;
  }

  lemma NextVisits(sys: Sys, s: Sid)
    requires s in sys.txs && Step(sys, Do(s, FetchNext)).Some?
    ensures sys.txs[s].stmt.Fetching? && sys.txs[s].stmt.room > 0 && sys.txs[s].stmt.rows != []
    ensures var after := Step(sys, Do(s, FetchNext)).value;
            s in after.txs && after.txs[s] == FetchRow(sys.db, sys.txs[s], OthersOf(sys, s))
  {
    hide OthersOf, FetchRow;
  }

  lemma GotStmt(tx: Tx, begun: Tx, queue: string, batch: nat, found: seq<Id>, seen: nat, ids: seq<Id>)
    requires Got(tx, begun, queue, batch, found, seen, ids) && tx.stmt.Fetching?
    ensures seen < |found|
  {
  }

  lemma TookLater(sys: Sys, evs: seq<Event>, s: Sid, queue: string, now: Time, ids: seq<Id>)
    requires evs != []
    requires forall i | 0 <= i < |ids| :: Took(sys, evs[..|evs| - 1], s, queue, now, ids[i])
    ensures forall i | 0 <= i < |ids| :: Took(sys, evs, s, queue, now, ids[i])
  {
    hide Execute, OthersOf, Visible, Due;
    var init := evs[..|evs| - 1];
    forall i | 0 <= i < |ids| ensures Took(sys, evs, s, queue, now, ids[i]) {
      var k: nat :| TookAt(sys, init, k, s, queue, now, ids[i]);
      assert init[..k] == evs[..k];
      assert TookAt(sys, evs, k, s, queue, now, ids[i]);
    }
  }

  lemma TakesNow(sys: Sys, evs: seq<Event>, s: Sid, queue: string, now: Time, id: Id)
    requires evs != [] && evs[|evs| - 1] == Do(s, FetchNext) && Execute(sys, evs[..|evs| - 1]).Some?
    requires var at := Execute(sys, evs[..|evs| - 1]).value;
             && s in at.txs && id !in OthersOf(at, s).locks
             && Visible(at.db, at.txs[s], id).Some? && Due(Visible(at.db, at.txs[s], id).value, queue, now)
    ensures Took(sys, evs, s, queue, now, id)
  {
    assert TookAt(sys, evs, |evs| - 1, s, queue, now, id);
  }

  /** However other sessions come between its rows, a fetch logs at most `batch` claims: of rows its scan found,
      in the order of the scan, each still due in the version it locked, held by nobody else then, and by
      this session from then on. */
  lemma InterleavedFetch(sys: Sys, s: Sid, queue: string, batch: nat, evs: seq<Event>) returns (ids: seq<Id>)
    requires s in sys.txs && sys.txs[s].stmt == Idle
    requires FetchEvents(s, queue, batch, evs) && Execute(sys, evs).Some?
    ensures s in Execute(sys, evs).value.txs
    ensures var tx := Execute(sys, evs).value.txs[s];
            && tx.log == sys.txs[s].log + Engine.OpsOver(ids, Engine.Claiming(queue, sys.txs[s].now))
            && |ids| <= batch && Among(ids, Scan(sys, s, queue))
            && (forall i | 0 <= i < |ids| :: ids[i] in tx.locks)
    ensures forall i | 0 <= i < |ids| :: Took(sys, evs, s, queue, sys.txs[s].now, ids[i])
  {
    hide View, Scan, Execute, Took;
    var seen;
    seen, ids := FetchProgress(sys, s, queue, batch, evs);
    AmongMore(ids, Scan(sys, s, queue), seen);
  }

  lemma {:induction false} AmongMore(ids: seq<Id>, rows: seq<Id>, n: nat)
    requires n <= |rows| && Among(ids, rows[..n])
    ensures Among(ids, rows)
    decreases |rows|
  {
    if n < |rows| {
      assert rows[..|rows| - 1][..n] == rows[..n];
      AmongMore(ids, rows[..|rows| - 1], n);
    } else {
      assert rows[..n] == rows;
    }
  }

  // ---------------------------------------------------------------------------
  // maintain
  // ---------------------------------------------------------------------------

  /** One maintain of session `s`, with nothing but time passing in between. */
  ghost predicate MaintainEvents(s: Sid, evs: seq<Event>) {
    && evs != [] && evs[0] == Do(s, ExpireScan)
    && forall i | 0 < i < |evs| :: match evs[i]
                                   case Tick(_) => true
                                   case Do(o, a) => o == s && a != MaintainDone
                                   case _ => false
  }

  ghost predicate Split(all: set<Id>, done: seq<Id>, todo: set<Id>) {
    Engine.Distinct(done) && Engine.Members(done) !! todo && Engine.Members(done) + todo == all
  }

  ghost function OverdueIds(db: Db, now: Time): set<Id> {
    set id | id in db.jobs && Overdue(db.jobs[id], now)
  }

  ghost function PurgeableIds(db: Db, now: Time): set<Id> {
    set id | id in db.jobs && Purgeable(db.jobs[id], now)
  }

  lemma SplitNone(all: set<Id>)
    ensures Split(all, [], all)
  {
  }

  lemma SplitMore(all: set<Id>, done: seq<Id>, todo: set<Id>, id: Id)
    requires Split(all, done, todo) && id in todo
    ensures Split(all, done + [id], todo - {id})
  {
    assert Engine.Members(done + [id]) == Engine.Members(done) + {id};
  }

  /** What a session did since `sys0` while nobody else did anything: its log and what it sees. */
  ghost predicate Since(sys0: Sys, sys: Sys, s: Sid, ops: seq<Op>, stmt: Stmt, view: Db) {
    && s in sys0.txs && s in sys.txs && sys.db == sys0.db && sys.trace == sys0.trace
    && sys.txs[s].now == sys0.txs[s].now && sys.txs[s].stmt == stmt
    && sys.txs[s].log == sys0.txs[s].log + ops && View(sys.db, sys.txs[s]) == view
  }

  /** Some of the overdue rows are expired. */
  ghost predicate Expired(sys0: Sys, sys: Sys, s: Sid, done: seq<Id>, todo: set<Id>)
    requires s in sys0.txs
  {
    var view, now := View(sys0.db, sys0.txs[s]), sys0.txs[s].now;
    && Split(OverdueIds(view, now), done, todo)
    && Since(sys0, sys, s, Engine.OpsOver(done, Engine.Expiring(now)), Expiring(todo),
             Engine.Rewritten(view, done, Engine.ByExpiry(now)))
  }

  /** All of them are, and some of the purgeable rows are purged. */
  ghost predicate Purged(sys0: Sys, sys: Sys, s: Sid, order: seq<Id>, done: seq<Id>, todo: set<Id>)
    requires s in sys0.txs
  {
    var view, now := View(sys0.db, sys0.txs[s]), sys0.txs[s].now;
    var mid := Engine.ExpireAll(view, now);
    && Engine.ListsOverdue(view, order, now)
    && Split(PurgeableIds(mid, now), done, todo)
    && Since(sys0, sys, s,
             Engine.OpsOver(order, Engine.Expiring(now)) + Engine.OpsOver(done, Engine.Purging(now)),
             Purging(todo), mid.(jobs := mid.jobs - Engine.Members(done)))
  }

  /** A visit to a row that still passes writes it: one more operation, and the view follows. */
  lemma VisitWrites(sys: Sys, s: Sid, id: Id, op: Op)
    requires Inv(sys) && s in sys.txs && OnRow(op, id)
    requires Next(View(sys.db, sys.txs[s]), op).Some?
    ensures var tx' := Visit(sys.db, sys.txs[s], id, op);
            && tx'.log == sys.txs[s].log + [op] && tx'.now == sys.txs[s].now
  {
    hide View, Inv, Next;
    var view := View(sys.db, sys.txs[s]);
    ViewRows(sys.db, sys.txs[s], id);
    RowWise(view, op, Next(view, op).value, id);
    Filled(view, op, id);
  }

  lemma Filled(view: Db, op: Op, id: Id)
    requires OnRow(op, id) && Next(view, op).Some?
    ensures RowAt(view, id).Some?
  {
  }

  /** The view after one more operation. */
  lemma ViewSteps(sys: Sys, sys': Sys, s: Sid, op: Op)
    requires Inv(sys) && Inv(sys') && s in sys.txs && s in sys'.txs && sys'.trace == sys.trace
    requires sys'.txs[s].log == sys.txs[s].log + [op]
    ensures Next(View(sys.db, sys.txs[s]), op) == Some(View(sys'.db, sys'.txs[s]))
  {
    hide View, Inv, Next, Run;
    Delivery.ViewIsSerial(sys, s);
    Delivery.ViewIsSerial(sys', s);
    assert sys'.trace + sys'.txs[s].log == (sys.trace + sys.txs[s].log) + [op];
    RunSnoc(EMPTY_DB, sys.trace + sys.txs[s].log, op);
  }

  lemma VisitSince(sys0: Sys, sys: Sys, s: Sid, ops: seq<Op>, stmt: Stmt, view: Db, ev: Event, id: Id, op: Op,
                   next: Stmt, view': Db)
    requires Inv(sys) && Since(sys0, sys, s, ops, stmt, view) && OnRow(op, id)
    requires Step(sys, ev).Some?
    requires Step(sys, ev) == Some(sys.(txs := sys.txs[s := Visit(sys.db, sys.txs[s], id, op).(stmt := next)],
                                        drawn := Step(sys, ev).value.drawn))
    requires Next(view, op) == Some(view')
    ensures Since(sys0, Step(sys, ev).value, s, ops + [op], next, view')
  {
    hide View, Inv, Next, Visit, Step;
    VisitWrites(sys, s, id, op);
    var sys' := Step(sys, ev).value;
    StepOk(sys, ev);
    assert sys'.txs[s].log == sys.txs[s].log + [op];
    ViewSteps(sys, sys', s, op);
    assert sys0.txs[s].log + ops + [op] == sys0.txs[s].log + (ops + [op]);
  }

  /** The row of an overdue job that is not expired yet is as the statement found it. */
  lemma ExpiresNext(view: Db, done: seq<Id>, id: Id, now: Time)
    requires id in view.jobs && Overdue(view.jobs[id], now) && id !in done
    ensures Next(Engine.Rewritten(view, done, Engine.ByExpiry(now)), Expire(id, now))
            == Some(Engine.Rewritten(view, done + [id], Engine.ByExpiry(now)))
  {
    Engine.RewrittenSnoc(view, done, id, Engine.ByExpiry(now));
  }

  lemma ExpireScanned(sys: Sys, s: Sid)
    requires s in sys.txs && Step(sys, Do(s, ExpireScan)).Some?
    ensures var after := Step(sys, Do(s, ExpireScan)).value;
            Expired(sys, after, s, [], OverdueIds(View(sys.db, sys.txs[s]), sys.txs[s].now))
  {
    hide View;
    var view, now := View(sys.db, sys.txs[s]), sys.txs[s].now;
    var after := Step(sys, Do(s, ExpireScan)).value;
    SplitNone(OverdueIds(view, now));
    assert after.txs[s].stmt.todo == OverdueIds(view, now);
    ViewIgnoresStmt(sys.db, sys.txs[s], after.txs[s].stmt);
    assert Engine.Rewritten(view, [], Engine.ByExpiry(now)).jobs == view.jobs;
    assert sys.txs[s].log + Engine.OpsOver([], Engine.Expiring(now)) == sys.txs[s].log;
  }

  lemma ViewIgnoresStmt(db: Db, tx: Tx, stmt: Stmt)
    ensures View(db, tx.(stmt := stmt)) == View(db, tx)
  {
  }

  lemma ExpireOne(sys0: Sys, sys: Sys, s: Sid, done: seq<Id>, todo: set<Id>, id: Id)
    requires Inv(sys) && s in sys0.txs && Expired(sys0, sys, s, done, todo)
    requires Step(sys, Do(s, ExpireNext(id))).Some?
    ensures id in todo && Expired(sys0, Step(sys, Do(s, ExpireNext(id))).value, s, done + [id], todo - {id})
  {
    var view, now := View(sys0.db, sys0.txs[s]), sys0.txs[s].now;
    hide View, Inv, Engine.Rewritten, Engine.OpsOver, Overdue, Step, Split, Since;
    var ops := Engine.OpsOver(done, Engine.Expiring(now));
    ExpireTodo(sys0, sys, s, ops, todo, Engine.Rewritten(view, done, Engine.ByExpiry(now)), id);
    SplitMore(OverdueIds(view, now), done, todo, id);
    FromSplit(OverdueIds(view, now), done, todo, id);
    ExpireSince(sys0, sys, s, ops, view, done, todo, id, now);
    Engine.OpsOverSnoc(done, id, Engine.Expiring(now));
  }

  lemma ExpireEvent(sys: Sys, s: Sid, todo: set<Id>, id: Id)
    requires s in sys.txs && sys.txs[s].stmt == Expiring(todo) && Step(sys, Do(s, ExpireNext(id))).Some?
    ensures id in todo
    ensures var tx' := Visit(sys.db, sys.txs[s], id, Expire(id, sys.txs[s].now)).(stmt := Expiring(todo - {id}));
            var sys' := Step(sys, Do(s, ExpireNext(id))).value;
            sys' == sys.(txs := sys.txs[s := tx'], drawn := sys'.drawn)
  {
    hide View, Visit, OthersOf;
  }

  lemma ExpireTodo(sys0: Sys, sys: Sys, s: Sid, ops: seq<Op>, todo: set<Id>, view: Db, id: Id)
    requires Since(sys0, sys, s, ops, Expiring(todo), view) && Step(sys, Do(s, ExpireNext(id))).Some?
    ensures id in todo
  {
    hide View, Step;
    ExpireEvent(sys, s, todo, id);
  }

  lemma ExpireSince(sys0: Sys, sys: Sys, s: Sid, ops: seq<Op>, view: Db, done: seq<Id>, todo: set<Id>, id: Id, now: Time)
    requires Inv(sys) && Since(sys0, sys, s, ops, Expiring(todo), Engine.Rewritten(view, done, Engine.ByExpiry(now)))
    requires now == sys0.txs[s].now && Step(sys, Do(s, ExpireNext(id))).Some?
    requires id in view.jobs && Overdue(view.jobs[id], now) && id !in done
    ensures Since(sys0, Step(sys, Do(s, ExpireNext(id))).value, s, ops + [Expire(id, now)], Expiring(todo - {id}),
                  Engine.Rewritten(view, done + [id], Engine.ByExpiry(now)))
  {
    hide View, Inv, Visit, Overdue, Next, Step, Engine.Rewritten;
    ExpireEvent(sys, s, todo, id);
    ExpiresNext(view, done, id, now);
    VisitSince(sys0, sys, s, ops, Expiring(todo), Engine.Rewritten(view, done, Engine.ByExpiry(now)),
               Do(s, ExpireNext(id)), id, Expire(id, now), Expiring(todo - {id}),
               Engine.Rewritten(view, done + [id], Engine.ByExpiry(now)));
  }

  lemma AllExpired(view: Db, done: seq<Id>, now: Time)
    requires Split(OverdueIds(view, now), done, {})
    ensures Engine.ListsOverdue(view, done, now)
    ensures Engine.Rewritten(view, done, Engine.ByExpiry(now)) == Engine.ExpireAll(view, now)
  {
    assert Engine.Members(done) == OverdueIds(view, now);
    forall id: Id ensures id in done <==> id in view.jobs && Overdue(view.jobs[id], now) {
      assert id in Engine.Members(done) <==> id in OverdueIds(view, now);
    }
    assert Engine.Rewritten(view, done, Engine.ByExpiry(now)).jobs == Engine.ExpireAll(view, now).jobs;
  }

  lemma PurgeScanned(sys0: Sys, sys: Sys, s: Sid, done: seq<Id>, todo: set<Id>)
    requires s in sys0.txs && Expired(sys0, sys, s, done, todo) && Step(sys, Do(s, PurgeScan)).Some?
    ensures var now := sys0.txs[s].now;
            var mid := Engine.ExpireAll(View(sys0.db, sys0.txs[s]), now);
            Purged(sys0, Step(sys, Do(s, PurgeScan)).value, s, done, [], PurgeableIds(mid, now))
  {
    hide View, Engine.ExpireAll, Purgeable, Engine.Rewritten, OthersOf;
    var view, now := View(sys0.db, sys0.txs[s]), sys0.txs[s].now;
    assert todo == {};
    AllExpired(view, done, now);
    var mid := Engine.ExpireAll(view, now);
    var after := Step(sys, Do(s, PurgeScan)).value;
    assert after.txs[s].stmt.todo == PurgeableIds(mid, now);
    ViewIgnoresStmt(sys.db, sys.txs[s], after.txs[s].stmt);
    SplitNone(PurgeableIds(mid, now));
    assert mid.jobs - Engine.Members([]) == mid.jobs;
    assert Engine.OpsOver(done, Engine.Expiring(now)) + Engine.OpsOver([], Engine.Purging(now))
           == Engine.OpsOver(done, Engine.Expiring(now));
  }

  lemma FromSplit(all: set<Id>, done: seq<Id>, todo: set<Id>, id: Id)
    requires Split(all, done, todo) && id in todo
    ensures id in all && id !in done
  {
    assert id !in Engine.Members(done);
  }

  lemma PurgeEvent(sys: Sys, s: Sid, todo: set<Id>, id: Id)
    requires s in sys.txs && sys.txs[s].stmt == Purging(todo) && Step(sys, Do(s, PurgeNext(id))).Some?
    ensures id in todo
    ensures var tx' := Visit(sys.db, sys.txs[s], id, Purge(id, sys.txs[s].now)).(stmt := Purging(todo - {id}));
            var sys' := Step(sys, Do(s, PurgeNext(id))).value;
            sys' == sys.(txs := sys.txs[s := tx'], drawn := sys'.drawn)
  {
    hide View, Visit, OthersOf;
  }

  lemma PurgeSince(sys0: Sys, sys: Sys, s: Sid, ops: seq<Op>, mid: Db, done: seq<Id>, todo: set<Id>, id: Id, now: Time)
    requires Inv(sys) && Since(sys0, sys, s, ops, Purging(todo), mid.(jobs := mid.jobs - Engine.Members(done)))
    requires now == sys0.txs[s].now && Step(sys, Do(s, PurgeNext(id))).Some?
    requires id in mid.jobs && Purgeable(mid.jobs[id], now) && id !in done
    ensures Since(sys0, Step(sys, Do(s, PurgeNext(id))).value, s, ops + [Purge(id, now)], Purging(todo - {id}),
                  mid.(jobs := mid.jobs - Engine.Members(done + [id])))
  {
    hide View, Inv, Visit, Purgeable, Next, Step;
    PurgeEvent(sys, s, todo, id);
    Engine.PurgeOne(mid, done, id, now);
    VisitSince(sys0, sys, s, ops, Purging(todo), mid.(jobs := mid.jobs - Engine.Members(done)),
               Do(s, PurgeNext(id)), id, Purge(id, now), Purging(todo - {id}),
               mid.(jobs := mid.jobs - Engine.Members(done + [id])));
  }

  lemma PurgeOps(order: seq<Id>, done: seq<Id>, id: Id, now: Time)
    ensures Engine.OpsOver(order, Engine.Expiring(now)) + Engine.OpsOver(done, Engine.Purging(now)) + [Purge(id, now)]
            == Engine.OpsOver(order, Engine.Expiring(now)) + Engine.OpsOver(done + [id], Engine.Purging(now))
  {
    Engine.OpsOverSnoc(done, id, Engine.Purging(now));
  }

  lemma PurgeTodo(sys0: Sys, sys: Sys, s: Sid, ops: seq<Op>, todo: set<Id>, view: Db, id: Id)
    requires Since(sys0, sys, s, ops, Purging(todo), view) && Step(sys, Do(s, PurgeNext(id))).Some?
    ensures id in todo
  {
    hide View, Step;
    PurgeEvent(sys, s, todo, id);
  }

  lemma PurgeOne(sys0: Sys, sys: Sys, s: Sid, order: seq<Id>, done: seq<Id>, todo: set<Id>, id: Id)
    requires Inv(sys) && s in sys0.txs && Purged(sys0, sys, s, order, done, todo)
    requires Step(sys, Do(s, PurgeNext(id))).Some?
    ensures id in todo && Purged(sys0, Step(sys, Do(s, PurgeNext(id))).value, s, order, done + [id], todo - {id})
  {
    var view, now := View(sys0.db, sys0.txs[s]), sys0.txs[s].now;
    var mid := Engine.ExpireAll(view, now);
    hide View, Inv, Engine.ExpireAll, Engine.OpsOver, Purgeable, Engine.ListsOverdue, Engine.Members, Step, Split, Since;
    var ops := Engine.OpsOver(order, Engine.Expiring(now)) + Engine.OpsOver(done, Engine.Purging(now));
    PurgeTodo(sys0, sys, s, ops, todo, mid.(jobs := mid.jobs - Engine.Members(done)), id);
    SplitMore(PurgeableIds(mid, now), done, todo, id);
    FromSplit(PurgeableIds(mid, now), done, todo, id);
    PurgeSince(sys0, sys, s, ops, mid, done, todo, id, now);
    PurgeOps(order, done, id, now);
  }

  /** Where a maintain is after its scan. */
  ghost predicate Maintaining(sys0: Sys, sys: Sys, s: Sid)
    requires s in sys0.txs
  {
    || (exists done, todo :: Expired(sys0, sys, s, done, todo))
    || (exists order, done, todo :: Purged(sys0, sys, s, order, done, todo))
  }

  lemma MaintainStep(sys0: Sys, sys: Sys, s: Sid, ev: Event)
    requires Inv(sys) && s in sys0.txs && Maintaining(sys0, sys, s) && Step(sys, ev).Some?
    requires ev.Tick? || (ev.Do? && ev.s == s && ev.a != MaintainDone)
    ensures Maintaining(sys0, Step(sys, ev).value, s)
  {
    hide Inv, View, Since, Split, OthersOf;
    var sys' := Step(sys, ev).value;
    if done, todo :| Expired(sys0, sys, s, done, todo) {
      SinceStmt(sys0, sys, s);
      if ev.Tick? {
        SinceTick(sys0, sys, s, ev.d);
        assert Expired(sys0, sys', s, done, todo);
      } else {
        OnlyExpires(sys, s, ev.a);
        if ev.a.PurgeScan? {
          PurgeScanned(sys0, sys, s, done, todo);
        } else {
          ExpireOne(sys0, sys, s, done, todo, ev.a.id);
        }
      }
    } else {
      var order, done, todo :| Purged(sys0, sys, s, order, done, todo);
      SinceStmt(sys0, sys, s);
      if ev.Tick? {
        SinceTick(sys0, sys, s, ev.d);
        assert Purged(sys0, sys', s, order, done, todo);
      } else {
        OnlyPurges(sys, s, ev.a);
        PurgeOne(sys0, sys, s, order, done, todo, ev.a.id);
      }
    }
  }

  lemma SinceStmt(sys0: Sys, sys: Sys, s: Sid)
    ensures forall ops, stmt, view | Since(sys0, sys, s, ops, stmt, view) :: s in sys.txs && sys.txs[s].stmt == stmt
  {
  }

  lemma SinceTick(sys0: Sys, sys: Sys, s: Sid, d: nat)
    ensures forall ops, stmt, view | Since(sys0, sys, s, ops, stmt, view) ::
              Since(sys0, sys.(clock := sys.clock + d), s, ops, stmt, view)
  {
    hide View;
  }

  lemma OnlyExpires(sys: Sys, s: Sid, a: Action)
    requires s in sys.txs && sys.txs[s].stmt.Expiring? && Step(sys, Do(s, a)).Some?
    ensures a.PurgeScan? || a.ExpireNext?
  {
    hide View, OthersOf;
  }

  lemma OnlyPurges(sys: Sys, s: Sid, a: Action)
    requires s in sys.txs && sys.txs[s].stmt.Purging? && Step(sys, Do(s, a)).Some? && a != MaintainDone
    ensures a.PurgeNext?
  {
    hide View, OthersOf;
  }

  lemma {:induction false} MaintainProgress(sys: Sys, s: Sid, evs: seq<Event>)
    requires Inv(sys) && s in sys.txs && MaintainEvents(s, evs) && Execute(sys, evs).Some?
    ensures Inv(Execute(sys, evs).value) && Maintaining(sys, Execute(sys, evs).value, s)
    decreases |evs|
  {
    hide Inv, Maintaining, Step, Execute;
    var init, ev := evs[..|evs| - 1], evs[|evs| - 1];
    LastStep(sys, evs);
    if |evs| == 1 {
      NothingYet(sys);
      assert init == [];
      ExpireScanned(sys, s);
      Scanned(sys, Step(sys, ev).value, s);
      StepOk(sys, ev);
    } else {
      assert forall i | 0 < i < |init| :: init[i] == evs[i];
      MaintainProgress(sys, s, init);
      MaintainStep(sys, Execute(sys, init).value, s, ev);
      StepOk(Execute(sys, init).value, ev);
    }
  }

  lemma Scanned(sys0: Sys, sys: Sys, s: Sid)
    requires s in sys0.txs && Expired(sys0, sys, s, [], OverdueIds(View(sys0.db, sys0.txs[s]), sys0.txs[s].now))
    ensures Maintaining(sys0, sys, s)
  {
    hide Expired;
  }

  /** A maintain that nobody interrupts logs exactly the expiries of the overdue rows, in some order, and then
      the purges of what is purgeable then; and what its transaction sees is the set form of maintain. */
  lemma MaintainStatement(sys: Sys, s: Sid, evs: seq<Event>) returns (overdue: seq<Id>, purgeable: seq<Id>)
    requires Inv(sys) && s in sys.txs && MaintainEvents(s, evs)
    requires Execute(sys, evs).Some? && Step(Execute(sys, evs).value, Do(s, MaintainDone)).Some?
    ensures var view, now := View(sys.db, sys.txs[s]), sys.txs[s].now;
            var after := Step(Execute(sys, evs).value, Do(s, MaintainDone)).value;
            && Engine.ListsOverdue(view, overdue, now)
            && Engine.ListsPurgeable(Engine.ExpireAll(view, now), purgeable, now)
            && s in after.txs && after.txs[s].stmt == Idle
            && after.txs[s].log == sys.txs[s].log + (Engine.OpsOver(overdue, Engine.Expiring(now))
                                                     + Engine.OpsOver(purgeable, Engine.Purging(now)))
            && View(after.db, after.txs[s]) == Engine.Maintain(view, now)
    // on columns: no finished row past keep_until and no active row that overran is left, and no other row changed
    ensures var view, now := View(sys.db, sys.txs[s]), sys.txs[s].now;
            var after := Step(Execute(sys, evs).value, Do(s, MaintainDone)).value;
            var end := View(after.db, after.txs[s]);
            && (forall id | id in end.jobs ::
                  && id in view.jobs
                  && !((end.jobs[id].state == Completed || end.jobs[id].state == Failed
                        || end.jobs[id].state == Cancelled) && end.jobs[id].keepUntil < now)
                  && !(end.jobs[id].state == Active && end.jobs[id].startedOn.Some?
                       && end.jobs[id].startedOn.value + end.jobs[id].expireSeconds * 1_000_000 < now))
            && (forall id | id in view.jobs
                            && !((view.jobs[id].state == Completed || view.jobs[id].state == Failed
                                  || view.jobs[id].state == Cancelled) && view.jobs[id].keepUntil < now)
                            && !(view.jobs[id].state == Active && view.jobs[id].startedOn.Some?
                                 && view.jobs[id].startedOn.value + view.jobs[id].expireSeconds * 1_000_000 < now) ::
                  id in end.jobs && end.jobs[id] == view.jobs[id])
  {
    hide View, Inv, Execute, Engine.ExpireAll, Engine.OpsOver, OthersOf, Engine.ListsOverdue, Engine.PurgeAll;
    MaintainProgress(sys, s, evs);
    var last := Execute(sys, evs).value;
    SinceStmt(sys, last, s);
    assert last.txs[s].stmt == Purging({});
    var done, todo;
    overdue, done, todo :| Purged(sys, last, s, overdue, done, todo);
    purgeable := done;
    var view, now := View(sys.db, sys.txs[s]), sys.txs[s].now;
    AllPurged(Engine.ExpireAll(view, now), done, now);
    Columns.MaintainLeaves(view, now);
    ViewIgnoresStmt(last.db, last.txs[s], Idle);
  }

  lemma AllPurged(mid: Db, done: seq<Id>, now: Time)
    requires Split(PurgeableIds(mid, now), done, {})
    ensures Engine.ListsPurgeable(mid, done, now)
    ensures mid.(jobs := mid.jobs - Engine.Members(done)) == Engine.PurgeAll(mid, now)
  {
    assert Engine.Members(done) == PurgeableIds(mid, now);
    forall id: Id ensures id in done <==> id in mid.jobs && Purgeable(mid.jobs[id], now) {
      assert id in Engine.Members(done) <==> id in PurgeableIds(mid, now);
    }
    assert mid.jobs - Engine.Members(done) == Engine.PurgeAll(mid, now).jobs;
  }

  // ---------------------------------------------------------------------------
  // The statements on one row or queue
  // ---------------------------------------------------------------------------

  /** What a session sees after a step that logged one operation. */
  lemma OneMore(sys: Sys, s: Sid, a: Action, op: Op)
    requires Inv(sys) && s in sys.txs && Step(sys, Do(s, a)).Some?
    requires Step(sys, Do(s, a)).value.txs[s].log == sys.txs[s].log + [op]
    ensures Next(View(sys.db, sys.txs[s]), op)
            == Some(View(sys.db, Step(sys, Do(s, a)).value.txs[s]))
  {
    hide View, Inv, Next, Act;
    StepOk(sys, Do(s, a));
    ViewSteps(sys, Step(sys, Do(s, a)).value, s, op);
  }

  /** create_queue, in one step. */
  lemma CreateStatement(sys: Sys, s: Sid, name: string, opts: Engine.QueueOptions)
    requires Inv(sys) && s in sys.txs && Step(sys, Do(s, CreateQueue(name, opts))).Some?
    ensures var after := Step(sys, Do(s, CreateQueue(name, opts))).value;
            && after.txs[s].stmt == Idle && after.txs[s].notes == sys.txs[s].notes
            && View(after.db, after.txs[s]) == Engine.CreateQueue(View(sys.db, sys.txs[s]), name, opts, sys.txs[s].now)
  {
    hide View, Inv, OthersOf;
    var view, tx := View(sys.db, sys.txs[s]), sys.txs[s];
    ViewQueues(sys.db, tx, name);
    Engine.QueueRuns(view, name, opts, tx.now);
    if VisibleQueue(sys.db, tx, name).None? {
      OneMore(sys, s, CreateQueue(name, opts), OpenQueue(name, Engine.NewQueue(opts, tx.now)));
    }
  }

  /** send: the queue row is read, then the job is inserted and the queue notified. */
  lemma SendStatement(sys: Sys, s: Sid, name: string, data: Option<Json>, opts: Engine.SendOptions, id: Id)
    requires Inv(sys) && s in sys.txs && Execute(sys, [Do(s, SendScan(name, data, opts)), Do(s, SendInsert(id))]).Some?
    ensures var view, tx := View(sys.db, sys.txs[s]), sys.txs[s];
            var after := Execute(sys, [Do(s, SendScan(name, data, opts)), Do(s, SendInsert(id))]).value;
            && Engine.Send(view, id, name, data, opts, tx.now).Ok?
            && s in after.txs && after.txs[s].stmt == Idle && after.txs[s].notes == tx.notes + [name]
            && View(after.db, after.txs[s]) == Engine.Sent(view, Engine.Send(view, id, name, data, opts, tx.now).value)
  {
    hide View, Inv, Engine.Enqueue, Execute, Act;
    TwoEvents(sys, Do(s, SendScan(name, data, opts)), Do(s, SendInsert(id)));
    var view, tx := View(sys.db, sys.txs[s]), sys.txs[s];
    var mid := Step(sys, Do(s, SendScan(name, data, opts))).value;
    ScansQueue(sys, s, name, data, opts);
    StepOk(sys, Do(s, SendScan(name, data, opts)));
    ViewQueues(sys.db, tx, name);
    var job := InsertsJob(mid, s, id, name, view.queues[name], data, opts);
    OneMore(mid, s, SendInsert(id), Insert(job));
    InsertIsSent(view, job);
  }

  lemma InsertIsSent(view: Db, job: Job)
    requires Next(view, Insert(job)).Some?
    ensures Next(view, Insert(job)) == Some(Engine.Sent(view, job))
  {
  }

  lemma TwoEvents(sys: Sys, a: Event, b: Event)
    requires Execute(sys, [a, b]).Some?
    ensures Step(sys, a).Some? && Execute(sys, [a, b]) == Step(Step(sys, a).value, b)
  {
    hide Step;
    assert [a, b][..1] == [a] && [a][..0] == [];
    assert Execute(sys, [a]) == Step(sys, a);
  }

  lemma ScansQueue(sys: Sys, s: Sid, name: string, data: Option<Json>, opts: Engine.SendOptions)
    requires s in sys.txs && Step(sys, Do(s, SendScan(name, data, opts))).Some?
    ensures VisibleQueue(sys.db, sys.txs[s], name).Some?
    ensures var mid := Step(sys, Do(s, SendScan(name, data, opts))).value;
            && s in mid.txs && mid.db == sys.db
            && mid.txs[s] == sys.txs[s].(stmt := Sending(name, VisibleQueue(sys.db, sys.txs[s], name).value, data, opts))
            && View(mid.db, mid.txs[s]) == View(sys.db, sys.txs[s])
  {
    hide View, Engine.Enqueue;
    ViewIgnoresStmt(sys.db, sys.txs[s], Sending(name, VisibleQueue(sys.db, sys.txs[s], name).value, data, opts));
  }

  lemma InsertsJob(mid: Sys, s: Sid, id: Id, name: string, q: Queue, data: Option<Json>, opts: Engine.SendOptions)
    returns (job: Job)
    requires s in mid.txs && mid.txs[s].stmt == Sending(name, q, data, opts) && Step(mid, Do(s, SendInsert(id))).Some?
    ensures Engine.Enqueue(id, name, q, data, opts, mid.txs[s].now) == Ok(job)
    ensures var after := Step(mid, Do(s, SendInsert(id))).value.txs[s];
            && after.log == mid.txs[s].log + [Insert(job)] && after.notes == mid.txs[s].notes + [name]
            && after.stmt == Idle
  {
    hide View;
    job := Engine.Enqueue(id, name, q, data, opts, mid.txs[s].now).value;
    EnqueuedName(id, name, q, data, opts, mid.txs[s].now);
  }

  lemma EnqueuedName(id: Id, name: string, q: Queue, data: Option<Json>, opts: Engine.SendOptions, now: Time)
    requires Engine.Enqueue(id, name, q, data, opts, now).Ok?
    ensures Engine.Enqueue(id, name, q, data, opts, now).value.name == name
  {
  }

  /** complete: the row is found, then locked, re-checked and written. */
  lemma CompleteStatement(sys: Sys, s: Sid, queue: string, id: Id, output: Option<Json>)
    requires Inv(sys) && s in sys.txs && sys.txs[s].stmt == Idle
    ensures Engine.IsRunning(View(sys.db, sys.txs[s]), queue, id)
            && Execute(sys, [Do(s, CompleteScan(queue, id, output)), Do(s, OutcomeRow)]).Some? ==>
              var after := Execute(sys, [Do(s, CompleteScan(queue, id, output)), Do(s, OutcomeRow)]).value;
              && s in after.txs && after.txs[s].stmt == Idle && after.txs[s].notes == sys.txs[s].notes
              && View(after.db, after.txs[s])
                 == Engine.Finished(View(sys.db, sys.txs[s]), queue, id, output, sys.txs[s].now)
    ensures !Engine.IsRunning(View(sys.db, sys.txs[s]), queue, id) ==>
              Step(sys, Do(s, CompleteScan(queue, id, output))) == Some(sys.(drawn := sys.drawn + sys.txs[s].inserted))
  {
    hide View, Inv, Execute, OthersOf, Visit;
    var view, tx := View(sys.db, sys.txs[s]), sys.txs[s];
    if Engine.IsRunning(view, queue, id)
       && Execute(sys, [Do(s, CompleteScan(queue, id, output)), Do(s, OutcomeRow)]).Some? {
      TwoEvents(sys, Do(s, CompleteScan(queue, id, output)), Do(s, OutcomeRow));
      var mid := Step(sys, Do(s, CompleteScan(queue, id, output))).value;
      ViewIgnoresStmt(sys.db, tx, Completing(queue, id, output));
      StepOk(sys, Do(s, CompleteScan(queue, id, output)));
      var op := Complete(queue, id, tx.now, output);
      VisitWrites(mid, s, id, op);
      VisitNotes(mid.db, mid.txs[s], id, op);
      OneMore(mid, s, OutcomeRow, op);
      Engine.OutcomeRuns(view, queue, id, output, tx.now);
    } else if !Engine.IsRunning(view, queue, id) {
      assert sys.txs[s := tx] == sys.txs;
    }
  }

  lemma VisitNotes(db: Db, tx: Tx, id: Id, op: Op)
    ensures Visit(db, tx, id, op).notes == tx.notes
  {
  }

  /** fail: the same, and a retry notifies the queue. */
  lemma FailStatement(sys: Sys, s: Sid, queue: string, id: Id, output: Option<Json>)
    requires Inv(sys) && s in sys.txs && sys.txs[s].stmt == Idle
    ensures Engine.IsRunning(View(sys.db, sys.txs[s]), queue, id)
            && Execute(sys, [Do(s, FailScan(queue, id, output)), Do(s, OutcomeRow)]).Some? ==>
              var view := View(sys.db, sys.txs[s]);
              var after := Execute(sys, [Do(s, FailScan(queue, id, output)), Do(s, OutcomeRow)]).value;
              && s in after.txs && after.txs[s].stmt == Idle
              && after.txs[s].notes == sys.txs[s].notes
                                       + (if view.jobs[id].retryCount < view.jobs[id].retryLimit then [queue] else [])
              && View(after.db, after.txs[s]) == Engine.Failed(view, queue, id, output, sys.txs[s].now)
    ensures !Engine.IsRunning(View(sys.db, sys.txs[s]), queue, id) ==>
              Step(sys, Do(s, FailScan(queue, id, output))) == Some(sys.(drawn := sys.drawn + sys.txs[s].inserted))
  {
    hide View, Inv, Execute, OthersOf, FailVisit;
    var view, tx := View(sys.db, sys.txs[s]), sys.txs[s];
    if Engine.IsRunning(view, queue, id)
       && Execute(sys, [Do(s, FailScan(queue, id, output)), Do(s, OutcomeRow)]).Some? {
      TwoEvents(sys, Do(s, FailScan(queue, id, output)), Do(s, OutcomeRow));
      var mid := Step(sys, Do(s, FailScan(queue, id, output))).value;
      ViewIgnoresStmt(sys.db, tx, Failing(queue, id, output));
      StepOk(sys, Do(s, FailScan(queue, id, output)));
      FailWrites(mid, s, queue, id, output);
      OneMore(mid, s, OutcomeRow, Lifecycle.Fail(queue, id, tx.now, output));
      Engine.OutcomeRuns(view, queue, id, output, tx.now);
    } else if !Engine.IsRunning(view, queue, id) {
      assert sys.txs[s := tx] == sys.txs;
    }
  }

  lemma FailWrites(sys: Sys, s: Sid, queue: string, id: Id, output: Option<Json>)
    requires Inv(sys) && s in sys.txs && Engine.IsRunning(View(sys.db, sys.txs[s]), queue, id)
    ensures var row := View(sys.db, sys.txs[s]).jobs[id];
            var tx' := FailVisit(sys.db, sys.txs[s], queue, id, output);
            && tx'.log == sys.txs[s].log + [Lifecycle.Fail(queue, id, sys.txs[s].now, output)]
            && tx'.notes == sys.txs[s].notes + (if row.retryCount < row.retryLimit then [queue] else [])
  {
    hide View, Inv;
    var tx := sys.txs[s];
    ViewRows(sys.db, tx, id);
    assert Visible(sys.db, tx, id) == Some(View(sys.db, tx).jobs[id]);
  }

  // ---- delete_queue ----

  /** The scan, then the session's own events are those of the deletion; the others do as they like. */
  ghost predicate DeleteEvents(s: Sid, name: string, evs: seq<Event>) {
    && evs != [] && evs[0] == Do(s, DropScan(name))
    && forall i | 0 < i < |evs| :: match evs[i]
                                   case Tick(_) => true
                                   case Begin(o) => o != s
                                   case Do(o, a) => o == s ==> a.DropLock? || a.CascadeRow?
                                   case Commit(o) => o != s
                                   case Abort(o) => o != s
  }

  /** How far it got: nothing is logged yet. */
  ghost predicate Deleting(tx: Tx, begun: Tx, name: string) {
    && tx.log == begun.log && tx.notes == begun.notes
    && (tx.stmt == Idle || (tx.stmt.Dropping? && tx.stmt.name == name) || (tx.stmt.Cascading? && tx.stmt.name == name))
  }

  lemma DeleteStep(sys: Sys, s: Sid, ev: Event, begun: Tx, name: string)
    requires s in sys.txs && Step(sys, ev).Some? && Deleting(sys.txs[s], begun, name)
    requires match ev case Tick(_) => true case Begin(o) => o != s case Commit(o) => o != s case Abort(o) => o != s
                      case Do(o, a) => o == s ==> a.DropLock? || a.CascadeRow?
    ensures s in Step(sys, ev).value.txs && Deleting(Step(sys, ev).value.txs[s], begun, name)
  {
    hide View, OthersOf;
    if !(ev.Do? && ev.s == s) {
      Bystander(sys, ev, s);
    }
  }

  lemma {:induction false} DeleteProgress(sys: Sys, s: Sid, name: string, evs: seq<Event>)
    requires s in sys.txs && DeleteEvents(s, name, evs) && Execute(sys, evs).Some?
    ensures s in Execute(sys, evs).value.txs && Deleting(Execute(sys, evs).value.txs[s], sys.txs[s], name)
    decreases |evs|
  {
    hide Execute, Deleting, Step;
    var init, ev := evs[..|evs| - 1], evs[|evs| - 1];
    LastStep(sys, evs);
    if |evs| == 1 {
      NothingYet(sys);
      assert init == [];
      DeleteBegins(sys, s, name);
    } else {
      assert forall i | 0 < i < |init| :: init[i] == evs[i];
      DeleteProgress(sys, s, name, init);
      DeleteStep(Execute(sys, init).value, s, ev, sys.txs[s], name);
    }
  }

  lemma DeleteBegins(sys: Sys, s: Sid, name: string)
    requires s in sys.txs && Step(sys, Do(s, DropScan(name))).Some?
    ensures var after := Step(sys, Do(s, DropScan(name))).value;
            s in after.txs && Deleting(after.txs[s], sys.txs[s], name)
  {
    hide View;
  }

  /** The last step of a deletion takes out the queue and every row of it that the session can see. */
  lemma DropDoneDrops(sys: Sys, s: Sid)
    requires Inv(sys) && s in sys.txs && Step(sys, Do(s, DropDone)).Some?
    ensures sys.txs[s].stmt.Cascading?
    ensures var name, after := sys.txs[s].stmt.name, Step(sys, Do(s, DropDone)).value;
            && s in after.txs && after.txs[s].stmt == Idle && after.txs[s].notes == sys.txs[s].notes
            && after.txs[s].log == sys.txs[s].log + [DropQueue(name)]
            && View(after.db, after.txs[s]) == Engine.DeleteQueue(View(sys.db, sys.txs[s]), name)
  {
    hide View, Inv;
    var name := sys.txs[s].stmt.name;
    DropLogs(sys.db, sys.txs[s], name);
    OneMore(sys, s, DropDone, DropQueue(name));
    DropIsDelete(View(sys.db, sys.txs[s]), name);
  }

  lemma DropLogs(db: Db, tx: Tx, name: string)
    ensures DropAll(db, tx, name).log == tx.log + [DropQueue(name)] && DropAll(db, tx, name).notes == tx.notes
  {
    hide View;
  }

  lemma DropIsDelete(view: Db, name: string)
    requires Next(view, DropQueue(name)).Some?
    ensures Next(view, DropQueue(name)) == Some(Engine.DeleteQueue(view, name))
  {
  }

  /** However other sessions come in between, a delete_queue that comes to its end has logged exactly the drop of
      its queue, and its session sees neither the queue nor any job of it; what it commits then is without them. */
  lemma DeleteStatement(sys: Sys, s: Sid, name: string, evs: seq<Event>)
    requires Inv(sys) && s in sys.txs && DeleteEvents(s, name, evs) && Execute(sys, evs).Some?
    requires Step(Execute(sys, evs).value, Do(s, DropDone)).Some?
    ensures var after := Step(Execute(sys, evs).value, Do(s, DropDone)).value;
            && s in after.txs && after.txs[s].stmt == Idle
            && after.txs[s].log == sys.txs[s].log + [DropQueue(name)]
            && Step(after, Commit(s)).Some?
            && (var db := Step(after, Commit(s)).value.db;
                name !in db.queues && forall id | id in db.jobs :: db.jobs[id].name != name)
  {
    hide View, Inv, Execute, Engine.DeleteQueue;
    DeleteProgress(sys, s, name, evs);
    KeepsInv(sys, evs);
    var last := Execute(sys, evs).value;
    DropDoneDrops(last, s);
    NothingLeft(View(last.db, last.txs[s]), name);
  }

  lemma NothingLeft(view: Db, name: string)
    ensures var db := Engine.DeleteQueue(view, name);
            name !in db.queues && forall id | id in db.jobs :: db.jobs[id].name != name
  {
  }

  lemma {:induction false} KeepsInv(sys: Sys, evs: seq<Event>)
    requires Inv(sys) && Execute(sys, evs).Some?
    ensures Inv(Execute(sys, evs).value)
    decreases |evs|
  {
    hide Inv, Step;
    if evs != [] {
      KeepsInv(sys, evs[..|evs| - 1]);
      StepOk(Execute(sys, evs[..|evs| - 1]).value, evs[|evs| - 1]);
    }
  }

  // a deletion that nobody holds up

  /** Nobody else holds the queue or a row of it. */
  ghost predicate Free(sys: Sys, s: Sid, name: string)
    requires s in sys.txs
  {
    && name !in OthersOf(sys, s).owns + OthersOf(sys, s).shares
    && forall id | id in RowsOf(View(sys.db, sys.txs[s]).jobs, name) :: id !in OthersOf(sys, s).locks
  }

  lemma CascadeOne(sys: Sys, s: Sid, id: Id)
    requires s in sys.txs && sys.txs[s].stmt.Cascading? && id in sys.txs[s].stmt.todo && id !in OthersOf(sys, s).locks
    ensures var after := Step(sys, Do(s, CascadeRow(id)));
            && after.Some? && s in after.value.txs && after.value.db == sys.db
            && after.value.txs[s].stmt == sys.txs[s].stmt.(todo := sys.txs[s].stmt.todo - {id})
            && OthersOf(after.value, s) == OthersOf(sys, s)
  {
    hide View;
    var after := Step(sys, Do(s, CascadeRow(id))).value;
    SameOthers(sys, after, s);
  }

  lemma SameOthers(sys: Sys, after: Sys, s: Sid)
    requires forall o | o != s :: (o in after.txs <==> o in sys.txs) && (o in sys.txs ==> after.txs[o] == sys.txs[o])
    ensures OthersOf(after, s) == OthersOf(sys, s)
  {
    assert OthersOf(after, s).locks == OthersOf(sys, s).locks;
    assert OthersOf(after, s).shares == OthersOf(sys, s).shares;
    assert OthersOf(after, s).owns == OthersOf(sys, s).owns;
  }

  lemma {:induction false} Cascades(sys: Sys, s: Sid) returns (after: Sys)
    requires Inv(sys) && s in sys.txs && sys.txs[s].stmt.Cascading?
    requires forall id | id in sys.txs[s].stmt.todo :: id !in OthersOf(sys, s).locks
    ensures LeadsTo(sys, after) && Inv(after) && s in after.txs
    ensures after.txs[s].stmt == Cascading(sys.txs[s].stmt.name, {})
    decreases |sys.txs[s].stmt.todo|
  {
    hide Inv, OthersOf, Step, LeadsTo;
    if sys.txs[s].stmt.todo == {} {
      after := sys;
      Here(sys);
    } else {
      var id :| id in sys.txs[s].stmt.todo;
      CascadeOne(sys, s, id);
      StepOk(sys, Do(s, CascadeRow(id)));
      var mid := Step(sys, Do(s, CascadeRow(id))).value;
      after := Cascades(mid, s);
      StepLeads(sys, Do(s, CascadeRow(id)));
      LeadsOn(sys, mid, after);
    }
  }

  lemma Here(sys: Sys)
    ensures LeadsTo(sys, sys)
  {
    assert Execute(sys, []) == Some(sys);
  }

  /** A queue that a session can see, and that nobody else holds, it can delete. */
  lemma DeleteRuns(sys: Sys, s: Sid, name: string) returns (after: Sys)
    requires Inv(sys) && s in sys.txs && sys.txs[s].stmt == Idle
    requires VisibleQueue(sys.db, sys.txs[s], name).Some? && Free(sys, s, name)
    ensures LeadsTo(sys, after) && s in after.txs && after.txs[s].stmt == Idle
    ensures var view := View(after.db, after.txs[s]);
            name !in view.queues && forall id | id in view.jobs :: view.jobs[id].name != name
  {
    hide Inv, LeadsTo, Engine.DeleteQueue, View;
    var locked := Locks(sys, s, name);
    var ready := Cascades(locked, s);
    LastDrop(ready, s);
    DropDoneDrops(ready, s);
    after := Step(ready, Do(s, DropDone)).value;
    NothingLeft(View(ready.db, ready.txs[s]), name);
    StepLeads(ready, Do(s, DropDone));
    LeadsOn(sys, locked, ready);
    LeadsOn(sys, ready, after);
  }

  lemma LastDrop(sys: Sys, s: Sid)
    requires s in sys.txs && sys.txs[s].stmt.Cascading? && sys.txs[s].stmt.todo == {}
    ensures Step(sys, Do(s, DropDone)).Some?
  {
    hide View, DropAll;
  }

  lemma Locks(sys: Sys, s: Sid, name: string) returns (locked: Sys)
    requires Inv(sys) && s in sys.txs && sys.txs[s].stmt == Idle
    requires VisibleQueue(sys.db, sys.txs[s], name).Some? && Free(sys, s, name)
    ensures LeadsTo(sys, locked) && Inv(locked) && s in locked.txs
    ensures locked.txs[s].stmt.Cascading? && locked.txs[s].stmt.name == name
    ensures forall id | id in locked.txs[s].stmt.todo :: id !in OthersOf(locked, s).locks
  {
    hide Inv, View, LeadsTo;
    var seen := VisibleQueue(sys.db, sys.txs[s], name).value;
    var scanned := Step(sys, Do(s, DropScan(name))).value;
    SameOthers(sys, scanned, s);
    ViewIgnoresStmt(sys.db, sys.txs[s], Dropping(name, seen));
    StepOk(sys, Do(s, DropScan(name)));
    locked := Step(scanned, Do(s, DropLock)).value;
    SameOthers(scanned, locked, s);
    StepOk(scanned, Do(s, DropLock));
    StepLeads(sys, Do(s, DropScan(name)));
    StepLeads(scanned, Do(s, DropLock));
    LeadsOn(sys, scanned, locked);
  }

  // ---------------------------------------------------------------------------
  // What a statement waits for
  // ---------------------------------------------------------------------------

  /** Statements begin at once, but for a queue that another session is about to create or delete; a send begins
      exactly if it can succeed. */
  lemma Begins(sys: Sys, s: Sid, name: string, batch: nat, id: Id, output: Option<Json>, data: Option<Json>,
               opts: Engine.QueueOptions, sendOpts: Engine.SendOptions)
    requires s in sys.txs && sys.txs[s].stmt == Idle
    ensures Step(sys, Do(s, FetchScan(name, batch))).Some? && Step(sys, Do(s, ExpireScan)).Some?
    ensures Step(sys, Do(s, CompleteScan(name, id, output))).Some? && Step(sys, Do(s, FailScan(name, id, output))).Some?
    ensures Step(sys, Do(s, DropScan(name))).Some?
    ensures Step(sys, Do(s, CreateQueue(name, opts))).Some? <==> name !in OthersOf(sys, s).owns
    ensures Step(sys, Do(s, SendScan(name, data, sendOpts))).Some? <==>
              Engine.Send(View(sys.db, sys.txs[s]), 0, name, data, sendOpts, sys.txs[s].now).Ok?
  {
    hide View, OthersOf, Engine.Enqueue;
    ViewQueues(sys.db, sys.txs[s], name);
  }

  /** A row is written or deleted as soon as no other session holds it, and a statement ends when all its rows are
      done; a fetch never waits. */
  lemma WaitsForRows(sys: Sys, s: Sid, id: Id)
    requires s in sys.txs
    ensures var tx, held := sys.txs[s], OthersOf(sys, s).locks;
            && (tx.stmt.Completing? || tx.stmt.Failing? ==> (Step(sys, Do(s, OutcomeRow)).Some? <==> tx.stmt.id !in held))
            && (tx.stmt.Expiring? ==> (Step(sys, Do(s, ExpireNext(id))).Some? <==> id in tx.stmt.todo && id !in held))
            && (tx.stmt.Purging? ==> (Step(sys, Do(s, PurgeNext(id))).Some? <==> id in tx.stmt.todo && id !in held))
            && (tx.stmt.Cascading? ==> (Step(sys, Do(s, CascadeRow(id))).Some? <==> id in tx.stmt.todo && id !in held))
            && (tx.stmt.Expiring? && tx.stmt.todo == {} ==> Step(sys, Do(s, PurgeScan)).Some?)
            && (tx.stmt.Purging? && tx.stmt.todo == {} ==> Step(sys, Do(s, MaintainDone)).Some?)
            && (tx.stmt.Cascading? && tx.stmt.todo == {} ==> Step(sys, Do(s, DropDone)).Some?)
            && (tx.stmt.Fetching? && tx.stmt.room > 0 && tx.stmt.rows != [] ==> Step(sys, Do(s, FetchNext)).Some?)
            && (tx.stmt == Idle ==> Step(sys, Commit(s)).Some?) && Step(sys, Abort(s)).Some?
  {
    hide View, OthersOf, Visit, FailVisit, FetchRow, DropAll;
  }
}
