/**
 Every interleaving of open transactions refines a serial run of the atomic machine: replaying the logs of
 the committed transactions, in commit order, yields the committed database.
 */
module Serialization {
  import opened Base
  import opened Channels
  import opened Jobs
  import opened Lifecycle
  import opened Sessions
  import Engine

  /** `other` is a database the transaction cannot tell from `db` by what it has locked. */
  ghost predicate Compatible(db: Db, other: Db, tx: Tx) {
    && (forall id | id in tx.locks :: RowAt(other, id) == RowAt(db, id) && (id in other.issued <==> id in db.issued))
    && (forall name | name in tx.shares + tx.owns :: QueueAt(other, name) == QueueAt(db, name))
    && (forall id | id in other.jobs && id !in tx.locks && other.jobs[id].name in tx.owns ::
          id in db.jobs && db.jobs[id].name == other.jobs[id].name)
  }

  /** The log tells what the transaction did, whatever others commit meanwhile. */
  ghost predicate Faithful(db: Db, tx: Tx) {
    forall other: Db | Compatible(db, other, tx) :: Run(other, tx.log) == Some(View(other, tx))
  }

  /** What an open transaction has locked before it wrote. */
  ghost predicate Guarded(db: Db, tx: Tx) {
    && tx.writes.Keys <= tx.locks
    && tx.inserted <= tx.locks
    && tx.inserted !! db.issued
    && tx.qwrites.Keys <= tx.owns
    && (forall name | name in tx.shares :: name in db.queues || name in tx.owns)
    && (forall id | id in tx.writes && tx.writes[id].Some? ::
          var name := tx.writes[id].value.name;
          name in tx.shares + tx.owns || (id in db.jobs && db.jobs[id].name == name))
  }

  /** While a queue is being dropped, its rows are locked or still on the list. */
  ghost predicate CascadeOk(db: Db, tx: Tx) {
    tx.stmt.Cascading? ==>
      && tx.stmt.name in tx.owns
      && VisibleQueue(db, tx, tx.stmt.name).Some?
      && forall id | Visible(db, tx, id).Some? && Visible(db, tx, id).value.name == tx.stmt.name ::
           id in tx.stmt.todo || id in tx.locks
  }

  ghost predicate TxOk(db: Db, tx: Tx) {
    Guarded(db, tx) && CascadeOk(db, tx) && Faithful(db, tx)
  }

  /** No row is held by two sessions; an owned queue row is held by no other session in any way. */
  ghost predicate Apart(a: Tx, b: Tx) {
    && a.locks !! b.locks
    && a.owns !! b.owns
    && a.owns !! b.shares
    && b.owns !! a.shares
  }

  ghost predicate Inv(sys: Sys) {
    && Run(EMPTY_DB, sys.trace) == Some(sys.db)
    && sys.db.issued <= sys.drawn && sys.db.jobs.Keys <= sys.drawn
    && (forall s | s in sys.txs :: TxOk(sys.db, sys.txs[s]) && sys.txs[s].locks <= sys.drawn
                                   && sys.txs[s].now <= sys.clock)
    && (forall s, o | s in sys.txs && o in sys.txs && s != o :: Apart(sys.txs[s], sys.txs[o]))
  }

  // ---- views ----

  lemma ViewRows(db: Db, tx: Tx, id: Id)
    ensures RowAt(View(db, tx), id) == Visible(db, tx, id)
  {
  }

  lemma ViewQueues(db: Db, tx: Tx, name: string)
    ensures QueueAt(View(db, tx), name) == VisibleQueue(db, tx, name)
  {
  }

  /** A view is determined by its rows, its queues and the ids issued. */
  lemma SameDb(a: Db, b: Db)
    requires forall id :: RowAt(a, id) == RowAt(b, id)
    requires forall name :: QueueAt(a, name) == QueueAt(b, name)
    requires a.issued == b.issued
    ensures a == b
  {
    assert forall id :: id in a.jobs <==> RowAt(a, id).Some?;
    assert forall id :: id in b.jobs <==> RowAt(b, id).Some?;
    assert forall name :: name in a.queues <==> QueueAt(a, name).Some?;
    assert forall name :: name in b.queues <==> QueueAt(b, name).Some?;
    assert a.jobs == b.jobs;
    assert a.queues == b.queues;
  }

  // ---- logging one more operation ----

  /** `tx'` holds at least what `tx` holds. */
  ghost predicate Holds(tx: Tx, tx': Tx) {
    tx.locks <= tx'.locks && tx.shares <= tx'.shares && tx.owns <= tx'.owns
  }

  lemma CompatibleDown(db: Db, other: Db, tx: Tx, tx': Tx)
    requires Holds(tx, tx') && Compatible(db, other, tx')
    ensures Compatible(db, other, tx)
  {
    forall id | id in other.jobs && id !in tx.locks && other.jobs[id].name in tx.owns
      ensures id in db.jobs && db.jobs[id].name == other.jobs[id].name
    {
      if id in tx'.locks {
        assert RowAt(other, id) == RowAt(db, id);
      }
    }
  }

  lemma FaithfulSnoc(db: Db, tx: Tx, tx': Tx, op: Op)
    requires Faithful(db, tx) && Holds(tx, tx') && tx'.log == tx.log + [op]
    requires forall other: Db | Compatible(db, other, tx') :: Next(View(other, tx), op) == Some(View(other, tx'))
    ensures Faithful(db, tx')
  {
    hide Next, View, Compatible;
    forall other: Db | Compatible(db, other, tx') ensures Run(other, tx'.log) == Some(View(other, tx')) {
      CompatibleDown(db, other, tx, tx');
      RunSnoc(other, tx.log, op);
    }
  }

  lemma ViewSame(db: Db, tx: Tx, tx': Tx)
    requires tx'.writes == tx.writes && tx'.qwrites == tx.qwrites && tx'.inserted == tx.inserted
    ensures View(db, tx') == View(db, tx)
  {
    forall id ensures RowAt(View(db, tx'), id) == RowAt(View(db, tx), id) {
      ViewRows(db, tx, id);
      ViewRows(db, tx', id);
    }
    forall name ensures QueueAt(View(db, tx'), name) == QueueAt(View(db, tx), name) {
      ViewQueues(db, tx, name);
      ViewQueues(db, tx', name);
    }
    SameDb(View(db, tx'), View(db, tx));
  }

  /** Taking locks and moving on in the statement log nothing. */
  lemma FaithfulSame(db: Db, tx: Tx, tx': Tx)
    requires Faithful(db, tx) && Holds(tx, tx') && tx'.log == tx.log
    requires tx'.writes == tx.writes && tx'.qwrites == tx.qwrites && tx'.inserted == tx.inserted
    ensures Faithful(db, tx')
  {
    hide Run, View, Compatible;
    forall other: Db | Compatible(db, other, tx') ensures Run(other, tx'.log) == Some(View(other, tx')) {
      CompatibleDown(db, other, tx, tx');
      ViewSame(other, tx, tx');
    }
  }

  // ---- one row ----

  predicate OnRow(op: Op, id: Id) {
    (op.Claim? || op.Complete? || op.Fail? || op.Expire? || op.Purge?) && op.id == id
  }

  lemma RowOpApplies(db: Db, op: Op, id: Id, row: Job)
    requires OnRow(op, id) && RowAt(db, id) == Some(row) && RowEnabled(Some(row), op, id)
    ensures Enabled(db, op)
    ensures Apply(db, op).queues == db.queues && Apply(db, op).issued == db.issued
    ensures forall i :: RowAt(Apply(db, op), i) == if i == id then RowAfter(Some(row), op, id) else RowAt(db, i)
  {
  }

  lemma RowOpView(db: Db, other: Db, tx: Tx, tx': Tx, op: Op, id: Id, row: Job)
    requires Compatible(db, other, tx') && id in tx'.locks
    requires Visible(db, tx, id) == Some(row) && OnRow(op, id) && RowEnabled(Some(row), op, id)
    requires tx'.writes == tx.writes[id := RowAfter(Some(row), op, id)]
    requires tx'.qwrites == tx.qwrites && tx'.inserted == tx.inserted
    ensures Next(View(other, tx), op) == Some(View(other, tx'))
  {
    hide View, RowEnabled, RowAfter, Apply, Enabled;
    ViewRows(other, tx, id);
    RowOpApplies(View(other, tx), op, id, row);
    var after := Apply(View(other, tx), op);
    forall i ensures RowAt(after, i) == RowAt(View(other, tx'), i) {
      ViewRows(other, tx, i);
      ViewRows(other, tx', i);
    }
    forall name ensures QueueAt(after, name) == QueueAt(View(other, tx'), name) {
      ViewQueues(other, tx, name);
      ViewQueues(other, tx', name);
    }
    ViewIssued(other, tx);
    ViewIssued(other, tx');
    SameDb(after, View(other, tx'));
  }

  lemma ViewIssued(db: Db, tx: Tx)
    ensures View(db, tx).issued == db.issued + tx.inserted
  {
  }

  /** A visit keeps every promise of the transaction. */
  lemma VisitOk(db: Db, tx: Tx, id: Id, op: Op)
    requires TxOk(db, tx) && OnRow(op, id) && !tx.stmt.Cascading?
    ensures TxOk(db, Visit(db, tx, id, op))
    ensures var tx' := Visit(db, tx, id, op);
            && Holds(tx, tx') && tx'.locks <= tx.locks + {id}
            && tx'.shares == tx.shares && tx'.owns == tx.owns && tx'.inserted == tx.inserted && tx'.stmt == tx.stmt
            && tx'.now == tx.now
  {
    var tx' := Visit(db, tx, id, op);
    if Visible(db, tx, id).Some? {
      var row := Visible(db, tx, id).value;
      if RowEnabled(Some(row), op, id) {
        forall other: Db | Compatible(db, other, tx') ensures Next(View(other, tx), op) == Some(View(other, tx')) {
          RowOpView(db, other, tx, tx', op, id, row);
        }
        FaithfulSnoc(db, tx, tx', op);
        WriteGuarded(db, tx, id, op, row);
      } else {
        FaithfulSame(db, tx, tx');
      }
    }
  }

  lemma WriteGuarded(db: Db, tx: Tx, id: Id, op: Op, row: Job)
    requires Guarded(db, tx) && OnRow(op, id)
    requires Visible(db, tx, id) == Some(row) && RowEnabled(Some(row), op, id)
    ensures Guarded(db, Write(tx, id, RowAfter(Some(row), op, id), op))
  {
    assert RowAfter(Some(row), op, id).Some? ==> RowAfter(Some(row), op, id).value.name == row.name;
  }

  lemma MoveOn(db: Db, tx: Tx, stmt: Stmt)
    requires TxOk(db, tx) && !stmt.Cascading?
    ensures TxOk(db, tx.(stmt := stmt))
  {
    FaithfulSame(db, tx, tx.(stmt := stmt));
  }

  // ---- queues ----

  lemma OpenApplies(db: Db, name: string, q: Queue)
    requires QueueAt(db, name) == None
    ensures Next(db, OpenQueue(name, q)).Some?
    ensures var after := Next(db, OpenQueue(name, q)).value;
            && after.jobs == db.jobs && after.issued == db.issued
            && forall n :: QueueAt(after, n) == if n == name then Some(q) else QueueAt(db, n)
  {
  }

  lemma OpenOk(db: Db, tx: Tx, name: string, q: Queue)
    requires TxOk(db, tx) && tx.stmt == Idle && VisibleQueue(db, tx, name) == None
    ensures TxOk(db, tx.(qwrites := tx.qwrites[name := Some(q)], owns := tx.owns + {name},
                         log := tx.log + [OpenQueue(name, q)]))
  {
    var op := OpenQueue(name, q);
    var tx' := tx.(qwrites := tx.qwrites[name := Some(q)], owns := tx.owns + {name}, log := tx.log + [op]);
    hide View, Next;
    forall other: Db | Compatible(db, other, tx') ensures Next(View(other, tx), op) == Some(View(other, tx')) {
      assert QueueAt(other, name) == QueueAt(db, name);
      ViewQueues(other, tx, name);
      OpenApplies(View(other, tx), name, q);
      var after := Next(View(other, tx), op).value;
      forall i ensures RowAt(after, i) == RowAt(View(other, tx'), i) {
        ViewRows(other, tx, i);
        ViewRows(other, tx', i);
      }
      forall n ensures QueueAt(after, n) == QueueAt(View(other, tx'), n) {
        ViewQueues(other, tx, n);
        ViewQueues(other, tx', n);
      }
      ViewIssued(other, tx);
      ViewIssued(other, tx');
      SameDb(after, View(other, tx'));
    }
    FaithfulSnoc(db, tx, tx', op);
  }

  lemma DropLockOk(db: Db, tx: Tx)
    requires TxOk(db, tx) && tx.stmt.Dropping? && VisibleQueue(db, tx, tx.stmt.name).Some?
    ensures TxOk(db, tx.(owns := tx.owns + {tx.stmt.name},
                         stmt := Cascading(tx.stmt.name, RowsOf(View(db, tx).jobs, tx.stmt.name))))
  {
    var name := tx.stmt.name;
    var tx' := tx.(owns := tx.owns + {name}, stmt := Cascading(name, RowsOf(View(db, tx).jobs, name)));
    FaithfulSame(db, tx, tx');
    forall id | Visible(db, tx', id).Some? && Visible(db, tx', id).value.name == name
      ensures id in tx'.stmt.todo
    {
      ViewRows(db, tx, id);
    }
  }

  lemma CascadeRowOk(db: Db, tx: Tx, id: Id)
    requires TxOk(db, tx) && tx.stmt.Cascading? && id in tx.stmt.todo
    ensures var moved := tx.(stmt := tx.stmt.(todo := tx.stmt.todo - {id}));
            TxOk(db, if Visible(db, tx, id).Some? then Lock(moved, id) else moved)
  {
    var moved := tx.(stmt := tx.stmt.(todo := tx.stmt.todo - {id}));
    var tx' := if Visible(db, tx, id).Some? then Lock(moved, id) else moved;
    FaithfulSame(db, tx, tx');
    assert CascadeOk(db, tx') by {
      forall i | Visible(db, tx', i).Some? && Visible(db, tx', i).value.name == tx.stmt.name
        ensures i in tx'.stmt.todo || i in tx'.locks
      {
        assert Visible(db, tx, i) == Visible(db, tx', i);
      }
    }
  }

  lemma DropApplies(db: Db, name: string)
    requires QueueAt(db, name).Some?
    ensures Next(db, DropQueue(name)).Some?
    ensures var after := Next(db, DropQueue(name)).value;
            && after.issued == db.issued
            && (forall id :: RowAt(after, id) == if RowAt(db, id).Some? && RowAt(db, id).value.name == name
                                                 then None else RowAt(db, id))
            && forall n :: QueueAt(after, n) == if n == name then None else QueueAt(db, n)
  {
  }

  /** Whatever others commit, the rows of a queue being dropped stay the ones on the list. */
  lemma DropSees(db: Db, other: Db, tx: Tx, name: string, id: Id)
    requires TxOk(db, tx) && tx.stmt == Cascading(name, {}) && Compatible(db, other, tx)
    ensures (Visible(other, tx, id).Some? && Visible(other, tx, id).value.name == name)
            <==> id in RowsOf(View(db, tx).jobs, name)
  {
    ViewRows(db, tx, id);
    if id in tx.locks {
      assert RowAt(other, id) == RowAt(db, id);
    } else {
      assert id !in tx.writes;
    }
  }

  lemma DropDoneOk(db: Db, tx: Tx)
    requires TxOk(db, tx) && tx.stmt.Cascading? && tx.stmt.todo == {}
    ensures TxOk(db, DropAll(db, tx, tx.stmt.name).(stmt := Idle))
  {
    var name := tx.stmt.name;
    var op, gone := DropQueue(name), RowsOf(View(db, tx).jobs, name);
    var tx' := DropAll(db, tx, name).(stmt := Idle);
    forall id | id in gone ensures id in tx.locks {
      ViewRows(db, tx, id);
    }
    forall other: Db | Compatible(db, other, tx') ensures Next(View(other, tx), op) == Some(View(other, tx')) {
      CompatibleDown(db, other, tx, tx');
      DropView(db, other, tx);
    }
    FaithfulSnoc(db, tx, tx', op);
  }

  lemma DropView(db: Db, other: Db, tx: Tx)
    requires TxOk(db, tx) && tx.stmt.Cascading? && tx.stmt.todo == {} && Compatible(db, other, tx)
    ensures var name := tx.stmt.name;
            Next(View(other, tx), DropQueue(name)) == Some(View(other, DropAll(db, tx, name).(stmt := Idle)))
  {
    hide View, Next, Faithful, Guarded;
    var name := tx.stmt.name;
    var tx' := DropAll(db, tx, name).(stmt := Idle);
    assert QueueAt(other, name) == QueueAt(db, name);
    ViewQueues(other, tx, name);
    DropApplies(View(other, tx), name);
    var after := Next(View(other, tx), DropQueue(name)).value;
    forall i ensures RowAt(after, i) == RowAt(View(other, tx'), i) {
      ViewRows(other, tx, i);
      ViewRows(other, tx', i);
      DropSees(db, other, tx, name, i);
    }
    forall n ensures QueueAt(after, n) == QueueAt(View(other, tx'), n) {
      ViewQueues(other, tx, n);
      ViewQueues(other, tx', n);
    }
    ViewIssued(other, tx);
    ViewIssued(other, tx');
    SameDb(after, View(other, tx'));
  }

  // ---- inserts ----

  lemma InsertApplies(db: Db, job: Job)
    requires QueueAt(db, job.name).Some? && job.id !in db.issued && Newborn(job) && Notifiable(job.name)
    ensures Next(db, Insert(job)).Some?
    ensures var after := Next(db, Insert(job)).value;
            && after.issued == db.issued + {job.id} && after.queues == db.queues
            && forall id :: RowAt(after, id) == if id == job.id then Some(job) else RowAt(db, id)
  {
  }

  function Inserted(tx: Tx, job: Job): Tx {
    Note(Write(tx, job.id, Some(job), Insert(job)), job.name)
      .(shares := tx.shares + {job.name}, inserted := tx.inserted + {job.id}, stmt := Idle)
  }

  lemma InsertOk(db: Db, tx: Tx, job: Job)
    requires TxOk(db, tx) && Newborn(job) && Notifiable(job.name) && job.id !in db.issued + tx.inserted
    requires VisibleQueue(db, tx, job.name).Some?
    ensures TxOk(db, Inserted(tx, job))
  {
    var op, tx' := Insert(job), Inserted(tx, job);
    hide View, Next;
    forall other: Db | Compatible(db, other, tx') ensures Next(View(other, tx), op) == Some(View(other, tx')) {
      assert job.id in tx'.locks && job.name in tx'.shares + tx'.owns;
      assert QueueAt(other, job.name) == QueueAt(db, job.name);
      ViewQueues(other, tx, job.name);
      ViewIssued(other, tx);
      ViewIssued(other, tx');
      InsertApplies(View(other, tx), job);
      var after := Next(View(other, tx), op).value;
      forall i ensures RowAt(after, i) == RowAt(View(other, tx'), i) {
        ViewRows(other, tx, i);
        ViewRows(other, tx', i);
      }
      forall n ensures QueueAt(after, n) == QueueAt(View(other, tx'), n) {
        ViewQueues(other, tx, n);
        ViewQueues(other, tx', n);
      }
      SameDb(after, View(other, tx'));
    }
    FaithfulSnoc(db, tx, tx', op);
    assert Guarded(db, tx');
  }

  // ---------------------------------------------------------------------------
  // Every step of a session
  // ---------------------------------------------------------------------------

  /** What a session may rely on about the others, and they about it. */
  ghost predicate ApartFrom(tx: Tx, others: Others) {
    && tx.locks !! others.locks
    && tx.owns !! others.owns
    && tx.owns !! others.shares
    && tx.shares !! others.owns
  }

  ghost predicate OthersOk(db: Db, drawn: set<Id>, others: Others) {
    && others.locks <= drawn
    && forall name | name in others.shares :: name in db.queues || name in others.owns
  }

  /** What a step leaves true. */
  ghost predicate Stepped(db: Db, drawn: set<Id>, tx': Tx, others: Others, now: Time) {
    TxOk(db, tx') && ApartFrom(tx', others) && tx'.locks <= drawn + tx'.inserted && tx'.now == now
  }

  lemma VisitSteps(db: Db, drawn: set<Id>, tx: Tx, others: Others, id: Id, op: Op)
    requires TxOk(db, tx) && ApartFrom(tx, others) && tx.locks <= drawn && db.jobs.Keys <= drawn
    requires OnRow(op, id) && !tx.stmt.Cascading? && id !in others.locks
    ensures Stepped(db, drawn, Visit(db, tx, id, op), others, tx.now)
    ensures Visit(db, tx, id, op).stmt == tx.stmt && Visit(db, tx, id, op).inserted == tx.inserted
  {
    VisitOk(db, tx, id, op);
    if Visible(db, tx, id).Some? {
      assert id in drawn;
    }
  }

  lemma RowActOk(db: Db, drawn: set<Id>, tx: Tx, others: Others, a: Action)
    requires TxOk(db, tx) && ApartFrom(tx, others) && tx.locks <= drawn && db.jobs.Keys <= drawn
    requires a.FetchNext? || a.OutcomeRow? || a.ExpireNext? || a.PurgeNext?
    requires Act(db, drawn, tx, others, a).Some?
    ensures Stepped(db, drawn, Act(db, drawn, tx, others, a).value, others, tx.now)
  {
    hide Visit, Faithful, Guarded;
    var tx' := Act(db, drawn, tx, others, a).value;
    var id, op;
    match a {
      case FetchNext => id, op := tx.stmt.rows[0], Claim(tx.stmt.queue, tx.stmt.rows[0], tx.now);
      case ExpireNext(i) => id, op := i, Expire(i, tx.now);
      case PurgeNext(i) => id, op := i, Purge(i, tx.now);
      case OutcomeRow =>
        id := tx.stmt.id;
        op := if tx.stmt.Completing? then Complete(tx.stmt.queue, id, tx.now, tx.stmt.output)
              else Fail(tx.stmt.queue, id, tx.now, tx.stmt.output);
    }
    if id in others.locks {
      MoveOn(db, tx, tx'.stmt);
    } else {
      VisitSteps(db, drawn, tx, others, id, op);
      var visited := Visit(db, tx, id, op);
      NoteOk(db, visited, tx'.notes);
      MoveOn(db, visited.(notes := tx'.notes), tx'.stmt);
    }
  }

  lemma NoteOk(db: Db, tx: Tx, notes: seq<string>)
    requires TxOk(db, tx)
    ensures TxOk(db, tx.(notes := notes))
  {
    FaithfulSame(db, tx, tx.(notes := notes));
    assert forall id :: Visible(db, tx.(notes := notes), id) == Visible(db, tx, id);
  }

  lemma QueueActOk(db: Db, drawn: set<Id>, tx: Tx, others: Others, a: Action)
    requires TxOk(db, tx) && ApartFrom(tx, others) && tx.locks <= drawn && db.jobs.Keys <= drawn
    requires OthersOk(db, drawn, others)
    requires a.CreateQueue? || a.DropScan? || a.DropLock? || a.CascadeRow? || a.DropDone?
    requires Act(db, drawn, tx, others, a).Some?
    ensures Stepped(db, drawn, Act(db, drawn, tx, others, a).value, others, tx.now)
  {
    hide View, Faithful;
    match a
    case CreateQueue(name, defaults) =>
      if VisibleQueue(db, tx, name).None? {
        OpenOk(db, tx, name, Engine.NewQueue(defaults, tx.now));
        assert name !in others.shares;
      }
    case DropScan(name) =>
      if VisibleQueue(db, tx, name).Some? {
        MoveOn(db, tx, Dropping(name, VisibleQueue(db, tx, name).value));
      }
    case DropLock =>
      if VisibleQueue(db, tx, tx.stmt.name) == Some(tx.stmt.seen) {
        DropLockOk(db, tx);
      } else {
        MoveOn(db, tx, Idle);
      }
    case CascadeRow(id) =>
      CascadeRowOk(db, tx, id);
      assert Visible(db, tx, id).Some? ==> id in drawn;
    case DropDone =>
      DropDoneOk(db, tx);
  }

  lemma ScanActOk(db: Db, drawn: set<Id>, tx: Tx, others: Others, a: Action)
    requires TxOk(db, tx) && ApartFrom(tx, others) && tx.locks <= drawn && db.issued <= drawn
    requires OthersOk(db, drawn, others) && tx.inserted <= drawn
    requires a.SendScan? || a.SendInsert? || a.FetchScan? || a.CompleteScan? || a.FailScan?
             || a.ExpireScan? || a.PurgeScan? || a.MaintainDone?
    requires Act(db, drawn, tx, others, a).Some?
    ensures Stepped(db, drawn, Act(db, drawn, tx, others, a).value, others, tx.now)
  {
    hide View, Faithful, Guarded;
    var tx' := Act(db, drawn, tx, others, a).value;
    if a.SendInsert? {
      var job := Engine.Enqueue(a.id, tx.stmt.name, tx.stmt.q, tx.stmt.data, tx.stmt.opts, tx.now).value;
      InsertOk(db, tx, job);
      assert tx' == Inserted(tx, job);
    } else {
      MoveOn(db, tx, tx'.stmt);
      assert tx' == tx.(stmt := tx'.stmt);
    }
  }

  lemma ActOk(db: Db, drawn: set<Id>, tx: Tx, others: Others, a: Action)
    requires TxOk(db, tx) && ApartFrom(tx, others) && tx.locks <= drawn
    requires db.issued <= drawn && db.jobs.Keys <= drawn && OthersOk(db, drawn, others)
    requires Act(db, drawn, tx, others, a).Some?
    ensures Stepped(db, drawn, Act(db, drawn, tx, others, a).value, others, tx.now)
  {
    hide Act, Stepped, Faithful;
    match a
    case CreateQueue(_, _) => QueueActOk(db, drawn, tx, others, a);
    case DropScan(_) => QueueActOk(db, drawn, tx, others, a);
    case DropLock => QueueActOk(db, drawn, tx, others, a);
    case CascadeRow(_) => QueueActOk(db, drawn, tx, others, a);
    case DropDone => QueueActOk(db, drawn, tx, others, a);
    case FetchNext => RowActOk(db, drawn, tx, others, a);
    case OutcomeRow => RowActOk(db, drawn, tx, others, a);
    case ExpireNext(_) => RowActOk(db, drawn, tx, others, a);
    case PurgeNext(_) => RowActOk(db, drawn, tx, others, a);
    case _ => ScanActOk(db, drawn, tx, others, a);
  }

  // ---------------------------------------------------------------------------
  // Commits seen from the other sessions
  // ---------------------------------------------------------------------------

  lemma CommitCompatible(db: Db, tx: Tx, o: Tx)
    requires TxOk(db, tx) && TxOk(db, o) && Apart(tx, o)
    ensures Compatible(db, View(db, o), tx)
  {
    hide View, Faithful;
    ViewIssued(db, o);
    forall id | id in tx.locks
      ensures RowAt(View(db, o), id) == RowAt(db, id) && (id in View(db, o).issued <==> id in db.issued)
    {
      ViewRows(db, o, id);
    }
    forall name | name in tx.shares + tx.owns ensures QueueAt(View(db, o), name) == QueueAt(db, name) {
      ViewQueues(db, o, name);
    }
    forall id | id in View(db, o).jobs && View(db, o).jobs[id].name in tx.owns
      ensures id in db.jobs && db.jobs[id].name == View(db, o).jobs[id].name
    {
      ViewRows(db, o, id);
    }
  }

  lemma CompatibleTrans(a: Db, b: Db, c: Db, tx: Tx)
    requires Compatible(a, b, tx) && Compatible(b, c, tx)
    ensures Compatible(a, c, tx)
  {
    forall id | id in c.jobs && id !in tx.locks && c.jobs[id].name in tx.owns
      ensures id in a.jobs && a.jobs[id].name == c.jobs[id].name
    {
      assert id in b.jobs && b.jobs[id].name == c.jobs[id].name;
    }
  }

  lemma CompatibleStable(db: Db, db': Db, tx: Tx)
    requires TxOk(db, tx) && Compatible(db, db', tx)
    ensures TxOk(db', tx)
  {
    forall other: Db | Compatible(db', other, tx) ensures Run(other, tx.log) == Some(View(other, tx)) {
      CompatibleTrans(db, db', other, tx);
    }
    assert Guarded(db', tx) by {
      forall id | id in tx.writes && tx.writes[id].Some?
        ensures var name := tx.writes[id].value.name;
                name in tx.shares + tx.owns || (id in db'.jobs && db'.jobs[id].name == name)
      {
        assert RowAt(db', id) == RowAt(db, id);
      }
      forall name | name in tx.shares ensures name in db'.queues || name in tx.owns {
        assert QueueAt(db', name) == QueueAt(db, name);
      }
    }
    assert CascadeOk(db', tx) by {
      if tx.stmt.Cascading? {
        assert QueueAt(db', tx.stmt.name) == QueueAt(db, tx.stmt.name);
        forall id | Visible(db', tx, id).Some? && Visible(db', tx, id).value.name == tx.stmt.name
          ensures id in tx.stmt.todo || id in tx.locks
        {
          if id !in tx.locks {
            assert Visible(db, tx, id).Some? && Visible(db, tx, id).value.name == tx.stmt.name;
          }
        }
      }
    }
  }

  lemma CompatibleSelf(db: Db, tx: Tx)
    ensures Compatible(db, db, tx)
  {
  }

  // ---------------------------------------------------------------------------
  // Whole runs
  // ---------------------------------------------------------------------------

  lemma OthersApart(sys: Sys, s: Sid)
    requires Inv(sys) && s in sys.txs
    ensures ApartFrom(sys.txs[s], OthersOf(sys, s)) && OthersOk(sys.db, sys.drawn, OthersOf(sys, s))
  {
    hide TxOk, Run;
    forall o | o in sys.txs ensures Guarded(sys.db, sys.txs[o]) {
      TxGuarded(sys.db, sys.txs[o]);
    }
  }

  lemma TxGuarded(db: Db, tx: Tx)
    requires TxOk(db, tx)
    ensures Guarded(db, tx)
  {
  }

  lemma DoOk(sys: Sys, s: Sid, a: Action)
    requires Inv(sys) && Step(sys, Do(s, a)).Some?
    ensures Inv(Step(sys, Do(s, a)).value)
  {
    hide TxOk, Run, Act;
    OthersApart(sys, s);
    var others := OthersOf(sys, s);
    ActOk(sys.db, sys.drawn, sys.txs[s], others, a);
    var sys' := Step(sys, Do(s, a)).value;
    var tx' := sys'.txs[s];
    forall o | o in sys'.txs && o != s ensures Apart(tx', sys'.txs[o]) {
      assert sys.txs[o].locks <= others.locks;
      assert sys.txs[o].owns <= others.owns;
      assert sys.txs[o].shares <= others.shares;
    }
  }

  lemma CommitOk(sys: Sys, s: Sid)
    requires Inv(sys) && Step(sys, Commit(s)).Some?
    ensures Inv(Step(sys, Commit(s)).value)
  {
    hide TxOk, View;
    var tx := sys.txs[s];
    var sys' := Step(sys, Commit(s)).value;
    CommitReplays(sys.db, tx);
    RunConcat(EMPTY_DB, sys.trace, tx.log);
    CommitDrawn(sys.db, tx);
    forall o | o in sys'.txs ensures TxOk(sys'.db, sys'.txs[o]) {
      CommitCompatible(sys.db, sys.txs[o], tx);
      CompatibleStable(sys.db, sys'.db, sys.txs[o]);
    }
  }

  lemma CommitReplays(db: Db, tx: Tx)
    requires TxOk(db, tx)
    ensures Run(db, tx.log) == Some(View(db, tx))
  {
    CompatibleSelf(db, tx);
  }

  lemma CommitDrawn(db: Db, tx: Tx)
    requires TxOk(db, tx)
    ensures View(db, tx).issued <= db.issued + tx.locks
    ensures View(db, tx).jobs.Keys <= db.jobs.Keys + tx.locks
  {
  }

  lemma BeginOk(db: Db, now: Time)
    ensures TxOk(db, NewTx(now))
  {
    var tx := NewTx(now);
    forall other: Db ensures View(other, tx) == other {
      forall id ensures RowAt(View(other, tx), id) == RowAt(other, id) {
        ViewRows(other, tx, id);
      }
      forall name ensures QueueAt(View(other, tx), name) == QueueAt(other, name) {
        ViewQueues(other, tx, name);
      }
      SameDb(View(other, tx), other);
    }
  }

  lemma StepOk(sys: Sys, ev: Event)
    requires Inv(sys) && Step(sys, ev).Some?
    ensures Inv(Step(sys, ev).value)
  {
    match ev
    case Tick(_) =>
    case Begin(_) => BeginOk(sys.db, sys.clock);
    case Do(s, a) => DoOk(sys, s, a);
    case Commit(s) => CommitOk(sys, s);
    case Abort(_) =>
  }

  lemma {:induction false} Reached(evs: seq<Event>)
    requires Execute(INIT, evs).Some?
    ensures Inv(Execute(INIT, evs).value)
    decreases |evs|
  {
    if evs != [] {
      Reached(evs[..|evs| - 1]);
      StepOk(Execute(INIT, evs[..|evs| - 1]).value, evs[|evs| - 1]);
    }
  }
}
