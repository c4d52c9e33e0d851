/**
 The functions of `boss` as PostgreSQL runs them at READ COMMITTED: many sessions at once, each in a
 transaction of its own, one row at a time. A statement scans a snapshot, then visits the rows it found;
 at each row it takes the row lock (or skips the row, or waits), re-checks its WHERE clause on the latest
 version, and writes. Locks and writes last until the transaction ends.
 */
module Sessions {
  import opened Base
  import opened Json
  import opened Jobs
  import opened Lifecycle
  import Engine
  import Ordering

  type Sid = nat

  /** How far the running statement of a transaction got. */
  datatype Stmt =
    | Idle
    | Sending(name: string, q: Queue, data: Option<Json>, opts: Engine.SendOptions)
    | Fetching(queue: string, room: nat, rows: seq<Id>)
    | Completing(queue: string, id: Id, output: Option<Json>)
    | Failing(queue: string, id: Id, output: Option<Json>)
    | Expiring(todo: set<Id>)
    | Purging(todo: set<Id>)
    | Dropping(name: string, seen: Queue)
    | Cascading(name: string, todo: set<Id>)

  /**
   An open transaction: uncommitted row versions (None for a deleted row), the rows and queue rows it holds
   (`shares` are the FOR KEY SHARE locks of foreign-key checks), the ids it inserted, the notifications it
   will send, and the log of what it did, one atomic operation per effect.
   */
  datatype Tx = Tx(
    now: Time,
    writes: map<Id, Option<Job>>,
    qwrites: map<string, Option<Queue>>,
    locks: set<Id>,
    shares: set<string>,
    owns: set<string>,
    inserted: set<Id>,
    notes: seq<string>,
    log: seq<Op>,
    stmt: Stmt)

  function NewTx(now: Time): Tx {
    Tx(now, map[], map[], {}, {}, {}, {}, [], [], Idle)
  }

  /** `trace` lists the operations of the committed transactions, in commit order. */
  datatype Sys = Sys(db: Db, clock: Time, txs: map<Sid, Tx>, drawn: set<Id>, trace: seq<Op>)

  const INIT: Sys := Sys(EMPTY_DB, 0, map[], {}, [])

  // ---- what a transaction sees ----

  function QueueAt(db: Db, name: string): Option<Queue> {
    if name in db.queues then Some(db.queues[name]) else None
  }

  function Visible(db: Db, tx: Tx, id: Id): Option<Job> {
    if id in tx.writes then tx.writes[id] else RowAt(db, id)
  }

  function VisibleQueue(db: Db, tx: Tx, name: string): Option<Queue> {
    if name in tx.qwrites then tx.qwrites[name] else QueueAt(db, name)
  }

  /** The committed database with the transaction's own writes on top. Committing makes it the database. */
  function View(db: Db, tx: Tx): Db {
    Db(map name | name in db.queues.Keys + tx.qwrites.Keys && VisibleQueue(db, tx, name).Some? ::
         VisibleQueue(db, tx, name).value,
       map id | id in db.jobs.Keys + tx.writes.Keys && Visible(db, tx, id).Some? ::
         Visible(db, tx, id).value,
       db.issued + tx.inserted)
  }

  /** What the other sessions hold. */
  datatype Others = Others(locks: set<Id>, shares: set<string>, owns: set<string>)

  function OthersOf(sys: Sys, s: Sid): Others {
    Others(set o, id | o in sys.txs && o != s && id in sys.txs[o].locks :: id,
           set o, name | o in sys.txs && o != s && name in sys.txs[o].shares :: name,
           set o, name | o in sys.txs && o != s && name in sys.txs[o].owns :: name)
  }

  // ---- effects ----

  function Lock(tx: Tx, id: Id): Tx {
    tx.(locks := tx.locks + {id})
  }

  /** Locks a row, stores its new version, and logs the operation. */
  function Write(tx: Tx, id: Id, row: Option<Job>, op: Op): Tx {
    tx.(locks := tx.locks + {id}, writes := tx.writes[id := row], log := tx.log + [op])
  }

  function Note(tx: Tx, name: string): Tx {
    tx.(notes := tx.notes + [name])
  }

  /** Visits one row: re-checks the condition of `op` on the latest version and applies it. The lock stays
      even when the re-check fails. A row deleted meanwhile cannot be locked. */
  function Visit(db: Db, tx: Tx, id: Id, op: Op): Tx {
    match Visible(db, tx, id)
    case None => tx
    case Some(row) =>
      if RowEnabled(Some(row), op, id) then Write(tx, id, RowAfter(Some(row), op, id), op)
      else Lock(tx, id)
  }

  function Resume(queue: string, room: nat, rows: seq<Id>): Stmt {
    if room == 0 || rows == [] then Idle else Fetching(queue, room, rows)
  }

  /** FOR UPDATE SKIP LOCKED, one row: skipped if another session holds it. */
  function FetchRow(db: Db, tx: Tx, others: Others): Tx
    requires tx.stmt.Fetching? && tx.stmt.room > 0 && tx.stmt.rows != []
  {
    var Fetching(queue, room, rows) := tx.stmt;
    var id, op := rows[0], Claim(queue, rows[0], tx.now);
    if id in others.locks then
      tx.(stmt := Resume(queue, room, rows[1..]))
    else
      var tx' := Visit(db, tx, id, op);
      tx'.(stmt := Resume(queue, if |tx'.log| > |tx.log| then room - 1 else room, rows[1..]))
  }

  /** fail, once the row lock is granted: a retry also notifies. */
  function FailVisit(db: Db, tx: Tx, queue: string, id: Id, output: Option<Json>): Tx {
    var tx' := Visit(db, tx, id, Fail(queue, id, tx.now, output));
    if |tx'.log| > |tx.log| && tx'.writes[id].Some? && tx'.writes[id].value.state == Retry
    then Note(tx', queue) else tx'
  }

  function DropAll(db: Db, tx: Tx, name: string): Tx {
    var gone := RowsOf(View(db, tx).jobs, name);
    tx.(writes := map id | id in tx.writes.Keys + gone :: if id in gone then None else tx.writes[id],
        qwrites := tx.qwrites[name := None],
        log := tx.log + [DropQueue(name)])
  }

  /** The steps a session can take. Those that name a row or scan are where sessions interleave. */
  datatype Action =
    | CreateQueue(name: string, defaults: Engine.QueueOptions)
    | DropScan(name: string) | DropLock | CascadeRow(id: Id) | DropDone
    | SendScan(name: string, data: Option<Json>, opts: Engine.SendOptions) | SendInsert(id: Id)
    | FetchScan(queue: string, batch: nat) | FetchNext
    | CompleteScan(queue: string, id: Id, output: Option<Json>)
    | FailScan(queue: string, id: Id, output: Option<Json>)
    | OutcomeRow
    | ExpireScan | ExpireNext(id: Id) | PurgeScan | PurgeNext(id: Id) | MaintainDone

  /** One step of a session; None while it has to wait, or where the statement is not there yet.
      A statement that raises an error takes no step: only aborting is left. */
  ghost function Act(db: Db, drawn: set<Id>, tx: Tx, others: Others, a: Action): Option<Tx> {
    match a
    case CreateQueue(name, defaults) =>
      if tx.stmt != Idle || name in others.owns then None
      else if VisibleQueue(db, tx, name).Some? then Some(tx)
      else
        var q := Engine.NewQueue(defaults, tx.now);
        Some(tx.(qwrites := tx.qwrites[name := Some(q)], owns := tx.owns + {name},
                 log := tx.log + [OpenQueue(name, q)]))
    case DropScan(name) =>
      if tx.stmt != Idle then None
      else (match VisibleQueue(db, tx, name)
            case None => Some(tx)
            case Some(q) => Some(tx.(stmt := Dropping(name, q))))
    case DropLock =>
      if !tx.stmt.Dropping? || tx.stmt.name in others.owns + others.shares then None
      else if VisibleQueue(db, tx, tx.stmt.name) != Some(tx.stmt.seen) then Some(tx.(stmt := Idle))
      else
        var name := tx.stmt.name;
        Some(tx.(owns := tx.owns + {name}, stmt := Cascading(name, RowsOf(View(db, tx).jobs, name))))
    case CascadeRow(id) =>
      if !tx.stmt.Cascading? || id !in tx.stmt.todo || id in others.locks then None
      else
        var tx' := tx.(stmt := tx.stmt.(todo := tx.stmt.todo - {id}));
        Some(if Visible(db, tx, id).Some? then Lock(tx', id) else tx')
    case DropDone =>
      if !tx.stmt.Cascading? || tx.stmt.todo != {} then None
      else Some(DropAll(db, tx, tx.stmt.name).(stmt := Idle))
    case SendScan(name, data, opts) =>
      if tx.stmt != Idle then None
      else (match VisibleQueue(db, tx, name)
            case None => None
            case Some(q) =>
              if Engine.Enqueue(0, name, q, data, opts, tx.now).Ok? then Some(tx.(stmt := Sending(name, q, data, opts)))
              else None)
    case SendInsert(id) =>
      if !tx.stmt.Sending? || id in drawn || tx.stmt.name in others.owns
         || VisibleQueue(db, tx, tx.stmt.name).None? then None
      else (match Engine.Enqueue(id, tx.stmt.name, tx.stmt.q, tx.stmt.data, tx.stmt.opts, tx.now)
            case Err(_) => None
            case Ok(job) =>
              var name := tx.stmt.name;
              Some(Note(Write(tx, id, Some(job), Insert(job)), name)
                     .(shares := tx.shares + {name}, inserted := tx.inserted + {id}, stmt := Idle)))
    case FetchScan(queue, batch) =>
      if tx.stmt != Idle then None
      else
        var found := Ordering.Ranked(Engine.Claimable(View(db, tx), {}, queue, tx.now));
        Some(tx.(stmt := Resume(queue, batch, Engine.Ids(found))))
    case FetchNext =>
      if tx.stmt.Fetching? && tx.stmt.room > 0 && tx.stmt.rows != [] then Some(FetchRow(db, tx, others)) else None
    case CompleteScan(queue, id, output) =>
      if tx.stmt != Idle then None
      else if Engine.IsRunning(View(db, tx), queue, id) then Some(tx.(stmt := Completing(queue, id, output)))
      else Some(tx)
    case FailScan(queue, id, output) =>
      if tx.stmt != Idle then None
      else if Engine.IsRunning(View(db, tx), queue, id) then Some(tx.(stmt := Failing(queue, id, output)))
      else Some(tx)
    case OutcomeRow =>
      if tx.stmt.Completing? && tx.stmt.id !in others.locks then
        Some(Visit(db, tx, tx.stmt.id, Complete(tx.stmt.queue, tx.stmt.id, tx.now, tx.stmt.output)).(stmt := Idle))
      else if tx.stmt.Failing? && tx.stmt.id !in others.locks then
        Some(FailVisit(db, tx, tx.stmt.queue, tx.stmt.id, tx.stmt.output).(stmt := Idle))
      else None
    case ExpireScan =>
      if tx.stmt != Idle then None
      else
        var view := View(db, tx);
        Some(tx.(stmt := Expiring(set id | id in view.jobs && Overdue(view.jobs[id], tx.now))))
    case ExpireNext(id) =>
      if !tx.stmt.Expiring? || id !in tx.stmt.todo || id in others.locks then None
      else Some(Visit(db, tx, id, Expire(id, tx.now)).(stmt := Expiring(tx.stmt.todo - {id})))
    case PurgeScan =>
      if tx.stmt != Expiring({}) then None
      else
        var view := View(db, tx);
        Some(tx.(stmt := Purging(set id | id in view.jobs && Purgeable(view.jobs[id], tx.now))))
    case PurgeNext(id) =>
      if !tx.stmt.Purging? || id !in tx.stmt.todo || id in others.locks then None
      else Some(Visit(db, tx, id, Purge(id, tx.now)).(stmt := Purging(tx.stmt.todo - {id})))
    case MaintainDone =>
      if tx.stmt == Purging({}) then Some(tx.(stmt := Idle)) else None
  }

  // ---- the system ----

  datatype Event =
    | Tick(d: nat)
    | Begin(s: Sid)
    | Do(s: Sid, a: Action)
    | Commit(s: Sid)
    | Abort(s: Sid)

  ghost function Step(sys: Sys, ev: Event): Option<Sys> {
    match ev
    case Tick(d) => Some(sys.(clock := sys.clock + d))
    case Begin(s) => if s in sys.txs then None else Some(sys.(txs := sys.txs[s := NewTx(sys.clock)]))
    case Do(s, a) =>
      if s !in sys.txs then None
      else (match Act(sys.db, sys.drawn, sys.txs[s], OthersOf(sys, s), a)
            case None => None
            case Some(tx') => Some(sys.(txs := sys.txs[s := tx'], drawn := sys.drawn + tx'.inserted)))
    case Commit(s) =>
      if s !in sys.txs || sys.txs[s].stmt != Idle then None
      else Some(sys.(db := View(sys.db, sys.txs[s]), txs := sys.txs - {s}, trace := sys.trace + sys.txs[s].log))
    case Abort(s) => if s !in sys.txs then None else Some(sys.(txs := sys.txs - {s}))
  }

  ghost function Execute(sys: Sys, evs: seq<Event>): Option<Sys> {
    if evs == [] then Some(sys)
    else
      match Execute(sys, evs[..|evs| - 1])
      case None => None
      case Some(before) => Step(before, evs[|evs| - 1])
  }

  // ---- from one state to another ----

  ghost predicate LeadsTo(sys: Sys, sys': Sys) {
    exists evs :: Execute(sys, evs) == Some(sys')
  }

  lemma {:induction false} ExecuteConcat(sys: Sys, a: seq<Event>, b: seq<Event>)
    requires Execute(sys, a).Some?
    ensures Execute(sys, a + b) == Execute(Execute(sys, a).value, b)
    decreases |b|
  {
    hide Step;
    if b == [] {
      assert a + b == a;
    } else {
      ExecuteConcat(sys, a, b[..|b| - 1]);
      assert (a + b)[..|a + b| - 1] == a + b[..|b| - 1];
    }
  }

  lemma StepLeads(sys: Sys, ev: Event)
    requires Step(sys, ev).Some?
    ensures LeadsTo(sys, Step(sys, ev).value)
  {
    hide Step;
    assert [ev][..0] == [];
    assert Execute(sys, [ev]) == Step(sys, ev);
  }

  lemma LeadsOn(a: Sys, b: Sys, c: Sys)
    requires LeadsTo(a, b) && LeadsTo(b, c)
    ensures LeadsTo(a, c)
  {
    var front, back :| Execute(a, front) == Some(b) && Execute(b, back) == Some(c);
    ExecuteConcat(a, front, back);
  }
}
