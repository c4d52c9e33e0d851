/**
 The atomic machine: one committed effect on one row (or one queue) at a time.
 Everything that many sessions do at once is reduced to runs of this machine in
 module Serialization; what a job can go through is proved here, once, over all runs.
 */
module Lifecycle {
  import opened Base
  import opened Json
  import opened Jobs
  import opened Channels

  /** The committed database. `issued` remembers every id ever inserted: a uuid is never drawn twice. */
  datatype Db = Db(queues: map<string, Queue>, jobs: map<Id, Job>, issued: set<Id>)

  const EMPTY_DB: Db := Db(map[], map[], {})

  datatype Op =
    | OpenQueue(name: string, q: Queue)
    | DropQueue(name: string)
    | Insert(job: Job)
    | Claim(queue: string, id: Id, now: Time)
    | Complete(queue: string, id: Id, now: Time, output: Option<Json>)
    | Fail(queue: string, id: Id, now: Time, output: Option<Json>)
    | Expire(id: Id, now: Time)
    | Purge(id: Id, now: Time)

  predicate Enabled(db: Db, op: Op) {
    match op
    case OpenQueue(name, _) => name !in db.queues
    case DropQueue(name) => name in db.queues
    case Insert(job) => job.name in db.queues && job.id !in db.issued && Newborn(job) && Notifiable(job.name)
    case Claim(queue, id, now) => id in db.jobs && Due(db.jobs[id], queue, now)
    case Complete(queue, id, _, _) => id in db.jobs && Running(db.jobs[id], queue)
    case Fail(queue, id, _, _) => id in db.jobs && Running(db.jobs[id], queue)
    case Expire(id, now) => id in db.jobs && Overdue(db.jobs[id], now)
    case Purge(id, now) => id in db.jobs && Purgeable(db.jobs[id], now)
  }

  function RowsOf(jobs: map<Id, Job>, name: string): set<Id> {
    set id | id in jobs && jobs[id].name == name
  }

  function Apply(db: Db, op: Op): Db
    requires Enabled(db, op)
  {
    match op
    case OpenQueue(name, q) => db.(queues := db.queues[name := q])
    case DropQueue(name) => db.(queues := db.queues - {name}, jobs := db.jobs - RowsOf(db.jobs, name))
    case Insert(job) => db.(jobs := db.jobs[job.id := job], issued := db.issued + {job.id})
    case Claim(_, id, now) => db.(jobs := db.jobs[id := ClaimRow(db.jobs[id], now)])
    case Complete(_, id, now, output) => db.(jobs := db.jobs[id := CompleteRow(db.jobs[id], now, output)])
    case Fail(_, id, now, output) => db.(jobs := db.jobs[id := FailRow(db.jobs[id], now, output)])
    case Expire(id, now) => db.(jobs := db.jobs[id := ExpireRow(db.jobs[id], now)])
    case Purge(id, _) => db.(jobs := db.jobs - {id})
  }

  function Next(db: Db, op: Op): Option<Db> {
    if Enabled(db, op) then Some(Apply(db, op)) else None
  }

  /** Runs the operations in order; None as soon as one of them is not enabled. */
  function Run(db: Db, ops: seq<Op>): Option<Db> {
    if ops == [] then Some(db)
    else
      match Run(db, ops[..|ops| - 1])
      case None => None
      case Some(before) => Next(before, ops[|ops| - 1])
  }

  /** An operation that has no effect where it is not enabled. */
  function Tried(db: Db, op: Op): Db {
    match Next(db, op)
    case None => db
    case Some(after) => after
  }

  function TriedAll(db: Db, ops: seq<Op>): Db {
    if ops == [] then db else Tried(TriedAll(db, ops[..|ops| - 1]), ops[|ops| - 1])
  }

  lemma RunSnoc(db: Db, ops: seq<Op>, op: Op)
    ensures Run(db, ops + [op]) == match Run(db, ops) case None => None case Some(before) => Next(before, op)
  {
    assert (ops + [op])[..|ops|] == ops;
  }

  lemma {:induction false} RunConcat(db: Db, a: seq<Op>, b: seq<Op>)
    requires Run(db, a).Some?
    ensures Run(db, a + b) == Run(Run(db, a).value, b)
    decreases |b|
  {
    if b == [] {
      assert a + b == a;
    } else {
      var init := b[..|b| - 1];
      RunConcat(db, a, init);
      assert a + b == (a + init) + [b[|b| - 1]];
      RunSnoc(db, a + init, b[|b| - 1]);
    }
  }

  lemma {:induction false} RunPrefix(db: Db, ops: seq<Op>, n: nat)
    requires Run(db, ops).Some? && n <= |ops|
    ensures Run(db, ops[..n]).Some?
    decreases |ops|
  {
    if n < |ops| {
      RunPrefix(db, ops[..|ops| - 1], n);
      assert ops[..|ops| - 1][..n] == ops[..n];
    } else {
      assert ops[..n] == ops;
    }
  }

  // ---------------------------------------------------------------------------
  // Bookkeeping over a history
  // ---------------------------------------------------------------------------

  /** How often one job was claimed, and how its claims ended. */
  datatype Counts = Counts(claims: nat, completes: nat, fails: nat, expiries: nat)

  function Counted(c: Counts, op: Op, id: Id): Counts {
    match op
    case Claim(_, i, _) => if i == id then c.(claims := c.claims + 1) else c
    case Complete(_, i, _, _) => if i == id then c.(completes := c.completes + 1) else c
    case Fail(_, i, _, _) => if i == id then c.(fails := c.fails + 1) else c
    case Expire(i, _) => if i == id then c.(expiries := c.expiries + 1) else c
    case _ => c
  }

  function Tally(ops: seq<Op>, id: Id): Counts {
    if ops == [] then Counts(0, 0, 0, 0)
    else Counted(Tally(ops[..|ops| - 1], id), ops[|ops| - 1], id)
  }

  function BornBy(born: Option<Job>, op: Op, id: Id): Option<Job> {
    if op.Insert? && op.job.id == id then Some(op.job) else born
  }

  /** The row of a job as it was inserted. */
  function Born(ops: seq<Op>, id: Id): Option<Job> {
    if ops == [] then None
    else BornBy(Born(ops[..|ops| - 1], id), ops[|ops| - 1], id)
  }

  function RowAt(db: Db, id: Id): Option<Job> {
    if id in db.jobs then Some(db.jobs[id]) else None
  }

  predicate Delivered(s: JobState) {
    s == Active || s == Completed || s == Failed
  }

  /** What the counts of a job say about its row while it is in the table. */
  ghost predicate Present(born: Job, row: Job, c: Counts) {
    && SameIdentity(born, row) && RowOk(row)
    && c.claims == row.retryCount + (if Delivered(row.state) then 1 else 0)
    && c.claims == c.completes + c.fails + c.expiries + (if row.state == Active then 1 else 0)
    && c.completes == (if row.state == Completed then 1 else 0)
    && c.claims + c.completes + c.fails + c.expiries + Measure(row) <= Budget(born)
  }

  /** What the counts of a job say for ever, also once its row is gone. */
  ghost predicate Bounded(born: Job, c: Counts) {
    && c.claims <= Max(0, born.retryLimit) + 1
    && c.completes + c.fails + c.expiries <= c.claims <= c.completes + c.fails + c.expiries + 1
    && c.completes <= 1
    && c.claims + c.completes + c.fails + c.expiries <= Budget(born)
  }

  ghost predicate Balanced(born: Option<Job>, row: Option<Job>, issued: bool, c: Counts) {
    && (issued <==> born.Some?)
    && (row.Some? ==> issued)
    && (!issued ==> c == Counts(0, 0, 0, 0))
    && (issued ==> Newborn(born.value) && Bounded(born.value, c))
    && (row.Some? ==> Present(born.value, row.value, c))
  }

  lemma ClaimBalanced(born: Job, row: Job, c: Counts, now: Time)
    requires Present(born, row, c) && Waiting(row)
    ensures Present(born, ClaimRow(row, now), c.(claims := c.claims + 1))
    ensures Bounded(born, c.(claims := c.claims + 1))
  {
  }

  lemma CompleteBalanced(born: Job, row: Job, c: Counts, now: Time, output: Option<Json>)
    requires Present(born, row, c) && row.state == Active
    ensures Present(born, CompleteRow(row, now, output), c.(completes := c.completes + 1))
    ensures Bounded(born, c.(completes := c.completes + 1))
  {
  }

  lemma FailBalanced(born: Job, row: Job, c: Counts, now: Time, output: Option<Json>)
    requires Present(born, row, c) && row.state == Active
    ensures Present(born, FailRow(row, now, output), c.(fails := c.fails + 1))
    ensures Bounded(born, c.(fails := c.fails + 1))
  {
  }

  lemma ExpireBalanced(born: Job, row: Job, c: Counts, now: Time)
    requires Present(born, row, c) && row.state == Active
    ensures Present(born, ExpireRow(row, now), c.(expiries := c.expiries + 1))
    ensures Bounded(born, c.(expiries := c.expiries + 1))
  {
  }

  lemma InsertBalanced(job: Job, c: Counts)
    requires Newborn(job) && c.claims == c.completes == c.fails == c.expiries == 0
    ensures Present(job, job, c) && Bounded(job, c)
  {
    hide RowOk, SameIdentity;
    NewbornRow(job);
  }

  lemma NewbornRow(job: Job)
    requires Newborn(job)
    ensures RowOk(job) && SameIdentity(job, job) && Measure(job) == Budget(job) >= 0
  {
  }

  lemma StepBalanced(db: Db, op: Op, id: Id, born: Option<Job>, c: Counts)
    requires Enabled(db, op)
    requires Balanced(born, RowAt(db, id), id in db.issued, c)
    ensures var db' := Apply(db, op);
            Balanced(BornBy(born, op, id), RowAt(db', id), id in db'.issued, Counted(c, op, id))
  {
    hide Present, Bounded, ClaimRow, CompleteRow, FailRow, ExpireRow;
    match op
    case Insert(job) => if job.id == id { InsertBalanced(job, c); }
    case Claim(_, i, now) => if i == id { ClaimBalanced(born.value, db.jobs[id], c, now); }
    case Complete(_, i, now, output) => if i == id { CompleteBalanced(born.value, db.jobs[id], c, now, output); }
    case Fail(_, i, now, output) => if i == id { FailBalanced(born.value, db.jobs[id], c, now, output); }
    case Expire(i, now) => if i == id { ExpireBalanced(born.value, db.jobs[id], c, now); }
    case _ =>
  }

  lemma {:induction false} History(ops: seq<Op>, id: Id)
    requires Run(EMPTY_DB, ops).Some?
    ensures var db := Run(EMPTY_DB, ops).value;
            Balanced(Born(ops, id), RowAt(db, id), id in db.issued, Tally(ops, id))
    decreases |ops|
  {
    if ops != [] {
      var init := ops[..|ops| - 1];
      History(init, id);
      StepBalanced(Run(EMPTY_DB, init).value, ops[|ops| - 1], id, Born(init, id), Tally(init, id));
    }
  }

  // ---------------------------------------------------------------------------
  // The machine seen from one row
  // ---------------------------------------------------------------------------

  /** What an operation needs of the row of `id`. */
  predicate RowEnabled(row: Option<Job>, op: Op, id: Id) {
    match op
    case Claim(queue, i, now) => i == id ==> row.Some? && Due(row.value, queue, now)
    case Complete(queue, i, _, _) => i == id ==> row.Some? && Running(row.value, queue)
    case Fail(queue, i, _, _) => i == id ==> row.Some? && Running(row.value, queue)
    case Expire(i, now) => i == id ==> row.Some? && Overdue(row.value, now)
    case Purge(i, now) => i == id ==> row.Some? && Purgeable(row.value, now)
    case _ => true
  }

  function RowAfter(row: Option<Job>, op: Op, id: Id): Option<Job>
    requires RowEnabled(row, op, id)
  {
    match op
    case OpenQueue(_, _) => row
    case DropQueue(name) => if row.Some? && row.value.name == name then None else row
    case Insert(job) => if job.id == id then Some(job) else row
    case Claim(_, i, now) => if i == id then Some(ClaimRow(row.value, now)) else row
    case Complete(_, i, now, output) => if i == id then Some(CompleteRow(row.value, now, output)) else row
    case Fail(_, i, now, output) => if i == id then Some(FailRow(row.value, now, output)) else row
    case Expire(i, now) => if i == id then Some(ExpireRow(row.value, now)) else row
    case Purge(i, _) => if i == id then None else row
  }

  /** Each operation acts on each row alone. */
  lemma RowWise(db: Db, op: Op, db': Db, id: Id)
    requires Next(db, op) == Some(db')
    ensures RowEnabled(RowAt(db, id), op, id)
    ensures RowAt(db', id) == RowAfter(RowAt(db, id), op, id)
    ensures id in db'.issued <==> id in db.issued || (op.Insert? && op.job.id == id)
    ensures op.Insert? && op.job.id == id ==> id !in db.issued && Newborn(op.job)
  {
  }
}
