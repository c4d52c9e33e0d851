/** What the atomic machine guarantees over whole histories, read off positions in the run. */
module Histories {
  import opened Base
  import opened Channels
  import opened Jobs
  import opened Lifecycle

  /** The database just before operation `n` of a history. */
  ghost function At(ops: seq<Op>, n: nat): (db: Db)
    requires Run(EMPTY_DB, ops).Some? && n <= |ops|
    ensures Run(EMPTY_DB, ops[..n]) == Some(db)
  {
    RunPrefix(EMPTY_DB, ops, n);
    Run(EMPTY_DB, ops[..n]).value
  }

  lemma AtStep(ops: seq<Op>, n: nat)
    requires Run(EMPTY_DB, ops).Some? && n < |ops|
    ensures Next(At(ops, n), ops[n]) == Some(At(ops, n + 1))
  {
    hide Next, Apply, Enabled, Run;
    assert ops[..n + 1] == ops[..n] + [ops[n]];
    SnocNext(EMPTY_DB, ops[..n], ops[n], At(ops, n), At(ops, n + 1));
  }

  lemma SnocNext(db: Db, ops: seq<Op>, op: Op, before: Db, after: Db)
    requires Run(db, ops) == Some(before) && Run(db, ops + [op]) == Some(after)
    ensures Next(before, op) == Some(after)
  {
    RunSnoc(db, ops, op);
  }

  /** The row of one job just before operation `n`. */
  ghost function Row(ops: seq<Op>, n: nat, id: Id): Option<Job>
    requires Run(EMPTY_DB, ops).Some? && n <= |ops|
  {
    RowAt(At(ops, n), id)
  }

  ghost predicate Issued(ops: seq<Op>, n: nat, id: Id)
    requires Run(EMPTY_DB, ops).Some? && n <= |ops|
  {
    id in At(ops, n).issued
  }

  lemma Step(ops: seq<Op>, n: nat, id: Id)
    requires Run(EMPTY_DB, ops).Some? && n < |ops|
    ensures RowEnabled(Row(ops, n, id), ops[n], id)
    ensures Row(ops, n + 1, id) == RowAfter(Row(ops, n, id), ops[n], id)
    ensures Issued(ops, n + 1, id) <==> Issued(ops, n, id) || (ops[n].Insert? && ops[n].job.id == id)
    ensures ops[n].Insert? && ops[n].job.id == id ==> !Issued(ops, n, id) && Newborn(ops[n].job)
  {
    AtStep(ops, n);
    RowWise(At(ops, n), ops[n], At(ops, n + 1), id);
  }

  lemma Books(ops: seq<Op>, n: nat, id: Id)
    requires Run(EMPTY_DB, ops).Some? && n <= |ops|
    ensures Balanced(Born(ops[..n], id), Row(ops, n, id), Issued(ops, n, id), Tally(ops[..n], id))
  {
    RunPrefix(EMPTY_DB, ops, n);
    History(ops[..n], id);
  }

  // ---- delivery ----

  /** No job is ever handed out more than max(0, retry_limit) + 1 times, completed twice,
      or given more outcomes than it has claims. This holds for ever, also for rows long gone. */
  lemma DeliveryBound(ops: seq<Op>, id: Id)
    requires Run(EMPTY_DB, ops).Some? && Born(ops, id).Some?
    ensures var c := Tally(ops, id);
            && c.claims <= Max(0, Born(ops, id).value.retryLimit) + 1
            && c.completes <= 1
            && c.completes + c.fails + c.expiries <= c.claims <= c.completes + c.fails + c.expiries + 1
  {
    History(ops, id);
  }

  /** The ledger of a job in the table: its claims are its retry_count, plus one once delivered. */
  lemma ClaimLedger(ops: seq<Op>, id: Id)
    requires Run(EMPTY_DB, ops).Some? && id in Run(EMPTY_DB, ops).value.jobs
    ensures var row := Run(EMPTY_DB, ops).value.jobs[id];
            var c := Tally(ops, id);
            && c.claims == row.retryCount
                 + (if row.state == Active || row.state == Completed || row.state == Failed then 1 else 0)
            && c.claims == c.completes + c.fails + c.expiries + (if row.state == Active then 1 else 0)
            && c.completes == (if row.state == Completed then 1 else 0)
            && c.claims <= Max(0, row.retryLimit) + 1
  {
    History(ops, id);
  }

  lemma {:induction false} TallyGrows(ops: seq<Op>, m: nat, n: nat, id: Id)
    requires m <= n <= |ops|
    ensures Tally(ops[..m], id).claims <= Tally(ops[..n], id).claims
    decreases n
  {
    if m < n {
      TallyGrows(ops, m, n - 1, id);
      TallyStep(ops, n, id);
    }
  }

  lemma TallyStep(ops: seq<Op>, n: nat, id: Id)
    requires 0 < n <= |ops|
    ensures Tally(ops[..n], id) == Counted(Tally(ops[..n - 1], id), ops[n - 1], id)
  {
    var front := ops[..n];
    assert |front| == n && front[..n - 1] == ops[..n - 1] && front[n - 1] == ops[n - 1];
  }

  /** The pair (id, retry_count) is claimed at most once: a later claim sees a larger count. */
  lemma ClaimsAreDistinct(ops: seq<Op>, i: nat, j: nat, id: Id)
    requires Run(EMPTY_DB, ops).Some? && i < j < |ops|
    requires ops[i].Claim? && ops[i].id == id && ops[j].Claim? && ops[j].id == id
    ensures Row(ops, i, id).Some? && Row(ops, j, id).Some?
    ensures Row(ops, i, id).value.retryCount < Row(ops, j, id).value.retryCount
  {
    hide Tally, Counted, Row, RowOk;
    ClaimsBefore(ops, i, id);
    ClaimsBefore(ops, j, id);
    TallyStep(ops, i + 1, id);
    CountedClaim(Tally(ops[..i], id), ops[i], id);
    TallyGrows(ops, i + 1, j, id);
  }

  lemma CountedClaim(c: Counts, op: Op, id: Id)
    requires op.Claim? && op.id == id
    ensures Counted(c, op, id).claims == c.claims + 1
  {
  }

  /** A job about to be claimed was claimed as often as it was retried. */
  lemma ClaimsBefore(ops: seq<Op>, n: nat, id: Id)
    requires Run(EMPTY_DB, ops).Some? && n < |ops| && ops[n].Claim? && ops[n].id == id
    ensures Row(ops, n, id).Some? && Tally(ops[..n], id).claims == Row(ops, n, id).value.retryCount
  {
    hide Tally, Born, Row, Run;
    Step(ops, n, id);
    Books(ops, n, id);
  }

  // ---- rows ----

  lemma {:induction false} AllRegistered(ops: seq<Op>)
    requires Run(EMPTY_DB, ops).Some?
    ensures var db := Run(EMPTY_DB, ops).value;
            forall id | id in db.jobs ::
              db.jobs[id].id == id && db.jobs[id].name in db.queues && Notifiable(db.jobs[id].name)
    decreases |ops|
  {
    if ops != [] {
      AllRegistered(ops[..|ops| - 1]);
    }
  }

  /** Every row of every reachable state is well formed and belongs to a registered queue, and its queue
      can be notified: a retry never raises an error. */
  lemma Reachable(ops: seq<Op>, id: Id)
    requires Run(EMPTY_DB, ops).Some? && id in Run(EMPTY_DB, ops).value.jobs
    ensures var db := Run(EMPTY_DB, ops).value;
            && RowOk(db.jobs[id]) && db.jobs[id].id == id
            && db.jobs[id].name in db.queues && id in db.issued && Notifiable(db.jobs[id].name)
    ensures var row := Run(EMPTY_DB, ops).value.jobs[id];
            && (row.state == Created || row.state == Retry || row.state == Active || row.state == Completed
                || row.state == Failed)
            && 0 <= row.retryCount && (row.retryCount > 0 ==> row.retryCount <= row.retryLimit)
            && (row.state == Created ==> row.retryCount == 0) && (row.state == Retry ==> row.retryCount >= 1)
            && (row.startedOn != None <==> row.state == Active || row.state == Completed)
            && (row.completedOn != None <==> row.state == Completed || row.state == Failed)
  {
    History(ops, id);
    AllRegistered(ops);
  }

  /** An id that left the table never comes back, and an id in it is never inserted again. */
  lemma {:induction false} GoneStaysGone(ops: seq<Op>, m: nat, n: nat, id: Id)
    requires Run(EMPTY_DB, ops).Some? && m <= n <= |ops| && Issued(ops, m, id)
    ensures Issued(ops, n, id)
    ensures Row(ops, n, id).Some? ==> Row(ops, m, id).Some?
    decreases n
  {
    if m < n {
      GoneStaysGone(ops, m, n - 1, id);
      Step(ops, n - 1, id);
    }
  }

  /** A finished row is never written again: it stays as it is, or it is deleted. */
  lemma {:induction false} TerminalIsFinal(ops: seq<Op>, m: nat, n: nat, id: Id)
    requires Run(EMPTY_DB, ops).Some? && m <= n <= |ops|
    requires Row(ops, m, id).Some? && Terminal(Row(ops, m, id).value)
    ensures Row(ops, n, id).Some? ==> Row(ops, n, id) == Row(ops, m, id)
    decreases n
  {
    if m < n {
      TerminalIsFinal(ops, m, n - 1, id);
      Books(ops, m, id);
      GoneStaysGone(ops, m, n - 1, id);
      Step(ops, n - 1, id);
    }
  }

  /** Operation `k` takes the row away: its queue is dropped, or retention purges it. */
  ghost predicate Removes(ops: seq<Op>, k: nat, id: Id)
    requires Run(EMPTY_DB, ops).Some? && k < |ops|
  {
    var row := Row(ops, k, id);
    && row.Some?
    && match ops[k]
       case DropQueue(name) => name == row.value.name
       case Purge(i, now) => i == id && Terminal(row.value) && row.value.keepUntil < now
       case _ => false
  }

  /** Conservation: a job once inserted is in the table with its identity intact, and only a drop of
      its queue, or a purge once it is finished and past its retention, ever takes it out. */
  lemma {:induction false} JobConservation(ops: seq<Op>, k: nat, n: nat)
    requires Run(EMPTY_DB, ops).Some? && k < n <= |ops| && ops[k].Insert?
    ensures var job := ops[k].job;
            && Issued(ops, n, job.id)
            && match Row(ops, n, job.id)
               case Some(row) => SameIdentity(job, row) && !exists r | k < r < n :: Removes(ops, r, job.id)
               case None => exists r | k < r < n :: Removes(ops, r, job.id)
    ensures var job := ops[k].job;
            match Row(ops, n, job.id)
            case Some(row) =>
              && row.id == job.id && row.name == job.name && row.priority == job.priority && row.data == job.data
              && row.retryLimit == job.retryLimit && row.retryDelay == job.retryDelay
              && row.expireSeconds == job.expireSeconds && row.createdOn == job.createdOn
              && row.keepUntil == job.keepUntil
            case None => true
    decreases n
  {
    var id := ops[k].job.id;
    if n - 1 > k {
      JobConservation(ops, k, n - 1);
      KeptOrRemoved(ops, n - 1, ops[k].job);
      hide Removes, Row, Issued;
      if Row(ops, n - 1, id) == None {
        var r :| k < r < n - 1 && Removes(ops, r, id);
        assert k < r < n;
      } else if Row(ops, n, id) == None {
        assert Removes(ops, n - 1, id);
      }
    } else {
      Step(ops, k, id);
    }
  }

  /** One step: a row stays with its identity, or the operation removes it; a row that is gone stays away. */
  lemma KeptOrRemoved(ops: seq<Op>, n: nat, job: Job)
    requires Run(EMPTY_DB, ops).Some? && n < |ops| && Issued(ops, n, job.id)
    requires Row(ops, n, job.id).Some? ==> SameIdentity(job, Row(ops, n, job.id).value)
    ensures Issued(ops, n + 1, job.id)
    ensures Row(ops, n, job.id) == None ==> Row(ops, n + 1, job.id) == None
    ensures Row(ops, n, job.id).Some? ==> (Row(ops, n + 1, job.id) == None <==> Removes(ops, n, job.id))
    ensures Row(ops, n + 1, job.id).Some? ==> SameIdentity(job, Row(ops, n + 1, job.id).value)
    ensures Row(ops, n, job.id) == None ==> !Removes(ops, n, job.id)
  {
    Step(ops, n, job.id);
  }

  // ---- timing ----

  predicate Claims(op: Op, id: Id) {
    op.Claim? && op.id == id
  }

  /** A failure that may put a job back. */
  predicate Ends(op: Op, id: Id) {
    (op.Fail? || op.Expire?) && op.id == id
  }

  /** Operation `k` put back the job claimed at `i`, to be claimed again from `startAfter` on. */
  ghost predicate PutBack(ops: seq<Op>, i: nat, k: nat, born: Job, startAfter: Time)
    requires i < k < |ops| && ops[i].Claim?
  {
    && Ends(ops[k], born.id)
    && startAfter == ops[k].now + born.retryDelay * SECOND
    && (ops[k].Expire? ==> ops[k].now - ops[i].now > born.expireSeconds * SECOND)
  }

  /** After a claim a row is active since that claim, or put back, or finished. */
  ghost predicate Since(ops: seq<Op>, i: nat, n: nat, born: Job, row: Job)
    requires i < n <= |ops| && ops[i].Claim?
  {
    && SameIdentity(born, row)
    && (|| (row.state == Active && row.startedOn == Some(ops[i].now))
        || (row.state == Retry && exists k | i < k < n :: PutBack(ops, i, k, born, row.startAfter))
        || Terminal(row))
  }

  lemma SinceStep(ops: seq<Op>, i: nat, n: nat, born: Job, row: Job)
    requires i < n < |ops| && ops[i].Claim? && Since(ops, i, n, born, row) && row.id == born.id
    requires !Claims(ops[n], born.id) && !ops[n].Insert?
    requires RowEnabled(Some(row), ops[n], born.id)
    ensures match RowAfter(Some(row), ops[n], born.id)
            case Some(row') => Since(ops, i, n + 1, born, row')
            case None => true
  {
    var after := RowAfter(Some(row), ops[n], born.id);
    if Ends(ops[n], born.id) {
      assert PutBack(ops, i, n, born, ops[n].now + born.retryDelay * SECOND);
    } else if after == Some(row) && row.state == Retry {
      var k :| i < k < n && PutBack(ops, i, k, born, row.startAfter);
    }
  }

  lemma {:induction false} SinceClaim(ops: seq<Op>, i: nat, n: nat, born: Job)
    requires Run(EMPTY_DB, ops).Some? && i < n <= |ops| && Claims(ops[i], born.id)
    requires forall m | i < m < n :: !Claims(ops[m], born.id)
    requires Row(ops, i, born.id) == Some(born)
    ensures match Row(ops, n, born.id)
            case Some(row) => Since(ops, i, n, born, row)
            case None => true
    decreases n
  {
    var id := born.id;
    Step(ops, n - 1, id);
    if n - 1 > i {
      hide Since, RowAfter, RowEnabled;
      SinceClaim(ops, i, n - 1, born);
      RowIsIts(ops, i, id);
      GoneStaysGone(ops, i, n - 1, id);
      if Row(ops, n - 1, id).Some? {
        SinceRow(ops, i, n - 1, born, Row(ops, n - 1, id).value);
      } else {
        StaysNone(ops[n - 1], id);
      }
    }
  }

  lemma RowIsIts(ops: seq<Op>, i: nat, id: Id)
    requires Run(EMPTY_DB, ops).Some? && i <= |ops| && Row(ops, i, id).Some?
    ensures Issued(ops, i, id) && Row(ops, i, id).value.id == id
  {
    RunPrefix(EMPTY_DB, ops, i);
    Reachable(ops[..i], id);
  }

  lemma StaysNone(op: Op, id: Id)
    requires !(op.Insert? && op.job.id == id) && RowEnabled(None, op, id)
    ensures RowAfter(None, op, id) == None
  {
  }

  /** Since holds over any operation but a claim of the job: other inserts leave its row alone. */
  lemma SinceRow(ops: seq<Op>, i: nat, n: nat, born: Job, row: Job)
    requires i < n < |ops| && ops[i].Claim? && Since(ops, i, n, born, row) && row.id == born.id
    requires !Claims(ops[n], born.id) && !(ops[n].Insert? && ops[n].job.id == born.id)
    requires RowEnabled(Some(row), ops[n], born.id)
    ensures match RowAfter(Some(row), ops[n], born.id)
            case Some(row') => Since(ops, i, n + 1, born, row')
            case None => true
  {
    if ops[n].Insert? {
      SinceLater(ops, i, n, born, row);
    } else {
      SinceStep(ops, i, n, born, row);
    }
  }

  lemma SinceLater(ops: seq<Op>, i: nat, n: nat, born: Job, row: Job)
    requires i < n < |ops| && ops[i].Claim? && Since(ops, i, n, born, row)
    ensures Since(ops, i, n + 1, born, row)
  {
    if row.state == Retry {
      var k :| i < k < n && PutBack(ops, i, k, born, row.startAfter);
      assert i < k < n + 1 && PutBack(ops, i, k, born, row.startAfter);
    }
  }

  /** Retry spacing: between two consecutive claims lies the failure that put the job back, and the second
      claim waits retry_delay after it; after an expiry it also waited out expire_seconds first. */
  lemma RetrySpacing(ops: seq<Op>, i: nat, j: nat, id: Id)
    requires Run(EMPTY_DB, ops).Some? && i < j < |ops|
    requires Claims(ops[i], id) && Claims(ops[j], id)
    requires forall m | i < m < j :: !Claims(ops[m], id)
    ensures Row(ops, i, id).Some?
    ensures var row := Row(ops, i, id).value;
            exists k | i < k < j ::
              && Ends(ops[k], id)
              && ops[j].now >= ops[k].now + row.retryDelay * SECOND
              && (ops[k].Expire? ==>
                    ops[j].now > ops[i].now + row.expireSeconds * SECOND + row.retryDelay * SECOND)
  {
    hide Row, Run, Issued, Since;
    ClaimedRow(ops, i, id);
    ClaimedRow(ops, j, id);
    var row := Row(ops, i, id).value;
    RowIsIts(ops, i, id);
    SinceClaim(ops, i, j, row);
    var k := PutBackSince(ops, i, j, row, Row(ops, j, id).value);
  }

  /** A row about to be claimed is there, waits, and is due. */
  lemma ClaimedRow(ops: seq<Op>, n: nat, id: Id)
    requires Run(EMPTY_DB, ops).Some? && n < |ops| && Claims(ops[n], id)
    ensures var row := Row(ops, n, id); row.Some? && Waiting(row.value) && row.value.startAfter <= ops[n].now
  {
    Step(ops, n, id);
  }

  /** A row that waits again after a claim was put back in between. */
  lemma PutBackSince(ops: seq<Op>, i: nat, j: nat, born: Job, row: Job) returns (k: nat)
    requires i < j < |ops| && ops[i].Claim? && Since(ops, i, j, born, row) && Waiting(row)
    requires ops[j].Claim? && row.startAfter <= ops[j].now
    ensures i < k < j && Ends(ops[k], born.id) && ops[j].now >= ops[k].now + born.retryDelay * SECOND
    ensures ops[k].Expire? ==> ops[j].now > ops[i].now + born.expireSeconds * SECOND + born.retryDelay * SECOND
  {
    k :| i < k < j && PutBack(ops, i, k, born, row.startAfter);
  }
}
