/**
 Every claim, completion, failure and expiry uses up part of a fixed budget, so a set of jobs
 can be worked on only a bounded number of times, whatever sessions and maintenance do.
 */
module Termination {
  import opened Base
  import opened Jobs
  import opened Lifecycle
  import Histories

  /** The sum of the measures of all rows. */
  ghost function Potential(jobs: map<Id, Job>): nat {
    if jobs == map[] then 0
    else
      var id :| id in jobs;
      Measure(jobs[id]) + Potential(jobs - {id})
  }

  lemma {:induction false} PotentialRemove(jobs: map<Id, Job>, id: Id)
    requires id in jobs
    ensures Potential(jobs) == Measure(jobs[id]) + Potential(jobs - {id})
    decreases |jobs|
  {
    var first :| first in jobs && Potential(jobs) == Measure(jobs[first]) + Potential(jobs - {first});
    if first != id {
      PotentialRemove(jobs - {first}, id);
      PotentialRemove(jobs - {id}, first);
      assert jobs - {first} - {id} == jobs - {id} - {first};
    }
  }

  lemma PotentialPut(jobs: map<Id, Job>, id: Id, j: Job)
    ensures Potential(jobs[id := j]) ==
            Potential(jobs) + Measure(j) - (if id in jobs then Measure(jobs[id]) else 0)
  {
    PotentialRemove(jobs[id := j], id);
    assert jobs[id := j] - {id} == jobs - {id};
    if id in jobs {
      PotentialRemove(jobs, id);
    } else {
      assert jobs - {id} == jobs;
    }
  }

  lemma {:induction false} PotentialSub(jobs: map<Id, Job>, gone: set<Id>)
    ensures Potential(jobs - gone) <= Potential(jobs)
    decreases |gone|
  {
    if gone == {} {
      assert jobs - gone == jobs;
    } else {
      var id :| id in gone;
      var rest := gone - {id};
      PotentialSub(jobs, rest);
      assert jobs - gone == (jobs - rest) - {id};
      if id in jobs - rest {
        PotentialRemove(jobs - rest, id);
      } else {
        assert (jobs - rest) - {id} == jobs - rest;
      }
    }
  }

  /** A claim or one of its outcomes. */
  predicate IsWork(op: Op) {
    op.Claim? || op.Complete? || op.Fail? || op.Expire?
  }

  /** How often jobs were claimed, completed, failed or expired. */
  function Worked(ops: seq<Op>): nat {
    if ops == [] then 0
    else Worked(ops[..|ops| - 1]) + (if IsWork(ops[|ops| - 1]) then 1 else 0)
  }

  /** Twice max(0, retry_limit) + 1, summed over the jobs a history inserts. */
  function Allowance(ops: seq<Op>): nat {
    if ops == [] then 0
    else
      var last := ops[|ops| - 1];
      Allowance(ops[..|ops| - 1]) + (if last.Insert? then Budget(last.job) else 0)
  }

  /** What one job adds to the allowance: two operations for each of max(0, retry_limit) + 1 attempts. */
  lemma AllowanceOfJob(ops: seq<Op>, job: Job)
    ensures Allowance(ops + [Insert(job)])
            == Allowance(ops) + 2 * ((if job.retryLimit > 0 then job.retryLimit else 0) + 1)
    ensures forall op: Op | !op.Insert? :: Allowance(ops + [op]) == Allowance(ops)
  {
    assert (ops + [Insert(job)])[..|ops|] == ops;
    forall op: Op | !op.Insert? ensures Allowance(ops + [op]) == Allowance(ops) {
      assert (ops + [op])[..|ops|] == ops;
    }
  }

  /** What counts as work: claims, completions, failures and expiries, one each. */
  lemma WorkedOne(ops: seq<Op>, op: Op)
    ensures Worked(ops + [op]) == Worked(ops) + (if op.Claim? || op.Complete? || op.Fail? || op.Expire? then 1 else 0)
  {
    assert (ops + [op])[..|ops|] == ops;
  }

  /** Each claim and each outcome strictly lowers the measure of its row. */
  lemma MeasureDrops(row: Job, op: Op)
    requires RowOk(row) && IsWork(op) && op.id == row.id
    requires RowEnabled(Some(row), op, row.id)
    ensures Measure(RowAfter(Some(row), op, row.id).value) < Measure(row)
  {
    match op
    case Claim(_, _, _) =>
    case Complete(_, _, _, _) =>
    case Fail(_, _, _, _) =>
    case Expire(_, _) =>
  }

  /** The potential falls with every claim and outcome and rises only by what an insert brings. */
  lemma PotentialStep(db: Db, op: Op)
    requires Enabled(db, op)
    requires forall id | id in db.jobs :: RowOk(db.jobs[id]) && db.jobs[id].id == id && id in db.issued
    ensures Potential(Apply(db, op).jobs) + (if IsWork(op) then 1 else 0)
            <= Potential(db.jobs) + (if op.Insert? then Budget(op.job) else 0)
  {
    if op.DropQueue? {
      PotentialSub(db.jobs, RowsOf(db.jobs, op.name));
    } else if op.Purge? {
      PotentialSub(db.jobs, {op.id});
    } else if op.Insert? {
      PotentialPut(db.jobs, op.job.id, op.job);
    } else if IsWork(op) {
      var row := db.jobs[op.id];
      MeasureDrops(row, op);
      var after := RowAfter(Some(row), op, op.id).value;
      PotentialPut(db.jobs, op.id, after);
      assert Apply(db, op).jobs == db.jobs[op.id := after];
    }
  }

  /** All runs: the work done, plus what the table still allows, never exceeds the allowance
      of the jobs inserted, two operations for each of max(0, retry_limit) + 1 attempts. */
  lemma {:induction false} WorkIsBounded(ops: seq<Op>)
    requires Run(EMPTY_DB, ops).Some?
    ensures Worked(ops) + Potential(Run(EMPTY_DB, ops).value.jobs) <= Allowance(ops)
    decreases |ops|
  {
    if ops != [] {
      var init := ops[..|ops| - 1];
      WorkIsBounded(init);
      var db := Run(EMPTY_DB, init).value;
      forall id | id in db.jobs
        ensures RowOk(db.jobs[id]) && db.jobs[id].id == id && id in db.issued
      {
        Histories.Reachable(init, id);
      }
      PotentialStep(db, ops[|ops| - 1]);
    }
  }
}
