/**
 How often a job can be delivered, exactly: the bound is reached for every retry_limit, so delivery is
 exactly-once only where nothing is ever retried. And a run in which an outcome reported late lands on
 somebody else's claim.
 */
module Redelivery {
  import opened Base
  import opened Jobs
  import opened Lifecycle
  import opened Sessions
  import opened Runs
  import Silences
  import Delivery

  /** The sessions reach a state in which a job with this retry_limit has been claimed `n` times, committed. */
  ghost predicate ClaimedTimes(evs: seq<Event>, id: Id, limit: int, n: nat) {
    Execute(INIT, evs).Some?
    && (var trace := Execute(INIT, evs).value.trace;
        Born(trace, id).Some? && Born(trace, id).value.retryLimit == limit && Tally(trace, id).claims == n)
  }

  /** A waiting row after `k` rounds of claiming and failing. */
  ghost predicate Retried(row: Job, limit: int, k: nat) {
    && row.id == 7 && row.name == "q" && Waiting(row)
    && row.retryLimit == limit && row.retryDelay == 0 && row.retryCount == k && row.startAfter <= 0
  }

  ghost predicate AfterRounds(sys: Sys, row: Job, limit: int, k: nat) {
    && LeadsTo(INIT, sys) && Calm(sys, row) && Retried(row, limit, k)
    && sys.txs == map[] && sys.clock == 0
    && Born(sys.trace, 7) == Some(SentRow(0, limit, 0)) && Tally(sys.trace, 7).claims == k
  }

  lemma Snoc(trace: seq<Op>, op: Op)
    ensures Tally(trace + [op], 7) == Counted(Tally(trace, 7), op, 7)
    ensures Born(trace + [op], 7) == BornBy(Born(trace, 7), op, 7)
  {
    assert (trace + [op])[..|trace|] == trace;
  }

  lemma Begun(limit: int) returns (sys: Sys)
    requires InInt32(limit)
    ensures AfterRounds(sys, SentRow(0, limit, 0), limit, 0)
  {
    hide By;
    sys := Sends(0, limit, 0, {});
    ByLeads(1, {}, INIT, sys);
    var open, sent := OpenQueue("q", DEFAULTS), Insert(SentRow(0, limit, 0));
    assert sys.trace == ([] + [open]) + [sent];
    Snoc([], open);
    Snoc([] + [open], sent);
  }

  lemma FailedRetries(row: Job, limit: int, k: nat)
    requires Retried(row, limit, k) && k < limit
    ensures Retried(FailRow(ClaimRow(row, 0), 0, None), limit, k + 1)
  {
  }

  lemma Round(before: Sys, row: Job, limit: int, k: nat) returns (sys: Sys, after: Job)
    requires AfterRounds(before, row, limit, k) && k < limit
    ensures AfterRounds(sys, after, limit, k + 1)
  {
    hide By, LeadsTo, Born, Tally, Calm, FailRow, SentRow;
    var mid := Claims(2, before, row);
    Claim2(before, mid);
    sys := Fails(2, mid, ClaimRow(row, 0), {});
    after := FailRow(ClaimRow(row, 0), 0, None);
    FailedRetries(row, limit, k);
    ByLeads(2, {}, before, mid);
    ByLeads(2, {}, mid, sys);
    LeadsOn(INIT, before, mid);
    LeadsOn(INIT, mid, sys);
    Snoc(mid.trace, Fail("q", 7, 0, None));
  }

  lemma Claim2(before: Sys, mid: Sys)
    requires mid.trace == before.trace + [Claim("q", 7, 0)]
    ensures Tally(mid.trace, 7).claims == Tally(before.trace, 7).claims + 1
    ensures Born(mid.trace, 7) == Born(before.trace, 7)
  {
    Snoc(before.trace, Claim("q", 7, 0));
  }

  lemma {:induction false} Rounds(limit: int, k: nat) returns (sys: Sys, row: Job)
    requires InInt32(limit) && k <= Max(0, limit)
    ensures AfterRounds(sys, row, limit, k)
    decreases k
  {
    if k == 0 {
      sys := Begun(limit);
      row := SentRow(0, limit, 0);
    } else {
      sys, row := Rounds(limit, k - 1);
      sys, row := Round(sys, row, limit, k - 1);
    }
  }

  /** As many claims as the bound allows do happen. */
  lemma Reached(limit: int, n: nat) returns (evs: seq<Event>)
    requires InInt32(limit) && n <= Max(0, limit) + 1
    ensures ClaimedTimes(evs, 7, limit, n)
  {
    hide By, Born, Tally, Calm;
    var sys, row := Rounds(limit, if n == 0 then 0 else n - 1);
    if n > 0 {
      var last := Claims(2, sys, row);
      Claim2(sys, last);
      ByLeads(2, {}, sys, last);
      LeadsOn(INIT, sys, last);
      sys := last;
    }
    evs :| Execute(INIT, evs) == Some(sys);
  }

  /** A job can be claimed `n` times exactly when n is at most max(0, retry_limit) + 1. */
  lemma ClaimsPossible(limit: int, n: nat)
    requires InInt32(limit)
    ensures (exists evs, id :: ClaimedTimes(evs, id, limit, n)) <==> n <= Max(0, limit) + 1
  {
    if evs, id :| ClaimedTimes(evs, id, limit, n) {
      Delivery.CommittedBooks(evs, id);
    }
    if n <= Max(0, limit) + 1 {
      var evs := Reached(limit, n);
    }
  }

  /** Exactly-once delivery is promised for every job. It holds exactly for those sent with retry_limit <= 0. */
  lemma ExactlyOnce(limit: int)
    requires InInt32(limit)
    ensures (forall evs, id, n: nat | ClaimedTimes(evs, id, limit, n) :: n <= 1) <==> limit <= 0
  {
    hide ClaimedTimes;
    forall evs, id, n: nat | ClaimedTimes(evs, id, limit, n) ensures n <= Max(0, limit) + 1 {
      ClaimsPossible(limit, n);
    }
    if limit > 0 {
      ClaimsPossible(limit, 2);
      var evs, id :| ClaimedTimes(evs, id, limit, 2);
    }
  }

  const EXPIRY: nat := 901_000_000 // microseconds, just over the default expire_seconds

  /** Session 1 claims the job, maintenance expires the claim, session 2 claims the job again, and then
      session 1's complete succeeds: it ends the claim of session 2. */
  lemma StaleReport() returns (sent: Sys, claimed: Sys, expired: Sys, reclaimed: Sys, reported: Sys)
    ensures LeadsTo(INIT, sent) && sent.txs == map[]
    ensures By(1, {}, sent, claimed) && claimed.trace == sent.trace + [Claim("q", 7, 0)]
    ensures By(3, {Silences.Restored}, claimed, expired) && expired.trace == claimed.trace + [Expire(7, EXPIRY)]
    ensures By(2, {}, expired, reclaimed) && reclaimed.trace == expired.trace + [Claim("q", 7, EXPIRY)]
    ensures By(1, {}, reclaimed, reported)
            && reported.trace == reclaimed.trace + [Complete("q", 7, EXPIRY, None)]
    ensures 7 in reported.db.jobs && reported.db.jobs[7].state == Completed
  {
    hide By, Calm, LeadsTo;
    sent := Sends(0, 2, 0, {});
    ByLeads(1, {}, INIT, sent);
    var row := SentRow(0, 2, 0);
    claimed := Claims(1, sent, row);
    row := ClaimRow(row, 0);
    Stays(3, {Silences.Restored}, claimed);
    Waits(3, {Silences.Restored}, claimed, claimed, EXPIRY);
    var late := claimed.(clock := claimed.clock + EXPIRY);
    StillCalm(claimed, row, EXPIRY);
    expired := Maintains(3, late, row);
    JoinsOn(3, {Silences.Restored}, claimed, late, expired);
    row := ExpireRow(row, EXPIRY);
    reclaimed := Claims(2, expired, row);
    row := ClaimRow(row, EXPIRY);
    reported := Completes(1, reclaimed, row);
    CalmRow(reported, CompleteRow(row, EXPIRY, None));
  }

  lemma StillCalm(sys: Sys, row: Job, d: nat)
    requires Calm(sys, row)
    ensures Calm(sys.(clock := sys.clock + d), row)
  {
  }

  lemma CalmRow(sys: Sys, row: Job)
    requires Calm(sys, row)
    ensures 7 in sys.db.jobs && sys.db.jobs[7] == row
  {
  }
}
