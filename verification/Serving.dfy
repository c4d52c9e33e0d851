/** What workers do for the jobs they are told of: a send wakes them, and awake they claim, handle and report. */
module Serving {
  import opened Base
  import opened Jobs
  import opened Lifecycle
  import opened Sessions
  import opened Channels
  import opened Wakeups
  import opened Runs

  /** Worker 0 alone leads from `a` to `b`: it wakes and works. */
  ghost predicate ByWorker(a: World, b: World) {
    exists moves :: Play(a, moves) == Some(b) && OwnMoves(moves)
  }

  ghost predicate OwnMoves(moves: seq<Move>) {
    forall i | 0 <= i < |moves| :: (moves[i].Wake? && moves[i].w == 0) || (moves[i].Work? && moves[i].w == 0)
  }

  lemma StaysPut(a: World)
    ensures ByWorker(a, a)
  {
    assert Play(a, []) == Some(a) && OwnMoves([]);
  }

  lemma MovesOn(a: World, b: World, move: Move)
    requires ByWorker(a, b) && OwnMoves([move]) && Wakeups.Next(b, move).Some?
    ensures ByWorker(a, Wakeups.Next(b, move).value)
  {
    hide Wakeups.Next;
    var moves :| Play(a, moves) == Some(b) && OwnMoves(moves);
    var longer := moves + [move];
    assert longer[..|moves|] == moves && [move][0] == move;
    assert Play(a, longer) == Wakeups.Next(b, move);
    assert OwnMoves(longer);
  }

  function Manned(md5: string -> string, sys: Sys, w: Worker): World {
    World(sys, map[0 := w], md5)
  }

  /** A worker with nothing to excuse. */
  function Plainly(phase: Phase, inbox: nat, seen: Time): Worker {
    Worker("q", phase, inbox, seen, {}, {}, {})
  }

  lemma Acts(a: World, md5: string -> string, sys: Sys, w: Worker, ev: Event, next: Worker)
    requires ByWorker(a, Manned(md5, sys, w)) && (ev.Begin? || ev.Do?) && ev.s == 0 && Step(sys, ev).Some?
    requires Advance(w, TxOf(sys, 0), OthersOf(sys, 0), ev) == Some(next)
    ensures ByWorker(a, Manned(md5, Step(sys, ev).value, next))
  {
    hide Step, Advance, OthersOf, ByWorker;
    MovesOn(a, Manned(md5, sys, w), Work(0, ev));
    assert Wakeups.Next(Manned(md5, sys, w), Work(0, ev)).value.workers == map[0 := next];
  }

  lemma Does(a: World, md5: string -> string, sys: Sys, w: Worker, act: Action, tx: Tx, next: Worker)
    requires ByWorker(a, Manned(md5, sys, w)) && 0 in sys.txs
    requires Act(sys.db, sys.drawn, sys.txs[0], OthersOf(sys, 0), act) == Some(tx)
    requires Advance(w, Some(sys.txs[0]), OthersOf(sys, 0), Do(0, act)) == Some(next)
    ensures ByWorker(a, Manned(md5, With(sys, 0, tx), next))
  {
    hide Act, Advance, OthersOf, ByWorker;
    Acts(a, md5, sys, w, Do(0, act), next);
  }

  lemma Commits(a: World, md5: string -> string, sys: Sys, w: Worker, db: Db, next: Worker)
    requires ByWorker(a, Manned(md5, sys, w)) && 0 in sys.txs && sys.txs[0].stmt == Idle
    requires View(sys.db, sys.txs[0]) == db && sys.txs[0].notes == [] && PutBackBy(sys.txs[0]) == {}
    requires Advance(w, Some(sys.txs[0]), OthersOf(sys, 0), Commit(0)) == Some(next)
    requires next.skipped == next.stranded == next.putBack == {}
    ensures ByWorker(a, Manned(md5, Ended(sys, 0, db), next))
  {
    hide View, Advance, OthersOf, ByWorker;
    MovesOn(a, Manned(md5, sys, w), Work(0, Commit(0)));
    var after := Wakeups.Next(Manned(md5, sys, w), Work(0, Commit(0))).value;
    assert Heard(md5, next.queue, []) == 0;
    assert AfterCommit(md5, next, sys.txs[0]) == next;
    assert after.workers == map[0 := next];
  }

  // ---- being told ----

  /** The commit of a send reaches every listening worker of its queue. */
  lemma SendTells(md5: string -> string, w: Worker, after: int, limit: int, delay: int)
    requires w.queue == "q" && w.phase != Starting
    ensures AfterCommit(md5, w, SentTx(after, limit, delay)).inbox == w.inbox + 1
  {
    ChannelNames(md5, "q");
    BytesAtLeastChars("q");
    assert ["q"][..0] == [];
    assert SentTx(after, limit, delay).notes == ["q"];
  }

  /** So does the commit of a failure that leaves attempts; the last failure tells nobody. */
  lemma FailTells(md5: string -> string, w: Worker, row: Job, now: Time)
    requires w.queue == "q" && w.phase != Starting
    ensures AfterCommit(md5, w, FailTx(row, now)).inbox == w.inbox + (if row.retryCount < row.retryLimit then 1 else 0)
  {
    ChannelNames(md5, "q");
    BytesAtLeastChars("q");
    assert ["q"][..0] == [];
  }

  // ---- serving ----

  /** The worker wakes and looks. */
  lemma Looks(a: World, md5: string -> string, sys: Sys, w: Worker, row: Job) returns (scanned: Sys)
    requires w == Plainly(Sleeping, w.inbox, w.seen) && w.inbox > 0 && ByWorker(a, Manned(md5, sys, w))
    requires Calm(sys, row) && 0 !in sys.txs && Due(row, "q", sys.clock)
    ensures ByWorker(a, Manned(md5, scanned, Plainly(Scanned, w.inbox - 1, w.seen)))
    ensures scanned == sys.(txs := sys.txs[0 := Found(sys.clock)])
  {
    hide ByWorker, Act, View, Due;
    var now, n := sys.clock, w.inbox - 1;
    assert map[0 := w][0 := Plainly(Draining, n, w.seen)] == map[0 := Plainly(Draining, n, w.seen)];
    MovesOn(a, Manned(md5, sys, w), Wake(0));
    Acts(a, md5, sys, Plainly(Draining, n, w.seen), Begin(0), Plainly(Begun, n, w.seen));
    var begun := With(sys, 0, NewTx(now));
    assert Step(sys, Begin(0)).value == begun && begun.drawn == {7};
    ScanFinds(row, OthersOf(begun, 0), now);
    Does(a, md5, begun, Plainly(Begun, n, w.seen), FetchScan("q", 1), Found(now), Plainly(Scanned, n, w.seen));
    scanned := With(begun, 0, Found(now));
    assert scanned.drawn == {7};
  }

  /** And claims the job. */
  lemma Takes(a: World, md5: string -> string, sys: Sys, w: Worker, row: Job) returns (claimed: Sys)
    requires w == Plainly(Sleeping, w.inbox, w.seen) && w.inbox > 0 && ByWorker(a, Manned(md5, sys, w))
    requires Calm(sys, row) && 0 !in sys.txs && Due(row, "q", sys.clock)
    ensures ByWorker(a, Manned(md5, claimed, Plainly(Handling, w.inbox - 1, w.seen)))
    ensures Calm(claimed, ClaimRow(row, sys.clock)) && claimed.txs == sys.txs && claimed.clock == sys.clock
    ensures claimed.trace == sys.trace + [Claim("q", 7, sys.clock)]
  {
    hide ByWorker, Act, View, Due, ClaimRow;
    var now, n := sys.clock, w.inbox - 1;
    var scanned := Looks(a, md5, sys, w, row);
    Alone(scanned, 0);
    TakeStep(row, now);
    Does(a, md5, scanned, Plainly(Scanned, n, w.seen), FetchNext, ClaimTx(row, now), Plainly(Scanned, n, w.seen));
    var taken := With(scanned, 0, ClaimTx(row, now));
    assert taken.drawn == {7} && Expired(ClaimTx(row, now).log) == {};
    Commits(a, md5, taken, Plainly(Scanned, n, w.seen), Stored(ClaimRow(row, now)), Plainly(Handling, n, w.seen));
    claimed := Ended(taken, 0, Stored(ClaimRow(row, now)));
    assert claimed.txs == sys.txs;
    SameKey(row, now);
  }

  lemma SameKey(row: Job, now: Time)
    ensures ClaimRow(row, now).id == row.id && ClaimRow(row, now).name == row.name
  {
  }

  /** Told of a job, a sleeping worker claims it, and, its handler having succeeded, completes it and goes on
      draining. It does so by its own moves alone. */
  lemma WorkerServes(md5: string -> string, sys: Sys, w: Worker, row: Job) returns (served: Sys)
    requires w == Plainly(Sleeping, w.inbox, w.seen) && w.inbox > 0
    requires Calm(sys, row) && 0 !in sys.txs && Due(row, "q", sys.clock)
    ensures ByWorker(Manned(md5, sys, w), Manned(md5, served, Plainly(Draining, w.inbox - 1, w.seen)))
    ensures 7 in served.db.jobs && served.db.jobs[7].state == Completed
    ensures served.trace == sys.trace + [Claim("q", 7, sys.clock)] + [Complete("q", 7, sys.clock, None)]
  {
    hide ByWorker, Act, View, Due;
    var a, now, n := Manned(md5, sys, w), sys.clock, w.inbox - 1;
    StaysPut(a);
    var claimed := Takes(a, md5, sys, w, row);
    var active := ClaimRow(row, now);
    var handling := Plainly(Handling, n, w.seen);
    Acts(a, md5, claimed, handling, Begin(0), handling);
    var begun := With(claimed, 0, NewTx(now));
    assert Step(claimed, Begin(0)).value == begun && begun.drawn == {7};
    NowActive(row, now);
    OutcomeScans(active, OthersOf(begun, 0), now);
    Does(a, md5, begun, handling, CompleteScan("q", 7, None), AckingTx(now), handling);
    var acking := With(begun, 0, AckingTx(now));
    assert acking.drawn == {7};
    Alone(acking, 0);
    AckStep(active, now);
    Does(a, md5, acking, handling, OutcomeRow, AckTx(active, now), handling);
    var acked := With(acking, 0, AckTx(active, now));
    assert Expired(AckTx(active, now).log) == {};
    Commits(a, md5, acked, handling, Stored(CompleteRow(active, now, None)), Plainly(Draining, n, w.seen));
    served := Ended(acked, 0, Stored(CompleteRow(active, now, None)));
    assert AckTx(active, now).log == [Complete("q", 7, now, None)];
  }

  lemma NowActive(row: Job, now: Time)
    requires row.name == "q"
    ensures Running(ClaimRow(row, now), "q")
  {
  }
}
