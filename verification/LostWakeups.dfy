/**
 Each silence on its own loses a wakeup: five short runs in which a job is due, nobody holds it, and the
 worker of its queue sleeps with an empty inbox. With NoneMissed this says exactly when workers can be
 relied on.
 */
module LostWakeups {
  import opened Base
  import opened Jobs
  import opened Sessions
  import opened Channels
  import opened Wakeups
  import opened Silences
  import opened Runs

  // ---- worlds and what leads to them ----

  ghost predicate Reachable(allowed: set<Silence>, world: World) {
    exists moves :: Play(Wakeups.Start(world.md5), moves) == Some(world) && Tame(allowed, Wakeups.Start(world.md5), moves)
  }

  lemma Begins(md5: string -> string, allowed: set<Silence>)
    ensures Reachable(allowed, Wakeups.Start(md5))
  {
    assert Play(Wakeups.Start(md5), []) == Some(Wakeups.Start(md5)) && Tame(allowed, Wakeups.Start(md5), []);
  }

  lemma Moves(allowed: set<Silence>, world: World, move: Move)
    requires Reachable(allowed, world) && Wakeups.Next(world, move).Some? && MoveSays(allowed, world, move)
    ensures Reachable(allowed, Wakeups.Next(world, move).value)
  {
    hide Wakeups.Next, MoveSays;
    var moves :| Play(Wakeups.Start(world.md5), moves) == Some(world) && Tame(allowed, Wakeups.Start(world.md5), moves);
    var longer := moves + [move];
    assert longer[..|moves|] == moves;
    assert Play(Wakeups.Start(world.md5), longer) == Wakeups.Next(world, move);
    SameDigest(world.md5, longer);
  }

  function Empty(md5: string -> string, sys: Sys): World {
    World(sys, map[], md5)
  }

  lemma {:induction false} LiftEvents(md5: string -> string, allowed: set<Silence>, a: Sys, evs: seq<Event>)
    requires Reachable(allowed, Empty(md5, a)) && Execute(a, evs).Some? && Plain(allowed, a, evs)
    ensures Reachable(allowed, Empty(md5, Execute(a, evs).value))
    decreases |evs|
  {
    hide Step, Reachable, Says;
    if evs != [] {
      var init, ev := evs[..|evs| - 1], evs[|evs| - 1];
      LiftEvents(md5, allowed, a, init);
      var mid := Execute(a, init).value;
      OutsideMoves(md5, mid, ev);
      Moves(allowed, Empty(md5, mid), Outside(ev));
    }
  }

  lemma OutsideMoves(md5: string -> string, sys: Sys, ev: Event)
    requires Step(sys, ev).Some?
    ensures Wakeups.Next(Empty(md5, sys), Outside(ev)) == Some(Empty(md5, Step(sys, ev).value))
  {
    hide Step, Observe;
    assert Wakeups.Next(Empty(md5, sys), Outside(ev)).value.workers == map[];
  }

  /** Runs of sessions are runs of a world without workers. */
  lemma Lift(md5: string -> string, allowed: set<Silence>, s: Sid, a: Sys, b: Sys)
    requires Reachable(allowed, Empty(md5, a)) && By(s, allowed, a, b)
    ensures Reachable(allowed, Empty(md5, b))
  {
    hide Reachable, Plain;
    var evs :| Execute(a, evs) == Some(b) && OwnEvents(s, evs) && Plain(allowed, a, evs);
    LiftEvents(md5, allowed, a, evs);
  }

  // ---- the worker, session 0 ----

  function Manned(md5: string -> string, sys: Sys, w: Worker): World {
    World(sys, map[0 := w], md5)
  }

  function At(phase: Phase, inbox: nat, seen: Time, skipped: set<Id>, stranded: set<Id>): Worker {
    Worker("q", phase, inbox, seen, skipped, stranded, {})
  }

  /** A worker arrives, listens, and opens the transaction of its first fetch. */
  lemma Arrives(md5: string -> string, allowed: set<Silence>, sys: Sys)
    requires Reachable(allowed, Empty(md5, sys)) && 0 !in sys.txs
    ensures Reachable(allowed, Manned(md5, With(sys, 0, NewTx(sys.clock)), At(Begun, 0, 0, {}, {})))
  {
    hide Reachable;
    var starting, draining := At(Starting, 0, 0, {}, {}), At(Draining, 0, 0, {}, {});
    assert Empty(md5, sys).workers[0 := starting] == map[0 := starting];
    Moves(allowed, Empty(md5, sys), Hire(0, "q"));
    assert map[0 := starting][0 := draining] == map[0 := draining];
    Moves(allowed, Manned(md5, sys, starting), Listen(0));
    WorkMoves(md5, sys, draining, Begin(0), At(Begun, 0, 0, {}, {}));
    Moves(allowed, Manned(md5, sys, draining), Work(0, Begin(0)));
    assert Step(sys, Begin(0)).value == With(sys, 0, NewTx(sys.clock));
  }

  /** The worker's steps inside a transaction are seen by nobody. */
  lemma WorkMoves(md5: string -> string, sys: Sys, w: Worker, ev: Event, next: Worker)
    requires (ev.Begin? || ev.Do?) && ev.s == 0 && Step(sys, ev).Some?
    requires Advance(w, TxOf(sys, 0), OthersOf(sys, 0), ev) == Some(next)
    ensures Wakeups.Next(Manned(md5, sys, w), Work(0, ev)) == Some(Manned(md5, Step(sys, ev).value, next))
    ensures MoveSays({}, Manned(md5, sys, w), Work(0, ev))
  {
    hide Step, Advance, OthersOf;
    assert Wakeups.Next(Manned(md5, sys, w), Work(0, ev)).value.workers == map[0 := next];
  }

  lemma WorkerDoes(md5: string -> string, allowed: set<Silence>, sys: Sys, w: Worker, a: Action, tx: Tx, next: Worker)
    requires Reachable(allowed, Manned(md5, sys, w)) && 0 in sys.txs
    requires Act(sys.db, sys.drawn, sys.txs[0], OthersOf(sys, 0), a) == Some(tx)
    requires Advance(w, Some(sys.txs[0]), OthersOf(sys, 0), Do(0, a)) == Some(next)
    ensures Reachable(allowed, Manned(md5, With(sys, 0, tx), next))
  {
    hide Act, Advance, Reachable, OthersOf;
    WorkMoves(md5, sys, w, Do(0, a), next);
    Moves(allowed, Manned(md5, sys, w), Work(0, Do(0, a)));
  }

  /** A fetch that wrote nothing commits, and the worker sleeps. */
  lemma Sleeps(md5: string -> string, allowed: set<Silence>, sys: Sys, w: Worker)
    requires Reachable(allowed, Manned(md5, sys, w)) && w.phase == Scanned
    requires 0 in sys.txs && sys.txs[0] == NewTx(sys.txs[0].now)
    ensures Reachable(allowed, Manned(md5, sys.(txs := sys.txs - {0}), w.(phase := Sleeping, seen := sys.txs[0].now)))
  {
    hide Reachable;
    var tx := sys.txs[0];
    var asleep := w.(phase := Sleeping, seen := tx.now);
    var after := Wakeups.Next(Manned(md5, sys, w), Work(0, Commit(0))).value;
    EmptyCommitSays(allowed, sys, 0);
    Moves(allowed, Manned(md5, sys, w), Work(0, Commit(0)));
    assert View(sys.db, tx) == sys.db by { NewTxSees(sys.db, tx.now); }
    assert sys.trace + tx.log == sys.trace;
    EmptyCommit(md5, asleep, tx);
    assert after.workers == map[0 := asleep];
  }

  lemma EmptyCommit(md5: string -> string, w: Worker, tx: Tx)
    requires tx == NewTx(tx.now)
    ensures AfterCommit(md5, w, tx) == w
  {
    assert (w.stranded - tx.writes.Keys) + w.skipped * (tx.locks - tx.writes.Keys) == w.stranded;
    assert w.skipped - tx.locks == w.skipped;
    assert (w.putBack - tx.writes.Keys) + PutBackBy(tx) == w.putBack;
  }

  lemma EmptyCommitSays(allowed: set<Silence>, sys: Sys, s: Sid)
    requires s in sys.txs && sys.txs[s] == NewTx(sys.txs[s].now)
    ensures Says(allowed, sys, Commit(s))
  {
    assert PutBackBy(sys.txs[s]) == {};
  }

  /** The worker finds no job due and sleeps. */
  lemma SleepsOverUndue(md5: string -> string, allowed: set<Silence>, sys: Sys, row: Job)
    requires Reachable(allowed, Empty(md5, sys)) && 0 !in sys.txs
    requires sys.db == Stored(row) && sys.drawn == {7} && !Due(row, "q", sys.clock)
    ensures Reachable(allowed, Manned(md5, sys, At(Sleeping, 0, sys.clock, {}, {})))
  {
    hide Reachable, Act, Due, OthersOf;
    Arrives(md5, allowed, sys);
    var now := sys.clock;
    var begun := With(sys, 0, NewTx(now));
    assert begun.drawn == {7};
    ScanFindsNothing(row, OthersOf(begun, 0), now);
    WorkerDoes(md5, allowed, begun, At(Begun, 0, 0, {}, {}), FetchScan("q", 1), NewTx(now), At(Scanned, 0, 0, {}, {}));
    assert With(begun, 0, NewTx(now)) == begun;
    Sleeps(md5, allowed, begun, At(Scanned, 0, 0, {}, {}));
    assert begun.(txs := begun.txs - {0}) == sys;
  }

  /** The worker comes upon a job that another session holds, skips it and sleeps. */
  lemma SleepsOverHeld(md5: string -> string, allowed: set<Silence>, sys: Sys, row: Job, s: Sid)
    requires Reachable(allowed, Empty(md5, sys)) && 0 !in sys.txs && s in sys.txs && 7 in sys.txs[s].locks
    requires sys.db == Stored(row) && row.id == 7 && sys.drawn == {7} && Due(row, "q", sys.clock)
    ensures Reachable(allowed, Manned(md5, sys, At(Sleeping, 0, sys.clock, {7}, {})))
  {
    hide Reachable, Act, Due, OthersOf;
    Arrives(md5, allowed, sys);
    var now := sys.clock;
    var begun := With(sys, 0, NewTx(now));
    assert begun.drawn == {7};
    ScanFinds(row, OthersOf(begun, 0), now);
    WorkerDoes(md5, allowed, begun, At(Begun, 0, 0, {}, {}), FetchScan("q", 1), Found(now), At(Scanned, 0, 0, {}, {}));
    var scanned := With(begun, 0, Found(now));
    assert scanned.drawn == {7};
    HoldsSeven(scanned, s);
    SkipStep(row, OthersOf(scanned, 0), now);
    assert At(Scanned, 0, 0, {}, {}).skipped + {7} == {7};
    WorkerDoes(md5, allowed, scanned, At(Scanned, 0, 0, {}, {}), FetchNext, NewTx(now), At(Scanned, 0, 0, {7}, {}));
    var skipped := With(scanned, 0, NewTx(now));
    Sleeps(md5, allowed, skipped, At(Scanned, 0, 0, {7}, {}));
    assert skipped.(txs := skipped.txs - {0}) == sys;
  }

  lemma HoldsSeven(sys: Sys, s: Sid)
    requires s in sys.txs && s != 0 && 7 in sys.txs[s].locks
    ensures 7 in OthersOf(sys, 0).locks
  {
  }

  lemma SkipStep(row: Job, others: Others, now: Time)
    requires 7 in others.locks
    ensures Act(Stored(row), {7}, Found(now), others, FetchNext) == Some(NewTx(now))
  {
  }

  // ---- the five runs ----

  /** The run ends in a world where worker 0 has missed job 7. */
  ghost predicate Loses(allowed: set<Silence>, world: World) {
    Reachable(allowed, world) && Missed(world, 0, 7)
  }

  lemma Sent(md5: string -> string, after: int, delay: int, allowed: set<Silence>) returns (sys: Sys)
    requires Sendable(after, 2, delay) && (after > 0 ==> Deferred in allowed)
    ensures Reachable(allowed, Empty(md5, sys)) && Calm(sys, SentRow(after, 2, delay))
    ensures sys.txs == map[] && sys.clock == 0
  {
    hide Reachable, By;
    Begins(md5, allowed);
    sys := Sends(after, 2, delay, allowed);
    Lift(md5, allowed, 1, INIT, sys);
  }

  lemma Claimed(md5: string -> string, delay: int, allowed: set<Silence>) returns (sys: Sys)
    requires InInt32(delay)
    ensures Reachable(allowed, Empty(md5, sys)) && Calm(sys, ClaimRow(SentRow(0, 2, delay), 0))
    ensures sys.txs == map[] && sys.clock == 0
  {
    hide Reachable, By, Calm;
    var before := Sent(md5, 0, delay, allowed);
    sys := Claims(2, before, SentRow(0, 2, delay));
    Allows(2, {}, allowed, before, sys);
    Lift(md5, allowed, 2, before, sys);
  }

  /** Time passes while the worker sleeps. */
  lemma Later(md5: string -> string, allowed: set<Silence>, sys: Sys, w: Worker, d: nat)
    requires Reachable(allowed, Manned(md5, sys, w))
    ensures Reachable(allowed, Manned(md5, sys.(clock := sys.clock + d), w))
  {
    hide Reachable;
    var after := Wakeups.Next(Manned(md5, sys, w), Outside(Tick(d))).value;
    Moves(allowed, Manned(md5, sys, w), Outside(Tick(d)));
    assert after.workers == map[0 := w];
  }

  /** Another session ends while the worker sleeps. */
  lemma Ends(md5: string -> string, allowed: set<Silence>, sys: Sys, w: Worker, ev: Event, next: Worker)
    requires Reachable(allowed, Manned(md5, sys, w)) && (ev.Commit? || ev.Abort?) && ev.s != 0
    requires Step(sys, ev).Some? && Says(allowed, sys, ev) && Observe(md5, w, sys, ev) == next
    ensures Reachable(allowed, Manned(md5, Step(sys, ev).value, next))
  {
    hide Reachable, Step, Observe, Says;
    var after := Wakeups.Next(Manned(md5, sys, w), Outside(ev)).value;
    Moves(allowed, Manned(md5, sys, w), Outside(ev));
    assert after.workers == map[0 := next];
  }

  lemma Overlooked(world: World, row: Job)
    requires 0 in world.workers && world.workers[0].phase == Sleeping && world.workers[0].inbox == 0
    requires world.workers[0].queue == "q" && world.sys.db == Stored(row) && Due(row, "q", world.sys.clock)
    requires world.sys.txs == map[]
    ensures Missed(world, 0, 7)
  {
  }

  const LAPSE: nat := 10_000_000 // microseconds

  /** A deferred job comes due while the worker sleeps: the passing of time announces nothing. */
  lemma DeferredIsSilent(md5: string -> string) returns (world: World)
    ensures Loses({Deferred}, world) && world.md5 == md5
  {
    hide Reachable, Missed;
    var sys := Sent(md5, 10, 0, {Deferred});
    var row := SentRow(10, 2, 0);
    SleepsOverUndue(md5, {Deferred}, sys, row);
    var asleep := At(Sleeping, 0, 0, {}, {});
    Later(md5, {Deferred}, sys, asleep, LAPSE);
    world := Manned(md5, sys.(clock := sys.clock + LAPSE), asleep);
    Overlooked(world, row);
  }

  /** So does a job that failed and waits for retry_delay: its notification came too early. */
  lemma DelayedIsSilent(md5: string -> string) returns (world: World)
    ensures Loses({Delayed}, world) && world.md5 == md5
  {
    hide Reachable, Missed, By;
    var claimed := Claimed(md5, 10, {Delayed});
    var row := ClaimRow(SentRow(0, 2, 10), 0);
    var sys := Fails(2, claimed, row, {Delayed});
    Lift(md5, {Delayed}, 2, claimed, sys);
    row := FailRow(row, 0, None);
    SleepsOverUndue(md5, {Delayed}, sys, row);
    var asleep := At(Sleeping, 0, 0, {}, {});
    Later(md5, {Delayed}, sys, asleep, LAPSE);
    world := Manned(md5, sys.(clock := sys.clock + LAPSE), asleep);
    Overlooked(world, row);
  }

  const EXPIRY: nat := 901_000_000

  /** Maintenance is about to commit when the worker looks; then it puts the job back. */
  lemma RestoredIsSilent(md5: string -> string) returns (world: World)
    ensures Loses({Restored}, world) && world.md5 == md5
  {
    hide Reachable, Missed, By, View, Says;
    var claimed := Claimed(md5, 0, {Restored});
    var row := ClaimRow(SentRow(0, 2, 0), 0);
    Stays(3, {Restored}, claimed);
    Waits(3, {Restored}, claimed, claimed, EXPIRY);
    var late := claimed.(clock := claimed.clock + EXPIRY);
    Lift(md5, {Restored}, 3, claimed, late);
    var sys := Maintaining(3, late, row);
    Allows(3, {}, {Restored}, late, sys);
    Lift(md5, {Restored}, 3, late, sys);
    SleepsOverUndue(md5, {Restored}, sys, row);
    var asleep := At(Sleeping, 0, EXPIRY, {}, {});
    var tx := MaintainTx(row, EXPIRY);
    MaintainSays(sys, 3, row, EXPIRY);
    SweptView(row, EXPIRY);
    assert Heard(md5, "q", tx.notes) == 0;
    var after := Observe(md5, asleep, sys, Commit(3));
    Ends(md5, {Restored}, sys, asleep, Commit(3), after);
    world := Manned(md5, Step(sys, Commit(3)).value, after);
    Overlooked(world, ExpireRow(row, EXPIRY));
  }

  // a complete that comes too late

  function TooLateTx(now: Time): Tx {
    Lock(AckingTx(now), 7).(stmt := Idle)
  }

  lemma TooLateStep(row: Job, now: Time)
    requires !Running(row, "q")
    ensures Act(Stored(row), {7}, AckingTx(now), NOBODY, OutcomeRow) == Some(TooLateTx(now))
    ensures View(Stored(row), TooLateTx(now)) == Stored(row)
  {
  }

  /** Session 3 wants to complete the job, has to wait for session 2, finds it failed, and keeps the row lock. */
  lemma Races(md5: string -> string) returns (sys: Sys)
    ensures Reachable({LetGo}, Empty(md5, sys)) && sys.clock == 0 && sys.drawn == {7}
    ensures sys.db == Stored(FailRow(ClaimRow(SentRow(0, 2, 0), 0), 0, None)) && sys.txs == map[3 := TooLateTx(0)]
  {
    hide Reachable, By, Act, View, FailRow, SentRow;
    var claimed := Claimed(md5, 0, {LetGo});
    var row := ClaimRow(SentRow(0, 2, 0), 0);
    ClaimedRuns();
    Stays(3, {LetGo}, claimed);
    Opens(3, {LetGo}, claimed, claimed);
    var begun := With(claimed, 3, NewTx(0));
    assert begun.drawn == {7};
    OutcomeScans(row, OthersOf(begun, 3), 0);
    Does(3, {LetGo}, claimed, begun, CompleteScan("q", 7, None), AckingTx(0));
    var waiting := With(begun, 3, AckingTx(0));
    assert waiting.drawn == {7};
    Lift(md5, {LetGo}, 3, claimed, waiting);
    var failed := Fails(2, waiting, row, {LetGo});
    Lift(md5, {LetGo}, 2, waiting, failed);
    Stays(3, {LetGo}, failed);
    Alone(failed, 3);
    TooLateStep(FailRow(row, 0, None), 0);
    Does(3, {LetGo}, failed, failed, OutcomeRow, TooLateTx(0));
    sys := With(failed, 3, TooLateTx(0));
    assert sys.drawn == {7};
    Lift(md5, {LetGo}, 3, failed, sys);
    assert sys.txs == map[3 := TooLateTx(0)];
  }

  lemma ClaimedRuns()
    ensures var row := ClaimRow(SentRow(0, 2, 0), 0);
            && Running(row, "q") && row.retryDelay == 0
            && !Running(FailRow(row, 0, None), "q")
  {
  }

  /** While that lock is held the worker skips the job; releasing it announces nothing. */
  lemma LetGoIsSilent(md5: string -> string) returns (world: World)
    ensures Loses({LetGo}, world) && world.md5 == md5
  {
    hide Reachable, Missed, View, Says;
    var sys := Races(md5);
    var row := FailRow(ClaimRow(SentRow(0, 2, 0), 0), 0, None);
    SleepsOverHeld(md5, {LetGo}, sys, row, 3);
    var asleep := At(Sleeping, 0, 0, {7}, {});
    TooLateStep(row, 0);
    TooLateSays(sys);
    assert Heard(md5, "q", TooLateTx(0).notes) == 0;
    var after := Observe(md5, asleep, sys, Commit(3));
    Ends(md5, {LetGo}, sys, asleep, Commit(3), after);
    world := Manned(md5, Step(sys, Commit(3)).value, after);
    Overlooked(world, row);
  }

  lemma TooLateSays(sys: Sys)
    requires 3 in sys.txs && sys.txs[3] == TooLateTx(0)
    ensures Says({LetGo}, sys, Commit(3))
  {
    assert PutBackBy(sys.txs[3]) == {};
  }

  /** A session that has claimed the job aborts after the worker skipped it. */
  lemma AbortedIsSilent(md5: string -> string) returns (world: World)
    ensures Loses({Aborted}, world) && world.md5 == md5
  {
    hide Reachable, Missed, View, Says, By;
    var sent := Sent(md5, 0, 0, {Aborted});
    var row := SentRow(0, 2, 0);
    var sys := Claiming(2, sent, row);
    Allows(2, {}, {Aborted}, sent, sys);
    Lift(md5, {Aborted}, 2, sent, sys);
    SleepsOverHeld(md5, {Aborted}, sys, row, 2);
    var asleep := At(Sleeping, 0, 0, {7}, {});
    AbortSays(sys);
    var after := Observe(md5, asleep, sys, Abort(2));
    Ends(md5, {Aborted}, sys, asleep, Abort(2), after);
    world := Manned(md5, Step(sys, Abort(2)).value, after);
    Overlooked(world, row);
  }

  lemma AbortSays(sys: Sys)
    ensures Says({Aborted}, sys, Abort(2))
  {
  }

  // ---- exactly when no wakeup is lost ----

  /** In no run with these silences does a worker miss a job. */
  ghost predicate Safe(md5: string -> string, allowed: set<Silence>) {
    forall world, s, id | Reachable(allowed, world) && world.md5 == md5 :: !Missed(world, s, id)
  }

  lemma {:induction false} TameAllows(less: set<Silence>, more: set<Silence>, world: World, moves: seq<Move>)
    requires less <= more && Play(world, moves).Some? && Tame(less, world, moves)
    ensures Tame(more, world, moves)
    decreases |moves|
  {
    hide Wakeups.Next;
    if moves != [] {
      TameAllows(less, more, world, moves[..|moves| - 1]);
    }
  }

  lemma LosesMore(less: set<Silence>, more: set<Silence>, world: World)
    requires Loses(less, world) && less <= more
    ensures Loses(more, world)
  {
    hide Tame, Missed;
    var moves :| Play(Wakeups.Start(world.md5), moves) == Some(world) && Tame(less, Wakeups.Start(world.md5), moves);
    TameAllows(less, more, Wakeups.Start(world.md5), moves);
  }

  lemma EachLoses(md5: string -> string, k: Silence) returns (world: World)
    ensures Loses({k}, world) && world.md5 == md5
  {
    match k
    case Deferred => world := DeferredIsSilent(md5);
    case Delayed => world := DelayedIsSilent(md5);
    case Restored => world := RestoredIsSilent(md5);
    case LetGo => world := LetGoIsSilent(md5);
    case Aborted => world := AbortedIsSilent(md5);
  }

  /** Workers miss no job exactly when nothing at all is left unsaid. */
  lemma SafeExactlyWhenNothingIsSilent(md5: string -> string, allowed: set<Silence>)
    requires forall name :: IsDigest(md5(name))
    ensures Safe(md5, allowed) <==> allowed == {}
  {
    hide Reachable, Missed;
    if allowed == {} {
      forall world, s, id | Reachable({}, world) && world.md5 == md5 ensures !Missed(world, s, id) {
        NeverMissed(world, s, id);
      }
    } else {
      var k :| k in allowed;
      var world := EachLoses(md5, k);
      LosesMore({k}, allowed, world);
    }
  }

  lemma NeverMissed(world: World, s: Sid, id: Id)
    requires Reachable({}, world) && forall name :: IsDigest(world.md5(name))
    ensures !Missed(world, s, id)
  {
    hide Tame, Play, HeldByOther;
    var moves :| Play(Wakeups.Start(world.md5), moves) == Some(world) && Tame({}, Wakeups.Start(world.md5), moves);
    if Missed(world, s, id) {
      NoneMissed(world.md5, moves, s, id);
    }
  }
}
