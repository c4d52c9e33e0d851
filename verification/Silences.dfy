/**
 What the end of a transaction can leave unsaid, and what a worker may rely on when nothing is left unsaid:
 no job waits behind a sleeping worker.
 */
module Silences {
  import opened Base
  import opened Jobs
  import opened Lifecycle
  import opened Sessions
  import opened Serialization
  import opened Channels
  import opened Wakeups

  /**
   A commit can leave a new job that is due only later, a retry that is due only later, a job that maintenance
   put back, or a row that was locked and not written; an abort can let go of a row.
   */
  datatype Silence = Deferred | Delayed | Restored | LetGo | Aborted

  ghost predicate LeavesDeferred(tx: Tx) {
    exists id :: id in tx.writes && tx.writes[id].Some? && tx.writes[id].value.state == Created
                 && tx.writes[id].value.startAfter > tx.now
  }

  ghost predicate LeavesDelayed(tx: Tx) {
    exists id :: id in tx.writes && tx.writes[id].Some? && tx.writes[id].value.state == Retry
                 && tx.writes[id].value.retryDelay > 0
  }

  ghost predicate Occurs(k: Silence, sys: Sys, ev: Event) {
    match ev
    case Commit(s) =>
      s in sys.txs
      && (match k
          case Deferred => LeavesDeferred(sys.txs[s])
          case Delayed => LeavesDelayed(sys.txs[s])
          case Restored => PutBackBy(sys.txs[s]) != {}
          case LetGo => !(sys.txs[s].locks <= sys.txs[s].writes.Keys)
          case Aborted => false)
    case Abort(s) => k == Aborted && s in sys.txs && sys.txs[s].locks != {}
    case _ => false
  }

  /** The event leaves nothing unsaid but what is allowed. */
  ghost predicate Says(allowed: set<Silence>, sys: Sys, ev: Event) {
    forall k | Occurs(k, sys, ev) :: k in allowed
  }

  ghost predicate MoveSays(allowed: set<Silence>, world: World, move: Move) {
    move.Outside? || move.Work? ==> Says(allowed, world.sys, move.ev)
  }

  /** A run of workers and sessions with no silences but those allowed. */
  ghost predicate Tame(allowed: set<Silence>, world: World, moves: seq<Move>)
    requires Play(world, moves).Some?
    decreases |moves|
  {
    moves == []
    || (var init := moves[..|moves| - 1];
        Play(world, init).Some? && Tame(allowed, world, init)
        && MoveSays(allowed, Play(world, init).value, moves[|moves| - 1]))
  }

  /** The worker sleeps with an empty inbox while a job of its queue is due and nobody holds it. */
  ghost predicate Missed(world: World, s: Sid, id: Id) {
    && s in world.workers && world.workers[s].phase == Sleeping && world.workers[s].inbox == 0
    && id in world.sys.db.jobs && Due(world.sys.db.jobs[id], world.workers[s].queue, world.sys.clock)
    && !HeldByOther(world.sys, s, id)
  }

  // ---- when a retried job is due ----

  /** A job that a transaction put back is due retry_delay after its now(). */
  ghost predicate Timed(tx: Tx) {
    forall id | id in tx.writes && tx.writes[id].Some? && tx.writes[id].value.state == Retry ::
      tx.writes[id].value.startAfter == tx.now + tx.writes[id].value.retryDelay * SECOND
  }

  lemma VisitTimed(db: Db, tx: Tx, id: Id, op: Op)
    requires Timed(tx) && OnRow(op, id) && (op.Expire? || op.Fail? ==> op.now == tx.now)
    ensures Timed(Visit(db, tx, id, op)) && Visit(db, tx, id, op).now == tx.now
  {
  }

  lemma DropTimed(db: Db, tx: Tx, name: string)
    requires Timed(tx)
    ensures Timed(DropAll(db, tx, name)) && DropAll(db, tx, name).now == tx.now
  {
  }

  lemma ActTimed(db: Db, drawn: set<Id>, tx: Tx, others: Others, a: Action)
    requires Timed(tx) && Act(db, drawn, tx, others, a).Some?
    ensures Timed(Act(db, drawn, tx, others, a).value) && Act(db, drawn, tx, others, a).value.now == tx.now
  {
    hide View, Visit, DropAll, RowsOf;
    match a
    case DropDone => DropTimed(db, tx, tx.stmt.name);
    case FetchNext => VisitTimed(db, tx, tx.stmt.rows[0], Claim(tx.stmt.queue, tx.stmt.rows[0], tx.now));
    case OutcomeRow =>
      VisitTimed(db, tx, tx.stmt.id, Complete(tx.stmt.queue, tx.stmt.id, tx.now, tx.stmt.output));
      VisitTimed(db, tx, tx.stmt.id, Fail(tx.stmt.queue, tx.stmt.id, tx.now, tx.stmt.output));
    case ExpireNext(id) => VisitTimed(db, tx, id, Expire(id, tx.now));
    case PurgeNext(id) => VisitTimed(db, tx, id, Purge(id, tx.now));
    case _ =>
  }

  lemma StepTimed(sys: Sys, ev: Event)
    requires Step(sys, ev).Some? && forall o | o in sys.txs :: Timed(sys.txs[o])
    ensures forall o | o in Step(sys, ev).value.txs :: Timed(Step(sys, ev).value.txs[o])
  {
    hide Act, View;
    if ev.Do? {
      ActTimed(sys.db, sys.drawn, sys.txs[ev.s], OthersOf(sys, ev.s), ev.a);
    }
  }

  // ---- nothing is due later ----

  /** Every job that waits in the queue was due by `t`. */
  ghost predicate DueBy(db: Db, queue: string, t: Time) {
    forall id | id in db.jobs && db.jobs[id].name == queue && Waiting(db.jobs[id]) :: db.jobs[id].startAfter <= t
  }

  ghost predicate Prompt(sys: Sys) {
    && (forall o | o in sys.txs :: Timed(sys.txs[o]))
    && forall queue :: DueBy(sys.db, queue, sys.clock)
  }

  lemma CommitPrompt(sys: Sys, s: Sid, queue: string)
    requires Inv(sys) && Prompt(sys) && s in sys.txs && Says({}, sys, Commit(s))
    ensures DueBy(View(sys.db, sys.txs[s]), queue, sys.clock)
  {
    hide Inv, View;
    var tx := sys.txs[s];
    assert tx.now <= sys.clock by { Began(sys, s); }
    assert !Occurs(Deferred, sys, Commit(s)) && !Occurs(Delayed, sys, Commit(s));
    assert DueBy(sys.db, queue, sys.clock);
    var after := View(sys.db, tx);
    forall id | id in after.jobs && after.jobs[id].name == queue && Waiting(after.jobs[id])
      ensures after.jobs[id].startAfter <= sys.clock
    {
      ViewRows(sys.db, tx, id);
      assert Visible(sys.db, tx, id) == Some(after.jobs[id]);
      if id in tx.writes {
        WrittenPrompt(tx, id);
      }
    }
  }

  lemma WrittenPrompt(tx: Tx, id: Id)
    requires Timed(tx) && !LeavesDeferred(tx) && !LeavesDelayed(tx)
    requires id in tx.writes && tx.writes[id].Some? && Waiting(tx.writes[id].value)
    ensures tx.writes[id].value.startAfter <= tx.now
  {
    if tx.writes[id].value.state == Retry {
      NoDelay(tx.writes[id].value.retryDelay);
    }
  }

  lemma NoDelay(d: int)
    requires d <= 0
    ensures d * SECOND <= 0
  {
  }

  lemma Began(sys: Sys, s: Sid)
    requires Inv(sys) && s in sys.txs
    ensures sys.txs[s].now <= sys.clock
  {
  }

  lemma StepPrompt(sys: Sys, ev: Event)
    requires Inv(sys) && Prompt(sys) && Step(sys, ev).Some? && Says({}, sys, ev)
    ensures Prompt(Step(sys, ev).value)
  {
    hide Inv, View, Act, Timed;
    StepTimed(sys, ev);
    forall queue ensures DueBy(Step(sys, ev).value.db, queue, Step(sys, ev).value.clock) {
      assert DueBy(sys.db, queue, sys.clock);
      if ev.Commit? {
        CommitPrompt(sys, ev.s, queue);
      }
    }
  }

  // ---- what a worker can rely on ----

  /** Since the worker last looked, whatever came to wait in its queue was due by then, or it was told. */
  ghost predicate Told(sys: Sys, s: Sid, w: Worker) {
    match w.phase
    case Begun => w.inbox > 0 || (s in sys.txs && DueBy(sys.db, w.queue, sys.txs[s].now))
    case Scanned =>
      w.inbox > 0 || (s in sys.txs && (sys.txs[s].log != [] || DueBy(sys.db, w.queue, sys.txs[s].now)))
    case Sleeping => w.inbox > 0 || DueBy(sys.db, w.queue, w.seen)
    case _ => true
  }

  ghost predicate Informed(world: World) {
    && Prompt(world.sys)
    && forall w | w in world.workers :: WorkerInformed(world.md5, world.sys, w, world.workers[w])
  }

  lemma Unannounced(tx: Tx, id: Id)
    requires Announced(tx) && id in tx.writes && tx.writes[id].Some? && Waiting(tx.writes[id].value)
    requires tx.writes[id].value.name !in tx.notes
    ensures id in PutBackBy(tx)
  {
  }

  lemma CommitTells(md5: string -> string, sys: Sys, s: Sid, w: Worker, t: Time)
    requires s in sys.txs && Announced(sys.txs[s]) && Agrees(md5, w.queue) && w.phase != Starting
    requires Says({}, sys, Commit(s))
    requires w.inbox > 0 || DueBy(sys.db, w.queue, t)
    ensures AfterCommit(md5, w, sys.txs[s]).inbox > 0 || DueBy(View(sys.db, sys.txs[s]), w.queue, t)
  {
    hide View;
    var tx := sys.txs[s];
    if w.queue in tx.notes {
      HeardNote(md5, w.queue, tx.notes);
    } else if w.inbox == 0 {
      assert !Occurs(Restored, sys, Commit(s));
      var after := View(sys.db, tx);
      forall id | id in after.jobs && after.jobs[id].name == w.queue && Waiting(after.jobs[id])
        ensures after.jobs[id].startAfter <= t
      {
        ViewRows(sys.db, tx, id);
        assert Visible(sys.db, tx, id) == Some(after.jobs[id]);
        if id in tx.writes {
          Unannounced(tx, id);
          assert false;
        }
      }
    }
  }

  lemma ObservedUnexcused(md5: string -> string, sys: Sys, ev: Event, w: Worker)
    requires Says({}, sys, ev) && w.stranded == {} && w.putBack == {}
    ensures Observe(md5, w, sys, ev).stranded == {} && Observe(md5, w, sys, ev).putBack == {}
  {
    match ev
    case Commit(s) => assert !Occurs(Restored, sys, ev) && !Occurs(LetGo, sys, ev);
    case Abort(s) => assert !Occurs(Aborted, sys, ev);
    case _ =>
  }

  lemma BystanderTold(md5: string -> string, sys: Sys, ev: Event, s: Sid, w: Worker)
    requires Step(sys, ev).Some? && SessionOf(ev) != Some(s) && Says({}, sys, ev)
    requires forall o | o in sys.txs :: Announced(sys.txs[o])
    requires Agrees(md5, w.queue) && Told(sys, s, w)
    ensures Told(Step(sys, ev).value, s, Observe(md5, w, sys, ev))
  {
    hide View, Act, Agrees, Says, Announced, DueBy, ClientChannel, BossChannel;
    if ev.Commit? {
      match w.phase
      case Begun => if s in sys.txs { CommitTells(md5, sys, ev.s, w, sys.txs[s].now); }
      case Scanned => if s in sys.txs && sys.txs[s].log == [] { CommitTells(md5, sys, ev.s, w, sys.txs[s].now); }
      case Sleeping => CommitTells(md5, sys, ev.s, w, w.seen);
      case _ =>
    }
  }

  /** The worker's own step: at Begin nothing waiting is due later than now, and until its commit nobody
      changes that without telling it. */
  lemma OwnTold(md5: string -> string, sys: Sys, s: Sid, w: Worker, ev: Event)
    requires OwnStep(md5, sys, s, w, ev) && Prompt(sys) && Says({}, sys, ev)
    requires Agrees(md5, w.queue) && Told(sys, s, w)
    ensures var next := Advance(w, TxOf(sys, s), OthersOf(sys, s), ev).value;
            Told(Step(sys, ev).value, s, Observe(md5, next, sys, ev))
  {
    hide View, Inv, Announced, DueBy, FetchRow, OthersOf, Agrees, ClientChannel, BossChannel, Says, Visit, WorkerOk;
    var next := Advance(w, TxOf(sys, s), OthersOf(sys, s), ev).value;
    if ev.Begin? {
      assert DueBy(sys.db, w.queue, sys.clock);
    } else if ev.Do? && (w.phase == Begun || w.phase == Scanned) {
      FetchKeepsNow(sys, s, w, ev);
    } else if ev.Commit? && next.phase == Sleeping {
      CommitTells(md5, sys, s, next, next.seen);
    }
  }

  lemma FetchKeepsNow(sys: Sys, s: Sid, w: Worker, ev: Event)
    requires ev.Do? && ev.s == s && Step(sys, ev).Some?
    requires Advance(w, TxOf(sys, s), OthersOf(sys, s), ev).Some? && (w.phase == Begun || w.phase == Scanned)
    ensures var sys' := Step(sys, ev).value;
            sys'.db == sys.db && s in sys'.txs && sys'.txs[s].now == sys.txs[s].now
            && (sys.txs[s].log != [] ==> sys'.txs[s].log != [])
  {
    hide View, OthersOf;
  }

  lemma MoveInformed(world: World, move: Move)
    requires WorldInv(world) && Informed(world) && Wakeups.Next(world, move).Some? && MoveSays({}, world, move)
    ensures Informed(Wakeups.Next(world, move).value)
  {
    hide Inv, Step, Announced, WorkerOk, Observe, Advance, Told, Prompt, Says, Agrees;
    var world' := Wakeups.Next(world, move).value;
    match move
    case Hire(w, _) => StillTold(world, move);
    case Listen(w) => StillTold(world, move);
    case Wake(w) => StillTold(world, move);
    case Outside(ev) =>
      StepPrompt(world.sys, ev);
      forall w | w in world'.workers ensures WorkerInformed(world.md5, world'.sys, w, world'.workers[w]) {
        BystanderInformed(world, ev, w, world.workers[w]);
      }
    case Work(s, ev) =>
      StepPrompt(world.sys, ev);
      forall w | w in world'.workers ensures WorkerInformed(world.md5, world'.sys, w, world'.workers[w]) {
        if w == s {
          OwnInformed(world, w, ev);
        } else {
          BystanderInformed(world, ev, w, world.workers[w]);
        }
      }
  }

  ghost predicate WorkerInformed(md5: string -> string, sys: Sys, s: Sid, w: Worker) {
    w.stranded == {} && w.putBack == {} && (Agrees(md5, w.queue) ==> Told(sys, s, w))
  }

  lemma BystanderInformed(world: World, ev: Event, s: Sid, w: Worker)
    requires WorldInv(world) && WorkerInformed(world.md5, world.sys, s, w)
    requires Step(world.sys, ev).Some? && SessionOf(ev) != Some(s) && Says({}, world.sys, ev)
    ensures WorkerInformed(world.md5, Step(world.sys, ev).value, s, Observe(world.md5, w, world.sys, ev))
  {
    hide Inv, Step, Announced, WorkerOk, Told, Says, Agrees;
    ObservedUnexcused(world.md5, world.sys, ev, w);
    if Agrees(world.md5, w.queue) {
      BystanderTold(world.md5, world.sys, ev, s, w);
    }
  }

  lemma OwnInformed(world: World, s: Sid, ev: Event)
    requires WorldInv(world) && Informed(world) && s in world.workers && SessionOf(ev) == Some(s)
    requires Step(world.sys, ev).Some? && Says({}, world.sys, ev)
    requires Advance(world.workers[s], TxOf(world.sys, s), OthersOf(world.sys, s), ev).Some?
    ensures var next := Advance(world.workers[s], TxOf(world.sys, s), OthersOf(world.sys, s), ev).value;
            WorkerInformed(world.md5, Step(world.sys, ev).value, s, Observe(world.md5, next, world.sys, ev))
  {
    hide Inv, Step, Announced, WorkerOk, Told, Says, Agrees, Prompt, Observe, OthersOf;
    var w := world.workers[s];
    var next := Advance(w, TxOf(world.sys, s), OthersOf(world.sys, s), ev).value;
    ObservedUnexcused(world.md5, world.sys, ev, next);
    SameQueue(world.md5, world.sys, s, w, ev);
    if Agrees(world.md5, w.queue) {
      OwnTold(world.md5, world.sys, s, w, ev);
    }
  }

  lemma SameQueue(md5: string -> string, sys: Sys, s: Sid, w: Worker, ev: Event)
    requires Advance(w, TxOf(sys, s), OthersOf(sys, s), ev).Some?
    ensures var next := Advance(w, TxOf(sys, s), OthersOf(sys, s), ev).value;
            Observe(md5, next, sys, ev).queue == w.queue
    ensures w.stranded == {} && w.putBack == {} ==>
              var next := Advance(w, TxOf(sys, s), OthersOf(sys, s), ev).value;
              next.stranded == {} && next.putBack == {}
  {
    hide OthersOf;
  }

  lemma StillTold(world: World, move: Move)
    requires Informed(world) && Wakeups.Next(world, move).Some?
    requires move.Hire? || move.Listen? || move.Wake?
    ensures Informed(Wakeups.Next(world, move).value)
  {
    hide Prompt, DueBy, Agrees;
  }

  lemma StartInformed(md5: string -> string)
    ensures Informed(Start(md5))
  {
  }

  lemma {:induction false} AlwaysInformed(md5: string -> string, moves: seq<Move>)
    requires Play(Start(md5), moves).Some? && Tame({}, Start(md5), moves)
    ensures Informed(Play(Start(md5), moves).value)
    decreases |moves|
  {
    hide WorldInv, Informed, Wakeups.Next, MoveSays;
    StartInformed(md5);
    if moves != [] {
      var init := moves[..|moves| - 1];
      AlwaysInformed(md5, init);
      StartOk(md5);
      Always(Start(md5), init);
      MoveInformed(Play(Start(md5), init).value, moves[|moves| - 1]);
    }
  }

  /** When nothing is left unsaid, nothing waits behind a sleeping worker: every job waiting in its queue
      while its inbox is empty is held by a session that is still to announce it or take it. */
  lemma NoneMissed(md5: string -> string, moves: seq<Move>, s: Sid, id: Id)
    requires Play(Start(md5), moves).Some? && Tame({}, Start(md5), moves)
    requires var world := Play(Start(md5), moves).value;
             && s in world.workers && IsDigest(md5(world.workers[s].queue))
             && world.workers[s].phase == Sleeping && world.workers[s].inbox == 0
             && id in world.sys.db.jobs && world.sys.db.jobs[id].name == world.workers[s].queue
             && Waiting(world.sys.db.jobs[id])
    ensures HeldByOther(Play(Start(md5), moves).value.sys, s, id)
  {
    hide Inv, Tame, Prompt;
    NoLostWakeup(md5, moves, s, id);
    AlwaysInformed(md5, moves);
    var world := Play(Start(md5), moves).value;
    SameDigest(md5, moves);
    StartOk(md5);
    Always(Start(md5), moves);
    Heeded(world, id);
    assert Told(world.sys, s, world.workers[s]);
  }
}
