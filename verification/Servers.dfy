/**
 The database server as the scenario runner meets it: every call takes time, may fail, and comes after
 whatever background consumers, other clients and the maintenance worker did in the meantime.
 */
module Servers {
  import opened Base
  import opened Jobs
  import opened Lifecycle
  import opened Logs
  import Columns
  import Engine

  /** A background consumer: still in `consume_wait`, or finished with a claim, without one, or with an error. */
  datatype Thread = Consuming(queue: string) | Finished(queue: string, claim: Option<Id>, broken: bool)

  /** What goes on meanwhile: a consumer claims a job of its queue, gives up, or fails; another client does
      something; the worker runs maintenance. */
  datatype Move = Takes(tid: Tid, id: Id) | GivesUp(tid: Tid) | Breaks(tid: Tid) | Acts(op: Op) | Maintains

  /** What happens around one call: the moves before it, how long it takes, whether it succeeds, the id a new
      job gets, the rows others hold, and whether a wait ends early, after how long. */
  datatype Happening = Happening(
    moves: seq<Move>,
    delay: nat,
    ok: bool,
    newId: Id,
    held: set<Id>,
    notified: bool,
    early: nat)

  /** One fetch of a consumer: the rows it found and those others held, when it ran, how long the consumer had
      waited before it and how much longer everything took, and what it claimed. */
  datatype Attempt = Attempt(seen: Db, held: set<Id>, at: Time, waited: nat, late: nat, claim: Option<Id>)

  predicate Fetches(attempt: Attempt, queue: string) {
    match attempt.claim
    case Some(id) => Engine.FirstDue(attempt.seen, attempt.held, queue, id, attempt.at)
    case None =>
      forall id | id in attempt.seen.jobs :: !Engine.FirstDue(attempt.seen, attempt.held, queue, id, attempt.at)
  }

  /** The claim is what the engine's fetch of one job selects. */
  lemma FetchesIsFetch(attempt: Attempt, queue: string)
    requires Fetches(attempt, queue) && Engine.Keyed(attempt.seen)
    ensures Engine.FetchIds(attempt.seen, attempt.held, queue, 1, attempt.at)
            == match attempt.claim case Some(id) => [id] case None => []
  {
    hide Engine.FetchIds, Engine.FirstDue;
    match attempt.claim
    case Some(id) => Engine.FirstDueIsFetched(attempt.seen, attempt.held, queue, id, attempt.at);
    case None => NoneFetched(attempt, queue);
  }

  lemma NoneFetched(attempt: Attempt, queue: string)
    requires attempt.claim == None && Fetches(attempt, queue) && Engine.Keyed(attempt.seen)
    ensures Engine.FetchIds(attempt.seen, attempt.held, queue, 1, attempt.at) == []
  {
    hide Engine.FetchIds;
    Engine.FetchedIsFirstDue(attempt.seen, attempt.held, queue, attempt.at);
  }

  /** The columns that make a row one that `fetch` can claim. */
  predicate Claimable(db: Db, held: set<Id>, queue: string, id: Id, now: Time) {
    && id in db.jobs && id !in held && db.jobs[id].name == queue
    && (db.jobs[id].state == Created || db.jobs[id].state == Retry) && db.jobs[id].startAfter <= now
  }

  lemma FetchesOnColumns(attempt: Attempt, queue: string)
    requires Fetches(attempt, queue) && Engine.Keyed(attempt.seen)
    ensures attempt.claim.Some? ==>
              && Claimable(attempt.seen, attempt.held, queue, attempt.claim.value, attempt.at)
              && forall o | Claimable(attempt.seen, attempt.held, queue, o, attempt.at) && o != attempt.claim.value ::
                   var a, b := attempt.seen.jobs[attempt.claim.value], attempt.seen.jobs[o];
                   || a.priority > b.priority
                   || (a.priority == b.priority && a.createdOn < b.createdOn)
                   || (a.priority == b.priority && a.createdOn == b.createdOn && attempt.claim.value < o)
    ensures attempt.claim == None ==>
              forall id | id in attempt.seen.jobs :: !Claimable(attempt.seen, attempt.held, queue, id, attempt.at)
  {
    hide Fetches;
    FetchesIsFetch(attempt, queue);
    var due := set id | id in attempt.seen.jobs && Claimable(attempt.seen, attempt.held, queue, id, attempt.at);
    Columns.FetchedColumns(attempt.seen, attempt.held, queue, 1, attempt.at, due);
    match attempt.claim
    case Some(id) =>
      assert Engine.FetchIds(attempt.seen, attempt.held, queue, 1, attempt.at)[0] == id;
      assert forall o | o in due && o != id :: o !in [id];
    case None => assert due == {};
  }

  class Server {
    const happenings: nat -> Happening
    ghost const start: Db
    var db: Db
    var now: Time
    var tick: nat
    // how many notifications are still to come
    var coming: nat
    var threads: map<Tid, Thread>
    ghost var log: seq<Entry>

    constructor (happenings: nat -> Happening, db: Db, now: Time, coming: nat)
      ensures this.happenings == happenings && this.db == db && start == db && this.now == now
      ensures this.coming == coming && tick == 0 && threads == map[] && log == []
    {
      this.happenings, this.db, start, this.now, this.coming := happenings, db, db, now, coming;
      tick, threads, log := 0, map[], [];
    }

    ghost predicate ThreadsWithin(touched: set<string>)
      reads this`threads
    {
      forall t | t in threads :: threads[t].queue in touched
    }

    /** The tables are what the log makes of those at the start. */
    ghost predicate Valid(touched: set<string>)
      reads this
    {
      && ThreadsWithin(touched)
      && Sound(start) && Sound(db) && db == Played(start, log)
      && Real(start, log) && Within(log, touched)
    }

    /** What every call leaves in place. Consumers that have finished stay as they are. */
    twostate predicate Went(touched: set<string>)
      reads this
    {
      && Valid(touched) && old(log) <= log && old(now) <= now
      && threads.Keys == old(threads.Keys)
      && (forall t | t in threads :: threads[t].Consuming? ==> old(threads)[t].Consuming?)
      && (forall t | t in threads && old(threads)[t].Finished? :: threads[t] == old(threads)[t])
    }

    method Record(who: Who, deed: Deed, ghost touched: set<string>)
      requires Valid(touched) && (who != Others ==> DeedWithin(deed, touched))
      requires who.Consumer? ==> deed.Did? && deed.op.Claim?
      requires who == Others && deed.Did? ==> Enabled(db, deed.op)
      modifies this`db, this`log
      ensures Valid(touched) && db == After(old(db), deed) && log == old(log) + [Entry(who, deed)]
    {
      hide Sound, Enabled, After;
      DeedSound(db, deed);
      RealSnoc(start, log, Entry(who, deed));
      PlayedSnoc(start, log, Entry(who, deed));
      db := After(db, deed);
      log := log + [Entry(who, deed)];
    }

    method MoveOn(m: Move, ghost touched: set<string>)
      requires Valid(touched)
      modifies this`db, this`threads, this`log
      ensures Went(touched) && Own(log) == Own(old(log))
    {
      hide Sound, Played, Real, Enabled, Due;
      match m
      case Takes(tid, id) =>
        if tid in threads && threads[tid].Consuming? && id in db.jobs && Due(db.jobs[id], threads[tid].queue, now) {
          var queue := threads[tid].queue;
          OwnSnoc(log, Entry(Consumer(tid), Did(Claim(queue, id, now))));
          Record(Consumer(tid), Did(Claim(queue, id, now)), touched);
          threads := threads[tid := Finished(queue, Some(id), false)];
        }
      case GivesUp(tid) =>
        if tid in threads && threads[tid].Consuming? {
          threads := threads[tid := Finished(threads[tid].queue, None, false)];
        }
      case Breaks(tid) =>
        if tid in threads && threads[tid].Consuming? {
          threads := threads[tid := Finished(threads[tid].queue, None, true)];
        }
      case Acts(op) =>
        if Enabled(db, op) {
          OwnSnoc(log, Entry(Others, Did(op)));
          Record(Others, Did(op), touched);
        }
      case Maintains =>
        OwnSnoc(log, Entry(Others, Maintained(now)));
        Record(Others, Maintained(now), touched);
    }

    method Interleave(moves: seq<Move>, ghost touched: set<string>)
      requires Valid(touched)
      modifies this`db, this`threads, this`log
      ensures Went(touched) && Own(log) == Own(old(log))
    {
      hide Sound, Played, Real, Within, Own;
      var i := 0;
      while i < |moves|
        invariant 0 <= i <= |moves| && Went(touched) && Own(log) == Own(old(log))
      {
        MoveOn(moves[i], touched);
        i := i + 1;
      }
    }

    /** Time passes and others move; then the call goes through, or fails. */
    method Call(ghost touched: set<string>) returns (h: Happening)
      requires Valid(touched)
      modifies this`db, this`threads, this`log, this`now, this`tick
      ensures Went(touched) && Own(log) == Own(old(log))
      ensures h == happenings(old(tick)) && tick == old(tick) + 1 && now == old(now) + h.delay
    {
      h := happenings(tick);
      tick := tick + 1;
      now := now + h.delay;
      Interleave(h.moves, touched);
    }

    /** `boss.fetch(queue, 1)`. */
    method FetchOne(queue: string, ghost waited: nat, ghost began: Time, ghost touched: set<string>)
      returns (ok: bool, claim: Option<Id>, ghost attempt: Attempt)
      requires Valid(touched) && queue in touched && began + waited <= now
      modifies this`db, this`threads, this`log, this`now, this`tick
      ensures Went(touched)
      ensures Own(log) == Own(old(log)) + (if claim.Some? then [Did(Claim(queue, claim.value, now))] else [])
      ensures !ok ==> claim == None
      ensures attempt.claim == claim && attempt.waited == waited && attempt.at == now == began + waited + attempt.late
      ensures ok ==> Fetches(attempt, queue) && Sound(attempt.seen)
      // on columns: a job that waits in the queue, is due, is held by nobody, and comes first of all such jobs by
      // priority, age and id; none only if there is none
      ensures claim.Some? ==>
                && Claimable(attempt.seen, attempt.held, queue, claim.value, now)
                && forall o | Claimable(attempt.seen, attempt.held, queue, o, now) && o != claim.value ::
                     var a, b := attempt.seen.jobs[claim.value], attempt.seen.jobs[o];
                     || a.priority > b.priority
                     || (a.priority == b.priority && a.createdOn < b.createdOn)
                     || (a.priority == b.priority && a.createdOn == b.createdOn && claim.value < o)
      ensures ok && claim == None ==>
                forall id | id in attempt.seen.jobs :: !Claimable(attempt.seen, attempt.held, queue, id, now)
      ensures db == match claim case Some(id) => Tried(attempt.seen, Claim(queue, id, now)) case None => attempt.seen
    {
      hide Sound, Played, Real, Within, Engine.FirstDue, Due, Tried, Claimable;
      var h := Call(touched);
      ok, claim := h.ok, None;
      ghost var seen := db;
      if ok {
        if exists id | id in db.jobs :: Engine.FirstDue(db, h.held, queue, id, now) {
          var id :| id in db.jobs && Engine.FirstDue(db, h.held, queue, id, now);
          OwnSnoc(log, Entry(Scenario, Did(Claim(queue, id, now))));
          Record(Scenario, Did(Claim(queue, id, now)), touched);
          claim := Some(id);
        }
      }
      attempt := Attempt(seen, h.held, now, waited, now - began - waited, claim);
      if ok {
        SoundIsKeyed(seen);
        FetchesOnColumns(attempt, queue);
      }
    }

    /** Returns on the next notification, or after `wait`. `waited` is how long that was, the rest was delay. */
    method WaitNotification(wait: nat, ghost touched: set<string>) returns (ok: bool, ghost waited: nat)
      requires Valid(touched)
      modifies this`db, this`threads, this`log, this`now, this`tick, this`coming
      ensures Went(touched) && Own(log) == Own(old(log))
      ensures waited <= wait && now >= old(now) + waited
      ensures coming == old(coming) ==> waited == wait
      ensures coming == old(coming) || coming == old(coming) - 1
    {
      var began := now;
      var h := Call(touched);
      ok := h.ok;
      if h.notified && coming > 0 {
        coming := coming - 1;
        waited := Min(h.early, wait);
        now := now + Min(h.early, wait);
      } else {
        waited := wait;
        now := now + wait;
      }
    }

    /** Waits until a consumer has finished; `consume_wait` always does. */
    method Join(t: Tid, ghost touched: set<string>) returns (result: Thread)
      requires Valid(touched) && t in threads
      modifies this`db, this`threads, this`log, this`now, this`tick
      ensures Went(touched) && Own(log) == Own(old(log))
      ensures result == threads[t] && result.Finished?
    {
      var _ := Call(touched);
      if threads[t].Consuming? {
        threads := threads[t := Finished(threads[t].queue, None, false)];
      }
      result := threads[t];
    }
  }
}
