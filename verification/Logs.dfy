/** Who did what to the tables while a scenario ran, and what can be told from that. */
module Logs {
  import opened Base
  import opened Jobs
  import opened Lifecycle
  import Channels
  import Engine

  type Tid = nat

  /** The scenario itself, one of its background consumers, or anybody else: other clients and the
      maintenance worker. */
  datatype Who = Scenario | Consumer(tid: Tid) | Others

  datatype Deed = Did(op: Op) | Maintained(at: Time)

  datatype Entry = Entry(who: Who, deed: Deed)

  function After(db: Db, deed: Deed): Db {
    match deed
    case Did(op) => Tried(db, op)
    case Maintained(at) => Engine.Maintain(db, at)
  }

  function Played(db: Db, log: seq<Entry>): Db {
    if log == [] then db else After(Played(db, log[..|log| - 1]), log[|log| - 1].deed)
  }

  lemma PlayedSnoc(db: Db, log: seq<Entry>, e: Entry)
    ensures Played(db, log + [e]) == After(Played(db, log), e.deed)
  {
    assert (log + [e])[..|log|] == log;
  }

  /** What others did was done: their operations were enabled. */
  ghost predicate Real(db: Db, log: seq<Entry>) {
    forall i | 0 <= i < |log| && log[i].who == Others && log[i].deed.Did? ::
      Enabled(Played(db, log[..i]), log[i].deed.op)
  }

  lemma RealSnoc(db: Db, log: seq<Entry>, e: Entry)
    requires Real(db, log) && (e.who == Others && e.deed.Did? ==> Enabled(Played(db, log), e.deed.op))
    ensures Real(db, log + [e])
  {
    hide Played, Enabled;
    var longer := log + [e];
    forall i | 0 <= i < |longer| && longer[i].who == Others && longer[i].deed.Did?
      ensures Enabled(Played(db, longer[..i]), longer[i].deed.op)
    {
      assert longer[..i] == log[..i] && log[..|log|] == log;
    }
  }

  /** The deeds of the scenario itself, in order. */
  function Own(log: seq<Entry>): seq<Deed> {
    if log == [] then []
    else Own(log[..|log| - 1]) + (if log[|log| - 1].who == Scenario then [log[|log| - 1].deed] else [])
  }

  lemma OwnSnoc(log: seq<Entry>, e: Entry)
    ensures Own(log + [e]) == Own(log) + (if e.who == Scenario then [e.deed] else [])
  {
    assert (log + [e])[..|log|] == log;
  }

  // ---- queues ----

  function QueueOfOp(op: Op): Option<string> {
    match op
    case OpenQueue(name, _) => Some(name)
    case DropQueue(name) => Some(name)
    case Insert(job) => Some(job.name)
    case Claim(queue, _, _) => Some(queue)
    case Complete(queue, _, _, _) => Some(queue)
    case Fail(queue, _, _, _) => Some(queue)
    case Expire(_, _) => None
    case Purge(_, _) => None
  }

  predicate DeedWithin(deed: Deed, touched: set<string>) {
    deed.Did? ==> QueueOfOp(deed.op).Some? && QueueOfOp(deed.op).value in touched
  }

  /** The scenario and its consumers do nothing outside the touched queues, but for maintenance, and the
      consumers do nothing but claim. */
  ghost predicate Within(log: seq<Entry>, touched: set<string>) {
    forall i | 0 <= i < |log| && log[i].who != Others ::
      && DeedWithin(log[i].deed, touched)
      && (log[i].who.Consumer? ==> log[i].deed.Did? && log[i].deed.op.Claim?)
  }

  // ---- rows are filed and registered ----

  ghost predicate Sound(db: Db) {
    && Engine.Keyed(db)
    && forall id | id in db.jobs :: db.jobs[id].name in db.queues && id in db.issued
  }

  lemma SoundIsKeyed(db: Db)
    requires Sound(db)
    ensures Engine.Keyed(db)
  {
  }

  lemma DeedSound(db: Db, deed: Deed)
    requires Sound(db)
    ensures Sound(After(db, deed))
  {
  }

  // ---- what a scenario leaves alone ----

  /** The rows and queues outside the touched ones. */
  function Foreign(db: Db, touched: set<string>): Db {
    Db(map name | name in db.queues && name !in touched :: db.queues[name],
       map id | id in db.jobs && db.jobs[id].name !in touched :: db.jobs[id],
       {})
  }

  /** What others and maintenance, whoever called it, make of the tables outside the touched queues. */
  function Elsewhere(db: Db, log: seq<Entry>, touched: set<string>): Db {
    if log == [] then db
    else
      var before, last := Elsewhere(db, log[..|log| - 1], touched), log[|log| - 1];
      if last.who == Others || last.deed.Maintained? then Foreign(After(before, last.deed), touched) else before
  }

  lemma MaintainForeign(db: Db, touched: set<string>, at: Time)
    ensures Foreign(Engine.Maintain(db, at), touched) == Foreign(Engine.Maintain(Foreign(db, touched), at), touched)
  {
    assert Foreign(Engine.Maintain(db, at), touched).jobs
           == Foreign(Engine.Maintain(Foreign(db, touched), at), touched).jobs;
  }

  lemma SameForeign(a: Db, b: Db, touched: set<string>)
    requires forall name | name !in touched :: name in a.queues <==> name in b.queues
    requires forall name | name !in touched && name in a.queues :: a.queues[name] == b.queues[name]
    requires forall id :: (id in a.jobs && a.jobs[id].name !in touched) <==> (id in b.jobs && b.jobs[id].name !in touched)
    requires forall id | id in a.jobs && a.jobs[id].name !in touched :: a.jobs[id] == b.jobs[id]
    ensures Foreign(a, touched) == Foreign(b, touched)
  {
    assert Foreign(a, touched).queues == Foreign(b, touched).queues;
    assert Foreign(a, touched).jobs == Foreign(b, touched).jobs;
  }

  /** What is done to a touched queue is not seen outside. */
  lemma OwnUnseen(db: Db, touched: set<string>, op: Op)
    requires QueueOfOp(op).Some? && QueueOfOp(op).value in touched && Sound(db)
    ensures Foreign(Tried(db, op), touched) == Foreign(db, touched)
  {
    SameForeign(Tried(db, op), db, touched);
  }

  /** What others do looks the same from outside. */
  lemma OthersSeen(db: Db, touched: set<string>, op: Op)
    requires Sound(db) && Enabled(db, op)
    ensures Foreign(Tried(db, op), touched) == Foreign(Tried(Foreign(db, touched), op), touched)
  {
    match op
    case OpenQueue(_, _) => QueuesSeen(db, touched, op);
    case DropQueue(_) => QueuesSeen(db, touched, op);
    case Insert(_) => InsertSeen(db, touched, op);
    case _ => RowsSeen(db, touched, op);
  }

  lemma QueuesSeen(db: Db, touched: set<string>, op: Op)
    requires Sound(db) && Enabled(db, op) && (op.OpenQueue? || op.DropQueue?)
    ensures Foreign(Tried(db, op), touched) == Foreign(Tried(Foreign(db, touched), op), touched)
  {
    SameForeign(Tried(db, op), Tried(Foreign(db, touched), op), touched);
  }

  lemma InsertSeen(db: Db, touched: set<string>, op: Op)
    requires Sound(db) && Enabled(db, op) && op.Insert?
    ensures Foreign(Tried(db, op), touched) == Foreign(Tried(Foreign(db, touched), op), touched)
  {
    hide Newborn, Channels.Notifiable;
    SameForeign(Tried(db, op), Tried(Foreign(db, touched), op), touched);
  }

  lemma RowsSeen(db: Db, touched: set<string>, op: Op)
    requires Sound(db) && Enabled(db, op) && !op.OpenQueue? && !op.DropQueue? && !op.Insert?
    ensures Foreign(Tried(db, op), touched) == Foreign(Tried(Foreign(db, touched), op), touched)
  {
    hide ClaimRow, CompleteRow, FailRow, ExpireRow, Due, Overdue, Purgeable, Newborn, Channels.Notifiable;
    KeepsName(op);
    SameForeign(Tried(db, op), Tried(Foreign(db, touched), op), touched);
  }

  lemma KeepsName(op: Op)
    ensures forall j: Job, now :: ClaimRow(j, now).name == j.name && ExpireRow(j, now).name == j.name
    ensures forall j: Job, now, output :: CompleteRow(j, now, output).name == FailRow(j, now, output).name == j.name
    ensures forall j: Job, queue, now | Due(j, queue, now) :: j.name == queue
  {
  }

  lemma {:induction false} PlayedSound(db: Db, log: seq<Entry>)
    requires Sound(db)
    ensures Sound(Played(db, log))
    decreases |log|
  {
    hide Sound, After;
    if log != [] {
      PlayedSound(db, log[..|log| - 1]);
      DeedSound(Played(db, log[..|log| - 1]), log[|log| - 1].deed);
    }
  }

  /** The tables outside the touched queues are what others and maintenance alone would have made of them. */
  lemma {:induction false} ForeignPlayed(db: Db, log: seq<Entry>, touched: set<string>)
    requires Sound(db) && Real(db, log) && Within(log, touched)
    ensures Foreign(Played(db, log), touched) == Elsewhere(Foreign(db, touched), log, touched)
    decreases |log|
  {
    hide Sound, Foreign, Tried, Enabled;
    if log != [] {
      var init, last := log[..|log| - 1], log[|log| - 1];
      assert forall i | 0 <= i < |init| :: init[i] == log[i] && init[..i] == log[..i];
      ForeignPlayed(db, init, touched);
      PlayedSound(db, init);
      var before := Played(db, init);
      match last.deed
      case Maintained(at) => MaintainForeign(before, touched, at);
      case Did(op) =>
        if last.who == Others {
          OthersSeen(before, touched, op);
        } else {
          OwnUnseen(before, touched, op);
        }
    }
  }

  // ---- queues that are gone ----

  /** Neither the queue nor any job of it is left. */
  predicate Gone(db: Db, queue: string) {
    queue !in db.queues && forall id | id in db.jobs :: db.jobs[id].name != queue
  }

  predicate Opens(deed: Deed, queue: string) {
    deed.Did? && deed.op.OpenQueue? && deed.op.name == queue
  }

  predicate Drops(deed: Deed, queue: string) {
    deed.Did? && deed.op.DropQueue? && deed.op.name == queue
  }

  /** Somebody creates the queue at entry `from` or later. */
  ghost predicate Reopened(log: seq<Entry>, from: nat, queue: string) {
    exists i :: from <= i < |log| && Opens(log[i].deed, queue)
  }

  lemma ReopenedStill(log: seq<Entry>, longer: seq<Entry>, from: nat, queue: string)
    requires log <= longer
    ensures Reopened(log, from, queue) ==> Reopened(longer, from, queue)
  {
    if i :| from <= i < |log| && Opens(log[i].deed, queue) {
      assert Opens(longer[i].deed, queue);
    }
  }

  lemma DropsGone(db: Db, deed: Deed, queue: string)
    requires Sound(db) && Drops(deed, queue)
    ensures Gone(After(db, deed), queue)
  {
  }

  lemma StaysGone(db: Db, deed: Deed, queue: string)
    requires Gone(db, queue) && !Opens(deed, queue)
    ensures Gone(After(db, deed), queue)
  {
  }

  /** A queue that was dropped and that nobody has created since is gone, with all its jobs. */
  lemma {:induction false} GoneAfterDrop(db: Db, log: seq<Entry>, i: nat, queue: string)
    requires Sound(db) && i < |log| && Drops(log[i].deed, queue) && !Reopened(log, i, queue)
    ensures Gone(Played(db, log), queue)
    decreases |log|
  {
    hide Sound, After, Gone;
    var init, last := log[..|log| - 1], log[|log| - 1];
    if i == |init| {
      PlayedSound(db, init);
      DropsGone(Played(db, init), last.deed, queue);
    } else {
      ReopenedStill(init, log, i, queue);
      GoneAfterDrop(db, init, i, queue);
      StaysGone(Played(db, init), last.deed, queue);
    }
  }
}
