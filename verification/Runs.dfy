/**
 Runs of sessions that follow one another on a queue with a single job, written once and put together in
 modules LostWakeups and Redelivery.
 */
module Runs {
  import opened Base
  import opened Json
  import opened Jobs
  import opened Lifecycle
  import opened Sessions
  import opened Silences
  import Engine
  import Ordering

  // ---- what one session does alone ----

  ghost predicate OwnEvents(s: Sid, evs: seq<Event>) {
    forall i | 0 <= i < |evs| :: match evs[i]
                                 case Tick(_) => true
                                 case Begin(o) => o == s
                                 case Do(o, _) => o == s
                                 case Commit(o) => o == s
                                 case Abort(o) => o == s
  }

  /** No silences but those allowed. */
  ghost predicate Plain(allowed: set<Silence>, sys: Sys, evs: seq<Event>)
    decreases |evs|
  {
    evs == []
    || (var init := evs[..|evs| - 1];
        Execute(sys, init).Some? && Plain(allowed, sys, init)
        && Says(allowed, Execute(sys, init).value, evs[|evs| - 1]))
  }

  /** Session `s` alone, and the passing of time, lead from `a` to `b`. */
  ghost predicate By(s: Sid, allowed: set<Silence>, a: Sys, b: Sys) {
    exists evs :: Execute(a, evs) == Some(b) && OwnEvents(s, evs) && Plain(allowed, a, evs)
  }

  lemma Stays(s: Sid, allowed: set<Silence>, a: Sys)
    ensures By(s, allowed, a, a)
  {
    assert Execute(a, []) == Some(a) && OwnEvents(s, []) && Plain(allowed, a, []);
  }

  lemma Onward(s: Sid, allowed: set<Silence>, a: Sys, b: Sys, ev: Event)
    requires By(s, allowed, a, b) && OwnEvents(s, [ev]) && Step(b, ev).Some? && Says(allowed, b, ev)
    ensures By(s, allowed, a, Step(b, ev).value)
  {
    hide Step, Says;
    var evs :| Execute(a, evs) == Some(b) && OwnEvents(s, evs) && Plain(allowed, a, evs);
    var longer := evs + [ev];
    assert longer[..|evs|] == evs;
    assert Execute(a, longer) == Step(b, ev);
    assert [ev][0] == ev;
    assert OwnEvents(s, longer);
    assert Plain(allowed, a, longer);
  }

  lemma {:induction false} PlainConcat(allowed: set<Silence>, sys: Sys, a: seq<Event>, b: seq<Event>)
    requires Execute(sys, a).Some? && Plain(allowed, sys, a) && Plain(allowed, Execute(sys, a).value, b)
    ensures Plain(allowed, sys, a + b)
    decreases |b|
  {
    hide Says, Step;
    if b == [] {
      assert a + b == a;
    } else {
      var init := b[..|b| - 1];
      PlainConcat(allowed, sys, a, init);
      ExecuteConcat(sys, a, init);
      assert (a + b)[..|a + b| - 1] == a + init;
    }
  }

  lemma JoinsOn(s: Sid, allowed: set<Silence>, a: Sys, b: Sys, c: Sys)
    requires By(s, allowed, a, b) && By(s, allowed, b, c)
    ensures By(s, allowed, a, c)
  {
    hide Plain;
    var front :| Execute(a, front) == Some(b) && OwnEvents(s, front) && Plain(allowed, a, front);
    var back :| Execute(b, back) == Some(c) && OwnEvents(s, back) && Plain(allowed, b, back);
    ExecuteConcat(a, front, back);
    PlainConcat(allowed, a, front, back);
    assert OwnEvents(s, front + back);
  }

  lemma ByLeads(s: Sid, allowed: set<Silence>, a: Sys, b: Sys)
    requires By(s, allowed, a, b)
    ensures LeadsTo(a, b)
  {
  }

  function With(sys: Sys, s: Sid, tx: Tx): Sys {
    sys.(txs := sys.txs[s := tx], drawn := sys.drawn + tx.inserted)
  }

  function Ended(sys: Sys, s: Sid, db: Db): Sys
    requires s in sys.txs
  {
    sys.(db := db, txs := sys.txs - {s}, trace := sys.trace + sys.txs[s].log)
  }

  lemma Opens(s: Sid, allowed: set<Silence>, a: Sys, b: Sys)
    requires By(s, allowed, a, b) && s !in b.txs
    ensures By(s, allowed, a, With(b, s, NewTx(b.clock)))
  {
    Onward(s, allowed, a, b, Begin(s));
    assert Step(b, Begin(s)).value == With(b, s, NewTx(b.clock));
  }

  lemma Does(s: Sid, allowed: set<Silence>, a: Sys, b: Sys, act: Action, tx: Tx)
    requires By(s, allowed, a, b) && s in b.txs
    requires Act(b.db, b.drawn, b.txs[s], OthersOf(b, s), act) == Some(tx)
    ensures By(s, allowed, a, With(b, s, tx))
  {
    hide Act, By;
    Onward(s, allowed, a, b, Do(s, act));
  }

  lemma Commits(s: Sid, allowed: set<Silence>, a: Sys, b: Sys, db: Db)
    requires By(s, allowed, a, b) && s in b.txs && b.txs[s].stmt == Idle && View(b.db, b.txs[s]) == db
    requires Says(allowed, b, Commit(s))
    ensures By(s, allowed, a, Ended(b, s, db))
  {
    hide View, By, Says;
    Onward(s, allowed, a, b, Commit(s));
  }

  lemma Waits(s: Sid, allowed: set<Silence>, a: Sys, b: Sys, d: nat)
    requires By(s, allowed, a, b)
    ensures By(s, allowed, a, b.(clock := b.clock + d))
  {
    hide By;
    Onward(s, allowed, a, b, Tick(d));
  }

  // ---- a queue with one job ----

  const DEFAULTS: Queue := Queue(2, 0, 900, 1_209_600, 0)
  const NO_OPTIONS: Engine.QueueOptions := Engine.QueueOptions(None, None, None, None)
  const NOBODY: Others := Others({}, {}, {})

  function Stored(row: Job): Db {
    Db(map["q" := DEFAULTS], map[7 := row], {7})
  }

  /** The job is the only one, and no open transaction holds anything. */
  ghost predicate Calm(sys: Sys, row: Job) {
    && sys.db == Stored(row) && sys.drawn == {7} && row.id == 7 && row.name == "q"
    && forall o | o in sys.txs ::
         sys.txs[o].locks == {} && sys.txs[o].shares == {} && sys.txs[o].owns == {} && sys.txs[o].inserted == {}
  }

  lemma Alone(sys: Sys, s: Sid)
    requires forall o | o in sys.txs && o != s ::
               sys.txs[o].locks == {} && sys.txs[o].shares == {} && sys.txs[o].owns == {}
    ensures OthersOf(sys, s) == NOBODY
  {
  }

  // ---- sending ----

  function Options(after: int, limit: int, delay: int): Engine.SendOptions {
    Engine.SendOptions(None, Some(Engine.Seconds(after)), Some(limit), Some(delay), None)
  }

  function SentRow(after: int, limit: int, delay: int): Job {
    Job(7, "q", 0, EMPTY_OBJECT, Created, limit, 0, delay, 900, after * SECOND, 0, None, None,
        1_209_600 * SECOND, None)
  }

  predicate Sendable(after: int, limit: int, delay: int) {
    0 <= after <= INT32_MAX && InInt32(limit) && InInt32(delay)
  }

  const CREATED: Tx := NewTx(0).(qwrites := NewTx(0).qwrites["q" := Some(DEFAULTS)], owns := NewTx(0).owns + {"q"},
                                 log := NewTx(0).log + [OpenQueue("q", DEFAULTS)])

  function SendingTx(after: int, limit: int, delay: int): Tx {
    CREATED.(stmt := Sending("q", DEFAULTS, None, Options(after, limit, delay)))
  }

  function SentTx(after: int, limit: int, delay: int): Tx {
    var tx, row := SendingTx(after, limit, delay), SentRow(after, limit, delay);
    Note(Write(tx, 7, Some(row), Insert(row)), "q")
      .(shares := tx.shares + {"q"}, inserted := tx.inserted + {7}, stmt := Idle)
  }

  lemma EnqueueRow(id: Id, after: int, limit: int, delay: int)
    requires Sendable(after, limit, delay)
    ensures Engine.Enqueue(id, "q", DEFAULTS, None, Options(after, limit, delay), 0)
            == Ok(SentRow(after, limit, delay).(id := id))
  {
  }

  lemma CreateStep()
    ensures Act(EMPTY_DB, {}, NewTx(0), NOBODY, CreateQueue("q", NO_OPTIONS)) == Some(CREATED)
  {
  }

  lemma SendSteps(after: int, limit: int, delay: int)
    requires Sendable(after, limit, delay)
    ensures Act(EMPTY_DB, {}, CREATED, NOBODY, SendScan("q", None, Options(after, limit, delay)))
            == Some(SendingTx(after, limit, delay))
    ensures Act(EMPTY_DB, {}, SendingTx(after, limit, delay), NOBODY, SendInsert(7))
            == Some(SentTx(after, limit, delay))
  {
    hide Engine.Enqueue, SentRow;
    EnqueueRow(0, after, limit, delay);
    EnqueueRow(7, after, limit, delay);
    RowIsSeven(after, limit, delay);
    assert SentRow(after, limit, delay).(id := 7) == SentRow(after, limit, delay);
  }

  lemma SendView(after: int, limit: int, delay: int)
    ensures View(EMPTY_DB, SentTx(after, limit, delay)) == Stored(SentRow(after, limit, delay))
  {
  }

  /** Session 1 creates the queue and sends a job; it is deferred if it is due only later. */
  lemma Sends(after: int, limit: int, delay: int, allowed: set<Silence>) returns (sys: Sys)
    requires Sendable(after, limit, delay) && (after > 0 ==> Deferred in allowed)
    ensures By(1, allowed, INIT, sys) && Calm(sys, SentRow(after, limit, delay))
    ensures sys.txs == map[] && sys.clock == 0
    ensures sys.trace == [OpenQueue("q", DEFAULTS), Insert(SentRow(after, limit, delay))]
  {
    hide Act, View, By, SentRow, Says;
    CreateStep();
    SendSteps(after, limit, delay);
    SendView(after, limit, delay);
    Stays(1, allowed, INIT);
    Opens(1, allowed, INIT, INIT);
    sys := With(INIT, 1, NewTx(0));
    assert sys.drawn == {};
    Alone(sys, 1);
    Does(1, allowed, INIT, sys, CreateQueue("q", NO_OPTIONS), CREATED);
    sys := With(sys, 1, CREATED);
    assert sys.drawn == {};
    Alone(sys, 1);
    Does(1, allowed, INIT, sys, SendScan("q", None, Options(after, limit, delay)), SendingTx(after, limit, delay));
    sys := With(sys, 1, SendingTx(after, limit, delay));
    assert sys.drawn == {};
    Alone(sys, 1);
    Does(1, allowed, INIT, sys, SendInsert(7), SentTx(after, limit, delay));
    sys := With(sys, 1, SentTx(after, limit, delay));
    SendSays(sys, after, limit, delay, allowed);
    Commits(1, allowed, INIT, sys, Stored(SentRow(after, limit, delay)));
    sys := Ended(sys, 1, Stored(SentRow(after, limit, delay)));
    RowIsSeven(after, limit, delay);
  }

  lemma RowIsSeven(after: int, limit: int, delay: int)
    ensures SentRow(after, limit, delay).id == 7 && SentRow(after, limit, delay).name == "q"
  {
  }

  lemma SendSays(sys: Sys, after: int, limit: int, delay: int, allowed: set<Silence>)
    requires 1 in sys.txs && sys.txs[1] == SentTx(after, limit, delay) && (after > 0 ==> Deferred in allowed)
    requires after >= 0
    ensures Says(allowed, sys, Commit(1))
  {
    assert sys.txs[1].writes == map[7 := Some(SentRow(after, limit, delay))];
  }

  // ---- claiming ----

  function Found(now: Time): Tx {
    NewTx(now).(stmt := Fetching("q", 1, [7]))
  }

  function ClaimTx(row: Job, now: Time): Tx {
    Write(Found(now), 7, Some(ClaimRow(row, now)), Claim("q", 7, now)).(stmt := Idle)
  }

  lemma SeesStored(row: Job, now: Time)
    ensures View(Stored(row), NewTx(now)) == Stored(row)
  {
  }

  lemma ScanFinds(row: Job, others: Others, now: Time)
    requires row.id == 7 && Due(row, "q", now)
    ensures Act(Stored(row), {7}, NewTx(now), others, FetchScan("q", 1)) == Some(Found(now))
  {
    hide View;
    SeesStored(row, now);
    assert Ordering.KeyOf(Stored(row).jobs[7]) in Engine.Claimable(Stored(row), {}, "q", now);
    assert Engine.Claimable(Stored(row), {}, "q", now) == {Ordering.KeyOf(row)};
    Ordering.RankedIs({Ordering.KeyOf(row)}, [Ordering.KeyOf(row)]);
    assert Engine.Ids([Ordering.KeyOf(row)]) == [7];
  }

  lemma ScanFindsNothing(row: Job, others: Others, now: Time)
    requires !Due(row, "q", now)
    ensures Act(Stored(row), {7}, NewTx(now), others, FetchScan("q", 1)) == Some(NewTx(now))
  {
    hide View;
    SeesStored(row, now);
    assert Engine.Claimable(Stored(row), {}, "q", now) == {};
    Ordering.RankedIs({}, []);
  }

  lemma TakeStep(row: Job, now: Time)
    requires Due(row, "q", now)
    ensures Act(Stored(row), {7}, Found(now), NOBODY, FetchNext) == Some(ClaimTx(row, now))
    ensures View(Stored(row), ClaimTx(row, now)) == Stored(ClaimRow(row, now))
  {
  }

  /** An open transaction in which session `s` has claimed the job. */
  lemma Claiming(s: Sid, a: Sys, row: Job) returns (sys: Sys)
    requires Calm(a, row) && s !in a.txs && Due(row, "q", a.clock)
    ensures By(s, {}, a, sys) && sys == a.(txs := a.txs[s := ClaimTx(row, a.clock)])
  {
    hide Act, View, By, Due;
    var now := a.clock;
    Stays(s, {}, a);
    Opens(s, {}, a, a);
    sys := With(a, s, NewTx(now));
    assert sys.drawn == {7};
    ScanFinds(row, OthersOf(sys, s), now);
    Does(s, {}, a, sys, FetchScan("q", 1), Found(now));
    sys := With(sys, s, Found(now));
    assert sys.drawn == {7};
    Alone(sys, s);
    TakeStep(row, now);
    Does(s, {}, a, sys, FetchNext, ClaimTx(row, now));
    sys := With(sys, s, ClaimTx(row, now));
    assert sys.drawn == {7};
  }

  /** The job is claimed, and that is committed. */
  lemma Claims(s: Sid, a: Sys, row: Job) returns (sys: Sys)
    requires Calm(a, row) && s !in a.txs && Due(row, "q", a.clock)
    ensures By(s, {}, a, sys) && Calm(sys, ClaimRow(row, a.clock))
    ensures sys.txs == a.txs && sys.clock == a.clock && sys.trace == a.trace + [Claim("q", 7, a.clock)]
  {
    hide Act, View, By, Due, Says;
    sys := Claiming(s, a, row);
    TakeStep(row, a.clock);
    ClaimSays(sys, s, row);
    Commits(s, {}, a, sys, Stored(ClaimRow(row, a.clock)));
    sys := Ended(sys, s, Stored(ClaimRow(row, a.clock)));
    assert sys.txs == a.txs;
  }

  lemma ClaimSays(sys: Sys, s: Sid, row: Job)
    requires s in sys.txs && sys.txs[s] == ClaimTx(row, sys.txs[s].now)
    ensures Says({}, sys, Commit(s))
  {
    assert sys.txs[s].writes == map[7 := Some(ClaimRow(row, sys.txs[s].now))];
  }

  // ---- outcomes ----

  function AckingTx(now: Time): Tx {
    NewTx(now).(stmt := Completing("q", 7, None))
  }

  function AckTx(row: Job, now: Time): Tx {
    Write(AckingTx(now), 7, Some(CompleteRow(row, now, None)), Complete("q", 7, now, None)).(stmt := Idle)
  }

  function FailingTx(now: Time): Tx {
    NewTx(now).(stmt := Failing("q", 7, None))
  }

  function FailTx(row: Job, now: Time): Tx {
    var tx := Write(FailingTx(now), 7, Some(FailRow(row, now, None)), Fail("q", 7, now, None));
    (if row.retryCount < row.retryLimit then Note(tx, "q") else tx).(stmt := Idle)
  }

  lemma OutcomeScans(row: Job, others: Others, now: Time)
    requires Running(row, "q")
    ensures Act(Stored(row), {7}, NewTx(now), others, CompleteScan("q", 7, None)) == Some(AckingTx(now))
    ensures Act(Stored(row), {7}, NewTx(now), others, FailScan("q", 7, None)) == Some(FailingTx(now))
  {
    hide View;
    SeesStored(row, now);
  }

  lemma AckStep(row: Job, now: Time)
    requires Running(row, "q")
    ensures Act(Stored(row), {7}, AckingTx(now), NOBODY, OutcomeRow) == Some(AckTx(row, now))
    ensures View(Stored(row), AckTx(row, now)) == Stored(CompleteRow(row, now, None))
  {
    hide CompleteRow;
  }

  lemma FailStep(row: Job, now: Time)
    requires Running(row, "q")
    ensures Act(Stored(row), {7}, FailingTx(now), NOBODY, OutcomeRow) == Some(FailTx(row, now))
    ensures View(Stored(row), FailTx(row, now)) == Stored(FailRow(row, now, None))
  {
  }

  lemma Reports(s: Sid, a: Sys, row: Job, act: Action, reporting: Tx, reported: Tx, after: Job, allowed: set<Silence>)
    returns (sys: Sys)
    requires Calm(a, row) && s !in a.txs && after.id == 7 && after.name == "q"
    requires forall others :: Act(Stored(row), {7}, NewTx(a.clock), others, act) == Some(reporting)
    requires Act(Stored(row), {7}, reporting, NOBODY, OutcomeRow) == Some(reported)
    requires reporting.inserted == reported.inserted == {} && reported.stmt == Idle
    requires View(Stored(row), reported) == Stored(after)
    requires Says(allowed, a.(txs := a.txs[s := reported]), Commit(s))
    ensures By(s, allowed, a, sys) && Calm(sys, after)
    ensures sys.txs == a.txs && sys.clock == a.clock && sys.trace == a.trace + reported.log
  {
    hide Act, View, By, Says;
    Stays(s, allowed, a);
    Opens(s, allowed, a, a);
    sys := With(a, s, NewTx(a.clock));
    assert sys.drawn == {7};
    assert Act(sys.db, sys.drawn, sys.txs[s], OthersOf(sys, s), act) == Some(reporting);
    Does(s, allowed, a, sys, act, reporting);
    sys := With(sys, s, reporting);
    assert sys.drawn == {7};
    Alone(sys, s);
    Does(s, allowed, a, sys, OutcomeRow, reported);
    sys := With(sys, s, reported);
    assert sys.drawn == {7} && sys == a.(txs := a.txs[s := reported]);
    Commits(s, allowed, a, sys, Stored(after));
    sys := Ended(sys, s, Stored(after));
    assert sys.txs == a.txs;
  }

  /** Session `s` completes the job, whoever claimed it. */
  lemma Completes(s: Sid, a: Sys, row: Job) returns (sys: Sys)
    requires Calm(a, row) && s !in a.txs && Running(row, "q")
    ensures By(s, {}, a, sys) && Calm(sys, CompleteRow(row, a.clock, None))
    ensures sys.txs == a.txs && sys.clock == a.clock && sys.trace == a.trace + [Complete("q", 7, a.clock, None)]
  {
    hide Act, View, By, Says, CompleteRow;
    var now := a.clock;
    forall others ensures Act(Stored(row), {7}, NewTx(now), others, CompleteScan("q", 7, None)) == Some(AckingTx(now)) {
      OutcomeScans(row, others, now);
    }
    AckStep(row, now);
    AckSays(a.(txs := a.txs[s := AckTx(row, now)]), s, row, now);
    RowKept(row, now);
    sys := Reports(s, a, row, CompleteScan("q", 7, None), AckingTx(now), AckTx(row, now),
                   CompleteRow(row, now, None), {});
    assert AckTx(row, now).log == [Complete("q", 7, now, None)];
  }

  lemma RowKept(row: Job, now: Time)
    ensures CompleteRow(row, now, None).id == FailRow(row, now, None).id == row.id
    ensures CompleteRow(row, now, None).name == FailRow(row, now, None).name == row.name
  {
  }

  lemma AckSays(sys: Sys, s: Sid, row: Job, now: Time)
    requires s in sys.txs && sys.txs[s] == AckTx(row, now)
    ensures Says({}, sys, Commit(s))
  {
    assert sys.txs[s].writes == map[7 := Some(CompleteRow(row, now, None))];
  }

  /** Session `s` fails the job; a retry is delayed if retry_delay says so. */
  lemma Fails(s: Sid, a: Sys, row: Job, allowed: set<Silence>) returns (sys: Sys)
    requires Calm(a, row) && s !in a.txs && Running(row, "q") && (row.retryDelay > 0 ==> Delayed in allowed)
    ensures By(s, allowed, a, sys) && Calm(sys, FailRow(row, a.clock, None))
    ensures sys.txs == a.txs && sys.clock == a.clock && sys.trace == a.trace + [Fail("q", 7, a.clock, None)]
  {
    hide Act, View, By, Says, FailRow;
    var now := a.clock;
    forall others ensures Act(Stored(row), {7}, NewTx(now), others, FailScan("q", 7, None)) == Some(FailingTx(now)) {
      OutcomeScans(row, others, now);
    }
    FailStep(row, now);
    FailSays(a.(txs := a.txs[s := FailTx(row, now)]), s, row, now, allowed);
    RowKept(row, now);
    sys := Reports(s, a, row, FailScan("q", 7, None), FailingTx(now), FailTx(row, now),
                   FailRow(row, now, None), allowed);
    assert FailTx(row, now).log == [Fail("q", 7, now, None)];
  }

  lemma FailSays(sys: Sys, s: Sid, row: Job, now: Time, allowed: set<Silence>)
    requires s in sys.txs && sys.txs[s] == FailTx(row, now) && (row.retryDelay > 0 ==> Delayed in allowed)
    ensures Says(allowed, sys, Commit(s))
  {
    assert sys.txs[s].writes == map[7 := Some(FailRow(row, now, None))];
    assert sys.txs[s].log == [Fail("q", 7, now, None)];
  }

  // ---- maintenance ----

  function OverdueTx(now: Time): Tx {
    NewTx(now).(stmt := Expiring({7}))
  }

  function SweptTx(row: Job, now: Time): Tx {
    Write(OverdueTx(now), 7, Some(ExpireRow(row, now)), Expire(7, now)).(stmt := Expiring({}))
  }

  function MaintainTx(row: Job, now: Time): Tx {
    SweptTx(row, now).(stmt := Idle)
  }

  lemma ExpireSteps(row: Job, others: Others, now: Time)
    requires row.id == 7 && Overdue(row, now)
    ensures Act(Stored(row), {7}, NewTx(now), others, ExpireScan) == Some(OverdueTx(now))
    ensures Act(Stored(row), {7}, OverdueTx(now), NOBODY, ExpireNext(7)) == Some(SweptTx(row, now))
  {
    hide Overdue, ExpireRow;
    SeesStored(row, now);
    assert Act(Stored(row), {7}, NewTx(now), others, ExpireScan).value.stmt.todo == {7};
    assert OverdueTx(now).stmt.todo - {7} == {};
  }

  lemma SweptView(row: Job, now: Time)
    ensures View(Stored(row), SweptTx(row, now)) == Stored(ExpireRow(row, now))
            == View(Stored(row), MaintainTx(row, now))
  {
    hide ExpireRow;
  }

  lemma PurgeSteps(row: Job, others: Others, now: Time)
    requires row.id == 7 && !Terminal(ExpireRow(row, now))
    ensures Act(Stored(row), {7}, SweptTx(row, now), others, PurgeScan)
            == Some(SweptTx(row, now).(stmt := Purging({})))
    ensures Act(Stored(row), {7}, SweptTx(row, now).(stmt := Purging({})), others, MaintainDone)
            == Some(MaintainTx(row, now))
  {
    hide View, ExpireRow, Terminal;
    SweptView(row, now);
    assert Act(Stored(row), {7}, SweptTx(row, now), others, PurgeScan).value.stmt.todo == {};
  }

  /** An open transaction of session `s` in which maintenance has put the job back. */
  lemma Maintaining(s: Sid, a: Sys, row: Job) returns (sys: Sys)
    requires Calm(a, row) && s !in a.txs && Overdue(row, a.clock) && row.retryCount < row.retryLimit
    ensures By(s, {}, a, sys) && sys == a.(txs := a.txs[s := MaintainTx(row, a.clock)])
  {
    hide Act, View, By, Overdue, ExpireRow;
    var now := a.clock;
    Stays(s, {}, a);
    Opens(s, {}, a, a);
    sys := With(a, s, NewTx(now));
    assert sys.drawn == {7};
    ExpireSteps(row, OthersOf(sys, s), now);
    Does(s, {}, a, sys, ExpireScan, OverdueTx(now));
    sys := With(sys, s, OverdueTx(now));
    assert sys.drawn == {7};
    Alone(sys, s);
    Does(s, {}, a, sys, ExpireNext(7), SweptTx(row, now));
    sys := Swept(s, a, With(sys, s, SweptTx(row, now)), row);
  }

  lemma Swept(s: Sid, a: Sys, b: Sys, row: Job) returns (sys: Sys)
    requires Calm(a, row) && s !in a.txs && row.retryCount < row.retryLimit
    requires By(s, {}, a, b) && b == a.(txs := a.txs[s := SweptTx(row, a.clock)])
    ensures By(s, {}, a, sys) && sys == a.(txs := a.txs[s := MaintainTx(row, a.clock)])
  {
    hide Act, View, By;
    var now := a.clock;
    PurgeSteps(row, OthersOf(b, s), now);
    Does(s, {}, a, b, PurgeScan, SweptTx(row, now).(stmt := Purging({})));
    sys := With(b, s, SweptTx(row, now).(stmt := Purging({})));
    assert sys.drawn == {7};
    PurgeSteps(row, OthersOf(sys, s), now);
    Does(s, {}, a, sys, MaintainDone, MaintainTx(row, now));
    sys := With(sys, s, MaintainTx(row, now));
    assert sys.drawn == {7};
  }

  /** Maintenance puts the job back, and that is committed. */
  lemma Maintains(s: Sid, a: Sys, row: Job) returns (sys: Sys)
    requires Calm(a, row) && s !in a.txs && Overdue(row, a.clock) && row.retryCount < row.retryLimit
    requires row.retryDelay <= 0
    ensures By(s, {Restored}, a, sys) && Calm(sys, ExpireRow(row, a.clock))
    ensures sys.txs == a.txs && sys.clock == a.clock && sys.trace == a.trace + [Expire(7, a.clock)]
  {
    hide Act, View, By, Says, Overdue;
    sys := Maintaining(s, a, row);
    SweptView(row, a.clock);
    MaintainSays(sys, s, row, a.clock);
    Allows(s, {}, {Restored}, a, sys);
    Commits(s, {Restored}, a, sys, Stored(ExpireRow(row, a.clock)));
    sys := Ended(sys, s, Stored(ExpireRow(row, a.clock)));
    assert sys.txs == a.txs;
    assert MaintainTx(row, a.clock).log == [Expire(7, a.clock)];
  }

  lemma MaintainSays(sys: Sys, s: Sid, row: Job, now: Time)
    requires s in sys.txs && sys.txs[s] == MaintainTx(row, now) && row.retryDelay <= 0
    ensures Says({Restored}, sys, Commit(s))
  {
    hide Says;
    assert sys.txs[s].writes == map[7 := Some(ExpireRow(row, now))];
    assert sys.txs[s].locks == {7};
    AllBut({Restored}, sys, Commit(s));
  }

  lemma AllBut(allowed: set<Silence>, sys: Sys, ev: Event)
    requires forall k :: Occurs(k, sys, ev) ==> k in allowed
    ensures Says(allowed, sys, ev)
  {
  }

  lemma {:induction false} PlainAllows(less: set<Silence>, more: set<Silence>, sys: Sys, evs: seq<Event>)
    requires less <= more && Plain(less, sys, evs)
    ensures Plain(more, sys, evs)
    decreases |evs|
  {
    if evs != [] {
      PlainAllows(less, more, sys, evs[..|evs| - 1]);
    }
  }

  lemma Allows(s: Sid, less: set<Silence>, more: set<Silence>, a: Sys, b: Sys)
    requires By(s, less, a, b) && less <= more
    ensures By(s, more, a, b)
  {
    var evs :| Execute(a, evs) == Some(b) && OwnEvents(s, evs) && Plain(less, a, evs);
    PlainAllows(less, more, a, evs);
  }
}
