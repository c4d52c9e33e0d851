/**
 The inner loop of `Work`: claim one job, let the handler decide, report, until nothing is claimable. Other
 sessions are at work all the time.
 */
module Client {
  import opened Base
  import opened Json
  import opened Jobs
  import opened Lifecycle
  import opened Ordering
  import opened JobTable
  import Engine
  import Termination

  /** Reporting on a job that is not waiting leaves what is claimable alone. */
  lemma CompleteKeepsClaimable(db: Db, queue: string, id: Id, output: Option<Json>, at: Time, now: Time)
    requires Engine.Keyed(db)
    ensures Engine.Claimable(Engine.Finished(db, queue, id, output, at), {}, queue, now)
            == Engine.Claimable(db, {}, queue, now)
  {
    var after := Engine.Finished(db, queue, id, output, at);
    forall k ensures k in Engine.Claimable(after, {}, queue, now) <==> k in Engine.Claimable(db, {}, queue, now) {
      if k in Engine.Claimable(db, {}, queue, now) {
        assert after.jobs[k.id] == db.jobs[k.id];
      }
    }
  }

  lemma FirstClaim(db: Db, queue: string, now: Time)
    requires Engine.Keyed(db)
    ensures var all := Ranked(Engine.Claimable(db, {}, queue, now));
            && (all == [] ==> Engine.FetchIds(db, {}, queue, 1, now) == [])
            && (all != [] ==>
                  && Engine.FetchIds(db, {}, queue, 1, now) == [all[0].id]
                  && all[0].id in db.jobs && Waiting(db.jobs[all[0].id]) && db.jobs[all[0].id].name == queue
                  && Engine.Fetch(db, {}, queue, 1, now).jobs
                     == db.jobs[all[0].id := ClaimRow(db.jobs[all[0].id], now)]
                  && Ranked(Engine.Claimable(Engine.Fetch(db, {}, queue, 1, now), {}, queue, now)) == all[1..])
  {
    hide Engine.Claimable, Ranked, Engine.Ids, Engine.FetchIds, Engine.Fetch, Engine.Keyed;
    var all := Ranked(Engine.Claimable(db, {}, queue, now));
    if all == [] {
      NoneOf(db, queue, now);
    } else {
      FirstOf(db, queue, now);
      FirstRow(db, queue, now, all[0]);
      Engine.RankedAfter(db, {}, queue, 1, now);
      TakesOne(db, queue, now, all[0].id);
    }
  }

  lemma NoneOf(db: Db, queue: string, now: Time)
    requires Ranked(Engine.Claimable(db, {}, queue, now)) == []
    ensures Engine.FetchIds(db, {}, queue, 1, now) == []
  {
    hide Engine.Claimable, Ranked;
  }

  lemma FirstRow(db: Db, queue: string, now: Time, k: Key)
    requires Engine.Keyed(db) && k in Ranked(Engine.Claimable(db, {}, queue, now))
    ensures k.id in db.jobs && Waiting(db.jobs[k.id]) && db.jobs[k.id].name == queue
  {
    hide Ranked;
    RankedSorts(Engine.Claimable(db, {}, queue, now));
    assert k in Elems(Ranked(Engine.Claimable(db, {}, queue, now)));
  }

  lemma TakesOne(db: Db, queue: string, now: Time, id: Id)
    requires Engine.FetchIds(db, {}, queue, 1, now) == [id] && id in db.jobs
    ensures Engine.Fetch(db, {}, queue, 1, now).jobs == db.jobs[id := ClaimRow(db.jobs[id], now)]
  {
    hide Engine.FetchIds;
    assert Engine.Members([id]) == {id};
  }

  lemma FirstOf(db: Db, queue: string, now: Time)
    requires Ranked(Engine.Claimable(db, {}, queue, now)) != []
    ensures var all := Ranked(Engine.Claimable(db, {}, queue, now));
            && Engine.FirstKeys(db, {}, queue, 1, now) == [all[0]]
            && Engine.FetchIds(db, {}, queue, 1, now) == [all[0].id]
  {
    hide Engine.Claimable, Ranked;
    var all := Ranked(Engine.Claimable(db, {}, queue, now));
    assert all[..1] == [all[0]];
  }

  lemma HasMembers(ids: seq<Id>)
    ensures Engine.Members(ids) == {} <==> ids == []
  {
    if ids != [] {
      assert ids[0] in Engine.Members(ids);
    }
  }

  // ---- what a fetch of one job does ----

  /** One job at most, and none only if nothing is claimable. */
  lemma OneOrNone(db: Db, held: set<Id>, queue: string, now: Time)
    requires Engine.Keyed(db)
    ensures var ids := Engine.FetchIds(db, held, queue, 1, now);
            && |ids| <= 1
            && (ids == [] ==> Engine.Claimable(db, held, queue, now) == {} && Engine.Fetch(db, held, queue, 1, now) == db)
  {
    hide Engine.Claimable, Engine.FetchIds;
    var ids := Engine.FetchIds(db, held, queue, 1, now);
    Engine.FetchTakesTheFirst(db, held, queue, 1, now);
    if ids == [] {
      assert Engine.Members([]) == {};
      assert Engine.Claimed(db, {}, now).jobs == db.jobs;
    }
  }

  // ---- the budget, with others at work ----

  ghost predicate RowsOk(db: Db) {
    forall id | id in db.jobs :: RowOk(db.jobs[id]) && db.jobs[id].id == id && id in db.issued
  }

  lemma TriedOk(db: Db, op: Op)
    requires RowsOk(db)
    ensures RowsOk(Tried(db, op))
    ensures Termination.Potential(Tried(db, op).jobs) + (if Termination.IsWork(op) && Enabled(db, op) then 1 else 0)
            <= Termination.Potential(db.jobs) + (if op.Insert? then Budget(op.job) else 0)
  {
    hide Termination.Potential;
    if Enabled(db, op) {
      Termination.PotentialStep(db, op);
      TriedRows(db, op);
    } else {
      BudgetIsNat(op);
    }
  }

  lemma BudgetIsNat(op: Op)
    ensures op.Insert? ==> Budget(op.job) >= 0
  {
  }

  lemma TriedRows(db: Db, op: Op)
    requires RowsOk(db) && Enabled(db, op)
    ensures RowsOk(Apply(db, op))
  {
    hide RowOk;
    match op
    case Insert(job) => NewbornRow(job);
    case Claim(_, id, _) => RowStays(db.jobs[id], op);
    case Complete(_, id, _, _) => RowStays(db.jobs[id], op);
    case Fail(_, id, _, _) => RowStays(db.jobs[id], op);
    case Expire(id, _) => RowStays(db.jobs[id], op);
    case _ =>
  }

  lemma RowStays(row: Job, op: Op)
    requires RowOk(row) && Termination.IsWork(op) && op.id == row.id && RowEnabled(Some(row), op, row.id)
    ensures RowOk(RowAfter(Some(row), op, row.id).value)
  {
  }

  lemma {:induction false} TriedAllOk(db: Db, ops: seq<Op>)
    requires RowsOk(db)
    ensures RowsOk(TriedAll(db, ops))
    ensures Termination.Potential(TriedAll(db, ops).jobs) <= Termination.Potential(db.jobs) + Termination.Allowance(ops)
    decreases |ops|
  {
    hide RowsOk, Tried, Termination.Potential;
    if ops != [] {
      TriedAllOk(db, ops[..|ops| - 1]);
      TriedOk(TriedAll(db, ops[..|ops| - 1]), ops[|ops| - 1]);
    }
  }

  // ---- the outcome of a handled job ----

  function Report(queue: string, id: Id, error: Option<string>, now: Time): Op {
    match error
    case None => Complete(queue, id, now, Some(EMPTY_OBJECT))
    case Some(text) => Fail(queue, id, now, Some(ErrorOutput(text)))
  }

  /** The output of a job whose handler returned an error. */
  function ErrorOutput(text: string): Json {
    Obj(map["error" := Str(text)])
  }

  /** On columns: a job that is active in that queue is completed with an empty object, or, if its handler failed,
      waits again while attempts remain and is failed otherwise, with the error as output. Nothing else changes. */
  lemma ReportColumns(db: Db, queue: string, id: Id, error: Option<string>, now: Time)
    ensures Tried(db, Report(queue, id, error, now))
            == if !(id in db.jobs && db.jobs[id].name == queue && db.jobs[id].state == Active) then db
               else
                 var row := db.jobs[id];
                 db.(jobs := db.jobs[id :=
                       if error.None? then
                         row.(state := Completed, completedOn := Some(now), output := Some(Obj(map[])))
                       else if row.retryCount < row.retryLimit then
                         row.(state := Retry, retryCount := row.retryCount + 1,
                              startAfter := now + row.retryDelay * 1_000_000, startedOn := None,
                              output := Some(Obj(map["error" := Str(error.value)])))
                       else
                         row.(state := Failed, completedOn := Some(now), startedOn := None,
                              output := Some(Obj(map["error" := Str(error.value)])))])
  {
  }

  /** complete or fail, as the handler decided; if the claim has ended meanwhile there is no effect. */
  method Process(table: Table, queue: string, id: Id, error: Option<string>, now: Time)
    requires table.Valid()
    modifies table
    ensures table.Valid() && table.State() == Tried(old(table.State()), Report(queue, id, error, now))
    ensures !(id in old(table.jobs) && old(table.jobs)[id].name == queue && old(table.jobs)[id].state == Active) ==>
              table.State() == old(table.State())
    ensures id in old(table.jobs) && old(table.jobs)[id].name == queue && old(table.jobs)[id].state == Active ==>
              && (forall o | o in old(table.jobs) && o != id :: o in table.jobs && table.jobs[o] == old(table.jobs)[o])
              && table.jobs.Keys == old(table.jobs.Keys)
              && var row := old(table.jobs)[id];
                 match error
                 case None =>
                   table.jobs[id] == row.(state := Completed, completedOn := Some(now), output := Some(Obj(map[])))
                 case Some(text) =>
                   && table.jobs[id].output == Some(Obj(map["error" := Str(text)]))
                   && (row.retryCount < row.retryLimit ==>
                         table.jobs[id].state == Retry && table.jobs[id].retryCount == row.retryCount + 1
                         && table.jobs[id].startAfter == now + row.retryDelay * 1_000_000)
                   && (row.retryCount >= row.retryLimit ==>
                         table.jobs[id].state == Failed && table.jobs[id].retryCount == row.retryCount
                         && table.jobs[id].completedOn == Some(now))
  {
    ReportColumns(table.State(), queue, id, error, now);
    match error
    case None =>
      var _ := table.Complete(queue, id, Some(EMPTY_OBJECT), now);
    case Some(text) =>
      var _ := table.Fail(queue, id, Some(ErrorOutput(text)), now);
  }

  // ---- the loop ----

  /**
   What goes on around the loop: what others do before each fetch and during each handling, in turn, which
   rows they hold at a fetch, what time it is at each fetch and each report, in turn, and the error, if any,
   of handling a job as the n-th.
   */
  datatype Surroundings = Surroundings(
    others: seq<seq<Op>>,
    held: nat -> set<Id>,
    clock: nat -> Time,
    handler: (Id, nat) -> Option<string>)

  function Batch(w: Surroundings, k: nat): seq<Op> {
    if k < |w.others| then w.others[k] else []
  }

  /** What the jobs still to be sent by others allow. */
  function Ahead(w: Surroundings, k: nat): nat
    decreases |w.others| - k
  {
    if k >= |w.others| then 0 else Termination.Allowance(w.others[k]) + Ahead(w, k + 1)
  }

  /** The state the next fetch finds after the `n`-th round: claim, others, report, others. */
  ghost function AfterRound(w: Surroundings, queue: string, db: Db, id: Id, n: nat): Db {
    var claimed := TriedAll(Tried(db, Claim(queue, id, w.clock(2 * n))), Batch(w, 2 * n + 1));
    TriedAll(Tried(claimed, Report(queue, id, w.handler(id, n), w.clock(2 * n + 1))), Batch(w, 2 * n + 2))
  }

  /** A run of the loop: `found` are the states its fetches came upon, `handled` what all but the last claimed. */
  ghost predicate Path(w: Surroundings, queue: string, found: seq<Db>, handled: seq<Id>) {
    && |found| == |handled| + 1
    && (forall n: nat | n < |handled| ::
          && Engine.FetchIds(found[n], w.held(n), queue, 1, w.clock(2 * n)) == [handled[n]]
          && found[n + 1] == AfterRound(w, queue, found[n], handled[n], n))
  }

  lemma PathGrows(w: Surroundings, queue: string, found: seq<Db>, handled: seq<Id>, id: Id, db: Db)
    requires Path(w, queue, found, handled)
    requires var n := |handled|;
             && Engine.FetchIds(found[n], w.held(n), queue, 1, w.clock(2 * n)) == [id]
             && db == AfterRound(w, queue, found[n], id, n)
    ensures Path(w, queue, found + [db], handled + [id])
  {
    hide AfterRound, Engine.FetchIds;
  }

  /** One round uses up at least its claim, and what others send is paid for. */
  lemma RoundPays(w: Surroundings, queue: string, db: Db, id: Id, n: nat)
    requires RowsOk(db) && Enabled(db, Claim(queue, id, w.clock(2 * n)))
    ensures var after := AfterRound(w, queue, db, id, n);
            && RowsOk(after)
            && Termination.Potential(after.jobs) + Ahead(w, 2 * n + 3) + 1
               <= Termination.Potential(db.jobs) + Ahead(w, 2 * n + 1)
  {
    hide RowsOk, Tried, TriedAll, Termination.Potential, Enabled, Termination.Allowance;
    var claim := Claim(queue, id, w.clock(2 * n));
    TriedOk(db, claim);
    var claimed := Tried(db, claim);
    TriedAllOk(claimed, Batch(w, 2 * n + 1));
    var mid := TriedAll(claimed, Batch(w, 2 * n + 1));
    var report := Report(queue, id, w.handler(id, n), w.clock(2 * n + 1));
    TriedOk(mid, report);
    TriedAllOk(Tried(mid, report), Batch(w, 2 * n + 2));
    AheadOf(w, 2 * n + 1);
    AheadOf(w, 2 * n + 2);
  }

  lemma AheadOf(w: Surroundings, k: nat)
    ensures Ahead(w, k) == Termination.Allowance(Batch(w, k)) + Ahead(w, k + 1)
  {
  }

  /**
   The drain loop, with others at work between and during its rounds. It ends, and then nothing that it could
   lock was claimable. Every job it handled was the first one claimable when it looked. It handles no more jobs
   than their retries and those of the jobs that others send allow.
   */
  method Drain(table: Table, queue: string, w: Surroundings) returns (handled: seq<Id>, ghost found: seq<Db>)
    requires table.Valid() && RowsOk(table.State())
    modifies table
    ensures table.Valid() && RowsOk(table.State())
    ensures Path(w, queue, found, handled)
    ensures found[0] == TriedAll(old(table.State()), Batch(w, 0)) && table.State() == found[|handled|]
    ensures Engine.Claimable(table.State(), w.held(|handled|), queue, w.clock(2 * |handled|)) == {}
    ensures |handled| + Termination.Potential(table.jobs) <= old(Termination.Potential(table.jobs)) + Ahead(w, 0)
  {
    hide RowsOk, Tried, TriedAll, Termination.Potential, Engine.Claimable, Engine.FetchIds, Engine.Fetch, AfterRound,
         Ahead, Path;
    handled := [];
    TriedAllOk(table.State(), Batch(w, 0));
    AheadOf(w, 0);
    table.ActAll(Batch(w, 0));
    found := [table.State()];
    PathBegins(w, queue, table.State());
    while true
      invariant table.Valid() && RowsOk(table.State()) && Path(w, queue, found, handled)
      invariant |found| == |handled| + 1 && table.State() == found[|handled|]
      invariant found[0] == TriedAll(old(table.State()), Batch(w, 0))
      invariant |handled| + Termination.Potential(table.jobs) + Ahead(w, 2 * |handled| + 1)
                <= old(Termination.Potential(table.jobs)) + Ahead(w, 0)
      decreases Termination.Potential(table.jobs) + Ahead(w, 2 * |handled| + 1)
    {
      ghost var before := table.State();
      var n := |handled|;
      OneOrNone(before, w.held(n), queue, w.clock(2 * n));
      HasMembers(Engine.FetchIds(before, w.held(n), queue, 1, w.clock(2 * n)));
      var claimed := table.Fetch(w.held(n), queue, 1, w.clock(2 * n));
      if claimed.value == {} {
        return;
      }
      var id :| id in claimed.value;
      OnlyMember(Engine.FetchIds(before, w.held(n), queue, 1, w.clock(2 * n)), id);
      Engine.FetchIsClaim(before, w.held(n), queue, id, w.clock(2 * n));
      ClaimTried(before, Claim(queue, id, w.clock(2 * n)), table.State());
      Handle(table, queue, w, id, n, before);
      RoundPays(w, queue, before, id, n);
      PathGrows(w, queue, found, handled, id, table.State());
      handled := handled + [id];
      found := found + [table.State()];
    }
  }

  /** The rest of a round, after its claim. */
  method Handle(table: Table, queue: string, w: Surroundings, id: Id, n: nat, ghost before: Db)
    requires table.Valid() && table.State() == Tried(before, Claim(queue, id, w.clock(2 * n)))
    modifies table
    ensures table.Valid() && table.State() == AfterRound(w, queue, before, id, n)
  {
    hide Tried, TriedAll, AfterRound;
    table.ActAll(Batch(w, 2 * n + 1));
    Process(table, queue, id, w.handler(id, n), w.clock(2 * n + 1));
    table.ActAll(Batch(w, 2 * n + 2));
    Rounded(w, queue, before, id, n, table.State());
  }

  lemma PathBegins(w: Surroundings, queue: string, db: Db)
    ensures Path(w, queue, [db], [])
  {
  }

  lemma OnlyMember(ids: seq<Id>, id: Id)
    requires |ids| <= 1 && id in Engine.Members(ids)
    ensures ids == [id]
  {
  }

  lemma ClaimTried(db: Db, op: Op, after: Db)
    requires Next(db, op) == Some(after)
    ensures Enabled(db, op) && Tried(db, op) == after
  {
  }

  lemma Rounded(w: Surroundings, queue: string, db: Db, id: Id, n: nat, after: Db)
    requires var claimed := TriedAll(Tried(db, Claim(queue, id, w.clock(2 * n))), Batch(w, 2 * n + 1));
             after == TriedAll(Tried(claimed, Report(queue, id, w.handler(id, n), w.clock(2 * n + 1))),
                               Batch(w, 2 * n + 2))
    ensures after == AfterRound(w, queue, db, id, n)
  {
    hide TriedAll, Tried;
  }

  // ---- alone, at one instant, with handlers that succeed ----

  ghost predicate Quiet(w: Surroundings, now: Time) {
    && w.others == []
    && (forall n :: w.held(n) == {}) && (forall n :: w.clock(n) == now) && (forall id, n :: w.handler(id, n) == None)
  }

  lemma QuietRound(w: Surroundings, queue: string, db: Db, id: Id, n: nat, now: Time)
    requires Quiet(w, now) && Engine.Keyed(db) && Engine.FetchIds(db, {}, queue, 1, now) == [id]
    ensures var all, after := Ranked(Engine.Claimable(db, {}, queue, now)), AfterRound(w, queue, db, id, n);
            && all != [] && all[0].id == id && Engine.Keyed(after)
            && Ranked(Engine.Claimable(after, {}, queue, now)) == all[1..]
  {
    hide Engine.Claimable, Engine.Fetch, Engine.FetchIds, Ranked;
    FirstClaim(db, queue, now);
    Engine.FetchIsClaim(db, {}, queue, id, now);
    var mid := Engine.Fetch(db, {}, queue, 1, now);
    ClaimTried(db, Claim(queue, id, now), mid);
    Engine.FetchKeepsKeys(db, {}, queue, 1, now);
    CompleteKeepsClaimable(mid, queue, id, Some(EMPTY_OBJECT), now, now);
    Engine.OutcomeRuns(mid, queue, id, Some(EMPTY_OBJECT), now);
    assert AfterRound(w, queue, db, id, n) == Engine.Finished(mid, queue, id, Some(EMPTY_OBJECT), now);
  }

  /** Then a drain that left nothing handled every due job once, in order. */
  lemma {:induction false} QuietDrain(w: Surroundings, queue: string, now: Time, found: seq<Db>, handled: seq<Id>, n: nat)
    requires Quiet(w, now) && Path(w, queue, found, handled) && n <= |handled| && Engine.Keyed(found[n])
    requires Engine.Claimable(found[|handled|], {}, queue, now) == {}
    ensures handled[n..] == Engine.Ids(Ranked(Engine.Claimable(found[n], {}, queue, now)))
    decreases |handled| - n
  {
    hide Engine.Claimable, Engine.FetchIds, Ranked, AfterRound, Engine.Ids, Engine.Keyed;
    var all := Ranked(Engine.Claimable(found[n], {}, queue, now));
    if n == |handled| {
      RankedSorts(Engine.Claimable(found[n], {}, queue, now));
      assert all == [];
      NoIds();
    } else {
      QuietRound(w, queue, found[n], handled[n], n, now);
      QuietDrain(w, queue, now, found, handled, n + 1);
      FirstId(all);
      assert handled[n..] == [handled[n]] + handled[n + 1..];
    }
  }

  lemma NoIds()
    ensures Engine.Ids([]) == []
  {
  }

  lemma FirstId(keys: seq<Key>)
    requires keys != []
    ensures Engine.Ids(keys) == [keys[0].id] + Engine.Ids(keys[1..])
  {
  }
}
