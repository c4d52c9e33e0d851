/** The scenario runner: variables, background consumers, setup and teardown. */
module Runner {
  import opened Base
  import opened Json
  import opened Jobs
  import opened Lifecycle
  import opened Scenario
  import opened Logs
  import opened Servers
  import Columns
  import Consumer
  import Engine

  // ---- queues a scenario touches ----

  function QueueOf(c: Command): Option<string> {
    match c
    case CreateQueue(q, _) => Some(q)
    case DeleteQueue(q) => Some(q)
    case Push(q, _, _) => Some(q)
    case Consume(q, _, _) => Some(q)
    case SpawnConsume(q, _, _) => Some(q)
    case AssertQueueEmpty(q) => Some(q)
    case AssertQueueSize(q, _) => Some(q)
    case _ => None
  }

  function Touched(statements: seq<Statement>): set<string> {
    set i | 0 <= i < |statements| && QueueOf(statements[i].command).Some? :: QueueOf(statements[i].command).value
  }

  ghost predicate NoDuplicates(names: seq<string>) {
    forall i, j | 0 <= i < j < |names| :: names[i] != names[j]
  }

  lemma TouchedSnoc(statements: seq<Statement>, i: nat)
    requires i < |statements|
    ensures Touched(statements[..i + 1])
            == Touched(statements[..i]) + (match QueueOf(statements[i].command) case None => {} case Some(q) => {q})
  {
    var now, before := statements[..i + 1], statements[..i];
    assert now[i] == statements[i];
    forall q | q in Touched(before) ensures q in Touched(now) {
      var k :| 0 <= k < |before| && QueueOf(before[k].command) == Some(q);
      assert now[k] == before[k];
    }
    forall q | q in Touched(now) && QueueOf(statements[i].command) != Some(q) ensures q in Touched(before) {
      var k :| 0 <= k < |now| && QueueOf(now[k].command) == Some(q);
      assert before[k] == now[k];
    }
  }

  lemma Mentioned(statements: seq<Statement>, i: nat)
    requires i < |statements| && QueueOf(statements[i].command).Some?
    ensures QueueOf(statements[i].command).value in Touched(statements)
  {
  }

  /** Every queue name the scenario mentions, once each, in order of first mention. */
  method CollectQueues(statements: seq<Statement>) returns (names: seq<string>)
    ensures NoDuplicates(names)
    ensures (set q | q in names) == Touched(statements)
  {
    names := [];
    var i := 0;
    while i < |statements|
      invariant 0 <= i <= |statements| && NoDuplicates(names)
      invariant (set q | q in names) == Touched(statements[..i])
    {
      TouchedSnoc(statements, i);
      match QueueOf(statements[i].command) {
        case None =>
        case Some(q) =>
          if q !in names {
            names := names + [q];
          }
      }
      i := i + 1;
    }
    assert statements[..|statements|] == statements;
  }

  // ---- handles a scenario leaves pending ----

  function PendingAfter(pending: set<string>, c: Command): set<string> {
    match c
    case SpawnConsume(_, h, _) => pending + {h}
    case Await(h) => pending - {h}
    case _ => pending
  }

  function PendingBefore(statements: seq<Statement>, i: nat): set<string>
    requires i <= |statements|
  {
    if i == 0 then {} else PendingAfter(PendingBefore(statements, i - 1), statements[i - 1].command)
  }

  /** A spawn under a variable whose consumer nobody has awaited yet. */
  predicate ReusesAt(statements: seq<Statement>, i: nat)
    requires i < |statements|
  {
    statements[i].command.SpawnConsume? && statements[i].command.handle in PendingBefore(statements, i)
  }

  ghost predicate NoReuse(statements: seq<Statement>, n: nat)
    requires n <= |statements|
  {
    forall i | 0 <= i < n :: !ReusesAt(statements, i)
  }

  // ---------------------------------------------------------------------------
  // Variables, outcomes and effects
  // ---------------------------------------------------------------------------

  datatype Var = JobVar(queue: string, id: Id) | EmptyVar

  datatype ErrorKind = AssertFailed | RuntimeError | DbError | ConnError

  /** Line 0 where the line is not known yet. */
  datatype RunError = RunError(line: nat, kind: ErrorKind)

  /** What an await binds its variable to. */
  function Gained(t: Thread): Var
    requires t.Finished?
  {
    match t.claim
    case Some(id) => JobVar(t.queue, id)
    case None => EmptyVar
  }

  type Outcome = Result<(), RunError>

  function Judged(line: nat, v: Verdict): Outcome {
    match v
    case Holds => Ok(())
    case Fails => Err(RunError(line, AssertFailed))
    case NoJob => Err(RunError(line, RuntimeError))
  }

  function StateName(s: JobState): string {
    match s
    case Created => "created"
    case Retry => "retry"
    case Active => "active"
    case Completed => "completed"
    case Cancelled => "cancelled"
    case Failed => "failed"
  }

  function StateOf(db: Db, queue: string, id: Id): Option<string> {
    if id in db.jobs && db.jobs[id].name == queue then Some(StateName(db.jobs[id].state)) else None
  }

  function PendingCount(db: Db, queue: string): nat {
    |set id | id in db.jobs && db.jobs[id].name == queue && Waiting(db.jobs[id])|
  }

  /** How many of the variables hold a job; None when one of them is unbound. */
  function ClaimedCount(vars: map<string, Var>, handles: seq<string>): Option<nat> {
    if handles == [] then Some(0)
    else
      match ClaimedCount(vars, handles[..|handles| - 1])
      case None => None
      case Some(n) =>
        var h := handles[|handles| - 1];
        if h !in vars then None else if vars[h].JobVar? then Some(n + 1) else Some(n)
  }

  /** Every variable is bound, and only the one at `i` holds a job. */
  predicate OnlyClaimAt(vars: map<string, Var>, handles: seq<string>, i: nat) {
    i < |handles| && forall j | 0 <= j < |handles| :: handles[j] in vars && (vars[handles[j]].JobVar? <==> i == j)
  }

  /** `assert exactly_one_claimed` holds when every variable is bound and just one of them has a job. */
  lemma {:induction false} ExactlyOneClaimed(vars: map<string, Var>, handles: seq<string>)
    ensures ClaimedCount(vars, handles).None? <==> exists h | h in handles :: h !in vars
    ensures ClaimedCount(vars, handles) == Some(0) <==> forall h | h in handles :: h in vars && vars[h].EmptyVar?
    ensures ClaimedCount(vars, handles) == Some(1) <==> exists i: nat :: OnlyClaimAt(vars, handles, i)
    decreases |handles|
  {
    if handles != [] {
      var n := |handles| - 1;
      var before := handles[..n];
      ExactlyOneClaimed(vars, before);
      assert handles == before + [handles[n]];
      if ClaimedCount(vars, handles) == Some(1) {
        if ClaimedCount(vars, before) == Some(0) {
          assert OnlyClaimAt(vars, handles, n);
        } else {
          var i: nat :| OnlyClaimAt(vars, before, i);
          assert OnlyClaimAt(vars, handles, i);
        }
      }
      if i: nat :| OnlyClaimAt(vars, handles, i) {
        assert handles[n] in vars;
        if i == n {
          assert forall h | h in before :: h in vars && vars[h].EmptyVar?;
        } else {
          assert OnlyClaimAt(vars, before, i);
        }
      }
    }
  }

  /** A check holds, or fails, or asks for a job that a variable does not hold. */
  datatype Verdict = Holds | Fails | NoJob

  function Holding(vars: map<string, Var>, h: string): bool {
    h in vars && vars[h].JobVar?
  }

  predicate OnlyLooksAtVars(c: Command) {
    c.CheckEmpty? || c.AssertVarEq? || c.AssertExactlyOneClaimed?
  }

  /** What the commands that only look at variables come to. */
  function LookAtVars(vars: map<string, Var>, c: Command): Verdict
    requires OnlyLooksAtVars(c)
  {
    match c
    case CheckEmpty(h) => if h !in vars then NoJob else if vars[h].EmptyVar? then Holds else Fails
    case AssertVarEq(h, o) =>
      if !Holding(vars, h) || !Holding(vars, o) then NoJob else if vars[h].id == vars[o].id then Holds else Fails
    case AssertExactlyOneClaimed(hs) =>
      match ClaimedCount(vars, hs)
      case None => NoJob
      case Some(n) => if n == 1 then Holds else Fails
  }

  /** What the commands that look at the tables come to. */
  function LookAtDb(db: Db, vars: map<string, Var>, c: Command): bool {
    match c
    case AssertQueueEmpty(q) => PendingCount(db, q) == 0
    case AssertQueueSize(q, n) => PendingCount(db, q) == n
    case CheckState(h, s) => h in vars && vars[h].JobVar? && StateOf(db, vars[h].queue, vars[h].id) == Some(s)
    case CheckAck(h, _) => h in vars && vars[h].JobVar? && StateOf(db, vars[h].queue, vars[h].id) == Some("completed")
    case CheckGone(h) => h in vars && vars[h].JobVar? && StateOf(db, vars[h].queue, vars[h].id) == None
    case CheckData(h, v) =>
      h in vars && vars[h].JobVar? && vars[h].id in db.jobs
      && db.jobs[vars[h].id].name == vars[h].queue && db.jobs[vars[h].id].data == v
    case _ => false
  }

  function OutputOf(output: Option<Json>): Option<Json> {
    Some(output.GetOr(EMPTY_OBJECT))
  }

  /** What a statement that was executed did to the tables. One that failed did nothing. */
  ghost predicate Effect(c: Command, vars: map<string, Var>, r: Outcome, deeds: seq<Deed>) {
    if r.Err? then deeds == []
    else
      match c
      case CreateQueue(q, settings) =>
        |deeds| == 1 && deeds[0].Did? && deeds[0].op.OpenQueue?
        && deeds[0].op == OpenQueue(q, Engine.NewQueue(ReadQueueOptions(QueueJson(settings)), deeds[0].op.q.createdOn))
      case DeleteQueue(q) => deeds == [Did(DropQueue(q))]
      case Maintain => |deeds| == 1 && deeds[0].Maintained?
      case Push(q, data, overrides) =>
        |deeds| == 1 && deeds[0].Did? && deeds[0].op.Insert?
        && exists defaults :: IsPushed(deeds[0].op.job, defaults, c)
      case Consume(q, _, _) =>
        |deeds| == 1 && deeds[0].Did? && deeds[0].op.Claim? && deeds[0].op.queue == q
      case Ack(h, output) =>
        |deeds| == 1 && deeds[0].Did? && deeds[0].op.Complete? && Holding(vars, h)
        && deeds[0].op == Complete(vars[h].queue, vars[h].id, deeds[0].op.now,
                                   Some(if output.Some? then output.value else Obj(map[])))
      case Fail(h, output) =>
        |deeds| == 1 && deeds[0].Did? && deeds[0].op.Fail? && Holding(vars, h)
        && deeds[0].op == Lifecycle.Fail(vars[h].queue, vars[h].id, deeds[0].op.now,
                                         Some(if output.Some? then output.value else Obj(map[])))
      case _ => deeds == []
  }

  /** What a row looks like right after ack or fail. */
  predicate Reported(row: Job, c: Command)
    requires c.Ack? || c.Fail?
  {
    && row.output == Some(if c.output.Some? then c.output.value else Obj(map[]))
    && (c.Ack? ==> row.state == Completed)
    && (c.Fail? ==> row.state == Retry || row.state == Failed)
  }

  /** The row of a push, column by column: what the line says, and the queue's defaults for the rest. */
  predicate IsPushed(job: Job, q: Queue, c: Command)
    requires c.Push?
  {
    var o := c.overrides;
    && job.name == c.queue && job.data == c.data
    && job.priority == (if o.priority.Some? then o.priority.value else 0)
    && job.retryLimit == (if o.retryLimit.Some? then o.retryLimit.value else q.retryLimit)
    && job.retryDelay == (if o.retryDelay.Some? then o.retryDelay.value else q.retryDelay)
    && job.expireSeconds == (if o.expireInSeconds.Some? then o.expireInSeconds.value else q.expireSeconds)
    && job.startAfter == job.createdOn + (if o.startAfter.Some? then o.startAfter.value * 1_000_000 else 0)
    && job.keepUntil == job.createdOn + q.retentionSeconds * 1_000_000
    && job.state == Created && job.retryCount == 0
    && job.startedOn == None && job.completedOn == None && job.output == None
  }

  lemma PushedRow(db: Db, id: Id, c: Command, now: Time)
    requires c.Push?
    requires Engine.Send(db, id, c.queue, Some(c.data), ReadSendOptions(PushJson(c.overrides)), now).Ok?
    ensures var job := Engine.Send(db, id, c.queue, Some(c.data), ReadSendOptions(PushJson(c.overrides)), now).value;
            c.queue in db.queues && job.id == id && job.createdOn == now && IsPushed(job, db.queues[c.queue], c)
  {
    hide Engine.Send, PushJson, GetInt;
    Columns.SentColumns(db, id, c.queue, Some(c.data), ReadSendOptions(PushJson(c.overrides)), now);
    PushFieldsReadBack(c.overrides);
  }

  /** Statements that do nothing to the tables. */
  predicate DoesNothing(c: Command) {
    c.SpawnConsume? || c.Await? || c.CheckAck? || OnlyLooksAtVars(c) || c.AssertQueueEmpty?
    || c.AssertQueueSize? || c.CheckState? || c.CheckGone? || c.CheckData?
  }

  lemma NoEffect(c: Command, vars: map<string, Var>, r: Outcome)
    requires DoesNothing(c)
    ensures Effect(c, vars, r, [])
  {
  }

  /** One executed statement: the variables before it, what it came to, what it did. */
  datatype Ran = Ran(st: Statement, vars: map<string, Var>, outcome: Outcome, deeds: seq<Deed>)

  ghost predicate Honest(ran: Ran) {
    Effect(ran.st.command, ran.vars, ran.outcome, ran.deeds)
    && (ran.outcome.Err? ==> ran.outcome.error.line in {0, ran.st.line})
  }

  ghost function DeedsOf(runs: seq<Ran>): seq<Deed> {
    if runs == [] then [] else DeedsOf(runs[..|runs| - 1]) + runs[|runs| - 1].deeds
  }

  lemma DeedsSnoc(runs: seq<Ran>, ran: Ran)
    ensures DeedsOf(runs + [ran]) == DeedsOf(runs) + ran.deeds
  {
    assert (runs + [ran])[..|runs|] == runs;
  }

  /** The line of the statement goes into an error that has none. */
  function Located(r: Outcome, line: nat): Outcome {
    if r.Err? && r.error.line == 0 then Err(r.error.(line := line)) else r
  }

  /** The statements were executed in order up to the first that failed, and `r` is what that came to. */
  ghost predicate RanInOrder(statements: seq<Statement>, runs: seq<Ran>, r: Outcome) {
    && |runs| <= |statements|
    && (forall i | 0 <= i < |runs| :: runs[i].st == statements[i] && Honest(runs[i]))
    && (forall i | 0 <= i < |runs| - 1 :: runs[i].outcome.Ok?)
    && (r.Ok? ==> (forall i | 0 <= i < |runs| :: runs[i].outcome.Ok?))
    && (r.Err? ==> |runs| > 0 && runs[|runs| - 1].outcome.Err?
                   && r.error.kind == runs[|runs| - 1].outcome.error.kind
                   && r.error.line == (if runs[|runs| - 1].outcome.error.line == 0 then statements[|runs| - 1].line
                                       else runs[|runs| - 1].outcome.error.line))
  }

  lemma RanMore(statements: seq<Statement>, runs: seq<Ran>, r: Outcome, ran: Ran)
    requires RanInOrder(statements, runs, r) && r.Ok? && |runs| < |statements|
    requires ran.st == statements[|runs|] && Honest(ran)
    ensures RanInOrder(statements, runs + [ran], Located(ran.outcome, ran.st.line))
  {
    hide Honest;
  }

  // ---------------------------------------------------------------------------
  // The runner
  // ---------------------------------------------------------------------------

  class Runner {
    const server: Server
    var clients: set<nat>
    var vars: map<string, Var>
    var pending: map<string, Tid>
    var nextTid: Tid
    // consumers whose handle was overwritten by a later spawn: nobody joins them
    ghost var detached: set<Tid>
    ghost var executed: seq<Ran>

    constructor (server: Server)
      ensures this.server == server && clients == {} && vars == map[] && pending == map[] && nextTid == 0
      ensures detached == {} && executed == []
    {
      this.server, clients, vars, pending, nextTid := server, {}, map[], map[], 0;
      detached, executed := {}, [];
    }

    ghost predicate Valid(touched: set<string>)
      reads this, server
    {
      && server.Valid(touched)
      && (forall v | v in vars && vars[v].JobVar? :: vars[v].queue in touched)
      && (forall v | v in pending :: pending[v] in server.threads)
      && (forall t | t in server.threads :: t < nextTid)
      && (forall t | t in server.threads && server.threads[t].Consuming? :: t in pending.Values || t in detached)
    }

    method ClientFor(n: nat, ghost touched: set<string>) returns (ok: bool)
      requires Valid(touched)
      modifies this`clients, server
      ensures Valid(touched) && server.Went(touched) && Own(server.log) == Own(old(server.log))
    {
      ok := true;
      if n !in clients {
        var h := server.Call(touched);
        ok := h.ok;
        if ok {
          clients := clients + {n};
        }
      }
    }

    /** A call on the session of a client: connects first if need be. The tables are as the call finds them. */
    method Connected(client: nat, ghost touched: set<string>) returns (r: Result<Happening, ErrorKind>)
      requires Valid(touched)
      modifies this`clients, server
      ensures Valid(touched) && server.Went(touched) && Own(server.log) == Own(old(server.log))
      ensures r.Err? ==> r.error == ConnError || r.error == DbError
    {
      var ok := ClientFor(client, touched);
      if !ok {
        return Err(ConnError);
      }
      var h := server.Call(touched);
      r := if h.ok then Ok(h) else Err(DbError);
    }

    /** What the call does, now that it has gone through. */
    method Performs(deed: Deed, ghost touched: set<string>)
      requires Valid(touched) && DeedWithin(deed, touched)
      modifies server`db, server`log
      ensures Valid(touched) && server.db == After(old(server.db), deed)
      ensures server.log == old(server.log) + [Entry(Scenario, deed)]
      ensures Own(server.log) == Own(old(server.log)) + [deed]
    {
      hide After, Sound, Played, Real, Within;
      OwnSnoc(server.log, Entry(Scenario, deed));
      server.Record(Scenario, deed, touched);
    }

    method ExecCreate(st: Statement, ghost touched: set<string>) returns (r: Outcome, ghost deeds: seq<Deed>)
      requires Valid(touched) && st.command.CreateQueue? && st.command.queue in touched
      modifies this`clients, server
      ensures Valid(touched) && server.Went(touched)
      ensures Own(server.log) == Own(old(server.log)) + deeds
      ensures Effect(st.command, vars, r, deeds) && (r.Err? ==> r.error.line in {0, st.line})
      ensures r.Ok? ==> st.command.queue in server.db.queues
    {
      hide Played, Real, Within, Sound, Own;
      deeds := [];
      var call := Connected(st.client, touched);
      match call
      case Err(kind) =>
        r := Err(RunError(0, kind));
      case Ok(_) =>
        var q := Engine.NewQueue(ReadQueueOptions(QueueJson(st.command.settings)), server.now);
        deeds := [Did(OpenQueue(st.command.queue, q))];
        Performs(Did(OpenQueue(st.command.queue, q)), touched);
        r := Ok(());
    }

    method ExecDelete(st: Statement, ghost touched: set<string>) returns (r: Outcome, ghost deeds: seq<Deed>)
      requires Valid(touched) && st.command.DeleteQueue? && st.command.queue in touched
      modifies this`clients, server
      ensures Valid(touched) && server.Went(touched)
      ensures Own(server.log) == Own(old(server.log)) + deeds
      ensures Effect(st.command, vars, r, deeds) && (r.Err? ==> r.error.line in {0, st.line})
      ensures r.Ok? ==> Gone(server.db, st.command.queue)
    {
      hide Played, Real, Within, Sound, Own, After, Gone;
      deeds := [];
      var call := Connected(st.client, touched);
      match call
      case Err(kind) =>
        r := Err(RunError(0, kind));
      case Ok(_) =>
        var drop := Did(DropQueue(st.command.queue));
        deeds := [drop];
        DropsGone(server.db, drop, st.command.queue);
        Performs(drop, touched);
        r := Ok(());
    }

    /** `seen` are the tables as the call finds them. */
    method ExecMaintain(st: Statement, ghost touched: set<string>)
      returns (r: Outcome, ghost deeds: seq<Deed>, ghost seen: Db)
      requires Valid(touched) && st.command.Maintain?
      modifies this`clients, server
      ensures Valid(touched) && server.Went(touched)
      ensures Own(server.log) == Own(old(server.log)) + deeds
      ensures Effect(st.command, vars, r, deeds) && (r.Err? ==> r.error.line in {0, st.line})
      ensures r.Ok? ==> server.db == Engine.Maintain(seen, server.now) == Engine.Maintain(server.db, server.now)
      // on columns: no finished row past keep_until and no active row that overran is left, and no other row changed
      ensures r.Ok? ==> forall id | id in server.db.jobs ::
                          var row := server.db.jobs[id];
                          && id in seen.jobs
                          && !((row.state == Completed || row.state == Failed || row.state == Cancelled)
                               && row.keepUntil < server.now)
                          && !(row.state == Active && row.startedOn.Some?
                               && row.startedOn.value + row.expireSeconds * 1_000_000 < server.now)
      ensures r.Ok? ==> forall id | id in seen.jobs ::
                          var row := seen.jobs[id];
                          && !((row.state == Completed || row.state == Failed || row.state == Cancelled)
                               && row.keepUntil < server.now)
                          && !(row.state == Active && row.startedOn.Some?
                               && row.startedOn.value + row.expireSeconds * 1_000_000 < server.now) ==>
                            id in server.db.jobs && server.db.jobs[id] == row
    {
      hide Played, Real, Within, Sound, Own, Engine.Maintain;
      deeds := [];
      var call := Connected(st.client, touched);
      seen := server.db;
      match call
      case Err(kind) =>
        r := Err(RunError(0, kind));
      case Ok(_) =>
        deeds := [Maintained(server.now)];
        Engine.MaintainIdempotent(server.db, server.now);
        Columns.MaintainLeaves(server.db, server.now);
        Performs(Maintained(server.now), touched);
        r := Ok(());
    }

    /** `send` fails for a queue that is not registered; the id is a new one. */
    method ExecPush(st: Statement, ghost touched: set<string>) returns (r: Outcome, ghost deeds: seq<Deed>)
      requires Valid(touched) && st.command.Push? && st.command.queue in touched
      modifies this`clients, server
      ensures Valid(touched) && server.Went(touched)
      ensures Own(server.log) == Own(old(server.log)) + deeds
      ensures Effect(st.command, vars, r, deeds) && (r.Err? ==> r.error.line in {0, st.line})
      ensures r.Ok? ==> deeds[0].op.job.id in server.db.jobs
                        && server.db.jobs[deeds[0].op.job.id] == deeds[0].op.job
                        && st.command.queue in server.db.queues
                        && deeds[0].op.job.createdOn == server.now
                        && IsPushed(deeds[0].op.job, server.db.queues[st.command.queue], st.command)
    {
      hide Played, Real, Within, Sound, Own, Engine.Enqueue, IsPushed;
      deeds := [];
      var name, opts := st.command.queue, ReadSendOptions(PushJson(st.command.overrides));
      var call := Connected(st.client, touched);
      match call
      case Err(kind) =>
        r := Err(RunError(0, kind));
      case Ok(h) =>
        var sent := Engine.Send(server.db, h.newId, name, Some(st.command.data), opts, server.now);
        if sent.Err? || h.newId in server.db.issued {
          return Err(RunError(0, DbError)), [];
        }
        Engine.SendRuns(server.db, h.newId, name, Some(st.command.data), opts, server.now);
        PushedRow(server.db, h.newId, st.command, server.now);
        ghost var defaults := server.db.queues[name];
        deeds := [Did(Insert(sent.value))];
        Performs(Did(Insert(sent.value)), touched);
        r := Ok(());
        assert IsPushed(deeds[0].op.job, defaults, st.command);
    }

    /** A foreground consume that gets nothing fails the scenario. */
    method ExecConsume(st: Statement, ghost touched: set<string>)
      returns (r: Outcome, ghost deeds: seq<Deed>, ghost run: seq<Attempt>)
      requires Valid(touched) && st.command.Consume? && st.command.queue in touched
      modifies this`clients, this`vars, server
      ensures Valid(touched) && server.Went(touched)
      ensures Own(server.log) == Own(old(server.log)) + deeds
      ensures Effect(st.command, old(vars), r, deeds) && (r.Err? ==> r.error.line in {0, st.line})
      ensures Consumer.RunOf(st.command.queue, run) && Consumer.Polls(run)
      ensures r.Err? ==> vars == old(vars) && Consumer.AllInVain(run)
      ensures r.Ok? ==> run != [] && run[|run| - 1].claim.Some?
                        && var id := run[|run| - 1].claim.value;
                           && deeds == [Did(Claim(st.command.queue, id, run[|run| - 1].at))]
                           && vars == old(vars)[st.command.handle := JobVar(st.command.queue, id)]
      ensures r.Err? && r.error.kind == AssertFailed ==>
                match st.command.within
                case None => |run| == 1
                case Some(d) => |run| >= 2 && server.now >= run[1].at + d * MILLISECOND
    {
      hide Played, Real, Within, Sound, Own, Consumer.RunOf, Consumer.Polls, Consumer.AllInVain;
      deeds, run := [], [];
      Consumer.Nothing(st.command.queue);
      var connected := ClientFor(st.client, touched);
      if !connected {
        return Err(RunError(0, ConnError)), [], [];
      }
      var within := match st.command.within case None => None case Some(d) => Some(d * 1_000);
      var ok, job;
      ok, job, run := Consumer.ConsumeWait(server, st.command.queue, within, touched);
      match job
      case Some(id) =>
        vars := vars[st.command.handle := JobVar(st.command.queue, id)];
        deeds := [Did(Claim(st.command.queue, id, run[|run| - 1].at))];
        r := Ok(());
      case None =>
        r := if ok then Err(RunError(st.line, AssertFailed)) else Err(RunError(0, DbError));
    }

    /** Starting a consumer; an unawaited one under the same variable is no longer anybody's to join. */
    method ExecSpawn(st: Statement, ghost touched: set<string>) returns (r: Outcome)
      requires Valid(touched) && st.command.SpawnConsume? && st.command.queue in touched
      modifies this`pending, this`detached, this`nextTid, server`threads
      ensures Valid(touched) && old(server.threads.Keys) <= server.threads.Keys && r.Ok?
      ensures pending.Keys == old(pending.Keys) + {st.command.handle}
      ensures detached == old(detached) + (if st.command.handle in old(pending) then {old(pending)[st.command.handle]}
                                          else {})
      ensures old(nextTid) !in old(server.threads) && pending[st.command.handle] == old(nextTid)
      ensures server.threads == old(server.threads)[old(nextTid) := Consuming(st.command.queue)]
    {
      hide Played, Real, Within, Sound;
      var h := st.command.handle;
      if h in pending {
        detached := detached + {pending[h]};
      }
      Rebound(pending, h, nextTid);
      server.threads := server.threads[nextTid := Consuming(st.command.queue)];
      pending := pending[h := nextTid];
      nextTid := nextTid + 1;
      r := Ok(());
    }

    /** Takes a consumer off the pending ones and joins it. */
    method Collect(h: string, ghost touched: set<string>) returns (result: Thread)
      requires Valid(touched) && h in pending
      modifies this`pending, server
      ensures Valid(touched) && server.Went(touched) && Own(server.log) == Own(old(server.log))
      ensures pending == old(pending) - {h}
      ensures old(pending)[h] in server.threads && result == server.threads[old(pending)[h]] && result.Finished?
      ensures result.queue in touched
    {
      hide Own, Real, Within, Played, Sound;
      result := server.Join(pending[h], touched);
      Unbound(pending, h);
      pending := pending - {h};
    }

    method ExecAwait(st: Statement, ghost touched: set<string>) returns (r: Outcome)
      requires Valid(touched) && st.command.Await?
      modifies this`pending, this`vars, server
      ensures Valid(touched) && server.Went(touched) && Own(server.log) == Own(old(server.log))
      ensures r.Err? ==> r.error.line in {0, st.line}
      ensures pending.Keys == old(pending.Keys) - {st.command.handle}
      ensures r.Ok? <==> st.command.handle in old(pending)
                         && var t := old(pending)[st.command.handle];
                            t in server.threads && server.threads[t].Finished? && !server.threads[t].broken
      ensures r.Ok? ==> var t := server.threads[old(pending)[st.command.handle]];
                        vars == old(vars)[st.command.handle := if t.claim.Some? then JobVar(t.queue, t.claim.value)
                                                               else EmptyVar]
      ensures r.Err? ==> vars == old(vars)
    {
      hide Server.Valid;
      var h := st.command.handle;
      if h !in pending {
        return Err(RunError(st.line, RuntimeError));
      }
      var result := Collect(h, touched);
      if result.broken {
        r := Err(RunError(st.line, RuntimeError));
      } else {
        vars := vars[h := Gained(result)];
        r := Ok(());
      }
    }

    /** ack and fail: a job that is not active fails the scenario. */
    method ExecOutcome(st: Statement, ghost touched: set<string>) returns (r: Outcome, ghost deeds: seq<Deed>)
      requires Valid(touched) && (st.command.Ack? || st.command.Fail?)
      modifies this`clients, server
      ensures Valid(touched) && server.Went(touched)
      ensures Own(server.log) == Own(old(server.log)) + deeds
      ensures Effect(st.command, vars, r, deeds) && (r.Err? ==> r.error.line in {0, st.line})
      ensures r.Err? && r.error.kind == AssertFailed ==>
                Holding(vars, st.command.handle)
                && !Engine.IsRunning(server.db, vars[st.command.handle].queue, vars[st.command.handle].id)
      ensures r.Ok? ==> var id := vars[st.command.handle].id;
                        id in server.db.jobs && Reported(server.db.jobs[id], st.command)
    {
      hide Played, Real, Within, Sound, Own;
      deeds := [];
      var h := st.command.handle;
      if h !in vars || vars[h].EmptyVar? {
        return Err(RunError(st.line, RuntimeError)), [];
      }
      var JobVar(queue, id) := vars[h];
      var call := Connected(st.client, touched);
      match call
      case Err(kind) =>
        r := Err(RunError(0, kind));
      case Ok(_) =>
        if !Engine.IsRunning(server.db, queue, id) {
          return Err(RunError(st.line, AssertFailed)), [];
        }
        var op := if st.command.Ack? then Complete(queue, id, server.now, OutputOf(st.command.output))
                  else Lifecycle.Fail(queue, id, server.now, OutputOf(st.command.output));
        deeds := [Did(op)];
        Performs(Did(op), touched);
        r := Ok(());
    }

    /** Commands that only look: at the variables, or once at the tables. */
    method ExecLook(st: Statement, ghost touched: set<string>) returns (r: Outcome)
      requires Valid(touched)
      requires OnlyLooksAtVars(st.command) || st.command.AssertQueueEmpty? || st.command.AssertQueueSize?
               || st.command.CheckState? || st.command.CheckGone? || st.command.CheckData?
      modifies this`clients, server
      ensures Valid(touched) && server.Went(touched) && Own(server.log) == Own(old(server.log))
      ensures r.Err? ==> r.error.line in {0, st.line}
      ensures OnlyLooksAtVars(st.command) ==>
                && server.db == old(server.db)
                && match LookAtVars(vars, st.command)
                   case Holds => r.Ok?
                   case Fails => r == Err(RunError(st.line, AssertFailed))
                   case NoJob => r == Err(RunError(st.line, RuntimeError))
      ensures !OnlyLooksAtVars(st.command) && r.Ok? ==> LookAtDb(server.db, vars, st.command)
      ensures !OnlyLooksAtVars(st.command) && r.Err? && r.error.kind == AssertFailed ==>
                !LookAtDb(server.db, vars, st.command)
    {
      hide Played, Real, Within, Sound, Own;
      if OnlyLooksAtVars(st.command) {
        return Judged(st.line, LookAtVars(vars, st.command));
      }
      if (st.command.CheckState? || st.command.CheckGone? || st.command.CheckData?)
         && !Holding(vars, st.command.handle) {
        return Err(RunError(st.line, RuntimeError));
      }
      var call := Connected(st.client, touched);
      match call
      case Err(kind) =>
        r := Err(RunError(0, kind));
      case Ok(_) =>
        r := Judged(st.line, if LookAtDb(server.db, vars, st.command) then Holds else Fails);
    }

    /** `check ack within`: looks every 20 ms until the job is completed or the time is up. */
    method ExecCheckAck(st: Statement, ghost touched: set<string>) returns (r: Outcome)
      requires Valid(touched) && st.command.CheckAck?
      modifies this`clients, server
      ensures Valid(touched) && server.Went(touched) && Own(server.log) == Own(old(server.log))
      ensures r.Err? ==> r.error.line in {0, st.line}
      ensures r.Ok? ==> LookAtDb(server.db, vars, st.command)
      ensures r.Err? && r.error.kind == AssertFailed ==>
                !LookAtDb(server.db, vars, st.command)
                && server.now >= old(server.now) + st.command.within.GetOr(0) * MILLISECOND
    {
      hide Played, Real, Within, Sound, Own, LookAtDb;
      if st.command.handle !in vars || vars[st.command.handle].EmptyVar? {
        return Err(RunError(st.line, RuntimeError));
      }
      var deadline := server.now + st.command.within.GetOr(0) * MILLISECOND;
      while true
        invariant Valid(touched) && server.Went(touched) && Own(server.log) == Own(old(server.log))
        invariant vars == old(vars)
        decreases deadline - server.now
      {
        var call := Connected(st.client, touched);
        if call.Err? {
          return Err(RunError(0, call.error));
        }
        if LookAtDb(server.db, vars, st.command) {
          return Ok(());
        }
        if server.now >= deadline {
          return Err(RunError(st.line, AssertFailed));
        }
        server.now := server.now + 20 * MILLISECOND;
      }
    }

    /** The statements that call the server to change something. */
    method ExecCall(st: Statement, ghost touched: set<string>) returns (r: Outcome, ghost deeds: seq<Deed>)
      requires Valid(touched) && (QueueOf(st.command).Some? ==> QueueOf(st.command).value in touched)
      requires !DoesNothing(st.command)
      modifies this`clients, this`vars, server
      ensures Valid(touched) && server.Went(touched)
      ensures Own(server.log) == Own(old(server.log)) + deeds
      ensures Effect(st.command, old(vars), r, deeds) && (r.Err? ==> r.error.line in {0, st.line})
    {
      hide Own, Effect, Reported, Gone, IsPushed, Engine.Maintain, Engine.IsRunning, Valid, Server.Valid, Server.Went;
      ghost var run, seen;
      match st.command
      case CreateQueue(_, _) => r, deeds := ExecCreate(st, touched);
      case DeleteQueue(_) => r, deeds := ExecDelete(st, touched);
      case Maintain => r, deeds, seen := ExecMaintain(st, touched);
      case Push(_, _, _) => r, deeds := ExecPush(st, touched);
      case Consume(_, _, _) => r, deeds, run := ExecConsume(st, touched);
      case Ack(_, _) => r, deeds := ExecOutcome(st, touched);
      case Fail(_, _) => r, deeds := ExecOutcome(st, touched);
    }

    /** The other statements. */
    method ExecQuietly(st: Statement, ghost touched: set<string>) returns (r: Outcome)
      requires Valid(touched) && (QueueOf(st.command).Some? ==> QueueOf(st.command).value in touched)
      requires DoesNothing(st.command)
      modifies this`clients, this`vars, this`pending, this`detached, this`nextTid, server
      ensures Valid(touched) && old(server.log) <= server.log && old(server.now) <= server.now
      ensures Own(server.log) == Own(old(server.log)) && (r.Err? ==> r.error.line in {0, st.line})
      ensures r.Ok? ==> pending.Keys == PendingAfter(old(pending.Keys), st.command)
      ensures detached == old(detached)
                          + (if st.command.SpawnConsume? && st.command.handle in old(pending)
                             then {old(pending)[st.command.handle]} else {})
    {
      hide Own, LookAtDb, LookAtVars, Gained, Judged, Valid, Server.Valid;
      if st.command.SpawnConsume? {
        r := ExecSpawn(st, touched);
      } else if st.command.Await? {
        r := ExecAwait(st, touched);
      } else if st.command.CheckAck? {
        r := ExecCheckAck(st, touched);
      } else {
        r := ExecLook(st, touched);
      }
    }

    /** One statement, which also goes into the record of what was executed. */
    method Exec(st: Statement, ghost touched: set<string>) returns (r: Outcome)
      requires Valid(touched) && (QueueOf(st.command).Some? ==> QueueOf(st.command).value in touched)
      modifies this, server
      ensures Valid(touched) && old(server.log) <= server.log && old(server.now) <= server.now
      ensures |executed| == |old(executed)| + 1 && old(executed) <= executed
      ensures var ran := executed[|executed| - 1];
              && ran.st == st && ran.vars == old(vars) && ran.outcome == r && Honest(ran)
              && Own(server.log) == Own(old(server.log)) + ran.deeds
      ensures r.Ok? ==> pending.Keys == PendingAfter(old(pending.Keys), st.command)
      ensures detached == old(detached)
                          + (if st.command.SpawnConsume? && st.command.handle in old(pending)
                             then {old(pending)[st.command.handle]} else {})
    {
      hide Own, Effect, Server.Valid;
      ghost var deeds := [];
      if DoesNothing(st.command) {
        r := ExecQuietly(st, touched);
        NoEffect(st.command, old(vars), r);
      } else {
        r, deeds := ExecCall(st, touched);
      }
      executed := executed + [Ran(st, old(vars), r, deeds)];
    }

    /** Joins every consumer that a variable still stands for. */
    method JoinAllPending(ghost touched: set<string>)
      requires Valid(touched)
      modifies this`pending, server
      ensures Valid(touched) && server.Went(touched) && Own(server.log) == Own(old(server.log)) && pending == map[]
      ensures forall t | t in server.threads && server.threads[t].Consuming? :: t in detached
    {
      hide Own, Server.Valid;
      while pending != map[]
        invariant Valid(touched) && server.Went(touched) && Own(server.log) == Own(old(server.log))
        decreases |pending|
      {
        var h :| h in pending;
        var _ := Collect(h, touched);
      }
    }

    /** Drops the queues; a call that fails is passed over. */
    method CleanupQueues(names: seq<string>, ghost touched: set<string>)
      returns (ghost clean: bool, ghost deeds: seq<Deed>)
      requires Valid(touched) && forall q | q in names :: q in touched
      modifies this`clients, server
      ensures Valid(touched) && server.Went(touched)
      ensures Own(server.log) == Own(old(server.log)) + deeds && OnlyDrops(deeds, names)
      ensures clean ==> forall q | q in names :: Dropped(server.log, |old(server.log)|, q)
    {
      hide Sound, Played, Real, Within, Own, Dropped, OnlyDrops;
      clean, deeds := true, [];
      NoDrops(names);
      var i := 0;
      while i < |names|
        invariant 0 <= i <= |names| && Valid(touched) && server.Went(touched)
        invariant Own(server.log) == Own(old(server.log)) + deeds && OnlyDrops(deeds, names)
        invariant clean ==> forall j | 0 <= j < i :: Dropped(server.log, |old(server.log)|, names[j])
      {
        ghost var log0 := server.log;
        var call := Connected(1, touched);
        if call.Ok? {
          var drop := Did(DropQueue(names[i]));
          ghost var log1 := server.log;
          Performs(drop, touched);
          MoreDrops(deeds, names, i);
          deeds := deeds + [drop];
          DropsNow(log1, |old(server.log)|, names[i]);
        } else {
          clean := false;
        }
        StillDropped(log0, server.log, |old(server.log)|);
        i := i + 1;
      }
    }

    /** Statements in order, up to the first that fails; its line goes into an error that has none. */
    method RunStatements(statements: seq<Statement>, ghost touched: set<string>) returns (r: Outcome)
      requires Valid(touched) && touched == Touched(statements) && pending == map[] && detached == {}
      requires executed == []
      modifies this, server
      ensures Valid(touched) && old(server.log) <= server.log
      ensures RanInOrder(statements, executed, r) && (r.Ok? ==> |executed| == |statements|)
      ensures Own(server.log) == Own(old(server.log)) + DeedsOf(executed)
      ensures detached == {} <==> NoReuse(statements, |executed|)
    {
      hide Sound, Played, Real, Within, Own, Touched, PendingAfter, QueueOf, RanInOrder, DeedsOf, Honest;
      r := Ok(());
      var i := 0;
      NoneRan(statements);
      while i < |statements| && r.Ok?
        invariant 0 <= i <= |statements| && Valid(touched) && old(server.log) <= server.log
        invariant |executed| == i && RanInOrder(statements, executed, r)
        invariant Own(server.log) == Own(old(server.log)) + DeedsOf(executed)
        invariant r.Ok? ==> pending.Keys == PendingBefore(statements, i)
        invariant detached == {} <==> NoReuse(statements, i)
      {
        if QueueOf(statements[i].command).Some? {
          Mentioned(statements, i);
        }
        ghost var runs, before := executed, pending;
        ghost var r0 := r;
        OneMore(statements, i, before.Keys);
        r := Exec(statements[i], touched);
        ghost var ran := executed[i];
        assert executed == runs + [ran];
        RanMore(statements, runs, r0, ran);
        DeedsSnoc(runs, ran);
        r := Located(r, statements[i].line);
        i := i + 1;
      }
    }

    /**
     A whole scenario, on a new runner, whatever background consumers, other clients and the maintenance worker do
     meanwhile. It executes its statements up to the first that fails. Of its consumers only detached ones still run
     afterwards, and there are detached ones exactly if an executed spawn reused a pending variable. What it did
     itself is to drop the queues it touches, to execute those statements, and to drop the queues again. If the
     calls of the last cleanup go through, every touched queue is gone with its jobs, unless somebody else has
     created it again since. The tables outside the touched queues are what others and maintenance alone would
     have made of them.
     */
    method RunScenario(statements: seq<Statement>)
      returns (r: Outcome, ghost started: bool, ghost clean: bool, ghost setup: seq<Deed>, ghost teardown: seq<Deed>,
               ghost mark: nat)
      requires server.threads == map[] && server.log == [] && server.db == server.start && Sound(server.db)
      requires vars == map[] && pending == map[] && detached == {} && executed == []
      modifies this, server
      ensures server.db == Played(old(server.db), server.log)
      ensures RanInOrder(statements, executed, if started then r else Ok(()))
      ensures if started then r.Ok? ==> |executed| == |statements| else r == Err(RunError(0, ConnError)) && executed == []
      ensures forall t | t in server.threads && server.threads[t].Consuming? :: t in detached
      ensures detached == {} <==> NoReuse(statements, |executed|)
      ensures Own(server.log) == setup + DeedsOf(executed) + teardown
      ensures AllDrop(setup, Touched(statements)) && AllDrop(teardown, Touched(statements))
      ensures clean ==> started && mark <= |server.log|
                        && forall q | q in Touched(statements) ::
                             Gone(server.db, q) || ReopenedByOthers(server.log, mark, q)
      ensures Foreign(server.db, Touched(statements))
              == Elsewhere(Foreign(old(server.db), Touched(statements)), server.log, Touched(statements))
    {
      hide Foreign, Touched, Gone, NoDuplicates, NoReuse, Sound, Played, Real, Within, Own, RanInOrder, DeedsOf,
           OnlyDrops, Dropped, AllDrop, ReopenedByOthers, Elsewhere;
      ghost var touched := Touched(statements);
      Fresh(server.db, touched);
      NoneRan(statements);
      clean, setup, teardown, mark := false, [], [], 0;
      var ok := ClientFor(1, touched);
      started := ok;
      if !ok {
        Teardown(server.start, server.log, touched);
        NoDrops([]);
        DropsWithin([], [], touched);
        return Err(RunError(0, ConnError)), false, false, [], [], 0;
      }
      var queues := CollectQueues(statements);
      assert forall q :: q in queues <==> q in touched by {
        assert forall q :: q in queues <==> q in (set n | n in queues);
      }
      clean, setup := CleanupQueues(queues, touched);
      DropsWithin(setup, queues, touched);
      r := RunStatements(statements, touched);
      JoinAllPending(touched);
      mark := |server.log|;
      ghost var before := server.log;
      clean, teardown := CleanupQueues(queues, touched);
      DropsWithin(teardown, queues, touched);
      Teardown(server.start, server.log, touched);
      if clean {
        forall q | q in touched ensures Gone(server.db, q) || ReopenedByOthers(server.log, mark, q) {
          GoneOrReopened(server.start, before, server.log, touched, teardown, queues, q);
        }
      }
    }
  }

  /** Spawning under a variable keeps every other consumer within reach. */
  lemma Rebound(pending: map<string, Tid>, h: string, t: Tid)
    ensures forall u | u in pending.Values :: u in pending[h := t].Values || (h in pending && u == pending[h])
    ensures t in pending[h := t].Values
  {
    forall u | u in pending.Values ensures u in pending[h := t].Values || (h in pending && u == pending[h]) {
      var v :| v in pending && pending[v] == u;
      assert v != h ==> pending[h := t][v] == u;
    }
    assert pending[h := t][h] == t;
  }

  lemma Unbound(pending: map<string, Tid>, h: string)
    requires h in pending
    ensures forall u | u in pending.Values :: u in (pending - {h}).Values || u == pending[h]
  {
    forall u | u in pending.Values && u != pending[h] ensures u in (pending - {h}).Values {
      var v :| v in pending && pending[v] == u;
      assert (pending - {h})[v] == u;
    }
  }

  lemma NoneRan(statements: seq<Statement>)
    ensures RanInOrder(statements, [], Ok(())) && DeedsOf([]) == [] && NoReuse(statements, 0)
    ensures PendingBefore(statements, 0) == {}
  {
  }

  /** One more statement: what is pending after it, and whether it reuses a variable. */
  lemma OneMore(statements: seq<Statement>, i: nat, before: set<string>)
    requires i < |statements| && before == PendingBefore(statements, i)
    ensures PendingAfter(before, statements[i].command) == PendingBefore(statements, i + 1)
    ensures ReusesAt(statements, i)
            <==> statements[i].command.SpawnConsume? && statements[i].command.handle in before
    ensures NoReuse(statements, i + 1) <==> (NoReuse(statements, i) && !ReusesAt(statements, i))
  {
    var next := i + 1;
    if NoReuse(statements, i) && !ReusesAt(statements, i) {
      forall k | 0 <= k < next ensures !ReusesAt(statements, k) {
        assert k < i || k == i;
      }
    }
  }

  // ---- cleanup ----

  /** The scenario drops the queue at entry `from` or later. */
  ghost predicate Dropped(log: seq<Entry>, from: nat, queue: string) {
    exists i :: from <= i < |log| && Drops(log[i].deed, queue)
  }

  /** Somebody else creates the queue at entry `from` or later. */
  ghost predicate ReopenedByOthers(log: seq<Entry>, from: nat, queue: string) {
    exists i :: from <= i < |log| && log[i].who == Others && Opens(log[i].deed, queue)
  }

  ghost predicate OnlyDrops(deeds: seq<Deed>, names: seq<string>) {
    forall d | d in deeds :: d.Did? && d.op.DropQueue? && d.op.name in names
  }

  ghost predicate AllDrop(deeds: seq<Deed>, touched: set<string>) {
    forall d | d in deeds :: d.Did? && d.op.DropQueue? && d.op.name in touched
  }

  lemma NoDrops(names: seq<string>)
    ensures OnlyDrops([], names)
  {
  }

  lemma MoreDrops(deeds: seq<Deed>, names: seq<string>, i: nat)
    requires OnlyDrops(deeds, names) && i < |names|
    ensures OnlyDrops(deeds + [Did(DropQueue(names[i]))], names)
  {
  }

  lemma DropsWithin(deeds: seq<Deed>, names: seq<string>, touched: set<string>)
    requires OnlyDrops(deeds, names) && forall q | q in names :: q in touched
    ensures AllDrop(deeds, touched)
  {
  }

  lemma DropsNow(log: seq<Entry>, from: nat, queue: string)
    requires from <= |log|
    ensures Dropped(log + [Entry(Scenario, Did(DropQueue(queue)))], from, queue)
  {
    var longer := log + [Entry(Scenario, Did(DropQueue(queue)))];
    assert Drops(longer[|log|].deed, queue);
  }

  lemma StillDropped(log: seq<Entry>, longer: seq<Entry>, from: nat)
    requires log <= longer
    ensures forall q | Dropped(log, from, q) :: Dropped(longer, from, q)
  {
    forall q | Dropped(log, from, q) ensures Dropped(longer, from, q) {
      var i :| from <= i < |log| && Drops(log[i].deed, q);
      assert Drops(longer[i].deed, q);
    }
  }

  lemma {:induction false} OwnIn(log: seq<Entry>, m: nat, j: nat)
    requires m <= j < |log| && log[j].who == Scenario
    ensures |Own(log[..m])| <= |Own(log)| && log[j].deed in Own(log)[|Own(log[..m])|..]
    decreases |log|
  {
    var init := log[..|log| - 1];
    assert init[..m] == log[..m];
    if j == |init| {
      OwnGrows(init, m);
      assert Own(log)[|Own(log)| - 1] == log[j].deed;
      assert Own(log)[|Own(log[..m])|..][|Own(log)| - 1 - |Own(log[..m])|] == log[j].deed;
    } else {
      OwnIn(init, m, j);
      var k :| 0 <= k < |Own(init)| - |Own(log[..m])| && Own(init)[|Own(log[..m])|..][k] == log[j].deed;
      assert Own(log)[|Own(log[..m])|..][k] == log[j].deed;
    }
  }

  lemma {:induction false} OwnGrows(log: seq<Entry>, m: nat)
    requires m <= |log|
    ensures |Own(log[..m])| <= |Own(log)|
    decreases |log|
  {
    if m < |log| {
      assert log[..|log| - 1][..m] == log[..m];
      OwnGrows(log[..|log| - 1], m);
    } else {
      assert log[..m] == log;
    }
  }

  /** After a cleanup whose calls went through, a queue is gone, or somebody else has created it again. */
  lemma GoneOrReopened(start: Db, before: seq<Entry>, log: seq<Entry>, touched: set<string>, teardown: seq<Deed>,
                       names: seq<string>, queue: string)
    requires Sound(start) && before <= log && Within(log, touched)
    requires Own(log) == Own(before) + teardown && OnlyDrops(teardown, names) && Dropped(log, |before|, queue)
    ensures Gone(Played(start, log), queue) || ReopenedByOthers(log, |before|, queue)
  {
    hide Sound, Played, Gone, Own;
    var i :| |before| <= i < |log| && Drops(log[i].deed, queue);
    if j :| i <= j < |log| && Opens(log[j].deed, queue) {
      if log[j].who == Scenario {
        OnlyDropped(before, log, teardown, names, queue, j);
        assert false;
      }
    } else {
      GoneAfterDrop(start, log, i, queue);
    }
  }

  lemma OnlyDropped(before: seq<Entry>, log: seq<Entry>, teardown: seq<Deed>, names: seq<string>, queue: string, j: nat)
    requires before <= log && Own(log) == Own(before) + teardown && OnlyDrops(teardown, names)
    requires |before| <= j < |log| && log[j].who == Scenario
    ensures !Opens(log[j].deed, queue)
  {
    hide Own;
    assert log[..|before|] == before;
    OwnIn(log, |before|, j);
    assert Own(log)[|Own(before)|..] == teardown;
  }

  // ---- what the checks check ----

  /** The checks of variables, spelled out. */
  lemma VariableChecks(vars: map<string, Var>, h: string, o: string, hs: seq<string>)
    ensures LookAtVars(vars, CheckEmpty(h))
            == if h !in vars then NoJob else if vars[h] == EmptyVar then Holds else Fails
    ensures LookAtVars(vars, AssertVarEq(h, o))
            == if h !in vars || vars[h] == EmptyVar || o !in vars || vars[o] == EmptyVar then NoJob
               else if vars[h].id == vars[o].id then Holds
               else Fails
    ensures LookAtVars(vars, AssertExactlyOneClaimed(hs)) == NoJob <==> exists v | v in hs :: v !in vars
    ensures LookAtVars(vars, AssertExactlyOneClaimed(hs)) == Holds <==> exists i: nat :: OnlyClaimAt(vars, hs, i)
  {
    ExactlyOneClaimed(vars, hs);
  }

  /** The checks of tables, spelled out on rows. */
  lemma QueueChecks(db: Db, vars: map<string, Var>, q: string, n: int)
    ensures LookAtDb(db, vars, AssertQueueEmpty(q)) <==>
              forall id | id in db.jobs && db.jobs[id].name == q ::
                db.jobs[id].state != Created && db.jobs[id].state != Retry
    ensures LookAtDb(db, vars, AssertQueueSize(q, n)) <==>
              n == |set id | id in db.jobs && db.jobs[id].name == q
                             && (db.jobs[id].state == Created || db.jobs[id].state == Retry)|
  {
    var waiting := set id | id in db.jobs && db.jobs[id].name == q && Waiting(db.jobs[id]);
    assert waiting == set id | id in db.jobs && db.jobs[id].name == q
                               && (db.jobs[id].state == Created || db.jobs[id].state == Retry);
    assert PendingCount(db, q) == |waiting|;
    if id :| id in db.jobs && db.jobs[id].name == q && (db.jobs[id].state == Created || db.jobs[id].state == Retry) {
      assert id in waiting;
    }
  }

  lemma JobChecks(db: Db, vars: map<string, Var>, h: string, s: string, within: Option<Duration>, v: Json)
    requires h in vars && vars[h].JobVar?
    ensures var id := vars[h].id;
            var there := id in db.jobs && db.jobs[id].name == vars[h].queue;
            && (LookAtDb(db, vars, CheckGone(h)) <==> !there)
            && (LookAtDb(db, vars, CheckAck(h, within)) <==> there && db.jobs[id].state == Completed)
            && (LookAtDb(db, vars, CheckData(h, v)) <==> there && db.jobs[id].data == v)
            && (LookAtDb(db, vars, CheckState(h, s)) <==>
                  there && match db.jobs[id].state
                           case Created => s == "created"
                           case Retry => s == "retry"
                           case Active => s == "active"
                           case Completed => s == "completed"
                           case Cancelled => s == "cancelled"
                           case Failed => s == "failed")
  {
    assert "completed" != "created" && "completed" != "retry" && "completed" != "active";
    assert "completed" != "cancelled" && "completed" != "failed";
  }

  /** The queues a scenario touches are those that its commands name. */
  lemma TouchedAreNamed(statements: seq<Statement>, q: string)
    ensures q in Touched(statements) <==>
              exists i | 0 <= i < |statements| ::
                var c := statements[i].command;
                (c.CreateQueue? || c.DeleteQueue? || c.Push? || c.Consume? || c.SpawnConsume? || c.AssertQueueEmpty?
                 || c.AssertQueueSize?) && c.queue == q
  {
  }

  /** A new server has nothing to tell. */
  lemma Fresh(db: Db, touched: set<string>)
    ensures Real(db, []) && Within([], touched) && Played(db, []) == db && Own([]) == []
  {
  }

  lemma Teardown(start: Db, log: seq<Entry>, touched: set<string>)
    requires Sound(start) && Real(start, log) && Within(log, touched)
    ensures Foreign(Played(start, log), touched) == Elsewhere(Foreign(start, touched), log, touched)
  {
    ForeignPlayed(start, log, touched);
  }
}
