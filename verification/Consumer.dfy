/** `consume_wait` of the scenario runner: claim one job, or wait for one up to a deadline. */
module Consumer {
  import opened Base
  import opened Jobs
  import opened Lifecycle
  import opened Logs
  import opened Servers
  import Engine

  const POLL: nat := 50_000 // microseconds

  /** The time `n` polls take. */
  function PollTime(n: int): int {
    n * 50_000
  }

  /** Each fetch claims what the engine selects, and only the last one can have claimed something. */
  ghost predicate RunOf(queue: string, run: seq<Attempt>) {
    && (forall i | 0 <= i < |run| :: Fetches(run[i], queue) && Sound(run[i].seen))
    && (forall i | 0 <= i < |run| - 1 :: run[i].claim == None)
  }

  /** From the third fetch on, each comes a wait of at most 50 ms after the one before it, and the time that
      the calls themselves take. */
  ghost predicate Polls(run: seq<Attempt>) {
    && (forall i | 0 <= i < |run| :: run[i].waited <= (if i < 2 then 0 else 50_000))
    && (forall i | 2 <= i < |run| :: run[i].at == run[i - 1].at + run[i].waited + run[i].late)
  }

  lemma RunGrows(queue: string, run: seq<Attempt>, next: Attempt)
    requires RunOf(queue, run) && Fetches(next, queue) && Sound(next.seen)
    requires forall i | 0 <= i < |run| :: run[i].claim == None
    ensures RunOf(queue, run + [next])
  {
    hide Fetches, Sound;
  }

  lemma PollsGrows(run: seq<Attempt>, next: Attempt)
    requires Polls(run) && next.waited <= (if |run| < 2 then 0 else POLL)
    requires |run| >= 2 ==> next.at == run[|run| - 1].at + next.waited + next.late
    ensures Polls(run + [next])
  {
  }

  predicate AllInVain(run: seq<Attempt>) {
    forall i | 0 <= i < |run| :: run[i].claim == None
  }

  /** A fetch of which nothing came found nothing claimable, and the converse. */
  lemma InVain(attempt: Attempt, queue: string)
    requires Fetches(attempt, queue) && Engine.Keyed(attempt.seen)
    ensures attempt.claim == None <==> Engine.Claimable(attempt.seen, attempt.held, queue, attempt.at) == {}
  {
    hide Fetches;
    FetchesIsFetch(attempt, queue);
    Engine.FetchTakesTheFirst(attempt.seen, attempt.held, queue, 1, attempt.at);
  }

  /** A run ends without a job if and only if each of its fetches found nothing that it could have claimed. */
  lemma GaveUp(queue: string, run: seq<Attempt>)
    requires RunOf(queue, run) && run != []
    ensures run[|run| - 1].claim == None
            <==> forall i | 0 <= i < |run| ::
                   Engine.Claimable(run[i].seen, run[i].held, queue, run[i].at) == {}
  {
    hide Fetches, Engine.Claimable;
    forall i | 0 <= i < |run|
      ensures run[i].claim == None <==> Engine.Claimable(run[i].seen, run[i].held, queue, run[i].at) == {}
    {
      InVain(run[i], queue);
    }
  }

  /**
   `run` lists the fetches that went through. An error ends the wait, and then nothing was claimed.
   */
  method ConsumeWait(s: Server, queue: string, within: Option<nat>, ghost touched: set<string>)
    returns (ok: bool, job: Option<Id>, ghost run: seq<Attempt>)
    requires s.Valid(touched) && queue in touched
    modifies s
    ensures s.Went(touched) && RunOf(queue, run) && Polls(run)
    // what was claimed is what the last fetch claimed, and all that was claimed
    ensures ok ==> run != [] && job == run[|run| - 1].claim
    ensures job == None ==> AllInVain(run)
    ensures !ok ==> job == None
    ensures Own(s.log) == Own(old(s.log))
                          + (if job.Some? then [Did(Claim(queue, job.value, run[|run| - 1].at))] else [])
    ensures job.Some? ==> s.now == run[|run| - 1].at
                          && s.db == Tried(run[|run| - 1].seen, Claim(queue, job.value, s.now))
    // giving up: at once without a deadline, otherwise when it has passed
    ensures within == None ==> |run| <= 1
    ensures ok && job == None && within.Some? ==> |run| >= 2 && s.now >= run[1].at + within.value
    // the run is finite: every round uses up a notification or a poll interval
    ensures within.Some? ==> PollTime(|run| - 3 - (old(s.coming) - s.coming)) <= within.value
  {
    hide RunOf, Polls, Fetches, AllInVain, Sound, Played, Real, Within, Tried, Own;
    var began := s.now;
    ghost var attempt;
    run := [];
    Nothing(queue);
    ok, job, attempt := s.FetchOne(queue, 0, s.now, touched);
    if !ok {
      return;
    }
    Grows(queue, run, attempt);
    run := run + [attempt];
    if job.Some? || within.None? {
      return;
    }
    // the channel name, and LISTEN
    ok := Listens(s, touched);
    if !ok {
      return;
    }
    ok, job, attempt := s.FetchOne(queue, 0, s.now, touched);
    if !ok {
      return;
    }
    Grows(queue, run, attempt);
    run := run + [attempt];
    if job.Some? {
      return;
    }
    ok, job, run := WaitUntil(s, queue, within.value, run, touched);
  }

  /** The loop of `consume_wait`, after the two fetches before it. */
  method WaitUntil(s: Server, queue: string, within: nat, ghost tries: seq<Attempt>, ghost touched: set<string>)
    returns (ok: bool, job: Option<Id>, ghost run: seq<Attempt>)
    requires s.Valid(touched) && queue in touched
    requires |tries| == 2 && RunOf(queue, tries) && Polls(tries) && AllInVain(tries) && tries[1].at == s.now
    modifies s
    ensures s.Went(touched) && RunOf(queue, run) && Polls(run)
    ensures |run| >= 2 && run[1] == tries[1]
    ensures ok ==> job == run[|run| - 1].claim
    ensures job == None ==> AllInVain(run)
    ensures !ok ==> job == None
    ensures Own(s.log) == Own(old(s.log))
                          + (if job.Some? then [Did(Claim(queue, job.value, run[|run| - 1].at))] else [])
    ensures job.Some? ==> s.now == run[|run| - 1].at
                          && s.db == Tried(run[|run| - 1].seen, Claim(queue, job.value, s.now))
    ensures ok && job == None ==> s.now >= run[1].at + within
    ensures PollTime(|run| - 3 - (old(s.coming) - s.coming)) <= within
  {
    hide RunOf, Polls, Fetches, AllInVain, Sound, Played, Real, Within, Tried, Own;
    run := tries;
    ok, job := true, None;
    LastInVain(run);
    var deadline := s.now + within;
    ghost var idle := 0;
    while s.now < deadline
      invariant s.Went(touched) && Own(s.log) == Own(old(s.log))
      invariant job == None && ok && RunOf(queue, run) && Polls(run) && AllInVain(run)
      invariant |run| >= 2 && run[|run| - 1].claim == None && run[1] == tries[1]
      invariant run[|run| - 1].at == s.now && tries[1].at + within == deadline
      invariant s.coming <= old(s.coming) && idle == |run| - 2 - (old(s.coming) - s.coming)
      invariant if s.now < deadline then PollTime(idle) <= s.now - run[1].at else PollTime(idle - 1) <= within
      decreases deadline - s.now, s.coming
    {
      var wait := Min(deadline - s.now, POLL);
      ghost var coming, before := s.coming, s.now;
      ghost var waited, attempt;
      ok, waited := s.WaitNotification(wait, touched);
      if !ok {
        return;
      }
      ok, job, attempt := s.FetchOne(queue, waited, before, touched);
      if !ok {
        return;
      }
      idle := idle + (if s.coming == coming then 1 else 0);
      Grows(queue, run, attempt);
      run := run + [attempt];
      if job.Some? {
        return;
      }
    }
  }

  lemma LastInVain(run: seq<Attempt>)
    requires AllInVain(run) && run != []
    ensures run[|run| - 1].claim == None
  {
  }

  lemma Nothing(queue: string)
    ensures RunOf(queue, []) && Polls([]) && AllInVain([])
  {
  }

  lemma Grows(queue: string, run: seq<Attempt>, next: Attempt)
    requires RunOf(queue, run) && Polls(run) && AllInVain(run) && Fetches(next, queue) && Sound(next.seen)
    requires next.waited <= (if |run| < 2 then 0 else POLL)
    requires |run| >= 2 ==> next.at == run[|run| - 1].at + next.waited + next.late
    ensures RunOf(queue, run + [next]) && Polls(run + [next])
    ensures next.claim == None ==> AllInVain(run + [next])
  {
    hide Fetches, Sound;
    RunGrows(queue, run, next);
    PollsGrows(run, next);
  }

  /** The two calls that set up the notifications of a queue. */
  method Listens(s: Server, ghost touched: set<string>) returns (ok: bool)
    requires s.Valid(touched)
    modifies s
    ensures s.Went(touched) && Own(s.log) == Own(old(s.log)) && s.coming == old(s.coming)
  {
    var name := s.Call(touched);
    if !name.ok {
      return false;
    }
    var listen := s.Call(touched);
    ok := listen.ok;
  }
}
