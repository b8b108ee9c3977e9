/** The attempt number of a job counts its claims; and the shortest way in which
    an event whose handler always throws ends up dead. */
module Progress {
  import opened Schema
  import opened Honker
  import opened Inbox
  import opened Selection
  import opened Worker
  import opened Protocol
  import opened Invariant
  import opened Steps
  import opened Growth
  import Guarantees
  import Retries

  // ---- the measure ----

  predicate Claims(cfg: Config, s: System, step: Step, j: Id) {
    && step.ClaimJobs? && j in Set(step.ids)
    && Idle(s, step.worker) && |step.ids| <= CLAIM_BATCH && CanClaim(s.db, cfg.queue, s.now, step.ids)
  }

  lemma DispatchKeepsAttempts(db: Db, clock: Clock, hd: Handle, registry: Registry, handler: HandlerResult,
                              durationMs: int, j: Id)
    requires j in db.live && j in Dispatch(db, clock, hd, registry, handler, durationMs).0.live
    ensures Dispatch(db, clock, hd, registry, handler, durationMs).0.live[j].attempts == db.live[j].attempts
  {
  }

  lemma RecordKeepsAttempts(db: Db, clock: Clock, hd: Handle, error: string, maxAttempts: int, durationMs: int, j: Id)
    requires hd.payload.Knocker?
    requires j in db.live && j in RecordFailure(db, clock, hd, error, maxAttempts, durationMs).db.live
    ensures RecordFailure(db, clock, hd, error, maxAttempts, durationMs).db.live[j].attempts == db.live[j].attempts
  {
  }

  ghost predicate SameAttempts(s: System, s': System, j: Id)
    requires j in s.db.live
  {
    j in s'.db.live ==> s'.db.live[j].attempts == s.db.live[j].attempts
  }

  lemma WorkersKeepAttempts(cfg: Config, s: System, step: Step, j: Id)
    requires j in s.db.live && (step.DispatchNext? || step.RecordFailing?)
    ensures SameAttempts(s, Next(cfg, s, step), j)
  {
    var clock, s' := ClockFrom(s.now, step.ticks), Next(cfg, s, step);
    if step.DispatchNext? {
      DispatchIs(cfg, s, step);
      if CanDispatch(s, step.worker) && s'.db != s.db && j in s'.db.live {
        DispatchKeepsAttempts(s.db, clock, s.workers[step.worker].buffer[0],
                              step.registry, step.handler, step.durationMs, j);
      }
    } else {
      RecordIs(cfg, s, step);
      if CanRecord(s, step.worker) && s'.db != s.db && j in s'.db.live {
        var f := s.workers[step.worker].failing.value;
        RecordKeepsAttempts(s.db, clock, f.handle, f.error, cfg.maxAttempts, step.durationMs, j);
      }
    }
  }

  lemma OperatorsKeepAttempts(cfg: Config, s: System, step: Step, j: Id)
    requires FreshIds(s.db) && j in s.db.live && OfOperator(step)
    ensures SameAttempts(s, Next(cfg, s, step), j)
  {
    if step.IgnoreEvent? { IgnoreIs(cfg, s, step); } else { RestartIs(cfg, s, step); }
  }

  lemma RetentionKeepsAttempts(cfg: Config, s: System, step: Step, j: Id)
    requires j in s.db.live && OfRetention(step)
    ensures SameAttempts(s, Next(cfg, s, step), j)
  {
    if step.PruneOldEvents? {
      EventPruneIs(cfg, s, step);
    } else if step.PruneOldOrphans? {
      OrphanPruneIs(cfg, s, step);
    } else {
      PassIs(cfg, s, step);
    }
  }

  lemma ClaimCountsUp(cfg: Config, s: System, step: Step, j: Id)
    requires j in s.db.live && step.ClaimJobs?
    ensures var s' := Next(cfg, s, step);
      j in s'.db.live
      && s'.db.live[j].attempts == s.db.live[j].attempts + (if Claims(cfg, s, step, j) then 1 else 0)
  {
    ClaimIs(cfg, s, step);
  }

  lemma RestKeepAttempts(cfg: Config, s: System, step: Step, j: Id)
    requires FreshIds(s.db) && j in s.db.live && IsWork(cfg, s.db.live[j])
    requires !step.DispatchNext? && !step.RecordFailing? && !step.ClaimJobs?
    requires !OfOperator(step) && !OfRetention(step)
    ensures SameAttempts(s, Next(cfg, s, step), j)
  {
    if step.Receive? { ReceiveIs(cfg, s, step); }
  }

  /** No step lowers a live job's attempt number, and a claim of the job raises
      it by one: max_attempts - attempts decreases on each claim. */
  lemma AttemptsOnlyGrow(cfg: Config, s: System, step: Step, j: Id)
    requires FreshIds(s.db) && j in s.db.live && IsWork(cfg, s.db.live[j])
    requires j in Next(cfg, s, step).db.live
    ensures var s' := Next(cfg, s, step);
      s'.db.live[j].attempts == s.db.live[j].attempts + (if Claims(cfg, s, step, j) then 1 else 0)
  {
    if step.DispatchNext? || step.RecordFailing? {
      WorkersKeepAttempts(cfg, s, step, j);
    } else if step.ClaimJobs? {
      ClaimCountsUp(cfg, s, step, j);
    } else if OfOperator(step) {
      OperatorsKeepAttempts(cfg, s, step, j);
    } else if OfRetention(step) {
      RetentionKeepsAttempts(cfg, s, step, j);
    } else {
      RestKeepAttempts(cfg, s, step, j);
    }
  }

  /** How many steps of the run claim job j. */
  function ClaimsOf(cfg: Config, s: System, steps: seq<Step>, j: Id): nat
    decreases |steps|
  {
    if steps == [] then 0
    else (if Claims(cfg, s, steps[0], j) then 1 else 0) + ClaimsOf(cfg, Next(cfg, s, steps[0]), steps[1..], j)
  }

  /** Over any run that leaves the job queued, its attempt number grows by
      exactly the number of its claims. */
  lemma {:induction false} AttemptsCountClaims(cfg: Config, s: System, steps: seq<Step>, j: Id)
    requires Inv(cfg, s) && j in s.history.enqueued && j in s.db.live
    ensures var live := Run(cfg, s, steps).db.live;
      j in live ==> live[j].attempts == s.db.live[j].attempts + ClaimsOf(cfg, s, steps, j)
    decreases |steps|
  {
    if steps != [] {
      var s1 := Next(cfg, s, steps[0]);
      NextKeepsInv(cfg, s, steps[0]);
      NextGrows(cfg, s, steps[0]);
      if j in s1.db.live {
        AttemptsOnlyGrow(cfg, s, steps[0], j);
        AttemptsCountClaims(cfg, s1, steps[1..], j);
      } else {
        GoneForGood(cfg, s1, steps[1..], j);
      }
    }
  }

  lemma EnqueuedStays(cfg: Config, s: System, steps: seq<Step>, j: Id)
    requires Inv(cfg, s) && j in s.history.enqueued
    ensures var h := Run(cfg, s, steps).history;
      j in h.enqueued && h.enqueued[j] == s.history.enqueued[j]
  {
    RunRemembers(cfg, s, steps);
  }

  lemma LastClaimKills(cfg: Config, s: System, during: seq<Step>, step: Step, j: Id)
    requires Inv(cfg, s) && j in s.history.enqueued && j in s.db.live
    requires Lands(Run(cfg, s, during), step, j)
    requires s.db.live[j].attempts + ClaimsOf(cfg, s, during, j) >= cfg.maxAttempts
    ensures Inv(cfg, Next(cfg, Run(cfg, s, during), step))
    ensures Retries.IsDead(Next(cfg, Run(cfg, s, during), step).db, s.history.enqueued[j].event)
  {
    RunKeepsInv(cfg, s, during);
    EnqueuedStays(cfg, s, during, j);
    AttemptsCountClaims(cfg, s, during, j);
    Retries.LastTryKills(cfg, Run(cfg, s, during), step, j);
    NextKeepsInv(cfg, Run(cfg, s, during), step);
  }

  /** Claims alone bound the life of a job: once it has been claimed max_attempts
      times, even if leases expired or workers were lost, the first failure that
      is recorded in time kills the event, for good if it is left alone. */
  lemma ClaimsBoundLife(cfg: Config, before: seq<Step>, during: seq<Step>, step: Step, after: seq<Step>, j: Id)
    requires var s := Run(cfg, START, before);
      && j in s.history.enqueued && s.history.enqueued[j].Knocker? && j in s.db.live
      && s.db.live[j].attempts + ClaimsOf(cfg, s, during, j) >= cfg.maxAttempts
    requires var s1 := Run(cfg, Run(cfg, START, before), during);
      Lands(s1, step, j)
      && Retries.LeftAlone(cfg, Next(cfg, s1, step), after, Run(cfg, START, before).history.enqueued[j].event)
    ensures var s := Run(cfg, START, before);
      Retries.IsDead(Run(cfg, Next(cfg, Run(cfg, s, during), step), after).db, s.history.enqueued[j].event)
  {
    var s := Run(cfg, START, before);
    StartInv(cfg);
    RunKeepsInv(cfg, START, before);
    LastClaimKills(cfg, s, during, step, j);
    Retries.DeadStays(cfg, Next(cfg, Run(cfg, s, during), step), after, s.history.enqueued[j].event);
  }

  // ---- a handler that always throws ----

  const NO_TICKS := Ticks(0, 0)

  function Throw(w: string, registry: Registry, error: string): Step {
    DispatchNext(w, registry, Threw(error), 0, NO_TICKS)
  }

  function Fail(w: string): Step {
    RecordFailing(w, 0, NO_TICKS)
  }

  /** One attempt: the worker claims the job, the handler throws, the failure is
      recorded. */
  function OneAttempt(w: string, j: Id, registry: Registry, error: string): seq<Step> {
    [ClaimJobs(w, [j]), Throw(w, registry, error), Fail(w)]
  }

  function Rounds(w: string, j: Id, registry: Registry, error: string, n: nat): seq<Step> {
    if n == 0 then [] else OneAttempt(w, j, registry, error) + Rounds(w, j, registry, error, n - 1)
  }

  /** Job j works on pending event e for a registered handler, worker w is idle,
      and nobody holds the job. */
  ghost predicate Ready(cfg: Config, s: System, w: string, j: Id, registry: Registry) {
    && Idle(s, w)
    && j in s.db.live && IsWork(cfg, s.db.live[j]) && Claimable(s.db.live[j], cfg.queue, s.now)
    && s.db.live[j].maxAttempts == cfg.maxAttempts
    && s.db.live[j].payload.event in s.db.events
    && Pending(s.db.events[s.db.live[j].payload.event].status)
    && HandlerEvent(s.db, s.db.live[j].payload).Some?
    && HasHandler(registry, HandlerEvent(s.db, s.db.live[j].payload).value)
  }

  function Left(cfg: Config, job: Job): nat {
    if job.attempts + 1 >= cfg.maxAttempts then 1 else cfg.maxAttempts - job.attempts
  }

  lemma ClaimRound(cfg: Config, s: System, w: string, j: Id, registry: Registry)
    requires Ready(cfg, s, w, j, registry)
    ensures var s' := Next(cfg, s, ClaimJobs(w, [j]));
      var job := ClaimOne(s.db.live[j], w, s.now + cfg.visibility);
      && s'.db == s.db.(live := s.db.live[j := job])
      && s'.now == s.now && s'.history == s.history
      && s'.workers == s.workers[w := WorkerState([Handle(j, w, job.payload, job.attempts)], None)]
  {
    assert Set([j]) == {j};
    assert Handles(ClaimBatch(s.db, w, s.now + cfg.visibility, {j}), w, [j]) ==
      [HandleOf(ClaimBatch(s.db, w, s.now + cfg.visibility, {j}), w, j)];
  }

  lemma RunThree(cfg: Config, s: System, a: Step, b: Step, c: Step)
    ensures Run(cfg, s, [a, b, c]) == Next(cfg, Next(cfg, Next(cfg, s, a), b), c)
  {
    assert [a, b, c][1..] == [b, c];
    assert [b, c][1..] == [c];
    assert Run(cfg, Next(cfg, Next(cfg, s, a), b), [c]) == Next(cfg, Next(cfg, Next(cfg, s, a), b), c);
  }

  /** After the dispatch the worker holds the job, and a failure to record. */
  lemma ThrowRound(cfg: Config, s: System, w: string, j: Id, registry: Registry, error: string)
    requires Ready(cfg, s, w, j, registry)
    ensures var s' := Next(cfg, Next(cfg, s, ClaimJobs(w, [j])), Throw(w, registry, error));
      var job := ClaimOne(s.db.live[j], w, s.now + cfg.visibility);
      var hd := Handle(j, w, job.payload, job.attempts);
      && s' == s.(db := s.db.(live := s.db.live[j := job]),
                  workers := s.workers[w := WorkerState([], Some(Failure(hd, error)))])
      && Holds(s'.db.live, j, w, s'.now)
  {
    var s1 := Next(cfg, s, ClaimJobs(w, [j]));
    ClaimRound(cfg, s, w, j, registry);
    var hd := s1.workers[w].buffer[0];
    assert Dispatch(s1.db, ClockFrom(s1.now, NO_TICKS), hd, registry, Threw(error), 0) == (s1.db, Raised(error));
  }

  /** What the second transaction leaves of the job. */
  function JobAfter(cfg: Config, live: map<Id, Job>, hd: Handle): map<Id, Job>
    requires hd.job in live
  {
    if hd.attempts >= cfg.maxAttempts || live[hd.job].attempts >= live[hd.job].maxAttempts then live - {hd.job}
    else live[hd.job := live[hd.job].(claim := None)]
  }

  lemma FailStep(cfg: Config, s: System, w: string, hd: Handle, error: string)
    requires w in s.workers && s.workers[w] == WorkerState([], Some(Failure(hd, error)))
    requires hd.payload.Knocker? && hd.worker == w && hd.payload.event in s.db.events
    requires Holds(s.db.live, hd.job, w, s.now)
    ensures var s', e := Next(cfg, s, Fail(w)), hd.payload.event;
      && s'.now == s.now && Idle(s', w)
      && s'.db.events == s.db.events[e := s.db.events[e].(
           status := FailureStatus(hd.attempts >= cfg.maxAttempts), attemptCount := hd.attempts,
           lastError := Some(error))]
      && s'.db.live == JobAfter(cfg, s.db.live, hd)
      && s'.db.deliveries == s.db.deliveries && s'.db.nextAttempt == s.db.nextAttempt + 1
  {
    RecordIs(cfg, s, Fail(w));
  }

  /** After the round the event is dead, or failed with its job pending again
      and one attempt fewer left. */
  lemma RoundFails(cfg: Config, s: System, w: string, j: Id, registry: Registry, error: string)
    requires Ready(cfg, s, w, j, registry)
    ensures var s' := Run(cfg, s, OneAttempt(w, j, registry, error));
      var e := s.db.live[j].payload.event;
      && e in s'.db.events && s'.db.events[e].lastError == Some(error)
      && s'.db.nextAttempt == s.db.nextAttempt + 1
      && (if s.db.live[j].attempts + 1 >= cfg.maxAttempts then
            s'.db.events[e].status.Dead? && j !in s'.db.live
          else
            s'.db.events[e].status.Failed? && Ready(cfg, s', w, j, registry)
            && s'.db.live[j].payload == s.db.live[j].payload
            && s'.db.live[j].attempts == s.db.live[j].attempts + 1)
  {
    ThrowRound(cfg, s, w, j, registry, error);
    RunThree(cfg, s, ClaimJobs(w, [j]), Throw(w, registry, error), Fail(w));
    var job := ClaimOne(s.db.live[j], w, s.now + cfg.visibility);
    var s2 := Next(cfg, Next(cfg, s, ClaimJobs(w, [j])), Throw(w, registry, error));
    FailStep(cfg, s2, w, Handle(j, w, job.payload, job.attempts), error);
  }

  /** Ignoring the event between the worker's two transactions is overtaken by
      the second one. */
  lemma IgnoreOvertaken(cfg: Config, s: System, w: string, j: Id, registry: Registry, error: string)
    requires Ready(cfg, s, w, j, registry)
    ensures var e := s.db.live[j].payload.event;
      var before := Run(cfg, s, [ClaimJobs(w, [j]), Throw(w, registry, error), IgnoreEvent(e)]);
      var after := Next(cfg, before, Fail(w));
      && e in before.db.events && before.db.events[e].status.Ignored?
      && e in after.db.events
      && after.db.events[e].status == FailureStatus(s.db.live[j].attempts + 1 >= cfg.maxAttempts)
  {
    var e := s.db.live[j].payload.event;
    ThrowRound(cfg, s, w, j, registry, error);
    var s2 := Next(cfg, Next(cfg, s, ClaimJobs(w, [j])), Throw(w, registry, error));
    RunThree(cfg, s, ClaimJobs(w, [j]), Throw(w, registry, error), IgnoreEvent(e));
    Guarantees.IgnoreEffect(cfg, s2, e);
    FailureRecorded(cfg, Next(cfg, s2, IgnoreEvent(e)), w);
  }

  lemma FailureRecorded(cfg: Config, s: System, w: string)
    requires CanRecord(s, w)
    requires var hd := s.workers[w].failing.value.handle;
      Holds(s.db.live, hd.job, hd.worker, s.now) && hd.payload.event in s.db.events
    ensures var hd := s.workers[w].failing.value.handle;
      var events := Next(cfg, s, Fail(w)).db.events;
      hd.payload.event in events && events[hd.payload.event].status == FailureStatus(hd.attempts >= cfg.maxAttempts)
  {
  }

  lemma {:induction false} RunSplits(cfg: Config, s: System, x: seq<Step>, y: seq<Step>)
    ensures Run(cfg, s, x + y) == Run(cfg, Run(cfg, s, x), y)
    decreases |x|
  {
    if x == [] {
      assert x + y == y;
    } else {
      assert (x + y)[1..] == x[1..] + y;
      RunSplits(cfg, Next(cfg, s, x[0]), x[1..], y);
    }
  }

  /** The shortest run to that end: no more attempts than are left. */
  lemma {:induction false} AlwaysThrowingDies(cfg: Config, s: System, w: string, j: Id, registry: Registry,
                                              error: string)
    requires Ready(cfg, s, w, j, registry)
    ensures var n := Left(cfg, s.db.live[j]);
      var s' := Run(cfg, s, Rounds(w, j, registry, error, n));
      var e := s.db.live[j].payload.event;
      && e in s'.db.events && s'.db.events[e].status.Dead? && s'.db.events[e].lastError == Some(error)
      && j !in s'.db.live
      && s'.db.nextAttempt == s.db.nextAttempt + n
    decreases Left(cfg, s.db.live[j])
  {
    var n := Left(cfg, s.db.live[j]);
    var round := OneAttempt(w, j, registry, error);
    var s' := Run(cfg, s, round);
    RoundFails(cfg, s, w, j, registry, error);
    RunSplits(cfg, s, round, Rounds(w, j, registry, error, n - 1));
    if s.db.live[j].attempts + 1 < cfg.maxAttempts {
      assert Left(cfg, s'.db.live[j]) == n - 1;
      AlwaysThrowingDies(cfg, s', w, j, registry, error);
    }
  }

  lemma RoundLands(cfg: Config, s: System, w: string, j: Id, registry: Registry, error: string)
    requires Ready(cfg, s, w, j, registry)
    ensures Retries.Landings(cfg, s, OneAttempt(w, j, registry, error), j) >= 1
  {
    ThrowRound(cfg, s, w, j, registry, error);
    var s1 := Next(cfg, s, ClaimJobs(w, [j]));
    var s2 := Next(cfg, s1, Throw(w, registry, error));
    assert Lands(s2, Fail(w), j);
    assert OneAttempt(w, j, registry, error)[1..] == [Throw(w, registry, error), Fail(w)];
    assert [Throw(w, registry, error), Fail(w)][1..] == [Fail(w)];
    assert Retries.Landings(cfg, s2, [Fail(w)], j) >= 1;
    assert Retries.Landings(cfg, s1, [Throw(w, registry, error), Fail(w)], j) >= 1;
  }

  /** Each of those attempts is a failure recorded in time. */
  lemma {:induction false} RoundsLand(cfg: Config, s: System, w: string, j: Id, registry: Registry, error: string)
    requires Ready(cfg, s, w, j, registry)
    ensures var n := Left(cfg, s.db.live[j]);
      Retries.Landings(cfg, s, Rounds(w, j, registry, error, n), j) >= n
    decreases Left(cfg, s.db.live[j])
  {
    var n := Left(cfg, s.db.live[j]);
    var round, rest := OneAttempt(w, j, registry, error), Rounds(w, j, registry, error, n - 1);
    var s' := Run(cfg, s, round);
    RoundFails(cfg, s, w, j, registry, error);
    RoundLands(cfg, s, w, j, registry, error);
    Retries.LandingsSplit(cfg, s, round, rest, j);
    if s.db.live[j].attempts + 1 < cfg.maxAttempts {
      assert Left(cfg, s'.db.live[j]) == n - 1;
      RoundsLand(cfg, s', w, j, registry, error);
    }
  }

  /** In a reachable state, a pending event's unheld job is all it takes. */
  lemma PendingIsReady(cfg: Config, steps: seq<Step>, w: string, j: Id, registry: Registry)
    requires var s := Run(cfg, START, steps);
      && Idle(s, w) && j in s.db.live && IsWork(cfg, s.db.live[j]) && Claimable(s.db.live[j], cfg.queue, s.now)
    requires var s := Run(cfg, START, steps);
      && s.db.live[j].payload.event in s.db.events
      && Pending(s.db.events[s.db.live[j].payload.event].status)
      && (HandlerEvent(s.db, s.db.live[j].payload).Some? ==>
            HasHandler(registry, HandlerEvent(s.db, s.db.live[j].payload).value))
    ensures Ready(cfg, Run(cfg, START, steps), w, j, registry)
  {
    var s := Run(cfg, START, steps);
    ReachableJob(cfg, steps, j);
    Guarantees.ReplayNeverDangles(cfg, steps, j);
  }

  /** There is such a state: an accepted request of an endpoint with a handler
      for all of its events. */
  lemma ReceivedIsReady(cfg: Config, inb: Inbound, ticks: Ticks, w: string, registry: Registry)
    requires !Rejected(inb.signatureValid) && (inb.endpoint, None) in registry
    ensures var s := Run(cfg, START, [ConfigureEndpoint(inb.endpoint, true), Receive(inb, ticks)]);
      Ready(cfg, s, w, START.db.nextJob, registry)
  {
    var s1 := Next(cfg, START, ConfigureEndpoint(inb.endpoint, true));
    var steps := [ConfigureEndpoint(inb.endpoint, true), Receive(inb, ticks)];
    assert steps[1..] == [Receive(inb, ticks)];
    assert Run(cfg, START, steps) == Run(cfg, s1, [Receive(inb, ticks)]);
    assert [Receive(inb, ticks)][1..] == [];
    ReceiveIs(cfg, s1, Receive(inb, ticks));
    FoundEvent(s1.db, inb.endpoint, ChosenKey(inb));
  }

  lemma ReachableJob(cfg: Config, steps: seq<Step>, j: Id)
    requires var s := Run(cfg, START, steps); j in s.db.live && IsWork(cfg, s.db.live[j])
    ensures var s := Run(cfg, START, steps);
      s.db.live[j].maxAttempts == cfg.maxAttempts
      && j in s.history.enqueued && s.history.enqueued[j] == s.db.live[j].payload
  {
    var s := Run(cfg, START, steps);
    ReachableQueue(cfg, steps);
    assert JobInOrder(cfg, s.db.events, s.db.live[j], j, s.history.enqueued, s.history.latest);
  }
}
