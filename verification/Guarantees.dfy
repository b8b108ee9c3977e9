/** What Knocker promises, for every interleaving of every process. */
module Guarantees {
  import opened Schema
  import opened Honker
  import opened Inbox
  import opened Retention
  import opened Selection
  import opened Worker
  import opened Protocol
  import opened Invariant
  import opened Preservation
  import opened Steps
  import opened Growth
  import RetentionLaws

  // ---- work is conserved ----

  /** How many live jobs an event of each status has. */
  predicate Conserved(status: Status, jobs: nat) {
    match status
    case Received => jobs == 1
    case Failed => jobs == 1
    case Handled => jobs == 0
    case Dead => jobs == 0
    case Ignored => jobs <= 1
    case Processing => false
  }

  lemma JobsOfEvent(cfg: Config, events: Events, live: Live, enqueued: map<Id, Payload>, latest: Ids, e: Id)
    requires WorkOk(cfg, events, live, enqueued, latest) && e in events
    ensures Conserved(events[e].status, |JobsFor(live, cfg.queue, {e})|)
  {
    var jobs := JobsFor(live, cfg.queue, {e});
    assert EventHasWork(cfg, events, live, latest, e);
    forall j | j in jobs ensures j == latest[e] && Workable(events[e].status) {
      assert JobInOrder(cfg, events, live[j], j, enqueued, latest);
    }
    if jobs != {} {
      var j :| j in jobs;
      assert jobs == {latest[e]};
    }
    assert Pending(events[e].status) ==> latest[e] in jobs;
  }

  lemma WorkConservation(cfg: Config, steps: seq<Step>)
    ensures var db := Run(cfg, START, steps).db;
      && (forall e | e in db.events :: Conserved(db.events[e].status, |JobsFor(db.live, cfg.queue, {e})|))
      && (forall j | j in db.live && IsWork(cfg, db.live[j]) :: db.live[j].payload.event in db.events)
  {
    var s := Run(cfg, START, steps);
    ReachableQueue(cfg, steps);
    forall e | e in s.db.events ensures Conserved(s.db.events[e].status, |JobsFor(s.db.live, cfg.queue, {e})|) {
      JobsOfEvent(cfg, s.db.events, s.db.live, s.history.enqueued, s.history.latest, e);
    }
  }

  // ---- handled and dead events are out of the workers' reach ----

  /** The steps that are allowed to change or remove a handled or dead event. */
  predicate Overrides(s: System, step: Step, e: Id)
    requires e in s.db.events
  {
    var status := s.db.events[e].status;
    match step
    case ReplayEvent(f) => f == e
    case ReplayOneDelivery(d) => d in s.db.deliveries && s.db.deliveries[d].event == Some(e)
    case RequeueEvent(f) => f == e && status.Dead?
    case IgnoreEvent(f) => f == e && status.Dead?
    case PruneOldEvents(statuses, olderThan, _) => status.Handled? && e in EligibleEvents(s.db, statuses, olderThan)
    case RunRetention(p, _, _) =>
      status.Handled? && p.eventCutoff.Some? && e in EligibleEvents(s.db, p.statuses, p.eventCutoff.value)
    case _ => false
  }

  predicate Keeps(s: System, s': System, e: Id)
    requires e in s.db.events
  {
    e in s'.db.events && s'.db.events[e] == s.db.events[e]
  }

  lemma DispatchKeepsFinal(cfg: Config, s: System, step: Step, e: Id)
    requires QueueInv(cfg, s) && e in s.db.events && Final(s.db.events[e].status)
    requires step.DispatchNext?
    ensures Keeps(s, Next(cfg, s, step), e)
  {
    DispatchIs(cfg, s, step);
    var w := step.worker;
    if CanDispatch(s, w) {
      var hd := s.workers[w].buffer[0];
      assert HandleOk(s.db.live, s.history.enqueued, w, hd);
      if Settles(EndOf(s, w, step.registry, step.handler, step.durationMs, step.ticks)) {
        var _, _, _ := DispatchSettles(cfg, s, w, step.registry, step.handler, step.durationMs, step.ticks);
        HeldJob(cfg, s, w, hd, ClockFrom(s.now, step.ticks).last);
      } else {
        DispatchDrains(cfg, s, w, step.registry, step.handler, step.durationMs, step.ticks);
      }
    }
  }

  lemma RecordKeepsFinal(cfg: Config, s: System, step: Step, e: Id)
    requires QueueInv(cfg, s) && e in s.db.events && Final(s.db.events[e].status)
    requires step.RecordFailing?
    ensures Keeps(s, Next(cfg, s, step), e)
  {
    RecordIs(cfg, s, step);
    var w := step.worker;
    if Records(cfg, s, w, step.durationMs, step.ticks) {
      var _, _, _ := RecordSettles(cfg, s, w, step.durationMs, step.ticks);
      HeldJob(cfg, s, w, s.workers[w].failing.value.handle, ClockFrom(s.now, step.ticks).last);
    }
  }

  lemma RestartKeepsOthers(cfg: Config, s: System, p: Payload, e: Id)
    requires p.Knocker? && e in s.db.events && e != p.event
    ensures Keeps(s, Restarted(cfg, s, p), e)
  {
  }

  /** A replay, requeue or replay_delivery changes no other event. */
  lemma OperatorsKeepOthers(cfg: Config, s: System, step: Step, e: Id)
    requires e in s.db.events && Final(s.db.events[e].status) && OfOperator(step)
    ensures Keeps(s, Next(cfg, s, step), e) || Overrides(s, step, e)
  {
    if step.IgnoreEvent? {
      IgnoreEffect(cfg, s, step.event);
    } else {
      RestartIs(cfg, s, step);
      var p := RestartPayload(s.db, step);
      if p.Some? && p.value.event != e { RestartKeepsOthers(cfg, s, p.value, e); }
    }
  }

  lemma PrunesKeepIneligible(db: Db, now: int, statuses: seq<Status>, olderThan: int, limit: int, queue: string, e: Id)
    requires e in db.events && !(Prunable(db.events[e].status) && e in EligibleEvents(db, statuses, olderThan))
    ensures var db' := PruneEvents(db, now, statuses, olderThan, limit, queue).db;
      e in db'.events && db'.events[e] == db.events[e]
  {
    if PruneEvents(db, now, statuses, olderThan, limit, queue).result.Ok? {
      TakeMeets(EventTimes(db), EligibleEvents(db, statuses, olderThan), limit);
      assert e !in EligibleEvents(db, statuses, olderThan);
    }
  }

  lemma FinalEventsStay(cfg: Config, steps: seq<Step>, step: Step, e: Id)
    requires var s := Run(cfg, START, steps); e in s.db.events && Final(s.db.events[e].status)
    ensures var s := Run(cfg, START, steps); Keeps(s, Next(cfg, s, step), e) || Overrides(s, step, e)
  {
    var s := Run(cfg, START, steps);
    ReachableQueue(cfg, steps);
    ReachableFresh(cfg, steps);
    NextKeepsFinal(cfg, s, step, e);
  }

  lemma NextKeepsFinal(cfg: Config, s: System, step: Step, e: Id)
    requires Fresh(s) && QueueInv(cfg, s) && e in s.db.events && Final(s.db.events[e].status)
    ensures Keeps(s, Next(cfg, s, step), e) || Overrides(s, step, e)
  {
    if step.DispatchNext? {
      DispatchKeepsFinal(cfg, s, step, e);
    } else if step.RecordFailing? {
      RecordKeepsFinal(cfg, s, step, e);
    } else if OfOperator(step) {
      OperatorsKeepOthers(cfg, s, step, e);
    } else {
      RestKeepsFinal(cfg, s, step, e);
    }
  }

  lemma RestKeepsFinal(cfg: Config, s: System, step: Step, e: Id)
    requires FreshIds(s.db) && e in s.db.events && Final(s.db.events[e].status)
    requires !step.DispatchNext? && !step.RecordFailing? && !OfOperator(step)
    ensures Keeps(s, Next(cfg, s, step), e) || Overrides(s, step, e)
  {
    if step.PruneOldEvents? {
      EventPruneIs(cfg, s, step);
      if !Overrides(s, step, e) {
        PrunesKeepIneligible(s.db, s.now, step.statuses, step.olderThan, step.limit, cfg.queue, e);
      }
    } else if step.PruneOldOrphans? {
      OrphanPruneIs(cfg, s, step);
    } else if step.RunRetention? {
      PassIs(cfg, s, step);
      var p := step.policy;
      if p.eventCutoff.Some? && !Overrides(s, step, e) {
        PrunesKeepIneligible(s.db, s.now, p.statuses, p.eventCutoff.value, p.eventLimit, cfg.queue, e);
      }
    } else {
      RestKeepsEvents(cfg, s, step, e);
    }
  }

  lemma RestKeepsEvents(cfg: Config, s: System, step: Step, e: Id)
    requires FreshIds(s.db) && e in s.db.events
    requires !step.DispatchNext? && !step.RecordFailing? && !OfOperator(step) && !OfRetention(step)
    ensures Keeps(s, Next(cfg, s, step), e)
  {
    if step.Receive? {
      ReceiveIs(cfg, s, step);
    } else if step.ClaimJobs? {
      ClaimIs(cfg, s, step);
    }
  }

  // ---- ignoring, which does not call back a failure under way ----

  /** An event that may be ignored is, with one row to tell so; its job, if any,
      stays where it is. Ignoring any other event changes nothing. */
  lemma IgnoreEffect(cfg: Config, s: System, e: Id)
    ensures var s' := Next(cfg, s, IgnoreEvent(e));
      if !Ignorable(s.db, e) then s' == s
      else
        && s'.db.events == s.db.events[e := s.db.events[e].(status := Ignored, lastError := None)]
        && s'.db.attempts == s.db.attempts[s.db.nextAttempt := Attempt(e, s.now, Ignored, None, 0)]
        && s'.db.live == s.db.live && s'.workers == s.workers && s'.now == s.now && s'.db.app == s.db.app
  {
    IgnoreIs(cfg, s, IgnoreEvent(e));
    if Ignorable(s.db, e) {
      var _, _ := IgnoreMarks(s, e);
    }
  }

  /** The step records a failure of this event under a claim that still
      stands. */
  predicate FailureLands(s: System, step: Step, e: Id) {
    && step.RecordFailing? && CanRecord(s, step.worker)
    && var hd := s.workers[step.worker].failing.value.handle;
    && hd.payload.event == e && Lands(s, step, hd.job)
  }

  lemma DispatchKeepsIgnored(cfg: Config, s: System, step: Step, e: Id)
    requires QueueInv(cfg, s) && e in s.db.events && s.db.events[e].status.Ignored? && step.DispatchNext?
    ensures Keeps(s, Next(cfg, s, step), e)
  {
    DispatchIs(cfg, s, step);
    var w := step.worker;
    if CanDispatch(s, w) {
      if Settles(EndOf(s, w, step.registry, step.handler, step.durationMs, step.ticks)) {
        var _, _, r := DispatchSettles(cfg, s, w, step.registry, step.handler, step.durationMs, step.ticks);
        assert r.event != e;
      } else {
        DispatchDrains(cfg, s, w, step.registry, step.handler, step.durationMs, step.ticks);
      }
    }
  }

  lemma RecordMeetsIgnored(cfg: Config, s: System, step: Step, e: Id)
    requires QueueInv(cfg, s) && e in s.db.events && s.db.events[e].status.Ignored? && step.RecordFailing?
    ensures Keeps(s, Next(cfg, s, step), e) <==> !FailureLands(s, step, e)
  {
    RecordIs(cfg, s, step);
    var w := step.worker;
    if Records(cfg, s, w, step.durationMs, step.ticks) {
      var _, _, r := RecordSettles(cfg, s, w, step.durationMs, step.ticks);
    }
  }

  /** Short of an operator or a prune, an ignored event stays as it is unless
      exactly such a failure record arrives. */
  lemma IgnoredStays(cfg: Config, steps: seq<Step>, step: Step, e: Id)
    requires var s := Run(cfg, START, steps); e in s.db.events && s.db.events[e].status.Ignored?
    requires !OfOperator(step) && !OfRetention(step)
    ensures var s := Run(cfg, START, steps); Keeps(s, Next(cfg, s, step), e) <==> !FailureLands(s, step, e)
  {
    var s := Run(cfg, START, steps);
    ReachableQueue(cfg, steps);
    ReachableFresh(cfg, steps);
    if step.DispatchNext? {
      DispatchKeepsIgnored(cfg, s, step, e);
    } else if step.RecordFailing? {
      RecordMeetsIgnored(cfg, s, step, e);
    } else {
      RestKeepsEvents(cfg, s, step, e);
    }
  }

  // ---- a handler's writes are committed once per job ----

  /** The application's table grows only by a whole batch of a handler's
      writes, and then the same transaction adds one handled attempt row, marks
      the event handled and takes that job out of the queue. */
  ghost predicate CommitsBatch(s: System, s': System, step: Step) {
    && step.DispatchNext? && CanDispatch(s, step.worker) && step.handler.Returned?
    && var hd := s.workers[step.worker].buffer[0];
    && hd.payload.Knocker?
    && s'.db.app == s.db.app + step.handler.writes
    && s'.history.commits == s.history.commits + [s.db.nextAttempt]
    && hd.job in s.db.live && s'.db.live == s.db.live - {hd.job}
    && hd.payload.event in s'.db.events && s'.db.events[hd.payload.event].status.Handled?
    && s'.db.attempts.Keys == s.db.attempts.Keys + {s.db.nextAttempt}
    && s'.db.attempts[s.db.nextAttempt].event == hd.payload.event
    && s'.db.attempts[s.db.nextAttempt].outcome.Handled?
    && s.db.nextAttempt in s'.history.records
    && s'.history.records[s.db.nextAttempt] ==
         Record(hd.job, hd.payload.event, hd.attempts, Handled, step.handler.writes)
  }

  lemma DispatchCommits(cfg: Config, s: System, step: Step)
    requires step.DispatchNext?
    ensures CommitsNothing(s, Next(cfg, s, step)) || CommitsBatch(s, Next(cfg, s, step), step)
  {
    DispatchIs(cfg, s, step);
    if CanDispatch(s, step.worker)
      && EndOf(s, step.worker, step.registry, step.handler, step.durationMs, step.ticks).Completed?
    {
      var _, _, _ := DispatchSettles(cfg, s, step.worker, step.registry, step.handler, step.durationMs, step.ticks);
    }
  }

  predicate CommitsNothing(s: System, s': System) {
    s'.db.app == s.db.app && s'.history.commits == s.history.commits
  }

  lemma OperatorsCommitNothing(cfg: Config, s: System, step: Step)
    requires OfOperator(step)
    ensures CommitsNothing(s, Next(cfg, s, step))
  {
    if step.IgnoreEvent? { IgnoreIs(cfg, s, step); } else { RestartIs(cfg, s, step); }
  }

  lemma RetentionCommitsNothing(cfg: Config, s: System, step: Step)
    requires OfRetention(step)
    ensures CommitsNothing(s, Next(cfg, s, step))
  {
    if step.PruneOldEvents? {
      EventPruneIs(cfg, s, step);
    } else if step.PruneOldOrphans? {
      OrphanPruneIs(cfg, s, step);
    } else {
      PassIs(cfg, s, step);
    }
  }

  lemma RestCommitsNothing(cfg: Config, s: System, step: Step)
    requires !step.DispatchNext? && !OfOperator(step) && !OfRetention(step)
    ensures CommitsNothing(s, Next(cfg, s, step))
  {
    if step.Receive? {
      ReceiveIs(cfg, s, step);
    } else if step.RecordFailing? {
      RecordIs(cfg, s, step);
    } else if step.ClaimJobs? {
      ClaimIs(cfg, s, step);
    }
  }

  lemma WritesCommitTogether(cfg: Config, s: System, step: Step)
    ensures CommitsNothing(s, Next(cfg, s, step)) || CommitsBatch(s, Next(cfg, s, step), step)
  {
    if step.DispatchNext? {
      DispatchCommits(cfg, s, step);
    } else if OfOperator(step) {
      OperatorsCommitNothing(cfg, s, step);
    } else if OfRetention(step) {
      RetentionCommitsNothing(cfg, s, step);
    } else {
      RestCommitsNothing(cfg, s, step);
    }
  }

  /** The committed batches of one event. */
  function BatchesOf(records: map<Id, Record>, commits: seq<Id>, e: Id): nat
    requires forall a | a in commits :: a in records
  {
    if commits == [] then 0
    else
      var last := |commits| - 1;
      BatchesOf(records, commits[..last], e) + (if records[commits[last]].event == e then 1 else 0)
  }

  function JobsOfBatches(records: map<Id, Record>, commits: seq<Id>, e: Id): set<Id>
    requires forall a | a in commits :: a in records
  {
    set a | a in commits && records[a].event == e :: records[a].job
  }

  predicate OwnJobs(records: map<Id, Record>, commits: seq<Id>) {
    && (forall i | 0 <= i < |commits| :: commits[i] in records)
    && (forall i, k | 0 <= i < k < |commits| :: records[commits[i]].job != records[commits[k]].job)
  }

  lemma CommitsHaveOwnJobs(cfg: Config, live: Live, enqueued: map<Id, Payload>, app: seq<string>,
                           records: map<Id, Record>, commits: seq<Id>)
    requires RecordsOk(cfg, live, enqueued, records) && CommitsOk(app, records, commits)
    ensures OwnJobs(records, commits)
  {
    forall i, k | 0 <= i < k < |commits| ensures records[commits[i]].job != records[commits[k]].job {
      assert !Clash(records[commits[i]], records[commits[k]]);
    }
  }

  lemma {:induction false} BatchesAreJobs(records: map<Id, Record>, commits: seq<Id>, e: Id)
    requires OwnJobs(records, commits)
    ensures BatchesOf(records, commits, e) == |JobsOfBatches(records, commits, e)|
    decreases |commits|
  {
    if commits != [] {
      BatchesAreJobs(records, commits[..|commits| - 1], e);
      LastBatchJob(records, commits, e);
    }
  }

  lemma LastBatchJob(records: map<Id, Record>, commits: seq<Id>, e: Id)
    requires OwnJobs(records, commits) && commits != []
    ensures var a, rest := commits[|commits| - 1], commits[..|commits| - 1];
      |JobsOfBatches(records, commits, e)| ==
      |JobsOfBatches(records, rest, e)| + if records[a].event == e then 1 else 0
  {
    var a, rest := commits[|commits| - 1], commits[..|commits| - 1];
    var earlier := JobsOfBatches(records, rest, e);
    assert forall b :: b in commits <==> b in rest || b == a;
    assert records[a].job !in earlier;
    assert JobsOfBatches(records, commits, e) == earlier + if records[a].event == e then {records[a].job} else {};
  }

  lemma BatchesWithinEnqueues(cfg: Config, live: Live, enqueued: map<Id, Payload>, app: seq<string>,
                              records: map<Id, Record>, commits: seq<Id>, e: Id)
    requires RecordsOk(cfg, live, enqueued, records) && CommitsOk(app, records, commits)
    ensures (forall a | a in commits :: a in records) && app == Written(records, commits)
    ensures BatchesOf(records, commits, e) <= |JobsEnqueued(enqueued, e)|
  {
    CommitsHaveOwnJobs(cfg, live, enqueued, app, records, commits);
    BatchesAreJobs(records, commits, e);
    var jobs := JobsOfBatches(records, commits, e);
    forall j | j in jobs ensures j in JobsEnqueued(enqueued, e) {
      var a :| a in commits && records[a].event == e && records[a].job == j;
      assert RecordOk(cfg, live, enqueued, records[a]);
    }
    SubsetSize(jobs, JobsEnqueued(enqueued, e));
  }

  /** Over any run: each job that ended as handled has its batch in the
      application's table, once and in order, and nothing else is there; an
      event has at most as many batches as jobs were enqueued for it. */
  lemma EffectsCommitOnce(cfg: Config, steps: seq<Step>, e: Id)
    ensures var s := Run(cfg, START, steps);
      && (forall a :: a in s.history.commits <==> a in s.history.records && s.history.records[a].outcome.Handled?)
      && (forall i, k | 0 <= i < k < |s.history.commits| :: s.history.commits[i] != s.history.commits[k])
      && s.db.app == Written(s.history.records, s.history.commits)
      && BatchesOf(s.history.records, s.history.commits, e) <= |JobsEnqueued(s.history.enqueued, e)|
  {
    var s := Run(cfg, START, steps);
    ReachableQueue(cfg, steps);
    ReachableHistory(cfg, steps);
    var h := s.history;
    BatchesWithinEnqueues(cfg, s.db.live, h.enqueued, s.db.app, h.records, h.commits, e);
  }

  // ---- what the workers wrote ----

  /** The workers' records are the attempt rows: as long as an event exists, its
      rows other than operators' ignores are exactly its records. */
  lemma RecordsAreRows(cfg: Config, steps: seq<Step>, e: Id)
    requires e in Run(cfg, START, steps).db.events
    ensures var s := Run(cfg, START, steps);
      (set a | a in s.db.attempts && s.db.attempts[a].event == e && !s.db.attempts[a].outcome.Ignored?) ==
      (set a | a in s.history.records && s.history.records[a].event == e)
    ensures var s := Run(cfg, START, steps);
      forall a | a in s.history.records && s.history.records[a].event == e ::
        a in s.db.attempts && s.db.attempts[a].outcome == s.history.records[a].outcome
  {
    var s := Run(cfg, START, steps);
    ReachableQueue(cfg, steps);
    ReachableHistory(cfg, steps);
    RecordRows(cfg, s, e);
  }

  lemma RecordRows(cfg: Config, s: System, e: Id)
    requires RowsOk(s.db.events, s.db.attempts, s.history.records) && e in s.db.events
    requires RecordsOk(cfg, s.db.live, s.history.enqueued, s.history.records)
    ensures (set a | a in s.db.attempts && s.db.attempts[a].event == e && !s.db.attempts[a].outcome.Ignored?) ==
            (set a | a in s.history.records && s.history.records[a].event == e)
    ensures forall a | a in s.history.records && s.history.records[a].event == e ::
      a in s.db.attempts && s.db.attempts[a].outcome == s.history.records[a].outcome
  {
    forall a | a in s.history.records
      ensures RecordOk(cfg, s.db.live, s.history.enqueued, s.history.records[a])
    {}
  }

  // ---- deliveries ----

  /** The deliveries linked to an event. */
  function LinkedTo(db: Db, e: Id): set<Id> {
    set d | d in db.deliveries && db.deliveries[d].event == Some(e)
  }

  /** c is the lowest-id delivery of e and holds the request stored in e; all
      of e's deliveries share its endpoint and key; without a key there is
      only c. */
  ghost predicate IsCanonical(db: Db, e: Id, c: Id)
    requires e in db.events
  {
    && c in LinkedTo(db, e)
    && db.deliveries[c].request == db.events[e].request
    && db.events[e].receivedAt <= db.deliveries[c].receivedAt
    && (forall d | d in LinkedTo(db, e) ::
          c <= d && db.deliveries[d].endpoint == db.events[e].endpoint
          && db.deliveries[d].dedupeKey == db.events[e].dedupeKey)
    && (db.events[e].dedupeKey.None? ==> LinkedTo(db, e) == {c})
  }

  lemma CanonicalDelivery(db: Db, canonical: Ids, e: Id)
    requires LinksOk(db.events, db.deliveries, canonical) && e in db.events
    ensures e in canonical && IsCanonical(db, e, canonical[e])
  {
    assert CanonicalOk(db.events[e], db.deliveries, canonical, e);
    forall d | d in LinkedTo(db, e) ensures LinkOk(db.events, db.deliveries[d], d, canonical, e) {}
  }

  lemma CanonicalPayload(cfg: Config, steps: seq<Step>)
    ensures var db := Run(cfg, START, steps).db;
      && (forall e | e in db.events :: exists c :: IsCanonical(db, e, c))
      && (forall d | d in db.deliveries :: db.deliveries[d].event.None? <==> db.deliveries[d].signatureValid == Some(0))
      && (forall e, f | e in db.events && f in db.events && e != f && db.events[e].dedupeKey.Some?
            && db.events[e].endpoint == db.events[f].endpoint :: db.events[e].dedupeKey != db.events[f].dedupeKey)
  {
    var s := Run(cfg, START, steps);
    ReachableLinks(cfg, steps);
    forall e | e in s.db.events ensures exists c :: IsCanonical(s.db, e, c) {
      CanonicalDelivery(s.db, s.history.canonical, e);
    }
    assert forall d | d in s.db.deliveries ::
      s.db.deliveries[d].event.None? <==> Rejected(s.db.deliveries[d].signatureValid);
  }

  /** Every job ever enqueued with a delivery still finds it linked to its
      event, with the event's endpoint, for as long as the event exists: the
      two RuntimeErrors of dispatch are out of reach. */
  lemma ReplayNeverDangles(cfg: Config, steps: seq<Step>, j: Id)
    requires j in Run(cfg, START, steps).history.enqueued
    ensures var s := Run(cfg, START, steps);
      var p := s.history.enqueued[j];
      p.Knocker? && (p.event in s.db.events ==>
        HandlerEvent(s.db, p).Some? && HandlerEvent(s.db, p).value.endpoint == s.db.events[p.event].endpoint)
  {
    var s := Run(cfg, START, steps);
    ReachableLinks(cfg, steps);
    HandlerFound(s, j);
  }

  lemma HandlerFound(s: System, j: Id)
    requires LinkInv(s) && j in s.history.enqueued
    ensures var p := s.history.enqueued[j];
      p.Knocker? && (p.event in s.db.events ==>
        HandlerEvent(s.db, p).Some? && HandlerEvent(s.db, p).value.endpoint == s.db.events[p.event].endpoint)
  {
    var p := s.history.enqueued[j];
    assert ReplayLink(s.db.events, s.db.deliveries, p);
    if p.event in s.db.events && p.delivery.Some? {
      var d := p.delivery.value;
      assert LinkOk(s.db.events, s.db.deliveries[d], d, s.history.canonical, p.event);
    }
  }

  /** So a handle, however stale, never makes dispatch raise one of them. */
  lemma DispatchNeverMisses(cfg: Config, steps: seq<Step>, w: string, registry: Registry, handler: HandlerResult,
                            durationMs: int, ticks: Ticks)
    requires CanDispatch(Run(cfg, START, steps), w) && handler != Threw(BAD_LINK)
    ensures EndOf(Run(cfg, START, steps), w, registry, handler, durationMs, ticks) != Raised(BAD_LINK)
  {
    var s := Run(cfg, START, steps);
    ReachableQueue(cfg, steps);
    ReachableLinks(cfg, steps);
    var hd := s.workers[w].buffer[0];
    assert HandleOk(s.db.live, s.history.enqueued, w, hd);
    if hd.payload.Knocker? { HandlerFound(s, hd.job); }
  }

  // ---- columns and history ----

  function RowsOf(db: Db, e: Id): set<Id> {
    set a | a in db.attempts && db.attempts[a].event == e
  }

  /** a is the newest of e's rows, and tells e's status, last_error and
      handled_at. */
  ghost predicate TellsNow(db: Db, e: Id, a: Id)
    requires e in db.events
  {
    a in RowsOf(db, e) && Told(db.events[e], db.attempts[a]) && forall b | b in RowsOf(db, e) :: b <= a
  }

  lemma NewestRow(s: System, e: Id)
    requires AttemptsOk(s.db.events, s.db.attempts, s.history.newest)
    requires e in s.db.events && !s.db.events[e].status.Received?
    ensures e in s.history.newest && TellsNow(s.db, e, s.history.newest[e])
  {
    assert EventTold(s.db.events[e], s.db.attempts, s.history.newest, e);
  }

  /** A received event has no error, no handled_at and no attempts; any other is
      told by its newest row. */
  lemma StatusTold(cfg: Config, steps: seq<Step>, e: Id)
    requires e in Run(cfg, START, steps).db.events
    ensures var db := Run(cfg, START, steps).db;
      if db.events[e].status.Received? then Untold(db.events[e]) else exists a :: TellsNow(db, e, a)
  {
    var s := Run(cfg, START, steps);
    ReachableHistory(cfg, steps);
    if s.db.events[e].status.Received? {
      assert EventTold(s.db.events[e], s.db.attempts, s.history.newest, e);
    } else {
      NewestRow(s, e);
    }
  }

  /** attempt_count is the number of the claim that the newest row of a handled,
      failed or dead event was written under. */
  lemma AttemptCountTold(cfg: Config, steps: seq<Step>, e: Id)
    requires var db := Run(cfg, START, steps).db;
      e in db.events && (Final(db.events[e].status) || db.events[e].status.Failed?)
    ensures var s := Run(cfg, START, steps);
      exists a :: TellsNow(s.db, e, a) && a in s.history.records
                  && s.history.records[a].claim == s.db.events[e].attemptCount
  {
    var s := Run(cfg, START, steps);
    ReachableHistory(cfg, steps);
    NewestRow(s, e);
    assert CountOk(s.db.events[e], s.history.records, s.history.newest, e);
  }

  // ---- replay ----

  /** The event is as new, its only job is a fresh one with this payload, and
      the handler will be given the event, with the chosen delivery's request
      if there is one. */
  predicate StartedOver(cfg: Config, db: Db, db': Db, p: Payload) {
    && p.Knocker? && p.event in db'.events && p.event in db.events
    && db'.events[p.event].status.Received? && Untold(db'.events[p.event])
    && SameIdentity(db.events[p.event], db'.events[p.event])
    && JobsFor(db'.live, cfg.queue, {p.event}) == {db.nextJob}
    && db.nextJob in db'.live && db'.live[db.nextJob] == Job(cfg.queue, p, cfg.maxAttempts, 0, None)
    && var target := HandlerEvent(db', p);
    && target.Some?
    && target.value.request ==
         (if p.delivery.Some? && p.delivery.value in db.deliveries then db.deliveries[p.delivery.value].request
          else db.events[p.event].request)
  }

  lemma RestartStartsOver(cfg: Config, s: System, p: Payload)
    requires p.Knocker? && FreshIds(s.db) && Restarts(cfg, s, Restart(s.db, p.event, p, cfg.queue, cfg.maxAttempts), p)
    ensures StartedOver(cfg, s.db, Restarted(cfg, s, p).db, p)
  {
    var db' := Restarted(cfg, s, p).db;
    var jobs := JobsFor(db'.live, cfg.queue, {p.event});
    assert jobs == {s.db.nextJob};
  }

  lemma ReplaysStartOver(cfg: Config, s: System, step: Step)
    requires FreshIds(s.db) && OfRestart(step)
    ensures var s', p := Next(cfg, s, step), RestartPayload(s.db, step);
      if p.Some? then StartedOver(cfg, s.db, s'.db, p.value) else s' == s
  {
    RestartIs(cfg, s, step);
    if RestartPayload(s.db, step).Some? {
      RestartLinks(cfg, s, step);
      RestartStartsOver(cfg, s, RestartPayload(s.db, step).value);
    }
  }

  /** A handle that worker w has in memory. */
  predicate InHand(s: System, w: string, hd: Handle) {
    && w in s.workers
    && (hd in s.workers[w].buffer || (s.workers[w].failing.Some? && s.workers[w].failing.value.handle == hd))
  }

  lemma RestartDrops(cfg: Config, s: System, p: Payload, w: string, hd: Handle)
    requires p.Knocker? && Fresh(s) && Restarts(cfg, s, Restart(s.db, p.event, p, cfg.queue, cfg.maxAttempts), p)
    requires WorkOk(cfg, s.db.events, s.db.live, s.history.enqueued, s.history.latest)
    requires HandleOk(s.db.live, s.history.enqueued, w, hd) && hd.payload.Knocker? && hd.payload.event == p.event
    ensures hd.job !in Restarted(cfg, s, p).db.live
  {
    if hd.job in s.db.live {
      assert JobInOrder(cfg, s.db.events, s.db.live[hd.job], hd.job, s.history.enqueued, s.history.latest);
    }
  }

  lemma RestartDropsHandles(cfg: Config, s: System, step: Step, w: string, hd: Handle)
    requires Inv(cfg, s) && OfRestart(step) && InHand(s, w, hd) && hd.payload.Knocker?
    requires var p := RestartPayload(s.db, step); p.Some? && p.value.event == hd.payload.event
    ensures hd.job < s.db.nextJob && hd.job !in Next(cfg, s, step).db.live
  {
    assert HandleOk(s.db.live, s.history.enqueued, w, hd);
    RestartIs(cfg, s, step);
    RestartLinks(cfg, s, step);
    RestartDrops(cfg, s, RestartPayload(s.db, step).value, w, hd);
  }

  lemma DroppedForGood(cfg: Config, s: System, step: Step, after: seq<Step>, j: Id)
    requires Inv(cfg, s) && j < s.db.nextJob && j !in Next(cfg, s, step).db.live
    ensures j !in Run(cfg, Next(cfg, s, step), after).db.live
  {
    NextKeepsInv(cfg, s, step);
    NextGrows(cfg, s, step);
    GoneForGood(cfg, Next(cfg, s, step), after, j);
  }

  /** A handle taken before the restart is good for nothing after it, whatever
      happens and however long it is kept. */
  lemma RestartDisarmsHandles(cfg: Config, before: seq<Step>, step: Step, after: seq<Step>, w: string, hd: Handle)
    requires InHand(Run(cfg, START, before), w, hd) && hd.payload.Knocker?
    requires var p := RestartPayload(Run(cfg, START, before).db, step);
      p.Some? && p.value.event == hd.payload.event
    ensures var s' := Run(cfg, Next(cfg, Run(cfg, START, before), step), after);
      forall now: int :: !Holds(s'.db.live, hd.job, hd.worker, now)
  {
    StartInv(cfg);
    RunKeepsInv(cfg, START, before);
    RestartDropsHandles(cfg, Run(cfg, START, before), step, w, hd);
    DroppedForGood(cfg, Run(cfg, START, before), step, after, hd.job);
  }

  /** The events of db are still there, with the requests they stored. */
  ghost predicate KeepsRequests(events: Events, events': Events) {
    forall e | e in events :: e in events' && SameIdentity(events[e], events'[e])
  }

  lemma DeadLetterKeepsRequests(db: Db, clock: Clock, hd: Handle, durationMs: int)
    requires hd.payload.Knocker?
    ensures KeepsRequests(db.events, DeadLetter(db, clock, hd, durationMs).0.events)
  {
  }

  lemma CompleteKeepsRequests(db: Db, clock: Clock, hd: Handle, writes: seq<string>, durationMs: int)
    requires hd.payload.Knocker? && hd.payload.event in db.events
    ensures KeepsRequests(db.events, Complete(db, clock, hd, writes, durationMs).0.events)
  {
    var processing := MarkProcessing(db, hd.payload.event, hd.attempts).db;
    assert KeepsRequests(db.events, processing.events);
  }

  lemma DispatchKeepsRequests(db: Db, clock: Clock, hd: Handle, registry: Registry, handler: HandlerResult,
                              durationMs: int)
    ensures KeepsRequests(db.events, Dispatch(db, clock, hd, registry, handler, durationMs).0.events)
  {
    if hd.payload.Foreign? || hd.payload.event !in db.events || db.events[hd.payload.event].status.Ignored? {
      // the events are untouched
    } else if HandlerEvent(db, hd.payload).Some? {
      if !HasHandler(registry, HandlerEvent(db, hd.payload).value) {
        DeadLetterKeepsRequests(db, clock, hd, durationMs);
      } else if handler.Returned? {
        CompleteKeepsRequests(db, clock, hd, handler.writes, durationMs);
      }
    }
  }

  lemma RecordKeepsRequests(db: Db, clock: Clock, hd: Handle, error: string, maxAttempts: int, durationMs: int)
    requires hd.payload.Knocker?
    ensures KeepsRequests(db.events, RecordFailure(db, clock, hd, error, maxAttempts, durationMs).db.events)
  {
  }

  lemma RestartKeepsRequests(db: Db, e: Id, p: Payload, queue: string, maxAttempts: int)
    ensures KeepsRequests(db.events, Restart(db, e, p, queue, maxAttempts).db.events)
  {
  }

  lemma IgnoreKeepsRequests(db: Db, now: int, e: Id)
    ensures KeepsRequests(db.events, Ignore(db, now, e).db.events)
  {
  }

  lemma OperatorsKeepRequests(cfg: Config, s: System, step: Step)
    requires OfOperator(step)
    ensures KeepsRequests(s.db.events, Next(cfg, s, step).db.events)
  {
    if step.IgnoreEvent? {
      IgnoreIs(cfg, s, step);
      IgnoreKeepsRequests(s.db, s.now, step.event);
    } else {
      RestartIs(cfg, s, step);
      var p := RestartPayload(s.db, step);
      if p.Some? { RestartKeepsRequests(s.db, p.value.event, p.value, cfg.queue, cfg.maxAttempts); }
    }
  }

  lemma WorkersKeepRequests(cfg: Config, s: System, step: Step)
    requires step.DispatchNext? || step.RecordFailing?
    ensures KeepsRequests(s.db.events, Next(cfg, s, step).db.events)
  {
    var clock := ClockFrom(s.now, step.ticks);
    if step.DispatchNext? {
      DispatchIs(cfg, s, step);
      if CanDispatch(s, step.worker) {
        DispatchKeepsRequests(s.db, clock, s.workers[step.worker].buffer[0],
                              step.registry, step.handler, step.durationMs);
      }
    } else {
      RecordIs(cfg, s, step);
      if CanRecord(s, step.worker) {
        var f := s.workers[step.worker].failing.value;
        RecordKeepsRequests(s.db, clock, f.handle, f.error, cfg.maxAttempts, step.durationMs);
      }
    }
  }

  lemma OthersKeepRequests(cfg: Config, s: System, step: Step)
    requires FreshIds(s.db) && !OfRetention(step)
    ensures KeepsRequests(s.db.events, Next(cfg, s, step).db.events)
  {
    if OfOperator(step) {
      OperatorsKeepRequests(cfg, s, step);
    } else if step.DispatchNext? || step.RecordFailing? {
      WorkersKeepRequests(cfg, s, step);
    } else {
      forall e | e in s.db.events ensures Keeps(s, Next(cfg, s, step), e) {
        RestKeepsEvents(cfg, s, step, e);
      }
    }
  }

  /** What a prune spares, it does not touch. */
  lemma RetentionSparesEvents(cfg: Config, s: System, step: Step)
    requires OfRetention(step)
    ensures var s' := Next(cfg, s, step);
      forall e | e in s'.db.events :: e in s.db.events && s'.db.events[e] == s.db.events[e]
  {
    if step.PruneOldEvents? {
      EventPruneIs(cfg, s, step);
    } else if step.PruneOldOrphans? {
      OrphanPruneIs(cfg, s, step);
    } else {
      PassIs(cfg, s, step);
    }
  }

  /** Only a prune removes events, and no step whatever rewrites the request an
      event stores. */
  lemma RequestsNeverChange(cfg: Config, s: System, step: Step)
    requires FreshIds(s.db)
    ensures var events' := Next(cfg, s, step).db.events;
      && (forall e | e in s.db.events && e in events' :: SameIdentity(s.db.events[e], events'[e]))
      && (!OfRetention(step) ==> s.db.events.Keys <= events'.Keys)
  {
    if OfRetention(step) {
      RetentionSparesEvents(cfg, s, step);
    } else {
      OthersKeepRequests(cfg, s, step);
    }
  }

  // ---- pruning ----

  /** A job that the prune takes out of the queue is ours and its event was
      ignored: jobs with other payloads, and pending work, survive. */
  ghost predicate DropsIgnoredOnly(cfg: Config, db: Db, live: Live) {
    && (forall j | j in live :: j in db.live && live[j] == db.live[j])
    && (forall j | j in db.live && j !in live ::
          IsWork(cfg, db.live[j]) && db.live[j].payload.event in db.events
          && db.events[db.live[j].payload.event].status.Ignored?)
  }

  lemma EventPruneDrops(cfg: Config, db: Db, enqueued: map<Id, Payload>, latest: Ids, now: int,
                        statuses: seq<Status>, olderThan: int, limit: int)
    requires WorkOk(cfg, db.events, db.live, enqueued, latest)
    ensures DropsIgnoredOnly(cfg, db, PruneEvents(db, now, statuses, olderThan, limit, cfg.queue).db.live)
  {
    var o := PruneEvents(db, now, statuses, olderThan, limit, cfg.queue);
    if o.result.Ok? {
      RetentionLaws.CandidateSet(EventTimes(db), EligibleEvents(db, statuses, olderThan), limit);
      assert forall s | s in statuses :: Prunable(s);
      forall j | j in db.live && j !in o.db.live && IsWork(cfg, db.live[j])
        ensures db.live[j].payload.event in db.events && db.events[db.live[j].payload.event].status.Ignored?
      {
        assert JobInOrder(cfg, db.events, db.live[j], j, enqueued, latest);
      }
    }
  }

  lemma PruneSparesPendingWork(cfg: Config, steps: seq<Step>, step: Step)
    requires OfRetention(step)
    ensures var s := Run(cfg, START, steps); DropsIgnoredOnly(cfg, s.db, Next(cfg, s, step).db.live)
  {
    var s := Run(cfg, START, steps);
    ReachableQueue(cfg, steps);
    if step.PruneOldEvents? {
      EventPruneIs(cfg, s, step);
      EventPruneDrops(cfg, s.db, s.history.enqueued, s.history.latest, s.now,
                      step.statuses, step.olderThan, step.limit);
    } else if step.PruneOldOrphans? {
      OrphanPruneIs(cfg, s, step);
    } else {
      PassIs(cfg, s, step);
      var p := step.policy;
      if p.eventCutoff.Some? {
        EventPruneDrops(cfg, s.db, s.history.enqueued, s.history.latest, s.now,
                        p.statuses, p.eventCutoff.value, p.eventLimit);
      }
    }
  }

  lemma FailedJobChangesNothing(cfg: Config, s: System, p: Policy, job: Id, worker: string, ticks: Ticks)
    requires RetentionJob(s.db, ClockFrom(s.now, ticks), p, cfg.queue, job, worker).result.Err?
    ensures RetentionJob(s.db, ClockFrom(s.now, ticks), p, cfg.queue, job, worker).db == s.db
    ensures RetentionStep(cfg, s, p, false, ticks).db == s.db
  {
  }

  lemma CommittedJobIs(db: Db, clock: Clock, p: Policy, queue: string, job: Id, worker: string)
    requires RetentionJob(db, clock, p, queue, job, worker).result.Ok?
    ensures var pass := RetentionPass(db, clock, p, queue);
      && pass.result.Ok? && Holds(pass.db.live, job, worker, clock.last)
      && RetentionJob(db, clock, p, queue, job, worker).db == Finish(pass.db, job, worker, clock.last).0
  {
  }

  lemma CommittedPassIs(cfg: Config, s: System, p: Policy, ticks: Ticks)
    requires RetentionPass(s.db, ClockFrom(s.now, ticks), p, cfg.queue).result.Ok?
    ensures var clock := ClockFrom(s.now, ticks);
      RetentionStep(cfg, s, p, true, ticks) ==
        s.(db := RetentionPass(s.db, clock, p, cfg.queue).db, now := clock.last)
  {
  }

  lemma PassKeepsJobs(db: Db, clock: Clock, p: Policy, queue: string)
    requires RetentionPass(db, clock, p, queue).result.Ok?
    ensures var db' := RetentionPass(db, clock, p, queue).db;
      db'.nextJob == db.nextJob && forall j | j in db'.live :: j in db.live && db'.live[j] == db.live[j]
  {
    HalvesKeepJobs(db, clock, p, queue);
  }

  lemma RunRetentionIs(cfg: Config, s: System, p: Policy, acked: bool, ticks: Ticks)
    ensures Next(cfg, s, RunRetention(p, acked, ticks)) == RetentionStep(cfg, s, p, acked, ticks)
  {
  }

  lemma CommittedJobIsSteps(cfg: Config, s: System, p: Policy, job: Id, worker: string, ticks: Ticks)
    requires FreshIds(s.db) && (job in s.db.live ==> s.db.live[job].queue != cfg.queue)
    requires RetentionJob(s.db, ClockFrom(s.now, ticks), p, cfg.queue, job, worker).result.Ok?
    ensures var db' := RetentionJob(s.db, ClockFrom(s.now, ticks), p, cfg.queue, job, worker).db;
      var s' := RetentionStep(cfg, s, p, true, ticks);
      s'.(db := db') == Next(cfg, s', OtherJobs(s'.db.live - {job}, s'.db.nextJob))
  {
    var clock := ClockFrom(s.now, ticks);
    CommittedJobIs(s.db, clock, p, cfg.queue, job, worker);
    CommittedPassIs(cfg, s, p, ticks);
    PassKeepsJobs(s.db, clock, p, cfg.queue);
    RowMayGo(cfg, RetentionStep(cfg, s, p, true, ticks), job, worker);
  }

  /** A retention job's transaction is a pass and the removal of its own row. */
  lemma RetentionJobIsSteps(cfg: Config, s: System, p: Policy, job: Id, worker: string, ticks: Ticks)
    requires FreshIds(s.db) && (job in s.db.live ==> s.db.live[job].queue != cfg.queue)
    ensures var o := RetentionJob(s.db, ClockFrom(s.now, ticks), p, cfg.queue, job, worker);
      var s' := Next(cfg, s, RunRetention(p, o.result.Ok?, ticks));
      if o.result.Ok? then s'.(db := o.db) == Next(cfg, s', OtherJobs(s'.db.live - {job}, s'.db.nextJob))
      else s'.db == s.db && o.db == s.db
  {
    var ok := RetentionJob(s.db, ClockFrom(s.now, ticks), p, cfg.queue, job, worker).result.Ok?;
    RunRetentionIs(cfg, s, p, ok, ticks);
    if ok {
      CommittedJobIsSteps(cfg, s, p, job, worker, ticks);
    } else {
      FailedJobChangesNothing(cfg, s, p, job, worker, ticks);
    }
  }

  lemma HalvesKeepJobs(db: Db, clock: Clock, p: Policy, queue: string)
    ensures var mid := EventHalf(db, clock.first, p, queue).db;
      && mid.nextJob == db.nextJob
      && (forall j | j in mid.live :: j in db.live && mid.live[j] == db.live[j])
      && OrphanHalf(mid, clock.second, p, queue).db.live == mid.live
      && OrphanHalf(mid, clock.second, p, queue).db.nextJob == mid.nextJob
  {
  }

  lemma RowMayGo(cfg: Config, s: System, job: Id, worker: string)
    requires forall j | j in s.db.live :: j < s.db.nextJob
    requires Holds(s.db.live, job, worker, s.now) && s.db.live[job].queue != cfg.queue
    ensures Next(cfg, s, OtherJobs(s.db.live - {job}, s.db.nextJob)) == s.(db := Finish(s.db, job, worker, s.now).0)
  {
    assert OthersMay(cfg, s.db, s.db.live - {job}, s.db.nextJob);
  }
}
