/** Retries are bounded, and failing often enough is the end of an event. */
module Retries {
  import opened Schema
  import opened Worker
  import opened Protocol
  import opened Invariant
  import opened Steps
  import opened Growth
  import Guarantees

  /** The attempts an event has between two enqueues. */
  function Tries(cfg: Config): nat {
    if cfg.maxAttempts <= 1 then 1 else cfg.maxAttempts
  }

  // ---- at most so many rows ----

  /** The attempt rows a worker wrote for a job with an outcome of some kind. */
  function FailedRows(records: map<Id, Record>, j: Id): set<Id> {
    set a | a in records && records[a].job == j && records[a].outcome.Failed?
  }

  function FinalRows(records: map<Id, Record>, j: Id): set<Id> {
    set a | a in records && records[a].job == j && Final(records[a].outcome)
  }

  /** Rows with distinct claim numbers in [1, bound) are fewer than bound. */
  lemma {:induction false} DistinctClaims(records: map<Id, Record>, rows: set<Id>, bound: nat)
    requires forall a | a in rows :: a in records && 1 <= records[a].claim < bound
    requires forall a, b | a in rows && b in rows && records[a].claim == records[b].claim :: a == b
    ensures |rows| <= (if bound == 0 then 0 else bound - 1)
    decreases bound
  {
    if bound <= 1 {
      assert rows == {};
    } else if exists a :: a in rows && records[a].claim == bound - 1 {
      var a :| a in rows && records[a].claim == bound - 1;
      DistinctClaims(records, rows - {a}, bound - 1);
    } else {
      DistinctClaims(records, rows, bound - 1);
    }
  }

  lemma RowsOfJob(cfg: Config, live: Live, enqueued: map<Id, Payload>, records: map<Id, Record>, j: Id)
    requires RecordsOk(cfg, live, enqueued, records)
    ensures |FailedRows(records, j)| < Tries(cfg)
    ensures |FinalRows(records, j)| <= 1
    ensures j in live ==> FinalRows(records, j) == {}
  {
    var failed, final := FailedRows(records, j), FinalRows(records, j);
    forall a | a in failed + final ensures RecordOk(cfg, live, enqueued, records[a]) {}
    forall a, b | a in failed && b in failed && records[a].claim == records[b].claim ensures a == b {
      assert Clash(records[a], records[b]);
    }
    DistinctClaims(records, failed, if cfg.maxAttempts <= 0 then 0 else cfg.maxAttempts);
    if final != {} {
      var a :| a in final;
      assert forall b | b in final :: Clash(records[a], records[b]);
      assert final == {a};
    }
  }

  /** Of any one job, workers write fewer than Tries failed rows and at most one
      handled or dead row, and none of the latter while it is queued. */
  lemma RowsAreBounded(cfg: Config, steps: seq<Step>, j: Id)
    ensures var s := Run(cfg, START, steps);
      && |FailedRows(s.history.records, j)| < Tries(cfg)
      && |FinalRows(s.history.records, j)| <= 1
      && (j in s.db.live ==> FinalRows(s.history.records, j) == {})
  {
    var s := Run(cfg, START, steps);
    ReachableQueue(cfg, steps);
    RowsOfJob(cfg, s.db.live, s.history.enqueued, s.history.records, j);
  }

  // ---- between two enqueues of an event ----

  /** The records of e that were made between the two states are job j's. */
  ghost predicate RecordsAreOf(s: System, s': System, e: Id, j: Id) {
    forall a | a in s'.history.records && a !in s.history.records && s'.history.records[a].event == e ::
      s'.history.records[a].job == j
  }

  lemma RecordsCompose(s: System, s1: System, s': System, e: Id, j: Id)
    requires RecordsOne(s, s1) && Remembers(s1, s') && RecordsAreOf(s1, s', e, j)
    requires e in s.history.latest && s.history.latest[e] == j
    ensures RecordsAreOf(s, s', e, j)
  {
  }

  lemma NewestStays(s: System, s1: System, e: Id)
    requires Fresh(s) && EnqueuesOne(s, s1) && e in s.history.latest
    requires JobsEnqueued(s1.history.enqueued, e) == JobsEnqueued(s.history.enqueued, e)
    ensures e in s1.history.latest && s1.history.latest[e] == s.history.latest[e]
  {
    var n := s.db.nextJob;
    assert n !in s.history.enqueued;
    assert n in s1.history.enqueued && s1.history.enqueued[n].Knocker? && s1.history.enqueued[n].event == e ==>
      n in JobsEnqueued(s1.history.enqueued, e);
  }

  lemma JobsSandwiched(s: System, s1: System, s': System, e: Id)
    requires Remembers(s, s1) && Remembers(s1, s')
    requires JobsEnqueued(s'.history.enqueued, e) == JobsEnqueued(s.history.enqueued, e)
    ensures JobsEnqueued(s1.history.enqueued, e) == JobsEnqueued(s.history.enqueued, e)
  {
  }

  lemma {:induction false} RecordsOfNewest(cfg: Config, s: System, steps: seq<Step>, e: Id)
    requires Inv(cfg, s) && e in s.history.latest
    requires JobsEnqueued(Run(cfg, s, steps).history.enqueued, e) == JobsEnqueued(s.history.enqueued, e)
    ensures RecordsAreOf(s, Run(cfg, s, steps), e, s.history.latest[e])
    decreases |steps|
  {
    if steps != [] {
      var s1, rest := Next(cfg, s, steps[0]), steps[1..];
      var s' := Run(cfg, s1, rest);
      NextKeepsInv(cfg, s, steps[0]);
      NextGrows(cfg, s, steps[0]);
      GrowsRemembers(s, s1);
      RunRemembers(cfg, s1, rest);
      JobsSandwiched(s, s1, s', e);
      NewestStays(s, s1, e);
      RecordsOfNewest(cfg, s1, rest, e);
      RecordsCompose(s, s1, s', e, s.history.latest[e]);
    }
  }

  /** The rows of e that the attempts table gains between two states, with an
      outcome of some kind. */
  function NewFailedRows(db: Db, db': Db, e: Id): set<Id> {
    set a | a in db'.attempts && a !in db.attempts && db'.attempts[a].event == e && db'.attempts[a].outcome.Failed?
  }

  function NewFinalRows(db: Db, db': Db, e: Id): set<Id> {
    set a | a in db'.attempts && a !in db.attempts && db'.attempts[a].event == e && Final(db'.attempts[a].outcome)
  }

  lemma NewRowsAreRecorded(s: System, s': System, e: Id, j: Id)
    requires RowsOk(s.db.events, s.db.attempts, s.history.records) && e in s.db.events
    requires RowsOk(s'.db.events, s'.db.attempts, s'.history.records)
    requires Remembers(s, s') && RecordsAreOf(s, s', e, j)
    ensures NewFailedRows(s.db, s'.db, e) <= FailedRows(s'.history.records, j)
    ensures NewFinalRows(s.db, s'.db, e) <= FinalRows(s'.history.records, j)
  {
  }

  lemma NewRowsAreFew(cfg: Config, s: System, s': System, e: Id, j: Id)
    requires RowsOk(s.db.events, s.db.attempts, s.history.records) && e in s.db.events
    requires RowsOk(s'.db.events, s'.db.attempts, s'.history.records)
    requires RecordsOk(cfg, s'.db.live, s'.history.enqueued, s'.history.records)
    requires Remembers(s, s') && RecordsAreOf(s, s', e, j)
    ensures |NewFailedRows(s.db, s'.db, e)| < Tries(cfg) && |NewFinalRows(s.db, s'.db, e)| <= 1
  {
    NewRowsAreRecorded(s, s', e, j);
    RowsOfJob(cfg, s'.db.live, s'.history.enqueued, s'.history.records, j);
    SubsetSize(NewFailedRows(s.db, s'.db, e), FailedRows(s'.history.records, j));
    SubsetSize(NewFinalRows(s.db, s'.db, e), FinalRows(s'.history.records, j));
  }

  lemma NewRowsOfRun(cfg: Config, s: System, between: seq<Step>, e: Id)
    requires Inv(cfg, s) && e in s.db.events
    requires JobsEnqueued(Run(cfg, s, between).history.enqueued, e) == JobsEnqueued(s.history.enqueued, e)
    ensures var s' := Run(cfg, s, between);
      |NewFailedRows(s.db, s'.db, e)| < Tries(cfg) && |NewFinalRows(s.db, s'.db, e)| <= 1
  {
    assert EventHasWork(cfg, s.db.events, s.db.live, s.history.latest, e);
    RunKeepsInv(cfg, s, between);
    RunRemembers(cfg, s, between);
    RecordsOfNewest(cfg, s, between, e);
    NewRowsAreFew(cfg, s, Run(cfg, s, between), e, s.history.latest[e]);
  }

  /** As long as an event is not enqueued again, the attempts table gains fewer
      than Tries failed rows of it, and at most one handled or dead row. */
  lemma RetriesAreBounded(cfg: Config, before: seq<Step>, between: seq<Step>, e: Id)
    requires var s := Run(cfg, START, before);
      && e in s.db.events
      && JobsEnqueued(Run(cfg, s, between).history.enqueued, e) == JobsEnqueued(s.history.enqueued, e)
    ensures var s := Run(cfg, START, before);
      var s' := Run(cfg, s, between);
      |NewFailedRows(s.db, s'.db, e)| < Tries(cfg) && |NewFinalRows(s.db, s'.db, e)| <= 1
  {
    StartInv(cfg);
    RunKeepsInv(cfg, START, before);
    NewRowsOfRun(cfg, Run(cfg, START, before), between, e);
  }

  // ---- failing often enough ----

  /** How many failures of job j are recorded in time. */
  function Landings(cfg: Config, s: System, steps: seq<Step>, j: Id): nat
    decreases |steps|
  {
    if steps == [] then 0
    else (if Lands(s, steps[0], j) then 1 else 0) + Landings(cfg, Next(cfg, s, steps[0]), steps[1..], j)
  }

  lemma {:induction false} LandingsSplit(cfg: Config, s: System, x: seq<Step>, y: seq<Step>, j: Id)
    ensures Landings(cfg, s, x + y, j) == Landings(cfg, s, x, j) + Landings(cfg, Run(cfg, s, x), y, j)
    decreases |x|
  {
    if x == [] {
      assert x + y == y;
    } else {
      assert (x + y)[1..] == x[1..] + y;
      LandingsSplit(cfg, Next(cfg, s, x[0]), x[1..], y, j);
    }
  }

  /** No operator or prune interferes with event e once it is handled or dead. */
  predicate LeftAlone(cfg: Config, s: System, steps: seq<Step>, e: Id)
    decreases |steps|
  {
    steps == [] ||
    (!(e in s.db.events && Final(s.db.events[e].status) && Guarantees.Overrides(s, steps[0], e))
     && LeftAlone(cfg, Next(cfg, s, steps[0]), steps[1..], e))
  }

  predicate IsDead(db: Db, e: Id) {
    e in db.events && db.events[e].status.Dead?
  }

  lemma {:induction false} DeadStays(cfg: Config, s: System, steps: seq<Step>, e: Id)
    requires Inv(cfg, s) && IsDead(s.db, e) && LeftAlone(cfg, s, steps, e)
    ensures IsDead(Run(cfg, s, steps).db, e)
    decreases |steps|
  {
    if steps != [] {
      Guarantees.NextKeepsFinal(cfg, s, steps[0], e);
      NextKeepsInv(cfg, s, steps[0]);
      DeadStays(cfg, Next(cfg, s, steps[0]), steps[1..], e);
    }
  }

  lemma FailedRowAdded(records: map<Id, Record>, a: Id, r: Record, j: Id)
    requires a !in records && r.job == j && r.outcome.Failed?
    ensures FailedRows(records[a := r], j) == FailedRows(records, j) + {a}
    ensures FinalRows(records[a := r], j) == FinalRows(records, j)
  {
  }

  lemma FinalRowAdded(records: map<Id, Record>, a: Id, r: Record, j: Id)
    requires a !in records && r.job == j && Final(r.outcome)
    ensures FailedRows(records[a := r], j) == FailedRows(records, j)
    ensures FinalRows(records[a := r], j) == FinalRows(records, j) + {a}
  {
  }

  function Rows(records: map<Id, Record>, j: Id): nat {
    |FailedRows(records, j)| + |FinalRows(records, j)|
  }

  lemma LandingSettles(cfg: Config, s: System, step: Step, j: Id) returns (ev: Event, a: Attempt, r: Record)
    requires Inv(cfg, s) && j in s.history.enqueued && Lands(s, step, j)
    ensures Settled(cfg, s, Next(cfg, s, step), s.workers[step.worker].failing.value.handle, ev, a, r)
    ensures r.job == j && r.event == s.history.enqueued[j].event && (r.outcome.Failed? || r.outcome.Dead?)
  {
    RecordIs(cfg, s, step);
    var hd := s.workers[step.worker].failing.value.handle;
    HeldJob(cfg, s, step.worker, hd, ClockFrom(s.now, step.ticks).last);
    ev, a, r := RecordSettles(cfg, s, step.worker, step.durationMs, step.ticks);
  }

  lemma SettledRecords(cfg: Config, s: System, s': System, hd: Handle, ev: Event, a: Attempt, r: Record)
    requires Fresh(s) && Settled(cfg, s, s', hd, ev, a, r)
    ensures s.db.nextAttempt !in s.history.records
    ensures s'.history.records == s.history.records[s.db.nextAttempt := r]
    ensures r.outcome.Dead? ==> IsDead(s'.db, r.event)
  {
  }

  /** A failure that lands is recorded, as failed or, with the event's death, as
      dead. */
  lemma LandingRecords(cfg: Config, s: System, step: Step, j: Id) returns (r: Record)
    requires Inv(cfg, s) && j in s.history.enqueued && Lands(s, step, j)
    ensures var s' := Next(cfg, s, step);
      && s.db.nextAttempt !in s.history.records
      && s'.history.records == s.history.records[s.db.nextAttempt := r] && r.job == j
      && (r.outcome.Failed? || (r.outcome.Dead? && IsDead(s'.db, s.history.enqueued[j].event)))
  {
    var ev, a;
    ev, a, r := LandingSettles(cfg, s, step, j);
    SettledRecords(cfg, s, Next(cfg, s, step), s.workers[step.worker].failing.value.handle, ev, a, r);
  }

  /** It is the event's death exactly if the job has been claimed often enough,
      whatever became of those claims. */
  lemma LastTryKills(cfg: Config, s: System, step: Step, j: Id)
    requires Inv(cfg, s) && j in s.history.enqueued && Lands(s, step, j)
    ensures var s', e := Next(cfg, s, step), s.history.enqueued[j].event;
      && e in s'.db.events
      && s'.db.events[e].status == (if s.db.live[j].attempts >= cfg.maxAttempts then Dead else Failed)
  {
    RecordIs(cfg, s, step);
    var hd := s.workers[step.worker].failing.value.handle;
    HeldJob(cfg, s, step.worker, hd, ClockFrom(s.now, step.ticks).last);
    var ev, a, r := RecordSettles(cfg, s, step.worker, step.durationMs, step.ticks);
  }

  lemma RowCounts(records: map<Id, Record>, a: Id, r: Record, j: Id)
    requires a !in records && r.job == j && (r.outcome.Failed? || r.outcome.Dead?)
    ensures r.outcome.Failed? ==> |FailedRows(records[a := r], j)| == |FailedRows(records, j)| + 1
    ensures Rows(records[a := r], j) == Rows(records, j) + 1
  {
    if r.outcome.Failed? {
      FailedRowAdded(records, a, r, j);
    } else {
      FinalRowAdded(records, a, r, j);
    }
  }

  lemma LandingCounts(cfg: Config, s: System, step: Step, j: Id)
    requires Inv(cfg, s) && j in s.history.enqueued && Lands(s, step, j)
    ensures var s', e := Next(cfg, s, step), s.history.enqueued[j].event;
      && (IsDead(s'.db, e) ||
          |FailedRows(s'.history.records, j)| == |FailedRows(s.history.records, j)| + 1)
      && Rows(s'.history.records, j) == Rows(s.history.records, j) + 1
  {
    var r := LandingRecords(cfg, s, step, j);
    RowCounts(s.history.records, s.db.nextAttempt, r, j);
  }

  lemma RowsRemain(s: System, s': System, j: Id)
    requires Remembers(s, s')
    ensures |FailedRows(s.history.records, j)| <= |FailedRows(s'.history.records, j)|
    ensures Rows(s.history.records, j) <= Rows(s'.history.records, j)
  {
    SubsetSize(FailedRows(s.history.records, j), FailedRows(s'.history.records, j));
    SubsetSize(FinalRows(s.history.records, j), FinalRows(s'.history.records, j));
  }

  lemma StepCounts(cfg: Config, s: System, step: Step, j: Id)
    requires Inv(cfg, s) && j in s.history.enqueued
    ensures var s', e := Next(cfg, s, step), s.history.enqueued[j].event;
      var landed := if Lands(s, step, j) then 1 else 0;
      && j in s'.history.enqueued && s'.history.enqueued[j] == s.history.enqueued[j]
      && (IsDead(s'.db, e) ||
          |FailedRows(s'.history.records, j)| >= |FailedRows(s.history.records, j)| + landed)
      && Rows(s'.history.records, j) >= Rows(s.history.records, j) + landed
  {
    NextRemembers(cfg, s, step);
    RowsRemain(s, Next(cfg, s, step), j);
    if Lands(s, step, j) { LandingCounts(cfg, s, step, j); }
  }

  /** Whatever else happens in between: once as many failures of one enqueue
      have been recorded in time as the event has tries, it is dead. */
  lemma {:induction false} FailuresKill(cfg: Config, s: System, steps: seq<Step>, j: Id)
    requires Inv(cfg, s) && j in s.history.enqueued
    requires LeftAlone(cfg, s, steps, s.history.enqueued[j].event)
    requires |FailedRows(s.history.records, j)| + Landings(cfg, s, steps, j) >= Tries(cfg)
    ensures IsDead(Run(cfg, s, steps).db, s.history.enqueued[j].event)
    decreases |steps|
  {
    if steps == [] {
      RowsOfJob(cfg, s.db.live, s.history.enqueued, s.history.records, j);
    } else {
      var s1 := Next(cfg, s, steps[0]);
      NextKeepsInv(cfg, s, steps[0]);
      StepCounts(cfg, s, steps[0], j);
      if IsDead(s1.db, s.history.enqueued[j].event) {
        DeadStays(cfg, s1, steps[1..], s.history.enqueued[j].event);
      } else {
        FailuresKill(cfg, s1, steps[1..], j);
      }
    }
  }

  /** And no more of them are ever recorded in time. */
  lemma {:induction false} LandingsAreFew(cfg: Config, s: System, steps: seq<Step>, j: Id)
    requires Inv(cfg, s) && j in s.history.enqueued
    ensures Rows(s.history.records, j) + Landings(cfg, s, steps, j) <= Tries(cfg)
    decreases |steps|
  {
    if steps == [] {
      RowsOfJob(cfg, s.db.live, s.history.enqueued, s.history.records, j);
    } else {
      NextKeepsInv(cfg, s, steps[0]);
      StepCounts(cfg, s, steps[0], j);
      LandingsAreFew(cfg, Next(cfg, s, steps[0]), steps[1..], j);
    }
  }

  /** In any reachable state, and whatever happens after it: once the failures of
      one enqueue that were recorded in time, before and after, are as many as
      the event has tries, they are no more than that, and the event is dead. */
  lemma AlwaysFailingDies(cfg: Config, before: seq<Step>, after: seq<Step>, j: Id)
    requires var s := Run(cfg, START, before);
      && j in s.history.enqueued && s.history.enqueued[j].Knocker?
      && LeftAlone(cfg, s, after, s.history.enqueued[j].event)
      && |FailedRows(s.history.records, j)| + Landings(cfg, s, after, j) >= Tries(cfg)
    ensures var s := Run(cfg, START, before);
      && |FailedRows(s.history.records, j)| + Landings(cfg, s, after, j) == Tries(cfg)
      && IsDead(Run(cfg, s, after).db, s.history.enqueued[j].event)
  {
    StartInv(cfg);
    RunKeepsInv(cfg, START, before);
    FailuresKill(cfg, Run(cfg, START, before), after, j);
    LandingsAreFew(cfg, Run(cfg, START, before), after, j);
  }
}
