/** What the history gains in a step and over a run: the jobs ever enqueued and
    the workers' records only grow. */
module Growth {
  import opened Schema
  import opened Honker
  import opened Worker
  import opened Protocol
  import opened Invariant
  import opened Preservation
  import opened Steps

  /** The jobs ever enqueued for an event. */
  function JobsEnqueued(enqueued: map<Id, Payload>, e: Id): set<Id> {
    set j | j in enqueued && enqueued[j].Knocker? && enqueued[j].event == e
  }

  lemma SubsetSize<T>(s: set<T>, t: set<T>)
    requires s <= t
    ensures |s| <= |t|
  {
    assert t == s + (t - s);
  }

  // ---- one step ----

  /** At most one job is enqueued, under the next id, and is its event's newest. */
  ghost predicate EnqueuesOne(s: System, s': System) {
    var h, h', j := s.history, s'.history, s.db.nextJob;
    (h'.enqueued == h.enqueued && h'.latest == h.latest) ||
    (j in h'.enqueued && h'.enqueued[j].Knocker? && h'.enqueued == h.enqueued[j := h'.enqueued[j]]
     && h'.latest == h.latest[h'.enqueued[j].event := j])
  }

  /** At most one record is made, under the next attempt id, of a live job that
      is its event's newest. */
  ghost predicate RecordsOne(s: System, s': System) {
    var h, h', a := s.history, s'.history, s.db.nextAttempt;
    h'.records == h.records ||
    (a in h'.records && h'.records == h.records[a := h'.records[a]]
     && var r := h'.records[a];
     r.job in s.db.live && r.event in h.latest && h.latest[r.event] == r.job)
  }

  /** Job ids only move on: a job that is live after the step was live before,
      or is new. */
  predicate JobsMoveOn(db: Db, db': Db) {
    db.nextJob <= db'.nextJob && forall j | j in db'.live :: j in db.live || db.nextJob <= j
  }

  ghost predicate Grows(s: System, s': System) {
    EnqueuesOne(s, s') && RecordsOne(s, s') && JobsMoveOn(s.db, s'.db)
  }

  lemma SettledGrows(cfg: Config, s: System, s': System, hd: Handle, ev: Event, a: Attempt, r: Record)
    requires QueueInv(cfg, s) && Settled(cfg, s, s', hd, ev, a, r)
    requires HandleOk(s.db.live, s.history.enqueued, hd.worker, hd)
    ensures Grows(s, s')
  {
    HeldJob(cfg, s, hd.worker, hd, s'.now);
    assert JobInOrder(cfg, s.db.events, s.db.live[hd.job], hd.job, s.history.enqueued, s.history.latest);
  }

  lemma DispatchGrows(cfg: Config, s: System, step: Step)
    requires QueueInv(cfg, s) && step.DispatchNext?
    ensures Grows(s, Next(cfg, s, step))
  {
    DispatchIs(cfg, s, step);
    var w := step.worker;
    if CanDispatch(s, w) {
      var hd := s.workers[w].buffer[0];
      assert HandleOk(s.db.live, s.history.enqueued, w, hd);
      if Settles(EndOf(s, w, step.registry, step.handler, step.durationMs, step.ticks)) {
        var ev, a, r := DispatchSettles(cfg, s, w, step.registry, step.handler, step.durationMs, step.ticks);
        SettledGrows(cfg, s, Next(cfg, s, step), hd, ev, a, r);
      } else {
        DispatchDrains(cfg, s, w, step.registry, step.handler, step.durationMs, step.ticks);
      }
    }
  }

  lemma RecordGrows(cfg: Config, s: System, step: Step)
    requires QueueInv(cfg, s) && step.RecordFailing?
    ensures Grows(s, Next(cfg, s, step))
  {
    RecordIs(cfg, s, step);
    var w := step.worker;
    if Records(cfg, s, w, step.durationMs, step.ticks) {
      var ev, a, r := RecordSettles(cfg, s, w, step.durationMs, step.ticks);
      SettledGrows(cfg, s, Next(cfg, s, step), s.workers[w].failing.value.handle, ev, a, r);
    }
  }

  lemma OperatorGrows(cfg: Config, s: System, step: Step)
    requires OfOperator(step)
    ensures Grows(s, Next(cfg, s, step))
  {
    if step.IgnoreEvent? {
      IgnoreIs(cfg, s, step);
    } else {
      RestartIs(cfg, s, step);
      if RestartPayload(s.db, step).Some? { RestartLinks(cfg, s, step); }
    }
  }

  lemma RetentionGrows(cfg: Config, s: System, step: Step)
    requires OfRetention(step)
    ensures Grows(s, Next(cfg, s, step))
  {
    if step.PruneOldEvents? {
      EventPruneIs(cfg, s, step);
    } else if step.PruneOldOrphans? {
      OrphanPruneIs(cfg, s, step);
    } else {
      PassIs(cfg, s, step);
    }
  }

  lemma RestGrows(cfg: Config, s: System, step: Step)
    requires !step.DispatchNext? && !step.RecordFailing? && !OfOperator(step) && !OfRetention(step)
    ensures Grows(s, Next(cfg, s, step))
  {
    if step.Receive? {
      ReceiveIs(cfg, s, step);
    } else if step.ClaimJobs? {
      ClaimIs(cfg, s, step);
    }
  }

  lemma NextGrows(cfg: Config, s: System, step: Step)
    requires QueueInv(cfg, s)
    ensures Grows(s, Next(cfg, s, step))
  {
    if step.DispatchNext? {
      DispatchGrows(cfg, s, step);
    } else if step.RecordFailing? {
      RecordGrows(cfg, s, step);
    } else if OfOperator(step) {
      OperatorGrows(cfg, s, step);
    } else if OfRetention(step) {
      RetentionGrows(cfg, s, step);
    } else {
      RestGrows(cfg, s, step);
    }
  }

  // ---- a run ----

  /** Nothing that was enqueued or recorded is forgotten. */
  ghost predicate Remembers(s: System, s': System) {
    && Extends(s.history.enqueued, s'.history.enqueued)
    && (forall a | a in s.history.records ::
          a in s'.history.records && s'.history.records[a] == s.history.records[a])
  }

  lemma GrowsRemembers(s: System, s': System)
    requires Fresh(s) && Grows(s, s')
    ensures Remembers(s, s')
  {
  }

  lemma RemembersOn(s: System, s1: System, s': System)
    requires Remembers(s, s1) && Remembers(s1, s')
    ensures Remembers(s, s')
  {
  }

  lemma NextRemembers(cfg: Config, s: System, step: Step)
    requires Inv(cfg, s)
    ensures Remembers(s, Next(cfg, s, step))
  {
    NextGrows(cfg, s, step);
    GrowsRemembers(s, Next(cfg, s, step));
  }

  lemma {:induction false} RunRemembers(cfg: Config, s: System, steps: seq<Step>)
    requires Inv(cfg, s)
    ensures Remembers(s, Run(cfg, s, steps))
    decreases |steps|
  {
    if steps != [] {
      var s1 := Next(cfg, s, steps[0]);
      NextRemembers(cfg, s, steps[0]);
      NextKeepsInv(cfg, s, steps[0]);
      RunRemembers(cfg, s1, steps[1..]);
      RemembersOn(s, s1, Run(cfg, s1, steps[1..]));
    }
  }

  /** A job that has left the queue never comes back. */
  lemma {:induction false} GoneForGood(cfg: Config, s: System, steps: seq<Step>, j: Id)
    requires Inv(cfg, s) && j < s.db.nextJob && j !in s.db.live
    ensures j !in Run(cfg, s, steps).db.live
    decreases |steps|
  {
    if steps != [] {
      NextGrows(cfg, s, steps[0]);
      NextKeepsInv(cfg, s, steps[0]);
      GoneForGood(cfg, Next(cfg, s, steps[0]), steps[1..], j);
    }
  }

  // ---- a failure that is recorded in time ----

  /** The step records a failure of job j under a claim that still stands when
      the transaction ends. */
  predicate Lands(s: System, step: Step, j: Id) {
    && step.RecordFailing? && CanRecord(s, step.worker)
    && var hd := s.workers[step.worker].failing.value.handle;
    && hd.job == j && Holds(s.db.live, j, hd.worker, ClockFrom(s.now, step.ticks).last)
  }
}
