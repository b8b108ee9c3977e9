/** knocker_ops.rs over an open connection: the tables are fields that the
    statements change in place. Each method is proved to do what the function
    of the same name says; those functions carry the guarantees. */
module Sqlite {
  import opened Schema
  import opened Selection
  import Honker
  import Inbox
  import Retention

  class Database {
    var endpoints: map<string, bool>
    var events: map<Id, Event>
    var nextEvent: Id
    var deliveries: map<Id, Delivery>
    var nextDelivery: Id
    var attempts: map<Id, Attempt>
    var nextAttempt: Id
    var audits: seq<Audit>
    var live: map<Id, Job>
    var nextJob: Id
    var app: seq<string>

    function Contents(): Db
      reads this
    {
      Db(endpoints, events, nextEvent, deliveries, nextDelivery, attempts, nextAttempt, audits, live, nextJob, app)
    }

    constructor ()
      ensures Contents() == EMPTY_DB
    {
      endpoints, events, nextEvent, deliveries, nextDelivery := map[], map[], 1, map[], 1;
      attempts, nextAttempt, audits, live, nextJob, app := map[], 1, [], map[], 1, [];
    }

    /** ROLLBACK: back to what was there at BEGIN. */
    method Restore(saved: Db)
      modifies this
      ensures Contents() == saved
    {
      endpoints, events, nextEvent := saved.endpoints, saved.events, saved.nextEvent;
      deliveries, nextDelivery := saved.deliveries, saved.nextDelivery;
      attempts, nextAttempt, audits := saved.attempts, saved.nextAttempt, saved.audits;
      live, nextJob, app := saved.live, saved.nextJob, saved.app;
    }

    // ---- ingest ----

    method InsertDelivery(now: int, inb: Inbox.Inbound, event: Option<Id>) returns (d: Id)
      modifies this
      ensures d == old(nextDelivery)
      ensures Contents() == Inbox.InsertDelivery(old(Contents()), now, inb, event)
    {
      d := nextDelivery;
      deliveries := deliveries[d := Delivery(inb.endpoint, event, now, inb.request, inb.signatureValid,
                                             inb.signatureError, Inbox.ChosenKey(inb))];
      nextDelivery := nextDelivery + 1;
    }

    method InsertEvent(now: int, inb: Inbox.Inbound) returns (e: Id)
      modifies this
      ensures e == old(nextEvent)
      ensures Contents() == Inbox.InsertEvent(old(Contents()), now, inb)
    {
      e := nextEvent;
      events := events[e := Inbox.NewEvent(inb, now)];
      nextEvent := nextEvent + 1;
    }

    method EnqueueEvent(payload: Payload, queue: string, maxAttempts: int)
      modifies this
      ensures Contents() == Honker.Enqueue(old(Contents()), queue, payload, maxAttempts)
    {
      live := live[nextJob := Job(queue, payload, maxAttempts, 0, None)];
      nextJob := nextJob + 1;
    }

    method Ingest(clock: Clock, inb: Inbox.Inbound, queue: string, maxAttempts: int) returns (r: Result<Inbox.Receipt>)
      modifies this
      ensures Outcome(Contents(), r) == Inbox.Ingest(old(Contents()), clock, inb, queue, maxAttempts)
    {
      if inb.endpoint !in endpoints || !endpoints[inb.endpoint] {
        return Err(UnknownEndpoint);
      }
      if Inbox.Rejected(inb.signatureValid) {
        var refused := InsertDelivery(clock.second, inb, None);
        return Ok(Inbox.Receipt(refused, None, false, 401));
      }
      var existing := Inbox.FindExisting(Contents(), inb.endpoint, Inbox.ChosenKey(inb));
      var duplicate := existing.Some?;
      var e;
      if duplicate {
        e := existing.value;
      } else {
        e := InsertEvent(clock.first, inb);
      }
      var d := InsertDelivery(clock.second, inb, Some(e));
      if !duplicate {
        EnqueueEvent(Knocker(e, None), queue, maxAttempts);
      }
      return Ok(Inbox.Receipt(d, Some(e), duplicate, 204));
    }

    // ---- mark_* ----

    method InsertAttempt(attempt: Attempt)
      modifies this
      ensures Contents() == Inbox.AddAttempt(old(Contents()), attempt)
    {
      attempts := attempts[nextAttempt := attempt];
      nextAttempt := nextAttempt + 1;
    }

    method MarkProcessing(e: Id, attemptCount: int) returns (r: Result<()>)
      modifies this
      ensures Outcome(Contents(), r) == Inbox.MarkProcessing(old(Contents()), e, attemptCount)
    {
      if e !in events { return Err(UnknownEvent); }
      events := events[e := events[e].(status := Processing, attemptCount := attemptCount, lastError := None)];
      return Ok(());
    }

    method MarkHandled(clock: Clock, e: Id, durationMs: int) returns (r: Result<()>)
      modifies this
      ensures Outcome(Contents(), r) == Inbox.MarkHandled(old(Contents()), clock, e, durationMs)
    {
      if e !in events { return Err(UnknownEvent); }
      events := events[e := events[e].(status := Handled, handledAt := Some(clock.first), lastError := None)];
      InsertAttempt(Attempt(e, clock.second, Handled, None, durationMs));
      return Ok(());
    }

    method MarkFailed(now: int, e: Id, attemptCount: int, error: string, terminal: bool, durationMs: int)
      returns (r: Result<()>)
      modifies this
      ensures Outcome(Contents(), r) ==
        Inbox.MarkFailed(old(Contents()), now, e, attemptCount, error, terminal, durationMs)
    {
      var outcome := if terminal then Dead else Failed;
      if e !in events { return Err(UnknownEvent); }
      events := events[e := events[e].(status := outcome, attemptCount := attemptCount, lastError := Some(error))];
      InsertAttempt(Attempt(e, now, outcome, Some(error), durationMs));
      return Ok(());
    }

    method MarkIgnored(now: int, e: Id, durationMs: int) returns (r: Result<()>)
      modifies this
      ensures Outcome(Contents(), r) == Inbox.MarkIgnored(old(Contents()), now, e, durationMs)
    {
      if e !in events { return Err(UnknownEvent); }
      events := events[e := events[e].(status := Ignored, lastError := None)];
      InsertAttempt(Attempt(e, now, Ignored, None, durationMs));
      return Ok(());
    }

    // ---- live jobs ----

    /** Scans the queue's rows and keeps those whose payload names one of the
        events. */
    method StaleLiveJobIds(queue: string, candidates: set<Id>) returns (jobs: seq<Id>)
      ensures Set(jobs) == Inbox.JobsFor(live, queue, candidates)
      ensures |jobs| == |Inbox.JobsFor(live, queue, candidates)|
    {
      jobs := [];
      ghost var kept: set<Id> := {};
      var rows := live.Keys;
      while rows != {}
        invariant rows <= live.Keys
        invariant kept == (set j | j in live && j !in rows && Inbox.Names(live[j], queue, candidates))
        invariant Set(jobs) == kept && |jobs| == |kept|
        decreases rows
      {
        var j :| j in rows;
        rows := rows - {j};
        if Inbox.Names(live[j], queue, candidates) {
          assert Set(jobs + [j]) == Set(jobs) + {j};
          jobs := jobs + [j];
          kept := kept + {j};
        }
      }
    }

    method DeleteLiveJobsById(jobs: seq<Id>)
      modifies this
      ensures Contents() == old(Contents()).(live := old(live) - Set(jobs))
    {
      for i := 0 to |jobs|
        invariant Contents() == old(Contents()).(live := live)
        invariant live == old(live) - Set(jobs[..i])
      {
        assert jobs[..i + 1] == jobs[..i] + [jobs[i]];
        live := live - {jobs[i]};
      }
      assert jobs[..|jobs|] == jobs;
    }

    // ---- replay, requeue, reset ----

    method ResetEvent(e: Id) returns (r: Result<()>)
      modifies this
      ensures Outcome(Contents(), r) == Inbox.ResetEvent(old(Contents()), e)
    {
      if e !in events { return Err(UnknownEvent); }
      events := events[e := events[e].(status := Received, attemptCount := 0, handledAt := None, lastError := None)];
      return Ok(());
    }

    method Restart(e: Id, payload: Payload, queue: string, maxAttempts: int) returns (r: Result<()>)
      modifies this
      ensures Outcome(Contents(), r) == Inbox.Restart(old(Contents()), e, payload, queue, maxAttempts)
    {
      var jobs := StaleLiveJobIds(queue, {e});
      DeleteLiveJobsById(jobs);
      r := ResetEvent(e);
      if r.Ok? { EnqueueEvent(payload, queue, maxAttempts); }
    }

    method Replay(e: Id, queue: string, maxAttempts: int) returns (r: Result<()>)
      modifies this
      ensures Outcome(Contents(), r) == Inbox.Replay(old(Contents()), e, queue, maxAttempts)
    {
      if e !in events { return Err(UnknownEvent); }
      var status := events[e].status;
      if !Inbox.Replayable(status) { return Err(WrongStatus(status)); }
      r := Restart(e, Knocker(e, None), queue, maxAttempts);
    }

    method Requeue(e: Id, queue: string, maxAttempts: int) returns (r: Result<()>)
      modifies this
      ensures Outcome(Contents(), r) == Inbox.Requeue(old(Contents()), e, queue, maxAttempts)
    {
      if e !in events { return Err(UnknownEvent); }
      var status := events[e].status;
      if !Inbox.Requeueable(status) { return Err(WrongStatus(status)); }
      r := Restart(e, Knocker(e, None), queue, maxAttempts);
    }

    // ---- the queue transitions Knocker asks Honker for ----

    method Finish(job: Id, worker: string, now: int) returns (ok: bool)
      modifies this
      ensures (Contents(), ok) == Honker.Finish(old(Contents()), job, worker, now)
    {
      ok := Honker.Holds(live, job, worker, now);
      if ok { live := live - {job}; }
    }

    method Retry(job: Id, worker: string, now: int) returns (ok: bool)
      modifies this
      ensures (Contents(), ok) == Honker.Retry(old(Contents()), job, worker, now)
    {
      ok := Honker.Holds(live, job, worker, now);
      if ok {
        if live[job].attempts < live[job].maxAttempts {
          live := live[job := live[job].(claim := None)];
        } else {
          live := live - {job};
        }
      }
    }

    // ---- pruning ----

    method CountEventAttempts(ids: seq<Id>) returns (total: nat)
      requires |Set(ids)| == |ids|
      ensures total == |Retention.AttemptsOf(Contents(), Set(ids))|
    {
      total := 0;
      for i := 0 to |ids|
        invariant total == |Retention.AttemptsOf(Contents(), Set(ids[..i]))|
      {
        NewId(ids, i);
        var some, one := Set(ids[..i]), {ids[i]};
        var count := |Retention.AttemptsOf(Contents(), one)|;
        assert Retention.AttemptsOf(Contents(), Set(ids[..i + 1])) ==
          Retention.AttemptsOf(Contents(), some) + Retention.AttemptsOf(Contents(), one);
        total := total + count;
      }
      assert ids[..|ids|] == ids;
    }

    method CountEventDeliveries(ids: seq<Id>) returns (total: nat)
      requires |Set(ids)| == |ids|
      ensures total == |Retention.DeliveriesOf(Contents(), Set(ids))|
    {
      total := 0;
      for i := 0 to |ids|
        invariant total == |Retention.DeliveriesOf(Contents(), Set(ids[..i]))|
      {
        NewId(ids, i);
        var some, one := Set(ids[..i]), {ids[i]};
        var count := |Retention.DeliveriesOf(Contents(), one)|;
        assert Retention.DeliveriesOf(Contents(), Set(ids[..i + 1])) ==
          Retention.DeliveriesOf(Contents(), some) + Retention.DeliveriesOf(Contents(), one);
        total := total + count;
      }
      assert ids[..|ids|] == ids;
    }

    method DeleteDeliveriesForEventIds(ids: seq<Id>)
      modifies this
      ensures Contents() == old(Contents()).(
        deliveries := old(deliveries) - Retention.DeliveriesOf(old(Contents()), Set(ids)))
    {
      for i := 0 to |ids|
        invariant Contents() == old(Contents()).(deliveries := deliveries)
        invariant deliveries == old(deliveries) - Retention.DeliveriesOf(old(Contents()), Set(ids[..i]))
      {
        assert ids[..i + 1] == ids[..i] + [ids[i]];
        deliveries := deliveries - Retention.DeliveriesOf(Contents(), {ids[i]});
      }
      assert ids[..|ids|] == ids;
    }

    /** ON DELETE CASCADE takes the attempts along. */
    method DeleteEventsById(ids: seq<Id>)
      modifies this
      ensures Contents() == old(Contents()).(
        events := old(events) - Set(ids),
        attempts := old(attempts) - Retention.AttemptsOf(old(Contents()), Set(ids)))
    {
      for i := 0 to |ids|
        invariant Contents() == old(Contents()).(events := events, attempts := attempts)
        invariant events == old(events) - Set(ids[..i])
        invariant attempts == old(attempts) - Retention.AttemptsOf(old(Contents()), Set(ids[..i]))
      {
        assert ids[..i + 1] == ids[..i] + [ids[i]];
        attempts := attempts - Retention.AttemptsOf(Contents(), {ids[i]});
        events := events - {ids[i]};
      }
      assert ids[..|ids|] == ids;
    }

    method DeleteDeliveriesById(ids: seq<Id>)
      modifies this
      ensures Contents() == old(Contents()).(deliveries := old(deliveries) - Set(ids))
    {
      for i := 0 to |ids|
        invariant Contents() == old(Contents()).(deliveries := deliveries)
        invariant deliveries == old(deliveries) - Set(ids[..i])
      {
        assert ids[..i + 1] == ids[..i] + [ids[i]];
        deliveries := deliveries - {ids[i]};
      }
      assert ids[..|ids|] == ids;
    }

    method PruneEvents(now: int, statuses: seq<Status>, olderThan: int, limit: int, queue: string)
      returns (r: Result<Retention.Pruned>)
      modifies this
      ensures Outcome(Contents(), r) ==
        Retention.PruneEvents(old(Contents()), now, statuses, olderThan, limit, queue)
    {
      var checked := Retention.CheckStatuses(statuses);
      if checked.Err? { return Err(checked.error); }
      checked := Retention.CheckWindow(olderThan, limit);
      if checked.Err? { return Err(checked.error); }
      var ids := Retention.EventCandidates(Contents(), statuses, olderThan, limit);
      TakeDistinct(Retention.EventTimes(Contents()), Retention.EligibleEvents(Contents(), statuses, olderThan), limit);
      var attemptsPruned := CountEventAttempts(ids);
      var deliveriesPruned := CountEventDeliveries(ids);
      var jobs := StaleLiveJobIds(queue, Set(ids));
      DeleteLiveJobsById(jobs);
      DeleteDeliveriesForEventIds(ids);
      DeleteEventsById(ids);
      var p := Retention.Pruned(|ids|, attemptsPruned, deliveriesPruned, |jobs|);
      audits := audits + [Retention.EventAudit(now, queue, p)];
      return Ok(p);
    }

    method PruneOrphanDeliveries(now: int, olderThan: int, limit: int, queue: string) returns (r: Result<nat>)
      modifies this
      ensures Outcome(Contents(), r) == Retention.PruneOrphans(old(Contents()), now, olderThan, limit, queue)
    {
      var checked := Retention.CheckWindow(olderThan, limit);
      if checked.Err? { return Err(checked.error); }
      var ids := Retention.OrphanCandidates(Contents(), olderThan, limit);
      TakeDistinct(Retention.DeliveryTimes(Contents()), Retention.EligibleOrphans(Contents(), olderThan), limit);
      DeleteDeliveriesById(ids);
      audits := audits + [Retention.OrphanAudit(now, queue, |ids|)];
      return Ok(|ids|);
    }

    method RunRetentionPass(clock: Clock, p: Retention.Policy, queue: string) returns (r: Result<Retention.PassResult>)
      modifies this
      ensures Outcome(Contents(), r) == Retention.RetentionPass(old(Contents()), clock, p, queue)
    {
      if p.eventCutoff.None? && p.orphanCutoff.None? { return Err(NothingToPrune); }
      var eventResult, orphanResult := None, None;
      if p.eventCutoff.Some? {
        var pruned := PruneEvents(clock.first, p.statuses, p.eventCutoff.value, p.eventLimit, queue);
        if pruned.Err? { return Err(pruned.error); }
        eventResult := Some(pruned.value);
      }
      if p.orphanCutoff.Some? {
        var pruned := PruneOrphanDeliveries(clock.second, p.orphanCutoff.value, p.orphanLimit, queue);
        if pruned.Err? { return Err(pruned.error); }
        orphanResult := Some(pruned.value);
      }
      return Ok(Retention.PassResult(eventResult, orphanResult));
    }
  }

  lemma NewId(ids: seq<Id>, i: nat)
    requires i < |ids| && |Set(ids)| == |ids|
    ensures ids[i] !in Set(ids[..i]) && Set(ids[..i + 1]) == Set(ids[..i]) + {ids[i]}
  {
    var before, after := ids[..i], ids[i + 1..];
    assert ids == before + [ids[i]] + after;
    assert Set(ids) == Set(before) + {ids[i]} + Set(after);
    SetAtMost(before);
    SetAtMost(after);
    assert ids[..i + 1] == before + [ids[i]];
  }

  lemma SetAtMost(ids: seq<Id>)
    ensures |Set(ids)| <= |ids|
  {
    if ids != [] {
      SetAtMost(ids[1..]);
      assert Set(ids) == {ids[0]} + Set(ids[1..]);
    }
  }
}
