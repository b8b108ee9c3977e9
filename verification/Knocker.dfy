/** The Python Knocker object: every operation is one transaction on the
    database, committed when it returns and rolled back when it raises. */
module App {
  import opened Schema
  import Inbox
  import Retention
  import opened Worker
  import opened Sqlite

  class Knocker {
    const db: Database
    const queue: string
    const maxAttempts: int

    constructor (db: Database, queue: string, maxAttempts: int)
      ensures this.db == db && this.queue == queue && this.maxAttempts == maxAttempts
    {
      this.db, this.queue, this.maxAttempts := db, queue, maxAttempts;
    }

    method Ingest(clock: Clock, inb: Inbox.Inbound) returns (r: Result<Inbox.Receipt>)
      modifies db
      ensures Outcome(db.Contents(), r) ==
        InTransaction(old(db.Contents()), Inbox.Ingest(old(db.Contents()), clock, inb, queue, maxAttempts))
    {
      var begin := db.Contents();
      r := db.Ingest(clock, inb, queue, maxAttempts);
      if r.Err? { db.Restore(begin); }
    }

    method Ignore(now: int, e: Id) returns (r: Result<()>)
      modifies db
      ensures Outcome(db.Contents(), r) == InTransaction(old(db.Contents()), Inbox.Ignore(old(db.Contents()), now, e))
    {
      if e !in db.events { return Err(UnknownEvent); }
      var status := db.events[e].status;
      if status == Ignored { return Ok(()); }
      if status !in {Received, Failed, Dead} { return Err(WrongStatus(status)); }
      r := db.MarkIgnored(now, e, 0);
    }

    method Replay(e: Id) returns (r: Result<()>)
      modifies db
      ensures Outcome(db.Contents(), r) ==
        InTransaction(old(db.Contents()), Inbox.Replay(old(db.Contents()), e, queue, maxAttempts))
    {
      var begin := db.Contents();
      if e !in db.events { return Err(UnknownEvent); }
      var status := db.events[e].status;
      if status !in {Handled, Failed, Dead, Ignored} { return Err(WrongStatus(status)); }
      r := db.Replay(e, queue, maxAttempts);
      if r.Err? { db.Restore(begin); }
    }

    method Requeue(e: Id) returns (r: Result<()>)
      modifies db
      ensures Outcome(db.Contents(), r) ==
        InTransaction(old(db.Contents()), Inbox.Requeue(old(db.Contents()), e, queue, maxAttempts))
    {
      var begin := db.Contents();
      if e !in db.events { return Err(UnknownEvent); }
      var status := db.events[e].status;
      if status !in {Failed, Dead, Ignored} { return Err(WrongStatus(status)); }
      r := db.Requeue(e, queue, maxAttempts);
      if r.Err? { db.Restore(begin); }
    }

    method ReplayDelivery(d: Id) returns (r: Result<()>)
      modifies db
      ensures Outcome(db.Contents(), r) ==
        InTransaction(old(db.Contents()), Inbox.ReplayDelivery(old(db.Contents()), d, queue, maxAttempts))
    {
      if d !in db.deliveries { return Err(UnknownDelivery); }
      if db.deliveries[d].event.None? { return Err(OrphanDelivery); }
      var e := db.deliveries[d].event.value;
      if e !in db.events { return Err(UnknownEvent); }
      var status := db.events[e].status;
      if status !in {Handled, Failed, Dead, Ignored} { return Err(WrongStatus(status)); }
      var jobs := db.StaleLiveJobIds(queue, {e});
      db.DeleteLiveJobsById(jobs);
      var _ := db.ResetEvent(e);
      db.EnqueueEvent(Knocker(e, Some(d)), queue, maxAttempts);
      return Ok(());
    }

    method PruneEvents(now: int, statuses: seq<Status>, olderThan: int,
                       limit: int) returns (r: Result<Retention.Pruned>)
      modifies db
      ensures Outcome(db.Contents(), r) ==
        InTransaction(old(db.Contents()),
                      Retention.PruneEvents(old(db.Contents()), now, statuses, olderThan, limit, queue))
    {
      var begin := db.Contents();
      r := db.PruneEvents(now, statuses, olderThan, limit, queue);
      if r.Err? { db.Restore(begin); }
    }

    method PruneOrphanDeliveries(now: int, olderThan: int, limit: int) returns (r: Result<nat>)
      modifies db
      ensures Outcome(db.Contents(), r) ==
        InTransaction(old(db.Contents()), Retention.PruneOrphans(old(db.Contents()), now, olderThan, limit, queue))
    {
      var begin := db.Contents();
      r := db.PruneOrphanDeliveries(now, olderThan, limit, queue);
      if r.Err? { db.Restore(begin); }
    }

    method RunRetentionJob(clock: Clock, p: Retention.Policy, job: Id,
                           worker: string) returns (r: Result<Retention.PassResult>)
      modifies db
      ensures Outcome(db.Contents(), r) == Retention.RetentionJob(old(db.Contents()), clock, p, queue, job, worker)
    {
      var begin := db.Contents();
      r := db.RunRetentionPass(clock, p, queue);
      if r.Ok? {
        var ok := db.Finish(job, worker, clock.last);
        if !ok { r := Err(ClaimLost); }
      }
      if r.Err? { db.Restore(begin); }
    }

    /** One job, up to the end of its transaction. Raised leaves the failure to
        FailJob; LostClaim and Unreadable stop the worker. */
    method DispatchJob(clock: Clock, h: Handle, registry: Registry, handler: HandlerResult, durationMs: int)
      returns (end: DispatchEnd)
      modifies db
      ensures (db.Contents(), end) == Dispatch(old(db.Contents()), clock, h, registry, handler, durationMs)
    {
      if h.payload.Foreign? { return Unreadable; }
      var e := h.payload.event;
      var begin := db.Contents();
      if e !in db.events || db.events[e].status == Ignored {
        var _ := db.Finish(h.job, h.worker, clock.last);
        return Drained;
      }
      var target := HandlerEvent(db.Contents(), h.payload);
      if target.None? { return Raised(BAD_LINK); }
      var ok;
      if !HasHandler(registry, target.value) {
        var _ := db.MarkFailed(clock.first, e, h.attempts, NO_HANDLER, true, durationMs);
        ok := db.Finish(h.job, h.worker, clock.last);
        end := DeadLettered;
      } else {
        var _ := db.MarkProcessing(e, h.attempts);
        if handler.Threw? {
          db.Restore(begin);
          return Raised(handler.error);
        }
        db.app := db.app + handler.writes;
        var _ := db.MarkHandled(clock, e, durationMs);
        ok := db.Finish(h.job, h.worker, clock.last);
        end := Completed;
      }
      if !ok {
        db.Restore(begin);
        end := LostClaim;
      }
    }

    method FailJob(clock: Clock, h: Handle, error: string, durationMs: int) returns (r: Result<()>)
      requires h.payload.Knocker?
      modifies db
      ensures Outcome(db.Contents(), r) == RecordFailure(old(db.Contents()), clock, h, error, maxAttempts, durationMs)
    {
      var begin := db.Contents();
      var terminal := h.attempts >= maxAttempts;
      r := db.MarkFailed(clock.first, h.payload.event, h.attempts, error, terminal, durationMs);
      if r.Ok? {
        var ok;
        if terminal {
          ok := db.Finish(h.job, h.worker, clock.last);
        } else {
          ok := db.Retry(h.job, h.worker, clock.last);
        }
        if !ok { r := Err(ClaimLost); }
      }
      if r.Err? { db.Restore(begin); }
    }
  }
}
