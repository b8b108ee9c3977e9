/** What each operation leaves in the rows and what it returns, told on the
    columns alone: no statement here goes through the functions that compute
    keys, statuses or selections. */
module Outcomes {
  import opened Schema
  import opened Honker
  import opened Inbox
  import opened Worker
  import opened Protocol
  import Selection
  import Steps

  // ---- ingest ----

  /** An endpoint that is unknown or disabled refuses the request and stores
      nothing; an invalid signature stores one unlinked delivery. */
  lemma RefusedRequest(db: Db, clock: Clock, inb: Inbound, queue: string, maxAttempts: int)
    ensures var o, open := Ingest(db, clock, inb, queue, maxAttempts),
                           inb.endpoint in db.endpoints && db.endpoints[inb.endpoint];
      && (o.result.Err? <==> !open)
      && (o.result.Err? ==> o == Outcome(db, Err(UnknownEndpoint)))
      && (open && inb.signatureValid == Some(0) ==>
            var key := if inb.dedupeKey.Some? then inb.dedupeKey
                       else if inb.request.eventId.Some? then inb.request.eventId
                       else inb.request.deliveryId;
            var refused := Delivery(inb.endpoint, None, clock.second, inb.request, inb.signatureValid,
                                    inb.signatureError, key);
            && o.result == Ok(Receipt(db.nextDelivery, None, false, 401))
            && o.db == db.(deliveries := db.deliveries[db.nextDelivery := refused],
                           nextDelivery := db.nextDelivery + 1))
  {
  }

  /** The event e has this key of this endpoint. */
  ghost predicate HasKey(events: map<Id, Event>, e: Id, endpoint: string, key: Option<string>) {
    key.Some? && e in events && events[e].endpoint == endpoint && events[e].dedupeKey == key
  }

  /** The request's own key, or else the provider's event id, or else its
      delivery id, decides: it is on the stored rows, and an accepted request is
      a duplicate exactly when some event of the endpoint has it already. */
  lemma AcceptedRequest(db: Db, clock: Clock, inb: Inbound, queue: string, maxAttempts: int)
    requires inb.endpoint in db.endpoints && db.endpoints[inb.endpoint] && inb.signatureValid != Some(0)
    ensures var o, d := Ingest(db, clock, inb, queue, maxAttempts), db.nextDelivery;
      var key := if inb.dedupeKey.Some? then inb.dedupeKey
                 else if inb.request.eventId.Some? then inb.request.eventId
                 else inb.request.deliveryId;
      && o.result.Ok? && o.result.value.event.Some?
      && var e, duplicate := o.result.value.event.value, o.result.value.duplicate;
      var delivery := Delivery(inb.endpoint, Some(e), clock.second, inb.request, inb.signatureValid,
                               inb.signatureError, key);
      && o.result == Ok(Receipt(d, Some(e), duplicate, 204))
      && (duplicate <==> exists f :: HasKey(db.events, f, inb.endpoint, key))
      && (duplicate ==> HasKey(db.events, e, inb.endpoint, key))
      && o.db.deliveries == db.deliveries[d := delivery] && o.db.nextDelivery == d + 1
      && (duplicate ==> o.db == db.(deliveries := o.db.deliveries, nextDelivery := d + 1))
      && (!duplicate ==>
            && e == db.nextEvent
            && o.db == db.(
                 events := db.events[e := Event(inb.endpoint, clock.first, inb.request, key, Received, 0, None, None)],
                 nextEvent := e + 1,
                 deliveries := o.db.deliveries,
                 nextDelivery := d + 1,
                 live := db.live[db.nextJob := Job(queue, Knocker(e, None), maxAttempts, 0, None)],
                 nextJob := db.nextJob + 1))
  {
    Steps.FoundEvent(db, inb.endpoint, ChosenKey(inb));
    forall f | f in db.events && ChosenKey(inb).Some?
      ensures Matches(db.events[f], inb.endpoint, ChosenKey(inb).value) <==>
        HasKey(db.events, f, inb.endpoint, ChosenKey(inb))
    {
    }
  }

  /** The lookup gives one answer. */
  lemma FoundAgain(db: Db, db': Db, endpoint: string, key: Option<string>)
    requires db'.events == db.events
    ensures FindExisting(db', endpoint, key) == FindExisting(db, endpoint, key)
  {
  }

  /** The one event that has just got its key is found. */
  lemma NewEventFound(db: Db, a: Inbound, clock: Clock, queue: string, maxAttempts: int)
    requires FreshIds(db) && ChosenKey(a).Some? && FindExisting(db, a.endpoint, ChosenKey(a)).None?
    requires a.endpoint in db.endpoints && db.endpoints[a.endpoint] && a.signatureValid != Some(0)
    ensures var first := Ingest(db, clock, a, queue, maxAttempts);
      FindExisting(first.db, a.endpoint, ChosenKey(a)) == Some(db.nextEvent)
  {
    var db' := Ingest(db, clock, a, queue, maxAttempts).db;
    Steps.FoundEvent(db, a.endpoint, ChosenKey(a));
    Steps.FoundEvent(db', a.endpoint, ChosenKey(a));
    assert Matches(db'.events[db.nextEvent], a.endpoint, ChosenKey(a).value);
  }

  /** Two accepted requests in turn are one event exactly when they are for one
      endpoint and have one key. */
  lemma SameEvent(db: Db, a: Inbound, b: Inbound, clockA: Clock, clockB: Clock, queue: string, maxAttempts: int)
    requires FreshIds(db)
    requires a.endpoint in db.endpoints && db.endpoints[a.endpoint] && a.signatureValid != Some(0)
    requires b.endpoint in db.endpoints && db.endpoints[b.endpoint] && b.signatureValid != Some(0)
    ensures var first := Ingest(db, clockA, a, queue, maxAttempts);
      var second := Ingest(first.db, clockB, b, queue, maxAttempts);
      var keyA := if a.dedupeKey.Some? then a.dedupeKey
                  else if a.request.eventId.Some? then a.request.eventId else a.request.deliveryId;
      var keyB := if b.dedupeKey.Some? then b.dedupeKey
                  else if b.request.eventId.Some? then b.request.eventId else b.request.deliveryId;
      && first.result.Ok? && second.result.Ok?
      && (first.result.value.event == second.result.value.event <==>
            a.endpoint == b.endpoint && keyA.Some? && keyA == keyB)
      && (first.result.value.event == second.result.value.event ==> second.result.value.duplicate)
  {
    AcceptedRequest(db, clockA, a, queue, maxAttempts);
    var first := Ingest(db, clockA, a, queue, maxAttempts);
    AcceptedRequest(first.db, clockB, b, queue, maxAttempts);
    if a.endpoint == b.endpoint && ChosenKey(a) == ChosenKey(b) && ChosenKey(a).Some? {
      if FindExisting(db, a.endpoint, ChosenKey(a)).None? {
        NewEventFound(db, a, clockA, queue, maxAttempts);
      } else {
        FoundAgain(db, first.db, a.endpoint, ChosenKey(a));
      }
    }
  }

  /** So without keys of their own, the event ids alone decide: the delivery ids
      make no difference, whether they are the same or not. */
  lemma EventIdsDecide(db: Db, a: Inbound, b: Inbound, clockA: Clock, clockB: Clock, queue: string, maxAttempts: int)
    requires FreshIds(db) && a.endpoint == b.endpoint && a.endpoint in db.endpoints && db.endpoints[a.endpoint]
    requires a.signatureValid != Some(0) && b.signatureValid != Some(0)
    requires a.dedupeKey.None? && b.dedupeKey.None? && a.request.eventId.Some? && b.request.eventId.Some?
    ensures var first := Ingest(db, clockA, a, queue, maxAttempts);
      var second := Ingest(first.db, clockB, b, queue, maxAttempts);
      && first.result.Ok? && second.result.Ok?
      && (first.result.value.event == second.result.value.event <==> a.request.eventId == b.request.eventId)
  {
    SameEvent(db, a, b, clockA, clockB, queue, maxAttempts);
  }

  // ---- mark_* ----

  /** The marks set these columns of the one row, whatever its status, and all but
      the first write one attempt. */
  lemma MarksSet(db: Db, clock: Clock, e: Id, attemptCount: int, error: string, terminal: bool, durationMs: int)
    requires e in db.events
    ensures var ev, outcome, next := db.events[e], if terminal then Dead else Failed, db.nextAttempt + 1;
      && MarkProcessing(db, e, attemptCount) ==
           Outcome(db.(events := db.events[e := ev.(status := Processing, attemptCount := attemptCount,
                                                    lastError := None)]), Ok(()))
      && MarkHandled(db, clock, e, durationMs) ==
           Outcome(db.(events := db.events[e := ev.(status := Handled, handledAt := Some(clock.first),
                                                    lastError := None)],
                       attempts := db.attempts[db.nextAttempt :=
                         Attempt(e, clock.second, Handled, None, durationMs)], nextAttempt := next), Ok(()))
      && MarkFailed(db, clock.first, e, attemptCount, error, terminal, durationMs) ==
           Outcome(db.(events := db.events[e := ev.(status := outcome, attemptCount := attemptCount,
                                                    lastError := Some(error))],
                       attempts := db.attempts[db.nextAttempt :=
                         Attempt(e, clock.first, outcome, Some(error), durationMs)], nextAttempt := next), Ok(()))
      && MarkIgnored(db, clock.first, e, durationMs) ==
           Outcome(db.(events := db.events[e := ev.(status := Ignored, lastError := None)],
                       attempts := db.attempts[db.nextAttempt :=
                         Attempt(e, clock.first, Ignored, None, durationMs)], nextAttempt := next), Ok(()))
  {
  }

  // ---- operators ----

  /** The event as new, none of the queue's jobs for it, and one new job with
      this payload; nothing else is touched. */
  predicate StartsAgain(db: Db, db': Db, e: Id, payload: Payload, queue: string, maxAttempts: int)
    requires e in db.events
  {
    && db' == db.(
         events := db.events[e := db.events[e].(status := Received, attemptCount := 0, handledAt := None,
                                                lastError := None)],
         live := db'.live,
         nextJob := db.nextJob + 1)
    && db.nextJob in db'.live && db'.live[db.nextJob] == Job(queue, payload, maxAttempts, 0, None)
    && (forall j | j in db'.live && j != db.nextJob :: j in db.live && db'.live[j] == db.live[j])
    && (forall j | j in db.live && j != db.nextJob ::
          j !in db'.live <==>
          db.live[j].queue == queue && db.live[j].payload.Knocker? && db.live[j].payload.event == e)
  }

  lemma RestartStartsAgain(db: Db, e: Id, payload: Payload, queue: string, maxAttempts: int)
    requires e in db.events
    ensures var o := Restart(db, e, payload, queue, maxAttempts);
      o.result.Ok? && StartsAgain(db, o.db, e, payload, queue, maxAttempts)
  {
  }

  /** Replay is for handled, failed, dead and ignored events. */
  lemma ReplayAdmits(db: Db, e: Id, queue: string, maxAttempts: int)
    ensures var o := Replay(db, e, queue, maxAttempts);
      && (o.result.Ok? <==> e in db.events && db.events[e].status in {Handled, Failed, Dead, Ignored})
      && (o.result.Ok? ==> StartsAgain(db, o.db, e, Knocker(e, None), queue, maxAttempts))
      && (o.result.Err? ==>
            && o.db == db
            && o.result == Err(if e in db.events then WrongStatus(db.events[e].status) else UnknownEvent))
  {
    if e in db.events { RestartStartsAgain(db, e, Knocker(e, None), queue, maxAttempts); }
  }

  /** Requeue is for failed, dead and ignored events. */
  lemma RequeueAdmits(db: Db, e: Id, queue: string, maxAttempts: int)
    ensures var o := Requeue(db, e, queue, maxAttempts);
      && (o.result.Ok? <==> e in db.events && db.events[e].status in {Failed, Dead, Ignored})
      && (o.result.Ok? ==> StartsAgain(db, o.db, e, Knocker(e, None), queue, maxAttempts))
      && (o.result.Err? ==>
            && o.db == db
            && o.result == Err(if e in db.events then WrongStatus(db.events[e].status) else UnknownEvent))
  {
    if e in db.events { RestartStartsAgain(db, e, Knocker(e, None), queue, maxAttempts); }
  }

  /** Replaying a delivery is for linked deliveries of the events that replay is
      for. */
  lemma ReplayDeliveryAdmits(db: Db, d: Id, queue: string, maxAttempts: int)
    ensures var o := ReplayDelivery(db, d, queue, maxAttempts);
      if d !in db.deliveries then o == Outcome(db, Err(UnknownDelivery))
      else if db.deliveries[d].event.None? then o == Outcome(db, Err(OrphanDelivery))
      else
        var e := db.deliveries[d].event.value;
        && (o.result.Ok? <==> e in db.events && db.events[e].status in {Handled, Failed, Dead, Ignored})
        && (o.result.Ok? ==> StartsAgain(db, o.db, e, Knocker(e, Some(d)), queue, maxAttempts))
        && (o.result.Err? ==>
              && o.db == db
              && o.result == Err(if e in db.events then WrongStatus(db.events[e].status) else UnknownEvent))
  {
    if d in db.deliveries && db.deliveries[d].event.Some? && db.deliveries[d].event.value in db.events {
      var e := db.deliveries[d].event.value;
      RestartStartsAgain(db, e, Knocker(e, Some(d)), queue, maxAttempts);
    }
  }

  /** Ignoring marks received, failed and dead events and leaves ignored ones. */
  lemma IgnoreAdmits(db: Db, now: int, e: Id)
    ensures var o := Ignore(db, now, e);
      && (o.result.Ok? <==> e in db.events && db.events[e].status in {Received, Failed, Dead, Ignored})
      && (o.result.Ok? && db.events[e].status == Ignored ==> o.db == db)
      && (o.result.Ok? && db.events[e].status != Ignored ==>
            o.db == db.(
              events := db.events[e := db.events[e].(status := Ignored, lastError := None)],
              attempts := db.attempts[db.nextAttempt := Attempt(e, now, Ignored, None, 0)],
              nextAttempt := db.nextAttempt + 1))
      && (o.result.Err? ==>
            && o.db == db
            && o.result == Err(if e in db.events then WrongStatus(db.events[e].status) else UnknownEvent))
  {
  }

  // ---- the queue ----

  /** A row is taken out of the live table, or freed for another try, only for
      the worker that has it, and not after its lease. */
  lemma ClaimStands(db: Db, job: Id, worker: string, now: int)
    ensures var stands := job in db.live && db.live[job].claim.Some? && db.live[job].claim.value.worker == worker
                          && now <= db.live[job].claim.value.until;
      && Finish(db, job, worker, now) == (if stands then db.(live := db.live - {job}) else db, stands)
      && Retry(db, job, worker, now).1 == stands
      && (stands ==>
            var again := db.live[job].attempts < db.live[job].maxAttempts;
            var live := if again then db.live[job := db.live[job].(claim := None)] else db.live - {job};
            Retry(db, job, worker, now).0 == db.(live := live))
      && (!stands ==> Retry(db, job, worker, now).0 == db)
  {
  }

  /** A row may be claimed while nobody has it or after the lease has run out,
      and by a claim of any number of rows only then; it counts the claim. */
  lemma ClaimTakes(db: Db, queue: string, worker: string, now: int, until: int, ids: seq<Id>, j: Id)
    ensures CanClaim(db, queue, now, [j]) <==>
      && j in db.live && db.live[j].queue == queue
      && (db.live[j].claim.Some? ==> db.live[j].claim.value.until < now)
    ensures CanClaim(db, queue, now, ids) && j in ids ==> CanClaim(db, queue, now, [j])
    ensures var db' := ClaimBatch(db, worker, until, Selection.Set(ids));
      && db' == db.(live := db'.live) && db'.live.Keys == db.live.Keys
      && (j in db.live && j in ids ==>
            var row := db.live[j];
            db'.live[j] == Job(row.queue, row.payload, row.maxAttempts, row.attempts + 1, Some(Claim(worker, until))))
      && (j in db.live && j !in ids ==> db'.live[j] == db.live[j])
  {
    assert Selection.Set([j]) == {j};
  }

  // ---- dispatch ----

  /** The handler gets the event's own row, or with the job's delivery in place
      of the columns the two have in common, if it is linked to the event. */
  lemma HandlerGets(db: Db, payload: Payload)
    requires payload.Knocker? && payload.event in db.events
    ensures var got, own := HandlerEvent(db, payload), db.events[payload.event];
      && (payload.delivery.None? ==> got == Some(own))
      && (payload.delivery.Some? ==>
            var d := payload.delivery.value;
            && (got.Some? <==> d in db.deliveries && db.deliveries[d].event == Some(payload.event))
            && (got.Some? ==>
                  got.value == Event(db.deliveries[d].endpoint, own.receivedAt, db.deliveries[d].request,
                                     db.deliveries[d].dedupeKey, own.status, own.attemptCount, own.handledAt,
                                     own.lastError)))
  {
  }

  /** The claim the handle was made from stands at this time. */
  predicate Stands(db: Db, h: Handle, now: int) {
    && h.job in db.live && db.live[h.job].claim.Some?
    && db.live[h.job].claim.value.worker == h.worker && now <= db.live[h.job].claim.value.until
  }

  /** Which end a dispatch comes to, for an event that is there and not ignored.
      A handler is one registered for the endpoint and the event's type, or for
      the endpoint alone. */
  lemma DispatchEnds(db: Db, clock: Clock, h: Handle, registry: Registry, handler: HandlerResult, durationMs: int,
                     ev: Event)
    requires h.payload.Knocker? && h.payload.event in db.events && db.events[h.payload.event].status != Ignored
    requires HandlerEvent(db, h.payload) == Some(ev)
    ensures var end := Dispatch(db, clock, h, registry, handler, durationMs).1;
      var registered := (ev.endpoint, ev.request.eventType) in registry || (ev.endpoint, None) in registry;
      && (end == DeadLettered <==> !registered && Stands(db, h, clock.last))
      && (end == Completed <==> registered && handler.Returned? && Stands(db, h, clock.last))
      && (end == LostClaim <==> !(registered && handler.Threw?) && !Stands(db, h, clock.last))
      && (end.Raised? <==> registered && handler.Threw?)
      && (end.Raised? ==> end == Raised(handler.error))
  {
  }

  /** And for one that is not, or that the payload does not lead to. */
  lemma DispatchStopsShort(db: Db, clock: Clock, h: Handle, registry: Registry, handler: HandlerResult,
                           durationMs: int)
    ensures var end := Dispatch(db, clock, h, registry, handler, durationMs).1;
      && (end == Unreadable <==> h.payload.Foreign?)
      && (end == Drained <==>
            h.payload.Knocker? &&
            (h.payload.event !in db.events || db.events[h.payload.event].status == Ignored))
      && (h.payload.Knocker? && h.payload.event in db.events && db.events[h.payload.event].status != Ignored ==>
            HandlerEvent(db, h.payload).None? ==> end == Raised(BAD_LINK))
  {
  }

  /** The row, the attempt, the handler's writes and the end of the job are one
      change. */
  lemma CompletedLeaves(db: Db, clock: Clock, h: Handle, registry: Registry, handler: HandlerResult, durationMs: int)
    requires Dispatch(db, clock, h, registry, handler, durationMs).1 == Completed
    ensures var db', e := Dispatch(db, clock, h, registry, handler, durationMs).0, h.payload.event;
      && h.payload.Knocker? && e in db.events && handler.Returned?
      && db' == db.(
           events := db.events[e := db.events[e].(status := Handled, attemptCount := h.attempts,
                                                  handledAt := Some(clock.first), lastError := None)],
           attempts := db.attempts[db.nextAttempt := Attempt(e, clock.second, Handled, None, durationMs)],
           nextAttempt := db.nextAttempt + 1,
           live := db.live - {h.job},
           app := db.app + handler.writes)
  {
    var db', e := Dispatch(db, clock, h, registry, handler, durationMs).0, h.payload.event;
    assert (db', Completed) == Complete(db, clock, h, handler.writes, durationMs);
    assert db'.events == db.events[e := db'.events[e]];
  }

  lemma DeadLetteredLeaves(db: Db, clock: Clock, h: Handle, registry: Registry, handler: HandlerResult,
                           durationMs: int)
    requires Dispatch(db, clock, h, registry, handler, durationMs).1 == DeadLettered
    ensures var db', e := Dispatch(db, clock, h, registry, handler, durationMs).0, h.payload.event;
      && h.payload.Knocker? && e in db.events
      && db' == db.(
           events := db.events[e := db.events[e].(status := Dead, attemptCount := h.attempts,
                                                  lastError := Some(NO_HANDLER))],
           attempts := db.attempts[db.nextAttempt := Attempt(e, clock.first, Dead, Some(NO_HANDLER), durationMs)],
           nextAttempt := db.nextAttempt + 1,
           live := db.live - {h.job})
  {
    assert Dispatch(db, clock, h, registry, handler, durationMs) == DeadLetter(db, clock, h, durationMs);
  }

  /** A job whose event is gone or ignored is taken out if the claim stands, and
      every other end leaves things as they were. */
  lemma OtherEndsLeave(db: Db, clock: Clock, h: Handle, registry: Registry, handler: HandlerResult, durationMs: int)
    ensures var (db', end) := Dispatch(db, clock, h, registry, handler, durationMs);
      && (end == Drained ==> db' == if Stands(db, h, clock.last) then db.(live := db.live - {h.job}) else db)
      && (end != Drained && end != Completed && end != DeadLettered ==> db' == db)
  {
  }

  /** The record of a failure is made if and only if the event is there and the
      claim stands to the end; it says dead at the last try, and frees the job
      before that. */
  lemma FailureLeaves(db: Db, clock: Clock, h: Handle, error: string, maxAttempts: int, durationMs: int)
    requires h.payload.Knocker?
    ensures var o, e := RecordFailure(db, clock, h, error, maxAttempts, durationMs), h.payload.event;
      && (o.result.Ok? <==> e in db.events && Stands(db, h, clock.last))
      && (o.result.Err? ==> o == Outcome(db, Err(if e in db.events then ClaimLost else UnknownEvent)))
      && (o.result.Ok? ==>
            var status := if h.attempts >= maxAttempts then Dead else Failed;
            var again := h.attempts < maxAttempts && db.live[h.job].attempts < db.live[h.job].maxAttempts;
            o.db == db.(
              events := db.events[e := db.events[e].(status := status, attemptCount := h.attempts,
                                                     lastError := Some(error))],
              attempts := db.attempts[db.nextAttempt := Attempt(e, clock.first, status, Some(error), durationMs)],
              nextAttempt := db.nextAttempt + 1,
              live := if again then db.live[h.job := db.live[h.job].(claim := None)] else db.live - {h.job}))
  {
  }

  // ---- the worker after a transaction ----

  /** A worker that has a job in its buffer, and no failure to record first, takes
      the job out of the buffer and dispatches it. It keeps what its handler
      raised, and it ends when its claim is lost or the payload cannot be read. */
  lemma WorkerAfterDispatch(cfg: Config, s: System, w: string, registry: Registry, handler: HandlerResult,
                            durationMs: int, ticks: Ticks)
    ensures var s' := Next(cfg, s, DispatchNext(w, registry, handler, durationMs, ticks));
      if w !in s.workers || s.workers[w].buffer == [] || s.workers[w].failing.Some? then s' == s
      else
        var h, rest := s.workers[w].buffer[0], s.workers[w].buffer[1..];
        var (db, end) := Dispatch(s.db, ClockFrom(s.now, ticks), h, registry, handler, durationMs);
        && s'.db == db && s'.now == s.now + ticks.toSecond + ticks.toLast
        && s'.workers ==
             (match end
              case LostClaim => s.workers - {w}
              case Unreadable => s.workers - {w}
              case Raised(error) => s.workers[w := WorkerState(rest, Some(Failure(h, error)))]
              case _ => s.workers[w := WorkerState(rest, None)])
  {
    var clock := ClockFrom(s.now, ticks);
    if w in s.workers && s.workers[w].buffer != [] && s.workers[w].failing.None? {
      OtherEndsLeave(s.db, clock, s.workers[w].buffer[0], registry, handler, durationMs);
    }
  }

  /** A worker goes on once its failure is recorded, and ends if it cannot be; or
      it ends at any time, its claims standing until they expire. */
  lemma WorkerAfterFailure(cfg: Config, s: System, w: string, durationMs: int, ticks: Ticks)
    ensures Next(cfg, s, StopWorker(w)) == s.(workers := s.workers - {w})
    ensures var s' := Next(cfg, s, RecordFailing(w, durationMs, ticks));
      if w !in s.workers || s.workers[w].failing.None? then s' == s
      else if s.workers[w].failing.value.handle.payload.Foreign? then s' == s
      else
        var f := s.workers[w].failing.value;
        var o := RecordFailure(s.db, ClockFrom(s.now, ticks), f.handle, f.error, cfg.maxAttempts, durationMs);
        && s'.db == o.db && s'.now == s.now + ticks.toSecond + ticks.toLast
        && s'.workers == (if o.result.Ok? then s.workers[w := WorkerState(s.workers[w].buffer, None)]
                          else s.workers - {w})
  {
    if w in s.workers && s.workers[w].failing.Some? && s.workers[w].failing.value.handle.payload.Knocker? {
      var f := s.workers[w].failing.value;
      FailureLeaves(s.db, ClockFrom(s.now, ticks), f.handle, f.error, cfg.maxAttempts, durationMs);
    }
  }
}
