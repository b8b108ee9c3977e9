/** The lifecycle operations of knocker_ops.rs, as functions from the open
    transaction's contents to what they leave there. An operation that fails
    may leave earlier writes behind; InTransaction undoes them. */
module Inbox {
  import opened Schema
  import opened Honker
  import Selection

  // ---- ingest ----

  datatype Inbound = Inbound(
    endpoint: string,
    request: Request,
    signatureValid: Option<int>,
    signatureError: Option<string>,
    dedupeKey: Option<string>)

  datatype Receipt = Receipt(delivery: Id, event: Option<Id>, duplicate: bool, statusCode: int)

  function OrElse<T>(first: Option<T>, second: Option<T>): Option<T> {
    if first.Some? then first else second
  }

  function ChosenKey(inb: Inbound): Option<string> {
    OrElse(OrElse(inb.dedupeKey, inb.request.eventId), inb.request.deliveryId)
  }

  /** The signature was looked at and found invalid. */
  predicate Rejected(signatureValid: Option<int>) {
    signatureValid == Some(0)
  }

  predicate Matches(ev: Event, endpoint: string, key: string) {
    ev.endpoint == endpoint && ev.dedupeKey == Some(key)
  }

  function FindExisting(db: Db, endpoint: string, key: Option<string>): Option<Id> {
    if key.None? then None
    else
      var hits := set e | e in db.events && Matches(db.events[e], endpoint, key.value);
      if hits == {} then None else Some(Selection.Least(map e | e in hits :: 0, hits))
  }

  function NewEvent(inb: Inbound, now: int): Event {
    Event(inb.endpoint, now, inb.request, ChosenKey(inb), Received, 0, None, None)
  }

  function InsertEvent(db: Db, now: int, inb: Inbound): Db {
    db.(events := db.events[db.nextEvent := NewEvent(inb, now)], nextEvent := db.nextEvent + 1)
  }

  function InsertDelivery(db: Db, now: int, inb: Inbound, event: Option<Id>): Db {
    db.(deliveries := db.deliveries[db.nextDelivery :=
          Delivery(inb.endpoint, event, now, inb.request, inb.signatureValid, inb.signatureError, ChosenKey(inb))],
        nextDelivery := db.nextDelivery + 1)
  }

  function Ingest(db: Db, clock: Clock, inb: Inbound, queue: string, maxAttempts: int): Outcome<Receipt> {
    if inb.endpoint !in db.endpoints || !db.endpoints[inb.endpoint] then
      Outcome(db, Err(UnknownEndpoint))
    else if Rejected(inb.signatureValid) then
      Outcome(InsertDelivery(db, clock.second, inb, None), Ok(Receipt(db.nextDelivery, None, false, 401)))
    else
      match FindExisting(db, inb.endpoint, ChosenKey(inb))
      case Some(e) =>
        Outcome(InsertDelivery(db, clock.second, inb, Some(e)), Ok(Receipt(db.nextDelivery, Some(e), true, 204)))
      case None =>
        var e := db.nextEvent;
        var stored := InsertDelivery(InsertEvent(db, clock.first, inb), clock.second, inb, Some(e));
        Outcome(Enqueue(stored, queue, Knocker(e, None), maxAttempts),
                Ok(Receipt(db.nextDelivery, Some(e), false, 204)))
  }

  // ---- mark_*: none of them looks at the current status ----

  function SetEvent(db: Db, e: Id, ev: Event): Db {
    db.(events := db.events[e := ev])
  }

  function AddAttempt(db: Db, attempt: Attempt): Db {
    db.(attempts := db.attempts[db.nextAttempt := attempt], nextAttempt := db.nextAttempt + 1)
  }

  function MarkProcessing(db: Db, e: Id, attemptCount: int): Outcome<()> {
    if e !in db.events then Outcome(db, Err(UnknownEvent))
    else
      Outcome(SetEvent(db, e, db.events[e].(status := Processing, attemptCount := attemptCount, lastError := None)),
              Ok(()))
  }

  function MarkHandled(db: Db, clock: Clock, e: Id, durationMs: int): Outcome<()> {
    if e !in db.events then Outcome(db, Err(UnknownEvent))
    else
      var marked := SetEvent(db, e,
        db.events[e].(status := Handled, handledAt := Some(clock.first), lastError := None));
      Outcome(AddAttempt(marked, Attempt(e, clock.second, Handled, None, durationMs)), Ok(()))
  }

  function FailureStatus(terminal: bool): Status {
    if terminal then Dead else Failed
  }

  function MarkFailed(db: Db, now: int, e: Id, attemptCount: int, error: string, terminal: bool, durationMs: int)
    : Outcome<()>
  {
    if e !in db.events then Outcome(db, Err(UnknownEvent))
    else
      var status := FailureStatus(terminal);
      var marked := SetEvent(db, e,
        db.events[e].(status := status, attemptCount := attemptCount, lastError := Some(error)));
      Outcome(AddAttempt(marked, Attempt(e, now, status, Some(error), durationMs)), Ok(()))
  }

  function MarkIgnored(db: Db, now: int, e: Id, durationMs: int): Outcome<()> {
    if e !in db.events then Outcome(db, Err(UnknownEvent))
    else
      var marked := SetEvent(db, e, db.events[e].(status := Ignored, lastError := None));
      Outcome(AddAttempt(marked, Attempt(e, now, Ignored, None, durationMs)), Ok(()))
  }

  // ---- replay, requeue, reset ----

  /** The payload names one of the events, on this queue. */
  predicate Names(job: Job, queue: string, events: set<Id>) {
    job.queue == queue && job.payload.Knocker? && job.payload.event in events
  }

  function JobsFor(live: map<Id, Job>, queue: string, events: set<Id>): (ids: set<Id>) {
    set j | j in live && Names(live[j], queue, events)
  }

  function DropJobs(db: Db, queue: string, events: set<Id>): Db {
    db.(live := db.live - JobsFor(db.live, queue, events))
  }

  function ResetEvent(db: Db, e: Id): Outcome<()> {
    if e !in db.events then Outcome(db, Err(UnknownEvent))
    else
      var reset := db.events[e].(status := Received, attemptCount := 0, handledAt := None, lastError := None);
      Outcome(SetEvent(db, e, reset), Ok(()))
  }

  predicate Replayable(status: Status) {
    status.Handled? || status.Failed? || status.Dead? || status.Ignored?
  }

  predicate Requeueable(status: Status) {
    status.Failed? || status.Dead? || status.Ignored?
  }

  function Restart(db: Db, e: Id, payload: Payload, queue: string, maxAttempts: int): Outcome<()> {
    var reset := ResetEvent(DropJobs(db, queue, {e}), e);
    if reset.result.Err? then reset
    else Outcome(Enqueue(reset.db, queue, payload, maxAttempts), Ok(()))
  }

  function Replay(db: Db, e: Id, queue: string, maxAttempts: int): Outcome<()> {
    if e !in db.events then Outcome(db, Err(UnknownEvent))
    else if !Replayable(db.events[e].status) then Outcome(db, Err(WrongStatus(db.events[e].status)))
    else Restart(db, e, Knocker(e, None), queue, maxAttempts)
  }

  function Requeue(db: Db, e: Id, queue: string, maxAttempts: int): Outcome<()> {
    if e !in db.events then Outcome(db, Err(UnknownEvent))
    else if !Requeueable(db.events[e].status) then Outcome(db, Err(WrongStatus(db.events[e].status)))
    else Restart(db, e, Knocker(e, None), queue, maxAttempts)
  }

  // ---- operator actions that the Python API adds ----

  function ReplayDelivery(db: Db, d: Id, queue: string, maxAttempts: int): Outcome<()> {
    if d !in db.deliveries then Outcome(db, Err(UnknownDelivery))
    else if db.deliveries[d].event.None? then Outcome(db, Err(OrphanDelivery))
    else
      var e := db.deliveries[d].event.value;
      if e !in db.events then Outcome(db, Err(UnknownEvent))
      else if !Replayable(db.events[e].status) then Outcome(db, Err(WrongStatus(db.events[e].status)))
      else Restart(db, e, Knocker(e, Some(d)), queue, maxAttempts)
  }

  function Ignore(db: Db, now: int, e: Id): Outcome<()> {
    if e !in db.events then Outcome(db, Err(UnknownEvent))
    else
      var status := db.events[e].status;
      if status.Ignored? then Outcome(db, Ok(()))
      else if !(status.Received? || status.Failed? || status.Dead?) then Outcome(db, Err(WrongStatus(status)))
      else MarkIgnored(db, now, e, 0)
  }
}
