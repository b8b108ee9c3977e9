/** The two transactions of the Python worker: dispatching a claimed job, and
    recording a failure after the first transaction was rolled back. */
module Worker {
  import opened Schema
  import opened Honker
  import opened Inbox

  /** A claimed job as the worker holds it in memory. */
  datatype Handle = Handle(job: Id, worker: string, payload: Payload, attempts: nat)

  /** What a handler did: its writes through tx, or the exception it raised. */
  datatype HandlerResult = Returned(writes: seq<string>) | Threw(error: string)

  /** Registered handlers, by endpoint and optional event type. */
  type Registry = set<(string, Option<string>)>

  datatype DispatchEnd =
    | Drained
    | DeadLettered
    | Completed
    | Raised(error: string)
    | LostClaim
    | Unreadable

  /** The event with the selected delivery's payload and metadata in place of
      its own. */
  function EventFromDelivery(ev: Event, d: Delivery): Event {
    ev.(endpoint := d.endpoint, request := d.request, dedupeKey := d.dedupeKey)
  }

  /** The event passed to the handler; None stands for the two RuntimeErrors. */
  function HandlerEvent(db: Db, payload: Payload): Option<Event>
    requires payload.Knocker? && payload.event in db.events
  {
    var ev := db.events[payload.event];
    if payload.delivery.None? then Some(ev)
    else if payload.delivery.value !in db.deliveries then None
    else if db.deliveries[payload.delivery.value].event != Some(payload.event) then None
    else Some(EventFromDelivery(ev, db.deliveries[payload.delivery.value]))
  }

  predicate HasHandler(registry: Registry, ev: Event) {
    (ev.endpoint, ev.request.eventType) in registry || (ev.endpoint, None) in registry
  }

  const BAD_LINK := "delivery is not linked to the event"
  const NO_HANDLER := "no handler registered"

  function DeadLetter(db: Db, clock: Clock, h: Handle, durationMs: int): (Db, DispatchEnd)
    requires h.payload.Knocker?
  {
    var marked := MarkFailed(db, clock.first, h.payload.event, h.attempts, NO_HANDLER, true, durationMs).db;
    var (after, ok) := Finish(marked, h.job, h.worker, clock.last);
    if ok then (after, DeadLettered) else (db, LostClaim)
  }

  function Complete(db: Db, clock: Clock, h: Handle, writes: seq<string>, durationMs: int): (Db, DispatchEnd)
    requires h.payload.Knocker?
  {
    var e := h.payload.event;
    var processing := MarkProcessing(db, e, h.attempts).db;
    var written := processing.(app := processing.app + writes);
    var handled := MarkHandled(written, clock, e, durationMs).db;
    var (after, ok) := Finish(handled, h.job, h.worker, clock.last);
    if ok then (after, Completed) else (db, LostClaim)
  }

  /** One dispatch transaction, as committed. Nothing else can commit while it is
      open, and it ends with ack or fail, which look at the claim last. */
  function Dispatch(db: Db, clock: Clock, h: Handle, registry: Registry, handler: HandlerResult, durationMs: int)
    : (Db, DispatchEnd)
  {
    if h.payload.Foreign? then (db, Unreadable)
    else if h.payload.event !in db.events || db.events[h.payload.event].status.Ignored? then
      (Finish(db, h.job, h.worker, clock.last).0, Drained)
    else
      var target := HandlerEvent(db, h.payload);
      if target.None? then (db, Raised(BAD_LINK))
      else if !HasHandler(registry, target.value) then DeadLetter(db, clock, h, durationMs)
      else if handler.Threw? then (db, Raised(handler.error))
      else Complete(db, clock, h, handler.writes, durationMs)
  }

  predicate Terminal(h: Handle, maxAttempts: int) {
    h.attempts >= maxAttempts
  }

  /** The second transaction, before it commits or rolls back. */
  function FailJob(db: Db, clock: Clock, h: Handle, error: string, maxAttempts: int, durationMs: int): Outcome<()>
    requires h.payload.Knocker?
  {
    var terminal := Terminal(h, maxAttempts);
    var marked := MarkFailed(db, clock.first, h.payload.event, h.attempts, error, terminal, durationMs);
    if marked.result.Err? then marked
    else
      var (after, ok) :=
        if terminal then Finish(marked.db, h.job, h.worker, clock.last)
        else Retry(marked.db, h.job, h.worker, clock.last);
      Outcome(after, if ok then Ok(()) else Err(ClaimLost))
  }

  function RecordFailure(db: Db, clock: Clock, h: Handle, error: string, maxAttempts: int, durationMs: int): Outcome<()>
    requires h.payload.Knocker?
  {
    InTransaction(db, FailJob(db, clock, h, error, maxAttempts, durationMs))
  }
}
