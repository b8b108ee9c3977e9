/** The rows of the Knocker tables and of Honker's live-job table, as values.
    An endpoint is identified by its name, which the schema makes unique. */
module Schema {
  datatype Option<+T> = None | Some(value: T)

  datatype Error =
    | UnknownEndpoint
    | UnknownEvent
    | UnknownDelivery
    | OrphanDelivery
    | WrongStatus(status: Status)
    | NoStatuses
    | UnsupportedStatus(status: Status)
    | NegativeCutoff
    | LimitOutOfRange
    | NothingToPrune
    | ClaimLost

  datatype Result<+T> = Ok(value: T) | Err(error: Error)

  type Id = nat

  const I64_MIN := -0x8000_0000_0000_0000
  const I64_MAX := 0x7fff_ffff_ffff_ffff

  datatype Status = Received | Processing | Handled | Failed | Dead | Ignored

  /** What the clock reads at the statements of one transaction, in turn: it may
      tick between any two of them. */
  datatype Readings = Readings(first: int, second: int, last: int)

  type Clock = r: Readings | r.first <= r.second <= r.last witness Readings(0, 0, 0)

  /** The seconds between the readings. */
  datatype Ticks = Ticks(toSecond: nat, toLast: nat)

  function ClockFrom(now: int, ticks: Ticks): Clock {
    Readings(now, now + ticks.toSecond, now + ticks.toSecond + ticks.toLast)
  }

  /** The part of an HTTP request that is stored verbatim. */
  datatype Request = Request(
    eventId: Option<string>,
    deliveryId: Option<string>,
    eventType: Option<string>,
    verb: string,
    headers: string,
    body: seq<bv8>,
    query: string)

  datatype Event = Event(
    endpoint: string,
    receivedAt: int,
    request: Request,
    dedupeKey: Option<string>,
    status: Status,
    attemptCount: int,
    handledAt: Option<int>,
    lastError: Option<string>)

  datatype Delivery = Delivery(
    endpoint: string,
    event: Option<Id>,
    receivedAt: int,
    request: Request,
    signatureValid: Option<int>,
    signatureError: Option<string>,
    dedupeKey: Option<string>)

  datatype Attempt = Attempt(
    event: Id,
    attemptedAt: int,
    outcome: Status,
    error: Option<string>,
    durationMs: int)

  datatype AuditKind = EventPrune | OrphanPrune

  /** A column that does not apply to a kind of prune is NULL. */
  datatype Audit = Audit(
    kind: AuditKind,
    queue: string,
    executedAt: int,
    events: Option<nat>,
    deliveries: nat,
    attempts: Option<nat>,
    liveJobs: Option<nat>)

  /** What a job payload decodes to: an object with an integer event_id and
      perhaps an integer delivery_id, or anything else. */
  datatype Payload = Knocker(event: Id, delivery: Option<Id>) | Foreign(text: string)

  datatype Claim = Claim(worker: string, until: int)

  datatype Job = Job(
    queue: string,
    payload: Payload,
    maxAttempts: int,
    attempts: nat,
    claim: Option<Claim>)

  /** The committed contents of the SQLite file. The counters are the
      AUTOINCREMENT sequences; app is the host application's own table, to
      which handlers append. */
  datatype Db = Db(
    endpoints: map<string, bool>,
    events: map<Id, Event>,
    nextEvent: Id,
    deliveries: map<Id, Delivery>,
    nextDelivery: Id,
    attempts: map<Id, Attempt>,
    nextAttempt: Id,
    audits: seq<Audit>,
    live: map<Id, Job>,
    nextJob: Id,
    app: seq<string>)

  const EMPTY_DB := Db(map[], map[], 1, map[], 1, map[], 1, [], map[], 1, [])

  /** No row has an id that a counter can still hand out. */
  ghost predicate FreshIds(db: Db) {
    && (forall e | e in db.events :: e < db.nextEvent)
    && (forall d | d in db.deliveries :: d < db.nextDelivery)
    && (forall a | a in db.attempts :: a < db.nextAttempt)
    && (forall j | j in db.live :: j < db.nextJob)
  }

  /** What an operation leaves in the open transaction, and what it returns. */
  datatype Outcome<+T> = Outcome(db: Db, result: Result<T>)

  /** An operation run inside `with db.transaction()`: an error restores what
      was there when the transaction began. */
  function InTransaction<T>(before: Db, after: Outcome<T>): Outcome<T> {
    if after.result.Err? then Outcome(before, after.result) else after
  }
}
