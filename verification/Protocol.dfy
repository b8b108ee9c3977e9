/** Knocker as a state machine: the committed database, the clock, what each
    worker holds in memory, and a history that only the proofs look at. A run
    is any interleaving of the steps below. */
module Protocol {
  import opened Schema
  import opened Honker
  import opened Inbox
  import opened Selection
  import opened Retention
  import opened Worker

  datatype Config = Config(queue: string, maxAttempts: int, visibility: nat)

  const CLAIM_BATCH := 10

  /** A failed dispatch whose failure has yet to be recorded. */
  datatype Failure = Failure(handle: Handle, error: string)

  datatype WorkerState = WorkerState(buffer: seq<Handle>, failing: Option<Failure>)

  /** One attempt row written by a worker: the job and the claim it belongs to,
      its outcome, and the handler's writes committed with it. */
  datatype Record = Record(job: Id, event: Id, claim: nat, outcome: Status, writes: seq<string>)

  datatype History = History(
    enqueued: map<Id, Payload>,  // every job Knocker ever put on the queue
    latest: map<Id, Id>,         // event -> its newest job
    canonical: map<Id, Id>,      // event -> the delivery that created it
    newest: map<Id, Id>,         // event -> its newest attempt row
    records: map<Id, Record>,    // attempt row -> the worker's record of it
    commits: seq<Id>)            // attempt rows of completed jobs, in order

  datatype System = System(db: Db, now: int, workers: map<string, WorkerState>, history: History)

  const START := System(EMPTY_DB, 0, map[], History(map[], map[], map[], map[], map[], []))

  datatype Step =
    | ConfigureEndpoint(name: string, enabled: bool)
    | Receive(inbound: Inbound, ticks: Ticks)
    | ClaimJobs(worker: string, ids: seq<Id>)
    | DispatchNext(worker: string, registry: Registry, handler: HandlerResult, durationMs: int, ticks: Ticks)
    | RecordFailing(worker: string, durationMs: int, ticks: Ticks)
    | StopWorker(worker: string)
    | IgnoreEvent(event: Id)
    | ReplayEvent(event: Id)
    | RequeueEvent(event: Id)
    | ReplayOneDelivery(delivery: Id)
    | PruneOldEvents(statuses: seq<Status>, olderThan: int, limit: int)
    | PruneOldOrphans(olderThan: int, limit: int)
    | RunRetention(policy: Policy, acked: bool, ticks: Ticks)
    | ElapseTime(seconds: nat)
    | OtherJobs(live: map<Id, Job>, nextJob: Id)

  /** A live job that carries work of ours. */
  predicate IsWork(cfg: Config, job: Job) {
    job.queue == cfg.queue && job.payload.Knocker?
  }

  // ---- history ----

  function NoteEnqueued(h: History, job: Id, payload: Payload): History
    requires payload.Knocker?
  {
    h.(enqueued := h.enqueued[job := payload], latest := h.latest[payload.event := job])
  }

  function NoteRecord(h: History, attempt: Id, r: Record): History {
    h.(newest := h.newest[r.event := attempt], records := h.records[attempt := r])
  }

  // ---- steps ----

  function ReceiveStep(cfg: Config, s: System, inb: Inbound, ticks: Ticks): System {
    var clock := ClockFrom(s.now, ticks);
    var o := InTransaction(s.db, Ingest(s.db, clock, inb, cfg.queue, cfg.maxAttempts));
    if o.result.Ok? && o.result.value.event.Some? && !o.result.value.duplicate then
      var e := o.result.value.event.value;
      var h := NoteEnqueued(s.history, s.db.nextJob, Knocker(e, None));
      s.(db := o.db, now := clock.last, history := h.(canonical := h.canonical[e := s.db.nextDelivery]))
    else s.(db := o.db, now := clock.last)
  }

  /** A worker asks for jobs only when it holds none. */
  predicate Idle(s: System, w: string) {
    w in s.workers ==> s.workers[w].buffer == [] && s.workers[w].failing.None?
  }

  function HandleOf(db: Db, w: string, j: Id): Handle
    requires j in db.live
  {
    Handle(j, w, db.live[j].payload, db.live[j].attempts)
  }

  function Handles(db: Db, w: string, ids: seq<Id>): (hs: seq<Handle>)
    requires Set(ids) <= db.live.Keys
    ensures |hs| == |ids|
  {
    if ids == [] then []
    else
      assert Set(ids[1..]) <= Set(ids) && ids[0] in Set(ids);
      [HandleOf(db, w, ids[0])] + Handles(db, w, ids[1..])
  }

  function ClaimStep(cfg: Config, s: System, w: string, ids: seq<Id>): System {
    if Idle(s, w) && |ids| <= CLAIM_BATCH && CanClaim(s.db, cfg.queue, s.now, ids) then
      var db := ClaimBatch(s.db, w, s.now + cfg.visibility, Set(ids));
      s.(db := db, workers := s.workers[w := WorkerState(Handles(db, w, ids), None)])
    else s
  }

  predicate CanDispatch(s: System, w: string) {
    w in s.workers && s.workers[w].buffer != [] && s.workers[w].failing.None?
  }

  function DispatchStep(s: System, w: string, registry: Registry, handler: HandlerResult, durationMs: int,
                        ticks: Ticks): System {
    if !CanDispatch(s, w) then s
    else
      var clock := ClockFrom(s.now, ticks);
      var h := s.workers[w].buffer[0];
      var rest := WorkerState(s.workers[w].buffer[1..], None);
      var (db, end) := Dispatch(s.db, clock, h, registry, handler, durationMs);
      match end
      case Drained => s.(db := db, now := clock.last, workers := s.workers[w := rest])
      case DeadLettered =>
        var r := Record(h.job, h.payload.event, h.attempts, Dead, []);
        s.(db := db, now := clock.last, workers := s.workers[w := rest],
           history := NoteRecord(s.history, s.db.nextAttempt, r))
      case Completed =>
        var r := Record(h.job, h.payload.event, h.attempts, Handled, handler.writes);
        var noted := NoteRecord(s.history, s.db.nextAttempt, r);
        s.(db := db, now := clock.last, workers := s.workers[w := rest],
           history := noted.(commits := noted.commits + [s.db.nextAttempt]))
      case Raised(error) => s.(now := clock.last, workers := s.workers[w := rest.(failing := Some(Failure(h, error)))])
      case _ => s.(now := clock.last, workers := s.workers - {w})
  }

  predicate CanRecord(s: System, w: string) {
    && w in s.workers
    && s.workers[w].failing.Some?
    && s.workers[w].failing.value.handle.payload.Knocker?
  }

  function RecordStep(cfg: Config, s: System, w: string, durationMs: int, ticks: Ticks): System {
    if !CanRecord(s, w) then s
    else
      var clock := ClockFrom(s.now, ticks);
      var f := s.workers[w].failing.value;
      var o := RecordFailure(s.db, clock, f.handle, f.error, cfg.maxAttempts, durationMs);
      if o.result.Ok? then
        var outcome := FailureStatus(Terminal(f.handle, cfg.maxAttempts));
        var r := Record(f.handle.job, f.handle.payload.event, f.handle.attempts, outcome, []);
        s.(db := o.db, now := clock.last, workers := s.workers[w := s.workers[w].(failing := None)],
           history := NoteRecord(s.history, s.db.nextAttempt, r))
      else s.(now := clock.last, workers := s.workers - {w})
  }

  function IgnoreStep(s: System, e: Id): System {
    var o := InTransaction(s.db, Ignore(s.db, s.now, e));
    if o.result.Ok? && !s.db.events[e].status.Ignored? then
      s.(db := o.db, history := s.history.(newest := s.history.newest[e := s.db.nextAttempt]))
    else s.(db := o.db)
  }

  function RestartStep(s: System, o: Outcome<()>, payload: Payload): System
    requires payload.Knocker?
  {
    var done := InTransaction(s.db, o);
    if done.result.Ok? then s.(db := done.db, history := NoteEnqueued(s.history, s.db.nextJob, payload))
    else s.(db := done.db)
  }

  /** The delivery's event, or 0 when there is nothing to replay. */
  function LinkedEvent(db: Db, d: Id): Id {
    if d in db.deliveries && db.deliveries[d].event.Some? then db.deliveries[d].event.value else 0
  }

  /** The pass, undone if the retention job's claim was lost. That job is on a
      queue of its own, and its row is taken out by an OtherJobs step. */
  function RetentionStep(cfg: Config, s: System, p: Policy, acked: bool, ticks: Ticks): System {
    var clock := ClockFrom(s.now, ticks);
    var o := RetentionPass(s.db, clock, p, cfg.queue);
    var all := if o.result.Ok? && !acked then Outcome(o.db, Err(ClaimLost)) else o;
    s.(db := InTransaction(s.db, all).db, now := clock.last)
  }

  /** Other users of the live table change any rows but ours, and put work for
      us on no queue of ours. */
  predicate OthersMay(cfg: Config, db: Db, live: map<Id, Job>, nextJob: Id) {
    && db.nextJob <= nextJob
    && (forall j | j in live :: j < nextJob && (j in db.live || db.nextJob <= j))
    && (forall j | j in live && IsWork(cfg, live[j]) :: j in db.live && db.live[j] == live[j])
    && (forall j | j in db.live && IsWork(cfg, db.live[j]) :: j in live && live[j] == db.live[j])
  }

  function Next(cfg: Config, s: System, step: Step): System {
    match step
    case ConfigureEndpoint(name, enabled) => s.(db := s.db.(endpoints := s.db.endpoints[name := enabled]))
    case Receive(inb, ticks) => ReceiveStep(cfg, s, inb, ticks)
    case ClaimJobs(w, ids) => ClaimStep(cfg, s, w, ids)
    case DispatchNext(w, registry, handler, durationMs, ticks) =>
      DispatchStep(s, w, registry, handler, durationMs, ticks)
    case RecordFailing(w, durationMs, ticks) => RecordStep(cfg, s, w, durationMs, ticks)
    case StopWorker(w) => s.(workers := s.workers - {w})
    case IgnoreEvent(e) => IgnoreStep(s, e)
    case ReplayEvent(e) => RestartStep(s, Replay(s.db, e, cfg.queue, cfg.maxAttempts), Knocker(e, None))
    case RequeueEvent(e) => RestartStep(s, Requeue(s.db, e, cfg.queue, cfg.maxAttempts), Knocker(e, None))
    case ReplayOneDelivery(d) =>
      RestartStep(s, ReplayDelivery(s.db, d, cfg.queue, cfg.maxAttempts), Knocker(LinkedEvent(s.db, d), Some(d)))
    case PruneOldEvents(statuses, olderThan, limit) =>
      s.(db := InTransaction(s.db, PruneEvents(s.db, s.now, statuses, olderThan, limit, cfg.queue)).db)
    case PruneOldOrphans(olderThan, limit) =>
      s.(db := InTransaction(s.db, PruneOrphans(s.db, s.now, olderThan, limit, cfg.queue)).db)
    case RunRetention(p, acked, ticks) => RetentionStep(cfg, s, p, acked, ticks)
    case ElapseTime(seconds) => s.(now := s.now + seconds)
    case OtherJobs(live, nextJob) =>
      if OthersMay(cfg, s.db, live, nextJob) then s.(db := s.db.(live := live, nextJob := nextJob)) else s
  }

  function Run(cfg: Config, s: System, steps: seq<Step>): System
    decreases |steps|
  {
    if steps == [] then s else Run(cfg, Next(cfg, s, steps[0]), steps[1..])
  }
}
