/** What every step keeps. Each predicate is about one concern and takes only
    the tables it speaks of; Inv is their conjunction. */
module Invariant {
  import opened Schema
  import opened Inbox
  import opened Worker
  import opened Protocol

  type Events = map<Id, Event>
  type Live = map<Id, Job>
  type Ids = map<Id, Id>

  /** Nothing remembered from the past has an id that is still to be handed
      out. */
  ghost predicate Fresh(s: System) {
    && FreshIds(s.db)
    && (forall j | j in s.history.enqueued ::
          j < s.db.nextJob && s.history.enqueued[j].Knocker? && s.history.enqueued[j].event < s.db.nextEvent)
    && (forall a | a in s.history.records :: a < s.db.nextAttempt && s.history.records[a].event < s.db.nextEvent)
    && (forall e | e in s.history.newest :: s.history.newest[e] < s.db.nextAttempt)
  }

  // ---- status and queue ----

  predicate Pending(status: Status) {
    status.Received? || status.Failed?
  }

  predicate Workable(status: Status) {
    Pending(status) || status.Ignored?
  }

  /** The event the job works on exists, waits for work, and has no newer job. */
  ghost predicate JobInOrder(cfg: Config, events: Events, job: Job, j: Id, enqueued: map<Id, Payload>, latest: Ids)
    requires job.payload.Knocker?
  {
    var e := job.payload.event;
    && j in enqueued && enqueued[j] == job.payload
    && job.maxAttempts == cfg.maxAttempts
    && e in events && Workable(events[e].status)
    && e in latest && latest[e] == j
  }

  ghost predicate EventHasWork(cfg: Config, events: Events, live: Live, latest: Ids, e: Id)
    requires e in events
  {
    && !events[e].status.Processing?
    && e in latest
    && (Pending(events[e].status) ==>
          latest[e] in live && IsWork(cfg, live[latest[e]]) && live[latest[e]].payload.event == e)
  }

  ghost predicate WorkOk(cfg: Config, events: Events, live: Live, enqueued: map<Id, Payload>, latest: Ids) {
    && (forall j | j in live && j in enqueued :: IsWork(cfg, live[j]))
    && (forall j | j in live && IsWork(cfg, live[j]) :: JobInOrder(cfg, events, live[j], j, enqueued, latest))
    && (forall e | e in events :: EventHasWork(cfg, events, live, latest, e))
  }

  // ---- what workers hold ----

  /** A handle remembers its job's payload and, while the claim is the
      worker's, the row's attempt number. */
  ghost predicate HandleOk(live: Live, enqueued: map<Id, Payload>, w: string, hd: Handle) {
    && hd.worker == w && hd.attempts >= 1
    && (hd.payload.Knocker? ==>
          && hd.job in enqueued && enqueued[hd.job] == hd.payload
          && (hd.job in live && live[hd.job].claim.Some? && live[hd.job].claim.value.worker == w
              ==> live[hd.job].attempts == hd.attempts))
  }

  ghost predicate WorkerOk(live: Live, enqueued: map<Id, Payload>, w: string, ws: WorkerState) {
    && (forall i | 0 <= i < |ws.buffer| :: HandleOk(live, enqueued, w, ws.buffer[i]))
    && (ws.failing.Some? ==>
          ws.failing.value.handle.payload.Knocker? && HandleOk(live, enqueued, w, ws.failing.value.handle))
  }

  ghost predicate WorkersOk(live: Live, enqueued: map<Id, Payload>, workers: map<string, WorkerState>) {
    forall w | w in workers :: WorkerOk(live, enqueued, w, workers[w])
  }

  // ---- deliveries and events ----

  ghost predicate LinkOk(events: Events, delivery: Delivery, d: Id, canonical: Ids, e: Id) {
    && e in events
    && delivery.endpoint == events[e].endpoint
    && delivery.dedupeKey == events[e].dedupeKey
    && e in canonical && canonical[e] <= d
    && (events[e].dedupeKey.None? ==> canonical[e] == d)
  }

  ghost predicate CanonicalOk(ev: Event, deliveries: map<Id, Delivery>, canonical: Ids, e: Id) {
    && e in canonical && canonical[e] in deliveries
    && deliveries[canonical[e]].event == Some(e)
    && deliveries[canonical[e]].request == ev.request
    && ev.receivedAt <= deliveries[canonical[e]].receivedAt
  }

  ghost predicate UniqueKeys(events: Events) {
    forall e, f | e in events && f in events && events[e].dedupeKey.Some?
      && events[e].endpoint == events[f].endpoint && events[e].dedupeKey == events[f].dedupeKey :: e == f
  }

  ghost predicate ReplayLink(events: Events, deliveries: map<Id, Delivery>, payload: Payload)
    requires payload.Knocker?
  {
    payload.event in events && payload.delivery.Some? ==>
      payload.delivery.value in deliveries && deliveries[payload.delivery.value].event == Some(payload.event)
  }

  ghost predicate LinksOk(events: Events, deliveries: map<Id, Delivery>, canonical: Ids) {
    && (forall d | d in deliveries && deliveries[d].event.Some? ::
          LinkOk(events, deliveries[d], d, canonical, deliveries[d].event.value))
    && (forall d | d in deliveries :: deliveries[d].event.None? <==> Rejected(deliveries[d].signatureValid))
    && (forall e | e in events :: CanonicalOk(events[e], deliveries, canonical, e))
    && UniqueKeys(events)
  }

  ghost predicate ReplaysOk(events: Events, deliveries: map<Id, Delivery>, enqueued: map<Id, Payload>) {
    forall j | j in enqueued :: enqueued[j].Knocker? && ReplayLink(events, deliveries, enqueued[j])
  }

  ghost predicate EndpointsOk(endpoints: map<string, bool>, events: Events, deliveries: map<Id, Delivery>) {
    && (forall e | e in events :: events[e].endpoint in endpoints)
    && (forall d | d in deliveries :: deliveries[d].endpoint in endpoints)
  }

  // ---- columns, attempt rows and status ----

  /** The row that a status change wrote tells what the columns say. */
  predicate Told(ev: Event, row: Attempt) {
    && row.outcome == ev.status
    && ev.lastError == row.error
    && (ev.lastError.Some? <==> ev.status.Failed? || ev.status.Dead?)
    && (ev.handledAt.Some? <==> ev.status.Handled?)
    && (ev.handledAt.Some? ==> ev.handledAt.value <= row.attemptedAt)
  }

  predicate Untold(ev: Event) {
    ev.lastError.None? && ev.handledAt.None? && ev.attemptCount == 0
  }

  /** A received event starts afresh; any other is told by its newest row. */
  ghost predicate EventTold(ev: Event, attempts: map<Id, Attempt>, newest: Ids, e: Id) {
    if ev.status.Received? then Untold(ev)
    else
      e in newest && newest[e] in attempts && attempts[newest[e]].event == e && Told(ev, attempts[newest[e]])
  }

  ghost predicate AttemptsOk(events: Events, attempts: map<Id, Attempt>, newest: Ids) {
    && (forall e | e in events :: EventTold(events[e], attempts, newest, e))
    && (forall a | a in attempts ::
          attempts[a].event in events && attempts[a].event in newest && a <= newest[attempts[a].event])
  }

  // ---- the workers' records ----

  predicate Final(outcome: Status) {
    outcome.Handled? || outcome.Dead?
  }

  /** A record has its attempt row for as long as its event exists, and every
      attempt row that is not an operator's has its record. */
  ghost predicate RowsOk(events: Events, attempts: map<Id, Attempt>, records: map<Id, Record>) {
    && (forall a | a in records && records[a].event in events ::
          a in attempts && attempts[a].event == records[a].event && attempts[a].outcome == records[a].outcome)
    && (forall a | a in attempts && !attempts[a].outcome.Ignored? ::
          a in records && records[a].event == attempts[a].event && records[a].outcome == attempts[a].outcome)
  }

  /** attempt_count is the claim that the newest row was written under. */
  ghost predicate CountOk(ev: Event, records: map<Id, Record>, newest: Ids, e: Id) {
    Final(ev.status) || ev.status.Failed? ==>
      e in newest && newest[e] in records && records[newest[e]].claim == ev.attemptCount
  }

  ghost predicate CountsOk(events: Events, records: map<Id, Record>, newest: Ids) {
    forall e | e in events :: CountOk(events[e], records, newest, e)
  }

  ghost predicate RecordOk(cfg: Config, live: Live, enqueued: map<Id, Payload>, r: Record) {
    && r.job in enqueued && enqueued[r.job].Knocker? && enqueued[r.job].event == r.event
    && (Final(r.outcome) ==> r.job !in live)
    && (!Final(r.outcome) ==>
          && r.outcome.Failed?
          && 1 <= r.claim < cfg.maxAttempts
          && (r.job in live ==>
                r.claim <= live[r.job].attempts && (live[r.job].claim.Some? ==> r.claim < live[r.job].attempts)))
  }

  /** A job ends once, and fails at most once in each of its claims. */
  predicate Clash(r: Record, q: Record) {
    r.job == q.job && (if Final(r.outcome) then Final(q.outcome) else !Final(q.outcome) && r.claim == q.claim)
  }

  ghost predicate RecordsOk(cfg: Config, live: Live, enqueued: map<Id, Payload>, records: map<Id, Record>) {
    && (forall a | a in records :: RecordOk(cfg, live, enqueued, records[a]))
    && (forall a, b | a in records && b in records && Clash(records[a], records[b]) :: a == b)
  }

  function Written(records: map<Id, Record>, commits: seq<Id>): seq<string>
    requires forall a | a in commits :: a in records
  {
    if commits == [] then []
    else
      var last := |commits| - 1;
      Written(records, commits[..last]) + records[commits[last]].writes
  }

  /** The application's table holds the completed jobs' writes and nothing
      else. */
  ghost predicate CommitsOk(app: seq<string>, records: map<Id, Record>, commits: seq<Id>) {
    && (forall i | 0 <= i < |commits| :: commits[i] in records && records[commits[i]].outcome.Handled?)
    && (forall i, k | 0 <= i < k < |commits| :: commits[i] != commits[k])
    && (forall a | a in records && records[a].outcome.Handled? :: a in commits)
    && app == Written(records, commits)
  }

  ghost predicate QueueInv(cfg: Config, s: System) {
    && WorkOk(cfg, s.db.events, s.db.live, s.history.enqueued, s.history.latest)
    && WorkersOk(s.db.live, s.history.enqueued, s.workers)
    && RecordsOk(cfg, s.db.live, s.history.enqueued, s.history.records)
  }

  ghost predicate LinkInv(s: System) {
    && LinksOk(s.db.events, s.db.deliveries, s.history.canonical)
    && ReplaysOk(s.db.events, s.db.deliveries, s.history.enqueued)
    && EndpointsOk(s.db.endpoints, s.db.events, s.db.deliveries)
  }

  ghost predicate HistoryInv(s: System) {
    && AttemptsOk(s.db.events, s.db.attempts, s.history.newest)
    && RowsOk(s.db.events, s.db.attempts, s.history.records)
    && CountsOk(s.db.events, s.history.records, s.history.newest)
    && CommitsOk(s.db.app, s.history.records, s.history.commits)
  }

  ghost predicate Inv(cfg: Config, s: System) {
    Fresh(s) && QueueInv(cfg, s) && LinkInv(s) && HistoryInv(s)
  }
}
