/** Every step of every process keeps the invariant, so every run does. */
module Steps {
  import opened Schema
  import opened Honker
  import opened Inbox
  import opened Retention
  import opened Worker
  import opened Protocol
  import opened Invariant
  import opened Preservation
  import opened Selection

  // ---- ingest ----

  predicate Enabled(db: Db, inb: Inbound) {
    inb.endpoint in db.endpoints && db.endpoints[inb.endpoint]
  }

  lemma FoundEvent(db: Db, endpoint: string, key: Option<string>)
    ensures var f := FindExisting(db, endpoint, key);
      if f.Some? then key.Some? && f.value in db.events && Matches(db.events[f.value], endpoint, key.value)
      else key.Some? ==> forall e | e in db.events :: !Matches(db.events[e], endpoint, key.value)
  {
    if key.Some? {
      var hits := set e | e in db.events && Matches(db.events[e], endpoint, key.value);
      assert FindExisting(db, endpoint, key) ==
        if hits == {} then None else Some(Least(map e | e in hits :: 0, hits));
      assert forall e | e in db.events && Matches(db.events[e], endpoint, key.value) :: e in hits;
    }
  }

  /** An enabled endpoint's request creates no event. */
  predicate OnlyDelivery(db: Db, inb: Inbound) {
    Rejected(inb.signatureValid) || FindExisting(db, inb.endpoint, ChosenKey(inb)).Some?
  }

  /** One more delivery, and nothing else: refused and unlinked, or one of an
      event that has the key. */
  ghost predicate Extended(s: System, s': System, delivery: Delivery) {
    && (delivery.event.None? <==> Rejected(delivery.signatureValid))
    && (delivery.event.Some? ==>
          && delivery.event.value in s.db.events && delivery.dedupeKey.Some?
          && s.db.events[delivery.event.value].endpoint == delivery.endpoint
          && s.db.events[delivery.event.value].dedupeKey == delivery.dedupeKey)
    && delivery.endpoint in s.db.endpoints
    && s' == s.(now := s'.now, db := s.db.(deliveries := s.db.deliveries[s.db.nextDelivery := delivery],
                                           nextDelivery := s.db.nextDelivery + 1))
  }

  lemma ExtraDeliveryExtends(cfg: Config, s: System, inb: Inbound, ticks: Ticks) returns (delivery: Delivery)
    requires Enabled(s.db, inb) && OnlyDelivery(s.db, inb)
    ensures Extended(s, ReceiveStep(cfg, s, inb, ticks), delivery)
  {
    FoundEvent(s.db, inb.endpoint, ChosenKey(inb));
    delivery := ReceiveStep(cfg, s, inb, ticks).db.deliveries[s.db.nextDelivery];
  }

  lemma ExtendedKeepsLinks(s: System, s': System, delivery: Delivery)
    requires Fresh(s) && LinkInv(s) && Extended(s, s', delivery)
    ensures LinkInv(s')
  {
    LinksExtended(s.db.events, s.db.deliveries, s.history.canonical, s.db.nextDelivery, delivery);
    ReplaysKept(s.db.events, s.db.events, s.db.deliveries, s'.db.deliveries, s.history.enqueued);
  }

  /** A new event with its delivery, which is its canonical one, and its job. */
  ghost predicate Created(cfg: Config, s: System, s': System, ev: Event, delivery: Delivery) {
    var e, d, j, p := s.db.nextEvent, s.db.nextDelivery, s.db.nextJob, Knocker(s.db.nextEvent, None);
    && ev.status.Received? && Untold(ev) && ev.endpoint in s.db.endpoints
    && delivery.event == Some(e) && delivery.endpoint == ev.endpoint && delivery.request == ev.request
    && ev.receivedAt <= delivery.receivedAt
    && delivery.dedupeKey == ev.dedupeKey && !Rejected(delivery.signatureValid)
    && (ev.dedupeKey.Some? ==> forall f | f in s.db.events ::
          !(s.db.events[f].endpoint == ev.endpoint && s.db.events[f].dedupeKey == ev.dedupeKey))
    && s' == s.(
         now := s'.now,
         db := s.db.(events := s.db.events[e := ev], nextEvent := e + 1,
                     deliveries := s.db.deliveries[d := delivery], nextDelivery := d + 1,
                     live := s.db.live[j := Job(cfg.queue, p, cfg.maxAttempts, 0, None)], nextJob := j + 1),
         history := NoteEnqueued(s.history, j, p).(canonical := s.history.canonical[e := d]))
  }

  lemma NewEventCreates(cfg: Config, s: System, inb: Inbound, ticks: Ticks) returns (delivery: Delivery)
    requires Enabled(s.db, inb) && !OnlyDelivery(s.db, inb)
    ensures Created(cfg, s, ReceiveStep(cfg, s, inb, ticks), NewEvent(inb, s.now), delivery)
  {
    FoundEvent(s.db, inb.endpoint, ChosenKey(inb));
    delivery := ReceiveStep(cfg, s, inb, ticks).db.deliveries[s.db.nextDelivery];
  }

  lemma CreatedKeepsQueue(cfg: Config, s: System, s': System, ev: Event, delivery: Delivery)
    requires Fresh(s) && QueueInv(cfg, s) && Created(cfg, s, s', ev, delivery)
    ensures QueueInv(cfg, s')
  {
    var h, e, j := s.history, s.db.nextEvent, s.db.nextJob;
    WorkAdded(cfg, s.db.events, s.db.live, h.enqueued, h.latest, e, ev, j, s'.db.live[j]);
    WorkersKept(s.db.live, s'.db.live, h.enqueued, s'.history.enqueued, s.workers);
    RecordsKept(cfg, s.db.live, s'.db.live, h.enqueued, s'.history.enqueued, h.records);
  }

  lemma CreatedKeepsLinks(cfg: Config, s: System, s': System, ev: Event, delivery: Delivery)
    requires Fresh(s) && LinkInv(s) && Created(cfg, s, s', ev, delivery)
    ensures LinkInv(s')
  {
    CreatedLinks(cfg, s, s', ev, delivery);
    ReplaysKept(s.db.events, s'.db.events, s.db.deliveries, s'.db.deliveries, s.history.enqueued);
  }

  lemma CreatedLinks(cfg: Config, s: System, s': System, ev: Event, delivery: Delivery)
    requires FreshIds(s.db) && LinksOk(s.db.events, s.db.deliveries, s.history.canonical)
    requires Created(cfg, s, s', ev, delivery)
    ensures LinksOk(s'.db.events, s'.db.deliveries, s'.history.canonical)
  {
    LinksCreated(s.db.events, s.db.deliveries, s.history.canonical, s.db.nextEvent, ev, s.db.nextDelivery, delivery);
  }

  lemma CreatedKeepsHistory(cfg: Config, s: System, s': System, ev: Event, delivery: Delivery)
    requires Fresh(s) && HistoryInv(s) && Created(cfg, s, s', ev, delivery)
    ensures HistoryInv(s')
  {
    AttemptsReceived(s.db.events, s.db.attempts, s.history.newest, s.db.nextEvent, ev);
  }

  lemma ReceiveKeepsFresh(cfg: Config, s: System, inb: Inbound, ticks: Ticks)
    requires Fresh(s)
    ensures Fresh(ReceiveStep(cfg, s, inb, ticks))
  {
  }

  // ---- claims ----

  lemma {:induction false} HandleAt(db: Db, w: string, ids: seq<Id>, i: nat)
    requires Set(ids) <= db.live.Keys && i < |ids|
    ensures ids[i] in db.live && Handles(db, w, ids)[i] == HandleOf(db, w, ids[i])
  {
    assert ids[0] in Set(ids) && Set(ids[1..]) <= Set(ids);
    if i > 0 { HandleAt(db, w, ids[1..], i - 1); }
  }

  lemma WorkersClaimed(cfg: Config, s: System, w: string, until: int, ids: seq<Id>)
    requires WorkOk(cfg, s.db.events, s.db.live, s.history.enqueued, s.history.latest)
    requires WorkersOk(s.db.live, s.history.enqueued, s.workers)
    requires CanClaim(s.db, cfg.queue, s.now, ids)
    ensures var db := ClaimBatch(s.db, w, until, Set(ids));
      WorkersOk(db.live, s.history.enqueued, s.workers[w := WorkerState(Handles(db, w, ids), None)])
  {
    var db, enqueued := ClaimBatch(s.db, w, until, Set(ids)), s.history.enqueued;
    forall i | 0 <= i < |ids| ensures HandleOk(db.live, enqueued, w, Handles(db, w, ids)[i]) {
      HandleAt(db, w, ids, i);
      assert ids[i] in Set(ids) && Claimable(s.db.live[ids[i]], cfg.queue, s.now);
    }
    forall v | v in s.workers && v != w ensures WorkerOk(db.live, enqueued, v, s.workers[v]) {
      var ws := s.workers[v];
      forall i | 0 <= i < |ws.buffer| ensures HandleOk(db.live, enqueued, v, ws.buffer[i]) {
        assert HandleOk(s.db.live, enqueued, v, ws.buffer[i]);
      }
    }
  }

  lemma ClaimKeepsQueue(cfg: Config, s: System, w: string, ids: seq<Id>)
    requires QueueInv(cfg, s)
    ensures QueueInv(cfg, ClaimStep(cfg, s, w, ids))
  {
    if Idle(s, w) && |ids| <= CLAIM_BATCH && CanClaim(s.db, cfg.queue, s.now, ids) {
      var until, h := s.now + cfg.visibility, s.history;
      WorkClaimed(cfg, s.db, h.enqueued, h.latest, w, until, Set(ids));
      RecordsClaimed(cfg, s.db, h.enqueued, h.records, w, until, Set(ids));
      WorkersClaimed(cfg, s, w, until, ids);
    }
  }

  lemma ClaimKeepsRest(cfg: Config, s: System, w: string, ids: seq<Id>)
    requires Fresh(s) && LinkInv(s) && HistoryInv(s)
    ensures var s' := ClaimStep(cfg, s, w, ids); Fresh(s') && LinkInv(s') && HistoryInv(s')
  {
  }

  // ---- dispatch ----

  /** The handle a worker is about to dispatch, while its claim is held, stands
      for a live job of ours that has the same payload and attempt number. */
  lemma HeldJob(cfg: Config, s: System, w: string, hd: Handle, now: int)
    requires WorkOk(cfg, s.db.events, s.db.live, s.history.enqueued, s.history.latest)
    requires HandleOk(s.db.live, s.history.enqueued, w, hd) && hd.payload.Knocker?
    requires Holds(s.db.live, hd.job, hd.worker, now)
    ensures IsWork(cfg, s.db.live[hd.job]) && s.db.live[hd.job].payload == hd.payload
    ensures s.db.live[hd.job].attempts == hd.attempts >= 1
    ensures s.db.live[hd.job].maxAttempts == cfg.maxAttempts
    ensures hd.payload.event in s.db.events && Workable(s.db.events[hd.payload.event].status)
  {
  }

  /** A worker's transition under a held claim: the event takes a new status
      and gains an attempt row; the job leaves the queue, or is pending again. */
  ghost predicate Settled(cfg: Config, s: System, s': System, hd: Handle, ev: Event, a: Attempt, r: Record) {
    && hd.payload.Knocker? && hd.payload.event in s.db.events && Holds(s.db.live, hd.job, hd.worker, s'.now)
    && r.job == hd.job && r.event == hd.payload.event && r.claim == hd.attempts
    && (Final(r.outcome) || (r.outcome.Failed? && hd.attempts < cfg.maxAttempts))
    && (r.outcome.Handled? || r.writes == [])
    && SameIdentity(s.db.events[r.event], ev) && ev.status == r.outcome && ev.attemptCount == r.claim
    && a.event == r.event && a.outcome == r.outcome
    && s'.db == s.db.(
         events := s.db.events[r.event := ev],
         attempts := s.db.attempts[s.db.nextAttempt := a], nextAttempt := s.db.nextAttempt + 1,
         live := if Final(r.outcome) then s.db.live - {r.job} else s.db.live[r.job := s.db.live[r.job].(claim := None)],
         app := s.db.app + r.writes)
    && s'.history == NoteRecord(s.history, s.db.nextAttempt, r).(
         commits := if r.outcome.Handled? then s.history.commits + [s.db.nextAttempt] else s.history.commits)
  }

  lemma SettledKeepsFresh(cfg: Config, s: System, s': System, hd: Handle, ev: Event, a: Attempt, r: Record)
    requires Fresh(s) && Settled(cfg, s, s', hd, ev, a, r)
    ensures Fresh(s')
  {
  }

  lemma SettledKeepsQueue(cfg: Config, s: System, s': System, hd: Handle, ev: Event, a: Attempt, r: Record)
    requires Fresh(s) && QueueInv(cfg, s) && Settled(cfg, s, s', hd, ev, a, r)
    requires HandleOk(s.db.live, s.history.enqueued, hd.worker, hd)
    requires WorkersOk(s.db.live, s.history.enqueued, s'.workers)
    ensures QueueInv(cfg, s')
  {
    var h := s.history;
    HeldJob(cfg, s, hd.worker, hd, s'.now);
    WorkSettled(cfg, s.db.events, s.db.live, h.enqueued, h.latest, r.event, ev, r.job, s'.db.live);
    WorkersKept(s.db.live, s'.db.live, h.enqueued, h.enqueued, s'.workers);
    RecordsAdded(cfg, s.db.live, s'.db.live, h.enqueued, h.records, s.db.nextAttempt, r);
  }

  lemma SettledKeepsLinks(cfg: Config, s: System, s': System, hd: Handle, ev: Event, a: Attempt, r: Record)
    requires LinkInv(s) && Settled(cfg, s, s', hd, ev, a, r)
    ensures LinkInv(s')
  {
    LinksMarked(s.db.events, s.db.deliveries, s.history.canonical, r.event, ev);
    ReplaysKept(s.db.events, s'.db.events, s.db.deliveries, s.db.deliveries, s.history.enqueued);
  }

  lemma SettledKeepsHistory(cfg: Config, s: System, s': System, hd: Handle, ev: Event, a: Attempt, r: Record)
    requires Fresh(s) && HistoryInv(s) && Settled(cfg, s, s', hd, ev, a, r) && Told(ev, a)
    ensures HistoryInv(s')
  {
    var h, n := s.history, s.db.nextAttempt;
    AttemptsMarked(s.db.events, s.db.attempts, h.newest, r.event, ev, n, a);
    CountsMarked(s.db.events, h.records, h.newest, r.event, ev, n, r);
    SettledKeepsCommits(cfg, s, s', hd, ev, a, r);
  }

  lemma SettledKeepsCommits(cfg: Config, s: System, s': System, hd: Handle, ev: Event, a: Attempt, r: Record)
    requires Fresh(s) && CommitsOk(s.db.app, s.history.records, s.history.commits)
    requires Settled(cfg, s, s', hd, ev, a, r)
    ensures CommitsOk(s'.db.app, s'.history.records, s'.history.commits)
  {
    var h, n := s.history, s.db.nextAttempt;
    if r.outcome.Handled? {
      CommitsAdded(s.db.app, h.records, h.commits, n, r);
    } else {
      CommitsKept(s.db.app, h.records, h.commits, n, r);
      assert s.db.app + r.writes == s.db.app;
    }
  }

  function EndOf(s: System, w: string, registry: Registry, handler: HandlerResult, durationMs: int,
                 ticks: Ticks): DispatchEnd
    requires CanDispatch(s, w)
  {
    Dispatch(s.db, ClockFrom(s.now, ticks), s.workers[w].buffer[0], registry, handler, durationMs).1
  }

  predicate Settles(end: DispatchEnd) {
    end.Completed? || end.DeadLettered?
  }

  lemma DispatchSettles(cfg: Config, s: System, w: string, registry: Registry, handler: HandlerResult,
                        durationMs: int, ticks: Ticks)
    returns (ev: Event, a: Attempt, r: Record)
    requires CanDispatch(s, w) && Settles(EndOf(s, w, registry, handler, durationMs, ticks))
    ensures Settled(cfg, s, DispatchStep(s, w, registry, handler, durationMs, ticks), s.workers[w].buffer[0], ev, a, r)
    ensures s.db.events[r.event].handledAt.None? ==> Told(ev, a)
  {
    var hd := s.workers[w].buffer[0];
    var db' := DispatchStep(s, w, registry, handler, durationMs, ticks).db;
    var e := hd.payload.event;
    ev, a := db'.events[e], db'.attempts[s.db.nextAttempt];
    if EndOf(s, w, registry, handler, durationMs, ticks).Completed? {
      r := Record(hd.job, e, hd.attempts, Handled, handler.writes);
    } else {
      r := Record(hd.job, e, hd.attempts, Dead, []);
      assert s.db.app + r.writes == s.db.app;
    }
  }

  lemma DispatchWorkers(s: System, w: string, registry: Registry, handler: HandlerResult, durationMs: int, ticks: Ticks)
    requires WorkersOk(s.db.live, s.history.enqueued, s.workers)
    ensures WorkersOk(s.db.live, s.history.enqueued, DispatchStep(s, w, registry, handler, durationMs, ticks).workers)
  {
    if CanDispatch(s, w) {
      assert HandleOk(s.db.live, s.history.enqueued, w, s.workers[w].buffer[0]);
    }
  }

  /** A dispatch that does not settle its job removes at most a live job of an
      ignored event. */
  lemma DispatchDrains(cfg: Config, s: System, w: string, registry: Registry, handler: HandlerResult,
                       durationMs: int, ticks: Ticks)
    requires QueueInv(cfg, s) && CanDispatch(s, w) && !Settles(EndOf(s, w, registry, handler, durationMs, ticks))
    ensures var s' := DispatchStep(s, w, registry, handler, durationMs, ticks);
      var j := s.workers[w].buffer[0].job;
      && s'.history == s.history && s'.db == s.db.(live := s'.db.live)
      && (s'.db.live == s.db.live ||
          (s'.db.live == s.db.live - {j} && j in s.db.live && IsWork(cfg, s.db.live[j])
           && s.db.live[j].payload.event in s.db.events && s.db.events[s.db.live[j].payload.event].status.Ignored?))
  {
    var hd := s.workers[w].buffer[0];
    assert HandleOk(s.db.live, s.history.enqueued, w, hd);
    var last := ClockFrom(s.now, ticks).last;
    if hd.payload.Knocker? && Holds(s.db.live, hd.job, hd.worker, last) {
      HeldJob(cfg, s, w, hd, last);
    }
  }

  lemma DispatchKeepsQueue(cfg: Config, s: System, w: string, registry: Registry, handler: HandlerResult,
                           durationMs: int, ticks: Ticks)
    requires Fresh(s) && QueueInv(cfg, s) && CanDispatch(s, w)
    ensures QueueInv(cfg, DispatchStep(s, w, registry, handler, durationMs, ticks))
  {
    var s', h := DispatchStep(s, w, registry, handler, durationMs, ticks), s.history;
    var hd := s.workers[w].buffer[0];
    DispatchWorkers(s, w, registry, handler, durationMs, ticks);
    if Settles(EndOf(s, w, registry, handler, durationMs, ticks)) {
      var ev, a, r := DispatchSettles(cfg, s, w, registry, handler, durationMs, ticks);
      SettledKeepsQueue(cfg, s, s', hd, ev, a, r);
    } else {
      DispatchDrains(cfg, s, w, registry, handler, durationMs, ticks);
      if s'.db.live != s.db.live {
        WorkDrained(cfg, s.db.events, s.db.live, h.enqueued, h.latest, hd.job);
      }
      WorkersKept(s.db.live, s'.db.live, h.enqueued, h.enqueued, s'.workers);
      RecordsKept(cfg, s.db.live, s'.db.live, h.enqueued, h.enqueued, h.records);
    }
  }

  lemma SettledKeepsRest(cfg: Config, s: System, s': System, hd: Handle, ev: Event, a: Attempt, r: Record)
    requires Inv(cfg, s) && Settled(cfg, s, s', hd, ev, a, r) && Workable(s.db.events[r.event].status)
    requires s.db.events[r.event].handledAt.None? ==> Told(ev, a)
    ensures Fresh(s') && LinkInv(s') && HistoryInv(s')
  {
    assert EventTold(s.db.events[r.event], s.db.attempts, s.history.newest, r.event);
    SettledKeepsFresh(cfg, s, s', hd, ev, a, r);
    SettledKeepsLinks(cfg, s, s', hd, ev, a, r);
    SettledKeepsHistory(cfg, s, s', hd, ev, a, r);
  }

  lemma DispatchKeepsRest(cfg: Config, s: System, w: string, registry: Registry, handler: HandlerResult,
                          durationMs: int, ticks: Ticks)
    requires Inv(cfg, s) && CanDispatch(s, w)
    ensures var s' := DispatchStep(s, w, registry, handler, durationMs, ticks);
      Fresh(s') && LinkInv(s') && HistoryInv(s')
  {
    var s' := DispatchStep(s, w, registry, handler, durationMs, ticks);
    var hd := s.workers[w].buffer[0];
    if Settles(EndOf(s, w, registry, handler, durationMs, ticks)) {
      var ev, a, r := DispatchSettles(cfg, s, w, registry, handler, durationMs, ticks);
      HeldJob(cfg, s, w, hd, s'.now);
      SettledKeepsRest(cfg, s, s', hd, ev, a, r);
    } else {
      DispatchDrains(cfg, s, w, registry, handler, durationMs, ticks);
    }
  }

  // ---- the failure transaction ----

  predicate Records(cfg: Config, s: System, w: string, durationMs: int, ticks: Ticks) {
    CanRecord(s, w) &&
    var f := s.workers[w].failing.value;
    RecordFailure(s.db, ClockFrom(s.now, ticks), f.handle, f.error, cfg.maxAttempts, durationMs).result.Ok?
  }

  lemma RecordHolds(cfg: Config, s: System, w: string, durationMs: int, ticks: Ticks)
    requires Records(cfg, s, w, durationMs, ticks)
    ensures var hd := s.workers[w].failing.value.handle;
      Holds(s.db.live, hd.job, hd.worker, ClockFrom(s.now, ticks).last) && hd.payload.event in s.db.events
  {
  }

  lemma RecordWrites(cfg: Config, s: System, w: string, durationMs: int, ticks: Ticks)
    returns (ev: Event, a: Attempt, r: Record)
    requires Records(cfg, s, w, durationMs, ticks)
    requires var hd := s.workers[w].failing.value.handle;
      && hd.job in s.db.live
      && s.db.live[hd.job].attempts == hd.attempts && s.db.live[hd.job].maxAttempts == cfg.maxAttempts
    ensures Settled(cfg, s, RecordStep(cfg, s, w, durationMs, ticks), s.workers[w].failing.value.handle, ev, a, r)
    ensures r.outcome == FailureStatus(Terminal(s.workers[w].failing.value.handle, cfg.maxAttempts))
    ensures s.db.events[r.event].handledAt.None? ==> Told(ev, a)
  {
    var hd := s.workers[w].failing.value.handle;
    var db' := RecordStep(cfg, s, w, durationMs, ticks).db;
    ev, a := db'.events[hd.payload.event], db'.attempts[s.db.nextAttempt];
    r := Record(hd.job, hd.payload.event, hd.attempts, FailureStatus(Terminal(hd, cfg.maxAttempts)), []);
    assert s.db.app + r.writes == s.db.app;
  }

  lemma RecordSettles(cfg: Config, s: System, w: string, durationMs: int, ticks: Ticks)
    returns (ev: Event, a: Attempt, r: Record)
    requires WorkOk(cfg, s.db.events, s.db.live, s.history.enqueued, s.history.latest)
    requires Records(cfg, s, w, durationMs, ticks)
    requires HandleOk(s.db.live, s.history.enqueued, w, s.workers[w].failing.value.handle)
    ensures Settled(cfg, s, RecordStep(cfg, s, w, durationMs, ticks), s.workers[w].failing.value.handle, ev, a, r)
    ensures r.outcome == FailureStatus(Terminal(s.workers[w].failing.value.handle, cfg.maxAttempts))
    ensures s.db.events[r.event].handledAt.None? ==> Told(ev, a)
  {
    RecordHolds(cfg, s, w, durationMs, ticks);
    HeldJob(cfg, s, w, s.workers[w].failing.value.handle, ClockFrom(s.now, ticks).last);
    ev, a, r := RecordWrites(cfg, s, w, durationMs, ticks);
  }

  lemma RecordKeepsQueue(cfg: Config, s: System, w: string, durationMs: int, ticks: Ticks)
    requires Fresh(s) && QueueInv(cfg, s)
    ensures QueueInv(cfg, RecordStep(cfg, s, w, durationMs, ticks))
  {
    var s' := RecordStep(cfg, s, w, durationMs, ticks);
    if Records(cfg, s, w, durationMs, ticks) {
      var ev, a, r := RecordSettles(cfg, s, w, durationMs, ticks);
      SettledKeepsQueue(cfg, s, s', s.workers[w].failing.value.handle, ev, a, r);
    }
  }

  lemma RecordKeepsRest(cfg: Config, s: System, w: string, durationMs: int, ticks: Ticks)
    requires Inv(cfg, s)
    ensures var s' := RecordStep(cfg, s, w, durationMs, ticks); Fresh(s') && LinkInv(s') && HistoryInv(s')
  {
    if Records(cfg, s, w, durationMs, ticks) {
      var hd := s.workers[w].failing.value.handle;
      var ev, a, r := RecordSettles(cfg, s, w, durationMs, ticks);
      HeldJob(cfg, s, w, hd, ClockFrom(s.now, ticks).last);
      SettledKeepsRest(cfg, s, RecordStep(cfg, s, w, durationMs, ticks), hd, ev, a, r);
    }
  }

  // ---- operators ----

  /** An ignore that changes something. */
  predicate Ignorable(db: Db, e: Id) {
    e in db.events && (Pending(db.events[e].status) || db.events[e].status.Dead?)
  }

  ghost predicate IgnoredAs(s: System, s': System, e: Id, ev: Event, a: Attempt) {
    && Ignorable(s.db, e) && ev.status.Ignored? && SameIdentity(s.db.events[e], ev)
    && a.event == e && a.outcome.Ignored?
    && s' == s.(
         db := s.db.(events := s.db.events[e := ev],
                     attempts := s.db.attempts[s.db.nextAttempt := a], nextAttempt := s.db.nextAttempt + 1),
         history := s.history.(newest := s.history.newest[e := s.db.nextAttempt]))
  }

  lemma IgnoreMarks(s: System, e: Id) returns (ev: Event, a: Attempt)
    requires Ignorable(s.db, e)
    ensures IgnoredAs(s, IgnoreStep(s, e), e, ev, a)
    ensures s.db.events[e].handledAt.None? ==> Told(ev, a)
  {
    ev := s.db.events[e].(status := Ignored, lastError := None);
    a := Attempt(e, s.now, Ignored, None, 0);
  }

  lemma IgnoredKeepsQueue(cfg: Config, s: System, s': System, e: Id, ev: Event, a: Attempt)
    requires QueueInv(cfg, s) && IgnoredAs(s, s', e, ev, a)
    ensures QueueInv(cfg, s')
  {
    WorkIgnored(cfg, s.db.events, s.db.live, s.history.enqueued, s.history.latest, e, ev);
  }

  lemma IgnoredKeepsFresh(s: System, s': System, e: Id, ev: Event, a: Attempt)
    requires Fresh(s) && IgnoredAs(s, s', e, ev, a)
    ensures Fresh(s')
  {
  }

  lemma IgnoredKeepsLinks(s: System, s': System, e: Id, ev: Event, a: Attempt)
    requires LinkInv(s) && IgnoredAs(s, s', e, ev, a)
    ensures LinkInv(s')
  {
    LinksMarked(s.db.events, s.db.deliveries, s.history.canonical, e, ev);
    ReplaysKept(s.db.events, s'.db.events, s.db.deliveries, s.db.deliveries, s.history.enqueued);
  }

  lemma IgnoredKeepsHistory(s: System, s': System, e: Id, ev: Event, a: Attempt)
    requires Fresh(s) && HistoryInv(s) && IgnoredAs(s, s', e, ev, a) && Told(ev, a)
    ensures HistoryInv(s')
  {
    AttemptsMarked(s.db.events, s.db.attempts, s.history.newest, e, ev, s.db.nextAttempt, a);
  }

  /** A replay, requeue or replay_delivery that goes through. */
  ghost predicate Restarts(cfg: Config, s: System, o: Outcome<()>, payload: Payload) {
    && payload.Knocker? && payload.event in s.db.events
    && ReplayLink(s.db.events, s.db.deliveries, payload)
    && o == Restart(s.db, payload.event, payload, cfg.queue, cfg.maxAttempts)
  }

  lemma RestartKeepsQueue(cfg: Config, s: System, o: Outcome<()>, payload: Payload)
    requires Fresh(s) && QueueInv(cfg, s) && Restarts(cfg, s, o, payload)
    ensures QueueInv(cfg, RestartStep(s, o, payload))
  {
    var s', h, e, j := RestartStep(s, o, payload), s.history, payload.event, s.db.nextJob;
    WorkRestarted(cfg, s.db.events, s.db.live, h.enqueued, h.latest, e, s'.db.events[e], payload, j);
    WorkersKept(s.db.live, s'.db.live, h.enqueued, s'.history.enqueued, s.workers);
    RecordsKept(cfg, s.db.live, s'.db.live, h.enqueued, s'.history.enqueued, h.records);
  }

  lemma RestartKeepsLinks(cfg: Config, s: System, o: Outcome<()>, payload: Payload)
    requires Fresh(s) && LinkInv(s) && Restarts(cfg, s, o, payload)
    ensures LinkInv(RestartStep(s, o, payload))
  {
    var s', e := RestartStep(s, o, payload), payload.event;
    LinksMarked(s.db.events, s.db.deliveries, s.history.canonical, e, s'.db.events[e]);
    ReplaysKept(s.db.events, s'.db.events, s.db.deliveries, s.db.deliveries, s.history.enqueued);
  }

  lemma RestartKeepsHistory(cfg: Config, s: System, o: Outcome<()>, payload: Payload)
    requires Fresh(s) && HistoryInv(s) && Restarts(cfg, s, o, payload)
    ensures Fresh(RestartStep(s, o, payload)) && HistoryInv(RestartStep(s, o, payload))
  {
    var e := payload.event;
    AttemptsReceived(s.db.events, s.db.attempts, s.history.newest, e, RestartStep(s, o, payload).db.events[e]);
  }

  // ---- retention ----

  lemma DeleteKeepsQueue(cfg: Config, s: System, gone: set<Id>, audits: seq<Audit>)
    requires QueueInv(cfg, s)
    ensures QueueInv(cfg, s.(db := DeleteEvents(s.db, cfg.queue, gone).(audits := audits)))
  {
    var db', h := DeleteEvents(s.db, cfg.queue, gone), s.history;
    WorkPruned(cfg, s.db.events, s.db.live, h.enqueued, h.latest, gone);
    WorkersKept(s.db.live, db'.live, h.enqueued, h.enqueued, s.workers);
    RecordsKept(cfg, s.db.live, db'.live, h.enqueued, h.enqueued, h.records);
  }

  lemma DeleteKeepsLinks(cfg: Config, s: System, gone: set<Id>, audits: seq<Audit>)
    requires LinkInv(s)
    ensures LinkInv(s.(db := DeleteEvents(s.db, cfg.queue, gone).(audits := audits)))
  {
    var db', h := DeleteEvents(s.db, cfg.queue, gone), s.history;
    LinksPruned(s.db, h.canonical, cfg.queue, gone);
    ReplaysKept(s.db.events, db'.events, s.db.deliveries, db'.deliveries, h.enqueued);
  }

  lemma DeleteKeepsHistory(cfg: Config, s: System, gone: set<Id>, audits: seq<Audit>)
    requires HistoryInv(s)
    ensures HistoryInv(s.(db := DeleteEvents(s.db, cfg.queue, gone).(audits := audits)))
  {
    AttemptsPruned(s.db, s.history.newest, cfg.queue, gone);
    RowsPruned(s.db, s.history.records, cfg.queue, gone);
  }

  lemma DeleteKeepsFresh(cfg: Config, s: System, gone: set<Id>, audits: seq<Audit>)
    requires Fresh(s)
    ensures Fresh(s.(db := DeleteEvents(s.db, cfg.queue, gone).(audits := audits)))
  {
  }

  lemma OrphansKeepRest(s: System, gone: set<Id>, audits: seq<Audit>)
    requires Fresh(s) && LinkInv(s) && HistoryInv(s)
    requires forall d | d in gone :: d in s.db.deliveries && s.db.deliveries[d].event.None?
    ensures var s' := s.(db := s.db.(deliveries := s.db.deliveries - gone, audits := audits));
      Fresh(s') && LinkInv(s') && HistoryInv(s')
  {
    LinksWithoutOrphans(s.db.events, s.db.deliveries, s.history.canonical, gone);
    ReplaysKept(s.db.events, s.db.events, s.db.deliveries, s.db.deliveries - gone, s.history.enqueued);
  }

  // ---- all steps ----

  predicate OfWorker(step: Step) {
    step.ClaimJobs? || step.DispatchNext? || step.RecordFailing? || step.StopWorker?
  }

  predicate OfOperator(step: Step) {
    step.IgnoreEvent? || step.ReplayEvent? || step.RequeueEvent? || step.ReplayOneDelivery?
  }

  predicate OfRetention(step: Step) {
    step.PruneOldEvents? || step.PruneOldOrphans? || step.RunRetention?
  }

  lemma RestartKeepsInv(cfg: Config, s: System, o: Outcome<()>, payload: Payload)
    requires Inv(cfg, s) && Restarts(cfg, s, o, payload)
    ensures Inv(cfg, RestartStep(s, o, payload))
  {
    RestartKeepsQueue(cfg, s, o, payload);
    RestartKeepsLinks(cfg, s, o, payload);
    RestartKeepsHistory(cfg, s, o, payload);
  }

  lemma IgnoreKeepsInv(cfg: Config, s: System, e: Id)
    requires Inv(cfg, s) && Ignorable(s.db, e)
    ensures Inv(cfg, IgnoreStep(s, e))
  {
    var s' := IgnoreStep(s, e);
    var ev, a := IgnoreMarks(s, e);
    assert EventTold(s.db.events[e], s.db.attempts, s.history.newest, e);
    IgnoredKeepsQueue(cfg, s, s', e, ev, a);
    IgnoredKeepsFresh(s, s', e, ev, a);
    IgnoredKeepsLinks(s, s', e, ev, a);
    IgnoredKeepsHistory(s, s', e, ev, a);
  }

  lemma EventPruneKeepsInv(cfg: Config, s: System, at: int, statuses: seq<Status>, olderThan: int, limit: int)
    requires Inv(cfg, s)
    ensures Inv(cfg, s.(db := PruneEvents(s.db, at, statuses, olderThan, limit, cfg.queue).db))
  {
    var o := PruneEvents(s.db, at, statuses, olderThan, limit, cfg.queue);
    if o.result.Ok? {
      var gone := Set(EventCandidates(s.db, statuses, olderThan, limit));
      DeleteKeepsQueue(cfg, s, gone, o.db.audits);
      DeleteKeepsLinks(cfg, s, gone, o.db.audits);
      DeleteKeepsHistory(cfg, s, gone, o.db.audits);
      DeleteKeepsFresh(cfg, s, gone, o.db.audits);
    }
  }

  lemma OrphanPruneKeepsInv(cfg: Config, s: System, at: int, olderThan: int, limit: int)
    requires Inv(cfg, s)
    ensures Inv(cfg, s.(db := PruneOrphans(s.db, at, olderThan, limit, cfg.queue).db))
  {
    var o := PruneOrphans(s.db, at, olderThan, limit, cfg.queue);
    if o.result.Ok? {
      var orphans := EligibleOrphans(s.db, olderThan);
      var gone := Set(OrphanCandidates(s.db, olderThan, limit));
      TakeMeets(DeliveryTimes(s.db), orphans, limit);
      assert gone <= orphans;
      OrphansKeepRest(s, gone, o.db.audits);
    }
  }

  lemma EventHalfRunsKeepsInv(cfg: Config, s: System, at: int, p: Policy)
    requires Inv(cfg, s) && p.eventCutoff.Some?
    ensures Inv(cfg, s.(db := EventHalf(s.db, at, p, cfg.queue).db))
  {
    EventPruneKeepsInv(cfg, s, at, p.statuses, p.eventCutoff.value, p.eventLimit);
  }

  lemma EventHalfSkippedKeepsInv(cfg: Config, s: System, at: int, p: Policy)
    requires Inv(cfg, s) && p.eventCutoff.None?
    ensures Inv(cfg, s.(db := EventHalf(s.db, at, p, cfg.queue).db))
  {
  }

  lemma EventHalfKeepsInv(cfg: Config, s: System, at: int, p: Policy)
    requires Inv(cfg, s)
    ensures Inv(cfg, s.(db := EventHalf(s.db, at, p, cfg.queue).db))
  {
    if p.eventCutoff.Some? {
      EventHalfRunsKeepsInv(cfg, s, at, p);
    } else {
      EventHalfSkippedKeepsInv(cfg, s, at, p);
    }
  }

  lemma OrphanHalfRunsKeepsInv(cfg: Config, s: System, at: int, p: Policy)
    requires Inv(cfg, s) && p.orphanCutoff.Some?
    ensures Inv(cfg, s.(db := OrphanHalf(s.db, at, p, cfg.queue).db))
  {
    OrphanPruneKeepsInv(cfg, s, at, p.orphanCutoff.value, p.orphanLimit);
  }

  lemma OrphanHalfSkippedKeepsInv(cfg: Config, s: System, at: int, p: Policy)
    requires Inv(cfg, s) && p.orphanCutoff.None?
    ensures Inv(cfg, s.(db := OrphanHalf(s.db, at, p, cfg.queue).db))
  {
  }

  lemma OrphanHalfKeepsInv(cfg: Config, s: System, at: int, p: Policy)
    requires Inv(cfg, s)
    ensures Inv(cfg, s.(db := OrphanHalf(s.db, at, p, cfg.queue).db))
  {
    if p.orphanCutoff.Some? {
      OrphanHalfRunsKeepsInv(cfg, s, at, p);
    } else {
      OrphanHalfSkippedKeepsInv(cfg, s, at, p);
    }
  }

  /** What a retention pass that commits leaves. */
  function Halves(db: Db, clock: Clock, p: Policy, queue: string): Db {
    OrphanHalf(EventHalf(db, clock.first, p, queue).db, clock.second, p, queue).db
  }

  lemma PassKeepsInv(cfg: Config, s: System, clock: Clock, p: Policy)
    requires Inv(cfg, s)
    ensures Inv(cfg, s.(db := Halves(s.db, clock, p, cfg.queue)))
  {
    var mid := s.(db := EventHalf(s.db, clock.first, p, cfg.queue).db);
    EventHalfKeepsInv(cfg, s, clock.first, p);
    OrphanHalfKeepsInv(cfg, mid, clock.second, p);
  }

  lemma OthersKeepInv(cfg: Config, s: System, live: Live, nextJob: Id)
    requires Inv(cfg, s) && OthersMay(cfg, s.db, live, nextJob)
    ensures Inv(cfg, s.(db := s.db.(live := live, nextJob := nextJob)))
  {
    var h := s.history;
    WorkAmongOthers(cfg, s.db, h.enqueued, h.latest, live, nextJob);
    WorkersKept(s.db.live, live, h.enqueued, h.enqueued, s.workers);
    RecordsKept(cfg, s.db.live, live, h.enqueued, h.enqueued, h.records);
  }

  lemma ReceiveKeepsInv(cfg: Config, s: System, inb: Inbound, ticks: Ticks)
    requires Inv(cfg, s)
    ensures Inv(cfg, ReceiveStep(cfg, s, inb, ticks))
  {
    ReceiveKeepsFresh(cfg, s, inb, ticks);
    if Enabled(s.db, inb) {
      var s' := ReceiveStep(cfg, s, inb, ticks);
      if OnlyDelivery(s.db, inb) {
        var delivery := ExtraDeliveryExtends(cfg, s, inb, ticks);
        ExtendedKeepsLinks(s, s', delivery);
      } else {
        var ev := NewEvent(inb, s.now);
        var delivery := NewEventCreates(cfg, s, inb, ticks);
        CreatedKeepsQueue(cfg, s, s', ev, delivery);
        CreatedKeepsLinks(cfg, s, s', ev, delivery);
        CreatedKeepsHistory(cfg, s, s', ev, delivery);
      }
    }
  }

  lemma StartInv(cfg: Config)
    ensures Inv(cfg, START)
  {
  }

  // ---- what each step is ----

  lemma ReceiveIs(cfg: Config, s: System, step: Step)
    requires step.Receive?
    ensures Next(cfg, s, step) == ReceiveStep(cfg, s, step.inbound, step.ticks)
  {
  }

  lemma ClaimIs(cfg: Config, s: System, step: Step)
    requires step.ClaimJobs?
    ensures Next(cfg, s, step) == ClaimStep(cfg, s, step.worker, step.ids)
  {
  }

  lemma DispatchIs(cfg: Config, s: System, step: Step)
    requires step.DispatchNext?
    ensures Next(cfg, s, step) ==
      DispatchStep(s, step.worker, step.registry, step.handler, step.durationMs, step.ticks)
  {
  }

  lemma RecordIs(cfg: Config, s: System, step: Step)
    requires step.RecordFailing?
    ensures Next(cfg, s, step) == RecordStep(cfg, s, step.worker, step.durationMs, step.ticks)
  {
  }

  lemma IgnoreIs(cfg: Config, s: System, step: Step)
    requires step.IgnoreEvent?
    ensures Next(cfg, s, step) == if Ignorable(s.db, step.event) then IgnoreStep(s, step.event) else s
  {
  }

  /** The payload of the job that an operator's step puts on the queue, if the
      event's status lets it. */
  function RestartPayload(db: Db, step: Step): Option<Payload> {
    match step
    case ReplayEvent(e) =>
      if e in db.events && db.events[e].status in {Handled, Failed, Dead, Ignored} then Some(Knocker(e, None)) else None
    case RequeueEvent(e) =>
      if e in db.events && db.events[e].status in {Failed, Dead, Ignored} then Some(Knocker(e, None)) else None
    case ReplayOneDelivery(d) =>
      if d in db.deliveries && db.deliveries[d].event.Some? && db.deliveries[d].event.value in db.events
        && db.events[db.deliveries[d].event.value].status in {Handled, Failed, Dead, Ignored}
      then Some(Knocker(db.deliveries[d].event.value, Some(d))) else None
    case _ => None
  }

  predicate OfRestart(step: Step) {
    step.ReplayEvent? || step.RequeueEvent? || step.ReplayOneDelivery?
  }

  /** A restart that goes through. */
  function Restarted(cfg: Config, s: System, p: Payload): System
    requires p.Knocker?
  {
    RestartStep(s, Restart(s.db, p.event, p, cfg.queue, cfg.maxAttempts), p)
  }

  lemma ReplayIs(cfg: Config, s: System, step: Step)
    requires step.ReplayEvent?
    ensures var p := RestartPayload(s.db, step); Next(cfg, s, step) == if p.Some? then Restarted(cfg, s, p.value) else s
  {
  }

  lemma RequeueIs(cfg: Config, s: System, step: Step)
    requires step.RequeueEvent?
    ensures var p := RestartPayload(s.db, step); Next(cfg, s, step) == if p.Some? then Restarted(cfg, s, p.value) else s
  {
  }

  lemma ReplayDeliveryIs(cfg: Config, s: System, step: Step)
    requires step.ReplayOneDelivery?
    ensures var p := RestartPayload(s.db, step); Next(cfg, s, step) == if p.Some? then Restarted(cfg, s, p.value) else s
  {
  }

  lemma RestartIs(cfg: Config, s: System, step: Step)
    requires OfRestart(step)
    ensures var p := RestartPayload(s.db, step); Next(cfg, s, step) == if p.Some? then Restarted(cfg, s, p.value) else s
  {
    match step
    case ReplayEvent(_) => ReplayIs(cfg, s, step);
    case RequeueEvent(_) => RequeueIs(cfg, s, step);
    case ReplayOneDelivery(_) => ReplayDeliveryIs(cfg, s, step);
  }

  lemma EventPruneIs(cfg: Config, s: System, step: Step)
    requires step.PruneOldEvents?
    ensures Next(cfg, s, step) ==
      s.(db := PruneEvents(s.db, s.now, step.statuses, step.olderThan, step.limit, cfg.queue).db)
  {
  }

  lemma OrphanPruneIs(cfg: Config, s: System, step: Step)
    requires step.PruneOldOrphans?
    ensures Next(cfg, s, step) ==
      s.(db := PruneOrphans(s.db, s.now, step.olderThan, step.limit, cfg.queue).db)
  {
  }

  lemma PassIs(cfg: Config, s: System, step: Step)
    requires step.RunRetention?
    ensures var clock := ClockFrom(s.now, step.ticks);
      Next(cfg, s, step) == s.(now := clock.last) ||
      Next(cfg, s, step) == s.(db := Halves(s.db, clock, step.policy, cfg.queue), now := clock.last)
  {
  }

  lemma OthersIs(cfg: Config, s: System, step: Step)
    requires step.OtherJobs?
    ensures Next(cfg, s, step) ==
      if OthersMay(cfg, s.db, step.live, step.nextJob)
      then s.(db := s.db.(live := step.live, nextJob := step.nextJob)) else s
  {
  }

  lemma EndpointIs(cfg: Config, s: System, step: Step)
    requires step.ConfigureEndpoint?
    ensures Next(cfg, s, step) == s.(db := s.db.(endpoints := s.db.endpoints[step.name := step.enabled]))
  {
  }

  lemma WaitIs(cfg: Config, s: System, step: Step)
    requires step.StopWorker? || step.ElapseTime?
    ensures var s' := Next(cfg, s, step);
      s' == s.(workers := s'.workers, now := s'.now) && s'.workers == s.workers - (s.workers.Keys - s'.workers.Keys)
  {
  }

  // ---- every step keeps the invariant ----

  lemma ClaimKeepsInv(cfg: Config, s: System, w: string, ids: seq<Id>)
    requires Inv(cfg, s)
    ensures Inv(cfg, ClaimStep(cfg, s, w, ids))
  {
    ClaimKeepsQueue(cfg, s, w, ids);
    ClaimKeepsRest(cfg, s, w, ids);
  }

  lemma DispatchKeepsInv(cfg: Config, s: System, w: string, registry: Registry, handler: HandlerResult,
                         durationMs: int, ticks: Ticks)
    requires Inv(cfg, s)
    ensures Inv(cfg, DispatchStep(s, w, registry, handler, durationMs, ticks))
  {
    if CanDispatch(s, w) {
      DispatchKeepsQueue(cfg, s, w, registry, handler, durationMs, ticks);
      DispatchKeepsRest(cfg, s, w, registry, handler, durationMs, ticks);
    }
  }

  lemma RecordKeepsInv(cfg: Config, s: System, w: string, durationMs: int, ticks: Ticks)
    requires Inv(cfg, s)
    ensures Inv(cfg, RecordStep(cfg, s, w, durationMs, ticks))
  {
    RecordKeepsQueue(cfg, s, w, durationMs, ticks);
    RecordKeepsRest(cfg, s, w, durationMs, ticks);
  }

  lemma RestartStepKeepsInv(cfg: Config, s: System, step: Step)
    requires Inv(cfg, s) && OfRestart(step)
    ensures Inv(cfg, Next(cfg, s, step))
  {
    RestartIs(cfg, s, step);
    var p := RestartPayload(s.db, step);
    if p.Some? {
      var o := Restart(s.db, p.value.event, p.value, cfg.queue, cfg.maxAttempts);
      RestartLinks(cfg, s, step);
      RestartKeepsInv(cfg, s, o, p.value);
    }
  }

  lemma RestartLinks(cfg: Config, s: System, step: Step)
    requires OfRestart(step) && RestartPayload(s.db, step).Some?
    ensures var p := RestartPayload(s.db, step).value;
      Restarts(cfg, s, Restart(s.db, p.event, p, cfg.queue, cfg.maxAttempts), p)
  {
  }

  lemma WorkerStepKeepsInv(cfg: Config, s: System, step: Step)
    requires Inv(cfg, s) && OfWorker(step) && !step.StopWorker?
    ensures Inv(cfg, Next(cfg, s, step))
  {
    if step.DispatchNext? {
      DispatchIs(cfg, s, step);
      DispatchKeepsInv(cfg, s, step.worker, step.registry, step.handler, step.durationMs, step.ticks);
    } else if step.RecordFailing? {
      RecordIs(cfg, s, step);
      RecordKeepsInv(cfg, s, step.worker, step.durationMs, step.ticks);
    } else {
      ClaimIs(cfg, s, step);
      ClaimKeepsInv(cfg, s, step.worker, step.ids);
    }
  }

  lemma RetentionStepKeepsInv(cfg: Config, s: System, step: Step)
    requires Inv(cfg, s) && OfRetention(step)
    ensures Inv(cfg, Next(cfg, s, step))
  {
    if step.PruneOldEvents? {
      EventPruneIs(cfg, s, step);
      EventPruneKeepsInv(cfg, s, s.now, step.statuses, step.olderThan, step.limit);
    } else if step.PruneOldOrphans? {
      OrphanPruneIs(cfg, s, step);
      OrphanPruneKeepsInv(cfg, s, s.now, step.olderThan, step.limit);
    } else {
      PassIs(cfg, s, step);
      PassKeepsInv(cfg, s, ClockFrom(s.now, step.ticks), step.policy);
    }
  }

  lemma IgnoreStepKeepsInv(cfg: Config, s: System, step: Step)
    requires Inv(cfg, s) && step.IgnoreEvent?
    ensures Inv(cfg, Next(cfg, s, step))
  {
    IgnoreIs(cfg, s, step);
    if Ignorable(s.db, step.event) { IgnoreKeepsInv(cfg, s, step.event); }
  }

  lemma ReceiveStepKeepsInv(cfg: Config, s: System, step: Step)
    requires Inv(cfg, s) && step.Receive?
    ensures Inv(cfg, Next(cfg, s, step))
  {
    ReceiveIs(cfg, s, step);
    ReceiveKeepsInv(cfg, s, step.inbound, step.ticks);
  }

  lemma EndpointKeepsInv(cfg: Config, s: System, name: string, enabled: bool)
    requires Inv(cfg, s)
    ensures Inv(cfg, s.(db := s.db.(endpoints := s.db.endpoints[name := enabled])))
  {
  }

  lemma SurroundingsKeepInv(cfg: Config, s: System, step: Step)
    requires Inv(cfg, s)
    requires step.StopWorker? || step.ConfigureEndpoint? || step.ElapseTime? || step.OtherJobs?
    ensures Inv(cfg, Next(cfg, s, step))
  {
    if step.OtherJobs? {
      OthersIs(cfg, s, step);
      if OthersMay(cfg, s.db, step.live, step.nextJob) { OthersKeepInv(cfg, s, step.live, step.nextJob); }
    } else if step.ConfigureEndpoint? {
      EndpointIs(cfg, s, step);
      EndpointKeepsInv(cfg, s, step.name, step.enabled);
    } else {
      WaitIs(cfg, s, step);
    }
  }

  lemma NextKeepsInv(cfg: Config, s: System, step: Step)
    requires Inv(cfg, s)
    ensures Inv(cfg, Next(cfg, s, step))
  {
    if OfWorker(step) && !step.StopWorker? {
      WorkerStepKeepsInv(cfg, s, step);
    } else if OfRestart(step) {
      RestartStepKeepsInv(cfg, s, step);
    } else if OfRetention(step) {
      RetentionStepKeepsInv(cfg, s, step);
    } else if step.IgnoreEvent? {
      IgnoreStepKeepsInv(cfg, s, step);
    } else if step.Receive? {
      ReceiveStepKeepsInv(cfg, s, step);
    } else {
      SurroundingsKeepInv(cfg, s, step);
    }
  }

  lemma {:induction false} RunKeepsInv(cfg: Config, s: System, steps: seq<Step>)
    requires Inv(cfg, s)
    ensures Inv(cfg, Run(cfg, s, steps))
    decreases |steps|
  {
    if steps != [] {
      NextKeepsInv(cfg, s, steps[0]);
      RunKeepsInv(cfg, Next(cfg, s, steps[0]), steps[1..]);
    }
  }

  /** The parts of the invariant, one at a time, for every reachable state. */
  lemma ReachableQueue(cfg: Config, steps: seq<Step>)
    ensures QueueInv(cfg, Run(cfg, START, steps))
  {
    StartInv(cfg);
    RunKeepsInv(cfg, START, steps);
  }

  lemma ReachableLinks(cfg: Config, steps: seq<Step>)
    ensures LinkInv(Run(cfg, START, steps))
  {
    StartInv(cfg);
    RunKeepsInv(cfg, START, steps);
  }

  lemma ReachableHistory(cfg: Config, steps: seq<Step>)
    ensures HistoryInv(Run(cfg, START, steps))
  {
    StartInv(cfg);
    RunKeepsInv(cfg, START, steps);
  }

  lemma ReachableFresh(cfg: Config, steps: seq<Step>)
    ensures Fresh(Run(cfg, START, steps))
  {
    StartInv(cfg);
    RunKeepsInv(cfg, START, steps);
  }
}
