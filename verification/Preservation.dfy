/** How each kind of change to the tables keeps each part of the invariant. */
module Preservation {
  import opened Schema
  import opened Honker
  import opened Inbox
  import opened Retention
  import opened Worker
  import opened Protocol
  import opened Invariant

  // ---- status and queue ----

  lemma WorkAdded(cfg: Config, events: Events, live: Live, enqueued: map<Id, Payload>, latest: Ids,
                  e: Id, ev: Event, j: Id, job: Job)
    requires WorkOk(cfg, events, live, enqueued, latest)
    requires e !in events && j !in enqueued && j !in live
    requires forall k | k in enqueued :: enqueued[k].Knocker? && enqueued[k].event != e
    requires ev.status.Received? && job == Job(cfg.queue, Knocker(e, None), cfg.maxAttempts, 0, None)
    ensures WorkOk(cfg, events[e := ev], live[j := job], enqueued[j := job.payload], latest[e := j])
  {
  }

  /** A worker's transition: the job goes and the event is final, or the job is
      pending again and the event is failed. */
  lemma WorkSettled(cfg: Config, events: Events, live: Live, enqueued: map<Id, Payload>, latest: Ids,
                    e: Id, ev: Event, j: Id, live': Live)
    requires WorkOk(cfg, events, live, enqueued, latest)
    requires e in events && j in live && IsWork(cfg, live[j]) && live[j].payload.event == e
    requires if Final(ev.status) then live' == live - {j}
             else ev.status.Failed? && live' == live[j := live[j].(claim := None)]
    ensures WorkOk(cfg, events[e := ev], live', enqueued, latest)
  {
  }

  lemma WorkDrained(cfg: Config, events: Events, live: Live, enqueued: map<Id, Payload>, latest: Ids, j: Id)
    requires WorkOk(cfg, events, live, enqueued, latest)
    requires j in live && IsWork(cfg, live[j])
    requires live[j].payload.event in events ==> events[live[j].payload.event].status.Ignored?
    ensures WorkOk(cfg, events, live - {j}, enqueued, latest)
  {
  }

  lemma WorkIgnored(cfg: Config, events: Events, live: Live, enqueued: map<Id, Payload>, latest: Ids, e: Id, ev: Event)
    requires WorkOk(cfg, events, live, enqueued, latest)
    requires e in events && (Pending(events[e].status) || events[e].status.Dead?) && ev.status.Ignored?
    ensures WorkOk(cfg, events[e := ev], live, enqueued, latest)
  {
  }

  lemma WorkClaimed(cfg: Config, db: Db, enqueued: map<Id, Payload>, latest: Ids, w: string, until: int, ids: set<Id>)
    requires WorkOk(cfg, db.events, db.live, enqueued, latest)
    ensures WorkOk(cfg, db.events, ClaimBatch(db, w, until, ids).live, enqueued, latest)
  {
  }

  lemma WorkRestarted(cfg: Config, events: Events, live: Live, enqueued: map<Id, Payload>, latest: Ids,
                      e: Id, ev: Event, p: Payload, j: Id)
    requires WorkOk(cfg, events, live, enqueued, latest)
    requires e in events && ev.status.Received? && p.Knocker? && p.event == e && j !in live && j !in enqueued
    ensures WorkOk(cfg, events[e := ev],
                   (live - JobsFor(live, cfg.queue, {e}))[j := Job(cfg.queue, p, cfg.maxAttempts, 0, None)],
                   enqueued[j := p], latest[e := j])
  {
  }

  lemma WorkPruned(cfg: Config, events: Events, live: Live, enqueued: map<Id, Payload>, latest: Ids, gone: set<Id>)
    requires WorkOk(cfg, events, live, enqueued, latest)
    ensures WorkOk(cfg, events - gone, live - JobsFor(live, cfg.queue, gone), enqueued, latest)
  {
  }

  lemma WorkAmongOthers(cfg: Config, db: Db, enqueued: map<Id, Payload>, latest: Ids, live: Live, nextJob: Id)
    requires WorkOk(cfg, db.events, db.live, enqueued, latest) && OthersMay(cfg, db, live, nextJob)
    requires forall j | j in enqueued :: j < db.nextJob
    ensures WorkOk(cfg, db.events, live, enqueued, latest)
  {
  }

  // ---- what workers hold, and what they recorded ----

  /** Old jobs may go or lose their claim; they do not change otherwise. */
  ghost predicate Shrinks(live: Live, live': Live, enqueued: map<Id, Payload>) {
    forall j | j in live' && j in enqueued ::
      && j in live && live'[j].attempts == live[j].attempts
      && (live'[j].claim.None? || live'[j].claim == live[j].claim)
  }

  ghost predicate Extends(enqueued: map<Id, Payload>, enqueued': map<Id, Payload>) {
    forall j | j in enqueued :: j in enqueued' && enqueued'[j] == enqueued[j]
  }

  lemma HandleKept(live: Live, live': Live, enqueued: map<Id, Payload>, enqueued': map<Id, Payload>, w: string,
                   hd: Handle)
    requires HandleOk(live, enqueued, w, hd) && Shrinks(live, live', enqueued) && Extends(enqueued, enqueued')
    ensures HandleOk(live', enqueued', w, hd)
  {
  }

  lemma WorkersKept(live: Live, live': Live, enqueued: map<Id, Payload>, enqueued': map<Id, Payload>,
                    workers: map<string, WorkerState>)
    requires WorkersOk(live, enqueued, workers) && Shrinks(live, live', enqueued) && Extends(enqueued, enqueued')
    ensures WorkersOk(live', enqueued', workers)
  {
    forall w | w in workers ensures WorkerOk(live', enqueued', w, workers[w]) {
      var ws := workers[w];
      forall i | 0 <= i < |ws.buffer| ensures HandleOk(live', enqueued', w, ws.buffer[i]) {
        HandleKept(live, live', enqueued, enqueued', w, ws.buffer[i]);
      }
      if ws.failing.Some? { HandleKept(live, live', enqueued, enqueued', w, ws.failing.value.handle); }
    }
  }

  lemma RecordsKept(cfg: Config, live: Live, live': Live, enqueued: map<Id, Payload>, enqueued': map<Id, Payload>,
                    records: map<Id, Record>)
    requires RecordsOk(cfg, live, enqueued, records) && Shrinks(live, live', enqueued) && Extends(enqueued, enqueued')
    ensures RecordsOk(cfg, live', enqueued', records)
  {
    forall a | a in records ensures RecordOk(cfg, live', enqueued', records[a]) {
      assert RecordOk(cfg, live, enqueued, records[a]);
    }
  }

  /** A record made under a held claim is about a job with no final record and
      no record of the same claim. */
  lemma RecordsAdded(cfg: Config, live: Live, live': Live, enqueued: map<Id, Payload>, records: map<Id, Record>,
                     a: Id, r: Record)
    requires RecordsOk(cfg, live, enqueued, records) && a !in records
    requires r.job in enqueued && enqueued[r.job].Knocker? && enqueued[r.job].event == r.event
    requires r.job in live && live[r.job].claim.Some? && live[r.job].attempts == r.claim
    requires if Final(r.outcome) then live' == live - {r.job}
             else && r.outcome.Failed? && 1 <= r.claim < cfg.maxAttempts
                  && live' == live[r.job := live[r.job].(claim := None)]
    ensures RecordsOk(cfg, live', enqueued, records[a := r])
  {
    var records' := records[a := r];
    forall b | b in records' ensures RecordOk(cfg, live', enqueued, records'[b]) {
      if b != a { assert RecordOk(cfg, live, enqueued, records[b]); }
    }
    forall b | b in records ensures !Clash(records[b], r) && !Clash(r, records[b]) {
      assert RecordOk(cfg, live, enqueued, records[b]);
    }
  }

  lemma RecordsClaimed(cfg: Config, db: Db, enqueued: map<Id, Payload>, records: map<Id, Record>,
                       w: string, until: int, ids: set<Id>)
    requires RecordsOk(cfg, db.live, enqueued, records)
    ensures RecordsOk(cfg, ClaimBatch(db, w, until, ids).live, enqueued, records)
  {
    forall a | a in records ensures RecordOk(cfg, ClaimBatch(db, w, until, ids).live, enqueued, records[a]) {
      assert RecordOk(cfg, db.live, enqueued, records[a]);
    }
  }

  // ---- deliveries and events ----

  predicate SameIdentity(ev: Event, ev': Event) {
    && ev'.endpoint == ev.endpoint && ev'.request == ev.request && ev'.dedupeKey == ev.dedupeKey
    && ev'.receivedAt == ev.receivedAt
  }

  lemma LinksMarked(events: Events, deliveries: map<Id, Delivery>, canonical: Ids, e: Id, ev: Event)
    requires LinksOk(events, deliveries, canonical) && e in events && SameIdentity(events[e], ev)
    ensures LinksOk(events[e := ev], deliveries, canonical)
  {
    forall d | d in deliveries && deliveries[d].event.Some?
      ensures LinkOk(events[e := ev], deliveries[d], d, canonical, deliveries[d].event.value)
    {
      assert LinkOk(events, deliveries[d], d, canonical, deliveries[d].event.value);
    }
  }

  lemma LinksCreated(events: Events, deliveries: map<Id, Delivery>, canonical: Ids, e: Id, ev: Event, d: Id,
                     delivery: Delivery)
    requires LinksOk(events, deliveries, canonical) && e !in events && d !in deliveries
    requires delivery.event == Some(e) && delivery.endpoint == ev.endpoint && delivery.request == ev.request
    requires ev.receivedAt <= delivery.receivedAt
    requires delivery.dedupeKey == ev.dedupeKey && !Rejected(delivery.signatureValid)
    requires ev.dedupeKey.Some? ==>
      forall f | f in events :: !(events[f].endpoint == ev.endpoint && events[f].dedupeKey == ev.dedupeKey)
    ensures LinksOk(events[e := ev], deliveries[d := delivery], canonical[e := d])
  {
    forall k | k in deliveries && deliveries[k].event.Some?
      ensures LinkOk(events[e := ev], deliveries[k], k, canonical[e := d], deliveries[k].event.value)
    {
      assert LinkOk(events, deliveries[k], k, canonical, deliveries[k].event.value);
    }
    forall f | f in events ensures CanonicalOk(events[f], deliveries[d := delivery], canonical[e := d], f) {
      assert CanonicalOk(events[f], deliveries, canonical, f);
    }
  }

  /** One more delivery: refused and unlinked, or a duplicate of a keyed event. */
  lemma LinksExtended(events: Events, deliveries: map<Id, Delivery>, canonical: Ids, d: Id, delivery: Delivery)
    requires LinksOk(events, deliveries, canonical) && d !in deliveries
    requires forall k | k in deliveries :: k < d
    requires delivery.event.None? <==> Rejected(delivery.signatureValid)
    requires delivery.event.Some? ==>
      && delivery.event.value in events && delivery.dedupeKey.Some?
      && events[delivery.event.value].endpoint == delivery.endpoint
      && events[delivery.event.value].dedupeKey == delivery.dedupeKey
    ensures LinksOk(events, deliveries[d := delivery], canonical)
  {
    forall f | f in events ensures CanonicalOk(events[f], deliveries[d := delivery], canonical, f) {
      assert CanonicalOk(events[f], deliveries, canonical, f);
    }
  }

  lemma LinksPruned(db: Db, canonical: Ids, queue: string, gone: set<Id>)
    requires LinksOk(db.events, db.deliveries, canonical)
    ensures LinksOk(DeleteEvents(db, queue, gone).events, DeleteEvents(db, queue, gone).deliveries, canonical)
  {
    var db' := DeleteEvents(db, queue, gone);
    forall d | d in db'.deliveries && db'.deliveries[d].event.Some?
      ensures LinkOk(db'.events, db'.deliveries[d], d, canonical, db'.deliveries[d].event.value)
    {
      assert LinkOk(db.events, db.deliveries[d], d, canonical, db.deliveries[d].event.value);
    }
    forall e | e in db'.events ensures CanonicalOk(db'.events[e], db'.deliveries, canonical, e) {
      assert CanonicalOk(db.events[e], db.deliveries, canonical, e);
    }
  }

  lemma LinksWithoutOrphans(events: Events, deliveries: map<Id, Delivery>, canonical: Ids, gone: set<Id>)
    requires LinksOk(events, deliveries, canonical)
    requires forall d | d in gone :: d in deliveries && deliveries[d].event.None?
    ensures LinksOk(events, deliveries - gone, canonical)
  {
    forall e | e in events ensures CanonicalOk(events[e], deliveries - gone, canonical, e) {
      assert CanonicalOk(events[e], deliveries, canonical, e);
    }
  }

  /** Payload links survive as long as no surviving event loses a delivery and
      no new event takes an id that was handed out before. */
  lemma ReplaysKept(events: Events, events': Events, deliveries: map<Id, Delivery>, deliveries': map<Id, Delivery>,
                    enqueued: map<Id, Payload>)
    requires ReplaysOk(events, deliveries, enqueued)
    requires forall e | e in events' :: e in events || forall j | j in enqueued :: enqueued[j].event != e
    requires forall d | d in deliveries && deliveries[d].event.Some? && deliveries[d].event.value in events' ::
      d in deliveries' && deliveries'[d].event == deliveries[d].event
    ensures ReplaysOk(events', deliveries', enqueued)
  {
    forall j | j in enqueued ensures ReplayLink(events', deliveries', enqueued[j]) {
      assert ReplayLink(events, deliveries, enqueued[j]);
    }
  }

  // ---- columns, attempt rows and records ----

  lemma AttemptsMarked(events: Events, attempts: map<Id, Attempt>, newest: Ids, e: Id, ev: Event, a: Id,
                       attempt: Attempt)
    requires AttemptsOk(events, attempts, newest) && e in events
    requires attempt.event == e && Told(ev, attempt) && !ev.status.Received?
    requires forall b | b in attempts :: b < a
    ensures AttemptsOk(events[e := ev], attempts[a := attempt], newest[e := a])
  {
    forall f | f in events && f != e ensures EventTold(events[f], attempts[a := attempt], newest[e := a], f) {
      assert EventTold(events[f], attempts, newest, f);
    }
  }

  lemma CountsMarked(events: Events, records: map<Id, Record>, newest: Ids, e: Id, ev: Event, a: Id, r: Record)
    requires CountsOk(events, records, newest) && a !in records && r.claim == ev.attemptCount
    ensures CountsOk(events[e := ev], records[a := r], newest[e := a])
  {
    forall f | f in events && f != e ensures CountOk(events[f], records[a := r], newest[e := a], f) {
      assert CountOk(events[f], records, newest, f);
    }
  }

  lemma AttemptsReceived(events: Events, attempts: map<Id, Attempt>, newest: Ids, e: Id, ev: Event)
    requires AttemptsOk(events, attempts, newest) && ev.status.Received? && Untold(ev)
    ensures AttemptsOk(events[e := ev], attempts, newest)
  {
  }

  lemma AttemptsPruned(db: Db, newest: Ids, queue: string, gone: set<Id>)
    requires AttemptsOk(db.events, db.attempts, newest)
    ensures AttemptsOk(DeleteEvents(db, queue, gone).events, DeleteEvents(db, queue, gone).attempts, newest)
  {
    var db' := DeleteEvents(db, queue, gone);
    forall e | e in db'.events ensures EventTold(db'.events[e], db'.attempts, newest, e) {
      assert EventTold(db.events[e], db.attempts, newest, e);
    }
  }

  lemma RowsPruned(db: Db, records: map<Id, Record>, queue: string, gone: set<Id>)
    requires RowsOk(db.events, db.attempts, records)
    ensures RowsOk(DeleteEvents(db, queue, gone).events, DeleteEvents(db, queue, gone).attempts, records)
  {
  }

  lemma {:induction false} WrittenKept(records: map<Id, Record>, commits: seq<Id>, a: Id, r: Record)
    requires (forall b | b in commits :: b in records) && a !in records
    ensures Written(records[a := r], commits) == Written(records, commits)
    decreases |commits|
  {
    if commits == [] {
    } else {
      var last := |commits| - 1;
      assert commits[last] in commits;
      forall b | b in commits[..last] ensures b in records { assert b in commits; }
      WrittenKept(records, commits[..last], a, r);
    }
  }

  lemma CommitsKept(app: seq<string>, records: map<Id, Record>, commits: seq<Id>, a: Id, r: Record)
    requires CommitsOk(app, records, commits) && a !in records && !r.outcome.Handled?
    ensures CommitsOk(app, records[a := r], commits)
  {
    WrittenKept(records, commits, a, r);
  }

  lemma CommitsAdded(app: seq<string>, records: map<Id, Record>, commits: seq<Id>, a: Id, r: Record)
    requires CommitsOk(app, records, commits) && a !in records && r.outcome.Handled?
    ensures CommitsOk(app + r.writes, records[a := r], commits + [a])
  {
    WrittenKept(records, commits, a, r);
    assert (commits + [a])[..|commits|] == commits;
    assert a !in commits;
    forall b | b in records[a := r] && records[a := r][b].outcome.Handled? ensures b in commits + [a] {
      assert (commits + [a])[|commits|] == a;
    }
  }
}
