/** prune_events, prune_orphan_deliveries and run_retention_pass. */
module Retention {
  import opened Schema
  import opened Inbox
  import opened Selection
  import Honker

  datatype Pruned = Pruned(events: nat, attempts: nat, deliveries: nat, liveJobs: nat)

  predicate Prunable(status: Status) {
    status.Handled? || status.Ignored?
  }

  function CheckStatuses(statuses: seq<Status>): Result<()> {
    if statuses == [] then Err(NoStatuses)
    else FirstUnsupported(statuses)
  }

  /** Every status before the i-th may be pruned, and the i-th may not. */
  ghost predicate IsFirstUnsupported(statuses: seq<Status>, i: nat) {
    && i < |statuses| && statuses[i] !in {Handled, Ignored}
    && forall k | 0 <= k < i :: statuses[k] in {Handled, Ignored}
  }

  lemma FirstAfter(statuses: seq<Status>)
    requires statuses != [] && Prunable(statuses[0])
    ensures forall i: nat | IsFirstUnsupported(statuses[1..], i) ::
              IsFirstUnsupported(statuses, i + 1) && statuses[i + 1] == statuses[1..][i]
  {
    forall i: nat | IsFirstUnsupported(statuses[1..], i)
      ensures IsFirstUnsupported(statuses, i + 1)
    {
      forall k | 0 <= k < i + 1 ensures statuses[k] in {Handled, Ignored} {
        assert k > 0 ==> statuses[k] == statuses[1..][k - 1];
      }
    }
  }

  function FirstUnsupported(statuses: seq<Status>): (r: Result<()>)
    ensures r.Ok? <==> forall s | s in statuses :: s.Handled? || s.Ignored?
    ensures r.Err? ==> exists i: nat :: IsFirstUnsupported(statuses, i) && r == Err(UnsupportedStatus(statuses[i]))
  {
    if statuses == [] then Ok(())
    else if !Prunable(statuses[0]) then
      assert IsFirstUnsupported(statuses, 0);
      Err(UnsupportedStatus(statuses[0]))
    else
      FirstAfter(statuses);
      FirstUnsupported(statuses[1..])
  }

  function CheckWindow(olderThan: int, limit: int): Result<()> {
    if olderThan < 0 then Err(NegativeCutoff)
    else if !(1 <= limit <= 1000) then Err(LimitOutOfRange)
    else Ok(())
  }

  // ---- events ----

  function EligibleEvents(db: Db, statuses: seq<Status>, olderThan: int): set<Id> {
    set e | e in db.events && db.events[e].status in statuses && db.events[e].receivedAt < olderThan
  }

  function EventTimes(db: Db): map<Id, int> {
    map e | e in db.events :: db.events[e].receivedAt
  }

  function EventCandidates(db: Db, statuses: seq<Status>, olderThan: int, limit: nat): seq<Id> {
    Take(EventTimes(db), EligibleEvents(db, statuses, olderThan), limit)
  }

  function AttemptsOf(db: Db, events: set<Id>): set<Id> {
    set a | a in db.attempts && db.attempts[a].event in events
  }

  predicate Linked(delivery: Delivery, events: set<Id>) {
    delivery.event.Some? && delivery.event.value in events
  }

  function DeliveriesOf(db: Db, events: set<Id>): set<Id> {
    set d | d in db.deliveries && Linked(db.deliveries[d], events)
  }

  /** Live jobs, then deliveries, then the events; ON DELETE CASCADE takes the
      attempts. */
  function DeleteEvents(db: Db, queue: string, gone: set<Id>): Db {
    db.(live := db.live - JobsFor(db.live, queue, gone),
        deliveries := db.deliveries - DeliveriesOf(db, gone),
        events := db.events - gone,
        attempts := db.attempts - AttemptsOf(db, gone))
  }

  function Counts(db: Db, queue: string, gone: set<Id>): Pruned {
    Pruned(|gone|, |AttemptsOf(db, gone)|, |DeliveriesOf(db, gone)|, |JobsFor(db.live, queue, gone)|)
  }

  function EventAudit(now: int, queue: string, p: Pruned): Audit {
    Audit(EventPrune, queue, now, Some(p.events), p.deliveries, Some(p.attempts), Some(p.liveJobs))
  }

  function PruneEvents(db: Db, now: int, statuses: seq<Status>, olderThan: int, limit: int, queue: string)
    : Outcome<Pruned>
  {
    if CheckStatuses(statuses).Err? then Outcome(db, Err(CheckStatuses(statuses).error))
    else if CheckWindow(olderThan, limit).Err? then Outcome(db, Err(CheckWindow(olderThan, limit).error))
    else
      var gone := Set(EventCandidates(db, statuses, olderThan, limit));
      var counts := Counts(db, queue, gone);
      Outcome(DeleteEvents(db, queue, gone).(audits := db.audits + [EventAudit(now, queue, counts)]), Ok(counts))
  }

  // ---- orphan deliveries ----

  function EligibleOrphans(db: Db, olderThan: int): set<Id> {
    set d | d in db.deliveries && db.deliveries[d].event.None? && db.deliveries[d].receivedAt < olderThan
  }

  function DeliveryTimes(db: Db): map<Id, int> {
    map d | d in db.deliveries :: db.deliveries[d].receivedAt
  }

  function OrphanCandidates(db: Db, olderThan: int, limit: nat): seq<Id> {
    Take(DeliveryTimes(db), EligibleOrphans(db, olderThan), limit)
  }

  function OrphanAudit(now: int, queue: string, deliveries: nat): Audit {
    Audit(OrphanPrune, queue, now, None, deliveries, None, None)
  }

  function PruneOrphans(db: Db, now: int, olderThan: int, limit: int, queue: string): Outcome<nat> {
    if CheckWindow(olderThan, limit).Err? then Outcome(db, Err(CheckWindow(olderThan, limit).error))
    else
      var gone := Set(OrphanCandidates(db, olderThan, limit));
      Outcome(db.(deliveries := db.deliveries - gone, audits := db.audits + [OrphanAudit(now, queue, |gone|)]),
              Ok(|gone|))
  }

  // ---- the two together ----

  datatype Policy = Policy(
    statuses: seq<Status>,
    eventCutoff: Option<int>,
    eventLimit: int,
    orphanCutoff: Option<int>,
    orphanLimit: int)

  datatype PassResult = PassResult(events: Option<Pruned>, orphans: Option<nat>)

  function Lift<T>(r: Result<T>): Result<Option<T>> {
    match r
    case Ok(v) => Ok(Some(v))
    case Err(e) => Err(e)
  }

  function EventHalf(db: Db, now: int, p: Policy, queue: string): Outcome<Option<Pruned>> {
    if p.eventCutoff.None? then Outcome(db, Ok(None))
    else
      var o := PruneEvents(db, now, p.statuses, p.eventCutoff.value, p.eventLimit, queue);
      Outcome(o.db, Lift(o.result))
  }

  function OrphanHalf(db: Db, now: int, p: Policy, queue: string): Outcome<Option<nat>> {
    if p.orphanCutoff.None? then Outcome(db, Ok(None))
    else
      var o := PruneOrphans(db, now, p.orphanCutoff.value, p.orphanLimit, queue);
      Outcome(o.db, Lift(o.result))
  }

  function RetentionPass(db: Db, clock: Clock, p: Policy, queue: string): Outcome<PassResult> {
    if p.eventCutoff.None? && p.orphanCutoff.None? then Outcome(db, Err(NothingToPrune))
    else
      var events := EventHalf(db, clock.first, p, queue);
      if events.result.Err? then Outcome(events.db, Err(events.result.error))
      else
        var orphans := OrphanHalf(events.db, clock.second, p, queue);
        if orphans.result.Err? then Outcome(orphans.db, Err(orphans.result.error))
        else Outcome(orphans.db, Ok(PassResult(events.result.value, orphans.result.value)))
  }

  /** The retention worker's transaction: the pass, and the acknowledgement of
      the job that asked for it. If that claim was lost, the pass is undone. */
  function RetentionJob(db: Db, clock: Clock, p: Policy, queue: string, job: Id, worker: string): Outcome<PassResult> {
    var pass := RetentionPass(db, clock, p, queue);
    var (acked, ok) := Honker.Finish(pass.db, job, worker, clock.last);
    InTransaction(db, if pass.result.Err? then pass else Outcome(acked, if ok then pass.result else Err(ClaimLost)))
  }
}
