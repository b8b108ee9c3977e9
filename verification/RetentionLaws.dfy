/** Laws of pruning that hold of any contents of the tables. */
module RetentionLaws {
  import opened Schema
  import opened Honker
  import opened Inbox
  import opened Selection
  import opened Retention

  /** The same tables, whatever the audit rows say. */
  predicate SameTables(x: Db, y: Db) {
    x.(audits := y.audits) == y
  }

  predicate ValidEventPrune(statuses: seq<Status>, olderThan: int, limit: int) {
    statuses != [] && (forall s | s in statuses :: s.Handled? || s.Ignored?) && olderThan >= 0 && 1 <= limit <= 1000
  }

  predicate ValidOrphanPrune(olderThan: int, limit: int) {
    olderThan >= 0 && 1 <= limit <= 1000
  }

  // ---- what one prune removes ----

  /** The removed events are the min(limit, eligible) oldest eligible ones: any
      other choice of that many breaks the order. */
  ghost predicate OldestFirst(db: Db, eligible: set<Id>, limit: nat, gone: set<Id>)
    requires eligible <= db.events.Keys
  {
    && gone <= eligible
    && |gone| == (if limit < |eligible| then limit else |eligible|)
    && (forall x, y | x in gone && y in eligible - gone :: Before(EventTimes(db), x, y))
  }

  lemma CandidateSet(key: map<Id, int>, s: set<Id>, n: nat)
    requires s <= key.Keys
    ensures var gone := Set(Take(key, s, n));
      && gone <= s
      && |gone| == (if n < |s| then n else |s|)
      && (forall x, y | x in gone && y in s - gone :: Before(key, x, y))
  {
    var ids := Take(key, s, n);
    TakeMeets(key, s, n);
    SetSize(ids);
  }

  /** Every foreign key still points at a row. */
  ghost predicate ForeignKeys(db: Db) {
    && (forall d | d in db.deliveries && db.deliveries[d].event.Some? :: db.deliveries[d].event.value in db.events)
    && (forall a | a in db.attempts :: db.attempts[a].event in db.events)
  }

  /** On valid arguments a prune deletes its candidates. */
  lemma PruneDeletes(db: Db, now: int, statuses: seq<Status>, olderThan: int, limit: int, queue: string)
    requires ValidEventPrune(statuses, olderThan, limit)
    ensures var o := PruneEvents(db, now, statuses, olderThan, limit, queue);
      var gone := Set(EventCandidates(db, statuses, olderThan, limit));
      && o.result == Ok(Counts(db, queue, gone))
      && o.db == DeleteEvents(db, queue, gone).(audits := o.db.audits)
      && OldestFirst(db, EligibleEvents(db, statuses, olderThan), limit, gone)
      && EligibleEvents(o.db, statuses, olderThan) == EligibleEvents(db, statuses, olderThan) - gone
  {
    CandidateSet(EventTimes(db), EligibleEvents(db, statuses, olderThan), limit);
  }

  /** x is from before y, or from the same time and of a smaller id. */
  predicate Older(x: Id, xAt: int, y: Id, yAt: int) {
    xAt < yAt || (xAt == yAt && x < y)
  }

  predicate MayGo(ev: Event, statuses: seq<Status>, olderThan: int) {
    ev.status in statuses && ev.receivedAt < olderThan
  }

  /** Only events that may go are gone, at most limit of them. One that may go is
      left only when the limit is used up, by events older than it. */
  ghost predicate OldestGone(events: map<Id, Event>, events': map<Id, Event>, statuses: seq<Status>, olderThan: int,
                             limit: int)
  {
    var gone := events.Keys - events'.Keys;
    && (forall e | e in events' :: e in events && events'[e] == events[e])
    && |gone| <= limit
    && (forall e | e in gone :: MayGo(events[e], statuses, olderThan))
    && (forall e, k | e in gone && k in events' && MayGo(events'[k], statuses, olderThan) ::
          Older(e, events[e].receivedAt, k, events'[k].receivedAt))
    && (|gone| < limit ==> forall k | k in events' :: !MayGo(events'[k], statuses, olderThan))
  }

  lemma Smaller<T>(part: set<T>, whole: set<T>, k: T)
    requires part <= whole && k in whole && k !in part
    ensures |part| < |whole|
  {
    SizeOfParts(whole, part, whole - part);
    assert k in whole - part;
  }

  /** An id that is left out of a selection is so because of the limit. */
  lemma LeftOut(key: map<Id, int>, s: set<Id>, limit: nat, k: Id)
    requires s <= key.Keys && k in s && k !in Set(Take(key, s, limit))
    ensures |Set(Take(key, s, limit))| == limit
    ensures forall x | x in Set(Take(key, s, limit)) :: x in s && Older(x, key[x], k, key[k])
  {
    CandidateSet(key, s, limit);
    Smaller(Set(Take(key, s, limit)), s, k);
    assert k in s - Set(Take(key, s, limit));
  }

  lemma KeysRemoved<V>(m: map<Id, V>, gone: set<Id>)
    requires gone <= m.Keys
    ensures m.Keys - (m - gone).Keys == gone
  {
  }

  /** An event that may go and is left. */
  lemma EventLeft(db: Db, statuses: seq<Status>, olderThan: int, limit: nat, k: Id)
    requires k in db.events && MayGo(db.events[k], statuses, olderThan)
    requires k !in Set(EventCandidates(db, statuses, olderThan, limit))
    ensures var gone := Set(EventCandidates(db, statuses, olderThan, limit));
      && |gone| == limit
      && forall e | e in gone :: e in db.events && Older(e, db.events[e].receivedAt, k, db.events[k].receivedAt)
  {
    LeftOut(EventTimes(db), EligibleEvents(db, statuses, olderThan), limit, k);
  }

  lemma TakenAreOldest(db: Db, statuses: seq<Status>, olderThan: int, limit: nat)
    ensures OldestGone(db.events, db.events - Set(EventCandidates(db, statuses, olderThan, limit)), statuses,
                       olderThan, limit)
  {
    var gone := Set(EventCandidates(db, statuses, olderThan, limit));
    CandidateSet(EventTimes(db), EligibleEvents(db, statuses, olderThan), limit);
    KeysRemoved(db.events, gone);
    forall k | k in db.events - gone && MayGo(db.events[k], statuses, olderThan)
      ensures |gone| == limit
      ensures forall e | e in gone :: Older(e, db.events[e].receivedAt, k, db.events[k].receivedAt)
    {
      EventLeft(db, statuses, olderThan, limit, k);
    }
  }

  /** The oldest events go that have a listed status and are from before the
      cutoff. */
  lemma PruneRemovesOldest(db: Db, now: int, statuses: seq<Status>, olderThan: int, limit: int, queue: string)
    requires ValidEventPrune(statuses, olderThan, limit)
    ensures var o := PruneEvents(db, now, statuses, olderThan, limit, queue);
      o.result.Ok? && OldestGone(db.events, o.db.events, statuses, olderThan, limit)
  {
    TakenAreOldest(db, statuses, olderThan, limit);
    PruneDeletes(db, now, statuses, olderThan, limit, queue);
  }

  /** Their deliveries, attempts and live jobs go with them, and no other row. */
  lemma PruneRemovesTheirRows(db: Db, now: int, statuses: seq<Status>, olderThan: int, limit: int, queue: string)
    requires ValidEventPrune(statuses, olderThan, limit)
    ensures var db' := PruneEvents(db, now, statuses, olderThan, limit, queue).db;
      var gone := db.events.Keys - db'.events.Keys;
      && (forall d | d in db'.deliveries :: d in db.deliveries && db'.deliveries[d] == db.deliveries[d])
      && (forall d | d in db.deliveries :: d !in db'.deliveries <==>
            db.deliveries[d].event.Some? && db.deliveries[d].event.value in gone)
      && (forall a | a in db'.attempts :: a in db.attempts && db'.attempts[a] == db.attempts[a])
      && (forall a | a in db.attempts :: a !in db'.attempts <==> db.attempts[a].event in gone)
      && (forall j | j in db'.live :: j in db.live && db'.live[j] == db.live[j])
      && (forall j | j in db.live :: j !in db'.live <==>
            db.live[j].queue == queue && db.live[j].payload.Knocker? && db.live[j].payload.event in gone)
      && db' == db.(events := db'.events, deliveries := db'.deliveries, attempts := db'.attempts, live := db'.live,
                    audits := db'.audits)
  {
    PruneDeletes(db, now, statuses, olderThan, limit, queue);
    var db' := PruneEvents(db, now, statuses, olderThan, limit, queue).db;
    assert db.events.Keys - db'.events.Keys == Set(EventCandidates(db, statuses, olderThan, limit));
  }

  predicate MayGoUnlinked(delivery: Delivery, olderThan: int) {
    delivery.event.None? && delivery.receivedAt < olderThan
  }

  /** As OldestGone, for deliveries. */
  ghost predicate OldestOrphansGone(deliveries: map<Id, Delivery>, deliveries': map<Id, Delivery>, olderThan: int,
                                    limit: int)
  {
    var gone := deliveries.Keys - deliveries'.Keys;
    && (forall d | d in deliveries' :: d in deliveries && deliveries'[d] == deliveries[d])
    && |gone| <= limit
    && (forall d | d in gone :: MayGoUnlinked(deliveries[d], olderThan))
    && (forall d, k | d in gone && k in deliveries' && MayGoUnlinked(deliveries'[k], olderThan) ::
          Older(d, deliveries[d].receivedAt, k, deliveries'[k].receivedAt))
    && (|gone| < limit ==> forall k | k in deliveries' :: !MayGoUnlinked(deliveries'[k], olderThan))
  }

  lemma OrphanLeft(db: Db, olderThan: int, limit: nat, k: Id)
    requires k in db.deliveries && MayGoUnlinked(db.deliveries[k], olderThan)
    requires k !in Set(OrphanCandidates(db, olderThan, limit))
    ensures var gone := Set(OrphanCandidates(db, olderThan, limit));
      && |gone| == limit
      && forall d | d in gone ::
           d in db.deliveries && Older(d, db.deliveries[d].receivedAt, k, db.deliveries[k].receivedAt)
  {
    LeftOut(DeliveryTimes(db), EligibleOrphans(db, olderThan), limit, k);
  }

  lemma TakenOrphansAreOldest(db: Db, olderThan: int, limit: nat)
    ensures OldestOrphansGone(db.deliveries, db.deliveries - Set(OrphanCandidates(db, olderThan, limit)), olderThan,
                              limit)
  {
    var gone := Set(OrphanCandidates(db, olderThan, limit));
    CandidateSet(DeliveryTimes(db), EligibleOrphans(db, olderThan), limit);
    KeysRemoved(db.deliveries, gone);
    forall k | k in db.deliveries - gone && MayGoUnlinked(db.deliveries[k], olderThan)
      ensures |gone| == limit
      ensures forall d | d in gone :: Older(d, db.deliveries[d].receivedAt, k, db.deliveries[k].receivedAt)
    {
      OrphanLeft(db, olderThan, limit, k);
    }
  }

  /** The oldest unlinked deliveries go that are from before the cutoff, and no
      other row. */
  lemma OrphansRemovedOldestFirst(db: Db, now: int, olderThan: int, limit: int, queue: string)
    requires ValidOrphanPrune(olderThan, limit)
    ensures var o := PruneOrphans(db, now, olderThan, limit, queue);
      && o.result.Ok? && o.db == db.(deliveries := o.db.deliveries, audits := o.db.audits)
      && OldestOrphansGone(db.deliveries, o.db.deliveries, olderThan, limit)
  {
    TakenOrphansAreOldest(db, olderThan, limit);
  }

  /** Which error an invalid prune ends in, and that it changes nothing. */
  lemma PruneRefuses(db: Db, now: int, statuses: seq<Status>, olderThan: int, limit: int, queue: string)
    ensures var o := PruneEvents(db, now, statuses, olderThan, limit, queue);
      && (o.result.Ok? <==> ValidEventPrune(statuses, olderThan, limit))
      && (o.result.Err? ==> o.db == db)
      && (statuses == [] ==> o.result == Err(NoStatuses))
      && (forall i: nat | IsFirstUnsupported(statuses, i) :: o.result == Err(UnsupportedStatus(statuses[i])))
      && (statuses != [] && (forall s | s in statuses :: s in {Handled, Ignored}) ==>
            && (olderThan < 0 ==> o.result == Err(NegativeCutoff))
            && (olderThan >= 0 && !(1 <= limit <= 1000) ==> o.result == Err(LimitOutOfRange)))
  {
    forall i: nat, k: nat | IsFirstUnsupported(statuses, i) && IsFirstUnsupported(statuses, k) ensures i == k {
      OneFirst(statuses, i, k);
      OneFirst(statuses, k, i);
    }
    forall i: nat | IsFirstUnsupported(statuses, i) ensures statuses[i] in statuses {
    }
  }

  lemma OneFirst(statuses: seq<Status>, i: nat, k: nat)
    requires IsFirstUnsupported(statuses, i) && IsFirstUnsupported(statuses, k)
    ensures i >= k
  {
  }

  lemma OrphanPruneRefuses(db: Db, now: int, olderThan: int, limit: int, queue: string)
    ensures var o := PruneOrphans(db, now, olderThan, limit, queue);
      && (o.result.Ok? <==> ValidOrphanPrune(olderThan, limit))
      && (o.result.Err? ==>
            o == Outcome(db, Err(if olderThan < 0 then NegativeCutoff else LimitOutOfRange)))
  {
  }

  lemma PruneKeepsForeignKeys(db: Db, now: int, statuses: seq<Status>, olderThan: int, limit: int, queue: string)
    requires ForeignKeys(db)
    ensures var db' := PruneEvents(db, now, statuses, olderThan, limit, queue).db;
      && ForeignKeys(db')
      && (forall d | d in db'.deliveries && db'.deliveries[d].event.None? ::
            d in db.deliveries && db.deliveries[d].event.None?)
  {
  }

  // ---- counts ----

  lemma MapMinus<V>(m: map<Id, V>, gone: set<Id>)
    requires gone <= m.Keys
    ensures |m - gone| + |gone| == |m|
  {
    assert (m - gone).Keys == m.Keys - gone;
    assert m.Keys == (m.Keys - gone) + gone;
  }

  /** Rows before are rows after and rows reported, table by table, and the
      audit row says the same. */
  lemma PruneCountsConserved(db: Db, now: int, statuses: seq<Status>, olderThan: int, limit: int, queue: string)
    requires ValidEventPrune(statuses, olderThan, limit)
    ensures var o := PruneEvents(db, now, statuses, olderThan, limit, queue);
      && o.result.Ok?
      && var p := o.result.value;
      && |db.events| == |o.db.events| + p.events
      && |db.deliveries| == |o.db.deliveries| + p.deliveries
      && |db.attempts| == |o.db.attempts| + p.attempts
      && |db.live| == |o.db.live| + p.liveJobs
      && o.db.audits == db.audits +
           [Audit(EventPrune, queue, now, Some(p.events), p.deliveries, Some(p.attempts), Some(p.liveJobs))]
  {
    CandidateSet(EventTimes(db), EligibleEvents(db, statuses, olderThan), limit);
    var gone := Set(EventCandidates(db, statuses, olderThan, limit));
    MapMinus(db.events, gone);
    MapMinus(db.deliveries, DeliveriesOf(db, gone));
    MapMinus(db.attempts, AttemptsOf(db, gone));
    MapMinus(db.live, JobsFor(db.live, queue, gone));
  }

  lemma OrphanCountsConserved(db: Db, now: int, olderThan: int, limit: int, queue: string)
    requires ValidOrphanPrune(olderThan, limit)
    ensures var o := PruneOrphans(db, now, olderThan, limit, queue);
      && o.result.Ok?
      && |db.deliveries| == |o.db.deliveries| + o.result.value
      && o.db.audits == db.audits + [Audit(OrphanPrune, queue, now, None, o.result.value, None, None)]
      && (forall d | d in db.deliveries && d !in o.db.deliveries ::
            db.deliveries[d].event.None? && db.deliveries[d].receivedAt < olderThan)
  {
    CandidateSet(DeliveryTimes(db), EligibleOrphans(db, olderThan), limit);
    MapMinus(db.deliveries, Set(OrphanCandidates(db, olderThan, limit)));
  }

  // ---- a prune in two parts ----

  lemma DeleteTwice(db: Db, queue: string, first: set<Id>, second: set<Id>, audits: seq<Audit>)
    ensures SameTables(DeleteEvents(DeleteEvents(db, queue, first).(audits := audits), queue, second),
                       DeleteEvents(db, queue, first + second))
  {
    var mid := DeleteEvents(db, queue, first).(audits := audits);
    var x, y := DeleteEvents(mid, queue, second), DeleteEvents(db, queue, first + second);
    assert x.events == y.events;
    assert x.deliveries == y.deliveries;
    assert x.attempts == y.attempts;
    assert x.live == y.live;
  }

  lemma SizeOfParts<T>(whole: set<T>, x: set<T>, y: set<T>)
    requires whole == x + y && x !! y
    ensures |whole| == |x| + |y|
  {
  }

  /** What the second of two deletions finds, and both together. */
  ghost predicate Deleted(db: Db, mid: Db, queue: string, first: set<Id>, second: set<Id>) {
    first !! second && mid == DeleteEvents(db, queue, first).(audits := mid.audits)
  }

  lemma EventsAdd(db: Db, mid: Db, queue: string, first: set<Id>, second: set<Id>)
    requires Deleted(db, mid, queue, first, second)
    ensures Counts(db, queue, first + second).events ==
      Counts(db, queue, first).events + Counts(mid, queue, second).events
  {
    SizeOfParts(first + second, first, second);
  }

  lemma AttemptsAdd(db: Db, mid: Db, queue: string, first: set<Id>, second: set<Id>)
    requires Deleted(db, mid, queue, first, second)
    ensures Counts(db, queue, first + second).attempts ==
      Counts(db, queue, first).attempts + Counts(mid, queue, second).attempts
  {
    SizeOfParts(AttemptsOf(db, first + second), AttemptsOf(db, first), AttemptsOf(mid, second));
  }

  lemma DeliveriesAdd(db: Db, mid: Db, queue: string, first: set<Id>, second: set<Id>)
    requires Deleted(db, mid, queue, first, second)
    ensures Counts(db, queue, first + second).deliveries ==
      Counts(db, queue, first).deliveries + Counts(mid, queue, second).deliveries
  {
    SizeOfParts(DeliveriesOf(db, first + second), DeliveriesOf(db, first), DeliveriesOf(mid, second));
  }

  lemma JobsAdd(db: Db, mid: Db, queue: string, first: set<Id>, second: set<Id>)
    requires Deleted(db, mid, queue, first, second)
    ensures Counts(db, queue, first + second).liveJobs ==
      Counts(db, queue, first).liveJobs + Counts(mid, queue, second).liveJobs
  {
    SizeOfParts(JobsFor(db.live, queue, first + second), JobsFor(db.live, queue, first),
                JobsFor(mid.live, queue, second));
  }

  function Plus(x: Pruned, y: Pruned): Pruned {
    Pruned(x.events + y.events, x.attempts + y.attempts, x.deliveries + y.deliveries, x.liveJobs + y.liveJobs)
  }

  lemma FieldsAdd(whole: Pruned, x: Pruned, y: Pruned)
    requires whole.events == x.events + y.events && whole.attempts == x.attempts + y.attempts
    requires whole.deliveries == x.deliveries + y.deliveries && whole.liveJobs == x.liveJobs + y.liveJobs
    ensures whole == Plus(x, y)
  {
  }

  lemma CountsAdd(db: Db, mid: Db, queue: string, first: set<Id>, second: set<Id>)
    requires Deleted(db, mid, queue, first, second)
    ensures Counts(db, queue, first + second) == Plus(Counts(db, queue, first), Counts(mid, queue, second))
  {
    EventsAdd(db, mid, queue, first, second);
    AttemptsAdd(db, mid, queue, first, second);
    DeliveriesAdd(db, mid, queue, first, second);
    JobsAdd(db, mid, queue, first, second);
    FieldsAdd(Counts(db, queue, first + second), Counts(db, queue, first), Counts(mid, queue, second));
  }

  lemma PruneReports(db: Db, now: int, statuses: seq<Status>, olderThan: int, limit: int, queue: string)
    requires ValidEventPrune(statuses, olderThan, limit)
    ensures PruneEvents(db, now, statuses, olderThan, limit, queue).result ==
      Ok(Counts(db, queue, Set(EventCandidates(db, statuses, olderThan, limit))))
  {
  }

  lemma PruneReportsSplit(db: Db, t: int, t1: int, t2: int, statuses: seq<Status>, olderThan: int, a: int, b: int,
                          queue: string)
    requires ValidEventPrune(statuses, olderThan, a + b) && a >= 1 && b >= 1
    ensures var once := PruneEvents(db, t, statuses, olderThan, a + b, queue).result;
      var first := PruneEvents(db, t1, statuses, olderThan, a, queue);
      var second := PruneEvents(first.db, t2, statuses, olderThan, b, queue).result;
      && once.Ok? && first.result.Ok? && second.Ok?
      && once.value == Plus(first.result.value, second.value)
  {
    var mid := PruneEvents(db, t1, statuses, olderThan, a, queue).db;
    var first, second := SplitCandidates(db, mid, statuses, olderThan, a, b, queue);
    PruneReports(db, t, statuses, olderThan, a + b, queue);
    PruneReports(db, t1, statuses, olderThan, a, queue);
    PruneReports(mid, t2, statuses, olderThan, b, queue);
    CountsAdd(db, mid, queue, first, second);
  }

  lemma PruneTablesSplit(db: Db, t: int, t1: int, t2: int, statuses: seq<Status>, olderThan: int, a: int, b: int,
                         queue: string)
    requires ValidEventPrune(statuses, olderThan, a + b) && a >= 1 && b >= 1
    ensures var first := PruneEvents(db, t1, statuses, olderThan, a, queue).db;
      SameTables(PruneEvents(first, t2, statuses, olderThan, b, queue).db,
                 PruneEvents(db, t, statuses, olderThan, a + b, queue).db)
  {
    var mid := PruneEvents(db, t1, statuses, olderThan, a, queue).db;
    var first, second := SplitCandidates(db, mid, statuses, olderThan, a, b, queue);
    DeleteTwice(db, queue, first, second, mid.audits);
  }

  /** Limit a and then limit b, at any times, remove what one prune with limit
      a + b does at any time, and the two reports add up to its report. */
  lemma PruneSplits(db: Db, t: int, t1: int, t2: int, statuses: seq<Status>, olderThan: int, a: int, b: int,
                    queue: string)
    requires ValidEventPrune(statuses, olderThan, a + b) && a >= 1 && b >= 1
    ensures var once := PruneEvents(db, t, statuses, olderThan, a + b, queue);
      var first := PruneEvents(db, t1, statuses, olderThan, a, queue);
      var second := PruneEvents(first.db, t2, statuses, olderThan, b, queue);
      && once.result.Ok? && first.result.Ok? && second.result.Ok?
      && SameTables(second.db, once.db)
      && once.result.value == Plus(first.result.value, second.result.value)
  {
    PruneTablesSplit(db, t, t1, t2, statuses, olderThan, a, b, queue);
    PruneReportsSplit(db, t, t1, t2, statuses, olderThan, a, b, queue);
  }

  /** What the two prunes pick is what the one picks. */
  lemma SplitCandidates(db: Db, mid: Db, statuses: seq<Status>, olderThan: int, a: nat, b: nat, queue: string)
    returns (first: set<Id>, second: set<Id>)
    requires mid == DeleteEvents(db, queue, Set(EventCandidates(db, statuses, olderThan, a))).(audits := mid.audits)
    ensures first == Set(EventCandidates(db, statuses, olderThan, a))
    ensures second == Set(EventCandidates(mid, statuses, olderThan, b))
    ensures first !! second && Set(EventCandidates(db, statuses, olderThan, a + b)) == first + second
  {
    var key, eligible := EventTimes(db), EligibleEvents(db, statuses, olderThan);
    var x := Take(key, eligible, a);
    TakeSplits(key, eligible, a, b);
    assert EligibleEvents(mid, statuses, olderThan) == eligible - Set(x);
    var y := Take(key, eligible - Set(x), b);
    TakeIgnoresOthers(key, EventTimes(mid), eligible - Set(x), b);
    CandidateSet(key, eligible - Set(x), b);
    SetAppend(x, y);
    first, second := Set(x), Set(y);
  }

  lemma SetAppend(x: seq<Id>, y: seq<Id>)
    ensures Set(x + y) == Set(x) + Set(y)
  {
    forall i ensures i in Set(x + y) <==> i in Set(x) + Set(y) {
      assert i in x + y <==> i in x || i in y;
    }
  }

  /** The answer depends only on the times of the rows asked about. */
  lemma {:induction false} TakeIgnoresOthers(key: map<Id, int>, key': map<Id, int>, s: set<Id>, n: nat)
    requires s <= key.Keys && s <= key'.Keys && forall x | x in s :: key[x] == key'[x]
    ensures Take(key, s, n) == Take(key', s, n)
    decreases n
  {
    if n > 0 && s != {} {
      var m, m' := Least(key, s), Least(key', s);
      assert IsLeast(key', s, m);
      TakeIgnoresOthers(key, key', s - {m}, n - 1);
    }
  }

  /** The same prune again and again, each pass at its own time. */
  function PruneRepeatedly(db: Db, times: seq<int>, statuses: seq<Status>, olderThan: int, limit: int, queue: string)
    : Db
    decreases |times|
  {
    if times == [] then db
    else
      PruneRepeatedly(PruneEvents(db, times[0], statuses, olderThan, limit, queue).db,
                      times[1..], statuses, olderThan, limit, queue)
  }

  /** What n eligible events become in so many passes. */
  function Left(n: nat, limit: int, passes: nat): nat
    requires limit >= 1
  {
    var done := passes * limit;
    if done < n then n - done else 0
  }

  lemma LeftAfterOne(n: nat, limit: int, passes: nat)
    requires limit >= 1 && passes > 0
    ensures Left(if limit < n then n - limit else 0, limit, passes - 1) == Left(n, limit, passes)
  {
    assert passes * limit == (passes - 1) * limit + limit && (passes - 1) * limit >= 0;
  }

  lemma OnePass(db: Db, now: int, statuses: seq<Status>, olderThan: int, limit: int, queue: string)
    requires ValidEventPrune(statuses, olderThan, limit)
    ensures var n := |EligibleEvents(db, statuses, olderThan)|;
      |EligibleEvents(PruneEvents(db, now, statuses, olderThan, limit, queue).db, statuses, olderThan)| ==
      if limit < n then n - limit else 0
  {
    PruneDeletes(db, now, statuses, olderThan, limit, queue);
  }

  lemma {:induction false} PruneDrains(db: Db, times: seq<int>, statuses: seq<Status>, olderThan: int, limit: int,
                                       queue: string, n: nat)
    requires ValidEventPrune(statuses, olderThan, limit) && n == |EligibleEvents(db, statuses, olderThan)|
    ensures var drained := PruneRepeatedly(db, times, statuses, olderThan, limit, queue);
      |EligibleEvents(drained, statuses, olderThan)| == Left(n, limit, |times|)
    decreases |times|
  {
    if times == [] {
    } else {
      var db' := PruneEvents(db, times[0], statuses, olderThan, limit, queue).db;
      var n' := if limit < n then n - limit else 0;
      OnePass(db, times[0], statuses, olderThan, limit, queue);
      PruneDrains(db', times[1..], statuses, olderThan, limit, queue, n');
      LeftAfterOne(n, limit, |times|);
    }
  }

  /** N eligible events take exactly ceil(N / limit) passes, whenever they are. */
  lemma PassesNeeded(db: Db, times: seq<int>, statuses: seq<Status>, olderThan: int, limit: int, queue: string)
    requires ValidEventPrune(statuses, olderThan, limit)
    ensures var n := |EligibleEvents(db, statuses, olderThan)|;
      EligibleEvents(PruneRepeatedly(db, times, statuses, olderThan, limit, queue), statuses, olderThan) == {}
      <==> |times| >= (n + limit - 1) / limit
  {
    var n := |EligibleEvents(db, statuses, olderThan)|;
    PruneDrains(db, times, statuses, olderThan, limit, queue, n);
    CeilingDivides(n, limit, |times|);
  }

  lemma CeilingDivides(n: nat, limit: int, passes: nat)
    requires limit >= 1
    ensures passes * limit >= n <==> passes >= (n + limit - 1) / limit
  {
    var q := (n + limit - 1) / limit;
    assert q * limit <= n + limit - 1 < q * limit + limit;
    if passes >= q {
      assert passes * limit >= q * limit;
    } else {
      assert passes * limit <= (q - 1) * limit;
    }
  }

  // ---- the order of the two halves of a retention pass ----

  /** Deleting events leaves the orphans, so the orphan prune picks the same. */
  lemma OrphansUnmoved(db: Db, queue: string, gone: set<Id>, audits: seq<Audit>, olderThan: int, limit: nat)
    ensures var db' := DeleteEvents(db, queue, gone).(audits := audits);
      OrphanCandidates(db', olderThan, limit) == OrphanCandidates(db, olderThan, limit)
  {
    var db' := DeleteEvents(db, queue, gone).(audits := audits);
    assert EligibleOrphans(db', olderThan) == EligibleOrphans(db, olderThan);
    TakeIgnoresOthers(DeliveryTimes(db), DeliveryTimes(db'), EligibleOrphans(db, olderThan), limit);
  }

  lemma DeletesCommute(db: Db, queue: string, gone: set<Id>, orphans: set<Id>, x: seq<Audit>, y: seq<Audit>)
    requires forall d | d in orphans :: d in db.deliveries && db.deliveries[d].event.None?
    ensures var eventsFirst := DeleteEvents(db, queue, gone).(audits := x);
      var orphansFirst := db.(deliveries := db.deliveries - orphans, audits := y);
      && SameTables(eventsFirst.(deliveries := eventsFirst.deliveries - orphans),
                    DeleteEvents(orphansFirst, queue, gone))
      && Counts(orphansFirst, queue, gone) == Counts(db, queue, gone)
  {
    var orphansFirst := db.(deliveries := db.deliveries - orphans, audits := y);
    assert DeliveriesOf(orphansFirst, gone) == DeliveriesOf(db, gone);
    assert db.deliveries - DeliveriesOf(db, gone) - orphans == db.deliveries - orphans - DeliveriesOf(db, gone);
  }

  /** Deleting deliveries leaves the events, so the event prune picks the
      same. */
  lemma EventsUnmoved(db: Db, orphans: set<Id>, audits: seq<Audit>, statuses: seq<Status>, olderThan: int, limit: nat)
    ensures var db' := db.(deliveries := db.deliveries - orphans, audits := audits);
      EventCandidates(db', statuses, olderThan, limit) == EventCandidates(db, statuses, olderThan, limit)
  {
    var db' := db.(deliveries := db.deliveries - orphans, audits := audits);
    assert EligibleEvents(db', statuses, olderThan) == EligibleEvents(db, statuses, olderThan);
    assert EventTimes(db') == EventTimes(db);
  }

  /** Two prunes in a row, on the tables that the first one found. Each reads
      the clock for its own audit row. */
  lemma EventsThenOrphans(db: Db, at: int, statuses: seq<Status>, olderThan: int, limit: int,
                          orphanAt: int, orphanOlderThan: int, orphanLimit: int, queue: string)
    requires ValidEventPrune(statuses, olderThan, limit) && ValidOrphanPrune(orphanOlderThan, orphanLimit)
    ensures var gone := Set(EventCandidates(db, statuses, olderThan, limit));
      var orphans := Set(OrphanCandidates(db, orphanOlderThan, orphanLimit));
      var first := PruneEvents(db, at, statuses, olderThan, limit, queue);
      var second := PruneOrphans(first.db, orphanAt, orphanOlderThan, orphanLimit, queue);
      && second.result == Ok(|orphans|)
      && SameTables(second.db, first.db.(deliveries := first.db.deliveries - orphans))
      && first.db == DeleteEvents(db, queue, gone).(audits := first.db.audits)
  {
    var gone := Set(EventCandidates(db, statuses, olderThan, limit));
    var x := PruneEvents(db, at, statuses, olderThan, limit, queue).db.audits;
    OrphansUnmoved(db, queue, gone, x, orphanOlderThan, orphanLimit);
  }

  lemma OrphansThenEvents(db: Db, at: int, statuses: seq<Status>, olderThan: int, limit: int,
                          orphanAt: int, orphanOlderThan: int, orphanLimit: int, queue: string)
    requires ValidEventPrune(statuses, olderThan, limit) && ValidOrphanPrune(orphanOlderThan, orphanLimit)
    ensures var gone := Set(EventCandidates(db, statuses, olderThan, limit));
      var orphans := Set(OrphanCandidates(db, orphanOlderThan, orphanLimit));
      var first := PruneOrphans(db, orphanAt, orphanOlderThan, orphanLimit, queue);
      var second := PruneEvents(first.db, at, statuses, olderThan, limit, queue);
      && second.result == Ok(Counts(first.db, queue, gone))
      && SameTables(second.db, DeleteEvents(first.db, queue, gone))
      && first.db == db.(deliveries := db.deliveries - orphans, audits := first.db.audits)
  {
    var orphans := Set(OrphanCandidates(db, orphanOlderThan, orphanLimit));
    var y := PruneOrphans(db, orphanAt, orphanOlderThan, orphanLimit, queue).db.audits;
    EventsUnmoved(db, orphans, y, statuses, olderThan, limit);
  }

  lemma PrunesCommute(db: Db, at: int, at': int, statuses: seq<Status>, olderThan: int, limit: int,
                      orphanAt: int, orphanAt': int, orphanOlderThan: int, orphanLimit: int, queue: string)
    requires ValidEventPrune(statuses, olderThan, limit) && ValidOrphanPrune(orphanOlderThan, orphanLimit)
    ensures var e1 := PruneEvents(db, at, statuses, olderThan, limit, queue);
      var o2 := PruneOrphans(e1.db, orphanAt, orphanOlderThan, orphanLimit, queue);
      var o1 := PruneOrphans(db, orphanAt', orphanOlderThan, orphanLimit, queue);
      var e2 := PruneEvents(o1.db, at', statuses, olderThan, limit, queue);
      && SameTables(o2.db, e2.db) && o2.result == o1.result && e2.result == e1.result
  {
    EventsThenOrphans(db, at, statuses, olderThan, limit, orphanAt, orphanOlderThan, orphanLimit, queue);
    OrphansThenEvents(db, at', statuses, olderThan, limit, orphanAt', orphanOlderThan, orphanLimit, queue);
    CandidateSet(DeliveryTimes(db), EligibleOrphans(db, orphanOlderThan), orphanLimit);
    DeletesCommute(db, queue, Set(EventCandidates(db, statuses, olderThan, limit)),
                   Set(OrphanCandidates(db, orphanOlderThan, orphanLimit)),
                   PruneEvents(db, at, statuses, olderThan, limit, queue).db.audits,
                   PruneOrphans(db, orphanAt', orphanOlderThan, orphanLimit, queue).db.audits);
  }

  /** Neither half changes what the other removes or reports, whenever either is
      run; and the audit rows differ in nothing but their order and times. */
  lemma HalvesCommute(db: Db, at: int, at': int, orphanAt: int, orphanAt': int, p: Policy, queue: string)
    requires p.eventCutoff.Some? && p.orphanCutoff.Some?
    requires ValidEventPrune(p.statuses, p.eventCutoff.value, p.eventLimit)
    requires ValidOrphanPrune(p.orphanCutoff.value, p.orphanLimit)
    ensures var eventsFirst := OrphanHalf(EventHalf(db, at, p, queue).db, orphanAt, p, queue);
      var orphansFirst := EventHalf(OrphanHalf(db, orphanAt', p, queue).db, at', p, queue);
      && SameTables(eventsFirst.db, orphansFirst.db)
      && (at == at' && orphanAt == orphanAt' ==> multiset(eventsFirst.db.audits) == multiset(orphansFirst.db.audits))
      && eventsFirst.result == OrphanHalf(db, orphanAt', p, queue).result
      && orphansFirst.result == EventHalf(db, at, p, queue).result
  {
    PrunesCommute(db, at, at', p.statuses, p.eventCutoff.value, p.eventLimit,
                  orphanAt, orphanAt', p.orphanCutoff.value, p.orphanLimit, queue);
  }

  // ---- errors ----

  predicate ValidPass(p: Policy) {
    && (p.eventCutoff.Some? || p.orphanCutoff.Some?)
    && (p.eventCutoff.Some? ==> ValidEventPrune(p.statuses, p.eventCutoff.value, p.eventLimit))
    && (p.orphanCutoff.Some? ==> ValidOrphanPrune(p.orphanCutoff.value, p.orphanLimit))
  }

  lemma PassSucceeds(db: Db, clock: Clock, p: Policy, queue: string)
    ensures RetentionPass(db, clock, p, queue).result.Ok? <==> ValidPass(p)
  {
  }

  /** The pass is the event prune and then the orphan prune, each with its own
      cutoff and limit, of those that the policy has a cutoff for; it stops at the
      first error. */
  lemma PassIsTwoPrunes(db: Db, clock: Clock, p: Policy, queue: string)
    ensures var o := RetentionPass(db, clock, p, queue);
      if p.eventCutoff.Some? then
        var events := PruneEvents(db, clock.first, p.statuses, p.eventCutoff.value, p.eventLimit, queue);
        if events.result.Err? then o == Outcome(events.db, Err(events.result.error))
        else if p.orphanCutoff.None? then o == Outcome(events.db, Ok(PassResult(Some(events.result.value), None)))
        else
          var orphans := PruneOrphans(events.db, clock.second, p.orphanCutoff.value, p.orphanLimit, queue);
          if orphans.result.Err? then o == Outcome(orphans.db, Err(orphans.result.error))
          else o == Outcome(orphans.db, Ok(PassResult(Some(events.result.value), Some(orphans.result.value))))
      else if p.orphanCutoff.Some? then
        var orphans := PruneOrphans(db, clock.second, p.orphanCutoff.value, p.orphanLimit, queue);
        if orphans.result.Err? then o == Outcome(orphans.db, Err(orphans.result.error))
        else o == Outcome(orphans.db, Ok(PassResult(None, Some(orphans.result.value))))
      else o == Outcome(db, Err(NothingToPrune))
  {
  }

  lemma EventHalfKeepsOtherQueues(db: Db, at: int, p: Policy, queue: string, j: Id)
    requires j in db.live ==> db.live[j].queue != queue
    ensures var live := EventHalf(db, at, p, queue).db.live;
      if j in db.live then j in live && live[j] == db.live[j] else j !in live
  {
  }

  lemma OrphanHalfKeepsJobs(db: Db, at: int, p: Policy, queue: string)
    ensures OrphanHalf(db, at, p, queue).db.live == db.live
  {
  }

  lemma PassKeepsOtherQueues(db: Db, clock: Clock, p: Policy, queue: string, j: Id)
    requires ValidPass(p) && (j in db.live ==> db.live[j].queue != queue)
    ensures var live := RetentionPass(db, clock, p, queue).db.live;
      if j in db.live then j in live && live[j] == db.live[j] else j !in live
  {
    PassSucceeds(db, clock, p, queue);
    EventHalfKeepsOtherQueues(db, clock.first, p, queue, j);
    OrphanHalfKeepsJobs(EventHalf(db, clock.first, p, queue).db, clock.second, p, queue);
  }

  /** The retention job's transaction commits exactly when the arguments are
      valid and its claim still stands at the end; other queues' jobs are left
      alone. In every other case, a prune that had already been made is gone. */
  lemma PassIsAllOrNothing(db: Db, clock: Clock, p: Policy, queue: string, job: Id, worker: string)
    requires job in db.live ==> db.live[job].queue != queue
    ensures var o, pass := RetentionJob(db, clock, p, queue, job, worker), RetentionPass(db, clock, p, queue);
      if ValidPass(p) && Holds(db.live, job, worker, clock.last) then
        && o.result.Ok? && o.result == pass.result && o.db == pass.db.(live := pass.db.live - {job})
        && (forall j | j in db.live && db.live[j].queue != queue && j != job ::
              j in o.db.live && o.db.live[j] == db.live[j])
      else o == Outcome(db, Err(if pass.result.Err? then pass.result.error else ClaimLost))
  {
    PassSucceeds(db, clock, p, queue);
    if ValidPass(p) {
      PassKeepsOtherQueues(db, clock, p, queue, job);
      forall j | j in db.live && db.live[j].queue != queue {
        PassKeepsOtherQueues(db, clock, p, queue, j);
      }
    }
  }
}
