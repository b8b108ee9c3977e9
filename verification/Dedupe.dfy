/** Folding ingest over any sequence of requests is a group-by: one event and
    one job per leader, the first accepted request of its endpoint and key. */
module Dedupe {
  import opened Schema
  import opened Inbox
  import Steps

  datatype Arrival = Arrival(clock: Clock, inbound: Inbound)

  type Endpoints = map<string, bool>

  // ---- the group-by ----

  predicate Open(endpoints: Endpoints, a: Arrival) {
    a.inbound.endpoint in endpoints && endpoints[a.inbound.endpoint]
  }

  predicate Accepted(endpoints: Endpoints, a: Arrival) {
    Open(endpoints, a) && !Rejected(a.inbound.signatureValid)
  }

  /** The two requests carry one key of one endpoint. */
  predicate SameKey(a: Arrival, b: Arrival) {
    && ChosenKey(a.inbound).Some?
    && a.inbound.endpoint == b.inbound.endpoint && ChosenKey(a.inbound) == ChosenKey(b.inbound)
  }

  predicate Leads(endpoints: Endpoints, reqs: seq<Arrival>, i: nat)
    requires i < |reqs|
  {
    && Accepted(endpoints, reqs[i])
    && forall k | 0 <= k < i :: !(Accepted(endpoints, reqs[k]) && SameKey(reqs[k], reqs[i]))
  }

  function Leaders(endpoints: Endpoints, reqs: seq<Arrival>): seq<nat>
    decreases |reqs|
  {
    if reqs == [] then []
    else
      var n := |reqs| - 1;
      Leaders(endpoints, reqs[..n]) + (if Leads(endpoints, reqs, n) then [n] else [])
  }

  lemma LeadsInPrefix(endpoints: Endpoints, reqs: seq<Arrival>, a: Arrival, i: nat)
    requires i < |reqs|
    ensures Leads(endpoints, reqs + [a], i) <==> Leads(endpoints, reqs, i)
  {
    var all := reqs + [a];
    assert all[i] == reqs[i];
    assert forall k | 0 <= k < i :: all[k] == reqs[k];
  }

  lemma {:induction false} LeadersLead(endpoints: Endpoints, reqs: seq<Arrival>)
    ensures forall i | i in Leaders(endpoints, reqs) :: i < |reqs| && Leads(endpoints, reqs, i)
    ensures forall i | 0 <= i < |reqs| && Leads(endpoints, reqs, i) :: i in Leaders(endpoints, reqs)
    decreases |reqs|
  {
    if reqs != [] {
      var n := |reqs| - 1;
      var init := reqs[..n];
      LeadersLead(endpoints, init);
      assert reqs == init + [reqs[n]];
      forall i | 0 <= i < n ensures Leads(endpoints, reqs, i) <==> Leads(endpoints, init, i) {
        LeadsInPrefix(endpoints, init, reqs[n], i);
      }
      var before := Leaders(endpoints, init);
      if Leads(endpoints, reqs, n) {
        assert Leaders(endpoints, reqs) == before + [n];
      } else {
        assert Leaders(endpoints, reqs) == before;
      }
    }
  }

  predicate Ascending(l: seq<nat>) {
    forall p, q | 0 <= p < q < |l| :: l[p] < l[q]
  }

  lemma {:induction false} LeadersAscend(endpoints: Endpoints, reqs: seq<Arrival>)
    ensures Ascending(Leaders(endpoints, reqs))
    decreases |reqs|
  {
    if reqs != [] {
      var n := |reqs| - 1;
      LeadersAscend(endpoints, reqs[..n]);
      LeadersLead(endpoints, reqs[..n]);
      var before := Leaders(endpoints, reqs[..n]);
      assert forall p | 0 <= p < |before| :: before[p] in before;
      assert Ascending(before + [n]);
    }
  }

  // ---- folding ingest ----

  function IngestAll(db: Db, reqs: seq<Arrival>, queue: string, maxAttempts: int): (Db, seq<Result<Receipt>>)
    decreases |reqs|
  {
    if reqs == [] then (db, [])
    else
      var n := |reqs| - 1;
      var (before, receipts) := IngestAll(db, reqs[..n], queue, maxAttempts);
      var o := InTransaction(before, Ingest(before, reqs[n].clock, reqs[n].inbound, queue, maxAttempts));
      (o.db, receipts + [o.result])
  }

  function EmptyInbox(endpoints: Endpoints): Db {
    EMPTY_DB.(endpoints := endpoints)
  }

  /** Event e is the one that the e-th of the requests l made. */
  ghost predicate EventsOf(l: seq<nat>, reqs: seq<Arrival>, events: map<Id, Event>) {
    && (forall p | 0 <= p < |l| :: l[p] < |reqs|)
    && (forall e :: e in events <==> 1 <= e <= |l|)
    && (forall e | e in events :: events[e] == NewEvent(reqs[l[e - 1]].inbound, reqs[l[e - 1]].clock.first))
  }

  /** Event e is the one the e-th leader created, and it has one pending job. */
  ghost predicate EventsGrouped(endpoints: Endpoints, reqs: seq<Arrival>, db: Db, queue: string, maxAttempts: int) {
    var l := Leaders(endpoints, reqs);
    && EventsOf(l, reqs, db.events)
    && db.endpoints == endpoints
    && db.nextEvent == db.nextJob == |l| + 1
    && db.live == (map e | 1 <= e <= |l| :: Job(queue, Knocker(e, None), maxAttempts, 0, None))
  }

  function CountOpen(endpoints: Endpoints, reqs: seq<Arrival>): nat
    decreases |reqs|
  {
    if reqs == [] then 0
    else CountOpen(endpoints, reqs[..|reqs| - 1]) + (if Open(endpoints, reqs[|reqs| - 1]) then 1 else 0)
  }

  /** The receipt of request i names its group's leader, and is marked duplicate
      exactly when the leader is another request. */
  ghost predicate ReceiptOk(endpoints: Endpoints, reqs: seq<Arrival>, i: nat, r: Result<Receipt>)
    requires i < |reqs|
  {
    if !Open(endpoints, reqs[i]) then r == Err(UnknownEndpoint)
    else
      var d := CountOpen(endpoints, reqs[..i]) + 1;
      if Rejected(reqs[i].inbound.signatureValid) then r == Ok(Receipt(d, None, false, 401))
      else
        && r.Ok? && r.value.event.Some?
        && r == Ok(Receipt(d, r.value.event, !Leads(endpoints, reqs, i), 204))
        && var e, l := r.value.event.value, Leaders(endpoints, reqs);
        && 1 <= e <= |l| && l[e - 1] < |reqs|
        && (l[e - 1] == i || (l[e - 1] < i && SameKey(reqs[l[e - 1]], reqs[i])))
  }

  ghost predicate DeliveryOk(reqs: seq<Arrival>, i: nat, r: Receipt, db: Db)
    requires i < |reqs|
  {
    var inb := reqs[i].inbound;
    r.delivery in db.deliveries &&
    db.deliveries[r.delivery] ==
      Delivery(inb.endpoint, r.event, reqs[i].clock.second, inb.request,
               inb.signatureValid, inb.signatureError, ChosenKey(inb))
  }

  ghost predicate DeliveriesGrouped(endpoints: Endpoints, reqs: seq<Arrival>, db: Db, receipts: seq<Result<Receipt>>) {
    && |receipts| == |reqs|
    && (forall i | 0 <= i < |reqs| :: ReceiptOk(endpoints, reqs, i, receipts[i]))
    && db.nextDelivery == CountOpen(endpoints, reqs) + 1
    && (forall d :: d in db.deliveries <==> 1 <= d <= CountOpen(endpoints, reqs))
    && (forall i | 0 <= i < |reqs| && receipts[i].Ok? :: DeliveryOk(reqs, i, receipts[i].value, db))
  }

  lemma GroupHasEvent(endpoints: Endpoints, reqs: seq<Arrival>, db: Db, queue: string, maxAttempts: int, k: nat)
    requires EventsGrouped(endpoints, reqs, db, queue, maxAttempts) && k < |reqs|
    ensures Accepted(endpoints, reqs[k]) && ChosenKey(reqs[k].inbound).Some? ==>
      exists e :: e in db.events && Matches(db.events[e], reqs[k].inbound.endpoint, ChosenKey(reqs[k].inbound).value)
  {
    if Accepted(endpoints, reqs[k]) && ChosenKey(reqs[k].inbound).Some? {
      var l := Leaders(endpoints, reqs);
      LeadersLead(endpoints, reqs);
      var m := FirstOf(endpoints, reqs, k);
      var p :| 0 <= p < |l| && l[p] == m;
      assert p + 1 in db.events;
    }
  }

  lemma UnmatchedLeads(endpoints: Endpoints, reqs: seq<Arrival>, db: Db, queue: string, maxAttempts: int, a: Arrival)
    requires EventsGrouped(endpoints, reqs, db, queue, maxAttempts) && Accepted(endpoints, a)
    requires FindExisting(db, a.inbound.endpoint, ChosenKey(a.inbound)).None?
    ensures Leads(endpoints, reqs + [a], |reqs|)
  {
    Steps.FoundEvent(db, a.inbound.endpoint, ChosenKey(a.inbound));
    var all := reqs + [a];
    forall k | 0 <= k < |reqs| ensures !(Accepted(endpoints, all[k]) && SameKey(all[k], a)) {
      GroupHasEvent(endpoints, reqs, db, queue, maxAttempts, k);
    }
  }

  lemma MatchedFollows(endpoints: Endpoints, reqs: seq<Arrival>, db: Db, queue: string, maxAttempts: int, a: Arrival)
    requires EventsGrouped(endpoints, reqs, db, queue, maxAttempts) && Accepted(endpoints, a)
    requires FindExisting(db, a.inbound.endpoint, ChosenKey(a.inbound)).Some?
    ensures var e, l := FindExisting(db, a.inbound.endpoint, ChosenKey(a.inbound)).value, Leaders(endpoints, reqs);
      1 <= e <= |l| && SameKey(reqs[l[e - 1]], a) && !Leads(endpoints, reqs + [a], |reqs|)
  {
    Steps.FoundEvent(db, a.inbound.endpoint, ChosenKey(a.inbound));
    LeadersLead(endpoints, reqs);
    var e, l := FindExisting(db, a.inbound.endpoint, ChosenKey(a.inbound)).value, Leaders(endpoints, reqs);
    var k := l[e - 1];
    assert k in l && (reqs + [a])[k] == reqs[k] && (reqs + [a])[|reqs|] == a;
  }

  /** With the events grouped, the lookup finds the leader of the group. */
  lemma LookupFindsLeader(endpoints: Endpoints, reqs: seq<Arrival>, db: Db, queue: string, maxAttempts: int, a: Arrival)
    requires EventsGrouped(endpoints, reqs, db, queue, maxAttempts) && Accepted(endpoints, a)
    ensures var f, l := FindExisting(db, a.inbound.endpoint, ChosenKey(a.inbound)), Leaders(endpoints, reqs);
      && (f.Some? ==> 1 <= f.value <= |l| && SameKey(reqs[l[f.value - 1]], a))
      && (f.None? <==> Leads(endpoints, reqs + [a], |reqs|))
  {
    if FindExisting(db, a.inbound.endpoint, ChosenKey(a.inbound)).Some? {
      MatchedFollows(endpoints, reqs, db, queue, maxAttempts, a);
    } else {
      UnmatchedLeads(endpoints, reqs, db, queue, maxAttempts, a);
    }
  }

  /** The leader of an accepted keyed request. */
  lemma FirstOf(endpoints: Endpoints, reqs: seq<Arrival>, i: nat) returns (m: nat)
    requires i < |reqs| && Accepted(endpoints, reqs[i]) && ChosenKey(reqs[i].inbound).Some?
    ensures m <= i && Leads(endpoints, reqs, m) && SameKey(reqs[m], reqs[i])
  {
    if Leads(endpoints, reqs, i) {
      m := i;
    } else {
      var k :| 0 <= k < i && Accepted(endpoints, reqs[k]) && SameKey(reqs[k], reqs[i]);
      m := FirstOf(endpoints, reqs, k);
    }
  }

  lemma LeadersGrow(endpoints: Endpoints, reqs: seq<Arrival>, a: Arrival)
    ensures Leaders(endpoints, reqs + [a]) ==
      Leaders(endpoints, reqs) + (if Leads(endpoints, reqs + [a], |reqs|) then [|reqs|] else [])
    ensures CountOpen(endpoints, reqs + [a]) == CountOpen(endpoints, reqs) + (if Open(endpoints, a) then 1 else 0)
  {
    assert (reqs + [a])[..|reqs|] == reqs;
  }

  lemma EventsStep(endpoints: Endpoints, reqs: seq<Arrival>, db: Db, queue: string, maxAttempts: int, a: Arrival)
    requires EventsGrouped(endpoints, reqs, db, queue, maxAttempts)
    ensures var db' := Ingest(db, a.clock, a.inbound, queue, maxAttempts).db;
      EventsGrouped(endpoints, reqs + [a], db', queue, maxAttempts)
  {
    if Accepted(endpoints, a) {
      LookupFindsLeader(endpoints, reqs, db, queue, maxAttempts, a);
    }
    if Leads(endpoints, reqs + [a], |reqs|) {
      LeaderAddsEvent(endpoints, reqs, db, queue, maxAttempts, a);
    } else {
      OthersAddNone(endpoints, reqs, db, Ingest(db, a.clock, a.inbound, queue, maxAttempts).db, queue, maxAttempts, a);
    }
  }

  lemma IngestCreates(db: Db, clock: Clock, inb: Inbound, queue: string, maxAttempts: int)
    requires inb.endpoint in db.endpoints && db.endpoints[inb.endpoint] && !Rejected(inb.signatureValid)
    requires FindExisting(db, inb.endpoint, ChosenKey(inb)).None?
    ensures var db', e := Ingest(db, clock, inb, queue, maxAttempts).db, db.nextEvent;
      && db'.endpoints == db.endpoints
      && db'.events == db.events[e := NewEvent(inb, clock.first)] && db'.nextEvent == e + 1
      && db'.live == db.live[db.nextJob := Job(queue, Knocker(e, None), maxAttempts, 0, None)]
      && db'.nextJob == db.nextJob + 1
  {
  }

  lemma LeaderAddsEvent(endpoints: Endpoints, reqs: seq<Arrival>, db: Db, queue: string, maxAttempts: int, a: Arrival)
    requires EventsGrouped(endpoints, reqs, db, queue, maxAttempts) && Leads(endpoints, reqs + [a], |reqs|)
    requires FindExisting(db, a.inbound.endpoint, ChosenKey(a.inbound)).None?
    ensures var db' := Ingest(db, a.clock, a.inbound, queue, maxAttempts).db;
      EventsGrouped(endpoints, reqs + [a], db', queue, maxAttempts)
  {
    IngestCreates(db, a.clock, a.inbound, queue, maxAttempts);
    GroupGrows(endpoints, reqs, db, Ingest(db, a.clock, a.inbound, queue, maxAttempts).db, queue, maxAttempts, a);
  }

  lemma JobsGrow(n: nat, live: map<Id, Job>, queue: string, maxAttempts: int)
    requires live == map e | 1 <= e <= n :: Job(queue, Knocker(e, None), maxAttempts, 0, None)
    ensures live[n + 1 := Job(queue, Knocker(n + 1, None), maxAttempts, 0, None)] ==
      map e | 1 <= e <= n + 1 :: Job(queue, Knocker(e, None), maxAttempts, 0, None)
  {
  }

  lemma LeadersEventsGrow(l: seq<nat>, reqs: seq<Arrival>, a: Arrival, events: map<Id, Event>)
    requires EventsOf(l, reqs, events)
    ensures EventsOf(l + [|reqs|], reqs + [a], events[|l| + 1 := NewEvent(a.inbound, a.clock.first)])
  {
  }

  lemma GroupGrows(endpoints: Endpoints, reqs: seq<Arrival>, db: Db, db': Db, queue: string, maxAttempts: int,
                   a: Arrival)
    requires EventsGrouped(endpoints, reqs, db, queue, maxAttempts) && Leads(endpoints, reqs + [a], |reqs|)
    requires db'.endpoints == db.endpoints && db'.nextEvent == db.nextEvent + 1 && db'.nextJob == db.nextJob + 1
    requires db'.events == db.events[db.nextEvent := NewEvent(a.inbound, a.clock.first)]
    requires db'.live == db.live[db.nextJob := Job(queue, Knocker(db.nextEvent, None), maxAttempts, 0, None)]
    ensures EventsGrouped(endpoints, reqs + [a], db', queue, maxAttempts)
  {
    LeadersGrow(endpoints, reqs, a);
    var l := Leaders(endpoints, reqs);
    JobsGrow(|l|, db.live, queue, maxAttempts);
    LeadersEventsGrow(l, reqs, a, db.events);
  }

  lemma OthersAddNone(endpoints: Endpoints, reqs: seq<Arrival>, db: Db, db': Db, queue: string, maxAttempts: int,
                      a: Arrival)
    requires EventsGrouped(endpoints, reqs, db, queue, maxAttempts) && !Leads(endpoints, reqs + [a], |reqs|)
    requires db' == db.(deliveries := db'.deliveries, nextDelivery := db'.nextDelivery)
    ensures EventsGrouped(endpoints, reqs + [a], db', queue, maxAttempts)
  {
    LeadersGrow(endpoints, reqs, a);
  }

  lemma DeliveriesStep(endpoints: Endpoints, reqs: seq<Arrival>, db: Db, queue: string, maxAttempts: int,
                       receipts: seq<Result<Receipt>>, a: Arrival)
    requires EventsGrouped(endpoints, reqs, db, queue, maxAttempts)
    requires DeliveriesGrouped(endpoints, reqs, db, receipts)
    ensures var o := Ingest(db, a.clock, a.inbound, queue, maxAttempts);
      DeliveriesGrouped(endpoints, reqs + [a], o.db, receipts + [o.result])
  {
    var o := Ingest(db, a.clock, a.inbound, queue, maxAttempts);
    var all, results := reqs + [a], receipts + [o.result];
    LeadersGrow(endpoints, reqs, a);
    NewReceiptOk(endpoints, reqs, db, queue, maxAttempts, a);
    forall i | 0 <= i < |all| ensures ReceiptOk(endpoints, all, i, results[i]) {
      if i < |reqs| { ReceiptKept(endpoints, reqs, i, receipts[i], a); }
    }
    forall i | 0 <= i < |all| && results[i].Ok? ensures DeliveryOk(all, i, results[i].value, o.db) {
      assert i < |reqs| ==> DeliveryOk(reqs, i, results[i].value, db);
    }
  }

  lemma NewReceiptOk(endpoints: Endpoints, reqs: seq<Arrival>, db: Db, queue: string, maxAttempts: int, a: Arrival)
    requires EventsGrouped(endpoints, reqs, db, queue, maxAttempts)
    requires db.nextDelivery == CountOpen(endpoints, reqs) + 1
    ensures ReceiptOk(endpoints, reqs + [a], |reqs|, Ingest(db, a.clock, a.inbound, queue, maxAttempts).result)
  {
    LeadersGrow(endpoints, reqs, a);
    assert (reqs + [a])[..|reqs|] == reqs;
    if !Accepted(endpoints, a) {
    } else if FindExisting(db, a.inbound.endpoint, ChosenKey(a.inbound)).Some? {
      MatchedFollows(endpoints, reqs, db, queue, maxAttempts, a);
    } else {
      UnmatchedLeads(endpoints, reqs, db, queue, maxAttempts, a);
    }
  }

  lemma ReceiptKept(endpoints: Endpoints, reqs: seq<Arrival>, i: nat, r: Result<Receipt>, a: Arrival)
    requires i < |reqs| && ReceiptOk(endpoints, reqs, i, r)
    ensures ReceiptOk(endpoints, reqs + [a], i, r)
  {
    var all := reqs + [a];
    LeadersGrow(endpoints, reqs, a);
    assert all[..i] == reqs[..i];
    assert all[i] == reqs[i];
    assert forall k | 0 <= k < i :: all[k] == reqs[k];
  }

  lemma {:induction false} IngestIsGroupBy(endpoints: Endpoints, reqs: seq<Arrival>, queue: string, maxAttempts: int)
    ensures var (db, receipts) := IngestAll(EmptyInbox(endpoints), reqs, queue, maxAttempts);
      && EventsGrouped(endpoints, reqs, db, queue, maxAttempts)
      && DeliveriesGrouped(endpoints, reqs, db, receipts)
    decreases |reqs|
  {
    if reqs != [] {
      var n := |reqs| - 1;
      var init, a := reqs[..n], reqs[n];
      assert init + [a] == reqs;
      IngestIsGroupBy(endpoints, init, queue, maxAttempts);
      var (db, receipts) := IngestAll(EmptyInbox(endpoints), init, queue, maxAttempts);
      EventsStep(endpoints, init, db, queue, maxAttempts, a);
      DeliveriesStep(endpoints, init, db, queue, maxAttempts, receipts, a);
      IngestErrorChangesNothing(db, a, queue, maxAttempts);
    }
  }

  lemma IngestErrorChangesNothing(db: Db, a: Arrival, queue: string, maxAttempts: int)
    ensures var o := Ingest(db, a.clock, a.inbound, queue, maxAttempts); InTransaction(db, o) == o
  {
  }

  // ---- order does not matter ----

  type Key = (string, Option<string>)

  function KeyOf(a: Arrival): Key {
    (a.inbound.endpoint, ChosenKey(a.inbound))
  }

  predicate Keyed(endpoints: Endpoints, a: Arrival) {
    Accepted(endpoints, a) && ChosenKey(a.inbound).Some?
  }

  /** The keys of the requests. */
  function KeySet(endpoints: Endpoints, reqs: seq<Arrival>): set<Key> {
    set a | a in reqs && Keyed(endpoints, a) :: KeyOf(a)
  }

  /** The keys that the inbox stores. */
  function StoredKeys(db: Db): set<Key> {
    set e | e in db.events && db.events[e].dedupeKey.Some? :: (db.events[e].endpoint, db.events[e].dedupeKey)
  }

  lemma StoredKeysAreRequested(endpoints: Endpoints, reqs: seq<Arrival>, db: Db, queue: string, maxAttempts: int)
    requires EventsGrouped(endpoints, reqs, db, queue, maxAttempts)
    ensures StoredKeys(db) == KeySet(endpoints, reqs)
  {
    var l := Leaders(endpoints, reqs);
    LeadersLead(endpoints, reqs);
    forall key | key in StoredKeys(db) ensures key in KeySet(endpoints, reqs) {
      var e :| e in db.events && db.events[e].dedupeKey.Some? && (db.events[e].endpoint, db.events[e].dedupeKey) == key;
      assert l[e - 1] in l;
      assert reqs[l[e - 1]] in reqs && KeyOf(reqs[l[e - 1]]) == key;
    }
    forall key | key in KeySet(endpoints, reqs) ensures key in StoredKeys(db) {
      var a :| a in reqs && Keyed(endpoints, a) && KeyOf(a) == key;
      var k :| 0 <= k < |reqs| && reqs[k] == a;
      GroupHasEvent(endpoints, reqs, db, queue, maxAttempts, k);
    }
  }

  function Keyless(endpoints: Endpoints, reqs: seq<Arrival>): nat
    decreases |reqs|
  {
    if reqs == [] then 0
    else
      var a := reqs[|reqs| - 1];
      Keyless(endpoints, reqs[..|reqs| - 1]) + (if Accepted(endpoints, a) && !Keyed(endpoints, a) then 1 else 0)
  }

  lemma KeyAdded(endpoints: Endpoints, init: seq<Arrival>, a: Arrival)
    ensures KeySet(endpoints, init + [a]) == KeySet(endpoints, init) + if Keyed(endpoints, a) then {KeyOf(a)} else {}
  {
    assert forall b :: b in init + [a] <==> b in init || b == a;
  }

  /** A keyed request leads exactly when its key is new. */
  lemma NewKeyLeads(endpoints: Endpoints, init: seq<Arrival>, a: Arrival)
    requires Keyed(endpoints, a)
    ensures Leads(endpoints, init + [a], |init|) <==> KeyOf(a) !in KeySet(endpoints, init)
  {
    var all := init + [a];
    assert forall k | 0 <= k < |init| :: all[k] == init[k] && init[k] in init;
    if KeyOf(a) in KeySet(endpoints, init) {
      var b :| b in init && Keyed(endpoints, b) && KeyOf(b) == KeyOf(a);
      var k :| 0 <= k < |init| && init[k] == b;
      assert !Leads(endpoints, all, |init|);
    } else {
      forall k | 0 <= k < |init| ensures !(Accepted(endpoints, all[k]) && SameKey(all[k], a)) {
        assert Keyed(endpoints, init[k]) ==> KeyOf(init[k]) in KeySet(endpoints, init);
      }
    }
  }

  lemma KeylessLeads(endpoints: Endpoints, init: seq<Arrival>, a: Arrival)
    requires !Keyed(endpoints, a)
    ensures Leads(endpoints, init + [a], |init|) <==> Accepted(endpoints, a)
  {
  }

  lemma KeylessAdded(endpoints: Endpoints, init: seq<Arrival>, a: Arrival)
    ensures Keyless(endpoints, init + [a]) ==
      Keyless(endpoints, init) + if Accepted(endpoints, a) && !Keyed(endpoints, a) then 1 else 0
  {
    assert (init + [a])[..|init|] == init;
  }

  lemma LeaderCounted(endpoints: Endpoints, init: seq<Arrival>, a: Arrival)
    requires |Leaders(endpoints, init)| == |KeySet(endpoints, init)| + Keyless(endpoints, init)
    ensures |Leaders(endpoints, init + [a])| == |KeySet(endpoints, init + [a])| + Keyless(endpoints, init + [a])
  {
    LeadersGrow(endpoints, init, a);
    KeyAdded(endpoints, init, a);
    KeylessAdded(endpoints, init, a);
    if Keyed(endpoints, a) {
      NewKeyLeads(endpoints, init, a);
      var keys := KeySet(endpoints, init);
      assert KeyOf(a) in keys ==> keys + {KeyOf(a)} == keys;
    } else {
      KeylessLeads(endpoints, init, a);
    }
  }

  /** One event and one job per distinct key, and one per keyless request. */
  lemma {:induction false} LeadersCounted(endpoints: Endpoints, reqs: seq<Arrival>)
    ensures |Leaders(endpoints, reqs)| == |KeySet(endpoints, reqs)| + Keyless(endpoints, reqs)
    decreases |reqs|
  {
    if reqs == [] {
      assert KeySet(endpoints, []) == {};
    } else {
      var init, a := reqs[..|reqs| - 1], reqs[|reqs| - 1];
      LeadersCounted(endpoints, init);
      LeaderCounted(endpoints, init, a);
      assert reqs == init + [a];
    }
  }

  lemma {:induction false} CountsAppend(endpoints: Endpoints, x: seq<Arrival>, y: seq<Arrival>)
    ensures Keyless(endpoints, x + y) == Keyless(endpoints, x) + Keyless(endpoints, y)
    ensures CountOpen(endpoints, x + y) == CountOpen(endpoints, x) + CountOpen(endpoints, y)
    decreases |y|
  {
    if y == [] {
      assert x + y == x;
    } else {
      var n := |y| - 1;
      assert (x + y)[..|x + y| - 1] == x + y[..n];
      CountsAppend(endpoints, x, y[..n]);
    }
  }

  lemma CountsMoved(endpoints: Endpoints, left: seq<Arrival>, a: Arrival, right: seq<Arrival>)
    ensures Keyless(endpoints, left + ([a] + right)) == Keyless(endpoints, left + right) + Keyless(endpoints, [a])
    ensures CountOpen(endpoints, left + ([a] + right)) == CountOpen(endpoints, left + right) + CountOpen(endpoints, [a])
  {
    CountsAppend(endpoints, left, right);
    CountsAppend(endpoints, [a], right);
    CountsAppend(endpoints, left, [a] + right);
  }

  /** The requests themselves: when they are processed is no part of them. */
  function Inbounds(reqs: seq<Arrival>): seq<Inbound> {
    seq(|reqs|, i requires 0 <= i < |reqs| => reqs[i].inbound)
  }

  lemma WithoutOne<T>(s: seq<T>, k: nat)
    requires k < |s|
    ensures multiset(s[..k] + s[k + 1..]) == multiset(s) - multiset{s[k]}
  {
    assert s == s[..k] + ([s[k]] + s[k + 1..]);
  }

  lemma InboundsWithout(reqs: seq<Arrival>, k: nat)
    requires k < |reqs|
    ensures Inbounds(reqs[..k] + reqs[k + 1..]) == Inbounds(reqs)[..k] + Inbounds(reqs)[k + 1..]
  {
  }

  /** Taking out one arrival takes out one request. */
  lemma RequestsWithout(reqs: seq<Arrival>, k: nat)
    requires k < |reqs|
    ensures multiset(Inbounds(reqs[..k] + reqs[k + 1..])) == multiset(Inbounds(reqs)) - multiset{reqs[k].inbound}
  {
    InboundsWithout(reqs, k);
    WithoutOne(Inbounds(reqs), k);
  }

  lemma RequestFound(reqs: seq<Arrival>, inb: Inbound) returns (k: nat)
    requires inb in multiset(Inbounds(reqs))
    ensures k < |reqs| && reqs[k].inbound == inb
  {
    assert inb in Inbounds(reqs);
    var i :| 0 <= i < |reqs| && Inbounds(reqs)[i] == inb;
    k := i;
  }

  lemma RequestCounted(reqs: seq<Arrival>, k: nat)
    requires k < |reqs|
    ensures reqs[k].inbound in multiset(Inbounds(reqs))
  {
    assert Inbounds(reqs)[k] in Inbounds(reqs);
  }

  /** What is left of y without one arrival of x's last request. */
  lemma TakeOut(x: seq<Arrival>, y: seq<Arrival>) returns (k: nat)
    requires x != [] && multiset(Inbounds(x)) == multiset(Inbounds(y))
    ensures k < |y| && y[k].inbound == x[|x| - 1].inbound
    ensures multiset(Inbounds(y[..k] + y[k + 1..])) == multiset(Inbounds(x[..|x| - 1]))
  {
    var n := |x| - 1;
    RequestCounted(x, n);
    k := RequestFound(y, x[n].inbound);
    RequestsWithout(y, k);
    RequestsWithout(x, n);
    assert x[..n] + x[n + 1..] == x[..n];
  }

  /** One request counts the same whenever it is processed. */
  lemma CountsOne(endpoints: Endpoints, a: Arrival, b: Arrival)
    requires a.inbound == b.inbound
    ensures Keyless(endpoints, [a]) == Keyless(endpoints, [b])
    ensures CountOpen(endpoints, [a]) == CountOpen(endpoints, [b])
  {
    assert [a][..0] == [] && [b][..0] == [];
  }

  lemma {:induction false} CountsPermuted(endpoints: Endpoints, x: seq<Arrival>, y: seq<Arrival>)
    requires multiset(Inbounds(x)) == multiset(Inbounds(y))
    ensures Keyless(endpoints, x) == Keyless(endpoints, y)
    ensures CountOpen(endpoints, x) == CountOpen(endpoints, y)
    decreases |x|
  {
    if x == [] {
      assert |multiset(Inbounds(y))| == |Inbounds(y)| == 0;
    } else {
      var n := |x| - 1;
      var k := TakeOut(x, y);
      CountsPermuted(endpoints, x[..n], y[..k] + y[k + 1..]);
      assert y == y[..k] + ([y[k]] + y[k + 1..]) && x == x[..n] + [x[n]];
      CountsMoved(endpoints, y[..k], y[k], y[k + 1..]);
      CountsAppend(endpoints, x[..n], [x[n]]);
      CountsOne(endpoints, x[n], y[k]);
    }
  }

  lemma KeysWithin(endpoints: Endpoints, x: seq<Arrival>, y: seq<Arrival>)
    requires multiset(Inbounds(x)) == multiset(Inbounds(y))
    ensures KeySet(endpoints, x) <= KeySet(endpoints, y)
  {
    forall key | key in KeySet(endpoints, x) ensures key in KeySet(endpoints, y) {
      var a :| a in x && Keyed(endpoints, a) && KeyOf(a) == key;
      var i :| 0 <= i < |x| && x[i] == a;
      RequestCounted(x, i);
      var k := RequestFound(y, a.inbound);
      assert y[k] in y && Keyed(endpoints, y[k]) && KeyOf(y[k]) == key;
    }
  }

  /** What a run leaves depends on the requests' keys and on three numbers. */
  lemma InboxTotals(endpoints: Endpoints, reqs: seq<Arrival>, queue: string, maxAttempts: int)
    ensures var db := IngestAll(EmptyInbox(endpoints), reqs, queue, maxAttempts).0;
      var n := |KeySet(endpoints, reqs)| + Keyless(endpoints, reqs);
      && StoredKeys(db) == KeySet(endpoints, reqs)
      && (forall e :: e in db.events <==> 1 <= e <= n)
      && db.live == (map e | 1 <= e <= n :: Job(queue, Knocker(e, None), maxAttempts, 0, None))
      && db.nextDelivery == CountOpen(endpoints, reqs) + 1
      && (forall d :: d in db.deliveries <==> 1 <= d <= CountOpen(endpoints, reqs))
  {
    IngestIsGroupBy(endpoints, reqs, queue, maxAttempts);
    LeadersCounted(endpoints, reqs);
    StoredKeysAreRequested(endpoints, reqs, IngestAll(EmptyInbox(endpoints), reqs, queue, maxAttempts).0,
                           queue, maxAttempts);
  }

  /** Reordering the requests, each processed at whatever time its new place
      gives it, changes neither the keys that are stored nor how many events, jobs
      and deliveries there are. */
  lemma OrderIrrelevant(endpoints: Endpoints, x: seq<Arrival>, y: seq<Arrival>, queue: string, maxAttempts: int)
    requires multiset(Inbounds(x)) == multiset(Inbounds(y))
    ensures var dx := IngestAll(EmptyInbox(endpoints), x, queue, maxAttempts).0;
      var dy := IngestAll(EmptyInbox(endpoints), y, queue, maxAttempts).0;
      && StoredKeys(dx) == StoredKeys(dy)
      && dx.events.Keys == dy.events.Keys && dx.live == dy.live
      && dx.nextDelivery == dy.nextDelivery && dx.deliveries.Keys == dy.deliveries.Keys
  {
    InboxTotals(endpoints, x, queue, maxAttempts);
    InboxTotals(endpoints, y, queue, maxAttempts);
    CountsPermuted(endpoints, x, y);
    KeysWithin(endpoints, x, y);
    KeysWithin(endpoints, y, x);
  }
}
