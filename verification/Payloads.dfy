/** How a job's payload is read: by the worker, and by the two searches for an
    event's live jobs, in Rust and in Python. */
module Payloads {
  import opened Schema

  /** A decoded JSON text. Python's decoder also reads NaN and the infinities. */
  datatype Json =
    | Null
    | Bool(b: bool)
    | Integer(n: int)
    | Fraction(r: real)
    | NotANumber
    | Infinity
    | Text(s: string)
    | List(elements: seq<Json>)
    | Object(fields: map<string, Json>)

  datatype Reading = Found(n: int) | Absent | Raised

  const EVENT := "event_id"
  const DELIVERY := "delivery_id"

  function Field(payload: Option<Json>, name: string): Option<Json> {
    if payload.Some? && payload.value.Object? && name in payload.value.fields then Some(payload.value.fields[name])
    else None
  }

  /** None stands for a text that is no JSON. */
  function RustEventId(payload: Option<Json>): Option<int> {
    match Field(payload, EVENT)
    case Some(Integer(n)) => if I64_MIN <= n <= I64_MAX then Some(n) else None
    case _ => None
  }

  /** int() of a float drops the fraction. */
  function Truncated(r: real): int {
    if r < 0.0 then -(-r).Floor else r.Floor
  }

  /** toInt is int() of a string. */
  function PythonEventId(payload: Option<Json>, toInt: string -> Option<int>): Reading {
    match Field(payload, EVENT)
    case Some(Integer(n)) => Found(n)
    case Some(Fraction(r)) => Found(Truncated(r))
    case Some(Infinity) => Raised
    case Some(Text(s)) => if toInt(s).Some? then Found(toInt(s).value) else Absent
    case _ => Absent
  }

  function RequiredInt(payload: Option<Json>, name: string): Reading {
    match Field(payload, name)
    case Some(Integer(n)) => Found(n)
    case _ => Raised
  }

  function OptionalInt(payload: Option<Json>, name: string): Reading {
    if Field(payload, name).None? then Absent else RequiredInt(payload, name)
  }

  /** The fraction goes, whatever the sign. */
  lemma TruncatedTowardZero(r: real)
    ensures var n := Truncated(r) as real;
      if r >= 0.0 then 0.0 <= n <= r < n + 1.0 else n - 1.0 < r <= n <= 0.0
  {
    assert (-r).Floor as real <= -r < (-r).Floor as real + 1.0;
  }

  /** The worker takes integers only, and so does Rust, in 64 bits. A delivery id
      may be missing. */
  lemma IntegersOnly(payload: Option<Json>, name: string)
    ensures var present := payload.Some? && payload.value.Object? && name in payload.value.fields;
      var integer := present && payload.value.fields[name].Integer?;
      && (RequiredInt(payload, name) == if integer then Found(payload.value.fields[name].n) else Raised)
      && (OptionalInt(payload, name) == if present then RequiredInt(payload, name) else Absent)
      && (name == "event_id" ==>
            RustEventId(payload) ==
            if integer && I64_MIN <= payload.value.fields[name].n <= I64_MAX then Some(payload.value.fields[name].n)
            else None)
  {
  }

  // ---- the live table ----

  /** The jobs whose payload Rust takes for work on one of the events. */
  function RustFinds(live: map<Id, Option<Json>>, events: set<int>): set<Id> {
    set j | j in live && RustEventId(live[j]).Some? && RustEventId(live[j]).value in events
  }

  /** Those that a worker would run for one of the events. */
  function WorkerFinds(live: map<Id, Option<Json>>, events: set<int>): set<Id> {
    set j | j in live && RequiredInt(live[j], EVENT).Found? && RequiredInt(live[j], EVENT).n in events
  }

  /** The Python search reads every row; a reading that raises is not caught. */
  datatype Search = Jobs(ids: set<Id>) | SearchRaised

  function PythonSearch(live: map<Id, Option<Json>>, toInt: string -> Option<int>, events: set<int>): Search {
    if exists j :: j in live && PythonEventId(live[j], toInt).Raised? then SearchRaised
    else Jobs(set j | j in live && PythonEventId(live[j], toInt).Found? && PythonEventId(live[j], toInt).n in events)
  }

  /** The event id is an infinite number. */
  predicate IsInfinite(payload: Option<Json>) {
    Field(payload, EVENT) == Some(Infinity)
  }

  /** The event id is a text that int() reads as one of the events, or a fraction
      that it cuts down to one. */
  predicate Coerced(payload: Option<Json>, toInt: string -> Option<int>, events: set<int>) {
    match Field(payload, EVENT)
    case Some(Text(s)) => toInt(s).Some? && toInt(s).value in events
    case Some(Fraction(r)) => Truncated(r) in events
    case _ => false
  }

  /** The prunes, replay and requeue, which search in Rust, take exactly the jobs
      that a worker would run for the events. */
  lemma RustFindsWork(live: map<Id, Option<Json>>, events: set<int>)
    requires forall e | e in events :: I64_MIN <= e <= I64_MAX
    ensures RustFinds(live, events) == WorkerFinds(live, events)
  {
  }

  /** The search in Python, which replay_delivery uses, fails exactly when some
      job of the table has an infinite event id. Otherwise it finds all of them,
      and the coerced jobs. */
  lemma PythonFindsMore(live: map<Id, Option<Json>>, toInt: string -> Option<int>, events: set<int>)
    requires forall e | e in events :: I64_MIN <= e <= I64_MAX
    ensures var search := PythonSearch(live, toInt, events);
      && (search.SearchRaised? <==> exists j :: j in live && IsInfinite(live[j]))
      && (search.Jobs? ==>
            search.ids == RustFinds(live, events) + set j | j in live && Coerced(live[j], toInt, events))
  {
    assert forall j | j in live :: PythonEventId(live[j], toInt).Raised? <==> IsInfinite(live[j]);
  }

  /** So the two searches agree if and only if the table has neither. */
  lemma SearchesAgree(live: map<Id, Option<Json>>, toInt: string -> Option<int>, events: set<int>)
    requires forall e | e in events :: I64_MIN <= e <= I64_MAX
    ensures PythonSearch(live, toInt, events) == Jobs(RustFinds(live, events)) <==>
      forall j | j in live :: !IsInfinite(live[j]) && !Coerced(live[j], toInt, events)
  {
    PythonFindsMore(live, toInt, events);
    var search, coerced := PythonSearch(live, toInt, events), set j | j in live && Coerced(live[j], toInt, events);
    var found := RustFinds(live, events);
    assert forall j | j in coerced :: j !in found;
    assert forall j | j in live && Coerced(live[j], toInt, events) :: j in coerced;
    assert coerced == {} <==> forall j | j in live :: !Coerced(live[j], toInt, events);
    if coerced == {} {
      assert found + coerced == found;
    } else {
      var j :| j in coerced;
      assert j in found + coerced && j !in found;
    }
  }

  /** The documentation rules out such jobs, and there are some: a string that
      int() reads. */
  lemma StringIdsAreCoerced(j: Id, e: int, printed: string, toInt: string -> Option<int>)
    requires toInt(printed) == Some(e) && I64_MIN <= e <= I64_MAX
    ensures var live := map[j := Some(Object(map[EVENT := Text(printed)]))];
      PythonSearch(live, toInt, {e}) == Jobs({j}) && WorkerFinds(live, {e}) == RustFinds(live, {e}) == {}
  {
    var live := map[j := Some(Object(map[EVENT := Text(printed)]))];
    assert Coerced(live[j], toInt, {e});
    PythonFindsMore(live, toInt, {e});
  }

  /** One infinite event id anywhere makes the search fail for every event, while
      Rust goes on. */
  lemma InfiniteIdsFail(live: map<Id, Option<Json>>, j: Id, toInt: string -> Option<int>, events: set<int>)
    requires j !in live
    ensures var all := live[j := Some(Object(map[EVENT := Infinity]))];
      PythonSearch(all, toInt, events).SearchRaised? && RustFinds(all, events) == RustFinds(live, events)
  {
    var all := live[j := Some(Object(map[EVENT := Infinity]))];
    assert PythonEventId(all[j], toInt).Raised?;
    assert forall k | k in live :: all[k] == live[k];
  }

  function Written(event: Id, delivery: Option<Id>): Json {
    var fields := map[EVENT := Integer(event)];
    Object(if delivery.Some? then fields[DELIVERY := Integer(delivery.value)] else fields)
  }

  /** A payload that Knocker wrote is read back alike by everyone. */
  lemma WrittenIsRead(event: Id, delivery: Option<Id>, toInt: string -> Option<int>)
    requires event <= I64_MAX
    ensures var payload := Some(Written(event, delivery));
      && RustEventId(payload) == Some(event as int)
      && PythonEventId(payload, toInt) == RequiredInt(payload, EVENT) == Found(event)
      && OptionalInt(payload, DELIVERY) == (if delivery.Some? then Found(delivery.value) else Absent)
  {
    assert EVENT != DELIVERY;
  }
}
