/** The contract Knocker relies on from Honker's job queue, whose source is not
    part of this model. Job ids are never reused; a claim can be taken over as
    soon as, and not before, its lease has expired. */
module Honker {
  import opened Schema
  import opened Selection

  function Enqueue(db: Db, queue: string, payload: Payload, maxAttempts: int): Db {
    db.(live := db.live[db.nextJob := Job(queue, payload, maxAttempts, 0, None)],
        nextJob := db.nextJob + 1)
  }

  predicate Claimable(job: Job, queue: string, now: int) {
    job.queue == queue && (job.claim.None? || job.claim.value.until < now)
  }

  /** ids are distinct rows that a worker may claim together. */
  predicate CanClaim(db: Db, queue: string, now: int, ids: seq<Id>) {
    && |Set(ids)| == |ids|
    && (forall j | j in Set(ids) :: j in db.live && Claimable(db.live[j], queue, now))
  }

  function ClaimOne(job: Job, worker: string, until: int): Job {
    job.(attempts := job.attempts + 1, claim := Some(Claim(worker, until)))
  }

  function ClaimBatch(db: Db, worker: string, until: int, ids: set<Id>): Db {
    db.(live := map j | j in db.live :: if j in ids then ClaimOne(db.live[j], worker, until) else db.live[j])
  }

  predicate Holds(live: map<Id, Job>, job: Id, worker: string, now: int) {
    && job in live
    && live[job].claim.Some?
    && live[job].claim.value.worker == worker
    && now <= live[job].claim.value.until
  }

  /** ack and fail both take the row out of the live table. */
  function Finish(db: Db, job: Id, worker: string, now: int): (Db, bool) {
    if Holds(db.live, job, worker, now) then (db.(live := db.live - {job}), true) else (db, false)
  }

  function Retry(db: Db, job: Id, worker: string, now: int): (Db, bool) {
    if !Holds(db.live, job, worker, now) then (db, false)
    else if db.live[job].attempts < db.live[job].maxAttempts then
      (db.(live := db.live[job := db.live[job].(claim := None)]), true)
    else (db.(live := db.live - {job}), true)
  }
}
