/** The buffered claim iterator and the worker loop around it. */
module Claims {
  import opened Worker

  /** What a wait for new work ends in. */
  datatype Wake = Woken | Closed | Cancelled

  /** One turn of the iterator's loop: the batch that claim_batch returned and,
      if it was empty, how the wait ended. */
  datatype Round = Round(batch: seq<Handle>, wake: Wake)

  /** Pending: the rounds ran out while the iterator was waiting. */
  datatype Pulled = Job(handle: Handle) | Stopped | Aborted | Pending

  /** The first k rounds found nothing, and each wait ended in new work. */
  ghost predicate Quiet(rounds: seq<Round>, k: int) {
    0 <= k <= |rounds| && forall i | 0 <= i < k :: rounds[i] == Round([], Woken)
  }

  /** What an empty-handed iterator meets, in its used-th round. */
  ghost predicate Meets(rounds: seq<Round>, used: nat, pulled: Pulled, buffer: seq<Handle>) {
    if pulled.Pending? then used == |rounds| && Quiet(rounds, used) && buffer == []
    else
      && 0 < used <= |rounds| && Quiet(rounds, used - 1)
      && var last := rounds[used - 1];
      match pulled
      case Job(handle) => last.batch == [handle] + buffer
      case Stopped => last == Round([], Closed) && buffer == []
      case Aborted => last == Round([], Cancelled) && buffer == []
  }

  /** The batch that an empty-handed iterator claims. */
  function FirstBatch(rounds: seq<Round>): seq<Handle> {
    if rounds == [] then []
    else if rounds[0] == Round([], Woken) then FirstBatch(rounds[1..])
    else rounds[0].batch
  }

  lemma {:induction false} FirstBatchMet(rounds: seq<Round>, used: nat, pulled: Pulled, buffer: seq<Handle>)
    requires Meets(rounds, used, pulled, buffer)
    ensures FirstBatch(rounds) == (if pulled.Job? then [pulled.handle] + buffer else [])
  {
    if used > 0 {
      if rounds[0] == Round([], Woken) {
        assert forall i | 0 <= i < used - 1 :: rounds[1..][i] == rounds[i + 1];
        FirstBatchMet(rounds[1..], used - 1, pulled, buffer);
      } else {
        assert used == 1;
      }
    }
  }

  class WorkerQueueIter {
    var buffer: seq<Handle>
    var closed: bool
    ghost var claimed: seq<Handle>  // the claimed batches, concatenated
    ghost var handed: seq<Handle>   // the jobs handed out

    /** No job is lost, repeated or overtaken. */
    ghost predicate Valid()
      reads this
    {
      claimed == handed + buffer
    }

    constructor ()
      ensures Valid() && claimed == [] && handed == [] && buffer == [] && !closed
    {
      buffer, closed, claimed, handed := [], false, [], [];
    }

    method HasBufferedJobs() returns (some: bool)
      ensures some <==> buffer != []
    {
      some := buffer != [];
    }

    method CloseUpdates()
      modifies this`closed
      ensures closed
    {
      if closed { return; }
      closed := true;
    }

    /** Hands out the buffer's first job; only an empty buffer makes it claim. */
    method Next(rounds: seq<Round>) returns (pulled: Pulled, used: nat)
      requires Valid()
      modifies this
      ensures Valid() && used <= |rounds|
      ensures claimed == old(claimed) + (if used > 0 then rounds[used - 1].batch else [])
      ensures handed == (if pulled.Job? then old(handed) + [pulled.handle] else old(handed))
      ensures old(buffer) != [] ==> used == 0 && pulled == Job(old(buffer)[0]) && buffer == old(buffer)[1..]
      ensures old(buffer) == [] ==> Meets(rounds, used, pulled, buffer)
      ensures closed == (old(closed) || pulled.Stopped? || pulled.Aborted?)
    {
      used := 0;
      while true
        invariant used <= |rounds| && Quiet(rounds, used) && (old(buffer) != [] ==> used == 0)
        invariant claimed == old(claimed) && handed == old(handed)
        invariant buffer == old(buffer) && closed == old(closed)
        decreases |rounds| - used
      {
        if buffer != [] {
          pulled := Job(buffer[0]);
          handed := handed + [buffer[0]];
          buffer := buffer[1..];
          return;
        }
        if used == |rounds| { return Pending, used; }
        var round := rounds[used];
        used := used + 1;
        var jobs := round.batch;
        claimed := claimed + jobs;
        if jobs != [] {
          buffer := buffer + jobs[1..];
          handed := handed + [jobs[0]];
          return Job(jobs[0]), used;
        }
        if round.wake == Closed {
          CloseUpdates();
          return Stopped, used;
        }
        if round.wake == Cancelled {
          CloseUpdates();
          return Aborted, used;
        }
      }
    }
  }

  /** One turn of the worker loop: whether stop is set at its start, what the
      iterator meets while it is asked for a job, and whether dispatch raises. */
  datatype Turn = Turn(stop: bool, rounds: seq<Round>, raises: bool)

  datatype Exit = OnStop | OnError | OnStreamEnd | StillRunning

  /** All that a worker has claimed in its first n turns, if each of them hands
      one job over: a turn claims only when everything before is handed over. */
  function Supply(turns: seq<Turn>, n: nat): seq<Handle>
    requires n <= |turns|
  {
    if n == 0 then []
    else
      var before := Supply(turns, n - 1);
      if |before| < n then before + FirstBatch(turns[n - 1].rounds) else before
  }

  /** The rounds end the stream, or the worker, before any job. */
  ghost predicate EndsIn(rounds: seq<Round>, wake: Wake) {
    exists k :: 0 <= k < |rounds| && Quiet(rounds, k) && rounds[k] == Round([], wake)
  }

  /** Why the loop is left in this turn. */
  ghost predicate Leaves(turn: Turn, exit: Exit, empty: bool) {
    match exit
    case OnStop => empty && (turn.stop || Quiet(turn.rounds, |turn.rounds|))
    case OnStreamEnd => empty && !turn.stop && EndsIn(turn.rounds, Closed)
    case OnError => empty && !turn.stop && EndsIn(turn.rounds, Cancelled)
    case StillRunning => false
  }

  /** The worker loop. A claim that is still waiting when its turn's rounds run
      out has lost the race against the stop event and is cancelled. Every turn
      before the ended-th handed one job over; a worker that is told to stop goes
      on only while it has jobs in its buffer. */
  method RunWorker(claims: WorkerQueueIter, turns: seq<Turn>)
    returns (exit: Exit, dispatched: seq<Handle>, ghost ended: nat)
    requires claims.Valid() && claims.claimed == [] && claims.handed == []
    modifies claims
    ensures claims.Valid()
    ensures dispatched == claims.handed
    ensures exit.OnStop? ==> dispatched == claims.claimed && claims.buffer == []
    ensures ended <= |turns| && (exit.StillRunning? <==> ended == |turns|)
    ensures forall i | 0 <= i < ended :: !turns[i].raises && (turns[i].stop ==> |Supply(turns, i)| > i)
    ensures |dispatched| <= |turns| && claims.claimed == Supply(turns, |dispatched|) && dispatched <= claims.claimed
    ensures |dispatched| != ended ==>
      && |dispatched| == ended + 1 && exit.OnError? && turns[ended].raises
      && (turns[ended].stop ==> |Supply(turns, ended)| > ended)
    ensures |dispatched| == ended < |turns| ==> Leaves(turns[ended], exit, claims.buffer == [])
  {
    dispatched, ended := [], 0;
    for i := 0 to |turns|
      invariant claims.Valid() && dispatched == claims.handed
      invariant ended == i == |dispatched| && claims.claimed == Supply(turns, i)
      invariant forall k | 0 <= k < i :: !turns[k].raises && (turns[k].stop ==> |Supply(turns, k)| > k)
    {
      var turn := turns[i];
      var buffered := claims.HasBufferedJobs();
      if turn.stop && !buffered { return OnStop, dispatched, ended; }
      var pulled, used := claims.Next(turn.rounds);
      if !buffered { FirstBatchMet(turn.rounds, used, pulled, claims.buffer); }
      match pulled
      case Pending =>
        claims.CloseUpdates();
        return OnStop, dispatched, ended;
      case Stopped => return OnStreamEnd, dispatched, ended;
      case Aborted => return OnError, dispatched, ended;
      case Job(handle) =>
        dispatched := dispatched + [handle];
        assert claims.claimed == Supply(turns, i + 1);
        if turn.raises { return OnError, dispatched, ended; }
        ended := ended + 1;
    }
    return StillRunning, dispatched, ended;
  }
}
