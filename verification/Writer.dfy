/** The single writer connection and the Transaction objects that borrow it. */
module WriterPool {
  import opened Schema

  /** A connection is moved from place to place, never copied. It counts the
      transactions it committed. */
  datatype Connection = Connection(inTransaction: bool, commits: nat) {
    function Begin(): Connection { Connection(true, commits) }
    function Commit(): Connection { Connection(false, commits + 1) }
    function Rollback(): Connection { Connection(false, commits) }
  }

  class Writer {
    var slot: Option<Connection>
    var closed: bool
    ghost var acquisitions: nat
    ghost var releases: nat

    constructor ()
      ensures slot == Some(Connection(false, 0)) && acquisitions == releases == 0 && !closed
    {
      slot, acquisitions, releases, closed := Some(Connection(false, 0)), 0, 0, false;
    }

    /** None if somebody has the connection, or the writer is closed. */
    method TryAcquire() returns (conn: Option<Connection>)
      modifies this
      ensures conn == (if old(closed) then None else old(slot)) && closed == old(closed)
      ensures slot == (if conn.Some? then None else old(slot)) && releases == old(releases)
      ensures acquisitions == old(acquisitions) + (if conn.Some? then 1 else 0)
    {
      if closed { return None; }
      conn, slot := slot, None;
      if conn.Some? { acquisitions := acquisitions + 1; }
    }

    /** From now on nobody gets the connection; who has it still gives it back. */
    method Close()
      modifies this`closed
      ensures closed
    {
      closed := true;
    }

    method Release(conn: Connection)
      requires slot.None?
      modifies this
      ensures slot == Some(conn) && closed == old(closed)
      ensures acquisitions == old(acquisitions) && releases == old(releases) + 1
    {
      slot, releases := Some(conn), releases + 1;
    }
  }

  /** Blocked: some transaction holds the connection, and the caller waits. */
  datatype Entered = Begun | Blocked | BeginFailed | WriterClosed

  datatype Exited = Finished | NothingToDo | CommitFailed

  class Transaction {
    const writer: Writer
    var conn: Option<Connection>
    var started: bool
    var released: bool

    constructor (writer: Writer)
      ensures this.writer == writer && conn.None? && !started && !released
    {
      this.writer, conn, started, released := writer, None, false, false;
    }

    method Enter(beginOk: bool, ghost txs: set<Transaction>) returns (r: Entered)
      requires this in txs && Conserved(writer, txs)
      modifies this, writer
      ensures Conserved(writer, txs)
      ensures r.WriterClosed? <==> old(writer.closed)
      ensures r.Blocked? <==> !old(writer.closed) && old(writer.slot).None?
      ensures r.Begun? <==> !old(writer.closed) && old(writer.slot).Some? && beginOk
      ensures r.Begun? ==>
        && conn == Some(Connection(true, old(writer.slot).value.commits)) && writer.slot.None?
        && writer.acquisitions == old(writer.acquisitions) + 1
      ensures !r.Begun? ==> writer.slot == old(writer.slot) && conn == old(conn)
      ensures writer.releases == old(writer.releases) + (if r.BeginFailed? then 1 else 0)
      ensures writer.closed == old(writer.closed)
    {
      var taken := writer.TryAcquire();
      if taken.None? { return if writer.closed then WriterClosed else Blocked; }
      if beginOk {
        conn, started, released := Some(taken.value.Begin()), true, false;
        return Begun;
      }
      writer.Release(taken.value);
      return BeginFailed;
    }

    /** COMMIT, or ROLLBACK if the block raised or COMMIT failed. ROLLBACK is
        taken to succeed. */
    method Exit(raised: bool, commitOk: bool, ghost txs: set<Transaction>) returns (r: Exited)
      requires this in txs && Conserved(writer, txs)
      modifies this, writer
      ensures Conserved(writer, txs) && conn.None?
      ensures r.NothingToDo? <==> old(conn).None?
      ensures r.CommitFailed? <==> old(conn).Some? && !raised && !commitOk
      ensures old(conn).Some? ==> released && writer.releases == old(writer.releases) + 1
      ensures old(conn).Some? ==>
        writer.slot == Some(Connection(false, old(conn).value.commits + (if raised || !commitOk then 0 else 1)))
      ensures old(conn).None? ==> writer.slot == old(writer.slot) && writer.releases == old(writer.releases)
      ensures writer.acquisitions == old(writer.acquisitions) && writer.closed == old(writer.closed)
    {
      if released || conn.None? { return NothingToDo; }
      var c := conn.value;
      conn := None;
      var wasStarted := started;
      started := false;
      r := Finished;
      if wasStarted {
        if raised {
          c := c.Rollback();
        } else if commitOk {
          c := c.Commit();
        } else {
          c := c.Rollback();
          r := CommitFailed;
        }
      }
      writer.Release(c);
      released := true;
    }

    method Drop(ghost txs: set<Transaction>)
      requires this in txs && Conserved(writer, txs)
      modifies this, writer
      ensures Conserved(writer, txs) && conn.None? && released
      ensures writer.releases == old(writer.releases) + (if old(conn).Some? then 1 else 0)
      ensures writer.slot ==
        (if old(conn).Some? then Some(Connection(false, old(conn).value.commits)) else old(writer.slot))
      ensures writer.acquisitions == old(writer.acquisitions) && writer.closed == old(writer.closed)
    {
      if !released {
        if conn.Some? {
          var c := conn.value;
          conn := None;
          if started { c := c.Rollback(); }
          writer.Release(c);
        }
        released := true;
      }
    }
  }

  /** The transaction holds the connection, and has a transaction open on it. */
  predicate Holding(t: Transaction)
    reads t
  {
    t.conn.Some? && t.conn.value.inTransaction && t.started && !t.released
  }

  /** Exactly one place holds the connection; in the pool it has no open
      transaction; and it was released once for every acquisition but the one
      in progress. */
  ghost predicate Conserved(w: Writer, txs: set<Transaction>)
    reads w, txs
  {
    && (forall t | t in txs :: t.writer == w && (t.conn.None? || Holding(t)))
    && (forall t, u | t in txs && u in txs && t.conn.Some? && u.conn.Some? :: t == u)
    && (w.slot.Some? ==> !w.slot.value.inTransaction && forall t | t in txs :: t.conn.None?)
    && (w.slot.None? ==> exists t :: t in txs && Holding(t))
    && w.acquisitions == w.releases + (if w.slot.None? then 1 else 0)
  }

  datatype Op =
    | DoEnter(tx: nat, beginOk: bool)
    | DoExit(tx: nat, raised: bool, commitOk: bool)
    | DoDrop(tx: nat)
    | DoClose

  /** Any calls on any of the objects, in any order, and closing the writer at any
      time. */
  method RunOps(w: Writer, txs: seq<Transaction>, ops: seq<Op>)
    requires Conserved(w, set t | t in txs)
    requires forall op | op in ops && !op.DoClose? :: op.tx < |txs|
    modifies w, txs
    ensures Conserved(w, set t | t in txs)
  {
    ghost var all := set t | t in txs;
    for i := 0 to |ops|
      invariant Conserved(w, all)
    {
      assert ops[i] in ops;
      match ops[i]
      case DoEnter(t, beginOk) => var _ := txs[t].Enter(beginOk, all);
      case DoExit(t, raised, commitOk) => var _ := txs[t].Exit(raised, commitOk, all);
      case DoDrop(t) => txs[t].Drop(all);
      case DoClose => w.Close();
    }
  }

  /** A new writer and its new transaction objects start out that way. */
  method NewPool(n: nat) returns (w: Writer, txs: seq<Transaction>)
    ensures fresh(w) && |txs| == n && fresh(set t | t in txs)
    ensures Conserved(w, set t | t in txs)
    ensures w.slot == Some(Connection(false, 0)) && !w.closed
  {
    w := new Writer();
    txs := [];
    for i := 0 to n
      invariant |txs| == i && fresh(w) && fresh(set t | t in txs)
      invariant Conserved(w, set t | t in txs)
      invariant w.slot == Some(Connection(false, 0)) && !w.closed
    {
      var tx := new Transaction(w);
      txs := txs + [tx];
    }
  }

  method NewPoolRuns(n: nat, ops: seq<Op>) returns (w: Writer, txs: seq<Transaction>)
    requires forall op | op in ops && !op.DoClose? :: op.tx < n
    ensures Conserved(w, set t | t in txs)
  {
    w, txs := NewPool(n);
    RunOps(w, txs, ops);
  }
}
