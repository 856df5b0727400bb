/** The BaseDatabase of lib/index.ts.

    Its rollback runs only when a connection AND a transaction exist, and its
    close releases the connection without looking at the transaction flag.
    Because executeQuery clears the flag before it calls rollback, a failed
    query inside a transaction never reaches the driver's rollback.
 */
module LibDatabase {
  import opened Session

  /** rollback(cb?): with a connection and an active transaction, clears the
      flag and asks the driver to roll back; the callback gets the driver's
      error or null. Otherwise nothing happens and the callback gets
      "Connection Doesn't Exist". */
  function RollbackStep(s: State, hasCallback: bool, rollback: Reply): (r: Step<Callback>)
    // with a connection the flag ends cleared; without one nothing changes
    ensures s.conn.Some? ==> r.state == s.(inTx := false)
    ensures s.conn.None? ==> r.state == s
    ensures r.calls == if s.conn.Some? && s.inTx then [Rollback] else []
    ensures s.conn.Some? && s.inTx ==> r.result == Deliver(hasCallback, rollback.AsArgument())
    ensures !(s.conn.Some? && s.inTx) ==> r.result == Deliver(hasCallback, Some(Message(NoConnection)))
  {
    if s.conn.Some? && s.inTx then
      Step(s.(inTx := false), [Rollback], Deliver(hasCallback, rollback.AsArgument()))
    else
      Step(s, [], Deliver(hasCallback, Some(Message(NoConnection))))
  }

  /** executeQuery: runs the query on the held connection. On an error inside
      a transaction the flag is cleared first and rollback is called with a
      callback that rejects with the query error. `rollback` is what the
      driver would answer to a rollback; it is never asked. */
  function QueryStep(s: State, query: Outcome<Rows>, rollback: Reply): (r: Step<Outcome<Rows>>)
    // without a connection: the literal error, no driver call, nothing changes
    ensures s.conn.None? ==> r == Step(s, [], Err(Message(NoConnection)))
    // with a connection: exactly the query reaches the driver, never a rollback
    ensures s.conn.Some? ==> r.calls == [Query] && Rollback !in r.calls
    // a success leaves both fields alone and returns the rows
    ensures s.conn.Some? && query.Ok? ==> r.state == s && r.result == Ok(query.value)
    // a failure ends outside any transaction and surfaces the query's own error
    ensures s.conn.Some? && query.Err? ==>
              r.state == s.(inTx := false) && r.result == Err(query.error)
    // a failure outside a transaction leaves both fields alone
    ensures query.Err? && !s.inTx ==> r.state == s
  {
    if s.conn.None? then Step(s, [], Err(Message(NoConnection)))
    else
      match query
      case Ok(rows) => Step(s, [Query], Ok(rows))
      case Err(e) =>
        if s.inTx then
          var rb := RollbackStep(s.(inTx := false), true, rollback);
          Step(rb.state, [Query] + rb.calls, Err(e))
        else
          Step(s, [Query], Err(e))
  }

  /** commit: with a connection and an active transaction, asks the driver to
      commit; on success the flag is cleared, on failure rollback is called
      without a callback and the commit error is surfaced. */
  function CommitStep(s: State, commit: Reply, rollback: Reply): (r: Step<Outcome<()>>)
    // the guard: nothing changes and no driver call is made
    ensures !(s.conn.Some? && s.inTx) ==>
              r == Step(s, [], Err(Message(NoConnectionOrTransaction)))
    ensures s.conn.Some? && s.inTx ==> r.state == s.(inTx := false)
    ensures s.conn.Some? && s.inTx && commit.Succeeded? ==> r.calls == [Commit] && r.result == Ok(())
    // a failed commit rolls back exactly once and reports its own error,
    // whatever the rollback answers
    ensures s.conn.Some? && s.inTx && commit.Failed? ==>
              r.calls == [Commit, Rollback] && Count(Rollback, r.calls) == 1 &&
              r.result == Err(commit.error)
  {
    if !(s.conn.Some? && s.inTx) then
      Step(s, [], Err(Message(NoConnectionOrTransaction)))
    else
      match commit
      case Succeeded => Step(s.(inTx := false), [Commit], Ok(()))
      case Failed(e) =>
        var rb := RollbackStep(s, false, rollback);
        Step(rb.state, [Commit] + rb.calls, Err(e))
  }

  /** close: releases a held connection and forgets it; the transaction flag
      is not touched. */
  function CloseStep(s: State): (r: Step<()>)
    ensures r.state.inTx == s.inTx
    ensures r.state.conn.None?
    ensures r.calls == if s.conn.Some? then [Release] else []
    ensures s.conn.None? ==> r.state == s
  {
    if s.conn.Some? then Step(s.(conn := None), [Release], ()) else Step(s, [], ())
  }

  /** One public call; a beginTransaction without a connection is refused
      (its promise rejects before anything happens), so it changes nothing. */
  function Apply(s: State, op: Op): (r: Step<()>)
    ensures Count(Release, r.calls) + Held(r.state) <=
            Held(s) + (if op.GetConnectionOp? && op.pool.Ok? then 1 else 0)
    ensures Count(Rollback, r.calls) <= if op.CommitOp? || op.RollbackOp? then 1 else 0
  {
    match op
    case GetConnectionOp(transaction, pool, begin) =>
      var st := GetConnectionStep(s, transaction, pool, begin); Step(st.state, st.calls, ())
    case BeginTransactionOp(begin) =>
      if s.conn.Some? then var st := BeginStep(s, begin); Step(st.state, st.calls, ())
      else Step(s, [], ())
    case ExecuteQueryOp(query, rollback) =>
      var st := QueryStep(s, query, rollback); Step(st.state, st.calls, ())
    case CommitOp(commit, rollback) =>
      var st := CommitStep(s, commit, rollback); Step(st.state, st.calls, ())
    case RollbackOp(hasCallback, rollback) =>
      var st := RollbackStep(s, hasCallback, rollback); Step(st.state, st.calls, ())
    case CloseOp(_, _) =>
      CloseStep(s)
  }

  /** A sequence of public calls, one after the other. */
  function Run(s: State, ops: seq<Op>): (r: Step<()>)
    decreases |ops|
  {
    if ops == [] then Step(s, [], ())
    else
      var first := Apply(s, ops[0]);
      var rest := Run(first.state, ops[1..]);
      Step(rest.state, first.calls + rest.calls, ())
  }

  /** How many calls in `ops` are a commit or an explicit rollback. */
  function Explicit(ops: seq<Op>): nat
  {
    if ops == [] then 0
    else (if ops[0].CommitOp? || ops[0].RollbackOp? then 1 else 0) + Explicit(ops[1..])
  }

  /** At most one driver release per lease, counted over the trace: over any
      sequence of calls, the releases plus the connection still held never
      exceed the connection held at the start plus the leases obtained. */
  lemma {:induction false} ReleasedAtMostOncePerLease(s: State, ops: seq<Op>)
    ensures Count(Release, Run(s, ops).calls) + Held(Run(s, ops).state) <= Held(s) + Leases(ops)
    decreases |ops|
  {
    if ops != [] {
      var first := Apply(s, ops[0]);
      ReleasedAtMostOncePerLease(first.state, ops[1..]);
      CountConcat(Release, first.calls, Run(first.state, ops[1..]).calls);
    }
  }

  /** Failed queries never reach the driver's rollback: over any sequence of
      calls, the driver rollbacks are at most the commits and explicit
      rollbacks issued. */
  lemma {:induction false} QueriesNeverRollBack(s: State, ops: seq<Op>)
    ensures Count(Rollback, Run(s, ops).calls) <= Explicit(ops)
    decreases |ops|
  {
    if ops != [] {
      var first := Apply(s, ops[0]);
      QueriesNeverRollBack(first.state, ops[1..]);
      CountConcat(Rollback, first.calls, Run(first.state, ops[1..]).calls);
    }
  }

  /** A second rollback straight after a first never reaches the driver, and
      its callback gets "Connection Doesn't Exist". */
  lemma RollbackTwiceIsDriverNoOp(s: State, cb1: bool, reply1: Reply, cb2: bool, reply2: Reply)
    ensures var second := RollbackStep(RollbackStep(s, cb1, reply1).state, cb2, reply2);
            second.calls == [] && second.result == Deliver(cb2, Some(Message(NoConnection)))
  {
  }

  /** close keeps the transaction flag: closing inside a transaction and
      leasing a new connection leaves the flag set, so a commit then reaches
      the driver on a connection that never began a transaction. */
  lemma CloseKeepsTransactionFlag(c: ConnId, d: ConnId)
    ensures var closed := CloseStep(State(Some(c), true)).state;
            var leased := GetConnectionStep(closed, false, Ok(d), Succeeded).state;
            closed == State(None, true) && leased == State(Some(d), true) &&
            CommitStep(leased, Succeeded, Succeeded).calls == [Commit]
  {
  }

  /** The instance: the leased connection, the transaction flag, and a ghost
      record of every driver call made on it. Each method does what the step
      function of the same name says. */
  class BaseDatabase {
    var connection: Option<ConnId>
    var inTransaction: bool
    ghost var log: seq<DriverCall>

    function Snapshot(): State
      reads this
    {
      State(connection, inTransaction)
    }

    constructor ()
      ensures Snapshot() == Initial && log == []
    {
      connection := None;
      inTransaction := false;
      log := [];
    }

    method GetConnection(transaction: bool, pool: Outcome<ConnId>, begin: Reply) returns (r: Outcome<()>)
      modifies this
      ensures var st := GetConnectionStep(old(Snapshot()), transaction, pool, begin);
              Snapshot() == st.state && log == old(log) + st.calls && r == st.result
    {
      if pool.Err? {
        return Err(pool.error);
      }
      connection := Some(pool.value);
      if transaction {
        r := BeginTransaction(begin);
      } else {
        r := Ok(());
      }
    }

    method BeginTransaction(begin: Reply) returns (r: Outcome<()>)
      requires connection.Some?
      modifies this
      ensures var st := BeginStep(old(Snapshot()), begin);
              Snapshot() == st.state && log == old(log) + st.calls && r == st.result
    {
      log := log + [Begin];
      if begin.Failed? {
        return Err(begin.error);
      }
      inTransaction := true;
      r := Ok(());
    }

    method ExecuteQuery(query: Outcome<Rows>, rollback: Reply) returns (r: Outcome<Rows>)
      modifies this
      ensures var st := QueryStep(old(Snapshot()), query, rollback);
              Snapshot() == st.state && log == old(log) + st.calls && r == st.result
    {
      if connection.None? {
        return Err(Message(NoConnection));
      }
      log := log + [Query];
      if query.Err? {
        if inTransaction {
          inTransaction := false;
          var _ := Rollback(true, rollback);
          return Err(query.error);
        }
        return Err(query.error);
      }
      r := Ok(query.value);
    }

    method Commit(commit: Reply, rollback: Reply) returns (r: Outcome<()>)
      modifies this
      ensures var st := CommitStep(old(Snapshot()), commit, rollback);
              Snapshot() == st.state && log == old(log) + st.calls && r == st.result
    {
      if !(connection.Some? && inTransaction) {
        return Err(Message(NoConnectionOrTransaction));
      }
      log := log + [DriverCall.Commit];
      if commit.Failed? {
        var _ := Rollback(false, rollback);
        return Err(commit.error);
      }
      inTransaction := false;
      r := Ok(());
    }

    method Rollback(hasCallback: bool, rollback: Reply) returns (cb: Callback)
      modifies this
      ensures var st := RollbackStep(old(Snapshot()), hasCallback, rollback);
              Snapshot() == st.state && log == old(log) + st.calls && cb == st.result
    {
      if connection.Some? && inTransaction {
        inTransaction := false;
        log := log + [DriverCall.Rollback];
        cb := Deliver(hasCallback, rollback.AsArgument());
      } else {
        cb := Deliver(hasCallback, Some(Message(NoConnection)));
      }
    }

    method Close()
      modifies this
      ensures var st := CloseStep(old(Snapshot()));
              Snapshot() == st.state && log == old(log) + st.calls
    {
      if connection.Some? {
        log := log + [Release];
        connection := None;
      }
    }
  }
}
