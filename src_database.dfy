/** The BaseDatabase of src/base-database.ts.

    It differs from the lib variant in two places: rollback runs whenever a
    connection is held, transaction or not, and close commits a pending
    transaction before it releases the connection. Together these keep the
    transaction flag set only while a connection is held.
 */
module SrcDatabase {
  import opened Session

  /** The transaction flag is set only while a connection is held. */
  predicate Consistent(s: State) {
    s.inTx ==> s.conn.Some?
  }

  /** rollback(cb?): with a connection, clears the flag and asks the driver to
      roll back, whether or not a transaction is active; the callback gets the
      driver's error or null. Without one nothing happens and the callback
      gets "Connection Doesn't Exist". */
  function RollbackStep(s: State, hasCallback: bool, rollback: Reply): (r: Step<Callback>)
    ensures s.conn.Some? ==>
              r.state == s.(inTx := false) && r.calls == [Rollback] &&
              r.result == Deliver(hasCallback, rollback.AsArgument())
    ensures s.conn.None? ==>
              r.state == s && r.calls == [] &&
              r.result == Deliver(hasCallback, Some(Message(NoConnection)))
    ensures Consistent(s) ==> !r.state.inTx
  {
    if s.conn.Some? then
      Step(s.(inTx := false), [Rollback], Deliver(hasCallback, rollback.AsArgument()))
    else
      Step(s, [], Deliver(hasCallback, Some(Message(NoConnection))))
  }

  /** executeQuery: runs the query on the held connection. On an error inside
      a transaction the flag is cleared and rollback is called with a
      callback that rejects with the query error; `rollback` is what the
      driver answers to that rollback. */
  function QueryStep(s: State, query: Outcome<Rows>, rollback: Reply): (r: Step<Outcome<Rows>>)
    // without a connection: the literal error, no driver call, nothing changes
    ensures s.conn.None? ==> r == Step(s, [], Err(Message(NoConnection)))
    // a success leaves both fields alone and returns the rows
    ensures s.conn.Some? && query.Ok? ==>
              r == Step(s, [Query], Ok(query.value))
    // a failure inside a transaction rolls back exactly once, ends outside the
    // transaction and surfaces the query error, whatever the rollback answers
    ensures s.conn.Some? && query.Err? && s.inTx ==>
              r.calls == [Query, Rollback] && Count(Rollback, r.calls) == 1 &&
              r.state == s.(inTx := false) && r.result == Err(query.error)
    // a failure outside a transaction surfaces the error and changes nothing
    ensures s.conn.Some? && query.Err? && !s.inTx ==>
              r == Step(s, [Query], Err(query.error))
    ensures Consistent(s) ==> Consistent(r.state)
  {
    if s.conn.None? then Step(s, [], Err(Message(NoConnection)))
    else
      match query
      case Ok(rows) => Step(s, [Query], Ok(rows))
      case Err(e) =>
        if s.inTx then
          var rb := RollbackStep(s.(inTx := false), true, rollback);
          Step(rb.state, [Query] + rb.calls, Err(e))
        else
          Step(s, [Query], Err(e))
  }

  /** commit: with a connection and an active transaction, asks the driver to
      commit; on success the flag is cleared, on failure rollback is called
      without a callback and the commit error is surfaced. */
  function CommitStep(s: State, commit: Reply, rollback: Reply): (r: Step<Outcome<()>>)
    // the guard: nothing changes and no driver call is made
    ensures !(s.conn.Some? && s.inTx) ==>
              r == Step(s, [], Err(Message(NoConnectionOrTransaction)))
    ensures s.conn.Some? && s.inTx ==> r.state == s.(inTx := false)
    ensures s.conn.Some? && s.inTx && commit.Succeeded? ==> r.calls == [Commit] && r.result == Ok(())
    // a failed commit rolls back exactly once and reports its own error,
    // whatever the rollback answers
    ensures s.conn.Some? && s.inTx && commit.Failed? ==>
              r.calls == [Commit, Rollback] && Count(Rollback, r.calls) == 1 &&
              r.result == Err(commit.error)
    ensures Consistent(s) ==> Consistent(r.state)
  {
    if !(s.conn.Some? && s.inTx) then
      Step(s, [], Err(Message(NoConnectionOrTransaction)))
    else
      match commit
      case Succeeded => Step(s.(inTx := false), [Commit], Ok(()))
      case Failed(e) =>
        var rb := RollbackStep(s, false, rollback);
        Step(rb.state, [Commit] + rb.calls, Err(e))
  }

  /** close: with a connection, commits a pending transaction first; if that
      commit fails the error propagates and the connection is kept, otherwise
      the connection is released and forgotten. */
  function CloseStep(s: State, commit: Reply, rollback: Reply): (r: Step<Outcome<()>>)
    // without a connection close does nothing
    ensures s.conn.None? ==> r == Step(s, [], Ok(()))
    // exactly one commit is attempted, and only for a pending transaction
    ensures Count(Commit, r.calls) == if s.conn.Some? && s.inTx then 1 else 0
    // a failed auto-commit keeps the connection, skips the release, leaves
    // the transaction cleared by commit's rollback, and surfaces its error
    ensures s.conn.Some? && s.inTx && commit.Failed? ==>
              r.calls == [Commit, Rollback] && Release !in r.calls &&
              r.state == s.(inTx := false) && r.result == Err(commit.error)
    // otherwise the connection is released exactly once and nothing is left
    ensures s.conn.Some? && (!s.inTx || commit.Succeeded?) ==>
              r.calls == (if s.inTx then [Commit] else []) + [Release] &&
              Count(Release, r.calls) == 1 &&
              r.state == State(None, false) && r.result == Ok(())
    ensures Consistent(s) ==> Consistent(r.state)
  {
    if s.conn.None? then Step(s, [], Ok(()))
    else if s.inTx then
      var c := CommitStep(s, commit, rollback);
      if c.result.Err? then c
      else Step(c.state.(conn := None), c.calls + [Release], Ok(()))
    else
      Step(s.(conn := None), [Release], Ok(()))
  }

  /** One public call; a beginTransaction without a connection is refused
      (its promise rejects before anything happens), so it changes nothing. */
  function Apply(s: State, op: Op): (r: Step<()>)
    ensures Consistent(s) ==> Consistent(r.state)
    ensures Count(Release, r.calls) + Held(r.state) <=
            Held(s) + (if op.GetConnectionOp? && op.pool.Ok? then 1 else 0)
  {
    match op
    case GetConnectionOp(transaction, pool, begin) =>
      var st := GetConnectionStep(s, transaction, pool, begin); Step(st.state, st.calls, ())
    case BeginTransactionOp(begin) =>
      if s.conn.Some? then var st := BeginStep(s, begin); Step(st.state, st.calls, ())
      else Step(s, [], ())
    case ExecuteQueryOp(query, rollback) =>
      var st := QueryStep(s, query, rollback); Step(st.state, st.calls, ())
    case CommitOp(commit, rollback) =>
      var st := CommitStep(s, commit, rollback); Step(st.state, st.calls, ())
    case RollbackOp(hasCallback, rollback) =>
      var st := RollbackStep(s, hasCallback, rollback); Step(st.state, st.calls, ())
    case CloseOp(commit, rollback) =>
      var st := CloseStep(s, commit, rollback); Step(st.state, st.calls, ())
  }

  /** A sequence of public calls, one after the other. */
  function Run(s: State, ops: seq<Op>): (r: Step<()>)
    decreases |ops|
  {
    if ops == [] then Step(s, [], ())
    else
      var first := Apply(s, ops[0]);
      var rest := Run(first.state, ops[1..]);
      Step(rest.state, first.calls + rest.calls, ())
  }

  /** Over any sequence of calls, a transaction is active only while a
      connection is held. */
  lemma {:induction false} RunKeepsConsistent(s: State, ops: seq<Op>)
    requires Consistent(s)
    ensures Consistent(Run(s, ops).state)
    decreases |ops|
  {
    if ops != [] {
      RunKeepsConsistent(Apply(s, ops[0]).state, ops[1..]);
    }
  }

  /** At most one driver release per lease, counted over the trace: over any
      sequence of calls, the releases plus the connection still held never
      exceed the connection held at the start plus the leases obtained. */
  lemma {:induction false} ReleasedAtMostOncePerLease(s: State, ops: seq<Op>)
    ensures Count(Release, Run(s, ops).calls) + Held(Run(s, ops).state) <= Held(s) + Leases(ops)
    decreases |ops|
  {
    if ops != [] {
      var first := Apply(s, ops[0]);
      ReleasedAtMostOncePerLease(first.state, ops[1..]);
      CountConcat(Release, first.calls, Run(first.state, ops[1..]).calls);
    }
  }

  /** With a connection held, a second rollback straight after a first
      reaches the driver again: the guard looks at the connection only. */
  lemma RollbackTwiceReachesDriverTwice(s: State, cb1: bool, reply1: Reply, cb2: bool, reply2: Reply)
    requires s.conn.Some?
    ensures var first := RollbackStep(s, cb1, reply1);
            var second := RollbackStep(first.state, cb2, reply2);
            first.calls + second.calls == [Rollback, Rollback] &&
            second.result == Deliver(cb2, reply2.AsArgument())
  {
  }

  /** The instance: the leased connection, the transaction flag, and a ghost
      record of every driver call made on it. Each method does what the step
      function of the same name says. */
  class BaseDatabase {
    var connection: Option<ConnId>
    var inTransaction: bool
    ghost var log: seq<DriverCall>

    function Snapshot(): State
      reads this
    {
      State(connection, inTransaction)
    }

    /** The object invariant the methods keep. */
    ghost predicate Valid()
      reads this
    {
      Consistent(Snapshot())
    }

    constructor ()
      ensures Valid() && Snapshot() == Initial && log == []
    {
      connection := None;
      inTransaction := false;
      log := [];
    }

    method GetConnection(transaction: bool, pool: Outcome<ConnId>, begin: Reply) returns (r: Outcome<()>)
      modifies this
      ensures old(Valid()) ==> Valid()
      ensures var st := GetConnectionStep(old(Snapshot()), transaction, pool, begin);
              Snapshot() == st.state && log == old(log) + st.calls && r == st.result
    {
      if pool.Err? {
        return Err(pool.error);
      }
      connection := Some(pool.value);
      if transaction {
        r := BeginTransaction(begin);
      } else {
        r := Ok(());
      }
    }

    method BeginTransaction(begin: Reply) returns (r: Outcome<()>)
      requires connection.Some?
      modifies this
      ensures Valid()
      ensures var st := BeginStep(old(Snapshot()), begin);
              Snapshot() == st.state && log == old(log) + st.calls && r == st.result
    {
      log := log + [Begin];
      if begin.Failed? {
        return Err(begin.error);
      }
      inTransaction := true;
      r := Ok(());
    }

    method ExecuteQuery(query: Outcome<Rows>, rollback: Reply) returns (r: Outcome<Rows>)
      modifies this
      ensures old(Valid()) ==> Valid()
      ensures var st := QueryStep(old(Snapshot()), query, rollback);
              Snapshot() == st.state && log == old(log) + st.calls && r == st.result
    {
      if connection.None? {
        return Err(Message(NoConnection));
      }
      log := log + [Query];
      if query.Err? {
        if inTransaction {
          inTransaction := false;
          var _ := Rollback(true, rollback);
          return Err(query.error);
        }
        return Err(query.error);
      }
      r := Ok(query.value);
    }

    method Commit(commit: Reply, rollback: Reply) returns (r: Outcome<()>)
      modifies this
      ensures old(Valid()) ==> Valid()
      ensures var st := CommitStep(old(Snapshot()), commit, rollback);
              Snapshot() == st.state && log == old(log) + st.calls && r == st.result
    {
      if !(connection.Some? && inTransaction) {
        return Err(Message(NoConnectionOrTransaction));
      }
      log := log + [DriverCall.Commit];
      if commit.Failed? {
        var _ := Rollback(false, rollback);
        return Err(commit.error);
      }
      inTransaction := false;
      r := Ok(());
    }

    method Rollback(hasCallback: bool, rollback: Reply) returns (cb: Callback)
      modifies this
      ensures old(Valid()) ==> Valid()
      ensures var st := RollbackStep(old(Snapshot()), hasCallback, rollback);
              Snapshot() == st.state && log == old(log) + st.calls && cb == st.result
    {
      if connection.Some? {
        inTransaction := false;
        log := log + [DriverCall.Rollback];
        cb := Deliver(hasCallback, rollback.AsArgument());
      } else {
        cb := Deliver(hasCallback, Some(Message(NoConnection)));
      }
    }

    method Close(commit: Reply, rollback: Reply) returns (r: Outcome<()>)
      modifies this
      ensures old(Valid()) ==> Valid()
      ensures var st := CloseStep(old(Snapshot()), commit, rollback);
              Snapshot() == st.state && log == old(log) + st.calls && r == st.result
    {
      if connection.Some? {
        if inTransaction {
          r := Commit(commit, rollback);
          if r.Err? {
            return r;
          }
        }
        log := log + [Release];
        connection := None;
      }
      r := Ok(());
    }
  }
}
