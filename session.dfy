/** Types and steps shared by both variants of BaseDatabase.

    A BaseDatabase instance holds a leased connection (or none) and a
    transaction flag. The pool and the mysql driver are abstracted away: each
    operation receives what the pool or the driver answers as a parameter, and
    reports the driver calls it makes, in order, as a sequence of DriverCall.
 */
module Session {

  /** The identity of a pooled connection; its internals are opaque. */
  type ConnId = nat

  datatype Option<+T> = None | Some(value: T)

  /** An error an operation rejects with: one that the pool or the driver
      produced (passed through untouched), or one the wrapper builds itself
      with `new Error(message)`. */
  datatype Error = DriverError(code: string) | Message(text: string)

  /** The two messages the wrapper builds itself. */
  const NoConnection: string := "Connection Doesn't Exist"
  const NoConnectionOrTransaction: string := "Connection or Transaction Doesn't Exist"

  /** How the promise an operation returns settles. */
  datatype Outcome<+T> = Ok(value: T) | Err(error: Error)

  /** What a driver callback without a value receives: no error, or an error. */
  datatype Reply = Succeeded | Failed(error: Error) {
    /** The argument a `(err) => …` callback sees: null or the error. */
    function AsArgument(): (e: Option<Error>)
      ensures e.None? <==> Succeeded?
    {
      if Failed? then Some(error) else None
    }
  }

  /** Result rows of a query, passed through untouched. */
  datatype Row = Row(values: seq<string>)
  type Rows = seq<Row>

  /** A call into the driver connection, in the order it is issued. */
  datatype DriverCall = Begin | Query | Commit | Rollback | Release

  /** The two fields of a BaseDatabase instance. */
  datatype State = State(conn: Option<ConnId>, inTx: bool)

  /** The state of a fresh instance: no connection, no transaction. */
  const Initial: State := State(None, false)

  /** What one operation does: the new state, the driver calls it issued, and
      what it returns. */
  datatype Step<+R> = Step(state: State, calls: seq<DriverCall>, result: R)

  /** What an optional rollback callback receives: None when no callback was
      given, Some(None) for cb(null), Some(Some(e)) for cb(e). */
  type Callback = Option<Option<Error>>

  function Deliver(hasCallback: bool, arg: Option<Error>): (cb: Callback)
    ensures cb.Some? <==> hasCallback
    ensures hasCallback ==> cb.value == arg
  {
    if hasCallback then Some(arg) else None
  }

  /** How many times the driver call `c` occurs in `calls`. */
  function Count(c: DriverCall, calls: seq<DriverCall>): (n: nat)
    ensures n == 0 <==> c !in calls
  {
    if calls == [] then 0
    else (if calls[0] == c then 1 else 0) + Count(c, calls[1..])
  }

  lemma {:induction false} CountConcat(c: DriverCall, a: seq<DriverCall>, b: seq<DriverCall>)
    ensures Count(c, a + b) == Count(c, a) + Count(c, b)
  {
    if a == [] {
      assert a + b == b;
    } else {
      assert (a + b)[1..] == a[1..] + b;
      CountConcat(c, a[1..], b);
    }
  }

  /** beginTransaction: asks the driver to begin and sets the flag on success.
      The connection must be held (the code dereferences it). Identical in
      both variants. */
  function BeginStep(s: State, begin: Reply): (r: Step<Outcome<()>>)
    requires s.conn.Some?
    ensures r.calls == [Begin]
    ensures r.result.Ok? <==> begin.Succeeded?
    ensures begin.Succeeded? ==> r.state == s.(inTx := true)
    ensures begin.Failed? ==> r.state == s && r.result == Err(begin.error)
  {
    match begin
    case Failed(e) => Step(s, [Begin], Err(e))
    case Succeeded => Step(s.(inTx := true), [Begin], Ok(()))
  }

  /** getConnection: leases a connection from the pool and, when asked to,
      begins a transaction on it. Identical in both variants. */
  function GetConnectionStep(s: State, transaction: bool, pool: Outcome<ConnId>, begin: Reply)
    : (r: Step<Outcome<()>>)
    // a pool failure changes nothing and calls nothing
    ensures pool.Err? ==> r == Step(s, [], Err(pool.error))
    // a leased connection stays leased, even when beginning the transaction fails
    ensures pool.Ok? ==> r.state.conn == Some(pool.value)
    ensures pool.Ok? && transaction && begin.Failed? ==>
              r.result == Err(begin.error) && r.state.inTx == s.inTx
    ensures pool.Ok? && transaction && begin.Succeeded? ==> r.state.inTx && r.result.Ok?
    ensures pool.Ok? && !transaction ==> r.calls == [] && r.state.inTx == s.inTx && r.result.Ok?
    // the only driver call ever made is the begin a transaction asks for
    ensures r.calls == if pool.Ok? && transaction then [Begin] else []
    ensures r.result.Ok? <==> pool.Ok? && (!transaction || begin.Succeeded?)
  {
    match pool
    case Err(e) => Step(s, [], Err(e))
    case Ok(c) =>
      var leased := s.(conn := Some(c));
      if transaction then BeginStep(leased, begin) else Step(leased, [], Ok(()))
  }

  /** One public call on an instance, with the answers the pool and the
      driver give it. */
  datatype Op =
    | GetConnectionOp(transaction: bool, pool: Outcome<ConnId>, begin: Reply)
    | BeginTransactionOp(begin: Reply)
    | ExecuteQueryOp(query: Outcome<Rows>, rollback: Reply)
    | CommitOp(commit: Reply, rollback: Reply)
    | RollbackOp(hasCallback: bool, rollback: Reply)
    | CloseOp(commit: Reply, rollback: Reply)

  /** Whether a connection is held, as a number. */
  function Held(s: State): (n: nat)
    ensures n <= 1 && (n == 1 <==> s.conn.Some?)
  {
    if s.conn.Some? then 1 else 0
  }

  /** How many calls in `ops` obtain a connection from the pool. */
  function Leases(ops: seq<Op>): nat
  {
    if ops == [] then 0
    else (if ops[0].GetConnectionOp? && ops[0].pool.Ok? then 1 else 0) + Leases(ops[1..])
  }
}
