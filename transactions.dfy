/** The connection handle and the transaction handle. Both expose the
    three instrumented query operations; the connection starts
    transactions, and the transaction adds `Commit` and the guaranteed
    closer `TxClose`. */
module Transactions {
  import opened Outcomes
  import opened Format
  import opened RowCount
  import opened Spans
  import opened Executors
  import Classifier

  datatype TxState = Open | Committed | RolledBack

  datatype TxCall = CommitCall | RollbackCall

  /** The driver's transaction. The first commit or rollback finishes it,
      whatever the driver reports (`failure`); every later one is refused
      with ErrTxDone and changes nothing. */
  class SqlTx {
    var state: TxState
    var calls: seq<TxCall>

    constructor ()
      ensures state == Open && calls == []
    {
      state := Open;
      calls := [];
    }

    method Commit(failure: Option<Error>) returns (err: Option<Error>)
      modifies this
      ensures calls == old(calls) + [CommitCall]
      ensures old(state) == Open ==> state == Committed && err == failure
      ensures old(state) != Open ==> state == old(state) && err == Some(ErrTxDone)
    {
      calls := calls + [CommitCall];
      if state == Open {
        state := Committed;
        err := failure;
      } else {
        err := Some(ErrTxDone);
      }
    }

    method Rollback(failure: Option<Error>) returns (err: Option<Error>)
      modifies this
      ensures calls == old(calls) + [RollbackCall]
      ensures old(state) == Open ==> state == RolledBack && err == failure
      ensures old(state) != Open ==> state == old(state) && err == Some(ErrTxDone)
    {
      calls := calls + [RollbackCall];
      if state == Open {
        state := RolledBack;
        err := failure;
      } else {
        err := Some(ErrTxDone);
      }
    }
  }

  /** The span log of `Commit`: the commit's error, if any, is recorded. */
  function CommitEvents(driver: string, err: Option<Error>): seq<Event> {
    NewSpanEvents(driver, "commit") + (if err.Some? then [RecordedError(err.value)] else []) + [Ended]
  }

  /** The span log of `TxClose`: the rollback's outcome never appears on it. */
  function TxCloseEvents(driver: string): seq<Event> {
    NewSpanEvents(driver, "rollback") + [Ended]
  }

  /** The transaction handle's spans are named `<driver>.commit` and
      `<driver>.rollback`. */
  lemma TransactionSpanNames(driver: string)
    ensures SpanName(driver, "commit") == driver + "." + "commit"
    ensures SpanName(driver, "rollback") == driver + "." + "rollback"
  {
    Classifier.TransactionVerbs();
  }

  /** A commit span records an error exactly when the commit failed, and
      then exactly that error; it carries no row count. */
  lemma CommitTags(driver: string, err: Option<Error>)
    ensures ValuesOf(CommitEvents(driver, err), DbOperation) == [Str("commit")]
    ensures ErrorsOf(CommitEvents(driver, err)) == (if err.Some? then [err.value] else [])
    ensures ValuesOf(CommitEvents(driver, err), ReturnedRows) == []
  {
    Classifier.TransactionVerbs();
    if err.Some? {
      FailedCommitTags(driver, err.value);
    } else {
      ExecutorLogShape(driver, "commit", [], []);
      assert CommitEvents(driver, err) == NewSpanEvents(driver, "commit") + [] + [] + [Ended];
    }
  }

  /** Helper for CommitTags: the log of a commit that failed with `e`. */
  lemma FailedCommitTags(driver: string, e: Error)
    ensures ValuesOf(CommitEvents(driver, Some(e)), DbOperation)
         == [Str(Classifier.Name(Classifier.ParseQueryOperation("commit")))]
    ensures ErrorsOf(CommitEvents(driver, Some(e))) == [e]
    ensures ValuesOf(CommitEvents(driver, Some(e)), ReturnedRows) == []
  {
    var outcome := [RecordedError(e)];
    ExecutorLogShape(driver, "commit", [], outcome);
    OutcomeTags(outcome);
    assert CommitEvents(driver, Some(e)) == NewSpanEvents(driver, "commit") + [] + outcome + [Ended];
  }

  /** A closer span never records an error, whatever the rollback reported. */
  lemma TxCloseTags(driver: string)
    ensures ValuesOf(TxCloseEvents(driver), DbOperation) == [Str("rollback")]
    ensures ErrorsOf(TxCloseEvents(driver)) == []
  {
    Classifier.TransactionVerbs();
    ExecutorLogShape(driver, "rollback", [], []);
    assert TxCloseEvents(driver) == NewSpanEvents(driver, "rollback") + [] + [] + [Ended];
  }

  /** The transaction handle. */
  class Tx {
    const underlying: SqlTx
    const driver: string
    const tracer: Tracer

    constructor (underlying: SqlTx, driver: string, tracer: Tracer)
      ensures this.underlying == underlying && this.driver == driver && this.tracer == tracer
    {
      this.underlying := underlying;
      this.driver := driver;
      this.tracer := tracer;
    }

    method GetContext(query: string, args: seq<Value>, result: Option<Error>) returns (err: Option<Error>)
      modifies tracer
      ensures err == result
      ensures tracer.Recorded(old(tracer.spans), SpanName(driver, query), GetContextEvents(driver, query, args, result))
    {
      err := Executors.GetContext(tracer, driver, query, args, result);
    }

    method SelectContext(query: string, args: seq<Value>, dest: Dest, result: Option<Error>) returns (err: Option<Error>)
      modifies tracer
      ensures err == result
      ensures tracer.Recorded(old(tracer.spans), SpanName(driver, query), SelectContextEvents(driver, query, args, dest, result))
    {
      err := Executors.SelectContext(tracer, driver, query, args, dest, result);
    }

    method NamedExecContext(query: string, arg: NamedArg, result: ExecResult) returns (r: ExecResult, ghost order: seq<string>)
      modifies tracer
      ensures r == result
      ensures arg.MapArg? ==> IsEnumeration(order, arg.m.Keys)
      ensures !arg.MapArg? ==> order == []
      ensures tracer.Recorded(old(tracer.spans), SpanName(driver, query), NamedExecEvents(driver, query, arg, order, result))
    {
      r, order := Executors.NamedExecContext(tracer, driver, query, arg, result);
    }

    /** `Commit`: one commit attempt on the driver's transaction; its error
        is recorded on the span and returned unchanged. A second commit (or
        a commit after a rollback) gets ErrTxDone. */
    method Commit(failure: Option<Error>) returns (err: Option<Error>)
      modifies tracer, underlying
      ensures underlying.calls == old(underlying.calls) + [CommitCall]
      ensures old(underlying.state) == Open ==> underlying.state == Committed && err == failure
      ensures old(underlying.state) != Open ==> underlying.state == old(underlying.state) && err == Some(ErrTxDone)
      ensures tracer.Recorded(old(tracer.spans), SpanName(driver, "commit"), CommitEvents(driver, err))
    {
      var span := NewSpan(tracer, driver, "commit");
      err := underlying.Commit(failure);
      if err.Some? {
        span.RecordError(err.value);
      }
      span.End();
    }

    /** `TxClose`: exactly one rollback attempt, whose outcome is dropped.
        `panicking` is the value a deferred call recovers when the caller
        is unwinding from a panic; the same value is raised again. A
        transaction that was already finished keeps its state. */
    method TxClose(panicking: Option<Value>, failure: Option<Error>) returns (reraised: Option<Value>)
      modifies tracer, underlying
      ensures reraised == panicking
      ensures underlying.calls == old(underlying.calls) + [RollbackCall]
      ensures underlying.state == if old(underlying.state) == Open then RolledBack else old(underlying.state)
      ensures tracer.Recorded(old(tracer.spans), SpanName(driver, "rollback"), TxCloseEvents(driver))
    {
      var span := NewSpan(tracer, driver, "rollback");
      if panicking.Some? {
        var ignored := underlying.Rollback(failure);
        reraised := panicking;
      } else {
        var ignored := underlying.Rollback(failure);
        reraised := None;
      }
      span.End();
    }
  }

  /** The connection handle. */
  class DBX {
    const driver: string
    const tracer: Tracer

    constructor (driver: string, tracer: Tracer)
      ensures this.driver == driver && this.tracer == tracer
    {
      this.driver := driver;
      this.tracer := tracer;
    }

    method GetContext(query: string, args: seq<Value>, result: Option<Error>) returns (err: Option<Error>)
      modifies tracer
      ensures err == result
      ensures tracer.Recorded(old(tracer.spans), SpanName(driver, query), GetContextEvents(driver, query, args, result))
    {
      err := Executors.GetContext(tracer, driver, query, args, result);
    }

    method SelectContext(query: string, args: seq<Value>, dest: Dest, result: Option<Error>) returns (err: Option<Error>)
      modifies tracer
      ensures err == result
      ensures tracer.Recorded(old(tracer.spans), SpanName(driver, query), SelectContextEvents(driver, query, args, dest, result))
    {
      err := Executors.SelectContext(tracer, driver, query, args, dest, result);
    }

    method NamedExecContext(query: string, arg: NamedArg, result: ExecResult) returns (r: ExecResult, ghost order: seq<string>)
      modifies tracer
      ensures r == result
      ensures arg.MapArg? ==> IsEnumeration(order, arg.m.Keys)
      ensures !arg.MapArg? ==> order == []
      ensures tracer.Recorded(old(tracer.spans), SpanName(driver, query), NamedExecEvents(driver, query, arg, order, result))
    {
      r, order := Executors.NamedExecContext(tracer, driver, query, arg, result);
    }

    /** `Begin`: a driver failure yields no handle and that error; otherwise
        a handle over a new open transaction with this driver and tracer.
        No span is started. */
    method Begin(failure: Option<Error>) returns (t: Tx?, err: Option<Error>)
      ensures err == failure
      ensures t == null <==> failure.Some?
      ensures t != null ==> fresh(t) && fresh(t.underlying)
      ensures t != null ==> t.underlying.state == Open && t.underlying.calls == []
      ensures t != null ==> t.driver == driver && t.tracer == tracer
    {
      if failure.Some? {
        return null, failure;
      }
      var underlying := new SqlTx();
      t := new Tx(underlying, driver, tracer);
      err := None;
    }
  }

  /** Begin, Commit, then the deferred TxClose: the close's rollback is
      refused by the driver and ignored, and the transaction stays
      committed, whatever the commit reported. Each call starts one span. */
  method CommitThenClose(driver: string, commitFailure: Option<Error>, rollbackFailure: Option<Error>)
    returns (state: TxState, commitErr: Option<Error>, reraised: Option<Value>, calls: seq<TxCall>, spans: nat)
    ensures state == Committed && commitErr == commitFailure && reraised == None
    ensures calls == [CommitCall, RollbackCall] && spans == 2
  {
    var tracer := new Tracer();
    var db := new DBX(driver, tracer);
    var tx, err := db.Begin(None);
    commitErr := tx.Commit(commitFailure);
    reraised := tx.TxClose(None, rollbackFailure);
    state, calls, spans := tx.underlying.state, tx.underlying.calls, |tracer.spans|;
  }

  /** Begin, then a panic inside the transaction: the deferred TxClose rolls
      back and raises the very same value again. */
  method PanicThenClose(driver: string, panicValue: Value, rollbackFailure: Option<Error>)
    returns (state: TxState, reraised: Option<Value>, calls: seq<TxCall>)
    ensures state == RolledBack && reraised == Some(panicValue) && calls == [RollbackCall]
  {
    var tracer := new Tracer();
    var db := new DBX(driver, tracer);
    var tx, err := db.Begin(None);
    reraised := tx.TxClose(Some(panicValue), rollbackFailure);
    state, calls := tx.underlying.state, tx.underlying.calls;
  }

  /** TxClose twice: neither call raises; the second rollback is refused by
      the driver and ignored. */
  method CloseTwice(driver: string, first: Option<Error>, second: Option<Error>)
    returns (state: TxState, reraised1: Option<Value>, reraised2: Option<Value>, calls: seq<TxCall>)
    ensures state == RolledBack && reraised1 == None && reraised2 == None
    ensures calls == [RollbackCall, RollbackCall]
  {
    var tracer := new Tracer();
    var db := new DBX(driver, tracer);
    var tx, err := db.Begin(None);
    reraised1 := tx.TxClose(None, first);
    reraised2 := tx.TxClose(None, second);
    state, calls := tx.underlying.state, tx.underlying.calls;
  }

  /** A second finalisation is a driver error: committing twice returns
      ErrTxDone and leaves the transaction committed. */
  method CommitTwice(driver: string, first: Option<Error>, second: Option<Error>)
    returns (state: TxState, err1: Option<Error>, err2: Option<Error>)
    ensures state == Committed && err1 == first && err2 == Some(ErrTxDone)
  {
    var tracer := new Tracer();
    var db := new DBX(driver, tracer);
    var tx, err := db.Begin(None);
    err1 := tx.Commit(first);
    err2 := tx.Commit(second);
    state := tx.underlying.state;
  }
}
