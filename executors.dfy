/** The instrumented query executors shared by the connection and the
    transaction handle. Each starts one span, tags it, hands the call to
    the driver, tags the outcome, ends the span and returns the driver's
    outcome unchanged. The driver call itself is an input: the outcome it
    produced and, for a multi-row fetch, the shape the destination has
    afterwards. */
module Executors {
  import opened Outcomes
  import opened Format
  import opened RowCount
  import opened Spans
  import Classifier

  /** The tag for a failed fetch: "no rows" is a zero row count, anything
      else a recorded error. */
  function FetchFailureEvents(err: Error): seq<Event> {
    if err == ErrNoRows then [SetAttr(Attr(ReturnedRows, Int64(0)))] else [RecordedError(err)]
  }

  function RowCountEvents(n: int): seq<Event> {
    if n != -1 then [SetAttr(Attr(ReturnedRows, Int64(n)))] else []
  }

  function GetOutcomeEvents(result: Option<Error>): seq<Event> {
    match result
    case None => []
    case Some(err) => FetchFailureEvents(err)
  }

  function SelectOutcomeEvents(dest: Dest, result: Option<Error>): seq<Event> {
    match result
    case None => RowCountEvents(GetReturnedRows(dest))
    case Some(err) => FetchFailureEvents(err)
  }

  /** The span log of a point fetch. */
  function GetContextEvents(driver: string, query: string, args: seq<Value>, result: Option<Error>): seq<Event> {
    NewSpanEvents(driver, query) + PositionalParams(args) + GetOutcomeEvents(result) + [Ended]
  }

  /** The span log of a multi-row fetch into `dest`. */
  function SelectContextEvents(driver: string, query: string, args: seq<Value>, dest: Dest, result: Option<Error>): seq<Event> {
    NewSpanEvents(driver, query) + PositionalParams(args) + SelectOutcomeEvents(dest, result) + [Ended]
  }

  /** Events that only set parameter attributes. */
  predicate OnlyParams(events: seq<Event>) {
    forall i | 0 <= i < |events| :: events[i].SetAttr? && events[i].attr.key.Param?
  }

  /** Events that only set the row count or record errors. */
  predicate OnlyOutcome(events: seq<Event>) {
    forall i | 0 <= i < |events| ::
      !events[i].Ended? && (events[i].SetAttr? ==> events[i].attr.key == ReturnedRows)
  }

  /** Every executor log has this shape, so every executor's span carries
      the three core attributes once each, takes its parameter attributes
      from the parameter part, its row count and errors from the outcome
      part, and receives two `End` calls (the one `newSpan` defers and the
      executor's own). */
  lemma ExecutorLogShape(driver: string, query: string, params: seq<Event>, outcome: seq<Event>)
    requires OnlyParams(params) && OnlyOutcome(outcome)
    ensures var log := NewSpanEvents(driver, query) + params + outcome + [Ended];
      && ValuesOf(log, DbSystem) == [Str(driver)]
      && ValuesOf(log, DbOperation) == [Str(Classifier.Name(Classifier.ParseQueryOperation(query)))]
      && ValuesOf(log, DbStatement) == [Str(query)]
      && ValuesOf(log, ReturnedRows) == ValuesOf(outcome, ReturnedRows)
      && (forall s :: ValuesOf(log, Param(s)) == ValuesOf(params, Param(s)))
      && ErrorsOf(log) == ErrorsOf(outcome)
      && EndsOf(log) == 2
  {
    var head := NewSpanEvents(driver, query);
    var log := head + params + outcome + [Ended];
    NewSpanTags(driver, query);
    forall k: AttrKey
      ensures ValuesOf(log, k) == ValuesOf(head, k)
        + (if k.Param? then ValuesOf(params, k) else [])
        + (if k == ReturnedRows then ValuesOf(outcome, k) else [])
    {
      ValuesOfAppend(head + params + outcome, [Ended], k);
      ValuesOfAppend(head + params, outcome, k);
      ValuesOfAppend(head, params, k);
      assert ValuesOf([Ended], k) == [];
      if !k.Param? {
        ValuesOfAbsent(params, k);
      }
      if k != ReturnedRows {
        ValuesOfAbsent(outcome, k);
      }
    }
    assert ValuesOf(log, DbSystem) == ValuesOf(head, DbSystem);
    assert ValuesOf(log, DbOperation) == ValuesOf(head, DbOperation);
    assert ValuesOf(log, DbStatement) == ValuesOf(head, DbStatement);
    ErrorsOfAppend(head + params + outcome, [Ended]);
    ErrorsOfAppend(head + params, outcome);
    ErrorsOfAppend(head, params);
    ErrorsOfAbsent(params);
    EndsOfAppend(head + params + outcome, [Ended]);
    EndsOfAppend(head + params, outcome);
    EndsOfAppend(head, params);
    EndsOfAbsent(params);
    EndsOfAbsent(outcome);
  }

  /** `getContext` on failure: "no rows" tags a zero row count and records
      no error; any other failure records that error and tags no count.
      A point fetch that succeeds tags neither. */
  lemma GetContextTags(driver: string, query: string, args: seq<Value>, result: Option<Error>)
    ensures var log := GetContextEvents(driver, query, args, result);
      && ValuesOf(log, DbSystem) == [Str(driver)]
      && ValuesOf(log, DbOperation) == [Str(Classifier.Name(Classifier.ParseQueryOperation(query)))]
      && ValuesOf(log, DbStatement) == [Str(query)]
      && ValuesOf(log, ReturnedRows) == (if result == Some(ErrNoRows) then [Int64(0)] else [])
      && ErrorsOf(log) == (if result.Some? && result.value != ErrNoRows then [result.value] else [])
      && (forall s :: ValuesOf(log, Param(s)) == ValuesOf(PositionalParams(args), Param(s)))
  {
    var outcome := GetOutcomeEvents(result);
    ExecutorLogShape(driver, query, PositionalParams(args), outcome);
    OutcomeTags(outcome);
  }

  /** `selectContext`: failures are tagged as for a point fetch; on success
      the row count is `getReturnedRows(dest)` exactly when that is not -1,
      and there is no row count otherwise. */
  lemma SelectContextTags(driver: string, query: string, args: seq<Value>, dest: Dest, result: Option<Error>)
    ensures var log := SelectContextEvents(driver, query, args, dest, result);
      && ValuesOf(log, DbSystem) == [Str(driver)]
      && ValuesOf(log, DbOperation) == [Str(Classifier.Name(Classifier.ParseQueryOperation(query)))]
      && ValuesOf(log, DbStatement) == [Str(query)]
      && ValuesOf(log, ReturnedRows) ==
           (match result
            case Some(err) => if err == ErrNoRows then [Int64(0)] else []
            case None => if GetReturnedRows(dest) != -1 then [Int64(GetReturnedRows(dest))] else [])
      && ErrorsOf(log) == (if result.Some? && result.value != ErrNoRows then [result.value] else [])
      && (forall s :: ValuesOf(log, Param(s)) == ValuesOf(PositionalParams(args), Param(s)))
  {
    var outcome := SelectOutcomeEvents(dest, result);
    ExecutorLogShape(driver, query, PositionalParams(args), outcome);
    OutcomeTags(outcome);
  }

  /** Helper: the row count and errors of a log of at most one event. */
  lemma OutcomeTags(outcome: seq<Event>)
    requires |outcome| <= 1
    ensures ValuesOf(outcome, ReturnedRows)
         == (if outcome != [] && Sets(outcome[0], ReturnedRows) then [outcome[0].attr.value] else [])
    ensures ErrorsOf(outcome) == (if outcome != [] && outcome[0].RecordedError? then [outcome[0].err] else [])
  {
  }

  /** `getContext`. */
  method GetContext(tracer: Tracer, driver: string, query: string, args: seq<Value>, result: Option<Error>)
    returns (err: Option<Error>)
    modifies tracer
    ensures err == result
    ensures tracer.Recorded(old(tracer.spans), SpanName(driver, query), GetContextEvents(driver, query, args, result))
  {
    var span := NewSpan(tracer, driver, query);
    span.AddQueryParams(args);
    err := result;
    if err.Some? {
      if err.value == ErrNoRows {
        span.AddAffectedRowsAttribute(0);
      } else {
        span.RecordError(err.value);
      }
    }
    span.End();
  }

  /** `selectContext`; `dest` is the destination's shape after the driver wrote it. */
  method SelectContext(tracer: Tracer, driver: string, query: string, args: seq<Value>, dest: Dest, result: Option<Error>)
    returns (err: Option<Error>)
    modifies tracer
    ensures err == result
    ensures tracer.Recorded(old(tracer.spans), SpanName(driver, query), SelectContextEvents(driver, query, args, dest, result))
  {
    var span := NewSpan(tracer, driver, query);
    span.AddQueryParams(args);
    err := result;
    if err.Some? {
      if err.value == ErrNoRows {
        span.AddAffectedRowsAttribute(0);
      } else {
        span.RecordError(err.value);
      }
    } else {
      var n := GetReturnedRows(dest);
      if n != -1 {
        span.AddAffectedRowsAttribute(n);
      }
    }
    span.End();
  }

  /** The argument of a named mutation: a `map[string]interface{}` or anything else. */
  datatype NamedArg = MapArg(m: map<string, Value>) | OtherArg(v: Value)

  /** What `RowsAffected()` returns on the driver's result. */
  datatype RowsAffected = RowsAffected(n: int, err: Option<Error>)

  /** What the driver's named mutation returns. */
  datatype ExecResult = Executed(rows: RowsAffected) | ExecFailed(err: Error)

  /** `order` lists every key of `keys` exactly once. */
  ghost predicate IsEnumeration(order: seq<string>, keys: set<string>) {
    && |order| == |keys|
    && (forall k :: k in order <==> k in keys)
    && (forall i, j | 0 <= i < j < |order| :: order[i] != order[j])
  }

  /** One `db.statement.param_<key>` attribute per key, in iteration order. */
  function NamedParams(m: map<string, Value>, order: seq<string>): (events: seq<Event>)
    requires forall k | k in order :: k in m
    ensures |events| == |order|
  {
    seq(|order|, i requires 0 <= i < |order| => SetAttr(ParamAttr(order[i], Sprint(m[order[i]]))))
  }

  /** A map argument gets exactly one attribute per key, carrying the text
      of that key's value, and no other parameter key is set. */
  lemma NamedParamsTags(m: map<string, Value>, order: seq<string>)
    requires IsEnumeration(order, m.Keys)
    ensures |NamedParams(m, order)| == |m|
    ensures forall k :: ValuesOf(NamedParams(m, order), Param(k)) == if k in m then [Str(Sprint(m[k]))] else []
  {
    var events := NamedParams(m, order);
    forall k
      ensures ValuesOf(events, Param(k)) == if k in m then [Str(Sprint(m[k]))] else []
    {
      if k in m {
        var j :| 0 <= j < |order| && order[j] == k;
        ValuesOfUnique(events, Param(k), j, Str(Sprint(m[k])));
      } else {
        ValuesOfAbsent(events, Param(k));
      }
    }
  }

  lemma NamedParamsSnoc(m: map<string, Value>, order: seq<string>, k: string)
    requires forall x | x in order :: x in m
    requires k in m
    ensures NamedParams(m, order + [k]) == NamedParams(m, order) + [SetAttr(ParamAttr(k, Sprint(m[k])))]
  {
  }

  function ParamEventsOf(arg: NamedArg, order: seq<string>): seq<Event>
    requires arg.MapArg? ==> forall k | k in order :: k in arg.m
  {
    if arg.MapArg? then NamedParams(arg.m, order) else []
  }

  /** The row count a successful mutation should tag: the driver's count
      when it could report one. */
  function AffectedRowsEvents(rows: RowsAffected): seq<Event> {
    if rows.err.None? then [SetAttr(Attr(ReturnedRows, Int64(rows.n)))] else []
  }

  /** The source's own test of the `RowsAffected()` outcome, which tags the
      count only when reading it failed. */
  function AffectedRowsEventsAsWritten(rows: RowsAffected): seq<Event> {
    if rows.err.Some? then [SetAttr(Attr(ReturnedRows, Int64(rows.n)))] else []
  }

  /** As written, a mutation whose driver reports 3 affected rows tags no
      row count at all. */
  lemma AffectedRowsAsWrittenDropsCount()
    ensures AffectedRowsEventsAsWritten(RowsAffected(3, None)) == []
    ensures AffectedRowsEvents(RowsAffected(3, None)) == [SetAttr(Attr(ReturnedRows, Int64(3)))]
  {
  }

  function ExecOutcomeEvents(result: ExecResult): seq<Event> {
    match result
    case ExecFailed(err) => if err != ErrNoRows then [RecordedError(err)] else []
    case Executed(rows) => AffectedRowsEvents(rows)
  }

  /** The span log of a named mutation; `order` is the order in which the
      runtime iterated over the argument map. */
  function NamedExecEvents(driver: string, query: string, arg: NamedArg, order: seq<string>, result: ExecResult): seq<Event>
    requires arg.MapArg? ==> forall k | k in order :: k in arg.m
  {
    NewSpanEvents(driver, query) + ParamEventsOf(arg, order) + ExecOutcomeEvents(result) + [Ended]
  }

  /** `namedExecContext`: a map argument yields one parameter attribute per
      key and anything else none; a "no rows" failure is not recorded as an
      error, any other failure is; a success tags the driver's affected-row
      count when it has one. */
  lemma NamedExecTags(driver: string, query: string, arg: NamedArg, order: seq<string>, result: ExecResult)
    requires arg.MapArg? ==> IsEnumeration(order, arg.m.Keys)
    ensures var log := NamedExecEvents(driver, query, arg, order, result);
      && ValuesOf(log, DbSystem) == [Str(driver)]
      && ValuesOf(log, DbOperation) == [Str(Classifier.Name(Classifier.ParseQueryOperation(query)))]
      && ValuesOf(log, DbStatement) == [Str(query)]
      && (forall k :: ValuesOf(log, Param(k)) ==
            if arg.MapArg? && k in arg.m then [Str(Sprint(arg.m[k]))] else [])
      && ValuesOf(log, ReturnedRows) ==
            (if result.Executed? && result.rows.err.None? then [Int64(result.rows.n)] else [])
      && ErrorsOf(log) == (if result.ExecFailed? && result.err != ErrNoRows then [result.err] else [])
  {
    var params := ParamEventsOf(arg, order);
    var outcome := ExecOutcomeEvents(result);
    ExecutorLogShape(driver, query, params, outcome);
    OutcomeTags(outcome);
    if arg.MapArg? {
      NamedParamsTags(arg.m, order);
    } else {
      forall k ensures ValuesOf(params, Param(k)) == [] {
        assert params == [];
      }
    }
  }

  /** The example of a named mutation with `{"id": 7}`: the key `id` is
      tagged with the text "7". */
  lemma NamedExecIdExample(driver: string, query: string, order: seq<string>, result: ExecResult)
    requires IsEnumeration(order, {"id"})
    ensures ValuesOf(NamedExecEvents(driver, query, MapArg(map["id" := IntVal(7)]), order, result), Param("id"))
         == [Str("7")]
  {
    var m := map["id" := IntVal(7)];
    assert m.Keys == {"id"};
    NamedExecTags(driver, query, MapArg(m), order, result);
  }

  /** `namedExecContext`. The runtime's map iteration order is not fixed;
      `order` reports the one this call used. */
  method NamedExecContext(tracer: Tracer, driver: string, query: string, arg: NamedArg, result: ExecResult)
    returns (r: ExecResult, ghost order: seq<string>)
    modifies tracer
    ensures r == result
    ensures arg.MapArg? ==> IsEnumeration(order, arg.m.Keys)
    ensures !arg.MapArg? ==> order == []
    ensures tracer.Recorded(old(tracer.spans), SpanName(driver, query), NamedExecEvents(driver, query, arg, order, result))
  {
    var span := NewSpan(tracer, driver, query);
    ghost var before := span.events;
    order := [];
    if arg.MapArg? {
      var m := arg.m;
      var remaining := m.Keys;
      while remaining != {}
        invariant tracer.spans == old(tracer.spans) + [span]
        invariant remaining <= m.Keys
        invariant |order| + |remaining| == |m.Keys|
        invariant forall k :: k in order <==> k in m.Keys - remaining
        invariant forall i, j | 0 <= i < j < |order| :: order[i] != order[j]
        invariant span.events == before + NamedParams(m, order)
        decreases remaining
      {
        var k :| k in remaining;
        assert k !in order;
        span.AddQueryParamAttribute(k, Sprint(m[k]));
        NamedParamsSnoc(m, order, k);
        order := order + [k];
        remaining := remaining - {k};
      }
    }
    assert span.events == before + ParamEventsOf(arg, order);
    r := result;
    match result {
      case ExecFailed(err) =>
        if err != ErrNoRows {
          span.RecordError(err);
        }
      case Executed(rows) =>
        if rows.err.None? {
          span.AddAffectedRowsAttribute(rows.n);
        }
    }
    span.End();
  }
}
