/** The attribute recorder. A tracing span is modelled by the calls made
    on it: an append-only log of attribute settings, recorded errors and
    `End` calls. The tracer keeps every span it started. */
module Spans {
  import opened Outcomes
  import opened Format
  import Classifier

  /** The attribute vocabulary; KeyName gives the exact key strings. */
  datatype AttrKey = DbSystem | DbOperation | DbStatement | Param(suffix: string) | ReturnedRows

  function KeyName(k: AttrKey): string {
    match k
    case DbSystem => "db.system"
    case DbOperation => "db.operation"
    case DbStatement => "db.statement"
    case Param(suffix) => "db.statement.param_" + suffix
    case ReturnedRows => "db.result.returned_rows"
  }

  /** No two attributes of the vocabulary share a key string, whatever the
      parameter suffixes are. */
  lemma KeyNameInjective(a: AttrKey, b: AttrKey)
    requires KeyName(a) == KeyName(b)
    ensures a == b
  {
    var p := "db.statement.param_";
    if a.Param? && b.Param? {
      assert a.suffix == KeyName(a)[|p|..];
      assert b.suffix == KeyName(b)[|p|..];
    } else if a.Param? {
      ParamKeyIsDistinct(a.suffix, b);
      assert false;
    } else if b.Param? {
      ParamKeyIsDistinct(b.suffix, a);
      assert false;
    } else {
      assert |KeyName(a)| == |KeyName(b)|;
      assert KeyName(a)[3] == KeyName(b)[3];
    }
  }

  /** A parameter key never coincides with one of the fixed keys. */
  lemma ParamKeyIsDistinct(suffix: string, k: AttrKey)
    requires !k.Param?
    ensures KeyName(Param(suffix)) != KeyName(k)
  {
    var key := KeyName(Param(suffix));
    assert key[..19] == "db.statement.param_";
    assert key[3] == 's' && key[4] == 't' && |key| >= 19;
  }

  datatype AttrValue = Str(s: string) | Int64(n: int)

  datatype Attr = Attr(key: AttrKey, value: AttrValue)

  /** One call made on a span. */
  datatype Event = SetAttr(attr: Attr) | RecordedError(err: Error) | Ended

  predicate Sets(e: Event, key: AttrKey) {
    e.SetAttr? && e.attr.key == key
  }

  /** The values given to `key`, in the order they were set. */
  function ValuesOf(events: seq<Event>, key: AttrKey): seq<AttrValue> {
    if events == [] then []
    else (if Sets(events[0], key) then [events[0].attr.value] else []) + ValuesOf(events[1..], key)
  }

  /** The errors recorded, in order. */
  function ErrorsOf(events: seq<Event>): seq<Error> {
    if events == [] then []
    else (if events[0].RecordedError? then [events[0].err] else []) + ErrorsOf(events[1..])
  }

  /** How many times `End` was called. */
  function EndsOf(events: seq<Event>): nat {
    if events == [] then 0
    else (if events[0].Ended? then 1 else 0) + EndsOf(events[1..])
  }

  lemma {:induction false} ValuesOfAppend(a: seq<Event>, b: seq<Event>, key: AttrKey)
    ensures ValuesOf(a + b, key) == ValuesOf(a, key) + ValuesOf(b, key)
  {
    if a == [] {
      assert a + b == b;
    } else {
      assert (a + b)[0] == a[0];
      assert (a + b)[1..] == a[1..] + b;
      ValuesOfAppend(a[1..], b, key);
    }
  }

  lemma {:induction false} ErrorsOfAppend(a: seq<Event>, b: seq<Event>)
    ensures ErrorsOf(a + b) == ErrorsOf(a) + ErrorsOf(b)
  {
    if a == [] {
      assert a + b == b;
    } else {
      assert (a + b)[0] == a[0];
      assert (a + b)[1..] == a[1..] + b;
      ErrorsOfAppend(a[1..], b);
    }
  }

  lemma {:induction false} EndsOfAppend(a: seq<Event>, b: seq<Event>)
    ensures EndsOf(a + b) == EndsOf(a) + EndsOf(b)
  {
    if a == [] {
      assert a + b == b;
    } else {
      assert (a + b)[0] == a[0];
      assert (a + b)[1..] == a[1..] + b;
      EndsOfAppend(a[1..], b);
    }
  }

  /** A log in which no event sets `key` gives it no value. */
  lemma {:induction false} ValuesOfAbsent(events: seq<Event>, key: AttrKey)
    requires forall i | 0 <= i < |events| :: !Sets(events[i], key)
    ensures ValuesOf(events, key) == []
  {
    if events != [] {
      ValuesOfAbsent(events[1..], key);
    }
  }

  lemma {:induction false} ErrorsOfAbsent(events: seq<Event>)
    requires forall i | 0 <= i < |events| :: !events[i].RecordedError?
    ensures ErrorsOf(events) == []
  {
    if events != [] {
      ErrorsOfAbsent(events[1..]);
    }
  }

  lemma {:induction false} EndsOfAbsent(events: seq<Event>)
    requires forall i | 0 <= i < |events| :: !events[i].Ended?
    ensures EndsOf(events) == 0
  {
    if events != [] {
      EndsOfAbsent(events[1..]);
    }
  }

  /** A log in which exactly one event sets `key` gives it exactly that value. */
  lemma {:induction false} ValuesOfUnique(events: seq<Event>, key: AttrKey, j: nat, v: AttrValue)
    requires j < |events| && events[j] == SetAttr(Attr(key, v))
    requires forall i | 0 <= i < |events| && i != j :: !Sets(events[i], key)
    ensures ValuesOf(events, key) == [v]
  {
    if j == 0 {
      ValuesOfAbsent(events[1..], key);
    } else {
      ValuesOfUnique(events[1..], key, j - 1, v);
    }
  }

  function AttrEvents(attrs: seq<Attr>): (events: seq<Event>)
    ensures |events| == |attrs|
  {
    seq(|attrs|, i requires 0 <= i < |attrs| => SetAttr(attrs[i]))
  }

  function ParamAttr(suffix: string, text: string): Attr {
    Attr(Param(suffix), Str(text))
  }

  /** The attributes for positional arguments: `db.statement.param_<i>`
      set to the text of the i-th argument. */
  function PositionalParams(args: seq<Value>): (events: seq<Event>)
    ensures |events| == |args|
  {
    seq(|args|, i requires 0 <= i < |args| => SetAttr(ParamAttr(NatToString(i), Sprint(args[i]))))
  }

  /** Each positional argument is tagged exactly once, under its own index,
      and no other parameter key is set. */
  lemma PositionalParamsTags(args: seq<Value>)
    ensures forall i | 0 <= i < |args| ::
      ValuesOf(PositionalParams(args), Param(NatToString(i))) == [Str(Sprint(args[i]))]
    ensures forall s | forall i | 0 <= i < |args| :: s != NatToString(i) ::
      ValuesOf(PositionalParams(args), Param(s)) == []
  {
    var events := PositionalParams(args);
    forall i | 0 <= i < |args|
      ensures ValuesOf(events, Param(NatToString(i))) == [Str(Sprint(args[i]))]
    {
      forall j | 0 <= j < |events| && j != i
        ensures !Sets(events[j], Param(NatToString(i)))
      {
        NatToStringInjective(i, j);
      }
      ValuesOfUnique(events, Param(NatToString(i)), i, Str(Sprint(args[i])));
    }
    forall s | forall i | 0 <= i < |args| :: s != NatToString(i)
      ensures ValuesOf(events, Param(s)) == []
    {
      ValuesOfAbsent(events, Param(s));
    }
  }

  /** Extending a prefix of `events` by one element. */
  lemma PrefixStep(events: seq<Event>, i: nat, e: Event)
    requires i < |events| && events[i] == e
    ensures events[..i + 1] == events[..i] + [e]
  {
    assert events[..i + 1] == events[..i] + [events[i]];
  }

  /** `addQueryParams` as written: for each argument it calls itself with
      the two arguments (i, text of argument i) instead of setting an
      attribute. `fuel` is the stack depth left; None means the call did
      not finish within it. Nothing is ever set on the span. */
  function AddQueryParamsAsWritten(args: seq<Value>, i: nat, fuel: nat): Option<seq<Event>>
    decreases fuel, |args| - i
  {
    if i >= |args| then Some([])
    else if fuel == 0 then None
    else match AddQueryParamsAsWritten([IntVal(i), StrVal(Sprint(args[i]))], 0, fuel - 1)
      case None => None
      case Some(inner) =>
        match AddQueryParamsAsWritten(args, i + 1, fuel)
        case None => None
        case Some(rest) => Some(inner + rest)
  }

  /** As written, `addQueryParams` never finishes on a non-empty argument
      list, however deep the stack. */
  lemma {:induction false} AddQueryParamsAsWrittenDiverges(args: seq<Value>, i: nat, fuel: nat)
    requires i < |args|
    ensures AddQueryParamsAsWritten(args, i, fuel) == None
    decreases fuel
  {
    if fuel > 0 {
      AddQueryParamsAsWrittenDiverges([IntVal(i), StrVal(Sprint(args[i]))], 0, fuel - 1);
    }
  }

  /** The executors hand their argument list to `addQueryParams` as a
      single element, so the list is never empty: tagging never finishes,
      even for a query without arguments. */
  lemma CallSiteDiverges(args: seq<Value>, fuel: nat)
    ensures AddQueryParamsAsWritten([ListVal(args)], 0, fuel) == None
  {
    AddQueryParamsAsWrittenDiverges([ListVal(args)], 0, fuel);
  }

  /** A span as the source's `customSpan` uses it. */
  class Span {
    const name: string
    var events: seq<Event>

    constructor (name: string)
      ensures this.name == name && events == []
    {
      this.name := name;
      events := [];
    }

    method SetAttributes(attrs: seq<Attr>)
      modifies this
      ensures events == old(events) + AttrEvents(attrs)
    {
      events := events + AttrEvents(attrs);
    }

    method RecordError(err: Error)
      modifies this
      ensures events == old(events) + [RecordedError(err)]
    {
      events := events + [RecordedError(err)];
    }

    method End()
      modifies this
      ensures events == old(events) + [Ended]
    {
      events := events + [Ended];
    }

    /** `addAffectedRowsAttribute`: sets `db.result.returned_rows`. */
    method AddAffectedRowsAttribute(n: int)
      modifies this
      ensures events == old(events) + [SetAttr(Attr(ReturnedRows, Int64(n)))]
    {
      SetAttributes([Attr(ReturnedRows, Int64(n))]);
    }

    /** `addQueryParamAttribute`: sets `db.statement.param_<k>` to `v`. */
    method AddQueryParamAttribute(k: string, v: string)
      modifies this
      ensures events == old(events) + [SetAttr(ParamAttr(k, v))]
    {
      SetAttributes([ParamAttr(k, v)]);
    }

    /** `addQueryParams` as its callers intend it: one attribute per
        positional argument, keyed by the argument's index. */
    method AddQueryParams(args: seq<Value>)
      modifies this
      ensures events == old(events) + PositionalParams(args)
    {
      for i := 0 to |args|
        invariant events == old(events) + PositionalParams(args)[..i]
      {
        PrefixStep(PositionalParams(args), i, SetAttr(ParamAttr(NatToString(i), Sprint(args[i]))));
        AddQueryParamAttribute(NatToString(i), Sprint(args[i]));
      }
      assert PositionalParams(args)[..|args|] == PositionalParams(args);
    }
  }

  /** The tracer: every span it starts is kept, in order. */
  class Tracer {
    var spans: seq<Span>

    constructor ()
      ensures spans == []
    {
      spans := [];
    }

    method Start(name: string) returns (span: Span)
      modifies this
      ensures fresh(span) && span.name == name && span.events == []
      ensures spans == old(spans) + [span]
    {
      span := new Span(name);
      spans := spans + [span];
    }

    /** Exactly one span was started since `before`, with this name and this log. */
    ghost predicate Recorded(before: seq<Span>, name: string, events: seq<Event>)
      reads this, spans
    {
      && |spans| == |before| + 1
      && spans[..|before|] == before
      && spans[|before|].name == name
      && spans[|before|].events == events
    }
  }

  /** The span name: the driver, a dot, and the operation tag. */
  function SpanName(driver: string, query: string): string {
    driver + "." + Classifier.Name(Classifier.ParseQueryOperation(query))
  }

  function CoreAttrs(driver: string, query: string): seq<Attr> {
    [ Attr(DbSystem, Str(driver)),
      Attr(DbOperation, Str(Classifier.Name(Classifier.ParseQueryOperation(query)))),
      Attr(DbStatement, Str(query)) ]
  }

  /** What `newSpan` leaves on the span it returns: the three core
      attributes, then the `End` its own deferred call makes. */
  function NewSpanEvents(driver: string, query: string): seq<Event> {
    AttrEvents(CoreAttrs(driver, query)) + [Ended]
  }

  /** `newSpan`: starts one span named after the driver and the query's
      operation and tags it with the core attributes. */
  method NewSpan(tracer: Tracer, driver: string, query: string) returns (span: Span)
    modifies tracer
    ensures fresh(span) && tracer.spans == old(tracer.spans) + [span]
    ensures span.name == SpanName(driver, query)
    ensures span.events == NewSpanEvents(driver, query)
  {
    var op := Classifier.ParseQueryOperation(query);
    span := tracer.Start(driver + "." + Classifier.Name(op));
    span.SetAttributes(CoreAttrs(driver, query));
    span.End();
  }

  /** The span `newSpan` returns carries each core attribute exactly once,
      no error, and has already been ended once. */
  lemma NewSpanTags(driver: string, query: string)
    ensures ValuesOf(NewSpanEvents(driver, query), DbSystem) == [Str(driver)]
    ensures ValuesOf(NewSpanEvents(driver, query), DbOperation)
         == [Str(Classifier.Name(Classifier.ParseQueryOperation(query)))]
    ensures ValuesOf(NewSpanEvents(driver, query), DbStatement) == [Str(query)]
    ensures forall k: AttrKey | !k.DbSystem? && !k.DbOperation? && !k.DbStatement? ::
      ValuesOf(NewSpanEvents(driver, query), k) == []
    ensures ErrorsOf(NewSpanEvents(driver, query)) == []
    ensures EndsOf(NewSpanEvents(driver, query)) == 1
  {
    var events := NewSpanEvents(driver, query);
    ValuesOfUnique(events, DbSystem, 0, Str(driver));
    ValuesOfUnique(events, DbOperation, 1, Str(Classifier.Name(Classifier.ParseQueryOperation(query))));
    ValuesOfUnique(events, DbStatement, 2, Str(query));
    forall k: AttrKey | !k.DbSystem? && !k.DbOperation? && !k.DbStatement?
      ensures ValuesOf(events, k) == []
    {
      ValuesOfAbsent(events, k);
    }
    ErrorsOfAbsent(events);
    EndsOfAppend(AttrEvents(CoreAttrs(driver, query)), [Ended]);
    EndsOfAbsent(AttrEvents(CoreAttrs(driver, query)));
  }
}
