// autoBatch and errorOnly from lib/Neo4jUtils.js: one call fans out into
// `count` requests on one batch, and a `combine` closure gathers their
// completions into a single invocation of the caller's callback.

module AutoBatch {

  import opened Values
  import ArgParser
  import Neo4jApi

  type Completion = Neo4jApi.Completion

  /** _autoBatchFormat. */
  const AutoBatchFormat: seq<ArgParser.Item> := [
    ArgParser.Spec("batch", "", "", None, None, false, "", "", ""),
    ArgParser.Spec("endpoint", "object", "", None, None, true, "", "", ""),
    ArgParser.Spec("namedEndpoint", "string", "", None, None, false, "endpoint", "", ""),
    ArgParser.Spec("factory", "function", "", None, None, false, "endpoint", "", ""),
    ArgParser.Spec("factoryArgs", "", "", Some(ArrayCtor), None, false, "", "factory", ""),
    ArgParser.Spec("factoryArg", "", "", None, None, false, "factoryArgs", "factory", ""),
    ArgParser.Spec("count", "number", "", None, None, true, "", "", ""),
    ArgParser.Spec("method", "string", "", None, None, false, "", "", ""),
    ArgParser.Spec("data", "", "function", None, Some(ArrayCtor), true, "", "", ""),
    ArgParser.Spec("datas", "", "", Some(ArrayCtor), None, false, "data", "", ""),
    ArgParser.Spec("callback", "function", "", None, None, false, "", "", "")
  ]

  /** Eight of the eleven parameters are optional, so a call needs at least
      three arguments. */
  lemma AutoBatchFormatShape(args: seq<Value>)
    ensures ArgParser.CountOptional(AutoBatchFormat) == 8
    ensures ArgParser.Resolve(AutoBatchFormat, args) == ArgParser.Err(ArgParser.NotEnoughArguments) <==> |args| < 3
  {
    var f := AutoBatchFormat;
    var counts := [0, 0, 1, 2, 3, 4, 5, 6, 6, 7, 8, 8];
    for k := 1 to 12
      invariant ArgParser.CountOptional(f[..k - 1]) == counts[k - 1]
    {
      assert f[..k][..k - 1] == f[..k - 1];
    }
    assert f[..11] == f;
    ArgParser.NotEnoughExactly(AutoBatchFormat, args);
  }

  /** The batch parameter takes the first argument, whatever it is. */
  lemma BatchIsFirstArgument(args: seq<Value>)
    ensures ArgParser.Resolve(AutoBatchFormat, args).Ok? ==>
      Lookup(ArgParser.Resolve(AutoBatchFormat, args).value, "batch") == At(args, 0)
  {
    if ArgParser.Resolve(AutoBatchFormat, args).Ok? {
      var f := AutoBatchFormat;
      assert ArgParser.FirstNameUnique(f) by {
        forall j | 0 < j < |f| ensures f[j].name != "batch" {
          assert f[j].name[0] != 'b';
        }
      }
      ArgParser.ResolveBindsFirst(f, args);
    }
  }

  /** The format as parseArgs leaves it after its first call: the five
      parameters that name a relation are marked optional too. The first
      eight and the last three items are stated apart, so that a proof about
      one end of the format need not unfold the other. */
  predicate IsNormalFormat(items: seq<ArgParser.Item>)
  {
    |items| == 11 && NormalHead(items) && NormalTail(items)
  }

  predicate NormalHead(items: seq<ArgParser.Item>)
    requires |items| == 11
  {
    var f := AutoBatchFormat;
    && items[0] == f[0] && items[1] == f[1]
    && items[2] == f[2].(optional := true) && items[3] == f[3].(optional := true)
    && items[4] == f[4].(optional := true) && items[5] == f[5].(optional := true)
    && items[6] == f[6] && items[7] == f[7]
  }

  predicate NormalTail(items: seq<ArgParser.Item>)
    requires |items| == 11
  {
    var f := AutoBatchFormat;
    items[8] == f[8] && items[9] == f[9].(optional := true) && items[10] == f[10]
  }

  /** `v.length` for the array parameters; anything else has no length and
      makes the loop run zero times. */
  function Length(v: Value): (n: nat)
    ensures v.Arr? ==> n == |v.elems|
  {
    if v.Arr? then |v.elems| else 0
  }

  /** `v[i]` on an array parameter. */
  function ElementAt(v: Value, i: int): (r: Value)
    ensures v.Arr? && 0 <= i < |v.elems| ==> r == v.elems[i]
    ensures !(v.Arr? && 0 <= i < |v.elems|) ==> r == Undef
  {
    if v.Arr? then At(v.elems, i) else Undef
  }

  /** The number of requests and whether the single result is unwrapped: an
      explicit truthy count, else the length of `datas`, else the length of
      `factoryArgs`, else one unwrapped result. */
  function DeriveCount(args: map<string, Value>): (r: (int, bool))
    ensures r.1 <==> !Truthy(Lookup(args, "count")) && !Truthy(Lookup(args, "datas")) &&
                     !Truthy(Lookup(args, "factoryArgs"))
    ensures r.1 ==> r.0 == 1
    ensures Truthy(Lookup(args, "count")) && Lookup(args, "count").Num? ==> r.0 == Lookup(args, "count").n
    ensures !Truthy(Lookup(args, "count")) && Truthy(Lookup(args, "datas")) ==>
              r.0 == Length(Lookup(args, "datas"))
    ensures !Truthy(Lookup(args, "count")) && !Truthy(Lookup(args, "datas")) && Truthy(Lookup(args, "factoryArgs")) ==>
              r.0 == Length(Lookup(args, "factoryArgs"))
  {
    var count := Lookup(args, "count");
    if Truthy(count) then (if count.Num? then count.n else 0, false)
    else if Truthy(Lookup(args, "datas")) then (Length(Lookup(args, "datas")), false)
    else if Truthy(Lookup(args, "factoryArgs")) then (Length(Lookup(args, "factoryArgs")), false)
    else (1, true)
  }

  // ----------------------------------------------------------- combine

  /** What the caller's callback receives once `count` results are in: the
      list in arrival order, or its first element when unwrapping. */
  function Gathered(noArray: bool, list: seq<Value>): Value
    requires |list| > 0
  {
    if noArray then list[0] else Arr(list)
  }

  function Outs(out: Option<Completion>): seq<Completion>
  {
    if out.Some? then [out.value] else []
  }

  /** One call of combine: nothing once an error has been passed on; the
      first error is passed on and closes the record; a result is pushed,
      and the list is delivered when its length reaches `count` exactly. */
  function Absorb(count: int, noArray: bool, returned: Option<seq<Value>>, c: Completion)
    : (r: (Option<seq<Value>>, Option<Completion>))
    ensures returned.None? ==> r == (None, None)
    ensures returned.Some? && c.Failed? ==> r == (None, Some(c))
    ensures returned.Some? && c.Succeeded? ==>
      r.0 == Some(returned.value + [c.body]) &&
      (r.1.Some? <==> |returned.value| + 1 == count) &&
      (r.1.Some? ==> r.1.value == Neo4jApi.Succeeded(Gathered(noArray, r.0.value)))
  {
    if returned.None? then (returned, None)
    else if c.Failed? then (None, Some(c))
    else
      var list := returned.value + [c.body];
      (Some(list), if |list| == count then Some(Neo4jApi.Succeeded(Gathered(noArray, list))) else None)
  }

  /** combine's record and what it has passed to the caller's callback. */
  datatype Fold = Fold(returned: Option<seq<Value>>, delivered: seq<Completion>)

  const Start := Fold(Some([]), [])

  /** combine applied to a sequence of completions, in arrival order. */
  function Feed(count: int, noArray: bool, s: Fold, events: seq<Completion>): Fold
    decreases |events|
  {
    if events == [] then s
    else
      var prev := Feed(count, noArray, s, events[..|events| - 1]);
      var (returned, out) := Absorb(count, noArray, prev.returned, events[|events| - 1]);
      Fold(returned, prev.delivered + Outs(out))
  }

  lemma {:induction false} FeedAppend(count: int, noArray: bool, s: Fold, a: seq<Completion>, b: seq<Completion>)
    ensures Feed(count, noArray, s, a + b) == Feed(count, noArray, Feed(count, noArray, s, a), b)
    decreases |b|
  {
    if b == [] {
      assert a + b == a;
    } else {
      assert (a + b)[..|a + b| - 1] == a + b[..|b| - 1];
      FeedAppend(count, noArray, s, a, b[..|b| - 1]);
    }
  }

  /** Once an error has been passed on, nothing else is. */
  lemma {:induction false} ClosedStaysClosed(count: int, noArray: bool, s: Fold, events: seq<Completion>)
    requires s.returned.None?
    ensures Feed(count, noArray, s, events) == s
    decreases |events|
  {
    if events != [] {
      ClosedStaysClosed(count, noArray, s, events[..|events| - 1]);
    }
  }

  predicate AllSucceeded(events: seq<Completion>)
  {
    forall i :: 0 <= i < |events| ==> events[i].Succeeded?
  }

  function Bodies(events: seq<Completion>): (r: seq<Value>)
    ensures |r| == |events|
  {
    seq(|events|, i requires 0 <= i < |events| => if events[i].Succeeded? then events[i].body else Undef)
  }

  /** Successes are kept in arrival order, and the callback fires once, with
      the first `count` of them, when the count-th arrives. */
  lemma {:induction false} SuccessesGather(count: int, noArray: bool, events: seq<Completion>)
    requires AllSucceeded(events)
    ensures Feed(count, noArray, Start, events).returned == Some(Bodies(events))
    ensures Feed(count, noArray, Start, events).delivered ==
      if 1 <= count <= |events| then [Neo4jApi.Succeeded(Gathered(noArray, Bodies(events)[..count]))] else []
    decreases |events|
  {
    if events != [] {
      var init := events[..|events| - 1];
      SuccessesGather(count, noArray, init);
      assert Bodies(events) == Bodies(init) + [events[|events| - 1].body];
      if 1 <= count <= |init| {
        assert Bodies(events)[..count] == Bodies(init)[..count];
      } else if count == |events| {
        assert Bodies(events)[..count] == Bodies(events);
      }
    }
  }

  /** An error arriving before `count` results is the one and only thing the
      caller's callback receives, whatever arrives after it. */
  lemma FirstErrorWins(count: int, noArray: bool, before: seq<Completion>, e: Completion, after: seq<Completion>)
    requires AllSucceeded(before) && |before| < count && e.Failed?
    ensures Feed(count, noArray, Start, before + [e] + after).delivered == [e]
  {
    SuccessesGather(count, noArray, before);
    FeedAppend(count, noArray, Start, before, [e]);
    FeedAppend(count, noArray, Start, before + [e], after);
    var closed := Feed(count, noArray, Start, before + [e]);
    assert [e][..0] == [];
    ClosedStaysClosed(count, noArray, closed, after);
  }

  /** No more completions than requests means at most one invocation of the
      caller's callback. */
  lemma AtMostOnce(count: int, noArray: bool, events: seq<Completion>)
    requires |events| <= count
    ensures |Feed(count, noArray, Start, events).delivered| <= 1
  {
    if AllSucceeded(events) {
      SuccessesGather(count, noArray, events);
    } else {
      var i :| 0 <= i < |events| && !events[i].Succeeded?;
      while i > 0 && !AllSucceeded(events[..i])
        invariant 0 <= i < |events| && events[i].Failed?
        decreases i
      {
        var j :| 0 <= j < i && !events[..i][j].Succeeded?;
        i := j;
      }
      assert events == events[..i] + [events[i]] + events[i + 1..];
      FirstErrorWins(count, noArray, events[..i], events[i], events[i + 1..]);
    }
  }

  /** With a count that is not positive, no result is ever delivered. */
  lemma {:induction false} NoResultWithoutCount(count: int, noArray: bool, events: seq<Completion>)
    requires count <= 0
    ensures forall k :: 0 <= k < |Feed(count, noArray, Start, events).delivered| ==>
      Feed(count, noArray, Start, events).delivered[k].Failed?
    decreases |events|
  {
    if events != [] {
      NoResultWithoutCount(count, noArray, events[..|events| - 1]);
    }
  }

  /** The `returned`/`count`/`noArray` state that combine closes over. */
  class Combiner {
    var returned: Option<seq<Value>>
    var delivered: seq<Completion>
    ghost var events: seq<Completion>
    const count: int
    const noArray: bool

    /** The record agrees with combine applied to everything received. */
    ghost predicate Valid()
      reads this
    {
      Fold(returned, delivered) == Feed(count, noArray, Start, events)
    }

    constructor (count: int, noArray: bool)
      ensures Valid() && events == [] && returned == Some([]) && delivered == []
      ensures this.count == count && this.noArray == noArray
    {
      this.count := count;
      this.noArray := noArray;
      returned := Some([]);
      delivered := [];
      events := [];
    }

    /** combine(error, obj). */
    method Complete(c: Completion) returns (out: Option<Completion>)
      requires Valid()
      modifies this
      ensures Valid() && events == old(events) + [c]
      ensures (returned, out) == Absorb(count, noArray, old(returned), c)
      ensures delivered == old(delivered) + Outs(out)
    {
      events := events + [c];
      assert events[..|events| - 1] == old(events);
      if returned.None? {
        return None;
      }
      if c.Failed? {
        returned := None;
        out := Some(c);
      } else {
        returned := Some(returned.value + [c.body]);
        out := if |returned.value| == count then Some(Neo4jApi.Succeeded(Gathered(noArray, returned.value))) else None;
      }
      delivered := delivered + Outs(out);
    }
  }

  // ------------------------------------------------------- the fan-out

  /** `v` as an argument list for `apply`, or the one argument it is. */
  function Spread(v: Value): seq<Value>
  {
    if v.Arr? then v.elems else [v]
  }

  /** Calling a factory: the endpoint factories the client builds are
      getEndpoint bound to a base, which take the sub-path as their first
      argument. */
  function CallFactory(endpoints: map<string, Endpoint>, factory: Value, argv: seq<Value>): (r: Value)
    ensures factory.Func? && factory.fn.EndpointFactoryFn? ==>
      r == AsValue(Neo4jApi.GetEndpoint(endpoints, factory.fn.base, At(argv, 0)))
  {
    if factory.Func? && factory.fn.EndpointFactoryFn? then
      AsValue(Neo4jApi.GetEndpoint(endpoints, factory.fn.base, At(argv, 0)))
    else Undef
  }

  function AsValue(e: Option<Endpoint>): (v: Value)
    ensures e.Some? <==> v.EndpointV?
    ensures e.Some? ==> v.endpoint == e.value
    ensures e.None? ==> v == Undef
  {
    if e.Some? then EndpointV(e.value) else Undef
  }

  /** The arguments the factory gets in iteration i: the i-th factory
      argument if defined, else the single factory argument if defined, else
      none; an array argument is spread. */
  function FactoryInput(args: map<string, Value>, i: int): seq<Value>
  {
    var many := Lookup(args, "factoryArgs");
    var one := Lookup(args, "factoryArg");
    if Truthy(many) && ElementAt(many, i) != Undef then Spread(ElementAt(many, i))
    else if one != Undef then Spread(one)
    else []
  }

  /** The endpoint of request i: the factory's result when there is a
      factory, otherwise the named endpoint looked up once, or the endpoint
      argument. */
  function EndpointFor(endpoints: map<string, Endpoint>, args: map<string, Value>, i: int): Value
  {
    if Truthy(Lookup(args, "factory")) then
      CallFactory(endpoints, Lookup(args, "factory"), FactoryInput(args, i))
    else if Truthy(Lookup(args, "namedEndpoint")) then
      AsValue(Neo4jApi.GetEndpoint(endpoints, Lookup(args, "namedEndpoint"), Undef))
    else Lookup(args, "endpoint")
  }

  /** With a single factory argument, every request goes to the factory's
      endpoint for that argument. */
  lemma SingleArgumentEndpoint(endpoints: map<string, Endpoint>, args: map<string, Value>, base: Value, i: int)
    requires Lookup(args, "factory") == Func(EndpointFactoryFn(base)) && !Truthy(Lookup(args, "factoryArgs"))
    requires !Lookup(args, "factoryArg").Arr?
    ensures EndpointFor(endpoints, args, i) == AsValue(Neo4jApi.GetEndpoint(endpoints, base, Lookup(args, "factoryArg")))
  {
  }

  /** With an array of factory arguments, request i goes to the factory's
      endpoint for element i. */
  lemma EachArgumentEndpoint(endpoints: map<string, Endpoint>, args: map<string, Value>, base: Value, i: int)
    requires Lookup(args, "factory") == Func(EndpointFactoryFn(base)) && Lookup(args, "factoryArgs").Arr?
    requires 0 <= i < |Lookup(args, "factoryArgs").elems|
    requires Lookup(args, "factoryArgs").elems[i] != Undef && !Lookup(args, "factoryArgs").elems[i].Arr?
    ensures EndpointFor(endpoints, args, i) ==
      AsValue(Neo4jApi.GetEndpoint(endpoints, base, Lookup(args, "factoryArgs").elems[i]))
  {
  }

  /** The body of request i: `datas[i]` when it is defined, otherwise what
      the previous request carried (the variable is not reset), and `data`
      before any. */
  function CarriedData(args: map<string, Value>, i: nat): Value
    decreases i
  {
    var datas := Lookup(args, "datas");
    if Truthy(datas) && ElementAt(datas, i) != Undef then ElementAt(datas, i)
    else if i == 0 then Lookup(args, "data")
    else CarriedData(args, i - 1)
  }

  /** Without `datas`, every request carries `data`. */
  lemma {:induction false} SingleDataEverywhere(args: map<string, Value>, i: nat)
    requires !Truthy(Lookup(args, "datas"))
    ensures CarriedData(args, i) == Lookup(args, "data")
    decreases i
  {
    if i > 0 {
      SingleDataEverywhere(args, i - 1);
    }
  }

  /** A hole in `datas` repeats the nearest defined element before it. */
  lemma {:induction false} HoleRepeatsPrevious(args: map<string, Value>, i: nat, j: nat)
    requires j <= i && Truthy(Lookup(args, "datas"))
    requires ElementAt(Lookup(args, "datas"), j) != Undef
    requires forall k :: j < k <= i ==> ElementAt(Lookup(args, "datas"), k) == Undef
    ensures CarriedData(args, i) == ElementAt(Lookup(args, "datas"), j)
    decreases i
  {
    if i > j {
      HoleRepeatsPrevious(args, i - 1, j);
    }
  }

  /** The callback every request of one autoBatch call shares. */
  function CombineCallback(id: nat): Neo4jApi.Callback
  {
    Neo4jApi.Caller(Func(CombineFn(id)))
  }

  /** The requests the loop issues, in order. */
  function Issued(endpoints: map<string, Endpoint>, args: map<string, Value>, count: int, id: nat)
    : (r: seq<Neo4jApi.Request>)
    ensures |r| == if count < 0 then 0 else count
  {
    var n: nat := if count < 0 then 0 else count;
    seq(n, i requires 0 <= i < n =>
      Neo4jApi.Request(Neo4jApi.Target(endpoints, EndpointFor(endpoints, args, i)),
                       ToJsString(Lookup(args, "method")), CarriedData(args, i), CombineCallback(id)))
  }

  /** autoBatch. The arguments are resolved against the format (a failure
      throws); `count` requests go onto the caller's batch, or onto a fresh
      batch that is then run with combine as its error callback. The
      combiner returned is the state combine closes over. `callerBatch` is
      the Batch object that a truthy first argument refers to. */
  method Issue(conn: Neo4jApi.Connection, format: ArgParser.Format, args: seq<Value>,
               callerBatch: Neo4jApi.Batch?, id: nat)
    returns (r: ArgParser.Result<map<string, Value>>, combiner: Combiner?, batch: Neo4jApi.Batch?, threw: bool)
    requires format.Valid() && format.declared == AutoBatchFormat
    requires callerBatch != null <==> Truthy(At(args, 0))
    modifies format, conn`wire, callerBatch
    ensures format.Valid()
    ensures r == ArgParser.Resolve(AutoBatchFormat, args)
    ensures r.Err? ==> threw && combiner == null && batch == null && conn.wire == old(conn.wire)
    ensures r.Err? && callerBatch != null ==> callerBatch.requests == old(callerBatch.requests)
    ensures r.Ok? ==>
      combiner != null && fresh(combiner) && combiner.Valid() && combiner.events == [] &&
      (combiner.count, combiner.noArray) == DeriveCount(r.value)
    ensures r.Ok? && callerBatch != null ==>
      batch == callerBatch && !threw && conn.wire == old(conn.wire) &&
      callerBatch.requests == old(callerBatch.requests) + Issued(conn.endpoints, r.value, DeriveCount(r.value).0, id)
    ensures r.Ok? && callerBatch == null ==>
      batch != null && fresh(batch) &&
      batch.requests == Issued(conn.endpoints, r.value, DeriveCount(r.value).0, id) &&
      Neo4jApi.RanBatch(batch.requests, conn.endpoints, conn.basePath, Func(CombineFn(id)),
                        old(conn.wire), conn.wire, threw)
  {
    r := format.ParseArgs(args);
    if r.Err? {
      return r, null, null, true;
    }
    var a := r.value;
    var (count, noArray) := DeriveCount(a);
    BatchIsFirstArgument(args);
    var ownBatch := !Truthy(Lookup(a, "batch"));
    if ownBatch {
      batch := new Neo4jApi.Batch();
    } else {
      batch := callerBatch;
    }
    combiner := new Combiner(count, noArray);
    IssueRequests(conn, batch, a, count, id);
    threw := false;
    if ownBatch {
      threw := conn.RunBatch(batch, Func(CombineFn(id)));
    }
  }

  /** The loop of autoBatch: request i gets the factory's endpoint for i (or
      the fixed endpoint) and the data carried to i, and joins the batch. */
  method IssueRequests(conn: Neo4jApi.Connection, batch: Neo4jApi.Batch, a: map<string, Value>, count: int, id: nat)
    modifies batch
    ensures batch.requests == old(batch.requests) + Issued(conn.endpoints, a, count, id)
  {
    ghost var issued := Issued(conn.endpoints, a, count, id);
    var endpoint := if Truthy(Lookup(a, "namedEndpoint"))
                    then AsValue(Neo4jApi.GetEndpoint(conn.endpoints, Lookup(a, "namedEndpoint"), Undef))
                    else Lookup(a, "endpoint");
    var d := Lookup(a, "data");
    var i := 0;
    while i < count
      invariant 0 <= i && (count >= 0 ==> i <= count) && (count < 0 ==> i == 0)
      invariant batch.requests == old(batch.requests) + issued[..i]
      invariant i > 0 ==> d == CarriedData(a, i - 1)
      invariant i == 0 ==> d == Lookup(a, "data")
      invariant !Truthy(Lookup(a, "factory")) ==> endpoint == EndpointFor(conn.endpoints, a, i)
    {
      var factory := Lookup(a, "factory");
      if Truthy(factory) {
        var many := Lookup(a, "factoryArgs");
        var one := Lookup(a, "factoryArg");
        if Truthy(many) && ElementAt(many, i) != Undef {
          endpoint := CallFactory(conn.endpoints, factory, Spread(ElementAt(many, i)));
        } else if one != Undef {
          endpoint := CallFactory(conn.endpoints, factory, Spread(one));
        } else {
          endpoint := CallFactory(conn.endpoints, factory, []);
        }
      }
      var datas := Lookup(a, "datas");
      if Truthy(datas) && ElementAt(datas, i) != Undef {
        d := ElementAt(datas, i);
      }
      var req := Neo4jApi.Request(Neo4jApi.Target(conn.endpoints, endpoint), ToJsString(Lookup(a, "method")), d,
                                  CombineCallback(id));
      batch.requests := batch.requests + [req];
      assert issued[..i + 1] == issued[..i] + [req];
      i := i + 1;
    }
    assert issued[..i] == issued;
  }

  /** errorOnly(callback) invoked with a completion: the callback receives
      the error, or null, and never a result. */
  function ErrorOnly(callback: Value, c: Completion): (inv: Neo4jApi.Invocation)
    ensures inv.callee == callback && inv.result.None?
    ensures inv.error.Some? <==> c.Failed?
    ensures c.Failed? ==> inv.error.value == c.error
  {
    Neo4jApi.Invocation(callback, if c.Failed? then Some(c.error) else None, None)
  }
}
