// How autoBatch's parseArgs call binds the argument lists that the
// client's calls pass it (_autoBatchFormat in lib/Neo4jUtils.js): the
// resolution loop followed item by item for each shape of call.

module AutoBatchShapes {

  import opened Values
  import ArgParser
  import Neo4jApi
  import AutoBatch

  /** The record that parseArgs returns for autoBatch, one entry per
      parameter. */
  function Record(batch: Value, endpoint: Value, namedEndpoint: Value, factory: Value, factoryArgs: Value,
                  factoryArg: Value, count: Value, verb: Value, data: Value, datas: Value, callback: Value)
    : (r: map<string, Value>)
    ensures Lookup(r, "batch") == batch && Lookup(r, "endpoint") == endpoint
    ensures Lookup(r, "namedEndpoint") == namedEndpoint && Lookup(r, "factory") == factory
    ensures Lookup(r, "factoryArgs") == factoryArgs && Lookup(r, "factoryArg") == factoryArg
    ensures Lookup(r, "count") == count && Lookup(r, "method") == verb
    ensures Lookup(r, "data") == data && Lookup(r, "datas") == datas && Lookup(r, "callback") == callback
  {
    map["batch" := batch, "endpoint" := endpoint, "namedEndpoint" := namedEndpoint, "factory" := factory,
        "factoryArgs" := factoryArgs, "factoryArg" := factoryArg, "count" := count, "method" := verb,
        "data" := data, "datas" := datas, "callback" := callback]
  }

  /** A value that goes to the array form of a parameter pair, or is absent
      from it. */
  function IfArray(v: Value): Value
  {
    if v.Arr? then v else Undef
  }

  /** The same for the single form. */
  function IfNotArray(v: Value): Value
  {
    if v.Arr? then Undef else v
  }

  /** parseArgs marks the five relation-naming parameters optional. */
  lemma NormalizedFormat()
    ensures AutoBatch.IsNormalFormat(ArgParser.Normalize(AutoBatch.AutoBatchFormat))
  {
    NormalizedHead();
    NormalizedTail();
  }

  lemma NormalizedHead()
    ensures |ArgParser.Normalize(AutoBatch.AutoBatchFormat)| == 11
    ensures AutoBatch.NormalHead(ArgParser.Normalize(AutoBatch.AutoBatchFormat))
  {
    NormalizedFront();
    NormalizedRelations();
  }

  lemma NormalizedFront()
    ensures var f := AutoBatch.AutoBatchFormat; var n := ArgParser.Normalize(f);
      |n| == 11 && n[0] == f[0] && n[1] == f[1] && n[2] == f[2].(optional := true) && n[6] == f[6] && n[7] == f[7]
  {
  }

  lemma NormalizedRelations()
    ensures var f := AutoBatch.AutoBatchFormat; var n := ArgParser.Normalize(f);
      |n| == 11 && n[3] == f[3].(optional := true) && n[4] == f[4].(optional := true) && n[5] == f[5].(optional := true)
  {
  }

  lemma NormalizedTail()
    ensures |ArgParser.Normalize(AutoBatch.AutoBatchFormat)| == 11
    ensures AutoBatch.NormalTail(ArgParser.Normalize(AutoBatch.AutoBatchFormat))
  {
  }

  /** The last three parameters of a call whose first eight are resolved
      with the data and the callback left as its last two arguments: an
      array goes to datas, a function fits neither data nor datas, and
      anything else goes to data. The three steps are stated on the loop's
      step function, one lemma per kind of data. */
  lemma PlainDataSteps(items: seq<ArgParser.Item>, a: seq<Value>, c: ArgParser.Cursor)
    requires |items| == 11 && AutoBatch.NormalTail(items) && 2 <= |a| <= 11 && a[|a| - 1].Func?
    requires c.argDex + 2 == |a| && c.skipped + 1 == 11 - |a| && 8 - c.included > 11 - |a|
    requires !a[|a| - 2].Func? && !a[|a| - 2].Arr?
    ensures var c9 := c.(result := c.result["data" := a[|a| - 2]], argDex := |a| - 1, included := c.included + 1);
            var c10 := c9.(result := c9.result["datas" := Undef], skipped := c.skipped + 1);
      && ArgParser.Step(c, items[8], a, 8, |items| - |a|) == ArgParser.Ok(c9)
      && ArgParser.Step(c9, items[9], a, 8, |items| - |a|) == ArgParser.Ok(c10)
      && ArgParser.Step(c10, items[10], a, 8, |items| - |a|) ==
           ArgParser.Ok(c10.(result := c10.result["callback" := a[|a| - 1]], argDex := |a|))
  {
  }

  lemma ArrayDataSteps(items: seq<ArgParser.Item>, a: seq<Value>, c: ArgParser.Cursor)
    requires |items| == 11 && AutoBatch.NormalTail(items) && 2 <= |a| <= 11 && a[|a| - 1].Func?
    requires c.argDex + 2 == |a| && c.skipped + 1 == 11 - |a| && 8 - c.included > 11 - |a|
    requires a[|a| - 2].Arr?
    ensures var c9 := c.(result := c.result["data" := Undef], skipped := c.skipped + 1);
            var c10 := c9.(result := c9.result["datas" := a[|a| - 2]], argDex := |a| - 1, included := c.included + 1);
      && ArgParser.Step(c, items[8], a, 8, |items| - |a|) == ArgParser.Ok(c9)
      && ArgParser.Step(c9, items[9], a, 8, |items| - |a|) == ArgParser.Ok(c10)
      && ArgParser.Step(c10, items[10], a, 8, |items| - |a|) ==
           ArgParser.Ok(c10.(result := c10.result["callback" := a[|a| - 1]], argDex := |a|))
  {
  }

  lemma FunctionDataSteps(items: seq<ArgParser.Item>, a: seq<Value>, c: ArgParser.Cursor)
    requires |items| == 11 && AutoBatch.NormalTail(items) && 2 <= |a| <= 11 && a[|a| - 1].Func?
    requires c.argDex + 2 == |a| && c.skipped + 1 == 11 - |a| && 8 - c.included > 11 - |a|
    requires a[|a| - 2].Func?
    ensures var c9 := c.(result := c.result["data" := Undef], skipped := c.skipped + 1);
      && ArgParser.Step(c, items[8], a, 8, |items| - |a|) == ArgParser.Ok(c9)
      && ArgParser.Step(c9, items[9], a, 8, |items| - |a|) == ArgParser.Err(ArgParser.InvalidArguments)
  {
  }

  /** The first four parameters of `autoBatch(batch, factory, ids, method,
      data, callback)`: neither endpoint form fits a function, so the factory
      is taken. */
  lemma FactoryHeadSteps(items: seq<ArgParser.Item>, a: seq<Value>)
    requires |items| == 11 && AutoBatch.NormalHead(items) && |a| == 6 && a[1].Func?
    ensures var m1 := map["batch" := a[0]];
            var m2 := m1["endpoint" := Undef];
            var m3 := m2["namedEndpoint" := Undef];
      && ArgParser.Step(ArgParser.Cursor(map[], 0, 0, 0), items[0], a, 8, |items| - |a|) == ArgParser.Ok(ArgParser.Cursor(m1, 1, 0, 0))
      && ArgParser.Step(ArgParser.Cursor(m1, 1, 0, 0), items[1], a, 8, |items| - |a|) == ArgParser.Ok(ArgParser.Cursor(m2, 1, 0, 1))
      && ArgParser.Step(ArgParser.Cursor(m2, 1, 0, 1), items[2], a, 8, |items| - |a|) == ArgParser.Ok(ArgParser.Cursor(m3, 1, 0, 2))
      && ArgParser.Step(ArgParser.Cursor(m3, 1, 0, 2), items[3], a, 8, |items| - |a|) ==
           ArgParser.Ok(ArgParser.Cursor(m3["factory" := a[1]], 2, 1, 2))
  {
  }

  /** The ids go to factoryArgs when they are an array and to factoryArg
      otherwise; count does not fit a string method and is skipped. */
  lemma FactoryIdsSteps(items: seq<ArgParser.Item>, a: seq<Value>, m4: map<string, Value>)
    requires |items| == 11 && AutoBatch.NormalHead(items) && |a| == 6 && a[3].Str?
    requires "factory" in m4 && m4["factory"] != Undef
    ensures var m6 := m4["factoryArgs" := (if a[2].Arr? then a[2] else Undef)]
                        ["factoryArg" := (if a[2].Arr? then Undef else a[2])];
            var c5 := if a[2].Arr? then ArgParser.Cursor(m4["factoryArgs" := a[2]], 3, 2, 2)
                      else ArgParser.Cursor(m4["factoryArgs" := Undef], 2, 1, 3);
      && ArgParser.Step(ArgParser.Cursor(m4, 2, 1, 2), items[4], a, 8, |items| - |a|) == ArgParser.Ok(c5)
      && ArgParser.Step(c5, items[5], a, 8, |items| - |a|) == ArgParser.Ok(ArgParser.Cursor(m6, 3, 2, 3))
      && ArgParser.Step(ArgParser.Cursor(m6, 3, 2, 3), items[6], a, 8, |items| - |a|) ==
           ArgParser.Ok(ArgParser.Cursor(m6["count" := Undef], 3, 2, 4))
      && ArgParser.Step(ArgParser.Cursor(m6["count" := Undef], 3, 2, 4), items[7], a, 8, |items| - |a|) ==
           ArgParser.Ok(ArgParser.Cursor(m6["count" := Undef]["method" := a[3]], 4, 2, 4))
  {
  }

  /** The cursors of the first eight items of `autoBatch(batch, factory, ids,
      method, data, callback)`. */
  lemma FactoryPrefix(items: seq<ArgParser.Item>, a: seq<Value>) returns (head: seq<ArgParser.Cursor>)
    requires |items| == 11 && AutoBatch.NormalHead(items) && |a| == 6 && a[1].Func? && a[3].Str?
    ensures ArgParser.Chain(items, a, 8, head) && |head| == 9
    ensures head[8] == ArgParser.Cursor(map[
      "batch" := a[0], "endpoint" := Undef, "namedEndpoint" := Undef, "factory" := a[1],
      "factoryArgs" := (if a[2].Arr? then a[2] else Undef), "factoryArg" := (if a[2].Arr? then Undef else a[2]),
      "count" := Undef, "method" := a[3]], 4, 2, 4)
  {
    var m1 := map["batch" := a[0]];
    var m2 := m1["endpoint" := Undef];
    var m3 := m2["namedEndpoint" := Undef];
    var m4 := m3["factory" := a[1]];
    var m6 := m4["factoryArgs" := (if a[2].Arr? then a[2] else Undef)]["factoryArg" := (if a[2].Arr? then Undef else a[2])];
    var c5 := if a[2].Arr? then ArgParser.Cursor(m4["factoryArgs" := a[2]], 3, 2, 2)
              else ArgParser.Cursor(m4["factoryArgs" := Undef], 2, 1, 3);
    FactoryHeadSteps(items, a);
    FactoryIdsSteps(items, a, m4);
    head := [ArgParser.Cursor(map[], 0, 0, 0), ArgParser.Cursor(m1, 1, 0, 0), ArgParser.Cursor(m2, 1, 0, 1),
             ArgParser.Cursor(m3, 1, 0, 2), ArgParser.Cursor(m4, 2, 1, 2), c5, ArgParser.Cursor(m6, 3, 2, 3),
             ArgParser.Cursor(m6["count" := Undef], 3, 2, 4), ArgParser.Cursor(m6["count" := Undef]["method" := a[3]], 4, 2, 4)];
  }

  /** The first three parameters of `autoBatch(batch, name, method, data,
      callback)`: a string is no endpoint object, so it names the endpoint. */
  lemma NamedHeadSteps(items: seq<ArgParser.Item>, a: seq<Value>)
    requires |items| == 11 && AutoBatch.NormalHead(items) && |a| == 5 && a[1].Str?
    ensures var m1 := map["batch" := a[0]];
            var m2 := m1["endpoint" := Undef];
      && ArgParser.Step(ArgParser.Cursor(map[], 0, 0, 0), items[0], a, 8, |items| - |a|) == ArgParser.Ok(ArgParser.Cursor(m1, 1, 0, 0))
      && ArgParser.Step(ArgParser.Cursor(m1, 1, 0, 0), items[1], a, 8, |items| - |a|) == ArgParser.Ok(ArgParser.Cursor(m2, 1, 0, 1))
      && ArgParser.Step(ArgParser.Cursor(m2, 1, 0, 1), items[2], a, 8, |items| - |a|) ==
           ArgParser.Ok(ArgParser.Cursor(m2["namedEndpoint" := a[1]], 2, 1, 1))
  {
  }

  /** The first three parameters of `autoBatch(batch, endpoint, method, data,
      callback)`: the object is taken as the endpoint, which excludes a named
      one. */
  lemma EndpointHeadSteps(items: seq<ArgParser.Item>, a: seq<Value>)
    requires |items| == 11 && AutoBatch.NormalHead(items) && |a| == 5 && a[1].EndpointV?
    ensures var m1 := map["batch" := a[0]];
            var m2 := m1["endpoint" := a[1]];
      && ArgParser.Step(ArgParser.Cursor(map[], 0, 0, 0), items[0], a, 8, |items| - |a|) == ArgParser.Ok(ArgParser.Cursor(m1, 1, 0, 0))
      && ArgParser.Step(ArgParser.Cursor(m1, 1, 0, 0), items[1], a, 8, |items| - |a|) == ArgParser.Ok(ArgParser.Cursor(m2, 2, 1, 0))
      && ArgParser.Step(ArgParser.Cursor(m2, 2, 1, 0), items[2], a, 8, |items| - |a|) ==
           ArgParser.Ok(ArgParser.Cursor(m2["namedEndpoint" := Undef], 2, 1, 1))
  {
  }

  /** After an endpoint of either form, a string method fits neither the
      factory nor its arguments nor the count, and is taken as the method. */
  lemma NoFactorySteps(items: seq<ArgParser.Item>, a: seq<Value>, m3: map<string, Value>)
    requires |items| == 11 && AutoBatch.NormalHead(items) && |a| == 5 && a[2].Str?
    ensures var m4 := m3["factory" := Undef];
            var m5 := m4["factoryArgs" := Undef];
            var m6 := m5["factoryArg" := Undef];
            var m7 := m6["count" := Undef];
      && ArgParser.Step(ArgParser.Cursor(m3, 2, 1, 1), items[3], a, 8, |items| - |a|) == ArgParser.Ok(ArgParser.Cursor(m4, 2, 1, 2))
      && ArgParser.Step(ArgParser.Cursor(m4, 2, 1, 2), items[4], a, 8, |items| - |a|) == ArgParser.Ok(ArgParser.Cursor(m5, 2, 1, 3))
      && ArgParser.Step(ArgParser.Cursor(m5, 2, 1, 3), items[5], a, 8, |items| - |a|) == ArgParser.Ok(ArgParser.Cursor(m6, 2, 1, 4))
      && ArgParser.Step(ArgParser.Cursor(m6, 2, 1, 4), items[6], a, 8, |items| - |a|) == ArgParser.Ok(ArgParser.Cursor(m7, 2, 1, 5))
      && ArgParser.Step(ArgParser.Cursor(m7, 2, 1, 5), items[7], a, 8, |items| - |a|) ==
           ArgParser.Ok(ArgParser.Cursor(m7["method" := a[2]], 3, 1, 5))
  {
  }

  /** The cursors of the first eight items of `autoBatch(batch, name,
      method, data, callback)`. */
  lemma NamedPrefix(items: seq<ArgParser.Item>, a: seq<Value>) returns (head: seq<ArgParser.Cursor>)
    requires |items| == 11 && AutoBatch.NormalHead(items) && |a| == 5 && a[1].Str? && a[2].Str?
    ensures ArgParser.Chain(items, a, 8, head) && |head| == 9
    ensures head[8] == ArgParser.Cursor(map[
      "batch" := a[0], "endpoint" := Undef, "namedEndpoint" := a[1], "factory" := Undef,
      "factoryArgs" := Undef, "factoryArg" := Undef, "count" := Undef, "method" := a[2]], 3, 1, 5)
  {
    var m1 := map["batch" := a[0]];
    var m2 := m1["endpoint" := Undef];
    var m3 := m2["namedEndpoint" := a[1]];
    var m4 := m3["factory" := Undef];
    var m5 := m4["factoryArgs" := Undef];
    var m6 := m5["factoryArg" := Undef];
    var m7 := m6["count" := Undef];
    NamedHeadSteps(items, a);
    NoFactorySteps(items, a, m3);
    head := [ArgParser.Cursor(map[], 0, 0, 0), ArgParser.Cursor(m1, 1, 0, 0), ArgParser.Cursor(m2, 1, 0, 1),
             ArgParser.Cursor(m3, 2, 1, 1), ArgParser.Cursor(m4, 2, 1, 2), ArgParser.Cursor(m5, 2, 1, 3),
             ArgParser.Cursor(m6, 2, 1, 4), ArgParser.Cursor(m7, 2, 1, 5), ArgParser.Cursor(m7["method" := a[2]], 3, 1, 5)];
  }

  /** The cursors of the first eight items of `autoBatch(batch, endpoint,
      method, data, callback)`. */
  lemma EndpointPrefix(items: seq<ArgParser.Item>, a: seq<Value>) returns (head: seq<ArgParser.Cursor>)
    requires |items| == 11 && AutoBatch.NormalHead(items) && |a| == 5 && a[1].EndpointV? && a[2].Str?
    ensures ArgParser.Chain(items, a, 8, head) && |head| == 9
    ensures head[8] == ArgParser.Cursor(map[
      "batch" := a[0], "endpoint" := a[1], "namedEndpoint" := Undef, "factory" := Undef,
      "factoryArgs" := Undef, "factoryArg" := Undef, "count" := Undef, "method" := a[2]], 3, 1, 5)
  {
    var m1 := map["batch" := a[0]];
    var m2 := m1["endpoint" := a[1]];
    var m3 := m2["namedEndpoint" := Undef];
    var m4 := m3["factory" := Undef];
    var m5 := m4["factoryArgs" := Undef];
    var m6 := m5["factoryArg" := Undef];
    var m7 := m6["count" := Undef];
    EndpointHeadSteps(items, a);
    NoFactorySteps(items, a, m3);
    head := [ArgParser.Cursor(map[], 0, 0, 0), ArgParser.Cursor(m1, 1, 0, 0), ArgParser.Cursor(m2, 2, 1, 0),
             ArgParser.Cursor(m3, 2, 1, 1), ArgParser.Cursor(m4, 2, 1, 2), ArgParser.Cursor(m5, 2, 1, 3),
             ArgParser.Cursor(m6, 2, 1, 4), ArgParser.Cursor(m7, 2, 1, 5), ArgParser.Cursor(m7["method" := a[2]], 3, 1, 5)];
  }

  /** The last three items after a chain through the first eight, for data
      that is neither an array nor a function: it goes to data. */
  lemma PlainDataTail(items: seq<ArgParser.Item>, a: seq<Value>, head: seq<ArgParser.Cursor>)
    returns (cs: seq<ArgParser.Cursor>)
    requires |items| == 11 && AutoBatch.NormalTail(items) && ArgParser.Chain(items, a, 8, head) && |head| == 9
    requires 2 <= |a| <= 11 && a[|a| - 1].Func? && !a[|a| - 2].Func? && !a[|a| - 2].Arr?
    requires head[8].argDex + 2 == |a| && head[8].skipped + 1 == 11 - |a| && 8 - head[8].included > 11 - |a|
    ensures ArgParser.Chain(items, a, 8, cs) && |cs| == 12
    ensures cs[11] == ArgParser.Cursor(head[8].result["data" := a[|a| - 2]]["datas" := Undef]["callback" := a[|a| - 1]],
                                       |a|, head[8].included + 1, head[8].skipped + 1)
  {
    var c := head[8];
    var c9 := c.(result := c.result["data" := a[|a| - 2]], argDex := |a| - 1, included := c.included + 1);
    var c10 := c9.(result := c9.result["datas" := Undef], skipped := c.skipped + 1);
    var c11 := c10.(result := c10.result["callback" := a[|a| - 1]], argDex := |a|);
    PlainDataSteps(items, a, c);
    ArgParser.ChainExtend(items, a, 8, head, c9);
    ArgParser.ChainExtend(items, a, 8, head + [c9], c10);
    ArgParser.ChainExtend(items, a, 8, head + [c9, c10], c11);
    cs := head + [c9, c10, c11];
  }

  /** The same for an array as data: it goes to datas. */
  lemma ArrayDataTail(items: seq<ArgParser.Item>, a: seq<Value>, head: seq<ArgParser.Cursor>)
    returns (cs: seq<ArgParser.Cursor>)
    requires |items| == 11 && AutoBatch.NormalTail(items) && ArgParser.Chain(items, a, 8, head) && |head| == 9
    requires 2 <= |a| <= 11 && a[|a| - 1].Func? && a[|a| - 2].Arr?
    requires head[8].argDex + 2 == |a| && head[8].skipped + 1 == 11 - |a| && 8 - head[8].included > 11 - |a|
    ensures ArgParser.Chain(items, a, 8, cs) && |cs| == 12
    ensures cs[11] == ArgParser.Cursor(head[8].result["data" := Undef]["datas" := a[|a| - 2]]["callback" := a[|a| - 1]],
                                       |a|, head[8].included + 1, head[8].skipped + 1)
  {
    var c := head[8];
    var c9 := c.(result := c.result["data" := Undef], skipped := c.skipped + 1);
    var c10 := c9.(result := c9.result["datas" := a[|a| - 2]], argDex := |a| - 1, included := c.included + 1);
    var c11 := c10.(result := c10.result["callback" := a[|a| - 1]], argDex := |a|);
    ArrayDataSteps(items, a, c);
    ArgParser.ChainExtend(items, a, 8, head, c9);
    ArgParser.ChainExtend(items, a, 8, head + [c9], c10);
    ArgParser.ChainExtend(items, a, 8, head + [c9, c10], c11);
    cs := head + [c9, c10, c11];
  }

  /** The same for a function as data: neither data nor datas takes it. */
  lemma FunctionDataTail(items: seq<ArgParser.Item>, a: seq<Value>, head: seq<ArgParser.Cursor>)
    requires |items| == 11 && AutoBatch.NormalTail(items) && ArgParser.Chain(items, a, 8, head) && |head| == 9
    requires 2 <= |a| <= 11 && a[|a| - 1].Func? && a[|a| - 2].Func?
    requires head[8].argDex + 2 == |a| && head[8].skipped + 1 == 11 - |a| && 8 - head[8].included > 11 - |a|
    ensures ArgParser.Run(items, a, 8, 11) == ArgParser.Err(ArgParser.InvalidArguments)
  {
    var c := head[8];
    var c9 := c.(result := c.result["data" := Undef], skipped := c.skipped + 1);
    FunctionDataSteps(items, a, c);
    ArgParser.ChainExtend(items, a, 8, head, c9);
    ArgParser.RunFromChain(items, a, 8, head + [c9]);
    ArgParser.RunNext(items, a, 8, 10, c9);
    ArgParser.RunStopsAtError(items, a, 8, 10, 11);
  }

  /** A call whose first eight items leave the data and the callback as its
      last two arguments resolves by the kind of its data. */
  lemma ResolveAfterPrefix(a: seq<Value>, head: seq<ArgParser.Cursor>)
    requires ArgParser.Chain(ArgParser.Normalize(AutoBatch.AutoBatchFormat), a, 8, head) && |head| == 9
    requires 3 <= |a| <= 11 && a[|a| - 1].Func?
    requires head[8].argDex + 2 == |a| && head[8].skipped + 1 == 11 - |a| && 8 - head[8].included > 11 - |a|
    ensures var data := a[|a| - 2];
            var r := ArgParser.Resolve(AutoBatch.AutoBatchFormat, a);
      && (data.Func? ==> r == ArgParser.Err(ArgParser.InvalidArguments))
      && (data.Arr? ==> r == ArgParser.Ok(head[8].result["data" := Undef]["datas" := data]["callback" := a[|a| - 1]]))
      && (!data.Func? && !data.Arr? ==>
            r == ArgParser.Ok(head[8].result["data" := data]["datas" := Undef]["callback" := a[|a| - 1]]))
  {
    var items := ArgParser.Normalize(AutoBatch.AutoBatchFormat);
    NormalizedFormat();
    AutoBatch.AutoBatchFormatShape(a);
    if a[|a| - 2].Func? {
      FunctionDataTail(items, a, head);
    } else if a[|a| - 2].Arr? {
      var cs := ArrayDataTail(items, a, head);
      ArgParser.ResolveFromChain(AutoBatch.AutoBatchFormat, a, cs);
    } else {
      var cs := PlainDataTail(items, a, head);
      ArgParser.ResolveFromChain(AutoBatch.AutoBatchFormat, a, cs);
    }
  }

  /** A call through an endpoint factory, `autoBatch(batch, factory, ids,
      method, data, callback)`: the ids go to factoryArgs when they are an
      array and to factoryArg otherwise, the data to datas when it is an
      array and to data otherwise; a function as data fits no parameter. */
  lemma ResolveFactoryCall(b: Value, factory: Fn, ids: Value, m: string, data: Value, cb: Fn)
    ensures var r := ArgParser.Resolve(AutoBatch.AutoBatchFormat, [b, Func(factory), ids, Str(m), data, Func(cb)]);
      && (data.Func? ==> r == ArgParser.Err(ArgParser.InvalidArguments))
      && (!data.Func? ==> r == ArgParser.Ok(Record(b, Undef, Undef, Func(factory), IfArray(ids), IfNotArray(ids), Undef,
                                                  Str(m), IfNotArray(data), IfArray(data), Func(cb))))
  {
    var a := [b, Func(factory), ids, Str(m), data, Func(cb)];
    NormalizedFormat();
    var head := FactoryPrefix(ArgParser.Normalize(AutoBatch.AutoBatchFormat), a);
    ResolveAfterPrefix(a, head);
  }

  /** A call with a named endpoint, `autoBatch(batch, name, method, data,
      callback)`: the name goes to namedEndpoint, and the data as in every
      shape. */
  lemma ResolveNamedCall(b: Value, name: string, m: string, data: Value, cb: Fn)
    ensures var r := ArgParser.Resolve(AutoBatch.AutoBatchFormat, [b, Str(name), Str(m), data, Func(cb)]);
      && (data.Func? ==> r == ArgParser.Err(ArgParser.InvalidArguments))
      && (!data.Func? ==> r == ArgParser.Ok(Record(b, Undef, Str(name), Undef, Undef, Undef, Undef,
                                                  Str(m), IfNotArray(data), IfArray(data), Func(cb))))
  {
    var a := [b, Str(name), Str(m), data, Func(cb)];
    NormalizedFormat();
    var head := NamedPrefix(ArgParser.Normalize(AutoBatch.AutoBatchFormat), a);
    ResolveAfterPrefix(a, head);
  }

  /** A call with an endpoint object, `autoBatch(batch, endpoint, method,
      data, callback)`: the object goes to endpoint, and the data as in
      every shape. */
  lemma ResolveEndpointCall(b: Value, e: Endpoint, m: string, data: Value, cb: Fn)
    ensures var r := ArgParser.Resolve(AutoBatch.AutoBatchFormat, [b, EndpointV(e), Str(m), data, Func(cb)]);
      && (data.Func? ==> r == ArgParser.Err(ArgParser.InvalidArguments))
      && (!data.Func? ==> r == ArgParser.Ok(Record(b, EndpointV(e), Undef, Undef, Undef, Undef, Undef,
                                                  Str(m), IfNotArray(data), IfArray(data), Func(cb))))
  {
    var a := [b, EndpointV(e), Str(m), data, Func(cb)];
    NormalizedFormat();
    var head := EndpointPrefix(ArgParser.Normalize(AutoBatch.AutoBatchFormat), a);
    ResolveAfterPrefix(a, head);
  }

  // ------------------------------------------------ what is then issued

  /** The requests autoBatch issues for a call through an endpoint factory:
      one per data element when the data is an array, else one per id when
      the ids are an array, else a single one whose result is passed on
      unwrapped. Request i goes to the factory's endpoint for id i (or the
      single id) and carries data element i (or the single data). */
  lemma FactoryRequests(endpoints: map<string, Endpoint>, b: Value, base: Value, ids: Value, m: string,
                        data: Value, cb: Fn, i: nat)
    ensures var rec := Record(b, Undef, Undef, Func(EndpointFactoryFn(base)), IfArray(ids), IfNotArray(ids), Undef,
                              Str(m), IfNotArray(data), IfArray(data), Func(cb));
      && AutoBatch.DeriveCount(rec) ==
           (if data.Arr? then (|data.elems|, false) else if ids.Arr? then (|ids.elems|, false) else (1, true))
      && (!ids.Arr? ==> AutoBatch.EndpointFor(endpoints, rec, i) == AutoBatch.AsValue(Neo4jApi.GetEndpoint(endpoints, base, ids)))
      && (ids.Arr? && i < |ids.elems| && ids.elems[i] != Undef && !ids.elems[i].Arr? ==>
            AutoBatch.EndpointFor(endpoints, rec, i) == AutoBatch.AsValue(Neo4jApi.GetEndpoint(endpoints, base, ids.elems[i])))
      && (!data.Arr? ==> AutoBatch.CarriedData(rec, i) == data)
      && (data.Arr? && i < |data.elems| && data.elems[i] != Undef ==> AutoBatch.CarriedData(rec, i) == data.elems[i])
  {
    var rec := Record(b, Undef, Undef, Func(EndpointFactoryFn(base)), IfArray(ids), IfNotArray(ids), Undef,
                      Str(m), IfNotArray(data), IfArray(data), Func(cb));
    if !ids.Arr? {
      AutoBatch.SingleArgumentEndpoint(endpoints, rec, base, i);
    } else if i < |ids.elems| && ids.elems[i] != Undef && !ids.elems[i].Arr? {
      AutoBatch.EachArgumentEndpoint(endpoints, rec, base, i);
    }
    if !data.Arr? {
      AutoBatch.SingleDataEverywhere(rec, i);
    }
  }

  /** The requests autoBatch issues for a call with an endpoint object: all
      go to that endpoint, one per data element when the data is an array,
      else a single one carrying the data. */
  lemma EndpointRequests(endpoints: map<string, Endpoint>, b: Value, e: Endpoint, m: string, data: Value, cb: Fn, i: nat)
    ensures var rec := Record(b, EndpointV(e), Undef, Undef, Undef, Undef, Undef,
                              Str(m), IfNotArray(data), IfArray(data), Func(cb));
      && AutoBatch.DeriveCount(rec) == (if data.Arr? then (|data.elems|, false) else (1, true))
      && AutoBatch.EndpointFor(endpoints, rec, i) == EndpointV(e)
      && (!data.Arr? ==> AutoBatch.CarriedData(rec, i) == data)
      && (data.Arr? && i < |data.elems| && data.elems[i] != Undef ==> AutoBatch.CarriedData(rec, i) == data.elems[i])
  {
    var rec := Record(b, EndpointV(e), Undef, Undef, Undef, Undef, Undef,
                      Str(m), IfNotArray(data), IfArray(data), Func(cb));
    if !data.Arr? {
      AutoBatch.SingleDataEverywhere(rec, i);
    }
  }
}
