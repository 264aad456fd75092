// The part that nodes and relationships share (lib/Base.js): building an
// entity from its REST representation, and rewriting the property calls
// into the argument lists they hand to autoBatch.

module Base {
  import opened Values
  import Paths
  import ArgParser
  import Neo4jApi
  import AutoBatch
  import AutoBatchShapes

  /** _deletePropsFormat. */
  const DeletePropsFormat: seq<ArgParser.Item> := [
    ArgParser.Spec("batch", "", "", Some(BatchCtor), None, true, "", "", ""),
    ArgParser.Spec("props", "", "", None, None, true, "", "", ""),
    ArgParser.Spec("callback", "function", "", None, None, true, "", "", "")
  ]

  /** _setPropsFormat: a key and its value, or a props object. */
  const SetPropsFormat: seq<ArgParser.Item> := [
    ArgParser.Spec("batch", "", "", Some(BatchCtor), None, true, "", "", ""),
    ArgParser.Spec("key", "string", "", None, None, true, "", "", ""),
    ArgParser.Spec("value", "", "", None, None, false, "", "key", "key"),
    ArgParser.Spec("props", "object", "", None, None, false, "key", "", ""),
    ArgParser.Spec("callback", "function", "", None, None, false, "", "", "")
  ]

  // ------------------------------------------------------ construction

  /** The id that `parseId(url)` extracts, or None where `exec` finds no
      match and reading `[0]` of null throws. */
  function IdOf(url: Value): (r: Option<string>)
    ensures var s := ToJsString(url);
      && (r.None? <==> s == [] || !Paths.IsDigit(s[|s| - 1]))
      && (r.Some? ==> 0 < |r.value| <= |s| && Paths.AllDigits(r.value) && s == s[..|s| - |r.value|] + r.value)
  {
    var p := Paths.ParseId(ToJsString(url));
    if p.Some? then Some(p.value) else None
  }

  /** `new Node(obj)` / `new Relationship(obj)`: the id is parsed from `self`
      and `data` is taken as it is. The constructor throws (None) when
      `self` has no trailing digits (in particular when obj is null or
      undefined); a relationship also parses `start` and `end`. */
  function NewEntity(kind: Kind, obj: Value): (r: Option<Value>)
    ensures r.Some? ==> IdOf(Get(obj, "self")).Some?
    ensures r.Some? ==>
      r.value == Entity(kind, IdOf(Get(obj, "self")).value, Get(obj, "data"), obj)
    ensures kind == NodeKind ==> (r.Some? <==> IdOf(Get(obj, "self")).Some?)
    ensures kind == RelationshipKind ==>
      (r.Some? <==> IdOf(Get(obj, "self")).Some? && IdOf(Get(obj, "start")).Some? && IdOf(Get(obj, "end")).Some?)
  {
    var id := IdOf(Get(obj, "self"));
    if id.None? then None
    else if kind == RelationshipKind && (IdOf(Get(obj, "start")).None? || IdOf(Get(obj, "end")).None?) then None
    else Some(Entity(kind, id.value, Get(obj, "data"), obj))
  }

  /** The representation of a node at `prefix + id` becomes a node with that
      id, its data, and the representation kept for later calls. */
  lemma NodeOfSelfUrl(obj: Value, prefix: string, id: string)
    requires Get(obj, "self") == Str(prefix + id)
    requires |id| > 0 && Paths.AllDigits(id)
    requires prefix == [] || !Paths.IsDigit(prefix[|prefix| - 1])
    ensures NewEntity(NodeKind, obj) == Some(Entity(NodeKind, id, Get(obj, "data"), obj))
  {
    Paths.ParseIdOfJoined(prefix, id);
  }

  /** A value without a `self` URL (null, undefined, a string, a number)
      cannot become an entity. */
  lemma NoEntityWithoutSelf(kind: Kind, obj: Value)
    requires !obj.Obj?
    ensures NewEntity(kind, obj).None?
  {
    assert ToJsString(Undef) == "undefined";
  }

  /** valueOf: the id, which is also what `'' + entity` yields. */
  function ValueOf(e: Value): (id: string)
    requires e.Entity?
    ensures id == ToJsString(e)
  {
    e.id
  }

  /** An entity built from its representation converts to the trailing
      digits of its `self` URL. */
  lemma ValueOfIsSelfId(kind: Kind, obj: Value)
    requires NewEntity(kind, obj).Some?
    ensures var s := ToJsString(Get(obj, "self"));
      var id := ValueOf(NewEntity(kind, obj).value);
      0 < |id| <= |s| && Paths.AllDigits(id) && s == s[..|s| - |id|] + id
  {
  }

  // ------------------------------------------------- property rewriting

  /** The endpoint factory over the entity's properties URL. */
  function PropertiesFactory(self: Value, parse: Value -> Endpoint): Value
    requires self.Entity?
  {
    Func(EndpointFactoryFn(EndpointV(parse(Get(self.raw, "properties")))))
  }

  /** deleteProperties' call into autoBatch: a missing props becomes '' and
      a missing callback becomes a no-op. */
  function DeletePropertiesCall(self: Value, args: map<string, Value>, parse: Value -> Endpoint): (call: seq<Value>)
    requires self.Entity?
    ensures |call| == 6 && call[0] == Lookup(args, "batch") && call[1] == PropertiesFactory(self, parse)
    ensures call[2] != Undef && call[3] == Str("DELETE") && call[4] == Null
    ensures Lookup(args, "props") != Undef ==> call[2] == Lookup(args, "props")
    ensures Lookup(args, "props") == Undef ==> call[2] == Str("")
    ensures !Truthy(Lookup(args, "callback")) ==> call[5] == Func(ErrorOnlyFn(Func(NoopFn)))
    ensures Truthy(Lookup(args, "callback")) ==> call[5] == Func(ErrorOnlyFn(Lookup(args, "callback")))
  {
    var callback := if Truthy(Lookup(args, "callback")) then Lookup(args, "callback") else Func(NoopFn);
    var props := if Lookup(args, "props") == Undef then Str("") else Lookup(args, "props");
    [Lookup(args, "batch"), PropertiesFactory(self, parse), props, Str("DELETE"), Null, Func(ErrorOnlyFn(callback))]
  }

  /** Without props the one DELETE goes to the properties URL itself with a
      trailing separator, which removes every property. */
  lemma DeleteAllProperties(self: Value, args: map<string, Value>, parse: Value -> Endpoint)
    requires self.Entity? && Lookup(args, "props") == Undef
    ensures var call := DeletePropertiesCall(self, args, parse);
      var properties := parse(Get(self.raw, "properties"));
      && call[2] == Str("")
      && AutoBatch.CallFactory(map[], call[1], AutoBatch.Spread(call[2]))
         == EndpointV(properties.(path := Paths.Directory(properties.pathname),
                                  href := Part(properties.protocol) + "//" + Part(properties.hostname) + ":" + Part(properties.port)
                                          + Paths.Directory(properties.pathname)))
  {
    var properties := parse(Get(self.raw, "properties"));
    var e := Neo4jApi.GetEndpoint(map[], EndpointV(properties), Str(""));
    assert e.Some? && e.value.(path := properties.path, href := properties.href) == properties;
  }

  /** _deletePropsFormat is all optional and needs no normalising. */
  lemma DeletePropsOptional()
    ensures ArgParser.CountOptional(DeletePropsFormat) == 3 && ArgParser.Normalize(DeletePropsFormat) == DeletePropsFormat
  {
    var f := DeletePropsFormat;
    var counts := [0, 1, 2, 3];
    for k := 1 to 4
      invariant ArgParser.CountOptional(f[..k - 1]) == counts[k - 1]
    {
      assert f[..k][..k - 1] == f[..k - 1];
    }
    assert f[..3] == f;
    assert forall k | 0 <= k < 3 :: ArgParser.Normalize(f)[k] == f[k];
  }

  /** All three items of _deletePropsFormat are optional and props has no
      type: with no arguments all three are absent; a lone argument is the
      batch when it is one and props otherwise, a function included, so the
      callback is never bound without props; of two arguments after a batch,
      the second is props. */
  lemma DeletePropsArguments(x: Value, y: Value)
    ensures ArgParser.Resolve(DeletePropsFormat, []) ==
      ArgParser.Ok(map["batch" := Undef, "props" := Undef, "callback" := Undef])
    ensures ArgParser.Resolve(DeletePropsFormat, [x]) ==
      if x.BatchV? then ArgParser.Ok(map["batch" := x, "props" := Undef, "callback" := Undef])
      else ArgParser.Ok(map["batch" := Undef, "props" := x, "callback" := Undef])
    ensures ArgParser.Resolve(DeletePropsFormat, [x, y]) ==
      if x.BatchV? then ArgParser.Ok(map["batch" := x, "props" := y, "callback" := Undef])
      else if y.Func? then ArgParser.Ok(map["batch" := Undef, "props" := x, "callback" := y])
      else ArgParser.Err(ArgParser.InvalidArguments)
  {
    var f := DeletePropsFormat;
    DeletePropsOptional();
    var none: seq<Value> := [];
    assert ArgParser.Run(f, none, 3, 1) == ArgParser.Ok(ArgParser.Cursor(map["batch" := Undef], 0, 0, 1));
    assert ArgParser.Run(f, none, 3, 2) == ArgParser.Ok(ArgParser.Cursor(map["batch" := Undef, "props" := Undef], 0, 0, 2));
    var one := [x];
    var two := [x, y];
    if x.BatchV? {
      assert ArgParser.Run(f, one, 3, 1) == ArgParser.Ok(ArgParser.Cursor(map["batch" := x], 1, 1, 0));
      assert ArgParser.Run(f, one, 3, 2) == ArgParser.Ok(ArgParser.Cursor(map["batch" := x, "props" := Undef], 1, 1, 1));
      assert ArgParser.Run(f, two, 3, 1) == ArgParser.Ok(ArgParser.Cursor(map["batch" := x], 1, 1, 0));
      assert ArgParser.Run(f, two, 3, 2) == ArgParser.Ok(ArgParser.Cursor(map["batch" := x, "props" := y], 2, 2, 0));
      assert ArgParser.Run(f, two, 3, 3) ==
        ArgParser.Ok(ArgParser.Cursor(map["batch" := x, "props" := y, "callback" := Undef], 2, 2, 1));
    } else {
      assert ArgParser.Run(f, one, 3, 1) == ArgParser.Ok(ArgParser.Cursor(map["batch" := Undef], 0, 0, 1));
      assert ArgParser.Run(f, one, 3, 2) == ArgParser.Ok(ArgParser.Cursor(map["batch" := Undef, "props" := x], 1, 1, 1));
      assert ArgParser.Run(f, two, 3, 1) == ArgParser.Ok(ArgParser.Cursor(map["batch" := Undef], 0, 0, 1));
      assert ArgParser.Run(f, two, 3, 2) == ArgParser.Ok(ArgParser.Cursor(map["batch" := Undef, "props" := x], 1, 1, 1));
      if y.Func? {
        assert ArgParser.Run(f, two, 3, 3) ==
          ArgParser.Ok(ArgParser.Cursor(map["batch" := Undef, "props" := x, "callback" := y], 2, 2, 1));
      } else {
        assert ArgParser.Run(f, two, 3, 3) == ArgParser.Err(ArgParser.InvalidArguments);
      }
    }
  }

  /** What autoBatch makes of deleteProperties' call: DELETE with no body
      through the properties factory, so a single property name (or '',
      when none is given) is one request to that property's URL, and an
      array of names is one request per name. */
  lemma DeletePropertiesResolves(endpoints: map<string, Endpoint>, self: Value, args: map<string, Value>,
                                 parse: Value -> Endpoint, i: nat)
    requires self.Entity?
    ensures var props := Lookup(args, "props");
            var names := if props == Undef then Str("") else props;
            var properties := EndpointV(parse(Get(self.raw, "properties")));
            var callback := if Truthy(Lookup(args, "callback")) then Lookup(args, "callback") else Func(NoopFn);
            var r := ArgParser.Resolve(AutoBatch.AutoBatchFormat, DeletePropertiesCall(self, args, parse));
      && r.Ok?
      && Lookup(r.value, "batch") == Lookup(args, "batch") && Lookup(r.value, "method") == Str("DELETE")
      && Lookup(r.value, "callback") == Func(ErrorOnlyFn(callback))
      && AutoBatch.CarriedData(r.value, i) == Null
      && (!props.Arr? ==>
            && AutoBatch.DeriveCount(r.value) == (1, true)
            && AutoBatch.EndpointFor(endpoints, r.value, i) == AutoBatch.AsValue(Neo4jApi.GetEndpoint(endpoints, properties, names)))
      && (props.Arr? ==> AutoBatch.DeriveCount(r.value) == (|props.elems|, false))
      && (props.Arr? && i < |props.elems| && props.elems[i] != Undef && !props.elems[i].Arr? ==>
            AutoBatch.EndpointFor(endpoints, r.value, i) == AutoBatch.AsValue(Neo4jApi.GetEndpoint(endpoints, properties, props.elems[i])))
  {
    var props := Lookup(args, "props");
    var names := if props == Undef then Str("") else props;
    var properties := EndpointV(parse(Get(self.raw, "properties")));
    var callback := ErrorOnlyFn(if Truthy(Lookup(args, "callback")) then Lookup(args, "callback") else Func(NoopFn));
    var call := DeletePropertiesCall(self, args, parse);
    assert call == [Lookup(args, "batch"), Func(EndpointFactoryFn(properties)), names, Str("DELETE"), Null, Func(callback)];
    AutoBatchShapes.ResolveFactoryCall(Lookup(args, "batch"), EndpointFactoryFn(properties), names, "DELETE", Null, callback);
    AutoBatchShapes.FactoryRequests(endpoints, Lookup(args, "batch"), properties, names, "DELETE", Null, callback, i);
  }

  /** replaceAllProperties' call into autoBatch: with a key, the props
      object is the single entry {key: value}. */
  function ReplaceAllPropertiesCall(self: Value, args: map<string, Value>, parse: Value -> Endpoint): (call: seq<Value>)
    requires self.Entity?
    ensures |call| == 5 && call[1] == EndpointV(parse(Get(self.raw, "properties"))) && call[2] == Str("PUT")
    ensures !Truthy(Lookup(args, "key")) ==> call[3] == Lookup(args, "props")
    ensures call[4] == Func(ErrorOnlyFn(Lookup(args, "callback")))
  {
    var props := if Truthy(Lookup(args, "key"))
                 then Obj([(ToJsString(Lookup(args, "key")), Lookup(args, "value"))])
                 else Lookup(args, "props");
    [Lookup(args, "batch"), EndpointV(parse(Get(self.raw, "properties"))), Str("PUT"), props,
     Func(ErrorOnlyFn(Lookup(args, "callback")))]
  }

  /** With a key, the body replaces all properties by that one property. */
  lemma ReplaceWithKey(self: Value, args: map<string, Value>, parse: Value -> Endpoint)
    requires self.Entity? && Truthy(Lookup(args, "key"))
    ensures var body := ReplaceAllPropertiesCall(self, args, parse)[3];
      body.Obj? && |body.props| == 1 &&
      Get(body, ToJsString(Lookup(args, "key"))) == Lookup(args, "value")
  {
  }

  /** What autoBatch makes of replaceAllProperties' call: PUT of the props
      object to the properties URL itself, as one request; an array would
      be one PUT per element, and a function fits no parameter. */
  lemma ReplaceAllPropertiesResolves(endpoints: map<string, Endpoint>, self: Value, args: map<string, Value>,
                                     parse: Value -> Endpoint, i: nat)
    requires self.Entity?
    ensures var call := ReplaceAllPropertiesCall(self, args, parse);
            var body := call[3];
            var r := ArgParser.Resolve(AutoBatch.AutoBatchFormat, call);
      && (r.Err? <==> body.Func?)
      && (r.Ok? ==>
            && Lookup(r.value, "batch") == Lookup(args, "batch") && Lookup(r.value, "method") == Str("PUT")
            && Lookup(r.value, "callback") == Func(ErrorOnlyFn(Lookup(args, "callback")))
            && AutoBatch.EndpointFor(endpoints, r.value, i) == EndpointV(parse(Get(self.raw, "properties")))
            && AutoBatch.DeriveCount(r.value) == (if body.Arr? then (|body.elems|, false) else (1, true)))
      && (r.Ok? && !body.Arr? ==> AutoBatch.CarriedData(r.value, i) == body)
      && (body.Arr? && i < |body.elems| && body.elems[i] != Undef ==> AutoBatch.CarriedData(r.value, i) == body.elems[i])
  {
    var call := ReplaceAllPropertiesCall(self, args, parse);
    var e := parse(Get(self.raw, "properties"));
    var callback := ErrorOnlyFn(Lookup(args, "callback"));
    assert call == [Lookup(args, "batch"), EndpointV(e), Str("PUT"), call[3], Func(callback)];
    AutoBatchShapes.ResolveEndpointCall(Lookup(args, "batch"), e, "PUT", call[3], callback);
    AutoBatchShapes.EndpointRequests(endpoints, Lookup(args, "batch"), e, "PUT", call[3], callback, i);
  }

  /** The properties a `for (i in props)` loop visits, in order, with the
      key as a string: an object's own keys, an array's indices. */
  function Entries(props: Value): (r: seq<(string, Value)>)
    ensures props.Obj? ==> r == props.props
    ensures props.Arr? ==> |r| == |props.elems| && forall i :: 0 <= i < |r| ==> r[i] == (NatToString(i), props.elems[i])
    ensures !props.Obj? && !props.Arr? ==> r == []
  {
    match props
    case Obj(ps) => ps
    case Arr(elems) => seq(|elems|, i requires 0 <= i < |elems| => (NatToString(i), elems[i]))
    case _ => []
  }

  /** `props[i]` read back for the i-th visited key. */
  function ReadEntry(props: Value, i: nat): Value
    requires i < |Entries(props)|
  {
    if props.Obj? then Get(props, props.props[i].0) else Entries(props)[i].1
  }

  /** setProperties (and setProperty, the same function): a props object is
      split into parallel key and value lists, one request per property; a
      single array value is wrapped so that it is sent as one body. */
  method SetPropertiesCall(self: Value, args: map<string, Value>, parse: Value -> Endpoint)
    returns (call: seq<Value>)
    requires self.Entity?
    ensures |call| == 6 && call[1] == PropertiesFactory(self, parse) && call[3] == Str("PUT")
    ensures call[0] == Lookup(args, "batch") && call[5] == Func(ErrorOnlyFn(Lookup(args, "callback")))
    ensures Truthy(Lookup(args, "props")) ==>
      var entries := Entries(Lookup(args, "props"));
      && call[2].Arr? && call[4].Arr?
      && |call[2].elems| == |call[4].elems| == |entries|
      && (forall i :: 0 <= i < |entries| ==> call[2].elems[i] == Str(entries[i].0))
      && (forall i :: 0 <= i < |entries| ==> call[4].elems[i] == ReadEntry(Lookup(args, "props"), i))
    ensures !Truthy(Lookup(args, "props")) ==> call[2] == Lookup(args, "key")
    ensures !Truthy(Lookup(args, "props")) && Lookup(args, "value").Arr? ==> call[4] == Arr([Lookup(args, "value")])
    ensures !Truthy(Lookup(args, "props")) && !Lookup(args, "value").Arr? ==> call[4] == Lookup(args, "value")
  {
    var key := Lookup(args, "key");
    var value := Lookup(args, "value");
    var props := Lookup(args, "props");
    if Truthy(props) {
      var entries := Entries(props);
      var keys: seq<Value> := [];
      var values: seq<Value> := [];
      var i := 0;
      while i < |entries|
        invariant 0 <= i <= |entries| && |keys| == |values| == i
        invariant forall k :: 0 <= k < i ==> keys[k] == Str(entries[k].0)
        invariant forall k :: 0 <= k < i ==> values[k] == ReadEntry(props, k)
      {
        keys := keys + [Str(entries[i].0)];
        values := values + [ReadEntry(props, i)];
        i := i + 1;
      }
      key, value := Arr(keys), Arr(values);
    } else if value.Arr? {
      value := Arr([value]);
    }
    call := [Lookup(args, "batch"), PropertiesFactory(self, parse), key, Str("PUT"), value,
             Func(ErrorOnlyFn(Lookup(args, "callback")))];
  }

  /** What autoBatch makes of the list setProperties builds: PUT through
      the properties factory. Parallel key and value arrays are one request
      per property, to that property's URL with its value; a single key is
      one request, whose wrapped array value is sent whole. */
  lemma SetPropertiesResolves(endpoints: map<string, Endpoint>, self: Value, args: map<string, Value>,
                              parse: Value -> Endpoint, call: seq<Value>, i: nat)
    requires self.Entity?
    requires |call| == 6 && call[1] == PropertiesFactory(self, parse) && call[3] == Str("PUT")
    requires call[0] == Lookup(args, "batch") && call[5] == Func(ErrorOnlyFn(Lookup(args, "callback")))
    ensures var keys := call[2];
            var values := call[4];
            var properties := EndpointV(parse(Get(self.raw, "properties")));
            var r := ArgParser.Resolve(AutoBatch.AutoBatchFormat, call);
      && (r.Err? <==> values.Func?)
      && (r.Ok? ==>
            && Lookup(r.value, "batch") == Lookup(args, "batch") && Lookup(r.value, "method") == Str("PUT")
            && Lookup(r.value, "callback") == Func(ErrorOnlyFn(Lookup(args, "callback"))))
      && (keys.Arr? && values.Arr? ==>
            && AutoBatch.DeriveCount(r.value) == (|values.elems|, false)
            && (i < |keys.elems| && keys.elems[i] != Undef && !keys.elems[i].Arr? ==>
                  AutoBatch.EndpointFor(endpoints, r.value, i) ==
                    AutoBatch.AsValue(Neo4jApi.GetEndpoint(endpoints, properties, keys.elems[i])))
            && (i < |values.elems| && values.elems[i] != Undef ==> AutoBatch.CarriedData(r.value, i) == values.elems[i]))
      && (!keys.Arr? && values.Arr? ==>
            && AutoBatch.DeriveCount(r.value) == (|values.elems|, false)
            && AutoBatch.EndpointFor(endpoints, r.value, i) == AutoBatch.AsValue(Neo4jApi.GetEndpoint(endpoints, properties, keys))
            && (i < |values.elems| && values.elems[i] != Undef ==> AutoBatch.CarriedData(r.value, i) == values.elems[i]))
      && (!keys.Arr? && r.Ok? && !values.Arr? ==>
            && AutoBatch.DeriveCount(r.value) == (1, true)
            && AutoBatch.EndpointFor(endpoints, r.value, i) == AutoBatch.AsValue(Neo4jApi.GetEndpoint(endpoints, properties, keys))
            && AutoBatch.CarriedData(r.value, i) == values)
  {
    var properties := EndpointV(parse(Get(self.raw, "properties")));
    var callback := ErrorOnlyFn(Lookup(args, "callback"));
    assert call == [Lookup(args, "batch"), Func(EndpointFactoryFn(properties)), call[2], Str("PUT"), call[4], Func(callback)];
    AutoBatchShapes.ResolveFactoryCall(Lookup(args, "batch"), EndpointFactoryFn(properties), call[2], "PUT", call[4], callback);
    AutoBatchShapes.FactoryRequests(endpoints, Lookup(args, "batch"), properties, call[2], "PUT", call[4], callback, i);
  }

  /** For an object whose keys are distinct, value i is exactly the value
      stored under key i, so each request sets one property to its value. */
  lemma SplitPairsKeysWithValues(props: Value, i: nat)
    requires props.Obj? && DistinctKeys(props.props) && i < |props.props|
    ensures ReadEntry(props, i) == props.props[i].1
  {
    FindAt(props.props, i);
  }

  /** A wrapped array value is one datas entry: autoBatch derives a count of
      one and the single request carries the whole array. */
  lemma WrappedArraySentWhole(a: map<string, Value>, v: Value)
    requires v.Arr? && Lookup(a, "datas") == Arr([v]) && !Truthy(Lookup(a, "count"))
    ensures AutoBatch.DeriveCount(a) == (1, false)
    ensures AutoBatch.CarriedData(a, 0) == v
  {
  }

  /** `setProperty('b', 'three', callback)` binds key and value and leaves
      batch and props absent. */
  lemma SetPropertyExample()
    ensures ArgParser.Resolve(SetPropsFormat, [Str("b"), Str("three"), Func(UserFn(0))]) ==
      ArgParser.Ok(map["batch" := Undef, "key" := Str("b"), "value" := Str("three"), "props" := Undef,
                       "callback" := Func(UserFn(0))])
  {
    var f := SetPropsFormat;
    var args := [Str("b"), Str("three"), Func(UserFn(0))];
    var items := ArgParser.Normalize(f);
    assert items == f[2 := f[2].(optional := true)][3 := f[3].(optional := true)];
    SetPropsOptional();
    assert ArgParser.Run(items, args, 4, 1) == ArgParser.Ok(ArgParser.Cursor(map["batch" := Undef], 0, 0, 1));
    assert ArgParser.Run(items, args, 4, 2) == ArgParser.Ok(ArgParser.Cursor(map["batch" := Undef, "key" := Str("b")], 1, 1, 1));
    assert ArgParser.Run(items, args, 4, 3) ==
      ArgParser.Ok(ArgParser.Cursor(map["batch" := Undef, "key" := Str("b"), "value" := Str("three")], 2, 2, 1));
    assert ArgParser.Run(items, args, 4, 4) ==
      ArgParser.Ok(ArgParser.Cursor(map["batch" := Undef, "key" := Str("b"), "value" := Str("three"), "props" := Undef], 2, 2, 2));
  }

  /** Four of the five parameters of _setPropsFormat are optional. */
  lemma SetPropsOptional()
    ensures ArgParser.CountOptional(SetPropsFormat) == 4
  {
    var f := SetPropsFormat;
    var counts := [0, 1, 2, 3, 4, 4];
    for k := 1 to 6
      invariant ArgParser.CountOptional(f[..k - 1]) == counts[k - 1]
    {
      assert f[..k][..k - 1] == f[..k - 1];
    }
    assert f[..5] == f;
  }
}
