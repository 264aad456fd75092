// Node operations of lib/Node.js: the callback wrapper that builds nodes
// from a response, creating a relationship in either direction, and the
// type filter of the relationship listings.

module Node {
  import opened Values
  import Paths
  import Neo4jApi
  import AutoBatch
  import Base

  // ------------------------------------------------------ nodeCallback

  /** The function nodeCallback(callback) returns, called with a completion
      (relationshipCallback is the same with relationships). An error is
      passed on alone; an array body becomes a list of entities, one per
      element and in order; any other body becomes one entity. `threw` when
      a constructor throws, which leaves the callback uncalled. */
  method EntityCallback(kind: Kind, callback: Value, c: Neo4jApi.Completion)
    returns (threw: bool, inv: Neo4jApi.Invocation)
    ensures c.Failed? ==> !threw && inv == Neo4jApi.Invocation(callback, Some(c.error), None)
    ensures c.Succeeded? && c.body.Arr? ==>
      (threw <==> exists i :: 0 <= i < |c.body.elems| && Base.NewEntity(kind, c.body.elems[i]).None?)
    ensures c.Succeeded? && c.body.Arr? && !threw ==>
      && inv.callee == callback && inv.error.None? && inv.result.Some? && inv.result.value.Arr?
      && |inv.result.value.elems| == |c.body.elems|
      && forall i :: 0 <= i < |c.body.elems| ==> Base.NewEntity(kind, c.body.elems[i]) == Some(inv.result.value.elems[i])
    ensures c.Succeeded? && !c.body.Arr? ==> (threw <==> Base.NewEntity(kind, c.body).None?)
    ensures c.Succeeded? && !c.body.Arr? && !threw ==>
      inv == Neo4jApi.Invocation(callback, None, Base.NewEntity(kind, c.body))
  {
    if c.Failed? {
      return false, Neo4jApi.Invocation(callback, Some(c.error), None);
    }
    var obj := c.body;
    if obj.Arr? {
      var nodes;
      threw, nodes := BuildEntities(v => Base.NewEntity(kind, v), obj.elems);
      return threw, Neo4jApi.Invocation(callback, None, if threw then None else Some(Arr(nodes)));
    }
    var node := Base.NewEntity(kind, obj);
    if node.None? {
      return true, Neo4jApi.Invocation(callback, None, None);
    }
    return false, Neo4jApi.Invocation(callback, None, node);
  }

  /** The loop over an array body: one entity per element, in order;
      `threw` at the first element that cannot be built. */
  method BuildEntities(build: Value -> Option<Value>, elems: seq<Value>) returns (threw: bool, entities: seq<Value>)
    ensures threw <==> exists i :: 0 <= i < |elems| && build(elems[i]).None?
    ensures !threw ==> |entities| == |elems|
    ensures !threw ==> forall i :: 0 <= i < |elems| ==> build(elems[i]) == Some(entities[i])
  {
    entities := [];
    var i := 0;
    while i < |elems|
      invariant 0 <= i <= |elems| && |entities| == i
      invariant forall k :: 0 <= k < i ==> build(elems[k]) == Some(entities[k])
    {
      var entity := build(elems[i]);
      if entity.None? {
        return true, entities;
      }
      entities := entities + [entity.value];
      i := i + 1;
    }
    threw := false;
  }

  /** A list of node representations at `prefix + id` comes back as nodes
      carrying those ids in the same order. */
  lemma ListedNodesKeepIds(body: seq<Value>, prefix: string, ids: seq<string>, i: nat)
    requires |body| == |ids| && i < |body|
    requires prefix == [] || !Paths.IsDigit(prefix[|prefix| - 1])
    requires |ids[i]| > 0 && Paths.AllDigits(ids[i]) && Get(body[i], "self") == Str(prefix + ids[i])
    ensures Base.NewEntity(NodeKind, body[i]).Some?
    ensures Base.ValueOf(Base.NewEntity(NodeKind, body[i]).value) == ids[i]
  {
    Base.NodeOfSelfUrl(body[i], prefix, ids[i]);
  }

  // ------------------------------------------------- createRelationship

  predicate OccursAt(s: string, pat: string, j: nat)
  {
    j + |pat| <= |s| && s[j..j + |pat|] == pat
  }

  /** The first index at or after k where `pat` occurs in s, or -1. */
  function IndexFrom(s: string, pat: string, k: nat): (r: int)
    ensures r == -1 || (k <= r && OccursAt(s, pat, r))
    ensures r >= 0 ==> forall j :: k <= j < r ==> !OccursAt(s, pat, j)
    ensures r == -1 ==> forall j :: k <= j ==> !OccursAt(s, pat, j)
    decreases |s| - k
  {
    if k + |pat| > |s| then -1
    else if s[k..k + |pat|] == pat then k
    else IndexFrom(s, pat, k + 1)
  }

  /** String.prototype.replace with a string pattern: the first occurrence
      only. The replacement is inserted as it is; the `$&`, `$$` and similar
      patterns that JavaScript expands in it are not interpreted. */
  function ReplaceFirst(s: string, pat: string, rep: string): string
  {
    var i := IndexFrom(s, pat, 0);
    if i < 0 then s else s[..i] + rep + s[i + |pat|..]
  }

  /** Where the pattern first occurs right after p, that occurrence is the
      one replaced. */
  lemma ReplaceFirstAt(p: string, pat: string, q: string, rep: string)
    requires forall j :: 0 <= j < |p| ==> !OccursAt(p + pat + q, pat, j)
    ensures ReplaceFirst(p + pat + q, pat, rep) == p + rep + q
  {
    var s := p + pat + q;
    assert s[|p|..|p| + |pat|] == pat;
    assert OccursAt(s, pat, |p|);
    var i := IndexFrom(s, pat, 0);
    assert i == |p|;
    assert s[..i] == p && s[i + |pat|..] == q;
  }

  /** The body of a new relationship: its type, the URL of the node it goes
      to (that node's `self`, or the 'node' endpoint joined with the id), and
      the data when truthy. None where getEndpoint has no endpoint to give
      and reading its href throws. */
  function RelationshipBody(endpoints: map<string, Endpoint>, to: Value, typ: Value, data: Value): (body: Option<Value>)
    ensures InstanceOf(to, NodeCtor) ==> body.Some?
    ensures !InstanceOf(to, NodeCtor) ==> (body.Some? <==> Neo4jApi.GetEndpoint(endpoints, Str("node"), to).Some?)
    ensures body.Some? ==> body.value.Obj? && Get(body.value, "type") == typ
    ensures body.Some? && InstanceOf(to, NodeCtor) ==> Get(body.value, "to") == Get(to.raw, "self")
    ensures body.Some? && !InstanceOf(to, NodeCtor) ==>
      Get(body.value, "to") == Str(Neo4jApi.GetEndpoint(endpoints, Str("node"), to).value.href)
    ensures body.Some? ==> Get(body.value, "data") == if Truthy(data) then data else Undef
  {
    var target := if InstanceOf(to, NodeCtor) then Some(Get(to.raw, "self"))
                  else
                    var e := Neo4jApi.GetEndpoint(endpoints, Str("node"), to);
                    if e.Some? then Some(Str(e.value.href)) else None;
    if target.None? then None
    else
      var props := [("type", typ), ("to", target.value)] + (if Truthy(data) then [("data", data)] else []);
      FindAt(props, 0);
      FindAt(props, 1);
      if Truthy(data) then FindAt(props, 2); Some(Obj(props))
      else FindMissing(props, "data"); Some(Obj(props))
  }

  /** Given an id rather than a node, the relationship points at the node
      endpoint's URL with the id joined on. */
  lemma BodyToById(endpoints: map<string, Endpoint>, id: Value, typ: Value, data: Value)
    requires "node" in endpoints && id != Undef && !InstanceOf(id, NodeCtor)
    ensures var node := endpoints["node"];
      var path := Paths.PathJoin(node.pathname, ToJsString(id));
      RelationshipBody(endpoints, id, typ, data).Some? &&
      Get(RelationshipBody(endpoints, id, typ, data).value, "to") ==
        Str(Part(node.protocol) + "//" + Part(node.hostname) + ":" + Part(node.port) + path)
  {
  }

  /** The URL relationships are created at: the from-node's own, or, when
      `from` is only an id, the to-node's with its id segment replaced by
      `from`. None where a missing URL is read (the to-value is no node, or
      its representation has no such URL). */
  function CreateUrl(from: Value, to: Value, parse: Value -> Endpoint): (e: Option<Endpoint>)
    ensures InstanceOf(from, NodeCtor) ==> e == Some(parse(Get(from.raw, "create_relationship")))
  {
    if InstanceOf(from, NodeCtor) then Some(parse(Get(from.raw, "create_relationship")))
    else if !to.Entity? then None
    else
      var url := Get(to.raw, "create_relationship");
      if url.Str? then Some(parse(Str(ReplaceFirst(url.s, "/" + to.id + "/", "/" + ToJsString(from) + "/"))))
      else None
  }

  /** Creating from an id onto a node: the node's create URL with its own id
      segment swapped for the other id. */
  lemma CreateUrlFromId(from: Value, to: Value, parse: Value -> Endpoint, p: string, q: string)
    requires !InstanceOf(from, NodeCtor) && to.Entity?
    requires Get(to.raw, "create_relationship") == Str(p + ("/" + to.id + "/") + q)
    requires forall j :: 0 <= j < |p| ==> !OccursAt(p + ("/" + to.id + "/") + q, "/" + to.id + "/", j)
    ensures CreateUrl(from, to, parse) == Some(parse(Str(p + ("/" + ToJsString(from) + "/") + q)))
  {
    ReplaceFirstAt(p, "/" + to.id + "/", q, "/" + ToJsString(from) + "/");
  }

  /** The request createRelationship makes, or None where it throws before
      making one. */
  function RelationshipRequest(endpoints: map<string, Endpoint>, from: Value, to: Value, typ: Value, data: Value,
                               callback: Value, parse: Value -> Endpoint): Option<Neo4jApi.Request>
  {
    var body := RelationshipBody(endpoints, to, typ, data);
    var url := CreateUrl(from, to, parse);
    if body.None? || url.None? then None
    else Some(Neo4jApi.Request(Some(url.value), "POST", body.value,
                               Neo4jApi.Caller(Func(RelationshipCallbackFn(callback)))))
  }

  /** createRelationship: one POST of the body to the create URL, queued on
      the batch or sent at once. */
  method CreateRelationship(conn: Neo4jApi.Connection, batch: Neo4jApi.Batch?, from: Value, to: Value, typ: Value,
                            data: Value, callback: Value, parse: Value -> Endpoint)
    returns (req: Option<Neo4jApi.Request>, threw: bool)
    modifies conn`wire, batch
    ensures req == RelationshipRequest(conn.endpoints, from, to, typ, data, callback, parse)
    ensures threw <==> req.None?
    ensures req.None? ==> conn.wire == old(conn.wire) && (batch != null ==> batch.requests == old(batch.requests))
    ensures req.Some? && batch != null ==> batch.requests == old(batch.requests) + [req.value] && conn.wire == old(conn.wire)
    ensures req.Some? && batch == null ==> conn.wire == old(conn.wire) + [req.value]
  {
    var body := RelationshipBody(conn.endpoints, to, typ, data);
    if body.None? {
      return None, true;
    }
    var url := CreateUrl(from, to, parse);
    if url.None? {
      return None, true;
    }
    var r;
    r, threw := conn.NewRequest(batch, EndpointV(url.value), "POST", body.value,
                                Neo4jApi.Caller(Func(RelationshipCallbackFn(callback))));
    req := Some(r);
  }

  /** node.createRelationshipTo(other): from this node to the other. */
  method CreateRelationshipTo(conn: Neo4jApi.Connection, batch: Neo4jApi.Batch?, self: Value, other: Value, typ: Value,
                              data: Value, callback: Value, parse: Value -> Endpoint)
    returns (req: Option<Neo4jApi.Request>, threw: bool)
    modifies conn`wire, batch
    ensures req == RelationshipRequest(conn.endpoints, self, other, typ, data, callback, parse)
    ensures threw <==> req.None?
    ensures req.None? ==> conn.wire == old(conn.wire) && (batch != null ==> batch.requests == old(batch.requests))
    ensures req.Some? && batch != null ==> batch.requests == old(batch.requests) + [req.value] && conn.wire == old(conn.wire)
    ensures req.Some? && batch == null ==> conn.wire == old(conn.wire) + [req.value]
  {
    req, threw := CreateRelationship(conn, batch, self, other, typ, data, callback, parse);
  }

  /** node.createRelationshipFrom(other): from the other to this node. */
  method CreateRelationshipFrom(conn: Neo4jApi.Connection, batch: Neo4jApi.Batch?, self: Value, other: Value, typ: Value,
                                data: Value, callback: Value, parse: Value -> Endpoint)
    returns (req: Option<Neo4jApi.Request>, threw: bool)
    modifies conn`wire, batch
    ensures req == RelationshipRequest(conn.endpoints, other, self, typ, data, callback, parse)
    ensures threw <==> req.None?
    ensures req.None? ==> conn.wire == old(conn.wire) && (batch != null ==> batch.requests == old(batch.requests))
    ensures req.Some? && batch != null ==> batch.requests == old(batch.requests) + [req.value] && conn.wire == old(conn.wire)
    ensures req.Some? && batch == null ==> conn.wire == old(conn.wire) + [req.value]
  {
    req, threw := CreateRelationship(conn, batch, other, self, typ, data, callback, parse);
  }

  /** Between two nodes the direction is the argument order: the request is
      posted to the from-node's create URL and names the to-node's `self`,
      so a.createRelationshipTo(b) and b.createRelationshipFrom(a) make the
      same request. */
  lemma DirectionBetweenNodes(endpoints: map<string, Endpoint>, from: Value, to: Value, typ: Value, data: Value,
                              callback: Value, parse: Value -> Endpoint)
    requires InstanceOf(from, NodeCtor) && InstanceOf(to, NodeCtor)
    ensures var r := RelationshipRequest(endpoints, from, to, typ, data, callback, parse);
      && r.Some?
      && r.value.endpoint == Some(parse(Get(from.raw, "create_relationship")))
      && Get(r.value.data, "to") == Get(to.raw, "self")
      && r.value.verb == "POST"
  {
  }

  // -------------------------------------------------- getRelationships

  /** `types.join('&')`: each element through ElementString, so a Node in
      the list is written "[object Object]", not its id. */
  function JoinTypes(types: seq<Value>): string
  {
    JoinStrings(seq(|types|, i requires 0 <= i < |types| => ElementString(types[i])), "&")
  }

  /** The listing endpoint: joined with the one type, or with the types
      joined by '&', or left unchanged. None where `join` is read on a
      value that is not an array. */
  function RelationshipsEndpoint(endpoints: map<string, Endpoint>, endpoint: Value, typ: Value, types: Value)
    : (r: Option<Value>)
    ensures !Truthy(typ) && !Truthy(types) ==> r == Some(endpoint)
    ensures Truthy(typ) ==> r == Some(AutoBatch.AsValue(Neo4jApi.GetEndpoint(endpoints, endpoint, typ)))
    ensures !Truthy(typ) && types.Arr? ==>
      r == Some(AutoBatch.AsValue(Neo4jApi.GetEndpoint(endpoints, endpoint, Str(JoinTypes(types.elems)))))
  {
    if Truthy(typ) then Some(AutoBatch.AsValue(Neo4jApi.GetEndpoint(endpoints, endpoint, typ)))
    else if Truthy(types) then
      if types.Arr? then Some(AutoBatch.AsValue(Neo4jApi.GetEndpoint(endpoints, endpoint, Str(JoinTypes(types.elems)))))
      else None
    else Some(endpoint)
  }

  /** Two types filter on `a&b` under the listing's path. */
  lemma TwoTypesJoined(endpoints: map<string, Endpoint>, e: Endpoint, a: string, b: string)
    requires a != "" && b != ""
    ensures var r := RelationshipsEndpoint(endpoints, EndpointV(e), Undef, Arr([Str(a), Str(b)]));
      r.Some? && r.value.EndpointV? && r.value.endpoint.path == Paths.PathJoin(e.pathname, a + "&" + b)
  {
    var types := [Str(a), Str(b)];
    var parts := seq(|types|, i requires 0 <= i < |types| => ElementString(types[i]));
    assert ElementString(Str(a)) == a && ElementString(Str(b)) == b;
    assert parts == [a, b];
    assert [a, b][1..] == [b];
    assert JoinStrings(parts, "&") == a + "&" + b;
  }

  /** getRelationships: one GET of the listing endpoint. */
  method GetRelationships(conn: Neo4jApi.Connection, batch: Neo4jApi.Batch?, endpoint: Value, typ: Value, types: Value,
                          callback: Value)
    returns (req: Option<Neo4jApi.Request>, threw: bool)
    modifies conn`wire, batch
    ensures var target := RelationshipsEndpoint(conn.endpoints, endpoint, typ, types);
      && (target.None? ==> threw && req.None? && conn.wire == old(conn.wire) &&
                           (batch != null ==> batch.requests == old(batch.requests)))
      && (target.Some? ==> req == Some(Neo4jApi.Request(Neo4jApi.Target(conn.endpoints, target.value), "GET", Null,
                                                       Neo4jApi.Caller(Func(RelationshipCallbackFn(callback))))))
    ensures req.Some? && batch != null ==> !threw && batch.requests == old(batch.requests) + [req.value] && conn.wire == old(conn.wire)
    ensures req.Some? && batch == null ==> (threw <==> req.value.endpoint.None?)
    ensures req.Some? && batch == null ==> conn.wire == if threw then old(conn.wire) else old(conn.wire) + [req.value]
  {
    var target := RelationshipsEndpoint(conn.endpoints, endpoint, typ, types);
    if target.None? {
      return None, true;
    }
    var r;
    r, threw := conn.NewRequest(batch, target.value, "GET", Null, Neo4jApi.Caller(Func(RelationshipCallbackFn(callback))));
    req := Some(r);
  }
}
