// The REST layer of lib/Neo4jApi.js: the endpoint registry filled from the
// service-root document, request creation, batching and the way replies are
// turned into callback invocations.
//
// The transport is not modelled: a request handed to it is appended to the
// connection's `wire`, and what came back is an explicit HttpOutcome (or, for
// a batch, the Completion of the batch POST) given to the completion code.

module Neo4jApi {

  import opened Values
  import Paths

  // ---------------------------------------------------------------- errors

  /** The error values handed to callbacks. */
  datatype Error =
    | TransportError(cause: string)   // the 'error' event of the HTTP request
    | DecodeError(cause: string)      // JSON.parse rejected the body
    | ApiError(code: Value, message: Value, exception: Value, fullname: Value, innerError: Value)
    | BatchError(code: Value, message: Value, exception: Value, innerError: Value)

  /** `callback(error)` or `callback(null, obj)`. */
  datatype Completion = Failed(error: Error) | Succeeded(body: Value)

  /** What the response chunks made: none at all, a parsed JSON value, or text
      JSON.parse throws on. */
  datatype Body = NoData | Json(value: Value) | Malformed(reason: string)

  datatype HttpOutcome = TransportFailure(cause: string) | Response(status: int, body: Body)

  const UnspecifiedApiError := "Unspecified neo4j API Error."
  const UnknownBatchError := "Unknown neo4j REST API Error"

  /** Request.createCallback, together with the request's 'error' listener. */
  function Classify(h: HttpOutcome): (c: Completion)
    ensures c.Succeeded? <==> h.Response? && !h.body.Malformed? && h.status <= 204
    ensures c.Succeeded? ==> c.body == (if h.body.Json? then h.body.value else Null)
    ensures h.TransportFailure? ==> c == Failed(TransportError(h.cause))
    ensures h.Response? && h.body.Malformed? ==> c == Failed(DecodeError(h.body.reason))
    ensures c.Failed? && c.error.ApiError? <==> h.Response? && !h.body.Malformed? && h.status > 204
    ensures c.Failed? && c.error.ApiError? ==>
      c.error.code == Num(h.status) &&
      (if h.body.Json? && Truthy(h.body.value)
       then (c.error.innerError == h.body.value && c.error.message == Get(h.body.value, "message") &&
             c.error.exception == Get(h.body.value, "exception") && c.error.fullname == Get(h.body.value, "fullname"))
       else (c.error.innerError == Undef && c.error.message == Str(UnspecifiedApiError) &&
             c.error.exception == Undef && c.error.fullname == Undef))
  {
    match h
    case TransportFailure(cause) => Failed(TransportError(cause))
    case Response(status, body) =>
      if body.Malformed? then Failed(DecodeError(body.reason))
      else
        var obj := if body.Json? then body.value else Null;
        if status <= 204 then Succeeded(obj)
        else if Truthy(obj) then
          Failed(ApiError(Num(status), Get(obj, "message"), Get(obj, "exception"), Get(obj, "fullname"), obj))
        else Failed(ApiError(Num(status), Str(UnspecifiedApiError), Undef, Undef, Undef))
  }

  /** A reply is an error for the client exactly when its status is above 204,
      whatever the body says. */
  lemma StatusDecides(status: int, body: Body)
    requires !body.Malformed?
    ensures Classify(Response(status, body)).Failed? <==> status > 204
  {
  }

  // -------------------------------------------------------------- requests

  /** Who is called back when a request completes. */
  datatype Callback =
    | Caller(fn: Value)                 // the function passed to `new Request`
    | BatchHandler(errorCallback: Value) // the completion of a batch POST
    | DiscoveryHandler(callback: Value)  // the completion of reconnect's GET

  /** A Request object; its endpoint was resolved when it was created. */
  datatype Request = Request(endpoint: Option<Endpoint>, verb: string, data: Value, callback: Callback)

  /** The endpoint a request or getEndpoint means: a string names a registry
      entry, an endpoint object is itself; anything else is no endpoint. */
  function Target(endpoints: map<string, Endpoint>, endpoint: Value): (r: Option<Endpoint>)
    ensures endpoint.Str? ==> (r.Some? <==> endpoint.s in endpoints)
    ensures endpoint.Str? && r.Some? ==> r.value == endpoints[endpoint.s]
    ensures endpoint.EndpointV? ==> r == Some(endpoint.endpoint)
    ensures !endpoint.Str? && !endpoint.EndpointV? ==> r.None?
  {
    match endpoint
    case Str(name) => if name in endpoints then Some(endpoints[name]) else None
    case EndpointV(e) => Some(e)
    case _ => None
  }

  /** `s.substr(n)`. */
  function Drop(s: string, n: nat): (r: string)
    ensures |r| == if n <= |s| then |s| - n else 0
    ensures n <= |s| ==> s == s[..n] + r
  {
    if n <= |s| then s[n..] else ""
  }

  /** The entry runBatch writes for the i-th request, read field by field. */
  ghost predicate PackedEntry(entry: Value, i: nat, req: Request, basePath: string)
  {
    req.endpoint.Some? &&
    Get(entry, "id") == Num(i) &&
    Get(entry, "method") == Str(req.verb) &&
    Get(entry, "to") == Str(Drop(req.endpoint.value.path, |basePath|)) &&
    Get(entry, "body") == (if req.data == Null then Undef else req.data)
  }

  ghost predicate PacksAs(requests: seq<Request>, basePath: string, entries: seq<Value>)
  {
    |entries| == |requests| &&
    forall k :: 0 <= k < |requests| ==> PackedEntry(entries[k], k, requests[k], basePath)
  }

  /** The packing loop of runBatch: one entry per request, numbered by
      position, with the request's path made relative to the service root.
      A request without an endpoint makes the loop throw. */
  method PackBatch(requests: seq<Request>, basePath: string) returns (entries: Option<seq<Value>>)
    ensures entries.None? <==> exists k :: 0 <= k < |requests| && requests[k].endpoint.None?
    ensures entries.Some? ==> PacksAs(requests, basePath, entries.value)
  {
    var packed: seq<Value> := [];
    var i := 0;
    while i < |requests|
      invariant 0 <= i <= |requests|
      invariant |packed| == i
      invariant forall k :: 0 <= k < i ==> PackedEntry(packed[k], k, requests[k], basePath)
    {
      var req := requests[i];
      if req.endpoint.None? {
        return None;
      }
      var props := [("id", Num(i)), ("method", Str(req.verb)),
                    ("to", Str(Drop(req.endpoint.value.path, |basePath|))),
                    ("body", if req.data == Null then Undef else req.data)];
      FindAt(props, 0);
      FindAt(props, 1);
      FindAt(props, 2);
      FindAt(props, 3);
      var entry := Obj(props);
      packed := packed + [entry];
      i := i + 1;
    }
    return Some(packed);
  }

  /** Under a connection whose paths all live below the service root, an
      entry's `to` is exactly what follows the root. */
  lemma PackedPathIsRelative(entry: Value, i: nat, req: Request, basePath: string)
    requires PackedEntry(entry, i, req, basePath)
    requires basePath <= req.endpoint.value.path
    ensures basePath + Get(entry, "to").s == req.endpoint.value.path
  {
    var path := req.endpoint.value.path;
    assert path == path[..|basePath|] + Drop(path, |basePath|);
  }

  /** The request that carries a whole batch. */
  ghost predicate IsBatchPost(post: Request, requests: seq<Request>, basePath: string,
                              batchEndpoint: Endpoint, errorCallback: Value)
  {
    post.endpoint == Some(batchEndpoint) && post.verb == "POST" &&
    post.callback == BatchHandler(errorCallback) &&
    post.data.Arr? && PacksAs(requests, basePath, post.data.elems)
  }

  /** What running a batch of `requests` does to the transport log, from
      `before` to `after`: nothing for an empty batch; the one request itself
      for a single one (the `batch` endpoint is not used); otherwise exactly
      one POST to the `batch` endpoint carrying the packed requests. A request
      without an endpoint, or a missing `batch` endpoint, throws before
      anything is sent. */
  ghost predicate RanBatch(requests: seq<Request>, endpoints: map<string, Endpoint>, basePath: string,
                           errorCallback: Value, before: seq<Request>, after: seq<Request>, threw: bool)
  {
    && (|requests| == 0 ==> !threw && after == before)
    && (|requests| == 1 ==> (threw <==> requests[0].endpoint.None?))
    && (|requests| == 1 ==> after == if threw then before else before + requests)
    && (|requests| >= 2 ==>
          (threw <==> (exists k :: 0 <= k < |requests| && requests[k].endpoint.None?) || "batch" !in endpoints))
    && (|requests| >= 2 && threw ==> after == before)
    && (|requests| >= 2 && !threw ==>
          |after| == |before| + 1 && after[..|before|] == before &&
          IsBatchPost(after[|before|], requests, basePath, endpoints["batch"], errorCallback))
  }

  /** One invocation of a caller's function: `callback(error)`,
      `callback(null, result)`, or `callback(null)`. */
  datatype Invocation = Invocation(callee: Value, error: Option<Error>, result: Option<Value>)

  // ------------------------------------------------ completing a batch POST

  /** Who a batch completion calls. */
  datatype Recipient = ErrorCallback | RequestCallback(index: nat)
  datatype Call = Call(recipient: Recipient, arg: Completion)

  /** `status && status > 204`. */
  predicate Above204(status: Value)
  {
    status.Num? && status.n > 204
  }

  /** The message `new Error(v)` carries. */
  function ErrorMessage(v: Value): (m: string)
    ensures v.Str? ==> m == v.s
    ensures v.Undef? ==> m == ""
  {
    if v.Undef? then "" else ToJsString(v)
  }

  /** The error runBatch makes out of the last entry of a failed batch. */
  function EntryError(last: Value): (e: Error)
    ensures e.BatchError? && e.code == Get(last, "status") && e.innerError == Get(last, "body")
    ensures !Truthy(Get(last, "body")) ==> e.message == Str(UnknownBatchError) && e.exception == Undef
    ensures Truthy(Get(last, "body")) ==>
      e.message == Str(ErrorMessage(Get(Get(last, "body"), "message"))) &&
      e.exception == Get(Get(last, "body"), "exception")
  {
    var body := Get(last, "body");
    if Truthy(body) then BatchError(Get(last, "status"), Str(ErrorMessage(Get(body, "message"))), Get(body, "exception"), body)
    else BatchError(Get(last, "status"), Str(UnknownBatchError), Undef, body)
  }

  /** runBatch's test for a failed batch of n requests whose reply is a
      non-empty array: too few entries, or a last entry above 204. The
      entries before the last are not looked at. */
  predicate EntriesFail(n: nat, entries: seq<Value>)
    requires |entries| > 0
  {
    |entries| < n || Above204(Get(entries[|entries| - 1], "status"))
  }

  /** How a batch error reaches the requests: once to the batch's error
      callback if it has one, otherwise once to every request. */
  ghost predicate FannedOut(calls: seq<Call>, e: Error, n: nat, errorCallback: Value)
  {
    if Truthy(errorCallback) then calls == [Call(ErrorCallback, Failed(e))]
    else |calls| == n && forall i :: 0 <= i < n ==> calls[i] == Call(RequestCallback(i), Failed(e))
  }

  /** An entry id that names one of n requests. */
  predicate ValidId(id: Value, n: nat)
  {
    id.Num? && 0 <= id.n < n
  }

  /** `obj.length` and `obj[i]` on a batch reply as JavaScript reads them:
      an array's entries, or a string's characters. Any other value has no
      length (null and undefined throw on reading it, and every other value
      then throws on `obj[NaN].status`). */
  function ReplyEntries(body: Value): (r: Option<seq<Value>>)
    ensures r.Some? <==> body.Arr? || body.Str?
    ensures body.Arr? ==> r == Some(body.elems)
    ensures body.Str? ==> |r.value| == |body.s| && forall i :: 0 <= i < |body.s| ==> r.value[i] == Str([body.s[i]])
  {
    match body
    case Arr(elems) => Some(elems)
    case Str(s) => Some(seq(|s|, i requires 0 <= i < |s| => Str([s[i]])))
    case _ => None
  }

  /** A reply runBatch cannot read without a TypeError before calling anyone:
      one without a length, an empty one (`obj[-1]` is undefined), or one
      whose last entry is null or undefined (read for `.status` or, when
      the reply is short, for `.body`). */
  predicate Unreadable(body: Value)
  {
    var entries := ReplyEntries(body);
    entries.None? || entries.value == [] ||
    entries.value[|entries.value| - 1].Null? || entries.value[|entries.value| - 1].Undef?
  }

  /** The completion of a batch POST of `requests`. `threw` reports the
      TypeError the source raises on a reply it cannot read: an Unreadable
      one, which throws before anything is called, or one whose entry id
      names no request, which throws at that entry after the calls made
      before it. */
  method DeliverBatch(requests: seq<Request>, errorCallback: Value, reply: Completion)
    returns (calls: seq<Call>, threw: bool)
    ensures reply.Failed? ==> !threw && FannedOut(calls, reply.error, |requests|, errorCallback)
    ensures reply.Succeeded? && Unreadable(reply.body) ==> threw && calls == []
    ensures reply.Succeeded? && !Unreadable(reply.body) &&
            EntriesFail(|requests|, ReplyEntries(reply.body).value) ==>
              var entries := ReplyEntries(reply.body).value;
              !threw && FannedOut(calls, EntryError(entries[|entries| - 1]), |requests|, errorCallback)
    ensures reply.Succeeded? && !Unreadable(reply.body) &&
            !EntriesFail(|requests|, ReplyEntries(reply.body).value) ==>
              var entries := ReplyEntries(reply.body).value;
              |calls| <= |requests| &&
              (threw <==> exists i :: 0 <= i < |requests| && !ValidId(Get(entries[i], "id"), |requests|)) &&
              (threw ==> |calls| < |requests| && !ValidId(Get(entries[|calls|], "id"), |requests|)) &&
              (!threw ==> |calls| == |requests|) &&
              forall i :: 0 <= i < |calls| ==>
                ValidId(Get(entries[i], "id"), |requests|) &&
                calls[i] == Call(RequestCallback(Get(entries[i], "id").n), Succeeded(Get(entries[i], "body")))
  {
    var n := |requests|;
    var error: Error;
    if reply.Failed? {
      error := reply.error;
    } else if Unreadable(reply.body) {
      return [], true;
    } else if EntriesFail(n, ReplyEntries(reply.body).value) {
      var entries := ReplyEntries(reply.body).value;
      error := EntryError(entries[|entries| - 1]);
    } else {
      var entries := ReplyEntries(reply.body).value;
      calls := [];
      var i := 0;
      while i < n
        invariant 0 <= i <= n && |calls| == i
        invariant forall k :: 0 <= k < i ==>
          ValidId(Get(entries[k], "id"), n) &&
          calls[k] == Call(RequestCallback(Get(entries[k], "id").n), Succeeded(Get(entries[k], "body")))
      {
        var id := Get(entries[i], "id");
        if !ValidId(id, n) {
          return calls, true;
        }
        calls := calls + [Call(RequestCallback(id.n), Succeeded(Get(entries[i], "body")))];
        i := i + 1;
      }
      return calls, false;
    }
    if Truthy(errorCallback) {
      return [Call(ErrorCallback, Failed(error))], false;
    }
    calls := [];
    var i := 0;
    while i < n
      invariant 0 <= i <= n && |calls| == i
      invariant forall k :: 0 <= k < i ==> calls[k] == Call(RequestCallback(k), Failed(error))
    {
      calls := calls + [Call(RequestCallback(i), Failed(error))];
      i := i + 1;
    }
    return calls, false;
  }

  /** A reply whose last entry is null throws before any request is called
      back, whether or not it is short. */
  lemma NullLastEntryThrows(first: Value)
    ensures Unreadable(Arr([first, Null]))
    ensures Unreadable(Arr([Null]))
  {
  }

  /** A JSON string shorter than the queue is a failed batch: every request
      receives the unknown-error message with an undefined code. */
  lemma ShortStringReplyFails(s: string, n: nat)
    requires 0 < |s| < n
    ensures !Unreadable(Str(s)) && EntriesFail(n, ReplyEntries(Str(s)).value)
    ensures var entries := ReplyEntries(Str(s)).value;
      EntryError(entries[|entries| - 1]) == BatchError(Undef, Str(UnknownBatchError), Undef, Undef)
  {
  }

  /** Only the last entry's status decides a batch: a failure reported by an
      earlier entry goes unnoticed and that entry's body is delivered as a
      success. */
  lemma EarlierEntriesNotInspected(n: nat, entries: seq<Value>, k: nat, other: Value)
    requires k < |entries| - 1
    ensures EntriesFail(n, entries[k := other]) == EntriesFail(n, entries)
  {
  }

  /** The two-request reply whose first entry failed with status 500 and whose
      second succeeded counts as a successful batch. */
  lemma MiddleFailureExample()
    ensures !EntriesFail(2, [Obj([("id", Num(0)), ("status", Num(500))]),
                             Obj([("id", Num(1)), ("status", Num(200))])])
  {
  }

  function Ids(entries: seq<Value>): seq<Value>
  {
    seq(|entries|, i requires 0 <= i < |entries| => Get(entries[i], "id"))
  }

  predicate DistinctIds(ids: seq<Value>)
  {
    forall i, j :: 0 <= i < j < |ids| ==> ids[i] != ids[j]
  }

  /** Some entry among the first n carries the id of request j. */
  predicate Answered(entries: seq<Value>, n: nat, j: int)
    requires n <= |entries|
  {
    exists i :: 0 <= i < n && Ids(entries)[i] == Num(j)
  }

  /** When the first n entries carry n distinct valid ids, every request is
      called back exactly once, by the entry carrying its id. */
  lemma {:induction false} EveryRequestAnsweredOnce(entries: seq<Value>, n: nat)
    requires n <= |entries|
    requires forall i :: 0 <= i < n ==> ValidId(Ids(entries)[i], n)
    requires DistinctIds(Ids(entries)[..n])
    ensures forall j :: 0 <= j < n ==> Answered(entries, n, j)
    ensures forall i, i' :: 0 <= i < n && 0 <= i' < n && i != i' ==> Ids(entries)[i] != Ids(entries)[i']
  {
    var ids := Ids(entries)[..n];
    var ns := seq(n, i requires 0 <= i < n => ids[i].n);
    forall j: int | 0 <= j < n
      ensures Answered(entries, n, j)
    {
      if !(exists i :: 0 <= i < n && ns[i] == j) {
        var squeezed := seq(n, i requires 0 <= i < n => if ns[i] > j then ns[i] - 1 else ns[i]);
        forall a, b | 0 <= a < b < n ensures squeezed[a] != squeezed[b] {
          assert ids[a] != ids[b];
        }
        DistinctBound(squeezed, n - 1);
        assert false;
      }
      var i :| 0 <= i < n && ns[i] == j;
      assert ids[i] == Ids(entries)[i] && ids[i].Num?;
      assert Ids(entries)[i] == Num(j);
    }
    forall i, i' | 0 <= i < n && 0 <= i' < n && i != i'
      ensures Ids(entries)[i] != Ids(entries)[i']
    {
      assert ids[i] == Ids(entries)[i] && ids[i'] == Ids(entries)[i'];
    }
  }

  /** Pigeonhole: distinct naturals below m number at most m. */
  lemma {:induction false} DistinctBound(s: seq<nat>, m: nat)
    requires forall i :: 0 <= i < |s| ==> s[i] < m
    requires forall a, b :: 0 <= a < b < |s| ==> s[a] != s[b]
    ensures |s| <= m
    decreases m
  {
    if |s| == 0 {
    } else if exists i :: 0 <= i < |s| && s[i] == m - 1 {
      var i :| 0 <= i < |s| && s[i] == m - 1;
      var rest := s[..i] + s[i + 1..];
      forall k | 0 <= k < |rest| ensures rest[k] < m - 1 {
        if k < i { assert rest[k] == s[k]; } else { assert rest[k] == s[k + 1]; }
      }
      forall a, b | 0 <= a < b < |rest| ensures rest[a] != rest[b] {
        var a' := if a < i then a else a + 1;
        var b' := if b < i then b else b + 1;
        assert rest[a] == s[a'] && rest[b] == s[b'];
      }
      DistinctBound(rest, m - 1);
    } else {
      assert s[0] < m;
      DistinctBound(s, m - 1);
    }
  }

  // ------------------------------------------------------- the registry

  /** The endpoint createEndpoint leaves when its base is missing: an object
      with no fields. */
  const NoFields := Endpoint("", "", "", "", "", "", "", "", "", "", "")

  predicate EndsWith(s: string, suffix: string)
  {
    |suffix| <= |s| && s[|s| - |suffix|..] == suffix
  }

  /** `s.replace(/suffix$/, to)` for a suffix without regular-expression
      operators. */
  function ReplaceSuffix(s: string, suffix: string, to: string): (r: string)
    ensures EndsWith(s, suffix) ==> r == s[..|s| - |suffix|] + to && EndsWith(r, to)
    ensures !EndsWith(s, suffix) ==> r == s
  {
    if EndsWith(s, suffix) then s[..|s| - |suffix|] + to else s
  }

  /** Replacing a suffix and replacing it back restores the string. */
  lemma ReplaceSuffixInverse(s: string, suffix: string, to: string)
    requires EndsWith(s, suffix)
    ensures ReplaceSuffix(ReplaceSuffix(s, suffix, to), to, suffix) == s
  {
    var r := ReplaceSuffix(s, suffix, to);
    assert r[..|r| - |to|] == s[..|s| - |suffix|];
    assert s == s[..|s| - |suffix|] + suffix;
  }

  /** The copy createEndpoint makes of an endpoint: every field kept, the
      three path-bearing ones rewritten by the replacer. */
  function Derive(e: Endpoint, suffix: string, to: string): (d: Endpoint)
    ensures d.(path := e.path, pathname := e.pathname, href := e.href) == e
    ensures d.path == ReplaceSuffix(e.path, suffix, to)
    ensures d.pathname == ReplaceSuffix(e.pathname, suffix, to)
    ensures d.href == ReplaceSuffix(e.href, suffix, to)
  {
    e.(path := ReplaceSuffix(e.path, suffix, to), pathname := ReplaceSuffix(e.pathname, suffix, to),
       href := ReplaceSuffix(e.href, suffix, to))
  }

  /** The registry after createEndpoint(base, name, replacer). The new entry
      is installed before the base is read, so a base equal to the name reads
      the empty object. */
  function WithCreated(endpoints: map<string, Endpoint>, base: string, name: string, suffix: string, to: string)
    : (r: map<string, Endpoint>)
    ensures r.Keys == endpoints.Keys + {name}
    ensures forall k :: k in endpoints && k != name ==> r[k] == endpoints[k]
    ensures base != name && base in endpoints ==> r[name] == Derive(endpoints[base], suffix, to)
    ensures base == name || base !in endpoints ==> r[name] == NoFields
  {
    endpoints[name := if base != name && base in endpoints then Derive(endpoints[base], suffix, to) else NoFields]
  }

  /** getEndpoint: without a sub-path, the endpoint itself; with one, a copy
      whose path is the endpoint's pathname joined with the sub-path (any
      query of the original is dropped) and whose href is rebuilt from it. */
  function GetEndpoint(endpoints: map<string, Endpoint>, endpoint: Value, path: Value): (r: Option<Endpoint>)
    ensures Target(endpoints, endpoint).None? ==> r.None?
    ensures path == Undef ==> r == Target(endpoints, endpoint)
    ensures path != Undef && Target(endpoints, endpoint).Some? ==>
      var e := Target(endpoints, endpoint).value;
      r.Some? && r.value.(path := e.path, href := e.href) == e &&
      r.value.path == Paths.PathJoin(e.pathname, ToJsString(path)) &&
      r.value.href == Part(e.protocol) + "//" + Part(e.hostname) + ":" + Part(e.port) + r.value.path
  {
    var target := Target(endpoints, endpoint);
    if path == Undef || target.None? then target
    else
      var e := target.value;
      var p := Paths.PathJoin(e.pathname, ToJsString(path));
      Some(e.(path := p, href := Part(e.protocol) + "//" + Part(e.hostname) + ":" + Part(e.port) + p))
  }

  /** A sub-path of a sub-path endpoint replaces the first one: getEndpoint
      joins onto the pathname, which it never updates. */
  lemma NestedSubPathsDoNotCompose(endpoints: map<string, Endpoint>, e: Endpoint, first: Value, second: Value)
    requires first != Undef && second != Undef
    ensures var inner := GetEndpoint(endpoints, EndpointV(e), first);
      inner.Some? && GetEndpoint(endpoints, EndpointV(inner.value), second) == GetEndpoint(endpoints, EndpointV(e), second)
  {
  }

  /** A query sub-path is appended to the pathname verbatim. */
  lemma QuerySubPath(endpoints: map<string, Endpoint>, name: string, query: string)
    requires name in endpoints && |query| > 0 && query[0] == '?'
    ensures GetEndpoint(endpoints, Str(name), Str(query)).value.path == endpoints[name].pathname + query
  {
  }

  /** The service root's path without its one trailing separator. */
  function BasePathOf(pathname: string): (b: string)
    ensures b <= pathname && |pathname| - 1 <= |b|
    ensures b == pathname <==> !Paths.EndsWithSlash(pathname)
  {
    if Paths.EndsWithSlash(pathname) then pathname[..|pathname| - 1] else pathname
  }

  /** The discovery walk over the service-root document: `neo4j_version`
      becomes the graph's version, `extensions` is skipped and every other
      key is registered as the URL it holds. */
  function Discover(endpoints: map<string, Endpoint>, version: Value, doc: seq<(string, Value)>,
                    parse: Value -> Endpoint): (r: (map<string, Endpoint>, Value))
    ensures endpoints.Keys <= r.0.Keys
    decreases |doc|
  {
    if doc == [] then (endpoints, version)
    else
      var prev := Discover(endpoints, version, doc[..|doc| - 1], parse);
      var (k, v) := doc[|doc| - 1];
      if k == "neo4j_version" then (prev.0, v)
      else if k == "extensions" then prev
      else (prev.0[k := parse(v)], prev.1)
  }

  /** The keys of the document that the walk registers. */
  predicate IsLink(k: string)
  {
    k != "neo4j_version" && k != "extensions"
  }

  /** Every link of a document with distinct keys is registered as its
      parsed URL. */
  lemma {:induction false} DiscoverRegistersLinks(endpoints: map<string, Endpoint>, version: Value,
      doc: seq<(string, Value)>, parse: Value -> Endpoint, i: nat)
    requires DistinctKeys(doc) && i < |doc| && IsLink(doc[i].0)
    ensures doc[i].0 in Discover(endpoints, version, doc, parse).0
    ensures Discover(endpoints, version, doc, parse).0[doc[i].0] == parse(doc[i].1)
    decreases |doc|
  {
    var init := doc[..|doc| - 1];
    if i < |doc| - 1 {
      assert DistinctKeys(init) by {
        forall a, b | 0 <= a < b < |init| ensures init[a].0 != init[b].0 {
          assert init[a] == doc[a] && init[b] == doc[b];
        }
      }
      assert init[i] == doc[i];
      DiscoverRegistersLinks(endpoints, version, init, parse, i);
      assert doc[|doc| - 1].0 != doc[i].0;
    }
  }

  /** Registry entries the document does not mention survive discovery: the
      registry is updated in place, not replaced. */
  lemma {:induction false} DiscoverKeepsOthers(endpoints: map<string, Endpoint>, version: Value,
      doc: seq<(string, Value)>, parse: Value -> Endpoint, k: string)
    requires k in endpoints
    requires forall i :: 0 <= i < |doc| ==> doc[i].0 != k
    ensures Discover(endpoints, version, doc, parse).0[k] == endpoints[k]
    decreases |doc|
  {
    if doc != [] {
      DiscoverKeepsOthers(endpoints, version, doc[..|doc| - 1], parse, k);
    }
  }

  /** A document without `neo4j_version` leaves the version as it was. */
  lemma {:induction false} DiscoverKeepsVersion(endpoints: map<string, Endpoint>, version: Value,
      doc: seq<(string, Value)>, parse: Value -> Endpoint)
    requires forall i :: 0 <= i < |doc| ==> doc[i].0 != "neo4j_version"
    ensures Discover(endpoints, version, doc, parse).1 == version
    decreases |doc|
  {
    if doc != [] {
      DiscoverKeepsVersion(endpoints, version, doc[..|doc| - 1], parse);
    }
  }

  /** The version is the value of the document's last `neo4j_version`. */
  lemma {:induction false} DiscoverVersion(endpoints: map<string, Endpoint>, version: Value,
      doc: seq<(string, Value)>, parse: Value -> Endpoint, i: nat)
    requires i < |doc| && doc[i].0 == "neo4j_version"
    requires forall j :: i < j < |doc| ==> doc[j].0 != "neo4j_version"
    ensures Discover(endpoints, version, doc, parse).1 == doc[i].1
    decreases |doc|
  {
    if i < |doc| - 1 {
      var init := doc[..|doc| - 1];
      assert init[i] == doc[i];
      forall j | i < j < |init| ensures init[j].0 != "neo4j_version" {
        assert init[j] == doc[j];
      }
      DiscoverVersion(endpoints, version, init, parse, i);
    }
  }

  /** The three endpoints reconnect derives after the walk: `relationship`
      from `node` when the document gave none, and always the two automatic
      indexes from the index endpoints. */
  function WithDerivedEndpoints(endpoints: map<string, Endpoint>): map<string, Endpoint>
  {
    var withRelationship :=
      if "relationship" in endpoints then endpoints
      else WithCreated(endpoints, "node", "relationship", "node", "relationship");
    var withNodeAuto := WithCreated(withRelationship, "node_index", "node_auto", "node", "auto/node");
    WithCreated(withNodeAuto, "relationship_index", "relationship_auto", "relationship", "auto/relationship")
  }

  /** What the derivation guarantees. */
  lemma DerivedEndpoints(endpoints: map<string, Endpoint>)
    ensures var r := WithDerivedEndpoints(endpoints);
      endpoints.Keys + {"relationship", "node_auto", "relationship_auto"} == r.Keys &&
      ("relationship" in endpoints ==> r["relationship"] == endpoints["relationship"]) &&
      ("relationship" !in endpoints && "node" in endpoints ==>
         r["relationship"] == Derive(endpoints["node"], "node", "relationship")) &&
      ("node_index" in endpoints ==> r["node_auto"] == Derive(endpoints["node_index"], "node", "auto/node")) &&
      ("relationship_index" in endpoints ==>
         r["relationship_auto"] == Derive(endpoints["relationship_index"], "relationship", "auto/relationship")) &&
      (forall k :: k in endpoints && k !in {"relationship", "node_auto", "relationship_auto"} ==> r[k] == endpoints[k])
  {
  }

  /** The relationship collection sits beside the node collection. */
  lemma RelationshipUrlExample()
    ensures ReplaceSuffix("http://localhost:7474/db/data/node", "node", "relationship")
         == "http://localhost:7474/db/data/relationship"
  {
    var s := "http://localhost:7474/db/data/node";
    assert s[|s| - 4..] == "node";
    assert s[..|s| - 4] == "http://localhost:7474/db/data/";
  }

  // ------------------------------------------------------------ the classes

  /** An Api.Batch: requests collected until `run`. */
  class Batch {
    var requests: seq<Request>

    constructor ()
      ensures requests == []
    {
      requests := [];
    }
  }

  /** The state `connect` closes over: the endpoint registry, the service
      root's path, the graph's version and what has been handed to the
      transport. */
  class Connection {
    var endpoints: map<string, Endpoint>
    var basePath: string
    var version: Value
    var wire: seq<Request>

    constructor ()
      ensures endpoints == map[] && basePath == "" && version == Undef && wire == []
    {
      endpoints := map[];
      basePath := "";
      version := Undef;
      wire := [];
    }

    /** Request.prototype.send: reading the endpoint's host throws when the
        request has none. */
    method Send(req: Request) returns (threw: bool)
      modifies `wire
      ensures threw <==> req.endpoint.None?
      ensures wire == if threw then old(wire) else old(wire) + [req]
    {
      if req.endpoint.None? {
        return true;
      }
      wire := wire + [req];
      return false;
    }

    /** `new Request(batch, endpoint, method, data, callback)`: queued on the
        batch when there is one, sent at once otherwise. */
    method NewRequest(batch: Batch?, endpoint: Value, verb: string, data: Value, callback: Callback)
      returns (req: Request, threw: bool)
      modifies `wire, batch
      ensures req == Request(Target(endpoints, endpoint), verb, data, callback)
      ensures batch != null ==> !threw && batch.requests == old(batch.requests) + [req] && wire == old(wire)
      ensures batch == null ==> (threw <==> req.endpoint.None?)
      ensures batch == null ==> wire == if threw then old(wire) else old(wire) + [req]
    {
      req := Request(Target(endpoints, endpoint), verb, data, callback);
      if batch != null {
        batch.requests := batch.requests + [req];
        threw := false;
      } else {
        threw := Send(req);
      }
    }

    /** runBatch: nothing for an empty batch, the request itself for a
        single one, and one POST to the `batch` endpoint for more. */
    method RunBatch(batch: Batch, errorCallback: Value) returns (threw: bool)
      modifies `wire
      ensures RanBatch(batch.requests, endpoints, basePath, errorCallback, old(wire), wire, threw)
    {
      var requests := batch.requests;
      if |requests| == 0 {
        return false;
      }
      if |requests| == 1 {
        threw := Send(requests[0]);
        return;
      }
      var packed := PackBatch(requests, basePath);
      if packed.None? {
        return true;
      }
      var post;
      post, threw := NewRequest(null, Str("batch"), "POST", Arr(packed.value), BatchHandler(errorCallback));
    }

    /** createEndpoint. */
    method CreateEndpoint(base: string, name: string, suffix: string, to: string)
      modifies `endpoints
      ensures endpoints == WithCreated(old(endpoints), base, name, suffix, to)
    {
      endpoints := endpoints[name := NoFields];
      if base in endpoints && base != name {
        endpoints := endpoints[name := Derive(endpoints[base], suffix, to)];
      }
    }

    /** reconnect, up to the GET of the service root: the root is registered,
        the base path recorded and the GET sent. */
    method Reconnect(root: Endpoint, callback: Value) returns (req: Request)
      modifies this
      ensures endpoints == old(endpoints)["root" := root]
      ensures basePath == BasePathOf(root.pathname)
      ensures version == old(version)
      ensures req == Request(Some(root), "GET", Null, DiscoveryHandler(callback))
      ensures wire == old(wire) + [req]
    {
      endpoints := endpoints["root" := root];
      basePath := BasePathOf(root.pathname);
      var threw;
      req, threw := NewRequest(null, EndpointV(root), "GET", Null, DiscoveryHandler(callback));
    }

    /** The completion of reconnect's GET. An error is passed on and changes
        nothing; a document is walked, the derived endpoints are added and
        the callback receives the graph (reported here as no error). A body
        that is not an object has no keys to walk. */
    method CompleteDiscovery(reply: Completion, parse: Value -> Endpoint) returns (error: Option<Error>)
      modifies this
      ensures reply.Failed? ==> error == Some(reply.error)
      ensures reply.Failed? ==> endpoints == old(endpoints) && version == old(version)
      ensures reply.Succeeded? ==> error.None?
      ensures reply.Succeeded? ==>
                var doc := if reply.body.Obj? then reply.body.props else [];
                var walked := Discover(old(endpoints), old(version), doc, parse);
                endpoints == WithDerivedEndpoints(walked.0) && version == walked.1
      ensures basePath == old(basePath) && wire == old(wire)
    {
      if reply.Failed? {
        return Some(reply.error);
      }
      var doc := if reply.body.Obj? then reply.body.props else [];
      var i := 0;
      while i < |doc|
        invariant 0 <= i <= |doc|
        invariant (endpoints, version) == Discover(old(endpoints), old(version), doc[..i], parse)
        invariant basePath == old(basePath) && wire == old(wire)
      {
        assert doc[..i + 1][..i] == doc[..i];
        var (k, v) := doc[i];
        if k == "neo4j_version" {
          version := v;
        } else if k != "extensions" {
          endpoints := endpoints[k := parse(v)];
        }
        i := i + 1;
      }
      assert doc[..|doc|] == doc;
      if "relationship" !in endpoints {
        CreateEndpoint("node", "relationship", "node", "relationship");
      }
      CreateEndpoint("node_index", "node_auto", "node", "auto/node");
      CreateEndpoint("relationship_index", "relationship_auto", "relationship", "auto/relationship");
      return None;
    }
  }
}
