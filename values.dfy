// The JavaScript values that cross the client's interfaces: call-site
// arguments, JSON bodies, parsed URLs and the client's own objects.

module Values {

  datatype Option<+T> = None | Some(value: T)

  /** The constructors that the client asks `instanceof` about. */
  datatype Ctor = ArrayCtor | BatchCtor | NodeCtor | RelationshipCtor

  /** The two entity classes built on Base. */
  datatype Kind = NodeKind | RelationshipKind

  /** A URL as Node's `Url.parse` returns it. A component the URL does not
      have is null in that object and is written "" here; `Part` gives the
      text it turns into when concatenated. */
  datatype Endpoint = Endpoint(
    protocol: string, auth: string, host: string, hostname: string, port: string,
    hash: string, search: string, query: string, pathname: string, path: string, href: string)

  /** A URL component as `+` writes it: an absent (null) one is "null". */
  function Part(component: string): (r: string)
    ensures component != "" ==> r == component
    ensures component == "" ==> r == "null"
  {
    if component == "" then "null" else component
  }

  /** The functions that the client passes around as values. A closure is
      named by what it wraps; a caller's own function is only an identity. */
  datatype Fn =
    | UserFn(id: nat)
    | NoopFn                          // function () {}
    | ErrorOnlyFn(callback: Value)    // Utils.errorOnly(callback)
    | NodeCallbackFn(callback: Value) // Node.nodeCallback(callback)
    | RelationshipCallbackFn(callback: Value)
    | QueryCallbackFn(callback: Value)
    | CombineFn(id: nat)              // the aggregator of one autoBatch call
    | EndpointFactoryFn(base: Value)  // Api.getEndpoint.bind(null, base)

  datatype Value =
    | Undef
    | Null
    | Bool(b: bool)
    | Num(n: int)
    | Str(s: string)
    | Func(fn: Fn)
    | Arr(elems: seq<Value>)
    | Obj(props: seq<(string, Value)>)
    | BatchV(handle: nat)             // an Api.Batch object
    | EndpointV(endpoint: Endpoint)   // the object Url.parse returns
    | Entity(kind: Kind, id: string, data: Value, raw: Value) // a Node or Relationship
    | PathV(raw: Value)               // a Path object

  /** JavaScript's `typeof`. */
  function TypeOf(v: Value): string
  {
    match v
    case Undef => "undefined"
    case Bool(_) => "boolean"
    case Num(_) => "number"
    case Str(_) => "string"
    case Func(_) => "function"
    case _ => "object"
  }

  /** JavaScript's `v instanceof c`. */
  predicate InstanceOf(v: Value, c: Ctor)
  {
    match c
    case ArrayCtor => v.Arr?
    case BatchCtor => v.BatchV?
    case NodeCtor => v.Entity? && v.kind == NodeKind
    case RelationshipCtor => v.Entity? && v.kind == RelationshipKind
  }

  /** JavaScript truthiness. */
  predicate Truthy(v: Value)
  {
    match v
    case Undef => false
    case Null => false
    case Bool(b) => b
    case Num(n) => n != 0
    case Str(s) => s != ""
    case _ => true
  }

  /** Property read `v[key]` on a plain object; any other value reads undefined. */
  function Get(v: Value, key: string): Value
  {
    if v.Obj? then Find(v.props, key) else Undef
  }

  function Find(props: seq<(string, Value)>, key: string): Value
  {
    if props == [] then Undef
    else if props[0].0 == key then props[0].1
    else Find(props[1..], key)
  }

  /** A key read finds the first property of that name. */
  lemma {:induction false} FindAt(props: seq<(string, Value)>, i: nat)
    requires i < |props|
    requires forall j :: 0 <= j < i ==> props[j].0 != props[i].0
    ensures Find(props, props[i].0) == props[i].1
    decreases i
  {
    if i > 0 {
      FindAt(props[1..], i - 1);
    }
  }

  /** A key that no property has reads undefined. */
  lemma {:induction false} FindMissing(props: seq<(string, Value)>, key: string)
    requires forall j :: 0 <= j < |props| ==> props[j].0 != key
    ensures Find(props, key) == Undef
    decreases |props|
  {
    if props != [] {
      FindMissing(props[1..], key);
    }
  }

  /** `s[i]`: undefined past the end. */
  function At(s: seq<Value>, i: int): Value
  {
    if 0 <= i < |s| then s[i] else Undef
  }

  /** `m[k]` on a JavaScript object used as a dictionary. */
  function Lookup(m: map<string, Value>, k: string): Value
  {
    if k in m then m[k] else Undef
  }

  /** The keys of a plain object, each once. */
  ghost predicate DistinctKeys(props: seq<(string, Value)>)
  {
    forall i, j :: 0 <= i < j < |props| ==> props[i].0 != props[j].0
  }

  function DigitChar(d: nat): char
    requires d < 10
  {
    "0123456789"[d]
  }

  function NatToString(n: nat): string
    decreases n
  {
    if n < 10 then [DigitChar(n)] else NatToString(n / 10) + [DigitChar(n % 10)]
  }

  /** The string that `v + ''` produces. A Node or Relationship converts
      through its valueOf, which is its id; an array joins its elements
      with ",". */
  function ToJsString(v: Value): string
    decreases v, 0
  {
    match v
    case Undef => "undefined"
    case Null => "null"
    case Bool(b) => if b then "true" else "false"
    case Num(n) => if n < 0 then "-" + NatToString(-n) else NatToString(n)
    case Str(s) => s
    case Func(_) => "function"
    case Arr(elems) => JoinStrings(seq(|elems|, i requires 0 <= i < |elems| => ElementString(elems[i])), ",")
    case Entity(_, id, _, _) => id
    case _ => "[object Object]"
  }

  /** How Array.prototype.join writes one element: undefined and null as
      "", anything else through its toString. A Node or Relationship has no
      toString of its own, so it is written "[object Object]". */
  function ElementString(v: Value): string
    decreases v, 1
  {
    if v.Undef? || v.Null? then ""
    else if v.Entity? then "[object Object]"
    else ToJsString(v)
  }

  function JoinStrings(parts: seq<string>, sep: string): string
  {
    if parts == [] then ""
    else if |parts| == 1 then parts[0]
    else parts[0] + sep + JoinStrings(parts[1..], sep)
  }
}
