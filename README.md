# neo4j-js request and batch core, modelled in Dafny

This project models the request/batch coordination layer of the neo4j-js REST
client, together with the small pure argument and URL rewriting that feeds it:

- `paths.dfy` (module `Paths`): `pathJoin` and `parseId` from `lib/Neo4jUtils.js`.
- `arg_parser.dfy` (module `ArgParser`): the overload resolver `parseArgs`. It is a
  greedy single pass over a declarative format with the optional/skip budget. There
  are two parts:
  - a `Format` class, whose cached optional count and normalised items are
    fields the first call fills in;
  - a `Resolve` specification function that the loops are proved against.
- `values.dfy` (module `Values`): the JavaScript values the client passes around.
  - A tagged `Value`: `undefined`, `null`, booleans, numbers, strings, functions,
    arrays, objects, `Batch` handles, parsed endpoints, and Node/Relationship/Path
    instances.
  - `typeof`, `instanceof`, truthiness, property lookup, and conversion to string.
- `api.dfy` (module `Neo4jApi`):
  - the endpoint registry, base path and server version, as fields of a
    `Connection` class;
  - the `Batch` request queue, and `Request` (enqueue or send);
  - `Request.createCallback` (status and body classification);
  - `runBatch`, split into packing, the single POST, failure classification and
    routing by correlation id;
  - `getEndpoint`, `createEndpoint`, and the `reconnect` discovery walk.
- `auto_batch.dfy` (module `AutoBatch`):
  - `autoBatch`: the count derivation, and the loop that issues one request per
    iteration into one batch;
  - the `combine` aggregator, as a `Combiner` class whose fields are `returned`,
    `count` and `noArray`;
  - `errorOnly`.
- `auto_batch_shapes.dfy` (module `AutoBatchShapes`): how `parseArgs` binds the three
  shapes of argument list the client passes to `autoBatch` (through an endpoint
  factory, a named endpoint or an endpoint object), followed item by item through the
  resolution loop, and which requests each shape then issues.
- `graph.dfy` (module `Graph`):
  - the Cypher `query` body and endpoint;
  - the result-row builder, with column kinds decided from row 0;
  - Node/Relationship id normalisation before deletes;
  - how the data, id and query formats bind their arguments;
  - the `createNode`/`getNode`/`delete*` calls into `autoBatch`, and what `autoBatch`
    makes of them.
- `base.dfy` (module `Base`):
  - the `Base` constructor (id from the `self` URL) and `valueOf`;
  - the argument rewriting of `deleteProperties`, `replaceAllProperties` and
    `setProperties`/`setProperty`, and what `autoBatch` makes of each.
- `node.dfy` (module `Node`):
  - `nodeCallback`;
  - `createRelationshipTo`/`From` direction, and the `createRelationship` body and
    endpoint derivation;
  - the `getRelationships` type-filter path.

Asynchrony is replaced by explicit events:
- A request that is "sent" is appended to the connection's `wire` log.
- A response is a `Completion` value (`Succeeded(body)` or `Failed(error)`) handed
  to the method that reacts to it.
- The callbacks that would fire are returned as values (`Call`, `Invocation`).

Where a description of the client and its code disagree, the model follows the code:
- `autoBatch` with `datas = []` (an empty but truthy array) derives a count of 0, so
  the caller's callback never fires. `DeriveCount` and `NoResultWithoutCount` state
  this.
- Results are gathered in arrival order, not input order (`Absorb`, `SuccessesGather`).
- Batch results are routed by their `id` field, in response-array order (`DeliverBatch`).
- Only the last batch entry's status decides whether a batch failed
  (`EntriesFail`, `EarlierEntriesNotInspected`, `MiddleFailureExample`).
- The endpoint registry is updated in place, key by key, during discovery
  (`Connection.CompleteDiscovery`).

## Model

| member | source | states |
|---|---|---|
| Paths.Directory | lib/Neo4jUtils.js:249-252 | joining with an empty path leaves `a` followed by exactly one trailing '/' |
| Paths.PathJoin | lib/Neo4jUtils.js:236-253 | `a` is always a prefix; a '?' path is appended verbatim; a junction with '/' on both sides keeps one; '/' is inserted when neither side has one; an empty path gives the directory of `a` |
| Paths.JoinIsDirectoryPlusRest | lib/Neo4jUtils.js:236-253 | every non-query join is the directory of `a` followed by `b` without its leading '/' |
| Paths.JoinNoDoubleSlash | lib/Neo4jUtils.js:241-252 | the join never creates '//' at the junction unless `b` itself starts with '//' |
| Paths.JoinAssociative | lib/Neo4jUtils.js:236-253 | joining "/x" then y equals joining "x/y" in one step |
| Paths.DigitSuffixLength | lib/Neo4jUtils.js:10 | the length of the maximal run of trailing decimal digits |
| Paths.ParseId | lib/Neo4jUtils.js:231-234 | fails exactly when the URL is empty or does not end in a digit; otherwise returns the maximal non-empty trailing digit run, which is a suffix of the URL |
| Paths.DigitSuffixOfJoined | lib/Neo4jUtils.js:10 | a digit string after a non-digit prefix is exactly the trailing digit run |
| Paths.ParseIdOfJoined | lib/Neo4jUtils.js:231-234 | parseId(prefix + id) == id for a digit id after a non-digit prefix (a round trip with URL building) |
| ArgParser.Normalized | lib/Neo4jUtils.js:160-163 | a spec carrying optional/mutex/requires/requiredBy becomes optional, keeping its name |
| ArgParser.Normalize | lib/Neo4jUtils.js:158-165 | normalisation keeps the format's length |
| ArgParser.Step | lib/Neo4jUtils.js:181-224 | defines one iteration of the matching loop on the cursor (record, argument index, included and skipped counters): a bare name binds the next argument; a failing spec is skipped or throws; a matching optional spec is consumed or skipped by the remaining optionals against the deficit |
| ArgParser.StepShape | lib/Neo4jUtils.js:181-224 | one step of the loop: a plain string binds the current argument; a failing spec is skipped (bound to undefined) only when optional, within the skip budget and its requiredBy partner is absent, otherwise the call fails; a matching optional spec is consumed only while optionals remain beyond the deficit; every other name keeps its binding |
| ArgParser.Run | lib/Neo4jUtils.js:175-224 | defines the loop over the first n format items from the empty record, the first error ending it, with the deficit as skip budget |
| ArgParser.Resolve | lib/Neo4jUtils.js:151-229 | defines parseArgs: "not enough arguments" when the deficit exceeds the optional count, else the loop over the normalised format, returning its record |
| ArgParser.Format.constructor | lib/Neo4jUtils.js:151-155 | a fresh format has no cached optional count |
| ArgParser.Format.ParseArgs | lib/Neo4jUtils.js:151-229 | caches the normalised items and the optional count on the format, and returns exactly `Resolve(format, args)` |
| ArgParser.Format.CountOptionalItems | lib/Neo4jUtils.js:155-166 | after the counting loop the format holds the normalised items and the number of optional specs |
| ArgParser.NormalizeAndCount | lib/Neo4jUtils.js:157-165 | the counting loop computes `Normalize` and `CountOptional` of the format |
| ArgParser.ResolveLoop | lib/Neo4jUtils.js:168-228 | the matching loop fails with "not enough arguments" when the deficit exceeds the optional count, and otherwise computes the greedy pass |
| ArgParser.Advance | lib/Neo4jUtils.js:181-224 | the loop body computes exactly one `Step` |
| ArgParser.RunStopsAtError | lib/Neo4jUtils.js:203 | once the pass has failed, later specs do not change the outcome (a thrown error ends the pass) |
| ArgParser.NormalizeIdempotent | lib/Neo4jUtils.js:155-166 | normalising twice equals normalising once, so caching the count on the format is sound |
| ArgParser.CountOptionalNormalize | lib/Neo4jUtils.js:155-166 | the cached count of a normalised format equals the count of the original |
| ArgParser.NoOptionalNormalizesToItself | lib/Neo4jUtils.js:155-166 | a format without optional specs is unchanged by normalisation, so recounting it on every call changes nothing |
| ArgParser.RunOnlyInvalid | lib/Neo4jUtils.js:179-226 | the loop itself only ever fails with "Invalid Arguments" |
| ArgParser.NotEnoughExactly | lib/Neo4jUtils.js:153-173 | "Not enough arguments provided." is raised exactly when format length minus argument count exceeds the optional count |
| ArgParser.RunBindsNames | lib/Neo4jUtils.js:179-228 | on success the first n spec names, and only those, are keys of the result |
| ArgParser.ResolveBindsEveryName | lib/Neo4jUtils.js:179-228 | on success every spec name appears in the result, bound to an argument or to undefined |
| ArgParser.CountOptionalPrefix | lib/Neo4jUtils.js:158-165 | the optional count grows with the prefix of the format, strictly at an optional spec |
| ArgParser.RunCounters | lib/Neo4jUtils.js:175-224 | included + skipped optionals equals the optionals seen so far; consumed arguments + skips equals specs seen; skips never exceed the deficit |
| ArgParser.SkipBudget | lib/Neo4jUtils.js:196-217 | on success the total skipped is at most max(0, deficit), and the arguments consumed are the format length minus the skips |
| ArgParser.RunAdmits | lib/Neo4jUtils.js:189-223 | with distinct names, every bound value passes its spec's type/nType/instance/nInstance checks or is undefined for an optional spec |
| ArgParser.ResolveAdmits | lib/Neo4jUtils.js:189-223 | on success each spec's value is admitted by that spec |
| ArgParser.RunKeepsFirst | lib/Neo4jUtils.js:179-224 | a first spec that accepts any value and whose name is not reused is bound to the first argument |
| ArgParser.ResolveBindsFirst | lib/Neo4jUtils.js:179-224 | the same for the whole resolution |
| ArgParser.ChainExtend | lib/Neo4jUtils.js:179-224 | a trace of loop cursors, each one step after the previous from the empty record, grows by any cursor that the next step yields |
| ArgParser.RunFromChain | lib/Neo4jUtils.js:179-224 | the loop over the first k items ends at the k-th cursor of such a trace |
| ArgParser.ResolveFromChain | lib/Neo4jUtils.js:151-229 | a trace through every item, with enough arguments, is the resolution: parseArgs returns its last record |
| Neo4jApi.Classify | lib/Neo4jApi.js:219-266 | success exactly for a parsable response with status <= 204 (an empty body gives null); a parse error is reported whatever the status; a status above 204 gives an error carrying the status code, and the body's message, exception and fullname when there is a body |
| Neo4jApi.StatusDecides | lib/Neo4jApi.js:225-229 | for a parsable body, failure exactly when the status is above 204 |
| Neo4jApi.Target | lib/Neo4jApi.js:180 | a string names a registry entry (absent when unknown); an endpoint record is used as is |
| Neo4jApi.Drop | lib/Neo4jApi.js:287 | `substr(n)`: the string with its first n characters removed |
| Neo4jApi.PackBatch | lib/Neo4jApi.js:279-290 | the packing loop produces entry i with id i, the request's method, its path without the base path, and its body (undefined for null) |
| Neo4jApi.PackedEntry | lib/Neo4jApi.js:282-288 | defines the i-th packed entry: id i, the request's method, its path with the base path cut off, and its body with null written as undefined |
| Neo4jApi.PacksAs | lib/Neo4jApi.js:279-290 | defines a packing: one entry per request, each packed from the request at its position |
| Neo4jApi.PackedPathIsRelative | lib/Neo4jApi.js:287 | base path + packed `to` gives back the request's full path |
| Neo4jApi.ErrorMessage | lib/Neo4jApi.js:298 | the message string of the last entry's body |
| Neo4jApi.EntryError | lib/Neo4jApi.js:296-303 | the synthesised batch error carries the last entry's status and body, and its body's message and exception, or "Unknown neo4j REST API Error" without a body |
| Neo4jApi.EntriesFail | lib/Neo4jApi.js:294 | defines runBatch's failure test on a readable reply: fewer entries than requests, or a last entry whose status is above 204 |
| Neo4jApi.FannedOut | lib/Neo4jApi.js:305-313 | defines how a batch error is delivered: once to the batch's error callback when it has one, else once to each request in order |
| Neo4jApi.DeliverBatch | lib/Neo4jApi.js:294-321 | a failed POST fans the error out to the error callback once, or else to every request; a reply without a length, an empty one, or one whose last entry is null or undefined throws before any call; a reply shorter than the queue (an array, or a JSON string read character by character) or whose last entry has status above 204 fans out the error built from the last entry; otherwise entry i goes to `requests[entry.id]` with its body, routed by id, for the first n entries, and an invalid id throws at the first such entry after the calls before it |
| Neo4jApi.ReplyEntries | lib/Neo4jApi.js:294-298 | `obj.length` and `obj[i]` of a reply: an array's elements, or a string's one-character strings; no entries for any other value |
| Neo4jApi.Unreadable | lib/Neo4jApi.js:294-298 | defines the replies runBatch throws on before any call: no length, no entries, or a null or undefined last entry |
| Neo4jApi.NullLastEntryThrows | lib/Neo4jApi.js:294-298 | a reply whose last entry is null is unreadable, so runBatch throws before any callback, short or not |
| Neo4jApi.ShortStringReplyFails | lib/Neo4jApi.js:294-298 | a JSON string shorter than the queue is a failed batch whose error has an undefined code and the message "Unknown neo4j REST API Error" |
| Neo4jApi.EarlierEntriesNotInspected | lib/Neo4jApi.js:294 | replacing any entry but the last does not change whether the batch failed |
| Neo4jApi.MiddleFailureExample | lib/Neo4jApi.js:294 | a 500 in a middle entry followed by a 200 does not fail the batch |
| Neo4jApi.EveryRequestAnsweredOnce | lib/Neo4jApi.js:315-320 | with valid, distinct ids every request's callback is answered exactly once |
| Neo4jApi.ReplaceSuffix | lib/Neo4jApi.js:137-141 | the `/x$/` rewrite replaces a trailing suffix and leaves other strings unchanged |
| Neo4jApi.ReplaceSuffixInverse | lib/Neo4jApi.js:137-141 | rewriting a suffix and rewriting it back gives the original string |
| Neo4jApi.Derive | lib/Neo4jApi.js:68-86 | a derived endpoint copies every field and rewrites only path, pathname and href |
| Neo4jApi.WithCreated | lib/Neo4jApi.js:68-86 | createEndpoint adds exactly the new name, derived from the base (empty when the base is missing), and keeps every other entry |
| Neo4jApi.GetEndpoint | lib/Neo4jApi.js:88-108 | with no sub-path returns the endpoint itself; otherwise copies every field, sets path to pathJoin(pathname, sub) (dropping any query) and href to protocol + '//' + hostname + ':' + port + path, an absent component reading "null" |
| Neo4jApi.NestedSubPathsDoNotCompose | lib/Neo4jApi.js:103-105 | a sub-path applied to a derived endpoint replaces the earlier sub-path, because the join starts from the pathname |
| Neo4jApi.QuerySubPath | lib/Neo4jApi.js:104 | a '?query' sub-path is appended verbatim to the pathname |
| Neo4jApi.BasePathOf | lib/Neo4jApi.js:115-117 | the base path is the root pathname minus at most one trailing '/' |
| Neo4jApi.Discover | lib/Neo4jApi.js:127-133 | the discovery walk never loses a registry entry |
| Neo4jApi.DiscoverRegistersLinks | lib/Neo4jApi.js:127-133 | every discovery key other than `neo4j_version` and `extensions` becomes an endpoint parsed from its URL |
| Neo4jApi.DiscoverKeepsOthers | lib/Neo4jApi.js:127-133 | entries not named by the discovery document are left as they were |
| Neo4jApi.DiscoverKeepsVersion | lib/Neo4jApi.js:129-130 | without `neo4j_version` the version is unchanged |
| Neo4jApi.DiscoverVersion | lib/Neo4jApi.js:129-130 | the version is the last `neo4j_version` value of the document |
| Neo4jApi.WithDerivedEndpoints | lib/Neo4jApi.js:135-141 | defines the derivations after discovery: `relationship` from `node` when absent, then `node_auto` and `relationship_auto` from the index endpoints |
| Neo4jApi.DerivedEndpoints | lib/Neo4jApi.js:135-141 | `relationship` is derived from `node` only when absent; `node_auto` and `relationship_auto` are always derived; nothing else changes |
| Neo4jApi.RelationshipUrlExample | lib/Neo4jApi.js:137 | the node URL of a default server rewrites to its relationship URL |
| Neo4jApi.Batch.constructor | lib/Neo4jApi.js:153-157 | a new batch has an empty request queue |
| Neo4jApi.Connection.constructor | lib/Neo4jApi.js:110-113 | before connecting, the registry is empty and nothing has been sent |
| Neo4jApi.Connection.Send | lib/Neo4jApi.js:191-217 | a request is put on the wire, or throws when its endpoint is missing |
| Neo4jApi.Connection.NewRequest | lib/Neo4jApi.js:178-189 | with a batch the request is appended to the end of the batch's queue and not sent; without one it is sent immediately |
| Neo4jApi.RanBatch | lib/Neo4jApi.js:268-323 | defines what running a batch sends: nothing for no request; the single request itself for one; otherwise one POST to `batch` carrying the packed requests, or a throw with nothing sent when a request has no endpoint or `batch` is missing |
| Neo4jApi.Connection.RunBatch | lib/Neo4jApi.js:268-323 | an empty queue does nothing; one request is sent directly without touching 'batch'; two or more give exactly one POST to 'batch' carrying the packed entries |
| Neo4jApi.Connection.CreateEndpoint | lib/Neo4jApi.js:68-86 | the registry becomes `WithCreated` of the old registry |
| Neo4jApi.Connection.Reconnect | lib/Neo4jApi.js:110-119 | stores the root endpoint, sets the base path and issues one GET for the discovery document |
| Neo4jApi.Connection.CompleteDiscovery | lib/Neo4jApi.js:119-143 | an error is passed on and the registry is untouched; otherwise the walk and the derivations are applied to the registry in place |
| AutoBatch.AutoBatchFormatShape | lib/Neo4jUtils.js:20-30 | the autoBatch format has 8 optional specs, so it fails for lack of arguments exactly when fewer than 3 are given |
| AutoBatch.BatchIsFirstArgument | lib/Neo4jUtils.js:20-30 | on success the `batch` binding is the first argument |
| AutoBatch.Length | lib/Neo4jUtils.js:47-51 | `.length` of an array |
| AutoBatch.ElementAt | lib/Neo4jUtils.js:95 | array indexing, undefined outside the array |
| AutoBatch.DeriveCount | lib/Neo4jUtils.js:41-58 | count is the truthy explicit count, else `datas.length`, else `factoryArgs.length`, else 1 with the single result unwrapped |
| AutoBatch.Absorb | lib/Neo4jUtils.js:63-79 | after an error, completions are ignored; the first error is delivered and closes the aggregator; a success is pushed in arrival order and delivers the list (or its first element) when exactly `count` results are in |
| AutoBatch.Feed | lib/Neo4jUtils.js:63-79 | defines combine applied to completions in arrival order, collecting what reaches the caller's callback |
| AutoBatch.FeedAppend | lib/Neo4jUtils.js:63-79 | feeding two event sequences one after the other equals feeding their concatenation |
| AutoBatch.ClosedStaysClosed | lib/Neo4jUtils.js:65-66 | once closed by an error, later completions change nothing |
| AutoBatch.Bodies | lib/Neo4jUtils.js:75 | one body per completion |
| AutoBatch.SuccessesGather | lib/Neo4jUtils.js:75-78 | all-success events gather their bodies in arrival order, and the callback fires once with the first `count` of them |
| AutoBatch.FirstErrorWins | lib/Neo4jUtils.js:68-73 | an error before `count` successes is the only delivery, whatever follows |
| AutoBatch.AtMostOnce | lib/Neo4jUtils.js:63-79 | for up to `count` completions the callback fires at most once |
| AutoBatch.NoResultWithoutCount | lib/Neo4jUtils.js:45-78 | with a count of 0 no success is ever delivered |
| AutoBatch.Combiner.constructor | lib/Neo4jUtils.js:62 | the aggregator starts with an empty `returned` list |
| AutoBatch.Combiner.Complete | lib/Neo4jUtils.js:63-79 | one completion updates `returned` and delivers exactly as `Absorb` says |
| AutoBatch.CombineCallback | lib/Neo4jUtils.js:63-79 | defines the one `combine` callback that every request of an autoBatch call shares |
| AutoBatch.Spread | lib/Neo4jUtils.js:88-90 | defines the argument list a factory gets from one value: an array is spread by `apply`, anything else is the one argument |
| AutoBatch.FactoryInput | lib/Neo4jUtils.js:85-92 | defines the factory's arguments in iteration i: `factoryArgs[i]` when defined, else `factoryArg` when defined, else none |
| AutoBatch.CallFactory | lib/Neo4jUtils.js:85-92 | calling a bound `getEndpoint` factory gives the endpoint for its first argument |
| AutoBatch.AsValue | lib/Neo4jApi.js:95-107 | a found endpoint is returned as a value; a missing one is undefined |
| AutoBatch.EndpointFor | lib/Neo4jUtils.js:81-92 | defines the endpoint of request i: the factory's result when there is a factory, else the named endpoint looked up, else the endpoint argument |
| AutoBatch.CarriedData | lib/Neo4jUtils.js:81-96 | defines the body of request i: `datas[i]` when defined, else what the previous request carried, and `data` before any |
| AutoBatch.SingleDataEverywhere | lib/Neo4jUtils.js:82-98 | without `datas` every request carries the single `data` |
| AutoBatch.SingleArgumentEndpoint | lib/Neo4jUtils.js:85-92 | without factoryArgs, every request goes to the factory's endpoint for the single factoryArg |
| AutoBatch.EachArgumentEndpoint | lib/Neo4jUtils.js:85-92 | with an array of factoryArgs, request i goes to the factory's endpoint for element i when it is defined and not itself an array |
| AutoBatch.HoleRepeatsPrevious | lib/Neo4jUtils.js:95-96 | an undefined hole in `datas` repeats the previous element's data |
| AutoBatch.Issued | lib/Neo4jUtils.js:83-99 | one request per iteration, `count` of them |
| AutoBatch.Issue | lib/Neo4jUtils.js:38-103 | resolves the arguments; issues `count` requests into the caller's batch, or into a fresh batch that is then run with `combine` as its error callback |
| AutoBatch.IssueRequests | lib/Neo4jUtils.js:83-99 | the loop appends exactly the issued requests to the batch |
| AutoBatch.ErrorOnly | lib/Neo4jUtils.js:105-111 | the callback receives only the error, and no result |
| AutoBatchShapes.ResolveAfterPrefix | lib/Neo4jUtils.js:28-30 | once the first eight parameters are resolved with data and callback left, a function as data throws 'Invalid Arguments', an array goes to datas, anything else to data, and the callback is bound |
| AutoBatchShapes.ResolveFactoryCall | lib/Neo4jUtils.js:20-30 | `autoBatch(batch, factory, ids, method, data, callback)` binds batch, factory, method and callback, the ids to factoryArgs when an array and to factoryArg otherwise, the data to datas when an array and to data otherwise; endpoint, namedEndpoint and count are absent; a function as data throws |
| AutoBatchShapes.ResolveNamedCall | lib/Neo4jUtils.js:20-30 | `autoBatch(batch, name, method, data, callback)` binds the name to namedEndpoint and leaves endpoint, the factory parameters and count absent; data as above |
| AutoBatchShapes.ResolveEndpointCall | lib/Neo4jUtils.js:20-30 | `autoBatch(batch, endpoint, method, data, callback)` binds the endpoint object to endpoint and leaves the name, the factory parameters and count absent; data as above |
| AutoBatchShapes.FactoryRequests | lib/Neo4jUtils.js:41-98 | for a factory call: the count is the data array's length, else the id array's length, else 1 with the result unwrapped; request i goes to the endpoint for id i (or the single id) and carries data element i (or the single data) |
| AutoBatchShapes.EndpointRequests | lib/Neo4jUtils.js:41-98 | for an endpoint-object call: every request goes to that endpoint; the count is the data array's length or 1 unwrapped, and request i carries data element i or the single data |
| Base.IdOf | lib/Base.js:44 | the id is the trailing digit run of the `self` URL, absent when it does not end in a digit |
| Base.NewEntity | lib/Base.js:42-50 | an instance has id parseId(self) and data `obj.data`; construction throws when an id cannot be parsed (also `start`/`end` for a Relationship) |
| Base.NodeOfSelfUrl | lib/Base.js:44 | a node built from `prefix + id` has that id |
| Base.NoEntityWithoutSelf | lib/Base.js:44 | a non-object body cannot be turned into an instance |
| Base.ValueOf | lib/Base.js:115 | valueOf is what `'' + entity` yields: its id |
| Base.ValueOfIsSelfId | lib/Base.js:115 | valueOf returns the trailing digits of the `self` URL |
| Base.DeletePropertiesCall | lib/Base.js:52-62 | the batch is passed on; a given props passes through and a missing one becomes ''; a given callback is wrapped in errorOnly and a missing one is replaced by a no-op; the call is a DELETE with null data through the properties factory |
| Base.DeletePropsOptional | lib/Base.js:29-31 | all three parameters of the delete format are optional |
| Base.DeletePropsArguments | lib/Base.js:29-31 | with no arguments all are absent; a lone argument is the batch when it is one and props otherwise (a callback given alone is taken as props); after a batch the second argument is props; otherwise (props, callback) needs a function as callback |
| Base.DeletePropertiesResolves | lib/Base.js:52-62 | autoBatch resolves the call: DELETE with no body and the (no-op or given) callback under errorOnly; a single name, or '', is one request to the properties URL joined with it, whose result is unwrapped; an array of names is one request per name |
| Base.DeleteAllProperties | lib/Base.js:58-61 | with no props, the DELETE targets the properties directory itself (delete all) |
| Base.ReplaceAllPropertiesCall | lib/Base.js:77-88 | a PUT of the props object to the properties URL |
| Base.ReplaceWithKey | lib/Base.js:81-85 | called with a key, the body is the single-entry object {key: value} |
| Base.ReplaceAllPropertiesResolves | lib/Base.js:77-88 | autoBatch resolves the call: PUT to the properties URL itself with the errorOnly callback, one request carrying the props object; an array body is one PUT per element, and a function body throws |
| Base.Entries | lib/Base.js:99 | for-in yields an object's own keys in order with their values, or an array's indices "0", "1", … with its elements; nothing for any other value |
| Base.SetPropertiesCall | lib/Base.js:90-111 | a props object becomes key and value lists of equal length, key[i] with its value, in iteration order; an array value with a single key is wrapped in a one-element list |
| Base.SetPropertiesResolves | lib/Base.js:90-111 | autoBatch resolves the list: PUT through the properties factory with the errorOnly callback; parallel key and value arrays give one request per value, request i to the URL of key i carrying value i; a single key gives requests to that key's URL, one per element of a (wrapped) array value, or one request carrying a plain value |
| Base.SplitPairsKeysWithValues | lib/Base.js:99-103 | value[i] is the props entry for key[i] |
| Base.WrappedArraySentWhole | lib/Base.js:105-108 | a wrapped array value is sent once, as one body, not fanned out |
| Base.SetPropertyExample | lib/Base.js:36-40 | `setProperty('b', 'three', cb)` binds key 'b', value 'three' and the callback |
| Base.SetPropsOptional | lib/Base.js:36-40 | the property format has 4 optional specs |
| Graph.BatchedOptional | lib/Graph.js:17-23 | the data and id formats have one optional parameter, the batch |
| Graph.BatchedArguments | lib/Graph.js:17-23 | under the data and id formats, `(x, callback)` leaves the batch absent, `(batch, x, callback)` binds all three, a non-batch first of three arguments or a non-function callback throws, and one argument is not enough |
| Graph.QueryOptional | lib/Graph.js:25-29 | the query format has three optional parameters: batch, profile and params |
| Graph.QueryWithCallback | lib/Graph.js:25-29 | `query(q, callback)` binds the query and callback and leaves batch, profile and params absent |
| Graph.QueryWithParams | lib/Graph.js:25-29 | `query(q, params, callback)` binds params when it is an object, and throws otherwise |
| Graph.QueryWithProfile | lib/Graph.js:25-29 | `query(profile, q, callback)` binds a boolean first argument as the profile flag |
| Graph.QueryBody | lib/Graph.js:51 | the body carries the query, and `params` always: the given params when truthy, otherwise an empty object |
| Graph.QueryTarget | lib/Graph.js:53 | with `profile` the endpoint is cypher joined with '?profile=true', otherwise the named 'cypher' endpoint |
| Graph.QueryEndpoint | lib/Graph.js:53 | defines the query target: cypher joined with '?profile=true' when profiling, else the name 'cypher' |
| Graph.Query | lib/Graph.js:48-55 | one POST request with that body and endpoint, batched or sent |
| Graph.ColumnShape | lib/Graph.js:75-98 | exactly an object with string `self` and object `data` is an entity, a Relationship exactly when `start` is also a string, else a Node; exactly an object that is not an entity but has string `start` and `end` and object `nodes` is a Path; everything else, null and non-objects included, stays raw |
| Graph.Convert | lib/Graph.js:100 | defines how a cell is converted by its column's shape: kept raw, built as a Node or Relationship (which can throw), or wrapped as a Path |
| Graph.RecordOf | lib/Graph.js:73-101 | defines the record of one row after n columns: each cell converted by row 0's shape of its column and stored under the column name, a later column of the same name overwriting; a throwing conversion ends it |
| Graph.ShapedRows | lib/Graph.js:68-101 | defines the records of the first n rows, all shaped by row 0, a throwing row ending the result |
| Graph.RecordKeys | lib/Graph.js:73-101 | a built record has one key per column name, and every cell of the row converted without throwing |
| Graph.RowsAreRecords | lib/Graph.js:68-101 | the result has one record per data row, each built with the column kinds decided from row 0 |
| Graph.RecordStopsAtError | lib/Graph.js:100 | a throwing column ends the record |
| Graph.RowsStopAtError | lib/Graph.js:68-101 | a throwing row ends the result |
| Graph.RecordValue | lib/Graph.js:100 | a record's entry is the converted cell of the last column of that name |
| Graph.RawColumnStaysRaw | lib/Graph.js:94-100 | a column whose row-0 cell is falsy passes every cell through unchanged |
| Graph.LaterNullCellThrows | lib/Graph.js:75-100 | a null cell in a later row of an entity column makes the shaping throw |
| Graph.ShapeRow | lib/Graph.js:70-101 | the inner loop builds the row's record, pushing the column kinds while reading row 0, and throws exactly when a cell's constructor throws |
| Graph.ShapeResults | lib/Graph.js:63-107 | the nested loops compute the shaped rows, and throw exactly when they fail; the plan is attached only when there are rows |
| Graph.CompleteQuery | lib/Graph.js:55-108 | an error goes to the callback alone; otherwise the rows shaped by `ColumnShape` and `Convert`, and, when there are rows, the plan |
| Graph.IdFor | lib/Graph.js:133 | an instance of the kind is replaced by its id; any other value is kept |
| Graph.NormalizeIds | lib/Graph.js:127-141 | defines the id normalisation of the deletes: an instance of the kind becomes its id; an array holding one is mapped element by element; anything else is kept |
| Graph.NormalizeIsMap | lib/Graph.js:127-141 | normalisation maps `IdFor` over an array and applies it to a single value |
| Graph.NormalizeRemovesEntities | lib/Graph.js:172-186 | no instance of the kind survives, the length is kept, and normalising again changes nothing |
| Graph.PlainIdsUnchanged | lib/Graph.js:127-141 | ids that are already plain are left unchanged |
| Graph.CreateNodeCall | lib/Graph.js:117-121 | the argument list handed to autoBatch: batch, the name 'node', POST, the data and the node callback |
| Graph.CreateNodeResolves | lib/Graph.js:117-121 | autoBatch resolves it: a function as data throws; otherwise POST to the 'node' endpoint with the node callback, one request per element of an array of data, else one request carrying the data whose result is unwrapped |
| Graph.GetCall | lib/Graph.js:146-150 | the argument list handed to autoBatch: batch, the entity endpoint factory, the id, GET, null and the entity callback |
| Graph.GetResolves | lib/Graph.js:146-150 | autoBatch resolves it: GET with no body and the entity callback; a single id is one request to the entity endpoint for that id whose result is unwrapped; an array of ids is one request per id |
| Graph.DeleteCall | lib/Graph.js:123-144 | the argument list handed to autoBatch: the normalised ids with DELETE, null data and an errorOnly callback |
| Graph.DeleteResolves | lib/Graph.js:123-144 | autoBatch resolves it: DELETE with no body and the errorOnly callback; a single id (or instance) is one request to the endpoint of its id; an array is one request per element, each instance replaced by its id |
| Graph.DeleteTargetsEachId | lib/Graph.js:127-143 | deleting an instance in a list targets the endpoint of its id |
| Node.EntityCallback | lib/Node.js:47-73 | an error is forwarded alone; an array body becomes a same-length list of Nodes; otherwise a single Node; a body without a parsable id throws |
| Node.BuildEntities | lib/Node.js:59-63 | the push loop builds one instance per element, or throws at the first that cannot be built |
| Node.ListedNodesKeepIds | lib/Node.js:57-65 | the i-th node of a listed body has the id of the i-th self URL |
| Node.ReplaceFirst | lib/Node.js:128 | defines `replace` with a string pattern: the first occurrence replaced, the string unchanged when there is none |
| Node.IndexFrom | lib/Node.js:128 | the first occurrence of the pattern at or after k, or -1 |
| Node.ReplaceFirstAt | lib/Node.js:128 | replacing the first occurrence only rewrites that occurrence |
| Node.RelationshipBody | lib/Node.js:113-117 | the body has `type`; `to` is the node's self URL or the 'node' endpoint href for the id; `data` only when truthy |
| Node.BodyToById | lib/Node.js:114 | by id, `to` is the 'node' pathname joined with the id, as an absolute URL (an absent port reads "null") |
| Node.CreateUrl | lib/Node.js:119-129 | from a Node, its create_relationship URL |
| Node.CreateUrlFromId | lib/Node.js:126-128 | otherwise the to-node's create_relationship URL with the first '/'+to.id+'/' replaced by '/'+from+'/' |
| Node.RelationshipRequest | lib/Node.js:111-131 | defines createRelationship's request: a POST of the body to the create URL with the relationship callback, or a throw when either cannot be built |
| Node.CreateRelationship | lib/Node.js:111-132 | one POST request with that body and endpoint, batched or sent; throws when the body cannot be built |
| Node.CreateRelationshipTo | lib/Node.js:81-85 | passes (this, node) as (from, to); a throw leaves the wire and the batch unchanged |
| Node.CreateRelationshipFrom | lib/Node.js:75-79 | passes (node, this) as (from, to); a throw leaves the wire and the batch unchanged |
| Node.DirectionBetweenNodes | lib/Node.js:113-122 | between two nodes, the request goes to from's create_relationship URL with `to` set to to's self URL |
| Node.JoinTypes | lib/Node.js:142 | defines `types.join('&')`: each element written as join writes it, an instance as "[object Object]" |
| Node.RelationshipsEndpoint | lib/Node.js:134-143 | a single type, or the types joined with '&', is joined onto the endpoint; neither leaves it unchanged |
| Node.TwoTypesJoined | lib/Node.js:142 | two types give the path pathJoin(pathname, a + '&' + b) |
| Node.GetRelationships | lib/Node.js:134-146 | one GET request on that endpoint with the relationship callback, appended to the batch or sent; a bad type list throws and changes neither the batch nor the wire |

## Left out

- HTTP transport, TLS selection, headers and streaming (lib/Neo4jApi.js:191-217, 231-234):
  - `Connection.Send` appends the request to a `wire` log;
  - responses are given to the model as `HttpOutcome`/`Completion` values.
- `JSON.parse`/`JSON.stringify`: a response body is either already parsed or marked
  malformed. Node's `Url.parse` is a function parameter `parse`.
- `process.nextTick` and all asynchrony: completions are explicit values handed to
  `Combiner.Complete`, `DeliverBatch`, `CompleteQuery`, `CompleteDiscovery` and
  `EntityCallback`. Concurrency is not modelled.
- JavaScript prototype plumbing (`inherit`, `Object.freeze`, `defineProperty`):
  - an instance is the immutable `Entity` value;
  - `PreProcessedContent` is not part of this model.
- The `arguer` calls in lib/Node.js:77, 83 and 89 belong to an external library. The
  `CreateRelationship*` and `GetRelationships` methods take their arguments already
  resolved, and `getAll/Incoming/OutgoingRelationships` are not modelled beyond
  `GetRelationships`.
- `refreshProperties` (lib/Base.js:64-75): its assignment inside a plain callback does
  not update the instance, so there is nothing reliable to state.
- lib/Relationship.js is covered only as far as `NewEntity`'s parse of `start` and
  `end` (a throw when they do not end in digits). The `type`, `start` and `end`
  fields are not stored on the instance, and `relationshipCallback` shares
  `EntityCallback`.
- lib/Path.js is not part of this model. A Path instance wraps its raw object.
- Numbers are mathematical integers. Floating point, NaN, and non-numeric `status` or
  `id` fields in batch replies are not modelled; an invalid id throws.
- Neo4jApi.WithCreated: a missing base gives the empty endpoint `NoFields`, which
  stands for JavaScript's `{}`.
- Neo4jApi.GetEndpoint: an unknown name gives `None`, where JavaScript would go on
  with `undefined` and throw later.
- Neo4jApi.Connection.CompleteDiscovery: a discovery body that is not an object walks
  no keys.
- AutoBatch.CallFactory: only factories that are bound `getEndpoint`s produce an
  endpoint; any other factory gives undefined.
- Requests added to a batch after it has been run are not modelled.
- Graph.CompleteQuery: rows that are not arrays give undefined cells, and `data` or
  `columns` that are not arrays are treated as empty.
- Base.Entries: for-in over a value that is neither an object nor an array yields no
  entries.
- The per-call resolution lemmas (`CreateNodeResolves`, `GetResolves`, `DeleteResolves`,
  `DeletePropertiesResolves`, `ReplaceAllPropertiesResolves`, `SetPropertiesResolves`)
  state where request i goes only when element i of an id or key array is defined and
  not itself an array. An undefined element makes the source call the factory with no
  argument, and a nested array spreads into `factory.apply`. Neither case is stated.
- The `count` parameter of `autoBatch` is never passed by these calls, so the
  resolution lemmas cover only the shapes without it.
- Ids given as digit strings and entry ids other than numbers (`"0"` in a batch reply)
  are not modelled: an entry id must be a number to route, and a non-numeric status is
  not above 204.
- Node.ReplaceFirst: the `$&`, `$$` and similar replacement patterns of
  `String.prototype.replace` are not expanded. The replacement is `'/' + from + '/'`, so
  they matter only for an id containing '$'.
- An object reply with a `length` key, or with entries under numeric keys, is treated
  like any other object without a length (unreadable). The source would read its
  `length` and index it.
- Neo4jApi.GetEndpoint: an endpoint whose `pathname` is absent would give `pathJoin`
  null in the source; here it is the empty string.
- `isNode`, `isPath`, `isRelationship` and `createBatch` in lib/Graph.js are single
  `instanceof` tests or constructor calls, covered by `InstanceOf` and
  `Batch.constructor`.
