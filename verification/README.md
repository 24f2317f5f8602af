# grpc-mock, modelled in Dafny

grpc-mock is a transparent gRPC proxy. It sits in front of real backends. For each call it either answers with a mock response taken from a registered case, or it relays the call unchanged to the backend that serves the method. The repository holds two generations of this proxy, and this project models the decision and bookkeeping core of both:

- **The in-memory generation.**
  - `CaseManager` is the case registry, a map from method to case name to case.
  - `DialManager` is the upstream registry. It maps upstream names to clients and routes methods to clients.
  - `Match` is the mock decision chain: metadata first, then rules over the request body.
  - `Handler` is the call handler.
- **The store-backed generation.**
  - `MockMgr` builds the case and routing snapshot from a key/value store. It also validates and writes case batches.
  - `CaseMatch` holds the metadata and rule matchers over that snapshot.
  - `RulePath` hides and restores the JSON paths used in rules.
  - `OldHandler` is the call handler with its `shouldMock`/`mustMock` gate.
- **Shared pieces.**
  - `Director` is the routing table the stream director consults. A new table replaces the old one whole.
  - `Relay` covers the stream plumbing: draining the caller's frames, the two forwarding loops and the join.
  - `Render` is the default-message JSON renderer, with `SortKeys` for the order of map keys.
- **Helpers.** `Store`, `Text`, `Decimal`, `Base64`, `Metadata`/`Settings`, `Types` and `Wrappers` hold the Redis commands used, `strings.Replace`, `strconv`, standard base64, call metadata with the configured keys, and the shared entities.

Each code path that updates state step by step is an imperative Dafny method. The registries are classes whose methods update `map` fields. The snapshot builder, the write and delete passes, the forwarding loops, the join loop and the buffer writers are methods with loops. Each such method is proved against a specification function, and the lemmas about that function state what the source promises. Pure decisions are functions.

Foreign code is passed in as function-valued parameters or fields, with no behaviour assumed beyond what they return:
- reflection-based schema discovery;
- the `expr` and `govaluate` rule evaluators;
- `gjson`/`ajson` path lookups;
- the `jsonpb` and proto codecs;
- `json.Marshal` on a string;
- dialling a client.

The transport is reduced to its results:
- A caller or backend stream is the frames it yields, followed by the error that ends it.
- A writing side accepts some number of writes and then fails.
- The two forwarding goroutines are run one after the other. The `select` in the join is modelled by the order in which their two results arrive.

A Go panic is an outcome (`Crash`, `Panicked`, `Panic`) wherever a caller can reach it with ordinary input:
- an unchecked type assertion on a rule result;
- a sort of incomparable map keys;
- a map field without an entry type.

Go map iteration order is left open: where the source ranges over a map, the contract holds for every listing order.

Where the code and the design description disagree, the model follows the code:
- The store-backed reload hands the new route table to the director before it loads any case. A reload that then fails has already replaced the routes, while the previous case snapshot stays (`MockMgr.ReloadFailsOnListedCase`).
- The store-backed handler hands the matchers a request with no metadata. Case selection by metadata, and the custom-case key, therefore never fire on that path (`OldHandler.OldProxyHandler.MatchersSeeNoMetadata`).

## Model

| member | source | states |
|---|---|---|
| CaseManager.Lookup | internal/casemanager/manager.go:49-62 | the answer of a lookup: the case stored under (method, name), otherwise the zero Case |
| CaseManager.Added | internal/casemanager/manager.go:21-31 | after adding c, (c.method, c.name) answers c; every other (method, name) answers as before; cases stay filed under their own method and name |
| CaseManager.Deleted | internal/casemanager/manager.go:33-47 | after deleting, (method, name) answers the zero Case; every other pair answers as before; deleting an absent entry changes nothing |
| CaseManager.SameNameOtherAppReplaces | internal/casemanager/manager.go:10-31 | cases are keyed by method and name only: a second case with the same method and name (e.g. of another tested app) replaces the first, which is no longer stored anywhere under that method |
| CaseManager.Manager.constructor | internal/casemanager/manager.go:15-19 | a new manager holds no cases |
| CaseManager.Manager.CaseAdd | internal/casemanager/manager.go:21-31 | the table becomes Added(old table, c), keeping the keying invariant; the Go error is always nil |
| CaseManager.Manager.CaseDel | internal/casemanager/manager.go:33-47 | the table becomes Deleted(old table, method, name); the Go error is always nil |
| CaseManager.Manager.CaseGet | internal/casemanager/manager.go:49-62 | returns Lookup: the stored case or the zero Case, never an error |
| CaseManager.Manager.CaseList | internal/casemanager/manager.go:64-78 | returns one case per stored name, each name once, in some order of the names; nothing for an unknown method |
| DialManager.RouteMethods | internal/dialmanager/manager.go:53-55 | every method of the list is routed to the client; every other route is untouched |
| DialManager.RouteServices | internal/dialmanager/manager.go:52-56 | every method of every service is routed to the new client, overwriting an earlier owner; all other routes are untouched |
| DialManager.AddAll | internal/dialmanager/manager.go:29-62 | a batch without error never loses a registered upstream name |
| DialManager.NoRollback | internal/dialmanager/manager.go:33-44 | when upstream k is the first that fails to dial or parse, the batch reports an error yet the registry equals the one after the first k upstreams, all of which stay registered (no rollback) |
| DialManager.AddOne | internal/dialmanager/manager.go:46-58 | one upstream that connects is stored under its name, replacing a namesake, and takes over the routes of every method it exports |
| DialManager.Registered | internal/dialmanager/manager.go:46-58 | the registry after one connecting upstream: its client under its name, every other upstream as before |
| DialManager.AddAllSucceeds | internal/dialmanager/manager.go:33-44 | a batch reports no error exactly when every upstream in it dials and can be listed (both directions) |
| DialManager.AddAllConcat | internal/dialmanager/manager.go:33-59 | a batch is its first part followed, when that part succeeds, by the rest on the registry it left; otherwise the first part's error and registry |
| DialManager.AddLast | internal/dialmanager/manager.go:46-58 | after a successful batch, one more connecting upstream is added exactly as a single AddUpstream adds it |
| DialManager.AddAllKeepsUpstream | internal/dialmanager/manager.go:58 | an upstream name no conf of a connecting batch carries keeps its client |
| DialManager.AddAllKeepsRoute | internal/dialmanager/manager.go:52-56 | a method no upstream of a connecting batch exports keeps its route |
| DialManager.SplitAt | internal/dialmanager/manager.go:33-59 | a connecting batch is its first k upstreams, then upstream k, then the rest |
| DialManager.AddAllRegisters | internal/dialmanager/manager.go:33-59 | in a connecting batch every upstream is registered under its name with the client built from its conf, unless a later one takes the name |
| DialManager.AddAllRoutes | internal/dialmanager/manager.go:33-59 | in a connecting batch a method is routed to the client of the last upstream that exports it |
| DialManager.ClientOf | internal/dialmanager/manager.go:46-50 | the client built for an upstream keeps its configuration |
| DialManager.Removed | internal/dialmanager/manager.go:64-76 | an unknown name gives ErrNotFound and no change; otherwise only that upstream entry goes, other upstreams are kept and every method route stays in place |
| DialManager.FindMethod | internal/dialmanager/manager.go:128-136 | finds a method with exactly the requested full name among the client's services, and finds none exactly when no service declares it |
| DialManager.FindIn | internal/dialmanager/manager.go:129-133 | the search within one service: a method of that name from the list, or none exactly when the list has none |
| DialManager.Detail | internal/dialmanager/manager.go:119-137 | an unrouted method gives ErrNotFound; a routed method whose client declares it gives its descriptor, whose full name is the one asked for |
| DialManager.Append | internal/dialmanager/manager.go:111 | appending a method name under a service adds exactly that pair to the listing |
| DialManager.GroupMethods | internal/dialmanager/manager.go:110-112 | the listing gains exactly the service's methods under the service's full name |
| DialManager.GroupServices | internal/dialmanager/manager.go:109-113 | the listing gains exactly the (service, method) pairs the services declare |
| DialManager.Manager.constructor | internal/dialmanager/manager.go:22-27 | a new manager has no upstreams and no routes |
| DialManager.Manager.AddUpstream | internal/dialmanager/manager.go:29-62 | the new registry and error are those of AddAll on the old registry, by nested loops over services and methods |
| DialManager.Manager.DelUpstream | internal/dialmanager/manager.go:64-76 | the new registry and error are those of Removed |
| DialManager.Manager.Upstream | internal/dialmanager/manager.go:78-88 | succeeds exactly for a registered name, with its stored configuration; otherwise an error |
| DialManager.Manager.Upstreams | internal/dialmanager/manager.go:90-100 | one configuration per registered upstream, every registered one present, nothing else |
| DialManager.Manager.Methods | internal/dialmanager/manager.go:102-117 | a method is listed under a service exactly when some registered upstream's services declare it there |
| DialManager.Manager.MethodDetail | internal/dialmanager/manager.go:119-137 | returns Detail of the registry: the search over the routing client's services, with early return |
| DialManager.Manager.UpstreamClient | internal/dialmanager/manager.go:139-149 | succeeds exactly when the method has a route, by exact key, with that client's connection; otherwise ErrNotFound |
| Metadata.Values | internal/match/match.go:168 | the values sent under a key: the key's list, or none when it is absent |
| Metadata.First | internal/match/match.go:167-173 | the first value under a key, or "" when there is none |
| Metadata.FirstIsSent | internal/logic/proxy/handler.go:189-195 | a non-empty answer of getMetadata was really sent as the first value under that key |
| Match.MetadataSpec | internal/match/match.go:42-97 | metadata matching either answers "no match" with no mock response, or a metadata match, or an error; never a body match |
| Match.RuleCases | internal/match/match.go:105-110 | exactly the listed cases that carry a non-empty rule, in list order |
| Match.Search | internal/match/match.go:142-160 | no result exactly when no candidate's rule is boolean true with a decodable body; otherwise the decoded body of the first candidate that is |
| Match.BodySpec | internal/match/match.go:99-165 | body matching answers "no match", a body match or an error; never a metadata match |
| Match.MetadataMatchIff | internal/match/match.go:42-97 | a metadata match happens exactly when all three settings are non-empty, the first enable value is the configured one, a case name is given, a case is stored under it with a non-empty body, the method is known and that body decodes (both directions; a missing case counts as an empty body) |
| Match.MetadataGates | internal/match/match.go:43-77 | an unconfigured setting, a different enable value, an empty case name, a missing case or an empty body each give "no match" and no error |
| Match.MetadataFirst | internal/match/match.go:29-40 | a metadata error or match is the final answer and the listed cases do not matter; only "no match" falls through to body matching |
| Match.BodyWithoutRules | internal/match/match.go:105-115 | without a rule-bearing case the answer is "no match", whatever the method, request or codecs |
| Match.BodyOutcome | internal/match/match.go:117-164 | an unknown method or an undecodable request is an error; otherwise the answer is a body match with the first candidate, in list order, whose rule is true and whose body decodes (both directions), and "no match" exactly when none does |
| Match.WinnerUnique | internal/match/match.go:142-158 | the first candidate to fire is unique and the search returns its decoded body |
| Match.Matcher.constructor | internal/match/match.go:23-27 | a matcher holds the settings, the two managers and the codecs it is given |
| Match.Matcher.MatchWithMetadata | internal/match/match.go:42-97 | returns MetadataSpec over the managers' current state |
| Match.Matcher.MatchWithRequestBody | internal/match/match.go:99-165 | returns BodySpec for the order in which the case manager listed the method's cases; the rule filter and the search are loops with early return |
| Match.SelectRuleCases | internal/match/match.go:105-110 | the filtering loop keeps exactly RuleCases |
| Match.SearchCases | internal/match/match.go:142-160 | the loop with early return finds exactly what Search finds |
| Match.Matcher.Match | internal/match/match.go:29-40 | a metadata error or match is returned as it is; after "no match" the answer is body matching's over the listed cases |
| CaseMatch.Coerce | internal/logic/mockmgr/case_match.go:159-174 | a non-string node keeps its value; a string node becomes the int64 it parses as, exactly when it parses as one; else the uint64 it parses as, exactly when it parses as one (then above the int64 range); else the string itself |
| CaseMatch.CoerceInt64 | internal/logic/mockmgr/case_match.go:159-165 | every int64 written as a decimal string is read back as that int64 |
| CaseMatch.CoerceUint64 | internal/logic/mockmgr/case_match.go:167-170 | every uint64 above the int64 range written as a decimal string is read back as that uint64 |
| CaseMatch.GetValue | internal/logic/mockmgr/case_match.go:146-175 | fails exactly when the JSONPath restored by the corrected RestorePath finds no node or more than one; otherwise the coerced value of the one node |
| CaseMatch.Bound | internal/logic/mockmgr/case_match.go:120-126 | a variable whose lookup fails is bound to "" and evaluation goes on; otherwise to its value |
| CaseMatch.Params | internal/logic/mockmgr/case_match.go:118-126 | the parameter map has exactly the rule's variables as keys, each bound as above |
| CaseMatch.Scan | internal/logic/mockmgr/case_match.go:112-144 | finds nothing exactly when every candidate's evaluation fails or is false |
| CaseMatch.ScanDecides | internal/logic/mockmgr/case_match.go:128-138 | the first candidate that is neither failing nor false decides: its body when true, a panic of the type assertion when not boolean |
| CaseMatch.ByMetadata | internal/logic/mockmgr/case_match.go:184-212 | a configured custom-case value is returned verbatim; otherwise no case name or no loaded cases give nothing, and a result is the body stored under method, app and case name |
| CaseMatch.ByMetadataFindsCase | internal/logic/mockmgr/case_match.go:205-208 | a stored case named in the metadata is found, whatever its rule |
| CaseMatch.ByMetaSpec | internal/logic/mockmgr/case_match.go:80-110 | an unknown method gives nothing; a response is the metadata match decoded into the output type |
| CaseMatch.NoMetadataNoMatch | internal/logic/mockmgr/case_match.go:184-203 | asked with empty metadata, the metadata matcher never matches |
| CaseMatch.StripBackslashes | internal/logic/mockmgr/case_match.go:247 | no backslash is left; every other character keeps its number of occurrences; a text without backslashes is unchanged |
| CaseMatch.StripConcat | internal/logic/mockmgr/case_match.go:247 | removal works piece by piece, so the remaining characters keep their order |
| CaseMatch.RequestJson | internal/logic/mockmgr/case_match.go:232-247 | present exactly when the request decodes and encodes as JSON; then free of backslashes |
| CaseMatch.ByBodySpec | internal/logic/mockmgr/case_match.go:222-264 | an unknown method or no candidates give a miss; a panic only happens when some candidate decides the search with a non-boolean result |
| CaseMatch.PanicWitness | internal/logic/mockmgr/case_match.go:135 | a search that panics has a deciding candidate |
| CaseMatch.ByBodyHit | internal/logic/mockmgr/case_match.go:251-259 | when the first deciding candidate is true, the answer is its body decoded into the output type, or a miss if that fails |
| CaseMatch.CasesOf | internal/logic/mockmgr/case_match.go:55-64 | the candidates of one app: exactly its cases that have a compiled rule |
| CaseMatch.GetExpressions | internal/logic/mockmgr/case_match.go:39-68 | exactly the compiled-rule cases of the method, of every app when the app name is empty and of that app only otherwise |
| CaseMatch.BuildParameters | internal/logic/mockmgr/case_match.go:118-126 | the loop builds exactly Params |
| CaseMatch.MatchRules | internal/logic/mockmgr/case_match.go:112-144 | the loop with early return gives exactly Scan |
| MockMgr.App2MethodsKey | internal/logic/mockmgr/case_manager.go:35-38 | the store key listing an app's methods: the fixed prefix followed by the app name |
| MockMgr.Method2CasesKey | internal/logic/mockmgr/case_manager.go:40-43 | the store key listing the case names of an app's method: prefix, app, '_', method |
| MockMgr.CaseBodyKey | internal/logic/mockmgr/case_manager.go:45-48 | the store key of a case body: prefix, app, '_', method, '_', case name |
| MockMgr.CaseKeysCollide | internal/logic/mockmgr/case_manager.go:45-48 | underscores are not escaped, so two different (method, case name) pairs of one app share a body key |
| MockMgr.AddMethods | internal/logic/mockmgr/case_manager.go:142-147 | every method of the service is recorded and routed to the endpoint; routes to that endpoint stay; recorded methods and routes name the same methods |
| MockMgr.AddServices | internal/logic/mockmgr/case_manager.go:132-148 | only the endpoint's entry of the service map changes; the reflection service is never recorded; methods and routes stay aligned |
| MockMgr.ScanUpstreams | internal/logic/mockmgr/case_manager.go:123-149 | the scan of all upstreams never records the reflection service and keeps methods and routes aligned |
| MockMgr.ScanConcat | internal/logic/mockmgr/case_manager.go:123-149 | scanning a list of upstreams is scanning its two halves in turn |
| MockMgr.ParseFailureSkipped | internal/logic/mockmgr/case_manager.go:124-128 | an upstream that fails to parse contributes nothing: the result is as if it were not listed |
| MockMgr.Stripped | internal/logic/mockmgr/case_manager.go:134-136 | the services of an endpoint without the reflection service, every other one kept |
| MockMgr.ReflectionIgnored | internal/logic/mockmgr/case_manager.go:134-136 | scanning is the same when the reflection service is removed from every parser answer |
| MockMgr.LastUpstreamWins | internal/logic/mockmgr/case_manager.go:142-147 | the last upstream to declare a method is the endpoint it is routed to |
| MockMgr.LastServiceWins | internal/logic/mockmgr/case_manager.go:132-147 | within one endpoint every method of a listed, non-reflection service ends up routed to it |
| MockMgr.AddServicesKeepsRoute | internal/logic/mockmgr/case_manager.go:132-147 | later services of the same endpoint keep an existing route to that endpoint |
| MockMgr.RecordFirst | internal/logic/mockmgr/case_manager.go:144-146 | recording the first method files its descriptor under its name, and the rest of the service is recorded after it |
| MockMgr.AddMethodsKeeps | internal/logic/mockmgr/case_manager.go:142-147 | a method the service does not declare keeps its recorded descriptor |
| MockMgr.AddMethodsRecords | internal/logic/mockmgr/case_manager.go:142-147 | a method of the service is recorded with its own descriptor unless a later method of the same name replaces it |
| MockMgr.AddMethodsNamed | internal/logic/mockmgr/case_manager.go:142-147 | recording keeps every descriptor filed under its own name |
| MockMgr.AddServicesKeepsMethod | internal/logic/mockmgr/case_manager.go:132-147 | a method no non-reflection service of the endpoint declares keeps its descriptor |
| MockMgr.AddServicesRecords | internal/logic/mockmgr/case_manager.go:132-147 | a method is recorded with the descriptor of its last declaration among the endpoint's services |
| MockMgr.AddServicesNamed | internal/logic/mockmgr/case_manager.go:132-147 | recording an endpoint keeps every descriptor filed under its own name |
| MockMgr.ScanNamed | internal/logic/mockmgr/case_manager.go:123-149 | a scan files every descriptor under its own name |
| MockMgr.LastUpstreamRecords | internal/logic/mockmgr/case_manager.go:123-149 | the descriptor recorded for a method is that of its last declaration by the last upstream to declare it |
| MockMgr.LoadCase | internal/logic/mockmgr/case_manager.go:175-191 | a loaded case is what the store holds under its body key, decoded; it has a compiled rule exactly when its rule is non-empty (the rule is compiled with the corrected EscapePath) |
| MockMgr.Put3 | internal/logic/mockmgr/case_manager.go:193-200 | the case is stored under method, app and name; every other entry is kept and nothing else is added |
| MockMgr.LoadNames | internal/logic/mockmgr/case_manager.go:175-201 | on success every listed name of the method is loaded, earlier entries stay, and every entry is what loading it gives |
| MockMgr.LoadMethods | internal/logic/mockmgr/case_manager.go:168-202 | on success every listed case of every listed method of the app is loaded, and entries stay sound |
| MockMgr.LoadApps | internal/logic/mockmgr/case_manager.go:161-203 | on success every case the store lists for any listed app is loaded, and entries stay sound |
| MockMgr.LoadNamesFails | internal/logic/mockmgr/case_manager.go:175-180 | one listed case that fails to load fails its method |
| MockMgr.LoadMethodsFails | internal/logic/mockmgr/case_manager.go:168-173 | one listed case that fails to load fails its app |
| MockMgr.LoadAppsFails | internal/logic/mockmgr/case_manager.go:161-166 | one listed case that fails to load fails the whole case phase |
| MockMgr.ReloadSpec | internal/logic/mockmgr/case_manager.go:109-206 | routes are handed to the director exactly when the upstream list can be read, and a snapshot is only produced after them |
| MockMgr.ReloadSound | internal/logic/mockmgr/case_manager.go:109-206 | a successful reload holds every listed case, each as loading it gives; its methods are exactly its routes; every method descriptor is filed under its own name; the reflection service is never recorded |
| MockMgr.ReloadFailsOnListedCase | internal/logic/mockmgr/case_manager.go:151-189 | a listed case that cannot be loaded fails the reload, yet the new routes have already been published |
| MockMgr.DanglingNameFailsReload | internal/logic/mockmgr/case_manager.go:486-497 | a listed case name whose body key is gone reads as an empty text that does not decode, so every reload fails from then on |
| MockMgr.ScanUpstreamsLoop | internal/logic/mockmgr/case_manager.go:110-149 | the nested loops compute exactly ScanUpstreams |
| MockMgr.AddServicesLoop | internal/logic/mockmgr/case_manager.go:132-148 | the loop over an endpoint's services computes exactly AddServices |
| MockMgr.AddMethodsLoop | internal/logic/mockmgr/case_manager.go:142-147 | the loop over a service's methods computes exactly AddMethods |
| MockMgr.LoadAppsLoop | internal/logic/mockmgr/case_manager.go:153-205 | the nested loops with early return compute exactly LoadApps |
| MockMgr.MethodOf | internal/logic/mockmgr/case_manager.go:294-302 | a method descriptor exactly when a snapshot exists and records the method |
| MockMgr.CasesOfSnapshot | internal/logic/mockmgr/case_manager.go:269-277 | the case table exactly when a snapshot exists |
| MockMgr.Check | internal/logic/mockmgr/case_manager.go:381-394 | a case is accepted exactly when its body, name, method and app are non-empty, its method is known and its body decodes into the output type |
| MockMgr.Validate | internal/logic/mockmgr/case_manager.go:380-395 | the batch is accepted exactly when every case is; otherwise the error is that of a refused case |
| MockMgr.WriteCase | internal/logic/mockmgr/case_manager.go:397-427 | writing one case never undoes earlier writes; with every key reachable the case's app, method and name are listed and its encoded body is set |
| MockMgr.WriteAll | internal/logic/mockmgr/case_manager.go:397-427 | the write pass never undoes a write |
| MockMgr.WrittenStays | internal/logic/mockmgr/case_manager.go:397-427 | a written case stays written through later writes |
| MockMgr.WriteAllStores | internal/logic/mockmgr/case_manager.go:397-427 | with every key reachable, each case of an accepted batch ends up listed and stored |
| MockMgr.DelAll | internal/logic/mockmgr/case_manager.go:360-377 | deleting never adds a key or a set member; keys other than the batch's body and listing keys keep their values; unreachable keys keep their values; an empty batch changes nothing and keeps the error |
| MockMgr.DelLastDecides | internal/logic/mockmgr/case_manager.go:360-377 | when the last case's keys are reachable, the reported error is nil whatever happened before |
| MockMgr.DelMasksFailure | internal/logic/mockmgr/case_manager.go:360-377 | a batch whose first body could not be deleted and whose last case could reports success while the first body stays |
| MockMgr.DeletedStays | internal/logic/mockmgr/case_manager.go:360-377 | a deleted case stays deleted through later deletes |
| MockMgr.DelAllDeletes | internal/logic/mockmgr/case_manager.go:360-377 | with every key reachable, each case of the batch ends with its body unset and its name unlisted, and the error is nil |
| MockMgr.DeletedAt | internal/logic/mockmgr/case_manager.go:360-377 | with every key reachable, case i of the batch ends deleted |
| MockMgr.CaseMgr.constructor | internal/logic/mockmgr/case_manager.go:70-80 | one reload at start: its snapshot is served if it succeeded, nothing otherwise; its routes reach the director if the upstreams were read |
| MockMgr.CaseMgr.ReloadCases | internal/logic/mockmgr/case_manager.go:109-206 | returns ReloadSpec's snapshot, and the director holds ReloadSpec's routes when there are any, else what it held |
| MockMgr.CaseMgr.Refresh | internal/logic/mockmgr/case_manager.go:81-91 | a successful reload replaces the snapshot; a failed one keeps the previous snapshot |
| MockMgr.CaseMgr.GetCases | internal/logic/mockmgr/case_manager.go:269-277 | the cases of the current snapshot, nothing before the first success |
| MockMgr.CaseMgr.GetMethodDesc | internal/logic/mockmgr/case_manager.go:294-302 | the method descriptor of the current snapshot |
| MockMgr.CaseMgr.SetCases | internal/logic/mockmgr/case_manager.go:379-430 | a refused batch writes nothing and returns Validate's error; an accepted batch applies the write pass and returns nil; the snapshot is unchanged |
| MockMgr.CaseMgr.DelCases | internal/logic/mockmgr/case_manager.go:360-377 | the store and the error become those of DelAll, the error of the last command run; with every key reachable each case of the batch is deleted |
| MockMgr.CaseMgr.GetMockResponseByMeta | internal/logic/mockmgr/case_match.go:80-110 | the response is ByMetaSpec over the current snapshot, and matched holds exactly when there is one |
| MockMgr.CaseMgr.GetMockResponseByBody | internal/logic/mockmgr/case_match.go:222-264 | the verdict is ByBodySpec over the candidates gathered from the current snapshot for the method and app |
| MockMgr.AddServicesStripped | internal/logic/mockmgr/case_manager.go:134-136 | recording an endpoint's services gives the same catalog with the reflection service removed beforehand |
| Store.Members | internal/logic/mockmgr/case_manager.go:465-473 | SMEMBERS: fails exactly on an unreachable key; otherwise the set's members, none for a missing key |
| Store.Add | internal/logic/mockmgr/case_manager.go:398-414 | SADD: fails exactly on an unreachable key; otherwise the member is in the set, earlier members stay and no other key changes |
| Store.Without | internal/logic/mockmgr/case_manager.go:369 | a member is left exactly when it was there and is not the removed one |
| Store.Remove | internal/logic/mockmgr/case_manager.go:369 | SREM: fails exactly on an unreachable key; otherwise the member is gone, no member is added and no other key changes |
| Store.Get | internal/logic/mockmgr/case_manager.go:486-491 | GET: fails exactly on an unreachable key; a missing key reads as the empty string without an error |
| Store.Put | internal/logic/mockmgr/case_manager.go:422 | SET: fails exactly on an unreachable key; otherwise the key holds the value and no other key changes |
| Store.Delete | internal/logic/mockmgr/case_manager.go:363 | DEL: fails exactly on an unreachable key; otherwise the key is gone and no other key changes |
| Store.GetAfterDelete | internal/logic/mockmgr/case_manager.go:486-491 | a deleted case body reads back as the empty string, not as an error |
| Store.RemoveAfterAdd | internal/logic/mockmgr/case_manager.go:369 | after SADD then SREM of a name the set no longer lists it |
| Text.ReplaceAll | internal/logic/mockmgr/case_manager.go:434 | strings.Replace with n = -1: a text shorter than the pattern is unchanged |
| Text.ReplaceAllCons | internal/logic/mockmgr/case_manager.go:434 | a leading character that cannot start the pattern is kept and the rest is replaced on its own |
| RulePath.RemoveJPath | internal/logic/mockmgr/case_manager.go:433-437 | the rule as written: every '.' replaced by the magic string, so no '.' is left |
| RulePath.RestoreJPath | internal/logic/mockmgr/case_match.go:177-181 | the path as written: "$." in front, then every magic string turned back into '.' |
| RulePath.RoundTripWithoutA0 | internal/logic/mockmgr/case_match.go:177-181 | for a name with no "a0" in it, restoring the hidden name gives "$." followed by the name |
| RulePath.RoundTripBreaksOnA0 | internal/logic/mockmgr/case_manager.go:433-437 | "data0.id" is hidden as "data0a0a0id" and restored as "$.dat.a0id", not "$.data0.id" |
| RulePath.EscapePath | internal/logic/mockmgr/case_manager.go:433-437 | the corrected hiding: no '.' is left, and the first character is kept unless it is a '.' |
| RulePath.UnescapePath | internal/logic/mockmgr/case_match.go:177-181 | the corrected restoring never lengthens a name |
| RulePath.RestorePath | internal/logic/mockmgr/case_match.go:177-181 | the corrected path always starts with "$." |
| RulePath.UnescapeEscape | internal/logic/mockmgr/case_match.go:177-181 | restoring undoes hiding for every name |
| RulePath.RestoreEscaped | internal/logic/mockmgr/case_match.go:146-148 | the corrected path of every hidden variable is "$." followed by what the rule wrote |
| RulePath.EscapeAgrees | internal/logic/mockmgr/case_manager.go:433-437 | on names without "a0" the corrected hiding is exactly the one as written |
| Decimal.FormatNat | internal/dialmanager/parser/message.go:259-263 | strconv.FormatUint: a non-empty digit string with no leading zero |
| Decimal.FormatInt | internal/dialmanager/parser/message.go:242-258 | strconv.FormatInt: digits, with a '-' in front exactly for a negative number |
| Decimal.ParseUint64 | internal/logic/mockmgr/case_match.go:167-170 | strconv.ParseUint(s, 10, 64): only values up to 2^64-1 are accepted |
| Decimal.ParseInt64 | internal/logic/mockmgr/case_match.go:159-165 | strconv.ParseInt(s, 10, 64): only values within int64 are accepted |
| Decimal.ParseFormatInt | internal/logic/mockmgr/case_match.go:159-165 | every int64 reads back from its formatted text |
| Decimal.ParseFormatUint | internal/logic/mockmgr/case_match.go:167-170 | every uint64 reads back from its formatted text |
| Decimal.UintOnlyRange | internal/logic/mockmgr/case_match.go:159-170 | a text that fails as int64 but parses as uint64 denotes a value above the int64 range |
| Base64.Char | internal/dialmanager/parser/message.go:287-289 | the standard alphabet never yields the padding character |
| Base64.Index | internal/dialmanager/parser/message.go:287-289 | a character's position, and the alphabet gives back that character; the padding character has none |
| Base64.IndexOfChar | internal/dialmanager/parser/message.go:287-289 | every alphabet position is found again from its character |
| Base64.DecodeEncode | internal/dialmanager/parser/message.go:287-289 | decoding the text of base64.StdEncoding gives back the bytes |
| Base64.EncodeLength | internal/dialmanager/parser/message.go:287-289 | four characters for every started group of three bytes |
| Base64.EncodeAlphabet | internal/dialmanager/parser/message.go:287-289 | the text uses only the alphabet and the padding character |
| Director.Route | internal/proxy/internal/director.go:56-66 | a connection exactly when the method name is in the table, that entry; otherwise "unregistered client" |
| Director.GrpcManager.constructor | internal/proxy/internal/director.go:33-38 | nothing stored yet |
| Director.GrpcManager.SetMethod2CliAtomic | internal/proxy/internal/director.go:46-48 | the new table replaces the stored one as a whole |
| Director.GrpcManager.StreamDirector | internal/proxy/internal/director.go:56-66 | the context comes back unchanged; the connection stored under the exact method name, or no connection and "unregistered client" |
| SortKeys.Irreflexive | internal/dialmanager/parser/sort.go:16-35 | no key is less than itself |
| SortKeys.Transitive | internal/dialmanager/parser/sort.go:16-35 | Less is transitive on keys of one kind |
| SortKeys.Total | internal/dialmanager/parser/sort.go:16-35 | of two different keys of one kind one is less than the other |
| SortKeys.StrLessIrreflexive | internal/dialmanager/parser/sort.go:28-29 | no string is less than itself |
| SortKeys.StrLessTransitive | internal/dialmanager/parser/sort.go:28-29 | the string order is transitive |
| SortKeys.StrLessTotal | internal/dialmanager/parser/sort.go:28-29 | of two different strings one is less than the other |
| SortKeys.FalseBeforeTrue | internal/dialmanager/parser/sort.go:30-31 | for bools exactly false is less than true |
| SortKeys.LeastExists | internal/dialmanager/parser/sort.go:16-35 | a non-empty set of keys of one kind has a least key |
| SortKeys.Sorted | internal/dialmanager/parser/message.go:178-183 | the keys of a map, each once, in strictly ascending order |
| SortKeys.Unique | internal/dialmanager/parser/message.go:178-183 | two ascending orders of the same keys are the same order, so the written order does not depend on the sort |
| SortKeys.Len | internal/dialmanager/parser/sort.go:12-14 | the number of keys |
| SortKeys.Swap | internal/dialmanager/parser/sort.go:37-39 | the two positions trade places, nothing else moves, the keys are a permutation of the old ones |
| Relay.Accepted | internal/proxy/internal/handler.go:189-208 | how many of n writes succeed: all of them, or as many as before the failing write |
| Relay.LastFrame | internal/proxy/internal/handler.go:86-92 | the last frame the caller sent, or nothing when none was sent |
| Relay.Drain | internal/proxy/internal/handler.go:86-92 | the receive loop keeps the last frame and reads once more than there are frames |
| Relay.ClientToServer | internal/proxy/internal/handler.go:189-208 | the buffered request, then the caller's later frames, are sent in order up to the first failed write; the result is that failure or the caller's end |
| Relay.ForwardClientToServer | internal/proxy/internal/handler.go:189-208 | the loop sends and reports exactly what ClientToServer says |
| Relay.Messages | internal/proxy/internal/handler.go:180 | one message event per frame, in order |
| Relay.HeaderFirst | internal/proxy/internal/handler.go:157-187 | the backend's header is sent once, before every message, and no trailer is sent by this loop |
| Relay.RelayInOrder | internal/proxy/internal/handler.go:157-187 | message i the caller gets is backend frame i |
| Relay.ForwardServerToClient | internal/proxy/internal/handler.go:157-187 | the loop sends and reports exactly what ServerToClient says |
| Relay.JoinSpec | internal/proxy/internal/handler.go:120-146 | with one result per side the unreachable error is never returned; success sets the trailer and cancels nothing; the call is cancelled exactly when it fails with Internal |
| Relay.Join | internal/proxy/internal/handler.go:120-146 | the select loop computes exactly JoinSpec |
| Relay.MockEvents | internal/proxy/internal/handler.go:216-230 | a mocked answer is an empty trailer, the header mock: matched, then the response once |
| Relay.Arrivals | internal/proxy/internal/handler.go:117-122 | either arrival order gives one result per side |
| Relay.ProxySpec | internal/proxy/internal/handler.go:107-146 | the unreachable error is never returned; a backend stream that does not open carries nothing either way |
| Relay.OnlyLastFrameForwarded | internal/proxy/internal/handler.go:86-92 | the backend gets exactly the last buffered frame, unless its first write fails; earlier frames are lost |
| Relay.ProxySucceeds | internal/proxy/internal/handler.go:120-146 | a proxied call succeeds exactly when the backend side ends with EOF and the caller side did not fail first |
| Relay.ProxyCall | internal/proxy/internal/handler.go:107-146 | the proxy phase does exactly what ProxySpec says |
| Handler.DoMockAsWritten | internal/proxy/internal/handler.go:232-248 | doMock as written: it reads the response's match type, defined only when the matcher succeeded; a mock is sent exactly when the type is not None |
| Handler.MatcherErrorReachesDoMock | internal/match/match.go:42-97 | for a routed method whose named case has a body that does not decode, the metadata matcher returns an error with no response, so the dereference is reachable |
| Handler.DoMockSpec | internal/proxy/internal/handler.go:210-249 | the corrected doMock: a matcher error is no match and nothing is sent; otherwise it agrees with the code as written |
| Handler.ProxyHandler.constructor | internal/proxy/internal/handler.go:30-37 | the handler keeps the director and the matcher it is given |
| Handler.ProxyHandler.DoMock | internal/proxy/internal/handler.go:210-249 | does exactly what DoMockSpec says with the matcher's answer |
| Handler.ProxyHandler.Handle | internal/proxy/internal/handler.go:53-147 | the call does exactly what the handler specification says: context checks, routing, draining, matching, then mock or proxy |
| Handler.ProxyHandler.ContextRequired | internal/proxy/internal/handler.go:59-69 | without a method name or metadata the call fails with Internal before routing, reading or matching |
| Handler.ProxyHandler.RouteBeforeMock | internal/proxy/internal/handler.go:73-76 | a director error is returned unchanged before any frame is read or the matcher asked |
| Handler.ProxyHandler.AskedWithLastFrame | internal/proxy/internal/handler.go:86-99 | the matcher is asked with the method, the caller's metadata and the last frame |
| Handler.ProxyHandler.MockShortCircuits | internal/proxy/internal/handler.go:99-103 | a match answers the call with the mock events and opens no backend stream |
| Handler.ProxyHandler.NoMatchProxies | internal/proxy/internal/handler.go:105-146 | no match proxies the buffered request and reports the proxy's outcome; a matcher error does the same under the corrected doMock |
| OldHandler.ShouldMock | internal/logic/proxy/handler.go:197-208 | mocking is tried exactly when no value under the enable key is the disable value |
| OldHandler.MustMock | internal/logic/proxy/handler.go:211-222 | a mock is demanded exactly when some value under the enable key is the enable value |
| OldHandler.OldProxyHandler.constructor | internal/logic/proxy/handler.go:55-65 | the handler keeps the settings, the director and the two matchers it is given |
| OldHandler.OldProxyHandler.DoMockSpec | internal/logic/proxy/handler.go:285-318 | the metadata matcher's answer wins; the body matcher is used only without one; a mock is sent exactly when the type is not None; a body-matcher panic is kept |
| OldHandler.OldProxyHandler.DoMock | internal/logic/proxy/handler.go:285-318 | does exactly what DoMockSpec says |
| OldHandler.OldProxyHandler.Handle | internal/logic/proxy/handler.go:83-187 | the call does exactly what the handler specification says |
| OldHandler.OldProxyHandler.RouteBeforeMock | internal/logic/proxy/handler.go:105-109 | an unrouted method fails with "unregistered client" before any frame is read or any matcher asked |
| OldHandler.OldProxyHandler.DisabledProxies | internal/logic/proxy/handler.go:132-158 | a call that disables mocking is proxied without asking either matcher |
| OldHandler.OldProxyHandler.MetadataBeforeBody | internal/logic/proxy/handler.go:132-137 | when the metadata matcher answers, the body matcher is not asked and the call is answered with the mock |
| OldHandler.OldProxyHandler.MustMockWithoutMatch | internal/logic/proxy/handler.go:132-143 | demanding a mock and getting none fails with NotFound and opens no backend stream, unless the call also disables mocking |
| OldHandler.OldProxyHandler.MatchersSeeNoMetadata | internal/logic/proxy/handler.go:127-130 | the matchers get no metadata, so the store-backed metadata matcher never produces a mock here |
| Render.JsonName | internal/dialmanager/parser/message.go:119-127 | the proto name with OrigName, otherwise the JSON name unless it is empty |
| Render.FieldKey | internal/dialmanager/parser/message.go:119-141 | a plain field's key is its name; an extension's key is in brackets |
| Render.ExtensionKey | internal/dialmanager/parser/message.go:128-141 | an extension is written as [scope.name], or [name] without a scope |
| Render.ExtensionKeysApart | internal/dialmanager/parser/message.go:128-141 | an extension's key never equals a plain field's key |
| Render.KeyText | internal/dialmanager/parser/message.go:350-363 | a map key has a text exactly when its kind is one keys can have |
| Render.FieldByNumber | internal/dialmanager/parser/message.go:175-176 | a field of the list with that number, or none when no field has it |
| Render.ValueField | internal/dialmanager/parser/message.go:175-176 | the value field found is field 2 of the map's entry type |
| Render.KeyOrder | internal/dialmanager/parser/message.go:178-183 | every key once, in sorted order whenever the keys can be compared |
| Render.RenderBare | internal/dialmanager/parser/message.go:238-346 | without a value-field descriptor, kinds that need none render as usual and the others panic |
| Render.FieldsInOrder | internal/dialmanager/parser/message.go:60-72 | one entry per field in descriptor order, or the first failing field's stop |
| Render.MessageLayout | internal/dialmanager/parser/message.go:44-85 | a message renders exactly when all its fields do, as '{', the field entries joined by ',' each as key ':' value, '}'; otherwise it stops as its first failing field |
| Render.MapInKeyOrder | internal/dialmanager/parser/message.go:165-203 | a map of comparable keys is written in ascending key order inside braces; a failure is some entry's failure |
| Render.MapKeyErrors | internal/dialmanager/parser/message.go:178-183 | incomparable keys panic in the sort; a single key of an unsupported kind is an error; an empty map is "{}" |
| Render.MapNeedsEntryType | internal/dialmanager/parser/message.go:175-176 | a map field without an entry type panics |
| Render.ListLayout | internal/dialmanager/parser/message.go:204-232 | a list is its elements in order, joined by ',', inside brackets; a failure is some element's failure |
| Render.IntegerTexts | internal/dialmanager/parser/message.go:242-263 | int64 and uint64 are quoted decimals, int32 (without enum names) and uint32 bare ones; each text reads back as the number |
| Render.EnumTexts | internal/dialmanager/parser/message.go:244-254 | a known enum number is written as its quoted name, an unknown one as a bare number that reads back |
| Render.BoolAndBytesTexts | internal/dialmanager/parser/message.go:284-289 | bools are true and false; bytes are a quoted base64 text that decodes back to them |
| Render.NilTemplate | internal/dialmanager/parser/message.go:151-163 | a nil value is the field type's template, or null when there is none or rendering it returns an error; only a panic escapes |
| Render.TemplateRenders | internal/dialmanager/parser/message.go:31-85 | the template of a descriptor whose defaults are the library's always renders |
| Render.FieldRenders | internal/dialmanager/parser/message.go:117-236 | a field whose default is the library's always renders |
| Render.Buffer.constructor | internal/dialmanager/parser/message.go:32-37 | a fresh buffer is empty |
| Render.Buffer.Write | internal/dialmanager/parser/message.go:379 | the text is appended |
| Render.Buffer.Sep | internal/dialmanager/parser/message.go:146 | in compact mode the separator after a key is ':' |
| Render.Buffer.MaybeNext | internal/dialmanager/parser/message.go:63 | ',' before every entry but the first, and the flag is cleared |
| Render.MarshalJSONPB | internal/dialmanager/parser/message.go:31-42 | the bytes are exactly the rendered message, or its stop |
| Render.MarshalJSON | internal/dialmanager/parser/message.go:44-85 | the buffer gains exactly the rendered message, or the writer stops as the rendering does |
| Render.MarshalField | internal/dialmanager/parser/message.go:117-236 | the buffer gains exactly the rendered field, or stops as it does |
| Render.MarshalNil | internal/dialmanager/parser/message.go:151-163 | the buffer gains exactly the rendered nil value |
| Render.MarshalMap | internal/dialmanager/parser/message.go:165-203 | the buffer gains exactly the rendered map, or stops as it does |
| Render.MarshalEntries | internal/dialmanager/parser/message.go:184-202 | the buffer gains the entries joined by ',' and '}', or the entry loop's stop |
| Render.MarshalFields | internal/dialmanager/parser/message.go:58-83 | the buffer gains the fields joined by ',' and '}', or the field loop's stop |
| Render.MarshalList | internal/dialmanager/parser/message.go:204-232 | the buffer gains exactly the rendered list, or stops as it does |
| Render.MarshalItems | internal/dialmanager/parser/message.go:214-232 | the buffer gains the items joined by ',' and ']', or the item loop's stop |
| Render.EntriesInOrder | internal/dialmanager/parser/message.go:184-196 | one entry per key in the given order, each the rendering of that key's value; a failure is some entry's failure |
| Render.ItemsInOrder | internal/dialmanager/parser/message.go:214-225 | one text per element in order, each that element's rendering; a failure is some element's failure |

## Left out

- Concurrency: the goroutines, channels, `select`, mutexes and `atomic.Value` are not modelled. Each operation runs alone, and publishing a snapshot is a field assignment. The two forwarding directions are modelled one after the other, and the join sees their results in either order.
- The background reload loop, its sleeps and the panic-recovering launcher are not modelled. `MockMgr.CaseMgr.Refresh` is one round of that loop.
- Redis is reduced to the commands used, over a map of sets and a map of strings, where any command on an unreachable key fails. Connection handling, expiry and atomicity across commands are not modelled.
- Reflection-based schema discovery, `expr`/`govaluate`, `gjson`/`ajson`, `jsonpb` and the proto codec are parameters. Their own behaviour is not modelled.
- Client dialling and the `zrpc` client are not modelled. A connection is identified by the endpoint it dials.
- Float and double rendering, including NaN and the infinities, is not modelled, because the model has no floating point.
- Time-based random defaults (`getValue` with `randDefault`) are not modelled. Fields carry their descriptor's default value.
- The renderer works in compact mode only. Indented output, and the re-indenting of foreign proto messages, are not modelled. A non-nil message value is the result of the proto JSON marshaller, taken as given.
- `Render.RenderMessage`: `json.Marshal` on a string, with its quoting and escaping, is the parameter `jsonString`. The model does not state its escaping rules.
- `Render.TemplateRenders`: message descriptors are finite trees. A recursive message type, for which the template recursion in the source does not terminate, cannot be expressed.
- `SortKeys.Sorted`: `sort.Sort` itself is not modelled. `Sorted` is the ascending order of the keys, and `SortKeys.Unique` shows that any correct sort yields that same order.
- `Director.GrpcManager.StreamDirector`: requires a table to have been stored, because a lookup before the first store fails Go's type assertion. The cleanup function it returns is a no-op and is not modelled.
- `OldHandler.OldProxyHandler.Handle`: requires the director to hold a table, for the same reason.
- `Handler.DoMockAsWritten`: requires the matcher to have succeeded. On a matcher error the code as written dereferences a nil response and panics. That panic is stated as this precondition, not modelled as an outcome (see Findings).
- `CaseMatch.GetValue`: looks a variable up under the path the corrected `RestorePath` gives. The code calls `restoreJPath`, so for a rule path with "a0" next to a dot the model finds a node the code misses (see Findings).
- `MockMgr.LoadCase`: compiles a rule with the corrected `EscapePath`, where the code calls `removeJPath`. With `CaseMatch.GetValue`, the rule `data0.id == 1` over the request `{"data0":{"id":1}}` matches in the model, while the code binds "" and does not match.
- `Handler.ProxyHandler.Handle`: is wired with the corrected doMock, so a matcher error proxies the call where the code panics (see Findings).
- `Handler.ProxyHandler.DoMock`: is the corrected `Handler.DoMockSpec`. It answers a matcher error with no match, where the code dereferences a nil response.
- `Handler.ProxyHandler.NoMatchProxies`: its matcher-error half states the corrected doMock, not the code.
- `Relay.JoinSpec` and `Relay.Join`: a failed server-to-client relay gives Internal with the fixed text "failed proxying s2c". The code appends the underlying error to that text.
- `MockMgr.CaseMgr.constructor`: `NewCaseMgr` also returns the first reload's error and hands back the manager either way. A constructor returns no value, so that error is not returned. Whether it occurred shows in the snapshot, which is empty exactly when the first reload failed.
- `Metadata.Values`: keys are compared exactly as given. gRPC lower-cases keys in `md.Get`, and the configured keys are already lower case.
- Logging, metrics and the log messages attached to each error are not modelled.
- The HTTP and control-API handlers, their logic wrappers, service wiring, `cmd/main.go` and the interceptor are not modelled. Their behaviour reduces to the manager operations above.
- The older generation's own director, internal/logic/proxy/director.go, is not part of this model. The shared `Director` stands for it.
- `DialManager`: the parsing and dialling of an upstream are parameters that may fail. The parsed service list is taken as given.

## Findings

| source | as written | input that shows it | evidently intended | confidence | as-written member | corrected member |
|---|---|---|---|---|---|---|
| internal/logic/mockmgr/case_manager.go:433-437 | `removeJPath` hides every '.' of a rule as "a0a0", and `restoreJPath` turns every "a0a0" back into '.'. A variable whose path contains "a0" next to a hidden dot is therefore restored to a different path. | the rule variable `data0.id` is hidden as `data0a0a0id` and restored as `$.dat.a0id`, not `$.data0.id` | restoring a hidden variable gives "$." followed by the path the rule wrote, for every path (here with a literal "a0" escaped as "a0a1") | not executed | RulePath.RoundTripBreaksOnA0 | RulePath.RestoreEscaped |
| internal/proxy/internal/handler.go:237-240 | on a matcher error `doMock` returns `resp.MatchType`, but every error return of the matcher hands back a nil response, so the call panics instead of being proxied | metadata `mock: yes`, `case_name: c1`, on a method that an upstream serves (so the director routes the call), with case `c1` stored for it with a body that does not decode into the output type: the metadata phase fails with that decoding error (internal/match/match.go:87-91) | a matcher error counts as no match and the call is proxied | not executed | Handler.MatcherErrorReachesDoMock | Handler.DoMockSpec |
