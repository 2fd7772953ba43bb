# kojac-js client core, modelled in Dafny

Kojac is a JavaScript client library for a key-based REST-like protocol. A caller builds a
request out of operations: CREATE, READ, UPDATE, DESTROY and EXECUTE, each addressed by a
cache key such as `order__12.items`. The request is then run as a chain of asynchronous
steps on a handler stack:

1. reads that prefer the cache are served from the cache;
2. the remote provider posts the remaining operations to the server as one JSON body
   and distributes the reply over them;
3. the core merges the returned results into the cache, either updating cached objects
   in place or manufacturing new instances through the object factory;
4. the core finalises the request's `results`, `result` and `error`, and records which
   keys each read returned alongside its primary key ("dependent keys").

The Dafny project models that core:

| file | module | models |
|---|---|---|
| `js_values.dfy` | `JsValues` | The JavaScript values the client handles: truthiness, `\|\|`, property reads that give `undefined`, and `String(v)`. Instances with identity are heap objects. |
| `utils.dfy` | `Utils` | Key helpers: `keyJoin`, `keySplit`, `keyResource`, `keyId`, `interpretKeys`, `toKeyValueArray`, `toJsono`. |
| `operations.dfy` | `Operations` | The operation object and `receiveResult`, plus the operations each builder appends. |
| `requests.dfy` | `Requests` | The handler stack (a settle-once promise; zero-delay timers as a queue of scheduled calls) and the request with its builders. |
| `kojac_cache.dfy` | `KojacCache` | The cache's `store` and `retrieve`. |
| `object_factory.dfy` | `ObjectFactory` | Matcher registration, class resolution and `manufacture`. |
| `kojac_types.dfy` | `KojacTypes` | Field types and value interpretation, `readTypedProperties` and `collectIds`. |
| `core.dfy` | `KojacCore` | `newRequest`, `performRequest`, `handleResults`, `finaliseResponse`, and the builder shortcuts and their legacy `…Request` forms. |
| `remote_provider.dfy` | `RemoteProvider` | `operationsToJson`, `interpretXhrError`, the request body, and how a response is distributed over the server operations. |

Where the source updates objects in place, the model does the same. The handler stack,
requests, operations, the cache, cached instances and the factory are classes whose
methods modify their fields. Each such method is proved against a specification
function, for example:

- `Prefilled`, for what a cache-preferring read becomes;
- `CacheAfter` and `LastStoring`, for what the cache holds after `handleResults`;
- `ResultsUnion` and `DependentsAfter`, for finalising;
- `Distributed`, for a server reply.

Lemmas about those functions state the properties the client relies on, such as
"the last caching operation wins" and "a recorded dependent list has no repeats".

Two behaviours of the source are easy to miss:

- With no handlers, `run` resolves the promise at once: `callNext` resolves whenever the
  handler list is empty (src/handler_stack.js:73-75).
- The third element of `keySplit` is the text between the first and second `.` after the
  `__`; any further dotted segments are dropped (src/utils.js:33, 41-43).

## Model

| member | source | states |
|---|---|---|
| `JsValues.Instance.SetProperties` | src/core.js:105-108 | Merging properties into a cached instance overwrites the incoming keys, keeps the others and leaves its change depth alone. |
| `KojacCache.Stored` | src/kojac_cache.js:2-9 | Storing `undefined` deletes the key; any other value is stored under it; every other key is unchanged. |
| `KojacCache.Cache.Store` | src/kojac_cache.js:2-9 | Returns the stored value and updates the cache's data exactly as `Stored` says. |
| `KojacCache.Cache.Retrieve` | src/kojac_cache.js:10-12 | Gives the entry under the key. On a cache holding no `undefined` value, it gives `undefined` exactly when the key is absent. |
| `KojacCache.RetrieveAfterStore` | src/kojac_cache.js:2-12 | Retrieving a key just stored gives the stored value, `undefined` included. |
| `KojacCache.StoreKeepsOtherKeys` | src/kojac_cache.js:2-12 | A store does not change what any other key retrieves. |
| `KojacCache.StoreIdempotent` | src/kojac_cache.js:2-9 | Storing the same value twice is the same as storing it once. |
| `KojacCache.StoreKeepsValuesDefined` | src/kojac_cache.js:2-9 | Stores never leave an `undefined` entry behind. |
| `Utils.KeyJoin` | src/utils.js:8-20 | Null exactly when there are no parts or some part is falsy. Otherwise it is the parts' strings joined by `__`, and when no part prints empty it is `Join(strings, "__")`. |
| `Utils.AccumulatedKeyIsJoin` | src/utils.js:8-20 | Accumulating non-empty parts with `__` is joining them with `__`. |
| `Utils.Split` | src/utils.js:22-45 | `String.split` as used by `keySplit`: at least one piece; a single piece when the separator does not occur. |
| `Utils.SplitJoin` | src/utils.js:22-45 | Joining the pieces of a split with the separator gives the original string back. |
| `Utils.SplitPiecesFree` | src/utils.js:22-45 | No piece of a split contains the separator. |
| `Utils.SplitSingle` | src/utils.js:22-45 | A split has one piece if and only if the separator does not occur. |
| `Utils.NumberOfIntToString` | src/utils.js:22-45 | An integer id printed in a key reads back as the same number. |
| `Utils.KeySplit` | src/utils.js:22-45 | One to three parts. The first is the key's resource. There is a single part exactly when the key has no `__`. |
| `Utils.NumberOfExamples` | src/utils.js:36-38 | `Number` reads an exponent (`1e3` is 1000), a hexadecimal literal (`0x1F` is 31), text with surrounding white space (` 7` is 7) and a blank text (0); a fraction (`15e-1`) and `Infinity` give no finite integer. |
| `Utils.NumberOfIgnoresSpace` | src/utils.js:36-38 | White space around an id does not change the number `Number` reads from it. |
| `Utils.KeySplitOfParts` | src/utils.js:22-45 | `resource__id.assoc` splits into the resource, the id as `Number` reads it (a number when finite, else the text) and the association. |
| `Utils.KeySplitOfResourceAndIdText` | src/utils.js:22-45 | `resource__id`, for an id without `__` or `.`, splits into the resource and the id as `Number` reads it. |
| `Utils.KeySplitOfResourceAndId` | src/utils.js:22-45 | `resource__n`, for an integer `n`, splits into the resource and the number `n`. |
| `Utils.KeySplitExponentId` | src/utils.js:22-45 | The key `order__1e3` splits into `order` and the number 1000. |
| `Utils.KeyResource` | src/utils.js:47-50 | The resource holds no `__`. A key without `__` is its own resource. |
| `Utils.KeyId` | src/utils.js:52-55 | `undefined` exactly when the key has no `__`; a string id holds no `__`. |
| `Utils.InterpretKeys` | src/utils.js:75-81 | An array is taken as is. A string becomes comma-free pieces that join back with `,` to the string. Anything else gives no keys. |
| `Utils.FlattenDeepHasNoArrays` | src/utils.js:88-104 | Deep flattening leaves no array element. |
| `Utils.Pairs` | src/utils.js:88-104 | The pairs of an object enumerate its entries: each key once, with its value. |
| `Utils.PairsOf` | src/utils.js:88-104 | An array gives index/element pairs, an object its entries, and anything else nothing. |
| `Utils.FlattenPairs` | src/utils.js:88-104 | Flattening the pair arrays one level gives the flat key, value, key, value list. |
| `Utils.KeyValueListAt` | src/utils.js:88-104 | Position `2i` of the flat list is the `i`-th key and position `2i+1` its value. |
| `Utils.ToKeyValueArray` | src/utils.js:88-104 | Meets `KeyValueArrayOf`, by the shape of the input. An object gives its entries as a flat key/value list. An array of arrays gives each element flattened one level. An array of objects gives every element's entries, deep-flattened. Any other array is returned as is. A non-object gives null. |
| `Utils.ToJsono` | src/utils.js:107-164 | The recursive copy equals the specification `Jsono`: records and instances become new records, arrays are copied element by element, anything else is kept. |
| `Utils.CopyRecord` | src/utils.js:111-153 | Copying a record's or an instance's properties loop by loop gives exactly `CopiedFields`. |
| `Utils.CopiedAll` | src/utils.js:111-153 | A record that names each kept property once, each with its copied value, is the copied record. |
| `Utils.JsonoRecord` | src/utils.js:111-153 | The copy of a record or an instance is a new record with the own keys plus the included names, minus the excluded ones. Own properties are copied recursively with `include`/`exclude` dropped; included names it lacks are `undefined`. |
| `Utils.JsonoIdentity` | src/utils.js:107-164 | Without `include`/`exclude`, the copy of data that holds no instance is equal to it. |
| `Utils.JsonoOfInstance` | src/utils.js:111-153 | Without `include`/`exclude`, an instance is copied into a new record holding exactly its properties, never the instance itself. |
| `Operations.FinalKey` | src/request.js:24-25 | The operation's own result key when set, otherwise the response's key. |
| `Operations.Received` | src/request.js:17-40 | A falsy response sets the error "no result", and a response error is copied. Otherwise the primary result goes under the final result key, the other incoming results are merged, the earlier results are kept and the result key is set. |
| `Operations.Operation.ReceiveResult` | src/request.js:17-40 | The operation's new fields are `Received` of its old fields and the response. |
| `Operations.ReceiveIdempotent` | src/request.js:17-40 | Receiving the same response twice leaves the operation as receiving it once. |
| `Operations.CreateKeyResource` | src/request.js:87-91 | The key of a CREATE operation keeps the resource of the key it was given. |
| `Operations.PairList` | src/request.js:80-82 | The builders read the flat list two at a time; an odd last element is dropped. |
| `Operations.StringKeyedPairs` | src/request.js:80-91 | Counts the leading pairs with string keys; the pair after them, if any, has a non-string key. |
| `Operations.CreatedViewsAt` | src/request.js:80-95 | The `j`-th CREATE operation has the `j`-th key (or its resource), the value copied through `toJsono`, the merged options and params, and on the first one the caller's result key. |
| `Operations.CreatedList` | src/request.js:73-95 | One CREATE operation per pair while keys are strings. At the first non-string key, a last operation holding only its verb, options and params. |
| `Operations.ListedViews` | src/request.js:104-125 | One operation per key, in order. The first has the caller's result key or its key as result key; the others have their key. |
| `Operations.UpdatedViews` | src/request.js:132-157 | One UPDATE operation per pair, with the value copied through `toJsono` and the result keys as for reads. |
| `Operations.WithPreferCache` | src/request.js:127-130 | The caller's options with `preferCache` set to true. |
| `Requests.Resolve` | src/handler_stack.js:73-75 | Settling a pending promise resolves it; a settled one stays as it is. |
| `Requests.Reject` | src/handler_stack.js:67-71 | Rejecting a pending promise rejects it; a settled one stays as it is. |
| `Requests.SettleOnce` | src/handler_stack.js:66-90 | A settled promise is not changed by a later resolve or reject. |
| `Requests.HandlerStack.constructor` | src/handler_stack.js:9-23 | Empty handler lists, no context, no deferred, cursor at -1. |
| `Requests.HandlerStack.Clear` | src/handler_stack.js:27-32 | Empties the lists and resets the run state. |
| `Requests.HandlerStack.Reset` | src/handler_stack.js:35-42 | Resets the run state and keeps the lists. |
| `Requests.HandlerStack.Push` | src/handler_stack.js:44-48 | Puts the step, parameter and receiver at the front of the three lists. |
| `Requests.HandlerStack.PushNext` | src/handler_stack.js:51-58 | Inserts the step at the cursor during a run, or at the front outside one, so that it is the next step called. |
| `Requests.HandlerStack.Add` | src/handler_stack.js:60-64 | Appends the step, parameter and receiver to the three lists. |
| `Requests.HandlerStack.CallNext` | src/handler_stack.js:66-85 | An error on the context rejects the promise. Past the last handler it resolves. Otherwise it schedules the handler at the cursor and advances the cursor by one. |
| `Requests.HandlerStack.HandleError` | src/handler_stack.js:87-90 | Sets the context's error and rejects the promise; nothing else changes. |
| `Requests.HandlerStack.ExecuteHandler` | src/handler_stack.js:92-107 | Runs a step with its parameter. A throw is recorded as the context's error and rejects the promise. Unless the step asked to wait, it continues as `callNext` does. |
| `Requests.HandlerStack.RunNextScheduled` | src/handler_stack.js:82-84 | The timer runs the oldest scheduled call, which leaves the queue, then acts as `executeHandler` does: a throw becomes the context's error and rejects; otherwise, unless the step waits, an error rejects, the end resolves, or the next handler is appended to the queue and the cursor advances. |
| `Requests.HandlerStack.Run` | src/handler_stack.js:109-140 | Binds the context and starts at handler 0. A context with an error is rejected, an empty stack resolves, and otherwise the first handler is scheduled. |
| `Requests.Request.constructor` | src/request.js:66-69 | A request with no operations and a fresh, empty handler stack. |
| `Requests.Request.NewOperation` | src/request.js:58-64 | Appends a blank operation. The first operation becomes `op`. |
| `Requests.Request.Create` | src/request.js:73-95 | Appends the CREATE operations of `CreatedList` for the key/value list. Throws where `toKeyValueArray` gives null or a key is not a string. |
| `Requests.Request.Read` | src/request.js:104-120 | Appends the READ operations of `ListedViews` for the interpreted keys. |
| `Requests.Request.CacheRead` | src/request.js:127-130 | Appends the READ operations for the keys with `preferCache` set. |
| `Requests.Request.Update` | src/request.js:132-152 | Appends the UPDATE operations of `UpdatedViews`; throws exactly when `toKeyValueArray` gives null. |
| `Requests.Request.Destroy` | src/request.js:159-175 | Appends the DESTROY operations of `ListedViews` with the DESTROY options. |
| `Requests.Request.Execute` | src/request.js:182-191 | Appends one EXECUTE operation whose result key is the caller's or the key. |
| `ObjectFactory.FirstMatch` | src/object_factory.js:21-42 | The index of the first matcher whose pattern accepts the key, or none when no pattern does. |
| `ObjectFactory.Factory.Register` | src/object_factory.js:12-19 | Registering null changes nothing. Otherwise the pairs are appended to the matchers in order. |
| `ObjectFactory.Factory.ResolvedClass` | src/object_factory.js:21-42 | The first matching pattern's class; failing that, a capitalised resource name found in the namespace; failing that, the default class. |
| `ObjectFactory.Factory.ClassFromKey` | src/object_factory.js:21-42 | The search loop returns `ResolvedClass(key)`. |
| `ObjectFactory.Factory.CreateInstance` | src/object_factory.js:44-47 | `Object` hands back `props \|\| {}`. Any other class gives a fresh instance holding the properties' fields, or the value its constructor throws. |
| `ObjectFactory.Factory.Manufacture` | src/object_factory.js:49-61 | An array becomes one instance per element, in order; anything else becomes a single instance, all of the resolved class. A throwing constructor's throw propagates. |
| `KojacTypes.GetPropertyValueType` | src/kojac.js:8-43 | Classifies each kind of value, both ways: null and undefined are Null, numbers Int, strings String, and so on; an instance has no field type. |
| `KojacTypes.InterpretValueAsType` | src/kojac.js:52-147 | The result has the requested type or is null. A value that already has the type is returned unchanged, and so is any value when the requested type is Null. Conversion to Object or Array gives null. A Boolean becomes 1 or 0 as a number and `"true"` or `"false"` as a string; a number becomes its decimal text; a blank string becomes null as a number, and any other string its numeric value. |
| `KojacTypes.IntStringRoundTrip` | src/kojac.js:52-147 | An integer interpreted as String and back as Int is the same integer. |
| `KojacTypes.InterpretIdempotent` | src/kojac.js:52-147 | Interpreting an interpreted value again as the same type changes nothing. |
| `KojacTypes.PartialCopy` | src/kojac.js:156-169 | A property is written exactly when it is processed and the definition lets it through. |
| `KojacTypes.ReadTypedProperties` | src/kojac.js:156-169 | Returns the destination exactly when no property fails, and then adds every written property with its typed value. On a failure some property fails, and the destination holds the properties written before it. |
| `KojacTypes.Collected` | src/kojac.js:178-187 | Without a filter, the cached value under `prefix__id` for each id, in order. |
| `KojacTypes.Kept` | src/kojac.js:178-187 | The filter keeps only elements it accepts, and no more of them. |
| `KojacTypes.CollectedFiltered` | src/kojac.js:178-187 | Filtering while collecting is filtering after collecting. |
| `KojacTypes.CollectIds` | src/kojac.js:178-187 | The loop's result equals `Collected`. |
| `KojacCore.Chaining` | src/core.js:49-57 | The caller's `chaining` option when given, otherwise chaining exactly under API version 1 (corrected guard). |
| `KojacCore.ChainingDefaultAgrees` | src/core.js:52-55 | As written and corrected, the chaining decision agrees when the caller gives no `chaining` option. |
| `KojacCore.ChainIgnoredAsWritten` | src/core.js:53 | As written, asking for chaining under API version 2 does not chain. |
| `KojacCore.Core.constructor` | src/core.js:40-47 | A core with its cache, factory and API version, and no dependent keys. |
| `KojacCore.Core.NewRequest` | src/core.js:49-57 | A fresh request with no operations, an empty handler stack and chaining as `Chaining` decides. |
| `KojacCore.PrefillKey` | src/core.js:180 | A cached read is looked up under its result key when that renames the key, otherwise under its key. |
| `KojacCore.Prefilled` | src/core.js:177-195 | Every operation's results are emptied. A cache-preferring read with a defined cached value gets exactly its key and its dependent keys from the cache, and is marked performed from the cache. |
| `KojacCore.PrefillKeepsHit` | src/core.js:178-196 | Pre-filling changes neither whether an operation hits the cache nor its dependent keys. |
| `KojacCore.PrefillIdempotent` | src/core.js:178-196 | Pre-filling twice is pre-filling once. |
| `KojacCore.PerformLoopHangsAsWritten` | src/core.js:181-194 | As written, a hit with one dependent key on the third operation sends the loop back to that operation for ever. |
| `KojacCore.PerformLoopSkipsAsWritten` | src/core.js:181-194 | As written, a hit with three dependent keys on the first operation ends the loop, so the other operations are never pre-filled. |
| `KojacCore.Core.PrefillOp` | src/core.js:180-194 | One operation's fields become `Prefilled` of its old fields. |
| `KojacCore.Core.LookupAll` | src/core.js:186-192 | The cache's values under the key and each dependent key. |
| `KojacCore.Core.PrefillAll` | src/core.js:178-196 | Every operation of the request is pre-filled, each by `Prefilled`. |
| `KojacCore.Core.PerformRequest` | src/core.js:176-204 | Pre-fills every operation. Adds the provider's and the core's steps with their receivers. Runs the stack: it rejects at once on an error, otherwise the first step is scheduled. |
| `KojacCore.Core.AppendedViews` | src/request.js:58-64 | Operations appended from no operations have exactly the given fields, in order. |
| `KojacCore.Core.Submit` | src/request.js:198-205 | Submitting a built request pre-fills its operations and queues the two steps. |
| `KojacCore.Core.Chain` | src/core.js:210-212 | A fresh chaining request with no operations. |
| `KojacCore.Core.Create` | src/core.js:214-217 | A new request with the CREATE operations, submitted unless chaining; the builder's throws pass through. |
| `KojacCore.Core.Read` | src/core.js:219-222 | A new request with the READ operations, submitted unless chaining. |
| `KojacCore.Core.CacheRead` | src/core.js:224-227 | A new request with cache-preferring READ operations, submitted unless chaining. |
| `KojacCore.Core.Update` | src/core.js:229-232 | A new request with the UPDATE operations, submitted unless chaining; it throws exactly when the key/value list is null. |
| `KojacCore.Core.Destroy` | src/core.js:234-237 | A new request with the DESTROY operations, submitted unless chaining. |
| `KojacCore.Core.Execute` | src/core.js:239-242 | A new request with the EXECUTE operation, submitted unless chaining. |
| `KojacCore.Core.CreateRequest` | src/core.js:246-250 | Throws the deprecation message above API version 1; otherwise a chaining request with the CREATE operations, submitted. |
| `KojacCore.Core.ReadRequest` | src/core.js:251-255 | Same deprecation rule; otherwise a submitted READ request. |
| `KojacCore.Core.CacheReadRequest` | src/core.js:256-261 | Same deprecation rule; otherwise a submitted cache-preferring READ request. |
| `KojacCore.Core.UpdateRequest` | src/core.js:262-266 | Same deprecation rule; otherwise a submitted UPDATE request, throwing exactly when the key/value list is null. |
| `KojacCore.Core.DestroyRequest` | src/core.js:267-271 | Same deprecation rule; otherwise a submitted DESTROY request. |
| `KojacCore.Core.ExecuteRequest` | src/core.js:272-276 | Same deprecation rule; otherwise a submitted EXECUTE request. |
| `KojacCore.ManufactureKey` | src/core.js:112-118 | The primary result is manufactured under the operation's key unless that key has a dot; every other result under its own key. |
| `KojacCore.StoredAll` | src/core.js:123-125 | Storing every entry of a record: an `undefined` entry removes its key, every other key keeps its value. |
| `KojacCore.LastStoring` | src/core.js:91-127 | The last operation that caches a result under the key; none later does. |
| `KojacCore.CacheAfterLookup` | src/core.js:91-127 | After `handleResults` a key holds what the last caching operation returned for it. Keys no caching operation returned are as they were. |
| `KojacCore.CacheAfterKeepsValuesDefined` | src/core.js:91-127 | Processing results never leaves an `undefined` entry in the cache. |
| `KojacCore.FirstFailed` | src/core.js:91-94 | The index of the first operation with an error: none before it has one. |
| `KojacCore.MergedHandled` | src/core.js:91-127 | Writing back the processed results of the operations before the first failure meets `HandledFrom`, including that each processed operation's results are atomised (`AtomisedFrom`) against the cache the earlier ones left. |
| `KojacCore.Core.Atomise` | src/core.js:98-121 | A cached object under the key is updated in place with the incoming properties, its change bracket opened if observable. A cached plain record is merged. Otherwise the value is manufactured (under `ManufactureKey`) or kept as it is. |
| `KojacCore.Core.ProcessKey` | src/core.js:96-126 | One result entry is atomised, then stored when caching. Against the cache before the call: a cached instance under the key is returned itself, with the incoming properties merged in; otherwise, with a factory, the value is manufactured as the resolved class (throwing exactly when its constructor does); otherwise it is kept. A throw leaves the cache alone. Non-objects pass through unchanged. Every opened change bracket is counted. |
| `KojacCore.Core.ProcessResults` | src/core.js:96-126 | All of one operation's results, each related to its incoming value by `AtomisedFrom`: kept when not an object, the cached instance itself when caching over one, and unchanged unless manufactured. When nothing threw, the cache holds them stored on top of what it held. The merges it made are recorded, one per key whose result is merged into a cached instance (all of them when nothing threw), and every instance's properties are its old ones with those merges applied in turn (`FieldsAfter`). |
| `KojacCore.Core.ProcessViews` | src/core.js:85-127 | Operations up to the first with an error are processed, in order, each by `AtomisedFrom` against the cache as the earlier ones left it. When nothing throws, the cache ends as `CacheAfter` of those operations. Each merge into a cached instance is recorded against the cache at its operation's turn, and every instance ends with its old properties and those merges applied (`FieldsAfter`). The cache's change bracket opens once if observable. |
| `KojacCore.Core.EndAll` | src/core.js:128-131 | Closes one change bracket per updated object, as many times as it was opened. |
| `KojacCore.Core.ProcessAndEnd` | src/core.js:85-133 | Every object's bracket is balanced whether or not processing threw. The cache's bracket closes when nothing threw. Every instance's properties are as the recorded merges leave them; closing the brackets changes no property. |
| `KojacCore.Core.WriteResults` | src/core.js:123 | Each processed operation's results become the processed ones; the rest are untouched. |
| `KojacCore.Core.HandleResults` | src/core.js:84-134 | Only results change, only for operations before the first error. When nothing threw, each changed result is atomised as `AtomisedFrom` says (a cached instance is returned as itself) and the cache is `CacheAfter` of those operations. Every instance's change bracket is balanced. Every instance's properties are its old ones with the recorded merges applied, and `MergedFrom` says which merges those are. |
| `KojacCore.MergesHandled` | src/core.js:96-108 | The merges recorded over the processed operations are those of `MergedFrom`. Each is made by an operation before the first failure, for a key whose result is an object to atomise while caching, into the instance cached under the key at that operation's turn, carrying the result's properties. No operation and key is merged twice. When nothing threw, every such operation and key has its merge recorded. |
| `KojacCore.UnmergedFieldsKept` | src/core.js:98-108 | An instance that no processed result was merged into keeps the properties it had. |
| `KojacCore.MergedOnceFields` | src/core.js:100-108 | An instance merged into by exactly one processed result ends with its old properties overridden by that result's properties. |
| `KojacCore.CachedInstanceKept` | src/core.js:98-125 | When `handleResults` completes, an instance cached under a key is still the value cached under it, as long as every caching result for that key is an object to atomise. |
| `KojacCore.ResultsUnionLookup` | src/core.js:167-173 | A key is in the request's results exactly when some operation returned it, with the value of the last one that did. |
| `KojacCore.DependentsAfterLookup` | src/core.js:151-165 | After finalising, a key's dependent keys are those its last server-performed caching read returned besides its result key. The key is absent when there were none. |
| `KojacCore.DependentsAfterNonEmpty` | src/core.js:151-165 | Recorded dependent-key sets stay non-empty. |
| `KojacCore.PrefillReturnsDependents` | src/core.js:151-192 | A later cached read of a recorded key gets back exactly its result key and the recorded dependent keys. |
| `KojacCore.DependentKeyList` | src/core.js:152-156 | The dependent keys are listed once each: every returned key except the result key. |
| `KojacCore.Core.FinaliseOp` | src/core.js:141-165 | Sets the operation's `result` from its results, and records or removes its dependent keys. The core's invariant (non-empty lists, no repeats) is kept. |
| `KojacCore.Core.FinaliseOps` | src/core.js:139-166 | Stops at the first operation with an error. Results are the union of those before it. Each earlier operation gets its result. Dependent keys follow `DependentsAfter`. |
| `KojacCore.Core.FinaliseWithin` | src/core.js:136-174 | As `FinaliseResponse`, for operations read beforehand. |
| `KojacCore.Core.FinaliseResponse` | src/core.js:136-174 | A request already in error is left alone. Otherwise the first operation error becomes the request's error, earlier operations get their results, and dependent keys are recorded. Without an error, `results` is the union of all results and `result` the first operation's result. With one, both are cleared. |
| `RemoteProvider.ServerOptions` | src/kojac_remote_provider.js:29 | The options with the local-only `cacheResults` and `preferCache` removed. |
| `RemoteProvider.JsonOp` | src/kojac_remote_provider.js:20-33 | Carries the verb, key and params. A value (copied through `toJsono`) only for a writing verb. Options only when some server option remains. No other property. |
| `RemoteProvider.JsonOpSendsNoLocalOption` | src/kojac_remote_provider.js:29-31 | No local-only option ever reaches the server. |
| `RemoteProvider.OperationsToJson` | src/kojac_remote_provider.js:18-36 | One JSON operation per operation, in order, each `JsonOp` of its fields. |
| `RemoteProvider.Unperformed` | src/kojac_remote_provider.js:64 | Exactly the operations not yet performed, without repeats when the input has none. |
| `RemoteProvider.RequestBody` | src/kojac_remote_provider.js:103-109 | The body is a `kojac` record with the protocol version `KOJAC-1.0` and the JSON operations. |
| `RemoteProvider.SendRequest` | src/kojac_remote_provider.js:64-117 | Sends the unperformed operations. With none it sends nothing and the stack moves on. Otherwise the body holds their JSON and the stack waits for the reply. |
| `RemoteProvider.RemoveFirstSpace` | src/kojac_remote_provider.js:181 | Removes one space when there is one; a string without a space is unchanged. |
| `RemoteProvider.RemoveFirstSpaceAt` | src/kojac_remote_provider.js:181 | The space removed is the first one. |
| `RemoteProvider.InterpretXhrError` | src/kojac_remote_provider.js:173-197 | A `KojacError` record. With an HTTP status it carries that status, the status text without its first space as the kind, and the text as the message. Without a status it is a network error with null status and fixed messages. |
| `RemoteProvider.OpResponse` | src/kojac_remote_provider.js:147-151 | An operation's reply entry is null or truthy. |
| `RemoteProvider.WithReply` | src/kojac_remote_provider.js:132-133 | The response headers and text are attached to a record error. |
| `RemoteProvider.DistributedReaches` | src/kojac_remote_provider.js:119-159 | A `null` or `undefined` reply leaves every operation unchanged. Otherwise every server operation is marked performed by the server, except, on a reply with an error, those after the first. |
| `RemoteProvider.DistributedErrors` | src/kojac_remote_provider.js:145-158 | On a normal reply a missing entry gives the error "no result", an entry's error is copied, and an operation without one keeps its error. |
| `RemoteProvider.FailExchange` | src/kojac_remote_provider.js:132-141 | A failed exchange marks all server operations performed, sets the request's error and rejects the promise. |
| `RemoteProvider.FailFirst` | src/kojac_remote_provider.js:146-155 | A reply with an error marks the first operation and gives it and the request the entry's error, rejecting the promise. A missing entry throws instead. |
| `RemoteProvider.MarkAll` | src/kojac_remote_provider.js:135-139 | Every operation is marked performed by the server. |
| `RemoteProvider.ReceiveAll` | src/kojac_remote_provider.js:145-158 | Every operation is marked performed and receives its reply entry. |
| `RemoteProvider.HandleAjaxResponse` | src/kojac_remote_provider.js:119-161 | The server operations end as `Distributed`. A `null` or `undefined` reply throws on reading its `error` before anything changes. A failed exchange sets and rejects with the interpreted error and its reply attached. A reply error sets and rejects with the first entry's error, or throws when that entry is missing. A normal reply changes neither the request's error nor the promise. |
| `RemoteProvider.ReceiveResponse` | src/kojac_remote_provider.js:163-169 | The response is handled and then `callNext` runs. It throws exactly when handling throws (a `null` or `undefined` reply, or a reply error without a first entry), and then `callNext` is never reached: the error, promise and queue are unchanged. Otherwise the stack rejects on an error, resolves after the last step, or schedules the next step. |

## Left out

- I/O and timing. jQuery's ajax call, the network and `setTimeout` are not modelled. The server reply is a parameter of `HandleAjaxResponse`, and a timer is an entry in the stack's `scheduled` queue run by `RunNextScheduled`. The effect of a user step (whether it throws, and whether it waits) is a parameter too.
- Mock handlers and mock files in `handleRequest` (src/kojac_remote_provider.js:42-63, 67-101) are test fixtures and are not part of this model.
- The request's `xhr` property, and the `xhr` field of an interpreted error, hold the raw transport object. They are not modelled.
- Floating-point numbers. Every number is an integer, so `getPropertyValueType` never reports Number. Dates are not modelled either.
- InterpretValueAsType: requires its input to be in the modelled domain. A string read as a number must be blank or an integer. Conversions to Boolean and from strings to Date need float or date parsing and are excluded.
- ReadTypedProperties: inherits `InterpretValueAsType`'s domain restriction for declared types.
- Object-key enumeration order. `for … in` over results and `_.pairs` visit keys in engine order. The model picks an unspecified order, and every contract is stated over sets and maps, so it holds for any order.
- Utils.Pairs: states that the pairs enumerate the object, not the engine's insertion order.
- KojacCore.Core.Atomise: a cached value that is a plain record (not an instance) is replaced by the merged record. Plain records are values here, so sharing them by reference is not modelled.
- KojacCore.Core.ProcessResults: the operation's fields are read once up front and the processed results written back after the loop. The source writes each entry into `op.results` as it goes. The two agree, since no other step reads them in between.
- KojacCore.Core.FinaliseResponse: `dependentKeys` is kept as a field of one core, on the assumption that each core, like each request, gets its own copy of its object and array defaults. `Kojac.Object`, which sets those defaults up, is not part of this model.
- KojacCore.Core.FinaliseResponse: an operation whose `results` is still null is modelled as having empty results.
- KojacCore.Core.FinaliseResponse: it runs as the stack's `always` callback. The model states what one call does, not when the promise machinery calls it.
- Operations.ListedViews: an operation's key is kept as the text `String(k)` of the key it was given. The source stores the key value itself (src/request.js:115, 170), so `read([5])` posts the number 5 where the model posts `"5"`.
- Operations.UpdatedViews: keeps the key as text, as `Operations.ListedViews` does. The source stores the key value (src/request.js:145), so an update built from `[[k, v]]` with an array `k` posts that array.
- Requests.Request.Read: appends the text keys of `Operations.ListedViews`, not the key values.
- Requests.Request.CacheRead: appends the text keys of `Operations.ListedViews`, not the key values.
- Requests.Request.Destroy: appends the text keys of `Operations.ListedViews`, not the key values.
- Requests.Request.Update: appends the text keys of `Operations.UpdatedViews`, not the key values.
- Requests.Request.Execute: keeps the key as text where the source stores the key value (src/request.js:190).
- RemoteProvider.JsonOp: inherits the text keys above, so the posted `key` is always a string.
- KojacCore.DependentKeyList: with text keys the result key always compares equal to its own entry in the results. In the source a non-string key never equals a property name (src/core.js:155), so the key itself would be listed among its dependent keys; that case is not modelled.
- Operations.BlankOp: a new operation's key is the empty text where the source's default is `null` (src/request.js:9). Its verb, `None`, stands for the source's `null`.
- ObjectFactory.Factory.CreateInstance: the model takes a constructor to give a fresh instance whose fields are exactly the properties' own fields, and `Object` to hand back the properties themselves. In JavaScript `new Object(p)` wraps a primitive `p` in an object, and a model class whose initialiser coerces or adds attributes gives other fields. Neither is modelled.
- ObjectFactory.Factory.Manufacture: inherits the constructor assumption of `CreateInstance`.
- Utils.JsonoRecord: a truthy `exclude` that is neither a string nor an array is treated as excluding nothing. In the source it makes `aExclude.indexOf` throw at the first property (src/utils.js:134, 144), so `toJsono`, and the builders that call it (src/request.js:94, 151, 191), throw. That throw is not modelled.
- KojacCore.Core.HandleResults: does not state the change depth of instances made fresh during the call. Only the pre-existing instances' brackets are stated to balance.
- Requests.Request: the `done`/`fail` callbacks and the error handler attached by `request()` only chain the promise. They are not modelled.
- RemoteProvider.SendRequest: the source sets `waitForCallNext` after building the body and the model before it. Nothing reads the flag in between, so the order does not matter.
- RemoteProvider.WithReply: only a record error takes the `headers` and `response` properties. The source would also set them on an `Error` object, which is not modelled.
- Utils.KeySplit: `Number` is modelled for the ids that read as finite integers. Ids such as `15e-1` read as fractions, which the model keeps as text because it has no fractional numbers. Literals are read exactly, without rounding to a double: an id beyond 2^53 reads as its exact integer rather than the nearest double, `1e400` reads as 10^400 here where JavaScript overflows to an infinity and keeps the text, and `1e-400` reads as no integer here where JavaScript reads 0.
- Utils.ToJsono: an instance held inside another instance's properties is kept by reference rather than copied again. Instances can form cycles, and the model has no terminating measure for a copy through them. A truthy `exclude` that is neither a string nor an array is ignored, where the source throws (see `Utils.JsonoRecord`).
- ObjectFactory.ToUpper: folds ASCII letters only. JavaScript's `toUpperCase` also folds letters outside ASCII, so a resource such as `élan` counts as capitalised in `NamesClass` here and not in the source.
- RemoteProvider.Unperformed: states membership and distinctness of the filtered operations, not that their order is kept.

## Findings

| source | as written | input that shows it | evidently intended | confidence | as-written member | corrected member |
|---|---|---|---|---|---|---|
| src/core.js:186 | The dependent-key loop reuses the outer loop's variable `i`. After a cache hit with recorded dependent keys, the outer loop resumes at one past their count. | Operations `[read a, read b, cacheRead c]`. The cache holds `c` and the recorded dependent keys of `c` are `["d"]`. The loop returns to `c` for ever. With dependent keys `x, y, z` on a first-operation hit, operations 2 to 4 are never reset. | An inner loop with its own variable, so that every operation is visited once. | not executed | `KojacCore.PerformLoopHangsAsWritten`, `KojacCore.PerformLoopSkipsAsWritten` | `KojacCore.Core.PrefillAll` |
| src/core.js:53 | The guard tests `this.chaining in aOptions`. The core has no `chaining` property, so it tests the key `"undefined"`, and the caller's `chaining` option is ignored. | `chain()` under API version 2 passes `{chaining: true}` and gets a request that does not chain. | Test whether `chaining` is among the options. | not executed | `KojacCore.ChainIgnoredAsWritten` | `KojacCore.Chaining`, `KojacCore.Core.NewRequest` |
