/**
 * The kojac core: builds requests, pre-fills cache-preferring reads before a request is
 * sent, merges returned results into the cache (updating cached objects in place or
 * manufacturing new ones), and finalises a request's results, error and the index of
 * dependent keys.
 */
module KojacCore {
  import opened JsValues
  import opened Utils
  import opened Operations
  import opened Requests
  import opened KojacCache
  import opened ObjectFactory

  // ---------------------------------------------------------------------------
  // newRequest: whether a new request chains
  // ---------------------------------------------------------------------------

  /**
   * `chaining` of a request made by `newRequest(options)` as the code reads: the guard
   * looks up the key "undefined" (the core has no `chaining` property), so unless the
   * options hold that key, chaining is decided by the API version alone.
   */
  function ChainingAsWritten(opts: Options, apiVersion: int): bool {
    var o := OptionsOrEmpty(opts);
    if "undefined" in o then Truthy(Lookup(o, "chaining")) else apiVersion < 2
  }

  /**
   * `chaining` as intended: the caller's `chaining` option when given, otherwise
   * chaining exactly under API version 1.
   */
  function Chaining(opts: Options, apiVersion: int): (r: bool)
    ensures "chaining" in OptionsOrEmpty(opts) ==> r == Truthy(OptionsOrEmpty(opts)["chaining"])
    ensures "chaining" !in OptionsOrEmpty(opts) ==> (r <==> apiVersion < 2)
  {
    var o := OptionsOrEmpty(opts);
    if "chaining" in o then Truthy(o["chaining"]) else apiVersion < 2
  }

  /** The two agree when the caller says nothing about chaining. */
  lemma ChainingDefaultAgrees(opts: Options, apiVersion: int)
    requires "chaining" !in OptionsOrEmpty(opts) && "undefined" !in OptionsOrEmpty(opts)
    ensures ChainingAsWritten(opts, apiVersion) == Chaining(opts, apiVersion)
  {
  }

  /** As written, `chain()` does not chain under API version 2: its first builder call submits. */
  lemma ChainIgnoredAsWritten()
    ensures !ChainingAsWritten(Some(map["chaining" := Bool(true)]), 2)
    ensures Chaining(Some(map["chaining" := Bool(true)]), 2)
  {
  }

  // ---------------------------------------------------------------------------
  // performRequest: pre-filling reads from the cache
  // ---------------------------------------------------------------------------

  /** The key a cached read is looked up under: a result key that renames the key, else the key. */
  function PrefillKey(v: OpView): (k: string)
    ensures Present(v.resultKey) && v.resultKey.value != v.key ==> k == v.resultKey.value
    ensures !(Present(v.resultKey) && v.resultKey.value != v.key) ==> k == v.key
  {
    if Present(v.resultKey) && v.resultKey.value != v.key then v.resultKey.value else v.key
  }

  /** A READ preferring the cache, with a defined cached value under its key. */
  predicate CacheHit(v: OpView, data: map<string, Value>) {
    v.verb == Some(READ) && Truthy(Lookup(v.options, "preferCache")) && Lookup(data, PrefillKey(v)) != Undefined
  }

  /** The dependent keys recorded for an operation's key (none when nothing is recorded). */
  function DepKeys(v: OpView, deps: map<string, seq<string>>): seq<string> {
    if v.key in deps then deps[v.key] else []
  }

  /**
   * An operation as `performRequest` leaves it: its results emptied, and on a cache hit
   * filled from the cache under its key and every dependent key, marked performed from
   * the cache with the looked-up key as its result key.
   */
  function Prefilled(v: OpView, data: map<string, Value>, deps: map<string, seq<string>>): (r: OpView)
    ensures !CacheHit(v, data) ==> r == v.(results := map[])
    ensures CacheHit(v, data) ==>
              r == v.(results := r.results, resultKey := Some(PrefillKey(v)), fromCache := Some(true), performed := true)
              && (forall x :: x in r.results <==> x == PrefillKey(v) || x in DepKeys(v, deps))
              && (forall x :: x in r.results ==> r.results[x] == Lookup(data, x))
  {
    if CacheHit(v, data) then
      var k := PrefillKey(v);
      v.(results := CacheLookups(data, {k} + SetOf(DepKeys(v, deps))),
         resultKey := Some(k), fromCache := Some(true), performed := true)
    else v.(results := map[])
  }

  /** Each of `keys` with what the cache holds under it (`undefined` when nothing). */
  function CacheLookups(data: map<string, Value>, keys: set<string>): (r: map<string, Value>)
    ensures r.Keys == keys && forall x :: x in r ==> r[x] == Lookup(data, x)
  {
    map x | x in keys :: Lookup(data, x)
  }

  /** The elements of a sequence. */
  function SetOf(s: seq<string>): (r: set<string>)
    ensures forall x :: x in r <==> x in s
  {
    set x | x in s
  }

  lemma SetOfSnoc(s: seq<string>, x: string)
    ensures SetOf(s + [x]) == SetOf(s) + {x}
  {
  }

  /** Looking up one more key adds its entry. */
  lemma CacheLookupsStep(data: map<string, Value>, keys: set<string>, x: string)
    ensures CacheLookups(data, keys + {x}) == CacheLookups(data, keys)[x := Lookup(data, x)]
  {
  }

  /** Pre-filling does not change whether an operation hits the cache, nor its dependent keys. */
  lemma PrefillKeepsHit(v: OpView, data: map<string, Value>, deps: map<string, seq<string>>)
    ensures CacheHit(Prefilled(v, data, deps), data) == CacheHit(v, data)
    ensures DepKeys(Prefilled(v, data, deps), deps) == DepKeys(v, deps)
  {
  }

  /** Pre-filling an operation a second time changes nothing. */
  lemma PrefillIdempotent(v: OpView, data: map<string, Value>, deps: map<string, seq<string>>)
    ensures Prefilled(Prefilled(v, data, deps), data, deps) == Prefilled(v, data, deps)
  {
    var once := Prefilled(v, data, deps);
    if CacheHit(v, data) {
      assert PrefillKey(once) == PrefillKey(v);
    }
  }

  /**
   * The index the outer loop of `performRequest` moves to after operation `i`, as the
   * code reads: the dependent-key loop reuses the outer loop's variable, so after a hit
   * with recorded dependent keys the outer loop resumes one past their count.
   */
  function NextAsWritten(views: seq<OpView>, data: map<string, Value>, deps: map<string, seq<string>>, i: nat): nat
    requires i < |views|
  {
    if CacheHit(views[i], data) && views[i].key in deps then |deps[views[i].key]| + 1 else i + 1
  }

  /**
   * The operations the loop as written visits from `i`, in order, or `None` when it has
   * not left the loop within `fuel` steps. Revisiting an operation sees the same hit and
   * the same dependent keys (`PrefillKeepsHit`), so the original views decide every step.
   */
  function VisitsAsWritten(views: seq<OpView>, data: map<string, Value>, deps: map<string, seq<string>>, i: nat, fuel: nat)
    : (r: Option<seq<nat>>)
    ensures r.Some? ==> forall j :: 0 <= j < |r.value| ==> r.value[j] < |views|
    decreases fuel
  {
    if i >= |views| then Some([])
    else if fuel == 0 then None
    else
      match VisitsAsWritten(views, data, deps, NextAsWritten(views, data, deps, i), fuel - 1)
      case None => None
      case Some(rest) => Some([i] + rest)
  }

  /** A READ that prefers the cache. */
  function CachedRead(key: string): OpView {
    BlankOp.(verb := Some(READ), key := key, options := map["preferCache" := Bool(true)])
  }

  /** A READ that goes to the server. */
  function ServerRead(key: string): OpView {
    BlankOp.(verb := Some(READ), key := key)
  }

  /**
   * With a cache hit on the third operation and one dependent key recorded for it, the
   * loop as written goes back to that operation for ever.
   */
  lemma {:induction false} PerformLoopHangsAsWritten(fuel: nat)
    ensures VisitsAsWritten([ServerRead("a"), ServerRead("b"), CachedRead("c")],
                            map["c" := Num(1)], map["c" := ["d"]], 0, fuel) == None
  {
    var views := [ServerRead("a"), ServerRead("b"), CachedRead("c")];
    var data := map["c" := Num(1)];
    var deps := map["c" := ["d"]];
    assert NextAsWritten(views, data, deps, 0) == 1;
    assert NextAsWritten(views, data, deps, 1) == 2;
    if fuel >= 2 {
      StuckAtThird(views, data, deps, fuel - 2);
    }
  }

  lemma {:induction false} StuckAtThird(views: seq<OpView>, data: map<string, Value>, deps: map<string, seq<string>>, fuel: nat)
    requires views == [ServerRead("a"), ServerRead("b"), CachedRead("c")]
    requires data == map["c" := Num(1)] && deps == map["c" := ["d"]]
    ensures VisitsAsWritten(views, data, deps, 2, fuel) == None
    decreases fuel
  {
    assert NextAsWritten(views, data, deps, 2) == 2;
    if fuel > 0 {
      StuckAtThird(views, data, deps, fuel - 1);
    }
  }

  /**
   * With a cache hit on the first operation and three dependent keys recorded for it,
   * the loop as written leaves after the first operation: the other three are never
   * reset nor looked up in the cache.
   */
  lemma PerformLoopSkipsAsWritten()
    ensures VisitsAsWritten([CachedRead("a"), ServerRead("b"), ServerRead("c"), ServerRead("d")],
                            map["a" := Num(1)], map["a" := ["x", "y", "z"]], 0, 10) == Some([0])
  {
    var views := [CachedRead("a"), ServerRead("b"), ServerRead("c"), ServerRead("d")];
    var data := map["a" := Num(1)];
    var deps := map["a" := ["x", "y", "z"]];
    assert NextAsWritten(views, data, deps, 0) == 4;
    assert VisitsAsWritten(views, data, deps, 4, 9) == Some([]);
    assert VisitsAsWritten(views, data, deps, 0, 10) == Some([0] + []);
    assert [0] + [] == [0];
  }

  /** The views with every operation pre-filled. */
  function PrefilledAll(views: seq<OpView>, data: map<string, Value>, deps: map<string, seq<string>>): (r: seq<OpView>)
    ensures |r| == |views|
    ensures forall j :: 0 <= j < |views| ==> r[j] == Prefilled(views[j], data, deps)
  {
    seq(|views|, j requires 0 <= j < |views| => Prefilled(views[j], data, deps))
  }

  // ---------------------------------------------------------------------------
  // handleResults: what reaches the cache
  // ---------------------------------------------------------------------------

  /** An operation's results go to the cache unless its `cacheResults` option is `false`. */
  predicate Caches(options: map<string, Value>) {
    Lookup(options, "cacheResults") != Bool(false)
  }

  /** A result value is atomised (merged or manufactured) when it is an object and `atomise` is not `false`. */
  predicate Atomises(options: map<string, Value>, x: Value) {
    Lookup(options, "atomise") != Bool(false) && IsObjectStrict(x)
  }

  /** Manufacturing is on unless the `manufacture` option is `false`. */
  predicate Manufactures(options: map<string, Value>) {
    Lookup(options, "manufacture") != Bool(false)
  }

  /**
   * The key a result is manufactured under: the operation's own key when the result is
   * its primary result (renamed by the result key) and that key has no dot; otherwise
   * the result's key.
   */
  function ManufactureKey(v: OpView, key: string): (k: string)
    ensures k == key || k == v.key
    ensures v.resultKey != Some(key) ==> k == key
  {
    if v.resultKey == Some(key) && '.' !in v.key then v.key else key
  }

  /** The cache after storing every entry of `m`: an `undefined` entry removes its key. */
  function StoredAll(data: map<string, Value>, m: map<string, Value>): (d: map<string, Value>)
    ensures forall k :: k in d <==> (k in m && m[k] != Undefined) || (k !in m && k in data)
    ensures forall k :: k in d ==> d[k] == if k in m then m[k] else data[k]
  {
    var keys := (data.Keys - m.Keys) + set k | k in m && m[k] != Undefined;
    map k | k in keys :: if k in m then m[k] else data[k]
  }

  /** Storing one more entry extends a bulk store by that entry. */
  lemma StoredAllStep(data: map<string, Value>, m: map<string, Value>, k: string, v: Value)
    ensures StoredAll(data, m[k := v]) == Stored(StoredAll(data, m), k, v)
  {
  }

  /** The cache after the operations' results are stored, one operation after another. */
  function CacheAfter(data: map<string, Value>, views: seq<OpView>): map<string, Value> {
    if views == [] then data
    else
      var before := CacheAfter(data, views[..|views| - 1]);
      var v := views[|views| - 1];
      if Caches(v.options) then StoredAll(before, v.results) else before
  }

  /** The last operation that stores a result under `k`. */
  function LastStoring(views: seq<OpView>, k: string): (r: Option<nat>)
    ensures r.Some? ==> r.value < |views| && Caches(views[r.value].options) && k in views[r.value].results
    ensures r.Some? ==> forall j :: r.value < j < |views| ==> !(Caches(views[j].options) && k in views[j].results)
    ensures r.None? ==> forall j :: 0 <= j < |views| ==> !(Caches(views[j].options) && k in views[j].results)
  {
    if views == [] then None
    else
      var n := |views| - 1;
      if Caches(views[n].options) && k in views[n].results then Some(n)
      else
        var r := LastStoring(views[..n], k);
        assert forall j :: 0 <= j < n ==> views[..n][j] == views[j];
        r
  }

  /**
   * After `handleResults`, each key holds what the last caching operation returned for
   * it (a returned `undefined` removes it); keys no caching operation returned are as
   * they were.
   */
  lemma {:induction false} CacheAfterLookup(data: map<string, Value>, views: seq<OpView>, k: string)
    ensures LastStoring(views, k).Some? ==>
              Lookup(CacheAfter(data, views), k) == views[LastStoring(views, k).value].results[k]
    ensures LastStoring(views, k).None? ==> Lookup(CacheAfter(data, views), k) == Lookup(data, k)
  {
    if views != [] {
      var n := |views| - 1;
      CacheAfterLookup(data, views[..n], k);
      assert forall j :: 0 <= j < n ==> views[..n][j] == views[j];
    }
  }

  /** The results never leave an `undefined` entry in the cache. */
  lemma {:induction false} CacheAfterKeepsValuesDefined(data: map<string, Value>, views: seq<OpView>)
    requires Undefined !in data.Values
    ensures Undefined !in CacheAfter(data, views).Values
  {
    if views != [] {
      var n := |views| - 1;
      CacheAfterKeepsValuesDefined(data, views[..n]);
      var before := CacheAfter(data, views[..n]);
      if Caches(views[n].options) {
        var d := StoredAll(before, views[n].results);
        forall k | k in d
          ensures d[k] != Undefined
        {
          if k !in views[n].results {
            assert before[k] in before.Values;
          }
        }
      }
    }
  }

  /** Every instance held in the results of some operation of `ops`. */
  ghost function ResultObjects(ops: seq<Operation>): set<Instance>
    reads set o | o in ops
  {
    set o, x | o in ops && x in ObjectsIn(o.results) :: x
  }

  lemma ResultObjectsCover(ops: seq<Operation>, views: seq<OpView>)
    requires |views| == |ops| && forall j :: 0 <= j < |ops| ==> views[j] == ops[j].View()
    ensures forall j, k :: 0 <= j < |views| && k in views[j].results && views[j].results[k].Obj? ==>
              views[j].results[k].obj in ResultObjects(ops)
  {
    forall j, k | 0 <= j < |views| && k in views[j].results && views[j].results[k].Obj?
      ensures views[j].results[k].obj in ResultObjects(ops)
    {
      assert ops[j] in ops && views[j].results[k].obj in ObjectsIn(ops[j].results);
    }
  }

  /**
   * Part way through the results of an operation `v`: the keys not yet processed are
   * `remaining`, the values not atomised are as they were, and, for a caching operation,
   * the cache holds the processed keys' results stored on top of `data0`.
   */
  /** `after` has the keys of `before`, and only the values atomised under `options` may differ. */
  predicate AtomisedOnly(options: map<string, Value>, before: map<string, Value>, after: map<string, Value>) {
    && after.Keys == before.Keys
    && forall k :: k in after && !Atomises(options, before[k]) ==> after[k] == before[k]
  }

  /**
   * What atomising makes of a result `x` stored under a key whose cached value is `ex`
   * (`factory` says whether an object factory is present), as far as it is fixed by
   * values: a value that is not atomised is kept; for a caching operation an instance
   * cached under the key becomes the result itself; with nothing to merge into and
   * nothing to manufacture with, the value is kept.
   */
  predicate AtomisedAs(options: map<string, Value>, ex: Value, factory: bool, x: Value, r: Value) {
    && (!Atomises(options, x) ==> r == x)
    && (Atomises(options, x) && Caches(options) && ex.Obj? ==> r == ex)
    && (Atomises(options, x) && !(Caches(options) && IsObjectStrict(ex)) && !(Manufactures(options) && factory) ==> r == x)
  }

  /** The entry under `k` of `after`, where both maps have one, is `before`'s atomised against `data`. */
  predicate AtomisedEntry(options: map<string, Value>, data: map<string, Value>, factory: bool,
                          before: map<string, Value>, after: map<string, Value>, k: string) {
    k in after && k in before ==> AtomisedAs(options, Lookup(data, k), factory, before[k], after[k])
  }

  /** `after` is `before` with every entry atomised against the cache `data`. */
  predicate AtomisedFrom(options: map<string, Value>, data: map<string, Value>, factory: bool,
                         before: map<string, Value>, after: map<string, Value>) {
    && after.Keys == before.Keys
    && forall k {:trigger AtomisedEntry(options, data, factory, before, after, k)} ::
         k in after ==> AtomisedEntry(options, data, factory, before, after, k)
  }

  /** The keys of `results` already processed (not in `remaining`) are atomised against `data0`. */
  predicate KeysAtomised(v: OpView, data0: map<string, Value>, factory: bool, results: map<string, Value>, remaining: set<string>) {
    forall k {:trigger AtomisedEntry(v.options, data0, factory, v.results, results, k)} ::
      k in results && k !in remaining ==> AtomisedEntry(v.options, data0, factory, v.results, results, k)
  }

  /** Processing one more key extends `KeysAtomised` by that key. */
  lemma KeysAtomisedStep(v: OpView, data0: map<string, Value>, factory: bool, results: map<string, Value>,
                         remaining: set<string>, key: string, r: Value)
    requires KeysAtomised(v, data0, factory, results, remaining) && key in v.results
    requires AtomisedAs(v.options, Lookup(data0, key), factory, v.results[key], r)
    ensures KeysAtomised(v, data0, factory, results[key := r], remaining - {key})
  {
    forall k | k in results[key := r] && k !in remaining - {key}
      ensures AtomisedEntry(v.options, data0, factory, v.results, results[key := r], k)
    {
      if k != key {
        assert AtomisedEntry(v.options, data0, factory, v.results, results, k);
      }
    }
  }

  /** With no key remaining and the keys kept, the whole map is atomised. */
  lemma KeysAtomisedDone(v: OpView, data0: map<string, Value>, factory: bool, results: map<string, Value>)
    requires KeysAtomised(v, data0, factory, results, {}) && results.Keys == v.results.Keys
    ensures AtomisedFrom(v.options, data0, factory, v.results, results)
  {
    forall k | k in results ensures AtomisedEntry(v.options, data0, factory, v.results, results, k) {
      assert k !in {};
    }
  }

  /**
   * Each fully processed operation's results are atomised against the cache as it was
   * when that operation's turn came.
   */
  predicate DoneAtomised(views: seq<OpView>, data0: map<string, Value>, factory: bool, done: seq<map<string, Value>>)
    requires |done| <= |views|
  {
    forall j :: 0 <= j < |done| ==> AtomisedAt(views, data0, factory, done, j)
  }

  /** The `j`-th processed operation's results are atomised against the cache at its turn. */
  predicate AtomisedAt(views: seq<OpView>, data0: map<string, Value>, factory: bool, done: seq<map<string, Value>>, j: nat)
    requires j < |done| <= |views|
  {
    AtomisedFrom(views[j].options, CacheAfter(data0, WithResults(views, done)[..j]), factory, views[j].results, done[j])
  }

  ghost predicate ResultsSoFar(v: OpView, data0: map<string, Value>, results: map<string, Value>,
                               remaining: set<string>, data: map<string, Value>)
  {
    && remaining <= results.Keys
    && AtomisedOnly(v.options, v.results, results)
    && data == if Caches(v.options) then StoredAll(data0, results - remaining) else data0
  }

  /** With no key remaining, every result has been stored. */
  lemma ResultsDone(v: OpView, data0: map<string, Value>, results: map<string, Value>, data: map<string, Value>)
    requires ResultsSoFar(v, data0, results, {}, data)
    ensures data == if Caches(v.options) then StoredAll(data0, results) else data0
  {
    assert results - {} == results;
  }

  /** Processing one more of the remaining keys stores that key on top of the keys already done. */
  lemma StoredNextStep(data: map<string, Value>, m: map<string, Value>, remaining: set<string>, key: string, x: Value)
    requires key in remaining
    ensures StoredAll(data, m[key := x] - (remaining - {key})) == Stored(StoredAll(data, m - remaining), key, x)
  {
    assert m[key := x] - (remaining - {key}) == (m - remaining)[key := x];
    StoredAllStep(data, m - remaining, key, x);
  }

  /** The index of the first operation carrying an error, or the number of operations. */
  function FirstFailed(views: seq<OpView>): (e: nat)
    ensures e <= |views|
    ensures forall j :: 0 <= j < e ==> !Truthy(views[j].error)
    ensures e < |views| ==> Truthy(views[e].error)
  {
    if views == [] then 0
    else if Truthy(views[0].error) then 0
    else 1 + FirstFailed(views[1..])
  }

  /** Replacing results leaves the errors, and so the first failed operation, as they were. */
  lemma FirstFailedKept(views: seq<OpView>, views': seq<OpView>)
    requires |views'| == |views| && forall j :: 0 <= j < |views| ==> views'[j].error == views[j].error
    ensures FirstFailed(views') == FirstFailed(views)
  {
  }

  /** An index no later than the first failure, with an error (or the end) at it, is the first failure. */
  lemma FirstFailedAt(views: seq<OpView>, i: nat)
    requires i <= FirstFailed(views)
    requires i < |views| ==> Truthy(views[i].error)
    ensures FirstFailed(views) == i
  {
  }


  /**
   * `done` holds the processed results of a prefix of `views`, none of which carries an
   * error, each differing from the operation's own results only in values it atomises.
   */
  predicate DoneSoFar(views: seq<OpView>, done: seq<map<string, Value>>)
    decreases |done|
  {
    && |done| <= FirstFailed(views)
    && (done == [] || (
         && DoneSoFar(views, done[..|done| - 1])
         && AtomisedOnly(views[|done| - 1].options, views[|done| - 1].results, done[|done| - 1])))
  }

  lemma {:induction false} DoneSoFarAt(views: seq<OpView>, done: seq<map<string, Value>>, j: nat)
    requires DoneSoFar(views, done) && j < |done|
    ensures AtomisedOnly(views[j].options, views[j].results, done[j])
  {
    if j < |done| - 1 {
      DoneSoFarAt(views, done[..|done| - 1], j);
    }
  }

  lemma DoneStep(views: seq<OpView>, done: seq<map<string, Value>>, results: map<string, Value>)
    requires DoneSoFar(views, done) && |done| < |views| && !Truthy(views[|done|].error)
    requires AtomisedOnly(views[|done|].options, views[|done|].results, results)
    ensures DoneSoFar(views, done + [results]) && |done| < FirstFailed(views)
  {
    assert (done + [results])[..|done|] == done;
  }

  /** The operations as read, the first `|done|` of them with their results replaced by `done`. */
  function Merged(views: seq<OpView>, done: seq<map<string, Value>>): (r: seq<OpView>)
    requires |done| <= |views|
    ensures |r| == |views|
    ensures forall j :: 0 <= j < |views| ==> r[j] == views[j].(results := if j < |done| then done[j] else views[j].results)
  {
    WithResults(views, done) + views[|done|..]
  }

  /**
   * What `handleResults` promises of the operations as read (`before`) and as left
   * (`views`): only results change, and only for operations before the first one with
   * an error; each operation's results differ from what was read only in values
   * atomised into instances; when nothing threw, the cache went from `data0` to `data`
   * by storing the processed operations' results in order, and each processed
   * operation's results are atomised (`AtomisedAs`) against the cache as it stood at
   * its turn, so that a cached instance became the result itself. `factory` says
   * whether an object factory is present.
   */
  predicate HandledFrom(before: seq<OpView>, views: seq<OpView>, data0: map<string, Value>, data: map<string, Value>,
                        factory: bool, normal: bool) {
    && |views| == |before|
    && (forall j :: 0 <= j < |before| ==> views[j] == before[j].(results := views[j].results))
    && (forall j :: 0 <= j < |before| ==> AtomisedOnly(before[j].options, before[j].results, views[j].results))
    && (forall j :: FirstFailed(views) <= j < |before| ==> views[j].results == before[j].results)
    && (normal ==> data == CacheAfter(data0, views[..FirstFailed(views)]))
    && (normal ==> forall j :: 0 <= j < FirstFailed(views) ==>
          AtomisedFrom(before[j].options, CacheAfter(data0, views[..j]), factory, before[j].results, views[j].results))
  }

  /** Writing back the processed results of the operations before the first failure meets `HandledFrom`. */
  lemma MergedHandled(before: seq<OpView>, done: seq<map<string, Value>>, data0: map<string, Value>, data: map<string, Value>,
                      factory: bool, normal: bool)
    requires DoneSoFar(before, done) && |done| <= FirstFailed(before)
    requires normal ==> |done| == FirstFailed(before) && data == CacheAfter(data0, WithResults(before, done))
    requires normal ==> DoneAtomised(before, data0, factory, done)
    ensures HandledFrom(before, Merged(before, done), data0, data, factory, normal)
  {
    var m := Merged(before, done);
    FirstFailedKept(before, m);
    forall j | 0 <= j < |before|
      ensures AtomisedOnly(before[j].options, before[j].results, m[j].results)
    {
      if j < |done| {
        DoneSoFarAt(before, done, j);
      } else {
        assert m[j].results == before[j].results;
      }
    }
    if normal {
      assert m[..|done|] == WithResults(before, done);
      forall j | 0 <= j < FirstFailed(m)
        ensures AtomisedFrom(before[j].options, CacheAfter(data0, m[..j]), factory, before[j].results, m[j].results)
      {
        assert AtomisedAt(before, data0, factory, done, j);
        assert m[..j] == WithResults(before, done)[..j];
      }
    }
  }

  /**
   * Part way through `handleResults`: `done` holds the processed results of the first
   * `|done|` operations, `processed` is those operations with their processed results,
   * and the cache went from `data0` to `data` by storing them in order.
   */
  predicate ViewsSoFar(views: seq<OpView>, data0: map<string, Value>, done: seq<map<string, Value>>,
                       processed: seq<OpView>, data: map<string, Value>) {
    && DoneSoFar(views, done)
    && processed == WithResults(views, done)
    && data == CacheAfter(data0, processed)
  }

  /** One more operation processed is one more entry on the cache's history. */
  lemma CacheAfterSnoc(data: map<string, Value>, views: seq<OpView>, v: OpView)
    ensures CacheAfter(data, views + [v]) ==
            if Caches(v.options) then StoredAll(CacheAfter(data, views), v.results) else CacheAfter(data, views)
  {
    assert (views + [v])[..|views|] == views;
  }

  /** The first `|rs|` operations with their results replaced by `rs`. */
  function WithResults(views: seq<OpView>, rs: seq<map<string, Value>>): (r: seq<OpView>)
    requires |rs| <= |views|
    ensures |r| == |rs|
    ensures forall j :: 0 <= j < |rs| ==> r[j] == views[j].(results := rs[j])
  {
    if rs == [] then []
    else WithResults(views, rs[..|rs| - 1]) + [views[|rs| - 1].(results := rs[|rs| - 1])]
  }

  lemma WithResultsSnoc(views: seq<OpView>, rs: seq<map<string, Value>>, x: map<string, Value>)
    requires |rs| < |views|
    ensures WithResults(views, rs + [x]) == WithResults(views, rs) + [views[|rs|].(results := x)]
  {
    assert (rs + [x])[..|rs|] == rs;
  }

  /** One more fully processed operation, atomised against the cache at its turn, extends `DoneAtomised`. */
  lemma DoneAtomisedStep(views: seq<OpView>, data0: map<string, Value>, factory: bool,
                         done: seq<map<string, Value>>, data: map<string, Value>, results: map<string, Value>)
    requires |done| < |views| && DoneAtomised(views, data0, factory, done)
    requires data == CacheAfter(data0, WithResults(views, done))
    requires AtomisedFrom(views[|done|].options, data, factory, views[|done|].results, results)
    ensures DoneAtomised(views, data0, factory, done + [results])
  {
    var done' := done + [results];
    var w, w' := WithResults(views, done), WithResults(views, done');
    WithResultsSnoc(views, done, results);
    forall j | 0 <= j < |done'|
      ensures AtomisedAt(views, data0, factory, done', j)
    {
      if j < |done| {
        assert AtomisedAt(views, data0, factory, done, j);
        SamePrefixCache(data0, w, w', j);
      } else {
        SamePrefixCache(data0, w + [views[j].(results := results)], w', j);
        assert (w + [views[j].(results := results)])[..j] == w;
      }
    }
  }

  /** Two histories that agree on their first `j` operations leave the same cache after them. */
  lemma SamePrefixCache(data0: map<string, Value>, w: seq<OpView>, w': seq<OpView>, j: nat)
    requires j <= |w| && j <= |w'| && forall i :: 0 <= i < j ==> w[i] == w'[i]
    ensures CacheAfter(data0, w[..j]) == CacheAfter(data0, w'[..j])
  {
    assert w[..j] == w'[..j];
  }

  /**
   * One more operation processed, its results atomised against the cache at its turn and
   * stored when it caches, extends what `ProcessViews` keeps track of.
   */
  lemma ViewsStep(views: seq<OpView>, data0: map<string, Value>, factory: bool, done: seq<map<string, Value>>,
                  processed: seq<OpView>, data: map<string, Value>, results: map<string, Value>, data': map<string, Value>)
    requires |done| < |views| && ViewsSoFar(views, data0, done, processed, data)
    requires DoneSoFar(views, done + [results]) && DoneAtomised(views, data0, factory, done)
    requires AtomisedFrom(views[|done|].options, data, factory, views[|done|].results, results)
    requires data' == if Caches(views[|done|].options) then StoredAll(data, results) else data
    ensures ViewsSoFar(views, data0, done + [results], processed + [views[|done|].(results := results)], data')
    ensures DoneAtomised(views, data0, factory, done + [results])
  {
    WithResultsSnoc(views, done, results);
    CacheAfterSnoc(data0, processed, views[|done|].(results := results));
    DoneAtomisedStep(views, data0, factory, done, data, results);
  }
  /**
   * `ViewsStep`, together with where the objects cached afterwards come from: those
   * cached before, or the results just processed.
   */
  lemma ViewsStepCached(views: seq<OpView>, data0: map<string, Value>, factory: bool, done: seq<map<string, Value>>,
                        processed: seq<OpView>, data: map<string, Value>, results: map<string, Value>,
                        data': map<string, Value>, frame: set<Instance>, made: set<Instance>)
    requires |done| < |views| && ViewsSoFar(views, data0, done, processed, data)
    requires DoneSoFar(views, done + [results]) && DoneAtomised(views, data0, factory, done)
    requires AtomisedFrom(views[|done|].options, data, factory, views[|done|].results, results)
    requires data' == if Caches(views[|done|].options) then StoredAll(data, results) else data
    requires forall k :: k in data && data[k].Obj? ==> data[k].obj in frame
    requires forall k :: k in results && results[k].Obj? ==> results[k].obj in frame + made
    ensures ViewsSoFar(views, data0, done + [results], processed + [views[|done|].(results := results)], data')
    ensures DoneAtomised(views, data0, factory, done + [results])
    ensures forall k :: k in data' && data'[k].Obj? ==> data'[k].obj in frame + made
  {
    ViewsStep(views, data0, factory, done, processed, data, results, data');
    forall k | k in data' && data'[k].Obj?
      ensures data'[k].obj in frame + made
    {
      if Caches(views[|done|].options) && k in results {
        assert data'[k] == results[k];
      } else {
        assert data'[k] == data[k];
      }
    }
  }


  /**
   * Identity through `handleResults`: when it completes, an instance cached under `k`
   * is still what is cached under `k`, provided every processed operation that stores
   * a result under `k` atomises it. The cached instance absorbs each result and is
   * stored back, never replaced by a copy.
   */
  lemma CachedInstanceKept(before: seq<OpView>, views: seq<OpView>, data0: map<string, Value>, data: map<string, Value>,
                           factory: bool, k: string)
    requires HandledFrom(before, views, data0, data, factory, true)
    requires Lookup(data0, k).Obj?
    requires forall j :: 0 <= j < FirstFailed(views) && Caches(before[j].options) && k in before[j].results ==>
               Atomises(before[j].options, before[j].results[k])
    ensures Lookup(data, k) == Lookup(data0, k)
  {
    var n := FirstFailed(views);
    forall j | 0 <= j < n ensures views[j].options == before[j].options {
      assert views[j] == before[j].(results := views[j].results);
    }
    CachedInstanceKeptUpTo(before, views, data0, factory, k, n);
  }

  lemma {:induction false} CachedInstanceKeptUpTo(before: seq<OpView>, views: seq<OpView>, data0: map<string, Value>,
                                                  factory: bool, k: string, n: nat)
    requires n <= |views| == |before|
    requires forall j :: 0 <= j < n ==> views[j].options == before[j].options
    requires forall j :: 0 <= j < n ==>
               AtomisedFrom(before[j].options, CacheAfter(data0, views[..j]), factory, before[j].results, views[j].results)
    requires Lookup(data0, k).Obj?
    requires forall j :: 0 <= j < n && Caches(before[j].options) && k in before[j].results ==>
               Atomises(before[j].options, before[j].results[k])
    ensures Lookup(CacheAfter(data0, views[..n]), k) == Lookup(data0, k)
  {
    if n == 0 {
      assert views[..0] == [];
    } else {
      var j := n - 1;
      CachedInstanceKeptUpTo(before, views, data0, factory, k, j);
      var prev := CacheAfter(data0, views[..j]);
      assert views[..n][..j] == views[..j];
      if Caches(views[j].options) && k in views[j].results {
        assert AtomisedFrom(before[j].options, prev, factory, before[j].results, views[j].results);
        assert AtomisedEntry(before[j].options, prev, factory, before[j].results, views[j].results, k);
      }
    }
  }

  // ---------------------------------------------------------------------------
  // handleResults: the properties merged into cached instances
  // ---------------------------------------------------------------------------

  /**
   * One merge made by `handleResults`: the properties `incoming` of the result under
   * `key` of operation `op` were copied into the cached instance `into`.
   */
  datatype Merge = Merge(op: nat, key: string, into: Instance, incoming: map<string, Value>)

  /** The properties of `x` after the merges, made in order, starting from `fields`. */
  function FieldsAfter(fields: map<string, Value>, x: Instance, merges: seq<Merge>): map<string, Value>
    decreases |merges|
  {
    if merges == [] then fields
    else
      var f := FieldsAfter(fields, x, merges[..|merges| - 1]);
      if merges[|merges| - 1].into == x then f + merges[|merges| - 1].incoming else f
  }

  /** Every instance of `frame` has the properties `merges` give it from those it had in `before`. */
  ghost predicate FieldsFrom(frame: set<Instance>, before: map<Instance, map<string, Value>>, merges: seq<Merge>)
    reads frame
  {
    forall x :: x in frame && x in before ==> x.fields == FieldsAfter(before[x], x, merges)
  }

  /** Merges made one batch after another act on an instance one batch after another. */
  lemma {:induction false} FieldsAfterAppend(fields: map<string, Value>, x: Instance, a: seq<Merge>, b: seq<Merge>)
    ensures FieldsAfter(fields, x, a + b) == FieldsAfter(FieldsAfter(fields, x, a), x, b)
    decreases |b|
  {
    if b == [] {
      assert a + b == a;
    } else {
      var b' := b[..|b| - 1];
      assert (a + b)[..|a + b| - 1] == a + b';
      FieldsAfterAppend(fields, x, a, b');
    }
  }

  /** Merges none of which is into `x` leave its properties alone. */
  lemma {:induction false} FieldsAfterNone(fields: map<string, Value>, x: Instance, merges: seq<Merge>)
    requires forall i :: 0 <= i < |merges| ==> merges[i].into != x
    ensures FieldsAfter(fields, x, merges) == fields
    decreases |merges|
  {
    if merges != [] {
      FieldsAfterNone(fields, x, merges[..|merges| - 1]);
    }
  }

  /** When exactly one merge is into `x`, its properties are the old ones overridden by that merge's. */
  lemma {:induction false} FieldsAfterOne(fields: map<string, Value>, x: Instance, merges: seq<Merge>, i: nat)
    requires i < |merges| && merges[i].into == x
    requires forall i' :: 0 <= i' < |merges| && i' != i ==> merges[i'].into != x
    ensures FieldsAfter(fields, x, merges) == fields + merges[i].incoming
    decreases |merges|
  {
    var n := |merges| - 1;
    var prefix := merges[..n];
    if i == n {
      FieldsAfterNone(fields, x, prefix);
    } else {
      FieldsAfterOne(fields, x, prefix, i);
    }
  }

  /**
   * Processing the result under `k` of `v`, against the cache `data` the operation
   * started from, merges it into a cached instance: the operation caches, the result is
   * an object to atomise and an instance is cached under `k`.
   */
  predicate Merges(v: OpView, data: map<string, Value>, k: string) {
    k in v.results && Caches(v.options) && Atomises(v.options, v.results[k]) && Lookup(data, k).Obj?
  }

  /**
   * `m` is a merge that operation `j`, read as `v`, makes against the cache `data` it
   * started from: into the instance cached under `m.key`, and, for a result that is a
   * plain record, of that record's properties.
   */
  predicate MergeOf(v: OpView, data: map<string, Value>, j: nat, m: Merge) {
    && m.op == j && Merges(v, data, m.key) && Lookup(data, m.key) == Obj(m.into)
    && (v.results[m.key].Rec? ==> m.incoming == v.results[m.key].fields)
  }

  function MergedKeys(merges: seq<Merge>): set<string> {
    set i | 0 <= i < |merges| :: merges[i].key
  }

  function MergedPairs(merges: seq<Merge>): set<(nat, string)> {
    set i | 0 <= i < |merges| :: (merges[i].op, merges[i].key)
  }

  /** The merges recorded for operation `j` are real merges, one per key. */
  predicate KeyMergesSound(v: OpView, data0: map<string, Value>, j: nat, merges: seq<Merge>) {
    && (forall i :: 0 <= i < |merges| ==> MergeOf(v, data0, j, merges[i]))
    && (forall i, i' :: 0 <= i < i' < |merges| ==> merges[i].key != merges[i'].key)
  }

  /** Every processed key of `v` that merges has its merge recorded. */
  predicate KeyMergesComplete(v: OpView, data0: map<string, Value>, merges: seq<Merge>, remaining: set<string>) {
    forall k :: k in v.results && k !in remaining && Merges(v, data0, k) ==> k in MergedKeys(merges)
  }

  /** Part way through one operation's results: the merges of exactly the processed keys that merge. */
  predicate KeyMergesSoFar(v: OpView, data0: map<string, Value>, j: nat, merges: seq<Merge>, remaining: set<string>) {
    && KeyMergesSound(v, data0, j, merges)
    && (forall i :: 0 <= i < |merges| ==> merges[i].key !in remaining)
    && KeyMergesComplete(v, data0, merges, remaining)
  }

  /** Processing one more key, which records its merge if it merges, keeps `KeyMergesSoFar`. */
  lemma KeyMergesStep(v: OpView, data0: map<string, Value>, j: nat, merges: seq<Merge>, remaining: set<string>,
                      key: string, step: seq<Merge>)
    requires KeyMergesSoFar(v, data0, j, merges, remaining)
    requires key in remaining && key in v.results
    requires Merges(v, data0, key) ==> |step| == 1 && step[0].key == key && MergeOf(v, data0, j, step[0])
    requires !Merges(v, data0, key) ==> step == []
    ensures KeyMergesSoFar(v, data0, j, merges + step, remaining - {key})
  {
    var ms := merges + step;
    forall k | k in v.results && k !in remaining - {key} && Merges(v, data0, k)
      ensures k in MergedKeys(ms)
    {
      if k == key {
        assert ms[|merges|].key == k;
      } else {
        var i :| 0 <= i < |merges| && merges[i].key == k;
        assert ms[i].key == k;
      }
    }
  }

  /** The cache before operation `j`, once the first `|done|` operations were processed into `done`. */
  function CacheBefore(views: seq<OpView>, data0: map<string, Value>, done: seq<map<string, Value>>, j: nat): map<string, Value>
    requires j <= |done| <= |views|
  {
    CacheAfter(data0, WithResults(views, done)[..j])
  }

  /** `m` is a merge that a processed operation made against the cache at its turn. */
  predicate MergedAt(views: seq<OpView>, data0: map<string, Value>, done: seq<map<string, Value>>, m: Merge)
    requires |done| <= |views|
  {
    m.op < |done| && MergeOf(views[m.op], CacheBefore(views, data0, done, m.op), m.op, m)
  }

  /** The merges recorded over the processed operations are real merges, one per operation and key. */
  predicate ViewMergesSound(views: seq<OpView>, data0: map<string, Value>, done: seq<map<string, Value>>, merges: seq<Merge>)
    requires |done| <= |views|
  {
    && (forall i :: 0 <= i < |merges| ==> MergedAt(views, data0, done, merges[i]))
    && (forall i, i' :: 0 <= i < i' < |merges| ==> merges[i].op != merges[i'].op || merges[i].key != merges[i'].key)
  }

  /** Every result of a processed operation that merges has its merge recorded. */
  predicate ViewMergesComplete(views: seq<OpView>, data0: map<string, Value>, done: seq<map<string, Value>>, merges: seq<Merge>)
    requires |done| <= |views|
  {
    forall j, k :: 0 <= j < |done| && k in views[j].results && Merges(views[j], CacheBefore(views, data0, done, j), k) ==>
      (j, k) in MergedPairs(merges)
  }

  /** One more operation processed, with the merges it made, extends the merges recorded. */
  lemma ViewMergesStep(views: seq<OpView>, data0: map<string, Value>, done: seq<map<string, Value>>, merges: seq<Merge>,
                       results: map<string, Value>, step: seq<Merge>, normal: bool)
    requires |done| < |views|
    requires ViewMergesSound(views, data0, done, merges)
    requires KeyMergesSound(views[|done|], CacheAfter(data0, WithResults(views, done)), |done|, step)
    requires normal ==> ViewMergesComplete(views, data0, done, merges)
    requires normal ==> KeyMergesComplete(views[|done|], CacheAfter(data0, WithResults(views, done)), step, {})
    ensures ViewMergesSound(views, data0, done + [results], merges + step)
    ensures normal ==> ViewMergesComplete(views, data0, done + [results], merges + step)
  {
    var done' := done + [results];
    var w, w' := WithResults(views, done), WithResults(views, done');
    var ms := merges + step;
    WithResultsSnoc(views, done, results);
    assert w'[..|done|] == w;
    forall j | 0 <= j < |done|
      ensures CacheBefore(views, data0, done', j) == CacheBefore(views, data0, done, j)
    {
      SamePrefixCache(data0, w, w', j);
    }
    forall i | 0 <= i < |ms|
      ensures MergedAt(views, data0, done', ms[i])
    {
      if i < |merges| {
        assert MergedAt(views, data0, done, merges[i]);
      }
    }
    if normal {
      forall j, k | 0 <= j < |done'| && k in views[j].results && Merges(views[j], CacheBefore(views, data0, done', j), k)
        ensures (j, k) in MergedPairs(ms)
      {
        if j < |done| {
          var i :| 0 <= i < |merges| && (merges[i].op, merges[i].key) == (j, k);
          assert ms[i] == merges[i];
        } else {
          var i :| 0 <= i < |step| && step[i].key == k;
          assert ms[|merges| + i] == step[i];
        }
      }
    }
  }

  /**
   * What `handleResults` promises of the merges it made, over the operations as read
   * (`before`) and as left (`views`): each merge is one result of an operation before
   * the first with an error, merged into the instance cached under its key at that
   * operation's turn; no operation and key is merged twice; and when nothing threw,
   * every such result that merges was merged.
   */
  predicate MergedFrom(before: seq<OpView>, views: seq<OpView>, data0: map<string, Value>, merges: seq<Merge>, normal: bool) {
    && |views| == |before|
    && (forall i :: 0 <= i < |merges| ==>
          merges[i].op < FirstFailed(before)
          && MergeOf(before[merges[i].op], CacheAfter(data0, views[..merges[i].op]), merges[i].op, merges[i]))
    && (forall i, i' :: 0 <= i < i' < |merges| ==> merges[i].op != merges[i'].op || merges[i].key != merges[i'].key)
    && (normal ==> forall j, k :: (0 <= j < FirstFailed(before) && k in before[j].results
                                   && Merges(before[j], CacheAfter(data0, views[..j]), k)) ==> (j, k) in MergedPairs(merges))
  }

  /** Writing back the processed results turns the merges recorded along the way into `MergedFrom`. */
  lemma MergesHandled(before: seq<OpView>, done: seq<map<string, Value>>, data0: map<string, Value>, merges: seq<Merge>,
                      normal: bool)
    requires |done| <= FirstFailed(before)
    requires normal ==> |done| == FirstFailed(before)
    requires ViewMergesSound(before, data0, done, merges)
    requires normal ==> ViewMergesComplete(before, data0, done, merges)
    ensures MergedFrom(before, Merged(before, done), data0, merges, normal)
  {
    var m := Merged(before, done);
    var w := WithResults(before, done);
    forall j | 0 <= j <= |done|
      ensures CacheAfter(data0, m[..j]) == CacheBefore(before, data0, done, j)
    {
      assert m[..j] == w[..j];
    }
    forall i | 0 <= i < |merges|
      ensures merges[i].op < FirstFailed(before)
              && MergeOf(before[merges[i].op], CacheAfter(data0, m[..merges[i].op]), merges[i].op, merges[i])
    {
      assert MergedAt(before, data0, done, merges[i]);
    }
  }

  /** An instance that no processed result merges into keeps its properties through `handleResults`. */
  lemma UnmergedFieldsKept(before: seq<OpView>, views: seq<OpView>, data0: map<string, Value>, merges: seq<Merge>,
                           normal: bool, x: Instance, fields: map<string, Value>)
    requires MergedFrom(before, views, data0, merges, normal)
    requires forall j, k :: (0 <= j < FirstFailed(before) && k in before[j].results
                             && Merges(before[j], CacheAfter(data0, views[..j]), k)) ==> Lookup(CacheAfter(data0, views[..j]), k) != Obj(x)
    ensures FieldsAfter(fields, x, merges) == fields
  {
    forall i | 0 <= i < |merges|
      ensures merges[i].into != x
    {
      var j, k := merges[i].op, merges[i].key;
      assert MergeOf(before[j], CacheAfter(data0, views[..j]), j, merges[i]);
    }
    FieldsAfterNone(fields, x, merges);
  }

  /**
   * When `handleResults` completes and exactly one processed result, a plain record,
   * merges into instance `x`, `x` ends with its old properties overridden by that
   * record's.
   */
  lemma MergedOnceFields(before: seq<OpView>, views: seq<OpView>, data0: map<string, Value>, merges: seq<Merge>,
                         x: Instance, fields: map<string, Value>, j: nat, k: string)
    requires MergedFrom(before, views, data0, merges, true)
    requires j < FirstFailed(before) && k in before[j].results && before[j].results[k].Rec?
    requires Merges(before[j], CacheAfter(data0, views[..j]), k) && Lookup(CacheAfter(data0, views[..j]), k) == Obj(x)
    requires forall j', k' :: (0 <= j' < FirstFailed(before) && k' in before[j'].results
                               && Merges(before[j'], CacheAfter(data0, views[..j']), k')
                               && Lookup(CacheAfter(data0, views[..j']), k') == Obj(x)) ==> j' == j && k' == k
    ensures FieldsAfter(fields, x, merges) == fields + before[j].results[k].fields
  {
    var i :| 0 <= i < |merges| && (merges[i].op, merges[i].key) == (j, k);
    assert MergeOf(before[j], CacheAfter(data0, views[..j]), j, merges[i]);
    forall i' | 0 <= i' < |merges| && i' != i
      ensures merges[i'].into != x
    {
      var j', k' := merges[i'].op, merges[i'].key;
      assert MergeOf(before[j'], CacheAfter(data0, views[..j']), j', merges[i']);
    }
    FieldsAfterOne(fields, x, merges, i);
  }

  /** The instance cached under `key`, if one is. */
  function CachedObject(data: map<string, Value>, key: string): set<Instance> {
    if Lookup(data, key).Obj? then {Lookup(data, key).obj} else {}
  }

  // ---------------------------------------------------------------------------
  // finaliseResponse: the request's convenience properties and dependent keys
  // ---------------------------------------------------------------------------

  /** The key an operation's result is read under: its result key when set, else its key. */
  function ResultKeyOf(v: OpView): string {
    if Present(v.resultKey) then v.resultKey.value else v.key
  }

  /** `op.result` as finalising sets it: the entry under the result key, or null when that key is empty. */
  function OpResult(v: OpView): Value {
    if ResultKeyOf(v) != "" then Lookup(v.results, ResultKeyOf(v)) else Null
  }

  /** The operations' results merged in order into one record, a later entry replacing an earlier one. */
  function ResultsUnion(views: seq<OpView>): map<string, Value> {
    if views == [] then map[] else ResultsUnion(views[..|views| - 1]) + views[|views| - 1].results
  }

  /** The last operation whose results hold `k`. */
  function LastHolding(views: seq<OpView>, k: string): (r: Option<nat>)
    ensures r.Some? ==> r.value < |views| && k in views[r.value].results
    ensures r.Some? ==> forall j :: r.value < j < |views| ==> k !in views[j].results
    ensures r.None? ==> forall j :: 0 <= j < |views| ==> k !in views[j].results
  {
    if views == [] then None
    else
      var n := |views| - 1;
      if k in views[n].results then Some(n)
      else
        var r := LastHolding(views[..n], k);
        assert forall j :: 0 <= j < n ==> views[..n][j] == views[j];
        r
  }

  /**
   * The request's `results`: a key is present exactly when some operation's results hold
   * it, with the value the last such operation gave.
   */
  lemma {:induction false} ResultsUnionLookup(views: seq<OpView>, k: string)
    ensures k in ResultsUnion(views) <==> LastHolding(views, k).Some?
    ensures k in ResultsUnion(views) ==> ResultsUnion(views)[k] == views[LastHolding(views, k).value].results[k]
  {
    if views != [] {
      var n := |views| - 1;
      ResultsUnionLookup(views[..n], k);
      assert forall j :: 0 <= j < n ==> views[..n][j] == views[j];
    }
  }

  /** Finalising records an operation's dependent keys when the server performed it and it caches. */
  predicate RecordsDependents(v: OpView) {
    v.performed && v.fromCache == Some(false) && Caches(v.options)
  }

  /** The keys other than its result key that an operation's results hold. */
  function Dependents(v: OpView): set<string> {
    v.results.Keys - {ResultKeyOf(v)}
  }

  /** The recorded dependent keys, as sets, after finalising one operation. */
  function RecordDependents(deps: map<string, set<string>>, v: OpView): map<string, set<string>> {
    if !RecordsDependents(v) then deps
    else if Dependents(v) == {} then deps - {v.key}
    else deps[v.key := Dependents(v)]
  }

  /** The recorded dependent keys, as sets, after finalising each operation in turn. */
  function DependentsAfter(deps: map<string, set<string>>, views: seq<OpView>): map<string, set<string>> {
    if views == [] then deps else RecordDependents(DependentsAfter(deps, views[..|views| - 1]), views[|views| - 1])
  }

  /** The last operation that records dependent keys under `k`. */
  function LastRecording(views: seq<OpView>, k: string): (r: Option<nat>)
    ensures r.Some? ==> r.value < |views| && RecordsDependents(views[r.value]) && views[r.value].key == k
    ensures r.Some? ==> forall j :: r.value < j < |views| ==> !(RecordsDependents(views[j]) && views[j].key == k)
    ensures r.None? ==> forall j :: 0 <= j < |views| ==> !(RecordsDependents(views[j]) && views[j].key == k)
  {
    if views == [] then None
    else
      var n := |views| - 1;
      if RecordsDependents(views[n]) && views[n].key == k then Some(n)
      else
        var r := LastRecording(views[..n], k);
        assert forall j :: 0 <= j < n ==> views[..n][j] == views[j];
        r
  }

  /**
   * After finalising, a key holds the dependents of the last operation recording under it,
   * and no entry when that operation had none; a key no operation records under is as it was.
   */
  lemma {:induction false} DependentsAfterLookup(deps: map<string, set<string>>, views: seq<OpView>, k: string)
    ensures LastRecording(views, k).Some? ==>
              var v := views[LastRecording(views, k).value];
              (k in DependentsAfter(deps, views) <==> Dependents(v) != {})
              && (k in DependentsAfter(deps, views) ==> DependentsAfter(deps, views)[k] == Dependents(v))
    ensures LastRecording(views, k).None? ==>
              (k in DependentsAfter(deps, views) <==> k in deps)
              && (k in deps ==> DependentsAfter(deps, views)[k] == deps[k])
  {
    if views != [] {
      var n := |views| - 1;
      DependentsAfterLookup(deps, views[..n], k);
      var v := views[n];
      assert DependentsAfter(deps, views) == RecordDependents(DependentsAfter(deps, views[..n]), v);
      if RecordsDependents(v) && v.key == k {
        assert LastRecording(views, k) == Some(n);
      } else {
        assert LastRecording(views, k) == LastRecording(views[..n], k);
        assert forall j :: 0 <= j < n ==> views[..n][j] == views[j];
      }
    }
  }

  /** Finalising never records an empty list of dependent keys. */
  lemma {:induction false} DependentsAfterNonEmpty(deps: map<string, set<string>>, views: seq<OpView>)
    requires forall k :: k in deps ==> deps[k] != {}
    ensures forall k :: k in DependentsAfter(deps, views) ==> DependentsAfter(deps, views)[k] != {}
  {
    if views != [] {
      DependentsAfterNonEmpty(deps, views[..|views| - 1]);
    }
  }

  /**
   * The recorded dependents are what a later cached read of the same key returns along
   * with its own key: `performRequest` fills exactly those keys from the cache.
   */
  lemma PrefillReturnsDependents(v: OpView, read: OpView, data: map<string, Value>, deps: map<string, seq<string>>)
    requires RecordsDependents(v) && Dependents(v) != {} && read.key == v.key
    requires read.key in deps && SetOf(deps[read.key]) == Dependents(v)
    requires CacheHit(read, data)
    ensures Prefilled(read, data, deps).results.Keys == {PrefillKey(read)} + Dependents(v)
  {
  }

  /** The dependent keys held as lists, read as sets. */
  function DepSets(deps: map<string, seq<string>>): (r: map<string, set<string>>)
    ensures r.Keys == deps.Keys && forall k :: k in deps ==> r[k] == SetOf(deps[k])
  {
    map k | k in deps :: SetOf(deps[k])
  }

  /** Finalising one more operation extends the merged results and the recorded dependent keys by it. */
  lemma FinaliseSnoc(views: seq<OpView>, n: nat, deps: map<string, set<string>>)
    requires n < |views|
    ensures ResultsUnion(views[..n + 1]) == ResultsUnion(views[..n]) + views[n].results
    ensures DependentsAfter(deps, views[..n + 1]) == RecordDependents(DependentsAfter(deps, views[..n]), views[n])
  {
    assert views[..n + 1][..n] == views[..n];
  }

  /** Recording a list under a key records its set. */
  lemma DepSetsSet(deps: map<string, seq<string>>, k: string, ks: seq<string>)
    ensures DepSets(deps[k := ks]) == DepSets(deps)[k := SetOf(ks)]
  {
  }

  /** Dropping a key drops its set. */
  lemma DepSetsRemove(deps: map<string, seq<string>>, k: string)
    ensures DepSets(deps - {k}) == DepSets(deps) - {k}
  {
  }

  /** The keys of `results` other than `exKey`, listed once each in the engine's (unspecified) order. */
  method DependentKeyList(results: map<string, Value>, exKey: string) returns (keys: seq<string>)
    ensures NoDups(keys) && SetOf(keys) == results.Keys - {exKey}
  {
    keys := [];
    var rest := results.Keys - {exKey};
    while rest != {}
      invariant NoDups(keys)
      invariant SetOf(keys) + rest == results.Keys - {exKey}
      invariant SetOf(keys) !! rest
      decreases |rest|
    {
      var p :| p in rest;
      NoDupsSnoc(keys, p);
      SetOfSnoc(keys, p);
      assert SetOf(keys + [p]) + (rest - {p}) == SetOf(keys) + rest;
      keys := keys + [p];
      rest := rest - {p};
    }
  }

  /** Appending a string not yet listed keeps a list free of duplicates. */
  lemma NoDupsSnoc(s: seq<string>, x: string)
    requires NoDups(s) && x !in s
    ensures NoDups(s + [x])
  {
  }

  /** The message of the exception the version-1 request methods throw under a later API version. */
  const DeprecatedMessage := "*Request methods are deprecated, and only supported when apiVersion is 1"

  const ProviderReceiver := ReceiverObject("remoteProvider")
  const CoreReceiver := ReceiverObject("kojac")

  /** A sequence without repeated elements. */
  predicate NoDups(s: seq<string>) {
    forall i, j :: 0 <= i < j < |s| ==> s[i] != s[j]
  }

  class Core {
    const cache: Cache
    const objectFactory: Factory?
    /** For each key read from the server, the other keys its results held. */
    var dependentKeys: map<string, seq<string>>
    var apiVersion: int

    /** Every recorded list of dependent keys is non-empty and has no repeats. */
    predicate Valid()
      reads this
    {
      forall k :: k in dependentKeys ==> dependentKeys[k] != [] && NoDups(dependentKeys[k])
    }

    constructor (cache: Cache, objectFactory: Factory?, apiVersion: int)
      ensures this.cache == cache && this.objectFactory == objectFactory && this.apiVersion == apiVersion
      ensures dependentKeys == map[] && Valid()
    {
      this.cache := cache;
      this.objectFactory := objectFactory;
      this.apiVersion := apiVersion;
      dependentKeys := map[];
    }

    /** `newRequest(options)`: a fresh request that chains as the options or the API version say. */
    method NewRequest(opts: Options) returns (req: Request)
      ensures fresh(req) && fresh(req.handlers)
      ensures req.chaining == Chaining(opts, apiVersion)
      ensures req.ops == [] && req.op == null && req.error == Null && req.results.None? && req.result == Undefined
      ensures req.handlers.handlers == [] && req.handlers.context == null && req.handlers.scheduled == []
      ensures req.Valid() && req.handlers.Valid()
    {
      req := new Request(Chaining(opts, apiVersion));
    }

    /** The pre-filling `performRequest` applies to one operation. */
    method PrefillOp(op: Operation)
      modifies op
      ensures op.View() == Prefilled(old(op.View()), cache.data, dependentKeys)
    {
      ghost var v := op.View();
      var k := if Present(op.resultKey) && op.resultKey.value != op.key then op.resultKey.value else op.key;
      assert k == PrefillKey(v);
      var cacheValue := cache.Retrieve(k);
      if op.verb == Some(READ) && Truthy(Lookup(op.options, "preferCache")) && cacheValue != Undefined {
        assert CacheHit(v, cache.data);
        var depKeys := if op.key in dependentKeys then dependentKeys[op.key] else [];
        var results := LookupAll(k, depKeys);
        op.results, op.resultKey, op.fromCache, op.performed := results, Some(k), Some(true), true;
        assert op.View() == v.(results := results, resultKey := Some(k), fromCache := Some(true), performed := true);
      } else {
        assert !CacheHit(v, cache.data);
        op.results := map[];
        assert op.View() == v.(results := map[]);
      }
    }

    /** The cached values of `k` and of each dependent key, looked up one after another. */
    method LookupAll(k: string, depKeys: seq<string>) returns (results: map<string, Value>)
      ensures results == CacheLookups(cache.data, {k} + SetOf(depKeys))
    {
      results := map[k := cache.Retrieve(k)];
      assert SetOf(depKeys[..0]) == {};
      for j := 0 to |depKeys|
        invariant results == CacheLookups(cache.data, {k} + SetOf(depKeys[..j]))
      {
        assert depKeys[..j + 1] == depKeys[..j] + [depKeys[j]];
        SetOfSnoc(depKeys[..j], depKeys[j]);
        CacheLookupsStep(cache.data, {k} + SetOf(depKeys[..j]), depKeys[j]);
        results := results[depKeys[j] := cache.Retrieve(depKeys[j])];
      }
      assert depKeys[..|depKeys|] == depKeys;
    }

    /** The loop of `performRequest` over the operations, each visited once. */
    method PrefillAll(ops: seq<Operation>)
      requires forall i, j :: 0 <= i < j < |ops| ==> ops[i] != ops[j]
      modifies set o | o in ops
      ensures forall j :: 0 <= j < |ops| ==> ops[j].View() == Prefilled(old(ops[j].View()), cache.data, dependentKeys)
    {
      for i := 0 to |ops|
        invariant forall j :: 0 <= j < i ==> ops[j].View() == Prefilled(old(ops[j].View()), cache.data, dependentKeys)
        invariant forall j :: i <= j < |ops| ==> ops[j].View() == old(ops[j].View())
      {
        assert forall j :: 0 <= j < |ops| && j != i ==> ops[j] != ops[i];
        PrefillOp(ops[i]);
      }
    }

    /**
     * `performRequest(request)`: pre-fills every operation from the cache, queues the
     * provider's request step and the core's result step, and runs the handler stack.
     */
    method PerformRequest(req: Request) returns (r: Request)
      requires req.Valid() && req.handlers.Valid()
      modifies (set o | o in req.ops), req.handlers
      ensures r == req
      ensures forall j :: 0 <= j < |req.ops| ==> req.ops[j].View() == Prefilled(old(req.ops[j].View()), cache.data, dependentKeys)
      ensures req.handlers.handlers == old(req.handlers.handlers) + [HandleRequestStep, HandleResultsStep]
      ensures req.handlers.parameters == old(req.handlers.parameters) + [Null, Null]
      ensures req.handlers.thises == old(req.handlers.thises) + [ProviderReceiver, CoreReceiver]
      ensures req.handlers.context == req && req.handlers.Valid()
      ensures Truthy(req.error) ==> req.handlers.deferred == Rejected && req.handlers.scheduled == old(req.handlers.scheduled)
      ensures !Truthy(req.error) ==>
                req.handlers.deferred == Pending && req.handlers.nextHandlerIndex == 1
                && req.handlers.scheduled == old(req.handlers.scheduled) + [req.handlers.CallAt(0)]
    {
      PrefillAll(req.ops);
      req.handlers.Add(HandleRequestStep, Null, ProviderReceiver);
      req.handlers.Add(HandleResultsStep, Null, CoreReceiver);
      r := req.handlers.Run(req);
    }

    /**
     * The request as a builder leaves it: one operation per view, pre-filled and queued
     * when `submitted`, untouched and with no handlers otherwise.
     */
    ghost predicate Built(req: Request, views: seq<OpView>, submitted: bool)
      reads this, cache, req, req.handlers, set o | o in req.ops
    {
      |req.ops| == |views|
      && (forall j :: 0 <= j < |views| ==>
            req.ops[j].View() == if submitted then Prefilled(views[j], cache.data, dependentKeys) else views[j])
      && req.handlers.handlers == (if submitted then [HandleRequestStep, HandleResultsStep] else [])
    }

    /** What every builder does last: a chaining request is handed back, any other is submitted. */
    method Proceed(req: Request, ghost views: seq<OpView>) returns (r: Request)
      requires req.Valid() && req.handlers.Valid() && req.handlers.handlers == []
      requires Appended([], req.ops, views)
      modifies (set o | o in req.ops), req.handlers
      ensures r == req && Built(req, views, !req.chaining) && req.Valid() && req.handlers.Valid()
    {
      AppendedViews(req, views);
      r := req;
      if !req.chaining {
        r := PerformRequest(req);
      }
    }

    /** A builder that threw propagates its exception; one that returned normally proceeds. */
    method Conclude(req: Request, made: Completion<()>, ghost views: seq<OpView>) returns (c: Completion<Request>)
      requires req.Valid() && req.handlers.Valid() && req.handlers.handlers == []
      requires made.Normal? ==> Appended([], req.ops, views)
      modifies (set o | o in req.ops), req.handlers
      ensures made.Threw? ==> c == Threw(made.error)
      ensures made.Normal? ==> c == Normal(req) && Built(req, views, !req.chaining) && req.Valid() && req.handlers.Valid()
    {
      if made.Threw? {
        return Threw(made.error);
      }
      var r := Proceed(req, views);
      c := Normal(r);
    }

    /** `Conclude` for a builder whose operations carry copies of caller values. */
    method ConcludeFrom(req: Request, made: Completion<()>, ghost src: Source) returns (c: Completion<Request>)
      requires req.Valid() && req.handlers.Valid() && req.handlers.handlers == []
      requires made.Normal? ==> Appended([], req.ops, SourceViews(src))
      modifies (set o | o in req.ops), req.handlers
      ensures made.Threw? ==> c == Threw(made.error)
      ensures made.Normal? ==> c == Normal(req) && Built(req, SourceViews(src), !req.chaining)
      ensures made.Normal? ==> req.Valid() && req.handlers.Valid()
      ensures req.ops == old(req.ops) && req.chaining == old(req.chaining)
    {
      ghost var views := SourceViews(src);
      SourceInstancesAllocated(src);
      label Before:
      c := Conclude(req, made, views);
      forall o | o in SourceInstances(src) ensures unchanged@Before(o) { }
    }

    /** The operations the builder appended to an empty request, entry by entry. */
    lemma AppendedViews(req: Request, views: seq<OpView>)
      requires Appended([], req.ops, views)
      ensures |req.ops| == |views| && forall j :: 0 <= j < |views| ==> req.ops[j].View() == views[j]
    {
      assert req.ops[0..] == req.ops;
    }

    /** A request made during the call: it and all its parts are new, and it is well formed. */
    twostate predicate NewlyMade(new req: Request)
      reads req, req.handlers
    {
      fresh(req.handlers) && (forall o :: o in req.ops ==> fresh(o)) && req.Valid() && req.handlers.Valid()
    }

    /**
     * `request()`: a built request that was not yet submitted is pre-filled and run. The
     * `done` and `fail` callbacks it may attach are not part of this model.
     */
    method Submit(req: Request, ghost views: seq<OpView>) returns (r: Request)
      requires req.Valid() && req.handlers.Valid() && Built(req, views, false)
      modifies (set o | o in req.ops), req.handlers
      ensures r == req && Built(req, views, true)
    {
      r := PerformRequest(req);
    }

    /** `Submit` for a builder whose operations carry copies of caller values. */
    method SubmitFrom(req: Request, ghost src: Source) returns (r: Request)
      requires req.Valid() && req.handlers.Valid() && Built(req, SourceViews(src), false)
      modifies (set o | o in req.ops), req.handlers
      ensures r == req && Built(req, SourceViews(src), true)
    {
      ghost var views := SourceViews(src);
      SourceInstancesAllocated(src);
      label Before:
      r := Submit(req, views);
      forall o | o in SourceInstances(src) ensures unchanged@Before(o) { }
    }

    /** `chain()`: a new request that chains, whatever the API version. */
    method Chain() returns (req: Request)
      ensures fresh(req) && req.chaining && req.ops == [] && req.handlers.handlers == []
      ensures req.Valid() && req.handlers.Valid()
    {
      req := NewRequest(Some(map["chaining" := Bool(true)]));
    }

    /** `create(keyValues, options)` on a new request. */
    method Create(kv: Value, opts: Options)
      returns (c: Completion<Request>, ghost kvs: Option<seq<Value>>, ghost ps: seq<(string, Value)>, ghost pss: seq<seq<(string, Value)>>)
      ensures KeyValueArrayOf(kv, old(FieldsOf(kv)), old(ItemFields(kv)), kvs, ps, pss)
      ensures kvs.None? ==> c.Threw?
      ensures kvs.Some? ==> (c.Normal? <==> StringKeyedPairs(PairList(kvs.value)) == |PairList(kvs.value)|)
      ensures c.Normal? ==> kvs.Some? && fresh(c.value) && c.value.chaining == Chaining(None, old(apiVersion))
      ensures c.Normal? ==> Built(c.value, CreatedList(opts, PairList(kvs.value)), !c.value.chaining)
      ensures c.Normal? ==> NewlyMade(c.value)
    {
      var req := NewRequest(None);
      assert FieldsOf(kv) == old(FieldsOf(kv)) && ItemFields(kv) == old(ItemFields(kv));
      var made;
      made, kvs, ps, pss := req.Create(kv, opts);
      c := ConcludeFrom(req, made, PairSource(false, opts, if kvs.Some? then PairList(kvs.value) else []));
    }

    /** `read(keys, options)` on a new request. */
    method Read(keys: Value, opts: Options) returns (req: Request)
      ensures fresh(req) && req.chaining == Chaining(None, apiVersion)
      ensures Built(req, ListedViews(READ, CreateReadOptions(opts), opts, InterpretKeys(keys)), !req.chaining)
      ensures NewlyMade(req)
    {
      req := NewRequest(None);
      req.Read(keys, opts);
      req := Proceed(req, ListedViews(READ, CreateReadOptions(opts), opts, InterpretKeys(keys)));
    }

    /** `cacheRead(keys, options)`: a read with `preferCache` set. */
    method CacheRead(keys: Value, opts: Options) returns (req: Request)
      ensures fresh(req) && req.chaining == Chaining(None, apiVersion)
      ensures Built(req, ListedViews(READ, CreateReadOptions(WithPreferCache(opts)), WithPreferCache(opts), InterpretKeys(keys)), !req.chaining)
      ensures NewlyMade(req)
    {
      req := Read(keys, WithPreferCache(opts));
    }

    /** `update(keyValues, options)` on a new request. */
    method Update(kv: Value, opts: Options)
      returns (c: Completion<Request>, ghost kvs: Option<seq<Value>>, ghost ps: seq<(string, Value)>, ghost pss: seq<seq<(string, Value)>>)
      ensures KeyValueArrayOf(kv, old(FieldsOf(kv)), old(ItemFields(kv)), kvs, ps, pss)
      ensures kvs.None? <==> c.Threw?
      ensures c.Normal? ==> kvs.Some? && fresh(c.value) && c.value.chaining == Chaining(None, apiVersion)
      ensures c.Normal? ==> Built(c.value, UpdatedViews(opts, PairList(kvs.value)), !c.value.chaining)
      ensures c.Normal? ==> NewlyMade(c.value)
    {
      var req := NewRequest(None);
      assert FieldsOf(kv) == old(FieldsOf(kv)) && ItemFields(kv) == old(ItemFields(kv));
      var made;
      made, kvs, ps, pss := req.Update(kv, opts);
      c := ConcludeFrom(req, made, PairSource(true, opts, if kvs.Some? then PairList(kvs.value) else []));
    }

    /** `destroy(keys, options)` on a new request. */
    method Destroy(keys: Value, opts: Options) returns (req: Request)
      ensures fresh(req) && req.chaining == Chaining(None, apiVersion)
      ensures Built(req, ListedViews(DESTROY, DestroyOptions(opts), opts, InterpretKeys(keys)), !req.chaining)
      ensures NewlyMade(req)
    {
      req := NewRequest(None);
      req.Destroy(keys, opts);
      req := Proceed(req, ListedViews(DESTROY, DestroyOptions(opts), opts, InterpretKeys(keys)));
    }

    /** `execute(key, value, options)` on a new request. */
    method Execute(key: Value, value: Value, opts: Options) returns (req: Request)
      ensures fresh(req) && req.chaining == Chaining(None, apiVersion)
      ensures Built(req, [ExecutedOp(key, value, opts)], !req.chaining)
      ensures NewlyMade(req)
    {
      req := NewRequest(None);
      req.Execute(key, value, opts);
      var c := ConcludeFrom(req, Normal(()), ExecuteSource(key, value, opts));
      req := c.value;
    }

    /** `createRequest(keyValues, options)`: only under API version 1, a `create` submitted at once. */
    method CreateRequest(kv: Value, opts: Options) returns (c: Completion<Request>, ghost kvs: Option<seq<Value>>)
      ensures apiVersion > 1 ==> c == Threw(Str(DeprecatedMessage))
      ensures apiVersion <= 1 ==> (kvs.None? <==> !kv.Arr? && !IsObjectStrict(kv))
      ensures apiVersion <= 1 && kvs.None? ==> c.Threw?
      ensures apiVersion <= 1 && kvs.Some? ==> (c.Normal? <==> StringKeyedPairs(PairList(kvs.value)) == |PairList(kvs.value)|)
      ensures c.Normal? ==> kvs.Some? && fresh(c.value) && Built(c.value, CreatedList(opts, PairList(kvs.value)), true)
    {
      if apiVersion > 1 {
        return Threw(Str(DeprecatedMessage)), None;
      }
      ghost var ps, pss;
      c, kvs, ps, pss := Create(kv, opts);
      if c.Normal? {
        var r := SubmitFrom(c.value, PairSource(false, opts, PairList(kvs.value)));
        c := Normal(r);
      }
    }

    /** `readRequest(keys, options)`: only under API version 1, a `read` submitted at once. */
    method ReadRequest(keys: Value, opts: Options) returns (c: Completion<Request>)
      ensures apiVersion > 1 ==> c == Threw(Str(DeprecatedMessage))
      ensures apiVersion <= 1 ==>
                c.Normal? && fresh(c.value)
                && Built(c.value, ListedViews(READ, CreateReadOptions(opts), opts, InterpretKeys(keys)), true)
    {
      if apiVersion > 1 {
        return Threw(Str(DeprecatedMessage));
      }
      var req := Read(keys, opts);
      req := Submit(req, ListedViews(READ, CreateReadOptions(opts), opts, InterpretKeys(keys)));
      c := Normal(req);
    }

    /** `cacheReadRequest(keys, options)`: only under API version 1, a `read` with `preferCache` submitted at once. */
    method CacheReadRequest(keys: Value, opts: Options) returns (c: Completion<Request>)
      ensures apiVersion > 1 ==> c == Threw(Str(DeprecatedMessage))
      ensures apiVersion <= 1 ==>
                c.Normal? && fresh(c.value)
                && Built(c.value, ListedViews(READ, CreateReadOptions(WithPreferCache(opts)), WithPreferCache(opts), InterpretKeys(keys)), true)
    {
      if apiVersion > 1 {
        return Threw(Str(DeprecatedMessage));
      }
      var req := Read(keys, WithPreferCache(opts));
      req := Submit(req, ListedViews(READ, CreateReadOptions(WithPreferCache(opts)), WithPreferCache(opts), InterpretKeys(keys)));
      c := Normal(req);
    }

    /** `updateRequest(keyValues, options)`: only under API version 1, an `update` submitted at once. */
    method UpdateRequest(kv: Value, opts: Options) returns (c: Completion<Request>, ghost kvs: Option<seq<Value>>)
      ensures apiVersion > 1 ==> c == Threw(Str(DeprecatedMessage))
      ensures apiVersion <= 1 ==> (kvs.None? <==> c.Threw?) && (kvs.None? <==> !kv.Arr? && !IsObjectStrict(kv))
      ensures c.Normal? ==> kvs.Some? && fresh(c.value) && Built(c.value, UpdatedViews(opts, PairList(kvs.value)), true)
    {
      if apiVersion > 1 {
        return Threw(Str(DeprecatedMessage)), None;
      }
      ghost var ps, pss;
      c, kvs, ps, pss := Update(kv, opts);
      if c.Normal? {
        var r := SubmitFrom(c.value, PairSource(true, opts, PairList(kvs.value)));
        c := Normal(r);
      }
    }

    /** `destroyRequest(keys, options)`: only under API version 1, a `destroy` submitted at once. */
    method DestroyRequest(keys: Value, opts: Options) returns (c: Completion<Request>)
      ensures apiVersion > 1 ==> c == Threw(Str(DeprecatedMessage))
      ensures apiVersion <= 1 ==>
                c.Normal? && fresh(c.value)
                && Built(c.value, ListedViews(DESTROY, DestroyOptions(opts), opts, InterpretKeys(keys)), true)
    {
      if apiVersion > 1 {
        return Threw(Str(DeprecatedMessage));
      }
      var req := Destroy(keys, opts);
      req := Submit(req, ListedViews(DESTROY, DestroyOptions(opts), opts, InterpretKeys(keys)));
      c := Normal(req);
    }

    /** `executeRequest(key, value, options)`: only under API version 1, an `execute` submitted at once. */
    method ExecuteRequest(key: Value, value: Value, opts: Options) returns (c: Completion<Request>)
      ensures apiVersion > 1 ==> c == Threw(Str(DeprecatedMessage))
      ensures apiVersion <= 1 ==> c.Normal? && fresh(c.value) && Built(c.value, [ExecutedOp(key, value, opts)], true)
    {
      if apiVersion > 1 {
        return Threw(Str(DeprecatedMessage));
      }
      var req := Execute(key, value, opts);
      req := SubmitFrom(req, ExecuteSource(key, value, opts));
      c := Normal(req);
    }

    /**
     * What `handleResults` makes of a result object under `key`: when an object is cached
     * under the key and the operation caches, the result is merged into it (an instance
     * in place, whose property changes are begun first when it is observable, and which
     * then stands for the result; a plain record as a new record); otherwise, with
     * manufacturing on and a factory present, an instance is manufactured for it;
     * otherwise it is kept. `begun` is the instance whose changes were begun, if any.
     */
    method Atomise(v: OpView, key: string, value: Value) returns (c: Completion<Value>, begun: seq<Instance>)
      requires Atomises(v.options, value)
      modifies CachedObject(cache.data, key)
      ensures var ex := Lookup(cache.data, key);
              IsObjectStrict(ex) && Caches(v.options) ==>
                c.Normal?
                && (ex.Obj? ==> c.value == ex && ex.obj.fields == old(ex.obj.fields) + old(FieldsOf(value)))
                && (ex.Rec? ==> c.value == Rec(ex.fields + FieldsOf(value)))
      ensures var ex := Lookup(cache.data, key);
              !(IsObjectStrict(ex) && Caches(v.options)) && Manufactures(v.options) && objectFactory != null ==>
                var cls := objectFactory.ResolvedClass(ManufactureKey(v, key));
                (c.Threw? <==> cls.failure.Some? && cls != ObjectClass)
                && (c.Normal? ==> BuiltFrom(cls, value, c.value))
      ensures var ex := Lookup(cache.data, key);
              !(IsObjectStrict(ex) && Caches(v.options)) && !(Manufactures(v.options) && objectFactory != null) ==> c == Normal(value)
      ensures Lookup(cache.data, key).Obj? ==>
                var x := Lookup(cache.data, key).obj;
                x.changeDepth == old(x.changeDepth) + |begun| && (begun != [] ==> begun == [x] && x.cls.observable)
      ensures !Lookup(cache.data, key).Obj? || c.Threw? ==> begun == []
      ensures Lookup(cache.data, key).Obj? && !Caches(v.options) ==>
                Lookup(cache.data, key).obj.fields == old(Lookup(cache.data, key).obj.fields)
      ensures c.Normal? && c.value.Obj? ==> c.value == value || c.value == Lookup(cache.data, key) || fresh(c.value.obj)
    {
      begun := [];
      var existing := cache.Retrieve(key);
      if IsObjectStrict(existing) && Lookup(v.options, "cacheResults") != Bool(false) {
        if existing.Obj? {
          if existing.obj.cls.observable {
            existing.obj.BeginPropertyChanges();
            begun := [existing.obj];
          }
          existing.obj.SetProperties(FieldsOf(value));
        } else {
          existing := Rec(existing.fields + FieldsOf(value));
        }
        c := Normal(existing);
      } else if Lookup(v.options, "manufacture") != Bool(false) && objectFactory != null {
        var mkey := if v.resultKey == Some(key) && '.' !in v.key then v.key else key;
        ghost var cls;
        c, cls := objectFactory.Manufacture(value, mkey);
      } else {
        c := Normal(value);
      }
    }

    /**
     * One result of `handleResults`: an atomised object is replaced by what `Atomise`
     * makes of it, and the result is cached unless `cacheResults` is false. The
     * result is given back to be stored in the operation's results. The outcomes of
     * `Atomise` are stated against the cache as it was before the call: merged into the
     * cached object (a cached instance becoming the result), manufactured, or kept.
     */
    method ProcessKey(v: OpView, key: string, value: Value, ghost frame: set<Instance>)
      returns (c: Completion<Value>, begun: seq<Instance>)
      requires CachedObject(cache.data, key) <= frame
      requires value.Obj? ==> value.obj in frame
      modifies cache, CachedObject(cache.data, key)
      ensures cache.changeDepth == old(cache.changeDepth)
      ensures c.Threw? ==> cache.data == old(cache.data) && begun == []
      ensures c.Normal? ==> cache.data == if Caches(v.options) then Stored(old(cache.data), key, c.value) else old(cache.data)
      ensures !Atomises(v.options, value) ==> c == Normal(value) && begun == []
      ensures var ex := Lookup(old(cache.data), key);
              Atomises(v.options, value) && IsObjectStrict(ex) && Caches(v.options) ==>
                c.Normal?
                && (ex.Obj? ==> c.value == ex && ex.obj.fields == old(ex.obj.fields) + old(FieldsOf(value)))
                && (ex.Rec? ==> c.value == Rec(ex.fields + old(FieldsOf(value))))
      ensures var ex := Lookup(old(cache.data), key);
              (Atomises(v.options, value) && !(IsObjectStrict(ex) && Caches(v.options))
               && Manufactures(v.options) && objectFactory != null) ==>
                var cls := objectFactory.ResolvedClass(ManufactureKey(v, key));
                (c.Threw? <==> cls.failure.Some? && cls != ObjectClass)
                && (c.Normal? ==> BuiltFrom(cls, value, c.value))
      ensures var ex := Lookup(old(cache.data), key);
              (Atomises(v.options, value) && !(IsObjectStrict(ex) && Caches(v.options))
               && !(Manufactures(v.options) && objectFactory != null)) ==> c == Normal(value)
      ensures c.Normal? ==> AtomisedAs(v.options, Lookup(old(cache.data), key), objectFactory != null, value, c.value)
      ensures var ex := Lookup(old(cache.data), key);
              ex.Obj? && !(Atomises(v.options, value) && Caches(v.options)) ==> ex.obj.fields == old(ex.obj.fields)
      ensures forall x :: x in frame ==> x.changeDepth == old(x.changeDepth) + multiset(begun)[x]
      ensures forall x :: x in begun ==> x.cls.observable && x in frame
      ensures c.Normal? && c.value.Obj? ==> c.value.obj in frame || fresh(c.value.obj)
    {
      var result := value;
      begun := [];
      if Lookup(v.options, "atomise") != Bool(false) && IsObjectStrict(value) {
        var made;
        made, begun := Atomise(v, key, value);
        if made.Threw? {
          return Threw(made.error), begun;
        }
        result := made.value;
      }
      if Lookup(v.options, "cacheResults") != Bool(false) {
        var _ := cache.Store(key, result);
      }
      c := Normal(result);
    }

    /**
     * `ProcessKey`, seen only through the value-level outcome `AtomisedAs` and what
     * becomes of the properties of the instance cached under `key`.
     */
    method ProcessKeyAtomised(v: OpView, key: string, value: Value, ghost frame: set<Instance>)
      returns (c: Completion<Value>, begun: seq<Instance>)
      requires CachedObject(cache.data, key) <= frame
      requires value.Obj? ==> value.obj in frame
      modifies cache, CachedObject(cache.data, key)
      ensures cache.changeDepth == old(cache.changeDepth)
      ensures c.Threw? ==> cache.data == old(cache.data) && begun == []
      ensures c.Normal? ==> cache.data == if Caches(v.options) then Stored(old(cache.data), key, c.value) else old(cache.data)
      ensures !Atomises(v.options, value) ==> c == Normal(value) && begun == []
      ensures c.Normal? ==> AtomisedAs(v.options, Lookup(old(cache.data), key), objectFactory != null, value, c.value)
      ensures var ex := Lookup(old(cache.data), key);
              ex.Obj? ==> ex.obj.fields == if Atomises(v.options, value) && Caches(v.options)
                                           then old(ex.obj.fields) + old(FieldsOf(value)) else old(ex.obj.fields)
      ensures Lookup(old(cache.data), key).Obj? && Atomises(v.options, value) && Caches(v.options) ==> c.Normal?
      ensures forall x :: x in frame ==> x.changeDepth == old(x.changeDepth) + multiset(begun)[x]
      ensures forall x :: x in begun ==> x.cls.observable && x in frame
      ensures c.Normal? && c.value.Obj? ==> c.value.obj in frame || fresh(c.value.obj)
    {
      c, begun := ProcessKey(v, key, value, frame);
    }

    /**
     * `ProcessKeyAtomised` on a key of operation `j` still to do, with the merge it
     * makes, if any, recorded in `merged` and the properties of every instance of
     * `frame` stated through it.
     */
    method ProcessKeyMerged(v: OpView, ghost data0: map<string, Value>, ghost frame: set<Instance>, ghost j: nat,
                            key: string, ghost before: map<Instance, map<string, Value>>, ghost merges: seq<Merge>)
      returns (c: Completion<Value>, begun: seq<Instance>, ghost merged: seq<Merge>)
      requires key in v.results
      requires Lookup(cache.data, key) == Lookup(data0, key)
      requires CachedObject(cache.data, key) <= frame
      requires v.results[key].Obj? ==> v.results[key].obj in frame
      requires FieldsFrom(frame, before, merges)
      modifies cache, CachedObject(cache.data, key)
      ensures cache.changeDepth == old(cache.changeDepth)
      ensures c.Threw? ==> cache.data == old(cache.data) && begun == [] && merged == []
      ensures c.Normal? ==> cache.data == if Caches(v.options) then Stored(old(cache.data), key, c.value) else old(cache.data)
      ensures c.Normal? ==> AtomisedAs(v.options, Lookup(data0, key), objectFactory != null, v.results[key], c.value)
      ensures c.Normal? && Merges(v, data0, key) ==> |merged| == 1 && merged[0].key == key && MergeOf(v, data0, j, merged[0])
      ensures c.Normal? && !Merges(v, data0, key) ==> merged == []
      ensures FieldsFrom(frame, before, merges + merged)
      ensures forall x :: x in frame ==> x.changeDepth == old(x.changeDepth) + multiset(begun)[x]
      ensures forall x :: x in begun ==> x.cls.observable && x in frame
      ensures c.Normal? && c.value.Obj? ==> c.value.obj in frame || fresh(c.value.obj)
    {
      ghost var incoming := FieldsOf(v.results[key]);
      c, begun := ProcessKeyAtomised(v, key, v.results[key], frame);
      merged := if c.Normal? && Merges(v, data0, key) then [Merge(j, key, Lookup(data0, key).obj, incoming)] else [];
      ghost var ex := Lookup(data0, key);
      forall x | x in frame
        ensures x.fields == FieldsAfter(old(x.fields), x, merged)
      {
        if merged != [] {
          assert merged[..0] == [];
          if x == ex.obj {
            assert x.fields == old(x.fields) + incoming;
          }
        } else if ex.Obj? && x == ex.obj {
          assert x.fields == old(x.fields);
        }
      }
      forall x | x in frame && x in before
        ensures x.fields == FieldsAfter(before[x], x, merges + merged)
      {
        assert old(x.fields) == FieldsAfter(before[x], x, merges);
        FieldsAfterAppend(before[x], x, merges, merged);
      }
    }

    /**
     * One turn of the loop over an operation's results: a key still to do is chosen,
     * processed, and moved from the remaining keys to the processed ones; `key` is the
     * key chosen and `merged` the merge it made, if any, as operation `j`.
     */
    method ProcessNext(v: OpView, ghost data0: map<string, Value>, ghost frame: set<Instance>, ghost j: nat,
                       results: map<string, Value>, remaining: set<string>,
                       ghost before: map<Instance, map<string, Value>>, ghost merges: seq<Merge>)
      returns (c: Completion<()>, results': map<string, Value>, remaining': set<string>, begun: seq<Instance>,
               ghost key: string, ghost merged: seq<Merge>)
      requires remaining != {}
      requires ResultsSoFar(v, data0, results, remaining, cache.data)
      requires KeysAtomised(v, data0, objectFactory != null, results, remaining)
      requires KeyMergesSoFar(v, data0, j, merges, remaining)
      requires FieldsFrom(frame, before, merges)
      requires forall k :: k in data0 && data0[k].Obj? ==> data0[k].obj in frame
      requires forall k :: k in v.results && v.results[k].Obj? ==> v.results[k].obj in frame
      modifies cache, frame
      ensures ResultsSoFar(v, data0, results', remaining', cache.data)
      ensures KeysAtomised(v, data0, objectFactory != null, results', remaining')
      ensures KeyMergesSoFar(v, data0, j, merges + merged, remaining')
      ensures c.Normal? ==> key in remaining && remaining' == remaining - {key} && key in v.results
                            && results' == results[key := results'[key]]
                            && AtomisedAs(v.options, Lookup(data0, key), objectFactory != null, v.results[key], results'[key])
      ensures c.Threw? ==> results' == results && remaining' == remaining && merged == []
      ensures c.Normal? && Merges(v, data0, key) ==> |merged| == 1 && merged[0].key == key && MergeOf(v, data0, j, merged[0])
      ensures c.Normal? && !Merges(v, data0, key) ==> merged == []
      ensures FieldsFrom(frame, before, merges + merged)
      ensures cache.changeDepth == old(cache.changeDepth)
      ensures forall x :: x in frame ==> x.changeDepth == old(x.changeDepth) + multiset(begun)[x]
      ensures forall x :: x in begun ==> x.cls.observable && x in frame
      ensures forall k :: k in results' && results'[k].Obj? ==>
                (k in results && results'[k] == results[k]) || results'[k].obj in frame || fresh(results'[k].obj)
    {
      var k :| k in remaining;
      key := k;
      assert Lookup(cache.data, k) == Lookup(data0, k);
      var r;
      r, begun, merged := ProcessKeyMerged(v, data0, frame, j, k, before, merges);
      if r.Threw? {
        assert merges + merged == merges;
        return Threw(r.error), results, remaining, begun, key, merged;
      }
      if Caches(v.options) {
        StoredNextStep(data0, results, remaining, k, r.value);
      }
      KeysAtomisedStep(v, data0, objectFactory != null, results, remaining, k, r.value);
      KeyMergesStep(v, data0, j, merges, remaining, k, merged);
      results' := results[k := r.value];
      remaining' := remaining - {k};
      c := Normal(());
    }

    /**
     * The results of one operation, key by key in an unspecified order, each replaced
     * by what `ProcessKey` gives for it; a throw ends the loop. When all are processed,
     * a caching operation's results have all been stored.
     */
    method ProcessResults(v: OpView, ghost frame: set<Instance>, ghost j: nat)
      returns (c: Completion<()>, results: map<string, Value>, begun: seq<Instance>, ghost merges: seq<Merge>)
      requires forall k :: k in cache.data && cache.data[k].Obj? ==> cache.data[k].obj in frame
      requires forall k :: k in v.results && v.results[k].Obj? ==> v.results[k].obj in frame
      modifies cache, frame
      ensures AtomisedOnly(v.options, v.results, results)
      ensures c.Normal? ==> AtomisedFrom(v.options, old(cache.data), objectFactory != null, v.results, results)
      ensures c.Normal? ==> cache.data == if Caches(v.options) then StoredAll(old(cache.data), results) else old(cache.data)
      ensures KeyMergesSound(v, old(cache.data), j, merges)
      ensures c.Normal? ==> KeyMergesComplete(v, old(cache.data), merges, {})
      ensures forall x :: x in frame ==> x.fields == FieldsAfter(old(x.fields), x, merges)
      ensures cache.changeDepth == old(cache.changeDepth)
      ensures forall x :: x in frame ==> x.changeDepth == old(x.changeDepth) + multiset(begun)[x]
      ensures forall x :: x in begun ==> x.cls.observable && x in frame
      ensures forall k :: k in results && results[k].Obj? ==> results[k].obj in frame || fresh(results[k].obj)
    {
      ghost var data0 := cache.data;
      var remaining;
      ghost var before := map x | x in frame :: x.fields;
      c, results, remaining, begun, merges := ProcessEach(v, frame, j, before);
      if c.Normal? {
        ResultsDone(v, data0, results, cache.data);
        KeysAtomisedDone(v, data0, objectFactory != null, results);
      }
    }

    /**
     * The loop of `ProcessResults`: the keys are taken one at a time until none remains
     * or one throws; `remaining` holds the keys not processed and `merges` the merges
     * made, as operation `j`, which give every instance of `frame` its properties from
     * those it had in `before`.
     */
    method ProcessEach(v: OpView, ghost frame: set<Instance>, ghost j: nat, ghost before: map<Instance, map<string, Value>>)
      returns (c: Completion<()>, results: map<string, Value>, remaining: set<string>, begun: seq<Instance>,
               ghost merges: seq<Merge>)
      requires forall k :: k in cache.data && cache.data[k].Obj? ==> cache.data[k].obj in frame
      requires forall k :: k in v.results && v.results[k].Obj? ==> v.results[k].obj in frame
      requires FieldsFrom(frame, before, [])
      modifies cache, frame
      ensures c.Normal? ==> remaining == {}
      ensures ResultsSoFar(v, old(cache.data), results, remaining, cache.data)
      ensures KeysAtomised(v, old(cache.data), objectFactory != null, results, remaining)
      ensures KeyMergesSoFar(v, old(cache.data), j, merges, remaining)
      ensures FieldsFrom(frame, before, merges)
      ensures cache.changeDepth == old(cache.changeDepth)
      ensures forall x :: x in frame ==> x.changeDepth == old(x.changeDepth) + multiset(begun)[x]
      ensures forall x :: x in begun ==> x.cls.observable && x in frame
      ensures forall k :: k in results && results[k].Obj? ==> results[k].obj in frame || fresh(results[k].obj)
    {
      ghost var data0 := cache.data;
      results := v.results;
      remaining := results.Keys;
      begun, merges := [], [];
      assert results - remaining == map[];
      c := Normal(());
      while remaining != {} && c.Normal?
        invariant ResultsSoFar(v, data0, results, remaining, cache.data)
        invariant KeysAtomised(v, data0, objectFactory != null, results, remaining)
        invariant KeyMergesSoFar(v, data0, j, merges, remaining)
        invariant FieldsFrom(frame, before, merges)
        invariant cache.changeDepth == old(cache.changeDepth)
        invariant forall x :: x in frame ==> x.changeDepth == old(x.changeDepth) + multiset(begun)[x]
        invariant forall x :: x in begun ==> x.cls.observable && x in frame
        invariant forall k :: k in results && results[k].Obj? ==> results[k].obj in frame || fresh(results[k].obj)
        decreases |remaining|, if c.Normal? then 1 else 0
      {
        var b, results', remaining';
        ghost var key, merged;
        label Turn:
        c, results', remaining', b, key, merged := ProcessNext(v, data0, frame, j, results, remaining, before, merges);
        forall x | x in frame
          ensures x.changeDepth == old(x.changeDepth) + multiset(begun + b)[x]
        {
          assert old@Turn(x.changeDepth) == old(x.changeDepth) + multiset(begun)[x];
        }
        forall k | k in results' && results'[k].Obj?
          ensures results'[k].obj in frame || fresh(results'[k].obj)
        {
          if k in results && results'[k] == results[k] {
            assert results[k].obj in frame || fresh(results[k].obj);
          }
        }
        results, remaining := results', remaining';
        begun, merges := begun + b, merges + merged;
      }
    }

    /**
     * The `try` of `handleResults`: the cache's round of property changes is begun, then
     * each operation's results are processed in turn, up to the first operation carrying
     * an error or the first throw. `done` holds the processed results of each operation
     * reached (for the one that threw, as far as it got); `updated` lists the cached
     * instances whose property changes were begun, and `merges` the merges made.
     */
    method ProcessViews(views: seq<OpView>, ghost mods: set<Instance>)
      returns (c: Completion<()>, done: seq<map<string, Value>>, updated: seq<Instance>, ghost made: set<Instance>,
               ghost merges: seq<Merge>)
      requires forall k :: k in cache.data && cache.data[k].Obj? ==> cache.data[k].obj in mods
      requires forall j, k :: 0 <= j < |views| && k in views[j].results && views[j].results[k].Obj? ==>
                 views[j].results[k].obj in mods
      modifies cache, mods
      ensures c.Normal? ==> |done| == FirstFailed(views)
      ensures c.Threw? ==> 0 < |done| <= FirstFailed(views)
      ensures DoneSoFar(views, done)
      ensures c.Normal? ==> cache.data == CacheAfter(old(cache.data), WithResults(views, done))
      ensures c.Normal? ==> DoneAtomised(views, old(cache.data), objectFactory != null, done)
      ensures ViewMergesSound(views, old(cache.data), done, merges)
      ensures c.Normal? ==> ViewMergesComplete(views, old(cache.data), done, merges)
      ensures forall x :: x in mods ==> x.fields == FieldsAfter(old(x.fields), x, merges)
      ensures cache.changeDepth == old(cache.changeDepth) + (if cache.observable then 1 else 0)
      ensures forall x :: x in mods ==> x.changeDepth == old(x.changeDepth) + multiset(updated)[x]
      ensures fresh(made)
      ensures forall x :: x in updated ==> x.cls.observable && x in mods + made
    {
      if cache.observable {
        cache.BeginPropertyChanges();
      }
      ghost var before := map x | x in mods :: x.fields;
      c, done, updated, made, merges := ProcessEachView(views, mods, before);
    }

    /** The loop of `ProcessViews`, inside the cache's round of property changes. */
    method ProcessEachView(views: seq<OpView>, ghost mods: set<Instance>, ghost before: map<Instance, map<string, Value>>)
      returns (c: Completion<()>, done: seq<map<string, Value>>, updated: seq<Instance>, ghost made: set<Instance>,
               ghost merges: seq<Merge>)
      requires forall k :: k in cache.data && cache.data[k].Obj? ==> cache.data[k].obj in mods
      requires forall j, k :: 0 <= j < |views| && k in views[j].results && views[j].results[k].Obj? ==>
                 views[j].results[k].obj in mods
      requires FieldsFrom(mods, before, [])
      modifies cache, mods
      ensures c.Normal? ==> |done| == FirstFailed(views)
      ensures c.Threw? ==> 0 < |done| <= FirstFailed(views)
      ensures DoneSoFar(views, done)
      ensures c.Normal? ==> cache.data == CacheAfter(old(cache.data), WithResults(views, done))
      ensures c.Normal? ==> DoneAtomised(views, old(cache.data), objectFactory != null, done)
      ensures ViewMergesSound(views, old(cache.data), done, merges)
      ensures c.Normal? ==> ViewMergesComplete(views, old(cache.data), done, merges)
      ensures FieldsFrom(mods, before, merges)
      ensures cache.changeDepth == old(cache.changeDepth)
      ensures forall x :: x in mods ==> x.changeDepth == old(x.changeDepth) + multiset(updated)[x]
      ensures fresh(made)
      ensures forall x :: x in updated ==> x.cls.observable && x in mods + made
    {
      ghost var data0 := cache.data;
      done, updated, made, merges := [], [], {}, [];
      ghost var processed: seq<OpView> := [];
      c := Normal(());
      var i := 0;
      while i < |views| && c.Normal? && !Truthy(views[i].error)
        invariant i == |done| <= |views| && DoneSoFar(views, done)
        invariant c.Normal? ==> ViewsSoFar(views, data0, done, processed, cache.data)
        invariant c.Normal? ==> DoneAtomised(views, data0, objectFactory != null, done)
        invariant ViewMergesSound(views, data0, done, merges)
        invariant c.Normal? ==> ViewMergesComplete(views, data0, done, merges)
        invariant FieldsFrom(mods, before, merges)
        invariant c.Threw? ==> 0 < |done|
        invariant cache.changeDepth == old(cache.changeDepth)
        invariant forall x :: x in mods ==> x.changeDepth == old(x.changeDepth) + multiset(updated)[x]
        invariant fresh(made)
        invariant forall x :: x in updated ==> x.cls.observable && x in mods + made
        invariant c.Normal? ==> forall k :: k in cache.data && cache.data[k].Obj? ==> cache.data[k].obj in mods + made
        decreases |views| - i
      {
        var results, begun;
        ghost var m, processed', step;
        c, results, begun, m, processed', step := ProcessStep(views, data0, done, processed, mods, made, before, merges);
        merges := merges + step;
        updated := updated + begun;
        made := made + m;
        done := done + [results];
        processed := processed';
        i := i + 1;
      }
      if c.Normal? {
        FirstFailedAt(views, i);
      }
    }

    /**
     * `ProcessResults` on the next operation of `views`, with the merges it makes
     * added to those the earlier operations made and the properties of `mods` stated
     * through all of them; `made` holds the instances manufactured for its results.
     */
    method ProcessResultsMerged(views: seq<OpView>, ghost data0: map<string, Value>, done: seq<map<string, Value>>,
                                ghost mods: set<Instance>, ghost frame: set<Instance>,
                                ghost before: map<Instance, map<string, Value>>, ghost merges: seq<Merge>)
      returns (c: Completion<()>, results: map<string, Value>, begun: seq<Instance>, ghost step: seq<Merge>,
               ghost made: set<Instance>)
      requires |done| < |views| && mods <= frame
      requires cache.data == CacheAfter(data0, WithResults(views, done))
      requires ViewMergesSound(views, data0, done, merges) && ViewMergesComplete(views, data0, done, merges)
      requires FieldsFrom(mods, before, merges)
      requires forall k :: k in cache.data && cache.data[k].Obj? ==> cache.data[k].obj in frame
      requires forall k :: k in views[|done|].results && views[|done|].results[k].Obj? ==> views[|done|].results[k].obj in frame
      modifies cache, frame
      ensures AtomisedOnly(views[|done|].options, views[|done|].results, results)
      ensures c.Normal? ==> AtomisedFrom(views[|done|].options, old(cache.data), objectFactory != null, views[|done|].results, results)
      ensures c.Normal? ==> cache.data == if Caches(views[|done|].options) then StoredAll(old(cache.data), results) else old(cache.data)
      ensures ViewMergesSound(views, data0, done + [results], merges + step)
      ensures c.Normal? ==> ViewMergesComplete(views, data0, done + [results], merges + step)
      ensures FieldsFrom(mods, before, merges + step)
      ensures cache.changeDepth == old(cache.changeDepth)
      ensures forall x :: x in frame ==> x.changeDepth == old(x.changeDepth) + multiset(begun)[x]
      ensures forall x :: x in begun ==> x.cls.observable && x in frame
      ensures forall k :: k in results && results[k].Obj? ==> results[k].obj in frame + made
      ensures fresh(made)
    {
      c, results, begun, step := ProcessResults(views[|done|], frame, |done|);
      ViewMergesStep(views, data0, done, merges, results, step, c.Normal?);
      made := set k | k in results && results[k].Obj? && results[k].obj !in frame :: results[k].obj;
      forall x | x in mods && x in before
        ensures x.fields == FieldsAfter(before[x], x, merges + step)
      {
        assert old(x.fields) == FieldsAfter(before[x], x, merges);
        FieldsAfterAppend(before[x], x, merges, step);
      }
    }

    /**
     * One turn of `ProcessViews`: the results of the next operation, which carries no
     * error, are processed, extending what the cache has gone through by one operation.
     * `mods` and `made` are the instances the loop may change; `merges` are the merges
     * made so far and `step` the ones this operation makes.
     */
    method ProcessStep(views: seq<OpView>, ghost data0: map<string, Value>, done: seq<map<string, Value>>,
                       ghost processed: seq<OpView>, ghost mods: set<Instance>, ghost made: set<Instance>,
                       ghost before: map<Instance, map<string, Value>>, ghost merges: seq<Merge>)
      returns (c: Completion<()>, results: map<string, Value>, begun: seq<Instance>, ghost made': set<Instance>,
               ghost processed': seq<OpView>, ghost step: seq<Merge>)
      requires |done| < |views| && !Truthy(views[|done|].error)
      requires ViewsSoFar(views, data0, done, processed, cache.data)
      requires DoneAtomised(views, data0, objectFactory != null, done)
      requires ViewMergesSound(views, data0, done, merges) && ViewMergesComplete(views, data0, done, merges)
      requires FieldsFrom(mods, before, merges)
      requires forall k :: k in cache.data && cache.data[k].Obj? ==> cache.data[k].obj in mods + made
      requires forall k :: k in views[|done|].results && views[|done|].results[k].Obj? ==> views[|done|].results[k].obj in mods
      modifies cache, mods + made
      ensures cache.changeDepth == old(cache.changeDepth)
      ensures forall x :: x in mods + made ==> x.changeDepth == old(x.changeDepth) + multiset(begun)[x]
      ensures forall x :: x in begun ==> x.cls.observable && x in mods + made
      ensures fresh(made')
      ensures DoneSoFar(views, done + [results]) && |done| < FirstFailed(views)
      ensures c.Normal? ==> ViewsSoFar(views, data0, done + [results], processed', cache.data)
      ensures c.Normal? ==> DoneAtomised(views, data0, objectFactory != null, done + [results])
      ensures ViewMergesSound(views, data0, done + [results], merges + step)
      ensures c.Normal? ==> ViewMergesComplete(views, data0, done + [results], merges + step)
      ensures FieldsFrom(mods, before, merges + step)
      ensures c.Normal? ==> forall k :: k in cache.data && cache.data[k].Obj? ==> cache.data[k].obj in mods + (made + made')
    {
      var v := views[|done|];
      ghost var data := cache.data;
      ghost var frame := mods + made;
      c, results, begun, step, made' := ProcessResultsMerged(views, data0, done, mods, frame, before, merges);
      DoneStep(views, done, results);
      processed' := processed + [v.(results := results)];
      if c.Threw? {
        return;
      }
      ViewsStepCached(views, data0, objectFactory != null, done, processed, data, results, cache.data, frame, made');
    }

    /** Each processed operation is given its processed results, as `op.results[key] = value` does. */
    method WriteResults(ops: seq<Operation>, done: seq<map<string, Value>>, ghost before: seq<OpView>)
      requires |done| <= |ops| == |before|
      requires forall j :: 0 <= j < |ops| ==> before[j] == ops[j].View()
      requires forall j, i :: 0 <= i < j < |ops| ==> ops[i] != ops[j]
      modifies (set o | o in ops)`results
      ensures forall j :: 0 <= j < |ops| ==> ops[j].View() == Merged(before, done)[j]
    {
      for i := 0 to |done|
        invariant forall j :: 0 <= j < i ==> ops[j].View() == before[j].(results := done[j])
        invariant forall j :: i <= j < |ops| ==> ops[j].View() == before[j]
      {
        ops[i].results := done[i];
      }
    }

    /** The `finally` of `handleResults`: property changes are ended on every updated instance. */
    method EndAll(updated: seq<Instance>, ghost objs: set<Instance>)
      requires forall x :: x in updated ==> x.cls.observable && x in objs
      modifies objs
      ensures forall x :: x in objs ==> x.changeDepth == old(x.changeDepth) - multiset(updated)[x]
      ensures forall x :: x in objs ==> x.fields == old(x.fields)
    {
      for j := 0 to |updated|
        invariant forall x :: x in objs ==> x.changeDepth == old(x.changeDepth) - multiset(updated[..j])[x]
        invariant forall x :: x in objs ==> x.fields == old(x.fields)
      {
        assert updated[..j + 1] == updated[..j] + [updated[j]];
        updated[j].EndPropertyChanges();
      }
      assert updated[..|updated|] == updated;
    }

    /**
     * The `try`/`finally` of `handleResults` on the operations as read: `ProcessViews`,
     * then property changes are ended on every instance whose changes were begun, even
     * when manufacturing throws; the cache's own round is ended only when nothing threw.
     */
    method ProcessAndEnd(views: seq<OpView>, ghost mods: set<Instance>)
      returns (c: Completion<()>, done: seq<map<string, Value>>, ghost merges: seq<Merge>)
      requires forall k :: k in cache.data && cache.data[k].Obj? ==> cache.data[k].obj in mods
      requires forall j, k :: 0 <= j < |views| && k in views[j].results && views[j].results[k].Obj? ==>
                 views[j].results[k].obj in mods
      modifies cache, mods
      ensures c.Normal? ==> |done| == FirstFailed(views)
      ensures c.Threw? ==> 0 < |done| <= FirstFailed(views)
      ensures DoneSoFar(views, done)
      ensures c.Normal? ==> cache.data == CacheAfter(old(cache.data), WithResults(views, done))
      ensures c.Normal? ==> DoneAtomised(views, old(cache.data), objectFactory != null, done)
      ensures c.Normal? ==> cache.changeDepth == old(cache.changeDepth)
      ensures c.Threw? ==> cache.changeDepth == old(cache.changeDepth) + (if cache.observable then 1 else 0)
      ensures forall x :: x in mods ==> x.changeDepth == old(x.changeDepth)
      ensures ViewMergesSound(views, old(cache.data), done, merges)
      ensures c.Normal? ==> ViewMergesComplete(views, old(cache.data), done, merges)
      ensures forall x :: x in mods ==> x.fields == FieldsAfter(old(x.fields), x, merges)
    {
      var updated;
      ghost var made;
      c, done, updated, made, merges := ProcessViews(views, mods);
      EndAll(updated, mods + made);
      if c.Normal? && cache.observable {
        cache.EndPropertyChanges();
      }
    }

    /**
     * The body of `handleResults` on the operations as read (`before`), for a set `mods`
     * holding every instance the cache or the operations' results refer to: `done` holds
     * the processed results written back and `merges` the merges made.
     */
    method HandleResultsWithin(req: Request, ghost mods: set<Instance>, before: seq<OpView>)
      returns (c: Completion<()>, ghost views: seq<OpView>, ghost merges: seq<Merge>)
      requires |before| == |req.ops| && forall j :: 0 <= j < |req.ops| ==> before[j] == req.ops[j].View()
      requires forall j, i :: 0 <= i < j < |req.ops| ==> req.ops[i] != req.ops[j]
      requires forall k :: k in cache.data && cache.data[k].Obj? ==> cache.data[k].obj in mods
      requires forall j, k :: 0 <= j < |before| && k in before[j].results && before[j].results[k].Obj? ==>
                 before[j].results[k].obj in mods
      modifies (set o | o in req.ops)`results, cache, mods
      ensures |views| == |req.ops| && forall j :: 0 <= j < |req.ops| ==> req.ops[j].View() == views[j]
      ensures HandledFrom(before, views, old(cache.data), cache.data, objectFactory != null, c.Normal?)
      ensures c.Normal? ==> cache.changeDepth == old(cache.changeDepth)
      ensures c.Threw? ==> cache.changeDepth == old(cache.changeDepth) + (if cache.observable then 1 else 0)
      ensures forall x :: x in mods ==> x.changeDepth == old(x.changeDepth)
      ensures MergedFrom(before, views, old(cache.data), merges, c.Normal?)
      ensures forall x :: x in mods ==> x.fields == FieldsAfter(old(x.fields), x, merges)
    {
      var done;
      c, done, merges := ProcessAndEnd(before, mods);
      WriteResults(req.ops, done, before);
      views := Merged(before, done);
      MergedHandled(before, done, old(cache.data), cache.data, objectFactory != null, c.Normal?);
      MergesHandled(before, done, old(cache.data), merges, c.Normal?);
    }

    /**
     * `handleResults(request)`: the operations are processed in order up to the first one
     * with an error, inside one round of cache property changes (`HandledFrom` says what
     * this does to the operations and the cache). Every instance whose property changes
     * were begun has them ended even when manufacturing throws, but the cache's own round
     * is then left open. `before` and `views` are the operations as found and as left;
     * every instance ends with the properties the recorded `merges` give it
     * (`MergedFrom` says which merges those are).
     */
    method HandleResults(req: Request)
      returns (c: Completion<()>, ghost before: seq<OpView>, ghost views: seq<OpView>, ghost merges: seq<Merge>)
      requires req.Valid()
      modifies (set o | o in req.ops)`results, cache, ObjectsIn(cache.data) + ResultObjects(req.ops)
      ensures |before| == old(|req.ops|) && forall j :: 0 <= j < |before| ==> before[j] == old(req.ops[j].View())
      ensures |views| == |req.ops| && forall j :: 0 <= j < |req.ops| ==> req.ops[j].View() == views[j]
      ensures HandledFrom(before, views, old(cache.data), cache.data, objectFactory != null, c.Normal?)
      ensures c.Normal? ==> cache.changeDepth == old(cache.changeDepth)
      ensures c.Threw? ==> cache.changeDepth == old(cache.changeDepth) + (if cache.observable then 1 else 0)
      ensures forall x :: x in old(ObjectsIn(cache.data) + ResultObjects(req.ops)) ==> x.changeDepth == old(x.changeDepth)
      ensures MergedFrom(before, views, old(cache.data), merges, c.Normal?)
      ensures forall x :: x in old(ObjectsIn(cache.data) + ResultObjects(req.ops)) ==> x.fields == FieldsAfter(old(x.fields), x, merges)
    {
      var read := ViewsOf(req.ops);
      before := read;
      ghost var mods := ObjectsIn(cache.data) + ResultObjects(req.ops);
      ResultObjectsCover(req.ops, read);
      c, views, merges := HandleResultsWithin(req, mods, read);
    }

    /**
     * One turn of the loop of `finaliseResponse`, for an operation without an error: its
     * `result` is read under its result key, and for an operation the server performed
     * that caches, its other result keys are recorded as the dependent keys of its key
     * (the entry is removed when there are none).
     */
    method FinaliseOp(op: Operation)
      requires Valid()
      modifies op`result, this`dependentKeys
      ensures op.View() == old(op.View()).(result := OpResult(old(op.View())))
      ensures DepSets(dependentKeys) == RecordDependents(DepSets(old(dependentKeys)), old(op.View()))
      ensures Valid()
    {
      ghost var v := op.View();
      var exKey := if Present(op.resultKey) then op.resultKey.value else op.key;
      op.result := if exKey != "" then Lookup(op.results, exKey) else Null;
      if op.performed && op.fromCache == Some(false) && Lookup(op.options, "cacheResults") != Bool(false) {
        var depKeys := DependentKeyList(op.results, exKey);
        assert SetOf(depKeys) == Dependents(v);
        if |depKeys| == 0 {
          DepSetsRemove(dependentKeys, op.key);
          if op.key in dependentKeys {
            dependentKeys := dependentKeys - {op.key};
          }
        } else {
          assert depKeys[0] in Dependents(v);
          DepSetsSet(dependentKeys, op.key, depKeys);
          dependentKeys := dependentKeys[op.key := depKeys];
        }
      }
    }

    /**
     * The loop of `finaliseResponse`: the operations up to the first one with an error are
     * finalised in turn; `n` is where the loop stopped and `results` merges the results of
     * the operations it finalised.
     */
    method FinaliseOps(ops: seq<Operation>, ghost before: seq<OpView>) returns (n: nat, results: map<string, Value>)
      requires Valid()
      requires |before| == |ops| && forall j :: 0 <= j < |ops| ==> before[j] == ops[j].View()
      requires forall j, i :: 0 <= i < j < |ops| ==> ops[i] != ops[j]
      modifies (set o | o in ops)`result, this`dependentKeys
      ensures Valid()
      ensures n == FirstFailed(before) && results == ResultsUnion(before[..n])
      ensures forall j :: 0 <= j < |ops| ==>
                ops[j].View() == if j < n then before[j].(result := OpResult(before[j])) else before[j]
      ensures DepSets(dependentKeys) == DependentsAfter(DepSets(old(dependentKeys)), before[..n])
    {
      ghost var deps0 := DepSets(dependentKeys);
      results := map[];
      n := 0;
      while n < |ops| && !Truthy(ops[n].error)
        invariant n <= FirstFailed(before)
        invariant Finalised(ops, before, n, results, deps0)
        decreases |ops| - n
      {
        results := FinaliseNext(ops, before, n, ops[n], results, deps0);
        n := n + 1;
      }
      FirstFailedAt(before, n);
    }

    /** The state after the loop of `finaliseResponse` has finalised the first `n` operations. */
    predicate Finalised(ops: seq<Operation>, before: seq<OpView>, n: nat, results: map<string, Value>, deps0: map<string, set<string>>)
      reads this, set o | o in ops
    {
      n <= |before| == |ops| && Valid()
      && (forall j :: 0 <= j < n ==> ops[j].View() == before[j].(result := OpResult(before[j])))
      && (forall j :: n <= j < |ops| ==> ops[j].View() == before[j])
      && results == ResultsUnion(before[..n])
      && DepSets(dependentKeys) == DependentsAfter(deps0, before[..n])
    }

    /** One turn of the loop of `finaliseResponse`. */
    method FinaliseNext(ops: seq<Operation>, ghost before: seq<OpView>, n: nat, op: Operation,
                        results: map<string, Value>, ghost deps0: map<string, set<string>>) returns (results': map<string, Value>)
      requires Finalised(ops, before, n, results, deps0) && n < |ops|
      requires forall j, i :: 0 <= i < j < |ops| ==> ops[i] != ops[j]
      requires op == ops[n]
      modifies op`result, this`dependentKeys
      ensures Finalised(ops, before, n + 1, results', deps0)
    {
      FinaliseSnoc(before, n, deps0);
      results' := results + op.results;
      FinaliseOp(op);
    }

    /**
     * `finaliseResponse` on the operations as read (`before`). Unless the request already
     * has an error, the operations up to the first one with an error are finalised in turn
     * and that operation's error becomes the request's. An erroneous request loses its
     * `results` and `result`; otherwise `results` merges every operation's results and
     * `result` is the first operation's result (null when there is none).
     */
    method FinaliseWithin(req: Request, ghost before: seq<OpView>)
      requires Valid() && req.Valid()
      requires |before| == |req.ops| && forall j :: 0 <= j < |req.ops| ==> before[j] == req.ops[j].View()
      modifies req`error, req`results, req`result, (set o | o in req.ops)`result, this`dependentKeys
      ensures Valid() && req.Valid()
      ensures req.ops == old(req.ops) && req.op == old(req.op) && req.chaining == old(req.chaining)
      ensures Truthy(old(req.error)) ==>
                req.error == old(req.error) && dependentKeys == old(dependentKeys)
                && forall j :: 0 <= j < |before| ==> req.ops[j].View() == before[j]
      ensures !Truthy(old(req.error)) ==>
                (forall j :: 0 <= j < |before| ==>
                   req.ops[j].View() == if j < FirstFailed(before) then before[j].(result := OpResult(before[j])) else before[j])
                && DepSets(dependentKeys) == DependentsAfter(DepSets(old(dependentKeys)), before[..FirstFailed(before)])
                && req.error == if FirstFailed(before) < |before| then before[FirstFailed(before)].error else old(req.error)
      ensures Truthy(req.error) ==> req.results.None? && req.result == Undefined
      ensures !Truthy(req.error) ==>
                req.results == Some(ResultsUnion(before)) && req.result == if before == [] then Null else OpResult(before[0])
    {
      var results: map<string, Value> := map[];
      if !Truthy(req.error) {
        var n;
        n, results := FinaliseOps(req.ops, before);
        if n < |req.ops| {
          req.error := req.ops[n].error;
        } else {
          assert before[..n] == before;
        }
      }
      if Truthy(req.error) {
        req.results, req.result := None, Undefined;
      } else {
        req.results := Some(results);
        req.result := if req.op != null then req.op.result else Null;
      }
    }

    /** `finaliseResponse(request)`; `before` is the operations as found. */
    method FinaliseResponse(req: Request) returns (ghost before: seq<OpView>)
      requires Valid() && req.Valid()
      modifies req, (set o | o in req.ops)`result, this`dependentKeys
      ensures req.ops == old(req.ops) && req.op == old(req.op) && req.chaining == old(req.chaining)
      ensures |before| == |req.ops| && forall j :: 0 <= j < |req.ops| ==> before[j] == old(req.ops[j].View())
      ensures Valid() && req.Valid()
      ensures Truthy(old(req.error)) ==>
                req.error == old(req.error) && dependentKeys == old(dependentKeys)
                && forall j :: 0 <= j < |before| ==> req.ops[j].View() == before[j]
      ensures !Truthy(old(req.error)) ==>
                (forall j :: 0 <= j < |before| ==>
                   req.ops[j].View() == if j < FirstFailed(before) then before[j].(result := OpResult(before[j])) else before[j])
                && DepSets(dependentKeys) == DependentsAfter(DepSets(old(dependentKeys)), before[..FirstFailed(before)])
                && req.error == if FirstFailed(before) < |before| then before[FirstFailed(before)].error else old(req.error)
      ensures Truthy(req.error) ==> req.results.None? && req.result == Undefined
      ensures !Truthy(req.error) ==>
                req.results == Some(ResultsUnion(before)) && req.result == if before == [] then Null else OpResult(before[0])
    {
      var read := ViewsOf(req.ops);
      before := read;
      FinaliseWithin(req, read);
    }
  }
}
