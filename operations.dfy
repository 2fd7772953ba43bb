/**
 * Operations: the single create/read/update/destroy/execute steps a request carries,
 * how one takes in its slice of a server response, and the fields each request
 * builder gives the operations it adds.
 */
module Operations {
  import opened JsValues
  import opened Utils

  datatype Verb = CREATE | READ | UPDATE | DESTROY | EXECUTE

  function VerbName(v: Verb): string {
    match v
    case CREATE => "CREATE"
    case READ => "READ"
    case UPDATE => "UPDATE"
    case DESTROY => "DESTROY"
    case EXECUTE => "EXECUTE"
  }

  /**
   * A snapshot of an operation's fields. `key` is "" before a builder sets it; `results`
   * holds `{}` where the operation's results are still null; `resultKey` and `fromCache`
   * are `None` where they are null.
   */
  datatype OpView = OpView(
    verb: Option<Verb>, key: string, value: Value, options: map<string, Value>, params: Value,
    results: map<string, Value>, resultKey: Option<string>, result: Value, error: Value,
    performed: bool, fromCache: Option<bool>)

  const BlankOp := OpView(None, "", Undefined, map[], Undefined, map[], None, Undefined, Null, false, None)

  /** The key the response names its primary result under: `result_key || key || this.key`. */
  function ResponseKey(v: OpView, resp: Value): string {
    ToStr(Or(Or(Prop(resp, "result_key"), Prop(resp, "key")), Str(v.key)))
  }

  /** The key the primary result is finally stored under: the operation's own result key wins. */
  function FinalKey(v: OpView, resp: Value): (k: string)
    ensures Present(v.resultKey) ==> k == v.resultKey.value
    ensures !Present(v.resultKey) ==> k == ResponseKey(v, resp)
  {
    if Present(v.resultKey) then v.resultKey.value else ResponseKey(v, resp)
  }

  /** The response's results; anything but an object is wrapped under the response key. */
  function ResponseResults(v: OpView, resp: Value): map<string, Value> {
    match Prop(resp, "results")
    case Rec(m) => m
    case other => map[ResponseKey(v, resp) := other]
  }

  /** The primary result: undefined for a DESTROY response, else the entry under the response key. */
  function PrimaryValue(v: OpView, resp: Value): Value {
    if Prop(resp, "verb") == Str("DESTROY") then Undefined
    else Lookup(ResponseResults(v, resp), ResponseKey(v, resp))
  }

  /**
   * The operation after `receiveResult(resp)`. A missing response records "no result"; a
   * response carrying an error records it; otherwise the response's secondary results are
   * merged into the existing ones, the primary result is stored under the final key and
   * that key becomes the operation's result key. Nothing else changes.
   */
  function Received(v: OpView, resp: Value): (r: OpView)
    ensures !Truthy(resp) ==> r == v.(error := Str("no result"))
    ensures Truthy(resp) && Truthy(Prop(resp, "error")) ==> r == v.(error := Prop(resp, "error"))
    ensures Truthy(resp) && !Truthy(Prop(resp, "error")) ==>
              var rk := ResponseKey(v, resp);
              var fk := FinalKey(v, resp);
              var incoming := ResponseResults(v, resp);
              r == v.(results := r.results, resultKey := Some(fk))
              && fk in r.results && r.results[fk] == PrimaryValue(v, resp)
              && (forall k :: k in v.results ==> k in r.results)
              && (forall k :: k in incoming && k != rk ==> k in r.results)
              && (forall k :: k in r.results ==> k in v.results || (k in incoming && k != rk) || k == fk)
              && (forall k :: k in incoming && k != rk && k != fk ==> r.results[k] == incoming[k])
              && (forall k :: k in v.results && (k !in incoming || k == rk) && k != fk ==> r.results[k] == v.results[k])
  {
    if !Truthy(resp) then v.(error := Str("no result"))
    else if Truthy(Prop(resp, "error")) then v.(error := Prop(resp, "error"))
    else
      var secondary := ResponseResults(v, resp) - {ResponseKey(v, resp)};
      v.(results := (v.results + secondary)[FinalKey(v, resp) := PrimaryValue(v, resp)],
         resultKey := Some(FinalKey(v, resp)))
  }

  /** Receiving the same response twice leaves the operation as receiving it once. */
  lemma ReceiveIdempotent(v: OpView, resp: Value)
    ensures Received(Received(v, resp), resp) == Received(v, resp)
  {
    if Truthy(resp) && !Truthy(Prop(resp, "error")) {
      var once := Received(v, resp);
      assert ResponseKey(once, resp) == ResponseKey(v, resp);
      assert FinalKey(once, resp) == FinalKey(v, resp);
      assert ResponseResults(once, resp) == ResponseResults(v, resp);
      UpdateAgain(v.results, ResponseResults(v, resp) - {ResponseKey(v, resp)}, FinalKey(v, resp), PrimaryValue(v, resp));
    }
  }

  /** Merging the same entries and setting the same key a second time changes nothing. */
  lemma UpdateAgain<K, V>(a: map<K, V>, b: map<K, V>, k: K, x: V)
    ensures ((a + b)[k := x] + b)[k := x] == (a + b)[k := x]
  {
  }

  class Operation {
    var verb: Option<Verb>
    var key: string
    var value: Value
    var options: map<string, Value>
    var params: Value
    var results: map<string, Value>
    var resultKey: Option<string>
    var result: Value
    var error: Value
    var performed: bool
    var fromCache: Option<bool>

    function View(): OpView
      reads this
    {
      OpView(verb, key, value, options, params, results, resultKey, result, error, performed, fromCache)
    }

    constructor ()
      ensures View() == BlankOp
    {
      verb, key, value, options, params := None, "", Undefined, map[], Undefined;
      results, resultKey, result, error := map[], None, Undefined, Null;
      performed, fromCache := false, None;
    }

    /** Sets every field at once, as a builder does on a new operation. */
    method Fill(v: OpView)
      modifies this
      ensures View() == v
    {
      verb, key, value, options, params := v.verb, v.key, v.value, v.options, v.params;
      results, resultKey, result, error := v.results, v.resultKey, v.result, v.error;
      performed, fromCache := v.performed, v.fromCache;
    }

    /** `receiveResult(resp)` */
    method ReceiveResult(resp: Value)
      modifies this
      ensures View() == Received(old(View()), resp)
    {
      if !Truthy(resp) {
        error := Str("no result");
      } else if Truthy(Prop(resp, "error")) {
        error := Prop(resp, "error");
      } else {
        ghost var v := View();
        var responseKey := ToStr(Or(Or(Prop(resp, "result_key"), Prop(resp, "key")), Str(key)));
        var finalKey := if Present(resultKey) then resultKey.value else responseKey;
        var incoming := match Prop(resp, "results")
          case Rec(m) => m
          case other => map[responseKey := other];
        var primary := if Prop(resp, "verb") == Str("DESTROY") then Undefined else Lookup(incoming, responseKey);
        assert responseKey == ResponseKey(v, resp) && finalKey == FinalKey(v, resp);
        assert incoming == ResponseResults(v, resp) && primary == PrimaryValue(v, resp);
        results := results + (incoming - {responseKey});
        resultKey := Some(finalKey);
        results := results[finalKey := primary];
      }
    }
  }

  // ---------------------------------------------------------------------------
  // What the request builders add
  // ---------------------------------------------------------------------------

  /** The caller's options object; `None` when it is null or undefined. */
  type Options = Option<map<string, Value>>

  function OptionsOrEmpty(opts: Options): map<string, Value> {
    if opts.Some? then opts.value else map[]
  }

  /** `aOptions && _.removeKey(aOptions, name)` */
  function Extract(opts: Options, name: string): Value {
    if opts.Some? then Lookup(opts.value, name) else Undefined
  }

  /** Options of a CREATE or READ operation: defaults, then the caller's less result_key and params. */
  function CreateReadOptions(opts: Options): map<string, Value> {
    map["cacheResults" := Bool(true), "manufacture" := Bool(true)] + (OptionsOrEmpty(opts) - {"result_key", "params"})
  }

  /** Options of an UPDATE operation: the caller's `params` was still present when they were copied. */
  function UpdateOptions(opts: Options): map<string, Value> {
    map["cacheResults" := Bool(true), "manufacture" := Bool(true)] + (OptionsOrEmpty(opts) - {"result_key"})
  }

  /** Options of a DESTROY operation: no manufacture default, and `params` kept as for UPDATE. */
  function DestroyOptions(opts: Options): map<string, Value> {
    map["cacheResults" := Bool(true)] + (OptionsOrEmpty(opts) - {"result_key"})
  }

  /** Options of an EXECUTE operation: results are neither cached nor manufactured by default. */
  function ExecuteOptions(opts: Options): map<string, Value> {
    map["cacheResults" := Bool(false), "manufacture" := Bool(false)] + (OptionsOrEmpty(opts) - {"result_key", "params"})
  }

  /** `_.extend({}, aOptions, {preferCache: true})` */
  function WithPreferCache(opts: Options): (r: Options)
    ensures r.Some? && r.value == OptionsOrEmpty(opts)["preferCache" := Bool(true)]
  {
    Some(OptionsOrEmpty(opts)["preferCache" := Bool(true)])
  }

  /** The key a CREATE operation uses: a full `resource__id.association` key, else its resource. */
  function CreateKey(k: string): string {
    if |KeySplit(k)| >= 3 then k else KeyResource(k)
  }

  /** A CREATE operation's key keeps the resource of the key it was given. */
  lemma CreateKeyResource(k: string)
    ensures KeyResource(CreateKey(k)) == KeyResource(k)
  {
  }

  /** The result key of the `j`th operation of a read, update or destroy: the override applies to the first. */
  function ListedResultKey(opts: Options, k: Value, j: nat): string {
    if j == 0 then ToStr(Or(Extract(opts, "result_key"), k)) else ToStr(k)
  }

  /** A new operation as a read, update or destroy builder leaves it. */
  function ListedOp(verb: Verb, options: map<string, Value>, opts: Options, k: Value, value: Value, j: nat): OpView {
    BlankOp.(verb := Some(verb), key := ToStr(k), value := value, options := options,
             params := Extract(opts, "params"), resultKey := Some(ListedResultKey(opts, k, j)))
  }

  /** A new CREATE operation for the `j`th pair: only the first gets the result-key override. */
  function CreatedOp(opts: Options, k: string, v: Value, j: nat): OpView
    reads InstancesIn(v)
  {
    var rk := Extract(opts, "result_key");
    BlankOp.(verb := Some(CREATE), key := CreateKey(k), value := Jsono(v, CreateReadOptions(opts)),
             options := CreateReadOptions(opts), params := Extract(opts, "params"),
             resultKey := if j == 0 && Truthy(rk) then Some(ToStr(rk)) else None)
  }

  /** A flat key/value list read two elements at a time; an odd last element is dropped. */
  function PairList(kvs: seq<Value>): (r: seq<(Value, Value)>)
    ensures |r| == |kvs| / 2
    ensures forall j :: 0 <= j < |r| ==> r[j] == (kvs[2 * j], kvs[2 * j + 1])
    decreases |kvs|
  {
    if |kvs| < 2 then []
    else
      var rest := PairList(kvs[2..]);
      assert forall j :: 0 < j <= |rest| ==> kvs[2 * j] == kvs[2..][2 * (j - 1)];
      [(kvs[0], kvs[1])] + rest
  }

  /** The instances the values of a pair list hold. */
  function PairInstances(pairs: seq<(Value, Value)>): set<Instance> {
    set j, o | 0 <= j < |pairs| && o in InstancesIn(pairs[j].1) :: o
  }

  lemma PairInstancesAllocated(pairs: seq<(Value, Value)>)
    ensures forall o :: o in PairInstances(pairs) ==> allocated(o)
  {
    forall j | 0 <= j < |pairs|
      ensures forall o :: o in InstancesIn(pairs[j].1) ==> allocated(o)
    {
      InstancesAllocated(pairs[j].1);
    }
  }

  /** How many leading pairs have a string key. */
  function StringKeyedPairs(pairs: seq<(Value, Value)>): (n: nat)
    ensures n <= |pairs|
    ensures forall j :: 0 <= j < n ==> pairs[j].0.Str?
    ensures n < |pairs| ==> !pairs[n].0.Str?
  {
    if pairs == [] || !pairs[0].0.Str? then 0 else 1 + StringKeyedPairs(pairs[1..])
  }

  /** The CREATE operations for a list of string-keyed pairs, in order. */
  function CreatedViews(opts: Options, pairs: seq<(Value, Value)>): (r: seq<OpView>)
    requires forall j :: 0 <= j < |pairs| ==> pairs[j].0.Str?
    reads PairInstances(pairs)
    ensures |r| == |pairs|
    decreases |pairs|
  {
    if pairs == [] then []
    else
      var last := |pairs| - 1;
      CreatedViews(opts, pairs[..last]) + [CreatedOp(opts, pairs[last].0.s, pairs[last].1, last)]
  }

  /** The `j`th of them is the CREATE operation for the `j`th pair. */
  lemma {:induction false} CreatedViewsAt(opts: Options, pairs: seq<(Value, Value)>, j: nat)
    requires forall i :: 0 <= i < |pairs| ==> pairs[i].0.Str?
    requires j < |pairs|
    ensures CreatedViews(opts, pairs)[j] == CreatedOp(opts, pairs[j].0.s, pairs[j].1, j)
    decreases |pairs|
  {
    var last := |pairs| - 1;
    if j < last {
      CreatedViewsAt(opts, pairs[..last], j);
      assert pairs[..last][j] == pairs[j];
    }
  }

  /** The operation appended for the first pair whose key is not a string, just before the throw. */
  function PartialCreatedOp(opts: Options): OpView {
    BlankOp.(verb := Some(CREATE), options := CreateReadOptions(opts), params := Extract(opts, "params"))
  }

  /**
   * The operations `create` appends for a pair list: one per pair while the keys are
   * strings, then, at the first other key, one holding only its verb, options and params.
   */
  function CreatedList(opts: Options, pairs: seq<(Value, Value)>): (r: seq<OpView>)
    reads PairInstances(pairs)
    ensures StringKeyedPairs(pairs) == |pairs| ==> |r| == |pairs|
    ensures StringKeyedPairs(pairs) < |pairs| ==>
              |r| == StringKeyedPairs(pairs) + 1 && r[|r| - 1] == PartialCreatedOp(opts)
  {
    var n := StringKeyedPairs(pairs);
    CreatedViews(opts, pairs[..n]) + if n < |pairs| then [PartialCreatedOp(opts)] else []
  }

  /** The operations a read or destroy builder appends: one per key, in order. */
  function ListedViews(verb: Verb, options: map<string, Value>, opts: Options, keys: seq<Value>): (r: seq<OpView>)
    ensures |r| == |keys|
    ensures forall j :: 0 <= j < |keys| ==> r[j] == ListedOp(verb, options, opts, keys[j], Undefined, j)
  {
    seq(|keys|, j requires 0 <= j < |keys| => ListedOp(verb, options, opts, keys[j], Undefined, j))
  }

  /** The operations `update` appends: one per pair, its value the pair's value copied as JSON. */
  function UpdatedViews(opts: Options, pairs: seq<(Value, Value)>): (r: seq<OpView>)
    reads PairInstances(pairs)
    ensures |r| == |pairs|
    ensures forall j :: 0 <= j < |pairs| ==>
              r[j] == ListedOp(UPDATE, UpdateOptions(opts), opts, pairs[j].0, Jsono(pairs[j].1, UpdateOptions(opts)), j)
    decreases |pairs|
  {
    if pairs == [] then []
    else
      var last := |pairs| - 1;
      UpdatedViews(opts, pairs[..last])
        + [ListedOp(UPDATE, UpdateOptions(opts), opts, pairs[last].0, Jsono(pairs[last].1, UpdateOptions(opts)), last)]
  }

  /** The operation `execute` appends. */
  function ExecutedOp(key: Value, value: Value, opts: Options): OpView
    reads InstancesIn(value)
  {
    BlankOp.(verb := Some(EXECUTE), key := ToStr(key), value := Jsono(value, ExecuteOptions(opts)),
             options := ExecuteOptions(opts), params := Extract(opts, "params"),
             resultKey := Some(ToStr(Or(Extract(opts, "result_key"), key))))
  }

  /** What the builders whose operations carry copies of caller values build from. */
  datatype Source =
    | PairSource(update: bool, opts: Options, pairs: seq<(Value, Value)>)
    | ExecuteSource(key: Value, value: Value, opts: Options)

  /** The instances the copies are taken from. */
  function SourceInstances(src: Source): set<Instance> {
    match src
    case PairSource(_, _, pairs) => PairInstances(pairs)
    case ExecuteSource(_, value, _) => InstancesIn(value)
  }

  /** The operations `update`, `create` or `execute` appends. */
  function SourceViews(src: Source): seq<OpView>
    reads SourceInstances(src)
  {
    match src
    case PairSource(update, opts, pairs) => if update then UpdatedViews(opts, pairs) else CreatedList(opts, pairs)
    case ExecuteSource(key, value, opts) => [ExecutedOp(key, value, opts)]
  }

  lemma SourceInstancesAllocated(src: Source)
    ensures forall o :: o in SourceInstances(src) ==> allocated(o)
  {
    match src
    case PairSource(_, _, pairs) => PairInstancesAllocated(pairs);
    case ExecuteSource(_, value, _) => InstancesAllocated(value);
  }

  /** The fields of each operation of `os`, in order. */
  function ViewsOf(os: seq<Operation>): (r: seq<OpView>)
    reads set o | o in os
    ensures |r| == |os| && forall j :: 0 <= j < |os| ==> r[j] == os[j].View()
    decreases |os|
  {
    if os == [] then [] else ViewsOf(os[..|os| - 1]) + [os[|os| - 1].View()]
  }

  lemma AppendAssoc<T>(a: seq<T>, b: seq<T>, c: seq<T>)
    ensures (a + b) + c == a + (b + c)
  {
  }

  /** `after` is `before` followed by operations whose fields are `views`. */
  ghost predicate Appended(before: seq<Operation>, after: seq<Operation>, views: seq<OpView>)
    reads set o | o in after
  {
    |after| == |before| + |views| && after[..|before|] == before && ViewsOf(after[|before|..]) == views
  }
}
