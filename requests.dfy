/**
 * Requests and their operations, and the handler stack that runs a request's steps.
 *
 * A request holds an ordered list of operations built by its create/read/update/
 * destroy/execute builders. Submitting it runs a handler stack: an ordered list of steps
 * run one at a time, each scheduled by a zero-delay timer (here: appended to
 * `scheduled`), with a settle-once outcome standing for the request's promise.
 */
module Requests {
  import opened JsValues
  import opened Utils
  import opened Operations

  // ---------------------------------------------------------------------------
  // The handler stack
  // ---------------------------------------------------------------------------

  /** The steps the client puts on a stack; user steps are named. */
  datatype StepFn = HandleRequestStep | HandleResultsStep | UserStep(name: string)

  /** The object a step is called on (`this`), when there is one. */
  datatype Receiver = NoReceiver | ReceiverObject(name: string)

  /** A step with its parameter and receiver, as `callNext` hands it to the timer. */
  datatype Call = Call(fn: StepFn, parameter: Value, receiver: Receiver)

  /** The state of the deferred: none yet, or a promise that settles once. */
  datatype Outcome = NoDeferred | Pending | Resolved | Rejected

  function Resolve(o: Outcome): (r: Outcome)
    ensures o == Pending ==> r == Resolved
    ensures o != Pending ==> r == o
  {
    if o == Pending then Resolved else o
  }

  function Reject(o: Outcome): (r: Outcome)
    ensures o == Pending ==> r == Rejected
    ensures o != Pending ==> r == o
  {
    if o == Pending then Rejected else o
  }

  /** Settling is final: neither resolving nor rejecting changes a settled outcome. */
  lemma SettleOnce(o: Outcome)
    requires o == Resolved || o == Rejected
    ensures Resolve(o) == o && Reject(o) == o
    ensures Resolve(Reject(o)) == Reject(o) && Reject(Resolve(o)) == Resolve(o)
  {
  }

  /** What running a step does to the stack: whether it asks to wait for `callNext`, and what it throws. */
  datatype StepEffect = StepEffect(suspend: bool, thrown: Option<Value>)

  /** The outcome after a step's throw (if any) went through `handleError`. */
  function AfterStep(o: Outcome, thrown: Option<Value>): (r: Outcome)
    ensures thrown.None? ==> r == o
    ensures thrown.Some? ==> r == Reject(o)
  {
    if thrown.Some? then Reject(o) else o
  }

  class HandlerStack {
    var handlers: seq<StepFn>
    var parameters: seq<Value>
    var thises: seq<Receiver>
    /** The parameter of the step running now. */
    var parameter: Value
    var context: Request?
    var error: Value
    var deferred: Outcome
    var nextHandlerIndex: int
    var waitForCallNext: bool
    /** Calls handed to the zero-delay timer and not yet run, oldest first. */
    var scheduled: seq<Call>

    /** The three lists run in step; the cursor is -1 exactly when no run is bound. */
    predicate Valid()
      reads this
    {
      |handlers| == |parameters| == |thises|
      && -1 <= nextHandlerIndex <= |handlers|
      && (context == null <==> nextHandlerIndex == -1)
      && (context == null <==> deferred == NoDeferred)
    }

    /** The call at position `i` of the three lists. */
    function CallAt(i: int): Call
      reads this
      requires Valid() && 0 <= i < |handlers|
    {
      Call(handlers[i], parameters[i], thises[i])
    }

    constructor ()
      ensures handlers == [] && parameters == [] && thises == []
      ensures parameter == Null && context == null && error == Null && deferred == NoDeferred
      ensures nextHandlerIndex == -1 && !waitForCallNext && scheduled == []
      ensures Valid()
    {
      handlers, parameters, thises := [], [], [];
      parameter, context, error, deferred := Null, null, Null, NoDeferred;
      nextHandlerIndex, waitForCallNext := -1, false;
      scheduled := [];
    }

    /** `clear()`: empties the three lists and resets the run state. */
    method Clear()
      modifies this
      ensures handlers == [] && parameters == [] && thises == []
      ensures parameter == Null && context == null && error == Null && deferred == NoDeferred
      ensures nextHandlerIndex == -1 && !waitForCallNext && scheduled == old(scheduled)
      ensures Valid()
    {
      handlers, parameters, thises := [], [], [];
      Reset();
    }

    /** `reset()`: keeps the three lists, clears the run state. */
    method Reset()
      modifies this
      ensures handlers == old(handlers) && parameters == old(parameters) && thises == old(thises)
      ensures parameter == Null && context == null && error == Null && deferred == NoDeferred
      ensures nextHandlerIndex == -1 && !waitForCallNext && scheduled == old(scheduled)
      ensures |handlers| == |parameters| == |thises| ==> Valid()
    {
      parameter, context, error, deferred := Null, null, Null, NoDeferred;
      nextHandlerIndex, waitForCallNext := -1, false;
    }

    /** `push(fn, d, th)`: puts the step in front of all the others. */
    method Push(fn: StepFn, d: Value, th: Receiver)
      requires Valid()
      modifies this
      ensures handlers == [fn] + old(handlers)
      ensures parameters == [d] + old(parameters)
      ensures thises == [th] + old(thises)
      ensures nextHandlerIndex == old(nextHandlerIndex) && context == old(context) && deferred == old(deferred)
      ensures parameter == old(parameter) && error == old(error)
      ensures waitForCallNext == old(waitForCallNext) && scheduled == old(scheduled)
      ensures Valid()
    {
      handlers := [fn] + handlers;
      parameters := [d] + parameters;
      thises := [th] + thises;
    }

    /** `pushNext(fn, d, th)`: before a run, a push; during a run, inserted at the cursor. */
    method PushNext(fn: StepFn, d: Value, th: Receiver)
      requires Valid()
      modifies this
      ensures old(nextHandlerIndex) < 0 ==>
                handlers == [fn] + old(handlers) && parameters == [d] + old(parameters) && thises == [th] + old(thises)
      ensures old(nextHandlerIndex) >= 0 ==>
                var i := old(nextHandlerIndex);
                handlers == old(handlers)[..i] + [fn] + old(handlers)[i..]
                && parameters == old(parameters)[..i] + [d] + old(parameters)[i..]
                && thises == old(thises)[..i] + [th] + old(thises)[i..]
      ensures nextHandlerIndex == old(nextHandlerIndex) && context == old(context) && deferred == old(deferred)
      ensures parameter == old(parameter) && error == old(error)
      ensures waitForCallNext == old(waitForCallNext) && scheduled == old(scheduled)
      ensures Valid()
      ensures nextHandlerIndex >= 0 ==> CallAt(nextHandlerIndex) == Call(fn, d, th)
    {
      if nextHandlerIndex < 0 {
        Push(fn, d, th);
        return;
      }
      var i := nextHandlerIndex;
      handlers := handlers[..i] + [fn] + handlers[i..];
      parameters := parameters[..i] + [d] + parameters[i..];
      thises := thises[..i] + [th] + thises[i..];
    }

    /** `add(fn, d, th)`: puts the step after all the others. */
    method Add(fn: StepFn, d: Value, th: Receiver)
      requires Valid()
      modifies this
      ensures handlers == old(handlers) + [fn]
      ensures parameters == old(parameters) + [d]
      ensures thises == old(thises) + [th]
      ensures nextHandlerIndex == old(nextHandlerIndex) && context == old(context) && deferred == old(deferred)
      ensures parameter == old(parameter) && error == old(error)
      ensures waitForCallNext == old(waitForCallNext) && scheduled == old(scheduled)
      ensures Valid()
    {
      handlers := handlers + [fn];
      parameters := parameters + [d];
      thises := thises + [th];
    }

    /**
     * `callNext()`: with an error on the context, rejects (unless settled) and stops; with
     * no step left, resolves; otherwise schedules the step at the cursor and advances it.
     * Nothing checks that the stack was waiting for this call.
     */
    method CallNext()
      requires Valid() && context != null
      modifies this
      ensures context == old(context) && context != null
      ensures handlers == old(handlers) && parameters == old(parameters) && thises == old(thises)
      ensures Valid()
      ensures Truthy(context.error) ==>
                deferred == Reject(old(deferred)) && nextHandlerIndex == old(nextHandlerIndex) && scheduled == old(scheduled)
      ensures !Truthy(context.error) && old(nextHandlerIndex) >= |handlers| ==>
                deferred == Resolve(old(deferred)) && nextHandlerIndex == old(nextHandlerIndex) && scheduled == old(scheduled)
      ensures !Truthy(context.error) && old(nextHandlerIndex) < |handlers| ==>
                deferred == old(deferred) && nextHandlerIndex == old(nextHandlerIndex) + 1
                && scheduled == old(scheduled) + [old(CallAt(nextHandlerIndex))]
      ensures parameter == old(parameter) && error == old(error) && waitForCallNext == old(waitForCallNext)
    {
      if Truthy(context.error) {
        if deferred != Rejected {
          deferred := Reject(deferred);
        }
        return;
      }
      if |handlers| == 0 || nextHandlerIndex >= |handlers| {
        deferred := Resolve(deferred);
        return;
      }
      var call := CallAt(nextHandlerIndex);
      nextHandlerIndex := nextHandlerIndex + 1;
      scheduled := scheduled + [call];
    }

    /** `handleError(e)`: records the error on the context and rejects. */
    method HandleError(e: Value)
      requires Valid() && context != null
      modifies this, context`error
      ensures context == old(context) && context.error == e
      ensures deferred == Reject(old(deferred))
      ensures handlers == old(handlers) && parameters == old(parameters) && thises == old(thises)
      ensures nextHandlerIndex == old(nextHandlerIndex) && parameter == old(parameter) && error == old(error)
      ensures waitForCallNext == old(waitForCallNext) && scheduled == old(scheduled)
      ensures Valid()
    {
      context.error := e;
      deferred := Reject(deferred);
    }

    /**
     * `executeHandler(fn, d, th)` for a step with the given effect: the wait flag is cleared
     * before the step; a throw goes to `handleError`; unless the step asked to wait, the
     * next step follows through `callNext`.
     */
    method ExecuteHandler(call: Call, effect: StepEffect)
      requires Valid() && context != null
      modifies this, context
      ensures context == old(context) && parameter == call.parameter && waitForCallNext == effect.suspend
      ensures effect.thrown.Some? ==> context.error == effect.thrown.value
      ensures effect.thrown.None? ==> context.error == old(context.error)
      ensures handlers == old(handlers) && parameters == old(parameters) && thises == old(thises)
      ensures error == old(error)
      ensures effect.suspend ==>
                deferred == AfterStep(old(deferred), effect.thrown)
                && nextHandlerIndex == old(nextHandlerIndex) && scheduled == old(scheduled)
      ensures !effect.suspend && Truthy(context.error) ==>
                deferred == Reject(AfterStep(old(deferred), effect.thrown))
                && nextHandlerIndex == old(nextHandlerIndex) && scheduled == old(scheduled)
      ensures !effect.suspend && !Truthy(context.error) && old(nextHandlerIndex) >= |handlers| ==>
                deferred == Resolve(AfterStep(old(deferred), effect.thrown))
                && nextHandlerIndex == old(nextHandlerIndex) && scheduled == old(scheduled)
      ensures !effect.suspend && !Truthy(context.error) && old(nextHandlerIndex) < |handlers| ==>
                deferred == AfterStep(old(deferred), effect.thrown)
                && nextHandlerIndex == old(nextHandlerIndex) + 1
                && scheduled == old(scheduled) + [old(CallAt(nextHandlerIndex))]
      ensures Valid()
    {
      waitForCallNext := false;
      parameter := call.parameter;
      if effect.suspend {
        waitForCallNext := true;
      }
      if effect.thrown.Some? {
        HandleError(effect.thrown.value);
      }
      if !waitForCallNext {
        CallNext();
      }
    }

    /**
     * The timer fires: the oldest scheduled call leaves the queue and runs with the given
     * effect, as `executeHandler` does; a step that goes on schedules the next one behind
     * the calls still queued.
     */
    method RunNextScheduled(effect: StepEffect)
      requires Valid() && context != null && scheduled != []
      modifies this, context
      ensures context == old(context) && parameter == old(scheduled[0].parameter)
      ensures waitForCallNext == effect.suspend
      ensures effect.thrown.Some? ==> context.error == effect.thrown.value
      ensures effect.thrown.None? ==> context.error == old(context.error)
      ensures handlers == old(handlers) && parameters == old(parameters) && thises == old(thises)
      ensures error == old(error)
      ensures effect.suspend ==>
                deferred == AfterStep(old(deferred), effect.thrown)
                && nextHandlerIndex == old(nextHandlerIndex) && scheduled == old(scheduled)[1..]
      ensures !effect.suspend && Truthy(context.error) ==>
                deferred == Reject(AfterStep(old(deferred), effect.thrown))
                && nextHandlerIndex == old(nextHandlerIndex) && scheduled == old(scheduled)[1..]
      ensures !effect.suspend && !Truthy(context.error) && old(nextHandlerIndex) >= |handlers| ==>
                deferred == Resolve(AfterStep(old(deferred), effect.thrown))
                && nextHandlerIndex == old(nextHandlerIndex) && scheduled == old(scheduled)[1..]
      ensures !effect.suspend && !Truthy(context.error) && old(nextHandlerIndex) < |handlers| ==>
                deferred == AfterStep(old(deferred), effect.thrown)
                && nextHandlerIndex == old(nextHandlerIndex) + 1
                && scheduled == old(scheduled)[1..] + [old(CallAt(nextHandlerIndex))]
      ensures Valid()
    {
      var call := scheduled[0];
      scheduled := scheduled[1..];
      ExecuteHandler(call, effect);
    }

    /**
     * `run(ctx)`: binds the context, creates a pending outcome, moves the cursor to the
     * first step and calls `callNext`; returns the context itself.
     */
    method Run(ctx: Request) returns (r: Request)
      requires Valid()
      modifies this
      ensures handlers == old(handlers) && parameters == old(parameters) && thises == old(thises)
      ensures Valid()
      ensures r == ctx && context == ctx
      ensures Truthy(ctx.error) ==> deferred == Rejected && nextHandlerIndex == 0 && scheduled == old(scheduled)
      ensures !Truthy(ctx.error) && |handlers| == 0 ==>
                deferred == Resolved && nextHandlerIndex == 0 && scheduled == old(scheduled)
      ensures !Truthy(ctx.error) && |handlers| > 0 ==>
                deferred == Pending && nextHandlerIndex == 1 && scheduled == old(scheduled) + [CallAt(0)]
      ensures parameter == old(parameter) && error == old(error) && waitForCallNext == old(waitForCallNext)
    {
      context := ctx;
      deferred := Pending;
      nextHandlerIndex := 0;
      CallNext();
      r := context;
    }
  }

  class Request {
    var chaining: bool
    var ops: seq<Operation>
    var op: Operation?
    const handlers: HandlerStack
    var error: Value
    /** `None` where the request has no results property (before finalising, or after an error). */
    var results: Option<map<string, Value>>
    var result: Value

    /** `op` is the first operation, and no operation is listed twice. */
    predicate Valid()
      reads this
    {
      (ops == [] <==> op == null)
      && (ops != [] ==> op == ops[0])
      && (forall i, j :: 0 <= i < j < |ops| ==> ops[i] != ops[j])
    }

    constructor (chaining: bool)
      ensures this.chaining == chaining && ops == [] && op == null && error == Null
      ensures results.None? && result == Undefined
      ensures fresh(handlers) && handlers.handlers == [] && handlers.context == null && handlers.scheduled == []
      ensures handlers.Valid() && Valid()
    {
      this.chaining := chaining;
      ops, op, error := [], null, Null;
      results, result := None, Undefined;
      handlers := new HandlerStack();
    }

    /** `newOperation()`: appends a fresh operation; the first one ever added becomes `op`. */
    method NewOperation() returns (o: Operation)
      requires Valid()
      modifies this
      ensures fresh(o) && o.View() == BlankOp
      ensures ops == old(ops) + [o]
      ensures old(ops) == [] ==> op == o
      ensures old(ops) != [] ==> op == old(op)
      ensures chaining == old(chaining) && error == old(error) && results == old(results) && result == old(result)
      ensures Valid()
    {
      o := new Operation();
      if |ops| == 0 {
        op := o;
      }
      ops := ops + [o];
    }

    /**
     * Appends, through `newOperation`, one new operation per element of `views` with those
     * fields. The builders compute each operation's fields first; since that computation
     * changes nothing, the outcome is the one of filling each operation in after appending it.
     */
    method AppendOps(views: seq<OpView>)
      requires Valid()
      modifies this
      ensures Appended(old(ops), ops, views)
      ensures forall o :: o in ops[|old(ops)|..] ==> fresh(o)
      ensures old(ops) != [] ==> op == old(op)
      ensures chaining == old(chaining) && error == old(error) && results == old(results) && result == old(result)
      ensures Valid()
    {
      ghost var added: seq<Operation> := [];
      for p := 0 to |views|
        invariant ops == old(ops) + added
        invariant forall o :: o in added ==> fresh(o)
        invariant |added| == p && forall j :: 0 <= j < p ==> added[j].View() == views[j]
        invariant old(ops) != [] ==> op == old(op)
        invariant chaining == old(chaining) && error == old(error) && results == old(results) && result == old(result)
        invariant Valid()
      {
        var o := NewOperation();
        o.Fill(views[p]);
        AppendAssoc(old(ops), added, [o]);
        added := added + [o];
      }
      assert ops[|old(ops)|..] == added;
      assert ops[..|old(ops)|] == old(ops);
      assert ViewsOf(added) == views;
    }

    /**
     * `create(keyValues, options)`: one CREATE operation per key/value pair, in order.
     * Input that is neither object nor array throws before any operation is added; a key
     * that is not a string throws once its operation has been appended.
     */
    method Create(kv: Value, opts: Options)
      returns (c: Completion<()>, ghost kvs: Option<seq<Value>>, ghost ps: seq<(string, Value)>, ghost pss: seq<seq<(string, Value)>>)
      requires Valid()
      modifies this
      ensures KeyValueArrayOf(kv, old(FieldsOf(kv)), old(ItemFields(kv)), kvs, ps, pss)
      ensures kvs.None? ==> c.Threw? && ops == old(ops)
      ensures kvs.Some? ==> Appended(old(ops), ops, CreatedList(opts, PairList(kvs.value)))
      ensures kvs.Some? ==> (c.Normal? <==> StringKeyedPairs(PairList(kvs.value)) == |PairList(kvs.value)|)
      ensures forall o :: o in ops[|old(ops)|..] ==> fresh(o)
      ensures chaining == old(chaining) && error == old(error) && results == old(results) && result == old(result)
      ensures Valid()
    {
      var arr;
      arr, ps, pss := ToKeyValueArray(kv);
      kvs := arr;
      c := AddCreated(arr, opts);
    }

    /** `AppendOps` for operations that carry copies of caller values. */
    method AppendFrom(views: seq<OpView>, ghost src: Source)
      requires Valid() && views == SourceViews(src)
      modifies this
      ensures Appended(old(ops), ops, SourceViews(src))
      ensures forall o :: o in ops[|old(ops)|..] ==> fresh(o)
      ensures chaining == old(chaining) && error == old(error) && results == old(results) && result == old(result)
      ensures Valid()
    {
      SourceInstancesAllocated(src);
      label Before:
      AppendOps(views);
      forall o | o in SourceInstances(src) ensures unchanged@Before(o) { }
    }

    /** The rest of `create`, given the flat key/value list (`None` where the input has none). */
    method AddCreated(kvs: Option<seq<Value>>, opts: Options) returns (c: Completion<()>)
      requires Valid()
      modifies this
      ensures kvs.None? ==> c.Threw? && ops == old(ops)
      ensures kvs.Some? ==> Appended(old(ops), ops, CreatedList(opts, PairList(kvs.value)))
      ensures kvs.Some? ==> (c.Normal? <==> StringKeyedPairs(PairList(kvs.value)) == |PairList(kvs.value)|)
      ensures forall o :: o in ops[|old(ops)|..] ==> fresh(o)
      ensures chaining == old(chaining) && error == old(error) && results == old(results) && result == old(result)
      ensures Valid()
    {
      if kvs.None? {
        return Threw(ErrorObject("TypeError", "Cannot read properties of null (reading 'length')"));
      }
      var pairs := PairList(kvs.value);
      var n := StringKeyedPairs(pairs);
      var views := CreatedFields(pairs, n, opts);
      if n < |pairs| {
        views := views + [PartialCreatedOp(opts)];
        c := Threw(ErrorObject("TypeError", "aKey.split is not a function"));
      } else {
        c := Normal(());
      }
      AppendFrom(views, PairSource(false, opts, pairs));
    }

    /** The fields of the CREATE operations for the first `n` pairs, whose keys are strings. */
    method CreatedFields(pairs: seq<(Value, Value)>, n: nat, opts: Options) returns (views: seq<OpView>)
      requires n <= |pairs| && forall j :: 0 <= j < n ==> pairs[j].0.Str?
      ensures views == CreatedViews(opts, pairs[..n])
    {
      var resultKey := Extract(opts, "result_key");
      var params := Extract(opts, "params");
      var options := CreateReadOptions(opts);
      views := [];
      for p := 0 to n
        invariant views == CreatedViews(opts, pairs[..p])
      {
        var (k, v) := pairs[p];
        var key := CreateKey(k.s);
        var opResultKey := if p == 0 && Truthy(resultKey) then Some(ToStr(resultKey)) else None;
        var jv := Jsono(v, options);
        var created := BlankOp.(verb := Some(CREATE), key := key, value := jv, options := options,
                                params := params, resultKey := opResultKey);
        assert created == CreatedOp(opts, k.s, v, p);
        assert pairs[..p + 1][..p] == pairs[..p];
        views := views + [created];
      }
    }

    /** `read(keys, options)`: one READ operation per key. */
    method Read(keys: Value, opts: Options)
      requires Valid()
      modifies this
      ensures Appended(old(ops), ops, ListedViews(READ, CreateReadOptions(opts), opts, InterpretKeys(keys)))
      ensures forall o :: o in ops[|old(ops)|..] ==> fresh(o)
      ensures chaining == old(chaining) && error == old(error) && results == old(results) && result == old(result)
      ensures Valid()
    {
      var ks := InterpretKeys(keys);
      AppendOps(ListedViews(READ, CreateReadOptions(opts), opts, ks));
    }

    /** `cacheRead(keys, options)`: a read whose options also say `preferCache: true`. */
    method CacheRead(keys: Value, opts: Options)
      requires Valid()
      modifies this
      ensures Appended(old(ops), ops, ListedViews(READ, CreateReadOptions(WithPreferCache(opts)), WithPreferCache(opts), InterpretKeys(keys)))
      ensures forall o :: o in ops[|old(ops)|..] ==> fresh(o)
      ensures chaining == old(chaining) && error == old(error) && results == old(results) && result == old(result)
      ensures Valid()
    {
      Read(keys, WithPreferCache(opts));
    }

    /**
     * `update(keyValues, options)`: one UPDATE operation per key/value pair, its value the
     * JSON copy of the pair's value; input that is neither object nor array throws.
     */
    method Update(kv: Value, opts: Options)
      returns (c: Completion<()>, ghost kvs: Option<seq<Value>>, ghost ps: seq<(string, Value)>, ghost pss: seq<seq<(string, Value)>>)
      requires Valid()
      modifies this
      ensures KeyValueArrayOf(kv, old(FieldsOf(kv)), old(ItemFields(kv)), kvs, ps, pss)
      ensures kvs.None? <==> c.Threw?
      ensures kvs.None? ==> ops == old(ops)
      ensures kvs.Some? ==> Appended(old(ops), ops, UpdatedViews(opts, PairList(kvs.value)))
      ensures forall o :: o in ops[|old(ops)|..] ==> fresh(o)
      ensures chaining == old(chaining) && error == old(error) && results == old(results) && result == old(result)
      ensures Valid()
    {
      var arr;
      arr, ps, pss := ToKeyValueArray(kv);
      kvs := arr;
      c := AddUpdated(arr, opts);
    }

    /** The rest of `update`, given the flat key/value list (`None` where the input has none). */
    method AddUpdated(kvs: Option<seq<Value>>, opts: Options) returns (c: Completion<()>)
      requires Valid()
      modifies this
      ensures kvs.None? <==> c.Threw?
      ensures kvs.None? ==> ops == old(ops)
      ensures kvs.Some? ==> Appended(old(ops), ops, UpdatedViews(opts, PairList(kvs.value)))
      ensures forall o :: o in ops[|old(ops)|..] ==> fresh(o)
      ensures chaining == old(chaining) && error == old(error) && results == old(results) && result == old(result)
      ensures Valid()
    {
      if kvs.None? {
        return Threw(ErrorObject("TypeError", "Cannot read properties of null (reading 'length')"));
      }
      var views := UpdatedFields(PairList(kvs.value), opts);
      AppendFrom(views, PairSource(true, opts, PairList(kvs.value)));
      c := Normal(());
    }

    /** The fields of the UPDATE operations for a pair list. */
    method UpdatedFields(pairs: seq<(Value, Value)>, opts: Options) returns (views: seq<OpView>)
      ensures views == UpdatedViews(opts, pairs)
    {
      var resultKey := Extract(opts, "result_key");
      var options := UpdateOptions(opts);
      var params := Extract(opts, "params");
      var first := true;
      views := [];
      for p := 0 to |pairs|
        invariant first <==> p == 0
        invariant |views| == p
        invariant forall j :: 0 <= j < p ==> views[j] == UpdatedViews(opts, pairs)[j]
      {
        var (k, v) := pairs[p];
        var opResultKey;
        if first {
          opResultKey := ToStr(Or(resultKey, k));
          first := false;
        } else {
          opResultKey := ToStr(k);
        }
        var jv := Jsono(v, options);
        views := views + [BlankOp.(verb := Some(UPDATE), key := ToStr(k), value := jv, options := options,
                                   params := params, resultKey := Some(opResultKey))];
      }
    }

    /** `destroy(keys, options)`: one DESTROY operation per key. */
    method Destroy(keys: Value, opts: Options)
      requires Valid()
      modifies this
      ensures Appended(old(ops), ops, ListedViews(DESTROY, DestroyOptions(opts), opts, InterpretKeys(keys)))
      ensures forall o :: o in ops[|old(ops)|..] ==> fresh(o)
      ensures chaining == old(chaining) && error == old(error) && results == old(results) && result == old(result)
      ensures Valid()
    {
      var ks := InterpretKeys(keys);
      AppendOps(ListedViews(DESTROY, DestroyOptions(opts), opts, ks));
    }

    /** `execute(key, value, options)`: a single EXECUTE operation. */
    method Execute(key: Value, value: Value, opts: Options)
      requires Valid()
      modifies this
      ensures Appended(old(ops), ops, [ExecutedOp(key, value, opts)])
      ensures forall o :: o in ops[|old(ops)|..] ==> fresh(o)
      ensures chaining == old(chaining) && error == old(error) && results == old(results) && result == old(result)
      ensures Valid()
    {
      var options := ExecuteOptions(opts);
      var jv := Jsono(value, options);
      AppendFrom([BlankOp.(verb := Some(EXECUTE), key := ToStr(key), value := jv, options := options,
                           params := Extract(opts, "params"), resultKey := Some(ToStr(Or(Extract(opts, "result_key"), key))))],
                 ExecuteSource(key, value, opts));
    }
  }
}
