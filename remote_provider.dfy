/**
 * The remote provider's side of a request: which operations go to the server, the JSON
 * each one is sent as, how a failed exchange is turned into a kojac error, and how a
 * response (already parsed) is distributed over the operations that were sent.
 */
module RemoteProvider {
  import opened JsValues
  import opened Utils
  import opened Operations
  import opened Requests

  // ---------------------------------------------------------------------------
  // operationsToJson
  // ---------------------------------------------------------------------------

  /** Option names that only matter to the client and are never sent. */
  const LocalOptions: set<string> := {"cacheResults", "preferCache"}

  /** Only a verb that writes carries a value to the server. */
  predicate SendsValue(verb: Option<Verb>) {
    verb == Some(CREATE) || verb == Some(UPDATE) || verb == Some(EXECUTE)
  }

  /** `op.verb` as a value: the verb's name, or null (the default) before a builder set it. */
  function VerbValue(verb: Option<Verb>): Value {
    if verb.Some? then Str(VerbName(verb.value)) else Null
  }

  /** `_.omit(options, ['cacheResults', 'preferCache'])` */
  function ServerOptions(options: map<string, Value>): (r: map<string, Value>)
    ensures forall k :: k in r <==> k in options && k !in LocalOptions
    ensures forall k :: k in r ==> r[k] == options[k]
  {
    options - LocalOptions
  }

  /**
   * The record sent for one operation: its verb, key and params; its value converted by
   * `toJsono` when the verb writes; and its options without the local ones, left out when
   * none remain.
   */
  function JsonOp(v: OpView): (r: map<string, Value>)
    reads InstancesIn(v.value)
    ensures "verb" in r && r["verb"] == VerbValue(v.verb)
    ensures "key" in r && r["key"] == Str(v.key)
    ensures "params" in r && r["params"] == v.params
    ensures "value" in r <==> SendsValue(v.verb)
    ensures "value" in r ==> r["value"] == Jsono(v.value, v.options)
    ensures "options" in r <==> ServerOptions(v.options) != map[]
    ensures "options" in r ==> r["options"] == Rec(ServerOptions(v.options))
    ensures r.Keys <= {"verb", "key", "value", "options", "params"}
  {
    var base := map["verb" := VerbValue(v.verb), "key" := Str(v.key)];
    var withValue := if SendsValue(v.verb) then base["value" := Jsono(v.value, v.options)] else base;
    var withOptions := if ServerOptions(v.options) != map[] then withValue["options" := Rec(ServerOptions(v.options))] else withValue;
    withOptions["params" := v.params]
  }

  /** No option that only matters to the client reaches the server. */
  lemma JsonOpSendsNoLocalOption(v: OpView, k: string)
    requires k in LocalOptions
    ensures "options" in JsonOp(v) ==> JsonOp(v)["options"].Rec? && k !in JsonOp(v)["options"].fields
  {
  }

  /** `operationsToJson(ops)`: one record per operation, in the same order. */
  method OperationsToJson(ops: seq<Operation>) returns (result: seq<Value>)
    ensures |result| == |ops|
    ensures forall i :: 0 <= i < |ops| ==> result[i] == Rec(JsonOp(ops[i].View()))
    ensures result == JsonOps(ViewsOf(ops))
  {
    result := [];
    for i := 0 to |ops|
      invariant |result| == i
      invariant forall j :: 0 <= j < i ==> result[j] == Rec(JsonOp(ops[j].View()))
    {
      var op := ops[i];
      var jsonOp := map["verb" := VerbValue(op.verb), "key" := Str(op.key)];
      if op.verb == Some(CREATE) || op.verb == Some(UPDATE) || op.verb == Some(EXECUTE) {
        var value := Jsono(op.value, op.options);
        jsonOp := jsonOp["value" := value];
      }
      var options := op.options - {"cacheResults", "preferCache"};
      if options != map[] {
        jsonOp := jsonOp["options" := Rec(options)];
      }
      jsonOp := jsonOp["params" := op.params];
      result := result + [Rec(jsonOp)];
    }
    assert result == JsonOps(ViewsOf(ops));
  }

  // ---------------------------------------------------------------------------
  // interpretXhrError
  // ---------------------------------------------------------------------------

  /** What the provider reads of a finished XMLHttpRequest. */
  datatype Xhr = Xhr(status: int, statusText: string, responseText: Value, headers: Value)

  /** `s.replace(' ', '')`: a string pattern replaces its first occurrence only. */
  function RemoveFirstSpace(s: string): (r: string)
    ensures ' ' !in s ==> r == s
    ensures ' ' in s ==> |r| == |s| - 1
  {
    if s == [] then []
    else if s[0] == ' ' then s[1..]
    else [s[0]] + RemoveFirstSpace(s[1..])
  }

  /** The first space, and only it, is cut out: what precedes it and what follows it are kept. */
  lemma {:induction false} RemoveFirstSpaceAt(s: string, i: nat)
    requires i < |s| && s[i] == ' ' && ' ' !in s[..i]
    ensures RemoveFirstSpace(s) == s[..i] + s[i + 1..]
  {
    if i > 0 {
      assert s[0] in s[..i];
      assert s[1..][..i - 1] == s[1..i];
      assert ' ' !in s[1..][..i - 1];
      RemoveFirstSpaceAt(s[1..], i - 1);
    }
  }

  const NetworkErrorMessage := "Failed to connect. Please check network or try again"
  const NetworkErrorDebugMessage := "Network connection failed"

  /**
   * `interpretXhrError(xhr)`: a `KojacError` record. A request with a (non-zero) status
   * gets that status as its HTTP code, the status text with its first space removed as its
   * kind and the status text as both messages; otherwise it is a network error with no
   * HTTP code and fixed messages.
   */
  function InterpretXhrError(xhr: Option<Xhr>): (e: Value)
    ensures e.Rec? && Lookup(e.fields, "format") == Str("KojacError")
    ensures xhr.Some? && xhr.value.status != 0 ==>
              Lookup(e.fields, "http_code") == Num(xhr.value.status)
              && Lookup(e.fields, "kind") == Str(RemoveFirstSpace(xhr.value.statusText))
              && Lookup(e.fields, "message") == Str(xhr.value.statusText)
              && Lookup(e.fields, "debug_message") == Str(xhr.value.statusText)
    ensures xhr.None? || xhr.value.status == 0 ==>
              Lookup(e.fields, "http_code") == Null
              && Lookup(e.fields, "kind") == Str("NetworkError")
              && Lookup(e.fields, "message") == Str(NetworkErrorMessage)
              && Lookup(e.fields, "debug_message") == Str(NetworkErrorDebugMessage)
  {
    var reported := xhr.Some? && xhr.value.status != 0;
    var httpCode := if reported then Num(xhr.value.status) else Null;
    var kind := if reported then Str(RemoveFirstSpace(xhr.value.statusText)) else Str("NetworkError");
    var message := if reported then Str(xhr.value.statusText) else Str(NetworkErrorMessage);
    var debug := if reported then Str(xhr.value.statusText) else Str(NetworkErrorDebugMessage);
    Rec(map["format" := Str("KojacError"), "http_code" := httpCode, "kind" := kind,
            "message" := message, "debug_message" := debug])
  }

  // ---------------------------------------------------------------------------
  // handleAjaxResponse
  // ---------------------------------------------------------------------------

  /**
   * What reaches `handleAjaxResponse` as its result: an `Error` instance (thrown while
   * parsing the reply) or any other value (the parsed reply, or the text a failed request
   * reports).
   */
  datatype AjaxResult = Failure(message: Value) | Payload(data: Value)

  /** A property of the result; an `Error` instance has only its message. */
  function ResultProp(result: AjaxResult, name: string): Value {
    match result
    case Failure(message) => if name == "message" then message else Undefined
    case Payload(data) => Prop(data, name)
  }

  /** A reply with no value at all (`undefined` or `null`): reading its `error` throws. */
  predicate NoReply(result: AjaxResult) {
    result.Payload? && (result.data.Undefined? || result.data.Null?)
  }

  /** The whole exchange failed: an `Error`, or an error reported without any `ops`. */
  predicate ExchangeFailed(result: AjaxResult) {
    result.Failure? || (Truthy(ResultProp(result, "error")) && !Truthy(ResultProp(result, "ops")))
  }

  /** The response for the `i`-th server operation: its entry in `ops` when that is truthy, else null. */
  function OpResponse(result: AjaxResult, i: nat): (r: Value)
    ensures r == Null || Truthy(r)
  {
    var ops := ResultProp(result, "ops");
    if ops.Arr? && i < |ops.items| && Truthy(ops.items[i]) then ops.items[i] else Null
  }

  /** The error of a failed exchange, before the reply's headers and text are attached. */
  function ExchangeError(result: AjaxResult, status: string, xhr: Xhr): Value {
    if Truthy(ResultProp(result, "error")) then ResultProp(result, "error")
    else
      var e := InterpretXhrError(Some(xhr));
      if status == "parsererror" then
        Rec(e.fields["http_code" := Num(500)]["kind" := Str("parserError")]
                    ["message" := Str("A data error occurred (parserError)")]
                    ["debug_message" := ResultProp(result, "message")])
      else e
  }

  /** Setting `headers` and `response` on the error: only a record takes the properties. */
  function WithReply(e: Value, xhr: Xhr): (r: Value)
    ensures e.Rec? ==> r.Rec? && r.fields == e.fields["headers" := xhr.headers]["response" := xhr.responseText]
    ensures !e.Rec? ==> r == e
  {
    if e.Rec? then Rec(e.fields["headers" := xhr.headers]["response" := xhr.responseText]) else e
  }

  /** A server operation once the reply arrived: performed, and not from the cache. */
  function Sent(v: OpView): OpView {
    v.(performed := true, fromCache := Some(false))
  }

  /**
   * The server operations after `handleAjaxResponse`. A reply with no value leaves them
   * as they were (reading its error throws first). A failed exchange marks them all
   * performed. A reply with an error marks the first one and gives it the error of its
   * entry (no error when it has none, which throws). Otherwise each one receives its entry.
   */
  function Distributed(views: seq<OpView>, result: AjaxResult): (r: seq<OpView>) {
    if NoReply(result) then views
    else if ExchangeFailed(result) then seq(|views|, i requires 0 <= i < |views| => Sent(views[i]))
    else if Truthy(ResultProp(result, "error")) then
      if views == [] then []
      else if OpResponse(result, 0) == Null then [Sent(views[0])] + views[1..]
      else [Sent(views[0]).(error := Prop(OpResponse(result, 0), "error"))] + views[1..]
    else seq(|views|, i requires 0 <= i < |views| => Received(Sent(views[i]), OpResponse(result, i)))
  }

  /**
   * Which server operations the reply reaches: none for a reply with no value; all of
   * them, except after a reply with an error, which reaches only the first; the others
   * are left exactly as they were.
   */
  lemma DistributedReaches(views: seq<OpView>, result: AjaxResult, i: nat)
    requires i < |views|
    ensures |Distributed(views, result)| == |views|
    ensures NoReply(result) ==> Distributed(views, result)[i] == views[i]
    ensures !NoReply(result) && (ExchangeFailed(result) || !Truthy(ResultProp(result, "error")) || i == 0) ==>
              Distributed(views, result)[i].performed && Distributed(views, result)[i].fromCache == Some(false)
    ensures !ExchangeFailed(result) && Truthy(ResultProp(result, "error")) && i > 0 ==>
              Distributed(views, result)[i] == views[i]
  {
  }

  /**
   * In a reply without an error, an operation with no truthy entry of its own records
   * "no result"; one whose entry carries an error records that error.
   */
  lemma DistributedErrors(views: seq<OpView>, result: AjaxResult, i: nat)
    requires i < |views| && !NoReply(result) && !ExchangeFailed(result) && !Truthy(ResultProp(result, "error"))
    ensures OpResponse(result, i) == Null ==> Distributed(views, result)[i].error == Str("no result")
    ensures Truthy(Prop(OpResponse(result, i), "error")) ==>
              Distributed(views, result)[i].error == Prop(OpResponse(result, i), "error")
    ensures OpResponse(result, i) != Null && !Truthy(Prop(OpResponse(result, i), "error")) ==>
              Distributed(views, result)[i].error == views[i].error
  {
  }

  /**
   * `handleAjaxResponse(result, status, xhr)` for the server operations `serverOps` of
   * `req`. A reply with no value throws on reading its error before anything changes.
   * A failed exchange sets the request's error (the reply's own error, or the
   * interpreted XHR error, adjusted for a parse error), attaches the reply's headers and
   * text, marks every server operation performed and hands the error to `handleError`.
   * Otherwise each server operation is marked and receives its entry of `ops`, except that
   * a reply carrying an error gives the first one its entry's error, hands that to
   * `handleError` and stops; with no entry there, reading its error throws.
   */
  method HandleAjaxResponse(req: Request, serverOps: seq<Operation>, result: AjaxResult, status: string, xhr: Xhr)
    returns (c: Completion<()>)
    requires req.handlers.Valid() && req.handlers.context == req
    requires forall i, j :: 0 <= i < j < |serverOps| ==> serverOps[i] != serverOps[j]
    modifies req`error, req.handlers, set o | o in serverOps
    ensures forall i :: 0 <= i < |serverOps| ==> serverOps[i].View() == Distributed(old(ViewsOf(serverOps)), result)[i]
    ensures ExchangeFailed(result) ==>
              c.Normal? && req.error == WithReply(ExchangeError(result, status, xhr), xhr)
              && req.handlers.deferred == Reject(old(req.handlers.deferred))
    ensures !ExchangeFailed(result) && Truthy(ResultProp(result, "error")) && serverOps != [] && OpResponse(result, 0) != Null ==>
              c.Normal? && req.error == Prop(OpResponse(result, 0), "error")
              && req.handlers.deferred == Reject(old(req.handlers.deferred))
    ensures !ExchangeFailed(result) && Truthy(ResultProp(result, "error")) && serverOps != [] && OpResponse(result, 0) == Null ==>
              c.Threw? && req.error == old(req.error) && req.handlers.deferred == old(req.handlers.deferred)
    ensures NoReply(result) ==> c.Threw? && req.error == old(req.error) && req.handlers.deferred == old(req.handlers.deferred)
    ensures !NoReply(result) && !ExchangeFailed(result) && (!Truthy(ResultProp(result, "error")) || serverOps == []) ==>
              c.Normal? && req.error == old(req.error) && req.handlers.deferred == old(req.handlers.deferred)
    ensures req.handlers.Valid() && req.handlers.context == req
    ensures req.handlers.handlers == old(req.handlers.handlers) && req.handlers.nextHandlerIndex == old(req.handlers.nextHandlerIndex)
    ensures req.handlers.scheduled == old(req.handlers.scheduled) && req.handlers.waitForCallNext == old(req.handlers.waitForCallNext)
    ensures req.handlers.parameters == old(req.handlers.parameters) && req.handlers.thises == old(req.handlers.thises)
  {
    if NoReply(result) {
      var kind := if result.data.Null? then "null" else "undefined";
      return Threw(ErrorObject("TypeError", "Cannot read properties of " + kind + " (reading 'error')"));
    }
    c := HandleReply(req, serverOps, result, status, xhr);
  }

  /** `handleAjaxResponse` for a reply whose properties can be read. */
  method HandleReply(req: Request, serverOps: seq<Operation>, result: AjaxResult, status: string, xhr: Xhr)
    returns (c: Completion<()>)
    requires req.handlers.Valid() && req.handlers.context == req
    requires forall i, j :: 0 <= i < j < |serverOps| ==> serverOps[i] != serverOps[j]
    requires !NoReply(result)
    modifies req`error, req.handlers, set o | o in serverOps
    ensures forall i :: 0 <= i < |serverOps| ==> serverOps[i].View() == Distributed(old(ViewsOf(serverOps)), result)[i]
    ensures ExchangeFailed(result) ==>
              c.Normal? && req.error == WithReply(ExchangeError(result, status, xhr), xhr)
              && req.handlers.deferred == Reject(old(req.handlers.deferred))
    ensures !ExchangeFailed(result) && Truthy(ResultProp(result, "error")) && serverOps != [] && OpResponse(result, 0) != Null ==>
              c.Normal? && req.error == Prop(OpResponse(result, 0), "error")
              && req.handlers.deferred == Reject(old(req.handlers.deferred))
    ensures !ExchangeFailed(result) && Truthy(ResultProp(result, "error")) && serverOps != [] && OpResponse(result, 0) == Null ==>
              c.Threw? && req.error == old(req.error) && req.handlers.deferred == old(req.handlers.deferred)
    ensures !ExchangeFailed(result) && (!Truthy(ResultProp(result, "error")) || serverOps == []) ==>
              c.Normal? && req.error == old(req.error) && req.handlers.deferred == old(req.handlers.deferred)
    ensures req.handlers.Valid() && req.handlers.context == req
    ensures req.handlers.handlers == old(req.handlers.handlers) && req.handlers.nextHandlerIndex == old(req.handlers.nextHandlerIndex)
    ensures req.handlers.scheduled == old(req.handlers.scheduled) && req.handlers.waitForCallNext == old(req.handlers.waitForCallNext)
    ensures req.handlers.parameters == old(req.handlers.parameters) && req.handlers.thises == old(req.handlers.thises)
  {
    ghost var before := ViewsOf(serverOps);
    c := Normal(());
    if ExchangeFailed(result) {
      FailExchange(req, serverOps, before, WithReply(ExchangeError(result, status, xhr), xhr));
    } else if Truthy(ResultProp(result, "error")) {
      if serverOps != [] {
        c := FailFirst(req, serverOps[0], OpResponse(result, 0));
      }
    } else {
      ReceiveAll(serverOps, before, result);
    }
  }

  /**
   * A failed exchange: the request takes the error, every server operation is marked
   * performed, and the error goes to `handleError`.
   */
  method FailExchange(req: Request, serverOps: seq<Operation>, ghost before: seq<OpView>, e: Value)
    requires req.handlers.Valid() && req.handlers.context == req
    requires |before| == |serverOps| && forall j :: 0 <= j < |serverOps| ==> before[j] == serverOps[j].View()
    requires forall i, j :: 0 <= i < j < |serverOps| ==> serverOps[i] != serverOps[j]
    modifies req`error, req.handlers, set o | o in serverOps
    ensures forall j :: 0 <= j < |serverOps| ==> serverOps[j].View() == Sent(before[j])
    ensures req.error == e && req.handlers.deferred == Reject(old(req.handlers.deferred))
    ensures req.handlers.Valid() && req.handlers.context == req
    ensures req.handlers.handlers == old(req.handlers.handlers) && req.handlers.nextHandlerIndex == old(req.handlers.nextHandlerIndex)
    ensures req.handlers.scheduled == old(req.handlers.scheduled) && req.handlers.waitForCallNext == old(req.handlers.waitForCallNext)
    ensures req.handlers.parameters == old(req.handlers.parameters) && req.handlers.thises == old(req.handlers.thises)
  {
    req.error := e;
    MarkAll(serverOps, before);
    req.handlers.HandleError(req.error);
  }

  /**
   * A reply carrying an error: the first server operation is marked performed and takes
   * the error of its entry, which goes to `handleError`; reading the error of a missing
   * entry throws.
   */
  method FailFirst(req: Request, op: Operation, opResult: Value) returns (c: Completion<()>)
    requires req.handlers.Valid() && req.handlers.context == req
    requires opResult == Null || Truthy(opResult)
    modifies req`error, req.handlers, op
    ensures opResult == Null ==> op.View() == Sent(old(op.View())) && c.Threw?
    ensures opResult == Null ==> req.error == old(req.error) && req.handlers.deferred == old(req.handlers.deferred)
    ensures opResult != Null ==> op.View() == Sent(old(op.View())).(error := Prop(opResult, "error")) && c.Normal?
    ensures opResult != Null ==> req.error == Prop(opResult, "error") && req.handlers.deferred == Reject(old(req.handlers.deferred))
    ensures req.handlers.Valid() && req.handlers.context == req
    ensures req.handlers.handlers == old(req.handlers.handlers) && req.handlers.nextHandlerIndex == old(req.handlers.nextHandlerIndex)
    ensures req.handlers.scheduled == old(req.handlers.scheduled) && req.handlers.waitForCallNext == old(req.handlers.waitForCallNext)
    ensures req.handlers.parameters == old(req.handlers.parameters) && req.handlers.thises == old(req.handlers.thises)
  {
    op.fromCache := Some(false);
    op.performed := true;
    if opResult == Null {
      return Threw(ErrorObject("TypeError", "Cannot read properties of null (reading 'error')"));
    }
    op.error := Prop(opResult, "error");
    req.handlers.HandleError(op.error);
    c := Normal(());
  }

  /** The loop of a failed exchange: every server operation is marked performed, not from the cache. */
  method MarkAll(ops: seq<Operation>, ghost before: seq<OpView>)
    requires |before| == |ops| && forall j :: 0 <= j < |ops| ==> before[j] == ops[j].View()
    requires forall i, j :: 0 <= i < j < |ops| ==> ops[i] != ops[j]
    modifies set o | o in ops
    ensures forall j :: 0 <= j < |ops| ==> ops[j].View() == Sent(before[j])
  {
    for i := 0 to |ops|
      invariant forall j :: 0 <= j < i ==> ops[j].View() == Sent(before[j])
      invariant forall j :: i <= j < |ops| ==> ops[j].View() == before[j]
    {
      ops[i].fromCache := Some(false);
      ops[i].performed := true;
    }
  }

  /** The loop of a reply without an error: each server operation is marked and receives its entry. */
  method ReceiveAll(ops: seq<Operation>, ghost before: seq<OpView>, result: AjaxResult)
    requires |before| == |ops| && forall j :: 0 <= j < |ops| ==> before[j] == ops[j].View()
    requires forall i, j :: 0 <= i < j < |ops| ==> ops[i] != ops[j]
    modifies set o | o in ops
    ensures forall j :: 0 <= j < |ops| ==> ops[j].View() == Received(Sent(before[j]), OpResponse(result, j))
  {
    for i := 0 to |ops|
      invariant forall j :: 0 <= j < i ==> ops[j].View() == Received(Sent(before[j]), OpResponse(result, j))
      invariant forall j :: i <= j < |ops| ==> ops[j].View() == before[j]
    {
      var op := ops[i];
      var opResult := OpResponse(result, i);
      op.fromCache := Some(false);
      op.performed := true;
      op.ReceiveResult(opResult);
    }
  }

  // ---------------------------------------------------------------------------
  // handleRequest, without mock handlers and mock files
  // ---------------------------------------------------------------------------

  /** The protocol version named in every request body. */
  const ProtocolVersion := "KOJAC-1.0"

  /** `_.filterByCriteria(ops, {performed: false})`: the operations still to be performed, in order. */
  function Unperformed(ops: seq<Operation>): (r: seq<Operation>)
    reads set o | o in ops
    ensures forall o | o in r :: o in ops && !o.performed
    ensures forall o | o in ops :: !o.performed ==> o in r
    ensures (forall i, j :: 0 <= i < j < |ops| ==> ops[i] != ops[j]) ==> forall i, j :: 0 <= i < j < |r| ==> r[i] != r[j]
    decreases |ops|
  {
    if ops == [] then []
    else
      var rest := Unperformed(ops[1..]);
      assert forall o :: o in ops[1..] ==> o in ops;
      if ops[0].performed then rest
      else
        assert (forall i, j :: 0 <= i < j < |ops| ==> ops[i] != ops[j]) ==> ops[0] !in ops[1..];
        [ops[0]] + rest
  }

  /** The records sent for the operations, in order. */
  function JsonOps(views: seq<OpView>): (r: seq<Value>)
    reads set i, o | 0 <= i < |views| && o in InstancesIn(views[i].value) :: o
    ensures |r| == |views| && forall i :: 0 <= i < |views| ==> r[i] == Rec(JsonOp(views[i]))
  {
    seq(|views|, i requires 0 <= i < |views| reads set i, o | 0 <= i < |views| && o in InstancesIn(views[i].value) :: o =>
          Rec(JsonOp(views[i])))
  }

  /** The body posted for a list of operation records. */
  function RequestBody(opsJson: seq<Value>): (body: Value)
    ensures Prop(body, "kojac").Rec? && Prop(Prop(body, "kojac"), "version") == Str(ProtocolVersion)
    ensures Prop(Prop(body, "kojac"), "ops") == Arr(opsJson)
  {
    Rec(map["kojac" := Rec(map["version" := Str(ProtocolVersion), "ops" := Arr(opsJson)])])
  }

  /**
   * The synchronous part of `handleRequest`: when some operation is not yet performed, the
   * stack is told to wait for `callNext` and the body for those operations, in order, is
   * what is posted; when all are performed nothing is sent and nothing changes.
   */
  method SendRequest(req: Request) returns (body: Option<Value>, serverOps: seq<Operation>)
    modifies req.handlers`waitForCallNext
    ensures serverOps == old(Unperformed(req.ops))
    ensures serverOps == [] ==> body.None? && req.handlers.waitForCallNext == old(req.handlers.waitForCallNext)
    ensures serverOps != [] ==> body == Some(RequestBody(JsonOps(ViewsOf(serverOps)))) && req.handlers.waitForCallNext
  {
    serverOps := Unperformed(req.ops);
    if |serverOps| == 0 {
      return None, serverOps;
    }
    // The flag is set before the body is built rather than after: building it reads only
    // the operations, so the order does not matter.
    req.handlers.waitForCallNext := true;
    var opsJson := OperationsToJson(serverOps);
    body := Some(RequestBody(opsJson));
  }

  /** Whether `handleAjaxResponse` throws: on a reply with no value, or on a reply error whose first entry is missing. */
  predicate HandlingThrows(result: AjaxResult, n: nat) {
    NoReply(result) || (!ExchangeFailed(result) && Truthy(ResultProp(result, "error")) && n > 0 && OpResponse(result, 0) == Null)
  }

  /** Whether the reply goes through `handleError`. */
  predicate ReportsError(result: AjaxResult, n: nat) {
    ExchangeFailed(result) || (Truthy(ResultProp(result, "error")) && n > 0 && OpResponse(result, 0) != Null)
  }

  /**
   * The `done`/`fail` callback of the posted request: `handleAjaxResponse`, then
   * `callNext`. When reading the error of a reply with no value, or of a missing entry,
   * throws, `callNext` is never reached and the stack is left waiting.
   */
  method ReceiveResponse(req: Request, serverOps: seq<Operation>, result: AjaxResult, status: string, xhr: Xhr)
    returns (c: Completion<()>)
    requires req.handlers.Valid() && req.handlers.context == req
    requires forall i, j :: 0 <= i < j < |serverOps| ==> serverOps[i] != serverOps[j]
    modifies req`error, req.handlers, set o | o in serverOps
    ensures forall i :: 0 <= i < |serverOps| ==> serverOps[i].View() == Distributed(old(ViewsOf(serverOps)), result)[i]
    ensures c.Threw? <==> HandlingThrows(result, |serverOps|)
    ensures c.Threw? ==> req.error == old(req.error) && req.handlers.deferred == old(req.handlers.deferred)
                         && req.handlers.scheduled == old(req.handlers.scheduled)
    ensures c.Normal? && Truthy(req.error) ==>
              req.handlers.deferred == Reject(old(req.handlers.deferred)) && req.handlers.scheduled == old(req.handlers.scheduled)
    ensures c.Normal? && !Truthy(req.error) && old(req.handlers.nextHandlerIndex) >= old(|req.handlers.handlers|) ==>
              req.handlers.scheduled == old(req.handlers.scheduled)
              && req.handlers.deferred == Resolve(if ReportsError(result, |serverOps|) then Reject(old(req.handlers.deferred)) else old(req.handlers.deferred))
    ensures c.Normal? && !Truthy(req.error) && old(req.handlers.nextHandlerIndex) < old(|req.handlers.handlers|) ==>
              req.handlers.scheduled == old(req.handlers.scheduled) + [old(req.handlers.CallAt(req.handlers.nextHandlerIndex))]
              && req.handlers.deferred == (if ReportsError(result, |serverOps|) then Reject(old(req.handlers.deferred)) else old(req.handlers.deferred))
    ensures req.handlers.Valid() && req.handlers.context == req && req.handlers.handlers == old(req.handlers.handlers)
  {
    c := HandleAjaxResponse(req, serverOps, result, status, xhr);
    if c.Normal? {
      req.handlers.CallNext();
    }
  }
}
