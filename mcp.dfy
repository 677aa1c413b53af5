/** The MCP result envelope that every tool handler returns, the calls a
    handler makes into the Google Analytics API clients, and the try/catch
    shape the handlers share. The API itself is not modelled: it is a
    parameter that answers each call with the response's `data` or with the
    message of the error it throws. */
module Mcp {
  import opened Common
  import opened Json
  import opened Utils

  /** A `{ type: "text", text }` content item. The text is the pretty-printed
      JSON of a payload; the payload itself stands for it here. */
  datatype Content = Text(payload: Json)

  /** MCPResult */
  datatype ToolResult = ToolResult(content: seq<Content>, isError: bool)

  /** One call into an API client: the client method, such as
      "admin.properties.keyEvents.list", and its parameter object. */
  datatype ApiCall = ApiCall(rpc: string, params: Json)

  /** What the API gives back for a call: `response.data`, or the message of
      the error the call throws. */
  type Api = ApiCall -> Result<Json>

  /** The outcome of `await ensureAnalyticsClients()` at the top of a
      handler's try block. */
  datatype Readiness = Ready | NotReady(message: string)

  /** A handler's result together with the API calls it made, in order. */
  datatype Outcome = Outcome(result: ToolResult, calls: seq<ApiCall>)

  /** `{ success: true }` */
  const SuccessFlag: Json := JObj([("success", JBool(true))])

  /** The `isError: false` result carrying one payload. */
  function Success(data: Json): ToolResult {
    ToolResult([Text(data)], false)
  }

  /** The body every handler's catch block serialises. */
  function FailurePayload(tag: string, message: string): Json {
    JObj([("success", JBool(false)), ("error", JStr(tag)), ("message", JStr(message))])
  }

  /** The `isError: true` result of a catch block. */
  function Failure(tag: string, message: string): (r: ToolResult)
    ensures FailedWith(r, tag)
    ensures Get(r.content[0].payload, "success") == Some(JBool(false))
    ensures Get(r.content[0].payload, "message") == Some(JStr(message))
  {
    var fields := FailurePayload(tag, message).fields;
    LookupIndex(fields, "error", 1);
    LookupIndex(fields, "message", 2);
    ToolResult([Text(FailurePayload(tag, message))], true)
  }

  /** An error result with one content item whose payload carries `tag` as
      its `error` field. */
  predicate FailedWith(r: ToolResult, tag: string) {
    r.isError && |r.content| == 1 && Get(r.content[0].payload, "error") == Some(JStr(tag))
  }

  /** The resource a call is addressed to: its `parent`, `name` or
      `property` parameter. */
  function Target(call: ApiCall): Option<string> {
    match Get(call.params, "parent")
    case Some(JStr(p)) => Some(p)
    case _ =>
      match Get(call.params, "name")
      case Some(JStr(n)) => Some(n)
      case _ =>
        match Get(call.params, "property")
        case Some(JStr(p)) => Some(p)
        case _ => None
  }

  /** The call is addressed to `scope` or to a resource beneath it. */
  predicate Within(call: ApiCall, scope: string) {
    Target(call).Some? && StartsWith(Target(call).value, scope)
  }

  /** A call with a `parent` (list, create) or `name` (get, delete, archive)
      parameter and an optional request body. */
  function ParentCall(rpc: string, parent: string, body: Option<Json>): ApiCall {
    ApiCall(rpc, JObj([("parent", JStr(parent))] + Field("requestBody", body)))
  }

  function NameCall(rpc: string, name: string, body: Option<Json>): ApiCall {
    ApiCall(rpc, JObj([("name", JStr(name))] + Field("requestBody", body)))
  }

  /** A patch: `{ name, updateMask: mask.join(","), requestBody }`. */
  function PatchCall(rpc: string, name: string, mask: seq<string>, body: Json): ApiCall {
    ApiCall(rpc, JObj([("name", JStr(name)), ("updateMask", JStr(Join(mask, ","))), ("requestBody", body)]))
  }

  /** How a handler turns the response data into its success payload. */
  datatype Reply =
    | AsReturned       // response.data
    | Flag             // { success: true }
    | ReturnedOrFlag   // response.data || { success: true }

  function ReplyPayload(reply: Reply, data: Json): (r: Json)
    ensures reply.Flag? ==> r == SuccessFlag
    ensures reply.AsReturned? ==> r == data
    ensures reply.ReturnedOrFlag? ==> (r == data <==> Truthy(data) || data == SuccessFlag)
    ensures reply.ReturnedOrFlag? && !Truthy(data) ==> r == SuccessFlag
  {
    match reply
    case AsReturned => data
    case Flag => SuccessFlag
    case ReturnedOrFlag => if Truthy(data) then data else SuccessFlag
  }

  /** The handler shape: inside one try block, wait for the clients, compute
      the call (which may throw), make it and serialise the reply; the catch
      block turns whatever was thrown first into an error result tagged for
      the operation. */
  function Forward(tag: string, ready: Readiness, call: Result<ApiCall>, reply: Reply, api: Api): (o: Outcome)
    ensures o.calls == if ready.Ready? && call.Ok? then [call.value] else []
    ensures !o.result.isError <==> ready.Ready? && call.Ok? && api(call.value).Ok?
    ensures o.result.isError ==> FailedWith(o.result, tag)
    ensures ready.NotReady? ==> o.result == Failure(tag, ready.message)
    ensures ready.Ready? && call.Err? ==> o.result == Failure(tag, call.message)
    ensures ready.Ready? && call.Ok? && api(call.value).Err? ==> o.result == Failure(tag, api(call.value).message)
    ensures !o.result.isError ==> o.result == Success(ReplyPayload(reply, api(call.value).value))
  {
    if ready.NotReady? then Outcome(Failure(tag, ready.message), [])
    else if call.Err? then Outcome(Failure(tag, call.message), [])
    else
      match api(call.value)
      case Err(m) => Outcome(Failure(tag, m), [call.value])
      case Ok(data) => Outcome(Success(ReplyPayload(reply, data)), [call.value])
  }

  /** The update shape: fetch the current resource, derive the patch from
      it (which may throw), then send the patch and return its response. */
  function FetchThenPatch(tag: string, ready: Readiness, fetch: ApiCall, patch: Json -> Result<ApiCall>, api: Api): (o: Outcome)
    ensures !o.result.isError <==>
      ready.Ready? && api(fetch).Ok? && patch(api(fetch).value).Ok? && api(patch(api(fetch).value).value).Ok?
    ensures o.result.isError ==> FailedWith(o.result, tag)
    ensures ready.NotReady? ==> o.calls == []
    ensures ready.Ready? ==> |o.calls| >= 1 && o.calls[0] == fetch
    ensures |o.calls| == 2 <==> ready.Ready? && api(fetch).Ok? && patch(api(fetch).value).Ok?
    ensures |o.calls| == 2 ==> o.calls[1] == patch(api(fetch).value).value
    ensures ready.Ready? && api(fetch).Ok? && patch(api(fetch).value).Err? ==>
      o.result == Failure(tag, patch(api(fetch).value).message)
    ensures !o.result.isError ==> o.result == Success(api(o.calls[1]).value)
  {
    if ready.NotReady? then Outcome(Failure(tag, ready.message), [])
    else
      match api(fetch)
      case Err(m) => Outcome(Failure(tag, m), [fetch])
      case Ok(current) =>
        match patch(current)
        case Err(m) => Outcome(Failure(tag, m), [fetch])
        case Ok(p) =>
          match api(p)
          case Err(m) => Outcome(Failure(tag, m), [fetch, p])
          case Ok(data) => Outcome(Success(data), [fetch, p])
  }

  // ---------------------------------------------------------------------
  // Properties of the shared shapes

  /** A call built with a parent or name is addressed to it. */
  lemma TargetOfBuiltCalls(rpc: string, resource: string, mask: seq<string>, body: Json)
    ensures Target(ParentCall(rpc, resource, Some(body))) == Some(resource)
    ensures Target(ParentCall(rpc, resource, None)) == Some(resource)
    ensures Target(NameCall(rpc, resource, Some(body))) == Some(resource)
    ensures Target(NameCall(rpc, resource, None)) == Some(resource)
    ensures Target(PatchCall(rpc, resource, mask, body)) == Some(resource)
  {
    LookupKeys(NameCall(rpc, resource, Some(body)).params.fields, "parent");
    LookupKeys(NameCall(rpc, resource, None).params.fields, "parent");
    LookupKeys(PatchCall(rpc, resource, mask, body).params.fields, "parent");
  }

  /** The update mask a patch sends splits back into the fields it lists. */
  lemma PatchMaskRoundTrip(rpc: string, name: string, mask: seq<string>, body: Json)
    requires |mask| >= 1
    requires forall k :: 0 <= k < |mask| ==> ',' !in mask[k]
    ensures Get(PatchCall(rpc, name, mask, body).params, "updateMask") == Some(JStr(Join(mask, ",")))
    ensures Split(Join(mask, ","), ',') == mask
  {
    LookupIndex(PatchCall(rpc, name, mask, body).params.fields, "updateMask", 1);
    assert "," == [','];
    SplitJoin(mask, ',');
  }

  /** A call addressed to a resource whose name extends `scope` is within
      `scope`. */
  lemma CallsWithin(rpc: string, scope: string, rest: string, body: Option<Json>)
    ensures Within(ParentCall(rpc, scope + rest, body), scope)
    ensures Within(NameCall(rpc, scope + rest, body), scope)
  {
    ChildWithin(scope, rest);
    var b := if body.Some? then body.value else JNull;
    TargetOfBuiltCalls(rpc, scope + rest, [], b);
  }

  /** Calls addressed to a scope, or to a child resource named under it,
      are within the scope. */
  lemma ScopeCallWithin(rpc: string, scope: string, body: Option<Json>)
    ensures Within(ParentCall(rpc, scope, body), scope)
    ensures Within(NameCall(rpc, scope, body), scope)
  {
    assert scope + "" == scope;
    CallsWithin(rpc, scope, "", body);
  }

  lemma ResourceCallWithin(rpc: string, parent: string, collection: string, id: string, body: Option<Json>)
    ensures Within(ParentCall(rpc, ResourceName(parent, collection, id), body), parent)
    ensures Within(NameCall(rpc, ResourceName(parent, collection, id), body), parent)
  {
    assert ResourceName(parent, collection, id) == parent + ("/" + collection + "/" + id);
    CallsWithin(rpc, parent, "/" + collection + "/" + id, body);
  }

  /** A call addressed to any name that starts with `scope` is within it. */
  lemma PrefixCallWithin(rpc: string, name: string, scope: string, body: Option<Json>)
    requires StartsWith(name, scope)
    ensures Within(ParentCall(rpc, name, body), scope)
    ensures Within(NameCall(rpc, name, body), scope)
  {
    TargetOfBuiltCalls(rpc, name, [], if body.Some? then body.value else JNull);
  }

  /** A resource name built under a scope is within the scope. */
  lemma {:induction false} ChildWithin(scope: string, rest: string)
    ensures StartsWith(scope + rest, scope)
  {
    assert (scope + rest)[..|scope|] == scope;
  }
}
