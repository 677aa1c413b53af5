/** The key-event tools (src/tools/key-events.ts): list, get, create,
    update and archive the key events of a property through the Admin
    client. Archiving is a delete. */
module KeyEvents {
  import opened Common
  import opened Json
  import opened Utils
  import opened Mcp

  /** getPropertyName: the tool file defines its own copy of this helper,
      as does integrations.ts, rather than importing normalizePropertyId. */
  function PropertyName(id: PropId): (r: string)
    ensures r == NormalizePropertyId(id)
  {
    if id.Num? then "properties/" + Decimal(id.n)
    else if StartsWith(id.s, "properties/") then id.s
    else "properties/" + id.s
  }

  function KeyEventName(propertyId: PropId, id: string): string {
    ResourceName(PropertyName(propertyId), "keyEvents", id)
  }

  // ---------------------------------------------------------------------
  // createKeyEvent

  datatype CreateArgs = CreateArgs(
    propertyId: PropId,
    eventName: string,
    countingMethod: Option<string>,
    description: Option<string>)

  function KeyEventOptions(a: CreateArgs): seq<(string, Option<Json>)> {
    [("countingMethod", IfNonEmpty(a.countingMethod)), ("description", IfNonEmpty(a.description))]
  }

  /** The key event createKeyEvent sends: the event name, and the counting
      method and description when they are truthy. */
  function KeyEventBody(a: CreateArgs): Json {
    JObj([("eventName", JStr(a.eventName))] + Fields(KeyEventOptions(a)))
  }

  method BuildKeyEvent(a: CreateArgs) returns (body: Json)
    ensures body == KeyEventBody(a)
  {
    ghost var base := [("eventName", JStr(a.eventName))];
    ghost var opts := KeyEventOptions(a);
    body := JObj([("eventName", JStr(a.eventName))]);
    assert body == JObj(base + Fields(opts[..0]));
    if NonEmpty(a.countingMethod) {
      body := Put(body, "countingMethod", JStr(a.countingMethod.value));
    }
    AssignStep(base, opts, 0);
    if NonEmpty(a.description) {
      body := Put(body, "description", JStr(a.description.value));
    }
    AssignStep(base, opts, 1);
    assert opts[..2] == opts;
  }

  /** The event name is always sent; the counting method and description
      exactly when they are non-empty, with the given values. */
  lemma KeyEventBodySpec(a: CreateArgs)
    ensures Get(KeyEventBody(a), "eventName") == Some(JStr(a.eventName))
    ensures Get(KeyEventBody(a), "countingMethod") == IfNonEmpty(a.countingMethod)
    ensures Get(KeyEventBody(a), "description") == IfNonEmpty(a.description)
    ensures Has(KeyEventBody(a), "countingMethod") <==> NonEmpty(a.countingMethod)
    ensures Has(KeyEventBody(a), "description") <==> NonEmpty(a.description)
  {
    var base := [("eventName", JStr(a.eventName))];
    var opts := KeyEventOptions(a);
    LookupFields(base, opts, "eventName");
    LookupFields(base, opts, "countingMethod");
    LookupFields(base, opts, "description");
    assert opts[0].0 == "countingMethod" && opts[1].0 == "description";
  }

  // ---------------------------------------------------------------------
  // updateKeyEvent

  datatype UpdateArgs = UpdateArgs(
    propertyId: PropId,
    keyEventId: string,
    countingMethod: Option<string>,
    description: Option<string>)

  function UpdateMask(a: UpdateArgs): seq<string> {
    (if a.countingMethod.Some? then ["counting_method"] else [])
    + (if a.description.Some? then ["description"] else [])
  }

  function PatchOptions(a: UpdateArgs): seq<(string, Option<Json>)> {
    [("countingMethod", IfDefined(a.countingMethod)), ("description", IfDefined(a.description))]
  }

  /** The patch body: a fresh object holding the resource name and the
      provided fields, none copied from the fetched key event; and the
      mask. An empty mask is refused. */
  function KeyEventPatch(name: string, a: UpdateArgs): Result<(Json, seq<string>)> {
    if UpdateMask(a) == [] then Err("No fields provided for update")
    else Ok((JObj([("name", JStr(name))] + Fields(PatchOptions(a))), UpdateMask(a)))
  }

  method BuildKeyEventPatch(name: string, a: UpdateArgs) returns (r: Result<(Json, seq<string>)>)
    ensures r == KeyEventPatch(name, a)
  {
    ghost var base := [("name", JStr(name))];
    ghost var opts := PatchOptions(a);
    var mask: seq<string> := [];
    var body := JObj([("name", JStr(name))]);
    assert body == JObj(base + Fields(opts[..0]));
    if a.countingMethod.Some? {
      body := Put(body, "countingMethod", JStr(a.countingMethod.value));
      mask := mask + ["counting_method"];
    }
    AssignStep(base, opts, 0);
    if a.description.Some? {
      body := Put(body, "description", JStr(a.description.value));
      mask := mask + ["description"];
    }
    AssignStep(base, opts, 1);
    assert opts[..2] == opts;
    assert mask == UpdateMask(a);
    if |mask| == 0 {
      return Err("No fields provided for update");
    }
    r := Ok((body, mask));
  }

  /** "Provided" means not `undefined`: an empty string is sent and named in
      the mask. Nothing else but the resource name is sent. */
  lemma KeyEventPatchSpec(name: string, a: UpdateArgs)
    ensures KeyEventPatch(name, a).Err? <==> a.countingMethod.None? && a.description.None?
    ensures KeyEventPatch(name, a).Ok? ==>
      var body := KeyEventPatch(name, a).value.0;
      Get(body, "name") == Some(JStr(name))
      && Get(body, "countingMethod") == IfDefined(a.countingMethod)
      && Get(body, "description") == IfDefined(a.description)
      && forall k :: k != "name" && k != "countingMethod" && k != "description" ==> !Has(body, k)
  {
    var base := [("name", JStr(name))];
    var opts := PatchOptions(a);
    LookupFields(base, opts, "name");
    LookupFields(base, opts, "countingMethod");
    LookupFields(base, opts, "description");
    assert opts[0].0 == "countingMethod" && opts[1].0 == "description";
    forall k | k != "name" && k != "countingMethod" && k != "description"
      ensures Lookup(base + Fields(opts), k).None?
    {
      LookupFields(base, opts, k);
    }
  }

  /** The mask lists the provided fields in the order counting_method,
      description. */
  lemma UpdateMaskSpec(a: UpdateArgs)
    ensures ("counting_method" in UpdateMask(a) <==> a.countingMethod.Some?)
    ensures ("description" in UpdateMask(a) <==> a.description.Some?)
    ensures a.countingMethod.Some? ==> UpdateMask(a)[0] == "counting_method"
  {
  }

  /** The mask the patch sends splits back into the fields it names. */
  lemma UpdateMaskRoundTrip(a: UpdateArgs)
    requires UpdateMask(a) != []
    ensures Split(Join(UpdateMask(a), ","), ',') == UpdateMask(a)
  {
    var m := UpdateMask(a);
    assert forall k :: 0 <= k < |m| ==> ',' !in m[k];
    assert "," == [','];
    SplitJoin(m, ',');
  }

  // ---------------------------------------------------------------------
  // The handlers

  const ListRpc := "admin.properties.keyEvents.list"
  const GetRpc := "admin.properties.keyEvents.get"
  const CreateRpc := "admin.properties.keyEvents.create"
  const PatchRpc := "admin.properties.keyEvents.patch"
  const DeleteRpc := "admin.properties.keyEvents.delete"

  datatype Op =
    | List(propertyId: PropId)
    | Fetch(propertyId: PropId, keyEventId: string)
    | Create(args: CreateArgs)
    | Archive(propertyId: PropId, keyEventId: string)

  function PropertyOf(op: Op): PropId {
    if op.Create? then op.args.propertyId else op.propertyId
  }

  function Tag(op: Op): string {
    match op
    case List(_) => "ListKeyEventsError"
    case Fetch(_, _) => "GetKeyEventError"
    case Create(_) => "CreateKeyEventError"
    case Archive(_, _) => "ArchiveKeyEventError"
  }

  function Call(op: Op): ApiCall {
    match op
    case List(p) => ParentCall(ListRpc, PropertyName(p), None)
    case Fetch(p, id) => NameCall(GetRpc, KeyEventName(p, id), None)
    case Create(a) => ParentCall(CreateRpc, PropertyName(a.propertyId), Some(KeyEventBody(a)))
    case Archive(p, id) => NameCall(DeleteRpc, KeyEventName(p, id), None)
  }

  /** listKeyEvents, getKeyEvent, createKeyEvent, archiveKeyEvent. The one
      request stays inside the normalised property; archiving sends a
      delete and answers `{ success: true }`; failures carry the
      operation's tag. */
  function Handle(op: Op, ready: Readiness, api: Api): (o: Outcome)
    ensures o.result.isError ==> FailedWith(o.result, Tag(op))
    ensures o.calls == if ready.Ready? then [Call(op)] else []
    ensures forall i :: 0 <= i < |o.calls| ==> Within(o.calls[i], NormalizePropertyId(PropertyOf(op)))
    ensures op.Archive? && |o.calls| == 1 ==> o.calls[0].rpc == DeleteRpc
    ensures !o.result.isError <==> ready.Ready? && api(Call(op)).Ok?
    ensures ready.NotReady? ==> o.result == Failure(Tag(op), ready.message)
    ensures ready.Ready? && api(Call(op)).Err? ==> o.result == Failure(Tag(op), api(Call(op)).message)
    ensures !o.result.isError && !op.Archive? ==> o.result == Success(api(Call(op)).value)
    ensures op.Archive? && !o.result.isError ==> o.result == Success(SuccessFlag)
  {
    CallWithin(op);
    Forward(Tag(op), ready, Ok(Call(op)), if op.Archive? then Flag else AsReturned, api)
  }

  lemma CallWithin(op: Op)
    ensures Within(Call(op), NormalizePropertyId(PropertyOf(op)))
  {
    var pn := PropertyName(PropertyOf(op));
    match op
    case List(p) => ScopeCallWithin(ListRpc, pn, None);
    case Fetch(p, id) => ResourceCallWithin(GetRpc, pn, "keyEvents", id, None);
    case Create(a) => ScopeCallWithin(CreateRpc, pn, Some(KeyEventBody(a)));
    case Archive(p, id) => ResourceCallWithin(DeleteRpc, pn, "keyEvents", id, None);
  }

  /** updateKeyEvent's first request: the key event to be updated. */
  function UpdateFetch(a: UpdateArgs): ApiCall {
    NameCall(GetRpc, KeyEventName(a.propertyId, a.keyEventId), None)
  }

  function PatchFor(name: string, existing: Json, a: UpdateArgs): Result<ApiCall> {
    if !Truthy(existing) then Err("Key event not found: " + name)
    else
      match KeyEventPatch(name, a)
      case Err(m) => Err(m)
      case Ok((body, mask)) => Ok(PatchCall(PatchRpc, name, mask, body))
  }

  /** updateKeyEvent: the fetched key event is only checked for presence;
      the patch to the same name carries the fresh body and mask. */
  function Update(a: UpdateArgs, ready: Readiness, api: Api): (o: Outcome)
    ensures o.result.isError ==> FailedWith(o.result, "UpdateKeyEventError")
    ensures ready.NotReady? ==> o.calls == [] && o.result == Failure("UpdateKeyEventError", ready.message)
    ensures ready.Ready? && api(UpdateFetch(a)).Err? ==>
      o.calls == [UpdateFetch(a)] && o.result == Failure("UpdateKeyEventError", api(UpdateFetch(a)).message)
    ensures ready.Ready? && api(UpdateFetch(a)).Ok? && !Truthy(api(UpdateFetch(a)).value) ==>
      o.calls == [UpdateFetch(a)]
      && o.result == Failure("UpdateKeyEventError", "Key event not found: " + KeyEventName(a.propertyId, a.keyEventId))
    ensures ready.Ready? && api(UpdateFetch(a)).Ok? && Truthy(api(UpdateFetch(a)).value) ==>
      var patched := KeyEventPatch(KeyEventName(a.propertyId, a.keyEventId), a);
      (patched.Err? ==> o.calls == [UpdateFetch(a)] && o.result == Failure("UpdateKeyEventError", patched.message))
      && (patched.Ok? ==>
            var patch := PatchCall(PatchRpc, KeyEventName(a.propertyId, a.keyEventId), patched.value.1, patched.value.0);
            o.calls == [UpdateFetch(a), patch]
            && o.result == if api(patch).Ok? then Success(api(patch).value)
                           else Failure("UpdateKeyEventError", api(patch).message))
    ensures UpdateMask(a) == [] ==> o.result.isError && |o.calls| <= 1
  {
    var name := KeyEventName(a.propertyId, a.keyEventId);
    FetchThenPatch("UpdateKeyEventError", ready, UpdateFetch(a), e => PatchFor(name, e, a), api)
  }

  const ToolNames: seq<string> :=
    ["list_key_events", "get_key_event", "create_key_event", "update_key_event", "archive_key_event"]
}
