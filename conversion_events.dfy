/** The conversion-event tools (src/tools/conversion-events.ts): list, get,
    create and delete the conversion events of a property through the Admin
    client. */
module ConversionEvents {
  import opened Common
  import opened Json
  import opened Utils
  import opened Mcp

  const ToolNames: seq<string> :=
    ["list_conversion_events", "get_conversion_event", "create_conversion_event", "delete_conversion_event"]

  function ConversionEventName(propertyId: PropId, id: string): string {
    ResourceName(InlinePropertyName(propertyId), "conversionEvents", id)
  }

  // ---------------------------------------------------------------------
  // createConversionEvent

  datatype CreateArgs = CreateArgs(
    propertyId: PropId,
    eventName: string,
    countingMethod: Option<string>,
    eventCreationParameter: Option<string>)

  function EventOptions(a: CreateArgs): seq<(string, Option<Json>)> {
    [("countingMethod", IfNonEmpty(a.countingMethod)),
     ("eventCreationParameter", IfNonEmpty(a.eventCreationParameter))]
  }

  /** The conversion event createConversionEvent sends: the event name, and
      the counting method and creation parameter when they are truthy. */
  function EventBody(a: CreateArgs): Json {
    JObj([("eventName", JStr(a.eventName))] + Fields(EventOptions(a)))
  }

  method BuildEvent(a: CreateArgs) returns (body: Json)
    ensures body == EventBody(a)
  {
    ghost var base := [("eventName", JStr(a.eventName))];
    ghost var opts := EventOptions(a);
    body := JObj([("eventName", JStr(a.eventName))]);
    assert body == JObj(base + Fields(opts[..0]));
    if a.countingMethod.Some? && a.countingMethod.value != "" {
      body := Put(body, "countingMethod", JStr(a.countingMethod.value));
    }
    AssignStep(base, opts, 0);
    if a.eventCreationParameter.Some? && a.eventCreationParameter.value != "" {
      body := Put(body, "eventCreationParameter", JStr(a.eventCreationParameter.value));
    }
    AssignStep(base, opts, 1);
    assert opts[..2] == opts;
  }

  /** The event name is always sent; the two optional fields exactly when
      they are non-empty, with the given values, and nothing else. */
  lemma EventBodySpec(a: CreateArgs)
    ensures Get(EventBody(a), "eventName") == Some(JStr(a.eventName))
    ensures Get(EventBody(a), "countingMethod") == IfNonEmpty(a.countingMethod)
    ensures Get(EventBody(a), "eventCreationParameter") == IfNonEmpty(a.eventCreationParameter)
    ensures forall k :: k != "eventName" && k != "countingMethod" && k != "eventCreationParameter" ==> !Has(EventBody(a), k)
  {
    var base := [("eventName", JStr(a.eventName))];
    var opts := EventOptions(a);
    LookupFields(base, opts, "eventName");
    LookupFields(base, opts, "countingMethod");
    LookupFields(base, opts, "eventCreationParameter");
    assert opts[0].0 == "countingMethod" && opts[1].0 == "eventCreationParameter";
    forall k | k != "eventName" && k != "countingMethod" && k != "eventCreationParameter"
      ensures Lookup(base + Fields(opts), k).None?
    {
      LookupFields(base, opts, k);
    }
  }

  // ---------------------------------------------------------------------
  // The handlers

  const ListRpc := "admin.properties.conversionEvents.list"
  const GetRpc := "admin.properties.conversionEvents.get"
  const CreateRpc := "admin.properties.conversionEvents.create"
  const DeleteRpc := "admin.properties.conversionEvents.delete"

  datatype Op =
    | List(propertyId: PropId)
    | Fetch(propertyId: PropId, conversionEventId: string)
    | Create(args: CreateArgs)
    | Delete(propertyId: PropId, conversionEventId: string)

  function PropertyOf(op: Op): PropId {
    if op.Create? then op.args.propertyId else op.propertyId
  }

  function Tag(op: Op): string {
    match op
    case List(_) => "ListConversionEventsError"
    case Fetch(_, _) => "GetConversionEventError"
    case Create(_) => "CreateConversionEventError"
    case Delete(_, _) => "DeleteConversionEventError"
  }

  function Call(op: Op): ApiCall {
    match op
    case List(p) => ParentCall(ListRpc, InlinePropertyName(p), None)
    case Fetch(p, id) => NameCall(GetRpc, ConversionEventName(p, id), None)
    case Create(a) => ParentCall(CreateRpc, InlinePropertyName(a.propertyId), Some(EventBody(a)))
    case Delete(p, id) => NameCall(DeleteRpc, ConversionEventName(p, id), None)
  }

  /** The four handlers: one request inside the normalised property; a
      delete answers `{ success: true }`; failures carry the operation's
      tag. */
  function Handle(op: Op, ready: Readiness, api: Api): (o: Outcome)
    ensures o.result.isError ==> FailedWith(o.result, Tag(op))
    ensures o.calls == if ready.Ready? then [Call(op)] else []
    ensures forall i :: 0 <= i < |o.calls| ==> Within(o.calls[i], NormalizePropertyId(PropertyOf(op)))
    ensures !o.result.isError <==> ready.Ready? && api(Call(op)).Ok?
    ensures ready.NotReady? ==> o.result == Failure(Tag(op), ready.message)
    ensures ready.Ready? && api(Call(op)).Err? ==> o.result == Failure(Tag(op), api(Call(op)).message)
    ensures !o.result.isError && !op.Delete? ==> o.result == Success(api(Call(op)).value)
    ensures op.Delete? && !o.result.isError ==> o.result == Success(SuccessFlag)
  {
    CallWithin(op);
    Forward(Tag(op), ready, Ok(Call(op)), if op.Delete? then Flag else AsReturned, api)
  }

  lemma CallWithin(op: Op)
    ensures Within(Call(op), NormalizePropertyId(PropertyOf(op)))
  {
    var pn := InlinePropertyName(PropertyOf(op));
    match op
    case List(_) => ScopeCallWithin(ListRpc, pn, None);
    case Fetch(_, id) => ResourceCallWithin(GetRpc, pn, "conversionEvents", id, None);
    case Create(a) => ScopeCallWithin(CreateRpc, pn, Some(EventBody(a)));
    case Delete(_, id) => ResourceCallWithin(DeleteRpc, pn, "conversionEvents", id, None);
  }
}
