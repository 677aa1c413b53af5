/** The audience tools (src/tools/audiences.ts): list, get, create and
    archive the audiences of a property through the Admin alpha client. */
module Audiences {
  import opened Common
  import opened Json
  import opened Utils
  import opened Mcp

  const ToolNames: seq<string> := ["list_audiences", "get_audience", "create_audience", "archive_audience"]

  function AudienceName(propertyId: PropId, id: string): string {
    ResourceName(InlinePropertyName(propertyId), "audiences", id)
  }

  // ---------------------------------------------------------------------
  // createAudience

  datatype CreateArgs = CreateArgs(
    propertyId: PropId,
    displayName: string,
    description: Option<string>,
    membershipDurationDays: Option<int>,
    filterExpression: Option<Json>)

  /** `[{ filterExpression }]` when the expression is truthy. */
  function FilterClauses(o: Option<Json>): Option<Json> {
    if TruthyArg(o) then Some(JArr([JObj([("filterExpression", o.value)])])) else None
  }

  function AudienceOptions(a: CreateArgs): seq<(string, Option<Json>)> {
    [("description", IfNonEmpty(a.description)),
     ("membershipDurationDays", IfNumber(a.membershipDurationDays)),
     ("filterClauses", FilterClauses(a.filterExpression))]
  }

  /** The audience createAudience sends: the display name, then the
      description when truthy, the membership duration whenever defined and
      one filter clause when the expression is truthy. */
  function AudienceBody(a: CreateArgs): Json {
    JObj([("displayName", JStr(a.displayName))] + Fields(AudienceOptions(a)))
  }

  method BuildAudience(a: CreateArgs) returns (body: Json)
    ensures body == AudienceBody(a)
  {
    ghost var base := [("displayName", JStr(a.displayName))];
    ghost var opts := AudienceOptions(a);
    body := JObj([("displayName", JStr(a.displayName))]);
    assert FreshKeys(base, opts);
    assert body == JObj(base + Fields(opts[..0]));
    if a.description.Some? && a.description.value != "" {
      body := Put(body, "description", JStr(a.description.value));
    }
    AssignStep(base, opts, 0);
    if a.membershipDurationDays.Some? {
      body := Put(body, "membershipDurationDays", JNum(a.membershipDurationDays.value));
    }
    AssignStep(base, opts, 1);
    if a.filterExpression.Some? && Truthy(a.filterExpression.value) {
      body := Put(body, "filterClauses", JArr([JObj([("filterExpression", a.filterExpression.value)])]));
    }
    AssignStep(base, opts, 2);
    assert opts[..3] == opts;
  }

  lemma AudienceOption(a: CreateArgs, i: nat)
    requires i < |AudienceOptions(a)|
    ensures Get(AudienceBody(a), AudienceOptions(a)[i].0) == AudienceOptions(a)[i].1
  {
    var base := [("displayName", JStr(a.displayName))];
    assert FreshKeys(base, AudienceOptions(a));
    LookupFields(base, AudienceOptions(a), AudienceOptions(a)[i].0);
  }

  /** The display name is always sent; the description only when
      non-empty; the membership duration whenever defined, so 0 is sent;
      a truthy filter expression becomes exactly one filter clause wrapping
      it. */
  lemma AudienceBodySpec(a: CreateArgs)
    ensures Get(AudienceBody(a), "displayName") == Some(JStr(a.displayName))
    ensures Get(AudienceBody(a), "description") == IfNonEmpty(a.description)
    ensures Get(AudienceBody(a), "membershipDurationDays") == IfNumber(a.membershipDurationDays)
    ensures Has(AudienceBody(a), "filterClauses") <==> TruthyArg(a.filterExpression)
    ensures TruthyArg(a.filterExpression) ==>
      Get(AudienceBody(a), "filterClauses") == Some(JArr([JObj([("filterExpression", a.filterExpression.value)])]))
  {
    AudienceOption(a, 0);
    AudienceOption(a, 1);
    AudienceOption(a, 2);
  }

  /** A membership duration of zero is kept. */
  lemma ZeroDurationSent(a: CreateArgs)
    requires a.membershipDurationDays == Some(0)
    ensures Get(AudienceBody(a), "membershipDurationDays") == Some(JNum(0))
  {
    AudienceOption(a, 1);
  }

  const CreateSuggestion: string :=
    "Audience creation requires complex filter expressions. See Google Analytics API documentation for filter expression format."

  /** The catch block of createAudience adds a suggestion to the usual
      error body. */
  function CreateFailure(message: string): (r: ToolResult)
    ensures FailedWith(r, "CreateAudienceError")
    ensures Get(r.content[0].payload, "message") == Some(JStr(message))
    ensures Get(r.content[0].payload, "suggestion") == Some(JStr(CreateSuggestion))
  {
    var fields := FailurePayload("CreateAudienceError", message).fields + [("suggestion", JStr(CreateSuggestion))];
    LookupIndex(fields, "error", 1);
    LookupIndex(fields, "message", 2);
    LookupIndex(fields, "suggestion", 3);
    ToolResult([Text(JObj(fields))], true)
  }

  const ListRpc := "adminAlpha.properties.audiences.list"
  const GetRpc := "adminAlpha.properties.audiences.get"
  const CreateRpc := "adminAlpha.properties.audiences.create"
  const ArchiveRpc := "adminAlpha.properties.audiences.archive"

  function CreateCall(a: CreateArgs): ApiCall {
    ParentCall(CreateRpc, InlinePropertyName(a.propertyId), Some(AudienceBody(a)))
  }

  /** createAudience: one create request on the property with the built
      audience; every failure carries the tag and the suggestion. */
  function Create(a: CreateArgs, ready: Readiness, api: Api): (o: Outcome)
    ensures o.calls == if ready.Ready? then [CreateCall(a)] else []
    ensures forall i :: 0 <= i < |o.calls| ==> Within(o.calls[i], NormalizePropertyId(a.propertyId))
    ensures !o.result.isError <==> ready.Ready? && api(CreateCall(a)).Ok?
    ensures o.result.isError ==>
      FailedWith(o.result, "CreateAudienceError")
      && Get(o.result.content[0].payload, "suggestion") == Some(JStr(CreateSuggestion))
    ensures ready.NotReady? ==> o.result == CreateFailure(ready.message)
    ensures ready.Ready? && api(CreateCall(a)).Err? ==> o.result == CreateFailure(api(CreateCall(a)).message)
    ensures !o.result.isError ==> o.result == Success(api(CreateCall(a)).value)
  {
    ScopeCallWithin(CreateRpc, InlinePropertyName(a.propertyId), Some(AudienceBody(a)));
    if ready.NotReady? then Outcome(CreateFailure(ready.message), [])
    else
      match api(CreateCall(a))
      case Err(m) => Outcome(CreateFailure(m), [CreateCall(a)])
      case Ok(data) => Outcome(Success(data), [CreateCall(a)])
  }

  // ---------------------------------------------------------------------
  // The other handlers

  datatype Op =
    | List(propertyId: PropId)
    | Fetch(propertyId: PropId, audienceId: string)
    | Archive(propertyId: PropId, audienceId: string)

  function Tag(op: Op): string {
    match op
    case List(_) => "ListAudiencesError"
    case Fetch(_, _) => "GetAudienceError"
    case Archive(_, _) => "ArchiveAudienceError"
  }

  /** Archiving sends an empty request body. */
  function Call(op: Op): ApiCall {
    match op
    case List(p) => ParentCall(ListRpc, InlinePropertyName(p), None)
    case Fetch(p, id) => NameCall(GetRpc, AudienceName(p, id), None)
    case Archive(p, id) => NameCall(ArchiveRpc, AudienceName(p, id), Some(JObj([])))
  }

  /** listAudiences, getAudience, archiveAudience: one request inside the
      normalised property; the archive answer is the response data, or
      `{ success: true }` when that is empty. */
  function Handle(op: Op, ready: Readiness, api: Api): (o: Outcome)
    ensures o.result.isError ==> FailedWith(o.result, Tag(op))
    ensures o.calls == if ready.Ready? then [Call(op)] else []
    ensures forall i :: 0 <= i < |o.calls| ==> Within(o.calls[i], NormalizePropertyId(op.propertyId))
    ensures !o.result.isError <==> ready.Ready? && api(Call(op)).Ok?
    ensures ready.NotReady? ==> o.result == Failure(Tag(op), ready.message)
    ensures ready.Ready? && api(Call(op)).Err? ==> o.result == Failure(Tag(op), api(Call(op)).message)
    ensures !o.result.isError && !op.Archive? ==> o.result == Success(api(Call(op)).value)
    ensures op.Archive? && !o.result.isError ==>
      o.result == Success(if Truthy(api(Call(op)).value) then api(Call(op)).value else SuccessFlag)
  {
    CallWithin(op);
    Forward(Tag(op), ready, Ok(Call(op)), if op.Archive? then ReturnedOrFlag else AsReturned, api)
  }

  lemma CallWithin(op: Op)
    ensures Within(Call(op), NormalizePropertyId(op.propertyId))
  {
    var pn := InlinePropertyName(op.propertyId);
    match op
    case List(_) => ScopeCallWithin(ListRpc, pn, None);
    case Fetch(_, id) => ResourceCallWithin(GetRpc, pn, "audiences", id, None);
    case Archive(_, id) => ResourceCallWithin(ArchiveRpc, pn, "audiences", id, Some(JObj([])));
  }
}
