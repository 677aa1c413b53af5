/** The integration tools (src/tools/integrations.ts): Firebase links
    through the Admin client, BigQuery and AdSense links through the Admin
    alpha client. */
module Integrations {
  import opened Common
  import opened Json
  import opened Utils
  import opened Mcp

  const ToolNames: seq<string> :=
    ["list_firebase_links", "get_firebase_link", "create_firebase_link", "delete_firebase_link",
     "list_bigquery_links", "get_bigquery_link", "list_adsense_links", "get_adsense_link"]

  /** getPropertyName: the tool file defines its own copy of this helper,
      as does key-events.ts, rather than importing normalizePropertyId. */
  function PropertyName(id: PropId): (r: string)
    ensures r == NormalizePropertyId(id)
  {
    if id.Num? then "properties/" + Decimal(id.n)
    else if StartsWith(id.s, "properties/") then id.s
    else "properties/" + id.s
  }

  function FirebaseLinkName(p: PropId, id: string): string {
    ResourceName(PropertyName(p), "firebaseLinks", id)
  }

  function BigQueryLinkName(p: PropId, id: string): string {
    ResourceName(PropertyName(p), "bigQueryLinks", id)
  }

  function AdSenseLinkName(p: PropId, id: string): string {
    ResourceName(PropertyName(p), "adSenseLinks", id)
  }

  const FirebaseListRpc := "admin.properties.firebaseLinks.list"
  const FirebaseCreateRpc := "admin.properties.firebaseLinks.create"
  const FirebaseDeleteRpc := "admin.properties.firebaseLinks.delete"
  const BigQueryListRpc := "adminAlpha.properties.bigQueryLinks.list"
  const BigQueryGetRpc := "adminAlpha.properties.bigQueryLinks.get"
  const AdSenseListRpc := "adminAlpha.properties.adSenseLinks.list"
  const AdSenseGetRpc := "adminAlpha.properties.adSenseLinks.get"

  // ---------------------------------------------------------------------
  // getFirebaseLink: list, then find by exact name

  /** `listResponse.data.firebaseLinks || []`, then `.find`: reading the
      field of null data throws; a falsy field is an empty list, an array
      gives its elements, and any other truthy value has no `find` to
      call. */
  function ListedLinks(data: Json): Result<seq<Json>> {
    if data.JNull? then Err("Cannot read properties of null (reading 'firebaseLinks')")
    else
      match Get(data, "firebaseLinks")
      case None => Ok([])
      case Some(v) =>
        if !Truthy(v) then Ok([])
        else if v.JArr? then Ok(v.items)
        else Err("firebaseLinks.find is not a function")
  }

  predicate NamedAs(name: string, link: Json) {
    Get(link, "name") == Some(JStr(name))
  }

  const NullLinkName: string := "Cannot read properties of null (reading 'name')"

  /** `find(link => link.name === name)`: the elements are tested in order
      until one matches; reading `name` of a null element throws, and any
      other element without that name is passed over. */
  function FindLink(links: seq<Json>, name: string): (r: Result<Option<nat>>)
    ensures r.Ok? && r.value.Some? ==>
      r.value.value < |links| && NamedAs(name, links[r.value.value])
      && forall j :: 0 <= j < r.value.value ==> !NamedAs(name, links[j]) && !links[j].JNull?
    ensures r == Ok(None) ==> forall j :: 0 <= j < |links| ==> !NamedAs(name, links[j]) && !links[j].JNull?
    ensures r.Err? ==>
      r.message == NullLinkName
      && exists j :: 0 <= j < |links| && links[j].JNull? && forall k :: 0 <= k < j ==> !NamedAs(name, links[k])
  {
    if |links| == 0 then Ok(None)
    else if links[0].JNull? then Err(NullLinkName)
    else if NamedAs(name, links[0]) then Ok(Some(0))
    else
      match FindLink(links[1..], name)
      case Err(m) =>
        ghost var j :| 0 <= j < |links[1..]| && links[1..][j].JNull?
                       && forall k :: 0 <= k < j ==> !NamedAs(name, links[1..][k]);
        assert links[j + 1].JNull? && forall k :: 0 <= k < j + 1 ==> !NamedAs(name, links[k]);
        Err(m)
      case Ok(None) => Ok(None)
      case Ok(Some(i)) => Ok(Some(i + 1))
  }

  /** What getFirebaseLink makes of the list response. */
  function LinkFromList(name: string, data: Json): Result<Json> {
    match ListedLinks(data)
    case Err(m) => Err(m)
    case Ok(links) =>
      match FindLink(links, name)
      case Err(m) => Err(m)
      case Ok(None) => Err("Firebase link not found: " + name)
      case Ok(Some(i)) => Ok(links[i])
  }

  function FirebaseListCall(p: PropId): ApiCall {
    ParentCall(FirebaseListRpc, PropertyName(p), None)
  }

  /** getFirebaseLink: one list request on the property; the payload is
      what the lookup by the composed link name makes of the list response
      (see LinkFromListSpec), and every failure is tagged
      GetFirebaseLinkError. */
  function GetFirebaseLink(p: PropId, id: string, ready: Readiness, api: Api): (o: Outcome)
    ensures o.calls == if ready.Ready? then [FirebaseListCall(p)] else []
    ensures o.result.isError ==> FailedWith(o.result, "GetFirebaseLinkError")
    ensures !o.result.isError <==>
      ready.Ready? && api(FirebaseListCall(p)).Ok? && LinkFromList(FirebaseLinkName(p, id), api(FirebaseListCall(p)).value).Ok?
    ensures ready.NotReady? ==> o.result == Failure("GetFirebaseLinkError", ready.message)
    ensures ready.Ready? && api(FirebaseListCall(p)).Err? ==>
      o.result == Failure("GetFirebaseLinkError", api(FirebaseListCall(p)).message)
    ensures ready.Ready? && api(FirebaseListCall(p)).Ok? ==>
      var found := LinkFromList(FirebaseLinkName(p, id), api(FirebaseListCall(p)).value);
      o.result == if found.Ok? then Success(found.value) else Failure("GetFirebaseLinkError", found.message)
  {
    var name := FirebaseLinkName(p, id);
    var list := FirebaseListCall(p);
    if ready.NotReady? then Outcome(Failure("GetFirebaseLinkError", ready.message), [])
    else
      match api(list)
      case Err(m) => Outcome(Failure("GetFirebaseLinkError", m), [list])
      case Ok(data) =>
        match LinkFromList(name, data)
        case Err(m) => Outcome(Failure("GetFirebaseLinkError", m), [list])
        case Ok(link) => Outcome(Success(link), [list])
  }

  /** The lookup is by exact name: the first listed link so named is
      returned, provided no null element comes before it. */
  lemma LinkFromListSpec(name: string, data: Json, links: seq<Json>, i: nat)
    requires ListedLinks(data) == Ok(links)
    requires i < |links| && NamedAs(name, links[i])
    requires forall j :: 0 <= j < i ==> !NamedAs(name, links[j]) && !links[j].JNull?
    ensures LinkFromList(name, data) == Ok(links[i])
  {
  }

  /** A list with no element of that name, and no null element, gives "not
      found"; so does a response without a `firebaseLinks` field. */
  lemma NoMatchNotFound(name: string, data: Json, links: seq<Json>)
    requires ListedLinks(data) == Ok(links)
    requires forall j :: 0 <= j < |links| ==> !NamedAs(name, links[j]) && !links[j].JNull?
    ensures LinkFromList(name, data) == Err("Firebase link not found: " + name)
  {
  }

  lemma MissingListFindsNothing(name: string, data: Json)
    requires data.JObj? && !Has(data, "firebaseLinks")
    ensures LinkFromList(name, data) == Err("Firebase link not found: " + name)
  {
    NoMatchNotFound(name, data, []);
  }

  /** The two places the lookup throws a TypeError: null response data,
      and a null element reached before the match. */
  lemma NullsThrow(name: string, data: Json, links: seq<Json>, i: nat)
    ensures LinkFromList(name, JNull) == Err("Cannot read properties of null (reading 'firebaseLinks')")
    ensures ListedLinks(data) == Ok(links) && i < |links| && links[i].JNull?
            && (forall j :: 0 <= j < i ==> !NamedAs(name, links[j])) ==>
      LinkFromList(name, data) == Err(NullLinkName)
  {
  }

  // ---------------------------------------------------------------------
  // The single-request handlers

  datatype Op =
    | ListFirebase(propertyId: PropId)
    | CreateFirebase(propertyId: PropId, projectId: string)
    | DeleteFirebase(propertyId: PropId, id: string)
    | ListBigQuery(propertyId: PropId)
    | GetBigQuery(propertyId: PropId, id: string)
    | ListAdSense(propertyId: PropId)
    | GetAdSense(propertyId: PropId, id: string)

  function Tag(op: Op): string {
    match op
    case ListFirebase(_) => "ListFirebaseLinksError"
    case CreateFirebase(_, _) => "CreateFirebaseLinkError"
    case DeleteFirebase(_, _) => "DeleteFirebaseLinkError"
    case ListBigQuery(_) => "ListBigQueryLinksError"
    case GetBigQuery(_, _) => "GetBigQueryLinkError"
    case ListAdSense(_) => "ListAdSenseLinksError"
    case GetAdSense(_, _) => "GetAdSenseLinkError"
  }

  /** The created link is exactly `{ project: project_id }`. */
  function FirebaseLinkBody(projectId: string): Json {
    JObj([("project", JStr(projectId))])
  }

  function Call(op: Op): ApiCall {
    match op
    case ListFirebase(p) => ParentCall(FirebaseListRpc, PropertyName(p), None)
    case CreateFirebase(p, project) => ParentCall(FirebaseCreateRpc, PropertyName(p), Some(FirebaseLinkBody(project)))
    case DeleteFirebase(p, id) => NameCall(FirebaseDeleteRpc, FirebaseLinkName(p, id), None)
    case ListBigQuery(p) => ParentCall(BigQueryListRpc, PropertyName(p), None)
    case GetBigQuery(p, id) => NameCall(BigQueryGetRpc, BigQueryLinkName(p, id), None)
    case ListAdSense(p) => ParentCall(AdSenseListRpc, PropertyName(p), None)
    case GetAdSense(p, id) => NameCall(AdSenseGetRpc, AdSenseLinkName(p, id), None)
  }

  /** The other seven handlers: one request inside the normalised property;
      a Firebase delete answers `{ success: true }`. */
  function Handle(op: Op, ready: Readiness, api: Api): (o: Outcome)
    ensures o.result.isError ==> FailedWith(o.result, Tag(op))
    ensures o.calls == if ready.Ready? then [Call(op)] else []
    ensures forall i :: 0 <= i < |o.calls| ==> Within(o.calls[i], NormalizePropertyId(op.propertyId))
    ensures !o.result.isError <==> ready.Ready? && api(Call(op)).Ok?
    ensures ready.NotReady? ==> o.result == Failure(Tag(op), ready.message)
    ensures ready.Ready? && api(Call(op)).Err? ==> o.result == Failure(Tag(op), api(Call(op)).message)
    ensures !o.result.isError && !op.DeleteFirebase? ==> o.result == Success(api(Call(op)).value)
    ensures op.DeleteFirebase? && !o.result.isError ==> o.result == Success(SuccessFlag)
    ensures op.CreateFirebase? ==>
      Get(Call(op).params, "requestBody") == Some(JObj([("project", JStr(op.projectId))]))
  {
    CallWithin(op);
    Forward(Tag(op), ready, Ok(Call(op)), if op.DeleteFirebase? then Flag else AsReturned, api)
  }

  lemma CallWithin(op: Op)
    ensures Within(Call(op), NormalizePropertyId(op.propertyId))
    ensures op.CreateFirebase? ==>
      Get(Call(op).params, "requestBody") == Some(JObj([("project", JStr(op.projectId))]))
  {
    var pn := PropertyName(op.propertyId);
    match op
    case ListFirebase(_) => ScopeCallWithin(FirebaseListRpc, pn, None);
    case CreateFirebase(_, project) =>
      ScopeCallWithin(FirebaseCreateRpc, pn, Some(FirebaseLinkBody(project)));
      LookupIndex(Call(op).params.fields, "requestBody", 1);
    case DeleteFirebase(_, id) => ResourceCallWithin(FirebaseDeleteRpc, pn, "firebaseLinks", id, None);
    case ListBigQuery(_) => ScopeCallWithin(BigQueryListRpc, pn, None);
    case GetBigQuery(_, id) => ResourceCallWithin(BigQueryGetRpc, pn, "bigQueryLinks", id, None);
    case ListAdSense(_) => ScopeCallWithin(AdSenseListRpc, pn, None);
    case GetAdSense(_, id) => ResourceCallWithin(AdSenseGetRpc, pn, "adSenseLinks", id, None);
  }
}
