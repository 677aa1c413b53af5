/** The custom-definition tools (src/tools/custom-definitions.ts): create,
    update and archive the custom dimensions and custom metrics of a
    property through the Admin client. The dimension and metric update and
    archive handlers are the same code over a different collection. */
module CustomDefinitions {
  import opened Common
  import opened Json
  import opened Utils
  import opened Mcp

  const ToolNames: seq<string> :=
    ["create_custom_dimension", "update_custom_dimension", "archive_custom_dimension",
     "create_custom_metric", "update_custom_metric", "archive_custom_metric"]

  datatype Kind = Dimension | Metric

  function Collection(k: Kind): string {
    if k.Dimension? then "customDimensions" else "customMetrics"
  }

  function KindLabel(k: Kind): string {
    if k.Dimension? then "Custom dimension" else "Custom metric"
  }

  function DefinitionName(k: Kind, propertyId: PropId, id: string): string {
    ResourceName(NormalizePropertyId(propertyId), Collection(k), id)
  }

  // ---------------------------------------------------------------------
  // createCustomDimension and createCustomMetric

  datatype DimensionArgs = DimensionArgs(
    propertyId: PropId,
    parameterName: string,
    displayName: string,
    description: Option<string>,
    scope: string)

  datatype MetricArgs = MetricArgs(
    propertyId: PropId,
    parameterName: string,
    displayName: string,
    description: Option<string>,
    measurementUnit: Option<string>,
    scope: string,
    restrictedMetricType: Option<seq<string>>)

  function RequiredFields(parameterName: string, displayName: string, scope: string): seq<(string, Json)> {
    [("parameterName", JStr(parameterName)), ("displayName", JStr(displayName)), ("scope", JStr(scope))]
  }

  /** `restricted_metric_type` when it is a non-empty array. */
  function IfNonEmptyList(o: Option<seq<string>>): Option<Json> {
    if o.Some? && |o.value| > 0 then Some(StringArray(o.value)) else None
  }

  function MetricOptions(a: MetricArgs): seq<(string, Option<Json>)> {
    [("description", IfNonEmpty(a.description)),
     ("measurementUnit", IfNonEmpty(a.measurementUnit)),
     ("restrictedMetricType", IfNonEmptyList(a.restrictedMetricType))]
  }

  function DimensionBody(a: DimensionArgs): Json {
    JObj(RequiredFields(a.parameterName, a.displayName, a.scope) + Fields([("description", IfNonEmpty(a.description))]))
  }

  function MetricBody(a: MetricArgs): Json {
    JObj(RequiredFields(a.parameterName, a.displayName, a.scope) + Fields(MetricOptions(a)))
  }

  method BuildDimension(a: DimensionArgs) returns (body: Json)
    ensures body == DimensionBody(a)
  {
    ghost var base := RequiredFields(a.parameterName, a.displayName, a.scope);
    ghost var opts := [("description", IfNonEmpty(a.description))];
    body := JObj([("parameterName", JStr(a.parameterName)), ("displayName", JStr(a.displayName)), ("scope", JStr(a.scope))]);
    assert body == JObj(base + Fields(opts[..0]));
    if NonEmpty(a.description) {
      body := Put(body, "description", JStr(a.description.value));
    }
    AssignStep(base, opts, 0);
    assert opts[..1] == opts;
  }

  method BuildMetric(a: MetricArgs) returns (body: Json)
    ensures body == MetricBody(a)
  {
    ghost var base := RequiredFields(a.parameterName, a.displayName, a.scope);
    ghost var opts := MetricOptions(a);
    body := JObj([("parameterName", JStr(a.parameterName)), ("displayName", JStr(a.displayName)), ("scope", JStr(a.scope))]);
    assert body == JObj(base + Fields(opts[..0]));
    if NonEmpty(a.description) {
      body := Put(body, "description", JStr(a.description.value));
    }
    AssignStep(base, opts, 0);
    if NonEmpty(a.measurementUnit) {
      body := Put(body, "measurementUnit", JStr(a.measurementUnit.value));
    }
    AssignStep(base, opts, 1);
    if a.restrictedMetricType.Some? && |a.restrictedMetricType.value| > 0 {
      body := Put(body, "restrictedMetricType", StringArray(a.restrictedMetricType.value));
    }
    AssignStep(base, opts, 2);
    assert opts[..3] == opts;
  }

  /** A created dimension always names its parameter, display name and
      scope; the description is sent only when it is non-empty. */
  lemma DimensionBodySpec(a: DimensionArgs)
    ensures Get(DimensionBody(a), "parameterName") == Some(JStr(a.parameterName))
    ensures Get(DimensionBody(a), "displayName") == Some(JStr(a.displayName))
    ensures Get(DimensionBody(a), "scope") == Some(JStr(a.scope))
    ensures Get(DimensionBody(a), "description") == IfNonEmpty(a.description)
  {
    var base := RequiredFields(a.parameterName, a.displayName, a.scope);
    var opts := [("description", IfNonEmpty(a.description))];
    LookupFields(base, opts, "parameterName");
    LookupFields(base, opts, "displayName");
    LookupFields(base, opts, "scope");
    LookupFields(base, opts, "description");
    LookupIndex(base, "displayName", 1);
    LookupIndex(base, "scope", 2);
  }

  /** In a created metric the description and measurement unit are sent
      only when non-empty, and the restricted metric types only as a
      non-empty array, element for element. */
  lemma MetricBodySpec(a: MetricArgs)
    ensures Get(MetricBody(a), "parameterName") == Some(JStr(a.parameterName))
    ensures Get(MetricBody(a), "scope") == Some(JStr(a.scope))
    ensures Get(MetricBody(a), "description") == IfNonEmpty(a.description)
    ensures Get(MetricBody(a), "measurementUnit") == IfNonEmpty(a.measurementUnit)
    ensures Has(MetricBody(a), "restrictedMetricType") <==>
      a.restrictedMetricType.Some? && |a.restrictedMetricType.value| > 0
    ensures Has(MetricBody(a), "restrictedMetricType") ==>
      var v := Get(MetricBody(a), "restrictedMetricType").value;
      v.JArr? && |v.items| == |a.restrictedMetricType.value|
      && forall i :: 0 <= i < |v.items| ==> v.items[i] == JStr(a.restrictedMetricType.value[i])
  {
    var base := RequiredFields(a.parameterName, a.displayName, a.scope);
    var opts := MetricOptions(a);
    LookupFields(base, opts, "parameterName");
    LookupFields(base, opts, "scope");
    LookupFields(base, opts, "description");
    LookupFields(base, opts, "measurementUnit");
    LookupFields(base, opts, "restrictedMetricType");
    LookupIndex(base, "scope", 2);
    assert opts[0].0 == "description" && opts[1].0 == "measurementUnit" && opts[2].0 == "restrictedMetricType";
  }

  // ---------------------------------------------------------------------
  // updateCustomDimension and updateCustomMetric

  datatype UpdateArgs = UpdateArgs(
    propertyId: PropId,
    id: string,
    displayName: Option<string>,
    description: Option<string>)

  function UpdateMask(a: UpdateArgs): seq<string> {
    (if a.displayName.Some? then ["display_name"] else [])
    + (if a.description.Some? then ["description"] else [])
  }

  /** The fetched definition with the provided fields overwritten, and the
      mask; an empty mask is refused. */
  function UpdatedDefinition(existing: Json, a: UpdateArgs): Result<(Json, seq<string>)> {
    if UpdateMask(a) == [] then Err("No fields provided for update")
    else Ok((PutIf(PutIf(existing, "displayName", IfDefined(a.displayName)), "description", IfDefined(a.description)),
             UpdateMask(a)))
  }

  method ApplyUpdate(existing: Json, a: UpdateArgs) returns (r: Result<(Json, seq<string>)>)
    ensures r == UpdatedDefinition(existing, a)
  {
    var definition := existing;
    var mask: seq<string> := [];
    if a.displayName.Some? {
      definition := Put(definition, "displayName", JStr(a.displayName.value));
      mask := mask + ["display_name"];
    }
    assert definition == PutIf(existing, "displayName", IfDefined(a.displayName));
    if a.description.Some? {
      definition := Put(definition, "description", JStr(a.description.value));
      mask := mask + ["description"];
    }
    assert mask == UpdateMask(a);
    if |mask| == 0 {
      return Err("No fields provided for update");
    }
    r := Ok((definition, mask));
  }

  /** An update overwrites only the display name and description of the
      fetched definition, an empty string counting as provided; every other
      field is sent back as fetched. */
  lemma UpdatedDefinitionFields(existing: Json, a: UpdateArgs)
    requires existing.JObj?
    requires UpdatedDefinition(existing, a).Ok?
    ensures var d := UpdatedDefinition(existing, a).value.0;
      Get(d, "displayName") == (if a.displayName.Some? then IfDefined(a.displayName) else Get(existing, "displayName"))
      && Get(d, "description") == (if a.description.Some? then IfDefined(a.description) else Get(existing, "description"))
      && forall k :: k != "displayName" && k != "description" ==> Get(d, k) == Get(existing, k)
  {
    var named := PutIf(existing, "displayName", IfDefined(a.displayName));
    assert UpdatedDefinition(existing, a).value.0 == PutIf(named, "description", IfDefined(a.description));
    PutIfReads(existing, "displayName", IfDefined(a.displayName));
    PutIfReads(named, "description", IfDefined(a.description));
  }

  /** The mask is refused only when both fields are `undefined`; it lists
      display_name before description. */
  lemma UpdateMaskSpec(a: UpdateArgs)
    ensures UpdateMask(a) == [] <==> a.displayName.None? && a.description.None?
    ensures ("display_name" in UpdateMask(a) <==> a.displayName.Some?)
    ensures ("description" in UpdateMask(a) <==> a.description.Some?)
    ensures a.displayName.Some? ==> UpdateMask(a)[0] == "display_name"
  {
  }

  /** The mask the patch sends splits back into the fields it names. */
  lemma UpdateMaskRoundTrip(a: UpdateArgs)
    requires UpdateMask(a) != []
    ensures Split(Join(UpdateMask(a), ","), ',') == UpdateMask(a)
  {
    var m := UpdateMask(a);
    assert forall k :: 0 <= k < |m| ==> ',' !in m[k];
    assert "," == [','];
    SplitJoin(m, ',');
  }

  // ---------------------------------------------------------------------
  // The handlers

  function Rpc(k: Kind, verb: string): string {
    "admin.properties." + Collection(k) + "." + verb
  }

  datatype Op =
    | CreateDimension(dimension: DimensionArgs)
    | CreateMetric(metric: MetricArgs)
    | Archive(kind: Kind, propertyId: PropId, id: string)

  function PropertyOf(op: Op): PropId {
    match op
    case CreateDimension(a) => a.propertyId
    case CreateMetric(a) => a.propertyId
    case Archive(_, p, _) => p
  }

  function Tag(op: Op): string {
    match op
    case CreateDimension(_) => "CreateCustomDimensionError"
    case CreateMetric(_) => "CreateCustomMetricError"
    case Archive(k, _, _) => if k.Dimension? then "ArchiveCustomDimensionError" else "ArchiveCustomMetricError"
  }

  function UpdateTag(k: Kind): string {
    if k.Dimension? then "UpdateCustomDimensionError" else "UpdateCustomMetricError"
  }

  function Call(op: Op): ApiCall {
    match op
    case CreateDimension(a) => ParentCall(Rpc(Dimension, "create"), NormalizePropertyId(a.propertyId), Some(DimensionBody(a)))
    case CreateMetric(a) => ParentCall(Rpc(Metric, "create"), NormalizePropertyId(a.propertyId), Some(MetricBody(a)))
    case Archive(k, p, id) => NameCall(Rpc(k, "archive"), DefinitionName(k, p, id), Some(JObj([])))
  }

  /** createCustomDimension, createCustomMetric and the two archive
      handlers. Archiving sends an empty request body and answers with the
      response data, or `{ success: true }` when that is falsy. */
  function Handle(op: Op, ready: Readiness, api: Api): (o: Outcome)
    ensures o.result.isError ==> FailedWith(o.result, Tag(op))
    ensures o.calls == if ready.Ready? then [Call(op)] else []
    ensures forall i :: 0 <= i < |o.calls| ==> Within(o.calls[i], NormalizePropertyId(PropertyOf(op)))
    ensures !o.result.isError <==> ready.Ready? && api(Call(op)).Ok?
    ensures ready.NotReady? ==> o.result == Failure(Tag(op), ready.message)
    ensures ready.Ready? && api(Call(op)).Err? ==> o.result == Failure(Tag(op), api(Call(op)).message)
    ensures !o.result.isError && !op.Archive? ==> o.result == Success(api(Call(op)).value)
    ensures op.Archive? && !o.result.isError ==>
      o.result == Success(if Truthy(api(Call(op)).value) then api(Call(op)).value else SuccessFlag)
  {
    CallWithin(op);
    Forward(Tag(op), ready, Ok(Call(op)), if op.Archive? then ReturnedOrFlag else AsReturned, api)
  }

  lemma CallWithin(op: Op)
    ensures Within(Call(op), NormalizePropertyId(PropertyOf(op)))
  {
    var pn := NormalizePropertyId(PropertyOf(op));
    match op
    case CreateDimension(a) => ScopeCallWithin(Rpc(Dimension, "create"), pn, Some(DimensionBody(a)));
    case CreateMetric(a) => ScopeCallWithin(Rpc(Metric, "create"), pn, Some(MetricBody(a)));
    case Archive(k, p, id) => ResourceCallWithin(Rpc(k, "archive"), pn, Collection(k), id, Some(JObj([])));
  }

  /** The first request of an update: the definition to be updated. */
  function UpdateFetch(k: Kind, a: UpdateArgs): ApiCall {
    NameCall(Rpc(k, "get"), DefinitionName(k, a.propertyId, a.id), None)
  }

  function PatchFor(k: Kind, name: string, existing: Json, a: UpdateArgs): Result<ApiCall> {
    if !Truthy(existing) then Err(KindLabel(k) + " not found: " + name)
    else
      match UpdatedDefinition(existing, a)
      case Err(m) => Err(m)
      case Ok((d, mask)) => Ok(PatchCall(Rpc(k, "patch"), name, mask, d))
  }

  /** updateCustomDimension and updateCustomMetric: fetch, overwrite the
      provided fields in the fetched object, patch it back under the same
      name. */
  function Update(k: Kind, a: UpdateArgs, ready: Readiness, api: Api): (o: Outcome)
    ensures o.result.isError ==> FailedWith(o.result, UpdateTag(k))
    ensures ready.NotReady? ==> o.calls == [] && o.result == Failure(UpdateTag(k), ready.message)
    ensures ready.Ready? && api(UpdateFetch(k, a)).Err? ==>
      o.calls == [UpdateFetch(k, a)] && o.result == Failure(UpdateTag(k), api(UpdateFetch(k, a)).message)
    ensures ready.Ready? && api(UpdateFetch(k, a)).Ok? && !Truthy(api(UpdateFetch(k, a)).value) ==>
      o.calls == [UpdateFetch(k, a)]
      && o.result == Failure(UpdateTag(k), KindLabel(k) + " not found: " + DefinitionName(k, a.propertyId, a.id))
    ensures ready.Ready? && api(UpdateFetch(k, a)).Ok? && Truthy(api(UpdateFetch(k, a)).value) ==>
      var updated := UpdatedDefinition(api(UpdateFetch(k, a)).value, a);
      (updated.Err? ==> o.calls == [UpdateFetch(k, a)] && o.result == Failure(UpdateTag(k), updated.message))
      && (updated.Ok? ==>
            var patch := PatchCall(Rpc(k, "patch"), DefinitionName(k, a.propertyId, a.id), updated.value.1, updated.value.0);
            o.calls == [UpdateFetch(k, a), patch]
            && o.result == if api(patch).Ok? then Success(api(patch).value)
                           else Failure(UpdateTag(k), api(patch).message))
    ensures UpdateMask(a) == [] ==> o.result.isError && |o.calls| <= 1
  {
    var name := DefinitionName(k, a.propertyId, a.id);
    FetchThenPatch(UpdateTag(k), ready, UpdateFetch(k, a), e => PatchFor(k, name, e, a), api)
  }
}
