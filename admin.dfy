/** The property administration tools (src/tools/admin.ts): account
    summaries, property details, the custom dimensions and metrics of a
    property, and its Google Ads links, through the Admin client. */
module Admin {
  import opened Common
  import opened Json
  import opened Utils
  import opened Mcp

  /** The order in which `adminTools` declares the four tools. */
  const ToolNames: seq<string> :=
    ["get_account_summaries", "get_property_details", "get_custom_dimensions_and_metrics", "list_google_ads_links"]

  const AccountSummariesRpc := "admin.accountSummaries.list"
  const PropertyRpc := "admin.properties.get"
  const CustomDimensionsRpc := "admin.properties.customDimensions.list"
  const CustomMetricsRpc := "admin.properties.customMetrics.list"
  const GoogleAdsLinksRpc := "admin.properties.googleAdsLinks.list"

  const CustomDefinitionsTag := "CustomDefinitionsError"

  /** `list()` with no argument: the parameter object is undefined, which
      JNull stands for here. */
  const AccountSummariesCall: ApiCall := ApiCall(AccountSummariesRpc, JNull)

  /** getAccountSummaries: one parameterless call, its data returned as is. */
  function AccountSummaries(ready: Readiness, api: Api): (o: Outcome)
    ensures o.calls == if ready.Ready? then [AccountSummariesCall] else []
    ensures o.calls == [] || Target(o.calls[0]).None?
    ensures !o.result.isError <==> ready.Ready? && api(AccountSummariesCall).Ok?
    ensures !o.result.isError ==> o.result == Success(api(AccountSummariesCall).value)
    ensures o.result.isError ==> FailedWith(o.result, "AccountSummariesError")
    ensures ready.NotReady? ==> o.result == Failure("AccountSummariesError", ready.message)
    ensures ready.Ready? && api(AccountSummariesCall).Err? ==> o.result == Failure("AccountSummariesError", api(AccountSummariesCall).message)
  {
    Forward("AccountSummariesError", ready, Ok(AccountSummariesCall), AsReturned, api)
  }

  function PropertyDetailsCall(propertyId: PropId): ApiCall {
    NameCall(PropertyRpc, InlinePropertyName(propertyId), None)
  }

  /** getPropertyDetails: a get addressed to the normalised property, its
      data returned as is. */
  function PropertyDetails(propertyId: PropId, ready: Readiness, api: Api): (o: Outcome)
    ensures o.calls == if ready.Ready? then [PropertyDetailsCall(propertyId)] else []
    ensures Target(PropertyDetailsCall(propertyId)) == Some(NormalizePropertyId(propertyId))
    ensures !o.result.isError <==> ready.Ready? && api(PropertyDetailsCall(propertyId)).Ok?
    ensures !o.result.isError ==> o.result == Success(api(PropertyDetailsCall(propertyId)).value)
    ensures o.result.isError ==> FailedWith(o.result, "PropertyDetailsError")
    ensures ready.NotReady? ==> o.result == Failure("PropertyDetailsError", ready.message)
    ensures ready.Ready? && api(PropertyDetailsCall(propertyId)).Err? ==> o.result == Failure("PropertyDetailsError", api(PropertyDetailsCall(propertyId)).message)
  {
    TargetOfBuiltCalls(PropertyRpc, InlinePropertyName(propertyId), [], JNull);
    Forward("PropertyDetailsError", ready, Ok(PropertyDetailsCall(propertyId)), AsReturned, api)
  }

  function GoogleAdsLinksCall(propertyId: PropId): ApiCall {
    ParentCall(GoogleAdsLinksRpc, InlinePropertyName(propertyId), None)
  }

  /** listGoogleAdsLinks: a list under the normalised property, its data
      returned as is. */
  function GoogleAdsLinks(propertyId: PropId, ready: Readiness, api: Api): (o: Outcome)
    ensures o.calls == if ready.Ready? then [GoogleAdsLinksCall(propertyId)] else []
    ensures Target(GoogleAdsLinksCall(propertyId)) == Some(NormalizePropertyId(propertyId))
    ensures !o.result.isError <==> ready.Ready? && api(GoogleAdsLinksCall(propertyId)).Ok?
    ensures !o.result.isError ==> o.result == Success(api(GoogleAdsLinksCall(propertyId)).value)
    ensures o.result.isError ==> FailedWith(o.result, "GoogleAdsLinksError")
    ensures ready.NotReady? ==> o.result == Failure("GoogleAdsLinksError", ready.message)
    ensures ready.Ready? && api(GoogleAdsLinksCall(propertyId)).Err? ==> o.result == Failure("GoogleAdsLinksError", api(GoogleAdsLinksCall(propertyId)).message)
  {
    TargetOfBuiltCalls(GoogleAdsLinksRpc, InlinePropertyName(propertyId), [], JNull);
    Forward("GoogleAdsLinksError", ready, Ok(GoogleAdsLinksCall(propertyId)), AsReturned, api)
  }

  // ---------------------------------------------------------------------
  // getCustomDimensionsAndMetrics

  /** `data.key || []`: the field when it is truthy, otherwise an empty
      array; reading a field of a null `data` throws. */
  function OrEmptyList(data: Json, key: string): (r: Result<Json>)
    ensures r.Err? <==> data.JNull?
    ensures r.Ok? ==> Truthy(r.value) || r.value == JArr([])
    ensures r.Ok? && Get(data, key).Some? && Truthy(Get(data, key).value) ==> r.value == Get(data, key).value
    ensures r.Ok? && r.value != JArr([]) ==> Get(data, key) == Some(r.value)
  {
    if data.JNull? then Err("Cannot read properties of null (reading '" + key + "')")
    else
      match Get(data, key)
      case Some(v) => if Truthy(v) then Ok(v) else Ok(JArr([]))
      case None => Ok(JArr([]))
  }

  /** The two list calls, both addressed to the normalised property. */
  function DefinitionCalls(propertyId: PropId): seq<ApiCall> {
    var pn := InlinePropertyName(propertyId);
    [ParentCall(CustomDimensionsRpc, pn, None), ParentCall(CustomMetricsRpc, pn, None)]
  }

  /** `{ customDimensions, customMetrics }` */
  function DefinitionsPayload(dimensions: Json, metrics: Json): Json {
    JObj([("customDimensions", dimensions), ("customMetrics", metrics)])
  }

  /** Both list calls are started before either is awaited, so a ready
      handler always makes both; the first failure, taken in call order,
      is the one reported. */
  function CustomDimensionsAndMetrics(propertyId: PropId, ready: Readiness, api: Api): (o: Outcome)
    ensures o.calls == if ready.Ready? then DefinitionCalls(propertyId) else []
    ensures o.result.isError ==> FailedWith(o.result, CustomDefinitionsTag)
    ensures ready.NotReady? ==> o.result == Failure(CustomDefinitionsTag, ready.message)
    ensures ready.Ready? && api(o.calls[0]).Err? ==> o.result == Failure(CustomDefinitionsTag, api(o.calls[0]).message)
    ensures ready.Ready? && api(o.calls[0]).Ok? && api(o.calls[1]).Err? ==>
      o.result == Failure(CustomDefinitionsTag, api(o.calls[1]).message)
    ensures ready.Ready? && api(o.calls[0]).Ok? && api(o.calls[1]).Ok? && api(o.calls[0]).value.JNull? ==>
      o.result == Failure(CustomDefinitionsTag, OrEmptyList(api(o.calls[0]).value, "customDimensions").message)
    ensures ready.Ready? && api(o.calls[0]).Ok? && api(o.calls[1]).Ok? &&
            !api(o.calls[0]).value.JNull? && api(o.calls[1]).value.JNull? ==>
      o.result == Failure(CustomDefinitionsTag, OrEmptyList(api(o.calls[1]).value, "customMetrics").message)
    ensures !o.result.isError <==>
      ready.Ready? && api(o.calls[0]).Ok? && api(o.calls[1]).Ok? &&
      !api(o.calls[0]).value.JNull? && !api(o.calls[1]).value.JNull?
    ensures !o.result.isError ==> o.result == Success(DefinitionsPayload(
      OrEmptyList(api(o.calls[0]).value, "customDimensions").value,
      OrEmptyList(api(o.calls[1]).value, "customMetrics").value))
  {
    if ready.NotReady? then Outcome(Failure(CustomDefinitionsTag, ready.message), [])
    else
      var calls := DefinitionCalls(propertyId);
      match api(calls[0])
      case Err(m) => Outcome(Failure(CustomDefinitionsTag, m), calls)
      case Ok(dimensionsData) =>
        match api(calls[1])
        case Err(m) => Outcome(Failure(CustomDefinitionsTag, m), calls)
        case Ok(metricsData) =>
          match OrEmptyList(dimensionsData, "customDimensions")
          case Err(m) => Outcome(Failure(CustomDefinitionsTag, m), calls)
          case Ok(dimensions) =>
            match OrEmptyList(metricsData, "customMetrics")
            case Err(m) => Outcome(Failure(CustomDefinitionsTag, m), calls)
            case Ok(metrics) => Outcome(Success(DefinitionsPayload(dimensions, metrics)), calls)
  }

  /** The combined payload has exactly the two keys; each holds the list the
      API returned when it is truthy, and `[]` when it is missing. */
  lemma DefinitionsPayloadShape(dimensionsData: Json, metricsData: Json)
    requires !dimensionsData.JNull? && !metricsData.JNull?
    ensures Keys(DefinitionsPayload(OrEmptyList(dimensionsData, "customDimensions").value,
                                     OrEmptyList(metricsData, "customMetrics").value).fields)
            == ["customDimensions", "customMetrics"]
    ensures Get(dimensionsData, "customDimensions").None? ==>
      Get(DefinitionsPayload(OrEmptyList(dimensionsData, "customDimensions").value,
                             OrEmptyList(metricsData, "customMetrics").value), "customDimensions") == Some(JArr([]))
    ensures Get(metricsData, "customMetrics").None? ==>
      Get(DefinitionsPayload(OrEmptyList(dimensionsData, "customDimensions").value,
                             OrEmptyList(metricsData, "customMetrics").value), "customMetrics") == Some(JArr([]))
    ensures forall v :: Get(dimensionsData, "customDimensions") == Some(v) && Truthy(v) ==>
      Get(DefinitionsPayload(OrEmptyList(dimensionsData, "customDimensions").value,
                             OrEmptyList(metricsData, "customMetrics").value), "customDimensions") == Some(v)
    ensures forall v :: Get(metricsData, "customMetrics") == Some(v) && Truthy(v) ==>
      Get(DefinitionsPayload(OrEmptyList(dimensionsData, "customDimensions").value,
                             OrEmptyList(metricsData, "customMetrics").value), "customMetrics") == Some(v)
  {
    var payload := DefinitionsPayload(OrEmptyList(dimensionsData, "customDimensions").value,
                                      OrEmptyList(metricsData, "customMetrics").value);
    LookupIndex(payload.fields, "customDimensions", 0);
    LookupIndex(payload.fields, "customMetrics", 1);
  }

  /** Both list calls go to the normalised property itself. */
  lemma DefinitionCallsTarget(propertyId: PropId)
    ensures forall i :: 0 <= i < |DefinitionCalls(propertyId)| ==>
      Target(DefinitionCalls(propertyId)[i]) == Some(NormalizePropertyId(propertyId))
  {
    var pn := InlinePropertyName(propertyId);
    TargetOfBuiltCalls(CustomDimensionsRpc, pn, [], JNull);
    TargetOfBuiltCalls(CustomMetricsRpc, pn, [], JNull);
  }
}
