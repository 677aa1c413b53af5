/** The reporting tools (src/tools/reports.ts): runReport and
    runRealtimeReport build a request object from the arguments and send it
    to the Data API client. */
module Reports {
  import opened Common
  import opened Json
  import opened Utils
  import opened Mcp

  const ToolNames: seq<string> := ["run_report", "run_realtime_report"]

  /** `properties/${args.property_id}`: the prefix is added without looking
      at the ID, so an ID that already carries it is prefixed twice. */
  function ReportProperty(id: PropId): string {
    PropertiesPrefix + Utils.Text(id)
  }

  /** The template agrees with normalisation exactly when the ID is not a
      string that already starts with the prefix. */
  lemma ReportPropertyDeviation(id: PropId)
    ensures ReportProperty(id) == NormalizePropertyId(id) <==> !(id.Str? && StartsWith(id.s, PropertiesPrefix))
  {
    if id.Str? && StartsWith(id.s, PropertiesPrefix) {
      assert |ReportProperty(id)| == |PropertiesPrefix| + |NormalizePropertyId(id)|;
    }
  }

  lemma PrefixedIdDoublePrefixed()
    ensures ReportProperty(Str("properties/1")) == "properties/properties/1"
    ensures NormalizePropertyId(Str("properties/1")) == "properties/1"
  {
    assert StartsWith("properties/1", PropertiesPrefix);
  }

  // ---------------------------------------------------------------------
  // Request construction

  datatype DateRange = DateRange(startDate: string, endDate: string, name: Option<string>)

  datatype ReportArgs = ReportArgs(
    propertyId: PropId,
    dateRanges: seq<DateRange>,
    dimensions: Option<seq<string>>,
    metrics: seq<string>,
    dimensionFilter: Option<Json>,
    metricFilter: Option<Json>,
    orderBys: Option<seq<Json>>,
    limit: Option<int>,
    offset: Option<int>,
    currencyCode: Option<string>)

  datatype RealtimeArgs = RealtimeArgs(
    propertyId: PropId,
    dimensions: Option<seq<string>>,
    metrics: seq<string>,
    dimensionFilter: Option<Json>,
    metricFilter: Option<Json>,
    orderBys: Option<seq<Json>>,
    limit: Option<int>,
    offset: Option<int>)

  /** `{ startDate, endDate, name }`; an absent name is an absent key. */
  function DateRangeObject(dr: DateRange): (r: Json)
    ensures Get(r, "startDate") == Some(JStr(dr.startDate))
    ensures Get(r, "endDate") == Some(JStr(dr.endDate))
    ensures Get(r, "name") == IfDefined(dr.name)
  {
    var fields := [("startDate", JStr(dr.startDate)), ("endDate", JStr(dr.endDate))] + Field("name", IfDefined(dr.name));
    LookupIndex(fields, "endDate", 1);
    LookupConcat([("startDate", JStr(dr.startDate)), ("endDate", JStr(dr.endDate))], Field("name", IfDefined(dr.name)), "name");
    JObj(fields)
  }

  function DateRangeObjects(drs: seq<DateRange>): (r: seq<Json>)
    ensures |r| == |drs|
    ensures forall i :: 0 <= i < |drs| ==> r[i] == DateRangeObject(drs[i])
  {
    seq(|drs|, i requires 0 <= i < |drs| => DateRangeObject(drs[i]))
  }

  /** `names.map((n) => ({ name: n }))` when the list is given and non-empty. */
  function NonEmptyNames(o: Option<seq<string>>): Option<Json> {
    if o.Some? && |o.value| > 0 then Some(JArr(NameObjects(o.value))) else None
  }

  /** The optional arguments the two reports share. */
  datatype Shared = Shared(
    dimensions: Option<seq<string>>,
    dimensionFilter: Option<Json>,
    metricFilter: Option<Json>,
    orderBys: Option<seq<Json>>,
    limit: Option<int>,
    offset: Option<int>)

  function ReportShared(a: ReportArgs): Shared {
    Shared(a.dimensions, a.dimensionFilter, a.metricFilter, a.orderBys, a.limit, a.offset)
  }

  function RealtimeShared(a: RealtimeArgs): Shared {
    Shared(a.dimensions, a.dimensionFilter, a.metricFilter, a.orderBys, a.limit, a.offset)
  }

  /** The six conditional assignments both reports make, in source order:
      dimensions and orderBys as non-empty arrays, the filters when truthy,
      limit and offset when defined. */
  function WithShared(request: Json, sh: Shared): Json {
    WithPaging(WithFilters(request, sh), sh)
  }

  function WithFilters(request: Json, sh: Shared): Json {
    PutIf3(request, "dimensions", NonEmptyNames(sh.dimensions),
                    "dimensionFilter", IfTruthy(sh.dimensionFilter),
                    "metricFilter", IfTruthy(sh.metricFilter))
  }

  function WithPaging(request: Json, sh: Shared): Json {
    PutIf3(request, "orderBys", IfNonEmptyArray(sh.orderBys),
                    "limit", IfNumber(sh.limit),
                    "offset", IfNumber(sh.offset))
  }

  predicate SharedKey(k: string) {
    k == "dimensions" || k == "dimensionFilter" || k == "metricFilter"
    || k == "orderBys" || k == "limit" || k == "offset"
  }

  /** The shared assignments set each optional field exactly when its
      inclusion rule admits it ... */
  lemma WithSharedSets(request: Json, sh: Shared)
    requires request.JObj?
    requires !Has(request, "dimensions") && !Has(request, "dimensionFilter") && !Has(request, "metricFilter")
    requires !Has(request, "orderBys") && !Has(request, "limit") && !Has(request, "offset")
    ensures WithShared(request, sh).JObj?
    ensures Get(WithShared(request, sh), "dimensions") == NonEmptyNames(sh.dimensions)
    ensures Get(WithShared(request, sh), "dimensionFilter") == IfTruthy(sh.dimensionFilter)
    ensures Get(WithShared(request, sh), "metricFilter") == IfTruthy(sh.metricFilter)
    ensures Get(WithShared(request, sh), "orderBys") == IfNonEmptyArray(sh.orderBys)
    ensures Get(WithShared(request, sh), "limit") == IfNumber(sh.limit)
    ensures Get(WithShared(request, sh), "offset") == IfNumber(sh.offset)
  {
    var filtered := WithFilters(request, sh);
    var d, df, mf := NonEmptyNames(sh.dimensions), IfTruthy(sh.dimensionFilter), IfTruthy(sh.metricFilter);
    var ob, l, o := IfNonEmptyArray(sh.orderBys), IfNumber(sh.limit), IfNumber(sh.offset);
    PutIf3Sets(request, "dimensions", d, "dimensionFilter", df, "metricFilter", mf);
    PutIf3Keeps(request, "dimensions", d, "dimensionFilter", df, "metricFilter", mf, "orderBys");
    PutIf3Keeps(request, "dimensions", d, "dimensionFilter", df, "metricFilter", mf, "limit");
    PutIf3Keeps(request, "dimensions", d, "dimensionFilter", df, "metricFilter", mf, "offset");
    PutIf3Sets(filtered, "orderBys", ob, "limit", l, "offset", o);
    PutIf3Keeps(filtered, "orderBys", ob, "limit", l, "offset", o, "dimensions");
    PutIf3Keeps(filtered, "orderBys", ob, "limit", l, "offset", o, "dimensionFilter");
    PutIf3Keeps(filtered, "orderBys", ob, "limit", l, "offset", o, "metricFilter");
  }

  /** ... and leave every other property as it was. */
  lemma WithSharedKeeps(request: Json, sh: Shared, k: string)
    requires request.JObj? && !SharedKey(k)
    ensures WithShared(request, sh).JObj?
    ensures Get(WithShared(request, sh), k) == Get(request, k)
  {
    var d, df, mf := NonEmptyNames(sh.dimensions), IfTruthy(sh.dimensionFilter), IfTruthy(sh.metricFilter);
    PutIf3Keeps(request, "dimensions", d, "dimensionFilter", df, "metricFilter", mf, k);
    PutIf3Keeps(WithFilters(request, sh), "orderBys", IfNonEmptyArray(sh.orderBys), "limit", IfNumber(sh.limit),
                "offset", IfNumber(sh.offset), k);
  }

  /** The shared assignments, made one after the other on the request. */
  method AssignShared(request: Json, sh: Shared) returns (r: Json)
    ensures r == WithShared(request, sh)
  {
    r := AssignFilters(request, sh);
    r := AssignPaging(r, sh);
  }

  method AssignFilters(request: Json, sh: Shared) returns (r: Json)
    ensures r == WithFilters(request, sh)
  {
    r := request;
    if sh.dimensions.Some? && |sh.dimensions.value| > 0 {
      r := Put(r, "dimensions", JArr(NameObjects(sh.dimensions.value)));
    }
    if sh.dimensionFilter.Some? && Truthy(sh.dimensionFilter.value) {
      r := Put(r, "dimensionFilter", sh.dimensionFilter.value);
    }
    if sh.metricFilter.Some? && Truthy(sh.metricFilter.value) {
      r := Put(r, "metricFilter", sh.metricFilter.value);
    }
  }

  method AssignPaging(request: Json, sh: Shared) returns (r: Json)
    ensures r == WithPaging(request, sh)
  {
    r := request;
    if sh.orderBys.Some? && |sh.orderBys.value| > 0 {
      r := Put(r, "orderBys", JArr(sh.orderBys.value));
    }
    if sh.limit.Some? {
      r := Put(r, "limit", JNum(sh.limit.value));
    }
    if sh.offset.Some? {
      r := Put(r, "offset", JNum(sh.offset.value));
    }
  }

  // ---------------------------------------------------------------------
  // runReport

  /** The object literal runReport starts from. */
  function ReportBase(a: ReportArgs): Json {
    JObj([("property", JStr(ReportProperty(a.propertyId))),
          ("dateRanges", JArr(DateRangeObjects(a.dateRanges))),
          ("metrics", JArr(NameObjects(a.metrics)))])
  }

  /** The literal holds the property, the date ranges and the metrics ... */
  lemma ReportBaseFixed(a: ReportArgs)
    ensures Get(ReportBase(a), "property") == Some(JStr(ReportProperty(a.propertyId)))
    ensures Get(ReportBase(a), "dateRanges") == Some(JArr(DateRangeObjects(a.dateRanges)))
    ensures Get(ReportBase(a), "metrics") == Some(JArr(NameObjects(a.metrics)))
  {
    LookupIndex(ReportBase(a).fields, "dateRanges", 1);
    LookupIndex(ReportBase(a).fields, "metrics", 2);
  }

  /** ... and nothing else. */
  lemma ReportBaseAbsent(a: ReportArgs, k: string)
    requires k != "property" && k != "dateRanges" && k != "metrics"
    ensures !Has(ReportBase(a), k)
  {
    assert Keys(ReportBase(a).fields) == ["property", "dateRanges", "metrics"];
    LookupKeys(ReportBase(a).fields, k);
  }

  /** The request runReport sends as its body: the literal, the shared
      assignments, then the currency when truthy. */
  function ReportRequest(a: ReportArgs): Json {
    PutIf(WithShared(ReportBase(a), ReportShared(a)), "currencyCode", IfNonEmpty(a.currencyCode))
  }

  method BuildReportRequest(a: ReportArgs) returns (request: Json)
    ensures request == ReportRequest(a)
  {
    request := JObj([("property", JStr(PropertiesPrefix + Utils.Text(a.propertyId))),
                     ("dateRanges", JArr(DateRangeObjects(a.dateRanges))),
                     ("metrics", JArr(NameObjects(a.metrics)))]);
    request := AssignShared(request, ReportShared(a));
    if a.currencyCode.Some? && a.currencyCode.value != "" {
      request := Put(request, "currencyCode", JStr(a.currencyCode.value));
    }
  }

  /** The inclusion rules of runReport: dimensions and orderBys only as
      non-empty arrays, the filters and the currency only when truthy, limit
      and offset whenever defined (so `0` is sent). */
  lemma ReportRequestOptions(a: ReportArgs)
    ensures Get(ReportRequest(a), "dimensions") == NonEmptyNames(a.dimensions)
    ensures Get(ReportRequest(a), "dimensionFilter") == IfTruthy(a.dimensionFilter)
    ensures Get(ReportRequest(a), "metricFilter") == IfTruthy(a.metricFilter)
    ensures Get(ReportRequest(a), "orderBys") == IfNonEmptyArray(a.orderBys)
    ensures Get(ReportRequest(a), "limit") == IfNumber(a.limit)
    ensures Get(ReportRequest(a), "offset") == IfNumber(a.offset)
    ensures Get(ReportRequest(a), "currencyCode") == IfNonEmpty(a.currencyCode)
  {
    assert "dateRanges"[1] != "dimensions"[1] && "property"[0] != "orderBys"[0];
    ReportBaseAbsent(a, "dimensions");
    ReportBaseAbsent(a, "dimensionFilter");
    ReportBaseAbsent(a, "metricFilter");
    ReportBaseAbsent(a, "orderBys");
    ReportBaseAbsent(a, "limit");
    ReportBaseAbsent(a, "offset");
    ReportBaseAbsent(a, "currencyCode");
    WithCurrencySets(ReportBase(a), ReportShared(a), IfNonEmpty(a.currencyCode));
  }

  /** The shared assignments followed by the currency assignment. */
  lemma WithCurrencySets(request: Json, sh: Shared, cc: Option<Json>)
    requires request.JObj?
    requires !Has(request, "dimensions") && !Has(request, "dimensionFilter") && !Has(request, "metricFilter")
    requires !Has(request, "orderBys") && !Has(request, "limit") && !Has(request, "offset")
    requires !Has(request, "currencyCode")
    ensures Get(PutIf(WithShared(request, sh), "currencyCode", cc), "dimensions") == NonEmptyNames(sh.dimensions)
    ensures Get(PutIf(WithShared(request, sh), "currencyCode", cc), "dimensionFilter") == IfTruthy(sh.dimensionFilter)
    ensures Get(PutIf(WithShared(request, sh), "currencyCode", cc), "metricFilter") == IfTruthy(sh.metricFilter)
    ensures Get(PutIf(WithShared(request, sh), "currencyCode", cc), "orderBys") == IfNonEmptyArray(sh.orderBys)
    ensures Get(PutIf(WithShared(request, sh), "currencyCode", cc), "limit") == IfNumber(sh.limit)
    ensures Get(PutIf(WithShared(request, sh), "currencyCode", cc), "offset") == IfNumber(sh.offset)
    ensures Get(PutIf(WithShared(request, sh), "currencyCode", cc), "currencyCode") == cc
  {
    var shared := WithShared(request, sh);
    WithSharedSets(request, sh);
    assert "currencyCode"[1] != "metricFilter"[1];
    WithSharedKeeps(request, sh, "currencyCode");
    PutIfKeeps(shared, "currencyCode", cc, "dimensions");
    PutIfKeeps(shared, "currencyCode", cc, "dimensionFilter");
    PutIfKeeps(shared, "currencyCode", cc, "metricFilter");
    PutIfKeeps(shared, "currencyCode", cc, "orderBys");
    PutIfKeeps(shared, "currencyCode", cc, "limit");
    PutIfKeeps(shared, "currencyCode", cc, "offset");
    PutIfSets(shared, "currencyCode", cc);
  }

  /** The property, the date ranges and the metrics are always sent; each
      date range and each metric becomes one object, in input order. */
  lemma ReportRequestMapped(a: ReportArgs)
    ensures Get(ReportRequest(a), "property") == Some(JStr("properties/" + Utils.Text(a.propertyId)))
    ensures Get(ReportRequest(a), "dateRanges") == Some(JArr(DateRangeObjects(a.dateRanges)))
    ensures Get(ReportRequest(a), "metrics") == Some(JArr(NameObjects(a.metrics)))
    ensures |DateRangeObjects(a.dateRanges)| == |a.dateRanges| && |NameObjects(a.metrics)| == |a.metrics|
    ensures forall i :: 0 <= i < |a.dateRanges| ==>
      Get(DateRangeObjects(a.dateRanges)[i], "startDate") == Some(JStr(a.dateRanges[i].startDate))
      && Get(DateRangeObjects(a.dateRanges)[i], "endDate") == Some(JStr(a.dateRanges[i].endDate))
      && Get(DateRangeObjects(a.dateRanges)[i], "name") == IfDefined(a.dateRanges[i].name)
  {
    var base, sh, cc := ReportBase(a), ReportShared(a), IfNonEmpty(a.currencyCode);
    var shared := WithShared(base, sh);
    ReportBaseFixed(a);
    assert "dateRanges"[1] != "dimensions"[1] && "property"[0] != "orderBys"[0];
    WithSharedKeeps(base, sh, "property");
    WithSharedKeeps(base, sh, "dateRanges");
    WithSharedKeeps(base, sh, "metrics");
    PutIfKeeps(shared, "currencyCode", cc, "property");
    PutIfKeeps(shared, "currencyCode", cc, "dateRanges");
    PutIfKeeps(shared, "currencyCode", cc, "metrics");
  }

  // ---------------------------------------------------------------------
  // runRealtimeReport

  /** The request runRealtimeReport sends: the metrics and the shared
      assignments. */
  function RealtimeRequest(a: RealtimeArgs): Json {
    WithShared(RealtimeBase(a), RealtimeShared(a))
  }

  /** The object literal runRealtimeReport starts from. */
  function RealtimeBase(a: RealtimeArgs): Json {
    JObj([("metrics", JArr(NameObjects(a.metrics)))])
  }

  lemma RealtimeBaseAbsent(a: RealtimeArgs, k: string)
    requires k != "metrics"
    ensures !Has(RealtimeBase(a), k)
  {
    LookupKeys(RealtimeBase(a).fields, k);
  }

  method BuildRealtimeRequest(a: RealtimeArgs) returns (request: Json)
    ensures request == RealtimeRequest(a)
  {
    request := JObj([("metrics", JArr(NameObjects(a.metrics)))]);
    request := AssignShared(request, RealtimeShared(a));
  }

  /** The realtime request follows the same inclusion rules ... */
  lemma RealtimeRequestOptions(a: RealtimeArgs)
    ensures Get(RealtimeRequest(a), "dimensions") == NonEmptyNames(a.dimensions)
    ensures Get(RealtimeRequest(a), "dimensionFilter") == IfTruthy(a.dimensionFilter)
    ensures Get(RealtimeRequest(a), "metricFilter") == IfTruthy(a.metricFilter)
    ensures Get(RealtimeRequest(a), "orderBys") == IfNonEmptyArray(a.orderBys)
    ensures Get(RealtimeRequest(a), "limit") == IfNumber(a.limit)
    ensures Get(RealtimeRequest(a), "offset") == IfNumber(a.offset)
  {
    RealtimeBaseAbsent(a, "dimensions");
    RealtimeBaseAbsent(a, "dimensionFilter");
    RealtimeBaseAbsent(a, "metricFilter");
    RealtimeBaseAbsent(a, "orderBys");
    RealtimeBaseAbsent(a, "limit");
    RealtimeBaseAbsent(a, "offset");
    WithSharedSets(RealtimeBase(a), RealtimeShared(a));
  }

  /** ... always holds the metrics, ... */
  lemma RealtimeRequestMetrics(a: RealtimeArgs)
    ensures Get(RealtimeRequest(a), "metrics") == Some(JArr(NameObjects(a.metrics)))
  {
    WithSharedKeeps(RealtimeBase(a), RealtimeShared(a), "metrics");
  }

  /** ... and never holds date ranges, a currency or the property. */
  lemma RealtimeRequestAbsent(a: RealtimeArgs, k: string)
    requires k == "dateRanges" || k == "currencyCode" || k == "property"
    ensures !Has(RealtimeRequest(a), k)
  {
    assert "dateRanges"[1] != "dimensions"[1] && "property"[0] != "orderBys"[0] && "currencyCode"[1] != "metricFilter"[1];
    RealtimeBaseAbsent(a, k);
    WithSharedKeeps(RealtimeBase(a), RealtimeShared(a), k);
  }

  // ---------------------------------------------------------------------
  // The handlers

  const RunReportRpc := "data.properties.runReport"
  const RunRealtimeReportRpc := "data.properties.runRealtimeReport"

  /** `{ property, requestBody }` */
  function ReportCall(rpc: string, propertyId: PropId, request: Json): ApiCall {
    ApiCall(rpc, JObj([("property", JStr(ReportProperty(propertyId))), ("requestBody", request)]))
  }

  lemma ReportCallTarget(rpc: string, propertyId: PropId, request: Json)
    ensures Target(ReportCall(rpc, propertyId, request)) == Some(ReportProperty(propertyId))
  {
    LookupKeys(ReportCall(rpc, propertyId, request).params.fields, "parent");
    LookupKeys(ReportCall(rpc, propertyId, request).params.fields, "name");
  }

  /** runReport: one request on the prefixed property carrying the built
      request; the response data is the payload; failures are tagged
      ReportError. */
  function RunReport(a: ReportArgs, ready: Readiness, api: Api): (o: Outcome)
    ensures o.calls == if ready.Ready? then [ReportCall(RunReportRpc, a.propertyId, ReportRequest(a))] else []
    ensures forall i :: 0 <= i < |o.calls| ==> Target(o.calls[i]) == Some(ReportProperty(a.propertyId))
    ensures !o.result.isError <==> ready.Ready? && api(ReportCall(RunReportRpc, a.propertyId, ReportRequest(a))).Ok?
    ensures o.result.isError ==> FailedWith(o.result, "ReportError")
    ensures ready.NotReady? ==> o.result == Failure("ReportError", ready.message)
    ensures ready.Ready? && api(ReportCall(RunReportRpc, a.propertyId, ReportRequest(a))).Err? ==>
      o.result == Failure("ReportError", api(ReportCall(RunReportRpc, a.propertyId, ReportRequest(a))).message)
    ensures !o.result.isError ==> o.result == Success(api(ReportCall(RunReportRpc, a.propertyId, ReportRequest(a))).value)
  {
    var call := ReportCall(RunReportRpc, a.propertyId, ReportRequest(a));
    ReportCallTarget(RunReportRpc, a.propertyId, ReportRequest(a));
    Forward("ReportError", ready, Ok(call), AsReturned, api)
  }

  /** runRealtimeReport: the same shape, tagged RealtimeReportError. */
  function RunRealtimeReport(a: RealtimeArgs, ready: Readiness, api: Api): (o: Outcome)
    ensures o.calls == if ready.Ready? then [ReportCall(RunRealtimeReportRpc, a.propertyId, RealtimeRequest(a))] else []
    ensures forall i :: 0 <= i < |o.calls| ==> Target(o.calls[i]) == Some(ReportProperty(a.propertyId))
    ensures !o.result.isError <==> ready.Ready? && api(ReportCall(RunRealtimeReportRpc, a.propertyId, RealtimeRequest(a))).Ok?
    ensures o.result.isError ==> FailedWith(o.result, "RealtimeReportError")
    ensures ready.NotReady? ==> o.result == Failure("RealtimeReportError", ready.message)
    ensures ready.Ready? && api(ReportCall(RunRealtimeReportRpc, a.propertyId, RealtimeRequest(a))).Err? ==>
      o.result == Failure("RealtimeReportError", api(ReportCall(RunRealtimeReportRpc, a.propertyId, RealtimeRequest(a))).message)
    ensures !o.result.isError ==> o.result == Success(api(ReportCall(RunRealtimeReportRpc, a.propertyId, RealtimeRequest(a))).value)
  {
    var call := ReportCall(RunRealtimeReportRpc, a.propertyId, RealtimeRequest(a));
    ReportCallTarget(RunRealtimeReportRpc, a.propertyId, RealtimeRequest(a));
    Forward("RealtimeReportError", ready, Ok(call), AsReturned, api)
  }
}
