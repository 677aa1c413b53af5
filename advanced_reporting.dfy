/** The advanced reporting tools (src/tools/advanced-reporting.ts): a batch
    of reports, a pivot report and a compatibility check, each sent as one
    request on the property. */
module AdvancedReporting {
  import opened Common
  import opened Json
  import opened Utils
  import opened Mcp
  import opened Reports

  const ToolNames: seq<string> := ["batch_run_reports", "run_pivot_report", "check_compatibility"]

  const BatchRunReportsRpc := "data.properties.batchRunReports"
  const RunPivotReportRpc := "data.properties.runPivotReport"
  const CheckCompatibilityRpc := "data.properties.checkCompatibility"

  /** `{ property, requestBody }` with the property name as computed. */
  function PropertyCall(rpc: string, property: Result<string>, body: Json): (r: Result<ApiCall>)
    ensures r.Ok? <==> property.Ok?
    ensures r.Ok? ==> Target(r.value) == Some(property.value) && Get(r.value.params, "requestBody") == Some(body)
  {
    match property
    case Err(m) => Err(m)
    case Ok(pn) =>
      var fields := [("property", JStr(pn)), ("requestBody", body)];
      LookupKeys(fields, "parent");
      LookupKeys(fields, "name");
      LookupIndex(fields, "requestBody", 1);
      Ok(ApiCall(rpc, JObj(fields)))
  }

  // ---------------------------------------------------------------------
  // batchRunReports: a nested map over the requests

  datatype BatchItem = BatchItem(
    dateRanges: seq<DateRange>,
    dimensions: Option<seq<string>>,
    metrics: seq<string>,
    dimensionFilter: Option<Json>,
    metricFilter: Option<Json>,
    orderBys: Option<seq<Json>>,
    limit: Option<int>,
    offset: Option<int>)

  datatype BatchArgs = BatchArgs(propertyId: PropId, requests: seq<BatchItem>)

  /** The properties of each mapped request after `dateRanges` and
      `metrics`, in literal order; the ones whose value is `undefined` do
      not reach the wire. */
  function BatchOptions(req: BatchItem): seq<(string, Option<Json>)> {
    [("dimensions", NonEmptyNames(req.dimensions)),
     ("dimensionFilter", req.dimensionFilter),
     ("metricFilter", req.metricFilter),
     ("orderBys", IfArray(req.orderBys)),
     ("limit", IfNumber(req.limit)),
     ("offset", IfNumber(req.offset))]
  }

  function BatchBase(req: BatchItem): seq<(string, Json)> {
    [("dateRanges", JArr(DateRangeObjects(req.dateRanges))), ("metrics", JArr(NameObjects(req.metrics)))]
  }

  /** The object literal one batch entry maps to. */
  function BatchItemObject(req: BatchItem): Json {
    JObj(BatchBase(req) + Fields(BatchOptions(req)))
  }

  /** `args.requests.map(...)` */
  function BatchRequests(reqs: seq<BatchItem>): (r: seq<Json>)
    ensures |r| == |reqs|
    ensures forall i :: 0 <= i < |reqs| ==> r[i] == BatchItemObject(reqs[i])
  {
    seq(|reqs|, i requires 0 <= i < |reqs| => BatchItemObject(reqs[i]))
  }

  lemma BatchKeysFresh(req: BatchItem)
    ensures FreshKeys(BatchBase(req), BatchOptions(req))
  {
    var opts := BatchOptions(req);
    assert "dateRanges"[1] != "dimensions"[1];
    assert Keys(BatchBase(req)) == ["dateRanges", "metrics"];
    assert forall i :: 0 <= i < |opts| ==> opts[i].0 in {"dimensions", "dimensionFilter", "metricFilter", "orderBys", "limit", "offset"};
  }

  /** Reading an optional property of a mapped request gives its value. */
  lemma BatchItemOption(req: BatchItem, i: nat)
    requires i < |BatchOptions(req)|
    ensures Get(BatchItemObject(req), BatchOptions(req)[i].0) == BatchOptions(req)[i].1
  {
    BatchKeysFresh(req);
    LookupFields(BatchBase(req), BatchOptions(req), BatchOptions(req)[i].0);
  }

  /** Each mapped request carries its date ranges and metrics, its
      dimensions only when non-empty, and the filters, the ordering, the
      limit and the offset exactly as given (an empty ordering or a zero
      limit included). */
  lemma BatchItemFields(req: BatchItem)
    ensures Get(BatchItemObject(req), "dateRanges") == Some(JArr(DateRangeObjects(req.dateRanges)))
    ensures Get(BatchItemObject(req), "metrics") == Some(JArr(NameObjects(req.metrics)))
    ensures Get(BatchItemObject(req), "dimensions") == NonEmptyNames(req.dimensions)
    ensures Get(BatchItemObject(req), "dimensionFilter") == req.dimensionFilter
    ensures Get(BatchItemObject(req), "metricFilter") == req.metricFilter
    ensures Get(BatchItemObject(req), "orderBys") == IfArray(req.orderBys)
    ensures Get(BatchItemObject(req), "limit") == IfNumber(req.limit)
    ensures Get(BatchItemObject(req), "offset") == IfNumber(req.offset)
  {
    var fields := BatchBase(req) + Fields(BatchOptions(req));
    LookupIndex(fields, "metrics", 1);
    BatchItemOption(req, 0);
    BatchItemOption(req, 1);
    BatchItemOption(req, 2);
    BatchItemOption(req, 3);
    BatchItemOption(req, 4);
    BatchItemOption(req, 5);
  }

  /** `{ requests }` */
  function BatchBody(reqs: seq<BatchItem>): Json {
    JObj([("requests", JArr(BatchRequests(reqs)))])
  }

  /** batchRunReports: one request on the property (a number ID fails at
      `.startsWith`), whatever the number of entries, carrying the mapped
      entries in order; failures are tagged BatchRunReportsError. */
  function BatchRunReports(a: BatchArgs, ready: Readiness, api: Api): (o: Outcome)
    ensures |o.calls| == if ready.Ready? && a.propertyId.Str? then 1 else 0
    ensures forall i :: 0 <= i < |o.calls| ==>
      o.calls[i].rpc == BatchRunReportsRpc
      && Target(o.calls[i]) == Some(NormalizePropertyId(a.propertyId))
      && Get(o.calls[i].params, "requestBody") == Some(BatchBody(a.requests))
    ensures ready.Ready? && a.propertyId.Num? ==>
      o.result == Failure("BatchRunReportsError", "args.property_id.startsWith is not a function")
    ensures !o.result.isError <==> ready.Ready? && a.propertyId.Str? && api(PropertyCall(BatchRunReportsRpc, StringPropertyName(a.propertyId), BatchBody(a.requests)).value).Ok?
    ensures o.result.isError ==> FailedWith(o.result, "BatchRunReportsError")
    ensures ready.NotReady? ==> o.result == Failure("BatchRunReportsError", ready.message)
    ensures ready.Ready? && a.propertyId.Str? && api(PropertyCall(BatchRunReportsRpc, StringPropertyName(a.propertyId), BatchBody(a.requests)).value).Err? ==>
      o.result == Failure("BatchRunReportsError", api(PropertyCall(BatchRunReportsRpc, StringPropertyName(a.propertyId), BatchBody(a.requests)).value).message)
    ensures !o.result.isError ==> o.result == Success(api(PropertyCall(BatchRunReportsRpc, StringPropertyName(a.propertyId), BatchBody(a.requests)).value).value)
  {
    Forward("BatchRunReportsError", ready,
            PropertyCall(BatchRunReportsRpc, StringPropertyName(a.propertyId), BatchBody(a.requests)), AsReturned, api)
  }

  /** The batch body holds one mapped request per entry, in order. */
  lemma BatchBodyRequests(reqs: seq<BatchItem>)
    ensures Get(BatchBody(reqs), "requests") == Some(JArr(BatchRequests(reqs)))
    ensures |BatchRequests(reqs)| == |reqs|
    ensures forall i :: 0 <= i < |reqs| ==> Get(BatchRequests(reqs)[i], "dimensions") == NonEmptyNames(reqs[i].dimensions)
  {
    forall i | 0 <= i < |reqs|
      ensures Get(BatchRequests(reqs)[i], "dimensions") == NonEmptyNames(reqs[i].dimensions)
    {
      BatchItemFields(reqs[i]);
    }
  }

  // ---------------------------------------------------------------------
  // runPivotReport

  datatype Pivot = Pivot(fieldNames: seq<string>, limit: Option<int>, offset: Option<int>, orderBys: Option<seq<Json>>)

  datatype PivotArgs = PivotArgs(
    propertyId: PropId,
    dateRanges: seq<DateRange>,
    metrics: seq<string>,
    pivots: seq<Pivot>,
    dimensions: Option<seq<string>>,
    dimensionFilter: Option<Json>,
    metricFilter: Option<Json>)

  function PivotOptions(p: Pivot): seq<(string, Option<Json>)> {
    [("limit", IfNumber(p.limit)), ("offset", IfNumber(p.offset)), ("orderBys", IfArray(p.orderBys))]
  }

  /** `{ fieldNames, limit, offset, orderBys }` */
  function PivotObject(p: Pivot): Json {
    JObj([("fieldNames", StringArray(p.fieldNames))] + Fields(PivotOptions(p)))
  }

  function PivotObjects(ps: seq<Pivot>): (r: seq<Json>)
    ensures |r| == |ps|
    ensures forall i :: 0 <= i < |ps| ==> r[i] == PivotObject(ps[i])
  {
    seq(|ps|, i requires 0 <= i < |ps| => PivotObject(ps[i]))
  }

  lemma PivotOption(p: Pivot, i: nat)
    requires i < |PivotOptions(p)|
    ensures Get(PivotObject(p), PivotOptions(p)[i].0) == PivotOptions(p)[i].1
  {
    var base := [("fieldNames", StringArray(p.fieldNames))];
    assert Keys(base) == ["fieldNames"];
    assert FreshKeys(base, PivotOptions(p));
    LookupFields(base, PivotOptions(p), PivotOptions(p)[i].0);
  }

  /** Each pivot carries its field names, and its limit, offset and
      ordering whenever they are defined. */
  lemma PivotObjectFields(p: Pivot)
    ensures Get(PivotObject(p), "fieldNames") == Some(StringArray(p.fieldNames))
    ensures Get(PivotObject(p), "limit") == IfNumber(p.limit)
    ensures Get(PivotObject(p), "offset") == IfNumber(p.offset)
    ensures Get(PivotObject(p), "orderBys") == IfArray(p.orderBys)
  {
    PivotOption(p, 0);
    PivotOption(p, 1);
    PivotOption(p, 2);
  }

  /** The object literal runPivotReport starts from. */
  function PivotBase(a: PivotArgs): Json {
    JObj([("dateRanges", JArr(DateRangeObjects(a.dateRanges))),
          ("metrics", JArr(NameObjects(a.metrics))),
          ("pivots", JArr(PivotObjects(a.pivots)))])
  }

  /** The three optional arguments the pivot report assigns, in the shape
      the reports assign them. */
  function PivotFilters(a: PivotArgs): Shared {
    Shared(a.dimensions, a.dimensionFilter, a.metricFilter, None, None, None)
  }

  /** The request runPivotReport sends: the literal, then dimensions when
      non-empty and the filters when truthy. */
  function PivotRequest(a: PivotArgs): Json {
    WithFilters(PivotBase(a), PivotFilters(a))
  }

  method BuildPivotRequest(a: PivotArgs) returns (request: Json)
    ensures request == PivotRequest(a)
  {
    request := JObj([("dateRanges", JArr(DateRangeObjects(a.dateRanges))),
                     ("metrics", JArr(NameObjects(a.metrics))),
                     ("pivots", JArr(PivotObjects(a.pivots)))]);
    request := AssignFilters(request, PivotFilters(a));
  }

  lemma PivotBaseAbsent(a: PivotArgs, k: string)
    requires k != "dateRanges" && k != "metrics" && k != "pivots"
    ensures !Has(PivotBase(a), k)
  {
    assert Keys(PivotBase(a).fields) == ["dateRanges", "metrics", "pivots"];
    LookupKeys(PivotBase(a).fields, k);
  }

  /** The pivot request's inclusion rules ... */
  lemma PivotRequestOptions(a: PivotArgs)
    ensures Get(PivotRequest(a), "dimensions") == NonEmptyNames(a.dimensions)
    ensures Get(PivotRequest(a), "dimensionFilter") == IfTruthy(a.dimensionFilter)
    ensures Get(PivotRequest(a), "metricFilter") == IfTruthy(a.metricFilter)
  {
    assert "dateRanges"[1] != "dimensions"[1];
    PivotBaseAbsent(a, "dimensions");
    PivotBaseAbsent(a, "dimensionFilter");
    PivotBaseAbsent(a, "metricFilter");
    PutIf3Sets(PivotBase(a), "dimensions", NonEmptyNames(a.dimensions), "dimensionFilter", IfTruthy(a.dimensionFilter),
               "metricFilter", IfTruthy(a.metricFilter));
  }

  /** ... and its fixed part: the date ranges, the metrics and one object
      per pivot, in order. */
  lemma PivotRequestFixed(a: PivotArgs)
    ensures Get(PivotRequest(a), "dateRanges") == Some(JArr(DateRangeObjects(a.dateRanges)))
    ensures Get(PivotRequest(a), "metrics") == Some(JArr(NameObjects(a.metrics)))
    ensures Get(PivotRequest(a), "pivots") == Some(JArr(PivotObjects(a.pivots)))
    ensures |PivotObjects(a.pivots)| == |a.pivots|
  {
    var base := PivotBase(a);
    var d, df, mf := NonEmptyNames(a.dimensions), IfTruthy(a.dimensionFilter), IfTruthy(a.metricFilter);
    assert "dateRanges"[1] != "dimensions"[1];
    LookupIndex(base.fields, "metrics", 1);
    LookupIndex(base.fields, "pivots", 2);
    PutIf3Keeps(base, "dimensions", d, "dimensionFilter", df, "metricFilter", mf, "dateRanges");
    PutIf3Keeps(base, "dimensions", d, "dimensionFilter", df, "metricFilter", mf, "metrics");
    PutIf3Keeps(base, "dimensions", d, "dimensionFilter", df, "metricFilter", mf, "pivots");
  }

  /** runPivotReport: one request on the property carrying the pivot
      request; failures are tagged PivotReportError. */
  function RunPivotReport(a: PivotArgs, ready: Readiness, api: Api): (o: Outcome)
    ensures |o.calls| == if ready.Ready? && a.propertyId.Str? then 1 else 0
    ensures forall i :: 0 <= i < |o.calls| ==>
      o.calls[i].rpc == RunPivotReportRpc
      && Target(o.calls[i]) == Some(NormalizePropertyId(a.propertyId))
      && Get(o.calls[i].params, "requestBody") == Some(PivotRequest(a))
    ensures ready.Ready? && a.propertyId.Num? ==>
      o.result == Failure("PivotReportError", "args.property_id.startsWith is not a function")
    ensures !o.result.isError <==> ready.Ready? && a.propertyId.Str? && api(PropertyCall(RunPivotReportRpc, StringPropertyName(a.propertyId), PivotRequest(a)).value).Ok?
    ensures o.result.isError ==> FailedWith(o.result, "PivotReportError")
    ensures ready.NotReady? ==> o.result == Failure("PivotReportError", ready.message)
    ensures ready.Ready? && a.propertyId.Str? && api(PropertyCall(RunPivotReportRpc, StringPropertyName(a.propertyId), PivotRequest(a)).value).Err? ==>
      o.result == Failure("PivotReportError", api(PropertyCall(RunPivotReportRpc, StringPropertyName(a.propertyId), PivotRequest(a)).value).message)
    ensures !o.result.isError ==> o.result == Success(api(PropertyCall(RunPivotReportRpc, StringPropertyName(a.propertyId), PivotRequest(a)).value).value)
  {
    Forward("PivotReportError", ready,
            PropertyCall(RunPivotReportRpc, StringPropertyName(a.propertyId), PivotRequest(a)), AsReturned, api)
  }

  // ---------------------------------------------------------------------
  // checkCompatibility

  datatype CompatibilityArgs = CompatibilityArgs(
    propertyId: PropId,
    dimensions: Option<seq<string>>,
    metrics: Option<seq<string>>,
    dimensionFilter: Option<Json>,
    metricFilter: Option<Json>,
    compatibilityFilter: Option<string>)

  /** The request checkCompatibility sends: `{}`, then dimensions and
      metrics when non-empty, and the two filters and the compatibility
      filter when truthy. */
  function CompatibilityRequest(a: CompatibilityArgs): Json {
    var r := PutIf3(JObj([]), "dimensions", NonEmptyNames(a.dimensions),
                              "metrics", NonEmptyNames(a.metrics),
                              "dimensionFilter", IfTruthy(a.dimensionFilter));
    PutIf(PutIf(r, "metricFilter", IfTruthy(a.metricFilter)), "compatibilityFilter", IfNonEmpty(a.compatibilityFilter))
  }

  method BuildCompatibilityRequest(a: CompatibilityArgs) returns (request: Json)
    ensures request == CompatibilityRequest(a)
  {
    request := JObj([]);
    if a.dimensions.Some? && |a.dimensions.value| > 0 {
      request := Put(request, "dimensions", JArr(NameObjects(a.dimensions.value)));
    }
    if a.metrics.Some? && |a.metrics.value| > 0 {
      request := Put(request, "metrics", JArr(NameObjects(a.metrics.value)));
    }
    if a.dimensionFilter.Some? && Truthy(a.dimensionFilter.value) {
      request := Put(request, "dimensionFilter", a.dimensionFilter.value);
    }
    assert request == PutIf3(JObj([]), "dimensions", NonEmptyNames(a.dimensions), "metrics", NonEmptyNames(a.metrics),
                             "dimensionFilter", IfTruthy(a.dimensionFilter));
    if a.metricFilter.Some? && Truthy(a.metricFilter.value) {
      request := Put(request, "metricFilter", a.metricFilter.value);
    }
    if a.compatibilityFilter.Some? && a.compatibilityFilter.value != "" {
      request := Put(request, "compatibilityFilter", JStr(a.compatibilityFilter.value));
    }
  }

  predicate CompatibilityKey(k: string) {
    k == "dimensions" || k == "metrics" || k == "dimensionFilter" || k == "metricFilter" || k == "compatibilityFilter"
  }

  /** Each optional field is sent exactly when its rule admits it ... */
  lemma CompatibilityRequestOptions(a: CompatibilityArgs)
    ensures Get(CompatibilityRequest(a), "dimensions") == NonEmptyNames(a.dimensions)
    ensures Get(CompatibilityRequest(a), "metrics") == NonEmptyNames(a.metrics)
    ensures Get(CompatibilityRequest(a), "dimensionFilter") == IfTruthy(a.dimensionFilter)
    ensures Get(CompatibilityRequest(a), "metricFilter") == IfTruthy(a.metricFilter)
    ensures Get(CompatibilityRequest(a), "compatibilityFilter") == IfNonEmpty(a.compatibilityFilter)
  {
    var d, m, df := NonEmptyNames(a.dimensions), NonEmptyNames(a.metrics), IfTruthy(a.dimensionFilter);
    var mf, cf := IfTruthy(a.metricFilter), IfNonEmpty(a.compatibilityFilter);
    var r1 := PutIf3(JObj([]), "dimensions", d, "metrics", m, "dimensionFilter", df);
    var r2 := PutIf(r1, "metricFilter", mf);
    assert "compatibilityFilter"[0] != "dimensionFilter"[0];
    PutIf3Sets(JObj([]), "dimensions", d, "metrics", m, "dimensionFilter", df);
    PutIf3Keeps(JObj([]), "dimensions", d, "metrics", m, "dimensionFilter", df, "metricFilter");
    PutIf3Keeps(JObj([]), "dimensions", d, "metrics", m, "dimensionFilter", df, "compatibilityFilter");
    PutIfKeeps(r1, "metricFilter", mf, "dimensions");
    PutIfKeeps(r1, "metricFilter", mf, "metrics");
    PutIfKeeps(r1, "metricFilter", mf, "dimensionFilter");
    PutIfKeeps(r1, "metricFilter", mf, "compatibilityFilter");
    PutIfSets(r1, "metricFilter", mf);
    PutIfKeeps(r2, "compatibilityFilter", cf, "dimensions");
    PutIfKeeps(r2, "compatibilityFilter", cf, "metrics");
    PutIfKeeps(r2, "compatibilityFilter", cf, "dimensionFilter");
    PutIfKeeps(r2, "compatibilityFilter", cf, "metricFilter");
    PutIfSets(r2, "compatibilityFilter", cf);
  }

  /** ... and nothing else is ever sent, so a call with no optional
      argument sends `{}`. */
  lemma CompatibilityRequestOnlyOptions(a: CompatibilityArgs, k: string)
    requires !CompatibilityKey(k)
    ensures !Has(CompatibilityRequest(a), k)
  {
    var d, m, df := NonEmptyNames(a.dimensions), NonEmptyNames(a.metrics), IfTruthy(a.dimensionFilter);
    var r1 := PutIf3(JObj([]), "dimensions", d, "metrics", m, "dimensionFilter", df);
    PutIf3Keeps(JObj([]), "dimensions", d, "metrics", m, "dimensionFilter", df, k);
    PutIfKeeps(r1, "metricFilter", IfTruthy(a.metricFilter), k);
    PutIfKeeps(PutIf(r1, "metricFilter", IfTruthy(a.metricFilter)), "compatibilityFilter", IfNonEmpty(a.compatibilityFilter), k);
  }

  lemma CompatibilityNoOptions(a: CompatibilityArgs)
    requires a.dimensions.None? && a.metrics.None? && a.dimensionFilter.None?
    requires a.metricFilter.None? && a.compatibilityFilter.None?
    ensures CompatibilityRequest(a) == JObj([])
  {
  }

  /** checkCompatibility: one request on the property carrying the
      compatibility request; failures are tagged CompatibilityCheckError. */
  function CheckCompatibility(a: CompatibilityArgs, ready: Readiness, api: Api): (o: Outcome)
    ensures |o.calls| == if ready.Ready? && a.propertyId.Str? then 1 else 0
    ensures forall i :: 0 <= i < |o.calls| ==>
      o.calls[i].rpc == CheckCompatibilityRpc
      && Target(o.calls[i]) == Some(NormalizePropertyId(a.propertyId))
      && Get(o.calls[i].params, "requestBody") == Some(CompatibilityRequest(a))
    ensures ready.Ready? && a.propertyId.Num? ==>
      o.result == Failure("CompatibilityCheckError", "args.property_id.startsWith is not a function")
    ensures !o.result.isError <==> ready.Ready? && a.propertyId.Str? && api(PropertyCall(CheckCompatibilityRpc, StringPropertyName(a.propertyId), CompatibilityRequest(a)).value).Ok?
    ensures o.result.isError ==> FailedWith(o.result, "CompatibilityCheckError")
    ensures ready.NotReady? ==> o.result == Failure("CompatibilityCheckError", ready.message)
    ensures ready.Ready? && a.propertyId.Str? && api(PropertyCall(CheckCompatibilityRpc, StringPropertyName(a.propertyId), CompatibilityRequest(a)).value).Err? ==>
      o.result == Failure("CompatibilityCheckError", api(PropertyCall(CheckCompatibilityRpc, StringPropertyName(a.propertyId), CompatibilityRequest(a)).value).message)
    ensures !o.result.isError ==> o.result == Success(api(PropertyCall(CheckCompatibilityRpc, StringPropertyName(a.propertyId), CompatibilityRequest(a)).value).value)
  {
    Forward("CompatibilityCheckError", ready,
            PropertyCall(CheckCompatibilityRpc, StringPropertyName(a.propertyId), CompatibilityRequest(a)), AsReturned, api)
  }
}
