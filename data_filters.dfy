/** The data-filter tools (src/tools/data-filters.ts): list, get, create,
    update and delete the internal-traffic and developer-traffic filters of
    a property through the Admin alpha client. */
module DataFilters {
  import opened Common
  import opened Json
  import opened Utils
  import opened Mcp

  const ToolNames: seq<string> :=
    ["list_data_filters", "get_data_filter", "create_data_filter", "update_data_filter", "delete_data_filter"]

  const FilterStates: set<string> := {"ACTIVE", "INACTIVE", "TESTING"}

  // ---------------------------------------------------------------------
  // parseFilterState

  function ParseFilterState(s: string): Result<string> {
    var upper := ToUpperAscii(s);
    if upper == "ACTIVE" || upper == "INACTIVE" || upper == "TESTING" then Ok(upper)
    else Err("Invalid filter_state: " + s + ". Supported states: TESTING, ACTIVE, INACTIVE")
  }

  /** A state is accepted exactly when its upper-case form is one of the
      three supported states, and the result is that upper-case form: never
      FILTER_STATE_UNSPECIFIED. */
  lemma ParseFilterStateSpec(s: string)
    ensures ParseFilterState(s).Ok? <==> ToUpperAscii(s) in FilterStates
    ensures ParseFilterState(s).Ok? ==> ParseFilterState(s).value == ToUpperAscii(s)
    ensures ParseFilterState(s).Ok? ==> ParseFilterState(s).value in FilterStates
    ensures ParseFilterState(s) != Ok("FILTER_STATE_UNSPECIFIED")
    ensures ParseFilterState(s).Err? ==> StartsWith(ParseFilterState(s).message, "Invalid filter_state: " + s)
  {
    var m := "Invalid filter_state: " + s + ". Supported states: TESTING, ACTIVE, INACTIVE";
    assert m[..|"Invalid filter_state: " + s|] == "Invalid filter_state: " + s;
  }

  /** Two spellings that differ only in letter case parse alike. */
  lemma ParseFilterStateIgnoresCase(s: string, t: string)
    requires ToUpperAscii(s) == ToUpperAscii(t)
    ensures ParseFilterState(s).Ok? <==> ParseFilterState(t).Ok?
    ensures ParseFilterState(s).Ok? ==> ParseFilterState(s) == ParseFilterState(t)
  {
  }

  /** Upper-casing twice is upper-casing once, so a parsed state parses to
      itself. */
  lemma ParseFilterStateIdempotent(s: string)
    requires ParseFilterState(s).Ok?
    ensures ParseFilterState(ParseFilterState(s).value) == ParseFilterState(s)
  {
    var u := ToUpperAscii(s);
    assert ToUpperAscii(u) == u by {
      forall i | 0 <= i < |u|
        ensures ToUpperAscii(u)[i] == u[i]
      {
        assert UpperAscii(UpperAscii(s[i])) == UpperAscii(s[i]);
      }
    }
  }

  lemma ParseFilterStateExamples()
    ensures ParseFilterState("active") == Ok("ACTIVE")
    ensures ParseFilterState("Testing") == Ok("TESTING")
    ensures ParseFilterState("FILTER_STATE_UNSPECIFIED").Err?
    ensures ParseFilterState("").Err?
  {
    assert ToUpperAscii("active") == "ACTIVE";
    assert ToUpperAscii("Testing") == "TESTING";
    assert |ToUpperAscii("FILTER_STATE_UNSPECIFIED")| != |"ACTIVE"|;
    assert |ToUpperAscii("FILTER_STATE_UNSPECIFIED")| != |"INACTIVE"|;
  }

  // ---------------------------------------------------------------------
  // createDataFilter

  datatype CreateArgs = CreateArgs(
    propertyId: PropId,
    filterName: string,
    filterType: string,
    filterState: string,
    parameterName: Option<string>,
    parameterValue: Option<string>)

  const ParameterValueRequired: string := "parameter_value is required for INTERNAL_TRAFFIC filters"

  function UnsupportedType(t: string): string {
    "Unsupported filter_type: " + t + ". Supported types: INTERNAL_TRAFFIC, DEVELOPER_TRAFFIC"
  }

  /** The data filter that createDataFilter sends, or the message it throws
      before sending anything. */
  function DataFilterBody(a: CreateArgs): Result<Json> {
    match ParseFilterState(a.filterState)
    case Err(m) => Err(m)
    case Ok(state) =>
      var base := [("displayName", JStr(a.filterName)), ("filterState", JStr(state))];
      if a.filterType == "INTERNAL_TRAFFIC" then
        if !NonEmpty(a.parameterValue) then Err(ParameterValueRequired)
        else Ok(JObj(base + [("internalTrafficFilter", JObj([("trafficType", JStr(a.parameterValue.value))]))]))
      else if a.filterType == "DEVELOPER_TRAFFIC" then
        Ok(JObj(base + [("developerDataFilter", JObj([]))]))
      else Err(UnsupportedType(a.filterType))
  }

  /** The filter object as createDataFilter assembles it: the two fixed
      fields, then one field for the filter type. */
  method BuildDataFilter(a: CreateArgs) returns (r: Result<Json>)
    ensures r == DataFilterBody(a)
  {
    var state := ParseFilterState(a.filterState);
    if state.Err? {
      return Err(state.message);
    }
    var filter := JObj([("displayName", JStr(a.filterName)), ("filterState", JStr(state.value))]);
    if a.filterType == "INTERNAL_TRAFFIC" {
      if !NonEmpty(a.parameterValue) {
        return Err(ParameterValueRequired);
      }
      PutFresh(filter.fields, "internalTrafficFilter", JObj([("trafficType", JStr(a.parameterValue.value))]));
      filter := Put(filter, "internalTrafficFilter", JObj([("trafficType", JStr(a.parameterValue.value))]));
    } else if a.filterType == "DEVELOPER_TRAFFIC" {
      PutFresh(filter.fields, "developerDataFilter", JObj([]));
      filter := Put(filter, "developerDataFilter", JObj([]));
    } else {
      return Err(UnsupportedType(a.filterType));
    }
    r := Ok(filter);
  }

  /** The state is validated before the filter type is looked at: an
      invalid state fails with the state message whatever the type. */
  lemma StateCheckedFirst(a: CreateArgs)
    requires ParseFilterState(a.filterState).Err?
    ensures DataFilterBody(a) == Err(ParseFilterState(a.filterState).message)
  {
  }

  /** parameter_name has no effect on the filter. */
  lemma ParameterNameUnused(a: CreateArgs, other: Option<string>)
    ensures DataFilterBody(a) == DataFilterBody(a.(parameterName := other))
  {
  }

  /** What a created filter carries: the name and the parsed state, and for
      internal traffic the non-empty parameter value as traffic type, for
      developer traffic an empty developer filter; other types fail. */
  lemma DataFilterBodySpec(a: CreateArgs)
    requires ParseFilterState(a.filterState).Ok?
    ensures DataFilterBody(a).Ok? <==>
      (a.filterType == "INTERNAL_TRAFFIC" && NonEmpty(a.parameterValue)) || a.filterType == "DEVELOPER_TRAFFIC"
    ensures a.filterType == "INTERNAL_TRAFFIC" && !NonEmpty(a.parameterValue) ==>
      DataFilterBody(a) == Err(ParameterValueRequired)
    ensures DataFilterBody(a).Ok? ==>
      Get(DataFilterBody(a).value, "displayName") == Some(JStr(a.filterName))
      && Get(DataFilterBody(a).value, "filterState") == Some(JStr(ParseFilterState(a.filterState).value))
    ensures DataFilterBody(a).Ok? && a.filterType == "INTERNAL_TRAFFIC" ==>
      Get(DataFilterBody(a).value, "internalTrafficFilter") == Some(JObj([("trafficType", JStr(a.parameterValue.value))]))
      && !Has(DataFilterBody(a).value, "developerDataFilter")
    ensures DataFilterBody(a).Ok? && a.filterType == "DEVELOPER_TRAFFIC" ==>
      Get(DataFilterBody(a).value, "developerDataFilter") == Some(JObj([]))
      && !Has(DataFilterBody(a).value, "internalTrafficFilter")
  {
    if DataFilterBody(a).Ok? {
      var f := DataFilterBody(a).value.fields;
      LookupIndex(f, "displayName", 0);
      LookupIndex(f, "filterState", 1);
      LookupIndex(f, f[2].0, 2);
      assert Keys(f) == [f[0].0, f[1].0, f[2].0];
      LookupKeys(f, "developerDataFilter");
      LookupKeys(f, "internalTrafficFilter");
    }
  }

  // ---------------------------------------------------------------------
  // updateDataFilter

  datatype UpdateArgs = UpdateArgs(
    propertyId: PropId,
    dataFilterId: string,
    filterName: Option<string>,
    filterState: Option<string>,
    parameterValue: Option<string>)

  const TrafficTypeRequiresInternal: string := "parameter_value can only be updated for INTERNAL_TRAFFIC filters"
  const NothingToUpdate: string := "No fields provided for update"

  /** The update mask: one entry per argument that is not `undefined`, in
      this order. */
  function UpdateMask(a: UpdateArgs): seq<string> {
    (if a.filterName.Some? then ["display_name"] else [])
    + (if a.filterState.Some? then ["filter_state"] else [])
    + (if a.parameterValue.Some? then ["internal_traffic_filter.traffic_type"] else [])
  }

  /** The fetched filter with the named fields overwritten, and the mask;
      or the message the update throws. */
  function UpdatedFilter(existing: Json, a: UpdateArgs): Result<(Json, seq<string>)> {
    if a.filterState.Some? && ParseFilterState(a.filterState.value).Err? then
      Err(ParseFilterState(a.filterState.value).message)
    else if a.parameterValue.Some? && !TruthyArg(Get(existing, "internalTrafficFilter")) then
      Err(TrafficTypeRequiresInternal)
    else if UpdateMask(a) == [] then
      Err(NothingToUpdate)
    else
      var named := PutIf(existing, "displayName", IfDefined(a.filterName));
      var stated := PutIf(named, "filterState",
                          if a.filterState.Some? then Some(JStr(ParseFilterState(a.filterState.value).value)) else None);
      var traffic := if a.parameterValue.Some?
                     then Some(Put(Get(existing, "internalTrafficFilter").value, "trafficType", JStr(a.parameterValue.value)))
                     else None;
      Ok((PutIf(stated, "internalTrafficFilter", traffic), UpdateMask(a)))
  }

  /** updateDataFilter's middle part: overwrite the provided fields of the
      fetched filter in place, pushing each onto the mask, and refuse an
      empty mask. */
  method ApplyUpdate(existing: Json, a: UpdateArgs) returns (r: Result<(Json, seq<string>)>)
    ensures r == UpdatedFilter(existing, a)
  {
    var filter := existing;
    var mask: seq<string> := [];
    if a.filterName.Some? {
      filter := Put(filter, "displayName", JStr(a.filterName.value));
      mask := mask + ["display_name"];
    }
    assert filter == PutIf(existing, "displayName", IfDefined(a.filterName));
    ghost var named := filter;
    ghost var maskAfterName := mask;
    if a.filterState.Some? {
      var state := ParseFilterState(a.filterState.value);
      if state.Err? {
        return Err(state.message);
      }
      filter := Put(filter, "filterState", JStr(state.value));
      mask := mask + ["filter_state"];
    }
    assert filter == PutIf(named, "filterState",
                           if a.filterState.Some? then Some(JStr(ParseFilterState(a.filterState.value).value)) else None);
    assert mask == maskAfterName + (if a.filterState.Some? then ["filter_state"] else []);
    if a.parameterValue.Some? {
      var itf := Get(existing, "internalTrafficFilter");
      if TruthyArg(itf) {
        filter := Put(filter, "internalTrafficFilter", Put(itf.value, "trafficType", JStr(a.parameterValue.value)));
        mask := mask + ["internal_traffic_filter.traffic_type"];
      } else {
        return Err(TrafficTypeRequiresInternal);
      }
    }
    assert mask == UpdateMask(a);
    if |mask| == 0 {
      return Err(NothingToUpdate);
    }
    r := Ok((filter, mask));
  }

  /** The mask names exactly the provided fields, in a fixed order, and is
      empty only when nothing is provided. */
  lemma UpdateMaskSpec(a: UpdateArgs)
    ensures ("display_name" in UpdateMask(a) <==> a.filterName.Some?)
    ensures ("filter_state" in UpdateMask(a) <==> a.filterState.Some?)
    ensures ("internal_traffic_filter.traffic_type" in UpdateMask(a) <==> a.parameterValue.Some?)
    ensures UpdateMask(a) == [] <==> a.filterName.None? && a.filterState.None? && a.parameterValue.None?
    ensures a.filterName.Some? ==> UpdateMask(a)[0] == "display_name"
    ensures a.parameterValue.Some? ==> UpdateMask(a)[|UpdateMask(a)| - 1] == "internal_traffic_filter.traffic_type"
  {
  }

  /** A field the mask does not name keeps its old value and a named one
      takes the new value. */
  lemma UpdatedFilterFields(existing: Json, a: UpdateArgs)
    requires existing.JObj?
    requires UpdatedFilter(existing, a).Ok?
    ensures var f := UpdatedFilter(existing, a).value.0;
      (a.filterName.Some? ==> Get(f, "displayName") == Some(JStr(a.filterName.value)))
      && (a.filterName.None? ==> Get(f, "displayName") == Get(existing, "displayName"))
      && (a.filterState.Some? ==> Get(f, "filterState") == Some(JStr(ToUpperAscii(a.filterState.value))))
      && (a.filterState.None? ==> Get(f, "filterState") == Get(existing, "filterState"))
      && (a.parameterValue.None? ==> Get(f, "internalTrafficFilter") == Get(existing, "internalTrafficFilter"))
      && forall k :: k != "displayName" && k != "filterState" && k != "internalTrafficFilter" ==>
           Get(f, k) == Get(existing, k)
  {
    var named := PutIf(existing, "displayName", IfDefined(a.filterName));
    var st := if a.filterState.Some? then Some(JStr(ParseFilterState(a.filterState.value).value)) else None;
    var stated := PutIf(named, "filterState", st);
    var traffic := if a.parameterValue.Some?
                   then Some(Put(Get(existing, "internalTrafficFilter").value, "trafficType", JStr(a.parameterValue.value)))
                   else None;
    assert UpdatedFilter(existing, a).value.0 == PutIf(stated, "internalTrafficFilter", traffic);
    if a.filterState.Some? { ParseFilterStateSpec(a.filterState.value); }
    PutIfReads(existing, "displayName", IfDefined(a.filterName));
    PutIfReads(named, "filterState", st);
    PutIfReads(stated, "internalTrafficFilter", traffic);
  }

  /** A traffic-type update puts the new value into the existing
      internal-traffic filter and keeps its other fields. */
  lemma UpdatedTrafficType(existing: Json, a: UpdateArgs)
    requires existing.JObj?
    requires UpdatedFilter(existing, a).Ok?
    requires a.parameterValue.Some?
    requires Get(existing, "internalTrafficFilter").value.JObj?
    ensures var itf := Get(UpdatedFilter(existing, a).value.0, "internalTrafficFilter");
      itf.Some? && Get(itf.value, "trafficType") == Some(JStr(a.parameterValue.value))
      && forall k :: k != "trafficType" ==> Get(itf.value, k) == Get(Get(existing, "internalTrafficFilter").value, k)
  {
    var old_itf := Get(existing, "internalTrafficFilter").value;
    UpdatedFilterFields(existing, a);
    var named := PutIf(existing, "displayName", IfDefined(a.filterName));
    var st := if a.filterState.Some? then Some(JStr(ParseFilterState(a.filterState.value).value)) else None;
    var stated := PutIf(named, "filterState", st);
    var traffic := Some(Put(old_itf, "trafficType", JStr(a.parameterValue.value)));
    PutIfReads(existing, "displayName", IfDefined(a.filterName));
    PutIfReads(named, "filterState", st);
    PutIfReads(stated, "internalTrafficFilter", traffic);
    PutIfReads(old_itf, "trafficType", Some(JStr(a.parameterValue.value)));
  }

  /** The mask the patch sends splits back into the fields it names. */
  lemma UpdateMaskRoundTrip(a: UpdateArgs)
    requires UpdateMask(a) != []
    ensures Split(Join(UpdateMask(a), ","), ',') == UpdateMask(a)
  {
    var m := UpdateMask(a);
    assert forall k :: 0 <= k < |m| ==> ',' !in m[k];
    assert "," == [','];
    SplitJoin(m, ',');
  }

  // ---------------------------------------------------------------------
  // The handlers

  function FilterName(propertyId: PropId, id: string): string {
    ResourceName(NormalizePropertyId(propertyId), "dataFilters", id)
  }

  const ListRpc := "adminAlpha.properties.dataFilters.list"
  const GetRpc := "adminAlpha.properties.dataFilters.get"
  const CreateRpc := "adminAlpha.properties.dataFilters.create"
  const PatchRpc := "adminAlpha.properties.dataFilters.patch"
  const DeleteRpc := "adminAlpha.properties.dataFilters.delete"

  datatype Op =
    | List(propertyId: PropId)
    | Fetch(propertyId: PropId, dataFilterId: string)
    | Create(args: CreateArgs)
    | Delete(propertyId: PropId, dataFilterId: string)

  function PropertyOf(op: Op): PropId {
    if op.Create? then op.args.propertyId else op.propertyId
  }

  function Tag(op: Op): string {
    match op
    case List(_) => "ListDataFiltersError"
    case Fetch(_, _) => "GetDataFilterError"
    case Create(_) => "CreateDataFilterError"
    case Delete(_, _) => "DeleteDataFilterError"
  }

  /** The one request each handler sends, or what it throws first. */
  function Call(op: Op): Result<ApiCall> {
    match op
    case List(p) => Ok(ParentCall(ListRpc, NormalizePropertyId(p), None))
    case Fetch(p, id) => Ok(NameCall(GetRpc, FilterName(p, id), None))
    case Create(a) =>
      (match DataFilterBody(a)
       case Err(m) => Err(m)
       case Ok(body) => Ok(ParentCall(CreateRpc, NormalizePropertyId(a.propertyId), Some(body))))
    case Delete(p, id) => Ok(NameCall(DeleteRpc, FilterName(p, id), None))
  }

  /** listDataFilters, getDataFilter, createDataFilter, deleteDataFilter.
      Failures carry the operation's own tag; every request stays inside
      the normalised property; an invalid create sends nothing; a delete
      that goes through answers `{ success: true }`. */
  function Handle(op: Op, ready: Readiness, api: Api): (o: Outcome)
    ensures o.result.isError ==> FailedWith(o.result, Tag(op))
    ensures |o.calls| <= 1
    ensures forall i :: 0 <= i < |o.calls| ==> Within(o.calls[i], NormalizePropertyId(PropertyOf(op)))
    ensures op.Create? && DataFilterBody(op.args).Err? ==> o.calls == [] && o.result.isError
    ensures op.Create? && |o.calls| == 1 ==>
      Get(o.calls[0].params, "requestBody") == Some(DataFilterBody(op.args).value)
    ensures !o.result.isError <==> ready.Ready? && Call(op).Ok? && api(Call(op).value).Ok?
    ensures ready.NotReady? ==> o.result == Failure(Tag(op), ready.message)
    ensures ready.Ready? && Call(op).Err? ==> o.result == Failure(Tag(op), Call(op).message) && o.calls == []
    ensures ready.Ready? && Call(op).Ok? ==> o.calls == [Call(op).value]
    ensures ready.Ready? && Call(op).Ok? && api(Call(op).value).Err? ==>
      o.result == Failure(Tag(op), api(Call(op).value).message)
    ensures !o.result.isError && !op.Delete? ==> o.result == Success(api(Call(op).value).value)
    ensures op.Delete? && !o.result.isError ==> o.result == Success(SuccessFlag)
    ensures op.Fetch? && ready.Ready? ==> o.calls == [NameCall(GetRpc, FilterName(op.propertyId, op.dataFilterId), None)]
  {
    CallWithin(op);
    Forward(Tag(op), ready, Call(op), if op.Delete? then Flag else AsReturned, api)
  }

  /** Every request is addressed inside the normalised property; a create
      carries the filter as its request body. */
  lemma CallWithin(op: Op)
    ensures Call(op).Ok? ==> Within(Call(op).value, NormalizePropertyId(PropertyOf(op)))
    ensures op.Create? && Call(op).Ok? ==>
      Get(Call(op).value.params, "requestBody") == Some(DataFilterBody(op.args).value)
  {
    match op
    case List(p) =>
      var pn := NormalizePropertyId(p);
      assert pn + "" == pn;
      CallsWithin(ListRpc, pn, "", None);
    case Fetch(p, id) =>
      FilterNameWithin(GetRpc, p, id);
    case Create(a) =>
      CreateCallWithin(a);
    case Delete(p, id) =>
      FilterNameWithin(DeleteRpc, p, id);
  }

  lemma FilterNameWithin(rpc: string, p: PropId, id: string)
    ensures Within(NameCall(rpc, FilterName(p, id), None), NormalizePropertyId(p))
  {
    var pn := NormalizePropertyId(p);
    CallsWithin(rpc, pn, "/dataFilters/" + id, None);
    assert FilterName(p, id) == pn + ("/dataFilters/" + id);
  }

  lemma CreateCallWithin(a: CreateArgs)
    ensures Call(Create(a)).Ok? ==> Within(Call(Create(a)).value, NormalizePropertyId(a.propertyId))
    ensures Call(Create(a)).Ok? ==>
      Get(Call(Create(a)).value.params, "requestBody") == Some(DataFilterBody(a).value)
  {
    var pn := NormalizePropertyId(a.propertyId);
    var body := DataFilterBody(a);
    if body.Ok? {
      var c := ParentCall(CreateRpc, pn, Some(body.value));
      assert Call(Create(a)) == Ok(c);
      assert pn + "" == pn;
      CallsWithin(CreateRpc, pn, "", Some(body.value));
      LookupIndex(c.params.fields, "requestBody", 1);
    }
  }

  /** updateDataFilter's first request: the filter to be updated. */
  function UpdateFetch(a: UpdateArgs): ApiCall {
    NameCall(GetRpc, FilterName(a.propertyId, a.dataFilterId), None)
  }

  /** The patch that updateDataFilter derives from the fetched filter. */
  function PatchFor(name: string, existing: Json, a: UpdateArgs): Result<ApiCall> {
    if !Truthy(existing) then Err("Data filter not found: " + name)
    else
      match UpdatedFilter(existing, a)
      case Err(m) => Err(m)
      case Ok((f, mask)) => Ok(PatchCall(PatchRpc, name, mask, f))
  }

  /** updateDataFilter: fetch, overwrite, patch. A falsy fetched filter is
      "not found"; the patch goes to the same name as the fetch, with the
      mask of provided fields; failures are tagged UpdateDataFilterError. */
  function Update(a: UpdateArgs, ready: Readiness, api: Api): (o: Outcome)
    ensures o.result.isError ==> FailedWith(o.result, "UpdateDataFilterError")
    ensures ready.NotReady? ==> o.calls == [] && o.result == Failure("UpdateDataFilterError", ready.message)
    ensures ready.Ready? && api(UpdateFetch(a)).Err? ==>
      o.calls == [UpdateFetch(a)] && o.result == Failure("UpdateDataFilterError", api(UpdateFetch(a)).message)
    ensures ready.Ready? && api(UpdateFetch(a)).Ok? && !Truthy(api(UpdateFetch(a)).value) ==>
      o.calls == [UpdateFetch(a)]
      && o.result == Failure("UpdateDataFilterError", "Data filter not found: " + FilterName(a.propertyId, a.dataFilterId))
    ensures ready.Ready? && api(UpdateFetch(a)).Ok? && Truthy(api(UpdateFetch(a)).value) ==>
      var updated := UpdatedFilter(api(UpdateFetch(a)).value, a);
      (updated.Err? ==> o.calls == [UpdateFetch(a)] && o.result == Failure("UpdateDataFilterError", updated.message))
      && (updated.Ok? ==>
            var patch := PatchCall(PatchRpc, FilterName(a.propertyId, a.dataFilterId), updated.value.1, updated.value.0);
            o.calls == [UpdateFetch(a), patch]
            && o.result == if api(patch).Ok? then Success(api(patch).value)
                           else Failure("UpdateDataFilterError", api(patch).message))
    ensures UpdateMask(a) == [] ==> |o.calls| <= 1 && o.result.isError
  {
    var name := FilterName(a.propertyId, a.dataFilterId);
    FetchThenPatch("UpdateDataFilterError", ready, UpdateFetch(a), e => PatchFor(name, e, a), api)
  }
}
