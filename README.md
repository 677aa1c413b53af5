# Google Analytics MCP server — core model

This project models the core of an MCP (Model Context Protocol) server that
gives an assistant tools over the Google Analytics Data and Admin APIs. Each
tool handler turns its arguments into one or two API requests. It then
returns the response data, or an error envelope tagged for the operation,
as an MCP result. The registry in `src/tools/index.ts` finds a tool by name
and dispatches the call, and `src/analytics.ts` creates the API clients over
OAuth2 or Application Default Credentials.

The model is a translation layer. The Google API is a parameter
`api: ApiCall -> Result<Json>`: for each call it answers the response's
`data` or the message of the error the call throws. The outcome of
`ensureAnalyticsClients()` at the top of each handler is a `Readiness`
parameter. Each handler is a function that returns its MCP result together
with the list of calls it made. The contracts can therefore say what is
sent, to which resource, in which order, and what comes back.

JavaScript's semantics are written out where the handlers depend on them:
- Truthiness (`if (args.x)` against `!== undefined`).
- A property whose value is `undefined` is an absent key.
- Property assignment on a request object.
- `Array.prototype.find`, `join` and `map`.
- `parseInt` and `toUpperCase` on ASCII.

Request objects that the source builds by successive conditional assignment
are methods. Each is proved equal to a declarative specification function,
and lemmas state the field-by-field inclusion rules.

Modules follow the source files: `Utils`, `Reports`, `AdvancedReporting`,
`Admin`, `Audiences`, `ConversionEvents`, `CustomDefinitions`,
`DataFilters`, `DataStreams`, `Integrations`, `KeyEvents`, `Metadata`,
`ToolsIndex` and `AnalyticsClients`. They share `Common` (options, results,
strings), `Json` (the payload datatype, property assignment, truthiness) and
`Mcp` (the result envelope, API calls and the try/catch shape of a handler).

The input schema of the report tools promises that `property_id` "can be
a number or 'properties/NUMBER' format" (`src/tools/reports.ts:191-194`),
and the other handlers accept both forms by normalising the ID
(`src/tools/utils.ts:9-19`). `runReport` and `runRealtimeReport` instead
always write `properties/${property_id}`, so an ID that already carries the
prefix is prefixed twice (`src/tools/reports.ts:29`). The model follows the
code. `Reports.ReportPropertyDeviation` states exactly when the two agree.

## Model

| member | source | states |
|---|---|---|
| Utils.NormalizePropertyId | src/tools/utils.ts:9-19 | the result always starts with `properties/` |
| Utils.NormalizeCases | src/tools/utils.ts:9-19 | a number gets the prefix and its decimal text; a string that already has the prefix is kept; any other string is prefixed; a string ID is always the tail of the result |
| Utils.NormalizeIdempotent | src/tools/utils.ts:9-19 | normalising a normalised name changes nothing |
| Utils.NumberAndTextAgree | src/tools/utils.ts:12-18 | a number and its decimal text name the same property |
| Utils.NumericAndPrefixedIdsAgree | src/tools/utils.ts:9-19 | `123456` and `"properties/123456"` both become `properties/123456` |
| Utils.InlinePropertyName | src/tools/admin.ts:112-117 | the conditional expression the handlers write out in place of the helper equals normalisation |
| Utils.StringPropertyName | src/tools/advanced-reporting.ts:29-32 | the string-only prefix test succeeds exactly for string IDs and then equals normalisation; a number fails at `.startsWith` |
| Utils.ResourceNameParts | src/tools/audiences.ts:79 | a `${parent}/${collection}/${id}` name lies under its parent and its last segment is the ID when the ID has no `/` |
| Utils.ParseIntDecimal | src/tools/utils.ts:30 | `parseInt` reads back the decimal text of every integer |
| Utils.DaysAgoSplit | src/tools/utils.ts:30 | removing the first `daysAgo` from `<n>daysAgo` leaves the decimal text of n |
| Utils.DaysAgoRule | src/tools/utils.ts:29-32 | `<n>daysAgo` is a valid date exactly when n >= 0 |
| Utils.RelativeDayNamesValid | src/tools/utils.ts:26-28 | `today` and `yesterday` are always valid |
| Utils.SevenDaysAgoValid | src/tools/utils.ts:29-32 | `7daysAgo` is valid |
| Utils.NegativeDaysAgoInvalid | src/tools/utils.ts:29-32 | `-1daysAgo` is rejected |
| Utils.BareDaysAgoInvalid | src/tools/utils.ts:29-32 | `daysAgo` with no number is NaN and is rejected |
| Utils.CalendarDateRule | src/tools/utils.ts:33-39 | any other string is valid exactly when it has the YYYY-MM-DD shape and the runtime parses it as a date |
| Mcp.Failure | src/tools/reports.ts:80-98 | a catch-block result is an error with one content item carrying `success: false`, the tag and the message |
| Mcp.ReplyPayload | src/tools/audiences.ts:226 | `response.data \|\| { success: true }` keeps the data exactly when it is truthy (or already the flag) and gives `{ success: true }` for falsy data; a fixed reply is `{ success: true }`; a plain reply is the data |
| Mcp.Forward | src/tools/reports.ts:24-99 | the handler shape: a call is made only when the clients are ready and the request could be built; success exactly when the call succeeds; each failure gives the message of what was thrown first, under the operation's tag |
| Mcp.FetchThenPatch | src/tools/key-events.ts:186-223 | the update shape: fetch first, patch only when the fetch succeeds and the patch can be derived, and return the patch's data; a derivation failure makes no second call |
| Mcp.PatchMaskRoundTrip | src/tools/key-events.ts:216-219 | the `updateMask` a patch sends is the comma join of the mask and splits back into it |
| Reports.ReportPropertyDeviation | src/tools/reports.ts:29 | the report property equals the normalised ID exactly when the ID is not a string that already has the prefix |
| Reports.PrefixedIdDoublePrefixed | src/tools/reports.ts:29 | `"properties/1"` becomes `properties/properties/1`, where normalisation gives `properties/1` |
| Reports.DateRangeObject | src/tools/reports.ts:30-34 | a date range maps to its start and end dates, with the name only when defined |
| Reports.DateRangeObjects | src/tools/reports.ts:30-34 | one object per date range, in order |
| Reports.WithSharedSets | src/tools/reports.ts:38-60 | the six shared assignments set each optional field exactly when its rule admits it |
| Reports.WithSharedKeeps | src/tools/reports.ts:38-60 | the shared assignments leave every other field as it was |
| Reports.AssignShared | src/tools/reports.ts:38-60 | the assignments made one after the other give the specification object |
| Reports.AssignFilters | src/tools/reports.ts:42-48 | the filter assignments give the specification object |
| Reports.AssignPaging | src/tools/reports.ts:54-60 | the limit and offset assignments give the specification object |
| Reports.ReportBaseFixed | src/tools/reports.ts:28-36 | the literal holds the property, the mapped date ranges and the mapped metrics |
| Reports.ReportBaseAbsent | src/tools/reports.ts:28-36 | the literal holds nothing else |
| Reports.BuildReportRequest | src/tools/reports.ts:28-64 | the built request equals the specification request |
| Reports.ReportRequestOptions | src/tools/reports.ts:38-64 | dimensions and orderBys are sent only as non-empty arrays, the filters and the currency only when truthy, and limit and offset whenever defined (0 included) |
| Reports.WithCurrencySets | src/tools/reports.ts:62-64 | the currency assignment after the shared ones keeps their fields and sets the currency by its own rule |
| Reports.ReportRequestMapped | src/tools/reports.ts:28-36 | the property, the date ranges and the metrics are always sent, one object per element, in input order |
| Reports.RealtimeBaseAbsent | src/tools/reports.ts:118-120 | the realtime literal holds only the metrics |
| Reports.BuildRealtimeRequest | src/tools/reports.ts:118-144 | the built realtime request equals its specification |
| Reports.RealtimeRequestOptions | src/tools/reports.ts:122-144 | the realtime request follows the same inclusion rules |
| Reports.RealtimeRequestMetrics | src/tools/reports.ts:119 | the realtime request always holds the mapped metrics |
| Reports.RealtimeRequestAbsent | src/tools/reports.ts:118-144 | the realtime request never holds date ranges, a currency or a property field in its body |
| Reports.ReportCallTarget | src/tools/reports.ts:66-69 | the report call is addressed to the prefixed property |
| Reports.RunReport | src/tools/reports.ts:13-100 | one call carrying the built request on the prefixed property, made only when ready; success exactly when the clients are ready and the call succeeds, and then the result is the response data; a readiness or call failure gives a ReportError result carrying that message |
| Reports.RunRealtimeReport | src/tools/reports.ts:105-180 | one call carrying the built realtime request on the prefixed property, made only when ready; success exactly when the clients are ready and the call succeeds, and then the result is the response data; every failure is a RealtimeReportError carrying its message |
| AdvancedReporting.PropertyCall | src/tools/advanced-reporting.ts:52-57 | a call is built exactly when the property name is, addressed to it and carrying the body |
| AdvancedReporting.BatchRequests | src/tools/advanced-reporting.ts:34-50 | one mapped object per batch entry, in order |
| AdvancedReporting.BatchKeysFresh | src/tools/advanced-reporting.ts:34-50 | the optional keys of a mapped entry are distinct from each other and from its fixed keys |
| AdvancedReporting.BatchItemOption | src/tools/advanced-reporting.ts:41-49 | each optional property of a mapped entry reads back as its value, `undefined` as absent |
| AdvancedReporting.BatchItemFields | src/tools/advanced-reporting.ts:34-50 | each entry carries its date ranges and metrics, dimensions only when non-empty, and the filters, ordering, limit and offset exactly as given |
| AdvancedReporting.BatchRunReports | src/tools/advanced-reporting.ts:13-88 | one call whatever the number of entries; success exactly when ready, the ID is a string and the call succeeds, and then the result is the response data; a number ID fails at `.startsWith`; failures are tagged BatchRunReportsError with their message |
| AdvancedReporting.BatchBodyRequests | src/tools/advanced-reporting.ts:52-57 | the body's `requests` holds one mapped entry per input entry, in order |
| AdvancedReporting.PivotObjects | src/tools/advanced-reporting.ts:122-127 | one pivot object per pivot, in order |
| AdvancedReporting.PivotOption | src/tools/advanced-reporting.ts:124-126 | each optional pivot property reads back as its value |
| AdvancedReporting.PivotObjectFields | src/tools/advanced-reporting.ts:122-127 | a pivot carries its field names, and its limit, offset and ordering when defined |
| AdvancedReporting.BuildPivotRequest | src/tools/advanced-reporting.ts:115-140 | the built pivot request equals its specification |
| AdvancedReporting.PivotBaseAbsent | src/tools/advanced-reporting.ts:115-128 | the pivot literal holds only date ranges, metrics and pivots |
| AdvancedReporting.PivotRequestOptions | src/tools/advanced-reporting.ts:130-140 | dimensions only when non-empty, the filters only when truthy |
| AdvancedReporting.PivotRequestFixed | src/tools/advanced-reporting.ts:115-128 | the date ranges, metrics and one object per pivot are always sent |
| AdvancedReporting.RunPivotReport | src/tools/advanced-reporting.ts:93-176 | one call carrying the pivot request on the string-normalised property; success exactly when ready, the ID is a string and the call succeeds, and then the result is the response data; failures are tagged PivotReportError with their message |
| AdvancedReporting.BuildCompatibilityRequest | src/tools/advanced-reporting.ts:200-220 | the built compatibility request equals its specification |
| AdvancedReporting.CompatibilityRequestOptions | src/tools/advanced-reporting.ts:202-220 | dimensions and metrics only when non-empty, the filters and the compatibility filter only when truthy |
| AdvancedReporting.CompatibilityRequestOnlyOptions | src/tools/advanced-reporting.ts:200 | nothing but those five fields is ever sent |
| AdvancedReporting.CompatibilityNoOptions | src/tools/advanced-reporting.ts:200 | with no optional argument the request is `{}` |
| AdvancedReporting.CheckCompatibility | src/tools/advanced-reporting.ts:184-256 | one call carrying the compatibility request; success exactly when ready, the ID is a string and the call succeeds, and then the result is the response data; failures are tagged CompatibilityCheckError with their message |
| Admin.AccountSummaries | src/tools/admin.ts:13-50 | one parameterless call when ready; success exactly when it succeeds, giving its data; a readiness or call failure is an AccountSummariesError result carrying that message |
| Admin.PropertyDetails | src/tools/admin.ts:55-101 | one get addressed to the normalised property; success exactly when it succeeds, giving its data; a readiness or call failure is a PropertyDetailsError result carrying that message |
| Admin.GoogleAdsLinks | src/tools/admin.ts:167-213 | one list under the normalised property; success exactly when it succeeds, giving its data; a readiness or call failure is a GoogleAdsLinksError result carrying that message |
| Admin.OrEmptyList | src/tools/admin.ts:130-131 | `data.key \|\| []` fails exactly on null data, keeps a truthy field and is `[]` otherwise |
| Admin.CustomDimensionsAndMetrics | src/tools/admin.ts:106-162 | both list calls are made when ready; the first failure in call order is reported under CustomDefinitionsError with its message; null response data fails with the TypeError of reading `customDimensions`, or `customMetrics` when only the metrics data is null; success exactly when both succeed with non-null data, giving both lists |
| Admin.DefinitionsPayloadShape | src/tools/admin.ts:129-132 | the payload has exactly the keys customDimensions and customMetrics; a missing list is `[]` and a truthy one is kept |
| Admin.DefinitionCallsTarget | src/tools/admin.ts:119-122 | both list calls go to the normalised property |
| Metadata.MetadataName | src/tools/metadata.ts:28 | the metadata name lies under the normalised property and ends in `/metadata` |
| Metadata.GetMetadata | src/tools/metadata.ts:14-60 | one get of the metadata resource inside the property when ready; success exactly when it succeeds, giving its data; a readiness or call failure is a MetadataError result carrying that message |
| Audiences.BuildAudience | src/tools/audiences.ts:140-158 | the built audience equals its specification |
| Audiences.AudienceOption | src/tools/audiences.ts:144-158 | each optional audience field reads back as its rule's value |
| Audiences.AudienceBodySpec | src/tools/audiences.ts:140-158 | the display name is always sent; the description only when non-empty; the duration whenever defined; a truthy filter expression becomes exactly one filter clause wrapping it |
| Audiences.ZeroDurationSent | src/tools/audiences.ts:148-150 | a membership duration of 0 is sent |
| Audiences.CreateFailure | src/tools/audiences.ts:176-193 | a create failure carries the tag, the message and the suggestion |
| Audiences.Create | src/tools/audiences.ts:121-196 | one create inside the property carrying the built audience when ready; success exactly when ready and the create succeeds, giving its data; a readiness or call failure is the CreateAudienceError result carrying that message and the suggestion |
| Audiences.Handle | src/tools/audiences.ts:14-251 | list, get and archive make one call inside the normalised property; success exactly when ready and the operation's call succeeds; list and get answer the response data, archiving the data or `{ success: true }` when it is falsy; failures carry the operation's tag and message |
| Audiences.CallWithin | src/tools/audiences.ts:79 | every audience call is addressed inside the normalised property |
| ConversionEvents.BuildEvent | src/tools/conversion-events.ts:134-144 | the built event equals its specification |
| ConversionEvents.EventBodySpec | src/tools/conversion-events.ts:134-144 | the event name is always sent; the counting method and creation parameter only when non-empty; nothing else |
| ConversionEvents.Handle | src/tools/conversion-events.ts:13-238 | one call inside the normalised property when ready; success exactly when ready and the operation's call succeeds; a delete answers `{ success: true }`, every other operation the response data; failures carry the operation's tag and message |
| ConversionEvents.CallWithin | src/tools/conversion-events.ts:78 | every conversion-event call is addressed inside the normalised property |
| CustomDefinitions.BuildDimension | src/tools/custom-definitions.ts:30-38 | the built dimension equals its specification |
| CustomDefinitions.BuildMetric | src/tools/custom-definitions.ts:238-254 | the built metric equals its specification |
| CustomDefinitions.DimensionBodySpec | src/tools/custom-definitions.ts:30-38 | parameter name, display name and scope are always sent; the description only when non-empty |
| CustomDefinitions.MetricBodySpec | src/tools/custom-definitions.ts:238-254 | description and unit only when non-empty; restricted types only as a non-empty array, element for element |
| CustomDefinitions.ApplyUpdate | src/tools/custom-definitions.ts:108-122 | the in-place overwrite with mask pushes equals the specification update |
| CustomDefinitions.UpdatedDefinitionFields | src/tools/custom-definitions.ts:110-118 | an update overwrites only display name and description (an empty string counts as provided) and sends every other fetched field back unchanged |
| CustomDefinitions.UpdateMaskSpec | src/tools/custom-definitions.ts:108-126 | the mask is empty exactly when both fields are undefined, names each provided field and puts display_name first |
| CustomDefinitions.UpdateMaskRoundTrip | src/tools/custom-definitions.ts:126 | the sent mask splits back into its entries |
| CustomDefinitions.Handle | src/tools/custom-definitions.ts:13-430 | create and archive make one call inside the property; success exactly when ready and the operation's call succeeds; a create answers the response data; archiving sends `{}` and answers the data or `{ success: true }`; failures carry the tag and message |
| CustomDefinitions.CallWithin | src/tools/custom-definitions.ts:178 | every create and archive call is addressed inside the normalised property |
| CustomDefinitions.Update | src/tools/custom-definitions.ts:79-159 | fetch first, then at most one patch; not ready sends nothing; a failed fetch is reported with its message; a falsy definition is "<kind> not found"; a patch that cannot be derived (nothing to update) sends nothing more and fails with the derivation's message; otherwise the patch goes to the same name carrying the updated definition and the mask, and the result is the patch's data or its error; tag UpdateCustomDimensionError or UpdateCustomMetricError |
| DataFilters.ParseFilterStateSpec | src/tools/data-filters.ts:10-20 | a state is accepted exactly when its upper-case form is ACTIVE, INACTIVE or TESTING, and the result is that form; otherwise the message names the input |
| DataFilters.ParseFilterStateIgnoresCase | src/tools/data-filters.ts:13 | spellings that differ only in case parse alike |
| DataFilters.ParseFilterStateIdempotent | src/tools/data-filters.ts:13-15 | a parsed state parses to itself |
| DataFilters.ParseFilterStateExamples | src/tools/data-filters.ts:10-20 | `active` and `Testing` are accepted; `FILTER_STATE_UNSPECIFIED` and the empty string are refused |
| DataFilters.BuildDataFilter | src/tools/data-filters.ts:148-170 | the built filter, or the thrown message, equals the specification |
| DataFilters.StateCheckedFirst | src/tools/data-filters.ts:148 | an invalid state fails with the state message whatever the type |
| DataFilters.ParameterNameUnused | src/tools/data-filters.ts:150-170 | parameter_name has no effect on the filter |
| DataFilters.DataFilterBodySpec | src/tools/data-filters.ts:150-170 | the name and parsed state are always set; internal traffic needs a non-empty value, which becomes its traffic type; developer traffic gets an empty filter; other types fail |
| DataFilters.ApplyUpdate | src/tools/data-filters.ts:241-266 | the in-place overwrite with mask pushes equals the specification update |
| DataFilters.UpdateMaskSpec | src/tools/data-filters.ts:241-266 | the mask names exactly the provided fields, display_name first and the traffic type last, and is empty only when nothing is provided |
| DataFilters.UpdatedFilterFields | src/tools/data-filters.ts:243-262 | a field the mask does not name keeps its fetched value and a named one takes the new value |
| DataFilters.UpdatedTrafficType | src/tools/data-filters.ts:253-256 | a traffic-type update writes into the existing internal-traffic filter and keeps its other fields |
| DataFilters.UpdateMaskRoundTrip | src/tools/data-filters.ts:270 | the sent mask splits back into its entries |
| DataFilters.Handle | src/tools/data-filters.ts:25-357 | list, get, create and delete make at most one call inside the property; success exactly when ready, the request can be built and the call succeeds; an invalid create sends nothing and fails with the state or type message; a delete answers `{ success: true }`, the others the response data |
| DataFilters.CallWithin | src/tools/data-filters.ts:90 | every data-filter call is addressed inside the normalised property; a create carries the filter |
| DataFilters.FilterNameWithin | src/tools/data-filters.ts:90 | a call addressed to a filter name is inside the property |
| DataFilters.CreateCallWithin | src/tools/data-filters.ts:172-175 | a create is addressed to the property and carries the built filter |
| DataFilters.Update | src/tools/data-filters.ts:211-303 | fetch first, then at most one patch; not ready sends nothing; a failed fetch is reported with its message; a falsy filter is "Data filter not found"; a patch that cannot be derived (nothing to update) sends nothing more and fails with the derivation's message; otherwise the patch goes to the same name carrying the updated filter and the mask, and the result is the patch's data or its error; tag UpdateDataFilterError |
| DataStreams.SecretInsideStream | src/tools/data-streams.ts:251 | a secret name lies inside its stream and inside the normalised property |
| DataStreams.NestedNames | src/tools/data-streams.ts:251 | a name nested two levels down starts with its parent's and its grandparent's names |
| DataStreams.Handle | src/tools/data-streams.ts:13-288 | one call inside the property when ready; success exactly when ready and the operation's call succeeds; secret calls are addressed to the stream or a secret in it; a created secret is exactly `{ displayName }`; a delete answers `{ success: true }`, the others the response data |
| DataStreams.CallWithin | src/tools/data-streams.ts:132-196 | every stream and secret call is addressed inside the normalised property |
| Integrations.PropertyName | src/tools/integrations.ts:13-19 | getPropertyName equals normalisation |
| Integrations.FindLink | src/tools/integrations.ts:87-90 | `find` with the name test: the index of the first link whose name is exactly the composed name, with no null before it; none when no link matches and none is null; the null-property TypeError when a null element is reached before any match |
| Integrations.GetFirebaseLink | src/tools/integrations.ts:73-125 | one list call under the property, made only when ready; success exactly when ready, the list call succeeds and a link so named is found, and then the payload is that link, not the list; a missing list or no match is "Firebase link not found: <name>"; null data or a null element reached fails with the TypeError message; tag GetFirebaseLinkError |
| Integrations.LinkFromListSpec | src/tools/integrations.ts:87-93 | the first link so named is the one returned when no null precedes it |
| Integrations.NoMatchNotFound | src/tools/integrations.ts:87-94 | a list with no link so named and no null element is "Firebase link not found" |
| Integrations.NullsThrow | src/tools/integrations.ts:87-90 | null data fails reading `firebaseLinks`; a null element before any match fails reading `name` |
| Integrations.MissingListFindsNothing | src/tools/integrations.ts:87 | an object response without `firebaseLinks` finds nothing |
| Integrations.Handle | src/tools/integrations.ts:26-409 | the other seven handlers make one call inside the property; success exactly when ready and the operation's call succeeds; a created Firebase link is exactly `{ project }`; a delete answers `{ success: true }`, the others the response data |
| Integrations.CallWithin | src/tools/integrations.ts:138-143 | every integration call is addressed inside the normalised property |
| KeyEvents.PropertyName | src/tools/key-events.ts:13-19 | getPropertyName equals normalisation |
| KeyEvents.BuildKeyEvent | src/tools/key-events.ts:126-136 | the built key event equals its specification |
| KeyEvents.KeyEventBodySpec | src/tools/key-events.ts:126-136 | the event name is always sent; counting method and description exactly when non-empty |
| KeyEvents.BuildKeyEventPatch | src/tools/key-events.ts:199-214 | the built patch body and mask equal the specification |
| KeyEvents.KeyEventPatchSpec | src/tools/key-events.ts:199-214 | the patch fails exactly when both fields are undefined; otherwise a fresh body holds the name and each provided field (an empty string included) |
| KeyEvents.UpdateMaskSpec | src/tools/key-events.ts:199-210 | the mask lists the provided fields, counting_method first |
| KeyEvents.UpdateMaskRoundTrip | src/tools/key-events.ts:218 | the sent mask splits back into its entries |
| KeyEvents.Handle | src/tools/key-events.ts:24-300 | one call inside the property; success exactly when ready and the operation's call succeeds; archiving is a delete answering `{ success: true }`, the others answer the response data; failures carry the operation's tag and message |
| KeyEvents.CallWithin | src/tools/key-events.ts:75-79 | every key-event call is addressed inside the normalised property |
| KeyEvents.Update | src/tools/key-events.ts:177-251 | fetch first, then at most one patch; not ready sends nothing; a failed fetch is reported with its message; a falsy key event is "Key event not found"; a patch that cannot be derived (nothing to update) sends nothing more and fails with the derivation's message; otherwise the patch goes to the same name carrying the fresh patch body and the mask, and the result is the patch's data or its error; tag UpdateKeyEventError |
| ToolsIndex.ErrorTag | src/tools/index.ts:40 | the tag is the given error when non-empty, else "Error" |
| ToolsIndex.CreateErrorResult | src/tools/index.ts:27-69 | the response built field by field gives the specification result, an error with one content item |
| ToolsIndex.AssignDefined | src/tools/index.ts:44-52 | the suggestion, provided and expected assignments give the specification object |
| ToolsIndex.AssignGiven | src/tools/index.ts:53-58 | the range and options assignments give the specification object |
| ToolsIndex.ErrorResponseAssigned | src/tools/index.ts:38-58 | the five conditional assignments in order give the response object |
| ToolsIndex.ErrorExtra | src/tools/index.ts:44-58 | each optional field reads back as its rule's value |
| ToolsIndex.ErrorBaseKey | src/tools/index.ts:38-42 | any other key is read from the three base fields |
| ToolsIndex.ErrorResponseSpec | src/tools/index.ts:38-58 | `success: false`, the tag and the message; the suggestion only when truthy; provided and expected exactly when defined; range and options whenever given; nothing else |
| ToolsIndex.ErrorResultFails | src/tools/index.ts:60-68 | every error result is an error with one content item carrying its tag |
| ToolsIndex.ValidationErrorSpec | src/tools/index.ts:74-90 | tagged ValidationError; a suggestion always (the default names the parameter); provided exactly when defined; expected always; no range or options; the message quotes the JSON of the value |
| ToolsIndex.Declared | src/tools/index.ts:96 | a declared tool list keeps the names in order |
| ToolsIndex.NamesOf | src/tools/index.ts:115 | the names of the tools, in order |
| ToolsIndex.GetToolDefinitions | src/tools/index.ts:95-97 | the registry is the report tools, then the admin tools, then the data-filter tools |
| ToolsIndex.RegistryNamesDistinct | src/tools/index.ts:95-97 | no two registered tools share a name |
| ToolsIndex.FindTool | src/tools/index.ts:109 | none exactly when the name is not registered; otherwise the first tool with that name |
| ToolsIndex.Dispatch | src/tools/index.ts:108-133 | over any tool list: an unknown name is an UnknownTool error listing that list's names; a known one runs the first tool so named and returns its result unchanged, or a ToolExecutionError on rejection |
| ToolsIndex.HandleToolCall | src/tools/index.ts:102-134 | an unknown name is an UnknownTool error; a known one runs the first tool so named and returns its result unchanged, or a ToolExecutionError on rejection |
| ToolsIndex.UnknownToolSpec | src/tools/index.ts:111-117 | an unknown tool is reported with its name and a suggestion listing every registered name in order |
| ToolsIndex.ExecutionErrorSpec | src/tools/index.ts:124-133 | a rejected handler gives a ToolExecutionError carrying the rejection's message |
| ToolsIndex.MetadataNotDispatchable | src/tools/index.ts:95-97 | get_metadata is declared but calling it answers UnknownTool |
| ToolsIndex.Unregistered | src/tools/index.ts:108-117 | every name outside the registry answers UnknownTool |
| ToolsIndex.AudiencesToolsNotDispatchable | src/tools/index.ts:95-97 | every audience tool answers UnknownTool, since none is in the registry |
| ToolsIndex.ConversionEventsToolsNotDispatchable | src/tools/index.ts:95-97 | every conversion-event tool answers UnknownTool, since none is in the registry |
| ToolsIndex.CustomDefinitionsToolsNotDispatchable | src/tools/index.ts:95-97 | every custom-definition tool answers UnknownTool, since none is in the registry |
| ToolsIndex.KeyEventsToolsNotDispatchable | src/tools/index.ts:95-97 | every key-event tool answers UnknownTool, since none is in the registry |
| ToolsIndex.AdvancedReportingToolsNotDispatchable | src/tools/index.ts:95-97 | every advanced-reporting tool answers UnknownTool, since none is in the registry |
| ToolsIndex.DataStreamsToolsNotDispatchable | src/tools/index.ts:95-97 | every data-stream tool answers UnknownTool, since none is in the registry |
| ToolsIndex.IntegrationsToolsNotDispatchable | src/tools/index.ts:95-97 | every integration tool answers UnknownTool, since none is in the registry |
| AnalyticsClients.ClientManager.constructor | src/analytics.ts:17-21 | no client, no authenticated client, OAuth2 recorded |
| AnalyticsClients.ClientManager.GetDataClient | src/analytics.ts:114-121 | the data client when present, else the "not initialized" message |
| AnalyticsClients.ClientManager.GetAdminClient | src/analytics.ts:123-130 | the admin client when present, else its message |
| AnalyticsClients.ClientManager.GetAdminAlphaClient | src/analytics.ts:132-139 | the admin alpha client when present, else its message |
| AnalyticsClients.ClientManager.ClientsOf | src/analytics.ts:161-165 | the three clients exactly when all are initialised; the data getter's error comes first |
| AnalyticsClients.ClientManager.AuthClientOf | src/analytics.ts:185-189 | the authenticated client when present, else "Authentication client not available" |
| AnalyticsClients.ClientManager.Initialize | src/analytics.ts:27-112 | success exactly when some method authenticates; then all three clients are recreated over that client and the method is recorded; otherwise nothing changes and the all-methods-failed message is thrown |
| AnalyticsClients.ClientManager.EnsureClients | src/analytics.ts:149-166 | initialises only when a client is missing, and after a successful initialisation holds the three clients over the authenticated client, records it and its method and is initialised; otherwise changes nothing and refreshes the token only under OAuth2, with no fallback on failure |
| AnalyticsClients.ClientManager.ResetForTesting | src/analytics.ts:168-173 | drops the clients and the authenticated client, keeping the recorded method |
| AnalyticsClients.ClientManager.GetAuthenticatedHttpClient | src/analytics.ts:179-190 | initialises when needed; fails only when initialisation does, and then nothing changed; otherwise returns the authenticated client, recorded with its method, with every client initialised |
| AnalyticsClients.ReadinessOf | src/analytics.ts:149-166 | a handler is ready exactly when ensureAnalyticsClients returns, else it sees the thrown message |
| AnalyticsClients.OAuthNeedsBothVariables | src/analytics.ts:35 | without both variables OAuth2 is never used and ADC decides |
| AnalyticsClients.OAuthFailureFallsBack | src/analytics.ts:43-52 | a failed OAuth2 attempt falls back to ADC |
| AnalyticsClients.AllMethodsFailOnlyTogether | src/analytics.ts:75-84 | initialisation throws exactly when both methods fail |

## Left out

- Logging (the `logger` calls) is not modelled: it has no effect on results.
- `Promise.all` in getCustomDimensionsAndMetrics is treated as two calls made in order. When both fail, the first one's message is reported.
- Tool descriptions and input schemas are not modelled. Only the tool names of each declaration list are.
- The OAuth2 module (`ensureValidToken`, `getOAuth2Client`), `GoogleAuth.getClient` and the environment variables are parameters. `getProjectId` only affects a log line. `src/auth/` and `server.ts` are not part of this model.
- Numbers are integers. Floating-point limits, offsets and durations are not modelled.
- JavaScript `Date` parsing is a parameter of `Utils.IsValidDateRange` (`calendarOk`).
- `toUpperCase` is modelled on ASCII letters only. Unicode case mapping is left out.
- `JSON.stringify(..., null, 2)` is not modelled. A content item holds the payload that would be printed.
- The googleapis client libraries are not modelled. An API call is its method name and parameter object, and the API is an oracle.
- AnalyticsClients.OAuthNeedsBothVariables, AnalyticsClients.OAuthFailureFallsBack and AnalyticsClients.AllMethodsFailOnlyTogether follow directly from the definition of `Authenticate`, so they need no proof steps.
- Arguments are assumed to have their declared TypeScript types: none is missing, `null` or of another type. The runtime does not check them. A missing `property_id` would be sent as `properties/undefined` (`src/tools/reports.ts:29`) or fail with a `startsWith` TypeError in the handlers that test the prefix. A `null` limit, offset or `membership_duration_days` would be sent as `null` (`src/tools/reports.ts:54-60`, `src/tools/audiences.ts:148-150`).
- Common.Decimal: matches JavaScript's number-to-string conversion only below 10^21; from 1e21 up JavaScript prints exponent notation (`1e+21`), which the model does not.
- DataFilters.Update: the fetched filter is assumed to be an object, or a falsy value (which gives "not found"). Property assignment on a truthy primitive (a string, a number, `true`) or on an array is modelled by Json.Put as having no effect; strict-mode JavaScript would throw a TypeError on a primitive, and an array would carry the property without serialising it. Whether the compiled module runs in strict mode depends on build configuration that is not part of this model.
- CustomDefinitions.Update: the same assumption about the fetched definition, for the same reason.
- KeyEvents.Update: the patch body is a fresh object, so only the falsy test of the fetched key event depends on its type.
