/** The tool registry and dispatcher (src/tools/index.ts): the standard
    error result, the validation error built on it, the list of
    dispatchable tools, and the call that finds a tool by name and runs its
    handler. */
module ToolsIndex {
  import opened Common
  import opened Json
  import opened Mcp
  import Reports
  import Admin
  import DataFilters
  import AdvancedReporting
  import Audiences
  import ConversionEvents
  import CustomDefinitions
  import DataStreams
  import Integrations
  import KeyEvents
  import Metadata

  // ---------------------------------------------------------------------
  // createErrorResult

  /** The optional second argument of createErrorResult; an absent field
      is `undefined`. */
  datatype ErrorOptions = ErrorOptions(
    error: Option<string>,
    suggestion: Option<string>,
    provided: Option<Json>,
    expected: Option<Json>,
    validRange: Option<(int, int)>,
    validOptions: Option<seq<string>>)

  const NoOptions := ErrorOptions(None, None, None, None, None, None)

  /** `options?.error || "Error"` */
  function ErrorTag(options: ErrorOptions): (r: string)
    ensures r != ""
    ensures NonEmpty(options.error) ==> r == options.error.value
    ensures !NonEmpty(options.error) ==> r == "Error"
  {
    if NonEmpty(options.error) then options.error.value else "Error"
  }

  /** The three fields every error response starts with. */
  function ErrorBase(message: string, options: ErrorOptions): seq<(string, Json)> {
    [("success", JBool(false)), ("error", JStr(ErrorTag(options))), ("message", JStr(message))]
  }

  /** The five optional fields in the order they are assigned: the
      suggestion when truthy, provided and expected when not `undefined`,
      and the range and options whenever given (an array is always
      truthy). */
  function ErrorExtras(options: ErrorOptions): seq<(string, Option<Json>)> {
    [("suggestion", IfNonEmpty(options.suggestion)),
     ("provided", options.provided),
     ("expected", options.expected),
     ("validRange", if options.validRange.Some? then Some(JArr([JNum(options.validRange.value.0), JNum(options.validRange.value.1)])) else None),
     ("validOptions", if options.validOptions.Some? then Some(StringArray(options.validOptions.value)) else None)]
  }

  /** errorResponse once every assignment has run. */
  function ErrorResponse(message: string, options: ErrorOptions): Json {
    JObj(ErrorBase(message, options) + Fields(ErrorExtras(options)))
  }

  /** The result createErrorResult returns. */
  function ErrorResult(message: string, options: ErrorOptions): ToolResult {
    ToolResult([Text(ErrorResponse(message, options))], true)
  }

  /** createErrorResult: the response object is built field by field. */
  method CreateErrorResult(message: string, options: ErrorOptions) returns (r: ToolResult)
    ensures r == ErrorResult(message, options)
    ensures r.isError && |r.content| == 1
  {
    var response := JObj([("success", JBool(false)), ("error", JStr(if NonEmpty(options.error) then options.error.value else "Error")), ("message", JStr(message))]);
    response := AssignDefined(response, options);
    response := AssignGiven(response, options);
    ErrorResponseAssigned(message, options);
    r := ToolResult([Text(response)], true);
  }

  /** The suggestion when truthy, then provided and expected when defined. */
  method AssignDefined(response: Json, options: ErrorOptions) returns (r: Json)
    ensures r == PutIf3(response, "suggestion", ErrorExtras(options)[0].1, "provided", ErrorExtras(options)[1].1,
                        "expected", ErrorExtras(options)[2].1)
  {
    r := response;
    if options.suggestion.Some? && options.suggestion.value != "" {
      r := Put(r, "suggestion", JStr(options.suggestion.value));
    }
    if options.provided.Some? {
      r := Put(r, "provided", options.provided.value);
    }
    if options.expected.Some? {
      r := Put(r, "expected", options.expected.value);
    }
  }

  /** The valid range and the valid options whenever given. */
  method AssignGiven(response: Json, options: ErrorOptions) returns (r: Json)
    ensures r == PutIf(PutIf(response, "validRange", ErrorExtras(options)[3].1), "validOptions", ErrorExtras(options)[4].1)
  {
    r := response;
    if options.validRange.Some? {
      r := Put(r, "validRange", JArr([JNum(options.validRange.value.0), JNum(options.validRange.value.1)]));
    }
    if options.validOptions.Some? {
      r := Put(r, "validOptions", StringArray(options.validOptions.value));
    }
  }

  /** The five conditional assignments, one after the other, give the
      response object. */
  lemma ErrorResponseAssigned(message: string, options: ErrorOptions)
    ensures ErrorResponse(message, options) ==
      PutIf(PutIf(PutIf3(JObj(ErrorBase(message, options)),
                         "suggestion", ErrorExtras(options)[0].1, "provided", ErrorExtras(options)[1].1,
                         "expected", ErrorExtras(options)[2].1),
                  "validRange", ErrorExtras(options)[3].1),
            "validOptions", ErrorExtras(options)[4].1)
  {
    assert FreshKeys(ErrorBase(message, options), ErrorExtras(options)) by {
      assert "suggestion"[0] != "validRange"[0] && "provided"[0] != "expected"[0];
    }
    FiveSteps(ErrorBase(message, options), ErrorExtras(options));
  }

  lemma FiveSteps(base: seq<(string, Json)>, opts: seq<(string, Option<Json>)>)
    requires FreshKeys(base, opts) && |opts| == 5
    ensures JObj(base + Fields(opts)) ==
      PutIf(PutIf(PutIf3(JObj(base), opts[0].0, opts[0].1, opts[1].0, opts[1].1, opts[2].0, opts[2].1),
                  opts[3].0, opts[3].1),
            opts[4].0, opts[4].1)
  {
    assert base + Fields(opts[..0]) == base;
    AssignStep(base, opts, 0);
    AssignStep(base, opts, 1);
    AssignStep(base, opts, 2);
    AssignStep(base, opts, 3);
    AssignStep(base, opts, 4);
    assert opts[..5] == opts;
  }

  /** The eight properties an error response can have. */
  predicate ErrorKey(k: string) {
    k == "success" || k == "error" || k == "message" || k == "suggestion" ||
    k == "provided" || k == "expected" || k == "validRange" || k == "validOptions"
  }

  lemma ErrorExtra(options: ErrorOptions, message: string, i: nat)
    requires i < |ErrorExtras(options)|
    ensures Get(ErrorResponse(message, options), ErrorExtras(options)[i].0) == ErrorExtras(options)[i].1
  {
    var base := ErrorBase(message, options);
    assert FreshKeys(base, ErrorExtras(options)) by {
      assert "suggestion"[0] != "validRange"[0] && "provided"[0] != "expected"[0];
    }
    LookupFields(base, ErrorExtras(options), ErrorExtras(options)[i].0);
  }

  /** A key that no optional field uses is read from the three base
      fields. */
  lemma ErrorBaseKey(message: string, options: ErrorOptions, k: string)
    requires k != "suggestion" && k != "provided" && k != "expected" && k != "validRange" && k != "validOptions"
    ensures Get(ErrorResponse(message, options), k) == Lookup(ErrorBase(message, options), k)
  {
    var base := ErrorBase(message, options);
    assert FreshKeys(base, ErrorExtras(options)) by {
      assert "suggestion"[0] != "validRange"[0] && "provided"[0] != "expected"[0];
    }
    LookupFields(base, ErrorExtras(options), k);
  }

  /** What the error response holds: `success: false`, the tag (defaulting
      to "Error"), the message; the suggestion only when it is truthy;
      provided and expected exactly when defined, whatever their value;
      the valid range and options whenever given; and nothing else. */
  lemma ErrorResponseSpec(message: string, options: ErrorOptions)
    ensures Get(ErrorResponse(message, options), "success") == Some(JBool(false))
    ensures Get(ErrorResponse(message, options), "error") == Some(JStr(ErrorTag(options)))
    ensures Get(ErrorResponse(message, options), "message") == Some(JStr(message))
    ensures Has(ErrorResponse(message, options), "suggestion") <==> NonEmpty(options.suggestion)
    ensures NonEmpty(options.suggestion) ==> Get(ErrorResponse(message, options), "suggestion") == Some(JStr(options.suggestion.value))
    ensures Get(ErrorResponse(message, options), "provided") == options.provided
    ensures Get(ErrorResponse(message, options), "expected") == options.expected
    ensures Has(ErrorResponse(message, options), "validRange") <==> options.validRange.Some?
    ensures Has(ErrorResponse(message, options), "validOptions") <==> options.validOptions.Some?
    ensures forall k :: !ErrorKey(k) ==> !Has(ErrorResponse(message, options), k)
  {
    var base := ErrorBase(message, options);
    ErrorBaseKey(message, options, "success");
    LookupIndex(base, "success", 0);
    ErrorBaseKey(message, options, "error");
    LookupIndex(base, "error", 1);
    ErrorBaseKey(message, options, "message");
    assert "message"[0] != "success"[0];
    LookupIndex(base, "message", 2);
    ErrorExtra(options, message, 0);
    ErrorExtra(options, message, 1);
    ErrorExtra(options, message, 2);
    ErrorExtra(options, message, 3);
    ErrorExtra(options, message, 4);
    assert Keys(base) == ["success", "error", "message"];
    forall k | !ErrorKey(k)
      ensures !Has(ErrorResponse(message, options), k)
    {
      ErrorBaseKey(message, options, k);
      LookupKeys(base, k);
    }
  }

  /** Every error result is an error with one content item carrying its
      tag. */
  lemma ErrorResultFails(message: string, options: ErrorOptions)
    ensures FailedWith(ErrorResult(message, options), ErrorTag(options))
    ensures ErrorResult(message, options).isError && |ErrorResult(message, options).content| == 1
  {
    ErrorResponseSpec(message, options);
  }

  // ---------------------------------------------------------------------
  // createValidationError

  /** `Please provide a valid value for '<param>'` */
  function DefaultSuggestion(paramName: string): string {
    "Please provide a valid value for '" + paramName + "'"
  }

  /** `Invalid value for '<param>': <JSON of provided>. <expected>`, where
      the JSON of `undefined` is the text "undefined". */
  function ValidationMessage(paramName: string, provided: Option<Json>, expected: string): string {
    "Invalid value for '" + paramName + "': " + StringifyArg(provided) + ". " + expected
  }

  function ValidationOptions(paramName: string, provided: Option<Json>, expected: string, suggestion: Option<string>): ErrorOptions {
    ErrorOptions(Some("ValidationError"),
                 Some(if NonEmpty(suggestion) then suggestion.value else DefaultSuggestion(paramName)),
                 provided, Some(JStr(expected)), None, None)
  }

  /** createValidationError */
  function CreateValidationError(paramName: string, provided: Option<Json>, expected: string, suggestion: Option<string>): ToolResult {
    ErrorResult(ValidationMessage(paramName, provided, expected), ValidationOptions(paramName, provided, expected, suggestion))
  }

  /** A validation error is tagged "ValidationError", always carries a
      suggestion (the caller's when truthy, otherwise the default naming
      the parameter), echoes `provided` exactly when it is defined and
      always echoes `expected`, and gives no range or options. */
  lemma ValidationErrorSpec(paramName: string, provided: Option<Json>, expected: string, suggestion: Option<string>)
    ensures FailedWith(CreateValidationError(paramName, provided, expected, suggestion), "ValidationError")
    ensures Get(CreateValidationError(paramName, provided, expected, suggestion).content[0].payload, "suggestion")
      == Some(JStr(if NonEmpty(suggestion) then suggestion.value else DefaultSuggestion(paramName)))
    ensures Get(CreateValidationError(paramName, provided, expected, suggestion).content[0].payload, "provided") == provided
    ensures Get(CreateValidationError(paramName, provided, expected, suggestion).content[0].payload, "expected") == Some(JStr(expected))
    ensures !Has(CreateValidationError(paramName, provided, expected, suggestion).content[0].payload, "validRange")
    ensures !Has(CreateValidationError(paramName, provided, expected, suggestion).content[0].payload, "validOptions")
    ensures Get(CreateValidationError(paramName, provided, expected, suggestion).content[0].payload, "message")
      == Some(JStr(ValidationMessage(paramName, provided, expected)))
  {
    var options := ValidationOptions(paramName, provided, expected, suggestion);
    ErrorResponseSpec(ValidationMessage(paramName, provided, expected), options);
  }

  // ---------------------------------------------------------------------
  // getToolDefinitions and handleToolCall

  /** A tool descriptor, identified by the file that declares it and its
      name; descriptions and input schemas are not modelled. */
  datatype ToolDefinition = ToolDefinition(origin: string, name: string)

  function Declared(origin: string, names: seq<string>): (r: seq<ToolDefinition>)
    ensures |r| == |names|
    ensures forall i :: 0 <= i < |names| ==> r[i] == ToolDefinition(origin, names[i])
  {
    seq(|names|, i requires 0 <= i < |names| => ToolDefinition(origin, names[i]))
  }

  function NamesOf(tools: seq<ToolDefinition>): (r: seq<string>)
    ensures |r| == |tools|
    ensures forall i :: 0 <= i < |tools| ==> r[i] == tools[i].name
  {
    seq(|tools|, i requires 0 <= i < |tools| => tools[i].name)
  }

  /** getToolDefinitions: the report tools, then the admin tools, then the
      data-filter tools. */
  function GetToolDefinitions(): (r: seq<ToolDefinition>)
    ensures NamesOf(r) == Reports.ToolNames + Admin.ToolNames + DataFilters.ToolNames
  {
    var r := Declared("reports", Reports.ToolNames) + Declared("admin", Admin.ToolNames)
      + Declared("data-filters", DataFilters.ToolNames);
    assert NamesOf(r) == Reports.ToolNames + Admin.ToolNames + DataFilters.ToolNames;
    r
  }

  /** No two registered tools share a name, so a name finds at most one
      tool and the unknown-tool suggestion lists each name once. */
  lemma RegistryNamesDistinct()
    ensures forall i, j :: 0 <= i < j < |NamesOf(GetToolDefinitions())| ==>
      NamesOf(GetToolDefinitions())[i] != NamesOf(GetToolDefinitions())[j]
  {
    assert NamesOf(GetToolDefinitions()) == Reports.ToolNames + Admin.ToolNames + DataFilters.ToolNames;
    assert NamesOf(GetToolDefinitions()) ==
      ["run_report", "run_realtime_report",
       "get_account_summaries", "get_property_details", "get_custom_dimensions_and_metrics", "list_google_ads_links",
       "list_data_filters", "get_data_filter", "create_data_filter", "update_data_filter", "delete_data_filter"];
  }

  /** `tools.find(t => t.name === name)`, as the index of the tool found. */
  function FindTool(tools: seq<ToolDefinition>, name: string): (r: Option<nat>)
    ensures r.None? <==> name !in NamesOf(tools)
    ensures r.Some? ==> r.value < |tools| && tools[r.value].name == name
    ensures r.Some? ==> forall j :: 0 <= j < r.value ==> tools[j].name != name
    decreases |tools|
  {
    if |tools| == 0 then None
    else if tools[0].name == name then Some(0)
    else
      match FindTool(tools[1..], name)
      case None => None
      case Some(i) => Some(i + 1)
  }

  /** How a handler's promise settles: with its result, or rejected with
      the message of what it threw. The handlers are modelled in their own
      modules; here their behaviour is a parameter. */
  datatype Completion = Returned(result: ToolResult) | Threw(message: string)

  function UnknownToolOptions(tools: seq<ToolDefinition>): ErrorOptions {
    ErrorOptions(Some("UnknownTool"), Some("Available tools: " + Join(NamesOf(tools), ", ")), None, None, None, None)
  }

  function ExecutionErrorOptions(): ErrorOptions {
    ErrorOptions(Some("ToolExecutionError"), Some("Check the tool parameters and try again"), None, None, None, None)
  }

  /** The lookup and dispatch of handleToolCall over a given tool list. */
  function Dispatch(tools: seq<ToolDefinition>, name: string, args: Json, run: (ToolDefinition, Json) -> Completion): (r: ToolResult)
    ensures name !in NamesOf(tools) ==>
      r == ErrorResult("Unknown tool: " + name, UnknownToolOptions(tools))
    ensures name in NamesOf(tools) ==>
      exists i :: 0 <= i < |tools| && tools[i].name == name &&
        (forall j :: 0 <= j < i ==> tools[j].name != name) &&
        match run(tools[i], args)
        case Returned(result) => r == result
        case Threw(m) => r == ErrorResult("Tool execution failed: " + m, ExecutionErrorOptions())
  {
    match FindTool(tools, name)
    case None => ErrorResult("Unknown tool: " + name, UnknownToolOptions(tools))
    case Some(i) =>
      match run(tools[i], args)
      case Returned(result) => result
      case Threw(m) => ErrorResult("Tool execution failed: " + m, ExecutionErrorOptions())
  }

  /** handleToolCall: look the name up in the registry; run the first tool
      that has it and return its result unchanged, turning a rejection into
      a ToolExecutionError; an unknown name is an UnknownTool error that
      lists every registered name. */
  function HandleToolCall(name: string, args: Json, run: (ToolDefinition, Json) -> Completion): (r: ToolResult)
    ensures name !in NamesOf(GetToolDefinitions()) ==>
      r == ErrorResult("Unknown tool: " + name, UnknownToolOptions(GetToolDefinitions()))
    ensures name in NamesOf(GetToolDefinitions()) ==>
      exists i :: 0 <= i < |GetToolDefinitions()| && GetToolDefinitions()[i].name == name &&
        (forall j :: 0 <= j < i ==> GetToolDefinitions()[j].name != name) &&
        match run(GetToolDefinitions()[i], args)
        case Returned(result) => r == result
        case Threw(m) => r == ErrorResult("Tool execution failed: " + m, ExecutionErrorOptions())
  {
    Dispatch(GetToolDefinitions(), name, args, run)
  }

  /** An unknown tool is reported as such, with a suggestion that lists the
      registered names in order. */
  lemma UnknownToolSpec(name: string, args: Json, run: (ToolDefinition, Json) -> Completion)
    requires name !in NamesOf(GetToolDefinitions())
    ensures FailedWith(HandleToolCall(name, args, run), "UnknownTool")
    ensures Get(HandleToolCall(name, args, run).content[0].payload, "suggestion") ==
      Some(JStr("Available tools: " + Join(Reports.ToolNames + Admin.ToolNames + DataFilters.ToolNames, ", ")))
    ensures Get(HandleToolCall(name, args, run).content[0].payload, "message") == Some(JStr("Unknown tool: " + name))
  {
    ErrorResponseSpec("Unknown tool: " + name, UnknownToolOptions(GetToolDefinitions()));
  }

  /** A handler that rejects is reported as a ToolExecutionError whose
      message carries the rejection's. */
  lemma ExecutionErrorSpec(name: string, args: Json, run: (ToolDefinition, Json) -> Completion, i: nat)
    requires i < |GetToolDefinitions()| && GetToolDefinitions()[i].name == name
    requires forall j :: 0 <= j < i ==> GetToolDefinitions()[j].name != name
    requires run(GetToolDefinitions()[i], args).Threw?
    ensures FailedWith(HandleToolCall(name, args, run), "ToolExecutionError")
    ensures Get(HandleToolCall(name, args, run).content[0].payload, "message") ==
      Some(JStr("Tool execution failed: " + run(GetToolDefinitions()[i], args).message))
  {
    var tools := GetToolDefinitions();
    assert NamesOf(tools)[i] == name;
    ErrorResponseSpec("Tool execution failed: " + run(tools[i], args).message, ExecutionErrorOptions());
  }

  /** get_metadata is declared but not registered, so calling it answers
      UnknownTool. */
  lemma MetadataNotDispatchable(args: Json, run: (ToolDefinition, Json) -> Completion)
    ensures "get_metadata" in Metadata.ToolNames
    ensures FailedWith(HandleToolCall("get_metadata", args, run), "UnknownTool")
  {
    assert "get_metadata" !in Reports.ToolNames + Admin.ToolNames + DataFilters.ToolNames;
    UnknownToolSpec("get_metadata", args, run);
  }

  /** The names getToolDefinitions registers. */
  const RegisteredNames: seq<string> := Reports.ToolNames + Admin.ToolNames + DataFilters.ToolNames

  /** Names that are not registered all answer UnknownTool. */
  lemma Unregistered(names: seq<string>, args: Json, run: (ToolDefinition, Json) -> Completion)
    requires forall i :: 0 <= i < |names| ==> names[i] !in RegisteredNames
    ensures forall i :: 0 <= i < |names| ==> FailedWith(HandleToolCall(names[i], args, run), "UnknownTool")
  {
    forall i | 0 <= i < |names|
      ensures FailedWith(HandleToolCall(names[i], args, run), "UnknownTool")
    {
      UnknownToolSpec(names[i], args, run);
    }
  }

  // None of the tool lists below is part of the registry, so each of their
  // tools answers UnknownTool.

  /** The audience tools are not dispatchable. */
  lemma AudiencesToolsNotDispatchable(args: Json, run: (ToolDefinition, Json) -> Completion)
    ensures forall i :: 0 <= i < |Audiences.ToolNames| ==> FailedWith(HandleToolCall(Audiences.ToolNames[i], args, run), "UnknownTool")
  {
    Unregistered(Audiences.ToolNames, args, run);
  }

  /** The conversion-event tools are not dispatchable. */
  lemma ConversionEventsToolsNotDispatchable(args: Json, run: (ToolDefinition, Json) -> Completion)
    ensures forall i :: 0 <= i < |ConversionEvents.ToolNames| ==> FailedWith(HandleToolCall(ConversionEvents.ToolNames[i], args, run), "UnknownTool")
  {
    Unregistered(ConversionEvents.ToolNames, args, run);
  }

  /** The custom-definition tools are not dispatchable. */
  lemma CustomDefinitionsToolsNotDispatchable(args: Json, run: (ToolDefinition, Json) -> Completion)
    ensures forall i :: 0 <= i < |CustomDefinitions.ToolNames| ==> FailedWith(HandleToolCall(CustomDefinitions.ToolNames[i], args, run), "UnknownTool")
  {
    Unregistered(CustomDefinitions.ToolNames, args, run);
  }

  /** The key-event tools are not dispatchable. */
  lemma KeyEventsToolsNotDispatchable(args: Json, run: (ToolDefinition, Json) -> Completion)
    ensures forall i :: 0 <= i < |KeyEvents.ToolNames| ==> FailedWith(HandleToolCall(KeyEvents.ToolNames[i], args, run), "UnknownTool")
  {
    Unregistered(KeyEvents.ToolNames, args, run);
  }

  /** The advanced-reporting tools are not dispatchable. */
  lemma AdvancedReportingToolsNotDispatchable(args: Json, run: (ToolDefinition, Json) -> Completion)
    ensures forall i :: 0 <= i < |AdvancedReporting.ToolNames| ==> FailedWith(HandleToolCall(AdvancedReporting.ToolNames[i], args, run), "UnknownTool")
  {
    Unregistered(AdvancedReporting.ToolNames, args, run);
  }

  /** The data-stream tools are not dispatchable. */
  lemma DataStreamsToolsNotDispatchable(args: Json, run: (ToolDefinition, Json) -> Completion)
    ensures forall i :: 0 <= i < |DataStreams.ToolNames| ==> FailedWith(HandleToolCall(DataStreams.ToolNames[i], args, run), "UnknownTool")
  {
    Unregistered(DataStreams.ToolNames, args, run);
  }

  /** The integration tools are not dispatchable. */
  lemma IntegrationsToolsNotDispatchable(args: Json, run: (ToolDefinition, Json) -> Completion)
    ensures forall i :: 0 <= i < |Integrations.ToolNames| ==> FailedWith(HandleToolCall(Integrations.ToolNames[i], args, run), "UnknownTool")
  {
    Unregistered(Integrations.ToolNames, args, run);
  }
}
