/** The metadata tool (src/tools/metadata.ts): the dimensions and metrics a
    property offers, read from its `metadata` resource through the Data
    client. The tool is declared here but not registered for dispatch
    (see ToolsIndex.MetadataNotDispatchable). */
module Metadata {
  import opened Common
  import opened Json
  import opened Utils
  import opened Mcp

  const ToolNames: seq<string> := ["get_metadata"]

  const GetMetadataRpc := "data.properties.getMetadata"
  const MetadataTag := "MetadataError"

  /** `${propertyName}/metadata` */
  function MetadataName(propertyId: PropId): (r: string)
    ensures StartsWith(r, NormalizePropertyId(propertyId))
    ensures StartsWith(r, NormalizePropertyId(propertyId) + "/")
    ensures EndsWith(r, "/metadata")
  {
    var pn := InlinePropertyName(propertyId);
    var r := pn + "/metadata";
    assert r[..|pn + "/"|] == pn + "/";
    assert r[..|pn|] == pn;
    assert r[|r| - |"/metadata"|..] == "/metadata";
    r
  }

  function MetadataCall(propertyId: PropId): ApiCall {
    NameCall(GetMetadataRpc, MetadataName(propertyId), None)
  }

  /** getMetadata: one get of the property's metadata resource; its data is
      the success payload, and any failure is tagged `MetadataError`. */
  function GetMetadata(propertyId: PropId, ready: Readiness, api: Api): (o: Outcome)
    ensures o.calls == if ready.Ready? then [MetadataCall(propertyId)] else []
    ensures Within(MetadataCall(propertyId), NormalizePropertyId(propertyId))
    ensures Target(MetadataCall(propertyId)) == Some(MetadataName(propertyId))
    ensures !o.result.isError <==> ready.Ready? && api(MetadataCall(propertyId)).Ok?
    ensures !o.result.isError ==> o.result == Success(api(MetadataCall(propertyId)).value)
    ensures o.result.isError ==> FailedWith(o.result, MetadataTag)
    ensures ready.NotReady? ==> o.result == Failure(MetadataTag, ready.message)
    ensures ready.Ready? && api(MetadataCall(propertyId)).Err? ==> o.result == Failure(MetadataTag, api(MetadataCall(propertyId)).message)
    ensures |o.result.content| == 1
  {
    TargetOfBuiltCalls(GetMetadataRpc, MetadataName(propertyId), [], JNull);
    PrefixCallWithin(GetMetadataRpc, MetadataName(propertyId), NormalizePropertyId(propertyId), None);
    Forward(MetadataTag, ready, Ok(MetadataCall(propertyId)), AsReturned, api)
  }
}
