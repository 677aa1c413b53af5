/** The data-stream tools (src/tools/data-streams.ts): list and get the
    data streams of a property, and list, create and delete the
    Measurement Protocol secrets of a stream, through the Admin client. */
module DataStreams {
  import opened Common
  import opened Json
  import opened Utils
  import opened Mcp

  const ToolNames: seq<string> :=
    ["list_data_streams", "get_data_stream", "list_measurement_protocol_secrets",
     "create_measurement_protocol_secret", "delete_measurement_protocol_secret"]

  function StreamName(propertyId: PropId, streamId: string): string {
    ResourceName(InlinePropertyName(propertyId), "dataStreams", streamId)
  }

  /** The secret name: the stream name followed by
      `/measurementProtocolSecrets/<id>` (the source writes the whole name
      as one template over the property name and the two IDs). */
  function SecretName(propertyId: PropId, streamId: string, secretId: string): string {
    ResourceName(StreamName(propertyId, streamId), "measurementProtocolSecrets", secretId)
  }

  /** The secret lies inside its stream, and so inside the normalised
      property. */
  lemma SecretInsideStream(propertyId: PropId, streamId: string, secretId: string)
    ensures StartsWith(SecretName(propertyId, streamId, secretId), StreamName(propertyId, streamId))
    ensures StartsWith(SecretName(propertyId, streamId, secretId), NormalizePropertyId(propertyId))
  {
    NestedNames(InlinePropertyName(propertyId), "dataStreams", streamId, "measurementProtocolSecrets", secretId);
  }

  /** A name nested two levels down starts with its parent's name and with
      its grandparent's. */
  lemma NestedNames(pn: string, c1: string, id1: string, c2: string, id2: string)
    ensures StartsWith(ResourceName(ResourceName(pn, c1, id1), c2, id2), ResourceName(pn, c1, id1))
    ensures StartsWith(ResourceName(ResourceName(pn, c1, id1), c2, id2), pn)
  {
    var parent := ResourceName(pn, c1, id1);
    var rest := "/" + c2 + "/" + id2;
    assert ResourceName(parent, c2, id2) == parent + rest;
    ChildWithin(parent, rest);
    assert ResourceName(parent, c2, id2) == pn + (("/" + c1 + "/" + id1) + rest);
    ChildWithin(pn, ("/" + c1 + "/" + id1) + rest);
  }

  /** `{ displayName }` is the whole secret that is created. */
  function SecretBody(displayName: string): Json {
    JObj([("displayName", JStr(displayName))])
  }

  const ListStreamsRpc := "admin.properties.dataStreams.list"
  const GetStreamRpc := "admin.properties.dataStreams.get"
  const ListSecretsRpc := "admin.properties.dataStreams.measurementProtocolSecrets.list"
  const CreateSecretRpc := "admin.properties.dataStreams.measurementProtocolSecrets.create"
  const DeleteSecretRpc := "admin.properties.dataStreams.measurementProtocolSecrets.delete"

  datatype Op =
    | ListStreams(propertyId: PropId)
    | GetStream(propertyId: PropId, streamId: string)
    | ListSecrets(propertyId: PropId, streamId: string)
    | CreateSecret(propertyId: PropId, streamId: string, displayName: string)
    | DeleteSecret(propertyId: PropId, streamId: string, secretId: string)

  function Tag(op: Op): string {
    match op
    case ListStreams(_) => "ListDataStreamsError"
    case GetStream(_, _) => "GetDataStreamError"
    case ListSecrets(_, _) => "ListMeasurementProtocolSecretsError"
    case CreateSecret(_, _, _) => "CreateMeasurementProtocolSecretError"
    case DeleteSecret(_, _, _) => "DeleteMeasurementProtocolSecretError"
  }

  function Call(op: Op): ApiCall {
    match op
    case ListStreams(p) => ParentCall(ListStreamsRpc, InlinePropertyName(p), None)
    case GetStream(p, s) => NameCall(GetStreamRpc, StreamName(p, s), None)
    case ListSecrets(p, s) => ParentCall(ListSecretsRpc, StreamName(p, s), None)
    case CreateSecret(p, s, d) => ParentCall(CreateSecretRpc, StreamName(p, s), Some(SecretBody(d)))
    case DeleteSecret(p, s, id) => NameCall(DeleteSecretRpc, SecretName(p, s, id), None)
  }

  /** The five handlers: one request inside the normalised property; the
      secret requests are addressed to the stream or a secret inside it; a
      created secret is exactly `{ displayName }`; deleting a secret
      answers `{ success: true }`. */
  function Handle(op: Op, ready: Readiness, api: Api): (o: Outcome)
    ensures o.result.isError ==> FailedWith(o.result, Tag(op))
    ensures o.calls == if ready.Ready? then [Call(op)] else []
    ensures forall i :: 0 <= i < |o.calls| ==> Within(o.calls[i], NormalizePropertyId(op.propertyId))
    ensures (op.ListSecrets? || op.CreateSecret? || op.DeleteSecret?) ==>
      forall i :: 0 <= i < |o.calls| ==> Within(o.calls[i], StreamName(op.propertyId, op.streamId))
    ensures op.CreateSecret? ==> Get(Call(op).params, "requestBody") == Some(JObj([("displayName", JStr(op.displayName))]))
    ensures !o.result.isError <==> ready.Ready? && api(Call(op)).Ok?
    ensures ready.NotReady? ==> o.result == Failure(Tag(op), ready.message)
    ensures ready.Ready? && api(Call(op)).Err? ==> o.result == Failure(Tag(op), api(Call(op)).message)
    ensures !o.result.isError && !op.DeleteSecret? ==> o.result == Success(api(Call(op)).value)
    ensures op.DeleteSecret? && !o.result.isError ==> o.result == Success(SuccessFlag)
  {
    CallWithin(op);
    Forward(Tag(op), ready, Ok(Call(op)), if op.DeleteSecret? then Flag else AsReturned, api)
  }

  lemma CallWithin(op: Op)
    ensures Within(Call(op), NormalizePropertyId(op.propertyId))
    ensures (op.ListSecrets? || op.CreateSecret? || op.DeleteSecret?) ==>
      Within(Call(op), StreamName(op.propertyId, op.streamId))
    ensures op.CreateSecret? ==> Get(Call(op).params, "requestBody") == Some(JObj([("displayName", JStr(op.displayName))]))
  {
    var pn := InlinePropertyName(op.propertyId);
    match op
    case ListStreams(_) => ScopeCallWithin(ListStreamsRpc, pn, None);
    case GetStream(_, s) => ResourceCallWithin(GetStreamRpc, pn, "dataStreams", s, None);
    case ListSecrets(p, s) =>
      ResourceCallWithin(ListSecretsRpc, pn, "dataStreams", s, None);
      ScopeCallWithin(ListSecretsRpc, StreamName(p, s), None);
    case CreateSecret(p, s, d) =>
      ResourceCallWithin(CreateSecretRpc, pn, "dataStreams", s, Some(SecretBody(d)));
      ScopeCallWithin(CreateSecretRpc, StreamName(p, s), Some(SecretBody(d)));
      LookupIndex(Call(op).params.fields, "requestBody", 1);
    case DeleteSecret(p, s, id) =>
      SecretInsideStream(p, s, id);
      PrefixCallWithin(DeleteSecretRpc, SecretName(p, s, id), StreamName(p, s), None);
      PrefixCallWithin(DeleteSecretRpc, SecretName(p, s, id), pn, None);
  }
}
