/**
 The messages exchanged with the remote data-loss-prevention service, as typed
 values. The client builds its requests from nested dictionaries and protobuf
 message classes; each of those shapes is one datatype here, field for field.
 */
module DlpWire {

  /** A category of sensitive data the service can recognise ("info type"). */
  datatype InfoType = InfoType(name: string)

  /** The scan configuration: `{"info_types": [{"name": ...}, ...]}`. */
  datatype InspectConfig = InspectConfig(infoTypes: seq<InfoType>)

  /** The primitive of a transformation; the client only ever uses
      `{"replace_with_info_type_config": {}}`. */
  datatype PrimitiveTransformation = ReplaceWithInfoTypeConfig

  /** One rule: apply `primitiveTransformation` to every match of `infoTypes`. */
  datatype InfoTypeTransformation =
    InfoTypeTransformation(primitiveTransformation: PrimitiveTransformation, infoTypes: seq<InfoType>)

  /** `{"transformations": [...]}` */
  datatype InfoTypeTransformations = InfoTypeTransformations(transformations: seq<InfoTypeTransformation>)

  /** `DeidentifyConfig(info_type_transformations = ...)` */
  datatype DeidentifyConfig = DeidentifyConfig(infoTypeTransformations: InfoTypeTransformations)

  /** The content item of a request: `{"value": content}`. */
  datatype ContentItem = ContentItem(value: string)

  datatype InspectContentRequest = InspectContentRequest(item: ContentItem, inspectConfig: InspectConfig)

  datatype DeidentifyContentRequest =
    DeidentifyContentRequest(item: ContentItem, deidentifyConfig: DeidentifyConfig, inspectConfig: InspectConfig)

  /** One match reported by the service. Offsets and lengths are the service's
      integers, taken as they come: nothing checks their sign or range. */
  datatype Finding = Finding(infoType: InfoType, byteOffset: int, byteLength: int, quote: string)

  datatype InspectContentResponse = InspectContentResponse(findings: seq<Finding>)

  /** The caller-facing form of a finding:
      `{"info_type", "start_idx", "end_idx", "context"}`. */
  datatype InspectResult = InspectResult(infoType: string, startIdx: int, endIdx: int, context: string)

  /** The ways a client call fails: a Python `AttributeError` for an instance
      attribute that was never assigned, the client's own `ValueError`, and a
      failure reported by the remote call. */
  datatype Error =
    | AttributeError(attribute: string)
    | ValueError(message: string)
    | RpcError(detail: string)

  /** What the remote call gives back: the service's reply, or the detail of a
      transport or service failure. */
  datatype RpcOutcome<T> = Replied(response: T) | CallFailed(detail: string)

  datatype Option<T> = None | Some(value: T)

  datatype Result<T> = Success(value: T) | Failure(error: Error)
}
