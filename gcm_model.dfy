/** The request and response entities exchanged with the relay (the classes of the
    connector's model package), reduced to the fields the two connectors set or read.
    A field that a setter never touched is None, so it is left out of the JSON. */
module GcmModel {
  import opened Wrappers

  /** Java's int. */
  newtype int32 = x: int | -0x8000_0000 <= x < 0x8000_0000

  /** A JSON-serialisable value of a payload map. */
  datatype JsonValue =
    | JsonNull
    | JsonBool(b: bool)
    | JsonNumber(n: int)
    | JsonString(s: string)
    | JsonArray(items: seq<JsonValue>)
    | JsonObject(members: map<string, JsonValue>)

  /** The payload entity: its additional properties are the key-value pairs. */
  datatype Data = Data(additionalProperties: map<string, JsonValue>)

  /** The message_type values of an inbound envelope; a data message has none. */
  datatype MessageType = ACK | NACK | CONTROL

  /** An outbound CCS envelope. */
  datatype CcsRequest = CcsRequest(
    to: Option<string>,
    messageId: Option<string>,
    data: Option<Data>,
    delayWhileIdle: Option<bool>,
    timeToLive: Option<int32>)

  /** A CcsRequest as `new CcsRequest()` leaves it. */
  const EmptyCcsRequest := CcsRequest(None, None, None, None, None)

  /** An inbound CCS envelope. */
  datatype CcsResponse = CcsResponse(
    from: Option<string>,
    messageId: Option<string>,
    messageType: Option<MessageType>)

  /** An HTTP send request. */
  datatype GcmRequest = GcmRequest(
    registrationIds: seq<string>,
    notificationKey: Option<string>,
    notificationKeyName: Option<string>,
    collapseKey: Option<string>,
    delayWhileIdle: Option<bool>,
    timeToLive: Option<int32>,
    restrictedPackageName: Option<string>,
    dryRun: Option<bool>,
    data: Option<Data>)

  /** A GcmRequest as `new GcmRequest()` leaves it: an empty registration list. */
  const EmptyGcmRequest := GcmRequest([], None, None, None, None, None, None, None, None)

  /** The HTTP send response; the connectors only hand it on, so its members stay JSON. */
  datatype GcmResponse = GcmResponse(members: map<string, JsonValue>)

  /** The group-registration operations. */
  datatype Operation = CREATE | ADD | REMOVE

  /** A group-registration request. */
  datatype NotificationRequest = NotificationRequest(
    operation: Option<Operation>,
    notificationKeyName: Option<string>,
    registrationIds: seq<string>)

  /** A NotificationRequest as `new NotificationRequest()` leaves it. */
  const EmptyNotificationRequest := NotificationRequest(None, None, [])

  /** The group-registration response. */
  datatype NotificationResponse = NotificationResponse(notificationKey: Option<string>)

  /** The payload a request carries for an optional data map: a Data holding exactly the
      map's entries when the map is present and non-empty, otherwise none
      (MapUtils.isNotEmpty guarding new Data() and putAll). */
  function AttachData(data: Option<map<string, JsonValue>>): (r: Option<Data>)
    ensures r.Some? <==> data.Some? && |data.value| > 0
    ensures r.Some? ==> r.value.additionalProperties == data.value
  {
    if data.Some? && |data.value| > 0 then Some(Data(map[] + data.value)) else None
  }
}
