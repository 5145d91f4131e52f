/** The GCM (HTTP) connector: the send request and group-registration requests built
    field by field, the send URI, the request headers and the status check. The Mule
    HTTP client is a function from (uri, JSON body, headers) to (status, body); every
    call is recorded in `posted`. */
module Gcm {
  import opened Wrappers
  import opened JavaStrings
  import opened GcmModel

  const GCM_SEND_URI := "https://android.googleapis.com/gcm/send"
  const GCM_NOTIFICATION_URI := "https://android.googleapis.com/gcm/notification"
  const CONNECTOR_QUERY := "?connector="
  const HEADER_CONTENT_TYPE := "Content-Type"
  const HEADER_AUTHORIZATION := "Authorization"
  const PROJECT_ID_PROPERTY := "project_id"
  const MIME_TYPE_JSON := "application/json"
  const SC_OK := 200
  const DEFAULT_TIME_TO_LIVE: int32 := 2419200

  /** The entity an HTTP call serialises. */
  datatype Entity =
    | GcmEntity(gcm: GcmRequest)
    | NotificationEntity(notification: NotificationRequest)

  /** One call of the HTTP client. */
  datatype HttpPost = HttpPost(uri: string, entity: Entity, headers: map<string, string>)

  /** What the HTTP client returns: the http.status property and the payload. */
  datatype HttpResponse = HttpResponse(status: int, body: string)

  /** The exceptions of httpPostJson. */
  datatype GcmFailure =
    | UnexpectedStatus(status: int, entity: string)  // MessagingException "Received status code"
    | DeserializationFailed                          // the JSON codec cannot read the entity

  /** The send URI: GCM_SEND_URI, followed by ?connector=<name> when an HTTP connector
      is configured. */
  function SendUri(connectorName: Option<string>): (uri: string)
    ensures HasPrefix(uri, GCM_SEND_URI)
    ensures connectorName.None? <==> uri == GCM_SEND_URI
    ensures connectorName.Some? ==> uri[|GCM_SEND_URI|..] == CONNECTOR_QUERY + connectorName.value
  {
    GCM_SEND_URI + (if connectorName.Some? then CONNECTOR_QUERY + connectorName.value else "")
  }

  /** The URI determines the configured connector. */
  lemma SendUriInjective(a: Option<string>, b: Option<string>)
    requires SendUri(a) == SendUri(b)
    ensures a == b
  {
    if a.Some? && b.Some? {
      assert SendUri(a) == (GCM_SEND_URI + CONNECTOR_QUERY) + a.value;
      assert SendUri(b) == (GCM_SEND_URI + CONNECTOR_QUERY) + b.value;
      PrefixCancels(GCM_SEND_URI + CONNECTOR_QUERY, a.value, b.value);
    }
  }

  /** The request properties of httpPostJson: the JSON content type and the key
      authorisation always, project_id exactly when the project id is not blank. */
  function RequestHeaders(apiKey: string, projectId: Option<string>): (h: map<string, string>)
    ensures h.Keys == {HEADER_CONTENT_TYPE, HEADER_AUTHORIZATION} +
                      (if IsBlank(projectId) then {} else {PROJECT_ID_PROPERTY})
    ensures h[HEADER_CONTENT_TYPE] == MIME_TYPE_JSON
    ensures h[HEADER_AUTHORIZATION] == "key=" + apiKey
    ensures PROJECT_ID_PROPERTY in h ==> h[PROJECT_ID_PROPERTY] == projectId.value
  {
    var always := map[HEADER_CONTENT_TYPE := MIME_TYPE_JSON, HEADER_AUTHORIZATION := "key=" + apiKey];
    if IsBlank(projectId) then always else always[PROJECT_ID_PROPERTY := projectId.value]
  }

  /** The status check: anything but 200 is an error carrying status and payload, with
      nothing deserialised; 200 yields the deserialised entity or a codec failure. */
  function ResponseEntity<T>(response: HttpResponse, decode: string -> Option<T>): (r: Result<T, GcmFailure>)
    ensures response.status != SC_OK ==> r == Failure(UnexpectedStatus(response.status, response.body))
    ensures response.status == SC_OK ==> (r.Success? <==> decode(response.body).Some?)
    ensures r.Success? ==> response.status == SC_OK && Some(r.value) == decode(response.body)
    ensures r.Failure? && response.status == SC_OK ==> r.error == DeserializationFailed
  {
    if response.status != SC_OK then Failure(UnexpectedStatus(response.status, response.body))
    else match decode(response.body)
      case None => Failure(DeserializationFailed)
      case Some(entity) => Success(entity)
  }

  /** The notification key of a group-registration response, or its failure. */
  function NotificationKeyOf(r: Result<NotificationResponse, GcmFailure>): Result<Option<string>, GcmFailure> {
    match r
    case Success(response) => Success(response.notificationKey)
    case Failure(e) => Failure(e)
  }

  class GcmConnector {
    const apiKey: string
    const projectId: Option<string>
    /** The name of the configured HTTP connector; None when none is configured. */
    const connectorName: Option<string>
    /** The JSON codec and the HTTP client. */
    const serialize: Entity -> string
    const client: (string, string, map<string, string>) -> HttpResponse
    const readGcmResponse: string -> Option<GcmResponse>
    const readNotificationResponse: string -> Option<NotificationResponse>
    /** Every call made on the HTTP client, oldest first. */
    var posted: seq<HttpPost>

    constructor (apiKey: string, projectId: Option<string>, connectorName: Option<string>,
                 serialize: Entity -> string,
                 client: (string, string, map<string, string>) -> HttpResponse,
                 readGcmResponse: string -> Option<GcmResponse>,
                 readNotificationResponse: string -> Option<NotificationResponse>)
      ensures this.apiKey == apiKey && this.projectId == projectId && this.connectorName == connectorName
      ensures this.serialize == serialize && this.client == client
      ensures this.readGcmResponse == readGcmResponse && this.readNotificationResponse == readNotificationResponse
      ensures posted == []
    {
      this.apiKey := apiKey;
      this.projectId := projectId;
      this.connectorName := connectorName;
      this.serialize := serialize;
      this.client := client;
      this.readGcmResponse := readGcmResponse;
      this.readNotificationResponse := readNotificationResponse;
      posted := [];
    }

    /** The response the client gives to a recorded call. */
    function ResponseTo(p: HttpPost): HttpResponse {
      client(p.uri, serialize(p.entity), p.headers)
    }

    /** httpPostJson: serialise, fill the request properties, post once, check the
        status and deserialise. */
    method HttpPostJson<T>(entity: Entity, uri: string, decode: string -> Option<T>)
      returns (r: Result<T, GcmFailure>)
      modifies this`posted
      ensures posted == old(posted) + [HttpPost(uri, entity, RequestHeaders(apiKey, projectId))]
      ensures r == ResponseEntity(ResponseTo(posted[|posted| - 1]), decode)
    {
      var requestJson := serialize(entity);

      var requestProperties: map<string, string> := map[];
      requestProperties := requestProperties[HEADER_CONTENT_TYPE := MIME_TYPE_JSON];
      requestProperties := requestProperties[HEADER_AUTHORIZATION := "key=" + apiKey];
      if !IsBlank(projectId) {
        requestProperties := requestProperties[PROJECT_ID_PROPERTY := projectId.value];
      }

      posted := posted + [HttpPost(uri, entity, requestProperties)];
      var response := client(uri, requestJson, requestProperties);

      if response.status != SC_OK {
        return Failure(UnexpectedStatus(response.status, response.body));
      }
      var decoded := decode(response.body);
      if decoded.None? {
        return Failure(DeserializationFailed);
      }
      r := Success(decoded.value);
    }

    /** sendMessage: registration ids appended in order; notificationKey and
        notificationKeyName both taken from notificationKeyName (the notificationKey
        argument is not stored); the other fields copied; data attached iff non-empty. */
    method SendMessage(registrationIds: seq<string>,
                       notificationKey: Option<string>,
                       notificationKeyName: Option<string>,
                       collapseKey: Option<string>,
                       data: Option<map<string, JsonValue>>,
                       delayWhileIdle: bool := false,
                       timeToLiveSeconds: int32 := DEFAULT_TIME_TO_LIVE,
                       restrictedPackageName: Option<string> := None,
                       dryRun: bool := false)
      returns (r: Result<GcmResponse, GcmFailure>)
      modifies this`posted
      ensures posted == old(posted) + [HttpPost(
                SendUri(connectorName),
                GcmEntity(GcmRequest(
                  registrationIds,
                  notificationKeyName,
                  notificationKeyName,
                  collapseKey,
                  Some(delayWhileIdle),
                  Some(timeToLiveSeconds),
                  restrictedPackageName,
                  Some(dryRun),
                  AttachData(data))),
                RequestHeaders(apiKey, projectId))]
      ensures r == ResponseEntity(ResponseTo(posted[|posted| - 1]), readGcmResponse)
    {
      var gcmRequest := EmptyGcmRequest;
      gcmRequest := gcmRequest.(registrationIds := gcmRequest.registrationIds + registrationIds);
      assert gcmRequest.registrationIds == registrationIds;
      gcmRequest := gcmRequest.(notificationKey := notificationKeyName);
      gcmRequest := gcmRequest.(notificationKeyName := notificationKeyName);
      gcmRequest := gcmRequest.(collapseKey := collapseKey);
      gcmRequest := gcmRequest.(delayWhileIdle := Some(delayWhileIdle));
      gcmRequest := gcmRequest.(timeToLive := Some(timeToLiveSeconds));
      gcmRequest := gcmRequest.(restrictedPackageName := restrictedPackageName);
      gcmRequest := gcmRequest.(dryRun := Some(dryRun));

      if data.Some? && |data.value| > 0 {
        var gcmData := Data(map[]);
        gcmData := gcmData.(additionalProperties := gcmData.additionalProperties + data.value);
        gcmRequest := gcmRequest.(data := Some(gcmData));
      }

      var uri := GCM_SEND_URI + (if connectorName.Some? then CONNECTOR_QUERY + connectorName.value else "");
      r := HttpPostJson(GcmEntity(gcmRequest), uri, readGcmResponse);
    }

    /** runNotificationRegistrationsAction: the name argument overwrites the key in
        notificationKeyName; registration ids appended in order; the response's
        notification key is returned. */
    method RunNotificationRegistrationsAction(operation: Operation,
                                              notificationKey: Option<string>,
                                              notificationKeyName: Option<string>,
                                              registrationIds: seq<string>)
      returns (r: Result<Option<string>, GcmFailure>)
      modifies this`posted
      ensures posted == old(posted) + [HttpPost(
                GCM_NOTIFICATION_URI,
                NotificationEntity(NotificationRequest(Some(operation), notificationKeyName, registrationIds)),
                RequestHeaders(apiKey, projectId))]
      ensures r == NotificationKeyOf(ResponseEntity(ResponseTo(posted[|posted| - 1]), readNotificationResponse))
    {
      var notificationRequest := EmptyNotificationRequest;
      notificationRequest := notificationRequest.(operation := Some(operation));
      notificationRequest := notificationRequest.(notificationKeyName := notificationKey);
      notificationRequest := notificationRequest.(notificationKeyName := notificationKeyName);
      notificationRequest := notificationRequest.(registrationIds := notificationRequest.registrationIds + registrationIds);
      assert notificationRequest.registrationIds == registrationIds;

      var notificationResponse := HttpPostJson(NotificationEntity(notificationRequest),
                                               GCM_NOTIFICATION_URI, readNotificationResponse);
      if notificationResponse.Failure? {
        return Failure(notificationResponse.error);
      }
      r := Success(notificationResponse.value.notificationKey);
    }

    /** createNotificationKey: a CREATE with a null key; returns the created key. */
    method CreateNotificationKey(notificationKeyName: Option<string>, registrationIds: seq<string>)
      returns (r: Result<Option<string>, GcmFailure>)
      modifies this`posted
      ensures posted == old(posted) + [HttpPost(
                GCM_NOTIFICATION_URI,
                NotificationEntity(NotificationRequest(Some(CREATE), notificationKeyName, registrationIds)),
                RequestHeaders(apiKey, projectId))]
      ensures r == NotificationKeyOf(ResponseEntity(ResponseTo(posted[|posted| - 1]), readNotificationResponse))
    {
      r := RunNotificationRegistrationsAction(CREATE, None, notificationKeyName, registrationIds);
    }

    /** addNotificationRegistrations: an ADD; the returned key is discarded. */
    method AddNotificationRegistrations(notificationKey: Option<string>, notificationKeyName: Option<string>,
                                        registrationIds: seq<string>)
      returns (r: Outcome<GcmFailure>)
      modifies this`posted
      ensures posted == old(posted) + [HttpPost(
                GCM_NOTIFICATION_URI,
                NotificationEntity(NotificationRequest(Some(ADD), notificationKeyName, registrationIds)),
                RequestHeaders(apiKey, projectId))]
      ensures r.Fail? <==> ResponseEntity(ResponseTo(posted[|posted| - 1]), readNotificationResponse).Failure?
      ensures r.Fail? ==> r.error == ResponseEntity(ResponseTo(posted[|posted| - 1]), readNotificationResponse).error
    {
      var key := RunNotificationRegistrationsAction(ADD, notificationKey, notificationKeyName, registrationIds);
      r := if key.Failure? then Fail(key.error) else Pass;
    }

    /** removeNotificationRegistrations: a REMOVE; the returned key is discarded. */
    method RemoveNotificationRegistrations(notificationKey: Option<string>, notificationKeyName: Option<string>,
                                           registrationIds: seq<string>)
      returns (r: Outcome<GcmFailure>)
      modifies this`posted
      ensures posted == old(posted) + [HttpPost(
                GCM_NOTIFICATION_URI,
                NotificationEntity(NotificationRequest(Some(REMOVE), notificationKeyName, registrationIds)),
                RequestHeaders(apiKey, projectId))]
      ensures r.Fail? <==> ResponseEntity(ResponseTo(posted[|posted| - 1]), readNotificationResponse).Failure?
      ensures r.Fail? ==> r.error == ResponseEntity(ResponseTo(posted[|posted| - 1]), readNotificationResponse).error
    {
      var key := RunNotificationRegistrationsAction(REMOVE, notificationKey, notificationKeyName, registrationIds);
      r := if key.Failure? then Fail(key.error) else Pass;
    }
  }
}
