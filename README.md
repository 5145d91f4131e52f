# Google Cloud Messaging connectors — a Dafny model

This project models the two Mule connectors for Google Cloud Messaging.

**CCS (XMPP) connector.** This covers the `gcm` packet extension, which carries one JSON envelope inside an XMPP message. The element is in namespace `google:mobile:data` and its body is the XML-escaped JSON. It also covers:

- the extension provider;
- the connection session: `connect`, `disconnect`, `getLoginUser`, `isConnected`;
- the two request builders: `dispatchMessage` and `acknowledgeMessage`;
- `xmppSend`;
- the inbound pipeline: the packet filter, the listener and `handleInboundMessage`, with its ACK/NACK and auto-ack policy.

**GCM (HTTP) connector.** This covers building the send request and the group-registration requests field by field, the send URI, the request headers, and the status check on the response.

How the code is laid out:

- `wrappers.dfy`: the `Option`, `Result` and `Outcome` datatypes. A nullable Java reference is an `Option`. A method that can throw returns a `Result` or an `Outcome`.
- `java_strings.dfy`: `StringUtils.isBlank` over `Character.isWhitespace` as Java 7 and 8 define it, the Java versions a Mule 3.4 connector runs on, and how Java renders a null string in a concatenation.
- `digits.dfy`: decimal printing and parsing.
- `xml.dfy`: `StringEscapeUtils.escapeXml` from commons-lang 2, the reference resolution an XML parser applies to element content, and the `XmlPullParser.next()` step the provider uses.
- `gcm_model.dfy`: the entity classes, as datatypes holding only the fields the connectors set or read. A field no setter touched is `None`.
- `ccs.dfy`: the CCS connector, as class `CcsConnector`. Its state is `projectId`, the `xmppConnection` handle, the `outbox` (every packet given to `sendPacket`), the `delivered` list (every call of the source callback) and the count of generated message ids. The XMPP transport is a small class, `XmppConnection`, that holds what the connector can observe of it.
- `gcm.dfy`: the GCM connector, as class `GcmConnector`. The Mule HTTP client is a function from (uri, JSON, headers) to (status, body). Each call is recorded in `posted`.
- `scenarios.dfy`: client methods that derive the documented end-to-end behaviour from the contracts alone.

Inputs the connectors do not control are parameters:

- how the XMPP transport's `connect()` ends: connected, throws, or returns without being connected;
- whether `login` is accepted;
- the JSON codec, as functions fixed at construction. A deserialization failure is `None`;
- the HTTP client's response.

Behaviour that follows the code rather than the documented intent:

- **Payload attachment in dispatchMessage.** The guard at `CcsConnector.java:263` is inverted. An empty map is attached; a non-empty map is not. An absent map reaches `putAll(null)` with a NullPointerException, so nothing is sent. See Findings.
- **Missing extension.** A message without the gcm extension is warned about and then dereferenced. The missing `return` is at `CcsConnector.java:346-352`. The handler therefore ends in a NullPointerException, which the listener catches. There is no callback and no ack.
- **Auto-ack failure.** A failing auto-acknowledgement escapes before `sourceCallback.process`, so the message is not delivered. Nothing in the source says whether this is intended. A design expectation would be that a failed acknowledgement does not cost the application the message.
- **Login rejection.** When login is rejected, the new handle stays in place and connected, so `isConnected()` is still true after `INCORRECT_CREDENTIALS`. A handle whose `connect()` threw or returned unconnected also stays in place.
- **Reconnecting.** `connect` replaces the handle without closing the previous one. The old connection object is left as it was.
- **sendMessage notification fields.** `setNotificationKey(notificationKeyName)` means the `notificationKey` argument is never stored. Both fields get the name argument.
- **runNotificationRegistrationsAction.** It calls `setNotificationKeyName` twice. The key argument is overwritten by the name.
- **Sending on a bad handle.** With no handle, `xmppSend` fails with a NullPointerException. If the handle is not connected, the transport refuses the write.

## Model

| member | source | states |
|---|---|---|
| `Xml.EscapeChar` | src/main/java/org/mule/module/gcm/CcsConnector.java:79 | One escaped character is a named entity, a decimal reference for code points above 0x7F, or the character itself. It is 7-bit and free of `<`, `>`, quotes and apostrophes. |
| `Xml.Escape` | src/main/java/org/mule/module/gcm/CcsConnector.java:79 | The escaped JSON contains only safe 7-bit characters and no markup. It is empty exactly when the input is empty. |
| `Xml.UnescapeEscape` | src/main/java/org/mule/module/gcm/CcsConnector.java:79 | Escaping is lossless: the parser's unescaping gives back exactly the original text. |
| `Xml.NextAfterStartTag` | src/main/java/org/mule/module/gcm/CcsConnector.java:116 | After the start tag, empty content yields END_TAG. Any other content yields one TEXT event whose text is the unescaped content. |
| `Ccs.GcmPacketExtension.constructor` | src/main/java/org/mule/module/gcm/CcsConnector.java:71-90 | The extension keeps the JSON unchanged. It fixes `xml` once to the gcm element in `google:mobile:data` around the escaped JSON. |
| `Ccs.ExtensionText` | src/main/java/org/mule/module/gcm/CcsConnector.java:114-121 | The provider accepts exactly a TEXT event and takes its text. Any other event fails with the TYPES name of its type, or with an index error outside the table. |
| `Ccs.ParseExtension` | src/main/java/org/mule/module/gcm/CcsConnector.java:114-122 | parseExtension succeeds iff the next event is TEXT, and returns a fresh extension holding that text. Otherwise it throws. |
| `Xml.Unescape` | src/main/java/org/mule/module/gcm/CcsConnector.java:116 | Resolving references never lengthens the content, and the result is empty exactly when the content is. Content without `<` and `&` is reported unchanged. |
| `Ccs.ReadBack` | src/main/java/org/mule/module/gcm/CcsConnector.java:114-121 | A gcm element is read back only when it is framed by the start and end tags. The text read back is non-empty and is what the parser reports for the element's content. |
| `Ccs.ExtensionRoundTrip` | src/main/java/org/mule/module/gcm/CcsConnector.java:71-121 | Any non-empty JSON put in an extension is read back unchanged from its wire form. Empty JSON is rejected, because the parser sees END_TAG. |
| `Ccs.UuidNotBlank` | src/main/java/org/mule/module/gcm/CcsConnector.java:254-257 | A generated message id is never blank. |
| `Ccs.UuidsDistinct` | src/main/java/org/mule/module/gcm/CcsConnector.java:254-257 | Generated message ids are pairwise distinct. |
| `Ccs.LoginUserInjective` | src/main/java/org/mule/module/gcm/CcsConnector.java:213-217 | The login user `projectId + "@gcm.googleapis.com"` determines the project id. |
| `Ccs.AckRequest` | src/main/java/org/mule/module/gcm/CcsConnector.java:283-287 | The acknowledgement request has `to` and `messageId` from its arguments and no other field set. |
| `Ccs.CcsDataAsWritten` | src/main/java/org/mule/module/gcm/CcsConnector.java:263-268 | As written: an absent map throws NullPointerException, an empty map is attached, and a non-empty map is dropped. |
| `Ccs.InvertedDataGuard` | src/main/java/org/mule/module/gcm/CcsConnector.java:263-268 | The map {"k": "v"} is dropped by the CCS guard but attached by the corrected rule. An absent map throws, where the corrected rule omits the payload. |
| `Ccs.InboundActionFor` | src/main/java/org/mule/module/gcm/CcsConnector.java:354-377 | ACK/NACK is dropped iff deliverAckNackMessages is off, and forwarded otherwise. It is never acknowledged. Any other type is acknowledged then forwarded iff autoAckMessages is on, and only forwarded otherwise. |
| `Ccs.XmppConnection.Connect` | src/main/java/org/mule/module/gcm/CcsConnector.java:174-177 | The transport's connect throws iff refused. It is connected iff established. |
| `Ccs.XmppConnection.Login` | src/main/java/org/mule/module/gcm/CcsConnector.java:193 | Each login attempt is recorded with its credentials. It throws iff rejected, and authenticates iff accepted. |
| `Ccs.XmppConnection.Disconnect` | src/main/java/org/mule/module/gcm/CcsConnector.java:207 | The transport ends up disconnected and unauthenticated. |
| `Ccs.XmppConnection.AddPacketListener` | src/main/java/org/mule/module/gcm/CcsConnector.java:302 | One more listener is registered. |
| `Ccs.CcsConnector.constructor` | src/main/java/org/mule/module/gcm/CcsConnector.java:130-149 | It is configured with the API key and both policy flags. There is no project id and no handle, and nothing has been sent or delivered. |
| `Ccs.CcsConnector.Connect` | src/main/java/org/mule/module/gcm/CcsConnector.java:157-200 | It records the project id and opens a fresh handle to gcm.googleapis.com:5235. A refused or unconnected transport gives CANNOT_REACH with no login attempt. Otherwise there is exactly one login as `<projectId>@gcm.googleapis.com` with the API key; a rejection gives INCORRECT_CREDENTIALS. Afterwards `isConnected()` is true exactly when the transport came up, including after a rejected login. |
| `Ccs.CcsConnector.Disconnect` | src/main/java/org/mule/module/gcm/CcsConnector.java:202-223 | Afterwards the handle is null and isConnected() is false, whatever the state before. An existing handle is closed. Nothing else changes, so a second call does nothing. |
| `Ccs.CcsConnector.Receive` | src/main/java/org/mule/module/gcm/CcsConnector.java:299-325 | It registers one listener on the current handle. With no handle it throws NullPointerException. |
| `Ccs.CcsConnector.SendOutcome` | src/main/java/org/mule/module/gcm/CcsConnector.java:327-333 | `sendPacket` on the current handle succeeds exactly when `isConnected()` holds. A null handle fails with a NullPointerException, and a disconnected transport refuses the write. |
| `Ccs.CcsConnector.XmppSend` | src/main/java/org/mule/module/gcm/CcsConnector.java:327-333 | It appends exactly the request and the XML of its extension when the handle is connected. It fails, with the outbox unchanged, when the handle is null or not connected. |
| `Ccs.CcsConnector.DispatchMessage` | src/main/java/org/mule/module/gcm/CcsConnector.java:242-271 | It sends one request: `to`, `delayWhileIdle` and `timeToLive` as given (defaults false and 2419200); the given id, or a fresh one when that id is blank; and the payload as written. An absent map fails before sending. |
| `Ccs.CcsConnector.AcknowledgeMessage` | src/main/java/org/mule/module/gcm/CcsConnector.java:282-290 | It sends exactly one request, carrying only `to` and `messageId`, or fails with the outbox unchanged. |
| `Ccs.CcsConnector.HandleInboundMessage` | src/main/java/org/mule/module/gcm/CcsConnector.java:335-371 | A missing extension is a NullPointerException; so is an undecodable envelope. Otherwise the policy's action is taken: no effect, one callback, or one ack to (`from`, `messageId`) followed by one callback. An ack failure escapes before the callback. |
| `Ccs.CcsConnector.ProcessPacket` | src/main/java/org/mule/module/gcm/CcsConnector.java:302-324 | Non-Message packets are filtered out with no effect. A Message is handled as above, and any exception is caught and reported, not propagated. |
| `GcmModel.AttachData` | src/main/java/org/mule/module/gcm/GcmConnector.java:127-132 | Data is attached iff the map is present and non-empty. It then holds exactly the map's entries. |
| `Gcm.SendUri` | src/main/java/org/mule/module/gcm/GcmConnector.java:134 | The URI is GCM_SEND_URI alone when no connector is configured. Otherwise it is GCM_SEND_URI followed by `?connector=` and the connector's name. |
| `Gcm.SendUriInjective` | src/main/java/org/mule/module/gcm/GcmConnector.java:134 | Different connector configurations give different send URIs. |
| `Gcm.RequestHeaders` | src/main/java/org/mule/module/gcm/GcmConnector.java:230-236 | The headers are exactly the JSON content type and `Authorization = key=<apiKey>`, plus `project_id` iff the project id is not blank. |
| `Gcm.ResponseEntity` | src/main/java/org/mule/module/gcm/GcmConnector.java:241-251 | A status other than 200 is an error carrying status and payload, and nothing is deserialized. Status 200 yields the deserialized entity, or a codec failure. |
| `Gcm.GcmConnector.constructor` | src/main/java/org/mule/module/gcm/GcmConnector.java:64-78 | It is configured with the API key, project id and optional connector. Nothing has been posted. |
| `Gcm.GcmConnector.HttpPostJson` | src/main/java/org/mule/module/gcm/GcmConnector.java:223-252 | It makes one client call with the entity, the URI and the request headers. Its result is the status check applied to the response. |
| `Gcm.GcmConnector.SendMessage` | src/main/java/org/mule/module/gcm/GcmConnector.java:104-136 | It makes one call to the send URI. The registration ids are in order. Both notification fields come from `notificationKeyName`, so the `notificationKey` argument is dropped. The other fields are copied unchanged, and data is attached iff non-empty. |
| `Gcm.GcmConnector.RunNotificationRegistrationsAction` | src/main/java/org/mule/module/gcm/GcmConnector.java:205-221 | It makes one call to the notification URI with the operation, `notificationKeyName` equal to the name argument, and the registration ids in order. It returns the response's notification key. |
| `Gcm.GcmConnector.CreateNotificationKey` | src/main/java/org/mule/module/gcm/GcmConnector.java:149-157 | It posts a CREATE with a null key and returns the created key. |
| `Gcm.GcmConnector.AddNotificationRegistrations` | src/main/java/org/mule/module/gcm/GcmConnector.java:171-180 | It posts an ADD and fails exactly when the exchange fails. |
| `Gcm.GcmConnector.RemoveNotificationRegistrations` | src/main/java/org/mule/module/gcm/GcmConnector.java:194-203 | It posts a REMOVE and fails exactly when the exchange fails. |

Members that model a source function directly and have no contract of their own:

- `Ccs.CcsConnector.IsConnected` is `isConnected` (CcsConnector.java:219-223). It is constrained through `Ccs.CcsConnector.Connect`, `Ccs.CcsConnector.Disconnect` and `Ccs.CcsConnector.SendOutcome`.
- `Ccs.CcsConnector.LoginUser` is `getLoginUser` (CcsConnector.java:213-217), through `Ccs.LoginUserFor`. It is constrained by `Ccs.LoginUserInjective` and by the login clause of `Ccs.CcsConnector.Connect`.
- `Ccs.IsAckOrNack` is `isAckOrNackMessage` (CcsConnector.java:373-377). It is used by `Ccs.InboundActionFor`.
- `Ccs.AcceptPacket` is the packet filter of `receive` (CcsConnector.java:317-324). It is used by `Ccs.CcsConnector.ProcessPacket`.
- `Ccs.GcmPacketExtension.GetJson` and `Ccs.GcmPacketExtension.ToXml` are `getJson` and `toXML` (CcsConnector.java:87-108). They return the fields fixed by the constructor.
- `JavaStrings.IsBlank` is `StringUtils.isBlank` (CcsConnector.java:254), and its negation is `isNotBlank` (GcmConnector.java:233). It is used by `Ccs.CcsConnector.DispatchMessage`, `Gcm.RequestHeaders` and `Ccs.UuidNotBlank`.

## Left out

- JSON serialization and deserialization (Jackson `ObjectMapper` behind `AbstractGcmConnector`) are functions given at construction. The following are not modelled:
  - serialization failures;
  - the null-in/null-out guard;
  - deserializing the JSON text `null` to a null response, which the source would then dereference.
- The XMPP transport internals are out: TLS and the SSL socket factory, the `ConnectionConfiguration` flags (security mode, reconnection, roster, presence), socket connect and login, and automatic reconnection. Host and port are constants, and the outcomes of connect and login are parameters. A connection that drops after connect is not modelled.
- Registering the extension provider with the process-wide `ProviderManager` is global state and is not modelled.
- `Xml.Unescape` models reference resolution only, not all of XML 1.0 parsing:
  - It leaves out end-of-line normalisation. `escapeXml` passes a raw CR through, and a conforming parser reports it as LF, so text containing CR does not come back unchanged in the real system.
  - It leaves out the Char production. `escapeXml` writes U+FFFE as `&#65534;` and passes control characters below 0x20 through raw, and a conforming parser rejects both.

  `Xml.UnescapeEscape` and `Ccs.ExtensionRoundTrip` therefore hold for the system only for text with no CR and only XML characters.
- `Xml.Escape` escapes each Unicode code point above 0x7F as one decimal reference. Java escapes each UTF-16 unit, so a supplementary character becomes two references there. `Xml.Unescape` resolves only the five predefined entities and decimal character references, not hexadecimal references or CDATA sections.
- `Ccs.UuidFor`: message ids are `uuid-<n>` from a counter, standing in for `UUID.randomUUID()`. The model states only that they are non-blank and pairwise distinct, not the 36-character random format.
- The Mule client's timeout and `MuleEvent`, `MuleContext`, and all logging are outside the model. The configured HTTP connector is represented only by its name.
- The HTTP status property is an integer. Converting it with `NumberUtils.toInt` is not modelled.
- Listener threading, concurrent callbacks, and delivery of one packet to several registered listeners are not modelled. `ProcessPacket` is one filter-plus-listener invocation.
- An exception thrown by the application callback is not modelled. `delivered` records the invocation, and such an exception would be caught by the listener like any other.
- The configuration setters are not modelled. The policy flags, API key, project id (HTTP) and connector are fixed at construction.
- The `MessageType` constants other than ACK and NACK are not part of this model; `CONTROL` stands for all of them, and a data message has no type. `GcmResponse` keeps its members as JSON, because neither connector reads them.

## Findings

| source | as written | input that shows it | evidently intended | confidence | as-written member | corrected member |
|---|---|---|---|---|---|---|
| src/main/java/org/mule/module/gcm/CcsConnector.java:263-268 | `MapUtils.isEmpty(data)` guards attaching the payload | data = {"k": "v"} gives a request with no data; an absent map fails in `putAll(null)` and nothing is sent | attach the payload iff the map is non-empty, as `GcmConnector.java:127` does | high; not executed | `Ccs.CcsDataAsWritten`, shown by `Ccs.InvertedDataGuard` | `GcmModel.AttachData` (used by `Gcm.GcmConnector.SendMessage`) |
