/** The CCS (XMPP) connector: the gcm packet extension, its provider, the connection
    session, the outbound request builders and the inbound pipeline with its
    acknowledgement policy. The XMPP transport is reduced to the state the connector
    observes (XmppConnection); serialisation is a pair of functions fixed at
    construction; the application callback is the `delivered` list. */
module Ccs {
  import opened Wrappers
  import opened JavaStrings
  import opened Digits
  import opened Xml
  import opened GcmModel

  const GCM_EXTENSION_NAMESPACE := "google:mobile:data"
  const GCM_EXTENSION_ELEMENT_NAME := "gcm"
  const GCM_HOST := "gcm.googleapis.com"
  const GCM_PORT := 5235
  const LOGIN_DOMAIN := "@gcm.googleapis.com"
  const DEFAULT_TIME_TO_LIVE: int32 := 2419200

  /** The start and end tags of the extension element. */
  const OPEN_TAG := "<" + GCM_EXTENSION_ELEMENT_NAME + " xmlns='" + GCM_EXTENSION_NAMESPACE + "'>"
  const CLOSE_TAG := "</" + GCM_EXTENSION_ELEMENT_NAME + ">"

  datatype ConnectionExceptionCode = CANNOT_REACH | INCORRECT_CREDENTIALS

  /** The exceptions the connector's operations end in. */
  datatype CcsFailure =
    | ConnectionException(code: ConnectionExceptionCode)
    | NullPointer                        // a call on a null reference
    | NotConnectedToServer               // the transport refuses to write: not connected
    | DeserializationFailed              // the JSON codec cannot read a CcsResponse
    | XmlParseFailed                     // the XML parser rejects the element content
    | UnexpectedTagType(typeName: string) // parseExtension: the next event is not TEXT
    | ArrayIndexOutOfBounds              // ... and its type is outside XmlPullParser.TYPES

  // ----- The gcm packet extension and its provider -----

  /** The wire form of an extension carrying json: the gcm element in the
      google:mobile:data namespace around the XML-escaped text. */
  function ExtensionXml(json: string): string {
    OPEN_TAG + Escape(json) + CLOSE_TAG
  }

  /** A packet extension carrying one JSON envelope; the XML form is computed once. */
  class GcmPacketExtension {
    const json: string
    const xml: string

    constructor (json: string)
      ensures this.json == json && xml == ExtensionXml(json)
    {
      this.json := json;
      var builder := "<" + GCM_EXTENSION_ELEMENT_NAME;
      builder := builder + " xmlns='";
      builder := builder + GCM_EXTENSION_NAMESPACE;
      builder := builder + "'>";
      builder := builder + Escape(json);
      builder := builder + "</";
      builder := builder + GCM_EXTENSION_ELEMENT_NAME;
      builder := builder + ">";
      xml := builder;
    }

    function GetJson(): string {
      json
    }

    function ToXml(): string {
      xml
    }
  }

  /** The JSON text parseExtension takes from the parser event after the start tag:
      the text of a TEXT event; any other event type is an error naming it. */
  function ExtensionText(e: PullEvent): (r: Result<string, CcsFailure>)
    ensures r.Success? <==> e.eventType == TEXT
    ensures r.Success? ==> r.value == e.text
    ensures r.Failure? && 0 <= e.eventType < |TYPES| ==> r.error == UnexpectedTagType(TYPES[e.eventType])
    ensures r.Failure? && !(0 <= e.eventType < |TYPES|) ==> r.error == ArrayIndexOutOfBounds
  {
    if e.eventType == TEXT then Success(e.text)
    else if 0 <= e.eventType < |TYPES| then Failure(UnexpectedTagType(TYPES[e.eventType]))
    else Failure(ArrayIndexOutOfBounds)
  }

  /** GcmPacketExtensionProvider.parseExtension, given the event parser.next() yields. */
  method ParseExtension(e: PullEvent) returns (r: Result<GcmPacketExtension, CcsFailure>)
    ensures r.Success? <==> ExtensionText(e).Success?
    ensures r.Success? ==> fresh(r.value) && r.value.json == ExtensionText(e).value
    ensures r.Failure? ==> r.error == ExtensionText(e).error
  {
    if e.eventType != TEXT {
      if 0 <= e.eventType < |TYPES| {
        return Failure(UnexpectedTagType(TYPES[e.eventType]));
      }
      return Failure(ArrayIndexOutOfBounds);
    }
    var extension := new GcmPacketExtension(e.text);
    r := Success(extension);
  }

  /** What the receiving side reads back from a gcm element x: the parser is positioned
      at the start tag, yields the next event for the content, and the provider takes
      it; anything but the start tag, markup-free content and the end tag fails. */
  function ReadBack(x: string): (r: Result<string, CcsFailure>)
    ensures r.Success? ==> |OPEN_TAG| + |CLOSE_TAG| <= |x| && HasPrefix(x, OPEN_TAG)
    ensures r.Success? ==> r.value != [] && Unescape(x[|OPEN_TAG|..|x| - |CLOSE_TAG|]) == Some(r.value)
  {
    if |x| >= |OPEN_TAG| + |CLOSE_TAG| && x[..|OPEN_TAG|] == OPEN_TAG && x[|x| - |CLOSE_TAG|..] == CLOSE_TAG then
      var content := x[|OPEN_TAG|..|x| - |CLOSE_TAG|];
      if exists i :: 0 <= i < |content| && content[i] == '<' then Failure(XmlParseFailed)
      else match NextAfterStartTag(content)
        case None => Failure(XmlParseFailed)
        case Some(e) => ExtensionText(e)
    else Failure(XmlParseFailed)
  }

  /** The lossless round trip through the wire form: any non-empty JSON text is read
      back unchanged; empty text yields END_TAG, which parseExtension rejects. */
  lemma ExtensionRoundTrip(json: string)
    ensures json != "" ==> ReadBack(ExtensionXml(json)) == Success(json)
    ensures json == "" ==> ReadBack(ExtensionXml(json)) == Failure(UnexpectedTagType("END_TAG"))
  {
    var x := ExtensionXml(json);
    var body := Escape(json);
    assert x[..|OPEN_TAG|] == OPEN_TAG;
    assert x[|x| - |CLOSE_TAG|..] == CLOSE_TAG;
    assert x[|OPEN_TAG|..|x| - |CLOSE_TAG|] == body;
    assert forall i :: 0 <= i < |body| ==> IsSafe(body[i]);
    UnescapeEscape(json);
  }

  // ----- The message-id supplier -----

  /** The n-th identifier the supplier hands out (stands for UUID.randomUUID()). */
  function UuidFor(n: nat): string {
    "uuid-" + Decimal(n)
  }

  /** Generated identifiers are never blank. */
  lemma UuidNotBlank(n: nat)
    ensures !IsBlank(Some(UuidFor(n)))
  {
    assert UuidFor(n)[0] == 'u';
  }

  /** Generated identifiers are pairwise distinct. */
  lemma UuidsDistinct(m: nat, n: nat)
    requires m != n
    ensures UuidFor(m) != UuidFor(n)
  {
    if UuidFor(m) == UuidFor(n) {
      PrefixCancels("uuid-", Decimal(m), Decimal(n));
      DecimalInjective(m, n);
    }
  }

  // ----- Session identity -----

  /** getLoginUser for the recorded project id (a null id renders as "null"). */
  function LoginUserFor(projectId: Option<string>): string {
    Render(projectId) + LOGIN_DOMAIN
  }

  /** The login user identifies the project: different project ids give different
      connection identifiers. */
  lemma LoginUserInjective(a: string, b: string)
    requires LoginUserFor(Some(a)) == LoginUserFor(Some(b))
    ensures a == b
  {
    SuffixCancels(a, b, LOGIN_DOMAIN);
  }

  // ----- Outbound requests -----

  /** The request acknowledgeMessage builds: destination and message id, nothing else. */
  function AckRequest(to: Option<string>, messageId: Option<string>): (q: CcsRequest)
    ensures q.to == to && q.messageId == messageId
    ensures q.data.None? && q.delayWhileIdle.None? && q.timeToLive.None?
  {
    EmptyCcsRequest.(to := to, messageId := messageId)
  }

  /** The payload dispatchMessage attaches, as written: `MapUtils.isEmpty(data)` guards
      the attachment, so an empty map is attached, a non-empty one is not, and a null
      map reaches putAll(null). */
  function CcsDataAsWritten(data: Option<map<string, JsonValue>>): (r: Result<Option<Data>, CcsFailure>)
    ensures r.Failure? <==> data.None?
    ensures r.Failure? ==> r.error == NullPointer
    ensures r.Success? ==> (r.value.Some? <==> |data.value| == 0)
    ensures r.Success? && r.value.Some? ==> r.value.value.additionalProperties == data.value
  {
    if data.None? then Failure(NullPointer)
    else if |data.value| == 0 then Success(Some(Data(data.value)))
    else Success(None)
  }

  /** The inverted guard drops a non-empty payload that the corrected rule attaches,
      and fails on the absent payload that the corrected rule omits. */
  lemma InvertedDataGuard()
    ensures CcsDataAsWritten(Some(map["k" := JsonString("v")])) == Success(None)
    ensures AttachData(Some(map["k" := JsonString("v")])) == Some(Data(map["k" := JsonString("v")]))
    ensures CcsDataAsWritten(None) == Failure(NullPointer)
    ensures AttachData(None) == None
  {
  }

  // ----- Inbound policy -----

  /** isAckOrNackMessage on the message type. */
  predicate IsAckOrNack(messageType: Option<MessageType>) {
    messageType == Some(ACK) || messageType == Some(NACK)
  }

  /** What handleInboundMessage does with a decoded envelope. */
  datatype InboundAction = Drop | Forward | AckThenForward

  /** The acknowledgement policy: ACK/NACK envelopes are forwarded only when
      deliverAckNackMessages is set and are never acknowledged; every other envelope is
      forwarded, preceded by an acknowledgement when autoAckMessages is set. */
  function InboundActionFor(messageType: Option<MessageType>, deliverAckNackMessages: bool, autoAckMessages: bool): (a: InboundAction)
    ensures a == Drop <==> IsAckOrNack(messageType) && !deliverAckNackMessages
    ensures a == AckThenForward <==> !IsAckOrNack(messageType) && autoAckMessages
    ensures a == Forward <==> (IsAckOrNack(messageType) && deliverAckNackMessages) ||
                              (!IsAckOrNack(messageType) && !autoAckMessages)
  {
    if IsAckOrNack(messageType) then
      if !deliverAckNackMessages then Drop else Forward
    else if autoAckMessages then AckThenForward
    else Forward
  }

  // ----- Transport -----

  /** How XMPPConnection.connect() ends: connected; throwing XMPPException; or returning
      without the connection being up. */
  datatype TransportOutcome = Established | Refused | Unconfirmed

  datatype Credentials = Credentials(user: string, password: string)

  /** An XMPP packet as the transport delivers it to the packet filter. */
  datatype Packet =
    | MessagePacket(message: Message)
    | PresencePacket
    | IqPacket

  /** A Message packet; `gcm` is its extension named gcm in google:mobile:data, or null. */
  datatype Message = Message(packetId: string, gcm: GcmPacketExtension?)

  /** The packet filter receive registers: only Message packets pass. */
  predicate AcceptPacket(p: Packet) {
    p.MessagePacket?
  }

  /** One element of the outbox: the request handed to sendPacket and the XML of the
      extension that carried it. */
  datatype Outbound = Outbound(request: CcsRequest, xml: string)

  /** How one packet offered to the listener ended. */
  datatype Disposition = Filtered | Handled | Caught(failure: CcsFailure)

  /** The connection state the connector observes of Smack's XMPPConnection. */
  class XmppConnection {
    const host: string
    const port: int
    var connected: bool
    var authenticatedAs: Option<Credentials>
    var loginAttempts: seq<Credentials>
    var listeners: nat

    constructor (host: string, port: int)
      ensures this.host == host && this.port == port
      ensures !connected && authenticatedAs == None && loginAttempts == [] && listeners == 0
    {
      this.host := host;
      this.port := port;
      connected := false;
      authenticatedAs := None;
      loginAttempts := [];
      listeners := 0;
    }

    /** connect(); `thrown` stands for the XMPPException. */
    method Connect(outcome: TransportOutcome) returns (thrown: bool)
      modifies this`connected
      ensures thrown <==> outcome == Refused
      ensures connected <==> outcome == Established
    {
      thrown := outcome == Refused;
      connected := outcome == Established;
    }

    /** login(user, password); `thrown` stands for the XMPPException of a rejection. */
    method Login(user: string, password: string, accepted: bool) returns (thrown: bool)
      modifies this`authenticatedAs, this`loginAttempts
      ensures loginAttempts == old(loginAttempts) + [Credentials(user, password)]
      ensures authenticatedAs == if accepted then Some(Credentials(user, password)) else old(authenticatedAs)
      ensures thrown <==> !accepted
    {
      loginAttempts := loginAttempts + [Credentials(user, password)];
      if accepted {
        authenticatedAs := Some(Credentials(user, password));
      }
      thrown := !accepted;
    }

    method Disconnect()
      modifies this`connected, this`authenticatedAs
      ensures !connected && authenticatedAs == None
    {
      connected := false;
      authenticatedAs := None;
    }

    method AddPacketListener()
      modifies this`listeners
      ensures listeners == old(listeners) + 1
    {
      listeners := listeners + 1;
    }
  }

  // ----- The connector -----

  class CcsConnector {
    const apiKey: string
    const deliverAckNackMessages: bool
    const autoAckMessages: bool
    /** The JSON codec: serialising a request, deserialising a response (None: failure). */
    const toJson: CcsRequest -> string
    const fromJson: string -> Option<CcsResponse>

    var projectId: Option<string>
    var xmppConnection: XmppConnection?
    /** Every packet handed to sendPacket, oldest first. */
    var outbox: seq<Outbound>
    /** Every envelope passed to the source callback, oldest first. */
    var delivered: seq<CcsResponse>
    /** How many message ids the supplier has handed out. */
    var uuidsIssued: nat

    constructor (apiKey: string, toJson: CcsRequest -> string, fromJson: string -> Option<CcsResponse>,
                 deliverAckNackMessages: bool := false, autoAckMessages: bool := false)
      ensures this.apiKey == apiKey && this.toJson == toJson && this.fromJson == fromJson
      ensures this.deliverAckNackMessages == deliverAckNackMessages && this.autoAckMessages == autoAckMessages
      ensures projectId == None && xmppConnection == null
      ensures outbox == [] && delivered == [] && uuidsIssued == 0
    {
      this.apiKey := apiKey;
      this.deliverAckNackMessages := deliverAckNackMessages;
      this.autoAckMessages := autoAckMessages;
      this.toJson := toJson;
      this.fromJson := fromJson;
      projectId := None;
      xmppConnection := null;
      outbox := [];
      delivered := [];
      uuidsIssued := 0;
    }

    /** getLoginUser. */
    function LoginUser(): string
      reads this
    {
      LoginUserFor(projectId)
    }

    /** isConnected: a handle exists and the transport reports itself connected. */
    predicate IsConnected()
      reads this, xmppConnection
    {
      xmppConnection != null && xmppConnection.connected
    }

    /** How a sendPacket on the current handle ends. */
    function SendOutcome(): (r: Outcome<CcsFailure>)
      reads this, xmppConnection
      ensures r.Pass? <==> IsConnected()
      ensures r.Fail? ==> r.error == (if xmppConnection == null then NullPointer else NotConnectedToServer)
    {
      if xmppConnection == null then Fail(NullPointer)
      else if !xmppConnection.connected then Fail(NotConnectedToServer)
      else Pass
    }

    /** The outbox entry xmppSend produces for a request. */
    function Wire(request: CcsRequest): Outbound {
      Outbound(request, ExtensionXml(toJson(request)))
    }

    /** connect: records the project id, opens a fresh connection to the relay and logs
        in only once the transport is up. */
    method Connect(projectId: string, transport: TransportOutcome, loginAccepted: bool)
      returns (r: Outcome<CcsFailure>)
      modifies this`projectId, this`xmppConnection
      ensures this.projectId == Some(projectId)
      ensures LoginUser() == projectId + LOGIN_DOMAIN
      ensures xmppConnection != null && fresh(xmppConnection)
      ensures xmppConnection.host == GCM_HOST && xmppConnection.port == GCM_PORT
      ensures xmppConnection.listeners == 0
      ensures xmppConnection.connected <==> transport == Established
      ensures IsConnected() <==> transport == Established
      ensures transport != Established ==>
                r == Fail(ConnectionException(CANNOT_REACH)) && xmppConnection.loginAttempts == []
      ensures transport == Established ==>
                xmppConnection.loginAttempts == [Credentials(LoginUser(), apiKey)] &&
                r == if loginAccepted then Pass else Fail(ConnectionException(INCORRECT_CREDENTIALS))
      ensures xmppConnection.authenticatedAs ==
                if r.Pass? then Some(Credentials(LoginUser(), apiKey)) else None
    {
      this.projectId := Some(projectId);
      xmppConnection := new XmppConnection(GCM_HOST, GCM_PORT);
      var thrown := xmppConnection.Connect(transport);
      if thrown || !xmppConnection.connected {
        return Fail(ConnectionException(CANNOT_REACH));
      }
      thrown := xmppConnection.Login(LoginUser(), apiKey, loginAccepted);
      if thrown {
        return Fail(ConnectionException(INCORRECT_CREDENTIALS));
      }
      r := Pass;
    }

    /** disconnect: closes the handle if there is one, then drops it. */
    method Disconnect()
      modifies this`xmppConnection, xmppConnection
      ensures xmppConnection == null && !IsConnected()
      ensures old(xmppConnection) != null ==>
                !old(xmppConnection).connected && old(xmppConnection).authenticatedAs == None
    {
      if xmppConnection != null {
        xmppConnection.Disconnect();
      }
      xmppConnection := null;
    }

    /** receive: registers the filtered packet listener on the current handle. */
    method Receive() returns (r: Outcome<CcsFailure>)
      modifies xmppConnection
      ensures xmppConnection == null ==> r == Fail(NullPointer)
      ensures xmppConnection != null ==>
                r == Pass && xmppConnection.listeners == old(xmppConnection.listeners) + 1 &&
                xmppConnection.connected == old(xmppConnection.connected) &&
                xmppConnection.authenticatedAs == old(xmppConnection.authenticatedAs) &&
                xmppConnection.loginAttempts == old(xmppConnection.loginAttempts)
    {
      if xmppConnection == null {
        return Fail(NullPointer);
      }
      xmppConnection.AddPacketListener();
      r := Pass;
    }

    /** xmppSend: serialise, wrap in a gcm extension, send on the handle. */
    method XmppSend(request: CcsRequest) returns (r: Outcome<CcsFailure>)
      modifies this`outbox
      ensures r == SendOutcome()
      ensures outbox == if r.Pass? then old(outbox) + [Wire(request)] else old(outbox)
    {
      var jsonRequest := toJson(request);
      var extension := new GcmPacketExtension(jsonRequest);
      if xmppConnection == null {
        return Fail(NullPointer);
      }
      if !xmppConnection.connected {
        return Fail(NotConnectedToServer);
      }
      outbox := outbox + [Outbound(request, extension.ToXml())];
      r := Pass;
    }

    /** dispatchMessage: builds the request field by field and sends it once. A blank
        message id is replaced by a freshly generated one. */
    method DispatchMessage(registrationId: string, messageId: Option<string>,
                           data: Option<map<string, JsonValue>>,
                           delayWhileIdle: bool := false,
                           timeToLiveSeconds: int32 := DEFAULT_TIME_TO_LIVE)
      returns (r: Outcome<CcsFailure>)
      modifies this`outbox, this`uuidsIssued
      ensures uuidsIssued == old(uuidsIssued) + (if IsBlank(messageId) then 1 else 0)
      ensures data.None? ==> r == Fail(NullPointer) && outbox == old(outbox)
      ensures data.Some? ==> r == SendOutcome()
      ensures r.Fail? ==> outbox == old(outbox)
      ensures r.Pass? ==> outbox == old(outbox) + [Wire(CcsRequest(
                Some(registrationId),
                Some(if IsBlank(messageId) then UuidFor(old(uuidsIssued)) else messageId.value),
                CcsDataAsWritten(data).value,
                Some(delayWhileIdle),
                Some(timeToLiveSeconds)))]
    {
      var ccsRequest := EmptyCcsRequest;
      ccsRequest := ccsRequest.(to := Some(registrationId));
      ccsRequest := ccsRequest.(delayWhileIdle := Some(delayWhileIdle));
      ccsRequest := ccsRequest.(timeToLive := Some(timeToLiveSeconds));

      if IsBlank(messageId) {
        ccsRequest := ccsRequest.(messageId := Some(UuidFor(uuidsIssued)));
        uuidsIssued := uuidsIssued + 1;
      } else {
        ccsRequest := ccsRequest.(messageId := messageId);
      }

      if data.None? || |data.value| == 0 {
        var ccsData := Data(map[]);
        if data.None? {
          return Fail(NullPointer);
        }
        ccsData := ccsData.(additionalProperties := ccsData.additionalProperties + data.value);
        ccsRequest := ccsRequest.(data := Some(ccsData));
      }

      r := XmppSend(ccsRequest);
    }

    /** acknowledgeMessage: sends one request carrying only the destination and id. */
    method AcknowledgeMessage(registrationId: Option<string>, messageId: Option<string>)
      returns (r: Outcome<CcsFailure>)
      modifies this`outbox
      ensures r == SendOutcome()
      ensures outbox == if r.Pass? then old(outbox) + [Wire(AckRequest(registrationId, messageId))] else old(outbox)
    {
      var ccsRequest := EmptyCcsRequest;
      ccsRequest := ccsRequest.(to := registrationId);
      ccsRequest := ccsRequest.(messageId := messageId);
      r := XmppSend(ccsRequest);
    }

    /** The effect of handling one Message: the outcome and what was sent and delivered. */
    twostate predicate InboundHandled(m: Message, new r: Outcome<CcsFailure>)
      reads this, xmppConnection
    {
      if m.gcm == null then
        r == Fail(NullPointer) && outbox == old(outbox) && delivered == old(delivered)
      else match fromJson(m.gcm.json)
        case None =>
          r == Fail(DeserializationFailed) && outbox == old(outbox) && delivered == old(delivered)
        case Some(response) =>
          match InboundActionFor(response.messageType, deliverAckNackMessages, autoAckMessages)
          case Drop =>
            r == Pass && outbox == old(outbox) && delivered == old(delivered)
          case Forward =>
            r == Pass && outbox == old(outbox) && delivered == old(delivered) + [response]
          case AckThenForward =>
            if SendOutcome().Pass? then
              r == Pass && delivered == old(delivered) + [response] &&
              outbox == old(outbox) + [Wire(AckRequest(response.from, response.messageId))]
            else
              r == SendOutcome() && outbox == old(outbox) && delivered == old(delivered)
    }

    /** handleInboundMessage, as written: a missing extension is warned about and then
        dereferenced; a failed auto-ack escapes before the callback. */
    method HandleInboundMessage(message: Message) returns (r: Outcome<CcsFailure>)
      modifies this`outbox, this`delivered
      ensures InboundHandled(message, r)
    {
      var gcmPacketExtension := message.gcm;
      if gcmPacketExtension == null {
        // the warning is logged, and the next statement dereferences null
        return Fail(NullPointer);
      }
      var decoded := fromJson(gcmPacketExtension.GetJson());
      if decoded.None? {
        return Fail(DeserializationFailed);
      }
      var ccsResponse := decoded.value;

      if IsAckOrNack(ccsResponse.messageType) {
        if !deliverAckNackMessages {
          return Pass;
        }
      } else if autoAckMessages {
        var acked := AcknowledgeMessage(ccsResponse.from, ccsResponse.messageId);
        if acked.Fail? {
          return acked;
        }
      }

      delivered := delivered + [ccsResponse];
      r := Pass;
    }

    /** The registered filter and listener offered one packet: a rejected packet is
        ignored, an accepted one is handled and any failure is caught and logged. */
    method ProcessPacket(packet: Packet) returns (d: Disposition)
      modifies this`outbox, this`delivered
      ensures !AcceptPacket(packet) ==> d == Filtered && outbox == old(outbox) && delivered == old(delivered)
      ensures AcceptPacket(packet) ==>
                d != Filtered && InboundHandled(packet.message, if d.Caught? then Fail(d.failure) else Pass)
    {
      if !AcceptPacket(packet) {
        return Filtered;
      }
      var r := HandleInboundMessage(packet.message);
      d := if r.Fail? then Caught(r.error) else Handled;
    }
  }
}
