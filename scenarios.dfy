/** Client-side scenarios: what a caller can conclude from the contracts alone. */
module Scenarios {
  import opened Wrappers
  import opened GcmModel
  import opened Ccs

  const ACK_JSON := "{\"message_type\":\"ack\"}"
  const DATA_JSON := "{\"from\":\"dev2\"}"

  /** A codec that knows the two envelopes above. */
  function ReadEnvelope(json: string): Option<CcsResponse> {
    if json == ACK_JSON then Some(CcsResponse(Some("dev1"), Some("m1"), Some(ACK)))
    else if json == DATA_JSON then Some(CcsResponse(Some("dev2"), Some("m2"), None))
    else None
  }

  function WriteRequest(request: CcsRequest): string {
    "{}"
  }

  /** Connecting with an accepted login: connected, logged in as <project>@gcm.googleapis.com. */
  method ConnectScenario() {
    var connector := new CcsConnector("key-abc", WriteRequest, ReadEnvelope, false, true);
    var connected := connector.Connect("proj123", Established, true);
    assert connected == Pass && connector.IsConnected();
    assert connector.LoginUser() == "proj123@gcm.googleapis.com";
    assert connector.xmppConnection.loginAttempts == [Credentials("proj123@gcm.googleapis.com", "key-abc")];
  }

  /** With deliverAckNackMessages off, an ACK is neither delivered nor acknowledged. */
  method AckDroppedScenario() {
    var connector := new CcsConnector("key-abc", WriteRequest, ReadEnvelope, false, true);
    var ackExtension := new GcmPacketExtension(ACK_JSON);
    assert connector.fromJson(ackExtension.json) == Some(CcsResponse(Some("dev1"), Some("m1"), Some(ACK)));
    var d := connector.ProcessPacket(MessagePacket(Message("p1", ackExtension)));
    assert d == Handled && connector.delivered == [] && connector.outbox == [];
  }

  /** On a live connection with autoAckMessages on, a data message is acknowledged to
      its sender, then delivered. */
  method AutoAckScenario(connector: CcsConnector)
    requires connector.IsConnected() && connector.autoAckMessages && connector.fromJson == ReadEnvelope
    requires connector.outbox == [] && connector.delivered == []
    modifies connector
  {
    var dataExtension := new GcmPacketExtension(DATA_JSON);
    var response := CcsResponse(Some("dev2"), Some("m2"), None);
    assert connector.fromJson(dataExtension.json) == Some(response);
    assert connector.SendOutcome() == Pass;
    assert InboundActionFor(None, connector.deliverAckNackMessages, true) == AckThenForward;
    var d := connector.ProcessPacket(MessagePacket(Message("p2", dataExtension)));
    assert d == Handled && connector.delivered == [response];
    assert |connector.outbox| == 1 && connector.outbox[0].request == AckRequest(Some("dev2"), Some("m2"));
  }

  /** A message without the extension ends in a caught exception; other packets are filtered. */
  method MissingExtensionScenario() {
    var connector := new CcsConnector("key-abc", WriteRequest, ReadEnvelope, true, true);
    var d := connector.ProcessPacket(MessagePacket(Message("p3", null)));
    assert d == Caught(NullPointer) && connector.delivered == [] && connector.outbox == [];
    d := connector.ProcessPacket(PresencePacket);
    assert d == Filtered;
  }

  /** Dispatch with a generated id, then disconnect twice; sending afterwards fails. */
  method DispatchScenario() {
    var connector := new CcsConnector("key-abc", WriteRequest, ReadEnvelope);
    var connected := connector.Connect("proj123", Established, true);
    var sent := connector.DispatchMessage("device", None, Some(map[]));
    assert sent == Pass && |connector.outbox| == 1;
    assert connector.outbox[0].request.messageId == Some(UuidFor(0));
    assert connector.outbox[0].request.timeToLive == Some(2419200);

    connector.Disconnect();
    connector.Disconnect();
    assert !connector.IsConnected();
    sent := connector.AcknowledgeMessage(Some("device"), Some("m3"));
    assert sent == Fail(NullPointer) && |connector.outbox| == 1;
  }

  /** A login rejection leaves a live, unauthenticated handle behind. */
  method RejectedLoginScenario() {
    var connector := new CcsConnector("wrong", WriteRequest, ReadEnvelope);
    var connected := connector.Connect("proj123", Established, false);
    assert connected == Fail(ConnectionException(INCORRECT_CREDENTIALS));
    assert connector.IsConnected() && connector.xmppConnection.authenticatedAs == None;
    connected := connector.Connect("proj123", Refused, true);
    assert connected == Fail(ConnectionException(CANNOT_REACH)) && !connector.IsConnected();
  }
}
