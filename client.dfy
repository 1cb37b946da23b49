/**
 * The client side (host/client.py): `ChromeMessagingHandler` holds the
 * bridge's TCP port and sends one request per connection, returning the
 * bridge's reply loaded into a fresh `ChromeResponse`. The message classes
 * of that file are the ones of module Messages.
 *
 * The network is an input: an exchange either fails with a socket error or
 * yields the bytes the bridge replied with.
 */
module Client {
  import opened JsonValues
  import opened Messages
  import opened Bridge

  /** The text of the exception raised when no port has been set. */
  const PortNotSpecified := "Port number for communication with Chrome bridge not specified."

  datatype ClientError =
    | ChromeMessageException(msg: string)  // raised by send_request itself
    | MalformedReply                       // json.loads or the loading loop raised on the reply
    | PortOverflow                         // connect raised OverflowError: a port outside 0..65535

  /** What the socket does for one request: a socket error (its text), or the bytes the bridge replied with. */
  datatype Exchange = Refused(reason: string) | Replied(reply: seq<byte>)

  datatype SendResult = Response(fields: MessageFields) | Failed(error: ClientError)

  /**
   * `send_request`: no port raises before any socket is opened; a port
   * outside 0..65535 makes `connect` raise OverflowError, which is not a
   * socket error and propagates; a socket error is re-raised as
   * ChromeMessageException; otherwise the request's
   * JSON is sent and the reply (one receive of at most 4096 bytes) is
   * loaded into a fresh ChromeResponse. The second component is what was
   * sent on the socket, if a connection was made.
   */
  function SendOutcome(c: Codec, port: int, request: MessageFields, exchange: Exchange): (r: (SendResult, Option<seq<byte>>))
    ensures port == -1 ==> r == (Failed(ChromeMessageException(PortNotSpecified)), None)
    ensures port != -1 && !PortInRange(port) ==> r == (Failed(PortOverflow), None)
    ensures r.1.Some? <==> PortInRange(port) && exchange.Replied?
    ensures r.1.Some? ==> r.1.value == c.dumps(Obj(ToDict(request)))
    ensures r.0.Response? <==> PortInRange(port) && exchange.Replied? && LoadObject(c, Received(exchange.reply)).Some?
    ensures exchange.Refused? && PortInRange(port) ==> r.0 == Failed(ChromeMessageException(exchange.reason))
  {
    if port == -1 then (Failed(ChromeMessageException(PortNotSpecified)), None)
    else if !PortInRange(port) then (Failed(PortOverflow), None)
    else
      match exchange
      case Refused(reason) => (Failed(ChromeMessageException(reason)), None)
      case Replied(reply) =>
        var sent := Some(c.dumps(Obj(ToDict(request))));
        match LoadObject(c, Received(reply))
        case None => (Failed(MalformedReply), sent)
        case Some(m) => (Response(LoadDict(ResponseInit, m)), sent)
  }

  class ChromeMessagingHandler {
    var portNumber: int

    constructor (port: int := -1)
      ensures PortNumber() == port
    {
      portNumber := port;
    }

    /** The `port_number` property. */
    function PortNumber(): int
      reads this
    {
      portNumber
    }

    /** The `port_number` setter: the getter then returns the value set. */
    method SetPortNumber(port: int)
      modifies this
      ensures PortNumber() == port
    {
      portNumber := port;
    }

    /** `send_request`: the outcome and the bytes sent, as `SendOutcome` gives them. */
    method SendRequest(c: Codec, request: BaseMessage, exchange: Exchange) returns (result: SendResult, sent: Option<seq<byte>>)
      ensures (result, sent) == SendOutcome(c, portNumber, request.Fields(), exchange)
      ensures portNumber == -1 ==> result == Failed(ChromeMessageException(PortNotSpecified)) && sent == None
    {
      if portNumber == -1 {
        return Failed(ChromeMessageException(PortNotSpecified)), None;
      }
      if !PortInRange(portNumber) {
        // connect raised OverflowError; finally: client.close()
        return Failed(PortOverflow), None;
      }
      var chromeResp := new BaseMessage.Response();
      match exchange
      case Refused(reason) =>
        // connect raised socket.error; finally: client.close()
        return Failed(ChromeMessageException(reason)), None;
      case Replied(reply) =>
        var crJson := request.ToJson(c);
        sent := Some(crJson);
        var ok := chromeResp.LoadFromJson(c, Received(reply));
        if !ok {
          return Failed(MalformedReply), sent;
        }
        result := Response(chromeResp.Fields());
    }
  }

  // -----------------------------------------------------------------------
  // Properties

  /** The returned response keeps the ChromeResponse defaults for every wire key the reply lacks. */
  lemma ResponseKeepsDefaults(c: Codec, port: int, request: MessageFields, reply: seq<byte>)
    requires PortInRange(port)
    requires LoadObject(c, Received(reply)).Some?
    ensures var m := LoadObject(c, Received(reply)).value;
      var r := SendOutcome(c, port, request, Replied(reply)).0;
      && r.Response?
      && r.fields.id == (if "requestId" in m then m["requestId"] else Str(""))
      && r.fields.clientSource == (if "source" in m then m["source"] else Str("chrome"))
      && r.fields.messageType == (if "type" in m then m["type"] else Num(ResponseUnknown))
      && r.fields.data == (if "data" in m then m["data"] else Obj(map[]))
  {
    LoadDictFields(ResponseInit, LoadObject(c, Received(reply)).value);
  }

  /**
   * A reply that parses to a list holding no wire key loads nothing
   * without raising: the client returns the ChromeResponse defaults.
   */
  lemma ListReplyGivesDefaults(c: Codec, port: int, request: MessageFields, reply: seq<byte>, items: seq<Json>)
    requires PortInRange(port) && c.loads(Received(reply)) == Some(Arr(items))
    requires forall k :: k in WireKeys ==> Str(k) !in items
    ensures SendOutcome(c, port, request, Replied(reply)).0 == Response(ResponseInit)
  {
    ListRootRaises(items);
    NonObjectRootLoadsNothing(ResponseInit, Arr(items));
  }

  /**
   * A client's request, sent to the bridge, is routed by the source it
   * carries; an EXIT request from a ChromeRequest is recognised as one and
   * answered with its own id.
   */
  lemma RequestReachesBridge(c: Codec, request: MessageFields, uuid: string)
    requires Inverse(c)
    requires |c.dumps(Obj(ToDict(request)))| <= RecvSize
    ensures var conn := Connection(c.dumps(Obj(ToDict(request))), uuid);
      && SourceOf(c, Received(conn.request)) == Some(request.clientSource)
      && LoadedRequest(c, conn) == Some(request)
      && (request.clientSource == Str("flts") && request.messageType == Num(RequestExit) <==> IsExitRequest(c, conn))
  {
    SourceOfSerialized(c, request);
    TextRoundTrip(c, request, RequestInit(uuid));
  }

  /**
   * An EXIT round trip: the bridge, handling the client's EXIT request on
   * socket `h`, writes one reply on that socket and closes it; read by the
   * client, that reply is a successful response with the request's id and
   * the closing message.
   */
  lemma ExitRoundTrip(c: Codec, port: int, request: MessageFields, uuid: string, st: BridgeState, h: Handle)
    requires Inverse(c) && PortInRange(port) && h in st.sockets
    requires |c.dumps(Obj(ToDict(request)))| <= RecvSize
    requires request.clientSource == Str("flts") && request.messageType == Num(RequestExit)
    requires |c.dumps(Obj(ToDict(ExitReply(request.id))))| <= RecvSize
    ensures var conn := Connection(c.dumps(Obj(ToDict(request))), uuid);
      var reply := c.dumps(Obj(ToDict(ExitReply(request.id))));
      var after := HandleConnection(c, st, h, conn);
      var r := SendOutcome(c, port, request, Replied(reply)).0;
      && h in after.sockets && after.sockets[h] == SocketLog(st.sockets[h].sent + reply, true)
      && r == Response(MessageFields(request.id, Str("chrome"), Num(ResponseSuccess), Obj(map["msg" := Str(ExitMessage)])))
      && IsSuccessful(r.fields)
  {
    var conn := Connection(c.dumps(Obj(ToDict(request))), uuid);
    RequestReachesBridge(c, request, uuid);
    HandleConnectionSpec(c, st, h, conn);
    ExitReplyDecodes(c, request.id);
  }
}
