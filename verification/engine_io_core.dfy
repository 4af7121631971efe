/** What every revision of the Engine.IO client shares: the open message, the
    outcome of the JSON deserializer, the heartbeat timer, the WebSocket
    transport reduced to a connected flag and a log of sent frames, and the
    three frames a client sends. */
module EngineIoCore {
  import opened Wrappers
  import opened Exceptions
  import opened Handshake
  import EngineIoPacket

  /** The handshake record the server sends in the Open frame. */
  datatype OpenMessage = OpenMessage(sid: Option<string>, upgrades: Option<seq<string>>, pingInterval: int, pingTimeout: int)

  /** `new EngineIoOpenMessage()`: every property at its default. */
  const EmptyOpenMessage: OpenMessage := OpenMessage(None, None, 0, 0)

  /** What `JsonConvert.DeserializeObject<T>` gives for a text: a value, the
      JSON literal `null`, or an exception for malformed input. */
  datatype Json<+T> = Parsed(value: T) | JsonNull | Malformed {
    /** The deserialized reference: `null` for the literal. */
    function AsNullable(): Option<T>
      requires !Malformed?
    {
      if Parsed? then Some(value) else None
    }
  }

  /** The heartbeat interval used until the server says otherwise. */
  const DefaultPingInterval: int := 25000
  /** The value of every heartbeat ping. */
  const PingMessage: string := "ping"
  /** The reason reported when the server sends a Close frame. */
  const ServerCloseReason: string := "Received close message from server"

  /** A `System.Timers.Timer`: its interval and whether it is started. */
  datatype Timer = Timer(interval: int, running: bool)

  /** The timer every client constructs: 25000 ms, stopped. */
  const NewTimer: Timer := Timer(DefaultPingInterval, false)

  /** The `Interval` setter rejects a value that is not positive. */
  function SetInterval(t: Timer, interval: int): (r: Result<Timer, Exception>)
    ensures r.Ok? <==> interval > 0
    ensures r.Ok? ==> r.value == Timer(interval, t.running)
    ensures r.Err? ==> r.error == Argument("Interval")
  {
    if interval <= 0 then Err(Argument("Interval")) else Ok(t.(interval := interval))
  }

  /** The interval an Open frame arms the timer with: the message's ping
      interval, or 25000 when the message is null. */
  function PingIntervalOf(message: Option<OpenMessage>): (r: int)
    ensures message.None? ==> r == DefaultPingInterval
    ensures message.Some? ==> r == message.value.pingInterval
  {
    match message
    case None => DefaultPingInterval
    case Some(m) => m.pingInterval
  }

  /** The WebSocket client under an Engine.IO client: whether its socket is
      open, the address of its last connection attempt, and every text frame
      it has put on the wire. */
  datatype Socket = Socket(connected: bool, lastConnectUri: Option<Uri>, sent: seq<string>)

  /** A WebSocket client that has never connected. */
  const NewSocket: Socket := Socket(false, None, [])

  /** `SendTextAsync`: a frame is sent when the socket is open and silently
      dropped otherwise. */
  function SendText(t: Socket, frame: string): (r: Socket)
    ensures r.connected == t.connected && r.lastConnectUri == t.lastConnectUri
    ensures t.connected ==> r.sent == t.sent + [frame]
    ensures !t.connected ==> r == t
  {
    if t.connected then t.(sent := t.sent + [frame]) else t
  }

  /** How a connection attempt ends. */
  datatype ConnectOutcome = Succeeds | Fails(error: Exception)

  /** The transport after a connection attempt and the exception the attempt
      raised, if any. */
  datatype Attempt = Attempt(socket: Socket, error: Option<Exception>)

  /** `ConnectAsync(uri)`: nothing when already open; a null address throws
      before anything changes; otherwise the address is recorded before the
      attempt, whatever its outcome. */
  function Connect(t: Socket, uri: Option<Uri>, outcome: ConnectOutcome): (r: Attempt)
    ensures t.connected ==> r == Attempt(t, None)
    ensures !t.connected && uri.None? ==> r == Attempt(t, Some(ArgumentNull("uri")))
    ensures !t.connected && uri.Some? ==>
              r.socket.lastConnectUri == uri && r.socket.sent == t.sent
              && (r.error.None? <==> outcome.Succeeds?)
              && r.socket.connected == outcome.Succeeds?
  {
    if t.connected then Attempt(t, None)
    else if uri.None? then Attempt(t, Some(ArgumentNull("uri")))
    else
      match outcome
      case Succeeds => Attempt(t.(connected := true, lastConnectUri := uri), None)
      case Fails(e) => Attempt(t.(lastConnectUri := uri), Some(e))
  }

  /** The socket is closed, by either side. */
  function Disconnect(t: Socket): (r: Socket)
    ensures !r.connected && r.sent == t.sent && r.lastConnectUri == t.lastConnectUri
  {
    t.(connected := false)
  }

  /** The heartbeat frame: a Ping packet carrying "ping". */
  function PingFrame(): string {
    EngineIoPacket.Encode(EngineIoPacket.Create(EngineIoPacket.Prefix(EngineIoPacket.Ping), Some(PingMessage)))
  }

  /** The frame that closes the session: a Close packet without value. */
  function CloseFrame(): string {
    EngineIoPacket.Encode(EngineIoPacket.Create(EngineIoPacket.Prefix(EngineIoPacket.Close), None))
  }

  /** The frame that carries an application message. */
  function MessageFrame(message: string): string {
    EngineIoPacket.Encode(EngineIoPacket.Create(EngineIoPacket.Prefix(EngineIoPacket.Message), Some(message)))
  }

  /** The frames on the wire are "2ping", "1" and "4" followed by the
      message, and each decodes back to its packet. */
  lemma FramesSpelledOut(message: string)
    ensures PingFrame() == "2ping" && CloseFrame() == "1" && MessageFrame(message) == "4" + message
    ensures EngineIoPacket.Decode(PingFrame()) == Ok(EngineIoPacket.Packet("2", PingMessage))
    ensures EngineIoPacket.Decode(CloseFrame()) == Ok(EngineIoPacket.Packet("1", ""))
    ensures EngineIoPacket.Decode(MessageFrame(message)) == Ok(EngineIoPacket.Packet("4", message))
  {
    EngineIoPacket.DecodeEncoded(EngineIoPacket.Packet("2", PingMessage));
    EngineIoPacket.DecodeEncoded(EngineIoPacket.Packet("1", ""));
    EngineIoPacket.DecodeEncoded(EngineIoPacket.Packet("4", message));
  }

  /** The events of the current revisions, one per frame kind plus the
      heartbeat and the error report. */
  datatype Event =
    | Opened(message: Option<OpenMessage>)
    | Closed(reason: string, status: Option<int>)
    | PingSent(value: string)
    | PingReceived(value: string)
    | PongReceived(value: string)
    | MessageReceived(value: string)
    | Upgraded(value: string)
    | NoopReceived(value: string)
    | ExceptionOccurred(error: Exception)

  /** The events of the `SimpleSocketIoClient` revisions; `AfterPing` serves
      both the heartbeat and a received Ping frame. */
  datatype SimpleEvent =
    | Opened(message: Option<OpenMessage>)
    | Closed(reason: string, status: Option<int>)
    | AfterPing(value: string)
    | AfterPong(value: string)
    | AfterMessage(value: string)
    | Upgraded(value: string)
    | AfterNoop(value: string)
    | AfterException(error: Exception)

  /** The event a value-carrying frame raises in the current revisions. */
  function ValueEvent(t: EngineIoPacket.PacketType, value: string): Event
    requires t !in {EngineIoPacket.Open, EngineIoPacket.Close}
  {
    match t
    case Ping => PingReceived(value)
    case Pong => PongReceived(value)
    case Message => MessageReceived(value)
    case Upgrade => Event.Upgraded(value)
    case Noop => NoopReceived(value)
  }

  /** The event a value-carrying frame raises in the `SimpleSocketIoClient`
      revisions. */
  function SimpleValueEvent(t: EngineIoPacket.PacketType, value: string): SimpleEvent
    requires t !in {EngineIoPacket.Open, EngineIoPacket.Close}
  {
    match t
    case Ping => AfterPing(value)
    case Pong => AfterPong(value)
    case Message => AfterMessage(value)
    case Upgrade => SimpleEvent.Upgraded(value)
    case Noop => AfterNoop(value)
  }

  /** The `SimpleSocketIoClient` revisions split a frame inline into its
      first character and the rest, which is what `EngineIoPacket.Decode`
      does with every non-empty frame. */
  lemma InlineSplitIsDecode(text: string)
    requires text != []
    ensures EngineIoPacket.Decode(text) == Ok(EngineIoPacket.Packet(text[..1], text[1..]))
  {
  }

  /** The frames the `SimpleSocketIoClient` revisions spell out inline are
      the frames the packet class encodes. */
  lemma InlineFrames(message: string)
    ensures "2" + PingMessage == PingFrame() && "1" == CloseFrame() && "4" + message == MessageFrame(message)
  {
    FramesSpelledOut(message);
  }

  /** The exceptions the heartbeat reports: all but cancellation. */
  predicate Reported(e: Exception) {
    !e.OperationCanceled?
  }
}
