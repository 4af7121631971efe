/** The Engine.IO client of `src/libs/H.Engine.IO`: the current revision.
    Frames are decoded with `EngineIoPacket`, an Open frame arms the
    heartbeat itself, and the transport's Disconnected event resets
    `IsOpened`. */
module EngineIoClientLibs {
  import opened Wrappers
  import opened Exceptions
  import opened Text
  import opened Handshake
  import opened EngineIoCore
  import EngineIoPacket

  /** The fields of the client and of its WebSocket client, and the events
      raised so far. */
  datatype State = State(
    isOpened: bool,
    openMessage: Option<OpenMessage>,
    uri: Option<Uri>,
    timer: Timer,
    socket: Socket,
    events: seq<Event>)

  /** A freshly constructed client. */
  const Initial: State := State(false, None, None, NewTimer, NewSocket, [])

  function Raise(s: State, e: Event): (r: State)
    ensures r == s.(events := s.events + [e])
  {
    s.(events := s.events + [e])
  }

  /** The Open frame: the message and `IsOpened` are set first; then the
      interval, whose setter may throw; then the timer starts and Opened is
      raised with the message, or an empty one when it is null. */
  function ReceiveOpen(s: State, json: Json<OpenMessage>): State {
    if json.Malformed? then Raise(s, ExceptionOccurred(Exceptions.Json))
    else
      var message := json.AsNullable();
      var withMessage := s.(openMessage := message, isOpened := true);
      match SetInterval(s.timer, PingIntervalOf(message))
      case Err(e) => Raise(withMessage, ExceptionOccurred(e))
      case Ok(t) => Raise(withMessage.(timer := t.(running := true)), Event.Opened(Some(message.GetOr(EmptyOpenMessage))))
  }

  /** `WebSocketClient_OnTextReceived`: a null or blank frame is reported
      and never decoded; otherwise the prefix selects the reaction and an
      unknown prefix is ignored. */
  function Receive(s: State, text: Option<string>, parse: string -> Json<OpenMessage>): State {
    if text.None? then Raise(s, ExceptionOccurred(InvalidOperation("Null Engine.IO string")))
    else if IsBlank(text.value) then Raise(s, ExceptionOccurred(InvalidOperation("Empty Engine.IO string")))
    else
      var packet := EngineIoPacket.Decode(text.value).value;
      var kind := EngineIoPacket.TypeOf(packet.prefix);
      if kind.None? then s
      else if kind.value == EngineIoPacket.Open then ReceiveOpen(s, parse(packet.value))
      else if kind.value == EngineIoPacket.Close then Raise(s.(isOpened := false), Event.Closed(ServerCloseReason, None))
      else Raise(s, ValueEvent(kind.value, packet.value))
  }

  /** `Timer_Elapsed`: reconnect to the last address if needed, send the
      ping, raise PingSent; cancellation is swallowed and any other failure
      reported. */
  function Tick(s: State, reconnect: ConnectOutcome): State {
    var attempt := Connect(s.socket, s.socket.lastConnectUri, reconnect);
    match attempt.error
    case Some(e) =>
      var failed := s.(socket := attempt.socket);
      if Reported(e) then Raise(failed, ExceptionOccurred(e)) else failed
    case None =>
      Raise(s.(socket := SendText(attempt.socket, PingFrame())), PingSent(PingMessage))
  }

  /** The transport's Disconnected handler: `IsOpened` is reset and Closed
      raised with the transport's reason and status. */
  function Dropped(s: State, reason: string, status: Option<int>): State {
    Raise(s.(isOpened := false, socket := Disconnect(s.socket)), Event.Closed(reason, status))
  }

  /** `CloseAsync`: the timer stops, "1" is sent, and when the socket was
      open the closing handshake ends in the Disconnected handler, with the
      reason and status the server answers with. */
  function Close(s: State, reason: string, status: Option<int>): State {
    var stopped := s.(timer := s.timer.(running := false), socket := SendText(s.socket, CloseFrame()));
    if s.socket.connected then Dropped(stopped, reason, status) else stopped
  }

  /** `SendMessageAsync`: "4" followed by the message. */
  function SendMessage(s: State, message: string): State {
    s.(socket := SendText(s.socket, MessageFrame(message)))
  }

  /** The state and result of `OpenAsync`.  The wait for Opened observes the
      frame the server answers the connection with (`handshake`, or none
      before the wait is canceled). */
  datatype OpenResult = OpenResult(state: State, result: Result<Option<OpenMessage>, Exception>)

  /** `OpenAsync`: an open socket returns the stored message unchanged,
      null (`None`) when no Open frame stored one;
      otherwise the address is stored, rewritten, connected to, and the
      result is the message of the Opened event the handshake raises. */
  function Open(s: State, framework: string, parse: string -> Json<OpenMessage>, uri: Option<Uri>,
                outcome: ConnectOutcome, handshake: Option<string>): OpenResult
  {
    if s.socket.connected then OpenResult(s, Ok(s.openMessage))
    else if uri.None? then OpenResult(s, Err(ArgumentNull("uri")))
    else
      var stored := s.(uri := uri);
      match ToWebSocketUri(uri, Some(framework))
      case Err(e) => OpenResult(stored, Err(e))
      case Ok(address) =>
        var attempt := Connect(stored.socket, Some(address), outcome);
        var connected := stored.(socket := attempt.socket);
        if attempt.error.Some? then OpenResult(connected, Err(attempt.error.value))
        else AwaitOpened(connected, parse, handshake)
  }

  /** The wait for Opened that ends `OpenAsync`: it sees the frame
      `handshake` (none before it is canceled) and gives the open message
      Opened carries. */
  function AwaitOpened(s: State, parse: string -> Json<OpenMessage>, handshake: Option<string>): OpenResult {
    if handshake.None? then OpenResult(s, Err(OperationCanceled))
    else
      var answered := Receive(s, handshake, parse);
      if |answered.events| > |s.events| && answered.events[|answered.events| - 1].Opened? then
        OpenResult(answered, Ok(answered.events[|answered.events| - 1].message))
      else OpenResult(answered, Err(OperationCanceled))
  }

  /** A null or blank frame is never decoded: it is reported and nothing
      else changes. */
  lemma BadFrameReported(s: State, text: Option<string>, parse: string -> Json<OpenMessage>)
    requires text.None? || IsBlank(text.value)
    ensures Receive(s, text, parse)
            == Raise(s, ExceptionOccurred(InvalidOperation(
                 if text.None? then "Null Engine.IO string" else "Empty Engine.IO string")))
  {
  }

  /** A frame that starts with `c` decodes into `c` and the rest, and it is
      not blank when `c` is not white space. */
  lemma Decodes(c: char, value: string)
    ensures !IsWhiteSpace(c) ==> !IsBlank([c] + value)
    ensures EngineIoPacket.Decode([c] + value) == Ok(EngineIoPacket.Packet([c], value))
  {
    assert ([c] + value)[0] == c;
    EngineIoPacket.DecodeEncoded(EngineIoPacket.Packet([c], value));
  }

  /** An Open frame with a usable message sets the message and `IsOpened`,
      arms the timer with the ping interval (25000 for a null message),
      raises Opened, and sends nothing. */
  lemma OpenFrameArmsTimer(s: State, value: string, parse: string -> Json<OpenMessage>)
    requires !parse(value).Malformed?
    requires PingIntervalOf(parse(value).AsNullable()) > 0
    ensures var r := Receive(s, Some("0" + value), parse);
            var message := parse(value).AsNullable();
            r.isOpened && r.openMessage == message
            && r.timer == Timer(PingIntervalOf(message), true)
            && r.events == s.events + [Event.Opened(Some(message.GetOr(EmptyOpenMessage)))]
            && r.socket == s.socket && r.uri == s.uri
  {
    Decodes('0', value);
  }

  /** An Open frame whose ping interval is not positive still sets the
      message and `IsOpened`; the interval setter's exception is reported
      before the timer starts and Opened is never raised. */
  lemma OpenFrameBadInterval(s: State, value: string, parse: string -> Json<OpenMessage>)
    requires !parse(value).Malformed?
    requires PingIntervalOf(parse(value).AsNullable()) <= 0
    ensures var r := Receive(s, Some("0" + value), parse);
            r == s.(isOpened := true, openMessage := parse(value).AsNullable(),
                    events := s.events + [ExceptionOccurred(Argument("Interval"))])
  {
    Decodes('0', value);
  }

  /** An Open frame whose message is malformed JSON is reported and changes
      nothing else. */
  lemma OpenFrameMalformed(s: State, value: string, parse: string -> Json<OpenMessage>)
    requires parse(value).Malformed?
    ensures Receive(s, Some("0" + value), parse) == Raise(s, ExceptionOccurred(Exceptions.Json))
  {
    Decodes('0', value);
  }

  /** A Close frame resets `IsOpened` and raises Closed with the fixed
      reason and no status. */
  lemma CloseFrameResets(s: State, value: string, parse: string -> Json<OpenMessage>)
    ensures Receive(s, Some("1" + value), parse)
            == Raise(s.(isOpened := false), Event.Closed(ServerCloseReason, None))
  {
    Decodes('1', value);
  }

  /** Ping, Pong, Message, Upgrade and Noop frames raise their event with
      the decoded value and change nothing else. */
  lemma ValueFrameRaisesEvent(s: State, t: EngineIoPacket.PacketType, value: string, parse: string -> Json<OpenMessage>)
    requires t !in {EngineIoPacket.Open, EngineIoPacket.Close}
    ensures Receive(s, Some(EngineIoPacket.Prefix(t) + value), parse) == Raise(s, ValueEvent(t, value))
  {
    Decodes(EngineIoPacket.Prefix(t)[0], value);
    assert [EngineIoPacket.Prefix(t)[0]] == EngineIoPacket.Prefix(t);
  }

  /** A frame with an unknown prefix is ignored. */
  lemma UnknownFrameIgnored(s: State, text: string, parse: string -> Json<OpenMessage>)
    requires !IsBlank(text) && EngineIoPacket.TypeOf(text[..1]).None?
    ensures Receive(s, Some(text), parse) == s
  {
  }

  /** Receiving never sends, never touches the address, and raises at most
      one event. */
  lemma ReceiveSendsNothing(s: State, text: Option<string>, parse: string -> Json<OpenMessage>)
    ensures var r := Receive(s, text, parse);
            r.socket == s.socket && r.uri == s.uri
            && (r.events == s.events || (|r.events| == |s.events| + 1 && r.events[..|s.events|] == s.events))
  {
  }

  /** On an open socket the heartbeat sends exactly "2ping" and raises
      PingSent("ping"). */
  lemma TickSendsPing(s: State, reconnect: ConnectOutcome)
    requires s.socket.connected
    ensures var r := Tick(s, reconnect);
            r.socket.sent == s.socket.sent + ["2ping"] && r.socket.connected
            && r.events == s.events + [PingSent("ping")]
            && r.isOpened == s.isOpened && r.timer == s.timer
  {
    FramesSpelledOut("");
  }

  /** A heartbeat on a closed socket reconnects to the last address first;
      without one it reports the null address; a canceled reconnection is
      swallowed; nothing is sent unless the reconnection succeeds. */
  lemma TickReconnects(s: State, reconnect: ConnectOutcome)
    requires !s.socket.connected
    ensures var r := Tick(s, reconnect);
            (s.socket.lastConnectUri.None? ==> r == Raise(s, ExceptionOccurred(ArgumentNull("uri"))))
            && (s.socket.lastConnectUri.Some? && reconnect.Succeeds? ==>
                  r.socket.connected && r.socket.sent == s.socket.sent + ["2ping"]
                  && r.events == s.events + [PingSent("ping")])
            && (s.socket.lastConnectUri.Some? && reconnect == Fails(OperationCanceled) ==> r == s)
            && (s.socket.lastConnectUri.Some? && reconnect.Fails? && Reported(reconnect.error) ==>
                  r == Raise(s, ExceptionOccurred(reconnect.error)))
  {
    FramesSpelledOut("");
  }

  /** Closing an open session stops the timer, sends "1", closes the socket,
      resets `IsOpened` and raises Closed; on a closed socket it only stops
      the timer. */
  lemma CloseSendsCloseFrame(s: State, reason: string, status: Option<int>)
    ensures var r := Close(s, reason, status);
            !r.timer.running && r.timer.interval == s.timer.interval && !r.socket.connected
            && (s.socket.connected ==>
                  r.socket.sent == s.socket.sent + ["1"] && !r.isOpened
                  && r.events == s.events + [Event.Closed(reason, status)])
            && (!s.socket.connected ==> r == s.(timer := s.timer.(running := false)))
  {
    FramesSpelledOut("");
  }

  /** A message goes out as "4" followed by the message, and only on an
      open socket. */
  lemma SendMessageFrame(s: State, message: string)
    ensures var r := SendMessage(s, message);
            r.socket.sent == (if s.socket.connected then s.socket.sent + ["4" + message] else s.socket.sent)
            && r == s.(socket := r.socket) && r.socket.connected == s.socket.connected
  {
    FramesSpelledOut(message);
  }

  /** On an open socket `OpenAsync` changes nothing and returns the stored
      message, which is null when none was stored. */
  lemma OpenWhenConnected(s: State, framework: string, parse: string -> Json<OpenMessage>, uri: Option<Uri>,
                          outcome: ConnectOutcome, handshake: Option<string>)
    requires s.socket.connected
    ensures Open(s, framework, parse, uri, outcome, handshake) == OpenResult(s, Ok(s.openMessage))
  {
  }

  /** A wait for Opened that is canceled leaves the socket connected and no
      message stored, so the next `OpenAsync` returns null. */
  lemma CanceledOpenThenNull(s: State, framework: string, parse: string -> Json<OpenMessage>, uri: Uri,
                             again: Option<Uri>, outcome: ConnectOutcome, handshake: Option<string>)
    requires !s.socket.connected && s.openMessage.None?
    requires uri.scheme in {"http", "https", "ws", "wss"}
    ensures var first := Open(s, framework, parse, Some(uri), Succeeds, None);
            first.result == Err(OperationCanceled) && first.state.socket.connected
            && Open(first.state, framework, parse, again, outcome, handshake) == OpenResult(first.state, Ok(None))
  {
  }

  /** A successful handshake: the address is stored, the socket connects to
      the rewritten address, and the result is the message the server sent
      in its Open frame. */
  lemma OpenHandshake(s: State, framework: string, parse: string -> Json<OpenMessage>, uri: Uri, value: string)
    requires !s.socket.connected
    requires uri.scheme in {"http", "https", "ws", "wss"}
    requires !parse(value).Malformed? && PingIntervalOf(parse(value).AsNullable()) > 0
    ensures var r := Open(s, framework, parse, Some(uri), Succeeds, Some("0" + value));
            var message := parse(value).AsNullable();
            r.result == Ok(Some(message.GetOr(EmptyOpenMessage)))
            && r.state.uri == Some(uri) && r.state.isOpened && r.state.openMessage == message
            && r.state.socket.connected && r.state.socket.sent == s.socket.sent
            && r.state.socket.lastConnectUri == Some(ToWebSocketUri(Some(uri), Some(framework)).value)
            && r.state.timer == Timer(PingIntervalOf(message), true)
  {
    var address := ToWebSocketUri(Some(uri), Some(framework)).value;
    var connected := s.(uri := Some(uri), socket := Connect(s.socket, Some(address), Succeeds).socket);
    OpenFrameArmsTimer(connected, value, parse);
  }

  /** What the client reacts to from outside: inbound frames, heartbeat
      ticks, transport disconnects, and outbound messages. */
  datatype Input =
    | Frame(text: Option<string>)
    | Heartbeat(reconnect: ConnectOutcome)
    | TransportClosed(reason: string, status: Option<int>)
    | Send(message: string)

  function Step(s: State, input: Input, parse: string -> Json<OpenMessage>): State {
    match input
    case Frame(text) => Receive(s, text, parse)
    case Heartbeat(reconnect) => Tick(s, reconnect)
    case TransportClosed(reason, status) => Dropped(s, reason, status)
    case Send(message) => SendMessage(s, message)
  }

  function Run(s: State, inputs: seq<Input>, parse: string -> Json<OpenMessage>): State
    decreases |inputs|
  {
    if inputs == [] then s else Run(Step(s, inputs[0], parse), inputs[1..], parse)
  }

  /** How an input decides `IsOpened`: an Open frame with a message that is
      not malformed opens, a Close frame or a transport disconnect closes,
      anything else leaves it alone. */
  function Verdict(input: Input, parse: string -> Json<OpenMessage>): Option<bool> {
    match input
    case Frame(Some(text)) =>
      if IsBlank(text) then None
      else if text[0] == '0' then (if parse(text[1..]).Malformed? then None else Some(true))
      else if text[0] == '1' then Some(false)
      else None
    case TransportClosed(_, _) => Some(false)
    case _ => None
  }

  /** `IsOpened` after a run of inputs, starting from `start`. */
  function OpenedAfter(start: bool, inputs: seq<Input>, parse: string -> Json<OpenMessage>): bool
    decreases |inputs|
  {
    if inputs == [] then start
    else OpenedAfter(Verdict(inputs[0], parse).GetOr(start), inputs[1..], parse)
  }

  lemma StepVerdict(s: State, input: Input, parse: string -> Json<OpenMessage>)
    ensures Step(s, input, parse).isOpened == Verdict(input, parse).GetOr(s.isOpened)
    ensures s.events <= Step(s, input, parse).events
    ensures s.socket.sent <= Step(s, input, parse).socket.sent
  {
    match input
    case Frame(Some(text)) =>
      if !IsBlank(text) {
        assert text == [text[0]] + text[1..];
        Decodes(text[0], text[1..]);
      }
    case _ =>
  }

  /** `IsOpened` is decided by the last Open frame, Close frame or transport
      disconnect, whatever else happened in between. */
  lemma {:induction false} RunTracksOpened(s: State, inputs: seq<Input>, parse: string -> Json<OpenMessage>)
    ensures Run(s, inputs, parse).isOpened == OpenedAfter(s.isOpened, inputs, parse)
    decreases |inputs|
  {
    if inputs != [] {
      StepVerdict(s, inputs[0], parse);
      RunTracksOpened(Step(s, inputs[0], parse), inputs[1..], parse);
    }
  }

  /** The event log and the sent-frame log only grow. */
  lemma {:induction false} RunOnlyAppends(s: State, inputs: seq<Input>, parse: string -> Json<OpenMessage>)
    ensures s.events <= Run(s, inputs, parse).events
    ensures s.socket.sent <= Run(s, inputs, parse).socket.sent
    decreases |inputs|
  {
    if inputs != [] {
      StepVerdict(s, inputs[0], parse);
      RunOnlyAppends(Step(s, inputs[0], parse), inputs[1..], parse);
    }
  }

  /** The Engine.IO client.  `parse` stands for the JSON deserializer of
      the open message. */
  class EngineIoClient {
    var isOpened: bool
    var openMessage: Option<OpenMessage>
    var uri: Option<Uri>
    var timer: Timer
    var webSocket: Socket
    var events: seq<Event>
    const framework: string
    const parse: string -> Json<OpenMessage>

    function Snapshot(): State
      reads this
    {
      State(isOpened, openMessage, uri, timer, webSocket, events)
    }

    constructor(framework: string, parse: string -> Json<OpenMessage>)
      ensures Snapshot() == Initial
      ensures this.framework == framework && this.parse == parse
    {
      this.framework := framework;
      this.parse := parse;
      isOpened := false;
      openMessage := None;
      uri := None;
      timer := NewTimer;
      webSocket := NewSocket;
      events := [];
    }

    method OnTextReceived(text: Option<string>)
      modifies this
      ensures Snapshot() == Receive(old(Snapshot()), text, parse)
    {
      if text.None? {
        events := events + [ExceptionOccurred(InvalidOperation("Null Engine.IO string"))];
        return;
      }
      if IsBlank(text.value) {
        events := events + [ExceptionOccurred(InvalidOperation("Empty Engine.IO string"))];
        return;
      }
      var packet := EngineIoPacket.Decode(text.value).value;
      var kind := EngineIoPacket.TypeOf(packet.prefix);
      if kind.None? {
        return;
      }
      match kind.value
      case Open =>
        var json := parse(packet.value);
        if json.Malformed? {
          events := events + [ExceptionOccurred(Exceptions.Json)];
          return;
        }
        openMessage := json.AsNullable();
        isOpened := true;
        var interval := PingIntervalOf(openMessage);
        if interval <= 0 {
          events := events + [ExceptionOccurred(Argument("Interval"))];
          return;
        }
        timer := timer.(interval := interval);
        timer := timer.(running := true);
        events := events + [Event.Opened(Some(openMessage.GetOr(EmptyOpenMessage)))];
      case Close =>
        isOpened := false;
        events := events + [Event.Closed(ServerCloseReason, None)];
      case Ping =>
        events := events + [PingReceived(packet.value)];
      case Pong =>
        events := events + [PongReceived(packet.value)];
      case Message =>
        events := events + [MessageReceived(packet.value)];
      case Upgrade =>
        events := events + [Event.Upgraded(packet.value)];
      case Noop =>
        events := events + [NoopReceived(packet.value)];
    }

    method TimerElapsed(reconnect: ConnectOutcome)
      modifies this
      ensures Snapshot() == Tick(old(Snapshot()), reconnect)
    {
      var attempt := Connect(webSocket, webSocket.lastConnectUri, reconnect);
      webSocket := attempt.socket;
      if attempt.error.Some? {
        if Reported(attempt.error.value) {
          events := events + [ExceptionOccurred(attempt.error.value)];
        }
        return;
      }
      webSocket := SendText(webSocket, PingFrame());
      events := events + [PingSent(PingMessage)];
    }

    method OnDisconnected(reason: string, status: Option<int>)
      modifies this
      ensures Snapshot() == Dropped(old(Snapshot()), reason, status)
    {
      webSocket := Disconnect(webSocket);
      isOpened := false;
      events := events + [Event.Closed(reason, status)];
    }

    method CloseAsync(reason: string, status: Option<int>)
      modifies this
      ensures Snapshot() == Close(old(Snapshot()), reason, status)
    {
      timer := timer.(running := false);
      var wasConnected := webSocket.connected;
      webSocket := SendText(webSocket, CloseFrame());
      if wasConnected {
        OnDisconnected(reason, status);
      }
    }

    method SendMessageAsync(message: string)
      modifies this
      ensures Snapshot() == SendMessage(old(Snapshot()), message)
    {
      webSocket := SendText(webSocket, MessageFrame(message));
    }

    method OpenAsync(uri: Option<Uri>, outcome: ConnectOutcome, handshake: Option<string>)
      returns (result: Result<Option<OpenMessage>, Exception>)
      modifies this
      ensures var r := Open(old(Snapshot()), framework, parse, uri, outcome, handshake);
              Snapshot() == r.state && result == r.result
    {
      if webSocket.connected {
        return Ok(openMessage);
      }
      if uri.None? {
        return Err(ArgumentNull("uri"));
      }
      this.uri := uri;
      var address := ToWebSocketUri(uri, Some(framework));
      if address.Err? {
        return Err(address.error);
      }
      var attempt := Connect(webSocket, Some(address.value), outcome);
      webSocket := attempt.socket;
      if attempt.error.Some? {
        return Err(attempt.error.value);
      }
      result := WaitOpenedAsync(handshake);
    }

    /** The wait for Opened at the end of `OpenAsync`. */
    method WaitOpenedAsync(handshake: Option<string>) returns (result: Result<Option<OpenMessage>, Exception>)
      modifies this
      ensures var r := AwaitOpened(old(Snapshot()), parse, handshake);
              Snapshot() == r.state && result == r.result
    {
      if handshake.None? {
        return Err(OperationCanceled);
      }
      var before := |events|;
      OnTextReceived(handshake);
      if |events| > before && events[|events| - 1].Opened? {
        return Ok(events[|events| - 1].message);
      }
      return Err(OperationCanceled);
    }
  }
}
