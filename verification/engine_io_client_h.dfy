/** The Engine.IO client of `H.EngineIO`, the oldest of the `H` revisions.
    The handshake address is built inline and drops the path of the given
    address; `DisposeAsync` nulls both the WebSocket client and the timer,
    after which every public call throws ObjectDisposedException; bad
    frames are reported as InvalidDataException. */
module EngineIoClientH {
  import opened Wrappers
  import opened Exceptions
  import opened Text
  import opened Handshake
  import opened EngineIoCore
  import EngineIoPacket

  /** The fields of the client and of its WebSocket client, and the events
      raised so far.  `socket` and `timer` are None once disposed. */
  datatype State = State(
    isOpened: bool,
    openMessage: Option<OpenMessage>,
    uri: Option<Uri>,
    timer: Option<Timer>,
    socket: Option<Socket>,
    events: seq<Event>)

  /** A freshly constructed client. */
  const Initial: State := State(false, None, None, Some(NewTimer), Some(NewSocket), [])

  function Raise(s: State, e: Event): (r: State)
    ensures r == s.(events := s.events + [e])
  {
    s.(events := s.events + [e])
  }

  /** `OnOpened`: nothing once the timer is gone; otherwise `IsOpened`, the
      interval (whose setter may throw), the start, and Opened with the
      message as received. */
  function HandleOpened(s: State, message: Option<OpenMessage>): State {
    match s.timer
    case None => s
    case Some(t) =>
      var armed := s.(isOpened := true);
      match SetInterval(t, PingIntervalOf(message))
      case Err(e) => Raise(armed, ExceptionOccurred(e))
      case Ok(t') => Raise(armed.(timer := Some(t'.(running := true))), Event.Opened(message))
  }

  /** `OnClosed`: `IsOpened` is reset and Closed raised. */
  function HandleClosed(s: State, reason: string, status: Option<int>): State {
    Raise(s.(isOpened := false), Event.Closed(reason, status))
  }

  /** `WebSocketClient_OnTextReceived`: a null or blank frame is reported
      as invalid data; an Open frame stores the message and sets
      `IsOpened` before `OnOpened`; a Close frame goes through `OnClosed`. */
  function Receive(s: State, text: Option<string>, parse: string -> Json<OpenMessage>): State {
    if text.None? then Raise(s, ExceptionOccurred(InvalidData("Null Engine.IO string")))
    else if IsBlank(text.value) then Raise(s, ExceptionOccurred(InvalidData("Empty Engine.IO string")))
    else
      var packet := EngineIoPacket.Decode(text.value).value;
      var kind := EngineIoPacket.TypeOf(packet.prefix);
      if kind.None? then s
      else if kind.value == EngineIoPacket.Open then
        var json := parse(packet.value);
        if json.Malformed? then Raise(s, ExceptionOccurred(Exceptions.Json))
        else HandleOpened(s.(openMessage := json.AsNullable(), isOpened := true), json.AsNullable())
      else if kind.value == EngineIoPacket.Close then HandleClosed(s, ServerCloseReason, None)
      else Raise(s, ValueEvent(kind.value, packet.value))
  }

  /** Receiving a frame never touches the WebSocket client. */
  lemma ReceiveKeepsSocket(s: State, text: Option<string>, parse: string -> Json<OpenMessage>)
    ensures Receive(s, text, parse).socket == s.socket
  {
  }

  /** A state and what the operation returned or threw. */
  datatype Outcome<+T> = Outcome(state: State, result: Result<T, Exception>)

  /** `Timer_Elapsed`: ObjectDisposedException, outside the handler's
      `try`, once the WebSocket client is gone; otherwise reconnect if
      needed, send the ping, raise PingSent, swallow cancellation and
      report any other failure. */
  function Tick(s: State, reconnect: ConnectOutcome): Outcome<()> {
    match s.socket
    case None => Outcome(s, Err(ObjectDisposed("WebSocketClient")))
    case Some(socket) =>
      var attempt := Connect(socket, socket.lastConnectUri, reconnect);
      match attempt.error
      case Some(e) =>
        var failed := s.(socket := Some(attempt.socket));
        Outcome(if Reported(e) then Raise(failed, ExceptionOccurred(e)) else failed, Ok(()))
      case None =>
        Outcome(Raise(s.(socket := Some(SendText(attempt.socket, PingFrame()))), PingSent(PingMessage)), Ok(()))
  }

  /** The transport's Disconnected handler; a disposed transport raises
      nothing. */
  function Dropped(s: State, reason: string, status: Option<int>): State {
    match s.socket
    case None => s
    case Some(socket) => HandleClosed(s.(socket := Some(Disconnect(socket))), reason, status)
  }

  /** `CloseAsync`: ObjectDisposedException for a missing WebSocket client,
      then for a missing timer; otherwise the timer stops, "1" is sent, and
      an open socket is closed, which runs the Disconnected handler. */
  function Close(s: State, reason: string, status: Option<int>): Outcome<()> {
    if s.socket.None? then Outcome(s, Err(ObjectDisposed("WebSocketClient")))
    else if s.timer.None? then Outcome(s, Err(ObjectDisposed("Timer")))
    else
      var stopped := s.(timer := Some(s.timer.value.(running := false)),
                        socket := Some(SendText(s.socket.value, CloseFrame())));
      Outcome(if s.socket.value.connected then Dropped(stopped, reason, status) else stopped, Ok(()))
  }

  /** `SendMessageAsync`: ObjectDisposedException once the WebSocket client
      is gone; otherwise "4" followed by the message. */
  function SendMessage(s: State, message: string): Outcome<()> {
    match s.socket
    case None => Outcome(s, Err(ObjectDisposed("WebSocketClient")))
    case Some(socket) => Outcome(s.(socket := Some(SendText(socket, MessageFrame(message)))), Ok(()))
  }

  /** `OpenAsync`: ObjectDisposedException for a missing WebSocket client,
      then for a missing timer; true at once on an open socket; otherwise
      the address is stored, rewritten to the framework's root path and
      connected to, and the result says whether the handshake frame (none
      before the wait is canceled) raised Opened. */
  function Open(s: State, framework: string, parse: string -> Json<OpenMessage>, uri: Option<Uri>,
                outcome: ConnectOutcome, handshake: Option<string>): Outcome<bool>
  {
    if s.socket.None? then Outcome(s, Err(ObjectDisposed("WebSocketClient")))
    else if s.timer.None? then Outcome(s, Err(ObjectDisposed("Timer")))
    else if s.socket.value.connected then Outcome(s, Ok(true))
    else if uri.None? then Outcome(s, Err(ArgumentNull("uri")))
    else
      var stored := s.(uri := uri);
      match LegacyWebSocketUri(uri.value, framework)
      case Err(e) => Outcome(stored, Err(e))
      case Ok(address) =>
        var attempt := Connect(s.socket.value, Some(address), outcome);
        var connected := stored.(socket := Some(attempt.socket));
        if attempt.error.Some? then Outcome(connected, Err(attempt.error.value))
        else if handshake.None? then Outcome(connected, Ok(false))
        else
          var answered := Receive(connected, handshake, parse);
          Outcome(answered, Ok(|answered.events| > |connected.events| && answered.events[|answered.events| - 1].Opened?))
  }

  /** `DisposeAsync`: the WebSocket client, when still there, is disposed
      and nulled; the timer is nulled. */
  function Disposed(s: State): State {
    s.(socket := None, timer := None)
  }

  /** The handshake address drops the path of the given address: the
      socket connects to the framework's root path with the same host and
      port, and the caller's query follows the revision parameters. */
  lemma HandshakeDropsPath(s: State, framework: string, parse: string -> Json<OpenMessage>, uri: Uri,
                           outcome: ConnectOutcome, handshake: Option<string>)
    requires s.socket.Some? && s.timer.Some? && !s.socket.value.connected
    requires uri.scheme in {"http", "https", "ws", "wss"}
    ensures var r := Open(s, framework, parse, Some(uri), outcome, handshake);
            var address := r.state.socket.value.lastConnectUri.value;
            r.state.uri == Some(uri)
            && address == ToWebSocketUri(Some(uri.(path := "/")), Some(framework)).value
            && address.path == "/" + framework + "/" && address.host == uri.host && address.port == uri.port
            && address.query == HandshakeQueryOf(uri.query)
  {
    LegacyIsRootPath(uri, framework);
  }

  /** An Open frame with a usable message on a live client sets the message
      and `IsOpened`, arms the timer with the ping interval (25000 for a
      null message), and raises Opened with the message as received. */
  lemma OpenFrameArmsTimer(s: State, value: string, parse: string -> Json<OpenMessage>)
    requires s.timer.Some?
    requires !parse(value).Malformed? && PingIntervalOf(parse(value).AsNullable()) > 0
    ensures var r := Receive(s, Some("0" + value), parse);
            var message := parse(value).AsNullable();
            r.isOpened && r.openMessage == message
            && r.timer == Some(Timer(PingIntervalOf(message), true))
            && r.events == s.events + [Event.Opened(message)]
            && r.socket == s.socket && r.uri == s.uri
  {
    EngineIoPacket.DecodeEncoded(EngineIoPacket.Packet("0", value));
    assert ("0" + value)[0] == '0';
  }

  /** Once disposed, an Open frame still stores the message and sets
      `IsOpened`, but the timer stays null and Opened is not raised. */
  lemma OpenFrameAfterDispose(s: State, value: string, parse: string -> Json<OpenMessage>)
    requires s.timer.None? && !parse(value).Malformed?
    ensures Receive(s, Some("0" + value), parse) == s.(openMessage := parse(value).AsNullable(), isOpened := true)
  {
    EngineIoPacket.DecodeEncoded(EngineIoPacket.Packet("0", value));
    assert ("0" + value)[0] == '0';
  }

  /** A Close frame and a disconnect of a live transport both reset
      `IsOpened` and raise Closed. */
  lemma ClosedBothWays(s: State, value: string, parse: string -> Json<OpenMessage>, reason: string, status: Option<int>)
    ensures var r := Receive(s, Some("1" + value), parse);
            !r.isOpened && r.events == s.events + [Event.Closed(ServerCloseReason, None)] && r.socket == s.socket
    ensures s.socket.Some? ==>
              var r := Dropped(s, reason, status);
              !r.isOpened && r.events == s.events + [Event.Closed(reason, status)] && !r.socket.value.connected
  {
    EngineIoPacket.DecodeEncoded(EngineIoPacket.Packet("1", value));
    assert ("1" + value)[0] == '1';
  }

  /** A null or blank frame is reported as invalid data and changes
      nothing else. */
  lemma BadFrameReported(s: State, text: Option<string>, parse: string -> Json<OpenMessage>)
    requires text.None? || IsBlank(text.value)
    ensures Receive(s, text, parse)
            == Raise(s, ExceptionOccurred(InvalidData(if text.None? then "Null Engine.IO string" else "Empty Engine.IO string")))
  {
  }

  /** On an open socket the heartbeat sends exactly "2ping" and raises
      PingSent("ping"). */
  lemma TickSendsPing(s: State, reconnect: ConnectOutcome)
    requires s.socket.Some? && s.socket.value.connected
    ensures var r := Tick(s, reconnect);
            r.result.Ok? && r.state == s.(socket := r.state.socket, events := s.events + [PingSent("ping")])
            && r.state.socket.value.sent == s.socket.value.sent + ["2ping"] && r.state.socket.value.connected
  {
    FramesSpelledOut("");
  }

  /** On an open socket of a live client `OpenAsync` returns true and
      changes nothing. */
  lemma OpenWhenConnected(s: State, framework: string, parse: string -> Json<OpenMessage>, uri: Option<Uri>,
                          outcome: ConnectOutcome, handshake: Option<string>)
    requires s.socket.Some? && s.timer.Some? && s.socket.value.connected
    ensures Open(s, framework, parse, uri, outcome, handshake) == Outcome(s, Ok(true))
  {
  }

  /** Closing a live client with an open socket stops the timer, sends "1",
      closes the socket and raises Closed. */
  lemma CloseSendsCloseFrame(s: State, reason: string, status: Option<int>)
    requires s.socket.Some? && s.timer.Some? && s.socket.value.connected
    ensures var r := Close(s, reason, status);
            r.result.Ok? && r.state.timer == Some(s.timer.value.(running := false))
            && r.state.socket.value.sent == s.socket.value.sent + ["1"] && !r.state.socket.value.connected
            && !r.state.isOpened && r.state.events == s.events + [Event.Closed(reason, status)]
  {
    FramesSpelledOut("");
  }

  /** A message goes out as "4" followed by the message, on an open socket. */
  lemma SendMessageFrame(s: State, message: string)
    requires s.socket.Some?
    ensures var r := SendMessage(s, message);
            r.result.Ok?
            && r.state.socket.value.sent
               == (if s.socket.value.connected then s.socket.value.sent + ["4" + message] else s.socket.value.sent)
            && r.state == s.(socket := r.state.socket)
  {
    FramesSpelledOut(message);
  }

  /** Disposing twice is disposing once, and afterwards every public call
      throws ObjectDisposedException for the WebSocket client without
      changing anything. */
  lemma DisposedRejects(s: State, framework: string, parse: string -> Json<OpenMessage>, uri: Option<Uri>,
                        outcome: ConnectOutcome, handshake: Option<string>, reason: string, status: Option<int>,
                        message: string, reconnect: ConnectOutcome)
    ensures var d := Disposed(s);
            Disposed(d) == d && d.events == s.events && d.isOpened == s.isOpened
            && Open(d, framework, parse, uri, outcome, handshake) == Outcome(d, Err(ObjectDisposed("WebSocketClient")))
            && Close(d, reason, status) == Outcome(d, Err(ObjectDisposed("WebSocketClient")))
            && SendMessage(d, message) == Outcome(d, Err(ObjectDisposed("WebSocketClient")))
            && Tick(d, reconnect) == Outcome(d, Err(ObjectDisposed("WebSocketClient")))
  {
  }

  /** What can happen to a client: inbound frames, heartbeat ticks,
      transport disconnects, and the public calls. */
  datatype Input =
    | Frame(text: Option<string>)
    | Heartbeat(reconnect: ConnectOutcome)
    | TransportClosed(reason: string, status: Option<int>)
    | CallSend(message: string)
    | CallOpen(uri: Option<Uri>, outcome: ConnectOutcome, handshake: Option<string>)
    | CallClose(reason: string, status: Option<int>)
    | CallDispose

  function Step(s: State, input: Input, framework: string, parse: string -> Json<OpenMessage>): State {
    match input
    case Frame(text) => Receive(s, text, parse)
    case Heartbeat(reconnect) => Tick(s, reconnect).state
    case TransportClosed(reason, status) => Dropped(s, reason, status)
    case CallSend(message) => SendMessage(s, message).state
    case CallOpen(uri, outcome, handshake) => Open(s, framework, parse, uri, outcome, handshake).state
    case CallClose(reason, status) => Close(s, reason, status).state
    case CallDispose => Disposed(s)
  }

  function Run(s: State, inputs: seq<Input>, framework: string, parse: string -> Json<OpenMessage>): State
    decreases |inputs|
  {
    if inputs == [] then s else Run(Step(s, inputs[0], framework, parse), inputs[1..], framework, parse)
  }

  /** A step of a disposed client leaves it disposed, only appends to the
      event log, and never raises Opened. */
  lemma DisposedStep(s: State, input: Input, framework: string, parse: string -> Json<OpenMessage>)
    requires s.socket.None? && s.timer.None?
    ensures var r := Step(s, input, framework, parse);
            r.socket.None? && r.timer.None? && s.events <= r.events
            && forall i :: |s.events| <= i < |r.events| ==> !r.events[i].Opened?
  {
    match input
    case Frame(Some(text)) =>
      if !IsBlank(text) {
        var packet := EngineIoPacket.Decode(text).value;
        assert packet.prefix == text[..1];
      }
    case _ =>
  }

  /** Dispose is final: whatever happens afterwards, there is no transport
      to send on, the timer is never armed again and Opened is never
      raised. */
  lemma {:induction false} DisposeIsFinal(s: State, inputs: seq<Input>, framework: string, parse: string -> Json<OpenMessage>)
    requires s.socket.None? && s.timer.None?
    ensures var r := Run(s, inputs, framework, parse);
            r.socket.None? && r.timer.None? && s.events <= r.events
            && forall i :: |s.events| <= i < |r.events| ==> !r.events[i].Opened?
    decreases |inputs|
  {
    if inputs != [] {
      var next := Step(s, inputs[0], framework, parse);
      DisposedStep(s, inputs[0], framework, parse);
      DisposeIsFinal(next, inputs[1..], framework, parse);
      var r := Run(s, inputs, framework, parse);
      assert r == Run(next, inputs[1..], framework, parse);
      forall i | |s.events| <= i < |r.events|
        ensures !r.events[i].Opened?
      {
        if i < |next.events| {
          assert r.events[i] == next.events[i];
        }
      }
    }
  }

  /** The Engine.IO client.  `parse` stands for the JSON deserializer. */
  class EngineIoClient {
    var isOpened: bool
    var openMessage: Option<OpenMessage>
    var uri: Option<Uri>
    var timer: Option<Timer>
    var webSocket: Option<Socket>
    var events: seq<Event>
    const framework: string
    const parse: string -> Json<OpenMessage>

    function Snapshot(): State
      reads this
    {
      State(isOpened, openMessage, uri, timer, webSocket, events)
    }

    constructor(framework: string, parse: string -> Json<OpenMessage>)
      ensures Snapshot() == Initial
      ensures this.framework == framework && this.parse == parse
    {
      this.framework := framework;
      this.parse := parse;
      isOpened := false;
      openMessage := None;
      uri := None;
      timer := Some(NewTimer);
      webSocket := Some(NewSocket);
      events := [];
    }

    method OnOpened(message: Option<OpenMessage>)
      modifies this
      ensures Snapshot() == HandleOpened(old(Snapshot()), message)
    {
      if timer.None? {
        return;
      }
      isOpened := true;
      var interval := PingIntervalOf(message);
      if interval <= 0 {
        events := events + [ExceptionOccurred(Argument("Interval"))];
        return;
      }
      timer := Some(timer.value.(interval := interval));
      timer := Some(timer.value.(running := true));
      events := events + [Event.Opened(message)];
    }

    method OnClosed(reason: string, status: Option<int>)
      modifies this
      ensures Snapshot() == HandleClosed(old(Snapshot()), reason, status)
    {
      isOpened := false;
      events := events + [Event.Closed(reason, status)];
    }

    method OnTextReceived(text: Option<string>)
      modifies this
      ensures Snapshot() == Receive(old(Snapshot()), text, parse)
    {
      if text.None? {
        events := events + [ExceptionOccurred(InvalidData("Null Engine.IO string"))];
        return;
      }
      if IsBlank(text.value) {
        events := events + [ExceptionOccurred(InvalidData("Empty Engine.IO string"))];
        return;
      }
      var packet := EngineIoPacket.Decode(text.value).value;
      var kind := EngineIoPacket.TypeOf(packet.prefix);
      if kind.None? {
        return;
      }
      match kind.value
      case Open =>
        var json := parse(packet.value);
        if json.Malformed? {
          events := events + [ExceptionOccurred(Exceptions.Json)];
          return;
        }
        openMessage := json.AsNullable();
        isOpened := true;
        OnOpened(openMessage);
      case Close =>
        OnClosed(ServerCloseReason, None);
      case Ping =>
        events := events + [PingReceived(packet.value)];
      case Pong =>
        events := events + [PongReceived(packet.value)];
      case Message =>
        events := events + [MessageReceived(packet.value)];
      case Upgrade =>
        events := events + [Event.Upgraded(packet.value)];
      case Noop =>
        events := events + [NoopReceived(packet.value)];
    }

    method TimerElapsed(reconnect: ConnectOutcome) returns (result: Result<(), Exception>)
      modifies this
      ensures var r := Tick(old(Snapshot()), reconnect);
              Snapshot() == r.state && result == r.result
    {
      if webSocket.None? {
        return Err(ObjectDisposed("WebSocketClient"));
      }
      var attempt := Connect(webSocket.value, webSocket.value.lastConnectUri, reconnect);
      webSocket := Some(attempt.socket);
      if attempt.error.Some? {
        if Reported(attempt.error.value) {
          events := events + [ExceptionOccurred(attempt.error.value)];
        }
        return Ok(());
      }
      webSocket := Some(SendText(attempt.socket, PingFrame()));
      events := events + [PingSent(PingMessage)];
      return Ok(());
    }

    method OnDisconnected(reason: string, status: Option<int>)
      modifies this
      ensures Snapshot() == Dropped(old(Snapshot()), reason, status)
    {
      if webSocket.None? {
        return;
      }
      webSocket := Some(Disconnect(webSocket.value));
      OnClosed(reason, status);
    }

    method CloseAsync(reason: string, status: Option<int>) returns (result: Result<(), Exception>)
      modifies this
      ensures var r := Close(old(Snapshot()), reason, status);
              Snapshot() == r.state && result == r.result
    {
      if webSocket.None? {
        return Err(ObjectDisposed("WebSocketClient"));
      }
      if timer.None? {
        return Err(ObjectDisposed("Timer"));
      }
      timer := Some(timer.value.(running := false));
      var wasConnected := webSocket.value.connected;
      webSocket := Some(SendText(webSocket.value, CloseFrame()));
      if wasConnected {
        OnDisconnected(reason, status);
      }
      return Ok(());
    }

    method SendMessageAsync(message: string) returns (result: Result<(), Exception>)
      modifies this
      ensures var r := SendMessage(old(Snapshot()), message);
              Snapshot() == r.state && result == r.result
    {
      if webSocket.None? {
        return Err(ObjectDisposed("WebSocketClient"));
      }
      webSocket := Some(SendText(webSocket.value, MessageFrame(message)));
      return Ok(());
    }

    method OpenAsync(uri: Option<Uri>, outcome: ConnectOutcome, handshake: Option<string>)
      returns (result: Result<bool, Exception>)
      modifies this
      ensures var r := Open(old(Snapshot()), framework, parse, uri, outcome, handshake);
              Snapshot() == r.state && result == r.result
    {
      if webSocket.None? {
        return Err(ObjectDisposed("WebSocketClient"));
      }
      if timer.None? {
        return Err(ObjectDisposed("Timer"));
      }
      if webSocket.value.connected {
        return Ok(true);
      }
      if uri.None? {
        return Err(ArgumentNull("uri"));
      }
      this.uri := uri;
      var address := LegacyWebSocketUri(uri.value, framework);
      if address.Err? {
        return Err(address.error);
      }
      var attempt := Connect(webSocket.value, Some(address.value), outcome);
      webSocket := Some(attempt.socket);
      if attempt.error.Some? {
        return Err(attempt.error.value);
      }
      if handshake.None? {
        return Ok(false);
      }
      var before := |events|;
      OnTextReceived(handshake);
      return Ok(|events| > before && events[|events| - 1].Opened?);
    }

    method DisposeAsync()
      modifies this
      ensures Snapshot() == Disposed(old(Snapshot()))
    {
      if webSocket.Some? {
        webSocket := None;
      }
      timer := None;
    }
  }
}
