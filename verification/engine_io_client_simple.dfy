/** The Engine.IO client of `SimpleSocketIoClient/EngineIO`.  It behaves
    like the `H.EngineIO` revision but splits frames inline, spells its
    frames out inline, raises the `After...` events (AfterPing for both the
    heartbeat and a received Ping frame), and reports null and blank frames
    with one message. */
module EngineIoClientSimple {
  import opened Wrappers
  import opened Exceptions
  import opened Text
  import opened Handshake
  import opened EngineIoCore
  import EngineIoPacket

  /** The fields of the client and of its WebSocket client, and the events
      raised so far.  `socket` and `timer` are None once disposed. */
  datatype State = State(
    isOpened: bool,
    openMessage: Option<OpenMessage>,
    uri: Option<Uri>,
    timer: Option<Timer>,
    socket: Option<Socket>,
    events: seq<SimpleEvent>)

  /** A freshly constructed client. */
  const Initial: State := State(false, None, None, Some(NewTimer), Some(NewSocket), [])

  /** The message a null or blank frame is reported with. */
  const BadFrameMessage: string := "Empty or null Engine.IO string"

  function Raise(s: State, e: SimpleEvent): (r: State)
    ensures r == s.(events := s.events + [e])
  {
    s.(events := s.events + [e])
  }

  /** `OnOpened`: nothing once the timer is gone; otherwise `IsOpened`, the
      interval (whose setter may throw), the start, and Opened with the
      message as received. */
  function HandleOpened(s: State, message: Option<OpenMessage>): State {
    match s.timer
    case None => s
    case Some(t) =>
      var armed := s.(isOpened := true);
      match SetInterval(t, PingIntervalOf(message))
      case Err(e) => Raise(armed, AfterException(e))
      case Ok(t') => Raise(armed.(timer := Some(t'.(running := true))), SimpleEvent.Opened(message))
  }

  /** `OnClosed`: `IsOpened` is reset and Closed raised. */
  function HandleClosed(s: State, reason: string, status: Option<int>): State {
    Raise(s.(isOpened := false), SimpleEvent.Closed(reason, status))
  }

  /** `WebSocket_AfterText`: a null or blank frame is reported as invalid
      data; otherwise the first character selects the reaction, the rest is
      the value, and an unknown first character is ignored. */
  function Receive(s: State, text: Option<string>, parse: string -> Json<OpenMessage>): State {
    if text.None? || IsBlank(text.value) then Raise(s, AfterException(InvalidData(BadFrameMessage)))
    else
      var prefix := text.value[..1];
      var value := text.value[1..];
      var kind := EngineIoPacket.TypeOf(prefix);
      if kind.None? then s
      else if kind.value == EngineIoPacket.Open then
        var json := parse(value);
        if json.Malformed? then Raise(s, AfterException(Exceptions.Json))
        else HandleOpened(s.(openMessage := json.AsNullable(), isOpened := true), json.AsNullable())
      else if kind.value == EngineIoPacket.Close then HandleClosed(s, ServerCloseReason, None)
      else Raise(s, SimpleValueEvent(kind.value, value))
  }

  /** Receiving a frame never touches the WebSocket client. */
  lemma ReceiveKeepsSocket(s: State, text: Option<string>, parse: string -> Json<OpenMessage>)
    ensures Receive(s, text, parse).socket == s.socket
  {
  }

  /** A state and what the operation returned or threw. */
  datatype Outcome<+T> = Outcome(state: State, result: Result<T, Exception>)

  /** `Timer_Elapsed`: ObjectDisposedException, outside the handler's
      `try`, once the WebSocket client is gone; otherwise reconnect if
      needed, send "2ping", raise AfterPing, swallow cancellation and report
      any other failure. */
  function Tick(s: State, reconnect: ConnectOutcome): Outcome<()> {
    match s.socket
    case None => Outcome(s, Err(ObjectDisposed("WebSocketClient")))
    case Some(socket) =>
      var attempt := Connect(socket, socket.lastConnectUri, reconnect);
      match attempt.error
      case Some(e) =>
        var failed := s.(socket := Some(attempt.socket));
        Outcome(if Reported(e) then Raise(failed, AfterException(e)) else failed, Ok(()))
      case None =>
        Outcome(Raise(s.(socket := Some(SendText(attempt.socket, "2" + PingMessage))), AfterPing(PingMessage)), Ok(()))
  }

  /** The transport's Disconnected handler; a disposed transport raises
      nothing. */
  function Dropped(s: State, reason: string, status: Option<int>): State {
    match s.socket
    case None => s
    case Some(socket) => HandleClosed(s.(socket := Some(Disconnect(socket))), reason, status)
  }

  /** `CloseAsync`: ObjectDisposedException for a missing WebSocket client,
      then for a missing timer; otherwise the timer stops, "1" is sent, and
      an open socket is closed, which runs the Disconnected handler. */
  function Close(s: State, reason: string, status: Option<int>): Outcome<()> {
    if s.socket.None? then Outcome(s, Err(ObjectDisposed("WebSocketClient")))
    else if s.timer.None? then Outcome(s, Err(ObjectDisposed("Timer")))
    else
      var stopped := s.(timer := Some(s.timer.value.(running := false)),
                        socket := Some(SendText(s.socket.value, "1")));
      Outcome(if s.socket.value.connected then Dropped(stopped, reason, status) else stopped, Ok(()))
  }

  /** `SendMessageAsync`: ObjectDisposedException once the WebSocket client
      is gone; otherwise "4" followed by the message. */
  function SendMessage(s: State, message: string): Outcome<()> {
    match s.socket
    case None => Outcome(s, Err(ObjectDisposed("WebSocketClient")))
    case Some(socket) => Outcome(s.(socket := Some(SendText(socket, "4" + message))), Ok(()))
  }

  /** `OpenAsync`: ObjectDisposedException for a missing WebSocket client,
      then for a missing timer; true at once on an open socket; otherwise
      the address is stored, rewritten to the framework's root path and
      connected to; a canceled connection gives false, and otherwise the
      result says whether the handshake frame (none before the wait is
      canceled) raised Opened. */
  function Open(s: State, framework: string, parse: string -> Json<OpenMessage>, uri: Option<Uri>,
                outcome: ConnectOutcome, handshake: Option<string>): Outcome<bool>
  {
    if s.socket.None? then Outcome(s, Err(ObjectDisposed("WebSocketClient")))
    else if s.timer.None? then Outcome(s, Err(ObjectDisposed("Timer")))
    else if s.socket.value.connected then Outcome(s, Ok(true))
    else if uri.None? then Outcome(s, Err(ArgumentNull("uri")))
    else
      var stored := s.(uri := uri);
      match LegacyWebSocketUri(uri.value, framework)
      case Err(e) => Outcome(stored, Err(e))
      case Ok(address) =>
        var attempt := Connect(s.socket.value, Some(address), outcome);
        var connected := stored.(socket := Some(attempt.socket));
        if attempt.error == Some(OperationCanceled) then Outcome(connected, Ok(false))
        else if attempt.error.Some? then Outcome(connected, Err(attempt.error.value))
        else if handshake.None? then Outcome(connected, Ok(false))
        else
          var answered := Receive(connected, handshake, parse);
          Outcome(answered, Ok(|answered.events| > |connected.events| && answered.events[|answered.events| - 1].Opened?))
  }

  /** `Dispose` and `DisposeAsync`: the WebSocket client, when still there,
      is disposed and nulled; the timer is nulled. */
  function Disposed(s: State): State {
    s.(socket := None, timer := None)
  }

  /** The inline split reacts to a frame exactly as a decoded packet would:
      a non-blank frame is its first character followed by the value. */
  lemma InlineSplit(s: State, prefix: char, value: string, parse: string -> Json<OpenMessage>)
    requires !IsWhiteSpace(prefix)
    ensures var frame := [prefix] + value;
            !IsBlank(frame) && EngineIoPacket.Decode(frame) == Ok(EngineIoPacket.Packet([prefix], value))
            && frame[..1] == [prefix] && frame[1..] == value
  {
    var frame := [prefix] + value;
    assert frame[0] == prefix;
    InlineSplitIsDecode(frame);
  }

  /** An Open frame with a usable message on a live client sets the message
      and `IsOpened`, arms the timer with the ping interval (25000 for a
      null message), and raises Opened with the message as received. */
  lemma OpenFrameArmsTimer(s: State, value: string, parse: string -> Json<OpenMessage>)
    requires s.timer.Some?
    requires !parse(value).Malformed? && PingIntervalOf(parse(value).AsNullable()) > 0
    ensures var r := Receive(s, Some("0" + value), parse);
            var message := parse(value).AsNullable();
            r.isOpened && r.openMessage == message
            && r.timer == Some(Timer(PingIntervalOf(message), true))
            && r.events == s.events + [SimpleEvent.Opened(message)]
            && r.socket == s.socket && r.uri == s.uri
  {
    InlineSplit(s, '0', value, parse);
  }

  /** A Close frame and a disconnect of a live transport both reset
      `IsOpened` and raise Closed. */
  lemma ClosedBothWays(s: State, value: string, parse: string -> Json<OpenMessage>, reason: string, status: Option<int>)
    ensures var r := Receive(s, Some("1" + value), parse);
            !r.isOpened && r.events == s.events + [SimpleEvent.Closed(ServerCloseReason, None)] && r.socket == s.socket
    ensures s.socket.Some? ==>
              var r := Dropped(s, reason, status);
              !r.isOpened && r.events == s.events + [SimpleEvent.Closed(reason, status)] && !r.socket.value.connected
  {
    InlineSplit(s, '1', value, parse);
  }

  /** The heartbeat on an open socket and a received Ping frame both raise
      AfterPing: the first with "ping" after sending "2ping", the second
      with the frame's value and nothing sent. */
  lemma AfterPingBothWays(s: State, reconnect: ConnectOutcome, value: string, parse: string -> Json<OpenMessage>)
    requires s.socket.Some? && s.socket.value.connected
    ensures var r := Tick(s, reconnect);
            r.result.Ok? && r.state.events == s.events + [AfterPing("ping")]
            && r.state.socket.value.sent == s.socket.value.sent + ["2ping"]
    ensures Receive(s, Some("2" + value), parse) == Raise(s, AfterPing(value))
  {
    InlineSplit(s, '2', value, parse);
    InlineFrames("");
    FramesSpelledOut("");
  }

  /** Pong, Message, Upgrade and Noop frames raise their event with the
      value and change nothing else. */
  lemma ValueFrameRaisesEvent(s: State, t: EngineIoPacket.PacketType, value: string, parse: string -> Json<OpenMessage>)
    requires t !in {EngineIoPacket.Open, EngineIoPacket.Close}
    ensures Receive(s, Some(EngineIoPacket.Prefix(t) + value), parse) == Raise(s, SimpleValueEvent(t, value))
  {
    InlineSplit(s, EngineIoPacket.Prefix(t)[0], value, parse);
    assert [EngineIoPacket.Prefix(t)[0]] == EngineIoPacket.Prefix(t);
  }

  /** A null or blank frame is reported with one message and changes
      nothing else. */
  lemma BadFrameReported(s: State, text: Option<string>, parse: string -> Json<OpenMessage>)
    requires text.None? || IsBlank(text.value)
    ensures Receive(s, text, parse) == Raise(s, AfterException(InvalidData("Empty or null Engine.IO string")))
  {
  }

  /** The handshake address drops the path of the given address. */
  lemma HandshakeDropsPath(s: State, framework: string, parse: string -> Json<OpenMessage>, uri: Uri,
                           outcome: ConnectOutcome, handshake: Option<string>)
    requires s.socket.Some? && s.timer.Some? && !s.socket.value.connected
    requires uri.scheme in {"http", "https", "ws", "wss"}
    ensures var r := Open(s, framework, parse, Some(uri), outcome, handshake);
            var address := r.state.socket.value.lastConnectUri.value;
            r.state.uri == Some(uri)
            && address == ToWebSocketUri(Some(uri.(path := "/")), Some(framework)).value
            && address.path == "/" + framework + "/" && address.host == uri.host && address.port == uri.port
  {
    LegacyIsRootPath(uri, framework);
  }

  /** On an open socket of a live client `OpenAsync` returns true and
      changes nothing. */
  lemma OpenWhenConnected(s: State, framework: string, parse: string -> Json<OpenMessage>, uri: Option<Uri>,
                          outcome: ConnectOutcome, handshake: Option<string>)
    requires s.socket.Some? && s.timer.Some? && s.socket.value.connected
    ensures Open(s, framework, parse, uri, outcome, handshake) == Outcome(s, Ok(true))
  {
  }

  /** Closing a live client with an open socket stops the timer, sends "1",
      closes the socket and raises Closed; a message goes out as "4"
      followed by the message. */
  lemma OutboundFrames(s: State, reason: string, status: Option<int>, message: string)
    requires s.socket.Some? && s.timer.Some? && s.socket.value.connected
    ensures var r := Close(s, reason, status);
            r.result.Ok? && r.state.timer == Some(s.timer.value.(running := false))
            && r.state.socket.value.sent == s.socket.value.sent + ["1"] && !r.state.socket.value.connected
            && !r.state.isOpened && r.state.events == s.events + [SimpleEvent.Closed(reason, status)]
    ensures var r := SendMessage(s, message);
            r.result.Ok? && r.state.socket.value.sent == s.socket.value.sent + ["4" + message]
            && r.state == s.(socket := r.state.socket)
  {
  }

  /** Disposing twice is disposing once, and afterwards every public call
      throws ObjectDisposedException for the WebSocket client without
      changing anything. */
  lemma DisposedRejects(s: State, framework: string, parse: string -> Json<OpenMessage>, uri: Option<Uri>,
                        outcome: ConnectOutcome, handshake: Option<string>, reason: string, status: Option<int>,
                        message: string, reconnect: ConnectOutcome)
    ensures var d := Disposed(s);
            Disposed(d) == d && d.events == s.events && d.isOpened == s.isOpened
            && Open(d, framework, parse, uri, outcome, handshake) == Outcome(d, Err(ObjectDisposed("WebSocketClient")))
            && Close(d, reason, status) == Outcome(d, Err(ObjectDisposed("WebSocketClient")))
            && SendMessage(d, message) == Outcome(d, Err(ObjectDisposed("WebSocketClient")))
            && Tick(d, reconnect) == Outcome(d, Err(ObjectDisposed("WebSocketClient")))
  {
  }

  /** What can happen to a client: inbound frames, heartbeat ticks,
      transport disconnects, and the public calls other than opening. */
  datatype Input =
    | Frame(text: Option<string>)
    | Heartbeat(reconnect: ConnectOutcome)
    | TransportClosed(reason: string, status: Option<int>)
    | CallSend(message: string)
    | CallClose(reason: string, status: Option<int>)

  function Step(s: State, input: Input, parse: string -> Json<OpenMessage>): State {
    match input
    case Frame(text) => Receive(s, text, parse)
    case Heartbeat(reconnect) => Tick(s, reconnect).state
    case TransportClosed(reason, status) => Dropped(s, reason, status)
    case CallSend(message) => SendMessage(s, message).state
    case CallClose(reason, status) => Close(s, reason, status).state
  }

  function Run(s: State, inputs: seq<Input>, parse: string -> Json<OpenMessage>): State
    decreases |inputs|
  {
    if inputs == [] then s else Run(Step(s, inputs[0], parse), inputs[1..], parse)
  }

  /** Whether a state's `IsOpened` agrees with its event log: true exactly
      when the last Opened or Closed event is Opened, or, with neither,
      when it was true at the start of the log. */
  function LastSays(start: bool, events: seq<SimpleEvent>): bool
    decreases |events|
  {
    if events == [] then start
    else
      var last := events[|events| - 1];
      if last.Opened? then true
      else if last.Closed? then false
      else LastSays(start, events[..|events| - 1])
  }

  lemma LastSaysAppend(start: bool, events: seq<SimpleEvent>, e: SimpleEvent)
    ensures LastSays(start, events + [e])
            == (if e.Opened? then true else if e.Closed? then false else LastSays(start, events))
  {
    assert (events + [e])[..|events|] == events;
  }

  /** `IsOpened` agrees with the event log.  An Open frame can break this
      (it sets `IsOpened` without raising Opened when the timer is gone or
      rejects the interval), so the lemmas below leave Open frames out. */
  predicate Agrees(s: State, start: bool) {
    s.isOpened == LastSays(start, s.events)
  }

  /** Every step other than an Open frame keeps `IsOpened` in agreement
      with the event log. */
  lemma StepAgrees(s: State, input: Input, parse: string -> Json<OpenMessage>, start: bool)
    requires Agrees(s, start)
    requires !(input.Frame? && input.text.Some? && input.text.value != [] && input.text.value[0] == '0')
    ensures Agrees(Step(s, input, parse), start)
    ensures s.events <= Step(s, input, parse).events
  {
    var r := Step(s, input, parse);
    match input
    case Frame(text) =>
      if text.None? || IsBlank(text.value) {
        LastSaysAppend(start, s.events, AfterException(InvalidData(BadFrameMessage)));
      } else {
        var kind := EngineIoPacket.TypeOf(text.value[..1]);
        if kind.Some? && kind.value == EngineIoPacket.Close {
          LastSaysAppend(start, s.events, SimpleEvent.Closed(ServerCloseReason, None));
        } else if kind.Some? {
          assert kind.value != EngineIoPacket.Open;
          LastSaysAppend(start, s.events, SimpleValueEvent(kind.value, text.value[1..]));
        }
      }
    case Heartbeat(reconnect) =>
      if r.events != s.events {
        LastSaysAppend(start, s.events, r.events[|r.events| - 1]);
        assert r.events == s.events + [r.events[|r.events| - 1]];
      }
    case TransportClosed(reason, status) =>
      if s.socket.Some? {
        LastSaysAppend(start, s.events, SimpleEvent.Closed(reason, status));
      }
    case CallSend(message) =>
    case CallClose(reason, status) =>
      if s.socket.Some? && s.timer.Some? && s.socket.value.connected {
        LastSaysAppend(start, s.events, SimpleEvent.Closed(reason, status));
      }
  }

  /** Without Open frames, `IsOpened` always says what the last Opened or
      Closed event said. */
  lemma {:induction false} RunAgrees(s: State, inputs: seq<Input>, parse: string -> Json<OpenMessage>, start: bool)
    requires Agrees(s, start)
    requires forall i :: 0 <= i < |inputs| ==>
               !(inputs[i].Frame? && inputs[i].text.Some? && inputs[i].text.value != [] && inputs[i].text.value[0] == '0')
    ensures Agrees(Run(s, inputs, parse), start)
    decreases |inputs|
  {
    if inputs != [] {
      StepAgrees(s, inputs[0], parse, start);
      RunAgrees(Step(s, inputs[0], parse), inputs[1..], parse, start);
    }
  }

  /** The Engine.IO client.  `parse` stands for the JSON deserializer. */
  class EngineIoClient {
    var isOpened: bool
    var openMessage: Option<OpenMessage>
    var uri: Option<Uri>
    var timer: Option<Timer>
    var webSocket: Option<Socket>
    var events: seq<SimpleEvent>
    const framework: string
    const parse: string -> Json<OpenMessage>

    function Snapshot(): State
      reads this
    {
      State(isOpened, openMessage, uri, timer, webSocket, events)
    }

    constructor(framework: string, parse: string -> Json<OpenMessage>)
      ensures Snapshot() == Initial
      ensures this.framework == framework && this.parse == parse
    {
      this.framework := framework;
      this.parse := parse;
      isOpened := false;
      openMessage := None;
      uri := None;
      timer := Some(NewTimer);
      webSocket := Some(NewSocket);
      events := [];
    }

    method OnOpened(message: Option<OpenMessage>)
      modifies this
      ensures Snapshot() == HandleOpened(old(Snapshot()), message)
    {
      if timer.None? {
        return;
      }
      isOpened := true;
      var interval := PingIntervalOf(message);
      if interval <= 0 {
        events := events + [AfterException(Argument("Interval"))];
        return;
      }
      timer := Some(timer.value.(interval := interval));
      timer := Some(timer.value.(running := true));
      events := events + [SimpleEvent.Opened(message)];
    }

    method OnClosed(reason: string, status: Option<int>)
      modifies this
      ensures Snapshot() == HandleClosed(old(Snapshot()), reason, status)
    {
      isOpened := false;
      events := events + [SimpleEvent.Closed(reason, status)];
    }

    method AfterText(text: Option<string>)
      modifies this
      ensures Snapshot() == Receive(old(Snapshot()), text, parse)
    {
      if text.None? || IsBlank(text.value) {
        events := events + [AfterException(InvalidData(BadFrameMessage))];
        return;
      }
      var prefix := text.value[..1];
      var value := text.value[1..];
      var kind := EngineIoPacket.TypeOf(prefix);
      if kind.None? {
        return;
      }
      match kind.value
      case Open =>
        var json := parse(value);
        if json.Malformed? {
          events := events + [AfterException(Exceptions.Json)];
          return;
        }
        openMessage := json.AsNullable();
        isOpened := true;
        OnOpened(openMessage);
      case Close =>
        OnClosed(ServerCloseReason, None);
      case Ping =>
        events := events + [AfterPing(value)];
      case Pong =>
        events := events + [AfterPong(value)];
      case Message =>
        events := events + [AfterMessage(value)];
      case Upgrade =>
        events := events + [SimpleEvent.Upgraded(value)];
      case Noop =>
        events := events + [AfterNoop(value)];
    }

    method TimerElapsed(reconnect: ConnectOutcome) returns (result: Result<(), Exception>)
      modifies this
      ensures var r := Tick(old(Snapshot()), reconnect);
              Snapshot() == r.state && result == r.result
    {
      if webSocket.None? {
        return Err(ObjectDisposed("WebSocketClient"));
      }
      var attempt := Connect(webSocket.value, webSocket.value.lastConnectUri, reconnect);
      webSocket := Some(attempt.socket);
      if attempt.error.Some? {
        if Reported(attempt.error.value) {
          events := events + [AfterException(attempt.error.value)];
        }
        return Ok(());
      }
      webSocket := Some(SendText(attempt.socket, "2" + PingMessage));
      events := events + [AfterPing(PingMessage)];
      return Ok(());
    }

    method OnDisconnected(reason: string, status: Option<int>)
      modifies this
      ensures Snapshot() == Dropped(old(Snapshot()), reason, status)
    {
      if webSocket.None? {
        return;
      }
      webSocket := Some(Disconnect(webSocket.value));
      OnClosed(reason, status);
    }

    method CloseAsync(reason: string, status: Option<int>) returns (result: Result<(), Exception>)
      modifies this
      ensures var r := Close(old(Snapshot()), reason, status);
              Snapshot() == r.state && result == r.result
    {
      if webSocket.None? {
        return Err(ObjectDisposed("WebSocketClient"));
      }
      if timer.None? {
        return Err(ObjectDisposed("Timer"));
      }
      timer := Some(timer.value.(running := false));
      var wasConnected := webSocket.value.connected;
      webSocket := Some(SendText(webSocket.value, "1"));
      if wasConnected {
        OnDisconnected(reason, status);
      }
      return Ok(());
    }

    method SendMessageAsync(message: string) returns (result: Result<(), Exception>)
      modifies this
      ensures var r := SendMessage(old(Snapshot()), message);
              Snapshot() == r.state && result == r.result
    {
      if webSocket.None? {
        return Err(ObjectDisposed("WebSocketClient"));
      }
      webSocket := Some(SendText(webSocket.value, "4" + message));
      return Ok(());
    }

    method OpenAsync(uri: Option<Uri>, outcome: ConnectOutcome, handshake: Option<string>)
      returns (result: Result<bool, Exception>)
      modifies this
      ensures var r := Open(old(Snapshot()), framework, parse, uri, outcome, handshake);
              Snapshot() == r.state && result == r.result
    {
      if webSocket.None? {
        return Err(ObjectDisposed("WebSocketClient"));
      }
      if timer.None? {
        return Err(ObjectDisposed("Timer"));
      }
      if webSocket.value.connected {
        return Ok(true);
      }
      if uri.None? {
        return Err(ArgumentNull("uri"));
      }
      this.uri := uri;
      var address := LegacyWebSocketUri(uri.value, framework);
      if address.Err? {
        return Err(address.error);
      }
      var attempt := Connect(webSocket.value, Some(address.value), outcome);
      webSocket := Some(attempt.socket);
      if attempt.error == Some(OperationCanceled) {
        return Ok(false);
      }
      if attempt.error.Some? {
        return Err(attempt.error.value);
      }
      if handshake.None? {
        return Ok(false);
      }
      var before := |events|;
      AfterText(handshake);
      return Ok(|events| > before && events[|events| - 1].Opened?);
    }

    method Dispose()
      modifies this
      ensures Snapshot() == Disposed(old(Snapshot()))
    {
      webSocket := None;
      timer := None;
    }
  }
}
