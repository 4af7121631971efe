/** The Engine.IO client of `src/H.Engine.IO`.  It differs from the current
    revision in three ways: the timer is nulled by `Dispose`, after which an
    Open frame still sets `IsOpened` but neither arms the timer nor raises
    Opened; `OpenAsync` and `CloseAsync` throw ObjectDisposedException once
    the timer is gone; and `OpenAsync` answers with a flag instead of the
    open message. */
module EngineIoClientSrc {
  import opened Wrappers
  import opened Exceptions
  import opened Text
  import opened Handshake
  import opened EngineIoCore
  import EngineIoPacket

  /** The fields of the client and of its WebSocket client, and the events
      raised so far.  `timer` is None once the client is disposed. */
  datatype State = State(
    isOpened: bool,
    openMessage: Option<OpenMessage>,
    uri: Option<Uri>,
    timer: Option<Timer>,
    socket: Socket,
    events: seq<Event>)

  /** A freshly constructed client. */
  const Initial: State := State(false, None, None, Some(NewTimer), NewSocket, [])

  function Raise(s: State, e: Event): (r: State)
    ensures r == s.(events := s.events + [e])
  {
    s.(events := s.events + [e])
  }

  /** `OnOpened`: nothing once the timer is gone; otherwise the interval
      (whose setter may throw), the start, and Opened with the message as
      it was received, null included. */
  function HandleOpened(s: State, message: Option<OpenMessage>): State {
    match s.timer
    case None => s
    case Some(t) =>
      var armed := s.(isOpened := true);
      match SetInterval(t, PingIntervalOf(message))
      case Err(e) => Raise(armed, ExceptionOccurred(e))
      case Ok(t') => Raise(armed.(timer := Some(t'.(running := true))), Event.Opened(message))
  }

  /** `OnClosed`: `IsOpened` is reset and Closed raised. */
  function HandleClosed(s: State, reason: string, status: Option<int>): State {
    Raise(s.(isOpened := false), Event.Closed(reason, status))
  }

  /** `WebSocketClient_OnTextReceived`: a null or blank frame is reported;
      an Open frame stores the message and sets `IsOpened` before
      `OnOpened`; a Close frame goes through `OnClosed`. */
  function Receive(s: State, text: Option<string>, parse: string -> Json<OpenMessage>): State {
    if text.None? then Raise(s, ExceptionOccurred(InvalidOperation("Null Engine.IO string")))
    else if IsBlank(text.value) then Raise(s, ExceptionOccurred(InvalidOperation("Empty Engine.IO string")))
    else
      var packet := EngineIoPacket.Decode(text.value).value;
      var kind := EngineIoPacket.TypeOf(packet.prefix);
      if kind.None? then s
      else if kind.value == EngineIoPacket.Open then
        var json := parse(packet.value);
        if json.Malformed? then Raise(s, ExceptionOccurred(Exceptions.Json))
        else HandleOpened(s.(openMessage := json.AsNullable(), isOpened := true), json.AsNullable())
      else if kind.value == EngineIoPacket.Close then HandleClosed(s, ServerCloseReason, None)
      else Raise(s, ValueEvent(kind.value, packet.value))
  }

  /** `Timer_Elapsed`: reconnect if needed, send the ping, raise PingSent;
      cancellation is swallowed and any other failure reported. */
  function Tick(s: State, reconnect: ConnectOutcome): State {
    var attempt := Connect(s.socket, s.socket.lastConnectUri, reconnect);
    match attempt.error
    case Some(e) =>
      var failed := s.(socket := attempt.socket);
      if Reported(e) then Raise(failed, ExceptionOccurred(e)) else failed
    case None =>
      Raise(s.(socket := SendText(attempt.socket, PingFrame())), PingSent(PingMessage))
  }

  /** The transport's Disconnected handler. */
  function Dropped(s: State, reason: string, status: Option<int>): State {
    HandleClosed(s.(socket := Disconnect(s.socket)), reason, status)
  }

  /** A state and what the operation returned or threw. */
  datatype Outcome<+T> = Outcome(state: State, result: Result<T, Exception>)

  /** `CloseAsync`: ObjectDisposedException once the timer is gone;
      otherwise the timer stops, "1" is sent, and an open socket is closed,
      which runs the Disconnected handler. */
  function Close(s: State, reason: string, status: Option<int>): Outcome<()> {
    match s.timer
    case None => Outcome(s, Err(ObjectDisposed("Timer")))
    case Some(t) =>
      var stopped := s.(timer := Some(t.(running := false)), socket := SendText(s.socket, CloseFrame()));
      Outcome(if s.socket.connected then Dropped(stopped, reason, status) else stopped, Ok(()))
  }

  /** `SendMessageAsync`: "4" followed by the message. */
  function SendMessage(s: State, message: string): State {
    s.(socket := SendText(s.socket, MessageFrame(message)))
  }

  /** `OpenAsync`: ObjectDisposedException once the timer is gone; true at
      once on an open socket; otherwise the address is stored, rewritten
      and connected to, and the result says whether the handshake frame
      (none before the wait is canceled) raised Opened. */
  function Open(s: State, framework: string, parse: string -> Json<OpenMessage>, uri: Option<Uri>,
                outcome: ConnectOutcome, handshake: Option<string>): Outcome<bool>
  {
    if s.timer.None? then Outcome(s, Err(ObjectDisposed("Timer")))
    else if s.socket.connected then Outcome(s, Ok(true))
    else if uri.None? then Outcome(s, Err(ArgumentNull("uri")))
    else
      var stored := s.(uri := uri);
      match ToWebSocketUri(uri, Some(framework))
      case Err(e) => Outcome(stored, Err(e))
      case Ok(address) =>
        var attempt := Connect(stored.socket, Some(address), outcome);
        var connected := stored.(socket := attempt.socket);
        if attempt.error.Some? then Outcome(connected, Err(attempt.error.value))
        else if handshake.None? then Outcome(connected, Ok(false))
        else
          var answered := Receive(connected, handshake, parse);
          Outcome(answered, Ok(|answered.events| > |connected.events| && answered.events[|answered.events| - 1].Opened?))
  }

  /** `Dispose`: the WebSocket client is disposed, which closes its socket
      without raising Disconnected, and the timer is nulled. */
  function Disposed(s: State): State {
    s.(socket := Disconnect(s.socket), timer := None)
  }

  /** An Open frame with a usable message on a live client sets the message
      and `IsOpened`, arms the timer with the ping interval (25000 for a
      null message), and raises Opened with the message as received. */
  lemma OpenFrameArmsTimer(s: State, value: string, parse: string -> Json<OpenMessage>)
    requires s.timer.Some?
    requires !parse(value).Malformed? && PingIntervalOf(parse(value).AsNullable()) > 0
    ensures var r := Receive(s, Some("0" + value), parse);
            var message := parse(value).AsNullable();
            r.isOpened && r.openMessage == message
            && r.timer == Some(Timer(PingIntervalOf(message), true))
            && r.events == s.events + [Event.Opened(message)]
            && r.socket == s.socket && r.uri == s.uri
  {
    EngineIoPacket.DecodeEncoded(EngineIoPacket.Packet("0", value));
    assert ("0" + value)[0] == '0';
  }

  /** Once disposed, an Open frame still stores the message and sets
      `IsOpened`, but the timer stays null and Opened is not raised. */
  lemma OpenFrameAfterDispose(s: State, value: string, parse: string -> Json<OpenMessage>)
    requires s.timer.None? && !parse(value).Malformed?
    ensures Receive(s, Some("0" + value), parse) == s.(openMessage := parse(value).AsNullable(), isOpened := true)
  {
    EngineIoPacket.DecodeEncoded(EngineIoPacket.Packet("0", value));
    assert ("0" + value)[0] == '0';
  }

  /** A Close frame and a transport disconnect both reset `IsOpened` and
      raise Closed. */
  lemma ClosedBothWays(s: State, value: string, parse: string -> Json<OpenMessage>, reason: string, status: Option<int>)
    ensures var r := Receive(s, Some("1" + value), parse);
            !r.isOpened && r.events == s.events + [Event.Closed(ServerCloseReason, None)] && r.socket == s.socket
    ensures var r := Dropped(s, reason, status);
            !r.isOpened && r.events == s.events + [Event.Closed(reason, status)] && !r.socket.connected
  {
    EngineIoPacket.DecodeEncoded(EngineIoPacket.Packet("1", value));
    assert ("1" + value)[0] == '1';
  }

  /** A blank frame is reported and changes nothing else. */
  lemma BlankFrameReported(s: State, text: string, parse: string -> Json<OpenMessage>)
    requires IsBlank(text)
    ensures Receive(s, Some(text), parse) == Raise(s, ExceptionOccurred(InvalidOperation("Empty Engine.IO string")))
  {
  }

  /** On an open socket the heartbeat sends exactly "2ping" and raises
      PingSent("ping"). */
  lemma TickSendsPing(s: State, reconnect: ConnectOutcome)
    requires s.socket.connected
    ensures var r := Tick(s, reconnect);
            r == s.(socket := r.socket, events := s.events + [PingSent("ping")])
            && r.socket.sent == s.socket.sent + ["2ping"] && r.socket.connected
  {
    FramesSpelledOut("");
  }

  /** On an open socket of a live client `OpenAsync` returns true and
      changes nothing, not even the stored address. */
  lemma OpenWhenConnected(s: State, framework: string, parse: string -> Json<OpenMessage>, uri: Option<Uri>,
                          outcome: ConnectOutcome, handshake: Option<string>)
    requires s.timer.Some? && s.socket.connected
    ensures Open(s, framework, parse, uri, outcome, handshake) == Outcome(s, Ok(true))
  {
  }

  /** After `Dispose` the socket is closed, and `OpenAsync` and `CloseAsync`
      throw ObjectDisposedException without changing anything. */
  lemma DisposedRejects(s: State, framework: string, parse: string -> Json<OpenMessage>, uri: Option<Uri>,
                        outcome: ConnectOutcome, handshake: Option<string>, reason: string, status: Option<int>)
    ensures var d := Disposed(s);
            !d.socket.connected && d.socket.sent == s.socket.sent && d.events == s.events
            && Open(d, framework, parse, uri, outcome, handshake) == Outcome(d, Err(ObjectDisposed("Timer")))
            && Close(d, reason, status) == Outcome(d, Err(ObjectDisposed("Timer")))
  {
  }

  /** Closing a live client with an open socket stops the timer, sends "1",
      closes the socket and raises Closed. */
  lemma CloseSendsCloseFrame(s: State, reason: string, status: Option<int>)
    requires s.timer.Some? && s.socket.connected
    ensures var r := Close(s, reason, status);
            r.result.Ok? && r.state.timer == Some(s.timer.value.(running := false))
            && r.state.socket.sent == s.socket.sent + ["1"] && !r.state.socket.connected
            && !r.state.isOpened && r.state.events == s.events + [Event.Closed(reason, status)]
  {
    FramesSpelledOut("");
  }

  /** A message goes out as "4" followed by the message, on an open socket. */
  lemma SendMessageFrame(s: State, message: string)
    ensures var r := SendMessage(s, message);
            r.socket.sent == (if s.socket.connected then s.socket.sent + ["4" + message] else s.socket.sent)
            && r == s.(socket := r.socket)
  {
    FramesSpelledOut(message);
  }

  /** What can happen to a client: inbound frames, heartbeat ticks,
      transport disconnects, outbound messages, and the public calls. */
  datatype Input =
    | Frame(text: Option<string>)
    | Heartbeat(reconnect: ConnectOutcome)
    | TransportClosed(reason: string, status: Option<int>)
    | Send(message: string)
    | CallOpen(uri: Option<Uri>, outcome: ConnectOutcome, handshake: Option<string>)
    | CallClose(reason: string, status: Option<int>)
    | CallDispose

  function Step(s: State, input: Input, framework: string, parse: string -> Json<OpenMessage>): State {
    match input
    case Frame(text) => Receive(s, text, parse)
    case Heartbeat(reconnect) => Tick(s, reconnect)
    case TransportClosed(reason, status) => Dropped(s, reason, status)
    case Send(message) => SendMessage(s, message)
    case CallOpen(uri, outcome, handshake) => Open(s, framework, parse, uri, outcome, handshake).state
    case CallClose(reason, status) => Close(s, reason, status).state
    case CallDispose => Disposed(s)
  }

  function Run(s: State, inputs: seq<Input>, framework: string, parse: string -> Json<OpenMessage>): State
    decreases |inputs|
  {
    if inputs == [] then s else Run(Step(s, inputs[0], framework, parse), inputs[1..], framework, parse)
  }

  /** No event after disposal is Opened. */
  predicate NoOpenedAfter(events: seq<Event>, from: nat) {
    forall i :: from <= i < |events| ==> !events[i].Opened?
  }

  /** A step of a disposed client keeps the timer null, appends to the
      event log, and never raises Opened. */
  lemma DisposedStep(s: State, input: Input, framework: string, parse: string -> Json<OpenMessage>)
    requires s.timer.None?
    ensures var r := Step(s, input, framework, parse);
            r.timer.None? && s.events <= r.events && NoOpenedAfter(r.events, |s.events|)
  {
    match input
    case CallOpen(uri, outcome, handshake) =>
    case Frame(Some(text)) =>
      if !IsBlank(text) {
        var packet := EngineIoPacket.Decode(text).value;
        assert packet.prefix == text[..1];
      }
    case _ =>
  }

  /** Dispose is final: whatever happens afterwards, the timer is never
      armed again and Opened is never raised. */
  lemma {:induction false} DisposeIsFinal(s: State, inputs: seq<Input>, framework: string, parse: string -> Json<OpenMessage>)
    requires s.timer.None?
    ensures var r := Run(s, inputs, framework, parse);
            r.timer.None? && s.events <= r.events && NoOpenedAfter(r.events, |s.events|)
    decreases |inputs|
  {
    if inputs != [] {
      var next := Step(s, inputs[0], framework, parse);
      DisposedStep(s, inputs[0], framework, parse);
      DisposeIsFinal(next, inputs[1..], framework, parse);
      var r := Run(s, inputs, framework, parse);
      assert r == Run(next, inputs[1..], framework, parse);
      forall i | |s.events| <= i < |r.events|
        ensures !r.events[i].Opened?
      {
        if i < |next.events| {
          assert r.events[i] == next.events[i];
        }
      }
    }
  }

  /** The Engine.IO client.  `parse` stands for the JSON deserializer. */
  class EngineIoClient {
    var isOpened: bool
    var openMessage: Option<OpenMessage>
    var uri: Option<Uri>
    var timer: Option<Timer>
    var webSocket: Socket
    var events: seq<Event>
    const framework: string
    const parse: string -> Json<OpenMessage>

    function Snapshot(): State
      reads this
    {
      State(isOpened, openMessage, uri, timer, webSocket, events)
    }

    constructor(framework: string, parse: string -> Json<OpenMessage>)
      ensures Snapshot() == Initial
      ensures this.framework == framework && this.parse == parse
    {
      this.framework := framework;
      this.parse := parse;
      isOpened := false;
      openMessage := None;
      uri := None;
      timer := Some(NewTimer);
      webSocket := NewSocket;
      events := [];
    }

    method OnOpened(message: Option<OpenMessage>)
      modifies this
      ensures Snapshot() == HandleOpened(old(Snapshot()), message)
    {
      if timer.None? {
        return;
      }
      isOpened := true;
      var interval := PingIntervalOf(message);
      if interval <= 0 {
        events := events + [ExceptionOccurred(Argument("Interval"))];
        return;
      }
      timer := Some(timer.value.(interval := interval));
      timer := Some(timer.value.(running := true));
      events := events + [Event.Opened(message)];
    }

    method OnClosed(reason: string, status: Option<int>)
      modifies this
      ensures Snapshot() == HandleClosed(old(Snapshot()), reason, status)
    {
      isOpened := false;
      events := events + [Event.Closed(reason, status)];
    }

    method OnTextReceived(text: Option<string>)
      modifies this
      ensures Snapshot() == Receive(old(Snapshot()), text, parse)
    {
      if text.None? {
        events := events + [ExceptionOccurred(InvalidOperation("Null Engine.IO string"))];
        return;
      }
      if IsBlank(text.value) {
        events := events + [ExceptionOccurred(InvalidOperation("Empty Engine.IO string"))];
        return;
      }
      var packet := EngineIoPacket.Decode(text.value).value;
      var kind := EngineIoPacket.TypeOf(packet.prefix);
      if kind.None? {
        return;
      }
      match kind.value
      case Open =>
        var json := parse(packet.value);
        if json.Malformed? {
          events := events + [ExceptionOccurred(Exceptions.Json)];
          return;
        }
        openMessage := json.AsNullable();
        isOpened := true;
        OnOpened(openMessage);
      case Close =>
        OnClosed(ServerCloseReason, None);
      case Ping =>
        events := events + [PingReceived(packet.value)];
      case Pong =>
        events := events + [PongReceived(packet.value)];
      case Message =>
        events := events + [MessageReceived(packet.value)];
      case Upgrade =>
        events := events + [Event.Upgraded(packet.value)];
      case Noop =>
        events := events + [NoopReceived(packet.value)];
    }

    method TimerElapsed(reconnect: ConnectOutcome)
      modifies this
      ensures Snapshot() == Tick(old(Snapshot()), reconnect)
    {
      var attempt := Connect(webSocket, webSocket.lastConnectUri, reconnect);
      webSocket := attempt.socket;
      if attempt.error.Some? {
        if Reported(attempt.error.value) {
          events := events + [ExceptionOccurred(attempt.error.value)];
        }
        return;
      }
      webSocket := SendText(webSocket, PingFrame());
      events := events + [PingSent(PingMessage)];
    }

    method OnDisconnected(reason: string, status: Option<int>)
      modifies this
      ensures Snapshot() == Dropped(old(Snapshot()), reason, status)
    {
      webSocket := Disconnect(webSocket);
      OnClosed(reason, status);
    }

    method CloseAsync(reason: string, status: Option<int>) returns (result: Result<(), Exception>)
      modifies this
      ensures var r := Close(old(Snapshot()), reason, status);
              Snapshot() == r.state && result == r.result
    {
      if timer.None? {
        return Err(ObjectDisposed("Timer"));
      }
      timer := Some(timer.value.(running := false));
      var wasConnected := webSocket.connected;
      webSocket := SendText(webSocket, CloseFrame());
      if wasConnected {
        OnDisconnected(reason, status);
      }
      return Ok(());
    }

    method SendMessageAsync(message: string)
      modifies this
      ensures Snapshot() == SendMessage(old(Snapshot()), message)
    {
      webSocket := SendText(webSocket, MessageFrame(message));
    }

    method OpenAsync(uri: Option<Uri>, outcome: ConnectOutcome, handshake: Option<string>)
      returns (result: Result<bool, Exception>)
      modifies this
      ensures var r := Open(old(Snapshot()), framework, parse, uri, outcome, handshake);
              Snapshot() == r.state && result == r.result
    {
      if timer.None? {
        return Err(ObjectDisposed("Timer"));
      }
      if webSocket.connected {
        return Ok(true);
      }
      if uri.None? {
        return Err(ArgumentNull("uri"));
      }
      this.uri := uri;
      var address := ToWebSocketUri(uri, Some(framework));
      if address.Err? {
        return Err(address.error);
      }
      var attempt := Connect(webSocket, Some(address.value), outcome);
      webSocket := attempt.socket;
      if attempt.error.Some? {
        return Err(attempt.error.value);
      }
      if handshake.None? {
        return Ok(false);
      }
      var before := |events|;
      OnTextReceived(handshake);
      return Ok(|events| > before && events[|events| - 1].Opened?);
    }

    method Dispose()
      modifies this
      ensures Snapshot() == Disposed(old(Snapshot()))
    {
      webSocket := Disconnect(webSocket);
      timer := None;
    }
  }
}
