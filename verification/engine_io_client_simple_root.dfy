/** The Engine.IO client at the root of `SimpleSocketIoClient`, the
    earliest revision.  An Open frame only stores the message, sets
    `IsOpened` and raises Opened; the heartbeat is armed by `OpenAsync`
    after it has seen Opened, with the message's ping interval and no
    fallback.  A transport disconnect raises Closed but leaves `IsOpened`
    alone.  Nothing checks for disposal: a call after `Dispose` dereferences
    a null field. */
module EngineIoClientSimpleRoot {
  import opened Wrappers
  import opened Exceptions
  import opened Text
  import opened Handshake
  import opened EngineIoCore
  import EngineIoPacket

  /** The fields of the client and of its WebSocket client, and the events
      raised so far.  `socket` and `timer` are None once disposed. */
  datatype State = State(
    isOpened: bool,
    openMessage: Option<OpenMessage>,
    uri: Option<Uri>,
    timer: Option<Timer>,
    socket: Option<Socket>,
    events: seq<SimpleEvent>)

  /** A freshly constructed client. */
  const Initial: State := State(false, None, None, Some(NewTimer), Some(NewSocket), [])

  /** The message a null or blank frame is reported with. */
  const BadFrameMessage: string := "Empty or null Engine.IO string"

  function Raise(s: State, e: SimpleEvent): (r: State)
    ensures r == s.(events := s.events + [e])
  {
    s.(events := s.events + [e])
  }

  /** `WebSocket_AfterText`: a null or blank frame is reported as invalid
      data; an Open frame stores the message, sets `IsOpened` and raises
      Opened, leaving the timer alone; a Close frame resets `IsOpened` and
      raises Closed. */
  function Receive(s: State, text: Option<string>, parse: string -> Json<OpenMessage>): State {
    if text.None? || IsBlank(text.value) then Raise(s, AfterException(InvalidData(BadFrameMessage)))
    else
      var prefix := text.value[..1];
      var value := text.value[1..];
      var kind := EngineIoPacket.TypeOf(prefix);
      if kind.None? then s
      else if kind.value == EngineIoPacket.Open then
        var json := parse(value);
        if json.Malformed? then Raise(s, AfterException(Exceptions.Json))
        else Raise(s.(openMessage := json.AsNullable(), isOpened := true), SimpleEvent.Opened(json.AsNullable()))
      else if kind.value == EngineIoPacket.Close then
        Raise(s.(isOpened := false), SimpleEvent.Closed(ServerCloseReason, None))
      else Raise(s, SimpleValueEvent(kind.value, value))
  }

  /** `Timer_Elapsed`: reconnect if needed, send "2ping", raise AfterPing;
      cancellation is swallowed and any other failure, the null WebSocket
      client of a disposed client included, is reported. */
  function Tick(s: State, reconnect: ConnectOutcome): State {
    match s.socket
    case None => Raise(s, AfterException(NullReference))
    case Some(socket) =>
      var attempt := Connect(socket, socket.lastConnectUri, reconnect);
      match attempt.error
      case Some(e) =>
        var failed := s.(socket := Some(attempt.socket));
        if Reported(e) then Raise(failed, AfterException(e)) else failed
      case None =>
        Raise(s.(socket := Some(SendText(attempt.socket, "2" + PingMessage))), AfterPing(PingMessage))
  }

  /** The transport's Disconnected handler: Closed is raised and `IsOpened`
      is left as it was; a disposed transport raises nothing. */
  function Dropped(s: State, reason: string, status: Option<int>): State {
    match s.socket
    case None => s
    case Some(socket) => Raise(s.(socket := Some(Disconnect(socket))), SimpleEvent.Closed(reason, status))
  }

  /** A state and what the operation returned or threw. */
  datatype Outcome<+T> = Outcome(state: State, result: Result<T, Exception>)

  /** `CloseAsync`: the timer stops, "1" is sent, and an open socket is
      closed, which runs the Disconnected handler; a null timer or WebSocket
      client is dereferenced. */
  function Close(s: State, reason: string, status: Option<int>): Outcome<()> {
    if s.timer.None? then Outcome(s, Err(NullReference))
    else
      var stopped := s.(timer := Some(s.timer.value.(running := false)));
      if s.socket.None? then Outcome(stopped, Err(NullReference))
      else
        var sent := stopped.(socket := Some(SendText(s.socket.value, "1")));
        Outcome(if s.socket.value.connected then Dropped(sent, reason, status) else sent, Ok(()))
  }

  /** `SendMessageAsync`: "4" followed by the message. */
  function SendMessage(s: State, message: string): Outcome<()> {
    match s.socket
    case None => Outcome(s, Err(NullReference))
    case Some(socket) => Outcome(s.(socket := Some(SendText(socket, "4" + message))), Ok(()))
  }

  /** The end of `OpenAsync` once Opened was seen: the interval is the open
      message's ping interval, without fallback, then the timer starts. */
  function Arm(s: State): Outcome<bool> {
    if s.openMessage.None? || s.timer.None? then Outcome(s, Err(NullReference))
    else
      match SetInterval(s.timer.value, s.openMessage.value.pingInterval)
      case Err(e) => Outcome(s, Err(e))
      case Ok(t) => Outcome(s.(timer := Some(t.(running := true))), Ok(true))
  }

  /** `OpenAsync`: true at once on an open socket; otherwise the address is
      stored, rewritten to the framework's root path and connected to; a
      canceled connection, or a handshake frame (none before the wait is
      canceled) that does not raise Opened, gives false; otherwise the timer
      is armed. */
  function Open(s: State, framework: string, parse: string -> Json<OpenMessage>, uri: Option<Uri>,
                outcome: ConnectOutcome, handshake: Option<string>): Outcome<bool>
  {
    if s.socket.None? then Outcome(s, Err(NullReference))
    else if s.socket.value.connected then Outcome(s, Ok(true))
    else if uri.None? then Outcome(s, Err(ArgumentNull("uri")))
    else
      var stored := s.(uri := uri);
      match LegacyWebSocketUri(uri.value, framework)
      case Err(e) => Outcome(stored, Err(e))
      case Ok(address) =>
        var attempt := Connect(s.socket.value, Some(address), outcome);
        var connected := stored.(socket := Some(attempt.socket));
        if attempt.error == Some(OperationCanceled) then Outcome(connected, Ok(false))
        else if attempt.error.Some? then Outcome(connected, Err(attempt.error.value))
        else AwaitOpened(connected, parse, handshake)
  }

  /** The wait for Opened in `OpenAsync`: it sees the frame `handshake`
      (none before it is canceled, which gives false); the timer is armed
      only once Opened was raised. */
  function AwaitOpened(s: State, parse: string -> Json<OpenMessage>, handshake: Option<string>): Outcome<bool> {
    if handshake.None? then Outcome(s, Ok(false))
    else
      var answered := Receive(s, handshake, parse);
      if |answered.events| > |s.events| && answered.events[|answered.events| - 1].Opened? then Arm(answered)
      else Outcome(answered, Ok(false))
  }

  /** `Dispose` and `DisposeAsync`: both fields are nulled. */
  function Disposed(s: State): State {
    s.(socket := None, timer := None)
  }

  /** An Open frame stores the message, sets `IsOpened` and raises Opened
      with the message, null included, but leaves the timer alone. */
  lemma OpenFrameLeavesTimer(s: State, value: string, parse: string -> Json<OpenMessage>)
    requires !parse(value).Malformed?
    ensures Receive(s, Some("0" + value), parse)
            == s.(openMessage := parse(value).AsNullable(), isOpened := true,
                  events := s.events + [SimpleEvent.Opened(parse(value).AsNullable())])
  {
    assert ("0" + value)[0] == '0';
    assert ("0" + value)[..1] == "0" && ("0" + value)[1..] == value;
  }

  /** A Close frame resets `IsOpened`; a transport disconnect does not. */
  lemma OnlyCloseFrameResets(s: State, value: string, parse: string -> Json<OpenMessage>, reason: string, status: Option<int>)
    ensures Receive(s, Some("1" + value), parse)
            == s.(isOpened := false, events := s.events + [SimpleEvent.Closed(ServerCloseReason, None)])
    ensures var r := Dropped(s, reason, status);
            r.isOpened == s.isOpened
            && (s.socket.Some? ==> r.events == s.events + [SimpleEvent.Closed(reason, status)] && !r.socket.value.connected)
  {
    assert ("1" + value)[0] == '1';
    assert ("1" + value)[..1] == "1" && ("1" + value)[1..] == value;
  }

  /** A null or blank frame is reported and changes nothing else. */
  lemma BadFrameReported(s: State, text: Option<string>, parse: string -> Json<OpenMessage>)
    requires text.None? || IsBlank(text.value)
    ensures Receive(s, text, parse) == Raise(s, AfterException(InvalidData("Empty or null Engine.IO string")))
  {
  }

  /** A successful open arms the timer with the ping interval of the
      message the server sent, and returns true. */
  lemma OpenArmsTimer(s: State, framework: string, parse: string -> Json<OpenMessage>, uri: Uri, value: string,
                      message: OpenMessage)
    requires s.socket.Some? && s.timer.Some? && !s.socket.value.connected
    requires uri.scheme in {"http", "https", "ws", "wss"}
    requires parse(value) == Parsed(message) && message.pingInterval > 0
    ensures var r := Open(s, framework, parse, Some(uri), Succeeds, Some("0" + value));
            r.result == Ok(true) && r.state.isOpened && r.state.openMessage == Some(message)
            && r.state.timer == Some(Timer(message.pingInterval, true))
            && r.state.socket.value.connected && r.state.socket.value.sent == s.socket.value.sent
            && r.state.socket.value.lastConnectUri == Some(LegacyWebSocketUri(uri, framework).value)
  {
    var address := LegacyWebSocketUri(uri, framework).value;
    var connected := s.(uri := Some(uri), socket := Some(Connect(s.socket.value, Some(address), Succeeds).socket));
    OpenFrameLeavesTimer(connected, value, parse);
  }

  /** When the wait for Opened fails, `OpenAsync` returns false and the
      timer is left as it was. */
  lemma OpenWithoutOpened(s: State, framework: string, parse: string -> Json<OpenMessage>, uri: Uri,
                          outcome: ConnectOutcome, handshake: Option<string>)
    requires s.socket.Some? && !s.socket.value.connected
    requires uri.scheme in {"http", "https", "ws", "wss"}
    requires outcome == Fails(OperationCanceled) || (outcome.Succeeds? && handshake.None?)
    ensures var r := Open(s, framework, parse, Some(uri), outcome, handshake);
            r.result == Ok(false) && r.state.timer == s.timer && r.state.isOpened == s.isOpened
  {
  }

  /** A handshake whose message is the JSON literal null opens the session
      and raises Opened, and then `OpenAsync` dereferences the null message:
      there is no 25000 fallback in this revision. */
  lemma NullOpenMessage(s: State, framework: string, parse: string -> Json<OpenMessage>, uri: Uri, value: string)
    requires s.socket.Some? && s.timer.Some? && !s.socket.value.connected
    requires uri.scheme in {"http", "https", "ws", "wss"}
    requires parse(value) == JsonNull
    ensures var r := Open(s, framework, parse, Some(uri), Succeeds, Some("0" + value));
            r.result == Err(NullReference) && r.state.isOpened && r.state.timer == s.timer
            && r.state.events == s.events + [SimpleEvent.Opened(None)]
  {
    var address := LegacyWebSocketUri(uri, framework).value;
    var connected := s.(uri := Some(uri), socket := Some(Connect(s.socket.value, Some(address), Succeeds).socket));
    OpenFrameLeavesTimer(connected, value, parse);
  }

  /** On an open socket `OpenAsync` returns true and changes nothing. */
  lemma OpenWhenConnected(s: State, framework: string, parse: string -> Json<OpenMessage>, uri: Option<Uri>,
                          outcome: ConnectOutcome, handshake: Option<string>)
    requires s.socket.Some? && s.socket.value.connected
    ensures Open(s, framework, parse, uri, outcome, handshake) == Outcome(s, Ok(true))
  {
  }

  /** The three frames: "2ping" on a heartbeat, "1" on close, "4" followed
      by the message on send, each only on an open socket. */
  lemma OutboundFrames(s: State, reconnect: ConnectOutcome, reason: string, status: Option<int>, message: string)
    requires s.socket.Some? && s.timer.Some? && s.socket.value.connected
    ensures Tick(s, reconnect).socket.value.sent == s.socket.value.sent + ["2ping"]
    ensures Tick(s, reconnect).events == s.events + [AfterPing("ping")]
    ensures var r := Close(s, reason, status);
            r.result.Ok? && r.state.socket.value.sent == s.socket.value.sent + ["1"]
            && r.state.timer == Some(s.timer.value.(running := false)) && r.state.isOpened == s.isOpened
    ensures SendMessage(s, message).state.socket.value.sent == s.socket.value.sent + ["4" + message]
  {
    InlineFrames(message);
    FramesSpelledOut(message);
  }

  /** What can happen to a client between calls to `OpenAsync`: inbound
      frames, heartbeat ticks, transport disconnects, sends and closes. */
  datatype Input =
    | Frame(text: Option<string>)
    | Heartbeat(reconnect: ConnectOutcome)
    | TransportClosed(reason: string, status: Option<int>)
    | CallSend(message: string)
    | CallClose(reason: string, status: Option<int>)

  function Step(s: State, input: Input, parse: string -> Json<OpenMessage>): State {
    match input
    case Frame(text) => Receive(s, text, parse)
    case Heartbeat(reconnect) => Tick(s, reconnect)
    case TransportClosed(reason, status) => Dropped(s, reason, status)
    case CallSend(message) => SendMessage(s, message).state
    case CallClose(reason, status) => Close(s, reason, status).state
  }

  function Run(s: State, inputs: seq<Input>, parse: string -> Json<OpenMessage>): State
    decreases |inputs|
  {
    if inputs == [] then s else Run(Step(s, inputs[0], parse), inputs[1..], parse)
  }

  /** The timer of `after` is the timer of `before`, possibly stopped. */
  predicate NotArmedSince(before: Option<Timer>, after: Option<Timer>) {
    after.Some? ==> before.Some? && after.value.interval == before.value.interval
                    && (after.value.running ==> before.value.running)
  }

  lemma StepDoesNotArm(s: State, input: Input, parse: string -> Json<OpenMessage>)
    ensures NotArmedSince(s.timer, Step(s, input, parse).timer)
  {
  }

  /** Only `OpenAsync` arms the timer: no frame, heartbeat, disconnect, send
      or close ever starts it or changes its interval. */
  lemma {:induction false} TimerOnlyArmedByOpen(s: State, inputs: seq<Input>, parse: string -> Json<OpenMessage>)
    ensures NotArmedSince(s.timer, Run(s, inputs, parse).timer)
    decreases |inputs|
  {
    if inputs != [] {
      var next := Step(s, inputs[0], parse);
      StepDoesNotArm(s, inputs[0], parse);
      TimerOnlyArmedByOpen(next, inputs[1..], parse);
    }
  }

  /** The Engine.IO client.  `parse` stands for the JSON deserializer. */
  class EngineIoClient {
    var isOpened: bool
    var openMessage: Option<OpenMessage>
    var uri: Option<Uri>
    var timer: Option<Timer>
    var webSocket: Option<Socket>
    var events: seq<SimpleEvent>
    const framework: string
    const parse: string -> Json<OpenMessage>

    function Snapshot(): State
      reads this
    {
      State(isOpened, openMessage, uri, timer, webSocket, events)
    }

    constructor(framework: string, parse: string -> Json<OpenMessage>)
      ensures Snapshot() == Initial
      ensures this.framework == framework && this.parse == parse
    {
      this.framework := framework;
      this.parse := parse;
      isOpened := false;
      openMessage := None;
      uri := None;
      timer := Some(NewTimer);
      webSocket := Some(NewSocket);
      events := [];
    }

    method AfterText(text: Option<string>)
      modifies this
      ensures Snapshot() == Receive(old(Snapshot()), text, parse)
    {
      if text.None? || IsBlank(text.value) {
        events := events + [AfterException(InvalidData(BadFrameMessage))];
        return;
      }
      var prefix := text.value[..1];
      var value := text.value[1..];
      var kind := EngineIoPacket.TypeOf(prefix);
      if kind.None? {
        return;
      }
      match kind.value
      case Open =>
        var json := parse(value);
        if json.Malformed? {
          events := events + [AfterException(Exceptions.Json)];
          return;
        }
        openMessage := json.AsNullable();
        isOpened := true;
        events := events + [SimpleEvent.Opened(openMessage)];
      case Close =>
        isOpened := false;
        events := events + [SimpleEvent.Closed(ServerCloseReason, None)];
      case Ping =>
        events := events + [AfterPing(value)];
      case Pong =>
        events := events + [AfterPong(value)];
      case Message =>
        events := events + [AfterMessage(value)];
      case Upgrade =>
        events := events + [SimpleEvent.Upgraded(value)];
      case Noop =>
        events := events + [AfterNoop(value)];
    }

    method TimerElapsed(reconnect: ConnectOutcome)
      modifies this
      ensures Snapshot() == Tick(old(Snapshot()), reconnect)
    {
      if webSocket.None? {
        events := events + [AfterException(NullReference)];
        return;
      }
      var attempt := Connect(webSocket.value, webSocket.value.lastConnectUri, reconnect);
      webSocket := Some(attempt.socket);
      if attempt.error.Some? {
        if Reported(attempt.error.value) {
          events := events + [AfterException(attempt.error.value)];
        }
        return;
      }
      webSocket := Some(SendText(attempt.socket, "2" + PingMessage));
      events := events + [AfterPing(PingMessage)];
    }

    method OnDisconnected(reason: string, status: Option<int>)
      modifies this
      ensures Snapshot() == Dropped(old(Snapshot()), reason, status)
    {
      if webSocket.None? {
        return;
      }
      webSocket := Some(Disconnect(webSocket.value));
      events := events + [SimpleEvent.Closed(reason, status)];
    }

    method CloseAsync(reason: string, status: Option<int>) returns (result: Result<(), Exception>)
      modifies this
      ensures var r := Close(old(Snapshot()), reason, status);
              Snapshot() == r.state && result == r.result
    {
      if timer.None? {
        return Err(NullReference);
      }
      timer := Some(timer.value.(running := false));
      if webSocket.None? {
        return Err(NullReference);
      }
      var wasConnected := webSocket.value.connected;
      webSocket := Some(SendText(webSocket.value, "1"));
      if wasConnected {
        OnDisconnected(reason, status);
      }
      return Ok(());
    }

    method SendMessageAsync(message: string) returns (result: Result<(), Exception>)
      modifies this
      ensures var r := SendMessage(old(Snapshot()), message);
              Snapshot() == r.state && result == r.result
    {
      if webSocket.None? {
        return Err(NullReference);
      }
      webSocket := Some(SendText(webSocket.value, "4" + message));
      return Ok(());
    }

    method OpenAsync(uri: Option<Uri>, outcome: ConnectOutcome, handshake: Option<string>)
      returns (result: Result<bool, Exception>)
      modifies this
      ensures var r := Open(old(Snapshot()), framework, parse, uri, outcome, handshake);
              Snapshot() == r.state && result == r.result
    {
      if webSocket.None? {
        return Err(NullReference);
      }
      if webSocket.value.connected {
        return Ok(true);
      }
      if uri.None? {
        return Err(ArgumentNull("uri"));
      }
      this.uri := uri;
      var address := LegacyWebSocketUri(uri.value, framework);
      if address.Err? {
        return Err(address.error);
      }
      var attempt := Connect(webSocket.value, Some(address.value), outcome);
      webSocket := Some(attempt.socket);
      if attempt.error == Some(OperationCanceled) {
        return Ok(false);
      }
      if attempt.error.Some? {
        return Err(attempt.error.value);
      }
      result := WaitOpenedAsync(handshake);
    }

    /** The wait for Opened in `OpenAsync`, then the timer. */
    method WaitOpenedAsync(handshake: Option<string>) returns (result: Result<bool, Exception>)
      modifies this
      ensures var r := AwaitOpened(old(Snapshot()), parse, handshake);
              Snapshot() == r.state && result == r.result
    {
      if handshake.None? {
        return Ok(false);
      }
      var before := |events|;
      AfterText(handshake);
      if !(|events| > before && events[|events| - 1].Opened?) {
        return Ok(false);
      }
      if openMessage.None? || timer.None? {
        return Err(NullReference);
      }
      if openMessage.value.pingInterval <= 0 {
        return Err(Argument("Interval"));
      }
      timer := Some(timer.value.(interval := openMessage.value.pingInterval));
      timer := Some(timer.value.(running := true));
      return Ok(true);
    }

    method Dispose()
      modifies this
      ensures Snapshot() == Disposed(old(Snapshot()))
    {
      webSocket := None;
      timer := None;
    }
  }
}
