/** The Socket.IO client of `src/libs/H.Socket.IO`, over the Engine.IO
    client of `src/libs/H.Engine.IO`.  Handlers live in three registries
    (no argument, raw text, typed); an Event packet runs them in that order
    and always ends in EventReceived followed by HandledEventReceived or
    UnhandledEventReceived. */
module SocketIoClientLibs {
  import opened Wrappers
  import opened Exceptions
  import opened Text
  import opened SocketIoCore
  import SocketIoPacket
  import SocketIoUtilities
  import EngineIoCore
  import Engine = EngineIoClientLibs
  import Handshake
  import EngineIoPacket

  /** A handler registered with the type its payload is deserialized to. */
  datatype Typed = Typed(handler: Handler, typeName: string)

  /** The fields of the client, with the state of its Engine.IO client, and
      the events raised so far. */
  datatype State = State(
    engine: Engine.State,
    defaultNamespace: Option<string>,
    actions: map<string, seq<Handler>>,
    textActions: map<string, seq<Handler>>,
    typedActions: map<string, seq<Typed>>,
    events: seq<SocketEvent>)

  /** A freshly constructed client. */
  const Initial: State := State(Engine.Initial, None, map[], map[], map[], [])

  function Raise(s: State, e: SocketEvent): (r: State)
    ensures r == s.(events := s.events + [e])
  {
    s.(events := s.events + [e])
  }

  /** `On(name, Action, ns)`. */
  function AddAction(s: State, name: string, h: Handler, ns: Option<string>): (r: State)
    ensures Lookup(r.actions, OnKey(name, ns)) == Lookup(s.actions, OnKey(name, ns)) + [h]
    ensures forall k :: k != OnKey(name, ns) ==> Lookup(r.actions, k) == Lookup(s.actions, k)
    ensures HasHandlers(r, OnKey(name, ns))
    ensures r == s.(actions := r.actions)
  {
    s.(actions := Register(s.actions, OnKey(name, ns), h))
  }

  /** `On(name, Action<string>, ns)`. */
  function AddTextAction(s: State, name: string, h: Handler, ns: Option<string>): (r: State)
    ensures Lookup(r.textActions, OnKey(name, ns)) == Lookup(s.textActions, OnKey(name, ns)) + [h]
    ensures forall k :: k != OnKey(name, ns) ==> Lookup(r.textActions, k) == Lookup(s.textActions, k)
    ensures HasHandlers(r, OnKey(name, ns))
    ensures r == s.(textActions := r.textActions)
  {
    s.(textActions := Register(s.textActions, OnKey(name, ns), h))
  }

  /** `On<T>(name, Action<T, string>, ns)` and `On<T>(name, Action<T>, ns)`,
      which registers through the former. */
  function AddTypedAction(s: State, name: string, h: Handler, typeName: string, ns: Option<string>): (r: State)
    ensures Lookup(r.typedActions, OnKey(name, ns)) == Lookup(s.typedActions, OnKey(name, ns)) + [Typed(h, typeName)]
    ensures forall k :: k != OnKey(name, ns) ==> Lookup(r.typedActions, k) == Lookup(s.typedActions, k)
    ensures HasHandlers(r, OnKey(name, ns))
    ensures r == s.(typedActions := r.typedActions)
  {
    s.(typedActions := Register(s.typedActions, OnKey(name, ns), Typed(h, typeName)))
  }

  /** Whether anything at all is registered under a key. */
  predicate HasHandlers(s: State, key: string) {
    Lookup(s.actions, key) != [] || Lookup(s.textActions, key) != [] || Lookup(s.typedActions, key) != []
  }

  function NullTextMessage(name: string): string {
    "Received json text for event named \"" + name + "\" is null"
  }

  function NullObjectMessage(text: string, name: string): string {
    "Deserialized object for json text(\"" + text + "\") and for event named \"" + name + "\" is null"
  }

  /** The no-argument handlers, in registration order. */
  function RunActions(hs: seq<Handler>, b: Behaviour): seq<SocketEvent>
    decreases |hs|
  {
    if hs == [] then [] else RunActions(hs[..|hs| - 1], b) + Call(hs[|hs| - 1], None, b)
  }

  /** A raw-text handler: a missing payload is reported instead of calling
      it. */
  function TextCall(h: Handler, name: string, text: Option<string>, b: Behaviour): seq<SocketEvent> {
    if text.None? then [ExceptionOccurred(InvalidOperation(NullTextMessage(name)))] else Call(h, text, b)
  }

  function RunText(hs: seq<Handler>, name: string, text: Option<string>, b: Behaviour): seq<SocketEvent>
    decreases |hs|
  {
    if hs == [] then [] else RunText(hs[..|hs| - 1], name, text, b) + TextCall(hs[|hs| - 1], name, text, b)
  }

  /** A typed handler: a missing payload, a payload the deserializer rejects
      and one it turns into null are reported instead of calling it. */
  function TypedCall(t: Typed, name: string, text: Option<string>, b: Behaviour): seq<SocketEvent> {
    if text.None? then [ExceptionOccurred(InvalidOperation(NullTextMessage(name)))]
    else
      match b.deserialize(text.value, t.typeName)
      case Malformed => [ExceptionOccurred(Exceptions.Json)]
      case JsonNull => [ExceptionOccurred(InvalidOperation(NullObjectMessage(text.value, name)))]
      case Parsed(_) => Call(t.handler, text, b)
  }

  function RunTyped(ts: seq<Typed>, name: string, text: Option<string>, b: Behaviour): seq<SocketEvent>
    decreases |ts|
  {
    if ts == [] then [] else RunTyped(ts[..|ts| - 1], name, text, b) + TypedCall(ts[|ts| - 1], name, text, b)
  }

  /** Running one more raw-text handler appends that handler's events. */
  lemma RunTextSnoc(start: seq<SocketEvent>, hs: seq<Handler>, i: int, name: string, text: Option<string>, b: Behaviour)
    requires 0 <= i < |hs|
    ensures start + RunText(hs[..i + 1], name, text, b) == start + RunText(hs[..i], name, text, b) + TextCall(hs[i], name, text, b)
  {
    assert hs[..i + 1][..i] == hs[..i];
  }

  /** Running one more typed handler appends that handler's events. */
  lemma RunTypedSnoc(start: seq<SocketEvent>, ts: seq<Typed>, i: int, name: string, text: Option<string>, b: Behaviour)
    requires 0 <= i < |ts|
    ensures start + RunTyped(ts[..i + 1], name, text, b) == start + RunTyped(ts[..i], name, text, b) + TypedCall(ts[i], name, text, b)
  {
    assert ts[..i + 1][..i] == ts[..i];
  }

  /** The events a registered event name produces, handlers first. */
  function HandlerEvents(s: State, values: seq<string>, ns: string, b: Behaviour): seq<SocketEvent>
    requires |values| > 0
  {
    var name := values[0];
    var text := if |values| > 1 then Some(values[1]) else None;
    var key := OnKey(name, Some(ns));
    RunActions(Lookup(s.actions, key), b)
    + RunText(Lookup(s.textActions, key), name, text, b)
    + RunTyped(Lookup(s.typedActions, key), name, text, b)
  }

  /** The Event packet: a blank payload or one that is not an array runs
      nothing; otherwise the first array item names the event and the second,
      if any, is the text handed to the handlers; whatever happens, the
      packet is concluded, as handled exactly when a handler was found. */
  function HandleEvent(s: State, value: string, ns: string, b: Behaviour): (r: State)
    ensures r == s.(events := r.events)
    ensures |r.events| >= |s.events| + 2 && r.events[..|s.events|] == s.events
  {
    if IsBlank(value) then s.(events := s.events + Concluded(value, ns, false))
    else
      match SocketIoUtilities.JsonArrayValues(value)
      case Err(e) => s.(events := s.events + [ExceptionOccurred(e)] + Concluded(value, ns, false))
      case Ok(values) =>
        s.(events := s.events + HandlerEvents(s, values, ns, b) + Concluded(value, ns, HasHandlers(s, OnKey(values[0], Some(ns)))))
  }

  /** `EngineIoClient_MessageReceived`: a null message is reported, an
      empty one ignored; otherwise the Socket.IO packet is decoded and
      handled by type, and a packet that does not decode is reported. */
  function Handle(s: State, text: Option<string>, b: Behaviour): (r: State)
    ensures r == s.(events := r.events)
    ensures |r.events| >= |s.events| && r.events[..|s.events|] == s.events
  {
    if text.None? then Raise(s, ExceptionOccurred(InvalidOperation(NullMessage)))
    else if text.value == [] then s
    else
      match SocketIoPacket.Decode(text.value)
      case Err(e) => Raise(s, ExceptionOccurred(e))
      case Ok(p) =>
        var kind := SocketIoPacket.TypeOf(p.prefix);
        if kind == Some(SocketIoPacket.Connect) then Raise(s, Connected(p.ns))
        else if kind == Some(SocketIoPacket.Disconnect) then Raise(s, Disconnected(ServerDisconnectReason, None))
        else if kind == Some(SocketIoPacket.Event) then HandleEvent(s, p.value, p.ns, b)
        else if kind == Some(SocketIoPacket.Error) then Raise(s, ErrorReceived(Trim(p.value, {'"'}), p.ns))
        else s
  }

  /** The handlers the constructor attaches to the Engine.IO client: a
      message is handled as a Socket.IO packet, an exception is passed on,
      and Closed becomes Disconnected. */
  function Relay(s: State, e: EngineIoCore.Event, b: Behaviour): (r: State)
    ensures r == s.(events := r.events)
    ensures |r.events| >= |s.events| && r.events[..|s.events|] == s.events
    ensures e.Closed? ==> r.events == s.events + [Disconnected(e.reason, e.status)]
  {
    match e
    case MessageReceived(v) => Handle(s, Some(v), b)
    case ExceptionOccurred(x) => Raise(s, ExceptionOccurred(x))
    case Closed(reason, status) => Raise(s, Disconnected(reason, status))
    case _ => s
  }

  /** The Engine.IO client moves to `next`; the event it raised, if any,
      reaches the handlers attached to it. */
  function AfterEngine(s: State, next: Engine.State, b: Behaviour): State {
    var moved := s.(engine := next);
    if |next.events| > |s.engine.events| then Relay(moved, next.events[|next.events| - 1], b) else moved
  }

  /** A frame reaches the Engine.IO client. */
  function Arrive(s: State, text: Option<string>, b: Behaviour): State {
    AfterEngine(s, Engine.Receive(s.engine, text, b.parse), b)
  }

  /** The Engine.IO heartbeat fires. */
  function Heartbeat(s: State, reconnect: EngineIoCore.ConnectOutcome, b: Behaviour): State {
    AfterEngine(s, Engine.Tick(s.engine, reconnect), b)
  }

  /** The transport reports a disconnect. */
  function TransportClosed(s: State, reason: string, status: Option<int>, b: Behaviour): State {
    AfterEngine(s, Engine.Dropped(s.engine, reason, status), b)
  }

  /** The namespace an event is sent to: the given one, else the default
      one (else "/"). */
  function Target(s: State, custom: Option<string>): Option<string> {
    if custom.Some? then custom else s.defaultNamespace
  }

  /** `SendEventAsync`: an Event packet for the given namespace, else the
      default one, else "/". */
  function SendEvent(s: State, message: string, custom: Option<string>): State {
    s.(engine := Engine.SendMessage(s.engine, EventFrame(message, Target(s, custom))))
  }

  /** `Emit`: the event name and value as a JSON array. */
  function Emission(s: State, name: string, value: EmitValue, custom: Option<string>): State {
    SendEvent(s, EmitPayload(name, value), custom)
  }

  /** `DisconnectAsync`: a Disconnect packet for the default namespace when
      one is set, then one for "/", then the Engine.IO client closes. */
  function Disconnect(s: State, reason: string, status: Option<int>, b: Behaviour): State {
    var left := if s.defaultNamespace.Some? then s.(engine := Engine.SendMessage(s.engine, DisconnectFrame(s.defaultNamespace))) else s;
    var sent := left.(engine := Engine.SendMessage(left.engine, DisconnectFrame(None)));
    AfterEngine(sent, Engine.Close(sent.engine, reason, status), b)
  }

  /** The Connect packets for the namespaces, sent one after the other. */
  function SendConnects(e: Engine.State, namespaces: seq<string>): Engine.State
    decreases |namespaces|
  {
    if namespaces == [] then e
    else Engine.SendMessage(SendConnects(e, namespaces[..|namespaces| - 1]), ConnectFrame(namespaces[|namespaces| - 1]))
  }

  /** A state and what the operation returned or threw. */
  datatype Outcome<+T> = Outcome(state: State, result: Result<T, Exception>)

  /** `ConnectToNamespacesAsync`: false before Engine.IO is open, true for
      no namespaces; otherwise a Connect packet per namespace, then the wait
      for Connected, which sees the frame `answer` (none before it is
      canceled). */
  function ConnectToNamespaces(s: State, namespaces: seq<string>, answer: Option<string>, b: Behaviour): Outcome<bool> {
    if !s.engine.isOpened then Outcome(s, Ok(false))
    else if namespaces == [] then Outcome(s, Ok(true))
    else
      var sent := s.(engine := SendConnects(s.engine, namespaces));
      if answer.None? then Outcome(sent, Err(OperationCanceled))
      else
        var heard := Arrive(sent, answer, b);
        if ConnectedSince(heard.events, |sent.events|) then Outcome(heard, Ok(true))
        else Outcome(heard, Err(OperationCanceled))
  }

  /** `ConnectToNamespaceAsync`: a null namespace is rejected; otherwise
      the one namespace is connected to. */
  function ConnectToNamespace(s: State, custom: Option<string>, answer: Option<string>, b: Behaviour): Outcome<bool> {
    if custom.None? then Outcome(s, Err(ArgumentNull("customNamespace")))
    else ConnectToNamespaces(s, [custom.value], answer, b)
  }

  /** The Engine.IO client opens; the event its handshake raises reaches
      the handlers attached to it. */
  function OpenEngine(s: State, uri: Option<Handshake.Uri>, outcome: EngineIoCore.ConnectOutcome,
                      handshake: Option<string>, b: Behaviour): Outcome<Option<EngineIoCore.OpenMessage>>
  {
    var attempt := Engine.Open(s.engine, b.framework, b.parse, uri, outcome, handshake);
    Outcome(AfterEngine(s, attempt.state, b), attempt.result)
  }

  /** The first part of `ConnectAsync` on a closed session: Engine.IO
      opens, and the wait for Connected or ErrorReceived sees the frame
      `greeting` (none before it is canceled); an error is thrown, no
      Connected gives false, and true lets the namespaces follow. */
  function Greet(s: State, uri: Option<Handshake.Uri>, outcome: EngineIoCore.ConnectOutcome,
                 handshake: Option<string>, greeting: Option<string>, b: Behaviour): Outcome<bool>
  {
    var attempt := OpenEngine(s, uri, outcome, handshake, b);
    var s1 := attempt.state;
    if attempt.result.Err? then Outcome(s1, Err(attempt.result.error))
    else if greeting.None? then Outcome(s1, Ok(false))
    else
      var s2 := Arrive(s1, greeting, b);
      var error := ErrorSince(s2.events, |s1.events|);
      if error.Some? then Outcome(s2, Err(InvalidOperation(ServerErrorMessage + error.value)))
      else Outcome(s2, Ok(ConnectedSince(s2.events, |s1.events|)))
  }

  /** `ConnectAsync`: a null address is rejected; an open Engine.IO client
      goes straight to the namespaces; otherwise the greeting decides, and
      Connected goes on to the namespaces, the default one added. */
  function Connect(s: State, uri: Option<Handshake.Uri>, outcome: EngineIoCore.ConnectOutcome,
                   handshake: Option<string>, greeting: Option<string>, namespaces: seq<string>,
                   answer: Option<string>, b: Behaviour): Outcome<bool>
  {
    var list := ConnectList(namespaces, s.defaultNamespace);
    if uri.None? then Outcome(s, Err(ArgumentNull("uri")))
    else if s.engine.isOpened then ConnectToNamespaces(s, list, answer, b)
    else
      var greeted := Greet(s, uri, outcome, handshake, greeting, b);
      if greeted.result != Ok(true) then greeted
      else ConnectToNamespaces(greeted.state, list, answer, b)
  }

  /** The typed handlers that get called: those whose payload the
      deserializer turns into an object of their type. */
  function Accepted(ts: seq<Typed>, text: string, b: Behaviour): seq<Handler>
    decreases |ts|
  {
    if ts == [] then []
    else
      var t := ts[|ts| - 1];
      Accepted(ts[..|ts| - 1], text, b) + if b.deserialize(text, t.typeName).Parsed? then [t.handler] else []
  }

  /** Every no-argument handler runs, in registration order, whatever the
      ones before it throw; none of their events concludes the packet. */
  lemma {:induction false} ActionsAllRun(hs: seq<Handler>, b: Behaviour)
    ensures InvokedHandlers(RunActions(hs, b)) == hs
    ensures Quiet(RunActions(hs, b))
    decreases |hs|
  {
    if hs != [] {
      var init := hs[..|hs| - 1];
      ActionsAllRun(init, b);
      CallShape(hs[|hs| - 1], None, b);
      InvokedHandlersAppend(RunActions(init, b), Call(hs[|hs| - 1], None, b));
      assert init + [hs[|hs| - 1]] == hs;
    }
  }

  /** A raw-text handler is called exactly when there is a payload. */
  lemma TextCallShape(h: Handler, name: string, text: Option<string>, b: Behaviour)
    ensures InvokedHandlers(TextCall(h, name, text, b)) == if text.Some? then [h] else []
    ensures Quiet(TextCall(h, name, text, b))
  {
    if text.Some? {
      CallShape(h, text, b);
    } else {
      var c := TextCall(h, name, text, b);
      assert c[..0] == [];
    }
  }

  /** A typed handler is called exactly when there is a payload and the
      deserializer accepts it. */
  lemma TypedCallShape(t: Typed, name: string, text: Option<string>, b: Behaviour)
    ensures InvokedHandlers(TypedCall(t, name, text, b))
            == if text.Some? && b.deserialize(text.value, t.typeName).Parsed? then [t.handler] else []
    ensures Quiet(TypedCall(t, name, text, b))
  {
    var c := TypedCall(t, name, text, b);
    if text.Some? && b.deserialize(text.value, t.typeName).Parsed? {
      CallShape(t.handler, text, b);
    } else {
      assert |c| == 1 && c[..0] == [];
    }
  }

  /** With a payload every raw-text handler runs, in order; without one
      none does (each reports the null text instead). */
  lemma {:induction false} TextActionsRun(hs: seq<Handler>, name: string, text: Option<string>, b: Behaviour)
    ensures InvokedHandlers(RunText(hs, name, text, b)) == if text.Some? then hs else []
    ensures Quiet(RunText(hs, name, text, b))
    decreases |hs|
  {
    if hs != [] {
      var init := hs[..|hs| - 1];
      var last := hs[|hs| - 1];
      var before := RunText(init, name, text, b);
      var call := TextCall(last, name, text, b);
      assert RunText(hs, name, text, b) == before + call;
      assert InvokedHandlers(before) == (if text.Some? then init else []) && Quiet(before) by {
        TextActionsRun(init, name, text, b);
      }
      assert InvokedHandlers(before + call) == InvokedHandlers(before) + InvokedHandlers(call) by {
        InvokedHandlersAppend(before, call);
      }
      TextCallShape(last, name, text, b);
      QuietAppend(before, call);
      assert init + [last] == hs;
    }
  }

  /** With a payload exactly the typed handlers the deserializer accepts
      run, in order; without one none does. */
  lemma {:induction false} TypedActionsRun(ts: seq<Typed>, name: string, text: Option<string>, b: Behaviour)
    ensures InvokedHandlers(RunTyped(ts, name, text, b)) == if text.Some? then Accepted(ts, text.value, b) else []
    ensures Quiet(RunTyped(ts, name, text, b))
    decreases |ts|
  {
    if ts != [] {
      var init := ts[..|ts| - 1];
      var last := ts[|ts| - 1];
      TypedActionsRun(init, name, text, b);
      InvokedHandlersAppend(RunTyped(init, name, text, b), TypedCall(last, name, text, b));
      TypedCallShape(last, name, text, b);
    }
  }

  /** The values of an Event payload: none for a blank payload or one that
      is not an array. */
  function EventValues(value: string): (r: Option<seq<string>>)
    ensures r.Some? ==> |r.value| > 0
  {
    if IsBlank(value) then None
    else
      match SocketIoUtilities.JsonArrayValues(value)
      case Ok(values) => Some(values)
      case Err(_) => None
  }

  /** `HandleEvent` by the payload's values: with none, at most the parse
      failure precedes the conclusion; with some, the handlers' events do. */
  lemma HandleEventCases(s: State, value: string, ns: string, b: Behaviour)
    ensures var r := HandleEvent(s, value, ns, b);
            var values := EventValues(value);
            (values.None? ==>
               r.events == s.events + Concluded(value, ns, false)
               || (|r.events| == |s.events| + 3 && r.events[|s.events|].ExceptionOccurred?
                   && r.events == s.events + [r.events[|s.events|]] + Concluded(value, ns, false)))
            && (values.Some? ==>
                  r.events == s.events + HandlerEvents(s, values.value, ns, b)
                              + Concluded(value, ns, HasHandlers(s, OnKey(values.value[0], Some(ns)))))
  {
    if !IsBlank(value) {
      match SocketIoUtilities.JsonArrayValues(value)
      case Err(e) =>
        assert EventValues(value).None?;
      case Ok(values) =>
        assert EventValues(value) == Some(values);
    }
  }

  /** An Event packet raises EventReceived exactly once, as the last event
      but one, followed by HandledEventReceived exactly when something is
      registered for the event's name in the packet's namespace. */
  lemma EventConcludedOnce(s: State, value: string, ns: string, b: Behaviour)
    ensures var r := HandleEvent(s, value, ns, b);
            var values := EventValues(value);
            var handled := values.Some? && HasHandlers(s, OnKey(values.value[0], Some(ns)));
            r.events[|r.events| - 2..] == Concluded(value, ns, handled)
            && (forall i :: |s.events| <= i < |r.events| - 2 ==> !Concluding(r.events[i]))
  {
    var r := HandleEvent(s, value, ns, b);
    var values := EventValues(value);
    HandleEventCases(s, value, ns, b);
    if values.Some? {
      var mid := HandlerEvents(s, values.value, ns, b);
      HandlerEventsConclude(s, values.value, ns, b);
      forall i | |s.events| <= i < |r.events| - 2
        ensures !Concluding(r.events[i])
      {
        assert r.events[i] == mid[i - |s.events|];
      }
    }
  }

  /** The handlers' events conclude nothing. */
  lemma HandlerEventsConclude(s: State, values: seq<string>, ns: string, b: Behaviour)
    requires |values| > 0
    ensures Quiet(HandlerEvents(s, values, ns, b))
  {
    var name := values[0];
    var text := if |values| > 1 then Some(values[1]) else None;
    var key := OnKey(name, Some(ns));
    var a := RunActions(Lookup(s.actions, key), b);
    var t := RunText(Lookup(s.textActions, key), name, text, b);
    var y := RunTyped(Lookup(s.typedActions, key), name, text, b);
    assert Quiet(a) by {
      ActionsAllRun(Lookup(s.actions, key), b);
    }
    assert Quiet(t) by {
      TextActionsRun(Lookup(s.textActions, key), name, text, b);
    }
    assert Quiet(y) by {
      TypedActionsRun(Lookup(s.typedActions, key), name, text, b);
    }
    assert HandlerEvents(s, values, ns, b) == a + t + y;
    QuietAppend(a, t);
    QuietAppend(a + t, y);
  }

  /** The handlers an event name calls: every no-argument handler, then,
      when there is a value, every raw-text handler and the typed handlers
      that accept the value. */
  lemma {:induction false} HandlerEventsInvoke(s: State, values: seq<string>, ns: string, b: Behaviour)
    requires |values| > 0
    ensures var key := OnKey(values[0], Some(ns));
            InvokedHandlers(HandlerEvents(s, values, ns, b))
            == Lookup(s.actions, key)
               + if |values| > 1
                 then Lookup(s.textActions, key) + Accepted(Lookup(s.typedActions, key), values[1], b)
                 else []
  {
    var name := values[0];
    var text := if |values| > 1 then Some(values[1]) else None;
    var key := OnKey(name, Some(ns));
    var ia := InvokedHandlers(RunActions(Lookup(s.actions, key), b));
    var it := InvokedHandlers(RunText(Lookup(s.textActions, key), name, text, b));
    var iy := InvokedHandlers(RunTyped(Lookup(s.typedActions, key), name, text, b));
    assert InvokedHandlers(HandlerEvents(s, values, ns, b)) == ia + it + iy by {
      HandlerEventsSplit(s, values, ns, b);
    }
    assert ia == Lookup(s.actions, key) by {
      ActionsAllRun(Lookup(s.actions, key), b);
    }
    assert it == if text.Some? then Lookup(s.textActions, key) else [] by {
      TextActionsRun(Lookup(s.textActions, key), name, text, b);
    }
    assert iy == if text.Some? then Accepted(Lookup(s.typedActions, key), text.value, b) else [] by {
      TypedActionsRun(Lookup(s.typedActions, key), name, text, b);
    }
    var acc := if |values| > 1 then Accepted(Lookup(s.typedActions, key), values[1], b) else [];
    Assemble(InvokedHandlers(HandlerEvents(s, values, ns, b)), ia, it, iy,
             Lookup(s.actions, key), Lookup(s.textActions, key), acc, |values| > 1);
  }

  lemma Assemble(total: seq<Handler>, a: seq<Handler>, t: seq<Handler>, y: seq<Handler>,
                 actions: seq<Handler>, texts: seq<Handler>, accepted: seq<Handler>, hasText: bool)
    requires total == a + t + y && a == actions
    requires t == (if hasText then texts else []) && y == (if hasText then accepted else [])
    ensures total == actions + if hasText then texts + accepted else []
  {
    if hasText {
      assert a + t + y == a + (t + y);
    } else {
      assert a + t + y == a;
    }
  }

  lemma {:induction false} HandlerEventsSplit(s: State, values: seq<string>, ns: string, b: Behaviour)
    requires |values| > 0
    ensures var key := OnKey(values[0], Some(ns));
            var text := if |values| > 1 then Some(values[1]) else None;
            InvokedHandlers(HandlerEvents(s, values, ns, b))
            == InvokedHandlers(RunActions(Lookup(s.actions, key), b))
               + InvokedHandlers(RunText(Lookup(s.textActions, key), values[0], text, b))
               + InvokedHandlers(RunTyped(Lookup(s.typedActions, key), values[0], text, b))
  {
    var name := values[0];
    var text := if |values| > 1 then Some(values[1]) else None;
    var key := OnKey(name, Some(ns));
    var a := RunActions(Lookup(s.actions, key), b);
    var t := RunText(Lookup(s.textActions, key), name, text, b);
    InvokedHandlersAppend(a + t, RunTyped(Lookup(s.typedActions, key), name, text, b));
    InvokedHandlersAppend(a, t);
  }

  /** The handlers an Event packet calls, as `HandlerEventsInvoke` lists
      them for its values. */
  lemma EventHandlersInOrder(s: State, value: string, ns: string, b: Behaviour)
    requires EventValues(value).Some?
    ensures var values := EventValues(value).value;
            var key := OnKey(values[0], Some(ns));
            var r := HandleEvent(s, value, ns, b);
            InvokedHandlers(r.events[|s.events|..])
            == Lookup(s.actions, key)
               + if |values| > 1
                 then Lookup(s.textActions, key) + Accepted(Lookup(s.typedActions, key), values[1], b)
                 else []
  {
    var values := EventValues(value).value;
    var key := OnKey(values[0], Some(ns));
    var r := HandleEvent(s, value, ns, b);
    var mid := HandlerEvents(s, values, ns, b);
    var c := Concluded(value, ns, HasHandlers(s, key));
    HandleEventCases(s, value, ns, b);
    assert r.events[|s.events|..] == mid + c;
    HandlerEventsInvoke(s, values, ns, b);
    ConcludedInvokesNothing(value, ns, HasHandlers(s, key));
    InvokedHandlersAppend(mid, c);
  }

  /** What a server encodes is what the message handler acts on: Connect
      raises Connected for the namespace, Disconnect raises Disconnected
      with the fixed reason, Event is dispatched with its namespace and
      payload, Error raises ErrorReceived with the quotes trimmed, and any
      other type is ignored.
      Stated for canonical frames, the ones `Encode` writes and `Decode`
      reads back; a frame with a non-canonical namespace is dispatched the
      same way on what `Decode` makes of it, which this lemma does not
      restate. */
  lemma PacketsHandledByType(s: State, p: SocketIoPacket.Packet, b: Behaviour)
    requires SocketIoPacket.RoundTrips(p)
    ensures var r := Handle(s, Some(SocketIoPacket.Encode(p)), b);
            var kind := SocketIoPacket.TypeOf(p.prefix);
            (kind == Some(SocketIoPacket.Connect) ==> r == Raise(s, Connected(p.ns)))
            && (kind == Some(SocketIoPacket.Disconnect) ==> r == Raise(s, Disconnected(ServerDisconnectReason, None)))
            && (kind == Some(SocketIoPacket.Event) ==> r == HandleEvent(s, p.value, p.ns, b))
            && (kind == Some(SocketIoPacket.Error) ==> r == Raise(s, ErrorReceived(Trim(p.value, {'"'}), p.ns)))
            && (kind.None? ==> r == s)
  {
    SocketIoPacket.DecodeEncoded(p);
  }

  /** An Engine.IO message frame reaches the Socket.IO message handler with
      its text. */
  lemma MessageFrameHandled(s: State, m: string, b: Behaviour)
    ensures Arrive(s, Some("4" + m), b)
            == Handle(s.(engine := Engine.Raise(s.engine, EngineIoCore.MessageReceived(m))), Some(m), b)
  {
    Engine.ValueFrameRaisesEvent(s.engine, EngineIoPacket.Message, m, b.parse);
  }

  /** `Emit` writes one Event frame carrying the name and value as a JSON
      array, to the namespace it targets; the frame survives decoding and
      its payload reads back as the name and value. */
  lemma EmitSendsEventFrame(s: State, name: string, value: EmitValue, custom: Option<string>)
    requires s.engine.socket.connected
    requires Bare(name) && KeptWhole(value)
    requires SocketIoPacket.CanonicalNamespace(Target(s, custom).GetOr(SocketIoPacket.DefaultNamespace))
    ensures var payload := EmitPayload(name, value);
            Emission(s, name, value, custom).engine.socket.sent
              == s.engine.socket.sent + ["4" + EventFrame(payload, Target(s, custom))]
            && SocketIoPacket.RoundTrips(SocketIoPacket.Create("2", Some(payload), Target(s, custom)))
            && EventValues(payload) == Some(EmitValues(name, value))
  {
    var payload := EmitPayload(name, value);
    assert payload[0] == '[';
    assert !IsBlank(payload) by {
      assert !IsWhiteSpace(payload[0]);
    }
    EmitKeptWhole(name, value);
    Engine.SendMessageFrame(s.engine, EventFrame(payload, Target(s, custom)));
  }

  /** An Event frame that survives decoding, arriving at a client, calls the
      handlers `HandlerEventsInvoke` lists for its values and namespace. */
  lemma EventFrameReachesHandlers(s: State, payload: string, ns: Option<string>, b: Behaviour)
    requires SocketIoPacket.RoundTrips(SocketIoPacket.Create("2", Some(payload), ns))
    requires EventValues(payload).Some?
    ensures var values := EventValues(payload).value;
            var key := OnKey(values[0], Some(ns.GetOr(SocketIoPacket.DefaultNamespace)));
            var r := Arrive(s, Some("4" + EventFrame(payload, ns)), b);
            |r.events| >= |s.events|
            && InvokedHandlers(r.events[|s.events|..])
               == Lookup(s.actions, key)
                  + if |values| > 1
                    then Lookup(s.textActions, key) + Accepted(Lookup(s.typedActions, key), values[1], b)
                    else []
  {
    var p := SocketIoPacket.Create("2", Some(payload), ns);
    var frame := EventFrame(payload, ns);
    var heard := s.(engine := Engine.Raise(s.engine, EngineIoCore.MessageReceived(frame)));
    assert Arrive(s, Some("4" + frame), b) == HandleEvent(heard, payload, p.ns, b) by {
      MessageFrameHandled(s, frame, b);
      PacketsHandledByType(heard, p, b);
    }
    EventHandlersInOrder(heard, payload, p.ns, b);
  }

  /** An emitted event reaches the other side's handlers: the frame the
      sender writes, arriving at any receiver, calls every no-argument
      handler registered there for the event's name and namespace, then,
      when a string or a serialized object was sent, every raw-text handler
      and every typed handler that accepts it, with exactly that text. */
  lemma EmitReachesHandlers(sender: State, receiver: State, name: string, value: EmitValue,
                            custom: Option<string>, b: Behaviour)
    requires sender.engine.socket.connected
    requires Bare(name) && KeptWhole(value)
    requires SocketIoPacket.CanonicalNamespace(Target(sender, custom).GetOr(SocketIoPacket.DefaultNamespace))
    ensures var key := OnKey(name, Some(Target(sender, custom).GetOr(SocketIoPacket.DefaultNamespace)));
            var sent := Emission(sender, name, value, custom).engine.socket.sent;
            var r := Arrive(receiver, Some(sent[|sent| - 1]), b);
            |sent| == |sender.engine.socket.sent| + 1
            && |r.events| >= |receiver.events|
            && InvokedHandlers(r.events[|receiver.events|..])
               == Lookup(receiver.actions, key)
                  + if !value.NoValue?
                    then Lookup(receiver.textActions, key) + Accepted(Lookup(receiver.typedActions, key), Carried(value).value, b)
                    else []
  {
    EmitSendsEventFrame(sender, name, value, custom);
    EventFrameReachesHandlers(receiver, EmitPayload(name, value), Target(sender, custom), b);
  }

  /** The Connect packets go out in the order of the namespaces, and only
      on an open socket; nothing else changes. */
  function ConnectMessages(namespaces: seq<string>): seq<string> {
    seq(|namespaces|, i requires 0 <= i < |namespaces| => "4" + ConnectFrame(namespaces[i]))
  }

  lemma {:induction false} SendConnectsInOrder(e: Engine.State, namespaces: seq<string>)
    ensures var r := SendConnects(e, namespaces);
            r == e.(socket := r.socket) && r.socket.connected == e.socket.connected
            && r.socket.sent == e.socket.sent + if e.socket.connected then ConnectMessages(namespaces) else []
    decreases |namespaces|
  {
    if namespaces != [] {
      var init := namespaces[..|namespaces| - 1];
      var frame := ConnectFrame(namespaces[|namespaces| - 1]);
      var before := SendConnects(e, init);
      assert before == e.(socket := before.socket) && before.socket.connected == e.socket.connected
             && before.socket.sent == e.socket.sent + if e.socket.connected then ConnectMessages(init) else [] by {
        SendConnectsInOrder(e, init);
      }
      Engine.SendMessageFrame(before, frame);
      if e.socket.connected {
        assert e.socket.sent + ConnectMessages(init) + ["4" + frame] == e.socket.sent + ConnectMessages(namespaces) by {
          ConnectMessagesSnoc(namespaces);
        }
      }
    }
  }

  lemma ConnectMessagesSnoc(namespaces: seq<string>)
    requires namespaces != []
    ensures ConnectMessages(namespaces)
            == ConnectMessages(namespaces[..|namespaces| - 1]) + ["4" + ConnectFrame(namespaces[|namespaces| - 1])]
  {
  }

  /** `ConnectToNamespacesAsync` sends the Connect packets of every
      namespace on an open session, is false only before Engine.IO is open
      (changing nothing then), true only for no namespaces or once the
      server confirms one, and otherwise canceled. */
  lemma ConnectToNamespacesOutcome(s: State, namespaces: seq<string>, answer: Option<string>, b: Behaviour)
    ensures var r := ConnectToNamespaces(s, namespaces, answer, b);
            (r.result == Ok(false) <==> !s.engine.isOpened)
            && (!s.engine.isOpened ==> r.state == s)
            && (s.engine.isOpened && namespaces == [] ==> r == Outcome(s, Ok(true)))
            && (s.engine.isOpened && namespaces != [] ==>
                  (r.result == Ok(true) <==> ConnectedSince(r.state.events, |s.events|)))
            && (r.result.Err? ==> r.result.error == OperationCanceled)
            && (s.engine.isOpened && s.engine.socket.connected ==>
                  r.state.engine.socket.sent == s.engine.socket.sent + ConnectMessages(namespaces))
  {
    if s.engine.isOpened && namespaces != [] {
      SendConnectsInOrder(s.engine, namespaces);
      var sent := s.(engine := SendConnects(s.engine, namespaces));
      if answer.Some? {
        ArriveSendsNothing(sent, answer, b);
      }
    }
  }

  /** `ConnectToNamespaceAsync` rejects a null namespace without touching
      anything; otherwise it sends exactly that namespace's Connect packet
      on an open socket, and true means Connected was raised during the
      wait. */
  lemma ConnectToNamespaceOutcome(s: State, custom: Option<string>, answer: Option<string>, b: Behaviour)
    ensures var r := ConnectToNamespace(s, custom, answer, b);
            (custom.None? ==> r == Outcome(s, Err(ArgumentNull("customNamespace"))))
            && (custom.Some? && !s.engine.isOpened ==> r == Outcome(s, Ok(false)))
            && (custom.Some? && s.engine.isOpened ==>
                  (r.result == Ok(true) <==> ConnectedSince(r.state.events, |s.events|)))
            && (custom.Some? && s.engine.isOpened && s.engine.socket.connected ==>
                  r.state.engine.socket.sent == s.engine.socket.sent + ["4" + ConnectFrame(custom.value)])
  {
    if custom.Some? {
      ConnectToNamespacesOutcome(s, [custom.value], answer, b);
      assert ConnectMessages([custom.value]) == ["4" + ConnectFrame(custom.value)];
    }
  }

  /** A frame arriving never sends anything. */
  lemma ArriveSendsNothing(s: State, text: Option<string>, b: Behaviour)
    ensures Arrive(s, text, b).engine.socket == s.engine.socket
  {
    Engine.ReceiveSendsNothing(s.engine, text, b.parse);
  }

  /** `DisconnectAsync` on an open socket sends the Disconnect packet of
      the default namespace when one is set, then "41" and the Engine.IO
      close frame "1", and ends in Disconnected with the reason the
      transport gives. */
  lemma DisconnectFrames(s: State, reason: string, status: Option<int>, b: Behaviour)
    requires s.engine.socket.connected
    ensures var r := Disconnect(s, reason, status, b);
            r.engine.socket.sent
              == s.engine.socket.sent
                 + (if s.defaultNamespace.Some? then ["4" + DisconnectFrame(s.defaultNamespace)] else [])
                 + ["41", "1"]
            && !r.engine.isOpened && !r.engine.socket.connected
            && r.events == s.events + [Disconnected(reason, status)]
  {
    var left := if s.defaultNamespace.Some? then s.(engine := Engine.SendMessage(s.engine, DisconnectFrame(s.defaultNamespace))) else s;
    if s.defaultNamespace.Some? {
      Engine.SendMessageFrame(s.engine, DisconnectFrame(s.defaultNamespace));
    }
    FramesSpelledOut("");
    assert "4" + DisconnectFrame(None) == "41";
    Engine.SendMessageFrame(left.engine, DisconnectFrame(None));
    var sent := left.(engine := Engine.SendMessage(left.engine, DisconnectFrame(None)));
    Engine.CloseSendsCloseFrame(sent.engine, reason, status);
    assert sent.engine.socket.connected;
  }

  /** A transport disconnect always reaches the handlers as Disconnected
      with the transport's reason and status. */
  lemma TransportClosedDisconnects(s: State, reason: string, status: Option<int>, b: Behaviour)
    ensures var r := TransportClosed(s, reason, status, b);
            r.events == s.events + [Disconnected(reason, status)]
            && !r.engine.isOpened && !r.engine.socket.connected
  {
  }

  /** The Socket.IO client.  `throws` and `deserialize` stand for the
      handlers' behaviour and the JSON deserializer of payloads. */
  class SocketIoClient {
    const engine: Engine.EngineIoClient
    var defaultNamespace: Option<string>
    var actions: map<string, seq<Handler>>
    var textActions: map<string, seq<Handler>>
    var typedActions: map<string, seq<Typed>>
    var events: seq<SocketEvent>
    const throws: Handler -> bool
    const deserialize: (string, string) -> EngineIoCore.Json<()>

    function Env(): Behaviour {
      Behaviour(engine.framework, engine.parse, throws, deserialize)
    }

    function Snapshot(): State
      reads this, engine
    {
      State(engine.Snapshot(), defaultNamespace, actions, textActions, typedActions, events)
    }

    constructor(parse: string -> EngineIoCore.Json<EngineIoCore.OpenMessage>, throws: Handler -> bool,
                deserialize: (string, string) -> EngineIoCore.Json<()>)
      ensures Snapshot() == Initial
      ensures Env() == Behaviour(Handshake.SocketIoFramework, parse, throws, deserialize)
    {
      engine := new Engine.EngineIoClient(Handshake.SocketIoFramework, parse);
      this.throws := throws;
      this.deserialize := deserialize;
      defaultNamespace := None;
      actions := map[];
      textActions := map[];
      typedActions := map[];
      events := [];
    }

    method On(name: string, h: Handler, ns: Option<string>)
      modifies this
      ensures Snapshot() == AddAction(old(Snapshot()), name, h, ns)
    {
      var key := OnKey(name, ns);
      if key !in actions {
        actions := actions[key := []];
      }
      actions := actions[key := actions[key] + [h]];
    }

    method OnText(name: string, h: Handler, ns: Option<string>)
      modifies this
      ensures Snapshot() == AddTextAction(old(Snapshot()), name, h, ns)
    {
      var key := OnKey(name, ns);
      if key !in textActions {
        textActions := textActions[key := []];
      }
      textActions := textActions[key := textActions[key] + [h]];
    }

    method OnTyped(name: string, h: Handler, typeName: string, ns: Option<string>)
      modifies this
      ensures Snapshot() == AddTypedAction(old(Snapshot()), name, h, typeName, ns)
    {
      var key := OnKey(name, ns);
      if key !in typedActions {
        typedActions := typedActions[key := []];
      }
      typedActions := typedActions[key := typedActions[key] + [Typed(h, typeName)]];
    }

    /** The no-argument handlers of an event, in registration order. */
    method InvokeActions(list: seq<Handler>)
      modifies this
      ensures Snapshot() == old(Snapshot()).(events := old(events) + RunActions(list, Env()))
    {
      ghost var start := events;
      for i := 0 to |list|
        invariant events == start + RunActions(list[..i], Env())
        invariant Snapshot() == old(Snapshot()).(events := events)
      {
        assert list[..i + 1][..i] == list[..i];
        events := events + Call(list[i], None, Env());
      }
      assert list[..|list|] == list;
    }

    /** The raw-text handlers of an event, in registration order. */
    method InvokeTextActions(texts: seq<Handler>, name: string, text: Option<string>)
      modifies this
      ensures Snapshot() == old(Snapshot()).(events := old(events) + RunText(texts, name, text, Env()))
    {
      ghost var start := events;
      for i := 0 to |texts|
        invariant events == start + RunText(texts[..i], name, text, Env())
        invariant Snapshot() == old(Snapshot()).(events := events)
      {
        RunTextSnoc(start, texts, i, name, text, Env());
        if text.None? {
          events := events + [ExceptionOccurred(InvalidOperation(NullTextMessage(name)))];
        } else {
          events := events + Call(texts[i], text, Env());
        }
      }
      assert texts[..|texts|] == texts;
    }

    /** The typed handlers of an event, in registration order. */
    method InvokeTypedActions(typed: seq<Typed>, name: string, text: Option<string>)
      modifies this
      ensures Snapshot() == old(Snapshot()).(events := old(events) + RunTyped(typed, name, text, Env()))
    {
      ghost var start := events;
      for i := 0 to |typed|
        invariant events == start + RunTyped(typed[..i], name, text, Env())
        invariant Snapshot() == old(Snapshot()).(events := events)
      {
        RunTypedSnoc(start, typed, i, name, text, Env());
        events := events + TypedCall(typed[i], name, text, Env());
      }
      assert typed[..|typed|] == typed;
    }

    /** The Event case of the message handler. */
    method DispatchEvent(value: string, ns: string)
      modifies this
      ensures Snapshot() == HandleEvent(old(Snapshot()), value, ns, Env())
    {
      if IsBlank(value) {
        events := events + Concluded(value, ns, false);
        return;
      }
      var values := SocketIoUtilities.GetJsonArrayValues(value);
      if values.Err? {
        events := events + [ExceptionOccurred(values.error)] + Concluded(value, ns, false);
        return;
      }
      var name := values.value[0];
      var text := if |values.value| > 1 then Some(values.value[1]) else None;
      var key := OnKey(name, Some(ns));
      var list := Lookup(actions, key);
      var texts := Lookup(textActions, key);
      var typed := Lookup(typedActions, key);
      var isHandled := list != [] || texts != [] || typed != [];
      ghost var before := Snapshot();
      ghost var x := RunActions(list, Env());
      ghost var y := RunText(texts, name, text, Env());
      ghost var z := RunTyped(typed, name, text, Env());
      assert HandlerEvents(before, values.value, ns, Env()) == x + y + z;
      InvokeActions(list);
      InvokeTextActions(texts, name, text);
      InvokeTypedActions(typed, name, text);
      AppendThree(before.events, x, y, z);
      events := events + Concluded(value, ns, isHandled);
    }

    method EngineMessageReceived(text: Option<string>)
      modifies this
      ensures Snapshot() == Handle(old(Snapshot()), text, Env())
    {
      if text.None? {
        events := events + [ExceptionOccurred(InvalidOperation(NullMessage))];
        return;
      }
      if |text.value| < 1 {
        return;
      }
      var packet := SocketIoPacket.Decode(text.value);
      if packet.Err? {
        events := events + [ExceptionOccurred(packet.error)];
        return;
      }
      var p := packet.value;
      var kind := SocketIoPacket.TypeOf(p.prefix);
      if kind == Some(SocketIoPacket.Connect) {
        events := events + [Connected(p.ns)];
      } else if kind == Some(SocketIoPacket.Disconnect) {
        events := events + [Disconnected(ServerDisconnectReason, None)];
      } else if kind == Some(SocketIoPacket.Event) {
        DispatchEvent(p.value, p.ns);
      } else if kind == Some(SocketIoPacket.Error) {
        events := events + [ErrorReceived(Trim(p.value, {'"'}), p.ns)];
      }
    }

    method EngineEvent(e: EngineIoCore.Event)
      modifies this
      ensures Snapshot() == Relay(old(Snapshot()), e, Env())
    {
      match e
      case MessageReceived(v) =>
        EngineMessageReceived(Some(v));
      case ExceptionOccurred(x) =>
        events := events + [ExceptionOccurred(x)];
      case Closed(reason, status) =>
        events := events + [Disconnected(reason, status)];
      case _ =>
    }

    /** After the Engine.IO client moved on from `start.engine`, the event it
        raised, if any, reaches the handlers attached to it. */
    method Forward(ghost start: State, before: nat)
      requires Snapshot() == start.(engine := engine.Snapshot()) && before == |start.engine.events|
      modifies this
      ensures Snapshot() == AfterEngine(start, engine.Snapshot(), Env())
    {
      if |engine.events| > before {
        EngineEvent(engine.events[|engine.events| - 1]);
      }
    }

    method TextReceived(text: Option<string>)
      modifies this, engine
      ensures Snapshot() == Arrive(old(Snapshot()), text, Env())
    {
      ghost var start := Snapshot();
      var before := |engine.events|;
      engine.OnTextReceived(text);
      Forward(start, before);
    }

    method TimerElapsed(reconnect: EngineIoCore.ConnectOutcome)
      modifies this, engine
      ensures Snapshot() == Heartbeat(old(Snapshot()), reconnect, Env())
    {
      ghost var start := Snapshot();
      var before := |engine.events|;
      engine.TimerElapsed(reconnect);
      Forward(start, before);
    }

    method EngineDisconnected(reason: string, status: Option<int>)
      modifies this, engine
      ensures Snapshot() == TransportClosed(old(Snapshot()), reason, status, Env())
    {
      ghost var start := Snapshot();
      var before := |engine.events|;
      engine.OnDisconnected(reason, status);
      Forward(start, before);
    }

    method SendEventAsync(message: string, custom: Option<string>)
      modifies engine
      ensures Snapshot() == SendEvent(old(Snapshot()), message, custom)
    {
      var ns := if custom.Some? then custom else defaultNamespace;
      engine.SendMessageAsync(EventFrame(message, ns));
    }

    method Emit(name: string, value: EmitValue, custom: Option<string>)
      modifies engine
      ensures Snapshot() == Emission(old(Snapshot()), name, value, custom)
    {
      SendEventAsync(EmitPayload(name, value), custom);
    }

    method DisconnectAsync(reason: string, status: Option<int>)
      modifies this, engine
      ensures Snapshot() == Disconnect(old(Snapshot()), reason, status, Env())
    {
      if defaultNamespace.Some? {
        engine.SendMessageAsync(DisconnectFrame(defaultNamespace));
      }
      engine.SendMessageAsync(DisconnectFrame(None));
      ghost var start := Snapshot();
      var before := |engine.events|;
      engine.CloseAsync(reason, status);
      Forward(start, before);
    }

    method ConnectToNamespacesAsync(namespaces: seq<string>, answer: Option<string>)
      returns (result: Result<bool, Exception>)
      modifies this, engine
      ensures var r := ConnectToNamespaces(old(Snapshot()), namespaces, answer, Env());
              Snapshot() == r.state && result == r.result
    {
      if !engine.isOpened {
        return Ok(false);
      }
      if namespaces == [] {
        return Ok(true);
      }
      ghost var initial := engine.Snapshot();
      for i := 0 to |namespaces|
        invariant engine.Snapshot() == SendConnects(initial, namespaces[..i])
        modifies engine
      {
        assert namespaces[..i + 1][..i] == namespaces[..i];
        engine.SendMessageAsync(ConnectFrame(namespaces[i]));
      }
      assert namespaces[..|namespaces|] == namespaces;
      if answer.None? {
        return Err(OperationCanceled);
      }
      var start := |events|;
      TextReceived(answer);
      if ConnectedSince(events, start) {
        return Ok(true);
      }
      return Err(OperationCanceled);
    }

    method ConnectToNamespaceAsync(custom: Option<string>, answer: Option<string>)
      returns (result: Result<bool, Exception>)
      modifies this, engine
      ensures var r := ConnectToNamespace(old(Snapshot()), custom, answer, Env());
              Snapshot() == r.state && result == r.result
    {
      if custom.None? {
        return Err(ArgumentNull("customNamespace"));
      }
      result := ConnectToNamespacesAsync([custom.value], answer);
    }

    method OpenEngineAsync(uri: Option<Handshake.Uri>, outcome: EngineIoCore.ConnectOutcome, handshake: Option<string>)
      returns (result: Result<Option<EngineIoCore.OpenMessage>, Exception>)
      modifies this, engine
      ensures var r := OpenEngine(old(Snapshot()), uri, outcome, handshake, Env());
              Snapshot() == r.state && result == r.result
    {
      ghost var start := Snapshot();
      var before := |engine.events|;
      result := engine.OpenAsync(uri, outcome, handshake);
      Forward(start, before);
    }

    method GreetAsync(uri: Option<Handshake.Uri>, outcome: EngineIoCore.ConnectOutcome,
                      handshake: Option<string>, greeting: Option<string>)
      returns (result: Result<bool, Exception>)
      modifies this, engine
      ensures var r := Greet(old(Snapshot()), uri, outcome, handshake, greeting, Env());
              Snapshot() == r.state && result == r.result
    {
      var attempt := OpenEngineAsync(uri, outcome, handshake);
      if attempt.Err? {
        return Err(attempt.error);
      }
      if greeting.None? {
        return Ok(false);
      }
      var start := |events|;
      TextReceived(greeting);
      var error := ErrorSince(events, start);
      if error.Some? {
        return Err(InvalidOperation(ServerErrorMessage + error.value));
      }
      return Ok(ConnectedSince(events, start));
    }

    method ConnectAsync(uri: Option<Handshake.Uri>, outcome: EngineIoCore.ConnectOutcome,
                        handshake: Option<string>, greeting: Option<string>, namespaces: seq<string>,
                        answer: Option<string>)
      returns (result: Result<bool, Exception>)
      modifies this, engine
      ensures var r := Connect(old(Snapshot()), uri, outcome, handshake, greeting, namespaces, answer, Env());
              Snapshot() == r.state && result == r.result
    {
      var list := ConnectList(namespaces, defaultNamespace);
      if uri.None? {
        return Err(ArgumentNull("uri"));
      }
      if !engine.isOpened {
        result := GreetAsync(uri, outcome, handshake, greeting);
        if result != Ok(true) {
          return;
        }
      }
      result := ConnectToNamespacesAsync(list, answer);
    }
  }
}
