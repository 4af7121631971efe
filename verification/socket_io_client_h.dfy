/** The Socket.IO client of `H.Socket.IO`, over the Engine.IO client of
    `H.EngineIO`.  All handlers live in one registry of (handler, payload
    type) entries; a handler is called even when the event carries no
    text, and is skipped only when the deserializer throws.  `DisposeAsync`
    disposes and drops the Engine.IO client, after which every call that
    needs it throws ObjectDisposedException. */
module SocketIoClientH {
  import opened Wrappers
  import opened Exceptions
  import opened Text
  import opened SocketIoCore
  import SocketIoPacket
  import SocketIoUtilities
  import EngineIoCore
  import EngineIoPacket
  import Engine = EngineIoClientH
  import Handshake

  /** The fields of the client, with the state of its Engine.IO client
      (None once disposed), and the events raised so far. */
  datatype State = State(
    engine: Option<Engine.State>,
    defaultNamespace: Option<string>,
    actions: map<string, seq<Entry>>,
    events: seq<SocketEvent>)

  /** A freshly constructed client. */
  const Initial: State := State(Some(Engine.Initial), None, map[], [])

  /** What every call that needs the Engine.IO client throws once it is
      gone. */
  const DisposedError: Exception := ObjectDisposed("EngineIoClient")

  function Raise(s: State, e: SocketEvent): (r: State)
    ensures r == s.(events := s.events + [e])
  {
    s.(events := s.events + [e])
  }

  /** `On<T>` and the overloads that go through it: the entry is appended
      under the key of the name and namespace; nothing else changes, and
      it works on a disposed client too. */
  function AddHandler(s: State, name: string, h: Handler, typeName: string, ns: Option<string>): (r: State)
    ensures Lookup(r.actions, OnKey(name, ns)) == Lookup(s.actions, OnKey(name, ns)) + [Entry(h, typeName)]
    ensures forall k :: k != OnKey(name, ns) ==> Lookup(r.actions, k) == Lookup(s.actions, k)
    ensures r == s.(actions := r.actions)
  {
    s.(actions := Register(s.actions, OnKey(name, ns), Entry(h, typeName)))
  }

  /** One entry: without text the handler is called with null; otherwise
      the text is deserialized to the entry's type first, and a
      deserializer that throws is reported instead of calling it. */
  function EntryCall(e: Entry, text: Option<string>, b: Behaviour): seq<SocketEvent> {
    if text.None? then Call(e.handler, None, b)
    else if b.deserialize(text.value, e.typeName).Malformed? then [ExceptionOccurred(Exceptions.Json)]
    else Call(e.handler, text, b)
  }

  function RunEntries(es: seq<Entry>, text: Option<string>, b: Behaviour): seq<SocketEvent>
    decreases |es|
  {
    if es == [] then [] else RunEntries(es[..|es| - 1], text, b) + EntryCall(es[|es| - 1], text, b)
  }

  /** Running one more entry appends that entry's events. */
  lemma RunEntriesSnoc(start: seq<SocketEvent>, es: seq<Entry>, i: int, text: Option<string>, b: Behaviour)
    requires 0 <= i < |es|
    ensures start + RunEntries(es[..i + 1], text, b) == start + RunEntries(es[..i], text, b) + EntryCall(es[i], text, b)
  {
    assert es[..i + 1][..i] == es[..i];
  }

  /** The events the handlers of an event name produce; a name with no
      entry has the empty list. */
  function HandlerEvents(s: State, values: seq<string>, ns: string, b: Behaviour): seq<SocketEvent>
    requires |values| > 0
  {
    var text := if |values| > 1 then Some(values[1]) else None;
    RunEntries(Lookup(s.actions, OnKey(values[0], Some(ns))), text, b)
  }

  /** The Event packet: a blank payload runs nothing; a payload that is
      not an array is reported; otherwise the entries of the name run in
      order, and the packet is concluded as handled exactly when there was
      one. */
  function HandleEvent(s: State, value: string, ns: string, b: Behaviour): (r: State)
    ensures r == s.(events := r.events)
    ensures |r.events| >= |s.events| + 2 && r.events[..|s.events|] == s.events
  {
    if IsBlank(value) then s.(events := s.events + Concluded(value, ns, false))
    else
      match SocketIoUtilities.JsonArrayValues(value)
      case Err(e) => s.(events := s.events + [ExceptionOccurred(e)] + Concluded(value, ns, false))
      case Ok(values) =>
        s.(events := s.events + HandlerEvents(s, values, ns, b)
                              + Concluded(value, ns, Lookup(s.actions, OnKey(values[0], Some(ns))) != []))
  }

  /** `EngineIoClient_MessageReceived`: a null message is reported as
      invalid data, an empty one ignored; otherwise the packet is decoded
      and handled by type, and a packet that does not decode is reported. */
  function Handle(s: State, text: Option<string>, b: Behaviour): (r: State)
    ensures r == s.(events := r.events)
    ensures |r.events| >= |s.events| && r.events[..|s.events|] == s.events
  {
    if text.None? then Raise(s, ExceptionOccurred(InvalidData(NullMessage)))
    else if text.value == [] then s
    else
      match SocketIoPacket.Decode(text.value)
      case Err(e) => Raise(s, ExceptionOccurred(e))
      case Ok(p) =>
        var kind := SocketIoPacket.TypeOf(p.prefix);
        if kind == Some(SocketIoPacket.Connect) then Raise(s, Connected(p.ns))
        else if kind == Some(SocketIoPacket.Disconnect) then Raise(s, Disconnected(ServerDisconnectReason, None))
        else if kind == Some(SocketIoPacket.Event) then HandleEvent(s, p.value, p.ns, b)
        else if kind == Some(SocketIoPacket.Error) then Raise(s, ErrorReceived(Trim(p.value, {'"'}), p.ns))
        else s
  }

  /** The handlers the constructor attaches to the Engine.IO client. */
  function Relay(s: State, e: EngineIoCore.Event, b: Behaviour): (r: State)
    ensures r == s.(events := r.events)
    ensures |r.events| >= |s.events| && r.events[..|s.events|] == s.events
    ensures e.Closed? ==> r.events == s.events + [Disconnected(e.reason, e.status)]
  {
    match e
    case MessageReceived(v) => Handle(s, Some(v), b)
    case ExceptionOccurred(x) => Raise(s, ExceptionOccurred(x))
    case Closed(reason, status) => Raise(s, Disconnected(reason, status))
    case _ => s
  }

  /** The Engine.IO client moves to `next`; the event it raised, if any,
      reaches the handlers attached to it. */
  function AfterEngine(s: State, next: Engine.State, b: Behaviour): State
    requires s.engine.Some?
  {
    var moved := s.(engine := Some(next));
    if |next.events| > |s.engine.value.events| then Relay(moved, next.events[|next.events| - 1], b) else moved
  }

  /** A frame reaches the Engine.IO client, if there still is one. */
  function Arrive(s: State, text: Option<string>, b: Behaviour): State {
    if s.engine.None? then s else AfterEngine(s, Engine.Receive(s.engine.value, text, b.parse), b)
  }

  /** The Engine.IO heartbeat fires; what it throws stays on the timer's
      thread. */
  function Heartbeat(s: State, reconnect: EngineIoCore.ConnectOutcome, b: Behaviour): State {
    if s.engine.None? then s else AfterEngine(s, Engine.Tick(s.engine.value, reconnect).state, b)
  }

  /** The transport reports a disconnect. */
  function TransportClosed(s: State, reason: string, status: Option<int>, b: Behaviour): State {
    if s.engine.None? then s else AfterEngine(s, Engine.Dropped(s.engine.value, reason, status), b)
  }

  /** A state and what the operation returned or threw. */
  datatype Outcome<+T> = Outcome(state: State, result: Result<T, Exception>)

  /** The namespace an event is sent to: the given one, else the default
      one (else "/"). */
  function Target(s: State, custom: Option<string>): Option<string> {
    if custom.Some? then custom else s.defaultNamespace
  }

  /** A message through the Engine.IO client. */
  function Send(s: State, message: string): Outcome<()>
    requires s.engine.Some?
  {
    var sent := Engine.SendMessage(s.engine.value, message);
    Outcome(s.(engine := Some(sent.state)), sent.result)
  }

  /** `SendEventAsync`. */
  function SendEvent(s: State, message: string, custom: Option<string>): Outcome<()> {
    if s.engine.None? then Outcome(s, Err(DisposedError))
    else Send(s, EventFrame(message, Target(s, custom)))
  }

  /** `Emit`: the event name and value as a JSON array. */
  function Emission(s: State, name: string, value: EmitValue, custom: Option<string>): Outcome<()> {
    SendEvent(s, EmitPayload(name, value), custom)
  }

  /** The Disconnect packets: one for the default namespace when one is
      set, then one for "/", up to the first failure. */
  function Leave(s: State): (r: Outcome<()>)
    requires s.engine.Some?
    ensures r.state.engine.Some? && r.state == s.(engine := r.state.engine)
  {
    var left := if s.defaultNamespace.Some? then Send(s, DisconnectFrame(s.defaultNamespace)) else Outcome(s, Ok(()));
    if left.result.Err? then left else Send(left.state, DisconnectFrame(None))
  }

  /** `DisconnectAsync`: the Disconnect packets, then the Engine.IO client
      closes; the first failure is thrown. */
  function Disconnect(s: State, reason: string, status: Option<int>, b: Behaviour): Outcome<()> {
    if s.engine.None? then Outcome(s, Err(DisposedError))
    else
      var sent := Leave(s);
      if sent.result.Err? then sent
      else
        var closed := Engine.Close(sent.state.engine.value, reason, status);
        Outcome(AfterEngine(sent.state, closed.state, b), closed.result)
  }

  /** The Connect packets for the namespaces, one after the other, up to
      the first failure. */
  function SendConnects(s: State, namespaces: seq<string>): (r: Outcome<()>)
    requires s.engine.Some?
    ensures r.state.engine.Some? && r.state == s.(engine := r.state.engine)
    decreases |namespaces|
  {
    if namespaces == [] then Outcome(s, Ok(()))
    else
      var before := SendConnects(s, namespaces[..|namespaces| - 1]);
      if before.result.Err? then before else Send(before.state, ConnectFrame(namespaces[|namespaces| - 1]))
  }

  /** `ConnectToNamespacesAsync`: false before Engine.IO is open, true for
      no namespaces; otherwise a Connect packet per namespace, then the wait
      for Connected, which sees the frame `answer` (none before it is
      canceled, which gives false). */
  function ConnectToNamespaces(s: State, namespaces: seq<string>, answer: Option<string>, b: Behaviour): Outcome<bool> {
    if s.engine.None? then Outcome(s, Err(DisposedError))
    else if !s.engine.value.isOpened then Outcome(s, Ok(false))
    else if namespaces == [] then Outcome(s, Ok(true))
    else
      var sent := SendConnects(s, namespaces);
      if sent.result.Err? then Outcome(sent.state, Err(sent.result.error))
      else if answer.None? then Outcome(sent.state, Ok(false))
      else
        var heard := Arrive(sent.state, answer, b);
        Outcome(heard, Ok(ConnectedSince(heard.events, |sent.state.events|)))
  }

  /** `ConnectToNamespaceAsync`: a null namespace is rejected first, then a
      disposed client; otherwise the one namespace is connected to. */
  function ConnectToNamespace(s: State, custom: Option<string>, answer: Option<string>, b: Behaviour): Outcome<bool> {
    if custom.None? then Outcome(s, Err(ArgumentNull("customNamespace")))
    else if s.engine.None? then Outcome(s, Err(DisposedError))
    else ConnectToNamespaces(s, [custom.value], answer, b)
  }

  /** The Engine.IO client opens; the event its handshake raises reaches
      the handlers attached to it. */
  function OpenEngine(s: State, uri: Option<Handshake.Uri>, outcome: EngineIoCore.ConnectOutcome,
                      handshake: Option<string>, b: Behaviour): Outcome<bool>
    requires s.engine.Some?
  {
    var attempt := Engine.Open(s.engine.value, b.framework, b.parse, uri, outcome, handshake);
    Outcome(AfterEngine(s, attempt.state, b), attempt.result)
  }

  /** The first part of `ConnectAsync` on a closed session: Engine.IO opens
      (its failure is thrown; its canceled wait cancels this one too), and
      the wait for Connected or ErrorReceived sees the frame `greeting`
      (none before it is canceled); an error is thrown, no Connected gives
      false, and true lets the namespaces follow. */
  function Greet(s: State, uri: Option<Handshake.Uri>, outcome: EngineIoCore.ConnectOutcome,
                 handshake: Option<string>, greeting: Option<string>, b: Behaviour): Outcome<bool>
    requires s.engine.Some?
  {
    var attempt := OpenEngine(s, uri, outcome, handshake, b);
    var s1 := attempt.state;
    if attempt.result != Ok(true) then attempt
    else if greeting.None? then Outcome(s1, Ok(false))
    else
      var s2 := Arrive(s1, greeting, b);
      var error := ErrorSince(s2.events, |s1.events|);
      if error.Some? then Outcome(s2, Err(InvalidOperation(ServerErrorMessage + error.value)))
      else Outcome(s2, Ok(ConnectedSince(s2.events, |s1.events|)))
  }

  /** `ConnectAsync`: a disposed client throws; an open Engine.IO client
      goes straight to the namespaces; otherwise the greeting decides, and
      Connected goes on to the namespaces, the default one added. */
  function Connect(s: State, uri: Option<Handshake.Uri>, outcome: EngineIoCore.ConnectOutcome,
                   handshake: Option<string>, greeting: Option<string>, namespaces: seq<string>,
                   answer: Option<string>, b: Behaviour): Outcome<bool>
  {
    var list := ConnectList(namespaces, s.defaultNamespace);
    if s.engine.None? then Outcome(s, Err(DisposedError))
    else if s.engine.value.isOpened then ConnectToNamespaces(s, list, answer, b)
    else
      var greeted := Greet(s, uri, outcome, handshake, greeting, b);
      if greeted.result != Ok(true) then greeted
      else ConnectToNamespaces(greeted.state, list, answer, b)
  }

  /** `DisposeAsync`: the Engine.IO client is disposed and dropped. */
  function Dispose(s: State): State {
    s.(engine := None)
  }

  /** One entry calls its handler exactly when `Called` says so, and
      concludes nothing. */
  lemma EntryCallShape(e: Entry, text: Option<string>, b: Behaviour)
    ensures InvokedHandlers(EntryCall(e, text, b))
            == if text.None? || !b.deserialize(text.value, e.typeName).Malformed? then [e.handler] else []
    ensures Quiet(EntryCall(e, text, b))
  {
    var c := EntryCall(e, text, b);
    if text.None? || !b.deserialize(text.value, e.typeName).Malformed? {
      CallShape(e.handler, if text.None? then None else text, b);
    } else {
      assert |c| == 1 && c[..0] == [];
    }
  }

  /** The entries run in registration order whatever the ones before them
      throw, and exactly the handlers `Called` lists are called. */
  lemma {:induction false} EntriesRun(es: seq<Entry>, text: Option<string>, b: Behaviour)
    ensures InvokedHandlers(RunEntries(es, text, b)) == Called(es, text, b)
    ensures Quiet(RunEntries(es, text, b))
    decreases |es|
  {
    if es != [] {
      var init := es[..|es| - 1];
      EntriesRun(init, text, b);
      InvokedHandlersAppend(RunEntries(init, text, b), EntryCall(es[|es| - 1], text, b));
      EntryCallShape(es[|es| - 1], text, b);
    }
  }

  /** The values of an Event payload: none for a blank payload or one that
      is not an array. */
  function EventValues(value: string): (r: Option<seq<string>>)
    ensures r.Some? ==> |r.value| > 0
  {
    if IsBlank(value) then None
    else
      match SocketIoUtilities.JsonArrayValues(value)
      case Ok(values) => Some(values)
      case Err(_) => None
  }

  lemma HandleEventCases(s: State, value: string, ns: string, b: Behaviour)
    ensures var r := HandleEvent(s, value, ns, b);
            var values := EventValues(value);
            values.Some? ==>
              r.events == s.events + HandlerEvents(s, values.value, ns, b)
                          + Concluded(value, ns, Lookup(s.actions, OnKey(values.value[0], Some(ns))) != [])
  {
    if !IsBlank(value) {
      match SocketIoUtilities.JsonArrayValues(value)
      case Err(e) =>
      case Ok(values) =>
        assert EventValues(value) == Some(values);
    }
  }

  /** An Event packet raises EventReceived exactly once, as the last event
      but one, followed by HandledEventReceived exactly when an entry is
      registered for the event's name in the packet's namespace. */
  lemma EventConcludedOnce(s: State, value: string, ns: string, b: Behaviour)
    ensures var r := HandleEvent(s, value, ns, b);
            var values := EventValues(value);
            var handled := values.Some? && Lookup(s.actions, OnKey(values.value[0], Some(ns))) != [];
            r.events[|r.events| - 2..] == Concluded(value, ns, handled)
            && (forall i :: |s.events| <= i < |r.events| - 2 ==> !Concluding(r.events[i]))
  {
    var r := HandleEvent(s, value, ns, b);
    var values := EventValues(value);
    HandleEventCases(s, value, ns, b);
    if values.Some? {
      var mid := HandlerEvents(s, values.value, ns, b);
      var text := if |values.value| > 1 then Some(values.value[1]) else None;
      EntriesRun(Lookup(s.actions, OnKey(values.value[0], Some(ns))), text, b);
      forall i | |s.events| <= i < |r.events| - 2
        ensures !Concluding(r.events[i])
      {
        assert r.events[i] == mid[i - |s.events|];
      }
    }
  }

  /** The handlers an Event packet calls: those `Called` lists for the
      entries of its name and its text. */
  lemma EventHandlersInOrder(s: State, value: string, ns: string, b: Behaviour)
    requires EventValues(value).Some?
    ensures var values := EventValues(value).value;
            var r := HandleEvent(s, value, ns, b);
            InvokedHandlers(r.events[|s.events|..])
            == Called(Lookup(s.actions, OnKey(values[0], Some(ns))), if |values| > 1 then Some(values[1]) else None, b)
  {
    var values := EventValues(value).value;
    var key := OnKey(values[0], Some(ns));
    var text := if |values| > 1 then Some(values[1]) else None;
    var r := HandleEvent(s, value, ns, b);
    var mid := HandlerEvents(s, values, ns, b);
    var c := Concluded(value, ns, Lookup(s.actions, key) != []);
    HandleEventCases(s, value, ns, b);
    assert r.events[|s.events|..] == mid + c;
    EntriesRun(Lookup(s.actions, key), text, b);
    ConcludedInvokesNothing(value, ns, Lookup(s.actions, key) != []);
    InvokedHandlersAppend(mid, c);
  }

  /** What a server encodes is what the message handler acts on, by
      packet type.
      Stated for canonical frames, the ones `Encode` writes and `Decode`
      reads back; a frame with a non-canonical namespace is dispatched the
      same way on what `Decode` makes of it, which this lemma does not
      restate. */
  lemma PacketsHandledByType(s: State, p: SocketIoPacket.Packet, b: Behaviour)
    requires SocketIoPacket.RoundTrips(p)
    ensures var r := Handle(s, Some(SocketIoPacket.Encode(p)), b);
            var kind := SocketIoPacket.TypeOf(p.prefix);
            (kind == Some(SocketIoPacket.Connect) ==> r == Raise(s, Connected(p.ns)))
            && (kind == Some(SocketIoPacket.Disconnect) ==> r == Raise(s, Disconnected(ServerDisconnectReason, None)))
            && (kind == Some(SocketIoPacket.Event) ==> r == HandleEvent(s, p.value, p.ns, b))
            && (kind == Some(SocketIoPacket.Error) ==> r == Raise(s, ErrorReceived(Trim(p.value, {'"'}), p.ns)))
            && (kind.None? ==> r == s)
  {
    SocketIoPacket.DecodeEncoded(p);
  }

  /** A null message is reported as invalid data and an empty one is
      ignored. */
  lemma NullAndEmptyMessages(s: State, b: Behaviour)
    ensures Handle(s, None, b) == Raise(s, ExceptionOccurred(InvalidData("Engine.IO message is null")))
    ensures Handle(s, Some(""), b) == s
  {
  }

  /** An Engine.IO message frame reaches the Socket.IO message handler with
      its text. */
  lemma MessageFrameHandled(s: State, m: string, b: Behaviour)
    requires s.engine.Some?
    ensures Arrive(s, Some("4" + m), b)
            == Handle(s.(engine := Some(Engine.Raise(s.engine.value, EngineIoCore.MessageReceived(m)))), Some(m), b)
  {
    var text := "4" + m;
    assert text[..1] == "4" && text[1..] == m;
    assert !IsBlank(text) by {
      assert !IsWhiteSpace(text[0]);
    }
  }

  /** `Emit` on a live client with an open socket writes one Event frame
      carrying the name and value as a JSON array; the frame survives
      decoding and its payload reads back as the name and value. */
  lemma EmitSendsEventFrame(s: State, name: string, value: EmitValue, custom: Option<string>)
    requires s.engine.Some? && s.engine.value.socket.Some? && s.engine.value.socket.value.connected
    requires Bare(name) && KeptWhole(value)
    requires SocketIoPacket.CanonicalNamespace(Target(s, custom).GetOr(SocketIoPacket.DefaultNamespace))
    ensures var payload := EmitPayload(name, value);
            var r := Emission(s, name, value, custom);
            r.result.Ok? && r.state.engine.Some? && r.state.engine.value.socket.Some?
            && r.state.engine.value.socket.value.sent
               == s.engine.value.socket.value.sent + ["4" + EventFrame(payload, Target(s, custom))]
            && SocketIoPacket.RoundTrips(SocketIoPacket.Create("2", Some(payload), Target(s, custom)))
            && EventValues(payload) == Some(EmitValues(name, value))
  {
    var payload := EmitPayload(name, value);
    assert payload[0] == '[';
    assert !IsBlank(payload) by {
      assert !IsWhiteSpace(payload[0]);
    }
    EmitKeptWhole(name, value);
    Engine.SendMessageFrame(s.engine.value, EventFrame(payload, Target(s, custom)));
  }

  /** An Event frame that survives decoding, arriving at a live client,
      calls the handlers `Called` lists for its name, namespace and text. */
  lemma EventFrameReachesHandlers(s: State, payload: string, ns: Option<string>, b: Behaviour)
    requires s.engine.Some?
    requires SocketIoPacket.RoundTrips(SocketIoPacket.Create("2", Some(payload), ns))
    requires EventValues(payload).Some?
    ensures var values := EventValues(payload).value;
            var key := OnKey(values[0], Some(ns.GetOr(SocketIoPacket.DefaultNamespace)));
            var r := Arrive(s, Some("4" + EventFrame(payload, ns)), b);
            |r.events| >= |s.events|
            && InvokedHandlers(r.events[|s.events|..])
               == Called(Lookup(s.actions, key), if |values| > 1 then Some(values[1]) else None, b)
  {
    var p := SocketIoPacket.Create("2", Some(payload), ns);
    var frame := EventFrame(payload, ns);
    var heard := s.(engine := Some(Engine.Raise(s.engine.value, EngineIoCore.MessageReceived(frame))));
    assert Arrive(s, Some("4" + frame), b) == HandleEvent(heard, payload, p.ns, b) by {
      MessageFrameHandled(s, frame, b);
      PacketsHandledByType(heard, p, b);
    }
    EventHandlersInOrder(heard, payload, p.ns, b);
  }

  /** An emitted event reaches the other side's handlers: the frame the
      sender writes, arriving at any live receiver, calls the handlers
      registered there for the event's name and namespace, each with the
      string or serialized object that was sent, except those whose type
      rejects it. */
  lemma EmitReachesHandlers(sender: State, receiver: State, name: string, value: EmitValue,
                            custom: Option<string>, b: Behaviour)
    requires sender.engine.Some? && sender.engine.value.socket.Some? && sender.engine.value.socket.value.connected
    requires receiver.engine.Some?
    requires Bare(name) && KeptWhole(value)
    requires SocketIoPacket.CanonicalNamespace(Target(sender, custom).GetOr(SocketIoPacket.DefaultNamespace))
    ensures var key := OnKey(name, Some(Target(sender, custom).GetOr(SocketIoPacket.DefaultNamespace)));
            var sent := Emission(sender, name, value, custom).state.engine.value.socket.value.sent;
            var r := Arrive(receiver, Some(sent[|sent| - 1]), b);
            |sent| == |sender.engine.value.socket.value.sent| + 1
            && |r.events| >= |receiver.events|
            && InvokedHandlers(r.events[|receiver.events|..])
               == Called(Lookup(receiver.actions, key), Carried(value), b)
  {
    EmitSendsEventFrame(sender, name, value, custom);
    EventFrameReachesHandlers(receiver, EmitPayload(name, value), Target(sender, custom), b);
  }

  /** The Connect packets go out in the order of the namespaces, on a live
      client's open socket; nothing else changes. */
  function ConnectMessages(namespaces: seq<string>): seq<string> {
    seq(|namespaces|, i requires 0 <= i < |namespaces| => "4" + ConnectFrame(namespaces[i]))
  }

  lemma {:induction false} SendConnectsInOrder(s: State, namespaces: seq<string>)
    requires s.engine.Some? && s.engine.value.socket.Some? && s.engine.value.socket.value.connected
    ensures var r := SendConnects(s, namespaces);
            r.result.Ok? && r.state.engine.value.socket.Some? && r.state.engine.value.socket.value.connected
            && r.state.engine.value == s.engine.value.(socket := r.state.engine.value.socket)
            && r.state.engine.value.socket.value.sent == s.engine.value.socket.value.sent + ConnectMessages(namespaces)
    decreases |namespaces|
  {
    if namespaces != [] {
      var init := namespaces[..|namespaces| - 1];
      var last := namespaces[|namespaces| - 1];
      var before := SendConnects(s, init);
      var sent := s.engine.value.socket.value.sent;
      assert before.result.Ok? && before.state.engine.value.socket.Some? && before.state.engine.value.socket.value.connected
             && before.state.engine.value == s.engine.value.(socket := before.state.engine.value.socket)
             && before.state.engine.value.socket.value.sent == sent + ConnectMessages(init) by {
        SendConnectsInOrder(s, init);
      }
      var frame := ConnectFrame(last);
      assert SendConnects(s, namespaces) == Send(before.state, frame);
      SendOnOpenSocket(before.state, frame);
      assert sent + ConnectMessages(init) + ["4" + frame] == sent + ConnectMessages(namespaces) by {
        ConnectMessagesSnoc(namespaces);
      }
    }
  }

  lemma ConnectMessagesSnoc(namespaces: seq<string>)
    requires namespaces != []
    ensures ConnectMessages(namespaces)
            == ConnectMessages(namespaces[..|namespaces| - 1]) + ["4" + ConnectFrame(namespaces[|namespaces| - 1])]
  {
  }

  /** A message sent on a live client's open socket is written as a
      message frame; only the socket changes. */
  lemma SendOnOpenSocket(s: State, message: string)
    requires s.engine.Some? && s.engine.value.socket.Some? && s.engine.value.socket.value.connected
    ensures var r := Send(s, message);
            r.result.Ok? && r.state.engine.Some? && r.state.engine.value.socket.Some?
            && r.state.engine.value.socket.value.connected
            && r.state == s.(engine := r.state.engine)
            && r.state.engine.value == s.engine.value.(socket := r.state.engine.value.socket)
            && r.state.engine.value.socket.value.sent == s.engine.value.socket.value.sent + ["4" + message]
  {
    Engine.SendMessageFrame(s.engine.value, message);
  }

  /** `ConnectToNamespaceAsync` rejects a null namespace, then a disposed
      client, without touching anything; otherwise it sends exactly that
      namespace's Connect packet on an open socket, and true means
      Connected was raised during the wait. */
  lemma ConnectToNamespaceOutcome(s: State, custom: Option<string>, answer: Option<string>, b: Behaviour)
    ensures var r := ConnectToNamespace(s, custom, answer, b);
            (custom.None? ==> r == Outcome(s, Err(ArgumentNull("customNamespace"))))
            && (custom.Some? && s.engine.None? ==> r == Outcome(s, Err(ObjectDisposed("EngineIoClient"))))
            && (custom.Some? && s.engine.Some? && !s.engine.value.isOpened ==> r == Outcome(s, Ok(false)))
            && (custom.Some? && s.engine.Some? && s.engine.value.isOpened && r.result.Ok? ==>
                  r.result.value == ConnectedSince(r.state.events, |s.events|))
            && (custom.Some? && s.engine.Some? && s.engine.value.isOpened
                && s.engine.value.socket.Some? && s.engine.value.socket.value.connected ==>
                  r.state.engine.Some? && r.state.engine.value.socket.Some?
                  && r.state.engine.value.socket.value.sent == s.engine.value.socket.value.sent + ["4" + ConnectFrame(custom.value)])
  {
    if custom.Some? && s.engine.Some? {
      ConnectToNamespacesOutcome(s, [custom.value], answer, b);
      assert ConnectMessages([custom.value]) == ["4" + ConnectFrame(custom.value)];
    }
  }

  /** A frame arriving never sends anything. */
  lemma ArriveSendsNothing(s: State, text: Option<string>, b: Behaviour)
    requires s.engine.Some?
    ensures Arrive(s, text, b).engine.Some?
    ensures Arrive(s, text, b).engine.value.socket == s.engine.value.socket
  {
    var next := Engine.Receive(s.engine.value, text, b.parse);
    assert next.socket == s.engine.value.socket by {
      Engine.ReceiveKeepsSocket(s.engine.value, text, b.parse);
    }
    var moved := s.(engine := Some(next));
    if |next.events| > |s.engine.value.events| {
      assert Relay(moved, next.events[|next.events| - 1], b).engine == moved.engine;
    }
  }

  /** `ConnectToNamespacesAsync` on a live client: false before Engine.IO
      is open (changing nothing then) or when the server does not confirm,
      true for no namespaces or once the server confirms one; on an open
      socket every namespace's Connect packet is sent, in order. */
  lemma ConnectToNamespacesOutcome(s: State, namespaces: seq<string>, answer: Option<string>, b: Behaviour)
    requires s.engine.Some?
    ensures var r := ConnectToNamespaces(s, namespaces, answer, b);
            (!s.engine.value.isOpened ==> r == Outcome(s, Ok(false)))
            && (s.engine.value.isOpened && namespaces == [] ==> r == Outcome(s, Ok(true)))
            && (r.result.Ok? && s.engine.value.isOpened && namespaces != [] ==>
                  r.result.value == ConnectedSince(r.state.events, |s.events|))
            && (s.engine.value.isOpened && s.engine.value.socket.Some? && s.engine.value.socket.value.connected ==>
                  r.result.Ok? && r.state.engine.Some? && r.state.engine.value.socket.Some?
                  && r.state.engine.value.socket.value.sent == s.engine.value.socket.value.sent + ConnectMessages(namespaces))
  {
    var r := ConnectToNamespaces(s, namespaces, answer, b);
    if s.engine.value.isOpened && namespaces != [] {
      var sent := SendConnects(s, namespaces);
      if s.engine.value.socket.Some? && s.engine.value.socket.value.connected {
        assert sent.result.Ok? && sent.state.engine.value.socket.Some?
               && sent.state.engine.value.socket.value.sent == s.engine.value.socket.value.sent + ConnectMessages(namespaces)
               && sent.state.events == s.events by {
          SendConnectsInOrder(s, namespaces);
        }
        if answer.Some? {
          assert r.state.engine.value.socket == sent.state.engine.value.socket by {
            ArriveSendsNothing(sent.state, answer, b);
          }
        }
      }
    }
  }

  /** `DisconnectAsync` on a live client with an open socket sends the
      Disconnect packet of the default namespace when one is set, then
      "41" and the Engine.IO close frame "1", and ends in Disconnected with
      the reason the transport gives. */
  lemma DisconnectFrames(s: State, reason: string, status: Option<int>, b: Behaviour)
    requires s.engine.Some? && s.engine.value.timer.Some?
    requires s.engine.value.socket.Some? && s.engine.value.socket.value.connected
    ensures var r := Disconnect(s, reason, status, b);
            r.result.Ok? && r.state.engine.Some? && r.state.engine.value.socket.Some?
            && r.state.engine.value.socket.value.sent
               == s.engine.value.socket.value.sent
                  + (if s.defaultNamespace.Some? then ["4" + DisconnectFrame(s.defaultNamespace)] else [])
                  + ["41", "1"]
            && !r.state.engine.value.isOpened && !r.state.engine.value.socket.value.connected
            && r.state.events == s.events + [Disconnected(reason, status)]
  {
    var sent := Leave(s);
    assert sent.result.Ok? && sent.state.engine.value.socket.Some? && sent.state.engine.value.socket.value.connected
           && sent.state.engine.value.timer == s.engine.value.timer
           && sent.state.engine.value.socket.value.sent
              == s.engine.value.socket.value.sent
                 + (if s.defaultNamespace.Some? then ["4" + DisconnectFrame(s.defaultNamespace)] else []) + ["41"] by {
      LeaveFrames(s);
    }
    var closed := Engine.Close(sent.state.engine.value, reason, status);
    assert closed.result.Ok? && closed.state.socket.value.sent == sent.state.engine.value.socket.value.sent + ["1"]
           && !closed.state.socket.value.connected && !closed.state.isOpened
           && closed.state.events == sent.state.engine.value.events + [EngineIoCore.Event.Closed(reason, status)] by {
      Engine.CloseSendsCloseFrame(sent.state.engine.value, reason, status);
    }
  }

  /** On a live client's open socket both Disconnect packets are written,
      the default namespace's first; only the socket changes. */
  lemma LeaveFrames(s: State)
    requires s.engine.Some? && s.engine.value.socket.Some? && s.engine.value.socket.value.connected
    ensures var r := Leave(s);
            r.result.Ok? && r.state.engine.value.socket.Some? && r.state.engine.value.socket.value.connected
            && r.state.engine.value == s.engine.value.(socket := r.state.engine.value.socket)
            && r.state.engine.value.socket.value.sent
               == s.engine.value.socket.value.sent
                  + (if s.defaultNamespace.Some? then ["4" + DisconnectFrame(s.defaultNamespace)] else []) + ["41"]
  {
    var left := if s.defaultNamespace.Some? then Send(s, DisconnectFrame(s.defaultNamespace)) else Outcome(s, Ok(()));
    assert left.result.Ok? && left.state.engine.Some? && left.state.engine.value.socket.Some?
           && left.state.engine.value.socket.value.connected
           && left.state.engine.value == s.engine.value.(socket := left.state.engine.value.socket)
           && left.state.engine.value.socket.value.sent
              == s.engine.value.socket.value.sent
                 + (if s.defaultNamespace.Some? then ["4" + DisconnectFrame(s.defaultNamespace)] else []) by {
      if s.defaultNamespace.Some? {
        SendOnOpenSocket(s, DisconnectFrame(s.defaultNamespace));
      }
    }
    SendOnOpenSocket(left.state, DisconnectFrame(None));
    FramesSpelledOut("");
    assert "4" + DisconnectFrame(None) == "41";
  }

  /** Once disposed, every call that needs the Engine.IO client throws
      ObjectDisposedException and changes nothing, disposing again changes
      nothing, frames no longer arrive, and handlers can still be
      registered. */
  lemma DisposeIsFinal(s: State, uri: Option<Handshake.Uri>, outcome: EngineIoCore.ConnectOutcome,
                       handshake: Option<string>, greeting: Option<string>, namespaces: seq<string>,
                       answer: Option<string>, message: string, custom: Option<string>,
                       reason: string, status: Option<int>, text: Option<string>,
                       name: string, h: Handler, typeName: string, b: Behaviour)
    ensures var d := Dispose(s);
            Dispose(d) == d && d.events == s.events && d.actions == s.actions
            && Connect(d, uri, outcome, handshake, greeting, namespaces, answer, b) == Outcome(d, Err(ObjectDisposed("EngineIoClient")))
            && ConnectToNamespaces(d, namespaces, answer, b) == Outcome(d, Err(ObjectDisposed("EngineIoClient")))
            && (custom.Some? ==> ConnectToNamespace(d, custom, answer, b) == Outcome(d, Err(ObjectDisposed("EngineIoClient"))))
            && SendEvent(d, message, custom) == Outcome(d, Err(ObjectDisposed("EngineIoClient")))
            && Disconnect(d, reason, status, b) == Outcome(d, Err(ObjectDisposed("EngineIoClient")))
            && Arrive(d, text, b) == d
            && Lookup(AddHandler(d, name, h, typeName, custom).actions, OnKey(name, custom))
               == Lookup(s.actions, OnKey(name, custom)) + [Entry(h, typeName)]
  {
  }

  /** The Socket.IO client.  `throws` and `deserialize` stand for the
      handlers' behaviour and the JSON deserializer of payloads. */
  class SocketIoClient {
    /** The Engine.IO client made by the constructor, and the field that
        holds it until `DisposeAsync` drops it. */
    const created: Engine.EngineIoClient
    var engine: Engine.EngineIoClient?
    var defaultNamespace: Option<string>
    var actions: map<string, seq<Entry>>
    var events: seq<SocketEvent>
    const throws: Handler -> bool
    const deserialize: (string, string) -> EngineIoCore.Json<()>

    function Env(): Behaviour {
      Behaviour(created.framework, created.parse, throws, deserialize)
    }

    /** The Engine.IO client, while there is one, is the one the
        constructor made. */
    predicate Valid()
      reads this
    {
      engine == null || engine == created
    }

    function Snapshot(): State
      reads this, engine
    {
      State(if engine == null then None else Some(engine.Snapshot()), defaultNamespace, actions, events)
    }

    constructor(parse: string -> EngineIoCore.Json<EngineIoCore.OpenMessage>, throws: Handler -> bool,
                deserialize: (string, string) -> EngineIoCore.Json<()>)
      ensures Valid() && Snapshot() == Initial
      ensures Env() == Behaviour(Handshake.SocketIoFramework, parse, throws, deserialize)
    {
      created := new Engine.EngineIoClient(Handshake.SocketIoFramework, parse);
      engine := created;
      this.throws := throws;
      this.deserialize := deserialize;
      defaultNamespace := None;
      actions := map[];
      events := [];
    }

    /** `On<T>(name, Action<T?, string?>, ns)`; the other overloads pass
        their own type or `object`. */
    method OnTyped(name: string, h: Handler, typeName: string, ns: Option<string>)
      requires Valid()
      modifies this
      ensures Valid() && Snapshot() == AddHandler(old(Snapshot()), name, h, typeName, ns)
    {
      var key := OnKey(name, ns);
      if key !in actions {
        actions := actions[key := []];
      }
      actions := actions[key := actions[key] + [Entry(h, typeName)]];
    }

    /** `On(name, Action<string?>, ns)` and `On(name, Action, ns)`. */
    method On(name: string, h: Handler, ns: Option<string>)
      requires Valid()
      modifies this
      ensures Valid() && Snapshot() == AddHandler(old(Snapshot()), name, h, ObjectTypeName, ns)
    {
      OnTyped(name, h, ObjectTypeName, ns);
    }

    /** The entries of an event, in registration order. */
    method InvokeEntries(es: seq<Entry>, text: Option<string>)
      requires Valid()
      modifies this
      ensures Valid() && Snapshot() == old(Snapshot()).(events := old(events) + RunEntries(es, text, Env()))
    {
      ghost var start := events;
      for i := 0 to |es|
        invariant Valid()
        invariant Snapshot() == old(Snapshot()).(events := start + RunEntries(es[..i], text, Env()))
      {
        RunEntriesSnoc(start, es, i, text, Env());
        InvokeEntry(es[i], text);
      }
      assert es[..|es|] == es;
    }

    /** One entry: the text, if any, is deserialized to the entry's type
        first (a malformed text is reported instead), then the handler
        runs, and what it throws is reported. */
    method InvokeEntry(e: Entry, text: Option<string>)
      requires Valid()
      modifies this
      ensures Valid() && Snapshot() == old(Snapshot()).(events := old(events) + EntryCall(e, text, Env()))
    {
      if text.None? {
        events := events + Call(e.handler, None, Env());
      } else if deserialize(text.value, e.typeName).Malformed? {
        events := events + [ExceptionOccurred(Exceptions.Json)];
      } else {
        events := events + Call(e.handler, text, Env());
      }
    }

    /** The Event case of the message handler. */
    method DispatchEvent(value: string, ns: string)
      requires Valid()
      modifies this
      ensures Valid() && Snapshot() == HandleEvent(old(Snapshot()), value, ns, Env())
    {
      if IsBlank(value) {
        events := events + Concluded(value, ns, false);
        return;
      }
      var values := SocketIoUtilities.GetJsonArrayValues(value);
      if values.Err? {
        events := events + [ExceptionOccurred(values.error)] + Concluded(value, ns, false);
        return;
      }
      var name := values.value[0];
      var text := if |values.value| > 1 then Some(values.value[1]) else None;
      var key := OnKey(name, Some(ns));
      var isHandled := false;
      if key in actions {
        var es := actions[key];
        isHandled := es != [];
        InvokeEntries(es, text);
      }
      events := events + Concluded(value, ns, isHandled);
    }

    method EngineMessageReceived(text: Option<string>)
      requires Valid()
      modifies this
      ensures Valid() && Snapshot() == Handle(old(Snapshot()), text, Env())
    {
      if text.None? {
        events := events + [ExceptionOccurred(InvalidData(NullMessage))];
        return;
      }
      if |text.value| < 1 {
        return;
      }
      var packet := SocketIoPacket.Decode(text.value);
      if packet.Err? {
        events := events + [ExceptionOccurred(packet.error)];
        return;
      }
      var p := packet.value;
      var kind := SocketIoPacket.TypeOf(p.prefix);
      if kind == Some(SocketIoPacket.Connect) {
        events := events + [Connected(p.ns)];
      } else if kind == Some(SocketIoPacket.Disconnect) {
        events := events + [Disconnected(ServerDisconnectReason, None)];
      } else if kind == Some(SocketIoPacket.Event) {
        DispatchEvent(p.value, p.ns);
      } else if kind == Some(SocketIoPacket.Error) {
        events := events + [ErrorReceived(Trim(p.value, {'"'}), p.ns)];
      }
    }

    method EngineEvent(e: EngineIoCore.Event)
      requires Valid()
      modifies this
      ensures Valid() && Snapshot() == Relay(old(Snapshot()), e, Env())
    {
      match e
      case MessageReceived(v) =>
        EngineMessageReceived(Some(v));
      case ExceptionOccurred(x) =>
        events := events + [ExceptionOccurred(x)];
      case Closed(reason, status) =>
        events := events + [Disconnected(reason, status)];
      case _ =>
    }

    /** After the Engine.IO client moved on from `start.engine`, the event it
        raised, if any, reaches the handlers attached to it. */
    method Forward(ghost start: State, before: nat)
      requires Valid() && engine != null && start.engine.Some?
      requires Snapshot() == start.(engine := Some(engine.Snapshot())) && before == |start.engine.value.events|
      modifies this
      ensures Valid() && engine != null && Snapshot() == AfterEngine(start, engine.Snapshot(), Env())
    {
      if |engine.events| > before {
        EngineEvent(engine.events[|engine.events| - 1]);
      }
    }

    method TextReceived(text: Option<string>)
      requires Valid()
      modifies this, engine
      ensures Valid() && Snapshot() == Arrive(old(Snapshot()), text, Env())
    {
      if engine == null {
        return;
      }
      ghost var start := Snapshot();
      var before := |engine.events|;
      engine.OnTextReceived(text);
      Forward(start, before);
    }

    method TimerElapsed(reconnect: EngineIoCore.ConnectOutcome)
      requires Valid()
      modifies this, engine
      ensures Valid() && Snapshot() == Heartbeat(old(Snapshot()), reconnect, Env())
    {
      if engine == null {
        return;
      }
      ghost var start := Snapshot();
      var before := |engine.events|;
      var _ := engine.TimerElapsed(reconnect);
      Forward(start, before);
    }

    method EngineDisconnected(reason: string, status: Option<int>)
      requires Valid()
      modifies this, engine
      ensures Valid() && Snapshot() == TransportClosed(old(Snapshot()), reason, status, Env())
    {
      if engine == null {
        return;
      }
      ghost var start := Snapshot();
      var before := |engine.events|;
      engine.OnDisconnected(reason, status);
      Forward(start, before);
    }

    method SendEventAsync(message: string, custom: Option<string>) returns (result: Result<(), Exception>)
      requires Valid()
      modifies engine
      ensures Valid()
      ensures var r := SendEvent(old(Snapshot()), message, custom);
              Snapshot() == r.state && result == r.result
    {
      if engine == null {
        return Err(DisposedError);
      }
      var ns := if custom.Some? then custom else defaultNamespace;
      result := engine.SendMessageAsync(EventFrame(message, ns));
    }

    method Emit(name: string, value: EmitValue, custom: Option<string>) returns (result: Result<(), Exception>)
      requires Valid()
      modifies engine
      ensures Valid()
      ensures var r := Emission(old(Snapshot()), name, value, custom);
              Snapshot() == r.state && result == r.result
    {
      result := SendEventAsync(EmitPayload(name, value), custom);
    }

    method DisconnectAsync(reason: string, status: Option<int>) returns (result: Result<(), Exception>)
      requires Valid()
      modifies this, engine
      ensures Valid()
      ensures var r := Disconnect(old(Snapshot()), reason, status, Env());
              Snapshot() == r.state && result == r.result
    {
      if engine == null {
        return Err(DisposedError);
      }
      result := LeaveAsync();
      if result.Err? {
        return;
      }
      ghost var start := Snapshot();
      var before := |engine.events|;
      result := engine.CloseAsync(reason, status);
      Forward(start, before);
    }

    /** The Disconnect packets, up to the first failure. */
    method LeaveAsync() returns (result: Result<(), Exception>)
      requires Valid() && engine != null
      modifies engine
      ensures Valid() && engine != null
      ensures var r := Leave(old(Snapshot()));
              Snapshot() == r.state && result == r.result
    {
      if defaultNamespace.Some? {
        result := engine.SendMessageAsync(DisconnectFrame(defaultNamespace));
        if result.Err? {
          return;
        }
      }
      result := engine.SendMessageAsync(DisconnectFrame(None));
    }

    /** The Connect packets, up to the first failure. */
    method SendConnectsAsync(namespaces: seq<string>) returns (result: Result<(), Exception>)
      requires Valid() && engine != null
      modifies engine
      ensures Valid() && engine != null
      ensures var r := SendConnects(old(Snapshot()), namespaces);
              Snapshot() == r.state && result == r.result
    {
      result := Ok(());
      for i := 0 to |namespaces|
        invariant Valid() && engine != null
        invariant var r := SendConnects(old(Snapshot()), namespaces[..i]);
                  Snapshot() == r.state && result == r.result && result.Ok?
      {
        assert namespaces[..i + 1][..i] == namespaces[..i];
        result := engine.SendMessageAsync(ConnectFrame(namespaces[i]));
        if result.Err? {
          assert namespaces[..i + 1] == namespaces[..i] + [namespaces[i]];
          SendConnectsStops(old(Snapshot()), namespaces, i + 1);
          return;
        }
      }
      assert namespaces[..|namespaces|] == namespaces;
    }

    method ConnectToNamespacesAsync(namespaces: seq<string>, answer: Option<string>)
      returns (result: Result<bool, Exception>)
      requires Valid()
      modifies this, engine
      ensures Valid()
      ensures var r := ConnectToNamespaces(old(Snapshot()), namespaces, answer, Env());
              Snapshot() == r.state && result == r.result
    {
      if engine == null {
        return Err(DisposedError);
      }
      if !engine.isOpened {
        return Ok(false);
      }
      if namespaces == [] {
        return Ok(true);
      }
      var sent := SendConnectsAsync(namespaces);
      if sent.Err? {
        return Err(sent.error);
      }
      if answer.None? {
        return Ok(false);
      }
      var start := |events|;
      TextReceived(answer);
      return Ok(ConnectedSince(events, start));
    }

    method ConnectToNamespaceAsync(custom: Option<string>, answer: Option<string>)
      returns (result: Result<bool, Exception>)
      requires Valid()
      modifies this, engine
      ensures Valid()
      ensures var r := ConnectToNamespace(old(Snapshot()), custom, answer, Env());
              Snapshot() == r.state && result == r.result
    {
      if custom.None? {
        return Err(ArgumentNull("customNamespace"));
      }
      if engine == null {
        return Err(DisposedError);
      }
      result := ConnectToNamespacesAsync([custom.value], answer);
    }

    method OpenEngineAsync(uri: Option<Handshake.Uri>, outcome: EngineIoCore.ConnectOutcome, handshake: Option<string>)
      returns (result: Result<bool, Exception>)
      requires Valid() && engine != null
      modifies this, engine
      ensures Valid() && engine != null
      ensures var r := OpenEngine(old(Snapshot()), uri, outcome, handshake, Env());
              Snapshot() == r.state && result == r.result
    {
      ghost var start := Snapshot();
      var before := |engine.events|;
      result := engine.OpenAsync(uri, outcome, handshake);
      Forward(start, before);
    }

    method GreetAsync(uri: Option<Handshake.Uri>, outcome: EngineIoCore.ConnectOutcome,
                      handshake: Option<string>, greeting: Option<string>)
      returns (result: Result<bool, Exception>)
      requires Valid() && engine != null
      modifies this, engine
      ensures Valid()
      ensures var r := Greet(old(Snapshot()), uri, outcome, handshake, greeting, Env());
              Snapshot() == r.state && result == r.result
    {
      result := OpenEngineAsync(uri, outcome, handshake);
      if result != Ok(true) {
        return;
      }
      if greeting.None? {
        return Ok(false);
      }
      var start := |events|;
      TextReceived(greeting);
      var error := ErrorSince(events, start);
      if error.Some? {
        return Err(InvalidOperation(ServerErrorMessage + error.value));
      }
      return Ok(ConnectedSince(events, start));
    }

    method ConnectAsync(uri: Option<Handshake.Uri>, outcome: EngineIoCore.ConnectOutcome,
                        handshake: Option<string>, greeting: Option<string>, namespaces: seq<string>,
                        answer: Option<string>)
      returns (result: Result<bool, Exception>)
      requires Valid()
      modifies this, engine
      ensures Valid()
      ensures var r := Connect(old(Snapshot()), uri, outcome, handshake, greeting, namespaces, answer, Env());
              Snapshot() == r.state && result == r.result
    {
      if engine == null {
        return Err(DisposedError);
      }
      result := ConnectLiveAsync(uri, outcome, handshake, greeting, namespaces, answer);
    }

    /** `ConnectAsync` past the check for a disposed client. */
    method ConnectLiveAsync(uri: Option<Handshake.Uri>, outcome: EngineIoCore.ConnectOutcome,
                            handshake: Option<string>, greeting: Option<string>, namespaces: seq<string>,
                            answer: Option<string>)
      returns (result: Result<bool, Exception>)
      requires Valid() && engine != null
      modifies this, engine
      ensures Valid()
      ensures var r := Connect(old(Snapshot()), uri, outcome, handshake, greeting, namespaces, answer, Env());
              Snapshot() == r.state && result == r.result
    {
      var list := ConnectList(namespaces, defaultNamespace);
      ConnectSteps(Snapshot(), uri, outcome, handshake, greeting, namespaces, answer, Env());
      if !engine.isOpened {
        result := GreetAsync(uri, outcome, handshake, greeting);
        if result != Ok(true) {
          return;
        }
      }
      result := ConnectToNamespacesAsync(list, answer);
    }

    method DisposeAsync()
      requires Valid()
      modifies this, engine
      ensures Valid() && Snapshot() == Dispose(old(Snapshot()))
    {
      if engine != null {
        engine.DisposeAsync();
        engine := null;
      }
    }
  }

  /** `Connect` on a live client, step by step. */
  lemma ConnectSteps(s: State, uri: Option<Handshake.Uri>, outcome: EngineIoCore.ConnectOutcome,
                     handshake: Option<string>, greeting: Option<string>, namespaces: seq<string>,
                     answer: Option<string>, b: Behaviour)
    requires s.engine.Some?
    ensures var list := ConnectList(namespaces, s.defaultNamespace);
            var greeted := Greet(s, uri, outcome, handshake, greeting, b);
            Connect(s, uri, outcome, handshake, greeting, namespaces, answer, b)
            == if s.engine.value.isOpened then ConnectToNamespaces(s, list, answer, b)
               else if greeted.result != Ok(true) then greeted
               else ConnectToNamespaces(greeted.state, list, answer, b)
  {
  }

  /** Once a Connect packet fails, the later ones are not sent. */
  lemma {:induction false} SendConnectsStops(s: State, namespaces: seq<string>, n: nat)
    requires s.engine.Some? && n <= |namespaces|
    requires SendConnects(s, namespaces[..n]).result.Err?
    ensures SendConnects(s, namespaces) == SendConnects(s, namespaces[..n])
    decreases |namespaces| - n
  {
    if n < |namespaces| {
      var longer := namespaces[..n + 1];
      assert longer[..|longer| - 1] == namespaces[..n];
      SendConnectsStops(s, namespaces, n + 1);
    } else {
      assert namespaces[..n] == namespaces;
    }
  }
}
