/** The Socket.IO client of `SimpleSocketIoClient`, over the Engine.IO
    client of `SimpleSocketIoClient/EngineIO`.  It parses packets inline,
    acts only on Connect, Disconnect and Event packets, raises AfterEvent
    before any handler runs and AfterUnhandledEvent when no handler list
    exists for the event, splits event arrays at every comma, and spells
    its outbound packets out inline. */
module SocketIoClientSimple {
  import opened Wrappers
  import opened Exceptions
  import opened Text
  import Core = SocketIoCore
  import SocketIoPacket
  import SimpleSocketIoUtilities
  import EngineIoCore
  import Engine = EngineIoClientSimple
  import Handshake

  const ConnectPrefix: string := "0"
  const DisconnectPrefix: string := "1"
  const EventPrefix: string := "2"

  /** The events the client raises, and the calls of registered handlers
      with the text they were given. */
  datatype ClientEvent =
    | Connected(ns: string)
    | Disconnected(reason: string, status: Option<int>)
    | AfterEvent(value: string, ns: string)
    | AfterUnhandledEvent(value: string, ns: string)
    | AfterException(error: Exception)
    | Invoked(handler: Core.Handler, text: Option<string>)

  /** The fields of the client, with the state of its Engine.IO client
      (None once disposed), and the events raised so far. */
  datatype State = State(
    engine: Option<Engine.State>,
    defaultNamespace: Option<string>,
    actions: map<string, seq<Core.Entry>>,
    events: seq<ClientEvent>)

  /** A freshly constructed client. */
  const Initial: State := State(Some(Engine.Initial), None, map[], [])

  /** What every call that needs the Engine.IO client throws once it is
      gone. */
  const DisposedError: Exception := ObjectDisposed("EngineIoClient")

  function Raise(s: State, e: ClientEvent): (r: State)
    ensures r == s.(events := s.events + [e])
  {
    s.(events := s.events + [e])
  }

  /** `On<T>` and the overloads that go through it: the entry is appended
      under the key of the name and namespace; nothing else changes. */
  function AddHandler(s: State, name: string, h: Core.Handler, typeName: string, ns: Option<string>): (r: State)
    ensures Core.Lookup(r.actions, Core.OnKey(name, ns)) == Core.Lookup(s.actions, Core.OnKey(name, ns)) + [Core.Entry(h, typeName)]
    ensures forall k :: k != Core.OnKey(name, ns) ==> Core.Lookup(r.actions, k) == Core.Lookup(s.actions, k)
    ensures Core.OnKey(name, ns) in r.actions
    ensures r == s.(actions := r.actions)
  {
    s.(actions := Core.Register(s.actions, Core.OnKey(name, ns), Core.Entry(h, typeName)))
  }

  /** A handler called with a text: it runs, and what it throws is
      reported. */
  function Call(h: Core.Handler, text: Option<string>, b: Core.Behaviour): seq<ClientEvent> {
    [Invoked(h, text)] + if b.throws(h) then [AfterException(HandlerFailed(h))] else []
  }

  /** One entry: without text the handler is called with null; otherwise
      the text is deserialized to the entry's type first, and a
      deserializer that throws is reported instead of calling it. */
  function EntryCall(e: Core.Entry, text: Option<string>, b: Core.Behaviour): seq<ClientEvent> {
    if text.None? then Call(e.handler, None, b)
    else if b.deserialize(text.value, e.typeName).Malformed? then [AfterException(Exceptions.Json)]
    else Call(e.handler, text, b)
  }

  function RunEntries(es: seq<Core.Entry>, text: Option<string>, b: Core.Behaviour): seq<ClientEvent>
    decreases |es|
  {
    if es == [] then [] else RunEntries(es[..|es| - 1], text, b) + EntryCall(es[|es| - 1], text, b)
  }

  /** Running one more entry appends that entry's events. */
  lemma RunEntriesSnoc(start: seq<ClientEvent>, es: seq<Core.Entry>, i: int, text: Option<string>, b: Core.Behaviour)
    requires 0 <= i < |es|
    ensures start + RunEntries(es[..i + 1], text, b) == start + RunEntries(es[..i], text, b) + EntryCall(es[i], text, b)
  {
    assert es[..i + 1][..i] == es[..i];
  }

  /** The second value of an event array, if any. */
  function TextOf(values: seq<string>): Option<string> {
    if |values| > 1 then Some(values[1]) else None
  }

  /** The Event packet: AfterEvent first; then the values are split at
      every comma (a payload that is not an array is reported), and the
      entries under the name's key run in order, or AfterUnhandledEvent is
      raised when there is no such key. */
  function HandleEvent(s: State, value: string, ns: string, b: Core.Behaviour): (r: State)
    ensures r == s.(events := r.events)
    ensures |r.events| > |s.events| && r.events[..|s.events|] == s.events
  {
    s.(events := s.events + ([AfterEvent(value, ns)] + EventTail(s, value, ns, b)))
  }

  /** What follows AfterEvent: the report of a payload that is not an
      array, the run of the entries under the name's key, or
      AfterUnhandledEvent when there is no such key. */
  function EventTail(s: State, value: string, ns: string, b: Core.Behaviour): seq<ClientEvent> {
    ValuesTail(s.actions, SimpleSocketIoUtilities.GetEventValues(value), value, ns, b)
  }

  /** The same, given the outcome of splitting the payload. */
  function ValuesTail(actions: map<string, seq<Core.Entry>>, values: Result<seq<string>, Exception>,
                      value: string, ns: string, b: Core.Behaviour): seq<ClientEvent>
    requires values.Ok? ==> values.value != []
  {
    match values
    case Err(e) => [AfterException(e)]
    case Ok(vs) =>
      var key := Core.OnKey(vs[0], Some(ns));
      if key in actions then RunEntries(actions[key], TextOf(vs), b)
      else [AfterUnhandledEvent(value, ns)]
  }

  /** `EngineIoClient_AfterMessage`: a null message is reported as invalid
      data, an empty one ignored; otherwise the inline parse (which is the
      Socket.IO packet decoder) splits the frame, and only the Connect,
      Disconnect and Event prefixes are acted on. */
  function Handle(s: State, text: Option<string>, b: Core.Behaviour): (r: State)
    ensures r == s.(events := r.events)
    ensures |r.events| >= |s.events| && r.events[..|s.events|] == s.events
  {
    if text.None? then Raise(s, AfterException(InvalidData(Core.NullMessage)))
    else if text.value == [] then s
    else
      match SocketIoPacket.Decode(text.value)
      case Err(e) => Raise(s, AfterException(e))
      case Ok(p) =>
        if p.prefix == ConnectPrefix then Raise(s, Connected(p.ns))
        else if p.prefix == DisconnectPrefix then Raise(s, Disconnected(Core.ServerDisconnectReason, None))
        else if p.prefix == EventPrefix then HandleEvent(s, p.value, p.ns, b)
        else s
  }

  /** The handlers the constructor attaches to the Engine.IO client. */
  function Relay(s: State, e: EngineIoCore.SimpleEvent, b: Core.Behaviour): (r: State)
    ensures r == s.(events := r.events)
    ensures |r.events| >= |s.events| && r.events[..|s.events|] == s.events
    ensures e.Closed? ==> r.events == s.events + [Disconnected(e.reason, e.status)]
  {
    match e
    case AfterMessage(v) => Handle(s, Some(v), b)
    case AfterException(x) => Raise(s, AfterException(x))
    case Closed(reason, status) => Raise(s, Disconnected(reason, status))
    case _ => s
  }

  /** The Engine.IO client moves to `next`; the event it raised, if any,
      reaches the handlers attached to it. */
  function AfterEngine(s: State, next: Engine.State, b: Core.Behaviour): State
    requires s.engine.Some?
  {
    var moved := s.(engine := Some(next));
    if |next.events| > |s.engine.value.events| then Relay(moved, next.events[|next.events| - 1], b) else moved
  }

  /** A frame reaches the Engine.IO client, if there still is one. */
  function Arrive(s: State, text: Option<string>, b: Core.Behaviour): State {
    if s.engine.None? then s else AfterEngine(s, Engine.Receive(s.engine.value, text, b.parse), b)
  }

  /** The Engine.IO heartbeat fires; what it throws stays on the timer's
      thread. */
  function Heartbeat(s: State, reconnect: EngineIoCore.ConnectOutcome, b: Core.Behaviour): State {
    if s.engine.None? then s else AfterEngine(s, Engine.Tick(s.engine.value, reconnect).state, b)
  }

  /** The transport reports a disconnect. */
  function TransportClosed(s: State, reason: string, status: Option<int>, b: Core.Behaviour): State {
    if s.engine.None? then s else AfterEngine(s, Engine.Dropped(s.engine.value, reason, status), b)
  }

  /** A state and what the operation returned or threw. */
  datatype Outcome<+T> = Outcome(state: State, result: Result<T, Exception>)

  /** A message through the Engine.IO client. */
  function Send(s: State, message: string): Outcome<()>
    requires s.engine.Some?
  {
    var sent := Engine.SendMessage(s.engine.value, message);
    Outcome(s.(engine := Some(sent.state)), sent.result)
  }

  /** The namespace an event is sent to: the given one, else the default
      one, else none. */
  function Target(s: State, custom: Option<string>): Option<string> {
    if custom.Some? then custom else s.defaultNamespace
  }

  /** The namespace segment of an Event packet: "/" and the namespace
      without its leading slashes, followed by a comma when the message is
      not blank; nothing without a namespace. */
  function NamespaceBody(ns: Option<string>, message: string): string {
    var body := if ns.None? then "" else "/" + TrimStart(ns.value, {'/'});
    body + if !IsBlank(body) && !IsBlank(message) then "," else ""
  }

  /** The Event packet `SendEventAsync` writes. */
  function EventFrame(message: string, ns: Option<string>): string {
    EventPrefix + NamespaceBody(ns, message) + message
  }

  /** `SendEventAsync`. */
  function SendEvent(s: State, message: string, custom: Option<string>): Outcome<()> {
    if s.engine.None? then Outcome(s, Err(DisposedError))
    else Send(s, EventFrame(message, Target(s, custom)))
  }

  /** `Emit`: the event name and value as a JSON array. */
  function Emission(s: State, name: string, value: Core.EmitValue, custom: Option<string>): Outcome<()> {
    SendEvent(s, Core.EmitPayload(name, value), custom)
  }

  /** `DisconnectAsync`: the Disconnect packet "1", then the Engine.IO
      client closes; the first failure is thrown. */
  function Disconnect(s: State, reason: string, status: Option<int>, b: Core.Behaviour): Outcome<()> {
    if s.engine.None? then Outcome(s, Err(DisposedError))
    else
      var sent := Send(s, DisconnectPrefix);
      if sent.result.Err? then sent
      else
        var closed := Engine.Close(sent.state.engine.value, reason, status);
        Outcome(AfterEngine(sent.state, closed.state, b), closed.result)
  }

  /** The Connect packet `ConnectToNamespacesAsync` writes for a namespace:
      "0/" and the namespace without its leading slashes. */
  function ConnectFrame(ns: string): string {
    ConnectPrefix + "/" + TrimStart(ns, {'/'})
  }

  /** The Connect packets for the namespaces, one after the other, up to
      the first failure. */
  function SendConnects(s: State, namespaces: seq<string>): (r: Outcome<()>)
    requires s.engine.Some?
    ensures r.state.engine.Some? && r.state == s.(engine := r.state.engine)
    decreases |namespaces|
  {
    if namespaces == [] then Outcome(s, Ok(()))
    else
      var before := SendConnects(s, namespaces[..|namespaces| - 1]);
      if before.result.Err? then before else Send(before.state, ConnectFrame(namespaces[|namespaces| - 1]))
  }

  /** Whether Connected was raised at or after position `from`: what the
      wait for Connected returns once it is over. */
  predicate ConnectedSince(events: seq<ClientEvent>, from: nat) {
    exists i :: from <= i < |events| && events[i].Connected?
  }

  /** `ConnectToNamespacesAsync`: false before Engine.IO is open, true for
      no namespaces; otherwise the Connect packets go out while waiting for
      Connected, which sees the frame `answer` (none before the wait is
      canceled, which gives false). */
  function ConnectToNamespaces(s: State, namespaces: seq<string>, answer: Option<string>, b: Core.Behaviour): Outcome<bool> {
    if s.engine.None? then Outcome(s, Err(DisposedError))
    else if !s.engine.value.isOpened then Outcome(s, Ok(false))
    else if namespaces == [] then Outcome(s, Ok(true))
    else
      var sent := SendConnects(s, namespaces);
      if sent.result.Err? then Outcome(sent.state, Err(sent.result.error))
      else
        var heard := if answer.None? then sent.state else Arrive(sent.state, answer, b);
        Outcome(heard, Ok(ConnectedSince(heard.events, |s.events|)))
  }

  /** `ConnectToNamespaceAsync`: a null namespace is rejected first, then a
      disposed client; otherwise the one namespace is connected to. */
  function ConnectToNamespace(s: State, custom: Option<string>, answer: Option<string>, b: Core.Behaviour): Outcome<bool> {
    if custom.None? then Outcome(s, Err(ArgumentNull("customNamespace")))
    else if s.engine.None? then Outcome(s, Err(DisposedError))
    else ConnectToNamespaces(s, [custom.value], answer, b)
  }

  /** The Engine.IO client opens; the event its handshake raises reaches
      the handlers attached to it. */
  function OpenEngine(s: State, uri: Option<Handshake.Uri>, outcome: EngineIoCore.ConnectOutcome,
                      handshake: Option<string>, b: Core.Behaviour): Outcome<bool>
    requires s.engine.Some?
  {
    var attempt := Engine.Open(s.engine.value, b.framework, b.parse, uri, outcome, handshake);
    Outcome(AfterEngine(s, attempt.state, b), attempt.result)
  }

  /** `ConnectAsync`: a disposed client throws; on a closed session the
      Engine.IO client opens while waiting for Connected (what opening
      throws is thrown; a canceled open cancels the wait too), which sees
      the frame `greeting` (none before it is canceled); no Connected gives
      false, and otherwise the namespaces follow, the default one added. */
  function Connect(s: State, uri: Option<Handshake.Uri>, outcome: EngineIoCore.ConnectOutcome,
                   handshake: Option<string>, greeting: Option<string>, namespaces: seq<string>,
                   answer: Option<string>, b: Core.Behaviour): Outcome<bool>
  {
    var list := Core.ConnectList(namespaces, s.defaultNamespace);
    if s.engine.None? then Outcome(s, Err(DisposedError))
    else if s.engine.value.isOpened then ConnectToNamespaces(s, list, answer, b)
    else
      var attempt := OpenEngine(s, uri, outcome, handshake, b);
      if attempt.result.Err? then Outcome(attempt.state, Err(attempt.result.error))
      else
        var greeted := if greeting.None? || attempt.result != Ok(true) then attempt.state else Arrive(attempt.state, greeting, b);
        if !ConnectedSince(greeted.events, |s.events|) then Outcome(greeted, Ok(false))
        else ConnectToNamespaces(greeted, list, answer, b)
  }

  /** `Dispose` and `DisposeAsync`: the Engine.IO client is disposed and
      dropped. */
  function Disposed(s: State): State {
    s.(engine := None)
  }

  /** The handlers a sequence of events says were called, in order. */
  function Invocations(events: seq<ClientEvent>): seq<Core.Handler>
    decreases |events|
  {
    if events == [] then []
    else
      var last := events[|events| - 1];
      Invocations(events[..|events| - 1]) + if last.Invoked? then [last.handler] else []
  }

  lemma {:induction false} InvocationsAppend(a: seq<ClientEvent>, c: seq<ClientEvent>)
    ensures Invocations(a + c) == Invocations(a) + Invocations(c)
    decreases |c|
  {
    if c == [] {
      assert a + c == a;
    } else {
      var init := c[..|c| - 1];
      assert (a + c)[..|a + c| - 1] == a + init;
      InvocationsAppend(a, init);
    }
  }

  /** Events that announce an Event packet. */
  predicate Announcing(e: ClientEvent) {
    e.AfterEvent? || e.AfterUnhandledEvent?
  }

  /** A run of events none of which announces an Event packet. */
  predicate Quiet(events: seq<ClientEvent>) {
    forall i :: 0 <= i < |events| ==> !Announcing(events[i])
  }

  /** One entry calls its handler exactly when `Called` says so, and
      announces nothing. */
  lemma EntryCallShape(e: Core.Entry, text: Option<string>, b: Core.Behaviour)
    ensures Invocations(EntryCall(e, text, b))
            == if text.None? || !b.deserialize(text.value, e.typeName).Malformed? then [e.handler] else []
    ensures Quiet(EntryCall(e, text, b))
  {
    var c := EntryCall(e, text, b);
    if text.None? || !b.deserialize(text.value, e.typeName).Malformed? {
      var head: seq<ClientEvent> := [Invoked(e.handler, text)];
      assert head[..0] == [];
      assert Invocations(head) == [e.handler];
      if b.throws(e.handler) {
        assert c[..1] == head;
      } else {
        assert c == head;
      }
    } else {
      assert |c| == 1 && c[..0] == [];
    }
  }

  /** The entries run in registration order whatever the ones before them
      throw, exactly the handlers `Called` lists are called, and nothing
      is announced among them. */
  lemma {:induction false} EntriesRun(es: seq<Core.Entry>, text: Option<string>, b: Core.Behaviour)
    ensures Invocations(RunEntries(es, text, b)) == Core.Called(es, text, b)
    ensures Quiet(RunEntries(es, text, b))
    decreases |es|
  {
    if es != [] {
      var init := es[..|es| - 1];
      EntriesRun(init, text, b);
      InvocationsAppend(RunEntries(init, text, b), EntryCall(es[|es| - 1], text, b));
      EntryCallShape(es[|es| - 1], text, b);
    }
  }

  /** Whether AfterUnhandledEvent is among the events. */
  predicate Unhandled(events: seq<ClientEvent>) {
    exists i :: 0 <= i < |events| && events[i].AfterUnhandledEvent?
  }

  /** An Event packet raises AfterEvent first and only once; it raises
      AfterUnhandledEvent exactly when the payload is an array whose name
      has no handler list in the packet's namespace, and then nothing
      else. */
  lemma EventAnnounced(s: State, value: string, ns: string, b: Core.Behaviour)
    ensures var after := HandleEvent(s, value, ns, b).events[|s.events|..];
            var values := SimpleSocketIoUtilities.GetEventValues(value);
            var unhandled := values.Ok? && Core.OnKey(values.value[0], Some(ns)) !in s.actions;
            after[0] == AfterEvent(value, ns)
            && (forall i :: 0 < i < |after| ==> !after[i].AfterEvent?)
            && (Unhandled(after) <==> unhandled)
            && (unhandled ==> after == [AfterEvent(value, ns), AfterUnhandledEvent(value, ns)])
  {
    var after := HandleEvent(s, value, ns, b).events[|s.events|..];
    match SimpleSocketIoUtilities.GetEventValues(value)
    case Err(e) =>
      assert after == [AfterEvent(value, ns), AfterException(e)];
    case Ok(values) =>
      var key := Core.OnKey(values[0], Some(ns));
      if key in s.actions {
        var run := RunEntries(s.actions[key], TextOf(values), b);
        assert after == [AfterEvent(value, ns)] + run;
        assert Quiet(run) by {
          EntriesRun(s.actions[key], TextOf(values), b);
        }
        AnnouncedOnce(AfterEvent(value, ns), run);
      } else {
        assert after == [AfterEvent(value, ns), AfterUnhandledEvent(value, ns)];
        assert after[1].AfterUnhandledEvent?;
      }
  }

  /** An announcement followed by a quiet run is announced once and never
      reported unhandled. */
  lemma AnnouncedOnce(head: ClientEvent, run: seq<ClientEvent>)
    requires head.AfterEvent? && Quiet(run)
    ensures forall i :: 0 < i < |[head] + run| ==> !([head] + run)[i].AfterEvent?
    ensures !Unhandled([head] + run)
  {
    var all := [head] + run;
    forall i | 0 < i < |all|
      ensures !Announcing(all[i])
    {
      assert all[i] == run[i - 1];
    }
  }

  /** The handlers an Event packet calls: for an array payload whose name
      has a handler list in the packet's namespace, those `Called` lists for
      it and the array's second value; otherwise none. */
  lemma EventHandlersInOrder(s: State, value: string, ns: string, b: Core.Behaviour)
    ensures var r := HandleEvent(s, value, ns, b);
            var values := SimpleSocketIoUtilities.GetEventValues(value);
            Invocations(r.events[|s.events|..])
            == if values.Ok? && Core.OnKey(values.value[0], Some(ns)) in s.actions
               then Core.Called(s.actions[Core.OnKey(values.value[0], Some(ns))], TextOf(values.value), b)
               else []
  {
    var head: seq<ClientEvent> := [AfterEvent(value, ns)];
    var tail := EventTail(s, value, ns, b);
    assert HandleEvent(s, value, ns, b).events[|s.events|..] == head + tail;
    assert Invocations(head) == [] by {
      assert head[..0] == [];
    }
    InvocationsAppend(head, tail);
    match SimpleSocketIoUtilities.GetEventValues(value)
    case Err(e) =>
      assert Invocations(tail) == [] by {
        assert tail[..0] == [];
      }
    case Ok(values) =>
      var key := Core.OnKey(values[0], Some(ns));
      if key in s.actions {
        EntriesRun(s.actions[key], TextOf(values), b);
      } else {
        assert Invocations(tail) == [] by {
          assert tail[..0] == [];
        }
      }
  }

  /** What a server encodes is what the message handler acts on: a
      Connect, Disconnect or Event packet by its type, and any other packet
      (an Error packet among them) not at all.
      Stated for canonical frames, the ones `Encode` writes and `Decode`
      reads back; a frame with a non-canonical namespace is dispatched the
      same way on what `Decode` makes of it, which this lemma does not
      restate. */
  lemma PacketsHandledByType(s: State, p: SocketIoPacket.Packet, b: Core.Behaviour)
    requires SocketIoPacket.RoundTrips(p)
    ensures var r := Handle(s, Some(SocketIoPacket.Encode(p)), b);
            (p.prefix == ConnectPrefix ==> r == Raise(s, Connected(p.ns)))
            && (p.prefix == DisconnectPrefix ==> r == Raise(s, Disconnected(Core.ServerDisconnectReason, None)))
            && (p.prefix == EventPrefix ==> r == HandleEvent(s, p.value, p.ns, b))
            && (p.prefix !in {ConnectPrefix, DisconnectPrefix, EventPrefix} ==> r == s)
  {
    SocketIoPacket.DecodeEncoded(p);
  }

  /** A null message is reported as invalid data and an empty one is
      ignored. */
  lemma NullAndEmptyMessages(s: State, b: Core.Behaviour)
    ensures Handle(s, None, b) == Raise(s, AfterException(InvalidData("Engine.IO message is null")))
    ensures Handle(s, Some(""), b) == s
  {
  }

  /** An Engine.IO message frame reaches the Socket.IO message handler with
      its text. */
  lemma MessageFrameHandled(s: State, m: string, b: Core.Behaviour)
    requires s.engine.Some?
    ensures Arrive(s, Some("4" + m), b)
            == Handle(s.(engine := Some(Engine.Raise(s.engine.value, EngineIoCore.AfterMessage(m)))), Some(m), b)
  {
    var text := "4" + m;
    assert text[..1] == "4" && text[1..] == m;
    assert !IsBlank(text) by {
      assert !IsWhiteSpace(text[0]);
    }
  }

  /** A frame that names its namespace is split at its first comma: a
      one-character prefix other than ',', a namespace starting with '/'
      and holding no comma, then the value after a comma, or nothing. */
  lemma DecodeNamed(prefix: string, name: string, value: Option<string>)
    requires |prefix| == 1 && prefix != "," && |name| >= 1 && name[0] == '/' && ',' !in name
    ensures SocketIoPacket.Decode(prefix + name + if value.Some? then "," + value.value else "")
            == Ok(SocketIoPacket.Packet(prefix, name, if value.Some? then value.value else ""))
  {
    var head := prefix + name;
    var m := head + if value.Some? then "," + value.value else "";
    assert m[..1] == prefix && m[1] == '/';
    assert ',' !in head;
    if value.None? {
      assert m == head;
      assert IndexOfChar(m, ',') == None;
      assert m[1..] == name;
    } else {
      var index := |head|;
      assert m[index] == ',' && m[..index] == head;
      assert IndexOfChar(m, ',') == Some(index);
      assert m[1..index] == name;
      assert m[index + 1..] == value.value;
    }
  }

  /** The Event packet `SendEventAsync` writes is read back by the packet
      decoder as an Event packet carrying the message, for the namespace
      "/" followed by the target without its leading slashes, or for "/"
      without a target, provided the message is not blank, does not start
      with '/', and the namespace holds no comma. */
  lemma EventFrameDecodes(message: string, ns: Option<string>)
    requires !IsBlank(message) && message[0] != '/'
    requires ns.Some? ==> ',' !in TrimStart(ns.value, {'/'})
    ensures SocketIoPacket.Decode(EventFrame(message, ns))
            == Ok(SocketIoPacket.Packet(EventPrefix,
                                        if ns.None? then SocketIoPacket.DefaultNamespace else "/" + TrimStart(ns.value, {'/'}),
                                        message))
  {
    var frame := EventFrame(message, ns);
    if ns.None? {
      assert NamespaceBody(ns, message) == "" by {
        assert IsBlank("");
      }
      assert frame == EventPrefix + message;
      assert frame[..1] == EventPrefix && frame[1..] == message;
      assert !SocketIoPacket.HasNamespace(frame);
    } else {
      var name := "/" + TrimStart(ns.value, {'/'});
      assert !IsBlank(name) by {
        assert !IsWhiteSpace(name[0]);
      }
      assert frame == EventPrefix + name + "," + message;
      assert ',' !in name;
      DecodeNamed(EventPrefix, name, Some(message));
    }
  }

  /** The Connect packet for a namespace is read back as a Connect packet
      for "/" followed by the namespace without its leading slashes, with
      no value, provided the namespace holds no comma; the receiver raises
      Connected for that namespace. */
  lemma ConnectFrameDecodes(s: State, ns: string, b: Core.Behaviour)
    requires ',' !in TrimStart(ns, {'/'})
    ensures SocketIoPacket.Decode(ConnectFrame(ns))
            == Ok(SocketIoPacket.Packet(ConnectPrefix, "/" + TrimStart(ns, {'/'}), ""))
    ensures Handle(s, Some(ConnectFrame(ns)), b) == Raise(s, Connected("/" + TrimStart(ns, {'/'})))
  {
    var name := "/" + TrimStart(ns, {'/'});
    assert ',' !in name;
    assert ConnectFrame(ns) == ConnectPrefix + name + "";
    DecodeNamed(ConnectPrefix, name, None);
  }

  /** `Emit` on a live client with an open socket writes one Event frame;
      the frame decodes to the target namespace and the payload, and the
      payload splits back into the name and value. */
  lemma EmitSendsEventFrame(s: State, name: string, value: Core.EmitValue, custom: Option<string>)
    requires s.engine.Some? && s.engine.value.socket.Some? && s.engine.value.socket.value.connected
    requires Core.Bare(name) && Core.KeptPlain(value)
    requires Target(s, custom).Some? ==> ',' !in TrimStart(Target(s, custom).value, {'/'})
    ensures var payload := Core.EmitPayload(name, value);
            var target := Target(s, custom);
            var r := Emission(s, name, value, custom);
            r.result.Ok? && r.state.engine.Some? && r.state.engine.value.socket.Some?
            && r.state.engine.value.socket.value.sent
               == s.engine.value.socket.value.sent + ["4" + EventFrame(payload, target)]
            && SocketIoPacket.Decode(EventFrame(payload, target))
               == Ok(SocketIoPacket.Packet(EventPrefix,
                                           if target.None? then SocketIoPacket.DefaultNamespace else "/" + TrimStart(target.value, {'/'}),
                                           payload))
            && SimpleSocketIoUtilities.GetEventValues(payload) == Ok(Core.EmitValues(name, value))
  {
    var payload := Core.EmitPayload(name, value);
    var target := Target(s, custom);
    assert SimpleSocketIoUtilities.GetEventValues(payload) == Ok(Core.EmitValues(name, value)) by {
      Core.EmitKeptPlain(name, value);
    }
    assert payload[0] == '[';
    assert !IsBlank(payload) by {
      assert !IsWhiteSpace(payload[0]);
    }
    EventFrameDecodes(payload, target);
    assert Emission(s, name, value, custom) == Send(s, EventFrame(payload, target));
    SendOnOpenSocket(s, EventFrame(payload, target));
  }

  /** An Event frame the decoder reads as `p`, arriving at a live client,
      is announced and calls the handlers registered for its name. */
  lemma EventFrameReachesHandlers(s: State, frame: string, p: SocketIoPacket.Packet, b: Core.Behaviour)
    requires s.engine.Some?
    requires frame != [] && SocketIoPacket.Decode(frame) == Ok(p) && p.prefix == EventPrefix
    ensures var r := Arrive(s, Some("4" + frame), b);
            var values := SimpleSocketIoUtilities.GetEventValues(p.value);
            |r.events| > |s.events| && r.events[|s.events|] == AfterEvent(p.value, p.ns)
            && Invocations(r.events[|s.events|..])
               == if values.Ok? && Core.OnKey(values.value[0], Some(p.ns)) in s.actions
                  then Core.Called(s.actions[Core.OnKey(values.value[0], Some(p.ns))], TextOf(values.value), b)
                  else []
  {
    var heard := s.(engine := Some(Engine.Raise(s.engine.value, EngineIoCore.AfterMessage(frame))));
    assert Arrive(s, Some("4" + frame), b) == HandleEvent(heard, p.value, p.ns, b) by {
      MessageFrameHandled(s, frame, b);
    }
    EventAnnounced(heard, p.value, p.ns, b);
    EventHandlersInOrder(heard, p.value, p.ns, b);
  }

  /** An emitted event reaches the other side's handlers: the frame the
      sender writes, arriving at any live receiver, is announced with the
      payload and the sender's namespace, and calls the handlers registered
      there for the event's name, each with the string or serialized JSON
      that was sent, except those whose type rejects it; with no handler
      list it is reported unhandled. */
  lemma EmitReachesHandlers(sender: State, receiver: State, name: string, value: Core.EmitValue,
                            custom: Option<string>, b: Core.Behaviour)
    requires sender.engine.Some? && sender.engine.value.socket.Some? && sender.engine.value.socket.value.connected
    requires receiver.engine.Some?
    requires Core.Bare(name) && Core.KeptPlain(value)
    requires Target(sender, custom).Some? ==> ',' !in TrimStart(Target(sender, custom).value, {'/'})
    ensures var target := Target(sender, custom);
            var ns := if target.None? then SocketIoPacket.DefaultNamespace else "/" + TrimStart(target.value, {'/'});
            var key := Core.OnKey(name, Some(ns));
            var e := Emission(sender, name, value, custom).state.engine;
            e.Some? && e.value.socket.Some?
            && var sent := e.value.socket.value.sent;
            |sent| == |sender.engine.value.socket.value.sent| + 1
            && var r := Arrive(receiver, Some(sent[|sent| - 1]), b);
            |r.events| > |receiver.events|
            && r.events[|receiver.events|] == AfterEvent(Core.EmitPayload(name, value), ns)
            && Invocations(r.events[|receiver.events|..])
               == if key in receiver.actions
                  then Core.Called(receiver.actions[key], Core.Carried(value), b)
                  else []
  {
    var target := Target(sender, custom);
    var payload := Core.EmitPayload(name, value);
    var ns := if target.None? then SocketIoPacket.DefaultNamespace else "/" + TrimStart(target.value, {'/'});
    var frame := EventFrame(payload, target);
    EmitSendsEventFrame(sender, name, value, custom);
    assert frame != [] by {
      assert SocketIoPacket.Decode(frame).Ok?;
    }
    NamedEventReachesHandlers(receiver, frame, SocketIoPacket.Packet(EventPrefix, ns, payload), name, value, b);
  }

  /** An Event frame whose payload splits into a name and the argument of
      an emitted value calls the handlers registered for that name, with
      that argument. */
  lemma NamedEventReachesHandlers(s: State, frame: string, p: SocketIoPacket.Packet, name: string,
                                  value: Core.EmitValue, b: Core.Behaviour)
    requires s.engine.Some?
    requires frame != [] && SocketIoPacket.Decode(frame) == Ok(p) && p.prefix == EventPrefix
    requires SimpleSocketIoUtilities.GetEventValues(p.value) == Ok(Core.EmitValues(name, value))
    ensures var r := Arrive(s, Some("4" + frame), b);
            var key := Core.OnKey(name, Some(p.ns));
            |r.events| > |s.events| && r.events[|s.events|] == AfterEvent(p.value, p.ns)
            && Invocations(r.events[|s.events|..])
               == if key in s.actions then Core.Called(s.actions[key], Core.Carried(value), b) else []
  {
    assert TextOf(Core.EmitValues(name, value)) == Core.Carried(value);
    EventFrameReachesHandlers(s, frame, p, b);
  }

  /** A message sent on a live client's open socket is written as a
      message frame; only the socket changes. */
  lemma SendOnOpenSocket(s: State, message: string)
    requires s.engine.Some? && s.engine.value.socket.Some? && s.engine.value.socket.value.connected
    ensures var r := Send(s, message);
            r.result.Ok? && r.state.engine.Some? && r.state.engine.value.socket.Some?
            && r.state.engine.value.socket.value.connected
            && r.state == s.(engine := r.state.engine)
            && r.state.engine.value == s.engine.value.(socket := r.state.engine.value.socket)
            && r.state.engine.value.socket.value.sent == s.engine.value.socket.value.sent + ["4" + message]
  {
  }

  /** The Connect packets, in the order of the namespaces, as written on
      the socket. */
  function ConnectMessages(namespaces: seq<string>): seq<string> {
    seq(|namespaces|, i requires 0 <= i < |namespaces| => "4" + ConnectFrame(namespaces[i]))
  }

  /** On a live client's open socket every Connect packet is written, in
      order; only the socket changes. */
  lemma {:induction false} SendConnectsInOrder(s: State, namespaces: seq<string>)
    requires s.engine.Some? && s.engine.value.socket.Some? && s.engine.value.socket.value.connected
    ensures var r := SendConnects(s, namespaces);
            r.result.Ok? && r.state.engine.value.socket.Some? && r.state.engine.value.socket.value.connected
            && r.state.engine.value == s.engine.value.(socket := r.state.engine.value.socket)
            && r.state.engine.value.socket.value.sent == s.engine.value.socket.value.sent + ConnectMessages(namespaces)
    decreases |namespaces|
  {
    if namespaces != [] {
      var init := namespaces[..|namespaces| - 1];
      var last := namespaces[|namespaces| - 1];
      SendConnectsInOrder(s, init);
      var before := SendConnects(s, init);
      assert SendConnects(s, namespaces) == Send(before.state, ConnectFrame(last));
      SendOnOpenSocket(before.state, ConnectFrame(last));
      assert ConnectMessages(namespaces) == ConnectMessages(init) + ["4" + ConnectFrame(last)];
    }
  }

  /** `ConnectToNamespaceAsync` rejects a null namespace, then a disposed
      client, without touching anything; otherwise it sends exactly that
      namespace's Connect packet on an open socket, and true means
      Connected was raised during the wait. */
  lemma ConnectToNamespaceOutcome(s: State, custom: Option<string>, answer: Option<string>, b: Core.Behaviour)
    ensures var r := ConnectToNamespace(s, custom, answer, b);
            (custom.None? ==> r == Outcome(s, Err(ArgumentNull("customNamespace"))))
            && (custom.Some? && s.engine.None? ==> r == Outcome(s, Err(ObjectDisposed("EngineIoClient"))))
            && (custom.Some? && s.engine.Some? && !s.engine.value.isOpened ==> r == Outcome(s, Ok(false)))
            && (custom.Some? && s.engine.Some? && s.engine.value.isOpened && r.result.Ok? ==>
                  r.result.value == ConnectedSince(r.state.events, |s.events|))
            && (custom.Some? && s.engine.Some? && s.engine.value.isOpened
                && s.engine.value.socket.Some? && s.engine.value.socket.value.connected ==>
                  r.state.engine.Some? && r.state.engine.value.socket.Some?
                  && r.state.engine.value.socket.value.sent == s.engine.value.socket.value.sent + ["4" + ConnectFrame(custom.value)])
  {
    if custom.Some? && s.engine.Some? {
      ConnectToNamespacesOutcome(s, [custom.value], answer, b);
      assert ConnectMessages([custom.value]) == ["4" + ConnectFrame(custom.value)];
    }
  }

  /** A frame arriving never sends anything. */
  lemma ArriveSendsNothing(s: State, text: Option<string>, b: Core.Behaviour)
    requires s.engine.Some?
    ensures Arrive(s, text, b).engine.Some?
    ensures Arrive(s, text, b).engine.value.socket == s.engine.value.socket
  {
    var next := Engine.Receive(s.engine.value, text, b.parse);
    assert next.socket == s.engine.value.socket by {
      Engine.ReceiveKeepsSocket(s.engine.value, text, b.parse);
    }
    var moved := s.(engine := Some(next));
    if |next.events| > |s.engine.value.events| {
      assert Relay(moved, next.events[|next.events| - 1], b).engine == moved.engine;
    }
  }

  /** `ConnectToNamespacesAsync` on a live client: false before Engine.IO
      is open (changing nothing then), true for no namespaces; otherwise
      true exactly when Connected was raised during the wait; on an open
      socket every namespace's Connect packet is sent, in order. */
  lemma ConnectToNamespacesOutcome(s: State, namespaces: seq<string>, answer: Option<string>, b: Core.Behaviour)
    requires s.engine.Some?
    ensures var r := ConnectToNamespaces(s, namespaces, answer, b);
            (!s.engine.value.isOpened ==> r == Outcome(s, Ok(false)))
            && (s.engine.value.isOpened && namespaces == [] ==> r == Outcome(s, Ok(true)))
            && (r.result.Ok? && s.engine.value.isOpened && namespaces != [] ==>
                  r.result.value == ConnectedSince(r.state.events, |s.events|))
            && (s.engine.value.isOpened && s.engine.value.socket.Some? && s.engine.value.socket.value.connected ==>
                  r.result.Ok? && r.state.engine.Some? && r.state.engine.value.socket.Some?
                  && r.state.engine.value.socket.value.sent == s.engine.value.socket.value.sent + ConnectMessages(namespaces))
  {
    var r := ConnectToNamespaces(s, namespaces, answer, b);
    if s.engine.value.isOpened && namespaces != [] {
      var sent := SendConnects(s, namespaces);
      if s.engine.value.socket.Some? && s.engine.value.socket.value.connected {
        assert sent.result.Ok? && sent.state.engine.value.socket.Some?
               && sent.state.engine.value.socket.value.sent == s.engine.value.socket.value.sent + ConnectMessages(namespaces) by {
          SendConnectsInOrder(s, namespaces);
        }
        if answer.Some? {
          assert r.state.engine.value.socket == sent.state.engine.value.socket by {
            ArriveSendsNothing(sent.state, answer, b);
          }
        }
      }
    }
  }

  /** `DisconnectAsync` on a live client with an open socket writes the
      Disconnect packet "41" and the Engine.IO close frame "1", and ends in
      Disconnected with the reason the transport gives. */
  lemma DisconnectFrames(s: State, reason: string, status: Option<int>, b: Core.Behaviour)
    requires s.engine.Some? && s.engine.value.timer.Some?
    requires s.engine.value.socket.Some? && s.engine.value.socket.value.connected
    ensures var r := Disconnect(s, reason, status, b);
            r.result.Ok? && r.state.engine.Some? && r.state.engine.value.socket.Some?
            && r.state.engine.value.socket.value.sent == s.engine.value.socket.value.sent + ["41", "1"]
            && !r.state.engine.value.isOpened && !r.state.engine.value.socket.value.connected
            && r.state.events == s.events + [Disconnected(reason, status)]
  {
    var sent := Send(s, DisconnectPrefix);
    assert sent.result.Ok? && sent.state.engine.value.socket.Some? && sent.state.engine.value.socket.value.connected
           && sent.state.engine.value.timer == s.engine.value.timer && sent.state.events == s.events
           && sent.state.engine.value.socket.value.sent == s.engine.value.socket.value.sent + ["41"] by {
      SendOnOpenSocket(s, DisconnectPrefix);
      assert "4" + DisconnectPrefix == "41";
    }
    var closed := Engine.Close(sent.state.engine.value, reason, status);
    assert closed.result.Ok? && closed.state.socket.value.sent == sent.state.engine.value.socket.value.sent + ["1"]
           && !closed.state.socket.value.connected && !closed.state.isOpened
           && closed.state.events == sent.state.engine.value.events + [EngineIoCore.SimpleEvent.Closed(reason, status)] by {
      Engine.OutboundFrames(sent.state.engine.value, reason, status, "");
    }
  }

  /** `ConnectAsync` returns true only after the server confirmed a
      namespace during the call, unless the session was already open and
      there was nothing to connect to. */
  lemma ConnectNeedsConfirmation(s: State, uri: Option<Handshake.Uri>, outcome: EngineIoCore.ConnectOutcome,
                                 handshake: Option<string>, greeting: Option<string>, namespaces: seq<string>,
                                 answer: Option<string>, b: Core.Behaviour)
    ensures var r := Connect(s, uri, outcome, handshake, greeting, namespaces, answer, b);
            r.result == Ok(true) ==>
              ConnectedSince(r.state.events, |s.events|)
              || (s.engine.Some? && s.engine.value.isOpened && Core.ConnectList(namespaces, s.defaultNamespace) == [])
  {
    var r := Connect(s, uri, outcome, handshake, greeting, namespaces, answer, b);
    var list := Core.ConnectList(namespaces, s.defaultNamespace);
    if s.engine.Some? && !s.engine.value.isOpened && r.result == Ok(true) {
      var attempt := OpenEngine(s, uri, outcome, handshake, b);
      var greeted := if greeting.None? || attempt.result != Ok(true) then attempt.state else Arrive(attempt.state, greeting, b);
      assert ConnectedSince(greeted.events, |s.events|);
      assert r == ConnectToNamespaces(greeted, list, answer, b);
      var i :| |s.events| <= i < |greeted.events| && greeted.events[i].Connected?;
      assert r.state.events[i] == greeted.events[i] by {
        ConnectToNamespacesKeepsEvents(greeted, list, answer, b);
      }
    }
  }

  /** Connecting to namespaces only appends events. */
  lemma ConnectToNamespacesKeepsEvents(s: State, namespaces: seq<string>, answer: Option<string>, b: Core.Behaviour)
    ensures var r := ConnectToNamespaces(s, namespaces, answer, b);
            |r.state.events| >= |s.events| && r.state.events[..|s.events|] == s.events
  {
    if s.engine.Some? && s.engine.value.isOpened && namespaces != [] {
      var sent := SendConnects(s, namespaces);
      if sent.result.Ok? && answer.Some? {
        var moved := sent.state;
        var next := Engine.Receive(moved.engine.value, answer, b.parse);
        if |next.events| > |moved.engine.value.events| {
          var e := next.events[|next.events| - 1];
          assert Relay(moved.(engine := Some(next)), e, b).events[..|s.events|] == s.events;
        }
      }
    }
  }

  /** Once disposed, every call that needs the Engine.IO client throws
      ObjectDisposedException and changes nothing, disposing again changes
      nothing, frames no longer arrive, and handlers can still be
      registered. */
  lemma DisposeIsFinal(s: State, uri: Option<Handshake.Uri>, outcome: EngineIoCore.ConnectOutcome,
                       handshake: Option<string>, greeting: Option<string>, namespaces: seq<string>,
                       answer: Option<string>, message: string, custom: Option<string>,
                       reason: string, status: Option<int>, text: Option<string>,
                       name: string, h: Core.Handler, typeName: string, b: Core.Behaviour)
    ensures var d := Disposed(s);
            Disposed(d) == d && d.events == s.events && d.actions == s.actions
            && Connect(d, uri, outcome, handshake, greeting, namespaces, answer, b) == Outcome(d, Err(ObjectDisposed("EngineIoClient")))
            && ConnectToNamespaces(d, namespaces, answer, b) == Outcome(d, Err(ObjectDisposed("EngineIoClient")))
            && (custom.Some? ==> ConnectToNamespace(d, custom, answer, b) == Outcome(d, Err(ObjectDisposed("EngineIoClient"))))
            && SendEvent(d, message, custom) == Outcome(d, Err(ObjectDisposed("EngineIoClient")))
            && Disconnect(d, reason, status, b) == Outcome(d, Err(ObjectDisposed("EngineIoClient")))
            && Arrive(d, text, b) == d
            && Core.Lookup(AddHandler(d, name, h, typeName, custom).actions, Core.OnKey(name, custom))
               == Core.Lookup(s.actions, Core.OnKey(name, custom)) + [Core.Entry(h, typeName)]
  {
  }

  /** The Socket.IO client.  `throws` and `deserialize` stand for the
      handlers' behaviour and the JSON deserializer of payloads. */
  class SocketIoClient {
    /** The Engine.IO client made by the constructor, and the field that
        holds it until it is disposed. */
    const created: Engine.EngineIoClient
    var engine: Engine.EngineIoClient?
    var defaultNamespace: Option<string>
    var actions: map<string, seq<Core.Entry>>
    var events: seq<ClientEvent>
    const throws: Core.Handler -> bool
    const deserialize: (string, string) -> EngineIoCore.Json<()>

    function Env(): Core.Behaviour {
      Core.Behaviour(created.framework, created.parse, throws, deserialize)
    }

    /** The Engine.IO client, while there is one, is the one the
        constructor made. */
    predicate Valid()
      reads this
    {
      engine == null || engine == created
    }

    function Snapshot(): State
      reads this, engine
    {
      State(if engine == null then None else Some(engine.Snapshot()), defaultNamespace, actions, events)
    }

    constructor(parse: string -> EngineIoCore.Json<EngineIoCore.OpenMessage>, throws: Core.Handler -> bool,
                deserialize: (string, string) -> EngineIoCore.Json<()>)
      ensures Valid() && Snapshot() == Initial
      ensures Env() == Core.Behaviour(Handshake.SocketIoFramework, parse, throws, deserialize)
    {
      created := new Engine.EngineIoClient(Handshake.SocketIoFramework, parse);
      engine := created;
      this.throws := throws;
      this.deserialize := deserialize;
      defaultNamespace := None;
      actions := map[];
      events := [];
    }

    /** `On<T>(name, Action<T?, string?>, ns)`; the other overloads pass
        their own type or `object`. */
    method OnTyped(name: string, h: Core.Handler, typeName: string, ns: Option<string>)
      requires Valid()
      modifies this
      ensures Valid() && Snapshot() == AddHandler(old(Snapshot()), name, h, typeName, ns)
    {
      var key := name + if ns.Some? then ns.value else "/";
      if key !in actions {
        actions := actions[key := []];
      }
      actions := actions[key := actions[key] + [Core.Entry(h, typeName)]];
    }

    /** `On(name, Action<string?>, ns)` and `On(name, Action, ns)`. */
    method On(name: string, h: Core.Handler, ns: Option<string>)
      requires Valid()
      modifies this
      ensures Valid() && Snapshot() == AddHandler(old(Snapshot()), name, h, Core.ObjectTypeName, ns)
    {
      OnTyped(name, h, Core.ObjectTypeName, ns);
    }

    /** The entries of an event, in registration order. */
    method InvokeEntries(es: seq<Core.Entry>, text: Option<string>)
      requires Valid()
      modifies this
      ensures Valid() && Snapshot() == old(Snapshot()).(events := old(events) + RunEntries(es, text, Env()))
    {
      ghost var start := events;
      for i := 0 to |es|
        invariant Valid()
        invariant Snapshot() == old(Snapshot()).(events := start + RunEntries(es[..i], text, Env()))
      {
        RunEntriesSnoc(start, es, i, text, Env());
        InvokeEntry(es[i], text);
      }
      assert es[..|es|] == es;
    }

    /** One entry: the text, if any, is deserialized to the entry's type
        first (a malformed text is reported instead), then the handler
        runs, and what it throws is reported. */
    method InvokeEntry(e: Core.Entry, text: Option<string>)
      requires Valid()
      modifies this
      ensures Valid() && Snapshot() == old(Snapshot()).(events := old(events) + EntryCall(e, text, Env()))
    {
      if text.None? {
        events := events + Call(e.handler, None, Env());
      } else if deserialize(text.value, e.typeName).Malformed? {
        events := events + [AfterException(Exceptions.Json)];
      } else {
        events := events + Call(e.handler, text, Env());
      }
    }

    /** The Event case of the message handler. */
    method DispatchEvent(value: string, ns: string)
      requires Valid()
      modifies this
      ensures Valid() && Snapshot() == HandleEvent(old(Snapshot()), value, ns, Env())
    {
      events := events + [AfterEvent(value, ns)];
      var values := SimpleSocketIoUtilities.GetEventValues(value);
      DispatchValues(values, value, ns);
    }

    /** The rest of the Event case, once the payload is split: the error
        is reported, or the entries under the name's key run, or the event
        is reported unhandled. */
    method DispatchValues(values: Result<seq<string>, Exception>, value: string, ns: string)
      requires Valid() && (values.Ok? ==> values.value != [])
      modifies this
      ensures Valid() && Snapshot() == old(Snapshot()).(events := old(events) + ValuesTail(old(actions), values, value, ns, Env()))
    {
      if values.Err? {
        events := events + [AfterException(values.error)];
        return;
      }
      var name := values.value[0];
      var text := if |values.value| > 1 then Some(values.value[1]) else None;
      var key := name + ns;
      assert key == Core.OnKey(name, Some(ns)) && text == TextOf(values.value);
      if key in actions {
        InvokeEntries(actions[key], text);
      } else {
        events := events + [AfterUnhandledEvent(value, ns)];
      }
    }

    /** `EngineIoClient_AfterMessage`, with the packet parsed inline. */
    method EngineMessageReceived(text: Option<string>)
      requires Valid()
      modifies this
      ensures Valid() && Snapshot() == Handle(old(Snapshot()), text, Env())
    {
      if text.None? {
        events := events + [AfterException(InvalidData(Core.NullMessage))];
        return;
      }
      var message := text.value;
      if |message| < 1 {
        return;
      }
      var prefix := message[..1];
      var ns := "/";
      var value := message[1..];
      if |message| > 1 && message[1] == '/' {
        var index := IndexOfChar(message, ',');
        if index.Some? && index.value < 1 {
          events := events + [AfterException(ArgumentOutOfRange)];
          return;
        }
        ns := if index.Some? then message[1..index.value] else message[1..];
        value := if index.Some? then message[index.value + 1..] else "";
      }
      if prefix == ConnectPrefix {
        events := events + [Connected(ns)];
      } else if prefix == DisconnectPrefix {
        events := events + [Disconnected(Core.ServerDisconnectReason, None)];
      } else if prefix == EventPrefix {
        DispatchEvent(value, ns);
      }
    }

    method EngineEvent(e: EngineIoCore.SimpleEvent)
      requires Valid()
      modifies this
      ensures Valid() && Snapshot() == Relay(old(Snapshot()), e, Env())
    {
      match e
      case AfterMessage(v) =>
        EngineMessageReceived(Some(v));
      case AfterException(x) =>
        events := events + [AfterException(x)];
      case Closed(reason, status) =>
        events := events + [Disconnected(reason, status)];
      case _ =>
    }

    /** After the Engine.IO client moved on from `start.engine`, the event it
        raised, if any, reaches the handlers attached to it. */
    method Forward(ghost start: State, before: nat)
      requires Valid() && engine != null && start.engine.Some?
      requires Snapshot() == start.(engine := Some(engine.Snapshot())) && before == |start.engine.value.events|
      modifies this
      ensures Valid() && engine != null && Snapshot() == AfterEngine(start, engine.Snapshot(), Env())
    {
      if |engine.events| > before {
        EngineEvent(engine.events[|engine.events| - 1]);
      }
    }

    method TextReceived(text: Option<string>)
      requires Valid()
      modifies this, engine
      ensures Valid() && Snapshot() == Arrive(old(Snapshot()), text, Env())
    {
      if engine == null {
        return;
      }
      ghost var start := Snapshot();
      var before := |engine.events|;
      engine.AfterText(text);
      Forward(start, before);
    }

    method TimerElapsed(reconnect: EngineIoCore.ConnectOutcome)
      requires Valid()
      modifies this, engine
      ensures Valid() && Snapshot() == Heartbeat(old(Snapshot()), reconnect, Env())
    {
      if engine == null {
        return;
      }
      ghost var start := Snapshot();
      var before := |engine.events|;
      var _ := engine.TimerElapsed(reconnect);
      Forward(start, before);
    }

    method EngineDisconnected(reason: string, status: Option<int>)
      requires Valid()
      modifies this, engine
      ensures Valid() && Snapshot() == TransportClosed(old(Snapshot()), reason, status, Env())
    {
      if engine == null {
        return;
      }
      ghost var start := Snapshot();
      var before := |engine.events|;
      engine.OnDisconnected(reason, status);
      Forward(start, before);
    }

    method SendEventAsync(message: string, custom: Option<string>) returns (result: Result<(), Exception>)
      requires Valid()
      modifies engine
      ensures Valid()
      ensures var r := SendEvent(old(Snapshot()), message, custom);
              Snapshot() == r.state && result == r.result
    {
      if engine == null {
        return Err(DisposedError);
      }
      var ns := if custom.Some? then custom else defaultNamespace;
      var body := if ns.None? then "" else "/" + TrimStart(ns.value, {'/'});
      body := body + if !IsBlank(body) && !IsBlank(message) then "," else "";
      result := engine.SendMessageAsync(EventPrefix + body + message);
    }

    method Emit(name: string, value: Core.EmitValue, custom: Option<string>) returns (result: Result<(), Exception>)
      requires Valid()
      modifies engine
      ensures Valid()
      ensures var r := Emission(old(Snapshot()), name, value, custom);
              Snapshot() == r.state && result == r.result
    {
      result := SendEventAsync(Core.EmitPayload(name, value), custom);
    }

    method DisconnectAsync(reason: string, status: Option<int>) returns (result: Result<(), Exception>)
      requires Valid()
      modifies this, engine
      ensures Valid()
      ensures var r := Disconnect(old(Snapshot()), reason, status, Env());
              Snapshot() == r.state && result == r.result
    {
      if engine == null {
        return Err(DisposedError);
      }
      result := engine.SendMessageAsync(DisconnectPrefix);
      if result.Err? {
        return;
      }
      ghost var start := Snapshot();
      var before := |engine.events|;
      result := engine.CloseAsync(reason, status);
      Forward(start, before);
    }

    /** The Connect packets, up to the first failure. */
    method SendConnectsAsync(namespaces: seq<string>) returns (result: Result<(), Exception>)
      requires Valid() && engine != null
      modifies engine
      ensures Valid() && engine != null
      ensures var r := SendConnects(old(Snapshot()), namespaces);
              Snapshot() == r.state && result == r.result
    {
      result := Ok(());
      for i := 0 to |namespaces|
        invariant Valid() && engine != null
        invariant var r := SendConnects(old(Snapshot()), namespaces[..i]);
                  Snapshot() == r.state && result == r.result && result.Ok?
      {
        assert namespaces[..i + 1][..i] == namespaces[..i];
        result := engine.SendMessageAsync(ConnectPrefix + "/" + TrimStart(namespaces[i], {'/'}));
        if result.Err? {
          SendConnectsStops(old(Snapshot()), namespaces, i + 1);
          return;
        }
      }
      assert namespaces[..|namespaces|] == namespaces;
    }

    method ConnectToNamespacesAsync(namespaces: seq<string>, answer: Option<string>)
      returns (result: Result<bool, Exception>)
      requires Valid()
      modifies this, engine
      ensures Valid()
      ensures var r := ConnectToNamespaces(old(Snapshot()), namespaces, answer, Env());
              Snapshot() == r.state && result == r.result
    {
      if engine == null {
        return Err(DisposedError);
      }
      if !engine.isOpened {
        return Ok(false);
      }
      if namespaces == [] {
        return Ok(true);
      }
      var start := |events|;
      var sent := SendConnectsAsync(namespaces);
      if sent.Err? {
        return Err(sent.error);
      }
      if answer.Some? {
        TextReceived(answer);
      }
      return Ok(ConnectedSince(events, start));
    }

    method ConnectToNamespaceAsync(custom: Option<string>, answer: Option<string>)
      returns (result: Result<bool, Exception>)
      requires Valid()
      modifies this, engine
      ensures Valid()
      ensures var r := ConnectToNamespace(old(Snapshot()), custom, answer, Env());
              Snapshot() == r.state && result == r.result
    {
      if custom.None? {
        return Err(ArgumentNull("customNamespace"));
      }
      if engine == null {
        return Err(DisposedError);
      }
      result := ConnectToNamespacesAsync([custom.value], answer);
    }

    method OpenEngineAsync(uri: Option<Handshake.Uri>, outcome: EngineIoCore.ConnectOutcome, handshake: Option<string>)
      returns (result: Result<bool, Exception>)
      requires Valid() && engine != null
      modifies this, engine
      ensures Valid() && engine != null
      ensures var r := OpenEngine(old(Snapshot()), uri, outcome, handshake, Env());
              Snapshot() == r.state && result == r.result
    {
      ghost var start := Snapshot();
      var before := |engine.events|;
      result := engine.OpenAsync(uri, outcome, handshake);
      Forward(start, before);
    }

    method ConnectAsync(uri: Option<Handshake.Uri>, outcome: EngineIoCore.ConnectOutcome,
                        handshake: Option<string>, greeting: Option<string>, namespaces: seq<string>,
                        answer: Option<string>)
      returns (result: Result<bool, Exception>)
      requires Valid()
      modifies this, engine
      ensures Valid()
      ensures var r := Connect(old(Snapshot()), uri, outcome, handshake, greeting, namespaces, answer, Env());
              Snapshot() == r.state && result == r.result
    {
      if engine == null {
        return Err(DisposedError);
      }
      result := ConnectLiveAsync(uri, outcome, handshake, greeting, namespaces, answer);
    }

    /** `ConnectAsync` past the check for a disposed client. */
    method ConnectLiveAsync(uri: Option<Handshake.Uri>, outcome: EngineIoCore.ConnectOutcome,
                            handshake: Option<string>, greeting: Option<string>, namespaces: seq<string>,
                            answer: Option<string>)
      returns (result: Result<bool, Exception>)
      requires Valid() && engine != null
      modifies this, engine
      ensures Valid()
      ensures var r := Connect(old(Snapshot()), uri, outcome, handshake, greeting, namespaces, answer, Env());
              Snapshot() == r.state && result == r.result
    {
      var list := Core.ConnectList(namespaces, defaultNamespace);
      ConnectSteps(Snapshot(), uri, outcome, handshake, greeting, namespaces, answer, Env());
      if !engine.isOpened {
        var start := |events|;
        var attempt := OpenEngineAsync(uri, outcome, handshake);
        if attempt.Err? {
          return Err(attempt.error);
        }
        if greeting.Some? && attempt == Ok(true) {
          TextReceived(greeting);
        }
        if !ConnectedSince(events, start) {
          return Ok(false);
        }
      }
      result := ConnectToNamespacesAsync(list, answer);
    }

    method DisposeAsync()
      requires Valid()
      modifies this, engine
      ensures Valid() && Snapshot() == Disposed(old(Snapshot()))
    {
      if engine != null {
        engine.Dispose();
        engine := null;
      }
    }

    method Dispose()
      requires Valid()
      modifies this, engine
      ensures Valid() && Snapshot() == Disposed(old(Snapshot()))
    {
      if engine != null {
        engine.Dispose();
      }
      engine := null;
    }
  }

  /** `Connect` on a live client, step by step. */
  lemma ConnectSteps(s: State, uri: Option<Handshake.Uri>, outcome: EngineIoCore.ConnectOutcome,
                     handshake: Option<string>, greeting: Option<string>, namespaces: seq<string>,
                     answer: Option<string>, b: Core.Behaviour)
    requires s.engine.Some?
    ensures var list := Core.ConnectList(namespaces, s.defaultNamespace);
            var attempt := OpenEngine(s, uri, outcome, handshake, b);
            var greeted := if greeting.None? || attempt.result != Ok(true) then attempt.state else Arrive(attempt.state, greeting, b);
            Connect(s, uri, outcome, handshake, greeting, namespaces, answer, b)
            == if s.engine.value.isOpened then ConnectToNamespaces(s, list, answer, b)
               else if attempt.result.Err? then Outcome(attempt.state, Err(attempt.result.error))
               else if !ConnectedSince(greeted.events, |s.events|) then Outcome(greeted, Ok(false))
               else ConnectToNamespaces(greeted, list, answer, b)
  {
  }

  /** Once a Connect packet fails, the later ones are not sent. */
  lemma {:induction false} SendConnectsStops(s: State, namespaces: seq<string>, n: nat)
    requires s.engine.Some? && n <= |namespaces|
    requires SendConnects(s, namespaces[..n]).result.Err?
    ensures SendConnects(s, namespaces) == SendConnects(s, namespaces[..n])
    decreases |namespaces| - n
  {
    if n < |namespaces| {
      var longer := namespaces[..n + 1];
      assert longer[..|longer| - 1] == namespaces[..n];
      SendConnectsStops(s, namespaces, n + 1);
    } else {
      assert namespaces[..n] == namespaces;
    }
  }
}
