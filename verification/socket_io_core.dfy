/** What the three Socket.IO client revisions share: handler registries
    keyed by event name and namespace, the array `Emit` writes, the
    namespace list `ConnectAsync` asks for, and the Socket.IO packets the
    current revisions send through Engine.IO. */
module SocketIoCore {
  import opened Wrappers
  import opened Exceptions
  import opened Text
  import opened SimpleSocketIoUtilities
  import SocketIoUtilities
  import SocketIoPacket
  import EngineIoCore

  /** A user-supplied event handler, known only by its identity. */
  type Handler = nat

  /** What the model leaves abstract: the JSON deserializer of the
      Engine.IO open message, whether a handler throws, and the JSON
      deserializer of event payloads for a registered target type. */
  datatype Behaviour = Behaviour(
    framework: string,
    parse: string -> EngineIoCore.Json<EngineIoCore.OpenMessage>,
    throws: Handler -> bool,
    deserialize: (string, string) -> EngineIoCore.Json<()>)

  /** The reason reported when the server sends a Disconnect packet. */
  const ServerDisconnectReason: string := "Received disconnect message from server"

  /** The message of the Engine.IO message that is null. */
  const NullMessage: string := "Engine.IO message is null"

  /** `GetOnKey` and its inline copies: the event name followed by the
      namespace, "/" when none is given. */
  function OnKey(name: string, ns: Option<string>): string {
    name + ns.GetOr(SocketIoPacket.DefaultNamespace)
  }

  /** Within one namespace, keys tell event names apart; and leaving the
      namespace out is the same as naming "/". */
  lemma OnKeySeparatesNames(a: string, b: string, ns: Option<string>)
    ensures OnKey(a, ns) == OnKey(b, ns) <==> a == b
    ensures OnKey(a, None) == OnKey(a, Some("/"))
  {
    var suffix := ns.GetOr(SocketIoPacket.DefaultNamespace);
    if OnKey(a, ns) == OnKey(b, ns) {
      assert |a| == |b|;
      assert a == OnKey(a, ns)[..|a|] == OnKey(b, ns)[..|b|] == b;
    }
  }

  /** The handlers registered under a key; none when the key is absent. */
  function Lookup<T>(m: map<string, seq<T>>, key: string): seq<T> {
    if key in m then m[key] else []
  }

  /** `if (!X.ContainsKey(key)) X[key] = new List(); X[key].Add(handler)`. */
  function Register<T>(m: map<string, seq<T>>, key: string, x: T): (r: map<string, seq<T>>)
    ensures r.Keys == m.Keys + {key}
    ensures Lookup(r, key) == Lookup(m, key) + [x]
    ensures forall k :: k != key ==> Lookup(r, k) == Lookup(m, k)
  {
    m[key := Lookup(m, key) + [x]]
  }

  /** Every key present holds at least one handler. */
  predicate NoEmptyLists<T>(m: map<string, seq<T>>) {
    forall key :: key in m ==> m[key] != []
  }

  /** Registration keeps every list non-empty, so a key is present exactly
      when something is registered under it. */
  lemma RegisterKeepsListsNonEmpty<T>(m: map<string, seq<T>>, key: string, x: T)
    requires NoEmptyLists(m)
    ensures NoEmptyLists(Register(m, key, x))
    ensures forall k :: k in Register(m, key, x) <==> Lookup(Register(m, key, x), k) != []
  {
  }

  /** Registering handlers one after the other lists them under their key
      in registration order. */
  function RegisterAll<T>(m: map<string, seq<T>>, key: string, xs: seq<T>): map<string, seq<T>>
    decreases |xs|
  {
    if xs == [] then m else Register(RegisterAll(m, key, xs[..|xs| - 1]), key, xs[|xs| - 1])
  }

  lemma {:induction false} RegisterAllInOrder<T>(m: map<string, seq<T>>, key: string, xs: seq<T>)
    ensures Lookup(RegisterAll(m, key, xs), key) == Lookup(m, key) + xs
    ensures forall k :: k != key ==> Lookup(RegisterAll(m, key, xs), k) == Lookup(m, k)
    decreases |xs|
  {
    if xs != [] {
      RegisterAllInOrder(m, key, xs[..|xs| - 1]);
      assert xs == xs[..|xs| - 1] + [xs[|xs| - 1]];
    }
  }

  /** The value given to `Emit`: null, a string, or any other object, which
      is given here by its JSON serialization. */
  datatype EmitValue = NoValue | Text(text: string) | Serialized(json: string)

  /** The items of the array `Emit` sends. */
  function EmitItems(name: string, value: EmitValue): (r: seq<string>)
    ensures |r| > 0 && r[0] == Quoted(name)
  {
    match value
    case NoValue => [Quoted(name)]
    case Text(message) => [Quoted(name), Quoted(message)]
    case Serialized(json) => [Quoted(name), json]
  }

  /** `$"[{string.Join(",", messages)}]"`. */
  function EmitPayload(name: string, value: EmitValue): string {
    "[" + Join(EmitItems(name, value), ',') + "]"
  }

  /** Text that both splitters give back unchanged: no comma, no brace and
      neither end a quote. */
  predicate Bare(s: string) {
    Plain(s) && '{' !in s && '}' !in s
  }

  lemma QuotedItems(items: seq<string>, values: seq<string>)
    requires |items| == |values|
    requires forall k :: 0 <= k < |items| ==> Bare(values[k]) && items[k] == Quoted(values[k])
    ensures forall k :: 0 <= k < |items| ==> ',' !in items[k] && SocketIoUtilities.Depth(items[k]) == 0
    ensures TrimQuotes(items) == values
  {
    forall k | 0 <= k < |items|
      ensures ',' !in items[k] && SocketIoUtilities.Depth(items[k]) == 0
      ensures TrimQuotes(items)[k] == values[k]
    {
      QuotedShape(values[k]);
      SocketIoUtilities.DepthWithoutBraces(items[k]);
    }
  }

  /** What `Emit` sends without a value, or with a string, is split by both
      array splitters back into the event name and the string. */
  lemma {:induction false} EmitRoundTrip(name: string, value: EmitValue)
    requires Bare(name)
    requires value.NoValue? || (value.Text? && Bare(value.text))
    ensures var values := if value.NoValue? then [name] else [name, value.text];
            SocketIoUtilities.JsonArrayValues(EmitPayload(name, value)) == Ok(values)
            && GetEventValues(EmitPayload(name, value)) == Ok(values)
  {
    var items := EmitItems(name, value);
    var values := if value.NoValue? then [name] else [name, value.text];
    QuotedItems(items, values);
    assert items[0][0] == '"';
    assert items[|items| - 1][|items[|items| - 1]| - 1] == '"';
    SocketIoUtilities.BalancedArrayValues("[", items, "]");
    ArrayValues(items);
  }

  /** The argument a receiver reads from an emitted event: the string, or
      the serialized JSON text. */
  function Carried(value: EmitValue): (r: Option<string>)
    ensures r.None? <==> value.NoValue?
  {
    match value
    case NoValue => None
    case Text(message) => Some(message)
    case Serialized(json) => Some(json)
  }

  /** The event name followed by the argument, if any. */
  function EmitValues(name: string, value: EmitValue): seq<string> {
    [name] + if value.NoValue? then [] else [Carried(value).value]
  }

  /** A JSON object with no object inside it. */
  predicate FlatObject(o: string) {
    |o| >= 2 && o[0] == '{' && o[|o| - 1] == '}'
    && forall i :: 1 <= i < |o| - 1 ==> o[i] != '{' && o[i] != '}'
  }

  /** The values the brace-counting splitter gives back whole: a bare
      string, or a serialized flat object. */
  predicate KeptWhole(value: EmitValue) {
    match value
    case NoValue => true
    case Text(message) => Bare(message)
    case Serialized(json) => FlatObject(json)
  }

  /** The values the comma splitter of the first revision gives back
      whole: a bare string, or serialized JSON without a comma, neither end
      a quote, ending in no bracket. */
  predicate KeptPlain(value: EmitValue) {
    match value
    case NoValue => true
    case Text(message) => Bare(message)
    case Serialized(json) => Plain(json) && json != [] && json[|json| - 1] !in Brackets
  }

  /** The brace-counting splitter gives back the name and a serialized flat
      object, commas and all. */
  lemma EmitObjectRoundTrip(name: string, json: string)
    requires Bare(name) && FlatObject(json)
    ensures SocketIoUtilities.JsonArrayValues(EmitPayload(name, Serialized(json))) == Ok([name, json])
  {
    var first := Quoted(name);
    QuotedShape(name);
    QuotedWithout(name, '{');
    QuotedWithout(name, '}');
    assert Join(EmitItems(name, Serialized(json)), ',') == first + "," + json;
    assert EmitPayload(name, Serialized(json)) == "[" + (first + "," + json) + "]";
    SocketIoUtilities.ArrayWithFlatObject(first, json);
    var r := SocketIoUtilities.JsonArrayValues(EmitPayload(name, Serialized(json)));
    assert r.value == [name, json];
  }

  /** The comma splitter gives back the name and a serialized text that
      holds no comma. */
  lemma EmitPlainJsonRoundTrip(name: string, json: string)
    requires Bare(name) && Plain(json) && json != [] && json[|json| - 1] !in Brackets
    ensures GetEventValues(EmitPayload(name, Serialized(json))) == Ok([name, json])
  {
    var items := EmitItems(name, Serialized(json));
    QuotedShape(name);
    ArrayValues(items);
    TrimSurrounded("", json, "", Quotes);
    assert "" + json + "" == json;
    assert TrimQuotes(items) == [name, json];
  }

  /** Every value the brace-counting splitter keeps whole comes back as
      the name and the argument. */
  lemma EmitKeptWhole(name: string, value: EmitValue)
    requires Bare(name) && KeptWhole(value)
    ensures SocketIoUtilities.JsonArrayValues(EmitPayload(name, value)) == Ok(EmitValues(name, value))
  {
    if value.Serialized? {
      EmitObjectRoundTrip(name, value.json);
      assert EmitValues(name, value) == [name, value.json];
    } else {
      EmitRoundTrip(name, value);
      assert EmitValues(name, value) == if value.NoValue? then [name] else [name, value.text];
    }
  }

  /** Every value the comma splitter keeps whole comes back as the name and
      the argument. */
  lemma EmitKeptPlain(name: string, value: EmitValue)
    requires Bare(name) && KeptPlain(value)
    ensures GetEventValues(EmitPayload(name, value)) == Ok(EmitValues(name, value))
  {
    if value.Serialized? {
      EmitPlainJsonRoundTrip(name, value.json);
      assert EmitValues(name, value) == [name, value.json];
    } else {
      EmitRoundTrip(name, value);
      assert EmitValues(name, value) == if value.NoValue? then [name] else [name, value.text];
    }
  }

  /** In the single-registry revisions, a registered handler with the type
      its payload is deserialized to; the text and no-argument overloads
      register with `object`. */
  datatype Entry = Entry(handler: Handler, typeName: string)

  const ObjectTypeName: string := "object"

  /** The handlers that get called: all of them without text, otherwise
      those whose type the deserializer does not reject. */
  function Called(es: seq<Entry>, text: Option<string>, b: Behaviour): seq<Handler>
    decreases |es|
  {
    if es == [] then []
    else
      var e := es[|es| - 1];
      Called(es[..|es| - 1], text, b)
      + if text.None? || !b.deserialize(text.value, e.typeName).Malformed? then [e.handler] else []
  }

  /** Without text every registered handler is called. */
  lemma {:induction false} CalledWithoutText(es: seq<Entry>, b: Behaviour)
    ensures |Called(es, None, b)| == |es|
    ensures forall i :: 0 <= i < |es| ==> Called(es, None, b)[i] == es[i].handler
    decreases |es|
  {
    if es != [] {
      CalledWithoutText(es[..|es| - 1], b);
    }
  }

  /** `Distinct()`: each element once, at its first occurrence. */
  function Distinct(xs: seq<string>): (r: seq<string>)
    ensures forall x :: x in r <==> x in xs
    ensures forall i, j :: 0 <= i < j < |r| ==> r[i] != r[j]
    ensures (forall i, j :: 0 <= i < j < |xs| ==> xs[i] != xs[j]) ==> r == xs
    decreases |xs|
  {
    if xs == [] then []
    else
      var init := xs[..|xs| - 1];
      var last := xs[|xs| - 1];
      assert xs == init + [last];
      var rest := Distinct(init);
      if last in rest then rest else rest + [last]
  }

  /** The position where `x` first occurs in `xs`. */
  function FirstIndex(xs: seq<string>, x: string): (k: nat)
    requires x in xs
    ensures k < |xs| && xs[k] == x && x !in xs[..k]
  {
    if xs[0] == x then 0
    else
      var k := FirstIndex(xs[1..], x);
      assert xs[..k + 1] == [xs[0]] + xs[1..][..k];
      k + 1
  }

  /** Appending an element moves no first occurrence of what was there. */
  lemma FirstIndexSnoc(init: seq<string>, last: string, x: string)
    requires x in init
    ensures FirstIndex(init + [last], x) == FirstIndex(init, x)
  {
    var xs := init + [last];
    var b := FirstIndex(init, x);
    assert xs[b] == x && xs[..b] == init[..b];
  }

  /** `Distinct` keeps the names in the order of their first occurrences. */
  lemma {:induction false} DistinctInFirstOrder(xs: seq<string>)
    ensures forall i, j :: 0 <= i < j < |Distinct(xs)| ==> FirstIndex(xs, Distinct(xs)[i]) < FirstIndex(xs, Distinct(xs)[j])
    decreases |xs|
  {
    if xs != [] {
      var init := xs[..|xs| - 1];
      var last := xs[|xs| - 1];
      assert xs == init + [last];
      var rest := Distinct(init);
      DistinctInFirstOrder(init);
      forall y | y in init
        ensures FirstIndex(xs, y) == FirstIndex(init, y)
      {
        FirstIndexSnoc(init, last, y);
      }
      if last !in rest {
        assert FirstIndex(xs, last) == |xs| - 1;
      }
    }
  }

  /** The namespaces `ConnectAsync` requests: the given ones, plus the
      default namespace when one is set, without duplicates. */
  function ConnectList(namespaces: seq<string>, defaultNamespace: Option<string>): seq<string> {
    if defaultNamespace.Some? then Distinct(namespaces + [defaultNamespace.value]) else namespaces
  }

  /** Without a default namespace the list is passed on as given; with one,
      every given namespace and the default one are requested exactly once,
      and a duplicate-free list that lacks the default gets it at the end. */
  lemma ConnectListContents(namespaces: seq<string>, defaultNamespace: Option<string>)
    ensures defaultNamespace.None? ==> ConnectList(namespaces, defaultNamespace) == namespaces
    ensures defaultNamespace.Some? ==>
              var r := ConnectList(namespaces, defaultNamespace);
              defaultNamespace.value in r
              && (forall x :: x in r <==> x in namespaces || x == defaultNamespace.value)
              && (forall i, j :: 0 <= i < j < |r| ==> r[i] != r[j])
    ensures defaultNamespace.Some? && defaultNamespace.value !in namespaces
            && (forall i, j :: 0 <= i < j < |namespaces| ==> namespaces[i] != namespaces[j])
            ==> ConnectList(namespaces, defaultNamespace) == namespaces + [defaultNamespace.value]
  {
    if defaultNamespace.Some? {
      var xs := namespaces + [defaultNamespace.value];
      assert xs[|xs| - 1] == defaultNamespace.value;
    }
  }

  /** The Connect packet for a namespace, as the current revisions encode
      it. */
  function ConnectFrame(ns: string): string {
    SocketIoPacket.Encode(SocketIoPacket.Create(SocketIoPacket.Prefix(SocketIoPacket.Connect), None, Some(ns)))
  }

  /** The Disconnect packet, for a namespace or for the default one. */
  function DisconnectFrame(ns: Option<string>): string {
    SocketIoPacket.Encode(SocketIoPacket.Create(SocketIoPacket.Prefix(SocketIoPacket.Disconnect), None, ns))
  }

  /** The Event packet carrying a payload to a namespace. */
  function EventFrame(message: string, ns: Option<string>): string {
    SocketIoPacket.Encode(SocketIoPacket.Create(SocketIoPacket.Prefix(SocketIoPacket.Event), Some(message), ns))
  }

  /** The frames spelled out: "0/my" to connect to "/my", "1" to leave the
      default namespace, "1/my" to leave "/my", and an event in the default
      namespace is "2" followed by the payload. */
  lemma FramesSpelledOut(message: string)
    ensures ConnectFrame("/my") == "0/my"
    ensures DisconnectFrame(None) == "1" && DisconnectFrame(Some("/")) == "1"
    ensures DisconnectFrame(Some("/my")) == "1/my"
    ensures EventFrame(message, None) == "2" + message
  {
    SocketIoPacket.TrimStartCanonical("/my");
    SocketIoPacket.NamespaceBodyShape("/my");
  }

  /** An event sent to a namespace is read back by the receiving side as
      the same namespace and payload, for every namespace and payload the
      packet format can carry. */
  lemma EventFrameDecodes(message: string, ns: Option<string>)
    requires SocketIoPacket.RoundTrips(SocketIoPacket.Create("2", Some(message), ns))
    ensures SocketIoPacket.Decode(EventFrame(message, ns))
            == Ok(SocketIoPacket.Packet("2", ns.GetOr("/"), message))
  {
    SocketIoPacket.DecodeEncoded(SocketIoPacket.Create("2", Some(message), ns));
  }

  /** The events of the current revisions' Socket.IO client; `Invoked`
      records a handler being called with the text it received. */
  datatype SocketEvent =
    | Connected(ns: string)
    | Disconnected(reason: string, status: Option<int>)
    | EventReceived(value: string, ns: string, isHandled: bool)
    | HandledEventReceived(value: string, ns: string)
    | UnhandledEventReceived(value: string, ns: string)
    | ErrorReceived(value: string, ns: string)
    | ExceptionOccurred(error: Exception)
    | Invoked(handler: Handler, text: Option<string>)

  /** Whether a Connected event was raised at or after position `from`. */
  predicate ConnectedSince(events: seq<SocketEvent>, from: nat) {
    exists i :: from <= i < |events| && events[i].Connected?
  }

  /** The first ErrorReceived value raised at or after position `from`. */
  function ErrorSince(events: seq<SocketEvent>, from: nat): Option<string>
    decreases |events| - from
  {
    if from >= |events| then None
    else if events[from].ErrorReceived? then Some(events[from].value)
    else ErrorSince(events, from + 1)
  }

  /** The message of the exception `ConnectAsync` throws when the server
      answers with an Error packet. */
  const ServerErrorMessage: string := "Socket.IO returns error: "

  /** `OnEventReceived`: EventReceived, then HandledEventReceived or
      UnhandledEventReceived. */
  function Concluded(value: string, ns: string, isHandled: bool): seq<SocketEvent> {
    [EventReceived(value, ns, isHandled),
     if isHandled then HandledEventReceived(value, ns) else UnhandledEventReceived(value, ns)]
  }

  /** A handler called with a text: it runs, and what it throws is
      reported. */
  function Call(h: Handler, text: Option<string>, b: Behaviour): seq<SocketEvent> {
    [Invoked(h, text)] + if b.throws(h) then [ExceptionOccurred(HandlerFailed(h))] else []
  }

  /** Events that belong to the conclusion of an event packet. */
  predicate Concluding(e: SocketEvent) {
    e.EventReceived? || e.HandledEventReceived? || e.UnhandledEventReceived?
  }

  /** Appending a run of three pieces is appending them one by one. */
  lemma AppendThree<T>(start: seq<T>, x: seq<T>, y: seq<T>, z: seq<T>)
    ensures start + (x + y + z) == start + x + y + z
  {
  }

  /** A run of events none of which concludes an event packet. */
  predicate Quiet(events: seq<SocketEvent>) {
    forall i :: 0 <= i < |events| ==> !Concluding(events[i])
  }

  /** Two runs that conclude nothing conclude nothing together. */
  lemma QuietAppend(a: seq<SocketEvent>, b: seq<SocketEvent>)
    requires Quiet(a) && Quiet(b)
    ensures Quiet(a + b)
  {
    forall i | 0 <= i < |a + b|
      ensures !Concluding((a + b)[i])
    {
      if i >= |a| {
        assert (a + b)[i] == b[i - |a|];
      }
    }
  }

  /** A call records exactly its handler and concludes nothing. */
  lemma CallShape(h: Handler, text: Option<string>, b: Behaviour)
    ensures InvokedHandlers(Call(h, text, b)) == [h]
    ensures Quiet(Call(h, text, b))
  {
    var c := Call(h, text, b);
    var head: seq<SocketEvent> := [Invoked(h, text)];
    assert head[..0] == [];
    assert InvokedHandlers(head) == [h];
    if b.throws(h) {
      assert c[..1] == head;
    } else {
      assert c == head;
    }
  }

  /** A conclusion records no handler. */
  lemma ConcludedInvokesNothing(value: string, ns: string, isHandled: bool)
    ensures InvokedHandlers(Concluded(value, ns, isHandled)) == []
  {
    var c := Concluded(value, ns, isHandled);
    var head := [c[0]];
    assert head[..0] == [];
    assert InvokedHandlers(head) == [];
    assert c[..1] == head;
  }

  /** The handlers a sequence of events says were called, in order. */
  function InvokedHandlers(events: seq<SocketEvent>): seq<Handler>
    decreases |events|
  {
    if events == [] then []
    else
      var last := events[|events| - 1];
      InvokedHandlers(events[..|events| - 1]) + if last.Invoked? then [last.handler] else []
  }

  lemma {:induction false} InvokedHandlersAppend(a: seq<SocketEvent>, b: seq<SocketEvent>)
    ensures InvokedHandlers(a + b) == InvokedHandlers(a) + InvokedHandlers(b)
    decreases |b|
  {
    if b == [] {
      assert a + b == a;
    } else {
      var init := b[..|b| - 1];
      assert (a + b)[..|a + b| - 1] == a + init;
      InvokedHandlersAppend(a, init);
    }
  }
}
