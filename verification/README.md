# Engine.IO 3 and Socket.IO clients of H.Socket.IO, modelled in Dafny

This project models the protocol core of the H.Socket.IO client library.
The library is an Engine.IO revision 3 client (the handshake URI carries
`EIO=3&transport=websocket`). A Socket.IO client sits on top of it and
speaks the Socket.IO packet format used with Engine.IO 3. The repository
keeps several historical revisions of the same classes. They differ in
small but visible ways, so each revision is its own module here.

Modules:

- `EngineIoPacket`: the Engine.IO packet codec. A frame is a one-character
  prefix followed by a value. The two copies of the class (src/H.Engine.IO
  and H.EngineIO) have the same code, and one module models both.
- `SocketIoPacket`: the Socket.IO packet codec. A packet is a prefix, an
  optional `/namespace`, an optional `,`, then the payload.
- `SocketIoUtilities`: `GetJsonArrayValues` (src/H.Socket.IO), which splits
  an event array at the commas where the brace depth is zero. It is a
  method with the original loop, proved against the function
  `JsonArrayValues`.
- `SimpleSocketIoUtilities`: `GetEventValues`, which splits at every comma.
- `StringExtensions`: `Extract`, the text between two markers.
- `Handshake`: the rewrite of the server address into the WebSocket
  handshake address (`ToWebSocketUri`, and the older inline form that
  drops the path).
- `EngineIoCore`: what the five Engine.IO client revisions share:
  - the heartbeat timer and its `Interval` setter, which rejects values
    that are not positive;
  - the WebSocket transport, as a `connected` flag, a log of sent frames
    and the last address it connected to;
  - the three outbound frames `"2ping"`, `"1"` and `"4" + message`.
- `EngineIoClientLibs`, `EngineIoClientSrc`, `EngineIoClientH`,
  `EngineIoClientSimple`, `EngineIoClientSimpleRoot`: the five Engine.IO
  client revisions. Each is a class whose fields the source updates in
  place. Each method is proved equal to a step function on a `State`
  value, and the lemmas about those step functions state the protocol:
  which frame does what to `IsOpened`, the open message and the heartbeat
  timer, and which frames are sent.
- `SocketIoCore`: what the three Socket.IO client revisions share:
  - handler registries keyed by `name + namespace`;
  - the `Emit` payload;
  - the namespace list that `ConnectAsync` requests;
  - a handler run, modelled as an entry that may throw or need a
    deserialised value.
- `SocketIoClientLibs`, `SocketIoClientH`, `SocketIoClientSimple`: the
  three Socket.IO client revisions.
  - Each is a class holding its registries and its Engine.IO client.
  - Inbound dispatch, outbound framing, namespace connection,
    disconnection and disposal are proved against step functions.
  - Step functions of the Engine.IO client are passed through and their
    events relayed.
  - Each runs over the Engine.IO revision shipped beside it:
    `SocketIoClientLibs` over `EngineIoClientLibs`, `SocketIoClientH` over
    `EngineIoClientH`, and `SocketIoClientSimple` over
    `EngineIoClientSimple`. The libs Socket.IO client reads message events
    as `DataEventArgs<string>` (src/libs/H.Socket.IO/SocketIoClient.cs:148),
    while the libs Engine.IO client raises generated event arguments; the
    model joins them on the message text. `EngineIoClientSrc` and
    `EngineIoClientSimpleRoot` have no Socket.IO client over them.
- `Text`, `Wrappers`, `Exceptions`: the .NET string operations the code
  relies on (`Trim`, `TrimStart`, `TrimEnd`, `IsNullOrWhiteSpace`,
  `IndexOf`, `Split`, `SplitByIndexes`), `Option`/`Result`, and the
  exceptions the code throws or reports.

The environment enters the model as parameters:

- The JSON library is a function-typed parameter. `parse` decodes the open
  message. `deserialize` turns a payload into a handler argument.
  `throws` says whether a handler throws.
- The outcome of a WebSocket connect is a parameter.
- The frame a wait observes is a parameter. `None` stands for a
  cancelled wait.
- `System.Uri` is a record of scheme, host, port, path and query.

## Model

| member | source | states |
|---|---|---|
| EngineIoPacket.Prefix | src/H.Engine.IO/EngineIoPacket.cs:15-45 | every packet type has a one-character prefix between "0" and "6" |
| EngineIoPacket.TypeOf | src/H.Engine.IO/EngineIoPacket.cs:15-45 | a recognised prefix is the prefix of the type found; an unrecognised one is the prefix of no type |
| EngineIoPacket.PrefixesDistinct | src/H.Engine.IO/EngineIoPacket.cs:15-45 | two packet types with the same prefix are the same type |
| EngineIoPacket.Create | src/H.Engine.IO/EngineIoPacket.cs:70-74 | the constructor keeps the prefix and turns a missing value into "" |
| EngineIoPacket.Decode | src/H.Engine.IO/EngineIoPacket.cs:85-91 | decoding fails exactly on the empty message; otherwise the prefix is one character and prefix followed by value is the whole message |
| EngineIoPacket.EncodeDecoded | src/H.Engine.IO/EngineIoPacket.cs:85-100 | encoding a decoded non-empty message gives the message back |
| EngineIoPacket.DecodeEncoded | H.EngineIO/EngineIoPacket.cs:38-49 | decoding an encoded packet with a one-character prefix gives the packet back |
| EngineIoPacket.WellKnownFrames | src/H.Engine.IO/EngineIoPacket.cs:97-100 | a Close packet without value encodes to "1", a ping to "2ping", a message to "4" followed by the message |
| EngineIoPacket.OpenFixture | src/tests/H.Engine.IO.UnitTests/EngineIoPacketTests.cs:53 | the open frame of the unit test decodes to prefix "0" and the JSON handshake as value |
| EngineIoPacket.MessageFixtures | src/tests/H.Engine.IO.UnitTests/EngineIoPacketTests.cs:54-58 | the remaining unit-test frames decode to the packets the test expects |
| SocketIoPacket.Prefix | src/H.Socket.IO/SocketIoPacket.cs:10-14 | the four packet types have the one-character prefixes "0", "1", "2" and "4" |
| SocketIoPacket.TypeOf | src/H.Socket.IO/SocketIoPacket.cs:10-14 | a recognised prefix is the prefix of the type found; an unrecognised one is the prefix of no type |
| SocketIoPacket.Create | src/H.Socket.IO/SocketIoPacket.cs:32-37 | a missing namespace becomes "/" and a missing value becomes "" |
| SocketIoPacket.Decode | src/H.Socket.IO/SocketIoPacket.cs:43-60 | decoding fails exactly on the empty message and on a namespace that starts at a comma; without a '/' after the prefix the namespace is "/" and the value is the rest; with one, the namespace runs to the first comma and the value follows it, or the namespace is the whole rest and the value is "" |
| SocketIoPacket.NamespaceBodyShape | src/H.Socket.IO/SocketIoPacket.cs:64-66 | the namespace segment is empty exactly for the default namespace, and otherwise starts with exactly one '/' |
| SocketIoPacket.EncodeDefaultNamespace | src/H.Socket.IO/SocketIoPacket.cs:62-72 | a packet in the default namespace encodes to prefix followed by value |
| SocketIoPacket.EncodeNamedNamespace | src/H.Socket.IO/SocketIoPacket.cs:62-72 | a packet in another namespace is encoded with "/" and the namespace without its leading slashes |
| SocketIoPacket.EncodeIgnoresLeadingSlashes | src/H.Socket.IO/SocketIoPacket.cs:66 | namespaces that differ only in their leading slashes encode alike |
| SocketIoPacket.DecodeEncoded | src/H.Socket.IO/SocketIoPacket.cs:43-72 | decoding an encoded packet gives it back when its namespace is canonical (one leading '/', no comma) and the comma rule cannot swallow a value |
| SocketIoPacket.EncodeDecoded | src/H.Socket.IO/SocketIoPacket.cs:43-72 | for a non-empty message, decoding succeeds and encoding gives the message back exactly when the frame is canonical: a namespace is more than "/", does not start with "//", and a comma after it is followed by a non-blank value |
| SocketIoPacket.Fixtures | src/tests/H.Socket.IO.UnitTests/SocketIoPacketTests.cs:51-56 | each unit-test frame decodes to the packet the test expects |
| SocketIoUtilities.TopLevelCommas | src/H.Socket.IO/Utilities/SocketIoUtilities.cs:28-46 | the cut positions are increasing, in range, and each one holds a comma |
| SocketIoUtilities.TopLevelCommasExactly | src/H.Socket.IO/Utilities/SocketIoUtilities.cs:28-46 | a position is a cut if and only if it holds a comma and the '{'/'}' depth before it is zero |
| SocketIoUtilities.JsonArrayValues | src/H.Socket.IO/Utilities/SocketIoUtilities.cs:18-52 | the text is rejected with the ArgumentException message exactly when it does not start with '[' and end with ']'; otherwise there is one value more than there are depth-zero commas, and no value keeps a surrounding '"' |
| SocketIoUtilities.GetJsonArrayValues | src/H.Socket.IO/Utilities/SocketIoUtilities.cs:18-52 | the loop that counts brace depth and collects comma positions returns exactly `JsonArrayValues` |
| SocketIoUtilities.PiecesJoinBack | src/H.Socket.IO/Utilities/SocketIoUtilities.cs:48-49 | the pieces cut at the depth-zero commas, joined again with commas, give the bracket-trimmed text: only the cut commas are dropped |
| SocketIoUtilities.FlatObjectSkipped | src/H.Socket.IO/Utilities/SocketIoUtilities.cs:32-45 | commas inside an object without nested braces are never cut, and the depth returns to zero after it |
| SocketIoUtilities.ArrayWithFlatObject | src/H.Socket.IO/Utilities/SocketIoUtilities.cs:18-52 | an array of one plain item and one flat object gives exactly two values: the item without quotes and the whole object |
| SocketIoUtilities.BalancedArrayValues | src/H.Socket.IO/Utilities/SocketIoUtilities.cs:18-52 | for items without commas and with balanced braces, however many brackets surround them, the values are the items without their quotes |
| SocketIoUtilities.AgreesWithGetEventValues | src/H.Socket.IO/Utilities/SocketIoUtilities.cs:18-52 | when every comma is at depth zero, the brace-aware split and the older comma split give the same values |
| SocketIoUtilities.MessageValueFixture | src/tests/H.Socket.IO.UnitTests/SocketIoUtilitiesTests.cs:15-16 | `["message","value"]` splits into message and value |
| SocketIoUtilities.MessageFixture | src/tests/H.Socket.IO.UnitTests/SocketIoUtilitiesTests.cs:17-18 | `["message"]` gives one value, message |
| SocketIoUtilities.ObjectFixtures | src/tests/H.Socket.IO.UnitTests/SocketIoUtilitiesTests.cs:19-20 | `["message",{}]` gives message and `{}` |
| SocketIoUtilities.NewMessageFixture | src/tests/H.Socket.IO.UnitTests/SocketIoUtilitiesTests.cs:21-22 | an object holding commas stays one value |
| SocketIoUtilities.NestedArrayIsCut | src/H.Socket.IO/Utilities/SocketIoUtilities.cs:26-46 | the code cuts `["messages",[{},{},{}]]` into four values, because `Trim` removes both closing brackets and square brackets are not counted (the unit test at src/tests/H.Socket.IO.UnitTests/SocketIoUtilitiesTests.cs:13-14 expects two) |
| SocketIoUtilities.SplitByIndexesFixture | src/tests/H.Socket.IO.UnitTests/StringExtensionsTests.cs:9-25 | cutting at every comma position drops the commas and keeps the text between them, as `SplitByIndexes` is pinned by its test |
| Text.SplitAt | src/tests/H.Socket.IO.UnitTests/StringExtensionsTests.cs:9-25 | `SplitByIndexes` at n increasing positions gives n + 1 pieces |
| Text.JoinSplitAt | src/tests/H.Socket.IO.UnitTests/StringExtensionsTests.cs:9-25 | cutting at positions that hold the separator and joining the pieces back with it restores the text |
| Text.SplitJoined | SimpleSocketIoClient/Utilities/SocketIoUtilities.cs:26 | `Split`, at every separator, of pieces joined by a separator they do not contain gives back the pieces |
| SimpleSocketIoUtilities.GetEventValues | SimpleSocketIoClient/Utilities/SocketIoUtilities.cs:16-29 | the text is rejected with the ArgumentException message exactly when it does not start with '[' and end with ']'; otherwise there is one value more than there are commas in the bracket-trimmed text, and no value holds a comma or keeps a surrounding '"' |
| SimpleSocketIoUtilities.GetEventValuesLosesOnlyQuotes | SimpleSocketIoClient/Utilities/SocketIoUtilities.cs:24-28 | the comma-separated pieces join back into the bracket-trimmed text, and the values are those pieces with their quotes trimmed |
| SimpleSocketIoUtilities.ArrayValues | SimpleSocketIoClient/Utilities/SocketIoUtilities.cs:16-29 | an array written from comma-free items gives back those items without their quotes |
| SimpleSocketIoUtilities.MessageValueFixture | SimpleSocketIoClient.Tests/SocketIoUtilitiesTests.cs:12-14 | `["message","value"]` gives message and value |
| SimpleSocketIoUtilities.MessageFixture | SimpleSocketIoClient.Tests/SocketIoUtilitiesTests.cs:16-18 | `["message"]` gives message |
| SimpleSocketIoUtilities.MessageObjectFixture | SimpleSocketIoClient.Tests/SocketIoUtilitiesTests.cs:20-22 | `["message",{}]` gives message and `{}` |
| SimpleSocketIoUtilities.ObjectWithCommasIsSplit | SimpleSocketIoClient/Utilities/SocketIoUtilities.cs:24-27 | the code splits an object holding a comma into two values (the unit test at SimpleSocketIoClient.Tests/SocketIoUtilitiesTests.cs:24-26 expects one) |
| StringExtensions.Extract | SimpleSocketIoClient/Utilities/StringExtensions.cs:20-48 | no result when `start` does not occur; without `end`, the text after the first `start`; with `end`, no result exactly when `end` occurs nowhere after that `start`, and otherwise `start`, the result and `end` occur together at the first `start`, with no earlier `end` inside the result |
| Handshake.WebSocketScheme | src/libs/H.Engine.IO/EngineIoClient.cs:223-230 | exactly http, https, ws and wss are accepted; the result is wss exactly for https and wss; any other scheme gives the "Scheme is not supported" ArgumentException |
| Handshake.HandshakeQueryOf | src/libs/H.Engine.IO/EngineIoClient.cs:232 | the query starts with `?EIO=3&transport=websocket&` and continues with a suffix of the original query that does not start with '?' |
| Handshake.ToWebSocketUri | src/libs/H.Engine.IO/EngineIoClient.cs:218-233 | a missing address or framework is an ArgumentNullException naming it; the rewrite succeeds exactly for the four schemes, with the scheme mapped to ws or wss, and keeps host and port; any other scheme gives the "Scheme is not supported" ArgumentException |
| Handshake.HandshakePath | src/libs/H.Engine.IO/EngineIoClient.cs:232 | the path is the original path without its trailing slashes, then "/", the framework and "/" |
| Handshake.TrailingSlashIgnored | src/libs/H.Engine.IO/EngineIoClient.cs:232 | an address with one more trailing slash gives the same handshake address |
| Handshake.QueryKept | src/libs/H.Engine.IO/EngineIoClient.cs:232 | a leading '?' of the query is dropped and the rest is appended to the handshake query |
| Handshake.LegacyWebSocketUri | H.EngineIO/EngineIoClient.cs:289-297 | the older inline rewrite succeeds exactly for the four schemes, with the scheme mapped to ws or wss; any other scheme gives the "Scheme is not supported" ArgumentException; it keeps host and port, puts the revision parameters before the caller's query, and drops the path in favour of "/" + framework + "/" |
| Handshake.LegacyIsRootPath | H.EngineIO/EngineIoClient.cs:297 | the older rewrite is the newer one applied to the same address with path "/" |
| Handshake.RootFixtures | src/tests/H.Engine.IO.UnitTests/EngineIoClientTests.cs:19-63 | the root-address cases of the unit test give the expected handshake addresses |
| Handshake.PathFixtures | src/tests/H.Engine.IO.UnitTests/EngineIoClientTests.cs:34-50 | addresses with a path, with or without a trailing slash, keep the path |
| Handshake.QueryFixture | src/tests/H.Engine.IO.UnitTests/EngineIoClientTests.cs:52-54 | a path and a query are both kept |
| EngineIoCore.SetInterval | src/libs/H.Engine.IO/EngineIoClient.cs:146 | setting the timer interval succeeds exactly for a positive value, which is then stored with the running flag unchanged; otherwise it is an ArgumentException |
| EngineIoCore.PingIntervalOf | src/libs/H.Engine.IO/EngineIoClient.cs:146 | the heartbeat interval is the open message's ping interval, or 25000 without a message |
| EngineIoCore.SendText | src/libs/H.WebSockets/WebSocketClient.cs:205-216 | a connected socket logs the frame; a disconnected one changes nothing |
| EngineIoCore.Connect | src/libs/H.WebSockets/WebSocketClient.cs:129-153 | a connected socket is left alone; a missing address is an ArgumentNullException; otherwise the address is remembered, nothing is sent, and the socket is connected exactly when the attempt succeeds |
| EngineIoCore.Disconnect | src/libs/H.WebSockets/WebSocketClient.cs:175-197 | the socket ends disconnected with its sent log and last address unchanged |
| EngineIoCore.FramesSpelledOut | src/libs/H.Engine.IO/EngineIoClient.cs:107-127 | the ping, close and message frames are "2ping", "1" and "4" + message, and each decodes as an Engine.IO packet with that prefix and value |
| EngineIoCore.InlineSplitIsDecode | SimpleSocketIoClient/EngineIO/EngineIoClient.cs:230-231 | splitting a frame inline into its first character and the rest is what `EngineIoPacket.Decode` does |
| EngineIoCore.InlineFrames | SimpleSocketIoClient/EngineIoClient.cs:124-133 | the frames the oldest revisions write inline are the same ping, close and message frames |
| EngineIoClientLibs.BadFrameReported | src/libs/H.Engine.IO/EngineIoClient.cs:133-137 | a null or blank frame is not decoded: a null frame only raises ExceptionOccurred with the "Null Engine.IO string" InvalidOperationException, a blank one with "Empty Engine.IO string" |
| EngineIoClientLibs.OpenFrameArmsTimer | src/libs/H.Engine.IO/EngineIoClient.cs:142-150 | an Open frame stores the open message, sets `IsOpened`, sets the timer to the ping interval and starts it, raises Opened, and sends nothing |
| EngineIoClientLibs.OpenFrameBadInterval | src/libs/H.Engine.IO/EngineIoClient.cs:142-150 | with a ping interval that is not positive, the message and `IsOpened` are already set when the interval setter throws; the exception is reported, the timer is not started and Opened is not raised |
| EngineIoClientLibs.OpenFrameMalformed | src/libs/H.Engine.IO/EngineIoClient.cs:142-145 | an Open frame with malformed JSON only raises ExceptionOccurred |
| EngineIoClientLibs.CloseFrameResets | src/libs/H.Engine.IO/EngineIoClient.cs:152-157 | a Close frame clears `IsOpened` and raises Closed with "Received close message from server" and no status |
| EngineIoClientLibs.ValueFrameRaisesEvent | src/libs/H.Engine.IO/EngineIoClient.cs:159-177 | a Ping, Pong, Message, Upgrade or Noop frame raises the matching event with the frame's value and changes nothing else |
| EngineIoClientLibs.UnknownFrameIgnored | src/libs/H.Engine.IO/EngineIoClient.cs:138-178 | a frame with an unknown prefix changes nothing |
| EngineIoClientLibs.ReceiveSendsNothing | src/libs/H.Engine.IO/EngineIoClient.cs:129-184 | receiving a frame never touches the socket or the address, and raises at most one event |
| EngineIoClientLibs.TickSendsPing | src/libs/H.Engine.IO/EngineIoClient.cs:107-127 | on a connected socket a heartbeat tick sends "2ping" and raises PingSent("ping"), and nothing else changes |
| EngineIoClientLibs.TickReconnects | src/libs/H.Engine.IO/EngineIoClient.cs:107-127 | on a disconnected socket the tick reconnects to the last address first: without one it reports the ArgumentNullException; a successful reconnect sends the ping; a cancelled one is swallowed; any other failure is reported |
| EngineIoClientLibs.CloseSendsCloseFrame | src/libs/H.Engine.IO/EngineIoClient.cs:255-264 | closing stops the timer and leaves the socket disconnected; on a connected socket it sends "1" first, then the disconnect clears `IsOpened` and raises Closed |
| EngineIoClientLibs.SendMessageFrame | src/libs/H.Engine.IO/EngineIoClient.cs:272-277 | sending a message logs "4" + message on a connected socket and changes nothing else |
| EngineIoClientLibs.OpenWhenConnected | src/libs/H.Engine.IO/EngineIoClient.cs:202-205 | on a connected socket opening changes nothing and returns the stored open message, which is null when none was stored |
| EngineIoClientLibs.OpenHandshake | src/libs/H.Engine.IO/EngineIoClient.cs:198-216 | a successful open stores the address, connects to the handshake address, sends nothing, and returns the open message of the server's Open frame (an empty one when the frame carries null JSON) with the timer armed |
| EngineIoClientLibs.CanceledOpenThenNull | src/libs/H.Engine.IO/EngineIoClient.cs:202-215 | after a canceled wait for Opened the socket stays connected with no message stored, so the next `OpenAsync` returns null and changes nothing |
| EngineIoClientLibs.StepVerdict | src/libs/H.Engine.IO/EngineIoClient.cs:96-157 | after any input `IsOpened` is what the input decides (an Open frame opens, a Close frame or a transport disconnect closes) or stays as it was; the event and sent logs only grow |
| EngineIoClientLibs.RunTracksOpened | src/libs/H.Engine.IO/EngineIoClient.cs:96-157 | after any sequence of inputs `IsOpened` is the verdict of the last input that decides it |
| EngineIoClientLibs.RunOnlyAppends | src/libs/H.Engine.IO/EngineIoClient.cs:86-289 | no sequence of inputs removes a raised event or a sent frame |
| EngineIoClientLibs.EngineIoClient.constructor | src/libs/H.Engine.IO/EngineIoClient.cs:86-101 | a new client is closed, with no open message, a stopped timer, a disconnected socket and no events |
| EngineIoClientLibs.EngineIoClient.OnTextReceived | src/libs/H.Engine.IO/EngineIoClient.cs:129-184 | the handler updates the fields as `Receive` says |
| EngineIoClientLibs.EngineIoClient.TimerElapsed | src/libs/H.Engine.IO/EngineIoClient.cs:107-127 | the handler updates the fields as `Tick` says |
| EngineIoClientLibs.EngineIoClient.OnDisconnected | src/libs/H.Engine.IO/EngineIoClient.cs:96-100 | the Disconnected hook clears `IsOpened` and raises Closed, as `Dropped` says |
| EngineIoClientLibs.EngineIoClient.CloseAsync | src/libs/H.Engine.IO/EngineIoClient.cs:255-264 | the fields change as `Close` says |
| EngineIoClientLibs.EngineIoClient.SendMessageAsync | src/libs/H.Engine.IO/EngineIoClient.cs:272-277 | the fields change as `SendMessage` says |
| EngineIoClientLibs.EngineIoClient.OpenAsync | src/libs/H.Engine.IO/EngineIoClient.cs:198-216 | the fields and the result are those of `Open` |
| EngineIoClientLibs.EngineIoClient.WaitOpenedAsync | src/libs/H.Engine.IO/EngineIoClient.cs:210-215 | the wait for Opened leaves the fields and result of `AwaitOpened`: the open message Opened carries, or OperationCanceledException when the wait ends without it |
| EngineIoClientSrc.OpenFrameArmsTimer | src/H.Engine.IO/EngineIoClient.cs:118-131 | on a live client an Open frame stores the message, sets `IsOpened`, arms and starts the timer with the ping interval, raises Opened, and leaves the socket and address alone |
| EngineIoClientSrc.OpenFrameAfterDispose | src/H.Engine.IO/EngineIoClient.cs:235-239 | once the timer is gone, an Open frame still stores the message and sets `IsOpened`, but `OnOpened` returns early: no timer and no Opened event |
| EngineIoClientSrc.ClosedBothWays | src/H.Engine.IO/EngineIoClient.cs:133-138 | a Close frame and a transport disconnect both clear `IsOpened` and raise Closed; the frame gives the server-close reason without status, the disconnect its own reason and status |
| EngineIoClientSrc.BlankFrameReported | src/H.Engine.IO/EngineIoClient.cs:226-230 | a blank frame only raises ExceptionOccurred with "Empty Engine.IO string" |
| EngineIoClientSrc.TickSendsPing | src/H.Engine.IO/EngineIoClient.cs:200-220 | on a connected socket a tick sends "2ping" and raises PingSent("ping"), and nothing else changes |
| EngineIoClientSrc.OpenWhenConnected | src/H.Engine.IO/EngineIoClient.cs:288-291 | a live client with an open socket answers true and changes nothing, not even the stored address |
| EngineIoClientSrc.DisposedRejects | src/H.Engine.IO/EngineIoClient.cs:378-384 | after Dispose the socket is closed with no event, and `OpenAsync` and `CloseAsync` give ObjectDisposedException("Timer") without changing anything |
| EngineIoClientSrc.CloseSendsCloseFrame | src/H.Engine.IO/EngineIoClient.cs:348-358 | closing a live client with an open socket stops the timer, sends "1", disconnects, clears `IsOpened` and raises Closed |
| EngineIoClientSrc.SendMessageFrame | src/H.Engine.IO/EngineIoClient.cs:366-371 | sending a message logs "4" + message on a connected socket and changes nothing else |
| EngineIoClientSrc.DisposedStep | src/H.Engine.IO/EngineIoClient.cs:120-123 | after Dispose no single input brings the timer back or raises Opened, and events are only appended |
| EngineIoClientSrc.DisposeIsFinal | src/H.Engine.IO/EngineIoClient.cs:378-384 | after Dispose no sequence of inputs brings the timer back or raises Opened |
| EngineIoClientSrc.EngineIoClient.constructor | src/H.Engine.IO/EngineIoClient.cs:183-194 | a new client is closed, with a stopped 25000 ms timer, a disconnected socket and no events |
| EngineIoClientSrc.EngineIoClient.OnOpened | src/H.Engine.IO/EngineIoClient.cs:118-131 | the fields change as `HandleOpened` says |
| EngineIoClientSrc.EngineIoClient.OnClosed | src/H.Engine.IO/EngineIoClient.cs:133-138 | the fields change as `HandleClosed` says |
| EngineIoClientSrc.EngineIoClient.OnTextReceived | src/H.Engine.IO/EngineIoClient.cs:222-271 | the fields change as `Receive` says |
| EngineIoClientSrc.EngineIoClient.TimerElapsed | src/H.Engine.IO/EngineIoClient.cs:200-220 | the fields change as `Tick` says |
| EngineIoClientSrc.EngineIoClient.OnDisconnected | src/H.Engine.IO/EngineIoClient.cs:193 | the fields change as `Dropped` says |
| EngineIoClientSrc.EngineIoClient.CloseAsync | src/H.Engine.IO/EngineIoClient.cs:348-358 | the fields and the result are those of `Close` |
| EngineIoClientSrc.EngineIoClient.SendMessageAsync | src/H.Engine.IO/EngineIoClient.cs:366-371 | the fields change as `SendMessage` says |
| EngineIoClientSrc.EngineIoClient.OpenAsync | src/H.Engine.IO/EngineIoClient.cs:283-300 | the fields and the result are those of `Open` |
| EngineIoClientSrc.EngineIoClient.Dispose | src/H.Engine.IO/EngineIoClient.cs:378-384 | the fields change as `Disposed` says |
| EngineIoClientH.ReceiveKeepsSocket | H.EngineIO/EngineIoClient.cs:217-266 | receiving a frame never touches the WebSocket client |
| EngineIoClientH.HandshakeDropsPath | H.EngineIO/EngineIoClient.cs:278-303 | `OpenAsync` stores the given address and connects to the framework's root path on the same host and port, with the caller's query after the revision parameters |
| EngineIoClientH.OpenFrameArmsTimer | H.EngineIO/EngineIoClient.cs:113-126 | on a live client an Open frame stores the message, sets `IsOpened`, arms and starts the timer with the ping interval and raises Opened |
| EngineIoClientH.OpenFrameAfterDispose | H.EngineIO/EngineIoClient.cs:230-234 | once the timer is gone, an Open frame still stores the message and sets `IsOpened`, but no timer starts and Opened is not raised |
| EngineIoClientH.ClosedBothWays | H.EngineIO/EngineIoClient.cs:128-133 | a Close frame and a transport disconnect both clear `IsOpened` and raise Closed |
| EngineIoClientH.BadFrameReported | H.EngineIO/EngineIoClient.cs:221-225 | a null frame and a blank frame each raise ExceptionOccurred with their own message and change nothing else |
| EngineIoClientH.TickSendsPing | H.EngineIO/EngineIoClient.cs:195-215 | on a connected socket a tick sends "2ping" and raises PingSent("ping"), and nothing else changes |
| EngineIoClientH.OpenWhenConnected | H.EngineIO/EngineIoClient.cs:283-286 | a live client with an open socket answers true and changes nothing |
| EngineIoClientH.CloseSendsCloseFrame | H.EngineIO/EngineIoClient.cs:334-344 | closing a live client with an open socket stops the timer, sends "1", disconnects, clears `IsOpened` and raises Closed |
| EngineIoClientH.SendMessageFrame | H.EngineIO/EngineIoClient.cs:352-357 | sending a message logs "4" + message on a connected socket and changes nothing else |
| EngineIoClientH.DisposedRejects | H.EngineIO/EngineIoClient.cs:363-373 | disposing twice is disposing once, and afterwards opening, closing, sending and the heartbeat all give ObjectDisposedException("WebSocketClient") without changing anything |
| EngineIoClientH.DisposedStep | H.EngineIO/EngineIoClient.cs:363-373 | after disposal no single input brings back the WebSocket client or the timer or raises Opened, and events are only appended |
| EngineIoClientH.DisposeIsFinal | H.EngineIO/EngineIoClient.cs:363-373 | after disposal no sequence of inputs brings back the WebSocket client or the timer or raises Opened |
| EngineIoClientH.EngineIoClient.constructor | H.EngineIO/EngineIoClient.cs:178-189 | a new client is closed, with a stopped 25000 ms timer, a disconnected socket and no events |
| EngineIoClientH.EngineIoClient.OnOpened | H.EngineIO/EngineIoClient.cs:113-126 | the fields change as `HandleOpened` says |
| EngineIoClientH.EngineIoClient.OnClosed | H.EngineIO/EngineIoClient.cs:128-133 | the fields change as `HandleClosed` says |
| EngineIoClientH.EngineIoClient.OnTextReceived | H.EngineIO/EngineIoClient.cs:217-266 | the fields change as `Receive` says |
| EngineIoClientH.EngineIoClient.TimerElapsed | H.EngineIO/EngineIoClient.cs:195-215 | the fields and the result are those of `Tick` |
| EngineIoClientH.EngineIoClient.OnDisconnected | H.EngineIO/EngineIoClient.cs:188 | the fields change as `Dropped` says |
| EngineIoClientH.EngineIoClient.CloseAsync | H.EngineIO/EngineIoClient.cs:334-344 | the fields and the result are those of `Close` |
| EngineIoClientH.EngineIoClient.SendMessageAsync | H.EngineIO/EngineIoClient.cs:352-357 | the fields and the result are those of `SendMessage` |
| EngineIoClientH.EngineIoClient.OpenAsync | H.EngineIO/EngineIoClient.cs:278-303 | the fields and the result are those of `Open` |
| EngineIoClientH.EngineIoClient.DisposeAsync | H.EngineIO/EngineIoClient.cs:363-373 | the fields change as `Disposed` says |
| EngineIoClientSimple.ReceiveKeepsSocket | SimpleSocketIoClient/EngineIO/EngineIoClient.cs:220-271 | receiving a frame never touches the WebSocket client |
| EngineIoClientSimple.InlineSplit | SimpleSocketIoClient/EngineIO/EngineIoClient.cs:230-231 | a frame starting with a non-blank character is not blank, and its inline split into first character and rest is its Engine.IO decoding |
| EngineIoClientSimple.OpenFrameArmsTimer | SimpleSocketIoClient/EngineIO/EngineIoClient.cs:121-134 | on a live client an Open frame stores the message, sets `IsOpened`, arms and starts the timer with the ping interval and raises Opened |
| EngineIoClientSimple.ClosedBothWays | SimpleSocketIoClient/EngineIO/EngineIoClient.cs:136-141 | a Close frame and a transport disconnect both clear `IsOpened` and raise Closed; the frame gives "Received close message from server" |
| EngineIoClientSimple.AfterPingBothWays | SimpleSocketIoClient/EngineIO/EngineIoClient.cs:198-218 | a heartbeat tick on a connected socket sends "2ping" and raises AfterPing("ping"), and a received Ping frame raises AfterPing with its value |
| EngineIoClientSimple.ValueFrameRaisesEvent | SimpleSocketIoClient/EngineIO/EngineIoClient.cs:246-262 | a Ping, Pong, Message, Upgrade or Noop frame raises the matching event with the frame's value and changes nothing else |
| EngineIoClientSimple.BadFrameReported | SimpleSocketIoClient/EngineIO/EngineIoClient.cs:224-228 | a null or blank frame only raises AfterException |
| EngineIoClientSimple.HandshakeDropsPath | SimpleSocketIoClient/EngineIO/EngineIoClient.cs:294-302 | `OpenAsync` connects to the framework's root path on the same host and port, with the caller's query after the revision parameters |
| EngineIoClientSimple.OpenWhenConnected | SimpleSocketIoClient/EngineIO/EngineIoClient.cs:288-291 | a live client with an open socket answers true and changes nothing |
| EngineIoClientSimple.OutboundFrames | SimpleSocketIoClient/EngineIO/EngineIoClient.cs:339-362 | closing stops the timer, sends "1", disconnects, clears `IsOpened` and raises Closed; sending a message logs "4" + message and changes nothing else |
| EngineIoClientSimple.DisposedRejects | SimpleSocketIoClient/EngineIO/EngineIoClient.cs:369-391 | disposing twice is disposing once, and afterwards opening, closing, sending and the heartbeat give ObjectDisposedException("WebSocketClient") without changing anything |
| EngineIoClientSimple.StepAgrees | SimpleSocketIoClient/EngineIO/EngineIoClient.cs:121-141 | every input other than an Open frame keeps `IsOpened` equal to what the last Opened or Closed event says, and only appends events |
| EngineIoClientSimple.RunAgrees | SimpleSocketIoClient/EngineIO/EngineIoClient.cs:121-141 | the same holds for any sequence of such inputs |
| EngineIoClientSimple.EngineIoClient.constructor | SimpleSocketIoClient/EngineIO/EngineIoClient.cs:181-192 | a new client is closed, with a stopped 25000 ms timer, a disconnected socket and no events |
| EngineIoClientSimple.EngineIoClient.OnOpened | SimpleSocketIoClient/EngineIO/EngineIoClient.cs:121-134 | the fields change as `HandleOpened` says |
| EngineIoClientSimple.EngineIoClient.OnClosed | SimpleSocketIoClient/EngineIO/EngineIoClient.cs:136-141 | the fields change as `HandleClosed` says |
| EngineIoClientSimple.EngineIoClient.AfterText | SimpleSocketIoClient/EngineIO/EngineIoClient.cs:220-271 | the fields change as `Receive` says |
| EngineIoClientSimple.EngineIoClient.TimerElapsed | SimpleSocketIoClient/EngineIO/EngineIoClient.cs:198-218 | the fields and the result are those of `Tick` |
| EngineIoClientSimple.EngineIoClient.OnDisconnected | SimpleSocketIoClient/EngineIO/EngineIoClient.cs:191 | the fields change as `Dropped` says |
| EngineIoClientSimple.EngineIoClient.CloseAsync | SimpleSocketIoClient/EngineIO/EngineIoClient.cs:339-349 | the fields and the result are those of `Close` |
| EngineIoClientSimple.EngineIoClient.SendMessageAsync | SimpleSocketIoClient/EngineIO/EngineIoClient.cs:357-362 | the fields and the result are those of `SendMessage` |
| EngineIoClientSimple.EngineIoClient.OpenAsync | SimpleSocketIoClient/EngineIO/EngineIoClient.cs:283-308 | the fields and the result are those of `Open` |
| EngineIoClientSimple.EngineIoClient.Dispose | SimpleSocketIoClient/EngineIO/EngineIoClient.cs:384-391 | the fields change as `Disposed` says |
| EngineIoClientSimpleRoot.OpenFrameLeavesTimer | SimpleSocketIoClient/EngineIoClient.cs:159-163 | an Open frame stores the message, sets `IsOpened` and raises Opened, and does not touch the timer |
| EngineIoClientSimpleRoot.OnlyCloseFrameResets | SimpleSocketIoClient/EngineIoClient.cs:165-168 | a Close frame clears `IsOpened` and raises Closed; a transport disconnect raises Closed but leaves `IsOpened` as it was |
| EngineIoClientSimpleRoot.BadFrameReported | SimpleSocketIoClient/EngineIoClient.cs:149-152 | a null or blank frame only raises AfterException with "Empty or null Engine.IO string" |
| EngineIoClientSimpleRoot.OpenArmsTimer | SimpleSocketIoClient/EngineIoClient.cs:201-231 | a successful open connects to the root-path handshake address, sends nothing, sets `IsOpened`, arms and starts the timer with the server's ping interval, and returns true |
| EngineIoClientSimpleRoot.OpenWithoutOpened | SimpleSocketIoClient/EngineIoClient.cs:219-225 | when the wait for Opened fails, `OpenAsync` returns false and leaves the timer and `IsOpened` as they were |
| EngineIoClientSimpleRoot.NullOpenMessage | SimpleSocketIoClient/EngineIoClient.cs:227 | a handshake whose message is JSON null opens the session and raises Opened, and then `OpenAsync` fails with NullReferenceException with the timer untouched, for there is no 25000 fallback |
| EngineIoClientSimpleRoot.OpenWhenConnected | SimpleSocketIoClient/EngineIoClient.cs:203-206 | on an open socket `OpenAsync` returns true and changes nothing |
| EngineIoClientSimpleRoot.OutboundFrames | SimpleSocketIoClient/EngineIoClient.cs:124-257 | a tick sends "2ping" and raises AfterPing("ping"); closing stops the timer, sends "1", and leaves `IsOpened` alone; sending a message logs "4" + message |
| EngineIoClientSimpleRoot.StepDoesNotArm | SimpleSocketIoClient/EngineIoClient.cs:124-195 | no frame, tick, disconnect, send or close changes the timer interval or starts a stopped timer |
| EngineIoClientSimpleRoot.TimerOnlyArmedByOpen | SimpleSocketIoClient/EngineIoClient.cs:227-228 | no sequence of such inputs arms the timer: only `OpenAsync` does |
| EngineIoClientSimpleRoot.EngineIoClient.constructor | SimpleSocketIoClient/EngineIoClient.cs:109-118 | a new client is closed, with a stopped timer, a disconnected socket and no events |
| EngineIoClientSimpleRoot.EngineIoClient.AfterText | SimpleSocketIoClient/EngineIoClient.cs:144-195 | the fields change as `Receive` says |
| EngineIoClientSimpleRoot.EngineIoClient.TimerElapsed | SimpleSocketIoClient/EngineIoClient.cs:124-142 | the fields change as `Tick` says |
| EngineIoClientSimpleRoot.EngineIoClient.OnDisconnected | SimpleSocketIoClient/EngineIoClient.cs:117 | the fields change as `Dropped` says |
| EngineIoClientSimpleRoot.EngineIoClient.CloseAsync | SimpleSocketIoClient/EngineIoClient.cs:245-252 | the fields and the result are those of `Close` |
| EngineIoClientSimpleRoot.EngineIoClient.SendMessageAsync | SimpleSocketIoClient/EngineIoClient.cs:254-257 | the fields and the result are those of `SendMessage` |
| EngineIoClientSimpleRoot.EngineIoClient.OpenAsync | SimpleSocketIoClient/EngineIoClient.cs:201-231 | the fields and the result are those of `Open` |
| EngineIoClientSimpleRoot.EngineIoClient.WaitOpenedAsync | SimpleSocketIoClient/EngineIoClient.cs:219-230 | the wait for Opened leaves the fields and result of `AwaitOpened`: false when the wait ends without Opened, otherwise the timer is armed with the ping interval |
| EngineIoClientSimpleRoot.EngineIoClient.Dispose | SimpleSocketIoClient/EngineIoClient.cs:272-279 | the fields change as `Disposed` says |
| SocketIoCore.OnKeySeparatesNames | src/libs/H.Socket.IO/SocketIoClient.cs:280-283 | in one namespace two event names share a key only when they are equal, and a missing namespace keys like "/" |
| SocketIoCore.Register | src/libs/H.Socket.IO/SocketIoClient.cs:584-596 | registering appends the handler to the list under its key and leaves every other key's list unchanged |
| SocketIoCore.RegisterKeepsListsNonEmpty | H.Socket.IO/SocketIoClient.cs:180-183 | registries built by registering never hold an empty list, so a key is present exactly when some handler is registered under it |
| SocketIoCore.RegisterAllInOrder | src/libs/H.Socket.IO/SocketIoClient.cs:527-596 | handlers registered one after another under a key are found there in registration order, and other keys are untouched |
| SocketIoCore.EmitItems | src/libs/H.Socket.IO/SocketIoClient.cs:506-516 | the array `Emit` sends always starts with the quoted event name |
| SocketIoCore.EmitRoundTrip | src/libs/H.Socket.IO/SocketIoClient.cs:506-516 | for a name and a text without commas, braces or quotes, the emitted array splits back into the name, or the name and the text, under both the brace-aware and the comma splitter |
| SocketIoCore.EmitObjectRoundTrip | src/libs/H.Socket.IO/SocketIoClient.cs:506-516 | an emitted name and serialized flat object split back, under the brace-aware splitter, into the name and the whole object, commas included |
| SocketIoCore.EmitPlainJsonRoundTrip | SimpleSocketIoClient/SocketIoClient.cs:380-390 | an emitted name and serialized JSON without a comma, quote at either end or closing bracket split back, under the comma splitter, into the name and that JSON |
| SocketIoCore.EmitKeptWhole | src/libs/H.Socket.IO/SocketIoClient.cs:506-516 | every value the brace-aware splitter keeps whole (none, a bare string, a flat object) comes back after the name |
| SocketIoCore.EmitKeptPlain | SimpleSocketIoClient/SocketIoClient.cs:380-390 | every value the comma splitter keeps whole (none, a bare string, comma-free JSON) comes back after the name |
| SocketIoCore.CalledWithoutText | H.Socket.IO/SocketIoClient.cs:185-201 | without a payload every registered handler is called, in registration order |
| SocketIoCore.Distinct | src/libs/H.Socket.IO/SocketIoClient.cs:323 | removing duplicates keeps exactly the same names, each once, and leaves a duplicate-free list as it was |
| SocketIoCore.DistinctInFirstOrder | src/libs/H.Socket.IO/SocketIoClient.cs:323 | the names removing duplicates keeps come in the order of their first occurrences |
| SocketIoCore.ConnectListContents | src/libs/H.Socket.IO/SocketIoClient.cs:322-324 | without a default namespace the given list is requested as is; with one, every given namespace and the default are requested exactly once, and a duplicate-free list lacking the default gets it at the end |
| SocketIoCore.FramesSpelledOut | src/libs/H.Socket.IO/SocketIoClient.cs:421-456 | connecting to "/my" sends "0/my", leaving the default namespace "1", leaving "/my" "1/my", and an event in the default namespace "2" followed by the payload |
| SocketIoCore.EventFrameDecodes | src/libs/H.Socket.IO/SocketIoClient.cs:449-456 | an event sent to a namespace decodes, on the receiving side, to the same namespace ("/" when none is given) and the same payload |
| SocketIoClientLibs.AddAction | src/libs/H.Socket.IO/SocketIoClient.cs:584-596 | a no-argument handler is appended to its key's list in the no-argument registry; every other key and registry is unchanged, and the key now has handlers |
| SocketIoClientLibs.AddTextAction | src/libs/H.Socket.IO/SocketIoClient.cs:564-576 | a raw-text handler is appended to its key's list in the text registry; every other key and registry is unchanged |
| SocketIoClientLibs.AddTypedAction | src/libs/H.Socket.IO/SocketIoClient.cs:527-539 | a typed handler is appended, with its type, to its key's list in the typed registry; every other key and registry is unchanged |
| SocketIoClientLibs.HandleEvent | src/libs/H.Socket.IO/SocketIoClient.cs:174-263 | dispatching an Event packet changes nothing but the event log, to which it appends at least two events |
| SocketIoClientLibs.Handle | src/libs/H.Socket.IO/SocketIoClient.cs:148-274 | handling a message changes nothing but the event log, which it only appends to |
| SocketIoClientLibs.Relay | src/libs/H.Socket.IO/SocketIoClient.cs:139-141 | an Engine.IO event only appends to the event log, and Closed becomes Disconnected with the same reason and status |
| SocketIoClientLibs.ActionsAllRun | src/libs/H.Socket.IO/SocketIoClient.cs:188-203 | every no-argument handler of the list is called, in order, whether others throw or not, and none of them concludes the event |
| SocketIoClientLibs.TextCallShape | src/libs/H.Socket.IO/SocketIoClient.cs:211-223 | a raw-text handler is called exactly when the event carries a text |
| SocketIoClientLibs.TypedCallShape | src/libs/H.Socket.IO/SocketIoClient.cs:233-251 | a typed handler is called exactly when there is a text that deserializes to its type |
| SocketIoClientLibs.TextActionsRun | src/libs/H.Socket.IO/SocketIoClient.cs:205-225 | with a text every raw-text handler is called in order; without one none is |
| SocketIoClientLibs.TypedActionsRun | src/libs/H.Socket.IO/SocketIoClient.cs:227-253 | with a text the typed handlers that accept it are called in order; without one none is |
| SocketIoClientLibs.HandleEventCases | src/libs/H.Socket.IO/SocketIoClient.cs:174-263 | a blank or unsplittable payload concludes as unhandled, after at most the reported parse failure; otherwise the handlers' events come first and the conclusion says whether the key has handlers |
| SocketIoClientLibs.EventConcludedOnce | src/libs/H.Socket.IO/SocketIoClient.cs:255-262 | an Event packet raises EventReceived exactly once, as the last event but one, followed by HandledEventReceived exactly when some handler is registered for the name in the packet's namespace, and UnhandledEventReceived otherwise |
| SocketIoClientLibs.HandlerEventsInvoke | src/libs/H.Socket.IO/SocketIoClient.cs:187-253 | the handlers called for an event are all its no-argument handlers, then, with a text, all its raw-text handlers and the typed handlers that accept the text |
| SocketIoClientLibs.EventHandlersInOrder | src/libs/H.Socket.IO/SocketIoClient.cs:174-263 | dispatching an Event packet calls exactly those handlers, in that order |
| SocketIoClientLibs.PacketsHandledByType | src/libs/H.Socket.IO/SocketIoClient.cs:163-267 | a Connect packet raises Connected for its namespace, a Disconnect packet Disconnected with the server reason, an Event packet is dispatched with its namespace and payload, an Error packet raises ErrorReceived with the quotes trimmed, and any other packet changes nothing |
| SocketIoClientLibs.MessageFrameHandled | src/libs/H.Socket.IO/SocketIoClient.cs:139 | an Engine.IO Message frame is handed to the Socket.IO message handler with its value |
| SocketIoClientLibs.ArriveSendsNothing | src/libs/H.Socket.IO/SocketIoClient.cs:148-274 | an arriving frame never sends anything |
| SocketIoClientLibs.EmitSendsEventFrame | src/libs/H.Socket.IO/SocketIoClient.cs:506-516 | `Emit` sends one frame, the Event packet with the array of the name and value, to the given or default namespace, and that array splits back into the name and the value, a string or a serialized flat object |
| SocketIoClientLibs.EventFrameReachesHandlers | src/libs/H.Socket.IO/SocketIoClient.cs:148-274 | an Event frame arriving over Engine.IO calls exactly the handlers registered for its name and namespace, as `HandlerEventsInvoke` lists them |
| SocketIoClientLibs.EmitReachesHandlers | src/libs/H.Socket.IO/SocketIoClient.cs:506-516 | what one client emits, arriving at another, calls exactly the handlers registered there for the name and namespace, with exactly the emitted string or serialized flat object |
| SocketIoClientLibs.SendConnectsInOrder | src/libs/H.Socket.IO/SocketIoClient.cs:350-355 | a Connect packet per namespace goes out in the order given, only on an open socket, and nothing else changes |
| SocketIoClientLibs.ConnectToNamespacesOutcome | src/libs/H.Socket.IO/SocketIoClient.cs:334-357 | false exactly when Engine.IO is not open, and then nothing changes; true at once with no namespaces; otherwise true exactly when Connected was raised since, the cancelled wait being the only error; on an open socket the Connect packets are sent |
| SocketIoClientLibs.ConnectToNamespaceOutcome | src/libs/H.Socket.IO/SocketIoClient.cs:367-373 | a missing namespace is an ArgumentNullException and changes nothing; false with nothing changed before Engine.IO is open; then true exactly when Connected was raised since; on an open session exactly the namespace's Connect packet is sent |
| SocketIoClientLibs.DisconnectFrames | src/libs/H.Socket.IO/SocketIoClient.cs:421-439 | disconnecting sends the default namespace's Disconnect packet when one is set, then "41", then the Engine.IO close frame "1", closes the session and raises Disconnected |
| SocketIoClientLibs.TransportClosedDisconnects | src/libs/H.Socket.IO/SocketIoClient.cs:141 | a transport disconnect reaches the handlers as Disconnected with the transport's reason and status, and leaves the session closed |
| SocketIoClientLibs.SocketIoClient.constructor | src/libs/H.Socket.IO/SocketIoClient.cs:136-142 | a new client has empty registries, no events and a new Engine.IO client for the "socket.io" framework |
| SocketIoClientLibs.SocketIoClient.On | src/libs/H.Socket.IO/SocketIoClient.cs:584-596 | the registries change as `AddAction` says |
| SocketIoClientLibs.SocketIoClient.OnText | src/libs/H.Socket.IO/SocketIoClient.cs:564-576 | the registries change as `AddTextAction` says |
| SocketIoClientLibs.SocketIoClient.OnTyped | src/libs/H.Socket.IO/SocketIoClient.cs:527-539 | the registries change as `AddTypedAction` says |
| SocketIoClientLibs.SocketIoClient.InvokeActions | src/libs/H.Socket.IO/SocketIoClient.cs:188-203 | the loop appends exactly the events of `RunActions` |
| SocketIoClientLibs.SocketIoClient.InvokeTextActions | src/libs/H.Socket.IO/SocketIoClient.cs:205-225 | the loop appends exactly the events of `RunText` |
| SocketIoClientLibs.SocketIoClient.InvokeTypedActions | src/libs/H.Socket.IO/SocketIoClient.cs:227-253 | the loop appends exactly the events of `RunTyped` |
| SocketIoClientLibs.SocketIoClient.DispatchEvent | src/libs/H.Socket.IO/SocketIoClient.cs:174-263 | the fields change as `HandleEvent` says |
| SocketIoClientLibs.SocketIoClient.EngineMessageReceived | src/libs/H.Socket.IO/SocketIoClient.cs:148-274 | the fields change as `Handle` says |
| SocketIoClientLibs.SocketIoClient.EngineEvent | src/libs/H.Socket.IO/SocketIoClient.cs:139-141 | the fields change as `Relay` says |
| SocketIoClientLibs.SocketIoClient.Forward | src/libs/H.Socket.IO/SocketIoClient.cs:139-141 | the event the Engine.IO client has just raised reaches the Socket.IO handlers, as `AfterEngine` says |
| SocketIoClientLibs.SocketIoClient.TextReceived | src/libs/H.Socket.IO/SocketIoClient.cs:139 | a frame arriving at the Engine.IO client changes both clients as `Arrive` says |
| SocketIoClientLibs.SocketIoClient.TimerElapsed | src/libs/H.Socket.IO/SocketIoClient.cs:140-141 | a heartbeat tick changes both clients as `Heartbeat` says |
| SocketIoClientLibs.SocketIoClient.EngineDisconnected | src/libs/H.Socket.IO/SocketIoClient.cs:141 | a transport disconnect changes both clients as `TransportClosed` says |
| SocketIoClientLibs.SocketIoClient.SendEventAsync | src/libs/H.Socket.IO/SocketIoClient.cs:449-456 | the Engine.IO client changes as `SendEvent` says |
| SocketIoClientLibs.SocketIoClient.Emit | src/libs/H.Socket.IO/SocketIoClient.cs:506-516 | the Engine.IO client changes as `Emission` says |
| SocketIoClientLibs.SocketIoClient.DisconnectAsync | src/libs/H.Socket.IO/SocketIoClient.cs:421-439 | both clients change as `Disconnect` says |
| SocketIoClientLibs.SocketIoClient.ConnectToNamespacesAsync | src/libs/H.Socket.IO/SocketIoClient.cs:334-357 | the fields and the result are those of `ConnectToNamespaces` |
| SocketIoClientLibs.SocketIoClient.ConnectToNamespaceAsync | src/libs/H.Socket.IO/SocketIoClient.cs:367-373 | the fields and the result are those of `ConnectToNamespace` |
| SocketIoClientLibs.SocketIoClient.OpenEngineAsync | src/libs/H.Socket.IO/SocketIoClient.cs:309 | the fields and the result are those of `OpenEngine` |
| SocketIoClientLibs.SocketIoClient.GreetAsync | src/libs/H.Socket.IO/SocketIoClient.cs:305-320 | the fields and the result are those of `Greet` |
| SocketIoClientLibs.SocketIoClient.ConnectAsync | src/libs/H.Socket.IO/SocketIoClient.cs:300-325 | the fields and the result are those of `Connect` |
| SocketIoClientH.AddHandler | H.Socket.IO/SocketIoClient.cs:414-428 | a handler is appended, with its payload type, to its key's list (name followed by the namespace, "/" by default); every other key is unchanged and nothing else changes |
| SocketIoClientH.HandleEvent | H.Socket.IO/SocketIoClient.cs:166-210 | dispatching an Event packet changes nothing but the event log, to which it appends at least the two concluding events |
| SocketIoClientH.Handle | H.Socket.IO/SocketIoClient.cs:140-222 | handling a message changes nothing but the event log, which it only appends to |
| SocketIoClientH.Relay | H.Socket.IO/SocketIoClient.cs:130-132 | an Engine.IO event only appends to the event log, and Closed becomes Disconnected with the same reason and status |
| SocketIoClientH.Leave | H.Socket.IO/SocketIoClient.cs:352-363 | writing the Disconnect packets changes only the Engine.IO client, which is still present |
| SocketIoClientH.SendConnects | H.Socket.IO/SocketIoClient.cs:291-296 | writing the Connect packets changes only the Engine.IO client, which is still present |
| SocketIoClientH.EntryCallShape | H.Socket.IO/SocketIoClient.cs:185-200 | an entry's handler is called unless the event carries a text its type's deserializer rejects, and calling it never concludes the event |
| SocketIoClientH.EntriesRun | H.Socket.IO/SocketIoClient.cs:185-200 | running a key's entries calls, in registration order, every handler whose type accepts the text, whether others throw or not |
| SocketIoClientH.HandleEventCases | H.Socket.IO/SocketIoClient.cs:166-210 | when the payload splits into values, the handlers' events come first and the conclusion says whether the name has entries in the packet's namespace |
| SocketIoClientH.EventConcludedOnce | H.Socket.IO/SocketIoClient.cs:206-209 | an Event packet raises EventReceived exactly once, as the last event but one, followed by HandledEventReceived exactly when entries are registered for its name and namespace, and UnhandledEventReceived otherwise |
| SocketIoClientH.EventHandlersInOrder | H.Socket.IO/SocketIoClient.cs:166-210 | dispatching an Event packet calls exactly the handlers `EntriesRun` lists for the key and the second value |
| SocketIoClientH.PacketsHandledByType | H.Socket.IO/SocketIoClient.cs:155-216 | a Connect packet raises Connected for its namespace, a Disconnect packet Disconnected with the server reason, an Event packet is dispatched with its namespace and payload, an Error packet raises ErrorReceived with the quotes trimmed, and any other packet changes nothing |
| SocketIoClientH.NullAndEmptyMessages | H.Socket.IO/SocketIoClient.cs:144-153 | a missing message raises ExceptionOccurred with an InvalidDataException; an empty one changes nothing |
| SocketIoClientH.MessageFrameHandled | H.Socket.IO/SocketIoClient.cs:130 | an Engine.IO Message frame is handed to the Socket.IO message handler with its value |
| SocketIoClientH.ArriveSendsNothing | H.Socket.IO/SocketIoClient.cs:140-222 | an arriving frame never sends anything and leaves the Engine.IO client present |
| SocketIoClientH.EmitSendsEventFrame | H.Socket.IO/SocketIoClient.cs:395-405 | `Emit` sends one frame, the Event packet with the array of the name and value, to the given or default namespace, and that array splits back into the name and the value, a string or a serialized flat object |
| SocketIoClientH.EventFrameReachesHandlers | H.Socket.IO/SocketIoClient.cs:140-222 | an Event frame arriving over Engine.IO calls exactly the handlers registered for its name and namespace, with its second value |
| SocketIoClientH.EmitReachesHandlers | H.Socket.IO/SocketIoClient.cs:395-405 | what one client emits, arriving at another, calls exactly the handlers registered there for the name and namespace, with exactly the emitted string or serialized flat object, except those whose type rejects it |
| SocketIoClientH.SendOnOpenSocket | H.Socket.IO/SocketIoClient.cs:376-383 | on an open socket a message goes out as the Engine.IO frame "4" followed by it, and only the socket changes |
| SocketIoClientH.SendConnectsInOrder | H.Socket.IO/SocketIoClient.cs:291-296 | a Connect packet per namespace goes out in the order given, on an open socket, and nothing else changes |
| SocketIoClientH.SendConnectsStops | H.Socket.IO/SocketIoClient.cs:291-296 | once a Connect packet fails, the later namespaces are not attempted |
| SocketIoClientH.ConnectToNamespacesOutcome | H.Socket.IO/SocketIoClient.cs:275-298 | false when Engine.IO is not open, and then nothing changes; true at once with no namespaces; otherwise a result says whether Connected was raised since; on an open socket the Connect packets are sent |
| SocketIoClientH.ConnectToNamespaceOutcome | H.Socket.IO/SocketIoClient.cs:308-314 | a missing namespace is an ArgumentNullException and changes nothing, a disposed client an ObjectDisposedException; false with nothing changed before Engine.IO is open; then a result says whether Connected was raised since; on an open session exactly the namespace's Connect packet is sent |
| SocketIoClientH.LeaveFrames | H.Socket.IO/SocketIoClient.cs:352-363 | on an open socket the default namespace's Disconnect packet, when one is set, then "41" are written; only the socket changes |
| SocketIoClientH.DisconnectFrames | H.Socket.IO/SocketIoClient.cs:348-366 | disconnecting sends the default namespace's Disconnect packet when one is set, then "41", then the Engine.IO close frame "1", closes the session and raises Disconnected |
| SocketIoClientH.ConnectSteps | H.Socket.IO/SocketIoClient.cs:242-266 | an open session goes straight to the namespaces (the given ones plus the default, without duplicates); otherwise the greeting must give true before the namespaces are connected |
| SocketIoClientH.DisposeIsFinal | H.Socket.IO/SocketIoClient.cs:468-475 | once disposed, connecting, connecting to namespaces, sending and disconnecting throw ObjectDisposedException and change nothing, disposing again changes nothing, frames no longer arrive, and handlers can still be registered |
| SocketIoClientH.SocketIoClient.constructor | H.Socket.IO/SocketIoClient.cs:128-134 | a new client has an empty registry, no events and a new Engine.IO client for the "socket.io" framework |
| SocketIoClientH.SocketIoClient.OnTyped | H.Socket.IO/SocketIoClient.cs:414-428 | the registry changes as `AddHandler` says |
| SocketIoClientH.SocketIoClient.On | H.Socket.IO/SocketIoClient.cs:448-462 | the registry changes as `AddHandler` says, with the `object` payload type |
| SocketIoClientH.SocketIoClient.InvokeEntries | H.Socket.IO/SocketIoClient.cs:185-200 | the loop appends exactly the events of `RunEntries` |
| SocketIoClientH.SocketIoClient.InvokeEntry | H.Socket.IO/SocketIoClient.cs:189-200 | one handler: only the event log changes, by the handler's invocation (and what it throws), or by a JSON error when its type rejects the text (`EntryCall`) |
| SocketIoClientH.SocketIoClient.DispatchEvent | H.Socket.IO/SocketIoClient.cs:166-210 | the fields change as `HandleEvent` says |
| SocketIoClientH.SocketIoClient.EngineMessageReceived | H.Socket.IO/SocketIoClient.cs:140-222 | the fields change as `Handle` says |
| SocketIoClientH.SocketIoClient.EngineEvent | H.Socket.IO/SocketIoClient.cs:130-132 | the fields change as `Relay` says |
| SocketIoClientH.SocketIoClient.Forward | H.Socket.IO/SocketIoClient.cs:130-132 | the event the Engine.IO client has just raised reaches the Socket.IO handlers, as `AfterEngine` says |
| SocketIoClientH.SocketIoClient.TextReceived | H.Socket.IO/SocketIoClient.cs:130 | a frame arriving at the Engine.IO client changes both clients as `Arrive` says |
| SocketIoClientH.SocketIoClient.TimerElapsed | H.Socket.IO/SocketIoClient.cs:131-132 | a heartbeat tick changes both clients as `Heartbeat` says |
| SocketIoClientH.SocketIoClient.EngineDisconnected | H.Socket.IO/SocketIoClient.cs:132 | a transport disconnect changes both clients as `TransportClosed` says |
| SocketIoClientH.SocketIoClient.SendEventAsync | H.Socket.IO/SocketIoClient.cs:376-383 | the Engine.IO client and the result change as `SendEvent` says |
| SocketIoClientH.SocketIoClient.Emit | H.Socket.IO/SocketIoClient.cs:395-405 | the Engine.IO client and the result change as `Emission` says |
| SocketIoClientH.SocketIoClient.LeaveAsync | H.Socket.IO/SocketIoClient.cs:352-363 | the Engine.IO client and the result change as `Leave` says |
| SocketIoClientH.SocketIoClient.DisconnectAsync | H.Socket.IO/SocketIoClient.cs:348-366 | both clients and the result change as `Disconnect` says |
| SocketIoClientH.SocketIoClient.SendConnectsAsync | H.Socket.IO/SocketIoClient.cs:291-296 | the loop leaves the fields and the result of `SendConnects` |
| SocketIoClientH.SocketIoClient.ConnectToNamespacesAsync | H.Socket.IO/SocketIoClient.cs:275-298 | the fields and the result are those of `ConnectToNamespaces` |
| SocketIoClientH.SocketIoClient.ConnectToNamespaceAsync | H.Socket.IO/SocketIoClient.cs:308-314 | the fields and the result are those of `ConnectToNamespace` |
| SocketIoClientH.SocketIoClient.OpenEngineAsync | H.Socket.IO/SocketIoClient.cs:250 | the fields and the result are those of `OpenEngine` |
| SocketIoClientH.SocketIoClient.GreetAsync | H.Socket.IO/SocketIoClient.cs:246-261 | the fields and the result are those of `Greet` |
| SocketIoClientH.SocketIoClient.ConnectAsync | H.Socket.IO/SocketIoClient.cs:242-266 | the fields and the result are those of `Connect` |
| SocketIoClientH.SocketIoClient.ConnectLiveAsync | H.Socket.IO/SocketIoClient.cs:246-265 | on a client that is not disposed the fields and the result are those of `Connect` |
| SocketIoClientH.SocketIoClient.DisposeAsync | H.Socket.IO/SocketIoClient.cs:468-475 | the Engine.IO client is disposed and dropped, as `Dispose` says |
| SocketIoClientSimple.AddHandler | SimpleSocketIoClient/SocketIoClient.cs:399-413 | a handler is appended, with its payload type, to its key's list, which then exists; every other key is unchanged and nothing else changes |
| SocketIoClientSimple.HandleEvent | SimpleSocketIoClient/SocketIoClient.cs:178-225 | dispatching an Event packet changes nothing but the event log, to which it appends at least one event |
| SocketIoClientSimple.Handle | SimpleSocketIoClient/SocketIoClient.cs:138-232 | handling a message changes nothing but the event log, which it only appends to |
| SocketIoClientSimple.Relay | SimpleSocketIoClient/SocketIoClient.cs:129-131 | an Engine.IO event only appends to the event log, and Closed becomes Disconnected with the same reason and status |
| SocketIoClientSimple.SendConnects | SimpleSocketIoClient/SocketIoClient.cs:287-293 | writing the Connect frames changes only the Engine.IO client, which is still present |
| SocketIoClientSimple.InvocationsAppend | SimpleSocketIoClient/SocketIoClient.cs:197-214 | the handlers called by two runs of events, one after the other, are those of the first run followed by those of the second |
| SocketIoClientSimple.EntryCallShape | SimpleSocketIoClient/SocketIoClient.cs:199-212 | an entry's handler is called unless the event carries a text its type's deserializer rejects, and calling it never announces an event |
| SocketIoClientSimple.EntriesRun | SimpleSocketIoClient/SocketIoClient.cs:197-214 | running a key's entries calls, in registration order, every handler whose type accepts the text, whether others throw or not |
| SocketIoClientSimple.EventAnnounced | SimpleSocketIoClient/SocketIoClient.cs:178-225 | an Event packet raises AfterEvent first and never again; AfterUnhandledEvent follows exactly when the payload splits and no handler list exists for its name and namespace, and then nothing else is raised |
| SocketIoClientSimple.EventHandlersInOrder | SimpleSocketIoClient/SocketIoClient.cs:178-225 | dispatching an Event packet calls exactly the handlers `EntriesRun` lists for the key and the second value, and none when the payload does not split or the key has no list |
| SocketIoClientSimple.PacketsHandledByType | SimpleSocketIoClient/SocketIoClient.cs:168-227 | a Connect packet raises Connected for its namespace, a Disconnect packet Disconnected with the server reason, an Event packet is dispatched with its namespace and payload, and any other packet, an Error packet among them, changes nothing |
| SocketIoClientSimple.NullAndEmptyMessages | SimpleSocketIoClient/SocketIoClient.cs:142-151 | a missing message raises AfterException with an InvalidDataException; an empty one changes nothing |
| SocketIoClientSimple.MessageFrameHandled | SimpleSocketIoClient/SocketIoClient.cs:129 | an Engine.IO Message frame is handed to the Socket.IO message handler with its value |
| SocketIoClientSimple.EventFrameDecodes | SimpleSocketIoClient/SocketIoClient.cs:357-368 | the frame `SendEventAsync` builds decodes to an Event packet with the message and the namespace with one leading '/', or "/" without a target |
| SocketIoClientSimple.ConnectFrameDecodes | SimpleSocketIoClient/SocketIoClient.cs:287-293 | the Connect frame for a namespace decodes to a Connect packet for that namespace with one leading '/', and arriving raises Connected for it |
| SocketIoClientSimple.EmitSendsEventFrame | SimpleSocketIoClient/SocketIoClient.cs:380-390 | `Emit` sends one frame, the Event frame with the array of the name and value, to the given or default namespace; the frame decodes to that namespace and payload, and the array splits back into the name and the value, a string or serialized JSON without a comma |
| SocketIoClientSimple.EventFrameReachesHandlers | SimpleSocketIoClient/SocketIoClient.cs:138-232 | an Event frame arriving over Engine.IO is announced with its payload and namespace and calls exactly the handlers registered for its name |
| SocketIoClientSimple.EmitReachesHandlers | SimpleSocketIoClient/SocketIoClient.cs:380-390 | what one client emits, arriving at another, is announced there with the emitted payload and calls exactly the handlers registered for the name and namespace, with exactly the emitted string or comma-free serialized JSON, except those whose type rejects it |
| SocketIoClientSimple.SendOnOpenSocket | SimpleSocketIoClient/SocketIoClient.cs:357-368 | on an open socket a message goes out as the Engine.IO frame "4" followed by it, and only the socket changes |
| SocketIoClientSimple.SendConnectsInOrder | SimpleSocketIoClient/SocketIoClient.cs:287-293 | a Connect frame per namespace goes out in the order given, on an open socket, and nothing else changes |
| SocketIoClientSimple.SendConnectsStops | SimpleSocketIoClient/SocketIoClient.cs:287-293 | once a Connect frame fails, the later namespaces are not attempted |
| SocketIoClientSimple.ConnectToNamespacesOutcome | SimpleSocketIoClient/SocketIoClient.cs:273-294 | false when Engine.IO is not open, and then nothing changes; true at once with no namespaces; otherwise a result says whether Connected was raised since; on an open socket the Connect frames are sent |
| SocketIoClientSimple.ConnectToNamespaceOutcome | SimpleSocketIoClient/SocketIoClient.cs:302-308 | a missing namespace is an ArgumentNullException and changes nothing, a disposed client an ObjectDisposedException; false with nothing changed before Engine.IO is open; then a result says whether Connected was raised since; on an open session exactly the namespace's Connect frame is sent |
| SocketIoClientSimple.ArriveSendsNothing | SimpleSocketIoClient/SocketIoClient.cs:138-232 | an arriving frame never sends anything and leaves the Engine.IO client present |
| SocketIoClientSimple.DisconnectFrames | SimpleSocketIoClient/SocketIoClient.cs:341-348 | disconnecting sends "41" and then the Engine.IO close frame "1", closes the session and raises Disconnected |
| SocketIoClientSimple.ConnectNeedsConfirmation | SimpleSocketIoClient/SocketIoClient.cs:250-265 | `ConnectAsync` gives true only after a Connected event, or on an open session with no namespace to connect to |
| SocketIoClientSimple.ConnectToNamespacesKeepsEvents | SimpleSocketIoClient/SocketIoClient.cs:273-294 | connecting to namespaces only appends events |
| SocketIoClientSimple.ConnectSteps | SimpleSocketIoClient/SocketIoClient.cs:250-265 | an open session goes straight to the namespaces (the given ones plus the default, without duplicates); otherwise an opening failure is thrown, no Connected after the greeting gives false, and a Connected lets the namespaces follow |
| SocketIoClientSimple.DisposeIsFinal | SimpleSocketIoClient/SocketIoClient.cs:454-470 | once disposed, connecting, connecting to namespaces, sending and disconnecting throw ObjectDisposedException and change nothing, disposing again changes nothing, frames no longer arrive, and handlers can still be registered |
| SocketIoClientSimple.SocketIoClient.constructor | SimpleSocketIoClient/SocketIoClient.cs:126-132 | a new client has an empty registry, no events and a new Engine.IO client for the "socket.io" framework |
| SocketIoClientSimple.SocketIoClient.OnTyped | SimpleSocketIoClient/SocketIoClient.cs:399-413 | the registry changes as `AddHandler` says |
| SocketIoClientSimple.SocketIoClient.On | SimpleSocketIoClient/SocketIoClient.cs:422-447 | the registry changes as `AddHandler` says, with the `object` payload type |
| SocketIoClientSimple.SocketIoClient.InvokeEntries | SimpleSocketIoClient/SocketIoClient.cs:197-214 | the loop appends exactly the events of `RunEntries` |
| SocketIoClientSimple.SocketIoClient.InvokeEntry | SimpleSocketIoClient/SocketIoClient.cs:199-212 | one handler: only the event log changes, by the handler's invocation (and what it throws), or by a JSON error when its type rejects the text (`EntryCall`) |
| SocketIoClientSimple.SocketIoClient.DispatchEvent | SimpleSocketIoClient/SocketIoClient.cs:178-225 | the fields change as `HandleEvent` says |
| SocketIoClientSimple.SocketIoClient.DispatchValues | SimpleSocketIoClient/SocketIoClient.cs:187-225 | once the payload is split, only the event log changes, by the parse error, the run of the entries under the name in the namespace, or the unhandled-event report (`ValuesTail`) |
| SocketIoClientSimple.SocketIoClient.EngineMessageReceived | SimpleSocketIoClient/SocketIoClient.cs:138-232 | the fields change as `Handle` says |
| SocketIoClientSimple.SocketIoClient.EngineEvent | SimpleSocketIoClient/SocketIoClient.cs:129-131 | the fields change as `Relay` says |
| SocketIoClientSimple.SocketIoClient.Forward | SimpleSocketIoClient/SocketIoClient.cs:129-131 | the event the Engine.IO client has just raised reaches the Socket.IO handlers, as `AfterEngine` says |
| SocketIoClientSimple.SocketIoClient.TextReceived | SimpleSocketIoClient/SocketIoClient.cs:129 | a frame arriving at the Engine.IO client changes both clients as `Arrive` says |
| SocketIoClientSimple.SocketIoClient.TimerElapsed | SimpleSocketIoClient/SocketIoClient.cs:130-131 | a heartbeat tick changes both clients as `Heartbeat` says |
| SocketIoClientSimple.SocketIoClient.EngineDisconnected | SimpleSocketIoClient/SocketIoClient.cs:131 | a transport disconnect changes both clients as `TransportClosed` says |
| SocketIoClientSimple.SocketIoClient.SendEventAsync | SimpleSocketIoClient/SocketIoClient.cs:357-368 | the Engine.IO client and the result change as `SendEvent` says |
| SocketIoClientSimple.SocketIoClient.Emit | SimpleSocketIoClient/SocketIoClient.cs:380-390 | the Engine.IO client and the result change as `Emission` says |
| SocketIoClientSimple.SocketIoClient.DisconnectAsync | SimpleSocketIoClient/SocketIoClient.cs:341-348 | both clients and the result change as `Disconnect` says |
| SocketIoClientSimple.SocketIoClient.SendConnectsAsync | SimpleSocketIoClient/SocketIoClient.cs:287-293 | the loop leaves the fields and the result of `SendConnects` |
| SocketIoClientSimple.SocketIoClient.ConnectToNamespacesAsync | SimpleSocketIoClient/SocketIoClient.cs:273-294 | the fields and the result are those of `ConnectToNamespaces` |
| SocketIoClientSimple.SocketIoClient.ConnectToNamespaceAsync | SimpleSocketIoClient/SocketIoClient.cs:302-308 | the fields and the result are those of `ConnectToNamespace` |
| SocketIoClientSimple.SocketIoClient.OpenEngineAsync | SimpleSocketIoClient/SocketIoClient.cs:254-257 | the fields and the result are those of `OpenEngine` |
| SocketIoClientSimple.SocketIoClient.ConnectAsync | SimpleSocketIoClient/SocketIoClient.cs:250-265 | the fields and the result are those of `Connect` |
| SocketIoClientSimple.SocketIoClient.ConnectLiveAsync | SimpleSocketIoClient/SocketIoClient.cs:254-264 | on a client that is not disposed the fields and the result are those of `Connect` |
| SocketIoClientSimple.SocketIoClient.DisposeAsync | SimpleSocketIoClient/SocketIoClient.cs:454-461 | the Engine.IO client is disposed and dropped, as `Disposed` says |
| SocketIoClientSimple.SocketIoClient.Dispose | SimpleSocketIoClient/SocketIoClient.cs:466-470 | the Engine.IO client is disposed and dropped, as `Disposed` says |

## Left out

- The WebSocket transport (src/libs/H.WebSockets/WebSocketClient.cs and SimpleSocketIoClient/WebSocketClient.cs) is I/O. Its receive loop, fragment buffering, reconnect on WebSocketException and close handshake are not modelled. It appears only as a `connected` flag, a log of sent frames and the last address it connected to. Sending on a closed socket writes nothing, as in `SendTextAsync`.
- Real time is not modelled. The heartbeat timer is an interval and a running flag, and a tick is a method call.
- Cancellation, timeouts and the event-waiting helpers are not modelled as tasks. This covers `WaitEventAsync`, `WaitAnyEventAsync` and `WaitEventOrErrorAsync` (SimpleSocketIoClient/Utilities/EventExtensions.cs, TaskExtensions.cs and src/libs/H.WebSockets/Utilities/TaskWorker.cs). A wait is given the one frame it observes, and `None` stands for a cancelled or timed-out wait. In the libs clients the waits of `OpenAsync` and `ConnectToNamespacesAsync` then throw OperationCanceledException, while the wait for the greeting in `ConnectAsync` gives false; the other clients give false on every wait.
- The ArgumentNullException guards on null string and delegate arguments are not modelled, because strings, names and handlers are values here and are never null. This covers `Extract` on a null text or start (SimpleSocketIoClient/Utilities/StringExtensions.cs:22-23), `GetEventValues` and `GetJsonArrayValues` on a null text, and the null name and handler checks of the libs `On` overloads (src/libs/H.Socket.IO/SocketIoClient.cs:529-587). Null arguments that the model does carry as `Option`, such as the address and the namespace, keep their guards.
- SimpleSocketIoUtilities.GetEventValues: compares the first and last characters with '[' and ']' ordinally. The source's `StartsWith` and `EndsWith` (SimpleSocketIoClient/Utilities/SocketIoUtilities.cs:19) compare under the current culture, which is not modelled.
- The `TimeSpan` and `int` timeout overloads of `ConnectAsync` and `OpenAsync` only build a cancellation source, so they are not separate members.
- The JSON library is not modelled. `JsonConvert.DeserializeObject` is the `deserialize` parameter, and the open-message parser is the `parse` parameter. `SerializeObject` in `Emit` is the `Serialized` case of `EmitValue`, carrying the text it would produce.
- Whether a handler throws is the `throws` parameter. A handler is an opaque id. A null `action` behind `action?.Invoke` is not modelled. Neither are handlers that call back into the client while they run.
- `System.Uri` parsing is not modelled. A URI is a record of scheme, host, port, path and query.
- Proxy settings are configuration pass-through and are not modelled.
- The EventArgs classes are not modelled as classes. Their contents are carried by the event datatypes.
- EngineIoClientLibs: `Dispose`/`DisposeAsync` of src/libs/H.Engine.IO/EngineIoClient.cs are not modelled, because what follows them is decided inside `ClientWebSocket`.
- EngineIoClientSimple: `DisposeAsync` (SimpleSocketIoClient/EngineIO/EngineIoClient.cs:369-379) has the same effect on the fields as `Dispose` and is covered by `EngineIoClient.Dispose`.
- `SplitByIndexes` is not part of this model. Its meaning, cutting at the given positions and dropping the characters there, is taken from its unit test and stated as `Text.SplitAt`.
- The Node.js test servers and the test projects are not modelled. Their fixtures appear as lemmas where they pin the code.
- SocketIoCore.EmitRoundTrip: stated only for a name and a text with no comma, brace or surrounding quote. `Emit` does not escape, so other texts do not come back whole.
- SocketIoClientLibs.EmitSendsEventFrame: a serialized value is covered only as a flat object. `GetJsonArrayValues` counts braces but not square brackets, so nested objects and arrays are cut apart, as `NestedArrayIsCut` shows.
- SocketIoClientLibs.EmitReachesHandlers: a serialized value is covered only as a flat object, for the same reason.
- SocketIoClientH.EmitSendsEventFrame: a serialized value is covered only as a flat object, for the same reason.
- SocketIoClientH.EmitReachesHandlers: a serialized value is covered only as a flat object, for the same reason.
- SocketIoClientSimple.EmitSendsEventFrame: a serialized value is covered only without commas. That revision's `GetEventValues` cuts at every comma, so any other JSON comes back in pieces.
- SocketIoClientSimple.EmitReachesHandlers: a serialized value is covered only without commas, for the same reason.

## Where the code and its unit tests disagree

The model follows the code in both places. Neither is claimed as a bug: the tests state the intent, and the code may simply not have caught up.

- `GetJsonArrayValues` (src/H.Socket.IO/Utilities/SocketIoUtilities.cs:26-46) counts braces but not square brackets. `Trim('[', ']')` also removes both closing brackets. So `["messages",[{},{},{}]]` is cut into four values, where src/tests/H.Socket.IO.UnitTests/SocketIoUtilitiesTests.cs:13-14 expects two. `SocketIoUtilities.NestedArrayIsCut` states what the code gives.
- `GetEventValues` (SimpleSocketIoClient/Utilities/SocketIoUtilities.cs:24-27) splits at every comma. So an object holding commas is cut apart, where SimpleSocketIoClient.Tests/SocketIoUtilitiesTests.cs:24-26 expects it whole. `SimpleSocketIoUtilities.ObjectWithCommasIsSplit` states what the code gives.
