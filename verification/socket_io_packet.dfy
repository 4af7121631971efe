/** Socket.IO packets as carried in Engine.IO message frames: a one-character
    type prefix, an optional `/namespace`, an optional `,`, then the payload.
    The default namespace "/" is never written out. */
module SocketIoPacket {
  import opened Wrappers
  import opened Exceptions
  import opened Text

  /** The packet types the client acts on (acknowledgements and binary
      packets are commented out in the source). */
  datatype PacketType = Connect | Disconnect | Event | Error

  function Prefix(t: PacketType): (r: string)
    ensures |r| == 1 && r[0] in {'0', '1', '2', '4'}
  {
    match t
    case Connect => "0"
    case Disconnect => "1"
    case Event => "2"
    case Error => "4"
  }

  /** The `switch` on `Prefix` in the clients. */
  function TypeOf(prefix: string): (r: Option<PacketType>)
    ensures r.Some? ==> Prefix(r.value) == prefix
    ensures r.None? ==> forall t: PacketType :: Prefix(t) != prefix
  {
    if prefix == "0" then Some(Connect)
    else if prefix == "1" then Some(Disconnect)
    else if prefix == "2" then Some(Event)
    else if prefix == "4" then Some(Error)
    else None
  }

  const DefaultNamespace: string := "/"

  datatype Packet = Packet(prefix: string, ns: string, value: string)

  /** `new SocketIoPacket(prefix, value, namespace)`: a missing namespace is
      "/" and a missing value is "". */
  function Create(prefix: string, value: Option<string>, ns: Option<string>): (p: Packet)
    ensures p.prefix == prefix
    ensures p.ns == (if ns.Some? then ns.value else DefaultNamespace)
    ensures p.value == (if value.Some? then value.value else "")
  {
    Packet(prefix, ns.GetOr(DefaultNamespace), value.GetOr(""))
  }

  /** Whether the frame names its namespace: its second character is '/'. */
  predicate HasNamespace(message: string) {
    |message| >= 2 && message[1] == '/'
  }

  /** Parses a frame.  Without a namespace the whole rest is the value.  With
      one, the namespace (leading '/' kept) runs up to the first comma of the
      frame and the value follows that comma; without a comma the value is
      empty.  A frame that starts with ",/" has its first comma at position
      0, and the namespace substring then has length -1 and throws. */
  function Decode(message: string): (r: Result<Packet, Exception>)
    ensures r.Err? <==> message == [] || (HasNamespace(message) && message[0] == ',')
    ensures r.Ok? ==> r.value.prefix == message[..1]
    ensures r.Ok? && !HasNamespace(message) ==>
              r.value.ns == DefaultNamespace && r.value.value == message[1..]
    ensures r.Ok? && HasNamespace(message) ==>
              |r.value.ns| >= 1 && r.value.ns[0] == '/' && ',' !in r.value.ns
              && message == r.value.prefix + r.value.ns
                            + (if ',' in message then [','] else []) + r.value.value
  {
    if |message| == 0 then Err(ArgumentOutOfRange)
    else
      var prefix := message[..1];
      if HasNamespace(message) then
        match IndexOfChar(message, ',')
        case Some(index) =>
          if index < 1 then Err(ArgumentOutOfRange)
          else
            assert message == prefix + message[1..index] + [','] + message[index + 1..];
            Ok(Packet(prefix, message[1..index], message[index + 1..]))
        case None =>
          Ok(Packet(prefix, message[1..], ""))
      else Ok(Packet(prefix, DefaultNamespace, message[1..]))
  }

  /** The namespace segment: nothing for "/", otherwise the namespace with
      exactly one leading '/'. */
  function NamespaceBody(ns: string): string {
    if ns == DefaultNamespace then "" else "/" + TrimStart(ns, {'/'})
  }

  /** Prefix, namespace segment, a comma when both the segment and the value
      are non-blank, then the value. */
  function Encode(p: Packet): string {
    var body := NamespaceBody(p.ns);
    var comma := if !IsBlank(body) && !IsBlank(p.value) then "," else "";
    p.prefix + body + comma + p.value
  }

  /** A segment that is written at all starts with '/', so it is never
      blank. */
  lemma NamespaceBodyShape(ns: string)
    ensures ns == DefaultNamespace <==> NamespaceBody(ns) == ""
    ensures ns != DefaultNamespace ==>
              NamespaceBody(ns)[0] == '/' && !IsBlank(NamespaceBody(ns))
              && (|NamespaceBody(ns)| == 1 || NamespaceBody(ns)[1] != '/')
  {
    if ns != DefaultNamespace {
      TrimStartShape(ns, {'/'});
      assert !IsWhiteSpace(NamespaceBody(ns)[0]);
    }
  }

  /** The default namespace is left out of the encoded form, with no comma. */
  lemma EncodeDefaultNamespace(p: Packet)
    requires p.ns == DefaultNamespace
    ensures Encode(p) == p.prefix + p.value
  {
  }

  /** Any other namespace is written with exactly one leading '/', followed
      by a comma exactly when the value is not blank. */
  lemma EncodeNamedNamespace(p: Packet)
    requires p.ns != DefaultNamespace
    ensures NamespaceBody(p.ns) == "/" + TrimStart(p.ns, {'/'})
    ensures Encode(p) == p.prefix + NamespaceBody(p.ns)
                         + (if IsBlank(p.value) then "" else ",") + p.value
  {
    NamespaceBodyShape(p.ns);
  }

  /** Leading slashes do not matter: "my", "/my" and "//my" encode alike. */
  lemma EncodeIgnoresLeadingSlashes(p: Packet, q: Packet)
    requires p.prefix == q.prefix && p.value == q.value
    requires p.ns != DefaultNamespace && q.ns != DefaultNamespace
    requires TrimStart(p.ns, {'/'}) == TrimStart(q.ns, {'/'})
    ensures Encode(p) == Encode(q)
  {
  }

  /** Namespaces that survive a round trip: "/", or '/' followed by a
      non-empty name that neither starts with '/' nor holds a comma. */
  predicate CanonicalNamespace(ns: string) {
    ns == DefaultNamespace
    || (|ns| >= 2 && ns[0] == '/' && ns[1] != '/' && ',' !in ns)
  }

  /** Packets that survive Encode then Decode: a one-character prefix other
      than ','; a canonical namespace; in the default namespace a value that
      does not start with '/' (it would be read as a namespace); otherwise a
      value that is empty or not blank (a blank value loses its comma). */
  predicate RoundTrips(p: Packet) {
    |p.prefix| == 1 && p.prefix != ","
    && CanonicalNamespace(p.ns)
    && (p.ns == DefaultNamespace ==> p.value == [] || p.value[0] != '/')
    && (p.ns != DefaultNamespace ==> p.value == [] || !IsBlank(p.value))
  }

  lemma TrimStartCanonical(ns: string)
    requires |ns| >= 2 && ns[0] == '/' && ns[1] != '/'
    ensures "/" + TrimStart(ns, {'/'}) == ns
  {
    assert TrimStart(ns, {'/'}) == TrimStart(ns[1..], {'/'}) == ns[1..];
  }

  /** Encode then Decode gives the packet back, for every packet that
      `RoundTrips` admits. */
  lemma {:induction false} DecodeEncoded(p: Packet)
    requires RoundTrips(p)
    ensures Decode(Encode(p)) == Ok(p)
  {
    var m := Encode(p);
    if p.ns == DefaultNamespace {
      EncodeDefaultNamespace(p);
      assert m[..1] == p.prefix && m[1..] == p.value;
      assert !HasNamespace(m);
    } else {
      EncodeNamedNamespace(p);
      TrimStartCanonical(p.ns);
      var comma := if IsBlank(p.value) then "" else ",";
      var head := p.prefix + p.ns;
      assert m == head + comma + p.value;
      assert m[0] == p.prefix[0] && m[1] == p.ns[0];
      assert m[..1] == p.prefix;
      assert ',' !in head;
      if p.value == [] {
        assert m == head;
        assert IndexOfChar(m, ',') == None;
        assert m[1..] == p.ns;
      } else {
        assert comma == ",";
        var index := |head|;
        assert m[index] == ',' && m[..index] == head;
        assert IndexOfChar(m, ',') == Some(index);
        assert m[1..index] == p.ns;
        assert m[index + 1..] == p.value;
      }
    }
  }

  /** Frames that survive Decode then Encode: without a namespace, always
      (a one-character prefix keeps the rest verbatim); with one, the
      namespace must be more than "/" and must not start "//", and the comma
      must be followed by a non-blank value, or be absent. */
  predicate CanonicalFrame(message: string) {
    |message| >= 1
    && (HasNamespace(message) ==>
          message[0] != ','
          && match IndexOfChar(message, ',')
             case Some(index) =>
               index >= 3 && message[2] != '/' && !IsBlank(message[index + 1..])
             case None =>
               |message| >= 3 && message[2] != '/')
  }

  /** Decode then Encode gives exactly the frames `CanonicalFrame` admits
      back: both directions. */
  lemma {:induction false} EncodeDecoded(message: string)
    requires message != []
    ensures Decode(message).Ok? && Encode(Decode(message).value) == message
            <==> CanonicalFrame(message)
  {
    var r := Decode(message);
    if r.Ok? {
      var p := r.value;
      if !HasNamespace(message) {
        assert message == p.prefix + p.value;
        EncodeDefaultNamespace(p);
      } else {
        var index := IndexOfChar(message, ',');
        NamespaceBodyShape(p.ns);
        if p.ns == DefaultNamespace {
          // "/" alone disappears from the encoding.
          EncodeDefaultNamespace(p);
          assert |Encode(p)| < |message|;
          if index.Some? {
            assert index.value == 2;
          }
        } else if p.ns[1] == '/' {
          // Extra leading slashes are trimmed away.
          EncodeNamedNamespace(p);
          TrimStartShape(p.ns[2..], {'/'});
          assert TrimStart(p.ns, {'/'}) == TrimStart(p.ns[1..], {'/'}) == TrimStart(p.ns[2..], {'/'});
          assert |TrimStart(p.ns, {'/'})| < |p.ns| - 1;
          assert |Encode(p)| < |message|;
        } else {
          EncodeNamedNamespace(p);
          TrimStartCanonical(p.ns);
          assert |p.ns| >= 2;
          match index
          case Some(i) =>
            assert i == 1 + |p.ns|;
            assert p.value == message[i + 1..];
            if IsBlank(p.value) {
              assert |Encode(p)| < |message|;
            }
          case None =>
            assert message == p.prefix + p.ns;
        }
      }
    }
  }

  /** The frames of the unit tests. */
  lemma Fixtures()
    ensures Decode("0") == Ok(Create(Prefix(Connect), None, None))
    ensures Decode("0" + "/my") == Ok(Create(Prefix(Connect), None, Some("/my")))
    ensures Decode("1") == Ok(Create(Prefix(Disconnect), None, None))
    ensures Decode("2" + "[\"login\",{\"numUsers\":5}]")
            == Ok(Create(Prefix(Event), Some("[\"login\",{\"numUsers\":5}]"), Some("/")))
    ensures Decode("2" + "/my" + "," + "[\"message\",{\"message\":\"hello\"}]")
            == Ok(Create(Prefix(Event), Some("[\"message\",{\"message\":\"hello\"}]"), Some("/my")))
    ensures Decode("4" + "\"Authentication error\"")
            == Ok(Create(Prefix(Error), Some("\"Authentication error\""), None))
  {
    DecodeEncoded(Create(Prefix(Connect), None, None));
    assert Encode(Create(Prefix(Connect), None, None)) == "0";
    DecodeEncoded(Create(Prefix(Connect), None, Some("/my")));
    EncodeNamedNamespace(Create(Prefix(Connect), None, Some("/my")));
    TrimStartCanonical("/my");
    DecodeEncoded(Create(Prefix(Disconnect), None, None));
    assert Encode(Create(Prefix(Disconnect), None, None)) == "1";
    DecodeEncoded(Create(Prefix(Event), Some("[\"login\",{\"numUsers\":5}]"), Some("/")));
    var hello := "[\"message\",{\"message\":\"hello\"}]";
    assert !IsWhiteSpace(hello[0]);
    DecodeEncoded(Create(Prefix(Event), Some(hello), Some("/my")));
    EncodeNamedNamespace(Create(Prefix(Event), Some(hello), Some("/my")));
    DecodeEncoded(Create(Prefix(Error), Some("\"Authentication error\""), None));
  }
}
