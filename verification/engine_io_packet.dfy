/** Engine.IO revision 3 packets: a one-character type prefix followed by the
    value, with no separator and no escaping.  Both `EngineIoPacket` classes
    of the repository (the current one and the older `H.EngineIO` copy) have
    this same logic. */
module EngineIoPacket {
  import opened Wrappers
  import opened Exceptions

  /** The seven packet types of Engine.IO revision 3. */
  datatype PacketType = Open | Close | Ping | Pong | Message | Upgrade | Noop

  /** The prefix constant of each packet type. */
  function Prefix(t: PacketType): (r: string)
    ensures |r| == 1 && '0' <= r[0] <= '6'
  {
    match t
    case Open => "0"
    case Close => "1"
    case Ping => "2"
    case Pong => "3"
    case Message => "4"
    case Upgrade => "5"
    case Noop => "6"
  }

  /** The packet type a prefix denotes, if any: the `switch` on `Prefix` in
      every client. */
  function TypeOf(prefix: string): (r: Option<PacketType>)
    ensures r.Some? ==> Prefix(r.value) == prefix
    ensures r.None? ==> forall t: PacketType :: Prefix(t) != prefix
  {
    if prefix == "0" then Some(Open)
    else if prefix == "1" then Some(Close)
    else if prefix == "2" then Some(Ping)
    else if prefix == "3" then Some(Pong)
    else if prefix == "4" then Some(Message)
    else if prefix == "5" then Some(Upgrade)
    else if prefix == "6" then Some(Noop)
    else None
  }

  /** The seven prefixes are pairwise distinct. */
  lemma PrefixesDistinct(a: PacketType, b: PacketType)
    ensures Prefix(a) == Prefix(b) ==> a == b
  {
    assert TypeOf(Prefix(a)) == Some(a);
  }

  /** A packet; the constructor's missing value is the empty string. */
  datatype Packet = Packet(prefix: string, value: string)

  /** `new EngineIoPacket(prefix, value)` where a null value becomes "". */
  function Create(prefix: string, value: Option<string>): (p: Packet)
    ensures p.prefix == prefix
    ensures value.None? ==> p.value == ""
    ensures value.Some? ==> p.value == value.value
  {
    Packet(prefix, value.GetOr(""))
  }

  /** The first character is the prefix and the rest, whatever it holds, is
      the value; `Substring(0, 1)` of the empty frame throws. */
  function Decode(message: string): (r: Result<Packet, Exception>)
    ensures r.Err? <==> message == []
    ensures r.Ok? ==> |r.value.prefix| == 1 && r.value.prefix + r.value.value == message
  {
    if |message| == 0 then Err(ArgumentOutOfRange)
    else Ok(Packet(message[..1], message[1..]))
  }

  /** The prefix immediately followed by the value. */
  function Encode(p: Packet): string {
    p.prefix + p.value
  }

  /** Decoding then encoding a non-empty frame gives the frame back. */
  lemma EncodeDecoded(message: string)
    requires message != []
    ensures Decode(message).Ok? && Encode(Decode(message).value) == message
  {
  }

  /** Encoding then decoding a packet with a one-character prefix gives the
      packet back. */
  lemma DecodeEncoded(p: Packet)
    requires |p.prefix| == 1
    ensures Decode(Encode(p)) == Ok(p)
  {
    assert Encode(p)[..1] == p.prefix;
    assert Encode(p)[1..] == p.value;
  }

  /** A Close packet created without a value encodes to "1"; the frames the
      clients send are spelled out here. */
  lemma WellKnownFrames(m: string)
    ensures Encode(Create(Prefix(Close), None)) == "1"
    ensures Encode(Create(Prefix(Ping), Some("ping"))) == "2ping"
    ensures Encode(Create(Prefix(Message), Some(m))) == "4" + m
  {
  }

  /** The open-message frame of the unit tests. */
  lemma OpenFixture()
    ensures var open := "{\"sid\":\"lvRP3AYFhuQr-7iVB5T9\",\"upgrades\":[],\"pingInterval\":25000,\"pingTimeout\":60000}";
            Decode("0" + open) == Ok(Create(Prefix(Open), Some(open)))
  {
    var open := "{\"sid\":\"lvRP3AYFhuQr-7iVB5T9\",\"upgrades\":[],\"pingInterval\":25000,\"pingTimeout\":60000}";
    DecodeEncoded(Create(Prefix(Open), Some(open)));
  }

  /** The close frame and the message frames of the unit tests; a message
      frame carries the Socket.IO packet, namespace and comma included, as
      its value. */
  lemma MessageFixtures()
    ensures Decode("1") == Ok(Create(Prefix(Close), None))
    ensures Decode("40") == Ok(Create(Prefix(Message), Some("0")))
    ensures Decode("4" + "2[\"login\",{\"numUsers\":5}]")
            == Ok(Create(Prefix(Message), Some("2[\"login\",{\"numUsers\":5}]")))
    ensures Decode("4" + "2/my,[\"message\",{\"message\":\"hello\"}]")
            == Ok(Create(Prefix(Message), Some("2/my,[\"message\",{\"message\":\"hello\"}]")))
    ensures Decode("4" + "4\"Authentication error\"")
            == Ok(Create(Prefix(Message), Some("4\"Authentication error\"")))
  {
    DecodeEncoded(Create(Prefix(Close), None));
    assert Encode(Create(Prefix(Close), None)) == "1";
    DecodeEncoded(Create(Prefix(Message), Some("0")));
    assert Encode(Create(Prefix(Message), Some("0"))) == "40";
    DecodeEncoded(Create(Prefix(Message), Some("2[\"login\",{\"numUsers\":5}]")));
    DecodeEncoded(Create(Prefix(Message), Some("2/my,[\"message\",{\"message\":\"hello\"}]")));
    DecodeEncoded(Create(Prefix(Message), Some("4\"Authentication error\"")));
  }
}
