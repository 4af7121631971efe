/** The WebSocket address an Engine.IO client connects to: the scheme mapped
    to `ws`/`wss`, the framework segment appended to the path, and the
    Engine.IO revision 3 query parameters put in front of the caller's
    query. */
module Handshake {
  import opened Wrappers
  import opened Exceptions
  import opened Text

  /** The parts of a parsed `System.Uri` the handshake reads.  `path` is
      `AbsolutePath` (at least "/"), `query` is `Query` ("" or "?..."). */
  datatype Uri = Uri(scheme: string, host: string, port: int, path: string, query: string)

  const DefaultFramework: string := "engine.io"
  const SocketIoFramework: string := "socket.io"
  const HandshakeQuery: string := "?EIO=3&transport=websocket&"

  /** The WebSocket scheme of a supported scheme. */
  function WebSocketScheme(scheme: string): (r: Result<string, Exception>)
    ensures r.Ok? <==> scheme in {"http", "https", "ws", "wss"}
    ensures r.Ok? ==> r.value in {"ws", "wss"}
    ensures r.Ok? ==> (r.value == "wss" <==> scheme in {"https", "wss"})
    ensures r.Err? ==> r.error == Argument("Scheme is not supported: " + scheme)
  {
    if scheme == "http" then Ok("ws")
    else if scheme == "https" then Ok("wss")
    else if scheme == "ws" then Ok("ws")
    else if scheme == "wss" then Ok("wss")
    else Err(Argument("Scheme is not supported: " + scheme))
  }

  /** The query the handshake sends: the revision parameters, then the
      caller's query without its leading '?'. */
  function HandshakeQueryOf(query: string): (r: string)
    ensures |HandshakeQuery| <= |r| && r[..|HandshakeQuery|] == HandshakeQuery
    ensures var rest := r[|HandshakeQuery|..];
            (rest == [] || rest[0] != '?') && |rest| <= |query| && rest == query[|query| - |rest|..]
  {
    TrimStartShape(query, {'?'});
    HandshakeQuery + TrimStart(query, {'?'})
  }

  /** `ToWebSocketUri` of the current clients: the trailing slashes of the
      path are replaced by "/" + framework + "/". */
  function ToWebSocketUri(uri: Option<Uri>, framework: Option<string>): (r: Result<Uri, Exception>)
    ensures uri.None? ==> r == Err(ArgumentNull("uri"))
    ensures uri.Some? && framework.None? ==> r == Err(ArgumentNull("framework"))
    ensures uri.Some? && framework.Some? ==>
              (r.Ok? <==> uri.value.scheme in {"http", "https", "ws", "wss"})
    ensures uri.Some? && framework.Some? && r.Err? ==>
              r.error == Argument("Scheme is not supported: " + uri.value.scheme)
    ensures r.Ok? ==> r.value.scheme == WebSocketScheme(uri.value.scheme).value
    ensures r.Ok? ==> r.value.host == uri.value.host && r.value.port == uri.value.port
    ensures r.Ok? ==> r.value.query == HandshakeQueryOf(uri.value.query)
  {
    match uri
    case None => Err(ArgumentNull("uri"))
    case Some(u) =>
      match framework
      case None => Err(ArgumentNull("framework"))
      case Some(f) =>
        match WebSocketScheme(u.scheme)
        case Err(e) => Err(e)
        case Ok(scheme) =>
          Ok(Uri(scheme, u.host, u.port, TrimEnd(u.path, {'/'}) + "/" + f + "/", HandshakeQueryOf(u.query)))
  }

  /** The handshake address of the older clients, which drop the path of the
      address they are given. */
  function LegacyWebSocketUri(u: Uri, framework: string): (r: Result<Uri, Exception>)
    ensures r.Ok? <==> u.scheme in {"http", "https", "ws", "wss"}
    ensures r.Err? ==> r.error == Argument("Scheme is not supported: " + u.scheme)
    ensures r.Ok? ==> r.value.scheme == WebSocketScheme(u.scheme).value
    ensures r.Ok? ==> r.value.path == "/" + framework + "/"
    ensures r.Ok? ==> r.value.host == u.host && r.value.port == u.port
    ensures r.Ok? ==> r.value.query == HandshakeQueryOf(u.query)
  {
    match WebSocketScheme(u.scheme)
    case Err(e) => Err(e)
    case Ok(scheme) => Ok(Uri(scheme, u.host, u.port, "/" + framework + "/", HandshakeQueryOf(u.query)))
  }

  /** The older address is the current one computed for the root path. */
  lemma LegacyIsRootPath(u: Uri, framework: string)
    ensures LegacyWebSocketUri(u, framework) == ToWebSocketUri(Some(u.(path := "/")), Some(framework))
  {
    assert "/"[..0] == "";
    assert TrimEnd("/", {'/'}) == "";
    assert "" + "/" == "/";
  }

  /** The handshake path keeps the given path up to its trailing slashes,
      then the framework segment. */
  lemma HandshakePath(u: Uri, framework: string)
    requires u.scheme in {"http", "https", "ws", "wss"}
    ensures var r := ToWebSocketUri(Some(u), Some(framework));
            var base := TrimEnd(u.path, {'/'});
            r.Ok? && r.value.path == base + "/" + framework + "/"
            && |base| <= |u.path| && base == u.path[..|base|]
            && (base == [] || base[|base| - 1] != '/')
            && forall i :: |base| <= i < |u.path| ==> u.path[i] == '/'
  {
    TrimEndShape(u.path, {'/'});
  }

  /** A trailing slash on the path does not change the handshake address. */
  lemma TrailingSlashIgnored(u: Uri, framework: Option<string>)
    ensures ToWebSocketUri(Some(u.(path := u.path + "/")), framework) == ToWebSocketUri(Some(u), framework)
  {
    assert (u.path + "/")[..|u.path|] == u.path;
    assert TrimEnd(u.path + "/", {'/'}) == TrimEnd(u.path, {'/'});
  }

  /** Leading question marks on the query do not change the handshake
      address, and the caller's parameters follow the revision
      parameters unchanged. */
  lemma QueryKept(u: Uri, framework: Option<string>, parameters: string)
    requires parameters == [] || parameters[0] != '?'
    ensures ToWebSocketUri(Some(u.(query := "?" + parameters)), framework)
            == ToWebSocketUri(Some(u.(query := parameters)), framework)
    ensures HandshakeQueryOf("?" + parameters) == HandshakeQuery + parameters
  {
    assert ("?" + parameters)[1..] == parameters;
    assert TrimStart(parameters, {'?'}) == parameters;
  }

  /** The root-address fixtures of the unit tests, with the ports the
      parser gives (443 for https and wss). */
  lemma RootFixtures()
    ensures ToWebSocketUri(Some(Uri("wss", "socketio-chat-h9jt.herokuapp.com", 443, "/", "")), Some(DefaultFramework))
            == Ok(Uri("wss", "socketio-chat-h9jt.herokuapp.com", 443, "/" + DefaultFramework + "/", HandshakeQuery))
    ensures ToWebSocketUri(Some(Uri("wss", "socketio-chat-h9jt.herokuapp.com", 443, "/", "")), Some(SocketIoFramework))
            == Ok(Uri("wss", "socketio-chat-h9jt.herokuapp.com", 443, "/" + SocketIoFramework + "/", HandshakeQuery))
    ensures ToWebSocketUri(Some(Uri("https", "abc.com", 443, "/", "?" + "arg")), Some(DefaultFramework))
            == Ok(Uri("wss", "abc.com", 443, "/" + DefaultFramework + "/", HandshakeQuery + "arg"))
  {
    assert "/"[..0] == "";
    assert TrimEnd("/", {'/'}) == "";
    assert "" + "/" == "/";
    QueryKept(Uri("https", "abc.com", 443, "/", ""), Some(DefaultFramework), "arg");
    assert HandshakeQueryOf("?" + "arg") == HandshakeQuery + "arg";
    assert TrimStart("", {'?'}) == "";
    assert HandshakeQuery + "" == HandshakeQuery;
  }

  /** The path fixtures of the unit tests: with or without a trailing
      slash, the path is kept and the framework segment follows it. */
  lemma PathFixtures()
    ensures ToWebSocketUri(Some(Uri("https", "abc.com", 443, "/path", "")), Some(SocketIoFramework))
            == Ok(Uri("wss", "abc.com", 443, "/path" + "/" + SocketIoFramework + "/", HandshakeQuery))
    ensures ToWebSocketUri(Some(Uri("https", "abc.com", 443, "/path" + "/", "")), Some(SocketIoFramework))
            == Ok(Uri("wss", "abc.com", 443, "/path" + "/" + SocketIoFramework + "/", HandshakeQuery))
    ensures ToWebSocketUri(Some(Uri("https", "abc.com", 443, "/very/long/path" + "/", "")), Some(SocketIoFramework))
            == Ok(Uri("wss", "abc.com", 443, "/very/long/path" + "/" + SocketIoFramework + "/", HandshakeQuery))
  {
    TrimEndSuffix("/path", "", {'/'});
    assert "/path" + "" == "/path";
    assert TrimStart("", {'?'}) == "";
    assert HandshakeQuery + "" == HandshakeQuery;
    TrimEndSuffix("/path", "/", {'/'});
    TrimEndSuffix("/very/long/path", "/", {'/'});
  }

  /** The query fixture of the unit tests: the caller's parameters follow
      the revision parameters. */
  lemma QueryFixture()
    ensures ToWebSocketUri(Some(Uri("https", "abc.com", 443, "/path" + "/", "?" + "arg=value")), Some(DefaultFramework))
            == Ok(Uri("wss", "abc.com", 443, "/path" + "/" + DefaultFramework + "/", HandshakeQuery + "arg=value"))
  {
    TrimEndSuffix("/path", "/", {'/'});
    QueryKept(Uri("https", "abc.com", 443, "/path" + "/", ""), Some(DefaultFramework), "arg=value");
  }
}
