/** The SOCKS5 client handshake (internal/proxy/socks5.go), against decoders written from RFC 1928
    (sections 3 to 6) and RFC 1929 (section 2). */
module Socks5 {
  import opened Model

  type byte = x: int | 0 <= x < 256

  type Bytes = seq<byte>

  /** Upstream credentials; Go strings are byte sequences. */
  datatype Config = Config(username: Bytes, password: Bytes)

  /** A destination as the source classifies it after splitting and parsing the target. */
  datatype Host = V4(addr: Bytes) | V6(addr: Bytes) | Name(name: Bytes)

  /** `Malformed` when no host and port could be split off, or the port is no number. */
  datatype Target = Malformed | Target(host: Host, port: int)

  datatype DialError =
    | ShortRead | MethodRejected | CredentialsTooLong | AuthRejected | InvalidTarget | NameTooLong
    | ConnectFailed(code: byte) | BadAddressType

  // ---------------------------------------------------------------------------
  // What the client writes
  // ---------------------------------------------------------------------------

  predicate WantsAuth(cfg: Config) {
    cfg.username != [] || cfg.password != []
  }

  function AuthMethod(cfg: Config): byte {
    if WantsAuth(cfg) then 2 else 0
  }

  function Greeting(cfg: Config): Bytes {
    [5, 1, AuthMethod(cfg)]
  }

  function AuthRequest(cfg: Config): Bytes
    requires |cfg.username| <= 255 && |cfg.password| <= 255
  {
    [1, |cfg.username|] + cfg.username + [|cfg.password|] + cfg.password
  }

  /** The lengths that net.IP guarantees, and the one the source checks. */
  predicate HostOk(h: Host) {
    match h
    case V4(a) => |a| == 4
    case V6(a) => |a| == 16
    case Name(n) => |n| <= 255
  }

  function Address(h: Host): Bytes
    requires HostOk(h)
  {
    match h
    case V4(a) => [1] + a
    case V6(a) => [4] + a
    case Name(n) => [3, |n|] + n
  }

  function PortBytes(port: int): Bytes
    requires 0 <= port < 65536
  {
    [port / 256, port % 256]
  }

  function ConnectRequest(h: Host, port: int): Bytes
    requires HostOk(h) && 0 <= port < 65536
  {
    [5, 1, 0] + Address(h) + PortBytes(port)
  }

  // ---------------------------------------------------------------------------
  // What a server reads, by the standards
  // ---------------------------------------------------------------------------

  /** RFC 1929 section 2: VER, ULEN, UNAME, PLEN, PASSWD. */
  function DecodeAuth(b: Bytes): Option<Config> {
    if |b| < 2 || b[0] != 1 then None
    else
      var ulen: int := b[1];
      if |b| < 3 + ulen then None
      else
        var plen: int := b[2 + ulen];
        if |b| != 3 + ulen + plen then None else Some(Config(b[2..2 + ulen], b[3 + ulen..]))
  }

  /** The same section gives user name and password 1 to 255 octets each. */
  function DecodeAuthStrictly(b: Bytes): Option<Config> {
    match DecodeAuth(b)
    case Some(cfg) => if cfg.username == [] || cfg.password == [] then None else Some(cfg)
    case None => None
  }

  /** RFC 1928 section 5: ATYP and the address, and what follows it. */
  function DecodeAddress(b: Bytes): Option<(Host, Bytes)> {
    if b == [] then None
    else if b[0] == 1 then (if |b| < 5 then None else Some((V4(b[1..5]), b[5..])))
    else if b[0] == 4 then (if |b| < 17 then None else Some((V6(b[1..17]), b[17..])))
    else if b[0] == 3 && |b| >= 2 then
      var n: int := b[1];
      if |b| < 2 + n then None else Some((Name(b[2..2 + n]), b[2 + n..]))
    else None
  }

  /** RFC 1928 section 4: VER, CMD = CONNECT, RSV, address, DST.PORT in network order. */
  function DecodeConnect(b: Bytes): Option<(Host, int)> {
    if |b| < 3 || b[..3] != [5, 1, 0] then None
    else match DecodeAddress(b[3..])
      case None => None
      case Some((h, rest)) =>
        if |rest| != 2 then None
        else
          var hi: int, lo: int := rest[0], rest[1];
          Some((h, hi * 256 + lo))
  }

  /** RFC 1928 section 6: VER, REP, RSV, bound address and port. */
  function EncodeReply(rep: byte, rsv: byte, bound: Host, port: int): Bytes
    requires HostOk(bound) && 0 <= port < 65536
  {
    [5, rep, rsv] + Address(bound) + PortBytes(port)
  }

  /** The user name and password survive the wire, for every pair the client accepts. */
  lemma AuthRoundTrip(cfg: Config)
    requires |cfg.username| <= 255 && |cfg.password| <= 255
    ensures DecodeAuth(AuthRequest(cfg)) == Some(cfg)
  {
    var b, n := AuthRequest(cfg), |cfg.username|;
    assert b[0] == 1 && b[1] == n && b[2 + n] == |cfg.password|;
    assert b[2..2 + n] == cfg.username && b[3 + n..] == cfg.password;
  }

  /** The request obeys the lengths of RFC 1929 if and only if neither part is empty; the client also
      sends a request when only one of them is set. */
  lemma AuthConformsIff(cfg: Config)
    requires |cfg.username| <= 255 && |cfg.password| <= 255
    ensures DecodeAuthStrictly(AuthRequest(cfg)) == Some(cfg) <==> cfg.username != [] && cfg.password != []
  {
    AuthRoundTrip(cfg);
  }

  lemma AddressRoundTrip(h: Host, rest: Bytes)
    requires HostOk(h)
    ensures DecodeAddress(Address(h) + rest) == Some((h, rest))
  {
    var b := Address(h) + rest;
    match h
    case V4(a) => assert b[0] == 1 && b[1..5] == a && b[5..] == rest;
    case V6(a) => assert b[0] == 4 && b[1..17] == a && b[17..] == rest;
    case Name(n) => assert b[0] == 3 && b[1] == |n| && b[2..2 + |n|] == n && b[2 + |n|..] == rest;
  }

  /** Every destination the client accepts is read back by the server. */
  lemma ConnectRoundTrip(h: Host, port: int)
    requires HostOk(h) && 1 <= port <= 65535
    ensures DecodeConnect(ConnectRequest(h, port)) == Some((h, port))
  {
    AddressRoundTrip(h, PortBytes(port));
    var b := ConnectRequest(h, port);
    assert b[..3] == [5, 1, 0] && b[3..] == Address(h) + PortBytes(port);
  }

  // ---------------------------------------------------------------------------
  // The handshake as a function of what the proxy sends
  // ---------------------------------------------------------------------------

  /** Reading the reply: what is left of the stream behind it. */
  function AfterReply(b: Bytes): Result<Bytes, DialError> {
    if |b| < 4 then Err(ShortRead)
    else if b[0] != 5 || b[1] != 0 then Err(ConnectFailed(b[1]))
    else if b[3] == 1 then (if |b| < 10 then Err(ShortRead) else Ok(b[10..]))
    else if b[3] == 4 then (if |b| < 22 then Err(ShortRead) else Ok(b[22..]))
    else if b[3] != 3 then Err(BadAddressType)
    else if |b| < 5 then Err(ShortRead)
    else
      var n: int := b[4];
      if |b| < 5 + n + 2 then Err(ShortRead) else Ok(b[5 + n + 2..])
  }

  function RequestFor(t: Target): Result<Bytes, DialError> {
    if t.Malformed? || !(1 <= t.port <= 65535) then Err(InvalidTarget)
    else if !HostOk(t.host) then Err(NameTooLong)
    else Ok(ConnectRequest(t.host, t.port))
  }

  /** Everything written, and the outcome, given what comes in: DialSOCKS5 without its connection. */
  function ConnectPhase(t: Target, incoming: Bytes): (Bytes, Result<Bytes, DialError>) {
    match RequestFor(t)
    case Err(e) => ([], Err(e))
    case Ok(request) => (request, AfterReply(incoming))
  }

  /** The method negotiation and the login. */
  function LoginPhase(cfg: Config, incoming: Bytes): (Bytes, Result<Bytes, DialError>) {
    if |incoming| < 2 then (Greeting(cfg), Err(ShortRead))
    else if incoming[0] != 5 || incoming[1] != AuthMethod(cfg) then (Greeting(cfg), Err(MethodRejected))
    else if !WantsAuth(cfg) then (Greeting(cfg), Ok(incoming[2..]))
    else if |cfg.username| > 255 || |cfg.password| > 255 then (Greeting(cfg), Err(CredentialsTooLong))
    else if |incoming| < 4 then (Greeting(cfg) + AuthRequest(cfg), Err(ShortRead))
    else if incoming[2] != 1 || incoming[3] != 0 then (Greeting(cfg) + AuthRequest(cfg), Err(AuthRejected))
    else (Greeting(cfg) + AuthRequest(cfg), Ok(incoming[4..]))
  }

  function Handshake(cfg: Config, t: Target, incoming: Bytes): (Bytes, Result<Bytes, DialError>) {
    var (sent, login) := LoginPhase(cfg, incoming);
    match login
    case Err(e) => (sent, Err(e))
    case Ok(rest) => (sent + ConnectPhase(t, rest).0, ConnectPhase(t, rest).1)
  }

  /** The login, byte by byte. A client without user name and password offers method 0 and is let in by
      [5, 0]; any other offers method 2 and is let in by [5, 2, 1, 0]. The credentials go out only to a proxy
      that selected method 2, and only if they fit. */
  lemma LoginMeans(cfg: Config, incoming: Bytes)
    ensures var auth := cfg.username != [] || cfg.password != [];
            var fits := |cfg.username| <= 255 && |cfg.password| <= 255;
            var selected := |incoming| >= 2 && incoming[0] == 5 && incoming[1] == if auth then 2 else 0;
            var (sent, r) := LoginPhase(cfg, incoming);
            && (r.Ok? <==> selected && (auth ==> fits && |incoming| >= 4 && incoming[2] == 1 && incoming[3] == 0))
            && (r.Ok? ==> r.value == incoming[if auth then 4 else 2..])
            && (r == Err(ShortRead) <==> |incoming| < 2 || (selected && auth && fits && |incoming| < 4))
            && (r == Err(MethodRejected) <==> |incoming| >= 2 && !selected)
            && (r == Err(CredentialsTooLong) <==> selected && auth && !fits)
            && (r == Err(AuthRejected) <==>
                  selected && auth && fits && |incoming| >= 4 && !(incoming[2] == 1 && incoming[3] == 0))
            && |sent| >= 3 && sent[0] == 5 && sent[1] == 1 && sent[2] == (if auth then 2 else 0)
            && (if selected && auth && fits then DecodeAuth(sent[3..]) == Some(cfg) else |sent| == 3)
  {
    var auth := cfg.username != [] || cfg.password != [];
    if auth && |cfg.username| <= 255 && |cfg.password| <= 255 {
      AuthRoundTrip(cfg);
      assert (Greeting(cfg) + AuthRequest(cfg))[3..] == AuthRequest(cfg);
    }
  }

  /** Which targets are accepted, and what then goes out. */
  lemma RequestMeans(t: Target)
    ensures RequestFor(t) == Err(InvalidTarget) <==> t.Malformed? || t.port < 1 || t.port > 65535
    ensures RequestFor(t) == Err(NameTooLong) ==> t.Target? && (t.host.Name? ==> |t.host.name| > 255)
    ensures t.Target? && 1 <= t.port <= 65535 && t.host.Name? && |t.host.name| > 255 ==>
              RequestFor(t) == Err(NameTooLong)
    ensures t.Target? && 1 <= t.port <= 65535 && HostFits(t.host) ==>
              RequestFor(t).Ok? && DecodeConnect(RequestFor(t).value) == Some((t.host, t.port))
  {
    if t.Target? && 1 <= t.port <= 65535 && HostFits(t.host) {
      ConnectRoundTrip(t.host, t.port);
    }
  }

  predicate HostFits(h: Host) {
    || (h.V4? && |h.addr| == 4)
    || (h.V6? && |h.addr| == 16)
    || (h.Name? && |h.name| <= 255)
  }

  /** Which replies are accepted, how much of them is read, and what becomes of the others. */
  lemma ReplyMeans(b: Bytes)
    ensures var r := AfterReply(b);
            && (|b| < 4 ==> r == Err(ShortRead))
            && (|b| >= 4 && (b[0] != 5 || b[1] != 0) ==> r == Err(ConnectFailed(b[1])))
            && (|b| >= 4 && b[0] == 5 && b[1] == 0 ==>
                  && (b[3] == 1 ==> r == if |b| >= 10 then Ok(b[10..]) else Err(ShortRead))
                  && (b[3] == 4 ==> r == if |b| >= 22 then Ok(b[22..]) else Err(ShortRead))
                  && (b[3] == 3 && |b| == 4 ==> r == Err(ShortRead))
                  && (b[3] == 3 && |b| > 4 ==>
                        var n: int := b[4];
                        r == if |b| >= 7 + n then Ok(b[7 + n..]) else Err(ShortRead))
                  && (b[3] != 1 && b[3] != 3 && b[3] != 4 ==> r == Err(BadAddressType)))
  {
  }

  /** For a reply of any address type, with any bound address, port and reserved octet, the client
      is left with exactly the payload behind it, or with the proxy's error code. */
  lemma ReplyIsConsumedExactly(rep: byte, rsv: byte, bound: Host, port: int, payload: Bytes)
    requires HostOk(bound) && 0 <= port < 65536
    ensures AfterReply(EncodeReply(rep, rsv, bound, port) + payload) == if rep == 0 then Ok(payload)
            else Err(ConnectFailed(rep))
  {
    var b := EncodeReply(rep, rsv, bound, port) + payload;
    assert b[0] == 5 && b[1] == rep && b[3] == Address(bound)[0];
    match bound
    case V4(a) => assert b[10..] == payload;
    case V6(a) => assert b[22..] == payload;
    case Name(n) => assert b[4] == |n| && b[5 + |n| + 2..] == payload;
  }

  /** What a proxy sends that accepts the client. */
  function Welcome(cfg: Config): Bytes {
    if WantsAuth(cfg) then [5, 2, 1, 0] else [5, 0]
  }

  /** With a proxy that follows the standards the dial succeeds on every acceptable target, the proxy has
      then been told credentials and destination, and every payload byte is still to be read. */
  lemma DialSucceeds(cfg: Config, h: Host, port: int, rsv: byte, bound: Host, boundPort: int, payload: Bytes)
    requires |cfg.username| <= 255 && |cfg.password| <= 255 && HostOk(h) && 1 <= port <= 65535
    requires HostOk(bound) && 0 <= boundPort < 65536
    ensures Handshake(cfg, Target(h, port), Welcome(cfg) + EncodeReply(0, rsv, bound, boundPort) + payload)
         == (Greeting(cfg) + (if WantsAuth(cfg) then AuthRequest(cfg) else []) + ConnectRequest(h, port), Ok(payload))
  {
    var reply := EncodeReply(0, rsv, bound, boundPort) + payload;
    var incoming := Welcome(cfg) + EncodeReply(0, rsv, bound, boundPort) + payload;
    assert incoming == Welcome(cfg) + reply;
    assert incoming[|Welcome(cfg)|..] == reply;
    ReplyIsConsumedExactly(0, rsv, bound, boundPort, payload);
    assert Greeting(cfg) + [] == Greeting(cfg);
  }

  // ---------------------------------------------------------------------------
  // The connection and the buffered reader
  // ---------------------------------------------------------------------------

  class Conn {
    var incoming: Bytes
    var outgoing: Bytes

    method Write(b: Bytes)
      modifies this`outgoing
      ensures outgoing == old(outgoing) + b
    {
      outgoing := outgoing + b;
    }

    /** io.ReadFull on the bare connection takes exactly `n` bytes, or fails. */
    method ReadFull(n: nat) returns (r: Option<Bytes>)
      modifies this`incoming
      ensures r.Some? <==> |old(incoming)| >= n
      ensures r.Some? ==> r.value == old(incoming)[..n] && incoming == old(incoming)[n..]
    {
      if |incoming| < n {
        incoming := [];
        return None;
      }
      r := Some(incoming[..n]);
      incoming := incoming[n..];
    }
  }

  const BUFFER_SIZE := 4096

  /** bufio.Reader: it may take more from the connection than it was asked for, in chunks of its choice. */
  class Reader {
    const conn: Conn
    var buffer: Bytes

    /** What is still to be read through this reader. */
    ghost function Unread(): Bytes
      reads this, conn
    {
      buffer + conn.incoming
    }

    constructor (conn: Conn)
      ensures this.conn == conn && Unread() == conn.incoming && buffer == []
    {
      this.conn, this.buffer := conn, [];
    }

    /** Moves a chunk of at least one byte into the buffer. */
    method Fill()
      requires conn.incoming != []
      modifies this`buffer, conn`incoming
      ensures Unread() == old(Unread()) && |conn.incoming| < |old(conn.incoming)| && |buffer| > |old(buffer)|
    {
      var k :| 1 <= k <= |conn.incoming| && k <= BUFFER_SIZE;
      buffer := buffer + conn.incoming[..k];
      conn.incoming := conn.incoming[k..];
    }

    method ReadFull(n: nat) returns (r: Option<Bytes>)
      modifies this`buffer, conn`incoming
      ensures r.Some? <==> |old(Unread())| >= n
      ensures r.Some? ==> r.value == old(Unread())[..n] && Unread() == old(Unread())[n..]
    {
      while |buffer| < n
        invariant Unread() == old(Unread())
        decreases |conn.incoming|
      {
        if conn.incoming == [] {
          return None;
        }
        Fill();
      }
      r := Some(buffer[..n]);
      buffer := buffer[n..];
    }

    /** Read of the returned connection: some bytes, at most `n`, or none at the end of the stream. */
    method Read(n: nat) returns (b: Bytes)
      requires n > 0
      modifies this`buffer, conn`incoming
      ensures |b| <= n && (b == [] <==> old(Unread()) == []) && b + Unread() == old(Unread())
    {
      if buffer == [] {
        if conn.incoming == [] {
          return [];
        }
        Fill();
      }
      var k := if |buffer| < n then |buffer| else n;
      b := buffer[..k];
      buffer := buffer[k..];
    }

    /** A consumer that reads to the end gets the payload, no byte lost or repeated. */
    method ReadAll(n: nat) returns (all: Bytes)
      requires n > 0
      modifies this`buffer, conn`incoming
      ensures all == old(Unread())
    {
      all := [];
      while true
        invariant all + Unread() == old(Unread())
        decreases |Unread()|
      {
        var b := Read(n);
        if b == [] {
          return;
        }
        all := all + b;
      }
    }
  }

  method AppendAddress(request: Bytes, h: Host) returns (r: Option<Bytes>)
    requires h.V4? || h.V6? ==> HostOk(h)
    ensures r == if HostOk(h) then Some(request + Address(h)) else None
  {
    match h
    case V4(a) =>
      r := Some(request + [1] + a);
      assert request + [1] + a == request + ([1] + a);
    case V6(a) =>
      r := Some(request + [4] + a);
      assert request + [4] + a == request + ([4] + a);
    case Name(n) =>
      if |n| > 255 {
        return None;
      }
      r := Some(request + [3, |n|] + n);
      assert request + [3, |n|] + n == request + ([3, |n|] + n);
  }

  /** DialSOCKS5 on an open connection. What it writes and how it ends is the handshake function of what
      comes in; on success the reader it returns stands exactly at the payload. */
  method Dial(conn: Conn, cfg: Config, t: Target) returns (r: Result<Reader, DialError>)
    requires t.Target? && (t.host.V4? || t.host.V6?) ==> HostOk(t.host)
    modifies conn
    ensures conn.outgoing == old(conn.outgoing) + Handshake(cfg, t, old(conn.incoming)).0
    ensures match Handshake(cfg, t, old(conn.incoming)).1
            case Ok(payload) => r.Ok? && r.value.conn == conn && fresh(r.value) && r.value.Unread() == payload
            case Err(e) => r == Err(e)
  {
    ghost var before, login := conn.outgoing, LoginPhase(cfg, conn.incoming);
    var refused := Login(conn, cfg);
    if refused.Some? {
      return Err(refused.value);
    }
    r := DialTarget(conn, t);
    Joined(before, login.0, ConnectPhase(t, login.1.value).0);
  }

  lemma Joined(a: Bytes, b: Bytes, c: Bytes)
    ensures a + b + c == a + (b + c)
  {
  }

  /** The greeting and authentication of DialSOCKS5; None when the proxy let the client in. */
  method Login(conn: Conn, cfg: Config) returns (refused: Option<DialError>)
    modifies conn
    ensures conn.outgoing == old(conn.outgoing) + LoginPhase(cfg, old(conn.incoming)).0
    ensures match LoginPhase(cfg, old(conn.incoming)).1
            case Ok(rest) => refused == None && conn.incoming == rest
            case Err(e) => refused == Some(e)
  {
    conn.Write([5, 1] + [if WantsAuth(cfg) then 2 else 0]);
    var reply := conn.ReadFull(2);
    if reply.None? {
      return Some(ShortRead);
    }
    if reply.value[0] != 5 || reply.value[1] != AuthMethod(cfg) {
      return Some(MethodRejected);
    }
    if reply.value[1] == 2 {
      if |cfg.username| > 255 || |cfg.password| > 255 {
        return Some(CredentialsTooLong);
      }
      var auth: Bytes := [1, |cfg.username|];
      auth := auth + cfg.username;
      auth := auth + [|cfg.password|];
      auth := auth + cfg.password;
      conn.Write(auth);
      reply := conn.ReadFull(2);
      if reply.None? {
        return Some(ShortRead);
      }
      if reply.value[0] != 1 || reply.value[1] != 0 {
        return Some(AuthRejected);
      }
    }
    return None;
  }

  /** The CONNECT exchange of DialSOCKS5. */
  method DialTarget(conn: Conn, t: Target) returns (r: Result<Reader, DialError>)
    requires t.Target? && (t.host.V4? || t.host.V6?) ==> HostOk(t.host)
    modifies conn
    ensures conn.outgoing == old(conn.outgoing) + ConnectPhase(t, old(conn.incoming)).0
    ensures match ConnectPhase(t, old(conn.incoming)).1
            case Ok(payload) => r.Ok? && r.value.conn == conn && fresh(r.value) && r.value.Unread() == payload
            case Err(e) => r == Err(e)
  {
    if t.Malformed? || t.port < 1 || t.port > 65535 {
      return Err(InvalidTarget);
    }
    var request := AppendAddress([5, 1, 0], t.host);
    if request.None? {
      return Err(NameTooLong);
    }
    conn.Write(request.value + [t.port / 256, t.port % 256]);
    var reader := new Reader(conn);
    var failure := ReadReply(reader);
    return if failure.Some? then Err(failure.value) else Ok(reader);
  }

  /** Reads a reply of any address type off the reader; None when the proxy reported success. */
  method ReadReply(reader: Reader) returns (failure: Option<DialError>)
    modifies reader`buffer, reader.conn`incoming
    ensures match AfterReply(old(reader.Unread()))
            case Ok(rest) => failure == None && reader.Unread() == rest
            case Err(e) => failure == Some(e)
  {
    var head := reader.ReadFull(4);
    if head.None? {
      return Some(ShortRead);
    }
    if head.value[0] != 5 || head.value[1] != 0 {
      return Some(ConnectFailed(head.value[1]));
    }
    var n: nat;
    match head.value[3] {
      case 1 => n := 4;
      case 4 => n := 16;
      case 3 =>
        var length := reader.ReadFull(1);
        if length.None? {
          return Some(ShortRead);
        }
        n := length.value[0];
      case _ =>
        return Some(BadAddressType);
    }
    var discard := reader.ReadFull(n + 2);
    return if discard.None? then Some(ShortRead) else None;
  }
}
