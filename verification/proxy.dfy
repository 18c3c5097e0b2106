/**
 * The relay engine of src/tcp.proxy.ts: the round-robin endpoint cursor, the
 * per-session record with its pre-connect buffer, the live session table, the
 * ident-based admission gate and the teardown between paired sockets.
 *
 * Sockets are abstract handles (class Socket) that record what the relay wrote
 * to them and whether it destroyed them; every socket callback of the source is
 * a method here, run as one atomic step.
 */
module Proxy {
  import opened Wrappers
  import opened Text
  import opened Net
  import Ident

  newtype byte = b: int | 0 <= b < 256

  /** One Buffer delivered by a 'data' event. */
  type Chunk = seq<byte>

  /**
   * What an interceptor is shown of the session record: its fields, with the
   * two sockets as references (a hook can tell sessions apart by them and by
   * their peers).
   */
  datatype ContextView = ContextView(
    buffers: seq<Chunk>, connected: bool, proxySocket: Socket, serviceSocket: Socket?)

  /** `upstream` / `downstream`: rewrite one chunk, given the session record. */
  type Interceptor = (ContextView, Chunk) -> Chunk

  /**
   * `serviceHostSelected`: the client socket and the round-robin index to the
   * index used. Being a pure function, it sees the socket's identity and peer,
   * not its changing state.
   */
  type HostSelector = (Socket, int) -> int

  /** The options the relay engine consults (the TLS and logging options are not modelled). */
  datatype Options = Options(
    identUsers: seq<string>,
    allowedIPs: seq<string>,
    upstream: Option<Interceptor>,
    downstream: Option<Interceptor>,
    serviceHostSelected: Option<HostSelector>,
    localAddress: Option<string>,
    localPort: Option<nat>,
    rejectUnauthorized: bool)

  /** A hook applied to a chunk; an absent hook passes the chunk through. */
  function Intercept(hook: Option<Interceptor>, view: ContextView, data: Chunk): (out: Chunk)
    ensures hook.None? ==> out == data
    ensures hook.Some? ==> out == hook.value(view, data)
  {
    match hook
    case None => data
    case Some(f) => f(view, data)
  }

  /**
   * The options a backend connect is made with. `host` is None and `port` is
   * None (NaN) when the index lies outside the configured lists.
   */
  datatype ConnectOptions = ConnectOptions(
    serviceIndex: int,
    port: Option<nat>,
    host: Option<string>,
    localAddress: Option<string>,
    localPort: Option<nat>,
    rejectUnauthorized: bool)

  /** `s[i]`, or None where JavaScript gives `undefined`. */
  function At<T>(s: seq<T>, i: int): Option<T> {
    if 0 <= i < |s| then Some(s[i]) else None
  }

  /** Who is at the other end of a socket: an accepted client, or a backend the relay dialed. */
  datatype Peer = Client(remote: Remote) | Service(options: ConnectOptions, tls: bool)

  // ---- the round-robin cursor ----

  /** One step of `getServiceHostIndex`: increment, and wrap to 0 on reaching the host count. */
  function CursorStep(cursor: int, hostCount: nat): (next: int)
    ensures next == 0 || next == cursor + 1
    ensures hostCount >= 1 && -1 <= cursor < hostCount ==> 0 <= next < hostCount
  {
    if cursor + 1 == hostCount then 0 else cursor + 1
  }

  /** The cursor after `calls` selections, starting from -1. */
  function CursorAfter(calls: nat, hostCount: nat): (cursor: int)
    ensures hostCount >= 1 ==> -1 <= cursor < hostCount
    ensures calls >= 1 && hostCount >= 1 ==> 0 <= cursor
  {
    if calls == 0 then -1 else CursorStep(CursorAfter(calls - 1, hostCount), hostCount)
  }

  /** The cursor is periodic: after q full rounds and r + 1 more selections it is r. */
  lemma {:induction false} Periodic(q: nat, r: nat, n: nat)
    requires r < n
    ensures CursorAfter(q * n + r + 1, n) == r
    decreases q, r
  {
    var m := q * n;
    if r > 0 {
      Periodic(q, r - 1, n);
      assert CursorAfter(m + r + 1, n) == CursorStep(CursorAfter(m + r, n), n);
    } else if q > 0 {
      Periodic(q - 1, n - 1, n);
      RoundBefore(q, n);
      assert CursorAfter(m + 1, n) == CursorStep(CursorAfter(m, n), n);
    }
  }

  /** The selection that completes round q is the last one of the previous round. */
  lemma RoundBefore(q: nat, n: nat)
    requires q > 0
    ensures (q - 1) * n + (n - 1) + 1 == q * n
  {
  }

  /** With N >= 1 hosts the k-th selection (counting from 0) yields k mod N. */
  lemma RoundRobin(k: nat, n: nat)
    requires n >= 1
    ensures CursorAfter(k + 1, n) == k % n
    ensures 0 <= CursorAfter(k + 1, n) < n
  {
    var q, r := k / n, k % n;
    assert k == q * n + r;
    Periodic(q, r, n);
  }

  /** With an empty host list the cursor never wraps: the k-th selection yields k. */
  lemma {:induction false} CursorWithoutHosts(k: nat)
    ensures CursorAfter(k + 1, 0) == k
  {
    if k > 0 {
      CursorWithoutHosts(k - 1);
    }
  }

  // ---- sockets ----

  class Socket {
    const peer: Peer
    /** Every chunk the relay wrote to this socket, in order. */
    var written: seq<Chunk>
    var destroyed: bool

    /** A connection accepted by the listening server. */
    constructor Accept(remote: Remote)
      ensures peer == Client(remote) && written == [] && !destroyed
    {
      peer := Client(remote);
      written := [];
      destroyed := false;
    }

    /** `tls.connect(options)` or `new net.Socket().connect(options)`. */
    constructor Dial(options: ConnectOptions, tls: bool)
      ensures peer == Service(options, tls) && written == [] && !destroyed
    {
      peer := Service(options, tls);
      written := [];
      destroyed := false;
    }

    method Write(data: Chunk)
      modifies this`written
      ensures written == old(written) + [data]
    {
      written := written + [data];
    }

    /** Destroying a destroyed socket does nothing more. */
    method Destroy()
      modifies this`destroyed
      ensures destroyed
    {
      destroyed := true;
    }
  }

  // ---- the session record (ContextBase) ----

  class Context {
    var buffers: seq<Chunk>
    var connected: bool
    const proxySocket: Socket
    var serviceSocket: Socket?
    /** Every client chunk after the upstream hook, in arrival order. */
    ghost var processed: seq<Chunk>

    /**
     * Before the backend connects, `buffers` holds every processed chunk and
     * nothing has been written to the backend; afterwards the backend has been
     * sent every processed chunk, in order, and `buffers` is the flushed prefix.
     */
    ghost predicate Valid()
      reads this, serviceSocket
    {
      && proxySocket.peer.Client?
      && (serviceSocket != null ==> serviceSocket != proxySocket)
      && (!connected ==> buffers == processed && (serviceSocket != null ==> serviceSocket.written == []))
      && (connected ==>
            && serviceSocket != null
            && serviceSocket.written == processed
            && |buffers| <= |processed| && buffers == processed[..|buffers|])
    }

    function View(): ContextView
      reads this
    {
      ContextView(buffers, connected, proxySocket, serviceSocket)
    }

    /** The record `handleClient` builds for a newly admitted client. */
    constructor (proxySocket: Socket)
      requires proxySocket.peer.Client?
      ensures this.proxySocket == proxySocket && IsFresh()
      ensures Valid()
    {
      buffers := [];
      connected := false;
      this.proxySocket := proxySocket;
      serviceSocket := null;
      processed := [];
    }

    /** No chunk seen, no backend, not connected. */
    ghost predicate IsFresh()
      reads this
    {
      buffers == [] && !connected && serviceSocket == null && processed == []
    }
  }

  // ---- the identification lookup of handleAuth ----

  /** The auxiliary connection to port 113 and the closure state `response`, `hasResponse`. */
  class IdentLookup {
    const proxySocket: Socket
    /** The client address and the port the lookup connects to. */
    const host: string
    const port: nat
    const query: string
    var response: string
    var hasResponse: bool
    /** What the relay wrote on the identification connection. */
    var sent: seq<string>
    var ended: bool
    var destroyed: bool

    constructor (proxySocket: Socket, host: string, query: string)
      ensures this.proxySocket == proxySocket && this.host == host && this.query == query
      ensures port == Ident.IdentPort
      ensures response == "" && !hasResponse && sent == [] && !ended && !destroyed
    {
      this.proxySocket := proxySocket;
      this.host := host;
      port := Ident.IdentPort;
      this.query := query;
      response := "";
      hasResponse := false;
      sent := [];
      ended := false;
      destroyed := false;
    }

    /** The connect callback: send the query and half-close. */
    method OnConnect()
      modifies this`sent, this`ended
      ensures sent == old(sent) + [query] && ended
    {
      sent := sent + [query];
      ended := true;
    }

    /**
     * A 'data' event: keep the reply trimmed as a whole and destroy the
     * connection, so that no later chunk is delivered.
     */
    method OnData(data: string)
      requires !destroyed
      modifies this`response, this`hasResponse, this`destroyed
      ensures response == Trim(data) && hasResponse && destroyed
    {
      response := Trim(data);
      hasResponse := true;
      destroyed := true;
    }

    /** An 'error' event: forget that a reply arrived (the text stays) and destroy. */
    method OnError()
      requires !destroyed
      modifies this`hasResponse, this`destroyed
      ensures !hasResponse && destroyed
    {
      hasResponse := false;
      destroyed := true;
    }
  }

  // ---- the relay ----

  class TcpProxy {
    const proxyPort: nat
    const serviceHosts: seq<string>
    const servicePorts: seq<string>
    const serviceTLS: seq<bool>
    const options: Options
    const users: seq<string>
    const allowedIPs: seq<string>
    var serviceHostIndex: int
    /** The live session table, keyed by `uniqueKey` of the client socket. */
    var proxySockets: map<string, Socket>
    /** How many times `getServiceHostIndex` has run. */
    ghost var selections: nat

    ghost predicate Valid()
      reads this
    {
      serviceHostIndex == CursorAfter(selections, |serviceHosts|)
    }

    /** The constructor once the host and port options have been normalised. */
    constructor (selfPort: nat, hosts: seq<string>, ports: seq<string>, tls: seq<bool>, options: Options)
      ensures proxyPort == selfPort && serviceHosts == hosts && servicePorts == ports
      ensures serviceTLS == tls && this.options == options
      ensures users == options.identUsers && allowedIPs == options.allowedIPs
      ensures serviceHostIndex == -1 && proxySockets == map[] && selections == 0
      ensures Valid()
    {
      proxyPort := selfPort;
      serviceHosts := hosts;
      servicePorts := ports;
      serviceTLS := tls;
      this.options := options;
      serviceHostIndex := -1;
      proxySockets := map[];
      users := if |options.identUsers| > 0 then options.identUsers else [];
      allowedIPs := if |options.allowedIPs| != 0 then options.allowedIPs else [];
      selections := 0;
    }

    /** The index a session is sent to: the selector's choice, or the default. */
    function SelectIndex(socket: Socket, defaultIndex: int): (index: int)
      ensures options.serviceHostSelected.None? ==> index == defaultIndex
      ensures options.serviceHostSelected.Some? ==> index == options.serviceHostSelected.value(socket, defaultIndex)
    {
      match options.serviceHostSelected
      case None => defaultIndex
      case Some(select) => select(socket, defaultIndex)
    }

    /** `parseServiceOptions` for a chosen index. */
    function ServiceOptions(i: int): (o: ConnectOptions)
      ensures o.serviceIndex == i
      ensures 0 <= i < |serviceHosts| ==> o.host == Some(serviceHosts[i])
      ensures !(0 <= i < |serviceHosts|) ==> o.host == None
      ensures 0 <= i < |servicePorts| ==> o.port == ParseInt(servicePorts[i])
      ensures !(0 <= i < |servicePorts|) ==> o.port == None
      ensures o.localAddress == options.localAddress && o.localPort == options.localPort
      ensures o.rejectUnauthorized == options.rejectUnauthorized
    {
      ConnectOptions(
        i,
        match At(servicePorts, i) case Some(text) => ParseInt(text) case None => None,
        At(serviceHosts, i),
        options.localAddress,
        options.localPort,
        options.rejectUnauthorized)
    }

    /** `serviceTLS[i]` is truthy. */
    function UsesTLS(i: int): (tls: bool)
      ensures tls <==> 0 <= i < |serviceTLS| && serviceTLS[i]
    {
      At(serviceTLS, i) == Some(true)
    }

    /** The state of a session `handleClient` has just opened and registered for `socket`. */
    ghost predicate Opened(context: Context, socket: Socket)
      reads this, context, context.serviceSocket
    {
      && socket.peer.Client?
      && context.Valid() && context.proxySocket == socket && context.IsFresh()
      && UniqueKey(socket.peer.remote) in proxySockets
      && proxySockets[UniqueKey(socket.peer.remote)] == socket
    }

    /** `writeBuffer`, the backend's connect callback: mark connected and flush the buffer in order. */
    static method WriteBuffer(context: Context)
      modifies context`connected, context.serviceSocket
      ensures context.connected
      ensures context.buffers == old(context.buffers) && context.serviceSocket == old(context.serviceSocket)
      ensures old(context.serviceSocket) != null ==>
        context.serviceSocket.written == old(context.serviceSocket.written) + context.buffers
      ensures old(context.serviceSocket) != null ==>
        old(context.serviceSocket).destroyed == old(context.serviceSocket.destroyed)
      ensures old(context.Valid()) && !old(context.connected) && context.serviceSocket != null ==> context.Valid()
    {
      context.connected := true;
      if |context.buffers| > 0 {
        for i := 0 to |context.buffers|
          invariant context.connected
          invariant context.serviceSocket != null ==>
            context.serviceSocket.destroyed == old(context.serviceSocket.destroyed)
          invariant context.serviceSocket != null ==>
            context.serviceSocket.written == old(context.serviceSocket.written) + context.buffers[..i]
        {
          if context.serviceSocket != null {
            context.serviceSocket.Write(context.buffers[i]);
          }
        }
      }
    }

    /** `handleClientConnection`: identify the client first only when a user list is configured. */
    method HandleClientConnection(socket: Socket) returns (context: Context?, lookup: IdentLookup?)
      requires socket.peer.Client?
      modifies this`proxySockets
      ensures |users| == 0 || socket.peer.remote.address in allowedIPs ==>
        && context != null && lookup == null && fresh(context) && Opened(context, socket)
        && proxySockets == old(proxySockets)[UniqueKey(socket.peer.remote) := socket]
      ensures |users| > 0 && socket.peer.remote.address !in allowedIPs ==>
        && context == null && lookup != null && fresh(lookup)
        && lookup.proxySocket == socket && lookup.host == socket.peer.remote.address
        && lookup.query == Ident.Query(socket.peer.remote.port, proxyPort)
        && lookup.port == Ident.IdentPort
        && lookup.response == "" && !lookup.hasResponse && lookup.sent == []
        && !lookup.ended && !lookup.destroyed
        && proxySockets == old(proxySockets)
    {
      if |users| > 0 {
        context, lookup := HandleAuth(socket);
      } else {
        context := HandleClient(socket);
        lookup := null;
      }
    }

    /** `handleAuth`: an allow-listed address is admitted at once, any other is sent the ident query. */
    method HandleAuth(socket: Socket) returns (context: Context?, lookup: IdentLookup?)
      requires socket.peer.Client?
      modifies this`proxySockets
      ensures socket.peer.remote.address in allowedIPs ==>
        && context != null && lookup == null && fresh(context) && Opened(context, socket)
        && proxySockets == old(proxySockets)[UniqueKey(socket.peer.remote) := socket]
      ensures socket.peer.remote.address !in allowedIPs ==>
        && context == null && lookup != null && fresh(lookup)
        && lookup.proxySocket == socket && lookup.host == socket.peer.remote.address
        && lookup.query == Ident.Query(socket.peer.remote.port, proxyPort)
        && lookup.port == Ident.IdentPort
        && lookup.response == "" && !lookup.hasResponse && lookup.sent == []
        && !lookup.ended && !lookup.destroyed
        && proxySockets == old(proxySockets)
    {
      var remote := socket.peer.remote;
      if remote.address in allowedIPs {
        context := HandleClient(socket);
        lookup := null;
        return;
      }
      context := null;
      lookup := new IdentLookup(socket, remote.address, Ident.Query(remote.port, proxyPort));
    }

    /**
     * The identification connection's 'close' handler: no reply at all destroys
     * the client; otherwise the client is admitted iff the text after the last
     * ':' of the reply is a listed user, and destroyed if not.
     */
    method OnIdentClose(lookup: IdentLookup) returns (context: Context?)
      requires lookup.proxySocket.peer.Client?
      modifies this`proxySockets, lookup.proxySocket`destroyed
      ensures !lookup.hasResponse && lookup.response == "" ==>
        context == null && lookup.proxySocket.destroyed && proxySockets == old(proxySockets)
      ensures (lookup.hasResponse || lookup.response != "") && Ident.Allowed(lookup.response, users) ==>
        && context != null && fresh(context) && Opened(context, lookup.proxySocket)
        && lookup.proxySocket.destroyed == old(lookup.proxySocket.destroyed)
        && proxySockets == old(proxySockets)[UniqueKey(lookup.proxySocket.peer.remote) := lookup.proxySocket]
      ensures (lookup.hasResponse || lookup.response != "") && !Ident.Allowed(lookup.response, users) ==>
        context == null && lookup.proxySocket.destroyed && proxySockets == old(proxySockets)
    {
      if !lookup.hasResponse && lookup.response == "" {
        lookup.proxySocket.Destroy();
        return null;
      }
      var user := Ident.User(lookup.response);
      if user in users {
        context := HandleClient(lookup.proxySocket);
      } else {
        lookup.proxySocket.Destroy();
        context := null;
      }
    }

    /** `handleClient`: register the client under its key and open an empty session record. */
    method HandleClient(socket: Socket) returns (context: Context)
      requires socket.peer.Client?
      modifies this`proxySockets
      ensures fresh(context) && Opened(context, socket)
      ensures proxySockets == old(proxySockets)[UniqueKey(socket.peer.remote) := socket]
    {
      var key := UniqueKey(socket.peer.remote);
      proxySockets := proxySockets[key := socket];
      context := new Context(socket);
    }

    /**
     * `handleUpstreamData`, the client's 'data' handler. The chunk passes the
     * upstream hook; before the backend connects it is appended to the buffer
     * (and the first such chunk creates the backend), afterwards it is written
     * straight to the backend.
     */
    method HandleUpstreamData(context: Context, data: Chunk)
      requires Valid() && context.Valid()
      modifies this`serviceHostIndex, this`selections
      modifies context`buffers, context`serviceSocket, context`processed, context.serviceSocket
      ensures Valid() && context.Valid()
      ensures var chunk := Intercept(options.upstream, old(context.View()), data);
        && context.processed == old(context.processed) + [chunk]
        && (!old(context.connected) ==> context.buffers == old(context.buffers) + [chunk])
        && (old(context.connected) ==>
              && context.buffers == old(context.buffers)
              && context.serviceSocket.written == old(context.serviceSocket.written) + [chunk])
      ensures context.connected == old(context.connected)
      ensures old(context.serviceSocket) != null ==>
        && context.serviceSocket == old(context.serviceSocket)
        && context.serviceSocket.destroyed == old(context.serviceSocket.destroyed)
        && selections == old(selections) && serviceHostIndex == old(serviceHostIndex)
      ensures old(context.serviceSocket) == null ==>
        && fresh(context.serviceSocket) && selections == old(selections) + 1
        && context.serviceSocket.written == [] && !context.serviceSocket.destroyed
        && var i := SelectIndex(context.proxySocket, serviceHostIndex);
           context.serviceSocket.peer == Service(ServiceOptions(i), UsesTLS(i))
    {
      var processedData := Intercept(options.upstream, context.View(), data);
      context.processed := context.processed + [processedData];
      if context.connected {
        if context.serviceSocket != null {
          context.serviceSocket.Write(processedData);
        }
      } else {
        context.buffers := context.buffers + [processedData];
        if context.serviceSocket == null {
          CreateServiceSocket(context);
        }
      }
    }

    /** `createServiceSocket`: choose the endpoint and dial it, over TLS when its flag is set. */
    method CreateServiceSocket(context: Context)
      requires Valid() && context.Valid() && context.serviceSocket == null && !context.connected
      modifies this`serviceHostIndex, this`selections, context`serviceSocket
      ensures Valid() && context.Valid()
      ensures selections == old(selections) + 1
      ensures fresh(context.serviceSocket)
      ensures context.serviceSocket.written == [] && !context.serviceSocket.destroyed
      ensures var i := SelectIndex(context.proxySocket, serviceHostIndex);
        context.serviceSocket.peer == Service(ServiceOptions(i), UsesTLS(i))
    {
      var connectOptions := ParseServiceOptions(context);
      var socket := new Socket.Dial(connectOptions, UsesTLS(connectOptions.serviceIndex));
      context.serviceSocket := socket;
    }

    /** `parseServiceOptions`: take the next index and look up its host and port. */
    method ParseServiceOptions(context: Context) returns (connectOptions: ConnectOptions)
      requires Valid() && context.proxySocket.peer.Client?
      modifies this`serviceHostIndex, this`selections
      ensures Valid() && selections == old(selections) + 1
      ensures connectOptions == ServiceOptions(SelectIndex(context.proxySocket, serviceHostIndex))
    {
      var i := GetServiceHostIndex(context.proxySocket);
      connectOptions := ServiceOptions(i);
    }

    /**
     * `getServiceHostIndex`: advance the shared cursor, wrapping at the host
     * count, and let the selector, when configured, override the result.
     */
    method GetServiceHostIndex(proxySocket: Socket) returns (index: int)
      requires Valid() && proxySocket.peer.Client?
      modifies this`serviceHostIndex, this`selections
      ensures Valid() && selections == old(selections) + 1
      ensures |serviceHosts| >= 1 ==>
        0 <= serviceHostIndex < |serviceHosts| && serviceHostIndex == old(selections) % |serviceHosts|
      ensures |serviceHosts| == 0 ==> serviceHostIndex == old(selections)
      ensures options.serviceHostSelected.None? ==> index == serviceHostIndex
      ensures options.serviceHostSelected.Some? ==>
        index == options.serviceHostSelected.value(proxySocket, serviceHostIndex)
    {
      serviceHostIndex := serviceHostIndex + 1;
      if serviceHostIndex == |serviceHosts| {
        serviceHostIndex := 0;
      }
      selections := selections + 1;
      if |serviceHosts| >= 1 {
        RoundRobin(selections - 1, |serviceHosts|);
      } else {
        CursorWithoutHosts(selections - 1);
      }
      index := SelectIndex(proxySocket, serviceHostIndex);
    }

    /** The backend's 'data' handler: pass the chunk through the downstream hook to the client. */
    method OnServiceData(context: Context, data: Chunk)
      requires context.Valid()
      modifies context.proxySocket`written
      ensures context.Valid()
      ensures context.proxySocket.written ==
        old(context.proxySocket.written) + [Intercept(options.downstream, context.View(), data)]
    {
      var processedData := Intercept(options.downstream, context.View(), data);
      context.proxySocket.Write(processedData);
    }

    /** The backend's 'close' and 'error' handlers: destroy the client socket. */
    method OnServiceEnd(context: Context)
      requires context.Valid()
      modifies context.proxySocket`destroyed
      ensures context.Valid() && context.proxySocket.destroyed
    {
      context.proxySocket.Destroy();
    }

    /** The client's 'close' handler: drop the session from the table and destroy the backend, if any. */
    method OnClientClose(context: Context)
      requires context.Valid()
      modifies this`proxySockets, context.serviceSocket
      ensures context.Valid()
      ensures proxySockets == old(proxySockets) - {UniqueKey(context.proxySocket.peer.remote)}
      ensures context.serviceSocket != null ==> context.serviceSocket.destroyed
    {
      proxySockets := proxySockets - {UniqueKey(context.proxySocket.peer.remote)};
      if context.serviceSocket != null {
        context.serviceSocket.Destroy();
      }
    }

    /** The client's 'error' handler: destroy the backend, if any; the table is left alone. */
    method OnClientError(context: Context)
      requires context.Valid()
      modifies context.serviceSocket
      ensures context.Valid()
      ensures context.serviceSocket != null ==> context.serviceSocket.destroyed
    {
      if context.serviceSocket != null {
        context.serviceSocket.Destroy();
      }
    }
  }

  /**
   * `new TcpProxy(...)`: normalise the host and port options, failing as
   * `parseHosts` throws, then start with the cursor at -1 and no sessions.
   */
  method Create(selfPort: nat, destinationHosts: ConfigValue, destinationPort: ConfigValue,
                destinationTLS: seq<bool>, options: Options)
    returns (r: Result<TcpProxy, ConfigError>)
    ensures ParseHosts(destinationHosts).Failure? ==> r == Failure(ParseHosts(destinationHosts).error)
    ensures ParseHosts(destinationHosts).Success? && ParsePorts(destinationPort).Failure? ==>
      r == Failure(ParsePorts(destinationPort).error)
    ensures ParseHosts(destinationHosts).Success? && ParsePorts(destinationPort).Success? ==>
      r.Success? && r.value.options == options
    ensures r.Success? ==>
      && ParseHosts(destinationHosts).Success? && ParsePorts(destinationPort).Success?
      && fresh(r.value) && r.value.Valid()
      && r.value.serviceHosts == ParseHosts(destinationHosts).value
      && r.value.servicePorts == ParsePorts(destinationPort).value
      && r.value.serviceTLS == destinationTLS && r.value.proxyPort == selfPort
      && r.value.users == options.identUsers && r.value.allowedIPs == options.allowedIPs
      && r.value.serviceHostIndex == -1 && r.value.proxySockets == map[]
  {
    var hosts := ParseHosts(destinationHosts);
    if hosts.Failure? {
      return Failure(hosts.error);
    }
    var ports := ParsePorts(destinationPort);
    if ports.Failure? {
      return Failure(ports.error);
    }
    var proxy := new TcpProxy(selfPort, hosts.value, ports.value, destinationTLS, options);
    r := Success(proxy);
  }

  /**
   * What a caller can conclude about one session from the contracts above: the
   * chunks sent before the backend connects are buffered, flushed on connect
   * and followed by a direct write, so the backend receives all three in order.
   */
  method ExampleSessionOrder(client: Remote, c1: Chunk, c2: Chunk, c3: Chunk)
  {
    var none := Options([], [], None, None, None, None, None, false);
    var proxy := new TcpProxy(8000, ["alpha", "beta"], ["80", "81"], [false, true], none);
    var socket := new Socket.Accept(client);
    var session := proxy.HandleClient(socket);
    proxy.HandleUpstreamData(session, c1);
    var backend := session.serviceSocket;
    proxy.HandleUpstreamData(session, c2);
    assert session.buffers == [c1, c2] && backend.written == [];
    TcpProxy.WriteBuffer(session);
    proxy.HandleUpstreamData(session, c3);
    assert backend.written == [c1, c2, c3];
    assert session.buffers == [c1, c2];
    proxy.OnClientClose(session);
    assert backend.destroyed && UniqueKey(client) !in proxy.proxySockets;
  }

  /**
   * Two sessions on a relay with two endpoints and no selector: the first goes
   * to the first endpoint over plain TCP, the second to the second over TLS.
   */
  method ExampleRoundRobin(first: Remote, second: Remote, data: Chunk)
  {
    var none := Options([], [], None, None, None, None, None, false);
    var proxy := new TcpProxy(8000, ["alpha", "beta"], ["80", "81"], [false, true], none);
    var socket1 := new Socket.Accept(first);
    var session1 := proxy.HandleClient(socket1);
    proxy.HandleUpstreamData(session1, data);
    var backend1 := session1.serviceSocket;
    assert backend1.peer.options.serviceIndex == 0 && backend1.peer.options.host == Some("alpha");
    assert !backend1.peer.tls;
    var socket2 := new Socket.Accept(second);
    var session2 := proxy.HandleClient(socket2);
    proxy.HandleUpstreamData(session2, data);
    var backend2 := session2.serviceSocket;
    assert backend2.peer.options.serviceIndex == 1 && backend2.peer.options.host == Some("beta");
    assert backend2.peer.tls;
  }

  /**
   * A client that is not allow-listed is identified: the lookup is sent the
   * query, a reply "<prefix>:alice" (already free of outer blanks) arrives,
   * and on close the client is admitted and registered under its key.
   */
  method ExampleIdentAdmission(client: Remote, prefix: string)
    requires client.address != "10.0.0.1"
    requires Trim(prefix + ":alice") == prefix + ":alice"
  {
    var only := Options(["alice"], ["10.0.0.1"], None, None, None, None, None, false);
    var proxy := new TcpProxy(8000, ["alpha"], ["80"], [false], only);
    var socket := new Socket.Accept(client);
    var session, lookup := proxy.HandleClientConnection(socket);
    assert session == null && lookup != null && lookup.port == 113;
    lookup.OnConnect();
    assert lookup.sent == [Ident.Query(client.port, 8000)];
    lookup.OnData(prefix + ":alice");
    Ident.AllowedField(prefix, "alice", ["alice"]);
    assert prefix + ":" + "alice" == prefix + ":alice";
    assert lookup.hasResponse && Ident.Allowed(lookup.response, proxy.users);
    var admitted := proxy.OnIdentClose(lookup);
    assert admitted != null && proxy.proxySockets[UniqueKey(client)] == socket;
  }
}
