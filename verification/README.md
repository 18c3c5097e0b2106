# TCP/TLS relay core: a Dafny model

This project models the connection-pairing engine of a TCP/TLS relay
(`TcpProxy` in src/tcp.proxy.ts) and its configuration normalisers
(src/utils/net.ts). The relay accepts a client connection. It may first check
the client's user name with the identification protocol of RFC 1413. It then
opens one backend connection per client, picking the endpoint round-robin or
through a caller-supplied selector. It relays chunks in both directions
through optional rewrite hooks, and tears down both sockets when either one
closes or fails.

Files and modules:

- `wrappers.dfy` (`Wrappers`): `Option` stands for JavaScript's `undefined`/`NaN`, and `Result` for a thrown error.
- `text.dfy` (`Text`): the JavaScript string built-ins the code relies on.
  - `split` with a one-character separator, and `join`.
  - `Number#toString` on non-negative integers, and `parseInt(s, 10)`.
  - `trim` over ASCII white space.
- `net.dfy` (`Net`): `parseHosts`, `parsePorts` and `uniqueKey`.
- `ident.dfy` (`Ident`): the pure part of `handleAuth`. This is the query text, the user field taken from a reply and the allow-list test.
- `proxy.dfy` (`Proxy`): the stateful engine, written imperatively.
  - `Socket` is an abstract socket handle that logs every chunk written to it and whether it was destroyed.
  - `Context` is the session record (`ContextBase`), updated in place. Its ghost field `processed` lists every client chunk after the upstream hook, in arrival order.
  - `IdentLookup` holds the identification connection and its closure state (`response`, `hasResponse`).
  - `TcpProxy` holds the cursor `serviceHostIndex`, the session table `proxySockets`, and one method per function or socket callback of the source.
  - Each callback is one atomic method on a single thread.

The central invariant is `Context.Valid`:
- Before the backend connects, `buffers` equals `processed` and nothing has been written to the backend.
- After it connects, the backend's write log equals `processed`, and `buffers` is the flushed prefix. It is never cleared.

`HandleUpstreamData` and `WriteBuffer` keep this invariant. So the backend receives the processed client chunks in arrival order, with none dropped or duplicated, across the buffering boundary. `TcpProxy.Valid` ties the cursor to the number of selections made so far (`CursorAfter`). `RoundRobin` proves that with N ≥ 1 hosts the k-th selection, counting from 0, gets index k mod N.

Three client methods derive these facts for concrete sessions from the contracts alone. `ExampleSessionOrder` covers chunk order, `ExampleRoundRobin` covers endpoint choice, and `ExampleIdentAdmission` covers a client admitted through the ident lookup.

In these points the model follows the code:

- After the flush, `buffers` is left as it is. It is not cleared.
- Only the whole ident reply is trimmed. The field after the last `:` keeps its blanks. Section "Query/Response Format" of RFC 1413 lays replies out with a blank after each `:` ("6193, 23 : USERID : UNIX : stjohns"). `Ident.SpacedReplyKeepsBlank` shows the consequence: such a reply yields " stjohns", which never matches "stjohns".
- An error on the ident connection clears `hasResponse` but leaves `response` as it is. Since a reply destroys the lookup, no error can follow one (Node emits none after a plain `destroy()`), so a reply is never discarded by a later error. `OnIdentClose` still handles the combination of a stored text and a cleared flag, deciding on the text, but no order of events reaches it.
- Only the client's `close` handler removes the table entry. The backend's `close`/`error` handlers destroy the client socket and leave the table alone.
- Host and port lists of different lengths are accepted without error. An index outside the lists yields an undefined host (`None`), a `NaN` port (`None`) and no TLS.

## Model

| member | source | states |
|---|---|---|
| `Net.ParseHosts` | src/utils/net.ts:3-13 | A string gives its comma-free pieces. Joined with ',' they give the string back, and there is one more piece than there are commas. A number gives the one-element list of its decimal text. A list is returned unchanged. Any other value is refused with `CannotParse`. |
| `Net.ParsePorts` | src/utils/net.ts:15 | Accepts and returns exactly what `ParseHosts` does, for every input. |
| `Net.ParseHostsJoined` | src/utils/net.ts:4-5 | A non-empty list of comma-free names, written as one comma-separated string, is parsed back to that list. |
| `Net.UniqueKey` | src/utils/net.ts:17-20 | The key decodes back to the remote. The text after its last ':' is all digits and parses to the port, and the text before that ':' is the address, even when the address contains colons. |
| `Net.UniqueKeyInjective` | src/utils/net.ts:17-20 | Two remotes with the same key are the same (address, port) pair. |
| `Text.Split` | src/utils/net.ts:5 | `split` yields one more piece than there are separators, and no piece contains the separator. |
| `Text.JoinSplit` | src/utils/net.ts:5 | Joining the pieces of a split with the separator gives the original text. |
| `Text.SplitJoin` | src/utils/net.ts:5 | Splitting the join of a non-empty, separator-free list gives the list back. |
| `Text.SplitAppend` | src/utils/net.ts:5 | Splitting `a + sep + b` gives the pieces of `a` followed by the pieces of `b`. |
| `Text.SplitLast` | src/tcp.proxy.ts:156 | The last piece of a split is a suffix of the text. A separator stands right before it when the text has one, and it is the whole text when there is none. |
| `Text.Decimal` | src/utils/net.ts:7 | `toString` of a non-negative integer is non-empty, all digits, and has no leading zero. |
| `Text.DecimalParses` | src/tcp.proxy.ts:261 | `parseInt(n.toString(), 10)` is `n`. |
| `Text.ParseInt` | src/tcp.proxy.ts:261 | `parseInt` is NaN exactly when the text does not start with a digit. |
| `Text.Trim` | src/tcp.proxy.ts:146 | The result starts and ends with non-blanks, or is empty. It is the part of the input left between its longest blank prefix and a blank suffix. |
| `Text.TrimIdempotent` | src/tcp.proxy.ts:146 | Trimming an already trimmed reply changes nothing. |
| `Ident.Query` | src/tcp.proxy.ts:137 | The query has exactly two comma-separated fields. The first is all digits and parses to the client's remote port. The second is a blank followed by digits that parse to the proxy's port. |
| `Ident.User` | src/tcp.proxy.ts:156 | The user is the colon-free suffix after the reply's last ':', or the whole reply when it has no ':'. It is not trimmed. |
| `Ident.Allowed` | src/tcp.proxy.ts:156-157 | A reply without ':' is admitted iff it is listed verbatim. Any admitted reply ends in a listed, colon-free name. |
| `Ident.AllowedField` | src/tcp.proxy.ts:156-157 | For a reply "<anything>:<name>" with a colon-free name, the user is that name, and the reply is admitted iff the name is listed. |
| `Ident.SpacedReplyKeepsBlank` | src/tcp.proxy.ts:146-157 | A reply "<prefix> : <name>" yields the user " <name>". It is admitted iff " <name>" is listed, so never by a list holding only the bare name. |
| `Proxy.CursorStep` | src/tcp.proxy.ts:270-273 | One step either resets the cursor to 0 or adds one. From a cursor in [-1, N) with N ≥ 1 hosts, it lands in [0, N). |
| `Proxy.CursorAfter` | src/tcp.proxy.ts:270-273 | With N ≥ 1 hosts the cursor stays in [-1, N), and after at least one selection it is in [0, N). |
| `Proxy.Intercept` | src/tcp.proxy.ts:201-205 | An absent hook passes the chunk through unchanged. A present hook's output is what the hook returns for the session view and the chunk. |
| `Proxy.Periodic` | src/tcp.proxy.ts:269-273 | The cursor is periodic in the host count. After q full rounds and r + 1 further selections it is r. |
| `Proxy.RoundRobin` | src/tcp.proxy.ts:269-273 | With N ≥ 1 hosts the cursor starts at -1, and after the k-th selection (0-based) it is k mod N, which lies in [0, N). |
| `Proxy.CursorWithoutHosts` | src/tcp.proxy.ts:269-273 | With an empty host list the cursor never wraps. The k-th selection yields k. |
| `Proxy.Create` | src/tcp.proxy.ts:56-66 | Construction fails with the `parseHosts` error on a bad host option, and then with the `parsePorts` error on a bad port option. When both options parse, it succeeds and stores the given options. It stores the parsed lists, starts the cursor at -1 and starts with an empty session table. |
| `Proxy.TcpProxy.constructor` | src/tcp.proxy.ts:62-106 | Stores the port, lists and options. `users` and `allowedIPs` are the configured lists, empty when absent. The cursor is -1, the table is empty and the cursor invariant holds. |
| `Proxy.Context.constructor` | src/tcp.proxy.ts:175-180 | A new session record has no buffers, is not connected, has no backend, and satisfies the session invariant. |
| `Proxy.TcpProxy.WriteBuffer` | src/tcp.proxy.ts:26-33 | Sets `connected`. Appends every buffered chunk to the backend's log in index order. Leaves `buffers` as it is. Leaves the backend's `destroyed` flag as it was. On a first connect of a session with a backend, the session invariant then holds: the backend's log equals every processed chunk. |
| `Proxy.TcpProxy.HandleClientConnection` | src/tcp.proxy.ts:122-128 | With no user list, or with an allow-listed address, the client gets a fresh registered session at once. Otherwise no session is made and the table is unchanged. Instead an ident lookup to port 113 of the client's address starts with the query "<remotePort>, <proxyPort>". The lookup starts live: not ended, not destroyed, with no response. |
| `Proxy.TcpProxy.HandleAuth` | src/tcp.proxy.ts:130-140 | An allow-listed address is admitted without any ident query. Any other address gets a new lookup to port 113 of its address carrying `Ident.Query(remotePort, proxyPort)`. The lookup starts live: not ended, not destroyed, with no response. The table is unchanged. |
| `Proxy.IdentLookup.constructor` | src/tcp.proxy.ts:136-140 | A lookup targets port 113. It starts with an empty response, no response flag and nothing sent. |
| `Proxy.IdentLookup.OnConnect` | src/tcp.proxy.ts:164-167 | On connect the query is sent and the write side is ended. |
| `Proxy.IdentLookup.OnData` | src/tcp.proxy.ts:145-149 | Runs only on a live lookup. The reply chunk, trimmed as a whole, becomes the response. The flag is set and the lookup is destroyed, so no later chunk or error can be delivered. Only the first chunk is kept. |
| `Proxy.IdentLookup.OnError` | src/tcp.proxy.ts:141-144 | Runs only on a live lookup. An error clears the response flag and destroys the lookup. |
| `Proxy.TcpProxy.OnIdentClose` | src/tcp.proxy.ts:150-163 | With no flag and an empty response, the client is destroyed. Otherwise the client gets a fresh registered session iff `Ident.User(response)` is listed, and is destroyed otherwise. A rejected client leaves the table unchanged. |
| `Proxy.TcpProxy.HandleClient` | src/tcp.proxy.ts:170-180 | The table maps the client's `UniqueKey` to its socket, and every other entry is kept. A fresh session record satisfying the invariant is returned. |
| `Proxy.TcpProxy.HandleUpstreamData` | src/tcp.proxy.ts:198-215 | The chunk passes the upstream hook, or identity, and is appended to `processed`. Before connect it is appended to `buffers`. After connect it is appended to the backend's log. `connected` is unchanged. Only a session without a backend creates one and advances the cursor, exactly once, dialing the selected endpoint. The backend's `destroyed` flag is unchanged. The invariants are kept. |
| `Proxy.TcpProxy.SelectIndex` | src/tcp.proxy.ts:274-278 | Without a selector the round-robin index is used. With one, the result is the selector's choice for the client socket and that index. |
| `Proxy.TcpProxy.ServiceOptions` | src/tcp.proxy.ts:259-266 | The options carry the index, the host at that index and its port parsed with `parseInt`. Outside the lists the host is undefined and the port NaN. They also carry the configured local bind address and port and `rejectUnauthorized`. |
| `Proxy.TcpProxy.UsesTLS` | src/tcp.proxy.ts:222 | TLS is used iff the index lies within the TLS list and its flag is true. |
| `Proxy.TcpProxy.CreateServiceSocket` | src/tcp.proxy.ts:217-231 | Makes exactly one selection and dials a fresh, empty backend socket. The socket uses the host and port at the selected index, and TLS iff that index's flag is true. |
| `Proxy.TcpProxy.ParseServiceOptions` | src/tcp.proxy.ts:255-267 | Advances the cursor once. Returns the connect options for the selected index: its host, its port parsed with `parseInt`, and the local address and port. |
| `Proxy.TcpProxy.GetServiceHostIndex` | src/tcp.proxy.ts:269-279 | Advances the cursor by one selection. With N ≥ 1 hosts the new cursor is (previous selections) mod N, in [0, N). The result is the cursor, or exactly `serviceHostSelected(socket, cursor)` when a selector is set. |
| `Proxy.TcpProxy.OnServiceData` | src/tcp.proxy.ts:233-242 | A backend chunk passes the downstream hook, or identity, and is appended to the client's log. The session invariant is kept. |
| `Proxy.TcpProxy.OnServiceEnd` | src/tcp.proxy.ts:243-252 | Backend `close` or `error` destroys the client socket. |
| `Proxy.TcpProxy.OnClientClose` | src/tcp.proxy.ts:185-190 | Client `close` removes exactly the client's key from the table and destroys the backend, if there is one. |
| `Proxy.TcpProxy.OnClientError` | src/tcp.proxy.ts:191-195 | Client `error` destroys the backend, if there is one. The table is not in its frame. |

## Left out

- Socket I/O is not modelled: `net.createServer`, `tls.createServer` and `listen`, the backend `tls.connect` and `net.Socket().connect` calls, and the ident connection's `connect`/`write`/`end`. Sockets are abstract handles, and each event is a method the environment calls.
- Writes to a destroyed socket are still recorded in its log. Node's own refusal of such writes is runtime behaviour outside the relay.
- The listening-side TLS options and certificate loading (`fs.readFileSync`) are file I/O and library configuration. So are the backend's `secureProtocol` and the `hostname` bind option.
- Logging (`log`, `console.log`) is left out because it never affects control flow.
- `parseTLS` is not part of this model. The TLS flags are taken as an already normalised `seq<bool>`.
- src/proxy.ts (a one-line factory), src/context.ts and src/options/proxy-setup-options.ts (type declarations) contribute only the shape of the session record and options.
- Proxy.TcpProxy.WriteBuffer: the session invariant is promised only for the first connect of a session that has a backend socket. Node fires a socket's connect callback once, and only for a socket that exists. A second call would write the buffers twice.
- Proxy.TcpProxy.HandleClientConnection: requires an accepted socket (`peer.Client?`) whose remote address and port are defined. The JavaScript case of an `undefined` address or port is left out.
- Proxy.TcpProxy.SelectIndex: the selector receives the client socket, but as a pure function it can use only the socket's identity and peer (address, port). The socket's changing state, such as its write log or `destroyed` flag, is not visible to it.
- Proxy.Intercept: a hook receives `ContextView`, a copy of the session record's `buffers` and `connected` with references to its client and backend sockets, instead of the mutable record itself. It can tell sessions apart by the sockets and their peers, but it cannot read the sockets' changing state (their write logs, `destroyed`), and it cannot change the record or the sockets. A hook that throws is not modelled.
- Numbers in `parseHosts` are non-negative integers only. Float and negative `toString` output is not modelled.
- Port lists given as arrays of numbers are represented by their decimal texts.
- `parseInt` is modelled as the value of the leading digits. Its skipping of leading blanks and its sign handling are not modelled.
- `trim` removes only ASCII white space (space, \t, \n, \v, \f, \r), not Unicode spaces.
- The decoding of a reply `Buffer` to a string is not modelled. Replies are given as strings.
- Concurrency and timeouts are not modelled: callbacks are atomic steps on one thread, and the source has no timeouts.
