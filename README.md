# dangoco client: tunnel pool and SOCKS5 bridge bookkeeping, in Dafny

This project models the bookkeeping of the dangoco client (`client.js`).
That code sits between a local SOCKS5 listener and the dangoco tunnel
library. The model covers these parts:

- **Routing** (`routing.dfy`): `_getClientInfo`. A request's protocol,
  address and port, together with the client proxy's connection rules, give
  a tunnel name and a mode. The rules are `connectionPerRequest`,
  `connectionPerTCP`, `connectionPerUDP`, `connectionPerTarget` and
  `connectionForUDP`, tried in that order. The random part of a private name
  is supplied as a sequence of candidate tokens. A name already in use is
  drawn again.
- **Tunnel pool** (`pool.dfy`): the class `dangocoClientProxy`. It holds the
  map of tunnels (clients) by name. It covers `proxy`, the tunnel's `close`
  and `proxy_close` handlers, `calcConnection` and `close`, plus the default
  idle timeout and its conversion to milliseconds. A tunnel is an abstract
  record: which object it is, its name, its mode, its idle timeout, whether
  the pool closed it, and the number of streams it carries.
- **Proxy list** (`proxylist.dfy`): the class `ProxyList`. A JavaScript Map is
  modelled by its keys in insertion order plus its entries. The `list` array
  is rebuilt from them after each `set` or `delete`. `first()` and `random()`
  pick from `list`.
- **SOCKS front end** (`socks.dfy`): the `dangocoProxy` getter and the reply
  `relay` sends. It also covers the in-place zeroing of the first three bytes
  of UDP frames that come back from the tunnel, and the registry of SOCKS
  servers by `host:port` name.
- **Helpers** (`format.dfy`, `decimal.dfy`): `_targetString` and
  `formatTime`. Decimal rendering of numbers, as template literals produce
  it, is given together with its inverse.

The model follows the code wherever the code and its comments disagree.
The comment at client.js:115 describes `connectionForUDP` as a rule for UDP
requests. The test at client.js:210 checks no protocol, so a TCP request
that no higher rule decides also gets the tunnel `UDP`. `Routing.Applies`
and `Routing.FirstRule` model the code as written. The selection type
'rule' is an unfinished stub (client.js:334-337). The getter then gives
`undefined`, which passes the `proxy===false` test at client.js:297.
`relay` then throws a TypeError before it sends any reply. `Socks.Relay`
gives `Thrown` for this case, and `Socks.RuleSelectionThrows` states it.

## Model

| member | source | states |
|---|---|---|
| `Decimal.Show` | client.js:209 | `${port}` gives decimal digits only, with no leading zero except for 0 itself, and reading them back gives the port; one digit below 10, at most two below 100 |
| `Decimal.Pad2` | client.js:355 | `String(n).padStart(2,'0')` gives digits whose value is n, exactly two characters when n < 100; a longer result has no leading zero |
| `Format.TargetString` | client.js:345-348 | an empty address gives "unknown target"; otherwise the result is the address, ':' and digits that read back as the port, with no leading zero unless the port is 0 |
| `Format.TargetStringInjective` | client.js:345-348 | two known targets print alike exactly when address and port are equal, and a known target never prints as "unknown target" |
| `Format.FormatTime` | client.js:349-358 | below an hour the result is five characters `MM:SS`; from an hour on it ends in `:MM:SS` after the hours; its fields are stated by `FormatTimeFields` and `ParseFormatTime` |
| `Format.FormatTimeFields` | client.js:349-358 | two fields below 3600 s and three from 3600 s on; the fields are MM = s/60 and SS = s%60, or HH = s/3600, MM = (s%3600)/60 and SS = s%60; minutes and seconds are two digits and below 60 |
| `Format.ParseFormatTime` | client.js:349-358 | reading the formatted clock back gives the original seconds |
| `Routing.FirstRule` | client.js:198-212 | the rule that decides a request applies to it, and no rule earlier in the priority order applies |
| `Routing.GetClientInfo` | client.js:197-216 | a shared rule gives its fixed name in 'subStream' mode. A private rule gives 'stream' mode and a name of the rule's prefix plus a candidate token, never a name already in use. It fails only when every candidate collides |
| `Routing.NameKindsDisjoint` | client.js:199-211 | names of private tunnels ("X:", "TCP:", "UDP:" prefixes) and shared names ("Target:…", "UDP", "default") never coincide |
| `Routing.ModeMatchesName` | client.js:213-215 | the mode of a computed name is 'stream' exactly when the name is a private one |
| `Routing.TargetName` | client.js:209 | the name is "Target:", the address, '@' and digits that read back as the port |
| `Routing.TargetNameInjective` | client.js:209 | `Target:${addr}@${port}` names are equal exactly when address and port are equal |
| `Routing.TargetRouting` | client.js:208-209 | under connectionPerTarget with no higher rule applying, the name is `Target:addr@port` in 'subStream' mode |
| `Routing.SameTargetSameTunnel` | client.js:208-209 | two requests routed by connectionPerTarget get the same tunnel exactly when they go to the same address and port |
| `Pool.IdleSeconds` | client.js:95 | the idle option when it is at least 0, otherwise 15 seconds |
| `Pool.Milliseconds` | client.js:147 | the idle timeout in milliseconds is a whole multiple of 1000 that divides back to the seconds |
| `Pool.TotalStreamsRemove` | client.js:187-193 | the stream total does not depend on the order in which the tunnels are counted |
| `Pool.CloseAll` | client.js:217-221 | shutdown keeps every name, closes every tunnel and changes nothing else about them |
| `Pool.CloseAllKeepsStreams` | client.js:217-221 | in the model, where closing only clears the open flag, shutdown leaves the stream total unchanged (the tunnel library's own `close` is not part of this model) |
| `Pool.ClientProxy.constructor` | client.js:127-133 | a new client proxy starts with no tunnels |
| `Pool.ClientProxy.Proxy` | client.js:134-186 | the computed name is in the pool afterwards. An existing tunnel is reused and gains a stream. A missing one is created as a new object (the next identity) with its mode and idle timeout in milliseconds. No other name is added or removed, and a private name is always new |
| `Pool.ClientProxy.OnTunnelClose` | client.js:156-158 | the 'close' event removes the tunnel's name and nothing else |
| `Pool.ClientProxy.OnProxyClose` | client.js:163-167 | for the tunnel the handler belongs to: one not in 'subStream' mode is closed and its name removed. A 'subStream' tunnel stays in the pool with one stream fewer, and a newer tunnel under the same name is left alone |
| `Pool.ClientProxy.CalcConnection` | client.js:187-193 | the loop's sum is the number of streams across all tunnels |
| `Pool.ClientProxy.Close` | client.js:217-221 | every tunnel is closed and none is removed; an empty pool is left unchanged |
| `Pool.TwoPrivateRequests` | client.js:199-214 | under connectionPerRequest two requests get two distinct new tunnels, each with its one stream |
| `Pool.LateProxyClose` | client.js:156-167 | a late 'proxy_close' from a shared tunnel that has been replaced leaves the new tunnel under that name with its one stream |
| `ProxyLists.ValuesInOrder` | client.js:68 | `[...map.values()]` lists the value of each key in insertion order |
| `ProxyLists.Without` | client.js:70-73 | after a delete, the key order keeps exactly the other keys, still distinct |
| `ProxyLists.WithoutCutsOut` | client.js:70-73 | deleting a key cuts it out where it stood and leaves the others in order |
| `ProxyLists.ProxyList.constructor` | client.js:62-65 | a new list has an empty map and an empty array |
| `ProxyLists.ProxyList.Set` | client.js:66-69 | the map takes the new value. A new key goes last and an existing key keeps its place. `list` is the values in insertion order |
| `ProxyLists.ProxyList.Delete` | client.js:70-73 | the key leaves the map and the order, `list` is rebuilt, and deleting an absent key changes nothing |
| `ProxyLists.ProxyList.Clear` | client.js:74-77 | map, order and list are all emptied |
| `ProxyLists.ProxyList.First` | client.js:78-80 | false exactly when no proxy is registered; otherwise the earliest registered proxy still present |
| `ProxyLists.ProxyList.Random` | client.js:81-83 | false exactly when no proxy is registered; otherwise some registered proxy |
| `Socks.SelectProxy` | client.js:328-340 | 'default' and 'random' give a registered proxy, or false when none is. 'name' gives that entry, or false when it is missing. 'rule' and unknown types give undefined |
| `Socks.Relay` | client.js:295-310 | success is replied exactly for a selected proxy, TCP and no tunnel error. Failure 0x01 is replied exactly for false or a tunnel error. UDP without error waits for the relay. Undefined throws |
| `Socks.RuleSelectionThrows` | client.js:296-304 | a server with the 'rule' type never replies: `undefined` passes the false test and the call on it throws |
| `Socks.NoProxyFails` | client.js:296-301 | with no client proxy registered, 'default' and 'random' reply 0x01 to every request |
| `Socks.ZeroReserved` | client.js:320 | bytes 0, 1 and 2 become 0 and every other byte is unchanged; the length is kept |
| `Socks.ZeroReservedHeader` | client.js:319-321 | a frame of at least three bytes gets a standalone SOCKS5 UDP header with its address and payload kept, and the rewrite is idempotent |
| `Socks.OnRemoteMessage` | client.js:320 | the frame array is rewritten in place to `ZeroReserved` of its old contents |
| `Socks.ServerNameInjective` | client.js:256 | `${host}:${port}` names clash exactly when host and port are equal |
| `Socks.ServerName` | client.js:256 | the name is the host, ':' and digits that read back as the port |
| `Socks.SocksRegistry.constructor` | client.js:87 | the registry starts empty |
| `Socks.SocksRegistry.Create` | client.js:254-260 | construction fails with "duplicated socks server name: host:port" exactly when a server with the same host and port is registered; otherwise the server is registered under its name |
| `Socks.SocksRegistry.OnServerClose` | client.js:288-290 | the 'close' event removes the server's name and nothing else |

## Left out

- Command-line parsing, `--algolist`, the keep-alive interval and the `uncaughtException` handler (client.js:9-53) are process plumbing and are not modelled.
- The tunnel library `./lib/client.js` is not part of this model. A tunnel is a record. The model assumes that delegating a request adds one stream to the tunnel's `proxyList` and that `proxy_close` removes one. The `proxy` callback's result reaches `Socks.Relay` only as a parameter.
- Pool.ClientProxy.Proxy: requires the supplied candidate tokens to contain a free private name. The code instead keeps drawing random names, without bound, until one is free.
- Routing.GetClientInfo: the token format of `_randomName` (a base-32 random number, '_' and a base-32 timestamp) is not modelled. The tokens are arbitrary strings.
- Pool.ClientProxy.OnProxyClose: the handler closes the tunnel object its closure holds. The model identifies that object by its id, and can report it as closed only while the pool still holds it; a tunnel that has already left the pool is closed in the code but not reported.
- Pool.ClientProxy.Close: the close code and reason (1000, 'Closing proxy') are passed to the tunnel library and are not recorded.
- The 'error', 'proxy_open', 'proxy_error' and `_wserror` handlers only log, and are not modelled.
- The tunnel options that are passed through unexamined are not modelled: server address, user, password, algorithm, `keyLength || 33`, deflate and `udpInTunnel`. The same goes for `keepBrokenTunnel*1000`, which is NaN when the option is unset.
- ProxyLists.ProxyList.Random: the index `((length-1)*Math.random()+.5)|0` is floating-point arithmetic. It is modelled as a chosen index `pick` that must be in range whenever the list is non-empty.
- ProxyLists.ProxyList.First: `list[0] || false` would also give false for a falsy entry. Entries are client proxy objects, which are always truthy.
- Format.FormatTime: the second parameter `total` (client.js:349), which alone decides whether the hours field appears (client.js:354, 356), is not modelled; it defaults to `sec`, and the only caller (client.js:172) does not pass it.
- Format.FormatTime: seconds are natural numbers. The fractional seconds passed at client.js:172 and the 32-bit wrap-around of `sec|=sec` at 2^31 seconds and above are not modelled.
- Pool.IdleSeconds: the --idle option is parsed with `Number` (client.js:25), so a fractional value such as 1.5 is kept and gives 1500 ms at client.js:147. The model takes whole seconds only.
- Format.TargetString: an absent address (undefined or null) is modelled as the empty string. Both are falsy, so the result is the same.
- Socks.SelectProxy: a server constructed without `options.map` makes the getter throw. The model always has a selection type.
- The SOCKS5 engine (`socks5server`), `UDPRelay`, `pump` and `socks5ToDangoco` are foreign libraries. The model leaves them out, together with waiting for the delivery channel's 'ready' event, the listener, and the 10-second `EADDRINUSE` retry (client.js:262-293, 313-318).
- Logging, `byteSize` and `_domainName` (which calls `net.isIP`) only produce output, and are not modelled.
- The IPC control (client.js:370-405) cannot run as written. It calls `requrie`. `startSocks` uses a `callback` it is never given. Its host and port tests are inverted. `global.s5server` and `initSocksServer` are never defined. It is not modelled.
- Protocols other than 'tcp' and 'udp' are not modelled; the SOCKS5 engine only reports those two.
