/** `socksProxyServer`: the SOCKS5 front end's own bookkeeping. It picks a
 *  client proxy for each request, decides the reply, rewrites the header of
 *  UDP frames coming back from the tunnel, and keeps the registry of servers
 *  by "host:port" name. */
module Socks {
  import opened Wrappers
  import opened Decimal
  import opened Routing
  import opened ProxyLists

  /** `options.map.type` (with `options.map.name` for 'name'). */
  datatype MapType = ByDefault | ByRandom | ByName(name: string) | ByRule | Unrecognised

  /** What the `dangocoProxy` getter returns: a client proxy, `false`, or
   *  `undefined`. */
  datatype Selection<V> = Selected(proxy: V) | NoProxy | Unset

  /** The `dangocoProxy` getter. `pick` is the index `random()` draws. */
  function SelectProxy<V>(proxies: ProxyList<V>, mapType: MapType, pick: nat): (sel: Selection<V>)
    reads proxies
    requires proxies.Valid()
    requires proxies.list != [] ==> pick < |proxies.list|
    ensures sel.Unset? <==> mapType == ByRule || mapType == Unrecognised
    ensures sel.NoProxy? <==>
      || ((mapType == ByDefault || mapType == ByRandom) && proxies.entries == map[])
      || (mapType.ByName? && mapType.name !in proxies.entries)
    ensures sel.Selected? ==> exists k :: k in proxies.entries && proxies.entries[k] == sel.proxy
    ensures sel.Selected? && mapType == ByDefault ==> sel.proxy == proxies.entries[proxies.order[0]]
    ensures sel.Selected? && mapType.ByName? ==> sel.proxy == proxies.entries[mapType.name]
  {
    match mapType
    case ByDefault =>
      (match proxies.First() case Some(p) => Selected(p) case None => NoProxy)
    case ByRandom =>
      (match proxies.Random(pick) case Some(p) => Selected(p) case None => NoProxy)
    case ByName(name) =>
      if name in proxies.entries then Selected(proxies.entries[name]) else NoProxy
    case ByRule => Unset
    case Unrecognised => Unset
  }

  /** REP X'01', general SOCKS server failure (section 6 of RFC 1928). */
  const GeneralFailure: bv8 := 0x01

  /** How `relay` answers a request: `CMD_REPLY()` (success),
   *  `CMD_REPLY(code)`, handing the reply to the UDP relay built once the
   *  tunnel's delivery channel is ready, or a TypeError thrown before any
   *  reply when the getter gave `undefined`. */
  datatype RelayOutcome = ReplySuccess | ReplyFailure(code: bv8) | AwaitUdpReady | Thrown

  /** `relay(type, ...)` for the selection it reads and, when the request
   *  reaches a tunnel, whether the tunnel's callback reports an error. */
  function Relay<V>(kind: Protocol, sel: Selection<V>, tunnelError: bool): (out: RelayOutcome)
    ensures out == ReplySuccess <==> sel.Selected? && kind == Tcp && !tunnelError
    ensures out == ReplyFailure(GeneralFailure) <==> sel.NoProxy? || (sel.Selected? && tunnelError)
    ensures out == AwaitUdpReady <==> sel.Selected? && kind == Udp && !tunnelError
    ensures out == Thrown <==> sel.Unset?
    ensures out.ReplyFailure? ==> out.code == GeneralFailure
  {
    match sel
    case NoProxy => ReplyFailure(GeneralFailure)
    case Unset => Thrown
    case Selected(_) =>
      match kind
      case Tcp => if !tunnelError then ReplySuccess else ReplyFailure(GeneralFailure)
      case Udp => if tunnelError then ReplyFailure(GeneralFailure) else AwaitUdpReady
  }

  /** A server configured with the 'rule' type never answers: the getter
   *  gives `undefined`, which the `false` test lets through. */
  lemma RuleSelectionThrows<V>(proxies: ProxyList<V>, kind: Protocol, pick: nat, tunnelError: bool)
    requires proxies.Valid()
    requires proxies.list != [] ==> pick < |proxies.list|
    ensures Relay(kind, SelectProxy(proxies, ByRule, pick), tunnelError) == Thrown
  {
  }

  /** With no client proxy registered, the default and random types answer
   *  every request with a general failure. */
  lemma NoProxyFails<V>(proxies: ProxyList<V>, mapType: MapType, kind: Protocol, pick: nat, tunnelError: bool)
    requires proxies.Valid() && proxies.entries == map[]
    requires proxies.list != [] ==> pick < |proxies.list|
    requires mapType == ByDefault || mapType == ByRandom
    ensures Relay(kind, SelectProxy(proxies, mapType, pick), tunnelError) == ReplyFailure(GeneralFailure)
  {
  }

  /** A frame from the tunnel with its first three bytes zeroed: RSV and FRAG
   *  of the SOCKS5 UDP header. Bytes past the end of a short frame do not
   *  exist and are not written. */
  function ZeroReserved(frame: seq<bv8>): (r: seq<bv8>)
    ensures |r| == |frame|
    ensures forall i :: 0 <= i < |r| ==> r[i] == if i < 3 then 0 else frame[i]
  {
    if |frame| <= 3 then seq(|frame|, _ => 0) else [0, 0, 0] + frame[3..]
  }

  /** The header of a standalone (unfragmented) SOCKS5 UDP datagram: RSV
   *  X'0000' and FRAG X'00' (section 7 of RFC 1928). */
  predicate StandaloneHeader(frame: seq<bv8>)
  {
    |frame| >= 3 && frame[0] == 0 && frame[1] == 0 && frame[2] == 0
  }

  /** After the rewrite a frame of at least three bytes is a standalone
   *  datagram with the same address and payload; rewriting twice is
   *  rewriting once. */
  lemma ZeroReservedHeader(frame: seq<bv8>)
    ensures |frame| >= 3 ==> StandaloneHeader(ZeroReserved(frame))
    ensures |frame| >= 3 ==> ZeroReserved(frame)[3..] == frame[3..]
    ensures ZeroReserved(ZeroReserved(frame)) == ZeroReserved(frame)
  {
  }

  /** The tunnel's 'remoteMsg' handler: `frame[0] = frame[1] = frame[2] = 0x00`
   *  in place (the writes land from right to left), before the frame goes
   *  to the relay. */
  method OnRemoteMessage(frame: array<bv8>)
    modifies frame
    ensures frame[..] == ZeroReserved(old(frame[..]))
  {
    if 2 < frame.Length { frame[2] := 0; }
    if 1 < frame.Length { frame[1] := 0; }
    if 0 < frame.Length { frame[0] := 0; }
  }

  /** A SOCKS server as the registry sees it. */
  datatype SocksServer = SocksServer(host: string, port: nat, mapType: MapType)

  /** `${host}:${port}`. */
  function ServerName(host: string, port: nat): (r: string)
    ensures |r| > |host| + 1
    ensures r[..|host|] == host && r[|host|] == ':'
    ensures AllDigits(r[|host| + 1..]) && Value(r[|host| + 1..]) == port
  {
    var r := host + ":" + Show(port);
    assert r[|host| + 1..] == Show(port);
    r
  }

  /** Server names clash exactly when host and port are both equal. */
  lemma ServerNameInjective(h1: string, p1: nat, h2: string, p2: nat)
    ensures ServerName(h1, p1) == ServerName(h2, p2) <==> h1 == h2 && p1 == p2
  {
    JoinInjective(h1, h2, ':', p1, p2);
  }

  const DuplicatePrefix := "duplicated socks server name: "

  /** `socksServers`: the running SOCKS servers by name. */
  class SocksRegistry {
    var servers: map<string, SocksServer>

    ghost predicate Valid()
      reads this
    {
      forall n :: n in servers ==> ServerName(servers[n].host, servers[n].port) == n
    }

    constructor ()
      ensures Valid() && servers == map[]
    {
      servers := map[];
    }

    /** `new socksProxyServer(host, port, options)`: throws when a server of
     *  that name is registered, which is exactly when one listens on the same
     *  host and port; registers the new server otherwise. */
    method Create(host: string, port: nat, mapType: MapType) returns (r: Result<SocksServer, string>)
      requires Valid()
      modifies this
      ensures Valid()
      ensures r.Failure? <==> exists n :: n in old(servers) && old(servers)[n].host == host && old(servers)[n].port == port
      ensures r.Failure? ==> r.error == DuplicatePrefix + ServerName(host, port) && servers == old(servers)
      ensures r.Success? ==>
        r.value == SocksServer(host, port, mapType) && servers == old(servers)[ServerName(host, port) := r.value]
    {
      var name := ServerName(host, port);
      if name in servers {
        ServerNameInjective(servers[name].host, servers[name].port, host, port);
        return Failure(DuplicatePrefix + name);
      }
      forall n | n in servers
        ensures !(servers[n].host == host && servers[n].port == port)
      {
        ServerNameInjective(servers[n].host, servers[n].port, host, port);
      }
      var server := SocksServer(host, port, mapType);
      servers := servers[name := server];
      r := Success(server);
    }

    /** The server's 'close' event: its name leaves the registry, so the
     *  same host and port can be served again. */
    method OnServerClose(server: SocksServer)
      requires Valid()
      modifies this
      ensures Valid()
      ensures servers == old(servers) - {ServerName(server.host, server.port)}
    {
      servers := servers - {ServerName(server.host, server.port)};
    }
  }
}
