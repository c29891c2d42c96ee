/** `dangocoClientProxy`: the pool of tunnels (clients) of one client proxy,
 *  keyed by the names `_getClientInfo` computes. */
module Pool {
  import opened Wrappers
  import opened Routing

  const DefaultIdleSeconds: nat := 15

  /** `dangocoConfig.idle`: the --idle option when it is a number of at least
   *  0, and 15 when it is absent, not a number, or negative. */
  function IdleSeconds(option: Option<int>): (seconds: nat)
    ensures option.Some? && option.value >= 0 ==> seconds == option.value
    ensures !(option.Some? && option.value >= 0) ==> seconds == DefaultIdleSeconds
  {
    match option
    case Some(v) => if v >= 0 then v else DefaultIdleSeconds
    case None => DefaultIdleSeconds
  }

  /** The tunnel options are given in milliseconds, the command line in seconds. */
  function Milliseconds(seconds: nat): (ms: nat)
    ensures ms % 1000 == 0 && ms / 1000 == seconds
  {
    seconds * 1000
  }

  /** A tunnel (a `dangocoClient`) as the pool sees it: which object it is
   *  (`id`, the order of its creation), its name, its mode, the idle timeout
   *  it was created with, whether the pool has closed it, and how many
   *  proxied streams it carries (its `proxyList.size`). */
  datatype Tunnel = Tunnel(id: nat, name: string, mode: Mode, idleTimeoutMs: nat, open: bool, streams: nat)

  /** What the pool keeps true of every entry: it is filed under its own
   *  name; its mode is private exactly when the name is a private name; and a
   *  private tunnel never carries more than its one stream. */
  predicate GoodEntry(name: string, t: Tunnel)
  {
    && t.name == name
    && (t.mode == Stream <==> IsPrivateName(name))
    && (t.mode == Stream ==> t.streams <= 1)
  }

  /** The number of streams across all tunnels, which `calcConnection` reports. */
  ghost function TotalStreams(clients: map<string, Tunnel>): nat
    decreases |clients|
  {
    if clients == map[] then 0
    else
      var n :| n in clients;
      clients[n].streams + TotalStreams(clients - {n})
  }

  /** The sum does not depend on which tunnel is counted first. */
  lemma {:induction false} TotalStreamsRemove(clients: map<string, Tunnel>, n: string)
    requires n in clients
    ensures TotalStreams(clients) == clients[n].streams + TotalStreams(clients - {n})
    decreases |clients|
  {
    var k :| k in clients && TotalStreams(clients) == clients[k].streams + TotalStreams(clients - {k});
    if k != n {
      var rest := clients - {k} - {n};
      assert clients - {n} - {k} == rest;
      TotalStreamsRemove(clients - {k}, n);
      TotalStreamsRemove(clients - {n}, k);
    }
  }

  /** The pool after `close`: every tunnel closed, none removed (the tunnels'
   *  own close events remove them later). */
  function CloseAll(clients: map<string, Tunnel>): (closed: map<string, Tunnel>)
    ensures closed.Keys == clients.Keys
    ensures forall n :: n in closed ==> !closed[n].open
    ensures forall n :: n in closed ==> closed[n].(open := true) == clients[n].(open := true)
  {
    map n | n in clients :: clients[n].(open := false)
  }

  /** Closing twice is closing once. */
  lemma CloseAllIdempotent(clients: map<string, Tunnel>)
    ensures CloseAll(CloseAll(clients)) == CloseAll(clients)
  {
  }

  /** Closing the tunnels does not change how many streams they report. */
  lemma {:induction false} CloseAllKeepsStreams(clients: map<string, Tunnel>)
    ensures TotalStreams(CloseAll(clients)) == TotalStreams(clients)
    decreases |clients|
  {
    if clients != map[] {
      var n :| n in clients;
      TotalStreamsRemove(clients, n);
      TotalStreamsRemove(CloseAll(clients), n);
      assert CloseAll(clients) - {n} == CloseAll(clients - {n});
      CloseAllKeepsStreams(clients - {n});
    }
  }

  /** A finished stream leaves its tunnel (the tunnel library drops it from
   *  its `proxyList`). */
  function StreamEnded(t: Tunnel): (u: Tunnel)
    ensures u.(streams := t.streams) == t
    ensures u.streams == if t.streams == 0 then 0 else t.streams - 1
  {
    t.(streams := if t.streams == 0 then 0 else t.streams - 1)
  }

  class ClientProxy {
    const policy: Policy
    const idleSeconds: nat
    var clients: map<string, Tunnel>
    /** The number of tunnels created so far; the next one gets it as its id. */
    var created: nat

    ghost predicate Valid()
      reads this
    {
      forall n :: n in clients ==> GoodEntry(n, clients[n]) && clients[n].id < created
    }

    /** `new dangocoClientProxy(dangocoConfig, proxyConfig)`: an empty pool. */
    constructor (policy: Policy, idleSeconds: nat)
      ensures Valid()
      ensures this.policy == policy && this.idleSeconds == idleSeconds
      ensures clients == map[] && created == 0
    {
      this.policy := policy;
      this.idleSeconds := idleSeconds;
      clients := map[];
      created := 0;
    }

    /** `proxy(protocol, addr, port, stream, callback)`: computes the tunnel
     *  name, creates and files a tunnel under it when none is there, then
     *  hands the request to that tunnel, which then carries one more stream.
     *  The candidates in `tokens` must contain a free private name; the code
     *  keeps drawing random names until one is free. */
    method Proxy(protocol: Protocol, addr: string, port: nat, tokens: seq<string>) returns (info: ClientInfo)
      requires Valid()
      requires GetClientInfo(policy, protocol, addr, port, clients.Keys, tokens).Some?
      modifies this
      ensures Valid()
      ensures info == GetClientInfo(policy, protocol, addr, port, old(clients).Keys, tokens).value
      ensures info.mode == Stream ==> info.name !in old(clients)
      ensures info.name in old(clients) ==>
        && clients == old(clients)[info.name := old(clients)[info.name].(streams := old(clients)[info.name].streams + 1)]
        && created == old(created)
      ensures info.name !in old(clients) ==>
        && clients == old(clients)[info.name := Tunnel(old(created), info.name, info.mode, Milliseconds(idleSeconds), true, 1)]
        && created == old(created) + 1
      ensures clients.Keys == old(clients).Keys + {info.name}
    {
      info := GetClientInfo(policy, protocol, addr, port, clients.Keys, tokens).value;
      ModeMatchesName(policy, protocol, addr, port, clients.Keys, tokens);
      if info.name !in clients {
        clients := clients[info.name := Tunnel(created, info.name, info.mode, Milliseconds(idleSeconds), true, 0)];
        created := created + 1;
      }
      var t := clients[info.name];
      clients := clients[info.name := t.(streams := t.streams + 1)];
    }

    /** The tunnel's 'close' event: its name leaves the pool. */
    method OnTunnelClose(name: string)
      requires Valid()
      modifies this
      ensures Valid()
      ensures clients == old(clients) - {name} && created == old(created)
    {
      clients := clients - {name};
    }

    /** The tunnel's 'proxy_close' event, for the tunnel `id` the handler's
     *  closure holds, created under `name` with `mode`. A tunnel that is not
     *  'subStream' is closed and whatever the pool holds under its name is
     *  removed; the closed tunnel is returned when the pool still held it. A
     *  'subStream' tunnel stays, one stream fewer; a newer tunnel filed under
     *  the same name is left alone. */
    method OnProxyClose(id: nat, name: string, mode: Mode) returns (closed: Option<Tunnel>)
      requires Valid()
      requires name in clients && clients[name].id == id ==> clients[name].mode == mode
      modifies this
      ensures Valid()
      ensures created == old(created)
      ensures mode != SubStream ==>
        && clients == old(clients) - {name}
        && closed == (if name in old(clients) && old(clients)[name].id == id
                      then Some(StreamEnded(old(clients)[name]).(open := false)) else None)
      ensures mode == SubStream ==>
        && closed == None
        && clients == (if name in old(clients) && old(clients)[name].id == id
                       then old(clients)[name := StreamEnded(old(clients)[name])] else old(clients))
    {
      closed := None;
      var own := name in clients && clients[name].id == id;
      if mode != SubStream {
        if own {
          closed := Some(StreamEnded(clients[name]).(open := false));
        }
        clients := clients - {name};
      } else if own {
        clients := clients[name := StreamEnded(clients[name])];
      }
    }

    /** `calcConnection()`: the number of streams across the pool's tunnels. */
    method CalcConnection() returns (c: nat)
      ensures c == TotalStreams(clients)
    {
      c := 0;
      var rest := clients;
      while rest != map[]
        invariant c + TotalStreams(rest) == TotalStreams(clients)
        decreases |rest|
      {
        var n :| n in rest;
        TotalStreamsRemove(rest, n);
        c := c + rest[n].streams;
        rest := rest - {n};
      }
    }

    /** `close(code, reason)`: closes every tunnel of the pool; an empty pool
     *  is left as it is. */
    method Close()
      requires Valid()
      modifies this
      ensures Valid()
      ensures clients == CloseAll(old(clients)) && created == old(created)
    {
      var todo := clients.Keys;
      while todo != {}
        invariant todo <= clients.Keys
        invariant clients.Keys == old(clients).Keys && created == old(created)
        invariant forall n :: n in clients ==>
          clients[n] == if n in todo then old(clients)[n] else old(clients)[n].(open := false)
        decreases todo
      {
        var n :| n in todo;
        clients := clients[n := clients[n].(open := false)];
        todo := todo - {n};
      }
    }
  }

  /** Under connectionPerRequest every request gets a tunnel of its own: after
   *  two requests the pool holds two more tunnels than before. */
  method TwoPrivateRequests(pool: ClientProxy, protocol: Protocol, addr: string, port: nat,
                            tokens1: seq<string>, tokens2: seq<string>)
      returns (first: ClientInfo, second: ClientInfo)
    requires pool.Valid() && pool.policy.perRequest
    requires forall t :: t in tokens1 ==> "X:" + t !in pool.clients
    requires tokens1 != []
    requires forall t :: t in tokens2 ==> "X:" + t !in pool.clients && "X:" + t != "X:" + tokens1[0]
    requires tokens2 != []
    modifies pool
    ensures first.name != second.name
    ensures pool.clients.Keys == old(pool.clients.Keys) + {first.name, second.name}
    ensures pool.clients[first.name].streams == 1 && pool.clients[second.name].streams == 1
  {
    first := pool.Proxy(protocol, addr, port, tokens1);
    second := pool.Proxy(protocol, addr, port, tokens2);
  }

  /** A 'proxy_close' that arrives from a shared tunnel after it has left the
   *  pool and a new tunnel has taken its name does not touch the new one. */
  method LateProxyClose(pool: ClientProxy, protocol: Protocol, addr: string, port: nat, formerId: nat)
      returns (info: ClientInfo)
    requires pool.Valid()
    requires FirstRule(pool.policy, protocol) == Fallback
    requires "default" in pool.clients && pool.clients["default"].id == formerId
    modifies pool
    ensures info.name == "default" && "default" in pool.clients
    ensures pool.clients["default"].id != formerId && pool.clients["default"].streams == 1
  {
    pool.OnTunnelClose("default");
    info := pool.Proxy(protocol, addr, port, []);
    var _ := pool.OnProxyClose(formerId, "default", SubStream);
  }
}
