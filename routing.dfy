/** `_getClientInfo`: which tunnel (client) of a client proxy carries a
 *  request, and whether that tunnel is private to it or shared. */
module Routing {
  import opened Wrappers
  import opened Decimal

  datatype Protocol = Tcp | Udp

  /** The connection rules of a client proxy (`proxyConfig`); a flag not
   *  given on the command line is false. */
  datatype Policy = Policy(
    perRequest: bool,
    perTarget: bool,
    perTcp: bool,
    perUdp: bool,
    forUdp: bool)

  /** 'stream': a private tunnel for one request; 'subStream': a tunnel that
   *  many requests share. */
  datatype Mode = Stream | SubStream

  /** The connection rules in priority order, and the fallback to "default". */
  datatype Rule = PerRequest | PerTcp | PerUdp | PerTarget | ForUdp | Fallback

  /** A tunnel name and its mode, the pair `_getClientInfo` returns. */
  datatype ClientInfo = ClientInfo(name: string, mode: Mode)

  function Rank(rule: Rule): nat
  {
    match rule
    case PerRequest => 0
    case PerTcp => 1
    case PerUdp => 2
    case PerTarget => 3
    case ForUdp => 4
    case Fallback => 5
  }

  /** Whether a rule, taken on its own, applies to a request. The shared UDP
   *  rule tests no protocol: the code applies it to TCP requests too. */
  predicate Applies(rule: Rule, policy: Policy, protocol: Protocol)
  {
    match rule
    case PerRequest => policy.perRequest
    case PerTcp => policy.perTcp && protocol == Tcp
    case PerUdp => policy.perUdp && protocol == Udp
    case PerTarget => policy.perTarget
    case ForUdp => policy.forUdp
    case Fallback => true
  }

  /** The if-chain of `_getClientInfo`: the rule that decides a request is the
   *  first one, in priority order, that applies. */
  function FirstRule(policy: Policy, protocol: Protocol): (rule: Rule)
    ensures Applies(rule, policy, protocol)
    ensures forall other :: Rank(other) < Rank(rule) ==> !Applies(other, policy, protocol)
  {
    if policy.perRequest then PerRequest
    else if policy.perTcp && protocol == Tcp then PerTcp
    else if policy.perUdp && protocol == Udp then PerUdp
    else if policy.perTarget then PerTarget
    else if policy.forUdp then ForUdp
    else Fallback
  }

  /** The rules that give each request a tunnel of its own under a random name. */
  predicate IsPrivate(rule: Rule)
  {
    rule == PerRequest || rule == PerTcp || rule == PerUdp
  }

  function Prefix(rule: Rule): string
    requires IsPrivate(rule)
  {
    if rule == PerRequest then "X:" else if rule == PerTcp then "TCP:" else "UDP:"
  }

  /** `Target:${addr}@${port}`. */
  function TargetName(addr: string, port: nat): (r: string)
    ensures |r| > |addr| + 8
    ensures r[..7] == "Target:" && r[7..7 + |addr|] == addr && r[7 + |addr|] == '@'
    ensures AllDigits(r[8 + |addr|..]) && Value(r[8 + |addr|..]) == port
  {
    var r := "Target:" + addr + "@" + Show(port);
    assert r[8 + |addr|..] == Show(port);
    r
  }

  function SharedName(rule: Rule, addr: string, port: nat): string
    requires !IsPrivate(rule)
  {
    if rule == PerTarget then TargetName(addr, port)
    else if rule == ForUdp then "UDP"
    else "default"
  }

  /** `_getClientInfo(protocol, addr, port)` against the names `inUse` that the
   *  client map already holds. The random part of a private name is drawn
   *  from `tokens`, one per attempt; a private name already in use is drawn
   *  again, as the code does by recursion. None only when every supplied
   *  token collides, where the code would go on drawing. */
  function GetClientInfo(policy: Policy, protocol: Protocol, addr: string, port: nat,
                         inUse: set<string>, tokens: seq<string>): (r: Option<ClientInfo>)
    ensures var rule := FirstRule(policy, protocol);
      && (!IsPrivate(rule) ==> r == Some(ClientInfo(SharedName(rule, addr, port), SubStream)))
      && (IsPrivate(rule) ==>
            && (r.None? <==> forall t :: t in tokens ==> Prefix(rule) + t in inUse)
            && (r.Some? ==> r.value.mode == Stream && r.value.name !in inUse
                            && exists t :: t in tokens && r.value.name == Prefix(rule) + t))
    decreases |tokens|
  {
    var rule := FirstRule(policy, protocol);
    if !IsPrivate(rule) then
      Some(ClientInfo(SharedName(rule, addr, port), SubStream))
    else if tokens == [] then
      None
    else
      var name := Prefix(rule) + tokens[0];
      if name in inUse then
        var r := GetClientInfo(policy, protocol, addr, port, inUse, tokens[1..]);
        assert forall t :: t in tokens ==> t == tokens[0] || t in tokens[1..];
        r
      else
        Some(ClientInfo(name, Stream))
  }

  /** Names of private tunnels: they start with "X:", "TCP:" or "UDP:". */
  predicate IsPrivateName(name: string)
  {
    (|name| >= 2 && name[..2] == "X:")
    || (|name| >= 4 && (name[..4] == "TCP:" || name[..4] == "UDP:"))
  }

  /** A private name and a shared name never coincide, so a request that is
   *  routed to a shared tunnel never lands on a private one. */
  lemma NameKindsDisjoint(rule: Rule, addr: string, port: nat, token: string)
    ensures IsPrivate(rule) ==> IsPrivateName(Prefix(rule) + token)
    ensures !IsPrivate(rule) ==> !IsPrivateName(SharedName(rule, addr, port))
  {
    if IsPrivate(rule) {
      var p := Prefix(rule);
      assert (p + token)[..|p|] == p;
    } else if rule == PerTarget {
      var n := TargetName(addr, port);
      assert n[..2][0] == 'T' && "X:"[0] == 'X';
      assert n[..4][1] == 'a' && "TCP:"[1] == 'C' && "UDP:"[1] == 'D';
    } else {
      assert "UDP"[..2][0] == 'U' && "default"[..2][0] == 'd' && "X:"[0] == 'X';
      assert "default"[..4][0] == 'd' && "TCP:"[0] == 'T' && "UDP:"[0] == 'U';
    }
  }

  /** The mode of a computed name can be read off the name itself. */
  lemma ModeMatchesName(policy: Policy, protocol: Protocol, addr: string, port: nat,
                        inUse: set<string>, tokens: seq<string>)
    requires GetClientInfo(policy, protocol, addr, port, inUse, tokens).Some?
    ensures var info := GetClientInfo(policy, protocol, addr, port, inUse, tokens).value;
      info.mode == Stream <==> IsPrivateName(info.name)
  {
    var rule := FirstRule(policy, protocol);
    var info := GetClientInfo(policy, protocol, addr, port, inUse, tokens).value;
    if IsPrivate(rule) {
      var t :| t in tokens && info.name == Prefix(rule) + t;
      NameKindsDisjoint(rule, addr, port, t);
    } else {
      NameKindsDisjoint(rule, addr, port, "");
    }
  }

  /** Under connectionPerTarget two requests share a tunnel name exactly when
   *  they go to the same address and port. */
  lemma TargetNameInjective(a1: string, p1: nat, a2: string, p2: nat)
    ensures TargetName(a1, p1) == TargetName(a2, p2) <==> a1 == a2 && p1 == p2
  {
    var x1, x2 := "Target:" + a1, "Target:" + a2;
    assert TargetName(a1, p1) == x1 + ['@'] + Show(p1);
    assert TargetName(a2, p2) == x2 + ['@'] + Show(p2);
    JoinInjective(x1, x2, '@', p1, p2);
    assert x1[7..] == a1 && x2[7..] == a2;
  }

  /** The connectionPerTarget name of a request nothing higher decides. */
  lemma TargetRouting(policy: Policy, protocol: Protocol, addr: string, port: nat,
                      inUse: set<string>, tokens: seq<string>)
    requires policy.perTarget
    requires !policy.perRequest && !(policy.perTcp && protocol == Tcp) && !(policy.perUdp && protocol == Udp)
    ensures GetClientInfo(policy, protocol, addr, port, inUse, tokens)
         == Some(ClientInfo("Target:" + addr + "@" + Show(port), SubStream))
  {
  }

  /** Two requests routed by connectionPerTarget get the same tunnel exactly
   *  when they have the same address and port, whatever else differs. */
  lemma SameTargetSameTunnel(policy: Policy, pr1: Protocol, a1: string, p1: nat,
                             pr2: Protocol, a2: string, p2: nat,
                             used1: set<string>, used2: set<string>,
                             tokens1: seq<string>, tokens2: seq<string>)
    requires FirstRule(policy, pr1) == PerTarget && FirstRule(policy, pr2) == PerTarget
    ensures GetClientInfo(policy, pr1, a1, p1, used1, tokens1) == GetClientInfo(policy, pr2, a2, p2, used2, tokens2)
        <==> a1 == a2 && p1 == p2
  {
    TargetNameInjective(a1, p1, a2, p2);
  }
}
