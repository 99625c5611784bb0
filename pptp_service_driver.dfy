/** The server side of the PPTP VPN: the service driver that decides, for
    each create, update and delete of a VPN service, whether the agents
    hosting its router are told to start or stop it, the casts that carry
    those messages, and the lookup of the provider a status report is
    filed under. */
module PptpServiceDriver {
  import opened Common

  const Pptp: string := "pptp"
  const BasePptpVersion: string := "1.0"
  const Down: string := "DOWN"

  /** The fields of a VPN service the driver reads. */
  datatype VpnServiceRec = VpnServiceRec(id: string, routerId: string, subnetId: string, adminStateUp: bool)

  /** The gateway of a subnet, if it has one. */
  datatype Subnet = Subnet(gatewayIp: Option<string>)

  /** The keyword arguments of an agent message. */
  datatype Args =
    | StartArgs(vpnservice: VpnServiceRec, localip: Option<string>)
    | StopArgs(vpnservice: VpnServiceRec, delete: bool)

  /** One message cast to an agent. */
  datatype Cast = Cast(topic: string, methodName: string, args: Args, version: string)

  datatype DriverError = SubnetNotFound(subnetId: string)

  /** What an operation on a service tells its agents. */
  datatype Action = NoAction | Start | Stop(delete: bool)

  // ---------------------------------------------------------------------
  // Topics and fan-out

  /** `'%s.%s' % (topic, host)`. */
  function AgentTopic(topic: string, host: string): string
  {
    topic + "." + host
  }

  /** The per-host topic starts with the agents' topic and a dot and
      ends with the host, so different hosts get different topics. */
  lemma AgentTopicSpec(topic: string, host: string, other: string)
    ensures StartsWith(AgentTopic(topic, host), topic + ".")
    ensures AgentTopic(topic, host)[|topic| + 1..] == host
    ensures host != other ==> AgentTopic(topic, host) != AgentTopic(topic, other)
  {
    var t := AgentTopic(topic, host);
    assert t[..|topic| + 1] == topic + ".";
    if AgentTopic(topic, host) == AgentTopic(topic, other) {
      assert AgentTopic(topic, other)[|topic| + 1..] == other;
    }
  }

  /** `version or self.RPC_API_VERSION`. */
  function CastVersion(version: Option<string>): string
  {
    if version.Some? && version.value != "" then version.value else BasePptpVersion
  }

  /** The messages of a fan-out: one cast per host, in the order the hosts
      are listed. */
  function Fanout(topic: string, methodName: string, args: Args, hosts: seq<string>): seq<Cast>
    decreases |hosts|
  {
    if |hosts| == 0 then []
    else
      Fanout(topic, methodName, args, hosts[..|hosts| - 1])
      + [Cast(AgentTopic(topic, hosts[|hosts| - 1]), methodName, args, BasePptpVersion)]
  }

  /** A fan-out sends exactly one message per host, to that host's topic,
      all with the same method and arguments. */
  lemma {:induction false} FanoutSpec(topic: string, methodName: string, args: Args, hosts: seq<string>)
    ensures |Fanout(topic, methodName, args, hosts)| == |hosts|
    ensures forall i | 0 <= i < |hosts| ::
              Fanout(topic, methodName, args, hosts)[i] == Cast(AgentTopic(topic, hosts[i]), methodName, args, BasePptpVersion)
    decreases |hosts|
  {
    if |hosts| > 0 {
      FanoutSpec(topic, methodName, args, hosts[..|hosts| - 1]);
    }
  }

  // ---------------------------------------------------------------------
  // Decisions

  /** `update_vpnservice`: a change of the admin state starts or stops
      the service; the service is kept on the agents when stopped. */
  function UpdateAction(oldService: VpnServiceRec, newService: VpnServiceRec): Action
  {
    if oldService.adminStateUp != newService.adminStateUp then
      if newService.adminStateUp then Start else Stop(false)
    else NoAction
  }

  /** `delete_vpnservice`: an admin-up service is stopped and deleted on
      its agents; an admin-down one is already stopped. */
  function DeleteAction(service: VpnServiceRec): Action
  {
    if service.adminStateUp then Stop(true) else NoAction
  }

  /** Nothing is sent unless the admin state changes; switching it on
      starts and switching it off stops without deleting. Deleting stops
      with delete only an admin-up service. */
  lemma ActionsSpec(oldService: VpnServiceRec, newService: VpnServiceRec)
    ensures UpdateAction(oldService, newService) == NoAction <==> oldService.adminStateUp == newService.adminStateUp
    ensures !oldService.adminStateUp && newService.adminStateUp ==> UpdateAction(oldService, newService) == Start
    ensures oldService.adminStateUp && !newService.adminStateUp ==> UpdateAction(oldService, newService) == Stop(false)
    ensures DeleteAction(newService) != NoAction <==> newService.adminStateUp
    ensures DeleteAction(newService) != NoAction ==> DeleteAction(newService) == Stop(true)
    ensures UpdateAction(oldService, newService) != Stop(true)
  {
  }

  /** Updating back and forth: the second update undoes the first one's
      message (a start is followed by a stop, a stop by a start). */
  lemma UpdateThereAndBack(a: VpnServiceRec, b: VpnServiceRec)
    requires a.adminStateUp != b.adminStateUp
    ensures UpdateAction(a, b) == Start <==> UpdateAction(b, a) == Stop(false)
  {
  }

  // ---------------------------------------------------------------------
  // The agent API

  /** `PPTPVpnAgentApi`: the casts it has sent, in order. */
  class PptpVpnAgentApi {
    const topic: string
    var casts: seq<Cast>

    constructor(topic: string)
      ensures this.topic == topic && casts == []
    {
      this.topic := topic;
      casts := [];
    }

    /** `_agent_notification`. */
    method AgentNotification(methodName: string, host: string, args: Args, version: Option<string>)
      modifies this
      ensures casts == old(casts) + [Cast(AgentTopic(topic, host), methodName, args, CastVersion(version))]
    {
      casts := casts + [Cast(AgentTopic(topic, host), methodName, args, CastVersion(version))];
    }

    method StartVpnservice(host: string, vpnservice: VpnServiceRec, localip: Option<string>)
      modifies this
      ensures casts == old(casts) + [Cast(AgentTopic(topic, host), "start_vpnservice",
                                          StartArgs(vpnservice, localip), BasePptpVersion)]
    {
      AgentNotification("start_vpnservice", host, StartArgs(vpnservice, localip), None);
    }

    method StopVpnservice(host: string, vpnservice: VpnServiceRec, delete: bool)
      modifies this
      ensures casts == old(casts) + [Cast(AgentTopic(topic, host), "stop_vpnservice",
                                          StopArgs(vpnservice, delete), BasePptpVersion)]
    {
      AgentNotification("stop_vpnservice", host, StopArgs(vpnservice, delete), None);
    }
  }

  /** The hosts of the admin-up, active L3 agents hosting the router. */
  function HostsFor(l3Hosts: map<string, seq<string>>, routerId: string): seq<string>
  {
    if routerId in l3Hosts then l3Hosts[routerId] else []
  }

  /** `PPTPVPNDriver`, with the plugin state it reads and writes: the
      service statuses it sets, the subnets and the L3 agents hosting
      each router. */
  class PptpVpnDriver {
    const agentRpc: PptpVpnAgentApi
    var statuses: map<string, string>
    var subnets: map<string, Subnet>
    var l3Hosts: map<string, seq<string>>

    constructor(agentRpc: PptpVpnAgentApi, subnets: map<string, Subnet>, l3Hosts: map<string, seq<string>>)
      ensures this.agentRpc == agentRpc && statuses == map[] && this.subnets == subnets && this.l3Hosts == l3Hosts
    {
      this.agentRpc := agentRpc;
      statuses := map[];
      this.subnets := subnets;
      this.l3Hosts := l3Hosts;
    }

    /** `_start_vpnservice`: a start, with the subnet's gateway as local
        address, to every hosting agent. */
    method StartVpnservice(vpnservice: VpnServiceRec) returns (err: Option<DriverError>)
      modifies agentRpc
      ensures vpnservice.subnetId !in subnets ==>
                err == Some(SubnetNotFound(vpnservice.subnetId)) && agentRpc.casts == old(agentRpc.casts)
      ensures vpnservice.subnetId in subnets ==>
                err.None?
                && agentRpc.casts == old(agentRpc.casts)
                   + Fanout(agentRpc.topic, "start_vpnservice",
                            StartArgs(vpnservice, subnets[vpnservice.subnetId].gatewayIp),
                            HostsFor(l3Hosts, vpnservice.routerId))
    {
      if vpnservice.subnetId !in subnets {
        return Some(SubnetNotFound(vpnservice.subnetId));
      }
      var localip := subnets[vpnservice.subnetId].gatewayIp;
      var hosts := HostsFor(l3Hosts, vpnservice.routerId);
      for i := 0 to |hosts|
        invariant agentRpc.casts
                  == old(agentRpc.casts) + Fanout(agentRpc.topic, "start_vpnservice", StartArgs(vpnservice, localip), hosts[..i])
      {
        assert hosts[..i + 1][..i] == hosts[..i];
        agentRpc.StartVpnservice(hosts[i], vpnservice, localip);
      }
      assert hosts[..|hosts|] == hosts;
      err := None;
    }

    /** `_stop_vpnservice`: a stop to every hosting agent. */
    method StopVpnservice(vpnservice: VpnServiceRec, delete: bool)
      modifies agentRpc
      ensures agentRpc.casts == old(agentRpc.casts)
                                + Fanout(agentRpc.topic, "stop_vpnservice", StopArgs(vpnservice, delete),
                                         HostsFor(l3Hosts, vpnservice.routerId))
    {
      var hosts := HostsFor(l3Hosts, vpnservice.routerId);
      for i := 0 to |hosts|
        invariant agentRpc.casts
                  == old(agentRpc.casts) + Fanout(agentRpc.topic, "stop_vpnservice", StopArgs(vpnservice, delete), hosts[..i])
      {
        assert hosts[..i + 1][..i] == hosts[..i];
        agentRpc.StopVpnservice(hosts[i], vpnservice, delete);
      }
      assert hosts[..|hosts|] == hosts;
    }

    /** `create_vpnservice`: the service is marked DOWN, then started on
        its agents whatever its admin state. */
    method CreateVpnservice(vpnservice: VpnServiceRec) returns (err: Option<DriverError>)
      modifies this, agentRpc
      ensures statuses == old(statuses)[vpnservice.id := Down]
      ensures subnets == old(subnets) && l3Hosts == old(l3Hosts)
      ensures vpnservice.subnetId !in subnets ==>
                err == Some(SubnetNotFound(vpnservice.subnetId)) && agentRpc.casts == old(agentRpc.casts)
      ensures vpnservice.subnetId in subnets ==>
                err.None?
                && agentRpc.casts == old(agentRpc.casts)
                   + Fanout(agentRpc.topic, "start_vpnservice",
                            StartArgs(vpnservice, subnets[vpnservice.subnetId].gatewayIp),
                            HostsFor(l3Hosts, vpnservice.routerId))
    {
      statuses := statuses[vpnservice.id := Down];
      err := StartVpnservice(vpnservice);
    }

    /** `update_vpnservice`. */
    method UpdateVpnservice(oldService: VpnServiceRec, vpnservice: VpnServiceRec) returns (err: Option<DriverError>)
      modifies agentRpc
      ensures UpdateAction(oldService, vpnservice) == NoAction ==> err.None? && agentRpc.casts == old(agentRpc.casts)
      ensures UpdateAction(oldService, vpnservice) == Stop(false) ==>
                err.None?
                && agentRpc.casts == old(agentRpc.casts)
                   + Fanout(agentRpc.topic, "stop_vpnservice", StopArgs(vpnservice, false),
                            HostsFor(l3Hosts, vpnservice.routerId))
      ensures UpdateAction(oldService, vpnservice) == Start && vpnservice.subnetId in subnets ==>
                err.None?
                && agentRpc.casts == old(agentRpc.casts)
                   + Fanout(agentRpc.topic, "start_vpnservice",
                            StartArgs(vpnservice, subnets[vpnservice.subnetId].gatewayIp),
                            HostsFor(l3Hosts, vpnservice.routerId))
      ensures UpdateAction(oldService, vpnservice) == Start && vpnservice.subnetId !in subnets ==>
                err == Some(SubnetNotFound(vpnservice.subnetId)) && agentRpc.casts == old(agentRpc.casts)
    {
      err := None;
      if oldService.adminStateUp != vpnservice.adminStateUp {
        if vpnservice.adminStateUp {
          err := StartVpnservice(vpnservice);
        } else {
          StopVpnservice(vpnservice, false);
        }
      }
    }

    /** `delete_vpnservice`. */
    method DeleteVpnservice(vpnservice: VpnServiceRec)
      modifies agentRpc
      ensures DeleteAction(vpnservice) == NoAction ==> agentRpc.casts == old(agentRpc.casts)
      ensures DeleteAction(vpnservice) == Stop(true) ==>
                agentRpc.casts == old(agentRpc.casts)
                                  + Fanout(agentRpc.topic, "stop_vpnservice", StopArgs(vpnservice, true),
                                           HostsFor(l3Hosts, vpnservice.routerId))
    {
      if vpnservice.adminStateUp {
        StopVpnservice(vpnservice, true);
      }
    }
  }

  // ---------------------------------------------------------------------
  // Status reports

  /** The provider found by walking the plugin's drivers in `order`: the
      first whose driver is this one. */
  function FirstProvider(drivers: map<string, string>, self: string, order: seq<string>): (r: Option<string>)
    requires forall p | p in order :: p in drivers
    ensures r.Some? ==> r.value in order && drivers[r.value] == self
    ensures r.None? <==> forall p | p in order :: drivers[p] != self
  {
    if |order| == 0 then None
    else if drivers[order[0]] == self then Some(order[0])
    else
      assert forall p | p in order :: p == order[0] || p in order[1..];
      FirstProvider(drivers, self, order[1..])
  }

  /** The provider of `report_status`, over the plugin's drivers keyed by
      provider name (each driver given by its identity); `order` is the
      order the dict is walked in. */
  method ReportStatusProvider(drivers: map<string, string>, self: string)
    returns (provider: Option<string>, ghost order: seq<string>)
    ensures Enumerates(order, drivers.Keys)
    ensures provider == FirstProvider(drivers, self, order)
  {
    var walk := SetToSeq(drivers.Keys);
    order := walk;
    provider := None;
    for i := 0 to |walk|
      invariant FirstProvider(drivers, self, walk) == FirstProvider(drivers, self, walk[i..])
    {
      assert walk[i..][1..] == walk[i + 1..];
      if drivers[walk[i]] == self {
        provider := Some(walk[i]);
        break;
      }
    }
  }

  /** The reported provider is a provider of this driver, and there is
      none only when no provider is; with one provider per driver it is
      that provider, in any walk order. */
  lemma ReportStatusProviderSpec(drivers: map<string, string>, self: string, order: seq<string>)
    requires Enumerates(order, drivers.Keys)
    ensures FirstProvider(drivers, self, order).Some? ==>
              var p := FirstProvider(drivers, self, order).value;
              p in drivers && drivers[p] == self
    ensures FirstProvider(drivers, self, order).None? <==> forall p | p in drivers :: drivers[p] != self
    ensures forall p | p in drivers && drivers[p] == self ::
              (forall q | q in drivers && drivers[q] == self :: q == p) ==> FirstProvider(drivers, self, order) == Some(p)
  {
  }
}
