/** The distributed-virtual-router helpers of the database layer: the
    per-host DVR MAC table and its bounded creation retries, the OVS
    device name of a port, and the east-west routing description
    (routers, their IPv4 subnets on VLAN networks, and the named ports on
    each subnet) built from the plugin's ports, networks and subnets. */
module DvrMac {
  import opened Common

  /** Device names are cut to this many characters. */
  const PortNameLen: nat := 14
  const ComputeOwnerPrefix: string := "compute:"
  const DeviceOwnerLoadbalancer: string := "neutron:LOADBALANCER"
  const DeviceOwnerRouterIntf: string := "network:router_interface"

  datatype FixedIp = FixedIp(subnetId: string, ipAddress: string)

  /** A port as the plugin returns it; `hostId` is `binding:host_id`. */
  datatype Port = Port(id: string, deviceOwner: string, deviceId: string, macAddress: string, hostId: string,
                       networkId: string, fixedIps: seq<FixedIp>)

  /** `provider:network_type` and `provider:segmentation_id`, either of
      which may be unset. */
  datatype Network = Network(networkType: Option<string>, segmentationId: Option<int>)

  /** A subnet; an unset gateway is None. */
  datatype Subnet = Subnet(ipVersion: int, cidr: string, gatewayIp: Option<string>)

  /** What the core plugin holds: its ports in the order `get_ports` lists
      them, and its networks and subnets by id. */
  datatype PluginDb = PluginDb(ports: seq<Port>, networks: map<string, Network>, subnets: map<string, Subnet>)

  /** The port's network and the subnets of its fixed IPs exist. */
  predicate PortConsistent(db: PluginDb, p: Port)
  {
    p.networkId in db.networks && forall f | f in p.fixedIps :: f.subnetId in db.subnets
  }

  /** The database's foreign keys hold for every port. */
  predicate Consistent(db: PluginDb)
  {
    forall p | p in db.ports :: PortConsistent(db, p)
  }

  /** Port ids are the ports table's primary key. */
  predicate UniqueIds(ports: seq<Port>)
  {
    forall i, j | 0 <= i < j < |ports| :: ports[i].id != ports[j].id
  }

  // ---------------------------------------------------------------------
  // Device names

  /** `_get_port_name`: the OVS device of a compute port (`qvo`) or of a
      load balancer's port (`tap`), cut to 14 characters; other owners
      have none. */
  function PortName(portId: string, deviceOwner: string): Option<string>
  {
    var prefix :=
      if StartsWith(deviceOwner, ComputeOwnerPrefix) then Some("qvo")
      else if deviceOwner == DeviceOwnerLoadbalancer then Some("tap")
      else None;
    if prefix.Some? then Some(Take(prefix.value + portId, PortNameLen)) else None
  }

  /** A name exists exactly for compute and load-balancer ports; it is the
      three-letter prefix followed by at most the first 11 characters of
      the port id. */
  lemma PortNameShape(portId: string, deviceOwner: string)
    ensures PortName(portId, deviceOwner).Some?
            <==> StartsWith(deviceOwner, ComputeOwnerPrefix) || deviceOwner == DeviceOwnerLoadbalancer
    ensures PortName(portId, deviceOwner).Some? ==>
              var prefix := if StartsWith(deviceOwner, ComputeOwnerPrefix) then "qvo" else "tap";
              var keep := if |portId| <= PortNameLen - 3 then |portId| else PortNameLen - 3;
              PortName(portId, deviceOwner).value == prefix + portId[..keep]
              && |PortName(portId, deviceOwner).value| <= PortNameLen
  {
    if PortName(portId, deviceOwner).Some? {
      var prefix := if StartsWith(deviceOwner, ComputeOwnerPrefix) then "qvo" else "tap";
      var keep := if |portId| <= PortNameLen - 3 then |portId| else PortNameLen - 3;
      var name := PortName(portId, deviceOwner).value;
      assert name == (prefix + portId)[..3 + keep];
      assert (prefix + portId)[..3 + keep] == prefix + portId[..keep];
    }
  }

  // ---------------------------------------------------------------------
  // The ports on a subnet

  /** The address of the port's first fixed IP on the subnet. */
  function FirstIpOn(fixedIps: seq<FixedIp>, subnetId: string): Option<string>
    decreases |fixedIps|
  {
    if |fixedIps| == 0 then None
    else if fixedIps[0].subnetId == subnetId then Some(fixedIps[0].ipAddress)
    else FirstIpOn(fixedIps[1..], subnetId)
  }

  /** There is an address exactly when some fixed IP is on the subnet, and
      it is the address of the first such fixed IP. */
  lemma {:induction false} FirstIpOnSpec(fixedIps: seq<FixedIp>, subnetId: string)
    ensures FirstIpOn(fixedIps, subnetId).Some? <==> exists f | f in fixedIps :: f.subnetId == subnetId
    ensures FirstIpOn(fixedIps, subnetId).Some? ==>
              exists i | 0 <= i < |fixedIps| ::
                fixedIps[i].subnetId == subnetId && FirstIpOn(fixedIps, subnetId).value == fixedIps[i].ipAddress
                && forall j | 0 <= j < i :: fixedIps[j].subnetId != subnetId
    decreases |fixedIps|
  {
    if |fixedIps| > 0 && fixedIps[0].subnetId != subnetId {
      var rest := fixedIps[1..];
      FirstIpOnSpec(rest, subnetId);
      assert fixedIps == [fixedIps[0]] + rest;
      if FirstIpOn(rest, subnetId).Some? {
        var i :| 0 <= i < |rest| && rest[i].subnetId == subnetId
                 && FirstIpOn(rest, subnetId).value == rest[i].ipAddress
                 && forall j | 0 <= j < i :: rest[j].subnetId != subnetId;
        assert fixedIps[i + 1] == rest[i];
        forall j | 0 <= j < i + 1
          ensures fixedIps[j].subnetId != subnetId
        {
          if j > 0 {
            assert fixedIps[j] == rest[j - 1];
          }
        }
      }
    } else if |fixedIps| > 0 {
      assert fixedIps[0] in fixedIps;
    }
  }

  /** The search loop of `_get_dvr_ports_for_subnet`. */
  method FindIpOn(fixedIps: seq<FixedIp>, subnetId: string) returns (ipAddress: Option<string>)
    ensures ipAddress == FirstIpOn(fixedIps, subnetId)
  {
    ipAddress := None;
    var i := 0;
    assert fixedIps[i..] == fixedIps;
    while i < |fixedIps|
      invariant 0 <= i <= |fixedIps|
      invariant FirstIpOn(fixedIps, subnetId) == FirstIpOn(fixedIps[i..], subnetId)
    {
      if fixedIps[i].subnetId == subnetId {
        ipAddress := Some(fixedIps[i].ipAddress);
        return;
      }
      assert fixedIps[i..][1..] == fixedIps[i + 1..];
      i := i + 1;
    }
  }

  /** Whether a port has a fixed IP on the subnet: the `fixed_ips` filter
      of `get_ports`. */
  predicate OnSubnet(p: Port, subnetId: string)
  {
    exists f | f in p.fixedIps :: f.subnetId == subnetId
  }

  /** `get_ports` filtered by subnet, in the plugin's order. */
  function PortsOnSubnet(ports: seq<Port>, subnetId: string): seq<Port>
    decreases |ports|
  {
    if |ports| == 0 then []
    else
      var last := ports[|ports| - 1];
      PortsOnSubnet(ports[..|ports| - 1], subnetId) + (if OnSubnet(last, subnetId) then [last] else [])
  }

  /** The entry of one port on a subnet. */
  datatype PortInfo = PortInfo(mac: string, ip: string, host: string, name: string)

  /** The entry `_get_dvr_ports_for_subnet` makes for a port, if any: the
      port needs a device name and a non-empty address on the subnet. */
  function PortEntry(p: Port, subnetId: string): Option<PortInfo>
  {
    var name := PortName(p.id, p.deviceOwner);
    var ip := FirstIpOn(p.fixedIps, subnetId);
    if name.Some? && ip.Some? && ip.value != "" then Some(PortInfo(p.macAddress, ip.value, p.hostId, name.value))
    else None
  }

  /** The entries of `ports` one after the other, keyed by port id. */
  function PortMap(ports: seq<Port>, subnetId: string): map<string, PortInfo>
    decreases |ports|
  {
    if |ports| == 0 then map[]
    else
      var m := PortMap(ports[..|ports| - 1], subnetId);
      var last := ports[|ports| - 1];
      match PortEntry(last, subnetId)
      case Some(e) => m[last.id := e]
      case None => m
  }

  /** `_get_dvr_ports_for_subnet`: the entries of the ports on the subnet. */
  function SubnetPorts(db: PluginDb, subnetId: string): map<string, PortInfo>
  {
    PortMap(PortsOnSubnet(db.ports, subnetId), subnetId)
  }

  /** One more port on the plugin's list adds at most its own entry. */
  lemma PortMapStep(ports: seq<Port>, subnetId: string)
    requires |ports| > 0
    ensures var last := ports[|ports| - 1];
            var m0 := PortMap(PortsOnSubnet(ports[..|ports| - 1], subnetId), subnetId);
            PortMap(PortsOnSubnet(ports, subnetId), subnetId)
            == if PortEntry(last, subnetId).Some? then m0[last.id := PortEntry(last, subnetId).value] else m0
  {
    var last := ports[|ports| - 1];
    var on := PortsOnSubnet(ports[..|ports| - 1], subnetId);
    FirstIpOnSpec(last.fixedIps, subnetId);
    if OnSubnet(last, subnetId) {
      assert (on + [last])[..|on|] == on;
    } else {
      assert on + [] == on;
    }
  }

  /** Every id listed on a subnet is a port's. */
  lemma {:induction false} PortMapIds(ports: seq<Port>, subnetId: string)
    ensures forall k | k in PortMap(PortsOnSubnet(ports, subnetId), subnetId) ::
              exists i | 0 <= i < |ports| :: ports[i].id == k
    decreases |ports|
  {
    if |ports| > 0 {
      var init := ports[..|ports| - 1];
      PortMapIds(init, subnetId);
      PortMapStep(ports, subnetId);
      forall k | k in PortMap(PortsOnSubnet(ports, subnetId), subnetId)
        ensures exists i | 0 <= i < |ports| :: ports[i].id == k
      {
        if k != ports[|ports| - 1].id {
          var i :| 0 <= i < |init| && init[i].id == k;
          assert ports[i] == init[i];
        }
      }
    }
  }

  /** The ports before the last keep unique ids. */
  lemma UniqueInit(ports: seq<Port>)
    requires UniqueIds(ports) && |ports| > 0
    ensures UniqueIds(ports[..|ports| - 1])
    ensures forall i | 0 <= i < |ports| - 1 :: ports[i].id != ports[|ports| - 1].id
  {
    var init := ports[..|ports| - 1];
    forall i, j | 0 <= i < j < |init| ensures init[i].id != init[j].id {
      assert init[i] == ports[i] && init[j] == ports[j];
    }
  }

  /** With unique port ids, a port is listed on a subnet exactly when it
      has a device name and a non-empty address there. */
  lemma {:induction false} PortMapMembers(ports: seq<Port>, subnetId: string)
    requires UniqueIds(ports)
    ensures forall i | 0 <= i < |ports| ::
              (ports[i].id in PortMap(PortsOnSubnet(ports, subnetId), subnetId) <==> PortEntry(ports[i], subnetId).Some?)
    decreases |ports|
  {
    if |ports| > 0 {
      var n := |ports| - 1;
      var init := ports[..n];
      var last := ports[n];
      UniqueInit(ports);
      PortMapMembers(init, subnetId);
      PortMapIds(init, subnetId);
      PortMapStep(ports, subnetId);
      var m0 := PortMap(PortsOnSubnet(init, subnetId), subnetId);
      assert last.id !in m0 by {
        forall i | 0 <= i < |init| ensures init[i].id != last.id {
          assert init[i] == ports[i];
        }
      }
      forall i | 0 <= i < n
        ensures ports[i].id in m0 <==> PortEntry(ports[i], subnetId).Some?
      {
        assert ports[i] == init[i];
      }
    }
  }

  /** With unique port ids, each listed port carries its own entry. */
  lemma {:induction false} PortMapSpec(ports: seq<Port>, subnetId: string)
    requires UniqueIds(ports)
    ensures forall i | 0 <= i < |ports| && PortEntry(ports[i], subnetId).Some? ::
              ports[i].id in PortMap(PortsOnSubnet(ports, subnetId), subnetId)
              && PortMap(PortsOnSubnet(ports, subnetId), subnetId)[ports[i].id] == PortEntry(ports[i], subnetId).value
    decreases |ports|
  {
    PortMapMembers(ports, subnetId);
    if |ports| > 0 {
      var n := |ports| - 1;
      var init := ports[..n];
      UniqueInit(ports);
      PortMapSpec(init, subnetId);
      PortMapMembers(init, subnetId);
      PortMapStep(ports, subnetId);
      var m0 := PortMap(PortsOnSubnet(init, subnetId), subnetId);
      forall i | 0 <= i < n && PortEntry(ports[i], subnetId).Some?
        ensures m0[ports[i].id] == PortEntry(ports[i], subnetId).value
      {
        assert ports[i] == init[i];
      }
    }
  }

  /** `_get_dvr_ports_for_subnet`. */
  method DvrPortsForSubnet(db: PluginDb, subnetId: string) returns (ret: map<string, PortInfo>)
    ensures ret == SubnetPorts(db, subnetId)
  {
    var ports := PortsOnSubnet(db.ports, subnetId);
    ret := map[];
    for i := 0 to |ports|
      invariant ret == PortMap(ports[..i], subnetId)
    {
      var port := ports[i];
      var ipAddress := FindIpOn(port.fixedIps, subnetId);
      var portName := PortName(port.id, port.deviceOwner);
      if portName.Some? && ipAddress.Some? && ipAddress.value != "" {
        ret := ret[port.id := PortInfo(port.macAddress, ipAddress.value, port.hostId, portName.value)];
      }
      assert ports[..i + 1][..i] == ports[..i];
    }
    assert ports[..|ports|] == ports;
  }

  // ---------------------------------------------------------------------
  // The subnets of a router port

  /** One subnet of a router: its CIDR, the MAC of the router's port on it,
      the segmentation id of its network, and its ports by id. */
  datatype DvrSubnet = DvrSubnet(cidr: string, gatewayMac: string, segId: Option<int>, ports: map<string, PortInfo>)

  /** `network.get('provider:network_type', '')`. */
  function NetworkType(n: Network): string
  {
    if n.networkType.Some? then n.networkType.value else ""
  }

  /** An IPv4 subnet with a (non-empty) gateway. */
  predicate ServesDvr(s: Subnet)
  {
    s.ipVersion == 4 && s.gatewayIp.Some? && s.gatewayIp.value != ""
  }

  /** The record a router port gives a subnet, with no ports yet. */
  function SubnetRecord(db: PluginDb, port: Port, subnetId: string): DvrSubnet
    requires PortConsistent(db, port) && subnetId in db.subnets
  {
    DvrSubnet(db.subnets[subnetId].cidr, port.macAddress, db.networks[port.networkId].segmentationId, map[])
  }

  /** The records of the port's fixed IPs whose subnets serve DVR, in
      order. */
  function SubnetEntries(db: PluginDb, port: Port, fixedIps: seq<FixedIp>): seq<(string, DvrSubnet)>
    requires PortConsistent(db, port) && forall f | f in fixedIps :: f.subnetId in db.subnets
    decreases |fixedIps|
  {
    if |fixedIps| == 0 then []
    else
      var f := fixedIps[|fixedIps| - 1];
      SubnetEntries(db, port, fixedIps[..|fixedIps| - 1])
      + (if ServesDvr(db.subnets[f.subnetId]) then [(f.subnetId, SubnetRecord(db, port, f.subnetId))] else [])
  }

  /** `_get_dvr_subnets_for_port`. */
  function SubnetsForPort(db: PluginDb, port: Port): seq<(string, DvrSubnet)>
    requires PortConsistent(db, port)
  {
    if NetworkType(db.networks[port.networkId]) == "vlan" then SubnetEntries(db, port, port.fixedIps) else []
  }

  /** A subnet the router port gives DVR: the port is on a VLAN network
      and has a fixed IP on the subnet, an IPv4 subnet with a gateway. */
  ghost predicate DvrSubnetOf(db: PluginDb, port: Port, subnetId: string)
    requires PortConsistent(db, port)
  {
    NetworkType(db.networks[port.networkId]) == "vlan"
    && (exists f | f in port.fixedIps :: f.subnetId == subnetId)
    && subnetId in db.subnets && ServesDvr(db.subnets[subnetId])
  }

  /** Each record the port gives is for one of its DVR subnets, and each of
      its DVR subnets gets a record. */
  lemma SubnetsForPortSpec(db: PluginDb, port: Port)
    requires PortConsistent(db, port)
    ensures forall e | e in SubnetsForPort(db, port) ::
              DvrSubnetOf(db, port, e.0) && e.1 == SubnetRecord(db, port, e.0)
    ensures forall k | DvrSubnetOf(db, port, k) :: (k, SubnetRecord(db, port, k)) in SubnetsForPort(db, port)
  {
    if NetworkType(db.networks[port.networkId]) == "vlan" {
      SubnetEntriesSpec(db, port, port.fixedIps);
    }
  }

  lemma {:induction false} SubnetEntriesSpec(db: PluginDb, port: Port, fixedIps: seq<FixedIp>)
    requires PortConsistent(db, port) && forall f | f in fixedIps :: f.subnetId in db.subnets
    ensures forall e | e in SubnetEntries(db, port, fixedIps) ::
              (exists f | f in fixedIps :: f.subnetId == e.0)
              && e.0 in db.subnets && ServesDvr(db.subnets[e.0]) && e.1 == SubnetRecord(db, port, e.0)
    ensures forall f | f in fixedIps && ServesDvr(db.subnets[f.subnetId]) ::
              (f.subnetId, SubnetRecord(db, port, f.subnetId)) in SubnetEntries(db, port, fixedIps)
    decreases |fixedIps|
  {
    if |fixedIps| > 0 {
      var init := fixedIps[..|fixedIps| - 1];
      var last := fixedIps[|fixedIps| - 1];
      assert fixedIps == init + [last];
      SubnetEntriesSpec(db, port, init);
    }
  }

  /** `_get_dvr_subnets_for_port`. */
  method DvrSubnetsForPort(db: PluginDb, port: Port) returns (ret: seq<(string, DvrSubnet)>)
    requires PortConsistent(db, port)
    ensures ret == SubnetsForPort(db, port)
  {
    ret := [];
    var network := db.networks[port.networkId];
    if NetworkType(network) == "vlan" {
      for i := 0 to |port.fixedIps|
        invariant ret == SubnetEntries(db, port, port.fixedIps[..i])
      {
        var subnetId := port.fixedIps[i].subnetId;
        assert port.fixedIps[i] in port.fixedIps;
        var subnet := db.subnets[subnetId];
        if subnet.ipVersion == 4 && subnet.gatewayIp.Some? && subnet.gatewayIp.value != "" {
          ret := ret + [(subnetId, DvrSubnet(subnet.cidr, port.macAddress, network.segmentationId, map[]))];
        }
        assert port.fixedIps[..i + 1][..i] == port.fixedIps[..i];
      }
      assert port.fixedIps[..|port.fixedIps|] == port.fixedIps;
    }
  }

  // ---------------------------------------------------------------------
  // The subnets of a router

  /** Records stored one after the other; a later record of a subnet
      replaces an earlier one. */
  function AddSubnets(m: map<string, DvrSubnet>, entries: seq<(string, DvrSubnet)>): map<string, DvrSubnet>
    decreases |entries|
  {
    if |entries| == 0 then m
    else AddSubnets(m, entries[..|entries| - 1])[entries[|entries| - 1].0 := entries[|entries| - 1].1]
  }

  /** The first loop of `_get_dvr_subnets`: the records of all router
      ports, by subnet id. */
  function CollectSubnets(db: PluginDb, routerPorts: seq<Port>): map<string, DvrSubnet>
    requires forall p | p in routerPorts :: PortConsistent(db, p)
    decreases |routerPorts|
  {
    if |routerPorts| == 0 then map[]
    else
      var last := routerPorts[|routerPorts| - 1];
      AddSubnets(CollectSubnets(db, routerPorts[..|routerPorts| - 1]), SubnetsForPort(db, last))
  }

  lemma {:induction false} AddSubnetsKeys(m: map<string, DvrSubnet>, entries: seq<(string, DvrSubnet)>)
    ensures AddSubnets(m, entries).Keys == m.Keys + set e | e in entries :: e.0
    decreases |entries|
  {
    if |entries| > 0 {
      var init := entries[..|entries| - 1];
      AddSubnetsKeys(m, init);
      assert entries == init + [entries[|entries| - 1]];
      assert (set e | e in entries :: e.0) == (set e | e in init :: e.0) + {entries[|entries| - 1].0};
    }
  }

  /** The router's subnets are exactly the DVR subnets of its ports. */
  lemma {:induction false} CollectSubnetsKeys(db: PluginDb, routerPorts: seq<Port>)
    requires forall p | p in routerPorts :: PortConsistent(db, p)
    ensures forall k :: k in CollectSubnets(db, routerPorts) <==> exists p | p in routerPorts :: DvrSubnetOf(db, p, k)
    decreases |routerPorts|
  {
    if |routerPorts| > 0 {
      var init := routerPorts[..|routerPorts| - 1];
      var last := routerPorts[|routerPorts| - 1];
      assert routerPorts == init + [last];
      CollectSubnetsKeys(db, init);
      AddSubnetsKeys(CollectSubnets(db, init), SubnetsForPort(db, last));
      SubnetsForPortSpec(db, last);
      forall k ensures k in CollectSubnets(db, routerPorts) <==> exists p | p in routerPorts :: DvrSubnetOf(db, p, k)
      {
        if DvrSubnetOf(db, last, k) {
          assert (k, SubnetRecord(db, last, k)) in SubnetsForPort(db, last);
        }
        if k in set e | e in SubnetsForPort(db, last) :: e.0 {
          var e :| e in SubnetsForPort(db, last) && e.0 == k;
          assert DvrSubnetOf(db, last, k);
        }
      }
    }
  }

  /** Whether some port of the map is bound to `host`. */
  predicate HostIn(ports: map<string, PortInfo>, host: string)
  {
    exists pid | pid in ports :: ports[pid].host == host
  }

  /** Each subnet record with its ports filled in. */
  function Filled(db: PluginDb, subnets: map<string, DvrSubnet>): map<string, DvrSubnet>
  {
    map k | k in subnets :: subnets[k].(ports := SubnetPorts(db, k))
  }

  /** The subnets that have ports. */
  function WithPorts(subnets: map<string, DvrSubnet>): map<string, DvrSubnet>
  {
    map k | k in subnets && subnets[k].ports != map[] :: subnets[k]
  }

  /** `_get_dvr_subnets`: the router's subnets that have ports, when it
      has two or more DVR subnets, some port on one of them is on `host`,
      and more than one of them has ports; None otherwise. */
  function DvrSubnets(db: PluginDb, routerPorts: seq<Port>, host: string): Option<map<string, DvrSubnet>>
    requires forall p | p in routerPorts :: PortConsistent(db, p)
  {
    var collected := CollectSubnets(db, routerPorts);
    if |collected| < 2 then None
    else
      var filled := Filled(db, collected);
      var kept := WithPorts(filled);
      if (exists k | k in collected :: HostIn(SubnetPorts(db, k), host)) && |kept| > 1 then Some(kept) else None
  }

  /** A router with fewer than two DVR subnets has no east-west entry;
      otherwise every subnet returned is a DVR subnet of one of its ports
      with its ports listed, there are at least two, and one of them has a
      port on the host. */
  lemma DvrSubnetsSpec(db: PluginDb, routerPorts: seq<Port>, host: string)
    requires forall p | p in routerPorts :: PortConsistent(db, p)
    ensures |CollectSubnets(db, routerPorts)| < 2 ==> DvrSubnets(db, routerPorts, host).None?
    ensures DvrSubnets(db, routerPorts, host).Some? ==>
              var r := DvrSubnets(db, routerPorts, host).value;
              |r| >= 2
              && (forall k | k in r ::
                    (exists p | p in routerPorts :: DvrSubnetOf(db, p, k))
                    && r[k].ports == SubnetPorts(db, k) && r[k].ports != map[])
              && exists k | k in r :: HostIn(r[k].ports, host)
  {
    var collected := CollectSubnets(db, routerPorts);
    CollectSubnetsKeys(db, routerPorts);
    WithPortsOfFilled(db, collected);
    if DvrSubnets(db, routerPorts, host).Some? {
      var k :| k in collected && HostIn(SubnetPorts(db, k), host);
      assert k in WithPorts(Filled(db, collected));
    }
  }

  /** The filled subnets kept are those whose ports are not empty, each
      with its ports. */
  lemma WithPortsOfFilled(db: PluginDb, subnets: map<string, DvrSubnet>)
    ensures forall k | k in WithPorts(Filled(db, subnets)) ::
              k in subnets && WithPorts(Filled(db, subnets))[k].ports == SubnetPorts(db, k)
              && SubnetPorts(db, k) != map[]
    ensures forall k | k in subnets && SubnetPorts(db, k) != map[] :: k in WithPorts(Filled(db, subnets))
  {
  }

  /** Which subnets a result holds: exactly the DVR subnets of the router
      ports that have ports. */
  lemma DvrSubnetsMembers(db: PluginDb, routerPorts: seq<Port>, host: string, k: string)
    requires forall p | p in routerPorts :: PortConsistent(db, p)
    requires DvrSubnets(db, routerPorts, host).Some?
    ensures k in DvrSubnets(db, routerPorts, host).value
            <==> (exists p | p in routerPorts :: DvrSubnetOf(db, p, k)) && SubnetPorts(db, k) != map[]
  {
    CollectSubnetsKeys(db, routerPorts);
    WithPortsOfFilled(db, CollectSubnets(db, routerPorts));
  }

  /** The first loop of `_get_dvr_subnets`. */
  method CollectDvrSubnets(db: PluginDb, routerPorts: seq<Port>) returns (dvrSubnets: map<string, DvrSubnet>)
    requires forall p | p in routerPorts :: PortConsistent(db, p)
    ensures dvrSubnets == CollectSubnets(db, routerPorts)
  {
    dvrSubnets := map[];
    for i := 0 to |routerPorts|
      invariant dvrSubnets == CollectSubnets(db, routerPorts[..i])
    {
      assert routerPorts[..i + 1][..i] == routerPorts[..i];
      var subnets := DvrSubnetsForPort(db, routerPorts[i]);
      ghost var before := dvrSubnets;
      for j := 0 to |subnets|
        invariant dvrSubnets == AddSubnets(before, subnets[..j])
      {
        assert subnets[..j + 1][..j] == subnets[..j];
        dvrSubnets := dvrSubnets[subnets[j].0 := subnets[j].1];
      }
      assert subnets[..|subnets|] == subnets;
    }
    assert routerPorts[..|routerPorts|] == routerPorts;
  }

  /** The second loop of `_get_dvr_subnets`: each subnet gets its ports,
      in whatever order the dict yields them, and the host is noted when
      one of the ports is on it. */
  method FillPorts(db: PluginDb, collected: map<string, DvrSubnet>, host: string)
    returns (filled: map<string, DvrSubnet>, hostAffected: bool)
    ensures filled == Filled(db, collected)
    ensures hostAffected <==> exists k | k in collected :: HostIn(SubnetPorts(db, k), host)
  {
    filled := collected;
    hostAffected := false;
    var rest := collected.Keys;
    while rest != {}
      invariant rest <= collected.Keys && filled.Keys == collected.Keys
      invariant forall k | k in collected ::
                  filled[k] == if k in rest then collected[k] else collected[k].(ports := SubnetPorts(db, k))
      invariant hostAffected <==> exists k | k in collected && k !in rest :: HostIn(SubnetPorts(db, k), host)
      decreases |rest|
    {
      var subnetId :| subnetId in rest;
      var subnetPorts := DvrPortsForSubnet(db, subnetId);
      filled := filled[subnetId := filled[subnetId].(ports := subnetPorts)];
      hostAffected := hostAffected || HostIn(subnetPorts, host);
      rest := rest - {subnetId};
    }
  }

  /** `_get_dvr_subnets`. */
  method GetDvrSubnets(db: PluginDb, routerPorts: seq<Port>, host: string) returns (r: Option<map<string, DvrSubnet>>)
    requires forall p | p in routerPorts :: PortConsistent(db, p)
    ensures r == DvrSubnets(db, routerPorts, host)
  {
    var dvrSubnets := CollectDvrSubnets(db, routerPorts);
    if |dvrSubnets| < 2 {
      return None;
    }
    var filled, hostAffected := FillPorts(db, dvrSubnets, host);
    var kept := map k | k in filled && filled[k].ports != map[] :: filled[k];
    if hostAffected && |kept| > 1 {
      r := Some(kept);
    } else {
      r := None;
    }
  }

  // ---------------------------------------------------------------------
  // East-west routers

  /** `get_ports` filtered to router-interface ports, in order. */
  function RouterInterfacePorts(ports: seq<Port>): seq<Port>
    decreases |ports|
  {
    if |ports| == 0 then []
    else
      var last := ports[|ports| - 1];
      RouterInterfacePorts(ports[..|ports| - 1]) + (if last.deviceOwner == DeviceOwnerRouterIntf then [last] else [])
  }

  /** The ports of one device, in order. */
  function DevicePorts(ports: seq<Port>, deviceId: string): seq<Port>
    decreases |ports|
  {
    if |ports| == 0 then []
    else
      var last := ports[|ports| - 1];
      DevicePorts(ports[..|ports| - 1], deviceId) + (if last.deviceId == deviceId then [last] else [])
  }

  /** The first loop of `get_openflow_ew_dvrs`: the ports grouped by
      device id, each group in port order. */
  function GroupByDevice(ports: seq<Port>): map<string, seq<Port>>
    decreases |ports|
  {
    if |ports| == 0 then map[]
    else
      var g := GroupByDevice(ports[..|ports| - 1]);
      var last := ports[|ports| - 1];
      if last.deviceId !in g then g[last.deviceId := [last]] else g[last.deviceId := g[last.deviceId] + [last]]
  }

  /** Each device with ports gets a group, and its group is exactly its
      ports in order. */
  lemma {:induction false} GroupByDeviceSpec(ports: seq<Port>)
    ensures GroupByDevice(ports).Keys == set p | p in ports :: p.deviceId
    ensures forall d | d in GroupByDevice(ports) :: GroupByDevice(ports)[d] == DevicePorts(ports, d)
    decreases |ports|
  {
    if |ports| > 0 {
      var init := ports[..|ports| - 1];
      var last := ports[|ports| - 1];
      GroupByDeviceSpec(init);
      assert ports == init + [last];
      assert (set p | p in ports :: p.deviceId) == (set p | p in init :: p.deviceId) + {last.deviceId};
      var g := GroupByDevice(init);
      if last.deviceId !in g {
        assert DevicePorts(init, last.deviceId) == [] by {
          DevicePortsEmpty(init, last.deviceId);
        }
      }
    }
  }

  lemma {:induction false} DevicePortsEmpty(ports: seq<Port>, deviceId: string)
    requires forall p | p in ports :: p.deviceId != deviceId
    ensures DevicePorts(ports, deviceId) == []
    decreases |ports|
  {
    if |ports| > 0 {
      var init := ports[..|ports| - 1];
      assert forall p | p in init :: p in ports;
      DevicePortsEmpty(init, deviceId);
      assert ports[|ports| - 1] in ports;
    }
  }

  /** A device's ports are among the ports. */
  lemma {:induction false} DevicePortsIn(ports: seq<Port>, deviceId: string)
    ensures forall p | p in DevicePorts(ports, deviceId) :: p in ports && p.deviceId == deviceId
    decreases |ports|
  {
    if |ports| > 0 {
      var init := ports[..|ports| - 1];
      DevicePortsIn(init, deviceId);
      assert forall p | p in init :: p in ports;
    }
  }

  /** Router-interface ports are among the ports. */
  lemma {:induction false} RouterInterfacePortsIn(ports: seq<Port>)
    ensures forall p | p in RouterInterfacePorts(ports) :: p in ports && p.deviceOwner == DeviceOwnerRouterIntf
    decreases |ports|
  {
    if |ports| > 0 {
      var init := ports[..|ports| - 1];
      RouterInterfacePortsIn(init);
      assert forall p | p in init :: p in ports;
    }
  }

  /** The router-interface ports of one router. */
  function RouterPorts(db: PluginDb, routerId: string): (r: seq<Port>)
    requires Consistent(db)
    ensures forall p | p in r :: PortConsistent(db, p)
  {
    RouterInterfacePortsIn(db.ports);
    DevicePortsIn(RouterInterfacePorts(db.ports), routerId);
    DevicePorts(RouterInterfacePorts(db.ports), routerId)
  }

  /** `get_openflow_ew_dvrs`: every router with more than one interface
      port whose subnets `_get_dvr_subnets` keeps, with those subnets. */
  function EwDvrs(db: PluginDb, host: string): map<string, map<string, DvrSubnet>>
    requires Consistent(db)
  {
    var routerPorts := RouterInterfacePorts(db.ports);
    map r | r in (set p | p in routerPorts :: p.deviceId)
                && |RouterPorts(db, r)| > 1 && DvrSubnets(db, RouterPorts(db, r), host).Some?
      :: DvrSubnets(db, RouterPorts(db, r), host).value
  }

  /** What `EwDvrs` holds for one router. */
  lemma EwDvrsAt(db: PluginDb, host: string, routerId: string)
    requires Consistent(db)
    ensures routerId in EwDvrs(db, host)
            <==> routerId in (set p | p in RouterInterfacePorts(db.ports) :: p.deviceId)
                 && |RouterPorts(db, routerId)| > 1 && DvrSubnets(db, RouterPorts(db, routerId), host).Some?
    ensures routerId in EwDvrs(db, host) ==>
              EwDvrs(db, host)[routerId] == DvrSubnets(db, RouterPorts(db, routerId), host).value
  {
  }

  /** The first loop of `get_openflow_ew_dvrs`. */
  method GroupRouterPorts(routerPorts: seq<Port>) returns (groups: map<string, seq<Port>>)
    ensures groups == GroupByDevice(routerPorts)
  {
    groups := map[];
    for i := 0 to |routerPorts|
      invariant groups == GroupByDevice(routerPorts[..i])
    {
      assert routerPorts[..i + 1][..i] == routerPorts[..i];
      var routerId := routerPorts[i].deviceId;
      if routerId !in groups {
        groups := groups[routerId := [routerPorts[i]]];
      } else {
        groups := groups[routerId := groups[routerId] + [routerPorts[i]]];
      }
    }
    assert routerPorts[..|routerPorts|] == routerPorts;
  }

  /** The body of the second loop of `get_openflow_ew_dvrs`: the entry of
      one router, given its interface ports. */
  method EwEntry(db: PluginDb, host: string, routerId: string, ports: seq<Port>)
    returns (entry: Option<map<string, DvrSubnet>>)
    requires Consistent(db)
    requires routerId in (set p | p in RouterInterfacePorts(db.ports) :: p.deviceId)
    requires ports == RouterPorts(db, routerId)
    ensures entry.Some? <==> routerId in EwDvrs(db, host)
    ensures entry.Some? ==> entry.value == EwDvrs(db, host)[routerId]
  {
    EwDvrsAt(db, host, routerId);
    entry := None;
    if |ports| > 1 {
      entry := GetDvrSubnets(db, ports, host);
    }
  }

  /** `get_openflow_ew_dvrs`: the routers are visited in whatever order
      the dict yields them. */
  method GetOpenflowEwDvrs(db: PluginDb, host: string) returns (dvrs: map<string, map<string, DvrSubnet>>)
    requires Consistent(db)
    ensures dvrs == EwDvrs(db, host)
  {
    var routerPorts := RouterInterfacePorts(db.ports);
    var groups := GroupRouterPorts(routerPorts);
    GroupByDeviceSpec(routerPorts);
    ghost var ew := EwDvrs(db, host);
    dvrs := map[];
    var rest := groups.Keys;
    while rest != {}
      invariant rest <= groups.Keys
      invariant forall r | r in dvrs :: r in groups && r !in rest
      invariant forall r | r in groups && r !in rest ::
                  (r in dvrs <==> r in ew) && (r in dvrs ==> dvrs[r] == ew[r])
      decreases |rest|
    {
      var routerId :| routerId in rest;
      var entry := EwEntry(db, host, routerId, groups[routerId]);
      if entry.Some? {
        dvrs := dvrs[routerId := entry.value];
      }
      rest := rest - {routerId};
    }
    forall r | r in ew ensures r in dvrs {
      EwDvrsAt(db, host, r);
    }
  }

  /** A router gets an east-west entry only when at least two of its
      interface ports exist, and the entry lists at least two subnets of
      those ports, each with its ports, one of them with a port on the
      host. */
  lemma EwDvrsSpec(db: PluginDb, host: string, routerId: string)
    requires Consistent(db) && routerId in EwDvrs(db, host)
    ensures |RouterPorts(db, routerId)| >= 2
    ensures forall p | p in RouterPorts(db, routerId) ::
              p in db.ports && p.deviceOwner == DeviceOwnerRouterIntf && p.deviceId == routerId
    ensures var r := EwDvrs(db, host)[routerId];
            |r| >= 2
            && (forall k | k in r ::
                  (exists p | p in RouterPorts(db, routerId) :: DvrSubnetOf(db, p, k))
                  && r[k].ports == SubnetPorts(db, k) && r[k].ports != map[])
            && exists k | k in r :: HostIn(r[k].ports, host)
  {
    RouterInterfacePortsIn(db.ports);
    DevicePortsIn(RouterInterfacePorts(db.ports), routerId);
    DvrSubnetsSpec(db, RouterPorts(db, routerId), host);
  }

  /** Which subnets a router's east-west entry holds: exactly the DVR
      subnets of its interface ports that have ports. */
  lemma EwDvrsMembers(db: PluginDb, host: string, routerId: string, k: string)
    requires Consistent(db) && routerId in EwDvrs(db, host)
    ensures k in EwDvrs(db, host)[routerId]
            <==> (exists p | p in RouterPorts(db, routerId) :: DvrSubnetOf(db, p, k)) && SubnetPorts(db, k) != map[]
  {
    EwDvrsAt(db, host, routerId);
    DvrSubnetsMembers(db, RouterPorts(db, routerId), host, k);
  }

  // ---------------------------------------------------------------------
  // The DVR MAC table

  /** One row of `dvr_host_macs`. */
  datatype DvrMacAddress = DvrMacAddress(host: string, macAddress: string)

  datatype MacError = MacAddressGenerationFailure(host: string)

  datatype MacResult = MacOk(entry: DvrMacAddress) | MacErr(error: MacError)

  /** The index of the first draw the table accepts: a row needs a new
      host and a MAC no other row has. */
  function AcceptedDraw(draws: seq<string>, macs: map<string, string>, host: string): (r: Option<nat>)
    ensures r.Some? ==> r.value < |draws|
    decreases |draws|
  {
    if |draws| == 0 || host in macs then None
    else if draws[0] !in macs.Values then Some(0)
    else match AcceptedDraw(draws[1..], macs, host)
         case None => None
         case Some(i) => Some(i + 1)
  }

  /** The accepted draw is the first fresh one, and there is none exactly
      when the host has a row already or every draw is taken. */
  lemma {:induction false} AcceptedDrawSpec(draws: seq<string>, macs: map<string, string>, host: string)
    ensures AcceptedDraw(draws, macs, host).None?
            <==> host in macs || forall i | 0 <= i < |draws| :: draws[i] in macs.Values
    ensures AcceptedDraw(draws, macs, host).Some? ==>
              var i := AcceptedDraw(draws, macs, host).value;
              i < |draws| && draws[i] !in macs.Values && forall j | 0 <= j < i :: draws[j] in macs.Values
    decreases |draws|
  {
    if |draws| > 0 && host !in macs && draws[0] in macs.Values {
      var rest := draws[1..];
      AcceptedDrawSpec(rest, macs, host);
      forall i | 0 < i < |draws| ensures draws[i] == rest[i - 1] { }
    }
  }

  /** The `dvr_host_macs` table: each host's MAC, unique across hosts. */
  class DvrMacTable {
    var macs: map<string, string>

    constructor()
      ensures macs == map[]
    {
      macs := map[];
    }

    /** `_create_dvr_mac_address`: up to `maxRetries` attempts, attempt
        `k` trying the MAC `draws[k]`; a duplicate row makes the attempt
        fail and the next one start. */
    method CreateDvrMacAddress(host: string, maxRetries: nat, draws: seq<string>) returns (r: MacResult)
      requires maxRetries <= |draws|
      modifies this
      ensures var accepted := AcceptedDraw(draws[..maxRetries], old(macs), host);
              && (accepted.Some? ==>
                    r == MacOk(DvrMacAddress(host, draws[accepted.value]))
                    && macs == old(macs)[host := draws[accepted.value]])
              && (accepted.None? ==> r == MacErr(MacAddressGenerationFailure(host)) && macs == old(macs))
    {
      var attempt := 0;
      while attempt < maxRetries
        invariant 0 <= attempt <= maxRetries && macs == old(macs)
        invariant AcceptedDraw(draws[..maxRetries], macs, host)
                  == match AcceptedDraw(draws[attempt..maxRetries], macs, host)
                     case None => None
                     case Some(i) => Some(i + attempt)
      {
        var macAddress := draws[attempt];
        assert draws[attempt..maxRetries][1..] == draws[attempt + 1..maxRetries];
        if host !in macs && macAddress !in macs.Values {
          macs := macs[host := macAddress];
          return MacOk(DvrMacAddress(host, macAddress));
        }
        attempt := attempt + 1;
      }
      r := MacErr(MacAddressGenerationFailure(host));
    }

    /** `get_dvr_mac_address_by_host`: nothing for an unset or empty host,
        the host's row when it has one, and a new row otherwise. */
    method GetDvrMacAddressByHost(host: Option<string>, maxRetries: nat, draws: seq<string>)
      returns (r: Option<MacResult>)
      requires maxRetries <= |draws|
      modifies this
      ensures host.None? || host.value == "" ==> r.None? && macs == old(macs)
      ensures host.Some? && host.value != "" && host.value in old(macs) ==>
                r == Some(MacOk(DvrMacAddress(host.value, old(macs)[host.value]))) && macs == old(macs)
      ensures host.Some? && host.value != "" && host.value !in old(macs) ==>
                r.Some? &&
                var accepted := AcceptedDraw(draws[..maxRetries], old(macs), host.value);
                && (accepted.Some? ==>
                      r.value == MacOk(DvrMacAddress(host.value, draws[accepted.value]))
                      && macs == old(macs)[host.value := draws[accepted.value]])
                && (accepted.None? ==> r.value == MacErr(MacAddressGenerationFailure(host.value)) && macs == old(macs))
    {
      if host.None? || host.value == "" {
        return None;
      }
      if host.value in macs {
        return Some(MacOk(DvrMacAddress(host.value, macs[host.value])));
      }
      var created := CreateDvrMacAddress(host.value, maxRetries, draws);
      r := Some(created);
    }
  }

  /** A created row keeps MACs unique across hosts and is made within the
      retry bound; with no retries allowed creation always fails. */
  lemma CreationBound(draws: seq<string>, macs: map<string, string>, host: string, maxRetries: nat)
    requires maxRetries <= |draws|
    requires forall h1, h2 | h1 in macs && h2 in macs && h1 != h2 :: macs[h1] != macs[h2]
    ensures maxRetries == 0 ==> AcceptedDraw(draws[..maxRetries], macs, host).None?
    ensures AcceptedDraw(draws[..maxRetries], macs, host).Some? ==>
              var i := AcceptedDraw(draws[..maxRetries], macs, host).value;
              var after := macs[host := draws[i]];
              i < maxRetries && host !in macs
              && forall h1, h2 | h1 in after && h2 in after && h1 != h2 :: after[h1] != after[h2]
  {
    AcceptedDrawSpec(draws[..maxRetries], macs, host);
    if AcceptedDraw(draws[..maxRetries], macs, host).Some? {
      var i := AcceptedDraw(draws[..maxRetries], macs, host).value;
      var after := macs[host := draws[i]];
      forall h1, h2 | h1 in after && h2 in after && h1 != h2
        ensures after[h1] != after[h2]
      {
        if h1 == host {
          assert h2 in macs && macs[h2] in macs.Values;
        } else if h2 == host {
          assert h1 in macs && macs[h1] in macs.Values;
        }
      }
    }
  }
}
