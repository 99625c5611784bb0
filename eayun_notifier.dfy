/** The status-change notifications: the decorator that wraps a status
    update of a firewall, a VPN service, a load-balancer object or PPTP
    ports, calls it, and then emits one status-changed event per resource
    whose status it set. */
module EayunNotifier {
  import opened Common

  const StatusChangedSuffix: string := ".status.changed"
  const PortStatusActive: string := "ACTIVE"
  const PortStatusDown: string := "DOWN"

  /** The service names the decorator is given. */
  const Firewall: string := "FIREWALL"
  const Vpn: string := "VPN"
  const Loadbalancer: string := "LOADBALANCER"
  const LbMember: string := "LB_MEMBER"
  const PptpService: string := "PPTP"
  const PptpPorts: string := "PPTP_ports"

  /** A notification: its event type and the payload
      `{resource: {'id': id, 'status': status}}`. */
  datatype Event = Event(eventType: string, resource: string, id: string, status: string)

  /** `Notifier.status_changed`. */
  function StatusChanged(resource: string, id: string, status: string): Event
  {
    Event(resource + StatusChangedSuffix, resource, id, status)
  }

  /** The event type is the resource followed by the suffix, the resource
      can be read back from it, and different notifications give different
      events. */
  lemma StatusChangedSpec(resource: string, id: string, status: string, resource2: string, id2: string, status2: string)
    ensures EndsWith(StatusChanged(resource, id, status).eventType, StatusChangedSuffix)
    ensures StatusChanged(resource, id, status).eventType[..|resource|] == resource
    ensures StatusChanged(resource, id, status) == StatusChanged(resource2, id2, status2)
            <==> resource == resource2 && id == id2 && status == status2
  {
    var t := StatusChanged(resource, id, status).eventType;
    assert t[|t| - |StatusChangedSuffix|..] == StatusChangedSuffix;
    if StatusChanged(resource, id, status) == StatusChanged(resource2, id2, status2) {
      assert resource == StatusChanged(resource2, id2, status2).resource;
    }
  }

  // ---------------------------------------------------------------------
  // Dispatch

  datatype Handler =
    | HandleFirewall | HandleIpsecVpns | HandleLoadbalancer | HandleLbMember | HandlePptpVpn | HandlePptpPorts

  /** `eayun_notify(service)`: the handler for the service name; None
      stands for the NotImplementedError of any other name. */
  function Dispatch(service: string): Option<Handler>
  {
    if service == Firewall then Some(HandleFirewall)
    else if service == Vpn then Some(HandleIpsecVpns)
    else if service == Loadbalancer then Some(HandleLoadbalancer)
    else if service == LbMember then Some(HandleLbMember)
    else if service == PptpService then Some(HandlePptpVpn)
    else if service == PptpPorts then Some(HandlePptpPorts)
    else None
  }

  /** The service name each handler is chosen by. */
  function ServiceOf(h: Handler): string
  {
    match h
    case HandleFirewall => Firewall
    case HandleIpsecVpns => Vpn
    case HandleLoadbalancer => Loadbalancer
    case HandleLbMember => LbMember
    case HandlePptpVpn => PptpService
    case HandlePptpPorts => PptpPorts
  }

  /** Exactly the six service names have a handler, each a different one:
      dispatching a handler's name gives that handler back, and every
      other name is refused. */
  lemma DispatchSpec(service: string, h: Handler)
    ensures Dispatch(ServiceOf(h)) == Some(h)
    ensures Dispatch(service).Some? ==> ServiceOf(Dispatch(service).value) == service
    ensures Dispatch(service).None?
            <==> service !in [Firewall, Vpn, Loadbalancer, LbMember, PptpService, PptpPorts]
  {
  }

  // ---------------------------------------------------------------------
  // Handlers

  /** What the wrapped update did: returned a value or raised. */
  datatype Call<T> = Returned(value: T) | Raised(exception: string)

  /** What a handler does, in order: the call of the wrapped update, then
      notifications. */
  datatype Effect = CallWrapped | Notify(event: Event)

  /** A handler's effects and what it returns (None for a handler that
      returns nothing), or the exception it lets through. */
  datatype Handled<T> = Handled(effects: seq<Effect>, outcome: Call<Option<T>>)

  function Notifications(events: seq<Event>): seq<Effect>
  {
    seq(|events|, i requires 0 <= i < |events| => Notify(events[i]))
  }

  /** The common shape: call the update; if it raises nothing is emitted,
      otherwise the events follow. */
  function AfterCall<T, R>(call: Call<T>, events: seq<Event>, returned: Option<R>): Handled<R>
  {
    match call
    case Raised(e) => Handled([CallWrapped], Raised(e))
    case Returned(_) => Handled([CallWrapped] + Notifications(events), Returned(returned))
  }

  /** `handle_firewall`: one firewall event, and the update's result. */
  function FirewallHandled<T>(call: Call<T>, firewallId: string, status: string): Handled<T>
  {
    AfterCall(call, [StatusChanged("firewall", firewallId, status)], if call.Returned? then Some(call.value) else None)
  }

  /** A connection's id and status, in the order its dict yields them. */
  datatype ConnStatus = ConnStatus(id: string, status: string)

  /** One entry of `service_status_info_list`. */
  datatype ServiceStatus = ServiceStatus(id: string, status: string, ipsecSiteConnections: seq<ConnStatus>)

  function ConnEvents(conns: seq<ConnStatus>): seq<Event>
  {
    seq(|conns|, i requires 0 <= i < |conns| => StatusChanged("ipsec_site_connection", conns[i].id, conns[i].status))
  }

  /** The events of `handle_ipsec_vpns`: per service, its event and then
      one per connection. */
  function IpsecEvents(services: seq<ServiceStatus>): seq<Event>
    decreases |services|
  {
    if |services| == 0 then []
    else
      var s := services[|services| - 1];
      IpsecEvents(services[..|services| - 1]) + [StatusChanged("vpnservice", s.id, s.status)] + ConnEvents(s.ipsecSiteConnections)
  }

  /** The events of a list are those of its parts in order, and a single
      service gives its own event followed by its connections' events. */
  lemma {:induction false} IpsecEventsAppend(a: seq<ServiceStatus>, b: seq<ServiceStatus>)
    ensures IpsecEvents(a + b) == IpsecEvents(a) + IpsecEvents(b)
    ensures |b| == 1 ==>
              IpsecEvents(b) == [StatusChanged("vpnservice", b[0].id, b[0].status)] + ConnEvents(b[0].ipsecSiteConnections)
    decreases |b|
  {
    if |b| == 1 {
      assert b[..0] == [];
    }
    if |b| > 0 {
      var ab := a + b;
      assert ab[..|ab| - 1] == a + b[..|b| - 1];
      IpsecEventsAppend(a, b[..|b| - 1]);
    } else {
      assert a + b == a;
    }
  }

  function IpsecVpnsHandled<T>(call: Call<T>, services: seq<ServiceStatus>): Handled<T>
  {
    AfterCall(call, IpsecEvents(services), None)
  }

  /** `handle_loadbalancer`: no event for a member. */
  function LoadbalancerHandled<T>(call: Call<T>, objType: string, objId: string, status: string): Handled<T>
  {
    AfterCall(call, if objType != "member" then [StatusChanged(objType, objId, status)] else [], None)
  }

  /** `handle_lb_member`: an event only when the model class is a
      subclass of the decorator's model, that is when the latter is in the
      model's method resolution order. */
  function LbMemberHandled<T>(call: Call<T>, modelMro: seq<string>, objModel: string, objId: string,
                              status: string): Handled<T>
  {
    AfterCall(call, if objModel in modelMro then [StatusChanged("member", objId, status)] else [], None)
  }

  function PptpVpnHandled<T>(call: Call<T>, vpnserviceId: string, status: string): Handled<T>
  {
    AfterCall(call, [StatusChanged("vpnservice", vpnserviceId, status)], None)
  }

  /** An entry of `updated_ports`: the port and whether it is connected. */
  datatype PortUpdate = PortUpdate(portId: string, connected: bool)

  function PortEvents(updates: seq<PortUpdate>): seq<Event>
    decreases |updates|
  {
    if |updates| == 0 then []
    else
      var u := updates[|updates| - 1];
      PortEvents(updates[..|updates| - 1])
      + [StatusChanged("pptp_port", u.portId, if u.connected then PortStatusActive else PortStatusDown)]
  }

  /** One `pptp_port` event per updated port, in order: ACTIVE when it is
      connected, DOWN otherwise. */
  lemma {:induction false} PortEventsSpec(updates: seq<PortUpdate>)
    ensures |PortEvents(updates)| == |updates|
    ensures forall i | 0 <= i < |updates| ::
              PortEvents(updates)[i].resource == "pptp_port" && PortEvents(updates)[i].id == updates[i].portId
              && (PortEvents(updates)[i].status == PortStatusActive <==> updates[i].connected)
              && (PortEvents(updates)[i].status == PortStatusDown <==> !updates[i].connected)
    decreases |updates|
  {
    if |updates| > 0 {
      PortEventsSpec(updates[..|updates| - 1]);
    }
  }

  function PptpPortsHandled<T>(call: Call<T>, updates: seq<PortUpdate>): Handled<T>
  {
    AfterCall(call, PortEvents(updates), None)
  }

  /** Every handler calls the wrapped update first and emits only after it
      returns, nothing when it raises; only the firewall handler passes on
      what the update returned. */
  lemma HandlersSpec<T>(call: Call<T>, firewallId: string, services: seq<ServiceStatus>, objType: string,
                        modelMro: seq<string>, objModel: string, id: string, status: string,
                        updates: seq<PortUpdate>)
    ensures var hs := [FirewallHandled(call, firewallId, status), IpsecVpnsHandled(call, services),
                       LoadbalancerHandled(call, objType, id, status),
                       LbMemberHandled(call, modelMro, objModel, id, status),
                       PptpVpnHandled(call, id, status), PptpPortsHandled(call, updates)];
            forall k | 0 <= k < |hs| ::
              |hs[k].effects| >= 1 && hs[k].effects[0] == CallWrapped
              && (forall j | 1 <= j < |hs[k].effects| :: hs[k].effects[j].Notify?)
              && (call.Raised? ==> hs[k].effects == [CallWrapped] && hs[k].outcome == Raised(call.exception))
              && (call.Returned? && k != 0 ==> hs[k].outcome == Returned(None))
    ensures call.Returned? ==> FirewallHandled(call, firewallId, status).outcome == Returned(Some(call.value))
    ensures call.Returned? ==>
              FirewallHandled(call, firewallId, status).effects
              == [CallWrapped, Notify(StatusChanged("firewall", firewallId, status))]
    ensures call.Returned? ==> (|LoadbalancerHandled(call, objType, id, status).effects| == 1 <==> objType == "member")
    ensures call.Returned? ==>
              (|LbMemberHandled(call, modelMro, objModel, id, status).effects| == 2 <==> objModel in modelMro)
  {
    var e := [StatusChanged("firewall", firewallId, status)];
    assert Notifications(e) == [Notify(e[0])];
  }
}
