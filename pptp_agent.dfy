/** The PPTP VPN agent driver: one supervised pptpd instance per VPN service
    (PptpProcess) and the driver that owns the table of instances and the
    credential map, applies deltas pushed by the server (SyncFromServer) and
    reports status on a timer (CheckAndReport).

    The operating system is abstract. What the source learns by reading
    files (the pid file and /proc/<pid>/cmdline for `active`, the
    connections directory for `connected_ips`, a marker file's pid for
    `disconnect_port`) is held in fields of the process; what it does to the
    system (spawning pptpd, killing a process group or one connection,
    replacing the chap-secrets file) is returned, in order, as a trace of
    Actions. */
module PptpAgent {
  import opened Common

  /** One side effect on the operating system. */
  datatype Action =
    | Spawn(serviceId: string)                                // pptpd started in the service's namespace
    | KillGroup(serviceId: string)                            // `kill -9 -- -<pid>` of the service's pptpd
    | KillConnection(serviceId: string, ip: string, pid: int) // `kill <pid>` of the pppd serving one remote ip
    | WriteSecrets(text: string)                              // chap-secrets replaced by `text`

  /** A port entry of a process. `None` is Python's None, which a freshly
      added port holds until its first poll. */
  datatype Port = Port(ip: string, credentialId: string, wasConnected: Option<bool>, connected: Option<bool>)

  datatype Credential = Credential(username: string, password: string)

  /** Everything observable about one supervised instance. `running` is the
      `active` probe, `connectedIps` the `connected_ips` probe, and
      `markerPids` holds, for each connection marker whose first line parses
      as an integer, that pid. */
  datatype ProcState = ProcState(
    localIp: string,
    namespace: string,
    enabled: bool,
    running: bool,
    ports: map<string, Port>,
    connectedIps: set<string>,
    markerPids: map<string, int>)

  /** The driver's process table, keyed by VPN service id. */
  type Table = map<string, ProcState>

  // ---------------------------------------------------------------------
  // One process

  /** A newly constructed process: its config directory was just wiped and
      recreated, so there is no pid file and no connection marker. */
  function FreshProcess(localIp: string, namespace: string): ProcState
  {
    ProcState(localIp, namespace, false, false, map[], {}, map[])
  }

  function Started(p: ProcState): ProcState
  {
    p.(enabled := true, running := true)
  }

  function StartTrace(id: string, p: ProcState): seq<Action>
  {
    if p.running then [] else [Spawn(id)]
  }

  function Stopped(p: ProcState): ProcState
  {
    p.(enabled := false, running := false)
  }

  function StopTrace(id: string, p: ProcState): seq<Action>
  {
    if p.running then [KillGroup(id)] else []
  }

  /** One port after a poll: the previous `connected` moves to
      `wasConnected` and `connected` becomes the ip's membership. */
  function Observed(port: Port, ips: set<string>): Port
  {
    port.(wasConnected := port.connected, connected := Some(port.ip in ips))
  }

  function PolledPorts(ports: map<string, Port>, ips: set<string>): map<string, Port>
  {
    map k | k in ports :: Observed(ports[k], ips)
  }

  /** What a poll returns: the ports whose new `connected` differs from the
      value it had before the poll, mapped to the new value. */
  function Transitions(ports: map<string, Port>, ips: set<string>): map<string, bool>
  {
    map k | k in ports && ports[k].connected != Some(ports[k].ip in ips) :: ports[k].ip in ips
  }

  function NewPort(ip: string, credentialId: string): Port
  {
    Port(ip, credentialId, None, None)
  }

  /** The kill `disconnect_port` issues, if any. */
  function DisconnectKill(id: string, p: ProcState, portId: string): Option<Action>
    requires portId in p.ports
  {
    var ip := p.ports[portId].ip;
    if ip in p.connectedIps && ip in p.markerPids then Some(KillConnection(id, ip, p.markerPids[ip])) else None
  }

  /** The poll reports exactly the ports whose state changed, each with its
      new value, and it moves every port's old value into `wasConnected`. */
  lemma TransitionsAreChanges(ports: map<string, Port>, ips: set<string>, k: string)
    requires k in ports
    ensures k in Transitions(ports, ips) <==>
              PolledPorts(ports, ips)[k].wasConnected != PolledPorts(ports, ips)[k].connected
    ensures k in Transitions(ports, ips) ==>
              Some(Transitions(ports, ips)[k]) == PolledPorts(ports, ips)[k].connected
    ensures PolledPorts(ports, ips)[k].wasConnected == ports[k].connected
  {
  }

  /** A second poll with the same connected set reports nothing. */
  lemma {:induction false} RepeatPollIsQuiet(ports: map<string, Port>, ips: set<string>)
    ensures Transitions(PolledPorts(ports, ips), ips) == map[]
  {
    var polled := PolledPorts(ports, ips);
    forall k | k in polled
      ensures polled[k].connected == Some(polled[k].ip in ips)
    {
    }
  }

  /** The first poll after `add_port` reports the added port, whatever its
      ip's state, and leaves the other ports' report unchanged. */
  lemma FirstPollReportsAddedPort(ports: map<string, Port>, ips: set<string>, id: string, ip: string, cred: string)
    ensures id in Transitions(ports[id := NewPort(ip, cred)], ips)
    ensures Transitions(ports[id := NewPort(ip, cred)], ips)[id] == (ip in ips)
    ensures forall k :: k != id ==>
              (k in Transitions(ports[id := NewPort(ip, cred)], ips) <==> k in Transitions(ports, ips))
  {
  }

  /** One supervised pptpd instance. */
  class PptpProcess {
    const id: string
    const localIp: string
    const namespace: string
    var enabled: bool
    var ports: map<string, Port>
    // The operating system as this process's probes see it.
    var running: bool
    var connectedIps: set<string>
    var markerPids: map<string, int>

    function State(): ProcState
      reads this
    {
      ProcState(localIp, namespace, enabled, running, ports, connectedIps, markerPids)
    }

    /** The config directory is wiped and recreated (with the rendered
        ppp options file); the new process is disabled and not running. */
    constructor (id: string, localIp: string, namespace: string)
      ensures this.id == id
      ensures State() == FreshProcess(localIp, namespace)
    {
      this.id := id;
      this.localIp := localIp;
      this.namespace := namespace;
      enabled := false;
      ports := map[];
      running := false;
      connectedIps := {};
      markerPids := map[];
    }

    /** The `active` probe. */
    predicate Active()
      reads this
    {
      running
    }

    /** Enables the process and spawns pptpd unless it is already active. */
    method Start() returns (trace: seq<Action>)
      modifies this
      ensures State() == Started(old(State()))
      ensures trace == StartTrace(id, old(State()))
      ensures enabled && Active()
      ensures |trace| <= 1 && (old(Active()) ==> trace == [])
    {
      enabled := true;
      trace := [];
      if !Active() {
        running := true;
        trace := [Spawn(id)];
      }
    }

    /** Disables the process and kills its process group if it is active. */
    method Stop() returns (trace: seq<Action>)
      modifies this
      ensures State() == Stopped(old(State()))
      ensures trace == StopTrace(id, old(State()))
      ensures !enabled && !Active()
      ensures !old(Active()) ==> trace == [] && State() == old(State()).(enabled := false)
    {
      enabled := false;
      trace := [];
      if Active() {
        running := false;
        trace := [KillGroup(id)];
      }
    }

    /** Polls the connections directory once and records every port's new
        state, returning only the ports whose state changed. */
    method UpdatePortsStatus() returns (changed: map<string, bool>)
      modifies this
      ensures State() == old(State()).(ports := PolledPorts(old(ports), old(connectedIps)))
      ensures changed == Transitions(old(ports), old(connectedIps))
    {
      var ips := connectedIps;
      var current := ports;
      var todo := current.Keys;
      var polled: map<string, Port> := map[];
      changed := map[];
      while todo != {}
        invariant todo <= current.Keys
        invariant polled == map k | k in current && k !in todo :: Observed(current[k], ips)
        invariant changed == map k | k in current && k !in todo &&
                    current[k].connected != Some(current[k].ip in ips) :: current[k].ip in ips
        decreases todo
      {
        var k :| k in todo;
        var port := current[k];
        var now := port.ip in ips;
        polled := polled[k := port.(wasConnected := port.connected, connected := Some(now))];
        if port.connected != Some(now) {
          changed := changed[k := now];
        }
        todo := todo - {k};
      }
      ports := polled;
    }

    /** Records a port, replacing any entry with the same id; its connection
        state is unknown until the next poll. */
    method AddPort(portId: string, ip: string, credentialId: string)
      modifies this
      ensures State() == old(State()).(ports := old(ports)[portId := NewPort(ip, credentialId)])
    {
      ports := ports[portId := NewPort(ip, credentialId)];
    }

    /** Kills the pppd serving the port's remote ip when that ip is
        connected and its marker file holds a pid; otherwise does nothing. */
    method DisconnectPort(portId: string) returns (kill: Option<Action>)
      requires portId in ports
      ensures kill.Some? <==> ports[portId].ip in connectedIps && ports[portId].ip in markerPids
      ensures kill.Some? ==> kill.value == KillConnection(id, ports[portId].ip, markerPids[ports[portId].ip])
      ensures kill == DisconnectKill(id, State(), portId)
    {
      var remoteIp := ports[portId].ip;
      kill := None;
      if remoteIp in connectedIps {
        if remoteIp in markerPids {
          kill := Some(KillConnection(id, remoteIp, markerPids[remoteIp]));
        }
      }
    }

    /** Disconnects the port, then forgets it; no other port changes. */
    method DelPort(portId: string) returns (kill: Option<Action>)
      requires portId in ports
      modifies this
      ensures State() == old(State()).(ports := old(ports) - {portId})
      ensures kill == DisconnectKill(id, old(State()), portId)
    {
      kill := DisconnectPort(portId);
      ports := ports - {portId};
    }
  }

  // ---------------------------------------------------------------------
  // The driver's table

  /** The part of a service record the agent reads. `localIp` is the value
      the server put under 'localip', possibly None. */
  datatype AddedService = AddedService(id: string, routerId: string, adminStateUp: bool, localIp: Option<string>)

  datatype ServicesDelta = ServicesDelta(
    added: seq<AddedService>, enabled: seq<string>, disabled: seq<string>, deleted: seq<string>)

  datatype AddedCredential = AddedCredential(id: string, username: string, password: string)

  datatype CredentialsDelta = CredentialsDelta(
    added: seq<AddedCredential>, deleted: seq<string>, updated: map<string, string>)

  datatype AddedPort = AddedPort(id: string, serviceId: string, ip: string, credentialId: string)

  datatype PortsDelta = PortsDelta(added: seq<AddedPort>, deleted: seq<string>)

  /** One change set pushed by the server. */
  datatype Delta = Delta(services: ServicesDelta, credentials: CredentialsDelta, ports: PortsDelta)

  /** The table after an operation, and what the operation did to the
      system, in order. */
  datatype Step = Step(table: Table, trace: seq<Action>)

  /** `not namespace`: the agent knows no namespace for the router, or it
      is the empty string. */
  predicate NamespaceReady(namespaces: map<string, string>, routerId: string)
  {
    routerId in namespaces && namespaces[routerId] != ""
  }

  function StartProcessStep(t: Table, routerId: string, id: string, localIp: string, enabled: bool,
                            namespaces: map<string, string>): Step
  {
    if !NamespaceReady(namespaces, routerId) then Step(t, [])
    else
      var p := if id in t then t[id] else FreshProcess(localIp, namespaces[routerId]);
      if enabled then Step(t[id := Started(p)], StartTrace(id, p)) else Step(t[id := p], [])
  }

  function StopProcessStep(t: Table, id: string, delete: bool): Step
  {
    if id !in t then Step(t, [])
    else Step(if delete then t - {id} else t[id := Stopped(t[id])], StopTrace(id, t[id]))
  }

  /** `not localip`: None or the empty string; such a service is skipped. */
  function StartVpnServiceStep(t: Table, svc: AddedService, namespaces: map<string, string>): Step
  {
    if svc.localIp.None? || svc.localIp.value == "" then Step(t, [])
    else StartProcessStep(t, svc.routerId, svc.id, svc.localIp.value, svc.adminStateUp, namespaces)
  }

  function EnableStep(t: Table, id: string): Step
  {
    if id in t then Step(t[id := Started(t[id])], StartTrace(id, t[id])) else Step(t, [])
  }

  /** The 'added' services, started one after the other. */
  function AddServices(t: Table, added: seq<AddedService>, namespaces: map<string, string>): Step
  {
    if |added| == 0 then Step(t, [])
    else
      var s := AddServices(t, added[..|added| - 1], namespaces);
      var last := StartVpnServiceStep(s.table, added[|added| - 1], namespaces);
      Step(last.table, s.trace + last.trace)
  }

  function EnableServices(t: Table, ids: seq<string>): Step
  {
    if |ids| == 0 then Step(t, [])
    else
      var s := EnableServices(t, ids[..|ids| - 1]);
      var last := EnableStep(s.table, ids[|ids| - 1]);
      Step(last.table, s.trace + last.trace)
  }

  /** `stop_process(id)` for each id, with `delete` as given. */
  function StopServices(t: Table, ids: seq<string>, delete: bool): Step
  {
    if |ids| == 0 then Step(t, [])
    else
      var s := StopServices(t, ids[..|ids| - 1], delete);
      var last := StopProcessStep(s.table, ids[|ids| - 1], delete);
      Step(last.table, s.trace + last.trace)
  }

  function AddCredentials(c: map<string, Credential>, added: seq<AddedCredential>): map<string, Credential>
  {
    if |added| == 0 then c
    else
      var a := added[|added| - 1];
      AddCredentials(c, added[..|added| - 1])[a.id := Credential(a.username, a.password)]
  }

  /** Deleting ids the map does not have is a no-op. */
  function DropCredentials(c: map<string, Credential>, deleted: seq<string>): map<string, Credential>
  {
    map k | k in c && k !in deleted :: c[k]
  }

  /** An update changes only the password, and only of an id that is
      present. */
  function UpdatePasswords(c: map<string, Credential>, updated: map<string, string>): map<string, Credential>
  {
    map k | k in c :: if k in updated then c[k].(password := updated[k]) else c[k]
  }

  /** The credential map after a credentials delta: added entries
      overwrite, then the deleted ids go, then the updates apply. */
  function ApplyCredentials(c: map<string, Credential>, d: CredentialsDelta): map<string, Credential>
  {
    UpdatePasswords(DropCredentials(AddCredentials(c, d.added), d.deleted), d.updated)
  }

  function AddPortStep(t: Table, a: AddedPort): Table
  {
    if a.serviceId in t
    then t[a.serviceId := t[a.serviceId].(ports := t[a.serviceId].ports[a.id := NewPort(a.ip, a.credentialId)])]
    else t
  }

  function AddPorts(t: Table, added: seq<AddedPort>): Table
  {
    if |added| == 0 then t else AddPortStep(AddPorts(t, added[..|added| - 1]), added[|added| - 1])
  }

  /** A (service id, port id) pair: one port of one process. */
  type Entry = (string, string)

  predicate HasEntry(t: Table, e: Entry)
  {
    e.0 in t && e.1 in t[e.0].ports
  }

  /** The ports of one process that get a line in chap-secrets: all but
      the deleted ones. */
  function LivePorts(ports: map<string, Port>, deleted: seq<string>): set<string>
  {
    set q | q in ports && q !in deleted
  }

  function DeletedPorts(ports: map<string, Port>, deleted: seq<string>): set<string>
  {
    set q | q in ports && q in deleted
  }

  /** The surviving ports of one process whose credential id is in
      'updated'. */
  function DisconnectedPorts(ports: map<string, Port>, deleted: seq<string>, updated: map<string, string>): set<string>
  {
    set q | q in ports && q !in deleted && ports[q].credentialId in updated
  }

  /** Port ids of the process filed under `k`, as entries. */
  function Tagged(k: string, ports: set<string>): set<Entry>
  {
    set q | q in ports :: (k, q)
  }

  function Tag(k: string, ports: seq<string>): (r: seq<Entry>)
    ensures |r| == |ports| && forall i | 0 <= i < |ports| :: r[i] == (k, ports[i])
  {
    seq(|ports|, i requires 0 <= i < |ports| => (k, ports[i]))
  }

  lemma TagEnumerates(k: string, ports: seq<string>, s: set<string>)
    requires Enumerates(ports, s)
    ensures Enumerates(Tag(k, ports), Tagged(k, s))
  {
    var r := Tag(k, ports);
    forall e | e in Tagged(k, s)
      ensures e in r
    {
      var i :| 0 <= i < |ports| && ports[i] == e.1;
      assert r[i] == e;
    }
  }

  /** The ports of the processes in `keys` that get a line in
      chap-secrets: all but the deleted ones. */
  function LiveIn(t: Table, deleted: seq<string>, keys: set<string>): set<Entry>
  {
    set k, p | k in keys && k in t && p in t[k].ports && p !in deleted :: (k, p)
  }

  /** The ports of the processes in `keys` that this delta deletes. */
  function DeletedIn(t: Table, deleted: seq<string>, keys: set<string>): set<Entry>
  {
    set k, p | k in keys && k in t && p in t[k].ports && p in deleted :: (k, p)
  }

  /** The surviving ports of the processes in `keys` whose credential id is
      in 'updated'. */
  function DisconnectedIn(t: Table, deleted: seq<string>, updated: map<string, string>, keys: set<string>): set<Entry>
  {
    set k, p | k in keys && k in t && p in t[k].ports && p !in deleted &&
               t[k].ports[p].credentialId in updated :: (k, p)
  }

  /** Walking one more process adds exactly its own entries. */
  lemma EntriesGrow(t: Table, deleted: seq<string>, updated: map<string, string>, keys: set<string>, k: string)
    requires k in t && k !in keys
    ensures LiveIn(t, deleted, keys + {k}) == LiveIn(t, deleted, keys) + Tagged(k, LivePorts(t[k].ports, deleted))
    ensures LiveIn(t, deleted, keys) !! Tagged(k, LivePorts(t[k].ports, deleted))
    ensures DeletedIn(t, deleted, keys + {k}) == DeletedIn(t, deleted, keys) + Tagged(k, DeletedPorts(t[k].ports, deleted))
    ensures DeletedIn(t, deleted, keys) !! Tagged(k, DeletedPorts(t[k].ports, deleted))
    ensures DisconnectedIn(t, deleted, updated, keys + {k}) ==
            DisconnectedIn(t, deleted, updated, keys) + Tagged(k, DisconnectedPorts(t[k].ports, deleted, updated))
    ensures DisconnectedIn(t, deleted, updated, keys) !! Tagged(k, DisconnectedPorts(t[k].ports, deleted, updated))
  {
  }

  function LiveEntries(t: Table, deleted: seq<string>): set<Entry>
  {
    LiveIn(t, deleted, t.Keys)
  }

  function DeletedEntries(t: Table, deleted: seq<string>): set<Entry>
  {
    DeletedIn(t, deleted, t.Keys)
  }

  /** The ports disconnected before deletion, as the code is written: every
      surviving port whose credential id is in 'updated', including a port
      added by this same delta. */
  function DisconnectedEntries(t: Table, d: Delta): set<Entry>
  {
    DisconnectedIn(t, d.ports.deleted, d.credentials.updated, t.Keys)
  }

  /** The line of chap-secrets for one port of the service `serviceId`:
      username, service id, password and remote ip, space-separated. */
  function PortLine(serviceId: string, port: Port, c: map<string, Credential>): string
    requires port.credentialId in c
  {
    var cred := c[port.credentialId];
    cred.username + " " + serviceId + " " + cred.password + " " + port.ip
  }

  predicate CredentialsKnown(t: Table, c: map<string, Credential>, entries: seq<Entry>)
  {
    forall i | 0 <= i < |entries| :: HasEntry(t, entries[i]) && t[entries[i].0].ports[entries[i].1].credentialId in c
  }

  /** The chap-secrets lines of the given ports, in order. */
  function SecretLines(t: Table, c: map<string, Credential>, entries: seq<Entry>): (r: seq<string>)
    requires CredentialsKnown(t, c, entries)
    ensures |r| == |entries|
    ensures forall i | 0 <= i < |entries| :: r[i] == PortLine(entries[i].0, t[entries[i].0].ports[entries[i].1], c)
  {
    if |entries| == 0 then []
    else
      var e := entries[|entries| - 1];
      SecretLines(t, c, entries[..|entries| - 1]) + [PortLine(e.0, t[e.0].ports[e.1], c)]
  }

  /** The chap-secrets text: the lines, then one element holding a newline,
      all joined with newlines. */
  function SecretsText(lines: seq<string>): string
  {
    Join(lines + ["\n"], "\n")
  }

  /** The kills `disconnect_port` issues for the given ports, in order
      (every port the code passes is in the table). */
  function Kills(t: Table, entries: seq<Entry>): seq<Action>
  {
    if |entries| == 0 then []
    else
      var e := entries[|entries| - 1];
      var k := if HasEntry(t, e) then DisconnectKill(e.0, t[e.0], e.1) else None;
      Kills(t, entries[..|entries| - 1]) + (if k.Some? then [k.value] else [])
  }

  /** Every process with the deleted ports removed. */
  function WithoutPorts(t: Table, deleted: seq<string>): Table
  {
    map k | k in t :: t[k].(ports := map p | p in t[k].ports && p !in deleted :: t[k].ports[p])
  }

  /** Why a sync stops part-way. */
  datatype SyncError =
    | UnexpectedKeyword   // TypeError: `stop_process` has no parameter `deleted`
    | UnknownCredential   // KeyError: a surviving port names a credential the agent lacks

  /** The state a sync has reached once it has applied the services, the
      credentials and the added ports, and whether it stops there. */
  datatype Staged = Staged(table: Table, credentials: map<string, Credential>, trace: seq<Action>,
                           failure: Option<SyncError>)

  function Stage(t: Table, c: map<string, Credential>, d: Delta, namespaces: map<string, string>): Staged
  {
    var added := AddServices(t, d.services.added, namespaces);
    var enabled := EnableServices(added.table, d.services.enabled);
    if |d.services.disabled| > 0 then
      Staged(enabled.table, c, added.trace + enabled.trace, Some(UnexpectedKeyword))
    else
      var deleted := StopServices(enabled.table, d.services.deleted, true);
      var c' := ApplyCredentials(c, d.credentials);
      var t' := AddPorts(deleted.table, d.ports.added);
      Staged(t', c', added.trace + enabled.trace + deleted.trace,
             if CredentialsCover(t', c', d.ports.deleted) then None else Some(UnknownCredential))
  }

  // ---------------------------------------------------------------------
  // What one sync does, step by step

  /** A service record `start_vpnservice` acts on: its local ip is set and
      its router's namespace is ready. */
  predicate Startable(svc: AddedService, namespaces: map<string, string>)
  {
    svc.localIp.Some? && svc.localIp.value != "" && NamespaceReady(namespaces, svc.routerId)
  }

  /** Starting the 'added' services creates an entry for exactly the
      startable ones, and never replaces an entry: a process already in
      the table keeps its ports, address and namespace. */
  lemma {:induction false} AddServicesEffect(t: Table, added: seq<AddedService>, namespaces: map<string, string>, k: string)
    ensures k in AddServices(t, added, namespaces).table <==>
              k in t || exists i | 0 <= i < |added| :: added[i].id == k && Startable(added[i], namespaces)
    ensures k in t ==> AddServices(t, added, namespaces).table[k].ports == t[k].ports &&
                       AddServices(t, added, namespaces).table[k].localIp == t[k].localIp &&
                       AddServices(t, added, namespaces).table[k].namespace == t[k].namespace
  {
    if |added| > 0 {
      var init := added[..|added| - 1];
      AddServicesEffect(t, init, namespaces, k);
      if exists i | 0 <= i < |added| :: added[i].id == k && Startable(added[i], namespaces) {
        var i :| 0 <= i < |added| && added[i].id == k && Startable(added[i], namespaces);
        if i < |init| {
          assert init[i] == added[i];
        }
      }
      if exists i | 0 <= i < |init| :: init[i].id == k && Startable(init[i], namespaces) {
        var i :| 0 <= i < |init| && init[i].id == k && Startable(init[i], namespaces);
        assert added[i] == init[i];
      }
    }
  }

  /** Enabling starts every listed process the table has and touches no
      other entry; listing a process twice is the same as listing it
      once. */
  lemma {:induction false} EnableServicesEffect(t: Table, ids: seq<string>, k: string)
    ensures EnableServices(t, ids).table.Keys == t.Keys
    ensures k in t ==> EnableServices(t, ids).table[k] == if k in ids then Started(t[k]) else t[k]
  {
    if |ids| > 0 {
      var init := ids[..|ids| - 1];
      EnableServicesEffect(t, init, k);
      EnableServicesEffect(t, init, ids[|ids| - 1]);
      assert forall x :: x in ids <==> x in init || x == ids[|ids| - 1];
    }
  }

  /** Stopping the listed services with `delete` set removes exactly the
      listed entries, kills the group of each listed process that was
      running, and leaves every other entry as it was. */
  lemma {:induction false} DeleteServicesEffect(t: Table, ids: seq<string>, k: string)
    ensures k in StopServices(t, ids, true).table <==> k in t && k !in ids
    ensures k in t && k !in ids ==> StopServices(t, ids, true).table[k] == t[k]
    ensures KillGroup(k) in StopServices(t, ids, true).trace <==> k in ids && k in t && t[k].running
  {
    if |ids| > 0 {
      var init := ids[..|ids| - 1];
      var last := ids[|ids| - 1];
      DeleteServicesEffect(t, init, k);
      DeleteServicesEffect(t, init, last);
      assert forall x :: x in ids <==> x in init || x == last;
      var s := StopServices(t, init, true);
      assert StopServices(t, ids, true).trace == s.trace + StopProcessStep(s.table, last, true).trace;
      if last != k {
        assert KillGroup(k) !in StopProcessStep(s.table, last, true).trace;
      }
    }
  }

  /** Stopping the listed services without `delete` keeps every entry and
      leaves each listed one disabled and not running. */
  lemma {:induction false} DisableServicesEffect(t: Table, ids: seq<string>, k: string)
    ensures StopServices(t, ids, false).table.Keys == t.Keys
    ensures k in t ==> StopServices(t, ids, false).table[k] == if k in ids then Stopped(t[k]) else t[k]
  {
    if |ids| > 0 {
      var init := ids[..|ids| - 1];
      DisableServicesEffect(t, init, k);
      DisableServicesEffect(t, init, ids[|ids| - 1]);
      assert forall x :: x in ids <==> x in init || x == ids[|ids| - 1];
    }
  }

  /** The 'added' credentials: each id ends with the last record added
      under it, and ids not added keep their credential. */
  lemma {:induction false} AddCredentialsEffect(c: map<string, Credential>, added: seq<AddedCredential>, k: string)
    ensures k in AddCredentials(c, added) <==> k in c || exists i | 0 <= i < |added| :: added[i].id == k
    ensures (forall i | 0 <= i < |added| :: added[i].id != k) && k in c ==> AddCredentials(c, added)[k] == c[k]
    ensures forall i | 0 <= i < |added| && added[i].id == k ::
              (forall j | i < j < |added| :: added[j].id != k) ==>
                AddCredentials(c, added)[k] == Credential(added[i].username, added[i].password)
  {
    if |added| > 0 {
      var init := added[..|added| - 1];
      AddCredentialsEffect(c, init, k);
      if exists i | 0 <= i < |added| :: added[i].id == k {
        var i :| 0 <= i < |added| && added[i].id == k;
        if i < |init| {
          assert init[i] == added[i];
        }
      }
      forall i | 0 <= i < |added| && added[i].id == k && (forall j | i < j < |added| :: added[j].id != k)
        ensures AddCredentials(c, added)[k] == Credential(added[i].username, added[i].password)
      {
        if i < |init| {
          assert added[|added| - 1].id != k;
          assert init[i] == added[i];
          assert forall j | i < j < |init| :: init[j] == added[j];
        }
      }
    }
  }

  /** The credential map after a sync: an id is present iff it was present
      or added and is not deleted (deleting an unknown id does nothing); an
      update changes only the password, and only of an id present after
      the deletions, so it never creates an entry. */
  lemma ApplyCredentialsEffect(c: map<string, Credential>, d: CredentialsDelta, k: string)
    ensures k in ApplyCredentials(c, d) <==>
              (k in c || exists i | 0 <= i < |d.added| :: d.added[i].id == k) && k !in d.deleted
    ensures k in ApplyCredentials(c, d) ==>
              ApplyCredentials(c, d)[k].username == AddCredentials(c, d.added)[k].username &&
              ApplyCredentials(c, d)[k].password ==
                if k in d.updated then d.updated[k] else AddCredentials(c, d.added)[k].password
    ensures (forall i | 0 <= i < |d.added| :: d.added[i].id != k) && k in c && k !in d.deleted && k !in d.updated ==>
              ApplyCredentials(c, d)[k] == c[k]
  {
    AddCredentialsEffect(c, d.added, k);
  }

  /** The 'added' ports: each goes into its service's process only when
      the table has that process; no entry is created or loses a port,
      and nothing but the port maps changes. */
  lemma {:induction false} AddPortsEffect(t: Table, added: seq<AddedPort>, k: string, q: string)
    ensures AddPorts(t, added).Keys == t.Keys
    ensures k in t ==> AddPorts(t, added)[k].(ports := t[k].ports) == t[k]
    ensures k in t ==> (q in AddPorts(t, added)[k].ports <==>
                          q in t[k].ports || exists i | 0 <= i < |added| :: added[i].serviceId == k && added[i].id == q)
  {
    if |added| > 0 {
      var init := added[..|added| - 1];
      AddPortsEffect(t, init, k, q);
      if exists i | 0 <= i < |added| :: added[i].serviceId == k && added[i].id == q {
        var i :| 0 <= i < |added| && added[i].serviceId == k && added[i].id == q;
        if i < |init| {
          assert init[i] == added[i];
        }
      }
      if exists i | 0 <= i < |init| :: init[i].serviceId == k && init[i].id == q {
        var i :| 0 <= i < |init| && init[i].serviceId == k && init[i].id == q;
        assert added[i] == init[i];
      }
    }
  }

  /** The chap-secrets lines, each followed by a newline. */
  function Terminated(lines: seq<string>): string
  {
    if |lines| == 0 then "" else Terminated(lines[..|lines| - 1]) + lines[|lines| - 1] + "\n"
  }

  lemma {:induction false} JoinTerminated(lines: seq<string>)
    requires |lines| > 0
    ensures Join(lines, "\n") + "\n" == Terminated(lines)
  {
    var init := lines[..|lines| - 1];
    if |init| > 0 {
      JoinTerminated(init);
      assert init + [lines[|lines| - 1]] == lines;
      JoinSnoc(init, "\n", lines[|lines| - 1]);
    }
  }

  /** The chap-secrets file ends every line with a newline and then holds
      one empty line; with no line at all it is a single newline. */
  lemma SecretsTextLayout(lines: seq<string>)
    ensures SecretsText(lines) == Terminated(lines) + "\n"
    ensures lines == [] ==> SecretsText(lines) == "\n"
  {
    if |lines| > 0 {
      JoinTerminated(lines);
      JoinSnoc(lines, "\n", "\n");
    }
  }

  /** What a completed rewrite guarantees: the deleted ports have no line
      and are not among the disconnected ones; every disconnected port has
      a line; the file is written first, and only connection kills
      follow. */
  lemma RewrittenSeparates(t: Table, c: map<string, Credential>, deleted: seq<string>, updated: map<string, string>,
                           order: seq<Entry>, disconnects: seq<Entry>, deletes: seq<Entry>,
                           secrets: string, trace: seq<Action>, t': Table)
    requires Rewritten(t, c, deleted, updated, order, disconnects, deletes, secrets, trace, t')
    ensures forall i | 0 <= i < |order| :: order[i].1 !in deleted
    ensures forall i | 0 <= i < |disconnects| :: disconnects[i].1 !in deleted && disconnects[i] in order
    ensures forall i | 0 <= i < |deletes| :: deletes[i].1 in deleted
    ensures |trace| > 0 && trace[0] == WriteSecrets(secrets)
    ensures forall i | 1 <= i < |trace| :: trace[i].KillConnection?
    ensures forall k | k in t' :: forall p | p in t'[k].ports :: p !in deleted
  {
    forall i | 0 <= i < |order|
      ensures order[i].1 !in deleted
    {
      assert order[i] in LiveEntries(t, deleted);
    }
    forall i | 0 <= i < |disconnects|
      ensures disconnects[i].1 !in deleted && disconnects[i] in order
    {
      assert disconnects[i] in DisconnectedIn(t, deleted, updated, t.Keys);
      assert disconnects[i] in LiveEntries(t, deleted);
    }
    forall i | 0 <= i < |deletes|
      ensures deletes[i].1 in deleted
    {
      assert deletes[i] in DeletedEntries(t, deleted);
    }
    KillsAreConnectionKills(t, disconnects);
    KillsAreConnectionKills(t, deletes);
  }

  lemma {:induction false} KillsAreConnectionKills(t: Table, entries: seq<Entry>)
    ensures forall a | a in Kills(t, entries) :: a.KillConnection?
  {
    if |entries| > 0 {
      KillsAreConnectionKills(t, entries[..|entries| - 1]);
    }
  }

  // ---------------------------------------------------------------------
  // Applying the same delta twice

  /** The 'added' list holds a service record that starts the process
      filed under `k`. */
  predicate StartedByAdded(added: seq<AddedService>, namespaces: map<string, string>, k: string)
  {
    exists i | 0 <= i < |added| :: added[i].id == k && Startable(added[i], namespaces) && added[i].adminStateUp
  }

  predicate StartableId(added: seq<AddedService>, namespaces: map<string, string>, k: string)
  {
    exists i | 0 <= i < |added| :: added[i].id == k && Startable(added[i], namespaces)
  }

  /** Every process the delta starts, by an added record or by the
      'enabled' list, is enabled and running. */
  predicate Settled(t: Table, added: seq<AddedService>, enabled: seq<string>, namespaces: map<string, string>)
  {
    forall k | k in t && (k in enabled || StartedByAdded(added, namespaces, k)) :: t[k].enabled && t[k].running
  }

  /** A process some added record starts is in the table afterwards,
      enabled and running, whatever records follow. */
  lemma {:induction false} AddServicesStarts(t: Table, added: seq<AddedService>, namespaces: map<string, string>, k: string)
    requires StartedByAdded(added, namespaces, k)
    ensures k in AddServices(t, added, namespaces).table
    ensures AddServices(t, added, namespaces).table[k].enabled && AddServices(t, added, namespaces).table[k].running
  {
    var init := added[..|added| - 1];
    var i :| 0 <= i < |added| && added[i].id == k && Startable(added[i], namespaces) && added[i].adminStateUp;
    if i < |init| {
      assert init[i] == added[i];
      AddServicesStarts(t, init, namespaces, k);
    }
  }

  /** Starting the added services again leaves alone a process that is
      already running, or that no added record starts. */
  lemma {:induction false} AddServicesKeeps(t: Table, added: seq<AddedService>, namespaces: map<string, string>, k: string)
    requires k in t
    requires (t[k].enabled && t[k].running) || !StartedByAdded(added, namespaces, k)
    ensures k in AddServices(t, added, namespaces).table
    ensures AddServices(t, added, namespaces).table[k] == t[k]
  {
    if |added| > 0 {
      var init := added[..|added| - 1];
      if StartedByAdded(init, namespaces, k) {
        var i :| 0 <= i < |init| && init[i].id == k && Startable(init[i], namespaces) && init[i].adminStateUp;
        assert added[i] == init[i];
      }
      AddServicesKeeps(t, init, namespaces, k);
      if added[|added| - 1].id == k && Startable(added[|added| - 1], namespaces) && added[|added| - 1].adminStateUp {
        assert StartedByAdded(added, namespaces, k);
      }
    }
  }

  /** After the services part of a delta every process it starts is
      running, and every record it could start has a process. */
  lemma EnabledSettled(t: Table, added: seq<AddedService>, enabled: seq<string>, namespaces: map<string, string>)
    ensures Settled(EnableServices(AddServices(t, added, namespaces).table, enabled).table, added, enabled, namespaces)
    ensures forall k | StartableId(added, namespaces, k) :: k in EnableServices(AddServices(t, added, namespaces).table, enabled).table
  {
    var a := AddServices(t, added, namespaces).table;
    var e := EnableServices(a, enabled).table;
    forall k | k in e && (k in enabled || StartedByAdded(added, namespaces, k))
      ensures e[k].enabled && e[k].running
    {
      EnableServicesEffect(a, enabled, k);
      if StartedByAdded(added, namespaces, k) {
        AddServicesStarts(t, added, namespaces, k);
      }
    }
    forall k | StartableId(added, namespaces, k)
      ensures k in e
    {
      AddServicesEffect(t, added, namespaces, k);
      EnableServicesEffect(a, enabled, k);
    }
  }

  /** Running the services part again over a settled table keeps each of
      its processes as it is and adds only processes for startable
      records. */
  lemma Restarted(t: Table, added: seq<AddedService>, enabled: seq<string>, namespaces: map<string, string>)
    requires Settled(t, added, enabled, namespaces)
    ensures forall k | k in t ::
              k in EnableServices(AddServices(t, added, namespaces).table, enabled).table &&
              EnableServices(AddServices(t, added, namespaces).table, enabled).table[k] == t[k]
    ensures forall k | k in EnableServices(AddServices(t, added, namespaces).table, enabled).table ::
              k in t || StartableId(added, namespaces, k)
  {
    var a := AddServices(t, added, namespaces).table;
    var e := EnableServices(a, enabled).table;
    forall k | k in t
      ensures k in e && e[k] == t[k]
    {
      AddServicesKeeps(t, added, namespaces, k);
      EnableServicesEffect(a, enabled, k);
    }
    forall k | k in e
      ensures k in t || StartableId(added, namespaces, k)
    {
      EnableServicesEffect(a, enabled, k);
      AddServicesEffect(t, added, namespaces, k);
    }
  }

  /** The ports the 'added' list files under the process `k`, the last
      record for a port id winning. */
  function PortsAdded(added: seq<AddedPort>, k: string): map<string, Port>
  {
    if |added| == 0 then map[]
    else
      var a := added[|added| - 1];
      if a.serviceId == k then PortsAdded(added[..|added| - 1], k)[a.id := NewPort(a.ip, a.credentialId)]
      else PortsAdded(added[..|added| - 1], k)
  }

  /** Adding ports overwrites each process's port map with the ports added
      under it, each holding unknown connection states. */
  lemma {:induction false} AddPortsValue(t: Table, added: seq<AddedPort>, k: string)
    requires k in t
    ensures k in AddPorts(t, added)
    ensures AddPorts(t, added)[k] == t[k].(ports := t[k].ports + PortsAdded(added, k))
  {
    if |added| > 0 {
      var init := added[..|added| - 1];
      var a := added[|added| - 1];
      AddPortsValue(t, init, k);
      AddPortsEffect(t, init, k, "");
      if a.serviceId == k {
        var v := NewPort(a.ip, a.credentialId);
        assert (t[k].ports + PortsAdded(init, k))[a.id := v] == t[k].ports + PortsAdded(init, k)[a.id := v];
      }
    }
  }

  /** Adding the same ports twice is adding them once. */
  lemma AddPortsTwice(t: Table, added: seq<AddedPort>)
    ensures AddPorts(AddPorts(t, added), added) == AddPorts(t, added)
  {
    var once := AddPorts(t, added);
    AddPortsEffect(t, added, "", "");
    AddPortsEffect(once, added, "", "");
    forall k | k in t
      ensures AddPorts(once, added)[k] == once[k]
    {
      AddPortsValue(t, added, k);
      AddPortsValue(once, added, k);
      var m := PortsAdded(added, k);
      assert t[k].ports + m + m == t[k].ports + m;
    }
  }

  /** Re-adding the ports to the table a sync left, and dropping the
      deleted ones again, gives that table back. */
  lemma AddPortsAfterSync(t: Table, added: seq<AddedPort>, deleted: seq<string>)
    ensures WithoutPorts(AddPorts(WithoutPorts(AddPorts(t, added), deleted), added), deleted) ==
            WithoutPorts(AddPorts(t, added), deleted)
    ensures LiveEntries(AddPorts(WithoutPorts(AddPorts(t, added), deleted), added), deleted) ==
            LiveEntries(AddPorts(t, added), deleted)
  {
    var once := AddPorts(t, added);
    var synced := WithoutPorts(once, deleted);
    var again := AddPorts(synced, added);
    AddPortsEffect(t, added, "", "");
    AddPortsEffect(synced, added, "", "");
    forall k | k in t
      ensures WithoutPorts(again, deleted)[k] == synced[k]
    {
      AddPortsValue(t, added, k);
      AddPortsValue(synced, added, k);
      var m := PortsAdded(added, k);
      var p := t[k].ports + m;
      var live := map q | q in p && q !in deleted :: p[q];
      assert (map q | q in live + m && q !in deleted :: (live + m)[q]) == live;
    }
    forall e | e in LiveEntries(again, deleted)
      ensures e in LiveEntries(once, deleted)
    {
      assert e.1 in WithoutPorts(again, deleted)[e.0].ports;
    }
    forall e | e in LiveEntries(once, deleted)
      ensures e in LiveEntries(again, deleted)
    {
      assert e.1 in synced[e.0].ports;
    }
  }

  /** Applying the same credentials delta twice is applying it once. */
  lemma {:induction false} AddCredentialsOver(c: map<string, Credential>, c': map<string, Credential>,
                                              added: seq<AddedCredential>, k: string)
    requires exists i | 0 <= i < |added| :: added[i].id == k
    ensures k in AddCredentials(c, added) && k in AddCredentials(c', added)
    ensures AddCredentials(c, added)[k] == AddCredentials(c', added)[k]
  {
    var init := added[..|added| - 1];
    if added[|added| - 1].id != k {
      var i :| 0 <= i < |added| && added[i].id == k;
      assert init[i] == added[i];
      AddCredentialsOver(c, c', init, k);
    }
  }

  lemma ApplyCredentialsTwice(c: map<string, Credential>, d: CredentialsDelta)
    ensures ApplyCredentials(ApplyCredentials(c, d), d) == ApplyCredentials(c, d)
  {
    var once := ApplyCredentials(c, d);
    var twice := ApplyCredentials(once, d);
    forall k
      ensures k in twice <==> k in once
      ensures k in once ==> twice[k] == once[k]
    {
      ApplyCredentialsEffect(c, d, k);
      ApplyCredentialsEffect(once, d, k);
      AddCredentialsEffect(c, d.added, k);
      AddCredentialsEffect(once, d.added, k);
      if exists i | 0 <= i < |d.added| :: d.added[i].id == k {
        AddCredentialsOver(c, once, d.added, k);
      }
    }
  }

  /** The process table a sync leaves: with the deleted ports removed when
      it completes, as staged when it stops part-way. */
  function SyncedTable(st: Staged, deleted: seq<string>): Table
  {
    if st.failure.None? then WithoutPorts(st.table, deleted) else st.table
  }

  /** The services part of a delta, run again over a table whose
      processes are those it left (with any ports), changes nothing. */
  lemma ServicesAgain(t: Table, s: ServicesDelta, namespaces: map<string, string>, x: Table)
    requires var e1 := EnableServices(AddServices(t, s.added, namespaces).table, s.enabled).table;
             var d1 := StopServices(e1, s.deleted, true).table;
             x.Keys == d1.Keys && forall k | k in x :: x[k].(ports := d1[k].ports) == d1[k]
    ensures StopServices(EnableServices(AddServices(x, s.added, namespaces).table, s.enabled).table, s.deleted, true).table == x
  {
    var e1 := EnableServices(AddServices(t, s.added, namespaces).table, s.enabled).table;
    var d1 := StopServices(e1, s.deleted, true).table;
    EnabledSettled(t, s.added, s.enabled, namespaces);
    forall k | k in d1
      ensures k in e1 && k !in s.deleted && d1[k] == e1[k]
    {
      DeleteServicesEffect(e1, s.deleted, k);
    }
    assert Settled(x, s.added, s.enabled, namespaces);
    Restarted(x, s.added, s.enabled, namespaces);
    var e2 := EnableServices(AddServices(x, s.added, namespaces).table, s.enabled).table;
    var d2 := StopServices(e2, s.deleted, true).table;
    forall k
      ensures k in d2 <==> k in x
      ensures k in x ==> d2[k] == x[k]
    {
      DeleteServicesEffect(e2, s.deleted, k);
      DeleteServicesEffect(e1, s.deleted, k);
    }
  }

  /** Two tables that agree once the deleted ports are dropped give the
      same chap-secrets lines for every walk of their surviving ports. */
  lemma SameLiveLines(t: Table, t': Table, c: map<string, Credential>, deleted: seq<string>)
    requires WithoutPorts(t', deleted) == WithoutPorts(t, deleted)
    ensures LiveEntries(t', deleted) == LiveEntries(t, deleted)
    ensures CredentialsCover(t', c, deleted) == CredentialsCover(t, c, deleted)
    ensures forall order | Enumerates(order, LiveEntries(t, deleted)) && CredentialsKnown(t, c, order) ::
              CredentialsKnown(t', c, order) && SecretLines(t', c, order) == SecretLines(t, c, order)
  {
    var w := WithoutPorts(t, deleted);
    forall e | e in LiveEntries(t, deleted)
      ensures e in LiveEntries(t', deleted) && t'[e.0].ports[e.1] == t[e.0].ports[e.1]
    {
      var (k, q) := e;
      assert q in w[k].ports;
      assert k in WithoutPorts(t', deleted) && q in WithoutPorts(t', deleted)[k].ports;
      assert k in t' && q in t'[k].ports && q !in deleted;
      assert (k, q) in LiveIn(t', deleted, t'.Keys);
    }
    forall e | e in LiveEntries(t', deleted)
      ensures e in LiveEntries(t, deleted)
    {
      var (k, q) := e;
      assert q in WithoutPorts(t', deleted)[k].ports;
      assert k in w && q in w[k].ports;
      assert k in t && q in t[k].ports && q !in deleted;
      assert (k, q) in LiveIn(t, deleted, t.Keys);
    }
    forall order | Enumerates(order, LiveEntries(t, deleted)) && CredentialsKnown(t, c, order)
      ensures CredentialsKnown(t', c, order) && SecretLines(t', c, order) == SecretLines(t, c, order)
    {
      assert forall i | 0 <= i < |order| :: order[i] in LiveEntries(t, deleted);
    }
  }

  /** A delta delivered twice: the second sync ends as the first did, with
      the same outcome, process table and credentials, and when it
      completes it writes the same chap-secrets lines for the same walk
      order. */
  lemma SyncTwiceIsStable(t: Table, c: map<string, Credential>, d: Delta, namespaces: map<string, string>)
    ensures var first := Stage(t, c, d, namespaces);
            var second := Stage(SyncedTable(first, d.ports.deleted), first.credentials, d, namespaces);
            second.failure == first.failure && second.credentials == first.credentials &&
            SyncedTable(second, d.ports.deleted) == SyncedTable(first, d.ports.deleted)
    ensures var first := Stage(t, c, d, namespaces);
            var second := Stage(SyncedTable(first, d.ports.deleted), first.credentials, d, namespaces);
            first.failure.None? ==>
              LiveEntries(second.table, d.ports.deleted) == LiveEntries(first.table, d.ports.deleted) &&
              forall order | Enumerates(order, LiveEntries(first.table, d.ports.deleted)) &&
                             CredentialsKnown(first.table, first.credentials, order) ::
                CredentialsKnown(second.table, second.credentials, order) &&
                SecretsText(SecretLines(second.table, second.credentials, order)) ==
                SecretsText(SecretLines(first.table, first.credentials, order))
  {
    var s := d.services;
    var first := Stage(t, c, d, namespaces);
    var t1 := SyncedTable(first, d.ports.deleted);
    var second := Stage(t1, first.credentials, d, namespaces);
    var e1 := EnableServices(AddServices(t, s.added, namespaces).table, s.enabled).table;
    if |s.disabled| > 0 {
      EnabledSettled(t, s.added, s.enabled, namespaces);
      Restarted(e1, s.added, s.enabled, namespaces);
      assert second.table == e1;
    } else {
      var d1 := StopServices(e1, s.deleted, true).table;
      var p1 := AddPorts(d1, d.ports.added);
      assert t1.Keys == d1.Keys && forall k | k in t1 :: t1[k].(ports := d1[k].ports) == d1[k] by {
        forall k | k in d1
          ensures k in t1 && t1[k].(ports := d1[k].ports) == d1[k]
        {
          AddPortsEffect(d1, d.ports.added, k, "");
        }
        AddPortsEffect(d1, d.ports.added, "", "");
      }
      ServicesAgain(t, s, namespaces, t1);
      ApplyCredentialsTwice(c, d.credentials);
      assert second.table == AddPorts(t1, d.ports.added);
      if first.failure.None? {
        AddPortsAfterSync(d1, d.ports.added, d.ports.deleted);
        SameLiveLines(p1, second.table, first.credentials, d.ports.deleted);
      } else {
        AddPortsTwice(d1, d.ports.added);
      }
    }
  }

  // ---------------------------------------------------------------------
  // Two defects of `sync_from_server`, each as written and as intended

  /** As written, a non-empty 'disabled' list ends the sync at its first
      id: the services added and enabled before stay applied, while the
      deleted services, the credentials and the ports of the delta are
      never applied. */
  lemma DisabledStopsTheSync(t: Table, c: map<string, Credential>, d: Delta, namespaces: map<string, string>)
    requires |d.services.disabled| > 0
    ensures Stage(t, c, d, namespaces).failure == Some(UnexpectedKeyword)
    ensures Stage(t, c, d, namespaces).credentials == c
    ensures Stage(t, c, d, namespaces).table ==
              EnableServices(AddServices(t, d.services.added, namespaces).table, d.services.enabled).table
  {
  }

  /** The sync as evidently intended: a disabled service is stopped and
      kept (`delete=False`), and the sync goes on. */
  function StageIntended(t: Table, c: map<string, Credential>, d: Delta, namespaces: map<string, string>): Staged
  {
    var added := AddServices(t, d.services.added, namespaces);
    var enabled := EnableServices(added.table, d.services.enabled);
    var disabled := StopServices(enabled.table, d.services.disabled, false);
    var deleted := StopServices(disabled.table, d.services.deleted, true);
    var c' := ApplyCredentials(c, d.credentials);
    var t' := AddPorts(deleted.table, d.ports.added);
    Staged(t', c', added.trace + enabled.trace + disabled.trace + deleted.trace,
           if CredentialsCover(t', c', d.ports.deleted) then None else Some(UnknownCredential))
  }

  /** With the intended call, a disabled service that is not also deleted
      stays in the table, disabled and not running; a deleted one is gone;
      and the credentials of the delta are applied. */
  lemma StageIntendedDisables(t: Table, c: map<string, Credential>, d: Delta, namespaces: map<string, string>, k: string)
    requires k in EnableServices(AddServices(t, d.services.added, namespaces).table, d.services.enabled).table
    ensures StageIntended(t, c, d, namespaces).credentials == ApplyCredentials(c, d.credentials)
    ensures k in d.services.disabled && k !in d.services.deleted ==>
              k in StageIntended(t, c, d, namespaces).table &&
              !StageIntended(t, c, d, namespaces).table[k].enabled && !StageIntended(t, c, d, namespaces).table[k].running
    ensures k in d.services.deleted ==> k !in StageIntended(t, c, d, namespaces).table
  {
    var enabled := EnableServices(AddServices(t, d.services.added, namespaces).table, d.services.enabled).table;
    var disabled := StopServices(enabled, d.services.disabled, false).table;
    var deleted := StopServices(disabled, d.services.deleted, true).table;
    DisableServicesEffect(enabled, d.services.disabled, k);
    DeleteServicesEffect(disabled, d.services.deleted, k);
    AddPortsEffect(deleted, d.ports.added, k, "");
  }

  /** The ports the sync should disconnect: those `DisconnectedEntries`
      picks, except ports added by this same delta, which the test of
      `port_id` against 'added' was meant to skip. */
  function IntendedDisconnects(t: Table, d: Delta): (r: set<Entry>)
    ensures forall i | 0 <= i < |d.ports.added| :: (d.ports.added[i].serviceId, d.ports.added[i].id) !in r
    ensures r <= DisconnectedEntries(t, d)
    ensures forall e | e in DisconnectedEntries(t, d) && (forall i | 0 <= i < |d.ports.added| :: d.ports.added[i].id != e.1) :: e in r
  {
    set e | e in DisconnectedEntries(t, d) && forall i | 0 <= i < |d.ports.added| :: d.ports.added[i].id != e.1
  }

  /** As written, `port_id not in ports['added']` compares a port id with
      (port id, port) pairs and always holds: a port added by a delta that
      also updates its credential's password is disconnected right after
      being added, where the intended test skips it. */
  lemma AddedPortIsDisconnected(t: Table, d: Delta)
    requires |d.ports.added| > 0
    requires d.ports.added[|d.ports.added| - 1].serviceId in t
    requires d.ports.added[|d.ports.added| - 1].id !in d.ports.deleted
    requires d.ports.added[|d.ports.added| - 1].credentialId in d.credentials.updated
    ensures var a := d.ports.added[|d.ports.added| - 1];
            (a.serviceId, a.id) in DisconnectedEntries(AddPorts(t, d.ports.added), d) &&
            (a.serviceId, a.id) !in IntendedDisconnects(AddPorts(t, d.ports.added), d)
  {
    var a := d.ports.added[|d.ports.added| - 1];
    var before := AddPorts(t, d.ports.added[..|d.ports.added| - 1]);
    AddPortsEffect(t, d.ports.added[..|d.ports.added| - 1], "", "");
    var t' := AddPorts(t, d.ports.added);
    assert t' == AddPortStep(before, a);
    assert a.id in t'[a.serviceId].ports && t'[a.serviceId].ports[a.id].credentialId == a.credentialId;
    assert (a.serviceId, a.id) in DisconnectedIn(t', d.ports.deleted, d.credentials.updated, t'.Keys);
  }

  /** What `check_and_report` says about one process. */
  datatype ProcessStatus = ProcessStatus(enabled: bool, active: bool, ports: set<string>)

  /** One `report_status` message cast to the server. */
  datatype StatusReport = StatusReport(
    host: string,
    processes: map<string, ProcessStatus>,
    credentials: map<string, Credential>,
    updatedPorts: map<string, bool>)

  // ---------------------------------------------------------------------
  // The status timer

  /** Whether the timer restarts the process: it is enabled but its pptpd
      is not running. */
  predicate NeedsRestart(p: ProcState)
  {
    p.enabled && !p.running
  }

  /** One process after the timer has visited it: restarted if it needed
      it, then polled. */
  function Ticked(p: ProcState): (r: ProcState)
    ensures r.enabled == p.enabled && (r.enabled ==> r.running) && (!NeedsRestart(p) ==> r.running == p.running)
    ensures r.ports.Keys == p.ports.Keys && r.connectedIps == p.connectedIps
    ensures forall q | q in p.ports :: r.ports[q] == Observed(p.ports[q], p.connectedIps)
  {
    var healed := if NeedsRestart(p) then Started(p) else p;
    healed.(ports := PolledPorts(p.ports, p.connectedIps))
  }

  function StatusOf(p: ProcState): ProcessStatus
  {
    ProcessStatus(p.enabled, p.running, p.ports.Keys)
  }

  /** The table after one run of the timer; which order the processes are
      visited in does not matter for it. */
  function TickedTable(t: Table): Table
  {
    map k | k in t :: Ticked(t[k])
  }

  /** The per-process status of a report. */
  function Statuses(t: Table): map<string, ProcessStatus>
  {
    map k | k in t :: StatusOf(Ticked(t[k]))
  }

  /** The table part-way through a run of the timer, once it has visited
      the processes in `visited`. */
  function PartlyTicked(t: Table, visited: set<string>): Table
  {
    map k | k in t :: if k in visited then Ticked(t[k]) else t[k]
  }

  function PartialStatuses(t: Table, visited: set<string>): map<string, ProcessStatus>
  {
    map k | k in t && k in visited :: StatusOf(Ticked(t[k]))
  }

  /** Visiting one more process changes only its own entry. */
  lemma VisitOneMore(t: Table, visited: set<string>, k: string)
    requires k in t && k !in visited
    ensures PartlyTicked(t, visited)[k] == t[k]
    ensures PartlyTicked(t, visited + {k}) == PartlyTicked(t, visited)[k := Ticked(t[k])]
    ensures PartialStatuses(t, visited + {k}) == PartialStatuses(t, visited)[k := StatusOf(Ticked(t[k]))]
  {
  }

  lemma VisitedAll(t: Table)
    ensures PartlyTicked(t, {}) == t
    ensures PartlyTicked(t, t.Keys) == TickedTable(t)
    ensures PartialStatuses(t, t.Keys) == Statuses(t)
  {
  }

  /** The spawns of one run of the timer, visiting the processes in
      `order`. */
  function Restarts(t: Table, order: seq<string>): seq<Action>
  {
    if |order| == 0 then []
    else
      var k := order[|order| - 1];
      Restarts(t, order[..|order| - 1]) + (if k in t && NeedsRestart(t[k]) then [Spawn(k)] else [])
  }

  /** The `updated_ports` of a report: each process's poll merged into
      one map in visiting order, a later process's entry winning. */
  function UpdatedPorts(t: Table, order: seq<string>): map<string, bool>
  {
    if |order| == 0 then map[]
    else
      var k := order[|order| - 1];
      UpdatedPorts(t, order[..|order| - 1]) + (if k in t then Transitions(t[k].ports, t[k].connectedIps) else map[])
  }

  lemma VisitSnoc(t: Table, order: seq<string>, k: string)
    ensures Restarts(t, order + [k]) == Restarts(t, order) + (if k in t && NeedsRestart(t[k]) then [Spawn(k)] else [])
    ensures UpdatedPorts(t, order + [k]) ==
              UpdatedPorts(t, order) + (if k in t then Transitions(t[k].ports, t[k].connectedIps) else map[])
  {
    assert (order + [k])[..|order|] == order;
  }

  /** What a run of the timer has built once it has visited the
      processes in `visited`, in the order `order`, with `left` still to
      visit. */
  ghost predicate TimerProgress(t: Table, left: set<string>, visited: set<string>, order: seq<string>,
                                trace: seq<Action>, updatedPorts: map<string, bool>,
                                statuses: map<string, ProcessStatus>)
  {
    left !! visited && left + visited == t.Keys && Enumerates(order, visited) &&
    statuses == PartialStatuses(t, visited) && trace == Restarts(t, order) && updatedPorts == UpdatedPorts(t, order)
  }

  lemma TimerStep(t: Table, left: set<string>, visited: set<string>, order: seq<string>,
                  trace: seq<Action>, updatedPorts: map<string, bool>, statuses: map<string, ProcessStatus>,
                  k: string)
    requires TimerProgress(t, left, visited, order, trace, updatedPorts, statuses) && k in left
    ensures TimerProgress(t, left - {k}, visited + {k}, order + [k],
                          trace + (if NeedsRestart(t[k]) then [Spawn(k)] else []),
                          updatedPorts + Transitions(t[k].ports, t[k].connectedIps),
                          statuses[k := StatusOf(Ticked(t[k]))])
  {
    VisitOneMore(t, visited, k);
    VisitSnoc(t, order, k);
    EnumeratesAppend(order, visited, k);
  }

  /** The timer spawns exactly the visited processes that are enabled and
      not running, each once. */
  lemma {:induction false} RestartsAreTheDead(t: Table, order: seq<string>, a: Action)
    ensures a in Restarts(t, order) <==> a.Spawn? && a.serviceId in order && a.serviceId in t && NeedsRestart(t[a.serviceId])
  {
    if |order| > 0 {
      var k := order[|order| - 1];
      RestartsAreTheDead(t, order[..|order| - 1], a);
      assert forall x :: x in order <==> x in order[..|order| - 1] || x == k;
    }
  }

  /** A port appears in the report exactly when its state changed in
      some visited process. */
  lemma {:induction false} UpdatedPortsAreTransitions(t: Table, order: seq<string>, q: string)
    ensures q in UpdatedPorts(t, order) <==>
              exists i | 0 <= i < |order| :: order[i] in t && q in Transitions(t[order[i]].ports, t[order[i]].connectedIps)
  {
    if |order| > 0 {
      var init := order[..|order| - 1];
      UpdatedPortsAreTransitions(t, init, q);
      if q in UpdatedPorts(t, order) && q !in UpdatedPorts(t, init) {
        assert order[|order| - 1] in t;
      }
      if exists i | 0 <= i < |order| :: order[i] in t && q in Transitions(t[order[i]].ports, t[order[i]].connectedIps) {
        var i :| 0 <= i < |order| && order[i] in t && q in Transitions(t[order[i]].ports, t[order[i]].connectedIps);
        if i < |init| {
          assert init[i] == order[i];
        }
      }
    }
  }

  /** A second run of the timer, with nothing changed on the system in
      between, spawns nothing and reports no port. */
  lemma {:induction false} SecondTickIsQuiet(t: Table, order: seq<string>)
    ensures Restarts(TickedTable(t), order) == []
    ensures UpdatedPorts(TickedTable(t), order) == map[]
  {
    if |order| > 0 {
      var k := order[|order| - 1];
      SecondTickIsQuiet(t, order[..|order| - 1]);
      if k in t {
        RepeatPollIsQuiet(t[k].ports, t[k].connectedIps);
      }
    }
  }

  /** Walks the ports of the process filed under `serviceId`, in the
      order its port map yields them. Ports listed in `deleted` go to
      `toDelete`; every other port gets a chap-secrets line, after going to
      `toDisconnect` when its credential id is in `updated`. `ok` is false
      when a port that gets a line names a credential the agent does not
      have: the walk raises there. */
  method CollectPorts(serviceId: string, ports: map<string, Port>, credentials: map<string, Credential>,
                      deleted: seq<string>, updated: map<string, string>)
    returns (ok: bool, lines: seq<string>, toDisconnect: seq<string>, toDelete: seq<string>, ghost live: seq<string>)
    ensures ok <==> forall q | q in LivePorts(ports, deleted) :: ports[q].credentialId in credentials
    ensures ok ==> Enumerates(live, LivePorts(ports, deleted))
    ensures ok ==> |lines| == |live| &&
                   forall i | 0 <= i < |live| :: live[i] in ports && ports[live[i]].credentialId in credentials &&
                                                 lines[i] == PortLine(serviceId, ports[live[i]], credentials)
    ensures ok ==> Enumerates(toDelete, DeletedPorts(ports, deleted))
    ensures ok ==> Enumerates(toDisconnect, DisconnectedPorts(ports, deleted, updated))
  {
    lines, toDisconnect, toDelete, live := [], [], [], [];
    var left := ports.Keys;
    while left != {}
      invariant left <= ports.Keys
      invariant Enumerates(live, LivePorts(ports, deleted) - left)
      invariant |lines| == |live|
      invariant forall i | 0 <= i < |live| :: live[i] in ports && ports[live[i]].credentialId in credentials &&
                                              lines[i] == PortLine(serviceId, ports[live[i]], credentials)
      invariant Enumerates(toDelete, DeletedPorts(ports, deleted) - left)
      invariant Enumerates(toDisconnect, DisconnectedPorts(ports, deleted, updated) - left)
      decreases left
    {
      var p :| p in left;
      var port := ports[p];
      ghost var doneBefore := left;
      left := left - {p};
      if p in deleted {
        EnumeratesAppend(toDelete, DeletedPorts(ports, deleted) - doneBefore, p);
        assert DeletedPorts(ports, deleted) - left == (DeletedPorts(ports, deleted) - doneBefore) + {p};
        toDelete := toDelete + [p];
        continue;
      } else if port.credentialId in updated {
        EnumeratesAppend(toDisconnect, DisconnectedPorts(ports, deleted, updated) - doneBefore, p);
        assert DisconnectedPorts(ports, deleted, updated) - left ==
               (DisconnectedPorts(ports, deleted, updated) - doneBefore) + {p};
        toDisconnect := toDisconnect + [p];
      }
      if port.credentialId !in credentials {
        ok := false;
        return;
      }
      EnumeratesAppend(live, LivePorts(ports, deleted) - doneBefore, p);
      assert LivePorts(ports, deleted) - left == (LivePorts(ports, deleted) - doneBefore) + {p};
      live := live + [p];
      var credential := credentials[port.credentialId];
      lines := lines + [credential.username + " " + serviceId + " " + credential.password + " " + port.ip];
    }
    ok := true;
    forall q | q in LivePorts(ports, deleted)
      ensures ports[q].credentialId in credentials
    {
      assert q in live;
      var i :| 0 <= i < |live| && live[i] == q;
    }
  }

  /** If every port of an enumeration has a known credential, so does
      every port of the set it enumerates. */
  lemma KnownAlongEnumeration(t: Table, c: map<string, Credential>, deleted: seq<string>, entries: seq<Entry>)
    requires Enumerates(entries, LiveIn(t, deleted, t.Keys)) && CredentialsKnown(t, c, entries)
    ensures CredentialsCover(t, c, deleted)
  {
    forall e | e in LiveEntries(t, deleted)
      ensures t[e.0].ports[e.1].credentialId in c
    {
      var i :| 0 <= i < |entries| && entries[i] == e;
    }
  }

  /** Every port that gets a chap-secrets line names a known credential. */
  predicate CredentialsCover(t: Table, c: map<string, Credential>, deleted: seq<string>)
  {
    forall e | e in LiveEntries(t, deleted) :: t[e.0].ports[e.1].credentialId in c
  }

  /** A surviving port of one process with an unknown credential is a
      surviving port of the table with an unknown credential. */
  lemma MissingCredentialSurfaces(t: Table, c: map<string, Credential>, deleted: seq<string>, k: string)
    requires k in t
    requires !forall q | q in LivePorts(t[k].ports, deleted) :: t[k].ports[q].credentialId in c
    ensures !CredentialsCover(t, c, deleted)
  {
    var q :| q in LivePorts(t[k].ports, deleted) && t[k].ports[q].credentialId !in c;
    assert (k, q) in LiveEntries(t, deleted);
  }

  /** The table with the listed ports removed from their processes. */
  function RemoveEntries(t: Table, entries: seq<Entry>): Table
  {
    map k | k in t :: t[k].(ports := map p | p in t[k].ports && (k, p) !in entries :: t[k].ports[p])
  }

  lemma RemoveEntriesSnoc(t: Table, entries: seq<Entry>, e: Entry)
    requires HasEntry(t, e) && e !in entries
    ensures HasEntry(RemoveEntries(t, entries), e)
    ensures RemoveEntries(t, entries)[e.0].ports[e.1] == t[e.0].ports[e.1]
    ensures RemoveEntries(t, entries + [e]) ==
            RemoveEntries(t, entries)[e.0 := RemoveEntries(t, entries)[e.0].(ports := RemoveEntries(t, entries)[e.0].ports - {e.1})]
  {
    var r := RemoveEntries(t, entries);
    var r' := RemoveEntries(t, entries + [e]);
    assert forall k | k in t :: r'[k].ports == if k == e.0 then r[k].ports - {e.1} else r[k].ports;
  }

  /** Removing an enumeration of the deleted ports removes every port
      listed in 'deleted'. */
  lemma RemoveDeletedEntries(t: Table, deleted: seq<string>, entries: seq<Entry>)
    requires Enumerates(entries, DeletedEntries(t, deleted))
    ensures RemoveEntries(t, entries) == WithoutPorts(t, deleted)
  {
    forall k | k in t
      ensures RemoveEntries(t, entries)[k].ports == WithoutPorts(t, deleted)[k].ports
    {
      forall p | p in t[k].ports
        ensures (k, p) in entries <==> p in deleted
      {
        if p in deleted {
          assert (k, p) in DeletedEntries(t, deleted);
        }
      }
    }
  }

  /** The ports picked for disconnecting and deleting are ports of the
      table. */
  lemma EnumeratedEntriesExist(t: Table, deleted: seq<string>, updated: map<string, string>,
                               disconnects: seq<Entry>, deletes: seq<Entry>)
    requires Enumerates(disconnects, DisconnectedIn(t, deleted, updated, t.Keys))
    requires Enumerates(deletes, DeletedIn(t, deleted, t.Keys))
    ensures forall i | 0 <= i < |disconnects| :: HasEntry(t, disconnects[i])
    ensures forall i | 0 <= i < |deletes| :: HasEntry(t, deletes[i])
  {
    forall i | 0 <= i < |disconnects|
      ensures HasEntry(t, disconnects[i])
    {
      assert disconnects[i] in DisconnectedIn(t, deleted, updated, t.Keys);
    }
    forall i | 0 <= i < |deletes|
      ensures HasEntry(t, deletes[i])
    {
      assert deletes[i] in DeletedIn(t, deleted, t.Keys);
    }
  }

  /** What the walk of `sync_from_server` has built once it has visited
      the processes in `keys`. */
  ghost predicate Collected(t: Table, c: map<string, Credential>, deleted: seq<string>, updated: map<string, string>,
                            keys: set<string>, live: seq<Entry>, lines: seq<string>,
                            toDisconnect: seq<Entry>, toDelete: seq<Entry>)
  {
    Enumerates(live, LiveIn(t, deleted, keys)) && CredentialsKnown(t, c, live) &&
    lines == SecretLines(t, c, live) &&
    Enumerates(toDelete, DeletedIn(t, deleted, keys)) &&
    Enumerates(toDisconnect, DisconnectedIn(t, deleted, updated, keys))
  }

  /** Appending the walk of one more process extends what has been built. */
  lemma CollectedGrow(t: Table, c: map<string, Credential>, deleted: seq<string>, updated: map<string, string>,
                      keys: set<string>, live: seq<Entry>, lines: seq<string>,
                      toDisconnect: seq<Entry>, toDelete: seq<Entry>,
                      k: string, portOrder: seq<string>, more: seq<string>, dis: seq<string>, del: seq<string>)
    requires k in t && k !in keys
    requires Collected(t, c, deleted, updated, keys, live, lines, toDisconnect, toDelete)
    requires Enumerates(portOrder, LivePorts(t[k].ports, deleted))
    requires |more| == |portOrder|
    requires forall i | 0 <= i < |portOrder| ::
               portOrder[i] in t[k].ports && t[k].ports[portOrder[i]].credentialId in c &&
               more[i] == PortLine(k, t[k].ports[portOrder[i]], c)
    requires Enumerates(del, DeletedPorts(t[k].ports, deleted))
    requires Enumerates(dis, DisconnectedPorts(t[k].ports, deleted, updated))
    ensures Collected(t, c, deleted, updated, keys + {k}, live + Tag(k, portOrder), lines + more,
                      toDisconnect + Tag(k, dis), toDelete + Tag(k, del))
  {
    EntriesGrow(t, deleted, updated, keys, k);
    TagEnumerates(k, portOrder, LivePorts(t[k].ports, deleted));
    EnumeratesConcat(live, LiveIn(t, deleted, keys), Tag(k, portOrder), Tagged(k, LivePorts(t[k].ports, deleted)));
    TagEnumerates(k, del, DeletedPorts(t[k].ports, deleted));
    EnumeratesConcat(toDelete, DeletedIn(t, deleted, keys), Tag(k, del), Tagged(k, DeletedPorts(t[k].ports, deleted)));
    TagEnumerates(k, dis, DisconnectedPorts(t[k].ports, deleted, updated));
    EnumeratesConcat(toDisconnect, DisconnectedIn(t, deleted, updated, keys),
                     Tag(k, dis), Tagged(k, DisconnectedPorts(t[k].ports, deleted, updated)));
    var live' := live + Tag(k, portOrder);
    assert CredentialsKnown(t, c, live');
    assert SecretLines(t, c, live') == lines + more;
  }

  /** What rewriting chap-secrets from the table `t` does, once the walk
      has visited the surviving ports in `order`: the file holds their lines
      in that order; the surviving ports whose credential id is in
      `updated` are disconnected, then the deleted ports are disconnected
      and removed (each in some order of its own); `t'` is the table
      afterwards and `trace` what was done to the system. */
  ghost predicate Rewritten(t: Table, c: map<string, Credential>, deleted: seq<string>, updated: map<string, string>,
                            order: seq<Entry>, disconnects: seq<Entry>, deletes: seq<Entry>,
                            secrets: string, trace: seq<Action>, t': Table)
  {
    Enumerates(order, LiveEntries(t, deleted)) && CredentialsKnown(t, c, order) &&
    secrets == SecretsText(SecretLines(t, c, order)) &&
    Enumerates(disconnects, DisconnectedIn(t, deleted, updated, t.Keys)) &&
    Enumerates(deletes, DeletedEntries(t, deleted)) &&
    trace == [WriteSecrets(secrets)] + Kills(t, disconnects) + Kills(t, deletes) &&
    t' == WithoutPorts(t, deleted)
  }

  /** A completed walk, the file written from its lines, the kills of its
      disconnects and deletes, and the deletes removed: a rewrite. */
  lemma CollectedIsRewritten(t: Table, c: map<string, Credential>, deleted: seq<string>, updated: map<string, string>,
                             live: seq<Entry>, lines: seq<string>, toDisconnect: seq<Entry>, toDelete: seq<Entry>,
                             secrets: string, trace: seq<Action>, t': Table)
    requires Collected(t, c, deleted, updated, t.Keys, live, lines, toDisconnect, toDelete)
    requires secrets == SecretsText(lines) && t' == RemoveEntries(t, toDelete)
    requires trace == [WriteSecrets(secrets)] + Kills(t, toDisconnect) + Kills(t, toDelete)
    ensures Rewritten(t, c, deleted, updated, live, toDisconnect, toDelete, secrets, trace, t')
  {
    RemoveDeletedEntries(t, deleted, toDelete);
  }

  /** The walk of `sync_from_server` over the process table `t`, in the
      order the table yields its processes. */
  method CollectTable(t: Table, credentials: map<string, Credential>, deleted: seq<string>, updated: map<string, string>)
    returns (ok: bool, lines: seq<string>, toDisconnect: seq<Entry>, toDelete: seq<Entry>, ghost live: seq<Entry>)
    ensures ok <==> CredentialsCover(t, credentials, deleted)
    ensures ok ==> Collected(t, credentials, deleted, updated, t.Keys, live, lines, toDisconnect, toDelete)
  {
    lines, toDisconnect, toDelete, live := [], [], [], [];
    var pending := t.Keys;
    ghost var done: set<string> := {};
    while pending != {}
      invariant pending <= t.Keys && done == t.Keys - pending
      invariant Collected(t, credentials, deleted, updated, done, live, lines, toDisconnect, toDelete)
      decreases pending
    {
      var k :| k in pending;
      var found, more, dis, del, portOrder := CollectPorts(k, t[k].ports, credentials, deleted, updated);
      if !found {
        ok := false;
        MissingCredentialSurfaces(t, credentials, deleted, k);
        return;
      }
      CollectedGrow(t, credentials, deleted, updated, done, live, lines, toDisconnect, toDelete,
                    k, portOrder, more, dis, del);
      live := live + Tag(k, portOrder);
      lines := lines + more;
      toDelete := toDelete + Tag(k, del);
      toDisconnect := toDisconnect + Tag(k, dis);
      pending := pending - {k};
      done := done + {k};
    }
    ok := true;
    assert done == t.Keys;
    KnownAlongEnumeration(t, credentials, deleted, live);
  }

  /** The PPTP agent driver. */
  class PptpDriver {
    const host: string
    var processes: map<string, PptpProcess>
    var credentials: map<string, Credential>
    /** The content of the chap-secrets file. */
    var secrets: string
    /** The status reports cast so far, oldest first. */
    var reports: seq<StatusReport>

    /** Each process is filed under its own service id, so no two entries
        share a process. */
    ghost predicate Valid()
      reads this`processes, processes.Values
    {
      forall k | k in processes :: processes[k].id == k
    }

    function View(): Table
      reads this`processes, processes.Values
    {
      map k | k in processes :: processes[k].State()
    }

    constructor (host: string)
      ensures Valid() && this.host == host
      ensures processes == map[] && credentials == map[] && reports == []
    {
      this.host := host;
      processes := map[];
      credentials := map[];
      secrets := "";
      reports := [];
    }

    /** `self.processes.get(id)`, or a new process filed under `id` when
        there is none. */
    method GetOrCreateProcess(id: string, localIp: string, namespace: string) returns (process: PptpProcess)
      requires Valid()
      modifies this
      ensures Valid() && fresh(processes.Values - old(processes.Values))
      ensures id in processes && process == processes[id]
      ensures View() == old(View())[id := if id in old(View()) then old(View())[id] else FreshProcess(localIp, namespace)]
      ensures credentials == old(credentials) && secrets == old(secrets) && reports == old(reports)
    {
      if id in processes {
        process := processes[id];
        assert View() == old(View())[id := old(View())[id]];
      } else {
        process := new PptpProcess(id, localIp, namespace);
        processes := processes[id := process];
      }
    }

    /** Creates the service's process unless the table already has one,
        then starts it if it is enabled; nothing happens while the router's
        namespace is not ready. `namespaces` is what the agent answers for
        each router. */
    method StartProcess(routerId: string, processId: string, localIp: string, enabled: bool,
                        namespaces: map<string, string>) returns (trace: seq<Action>)
      requires Valid()
      modifies this, processes.Values
      ensures Valid() && fresh(processes.Values - old(processes.Values))
      ensures View() == StartProcessStep(old(View()), routerId, processId, localIp, enabled, namespaces).table
      ensures trace == StartProcessStep(old(View()), routerId, processId, localIp, enabled, namespaces).trace
      ensures credentials == old(credentials) && secrets == old(secrets) && reports == old(reports)
    {
      trace := [];
      if routerId !in namespaces || namespaces[routerId] == "" {
        return;
      }
      var process := GetOrCreateProcess(processId, localIp, namespaces[routerId]);
      if enabled {
        trace := EnableProcess(processId);
      }
    }

    /** `process.start()` on the process filed under `id`. */
    method EnableProcess(id: string) returns (trace: seq<Action>)
      requires Valid() && id in processes
      modifies processes[id]
      ensures Valid() && processes == old(processes)
      ensures View() == EnableStep(old(View()), id).table
      ensures trace == EnableStep(old(View()), id).trace
    {
      trace := processes[id].Start();
    }

    /** Stops the service's process if there is one, and forgets it when
        `delete` holds. */
    method StopProcess(processId: string, delete: bool) returns (trace: seq<Action>)
      requires Valid()
      modifies this, processes.Values
      ensures Valid() && processes.Values <= old(processes.Values)
      ensures View() == StopProcessStep(old(View()), processId, delete).table
      ensures trace == StopProcessStep(old(View()), processId, delete).trace
      ensures credentials == old(credentials) && secrets == old(secrets) && reports == old(reports)
    {
      trace := [];
      if processId in processes {
        var process := processes[processId];
        trace := process.Stop();
        if delete {
          processes := processes - {processId};
        }
      }
    }

    method StartVpnService(svc: AddedService, namespaces: map<string, string>) returns (trace: seq<Action>)
      requires Valid()
      modifies this, processes.Values
      ensures Valid() && fresh(processes.Values - old(processes.Values))
      ensures View() == StartVpnServiceStep(old(View()), svc, namespaces).table
      ensures trace == StartVpnServiceStep(old(View()), svc, namespaces).trace
      ensures credentials == old(credentials) && secrets == old(secrets) && reports == old(reports)
    {
      trace := [];
      if svc.localIp.Some? && svc.localIp.value != "" {
        trace := StartProcess(svc.routerId, svc.id, svc.localIp.value, svc.adminStateUp, namespaces);
      }
    }

    method StopVpnService(serviceId: string, delete: bool) returns (trace: seq<Action>)
      requires Valid()
      modifies this, processes.Values
      ensures Valid() && processes.Values <= old(processes.Values)
      ensures View() == StopProcessStep(old(View()), serviceId, delete).table
      ensures trace == StopProcessStep(old(View()), serviceId, delete).trace
      ensures credentials == old(credentials) && secrets == old(secrets) && reports == old(reports)
    {
      trace := StopProcess(serviceId, delete);
    }

    /** The 'added' services, in order. */
    method StartAddedServices(added: seq<AddedService>, namespaces: map<string, string>) returns (trace: seq<Action>)
      requires Valid()
      modifies this, processes.Values
      ensures Valid() && fresh(processes.Values - old(processes.Values))
      ensures View() == AddServices(old(View()), added, namespaces).table
      ensures trace == AddServices(old(View()), added, namespaces).trace
      ensures credentials == old(credentials) && secrets == old(secrets) && reports == old(reports)
    {
      trace := [];
      for i := 0 to |added|
        invariant Valid() && fresh(processes.Values - old(processes.Values))
        invariant View() == AddServices(old(View()), added[..i], namespaces).table
        invariant trace == AddServices(old(View()), added[..i], namespaces).trace
        invariant credentials == old(credentials) && secrets == old(secrets) && reports == old(reports)
      {
        var more := StartVpnService(added[i], namespaces);
        assert added[..i + 1][..i] == added[..i];
        trace := trace + more;
      }
      assert added[..|added|] == added;
    }

    /** The 'enabled' services: each one the table has is started. */
    method EnableListed(ids: seq<string>) returns (trace: seq<Action>)
      requires Valid()
      modifies processes.Values
      ensures Valid() && processes == old(processes)
      ensures View() == EnableServices(old(View()), ids).table
      ensures trace == EnableServices(old(View()), ids).trace
    {
      trace := [];
      for i := 0 to |ids|
        invariant Valid() && processes == old(processes)
        invariant View() == EnableServices(old(View()), ids[..i]).table
        invariant trace == EnableServices(old(View()), ids[..i]).trace
      {
        var more: seq<Action> := [];
        if ids[i] in processes {
          more := EnableProcess(ids[i]);
        }
        assert ids[..i + 1][..i] == ids[..i];
        trace := trace + more;
      }
      assert ids[..|ids|] == ids;
    }

    /** The 'deleted' services: each one is stopped and forgotten. */
    method DeleteListed(ids: seq<string>) returns (trace: seq<Action>)
      requires Valid()
      modifies this, processes.Values
      ensures Valid() && processes.Values <= old(processes.Values)
      ensures View() == StopServices(old(View()), ids, true).table
      ensures trace == StopServices(old(View()), ids, true).trace
      ensures credentials == old(credentials) && secrets == old(secrets) && reports == old(reports)
    {
      trace := [];
      for i := 0 to |ids|
        invariant Valid() && processes.Values <= old(processes.Values)
        invariant View() == StopServices(old(View()), ids[..i], true).table
        invariant trace == StopServices(old(View()), ids[..i], true).trace
        invariant credentials == old(credentials) && secrets == old(secrets) && reports == old(reports)
      {
        var more := StopProcess(ids[i], true);
        assert ids[..i + 1][..i] == ids[..i];
        trace := trace + more;
      }
      assert ids[..|ids|] == ids;
    }

    /** The 'added' credentials, each overwriting any entry with its id. */
    method AddListedCredentials(added: seq<AddedCredential>)
      modifies this
      ensures credentials == AddCredentials(old(credentials), added)
      ensures processes == old(processes) && secrets == old(secrets) && reports == old(reports)
    {
      for i := 0 to |added|
        invariant credentials == AddCredentials(old(credentials), added[..i])
        invariant processes == old(processes) && secrets == old(secrets) && reports == old(reports)
      {
        var a := added[i];
        credentials := credentials[a.id := Credential(a.username, a.password)];
        assert added[..i + 1][..i] == added[..i];
      }
      assert added[..|added|] == added;
    }

    /** The 'deleted' credentials, each removed if present. */
    method DropListedCredentials(deleted: seq<string>)
      modifies this
      ensures credentials == DropCredentials(old(credentials), deleted)
      ensures processes == old(processes) && secrets == old(secrets) && reports == old(reports)
    {
      for i := 0 to |deleted|
        invariant credentials == DropCredentials(old(credentials), deleted[..i])
        invariant processes == old(processes) && secrets == old(secrets) && reports == old(reports)
      {
        if deleted[i] in credentials {
          credentials := credentials - {deleted[i]};
        }
        assert forall k :: k in deleted[..i + 1] <==> k in deleted[..i] || k == deleted[i];
      }
      assert deleted[..|deleted|] == deleted;
    }

    /** The 'updated' passwords, in the order the map yields them. */
    method UpdateListedPasswords(updated: map<string, string>)
      modifies this
      ensures credentials == UpdatePasswords(old(credentials), updated)
      ensures processes == old(processes) && secrets == old(secrets) && reports == old(reports)
    {
      var pending := updated.Keys;
      while pending != {}
        invariant pending <= updated.Keys
        invariant credentials == map k | k in old(credentials) ::
                    if k in updated && k !in pending then old(credentials)[k].(password := updated[k]) else old(credentials)[k]
        invariant processes == old(processes) && secrets == old(secrets) && reports == old(reports)
        decreases pending
      {
        var id :| id in pending;
        if id in credentials {
          credentials := credentials[id := credentials[id].(password := updated[id])];
        }
        pending := pending - {id};
      }
    }

    /** Applies the credentials part of a delta to the credential map. */
    method ApplyCredentialsDelta(d: CredentialsDelta)
      modifies this
      ensures credentials == ApplyCredentials(old(credentials), d)
      ensures processes == old(processes) && secrets == old(secrets) && reports == old(reports)
    {
      AddListedCredentials(d.added);
      DropListedCredentials(d.deleted);
      UpdateListedPasswords(d.updated);
    }

    /** The 'added' ports, each recorded in its service's process if the
        table has that process. */
    method AddListedPorts(added: seq<AddedPort>)
      requires Valid()
      modifies processes.Values
      ensures Valid() && processes == old(processes)
      ensures View() == AddPorts(old(View()), added)
    {
      for i := 0 to |added|
        invariant Valid() && processes == old(processes)
        invariant View() == AddPorts(old(View()), added[..i])
      {
        var a := added[i];
        if a.serviceId in processes {
          processes[a.serviceId].AddPort(a.id, a.ip, a.credentialId);
        }
        assert added[..i + 1][..i] == added[..i];
      }
      assert added[..|added|] == added;
    }


    /** Walks every process, building the chap-secrets lines and the ports
        to disconnect and to delete; `ok` is false when a surviving port
        names an unknown credential, where the walk raises. */
    method CollectSecrets(deleted: seq<string>, updated: map<string, string>)
      returns (ok: bool, lines: seq<string>, toDisconnect: seq<Entry>, toDelete: seq<Entry>, ghost live: seq<Entry>)
      ensures ok <==> CredentialsCover(View(), credentials, deleted)
      ensures ok ==> Collected(View(), credentials, deleted, updated, View().Keys, live, lines, toDisconnect, toDelete)
    {
      ok, lines, toDisconnect, toDelete, live := CollectTable(View(), credentials, deleted, updated);
    }

    /** Disconnects the listed ports, one after the other. */
    method DisconnectPorts(entries: seq<Entry>) returns (kills: seq<Action>)
      requires Valid()
      requires forall i | 0 <= i < |entries| :: HasEntry(View(), entries[i])
      ensures kills == Kills(View(), entries)
    {
      kills := [];
      for i := 0 to |entries|
        invariant kills == Kills(View(), entries[..i])
      {
        var e := entries[i];
        assert View()[e.0] == processes[e.0].State();
        var kill := processes[e.0].DisconnectPort(e.1);
        assert kill == DisconnectKill(e.0, View()[e.0], e.1);
        if kill.Some? {
          kills := kills + [kill.value];
        }
        assert entries[..i + 1][..i] == entries[..i];
      }
      assert entries[..|entries|] == entries;
    }

    /** `del_port` on the process filed under `e.0`, stated against the
        table `t` from which the ports `done` have already been removed. */
    method DeleteOnePort(e: Entry, ghost t: Table, ghost done: seq<Entry>) returns (kill: Option<Action>)
      requires e.0 in processes
      requires Valid() && HasEntry(t, e) && e !in done
      requires View() == RemoveEntries(t, done)
      modifies processes[e.0]
      ensures Valid() && processes == old(processes)
      ensures View() == RemoveEntries(t, done + [e])
      ensures kill == DisconnectKill(e.0, t[e.0], e.1)
    {
      RemoveEntriesSnoc(t, done, e);
      ghost var r := RemoveEntries(t, done);
      kill := processes[e.0].DelPort(e.1);
      assert View() == r[e.0 := processes[e.0].State()];
    }

    /** Deletes the listed ports, one after the other, each after
        disconnecting it. */
    method DeletePorts(entries: seq<Entry>) returns (kills: seq<Action>)
      requires Valid()
      requires forall i, j | 0 <= i < j < |entries| :: entries[i] != entries[j]
      requires forall i | 0 <= i < |entries| :: HasEntry(View(), entries[i])
      modifies processes.Values
      ensures Valid() && processes == old(processes)
      ensures kills == Kills(old(View()), entries)
      ensures View() == RemoveEntries(old(View()), entries)
    {
      kills := [];
      ghost var t := View();
      ghost var done: seq<Entry> := [];
      assert forall k | k in t :: t[k].ports == map p | p in t[k].ports && (k, p) !in done :: t[k].ports[p];
      for i := 0 to |entries|
        invariant Valid() && processes == old(processes)
        invariant |done| == i && forall j | 0 <= j < i :: done[j] == entries[j]
        invariant View() == RemoveEntries(t, done)
        invariant kills == Kills(t, done)
      {
        var e := entries[i];
        var kill := DeleteOnePort(e, t, done);
        if kill.Some? {
          kills := kills + [kill.value];
        }
        done := done + [e];
      }
      assert done == entries;
    }

    /** The timer's visit to one process: restart it if it is enabled and
        not active, then poll its ports. It is stated against the table `t`
        the run started from, of which `visited` have been visited. */
    method TickProcess(k: string, ghost t: Table, ghost visited: set<string>)
      returns (trace: seq<Action>, changed: map<string, bool>, status: ProcessStatus)
      requires Valid() && k in processes && k in t && k !in visited
      requires View() == PartlyTicked(t, visited)
      modifies processes[k]
      ensures Valid() && processes == old(processes)
      ensures View() == PartlyTicked(t, visited + {k})
      ensures trace == if NeedsRestart(t[k]) then [Spawn(k)] else []
      ensures changed == Transitions(t[k].ports, t[k].connectedIps)
      ensures status == StatusOf(Ticked(t[k]))
    {
      VisitOneMore(t, visited, k);
      var process := processes[k];
      trace := [];
      if process.enabled && !process.Active() {
        trace := process.Start();
      }
      changed := process.UpdatePortsStatus();
      status := ProcessStatus(process.enabled, process.Active(), process.ports.Keys);
    }

    /** The loop of `check_and_report`: visits every process in the order
        the table yields them. */
    method TickAll() returns (trace: seq<Action>, updatedPorts: map<string, bool>,
                              statuses: map<string, ProcessStatus>, ghost order: seq<string>)
      requires Valid()
      modifies processes.Values
      ensures Valid() && processes == old(processes)
      ensures Enumerates(order, old(View()).Keys)
      ensures View() == TickedTable(old(View()))
      ensures trace == Restarts(old(View()), order)
      ensures updatedPorts == UpdatedPorts(old(View()), order)
      ensures statuses == Statuses(old(View()))
    {
      ghost var t := View();
      VisitedAll(t);
      var left := processes.Keys;
      ghost var visited: set<string> := {};
      statuses, updatedPorts := map[], map[];
      trace, order := [], [];
      while left != {}
        invariant Valid() && processes == old(processes)
        invariant TimerProgress(t, left, visited, order, trace, updatedPorts, statuses)
        invariant View() == PartlyTicked(t, visited)
        decreases left
      {
        var k :| k in left;
        TimerStep(t, left, visited, order, trace, updatedPorts, statuses, k);
        var more, changed, status := TickProcess(k, t, visited);
        left := left - {k};
        visited := visited + {k};
        order := order + [k];
        trace := trace + more;
        updatedPorts := updatedPorts + changed;
        statuses := statuses[k := status];
      }
      assert visited == t.Keys;
    }

    /** `check_and_report`: visits every process, then casts one status
        report carrying the statuses, the credential map and the merged
        port transitions. */
    method CheckAndReport() returns (trace: seq<Action>, ghost order: seq<string>)
      requires Valid()
      modifies this`reports, processes.Values
      ensures Valid() && processes == old(processes)
      ensures Enumerates(order, old(View()).Keys)
      ensures View() == TickedTable(old(View()))
      ensures trace == Restarts(old(View()), order)
      ensures reports == old(reports) +
                [StatusReport(host, Statuses(old(View())), credentials, UpdatedPorts(old(View()), order))]
    {
      var updatedPorts, statuses;
      trace, updatedPorts, statuses, order := TickAll();
      reports := reports + [StatusReport(host, statuses, credentials, updatedPorts)];
    }

    /** The first half of a sync: services, credentials and added ports.
        `stopped` holds when the sync raises at the first disabled id. */
    method ApplyDelta(d: Delta, namespaces: map<string, string>) returns (stopped: bool, trace: seq<Action>)
      requires Valid()
      modifies this, processes.Values
      ensures Valid() && fresh(processes.Values - old(processes.Values))
      ensures secrets == old(secrets) && reports == old(reports)
      ensures var st := Stage(old(View()), old(credentials), d, namespaces);
              stopped == (|d.services.disabled| > 0) && stopped == (st.failure == Some(UnexpectedKeyword)) &&
              View() == st.table && credentials == st.credentials && trace == st.trace
    {
      ghost var t0, c0 := View(), credentials;
      var added := StartAddedServices(d.services.added, namespaces);
      ghost var t1 := View();
      var enabled := EnableListed(d.services.enabled);
      ghost var t2 := View();
      assert t2 == EnableServices(AddServices(t0, d.services.added, namespaces).table, d.services.enabled).table;
      trace := added + enabled;
      if |d.services.disabled| > 0 {
        // `stop_process` is called with the keyword `deleted`, which it
        // does not have: the first disabled id raises TypeError.
        stopped := true;
        return;
      }
      stopped := false;
      var deleted := DeleteListed(d.services.deleted);
      ghost var t3 := View();
      assert t3 == StopServices(t2, d.services.deleted, true).table;
      trace := trace + deleted;
      ApplyCredentialsDelta(d.credentials);
      assert View() == t3;
      AddListedPorts(d.ports.added);
      assert View() == AddPorts(t3, d.ports.added);
    }

    /** The second half of a sync: rewrites chap-secrets from every
        surviving port, disconnects the surviving ports whose credential id
        is in `updated`, then deletes the ports listed in `deleted`. `ok`
        is false, and nothing changes, when a surviving port names an
        unknown credential: the walk raises KeyError before the file is
        written. */
    method RewriteSecrets(deleted: seq<string>, updated: map<string, string>)
      returns (ok: bool, trace: seq<Action>, ghost order: seq<Entry>, ghost disconnects: seq<Entry>,
               ghost deletes: seq<Entry>)
      requires Valid()
      modifies this, processes.Values
      ensures Valid() && processes == old(processes)
      ensures credentials == old(credentials) && reports == old(reports)
      ensures ok == CredentialsCover(old(View()), credentials, deleted)
      ensures !ok ==> View() == old(View()) && secrets == old(secrets) && trace == []
      ensures ok ==> Rewritten(old(View()), credentials, deleted, updated, order, disconnects, deletes,
                               secrets, trace, View())
    {
      ghost var t := View();
      var lines, toDisconnect, toDelete;
      ok, lines, toDisconnect, toDelete, order := CollectSecrets(deleted, updated);
      disconnects, deletes := toDisconnect, toDelete;
      if !ok {
        // `self.credentials[port['credential_id']]` raises KeyError.
        trace := [];
        return;
      }
      EnumeratedEntriesExist(t, deleted, updated, toDisconnect, toDelete);
      secrets := SecretsText(lines);
      assert View() == t;
      var disconnectKills := DisconnectPorts(toDisconnect);
      assert disconnectKills == Kills(t, toDisconnect);
      var deleteKills := DeletePorts(toDelete);
      assert deleteKills == Kills(t, toDelete);
      trace := [WriteSecrets(secrets)] + disconnectKills + deleteKills;
      CollectedIsRewritten(t, credentials, deleted, updated, order, lines, toDisconnect, toDelete, secrets, trace, View());
    }

    /** Applies one delta from the server: services (added, enabled, then
        disabled and deleted), credentials, added ports; then rewrites
        chap-secrets from every surviving port, disconnects the surviving
        ports whose credential changed, and finally deletes the deleted
        ports. `namespaces` is what the agent answers for each router.
        The sync can stop part-way with an error, keeping what it changed
        before: the `order` ghosts give the iteration orders the code does
        not fix. */
    method SyncFromServer(d: Delta, namespaces: map<string, string>)
      returns (failure: Option<SyncError>, trace: seq<Action>,
               ghost order: seq<Entry>, ghost disconnects: seq<Entry>, ghost deletes: seq<Entry>)
      requires Valid()
      modifies this, processes.Values
      ensures Valid() && fresh(processes.Values - old(processes.Values))
      ensures reports == old(reports)
      ensures var st := Stage(old(View()), old(credentials), d, namespaces);
              failure == st.failure && credentials == st.credentials && View() == SyncedTable(st, d.ports.deleted) &&
              (failure.Some? ==> View() == st.table && trace == st.trace && secrets == old(secrets)) &&
              (failure.None? ==>
                 |st.trace| <= |trace| && trace[..|st.trace|] == st.trace &&
                 Rewritten(st.table, st.credentials, d.ports.deleted, d.credentials.updated, order, disconnects, deletes,
                           secrets, trace[|st.trace|..], View()))
    {
      ghost var st := Stage(View(), credentials, d, namespaces);
      order, disconnects, deletes := [], [], [];
      var stopped;
      stopped, trace := ApplyDelta(d, namespaces);
      if stopped {
        failure := Some(UnexpectedKeyword);
        return;
      }
      ghost var t := View();
      assert t == st.table && credentials == st.credentials && trace == st.trace;
      assert st.failure == if CredentialsCover(t, credentials, d.ports.deleted) then None else Some(UnknownCredential);
      var ok, more;
      ok, more, order, disconnects, deletes := RewriteSecrets(d.ports.deleted, d.credentials.updated);
      failure := if ok then None else Some(UnknownCredential);
      assert (trace + more)[..|trace|] == trace && (trace + more)[|trace|..] == more;
      trace := trace + more;
    }
  }
}
