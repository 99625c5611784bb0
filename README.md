# EayunStack neutron extensions, modelled in Dafny

This project models the EayunStack additions to OpenStack neutron and proves
properties of that model. One Dafny module stands for each source file.

- `PptpAgent` (`pptp_agent.dfy`) is the PPTP VPN agent driver.
  - `PptpProcess` supervises one pptpd instance. It keeps an enabled flag, a port map and the operating-system state its probes read: whether pptpd runs, which remote addresses are connected, and which pid each connection marker holds.
  - `PptpDriver` keeps the process table, the credential map, the chap-secrets text and the status reports cast so far.
  - `SyncFromServer` applies a change set from the server. `CheckAndReport` is one run of the status timer.
  - Side effects (spawns, kills, the file write) are returned as a trace of actions in the order they happen.
- `HaproxyCfg` (`haproxy_cfg.dfy`) is the HAProxy configuration builder. It covers the global, defaults, frontend and backend sections, ACL and policy rules, the expected-code expansion, health checks, session persistence, and the in-place member and policy sorts.
- `EsIptables` (`es_iptables.dfy`) is the es metering driver. Each router's mangle table is abstract: a set of chains and a sequence of rules. The driver reconciles the labels of each router against what the server sends.
- `AgentScheduler` (`agent_scheduler.dfy`) is the LBaaS pool-to-agent binding table with its checks, the candidate filter and the chance scheduler.
- `DvrMac` (`dvr_mac.dfy`) holds the DVR helpers: device port names, subnet and port grouping, the east-west DVR table and the MAC table with its bounded retries.
- `EsMeteringDb` (`es_metering_db.dfy`) and `EsMeteringExt` (`es_metering_ext.dfy`) are the es metering label store with its sync-data projection, and the TCP port validator.
- `TargetRouters` (`target_routers.dfy`) is the firewall-to-router binding table.
- `VpnPlugin` (`vpn_plugin.dfy`) is the VPN plugin's provider validation.
- `PptpServiceDriver` (`pptp_service_driver.dfy`) is the server-side PPTP driver: its start and stop decisions and its fan-out to agents.
- `EayunNotifier` (`eayun_notifier.dfy`) is the status-change notifier and the decorator's handlers.
- `Common` (`common.dfy`) holds Option/Result and the string helpers Python provides: strip, split, join, int parsing and formatting.

Database tables are maps. Records from the plugin or the database are datatypes passed in as inputs. A raised exception is an error outcome that carries the exception's name.

In three places the PPTP agent does not do what its interface suggests, and the model follows the code:
- a port whose credential is missing is not skipped: the code raises KeyError and aborts the rest of the sync;
- a disabled service is not stopped and kept: line 316 passes an unknown keyword and raises TypeError;
- `wasConnected`/`connected` are not always booleans: a newly added port holds None until its first poll.

Applying the same change set twice ends with the same outcome, process table, credentials and chap-secrets lines as applying it once (`SyncTwiceIsStable`). The second sync is not silent, though: it disconnects again every surviving port whose credential the change set updates, and it spawns and kills again a service the change set both adds and deletes.

In the HAProxy builder, `_expand_expected_codes` includes every code of a range such as `200-204`, including 203, which its docstring example leaves out.

## Model

| member | source | states |
|---|---|---|
| PptpAgent.TransitionsAreChanges | neutron/services/vpn/device_drivers/pptp.py:125-133 | a poll reports a port exactly when its new connected state differs from the previous one, with the new state, and moves the previous state into was_connected |
| PptpAgent.RepeatPollIsQuiet | neutron/services/vpn/device_drivers/pptp.py:125-133 | a second poll with the same connected addresses reports no port |
| PptpAgent.FirstPollReportsAddedPort | neutron/services/vpn/device_drivers/pptp.py:125-140 | the first poll after add_port reports the added port, connected exactly when its address is connected, and the report on the other ports is unchanged |
| PptpAgent.PptpProcess.constructor | neutron/services/vpn/device_drivers/pptp.py:73-99 | a new process keeps its id, address and namespace, is disabled, not running, and has no port, pid file or connection marker |
| PptpAgent.PptpProcess.Start | neutron/services/vpn/device_drivers/pptp.py:109-118 | start enables the process and spawns pptpd only when it is not active, so at most one spawn and none for an active process |
| PptpAgent.PptpProcess.Stop | neutron/services/vpn/device_drivers/pptp.py:120-123 | stop disables the process and kills its process group only when it is active; an inactive process is only disabled |
| PptpAgent.PptpProcess.UpdatePortsStatus | neutron/services/vpn/device_drivers/pptp.py:125-133 | every port is polled against the connected addresses and exactly the changed ports are returned |
| PptpAgent.PptpProcess.AddPort | neutron/services/vpn/device_drivers/pptp.py:135-140 | the port is recorded, replacing any entry with its id, with both connection states None |
| PptpAgent.PptpProcess.DisconnectPort | neutron/services/vpn/device_drivers/pptp.py:142-151 | a kill is issued exactly when the port's address is connected and its marker file holds a pid, and it kills that pid |
| PptpAgent.PptpProcess.DelPort | neutron/services/vpn/device_drivers/pptp.py:153-155 | the port is disconnected, then removed, and no other port changes |
| PptpAgent.PptpDriver.constructor | neutron/services/vpn/device_drivers/pptp.py:212-233 | a new driver has no process, no credential and no report |
| PptpAgent.PptpDriver.GetOrCreateProcess | neutron/services/vpn/device_drivers/pptp.py:266-270 | the process filed under the id is reused, or a new one is filed under it |
| PptpAgent.PptpDriver.StartProcess | neutron/services/vpn/device_drivers/pptp.py:259-272 | nothing happens while the router's namespace is not ready; otherwise the process is created if missing and started if enabled |
| PptpAgent.PptpDriver.StopProcess | neutron/services/vpn/device_drivers/pptp.py:274-280 | an unknown id changes nothing; a known process is stopped, and forgotten when delete holds |
| PptpAgent.PptpDriver.StartVpnService | neutron/services/vpn/device_drivers/pptp.py:282-293 | a service without a local address is skipped; otherwise its process is started on its router |
| PptpAgent.PptpDriver.StopVpnService | neutron/services/vpn/device_drivers/pptp.py:295-297 | stopping a service stops its process with the delete flag given |
| PptpAgent.PptpDriver.StartAddedServices | neutron/services/vpn/device_drivers/pptp.py:308-310 | the added services are started in order |
| PptpAgent.PptpDriver.EnableListed | neutron/services/vpn/device_drivers/pptp.py:311-314 | every enabled service the table has is started |
| PptpAgent.PptpDriver.DeleteListed | neutron/services/vpn/device_drivers/pptp.py:317-318 | every deleted service is stopped and forgotten |
| PptpAgent.PptpDriver.ApplyCredentialsDelta | neutron/services/vpn/device_drivers/pptp.py:320-330 | added credentials overwrite, then deleted ids go, then updated passwords apply |
| PptpAgent.PptpDriver.AddListedPorts | neutron/services/vpn/device_drivers/pptp.py:332-339 | each added port goes into its service's process when the table has it |
| PptpAgent.AddServicesEffect | neutron/services/vpn/device_drivers/pptp.py:259-310 | starting the added services creates an entry for exactly the startable ones and never replaces an existing process |
| PptpAgent.EnableServicesEffect | neutron/services/vpn/device_drivers/pptp.py:311-314 | enabling starts exactly the listed processes the table has, and touches no other entry |
| PptpAgent.DeleteServicesEffect | neutron/services/vpn/device_drivers/pptp.py:274-318 | deleting removes exactly the listed entries, kills the group of each listed process that was running, and leaves the others as they were |
| PptpAgent.DisableServicesEffect | neutron/services/vpn/device_drivers/pptp.py:274-280 | stopping without delete keeps every entry and leaves the listed ones disabled and not running |
| PptpAgent.AddCredentialsEffect | neutron/services/vpn/device_drivers/pptp.py:320-324 | each added id ends with the last record added under it, and ids not added keep their credential |
| PptpAgent.ApplyCredentialsEffect | neutron/services/vpn/device_drivers/pptp.py:320-330 | an id is present afterwards iff it was present or added and is not deleted; an update changes only the password of a present id and never creates one |
| PptpAgent.AddPortsEffect | neutron/services/vpn/device_drivers/pptp.py:332-339 | no process is created or loses a port, a port lands only in its own service's process, and only port maps change |
| PptpAgent.SecretLines | neutron/services/vpn/device_drivers/pptp.py:362-368 | one chap-secrets line per surviving port, in walk order: username, service id, password and remote address |
| PptpAgent.SecretsTextLayout | neutron/services/vpn/device_drivers/pptp.py:370-372 | chap-secrets ends every line with a newline and then holds one empty line; with no port it is a single newline |
| PptpAgent.CollectPorts | neutron/services/vpn/device_drivers/pptp.py:346-368 | the walk of one process fails iff a surviving port names an unknown credential; otherwise it writes one line per surviving port and picks exactly the deleted ports and the surviving ports with an updated credential |
| PptpAgent.CollectTable | neutron/services/vpn/device_drivers/pptp.py:345-368 | the walk over every process fails iff some surviving port names an unknown credential, and otherwise builds the lines, disconnects and deletes of the whole table |
| PptpAgent.RemoveDeletedEntries | neutron/services/vpn/device_drivers/pptp.py:380-384 | deleting the picked ports removes every port listed in 'deleted' from every process |
| PptpAgent.RewrittenSeparates | neutron/services/vpn/device_drivers/pptp.py:341-384 | after a rewrite no deleted port has a line or is disconnected, every disconnected port has a line, the file is written first, only connection kills follow, and no deleted port is left |
| PptpAgent.PptpDriver.CollectSecrets | neutron/services/vpn/device_drivers/pptp.py:341-368 | the driver's walk succeeds iff every surviving port names a known credential |
| PptpAgent.PptpDriver.DisconnectPorts | neutron/services/vpn/device_drivers/pptp.py:374-378 | the kills issued are those of disconnecting the listed ports in order |
| PptpAgent.PptpDriver.DeletePorts | neutron/services/vpn/device_drivers/pptp.py:380-384 | the listed ports are disconnected and removed in order |
| PptpAgent.PptpDriver.RewriteSecrets | neutron/services/vpn/device_drivers/pptp.py:341-384 | an unknown credential raises before anything changes; otherwise chap-secrets is rewritten, the ports with an updated credential disconnected and the deleted ports removed |
| PptpAgent.DisabledStopsTheSync | neutron/services/vpn/device_drivers/pptp.py:315-316 | as written, a non-empty 'disabled' list stops the sync with a TypeError after the added and enabled services, and leaves the credentials alone |
| PptpAgent.StageIntendedDisables | neutron/services/vpn/device_drivers/pptp.py:315-318 | with `delete=False`, a disabled service stays, disabled and not running, a deleted one is gone, and the credentials are applied |
| PptpAgent.IntendedDisconnects | neutron/services/vpn/device_drivers/pptp.py:353-356 | the intended disconnects are exactly those picked as written whose port id the delta does not add |
| PptpAgent.AddedPortIsDisconnected | neutron/services/vpn/device_drivers/pptp.py:353-356 | as written, for every table and delta, the last port the delta adds, when its process exists, it is not deleted and the delta updates its credential, is disconnected right after being added; the intended disconnects skip it |
| PptpAgent.PptpDriver.ApplyDelta | neutron/services/vpn/device_drivers/pptp.py:308-339 | the services, credentials and added ports are applied as staged, and the sync stops exactly when 'disabled' is not empty |
| PptpAgent.PptpDriver.SyncFromServer | neutron/services/vpn/device_drivers/pptp.py:299-384 | a sync that stops keeps what it staged; one that goes on continues with the rewrite of chap-secrets, the disconnects and the deletes |
| PptpAgent.AddServicesStarts | neutron/services/vpn/device_drivers/pptp.py:259-310 | a process that some startable added record with admin state up names is in the table afterwards, enabled and running, whatever records follow |
| PptpAgent.AddServicesKeeps | neutron/services/vpn/device_drivers/pptp.py:259-310 | starting the added services again leaves a process as it is when it already runs or when no added record starts it |
| PptpAgent.EnabledSettled | neutron/services/vpn/device_drivers/pptp.py:308-314 | after the added and enabled lists, every process they start is enabled and running, and every startable record has a process |
| PptpAgent.Restarted | neutron/services/vpn/device_drivers/pptp.py:308-314 | the added and enabled lists, run again over a table where every process they start already runs, keep each process as it is and add processes only for startable records |
| PptpAgent.ServicesAgain | neutron/services/vpn/device_drivers/pptp.py:308-318 | the services part of a change set, run again over the table it left (whatever the ports), changes nothing |
| PptpAgent.AddPortsValue | neutron/services/vpn/device_drivers/pptp.py:332-339 | each process's port map is overwritten by the ports added under it, the last record for a port id winning, each with unknown connection states |
| PptpAgent.AddPortsTwice | neutron/services/vpn/device_drivers/pptp.py:332-339 | adding the same ports twice is adding them once |
| PptpAgent.AddPortsAfterSync | neutron/services/vpn/device_drivers/pptp.py:332-384 | re-adding the ports to the table a completed sync left and dropping the deleted ones again gives that table back, with the same surviving ports |
| PptpAgent.AddCredentialsOver | neutron/services/vpn/device_drivers/pptp.py:320-324 | an id that some added record names ends with the same credential whatever the map held before |
| PptpAgent.ApplyCredentialsTwice | neutron/services/vpn/device_drivers/pptp.py:320-330 | applying the same credentials change set twice is applying it once |
| PptpAgent.SameLiveLines | neutron/services/vpn/device_drivers/pptp.py:345-372 | two tables that agree once the deleted ports are dropped have the same surviving ports, the same credential coverage and the same chap-secrets lines for every walk of those ports |
| PptpAgent.SyncTwiceIsStable | neutron/services/vpn/device_drivers/pptp.py:299-384 | a change set delivered twice: the second sync has the same outcome, leaves the same process table and credentials, and when it completes writes the same chap-secrets lines for the same walk order |
| PptpAgent.Ticked | neutron/services/vpn/device_drivers/pptp.py:239-246 | a visited process keeps its enabled flag, is running if enabled, is unchanged in running state when it needed no restart, and has every port polled |
| PptpAgent.VisitedAll | neutron/services/vpn/device_drivers/pptp.py:239-253 | visiting no process changes nothing, and visiting all of them gives the ticked table and every status |
| PptpAgent.RestartsAreTheDead | neutron/services/vpn/device_drivers/pptp.py:242-243 | the timer spawns exactly the visited processes that are enabled and not running |
| PptpAgent.UpdatedPortsAreTransitions | neutron/services/vpn/device_drivers/pptp.py:246 | a port is in the report exactly when its state changed in some visited process |
| PptpAgent.SecondTickIsQuiet | neutron/services/vpn/device_drivers/pptp.py:239-257 | a second run of the timer with nothing changed in between spawns nothing and reports no port |
| PptpAgent.PptpDriver.TickProcess | neutron/services/vpn/device_drivers/pptp.py:242-253 | one process is restarted if it needed it, then polled, and its status is recorded |
| PptpAgent.PptpDriver.TickAll | neutron/services/vpn/device_drivers/pptp.py:239-253 | every process is visited once; the spawns, the merged port report and the statuses are those of the ticked table |
| PptpAgent.PptpDriver.CheckAndReport | neutron/services/vpn/device_drivers/pptp.py:235-257 | after visiting every process one report is cast with the host, the statuses, the credentials and the merged port transitions |
| HaproxyCfg.Mode | neutron/services/loadbalancer/drivers/haproxy/cfg.py:110-119 | the mode is `http` exactly for HTTP pools and VIPs, and `tcp` for TCP and HTTPS |
| HaproxyCfg.Balance | neutron/services/loadbalancer/drivers/haproxy/cfg.py:31-35 | least-connections maps to `leastconn`, source-IP to `source`, and any unknown method falls back to `roundrobin` |
| HaproxyCfg.Tabbed | neutron/services/loadbalancer/drivers/haproxy/cfg.py:82-94 | every option line is the option prefixed with one tab, in order |
| HaproxyCfg.BuildGlobal | neutron/services/loadbalancer/drivers/haproxy/cfg.py:82-94 | the global section starts with `global`, names the user group, and has the stats socket line, as its seventh line, exactly when a socket path is given |
| HaproxyCfg.BuildDefaults | neutron/services/loadbalancer/drivers/haproxy/cfg.py:97-107 | the defaults section is the header and six fixed options |
| HaproxyCfg.FrontendOpts | neutron/services/loadbalancer/drivers/haproxy/cfg.py:110-127 | four fixed options (tcplog, bind first-IP:port, mode, default backend), then `maxconn` iff the connection limit is not negative, and `option forwardfor` last iff the VIP is HTTP |
| HaproxyCfg.BuildFrontend | neutron/services/loadbalancer/drivers/haproxy/cfg.py:129-132 | the frontend is the `frontend <vip id>` header followed by the tabbed options |
| HaproxyCfg.AclName | neutron/services/loadbalancer/drivers/haproxy/cfg.py:148-149 | the ACL name is `acl_` followed by the rule id, cut to 12 characters in all |
| HaproxyCfg.AclMemberId | neutron/services/loadbalancer/drivers/haproxy/cfg.py:152-154 | the member id is the value of at most the first seven characters of the id read as hexadecimal (a ValueError otherwise), hence below 16^7 |
| HaproxyCfg.AclMemberIdOfHexPrefix | neutron/services/loadbalancer/drivers/haproxy/cfg.py:152-154 | an id starting with seven hexadecimal digits (every UUID) has as member id the value of those digits |
| HaproxyCfg.BuildAcl | neutron/services/loadbalancer/drivers/haproxy/cfg.py:157-174 | an ACL is built iff the rule is backendServerId with integerEq and a hexadecimal text value; an unknown type or compare type is a KeyError, a missing or already converted value a TypeError; the line is `acl <name> srv_id eq <compare value>` and the rule's value is converted to its member id in place |
| HaproxyCfg.RebuildingAnAclFails | neutron/services/loadbalancer/drivers/haproxy/cfg.py:157-169 | because the conversion happens in place, building the same rule a second time is a TypeError |
| HaproxyCfg.EscapedSpacesFollowBackslashes | neutron/services/loadbalancer/drivers/haproxy/cfg.py:179 | every space of an escaped value is preceded by a backslash |
| HaproxyCfg.EscapeRoundTrip | neutron/services/loadbalancer/drivers/haproxy/cfg.py:179 | unescaping an escaped value without backslashes of its own gives the value back |
| HaproxyCfg.BuildPolicyAction | neutron/services/loadbalancer/drivers/haproxy/cfg.py:177-185 | an action is built iff it is known (KeyError otherwise); it always ends with ` if <acl name>`; block is `block`, redirect and addHeader carry the escaped value |
| HaproxyCfg.CodeTokens | neutron/services/loadbalancer/drivers/haproxy/cfg.py:387 | after replacing commas by spaces and splitting, no token holds a comma or a space |
| HaproxyCfg.CodeRange | neutron/services/loadbalancer/drivers/haproxy/cfg.py:394 | the range holds exactly the decimal texts of lo..hi, nothing when lo > hi |
| HaproxyCfg.TokenCodes | neutron/services/loadbalancer/drivers/haproxy/cfg.py:388-396 | an empty stripped token adds nothing and a token without `-` adds itself stripped |
| HaproxyCfg.ExpandedCodesSucceed | neutron/services/loadbalancer/drivers/haproxy/cfg.py:386-397 | the expansion succeeds iff no token raises a ValueError |
| HaproxyCfg.ExpandedCodesMembers | neutron/services/loadbalancer/drivers/haproxy/cfg.py:386-397 | a successful expansion holds exactly the codes of its tokens |
| HaproxyCfg.ExpandedFailureSticks | neutron/services/loadbalancer/drivers/haproxy/cfg.py:386-397 | a token that raises stops the expansion: every longer prefix fails too |
| HaproxyCfg.ExpandExpectedCodes | neutron/services/loadbalancer/drivers/haproxy/cfg.py:379-397 | the loop returns exactly the expansion of the tokens |
| HaproxyCfg.RangeTokenExpands | neutron/services/loadbalancer/drivers/haproxy/cfg.py:379-397 | `lo-hi` expands to every integer from lo to hi inclusive (so `200-204` includes 203), and to nothing when lo > hi |
| HaproxyCfg.RangeTokenShape | neutron/services/loadbalancer/drivers/haproxy/cfg.py:387-393 | two digit runs joined by `-` make one token whose bounds are the two runs |
| HaproxyCfg.FirstUpMonitor | neutron/services/loadbalancer/drivers/haproxy/cfg.py:316-324 | the monitor chosen is the first with admin state up; none iff no monitor is up |
| HaproxyCfg.MonitorOptions | neutron/services/loadbalancer/drivers/haproxy/cfg.py:326-342 | the addon is `check inter <delay>s fall <retries>`; `timeout check` comes first, `option httpchk` and the expected status only for HTTP(S) monitors, `ssl-hello-chk` only for HTTPS; a malformed code range is a ValueError |
| HaproxyCfg.ServerHealthOption | neutron/services/loadbalancer/drivers/haproxy/cfg.py:314-342 | no monitor up gives no addon and no options; otherwise those of the first one up, failing iff it checks HTTP(S) and its codes do not expand, with the codes joined by `\|` |
| HaproxyCfg.SessionPersistence | neutron/services/loadbalancer/drivers/haproxy/cfg.py:345-370 | no persistence gives nothing; SOURCE_IP gives the stick table; HTTP_COOKIE the cookie line only when the pool has members; APP_COOKIE the appsession line when it has a cookie name, plus an extra action carrying the cookie name exactly when extra actions are given |
| HaproxyCfg.SortByKey | neutron/services/loadbalancer/drivers/haproxy/cfg.py:135-145 | the in-place sort leaves the array ordered by the comparison key and a permutation of what it was |
| HaproxyCfg.InsertLast | neutron/services/loadbalancer/drivers/haproxy/cfg.py:144-145 | one insertion step extends the sorted prefix by one element and permutes the array |
| HaproxyCfg.RuleOpts | neutron/services/loadbalancer/drivers/haproxy/cfg.py:203-208 | a rule contributes its ACL line then its action line, iff both build, and only a backendServerId rule can |
| HaproxyCfg.RulesPassShape | neutron/services/loadbalancer/drivers/haproxy/cfg.py:202-209 | a policy that passes contributes two lines per rule and needs server ids iff it has a rule |
| HaproxyCfg.RulesPassKinds | neutron/services/loadbalancer/drivers/haproxy/cfg.py:202-209 | every rule of a policy that passes is a backendServerId rule |
| HaproxyCfg.PoliciesPassShape | neutron/services/loadbalancer/drivers/haproxy/cfg.py:196-209 | the policies that pass contribute two lines per rule and need server ids iff there is any rule |
| HaproxyCfg.BuildPolicyAndAcl | neutron/services/loadbalancer/drivers/haproxy/cfg.py:196-209 | the policy array ends sorted by priority and permuted, and the result is that of walking the sorted policies |
| HaproxyCfg.WalkPolicies | neutron/services/loadbalancer/drivers/haproxy/cfg.py:202-209 | the outer loop computes the policy pass |
| HaproxyCfg.RulesOfPolicy | neutron/services/loadbalancer/drivers/haproxy/cfg.py:203-208 | the inner loop computes the rule pass of one policy |
| HaproxyCfg.RulesFailureSticks | neutron/services/loadbalancer/drivers/haproxy/cfg.py:203-208 | the first rule that raises ends the pass with its error |
| HaproxyCfg.PoliciesFailureSticks | neutron/services/loadbalancer/drivers/haproxy/cfg.py:202-209 | the first policy that raises ends the pass with its error |
| HaproxyCfg.EligibleMembersAreEligible | neutron/services/loadbalancer/drivers/haproxy/cfg.py:270-273 | a member gets a server line iff its status is active, pending or INACTIVE and its admin state is up |
| HaproxyCfg.FirstIndex | neutron/services/loadbalancer/drivers/haproxy/cfg.py:295 | the cookie index is the position of the first member equal to the member |
| HaproxyCfg.ServerOption | neutron/services/loadbalancer/drivers/haproxy/cfg.py:289-292 | an optional server option is written iff its value is present |
| HaproxyCfg.BackupFollowsHead | neutron/services/loadbalancer/drivers/haproxy/cfg.py:274-277 | ` backup` follows the server head iff the backup flag is set |
| HaproxyCfg.ServerLine | neutron/services/loadbalancer/drivers/haproxy/cfg.py:274-296 | a server line starts with `server <id> <address>:<port> weight <w>` and the health addon, has ` backup` next iff the priority is below 256, and fails with ValueError iff a server id is needed and the member id is not hexadecimal |
| HaproxyCfg.ExtraMemberOpts | neutron/services/loadbalancer/drivers/haproxy/cfg.py:212-238 | without `max_age` nothing; with it, the member's ACL line and the `rspadd Set-Cookie: <cookie>=<id>; Max-Age=<age>` action conditioned on it, or a ValueError for a non-hexadecimal id |
| HaproxyCfg.MemberStep | neutron/services/loadbalancer/drivers/haproxy/cfg.py:270-296 | an eligible member contributes exactly one server line starting with its head, or a ValueError |
| HaproxyCfg.MemberLinesCount | neutron/services/loadbalancer/drivers/haproxy/cfg.py:269-296 | a member pass that succeeds writes one server line per eligible member |
| HaproxyCfg.MemberLinesFollowEligible | neutron/services/loadbalancer/drivers/haproxy/cfg.py:269-296 | the k-th server line is the one rendered for the k-th eligible member, in sorted order |
| HaproxyCfg.WalkMembers | neutron/services/loadbalancer/drivers/haproxy/cfg.py:269-296 | the member loop computes the member pass |
| HaproxyCfg.CollectFailureSticks | neutron/services/loadbalancer/drivers/haproxy/cfg.py:269-296 | the first member that raises ends the pass with its error |
| HaproxyCfg.GetServerHealthOption | neutron/services/loadbalancer/drivers/haproxy/cfg.py:314-342 | the loop with its for-else returns the health option of the first monitor up, its codes joined in the set's iteration order |
| HaproxyCfg.BuildBackend | neutron/services/loadbalancer/drivers/haproxy/cfg.py:241-306 | a failing health check leaves both arrays as they were; otherwise members end sorted by (priority, address, port) and policies by priority, each a permutation; the lines are the backend rendered from the sorted arrays |
| HaproxyCfg.BackendStartsWithModeAndBalance | neutron/services/loadbalancer/drivers/haproxy/cfg.py:241-252 | a backend starts with `backend <pool id>`, its mode and its balance, and an HTTP pool's fourth line is `option forwardfor` |
| HaproxyCfg.BackendEndsWithServers | neutron/services/loadbalancer/drivers/haproxy/cfg.py:296-306 | a backend ends with one server line per eligible member, in sorted member order, each starting with that member's head and the health addon |
| EsIptables.LabelChainName | neutron/services/metering/drivers/iptables/es_iptables_driver.py:128-132 | the label chain is the binary name, the label infix and the id, cut to the 28 characters an unwrapped chain may have, and always starts with the binary name and infix |
| EsIptables.MeterRulePartsShape | neutron/services/metering/drivers/iptables/es_iptables_driver.py:106-124 | the rule parts are the direction match first (the mark match for ingress, the external-device match for egress), the `-d`/`-s` address match exactly when the label has an address, the `--dport`/`--sport` port match exactly when it has a port, and the jump to the label chain last |
| EsIptables.MeterRuleShape | neutron/services/metering/drivers/iptables/es_iptables_driver.py:106-126 | the joined rule starts with the direction match and ends with the jump to the label chain |
| EsIptables.BareMeterRule | neutron/services/metering/drivers/iptables/es_iptables_driver.py:106-126 | a label with neither address nor port gives just the direction match and the jump, separated by one space |
| EsIptables.JumpRules | neutron/services/metering/drivers/iptables/es_iptables_driver.py:41-43 | one jump rule per built-in chain |
| EsIptables.KeptRulesSpec | neutron/services/metering/drivers/iptables/es_iptables_driver.py:153 | removing an unwrapped chain keeps exactly the rules that neither sit in it nor jump to it, and keeps everything when none does |
| EsIptables.LabelAddedShape | neutron/services/metering/drivers/iptables/es_iptables_driver.py:134-145 | adding a label adds its chain, keeps the earlier rules in place, appends the meter rule in POSTROUTING first and the empty counting rule last, with an INPUT rule exactly for an ingress label without an internal address |
| EsIptables.BuiltinChainsStay | neutron/services/metering/drivers/iptables/es_iptables_driver.py:36-47 | adding and removing label chains never removes PREROUTING, INPUT or POSTROUTING |
| EsIptables.AddThenRemoveRestores | neutron/services/metering/drivers/iptables/es_iptables_driver.py:134-155 | removing a label right after adding it to a table that did not know its chain gives the table back |
| EsIptables.KeptSplit | neutron/services/metering/drivers/iptables/es_iptables_driver.py:153 | removing a chain whose rules all follow the kept ones keeps exactly the head |
| EsIptables.AddLabelView | neutron/services/metering/drivers/iptables/es_iptables_driver.py:146 | adding a label records it under its id |
| EsIptables.RemoveLabelView | neutron/services/metering/drivers/iptables/es_iptables_driver.py:148-155 | removing a label forgets its id, and removing an unknown id changes nothing |
| EsIptables.AddAllKeys | neutron/services/metering/drivers/iptables/es_iptables_driver.py:162-164 | adding labels in turn records exactly their ids and leaves the router dict and base labels alone |
| EsIptables.RemoveAllKeys | neutron/services/metering/drivers/iptables/es_iptables_driver.py:171-173 | removing ids in turn forgets exactly those ids and keeps the other labels as they were |
| EsIptables.AddNewKeys | neutron/services/metering/drivers/iptables/es_iptables_driver.py:93-98 | the labels added by the reconciliation are exactly the listed ones not already held, and the held ones keep their records |
| EsIptables.ReconciledLabels | neutron/services/metering/drivers/iptables/es_iptables_driver.py:84-101 | after reconciling a tracked router it holds exactly the listed labels, and a label it already held keeps its old record |
| EsIptables.NewRouterLabels | neutron/services/metering/drivers/iptables/es_iptables_driver.py:157-164 | associating an untracked router gives it exactly its listed labels |
| EsIptables.DropAbsent | neutron/services/metering/drivers/iptables/es_iptables_driver.py:77-81 | the first pass of update_routers keeps every tracked router and leaves the listed ones alone |
| EsIptables.DropWalkInAnyOrder | neutron/services/metering/drivers/iptables/es_iptables_driver.py:77-81 | the first pass gives the same table in whatever order the dict yields the tracked routers |
| EsIptables.DropWalkPrefix | neutron/services/metering/drivers/iptables/es_iptables_driver.py:79-81 | after part of the walk, exactly the walked routers that are not listed have lost the labels of their stored router dict |
| EsIptables.ApplyRoutersSnoc | neutron/services/metering/drivers/iptables/es_iptables_driver.py:84-104 | the second pass over one more router is the pass followed by that router's step |
| EsIptables.ApplyRoutersLabels | neutron/services/metering/drivers/iptables/es_iptables_driver.py:84-104 | when the update lists each router once, every listed router ends tracked with exactly its listed labels |
| EsIptables.ApplyRouterOthers | neutron/services/metering/drivers/iptables/es_iptables_driver.py:84-104 | one router's step leaves the other tracked routers as they were |
| EsIptables.ApplyRouterLabels | neutron/services/metering/drivers/iptables/es_iptables_driver.py:84-104 | one router's step leaves it tracked with exactly its listed labels, whether it was reconciled or associated |
| EsIptables.ApplyRoutersKeys | neutron/services/metering/drivers/iptables/es_iptables_driver.py:84-104 | the tracked routers after the update are those tracked before plus every listed router |
| EsIptables.EsRouter.constructor | neutron/services/metering/drivers/iptables/es_iptables_driver.py:31-47 | a new router has no es label and a mangle table with the three built-in chains, their jumps and the mark rule |
| EsIptables.EsRouter.IterMeteringLabels | neutron/services/metering/drivers/iptables/es_iptables_driver.py:49-50 | the base labels come first and the es labels after them, each group enumerating its dict |
| EsIptables.EsDriver.AddEsLabel | neutron/services/metering/drivers/iptables/es_iptables_driver.py:134-146 | the router's table and labels change as adding the label specifies |
| EsIptables.EsDriver.RemoveEsLabel | neutron/services/metering/drivers/iptables/es_iptables_driver.py:148-155 | the router's table and labels change as removing the label specifies, an unknown id leaving them alone |
| EsIptables.EsDriver.UpdateRouter | neutron/services/metering/drivers/iptables/es_iptables_driver.py:56-67 | the router's entry is reused if tracked, a fresh one otherwise, and it carries the new router dict |
| EsIptables.EsDriver.ProcessAssociate | neutron/services/metering/drivers/iptables/es_iptables_driver.py:157-164 | the router is tracked afterwards with its listed labels added to it |
| EsIptables.EsDriver.ProcessDisassociate | neutron/services/metering/drivers/iptables/es_iptables_driver.py:166-173 | an untracked router changes nothing; a tracked one loses its listed labels |
| EsIptables.EsDriver.AddEsMeteringLabel | neutron/services/metering/drivers/iptables/es_iptables_driver.py:175-178 | every router of the message is associated, in order |
| EsIptables.EsDriver.RemoveEsMeteringLabel | neutron/services/metering/drivers/iptables/es_iptables_driver.py:180-183 | every router of the message is disassociated, in order |
| EsIptables.EsDriver.UpdateRouters | neutron/services/metering/drivers/iptables/es_iptables_driver.py:69-104 | the table is the first pass followed by the second pass over the listed routers |
| EsIptables.EsDriver.DisassociateAbsent | neutron/services/metering/drivers/iptables/es_iptables_driver.py:77-81 | the loop over the tracked routers computes the first pass in the order it walks them |
| EsIptables.EsDriver.ReconcileListed | neutron/services/metering/drivers/iptables/es_iptables_driver.py:83-104 | the loop over the listed routers computes the second pass |
| EsIptables.EsDriver.ApplyOne | neutron/services/metering/drivers/iptables/es_iptables_driver.py:84-104 | one listed router is reconciled if tracked and associated otherwise |
| EsIptables.EsDriver.ReconcileRouter | neutron/services/metering/drivers/iptables/es_iptables_driver.py:86-101 | listed labels not held are added in list order, then held labels no longer listed are removed |
| AgentScheduler.CandidatesMembers | neutron/services/loadbalancer/agent_scheduler.py:84-90 | an agent is a candidate iff it is among the active agents and its configuration lists the device driver; there are never more candidates than agents |
| AgentScheduler.CandidatesAppend | neutron/services/loadbalancer/agent_scheduler.py:84-90 | filtering keeps the agents' order: the candidates of a concatenation are the candidates of each part, in order |
| AgentScheduler.CandidatesAll | neutron/services/loadbalancer/agent_scheduler.py:84-90 | when every agent supports the driver, all of them are candidates, in order |
| AgentScheduler.GetLbaasAgentCandidates | neutron/services/loadbalancer/agent_scheduler.py:84-90 | the loop returns exactly the order-preserving filter of the active agents by device driver |
| AgentScheduler.BindOutcome | neutron/services/loadbalancer/agent_scheduler.py:111-146 | binding succeeds iff the pool has no binding and every bound pool sharing its VIP port is bound to the same agent; an existing binding gives PoolHasBoundToAgent naming the bound agent; success adds exactly the one pool-to-agent entry and changes no other |
| AgentScheduler.BindThenUnbind | neutron/services/loadbalancer/agent_scheduler.py:137-165 | unbinding a pool just bound restores the table it was bound in |
| AgentScheduler.UnbindOutcome | neutron/services/loadbalancer/agent_scheduler.py:155-165 | unbinding succeeds iff that exact pool-agent binding exists, and then removes only that entry |
| AgentScheduler.BindKeepsColocated | neutron/services/loadbalancer/agent_scheduler.py:124-146 | a successful bind preserves the invariant that pools whose VIPs share a port are bound to the same agent |
| AgentScheduler.Lookup | neutron/services/loadbalancer/agent_scheduler.py:193 | a dict subscript succeeds iff the value is a dict holding the key (otherwise KeyError) |
| AgentScheduler.HostingPool | neutron/services/loadbalancer/agent_scheduler.py:51-58 | the hosting lookup returns a value iff the pool has a binding |
| AgentScheduler.HostedBranchRaises | neutron/services/loadbalancer/agent_scheduler.py:187-194 | as written, the already-hosted branch raises KeyError('id') for every hosted pool, because the lookup's dict only has the key `agent` |
| AgentScheduler.HostedBranchReadsAgent | neutron/services/loadbalancer/agent_scheduler.py:187-194 | the corrected read `lbaas_agent['agent']['id']` yields the id of the agent the pool is bound to |
| AgentScheduler.ScheduledOutcome | neutron/services/loadbalancer/agent_scheduler.py:182-217 | schedule with the already-hosted branch corrected (as written that branch raises KeyError('id'), see Findings): it binds nothing and returns None iff the pool is already hosted or no active agent supports the driver; otherwise it binds only that pool, to an active agent supporting the driver, and returns that agent |
| AgentScheduler.ScheduledThenHosted | neutron/services/loadbalancer/agent_scheduler.py:208-217 | a pool the scheduler places is then reported as hosted by the chosen agent |
| AgentScheduler.BindingTable.constructor | neutron/services/loadbalancer/agent_scheduler.py:35-44 | the binding table starts empty |
| AgentScheduler.BindingTable.BindPool | neutron/services/loadbalancer/agent_scheduler.py:137-146 | the error is the check's error; on success the table becomes the bound table, on error it is unchanged |
| AgentScheduler.BindingTable.UnbindPool | neutron/services/loadbalancer/agent_scheduler.py:155-165 | succeeds iff the binding exists and then removes it; otherwise returns PoolNotBoundToAgent(pool, agent) and leaves the table unchanged |
| AgentScheduler.Schedule | neutron/services/loadbalancer/agent_scheduler.py:182-217 | schedule with the already-hosted branch corrected (as written that branch raises KeyError('id'), see Findings): the returned agent and the new table are those of the scheduling function, whose outcome ScheduledOutcome characterises |
| DvrMac.PortNameShape | neutron/db/dvr_mac_db.py:178-188 | a device name exists iff the owner starts with `compute:` or is the load-balancer owner; it is `qvo` (compute) or `tap` followed by at most the first 11 characters of the port id, never longer than 14 |
| DvrMac.FirstIpOnSpec | neutron/db/dvr_mac_db.py:216-220 | an address is found iff some fixed IP is on the subnet, and it is the address of the first such fixed IP |
| DvrMac.FindIpOn | neutron/db/dvr_mac_db.py:216-220 | the search loop with its early break returns the first address on the subnet |
| DvrMac.PortMapIds | neutron/db/dvr_mac_db.py:207-225 | every key of the subnet's port map is the id of a plugin port |
| DvrMac.PortMapMembers | neutron/db/dvr_mac_db.py:207-225 | with unique port ids, a port is listed for a subnet iff it has a device name and a non-empty address on that subnet |
| DvrMac.PortMapSpec | neutron/db/dvr_mac_db.py:221-224 | each listed port carries its own entry: its MAC, its first address on the subnet, its binding host and its device name |
| DvrMac.DvrPortsForSubnet | neutron/db/dvr_mac_db.py:207-225 | the loop builds exactly the port map of the ports on the subnet |
| DvrMac.SubnetsForPortSpec | neutron/db/dvr_mac_db.py:190-205 | every record returned is for a DVR subnet of the port (a VLAN network, a fixed IP on an IPv4 subnet with a gateway) carrying the subnet's CIDR, the port's MAC and the segmentation id, and every such subnet gets a record |
| DvrMac.SubnetEntriesSpec | neutron/db/dvr_mac_db.py:195-204 | the inner loop yields records only for the port's fixed IPs whose subnet is IPv4 with a gateway, and yields one for each of them |
| DvrMac.DvrSubnetsForPort | neutron/db/dvr_mac_db.py:190-205 | the loop returns exactly the records the subnet function gives |
| DvrMac.CollectSubnetsKeys | neutron/db/dvr_mac_db.py:230-235 | the subnets gathered from a router's ports are exactly the DVR subnets of those ports |
| DvrMac.DvrSubnetsSpec | neutron/db/dvr_mac_db.py:227-256 | fewer than two DVR subnets give None; a result holds at least two subnets, each a DVR subnet of a router port with its non-empty port map, and one of them has a port bound to the host |
| DvrMac.DvrSubnetsMembers | neutron/db/dvr_mac_db.py:227-256 | a result holds exactly the DVR subnets of the router ports whose port map is not empty |
| DvrMac.WithPortsOfFilled | neutron/db/dvr_mac_db.py:241-251 | after filling, the subnets kept are exactly those with a non-empty port map, each carrying that map |
| DvrMac.CollectDvrSubnets | neutron/db/dvr_mac_db.py:230-235 | the first loop computes the subnet records keyed by subnet id, a later record replacing an earlier one |
| DvrMac.FillPorts | neutron/db/dvr_mac_db.py:241-245 | in any dict order, every subnet gets its port map, and the host flag is set iff some subnet has a port bound to the host |
| DvrMac.GetDvrSubnets | neutron/db/dvr_mac_db.py:227-256 | the method returns exactly the function's result, whose properties DvrSubnetsSpec states |
| DvrMac.GroupByDeviceSpec | neutron/db/dvr_mac_db.py:288-293 | every device with router-interface ports gets a group, and each group is exactly that device's ports in list order |
| DvrMac.DevicePortsIn | neutron/db/dvr_mac_db.py:288-293 | a device's group contains only ports of that device |
| DvrMac.RouterInterfacePortsIn | neutron/db/dvr_mac_db.py:284-287 | the filtered ports are plugin ports owned by a router interface |
| DvrMac.EwDvrsAt | neutron/db/dvr_mac_db.py:295-302 | a router is in the result iff it has more than one interface port and its subnets are not None, and its entry is those subnets |
| DvrMac.GroupRouterPorts | neutron/db/dvr_mac_db.py:288-293 | the grouping loop builds exactly the device-id grouping |
| DvrMac.EwEntry | neutron/db/dvr_mac_db.py:295-302 | one router's entry exists iff the router is in the result, and then it equals the result's entry |
| DvrMac.GetOpenflowEwDvrs | neutron/db/dvr_mac_db.py:283-303 | in any dict order, the method returns exactly the east-west map |
| DvrMac.EwDvrsSpec | neutron/db/dvr_mac_db.py:259-303 | a router in the result has at least two interface ports; its entry lists at least two of their DVR subnets, each with its non-empty ports, one with a port on the host |
| DvrMac.EwDvrsMembers | neutron/db/dvr_mac_db.py:259-303 | a router's entry holds exactly the DVR subnets of its interface ports whose port map is not empty |
| DvrMac.AcceptedDrawSpec | neutron/db/dvr_mac_db.py:80-98 | the accepted MAC is the first draw no other host holds; no draw is accepted iff the host already has a row or every draw is taken |
| DvrMac.DvrMacTable.constructor | neutron/db/dvr_mac_db.py:45-51 | the host-MAC table starts empty |
| DvrMac.DvrMacTable.CreateDvrMacAddress | neutron/db/dvr_mac_db.py:76-100 | within `mac_generation_retries` attempts the first fresh draw is stored and returned; otherwise MacAddressGenerationFailure and the table is unchanged |
| DvrMac.DvrMacTable.GetDvrMacAddressByHost | neutron/db/dvr_mac_db.py:113-121 | an unset or empty host gives nothing and changes nothing; a known host gets its stored row; an unknown host gets a newly created row or the creation failure |
| DvrMac.CreationBound | neutron/db/dvr_mac_db.py:76-100 | a created row uses an attempt within the retry bound and keeps MACs unique across hosts; with zero retries creation always fails |
| EsMeteringDb.LabelDictProjects | neutron/db/metering/es_metering_db.py:121-126 | the label dict keeps exactly id, direction, internal_ip and tcp_port: two rows give the same dict iff they agree on those four |
| EsMeteringDb.SelectedSpec | neutron/db/metering/es_metering_db.py:149-153 | without a label id every label of the router is projected, in order; with one, only labels of that id appear and each of them does |
| EsMeteringDb.SelectedAtMostOne | neutron/db/metering/es_metering_db.py:149-153 | with unique ids, a label id selects at most one label, and one only if such a label exists |
| EsMeteringDb.SelectedNone | neutron/db/metering/es_metering_db.py:149-153 | an id no label has selects nothing |
| EsMeteringDb.RouterLabelsSpec | neutron/db/metering/es_metering_db.py:46-49 | a router's label relationship holds exactly the labels whose router_id is that router |
| EsMeteringDb.SyncDataSpec | neutron/db/metering/es_metering_db.py:138-158 | only existing admin-up routers among the ids appear, each with its (possibly label-restricted) label list; every such router appears, and missing ones are skipped |
| EsMeteringDb.LabelRouterIdsOfOne | neutron/db/metering/es_metering_db.py:130-136 | without router ids and with a label id, the router ids collected are that label's router, or none when no label has the id |
| EsMeteringDb.Find | neutron/db/metering/es_metering_db.py:55-61 | a row is found iff some row has the id, and the row found has it |
| EsMeteringDb.WithoutSpec | neutron/db/metering/es_metering_db.py:99-103 | deleting drops exactly the rows of the id, keeps every other row, and keeps ids unique |
| EsMeteringDb.UpdateRowSpec | neutron/db/metering/es_metering_db.py:91-97 | the intended update writes the given name and description on the row of the id only; every other column, every other row and id uniqueness are unchanged |
| EsMeteringDb.UpdateAsWrittenFails | neutron/db/metering/es_metering_db.py:96 | as written, every update of an existing label fails with AttributeError `updte`, whatever it changes, and a missing label gives the not-found error |
| EsMeteringDb.RouterDict.constructor | neutron/db/metering/es_metering_db.py:160 | a router dict is created with its id and its label key, if any |
| EsMeteringDb.EsMeteringDbMixin.constructor | neutron/db/metering/es_metering_db.py:33-49 | the label table starts empty over the given routers, and the table invariant holds |
| EsMeteringDb.EsMeteringDbMixin.GetEsMeteringLabel | neutron/db/metering/es_metering_db.py:55-61 | returns the row of the id iff one exists, and EsMeteringLabelNotFound(id) otherwise |
| EsMeteringDb.EsMeteringDbMixin.CreateEsMeteringLabel | neutron/db/metering/es_metering_db.py:74-89 | an unknown router gives RouterNotFound and adds nothing; otherwise exactly the new row is appended and returned; the invariant (unique ids, existing routers) is kept |
| EsMeteringDb.EsMeteringDbMixin.UpdateEsMeteringLabel | neutron/db/metering/es_metering_db.py:91-97 | the corrected update: EsMeteringLabelNotFound iff no row has the id, otherwise the row is updated as UpdateRowSpec states and returned |
| EsMeteringDb.EsMeteringDbMixin.DeleteEsMeteringLabel | neutron/db/metering/es_metering_db.py:99-103 | EsMeteringLabelNotFound iff no row has the id, the table unchanged; otherwise the row is removed |
| EsMeteringDb.EsMeteringDbMixin.GetSyncDataMetering | neutron/db/metering/es_metering_db.py:128-158 | given router ids are walked as given; otherwise the routers of the (truthy-id-filtered) labels are walked in some order; the result is the sync data of that walk |
| EsMeteringDb.EsMeteringDbMixin.SelectLabels | neutron/db/metering/es_metering_db.py:149-153 | the comprehension loop returns the selected label dicts of the router |
| EsMeteringDb.EsMeteringDbMixin.UpdateEsMeteringLabelsForRouter | neutron/db/metering/es_metering_db.py:160-169 | the router dict gets all its label dicts when the router exists and has labels, and is unchanged otherwise |
| EsMeteringDb.CreateThenFindThenDelete | neutron/db/metering/es_metering_db.py:74-107 | a created label is found under its id, and deleting it restores the previous table |
| EsMeteringDb.WithoutAll | neutron/db/metering/es_metering_db.py:99-103 | deleting an id no row has leaves the table as it was |
| EsMeteringExt.NonNumericPortRaises | neutron/extensions/es_metering.py:41-46 | as written, called directly with any port value `int()` refuses (the text `http`, a list among them), the validator raises UnboundLocalError instead of returning its message |
| EsMeteringExt.ValidateTcpPortSpec | neutron/extensions/es_metering.py:38-49 | the corrected validator never raises; it accepts exactly None and the integers 1 to 65535, answers "is not a valid number" for a value `int()` refuses and "Invalid port" for a number out of range |
| EsMeteringExt.AsWrittenAgreesOnNumbers | neutron/extensions/es_metering.py:38-49 | on None and on every value `int()` accepts, the validator as written and the corrected one agree |
| EsMeteringExt.ApiPathHidesDefect | neutron/extensions/es_metering.py:73-76 | on the API path the converter runs first, so the validator as written never raises there: a port is accepted iff it is None or a number from 1 to 65535, and a value that is not a number is refused with InvalidInput by the converter |
| EsMeteringExt.PortNumbersAccepted | neutron/extensions/es_metering.py:41-49 | every port 1..65535, as an integer or as its decimal text, is accepted, and the text reads back as that number |
| EsMeteringExt.AcceptedLabelShape | neutron/extensions/es_metering.py:67-76 | a label's attributes pass iff its direction is `ingress` or `egress` and its port is None or a number in 1..65535 |
| TargetRouters.TargetRoutersSpec | neutron/db/firewall/targetrouters_db.py:82-84 | a router is a target of the firewall iff a binding pairs them, and with the primary key unique no router is listed twice |
| TargetRouters.FirewallsUsingSpec | neutron/db/firewall/targetrouters_db.py:57-62 | the firewalls listed for a router are exactly those bound to it |
| TargetRouters.CheckRouterInUseSpec | neutron/db/firewall/targetrouters_db.py:57-66 | RouterInUseByFirewall is raised iff some binding references the router, and it names that router and exactly the firewalls bound to it |
| TargetRouters.NewBindingsSpec | neutron/db/firewall/targetrouters_db.py:68-80 | a create adds a binding for exactly the listed routers that exist, all for this firewall, skipping missing routers |
| TargetRouters.WithoutFirewallSpec | neutron/db/firewall/targetrouters_db.py:86-91 | the delete removes every binding of the firewall and keeps every other binding |
| TargetRouters.DeleteThenGet | neutron/db/firewall/targetrouters_db.py:82-91 | after a delete the firewall has no target routers and every other firewall keeps its targets |
| TargetRouters.FirewallRes.constructor | neutron/db/firewall/targetrouters_db.py:47 | a firewall dict starts without the target-routers key |
| TargetRouters.FirewallTargetRoutersMixin.constructor | neutron/db/firewall/targetrouters_db.py:31-41 | the binding table starts empty over the given routers |
| TargetRouters.FirewallTargetRoutersMixin.ExtendFirewallDict | neutron/db/firewall/targetrouters_db.py:47-52 | the firewall dict gets the list of routers bound to that firewall |
| TargetRouters.FirewallTargetRoutersMixin.CheckRouterInUse | neutron/db/firewall/targetrouters_db.py:57-66 | the loop raises iff the router is referenced, naming exactly the firewalls bound to it |
| TargetRouters.FirewallTargetRoutersMixin.GetTargetRouters | neutron/db/firewall/targetrouters_db.py:82-84 | returns the firewall's routers in table order: exactly the routers bound to it |
| TargetRouters.FirewallTargetRoutersMixin.CreateTargetRouters | neutron/db/firewall/targetrouters_db.py:68-80 | with no key then duplicated, the new bindings are appended; otherwise the transaction rolls back with DuplicateEntry naming a listed router; the primary key stays unique |
| TargetRouters.FirewallTargetRoutersMixin.DeleteTargetRouters | neutron/db/firewall/targetrouters_db.py:86-91 | the table becomes the table without the firewall's bindings, as WithoutFirewallSpec characterises |
| VpnPlugin.NormalizeProviderName | neutron/services/vpn/plugin.py:120-121 | normalising keeps the name's length |
| VpnPlugin.NormalizeSpec | neutron/services/vpn/plugin.py:120-121 | a normalised name has no upper-case letter, every other character is kept, and normalising twice is normalising once |
| VpnPlugin.ValidateProviderSpec | neutron/services/vpn/plugin.py:149-153 | a provider is refused iff no driver is loaded under its name, with InvalidInput naming it |
| VpnPlugin.ProviderNameSpec | neutron/services/vpn/plugin.py:118-129 | a requested provider is normalised and accepted iff loaded, else InvalidInput naming it; without one the default is returned; with no (truthy) default, InvalidInput naming the service when the dict has an `id`, and KeyError('id') when it has none |
| VpnPlugin.ProviderNameStable | neutron/services/vpn/plugin.py:118-129 | requesting the provider name the plugin returned gives it back unchanged |
| VpnPlugin.NoDefaultOnCreateRaises | neutron/services/vpn/plugin.py:125-132 | as written, creating a service with no provider and no default raises KeyError('id'), because the POST body has no `id`; the intended lookup refuses it with InvalidInput |
| VpnPlugin.ProviderNameIntendedSpec | neutron/services/vpn/plugin.py:118-129 | the lookup as intended only refuses with InvalidInput, succeeds iff the requested provider is loaded or there is no request and a default, returns that provider, and agrees with the code as written whenever the dict has an id |
| VpnPlugin.GetValidatorSpec | neutron/services/vpn/plugin.py:111-116 | no (or an empty) provider gives no validator; a loaded provider gives its driver's validator; a KeyError arises iff a non-empty provider is not loaded |
| VpnPlugin.CheckOrphansSpec | neutron/services/vpn/plugin.py:95-109 | start-up exits iff some stored service's provider is not loaded, and the exit names exactly those providers |
| VpnPlugin.GroupByProviderFound | neutron/services/vpn/plugin.py:81-87 | grouping succeeds iff every listed service exists; otherwise it fails with VpnServiceNotFound for a listed service that does not |
| VpnPlugin.ServedSpec | neutron/services/vpn/plugin.py:81-87 | a provider's group holds exactly the listed services whose provider it is |
| VpnPlugin.GroupByProviderSpec | neutron/services/vpn/plugin.py:76-87 | the groups are keyed by exactly the providers of the listed services, and each group is the services of that provider in the order listed |
| VpnPlugin.CheckGroupsSpec | neutron/services/vpn/plugin.py:89-93 | in any order of the providers, the check passes iff every provider is loaded with a PPTP driver; a failure is a KeyError for an unloaded provider or BadProviderForPPTP with the whole group of a non-PPTP provider |
| VpnPlugin.PptpCredentialCheckSpec | neutron/services/vpn/plugin.py:75-93 | the check as intended, on the credential's own attributes (as written it is handed the request body, see Findings): for existing services it passes iff every listed service's provider is loaded with a PPTP driver, whatever the dict order; a BadProviderForPPTP names all listed services of one offending provider |
| VpnPlugin.CheckDriversForPptpCredential | neutron/services/vpn/plugin.py:75-93 | the check given the `vpnservices` attribute itself: an unset service list passes; a missing service gives VpnServiceNotFound; otherwise the loops give the group check's result for the order the dict was walked in |
| VpnPlugin.ListedServices | neutron/services/vpn/plugin.py:77-80 | the check finds services to walk iff the dict it is handed has the key `vpnservices` with a set value, and then walks that value |
| VpnPlugin.CheckPptpCredentialRequest | neutron/services/vpn/plugin.py:211-222 | the credential check as the create and update calls run it, on the request body: what the body holds under `vpnservices` decides, and a body without that key passes |
| VpnPlugin.WrappedCredentialSkipsCheck | neutron/services/vpn/plugin.py:211-222 | as written, no request body the API layer builds lists any service to the check, so every credential passes, including one listing a service served by the IPsec driver, which the check on the credential's attributes refuses with BadProviderForPPTP |
| VpnPlugin.GroupByProviderAbsorbs | neutron/services/vpn/plugin.py:81-83 | the first missing service stops the grouping: a failed prefix is the result of the whole list |
| VpnPlugin.IpsecCheckAsWrittenMisreports | neutron/services/vpn/plugin.py:170-175 | as written, a connection on any service whose loaded driver is not an IPsec driver fails with KeyError('vpnservice_id'), where the corrected check raises BadProviderForIPsec naming the service |
| VpnPlugin.IpsecCheckSpec | neutron/services/vpn/plugin.py:170-176 | the corrected check accepts iff the service's provider is loaded with an IPsec driver, returning its validator; any other loaded driver gives BadProviderForIPsec naming the service; on acceptance it agrees with the code as written |
| PptpServiceDriver.AgentTopicSpec | neutron/services/vpn/service_drivers/pptp.py:65-68 | the per-host topic is the agents' topic, a dot, then the host, so the host can be read back and different hosts get different topics |
| PptpServiceDriver.FanoutSpec | neutron/services/vpn/service_drivers/pptp.py:118-128 | a fan-out sends exactly one cast per hosting agent, in host order, each to that host's topic with the same method, arguments and version 1.0 |
| PptpServiceDriver.ActionsSpec | neutron/services/vpn/service_drivers/pptp.py:135-144 | an update sends nothing unless the admin state changes, starts on a switch to up and stops without delete on a switch to down; a delete stops with delete exactly an admin-up service |
| PptpServiceDriver.UpdateThereAndBack | neutron/services/vpn/service_drivers/pptp.py:135-140 | flipping the admin state and flipping it back pairs a start with a stop |
| PptpServiceDriver.PptpVpnAgentApi.constructor | neutron/services/vpn/service_drivers/pptp.py:54-56 | the agent API keeps its topic and has sent nothing |
| PptpServiceDriver.PptpVpnAgentApi.AgentNotification | neutron/services/vpn/service_drivers/pptp.py:58-68 | appends one cast to `topic.host` with the method, the arguments and the given version or else 1.0 |
| PptpServiceDriver.PptpVpnAgentApi.StartVpnservice | neutron/services/vpn/service_drivers/pptp.py:70-71 | appends one `start_vpnservice` cast to the host with the service and its local address |
| PptpServiceDriver.PptpVpnAgentApi.StopVpnservice | neutron/services/vpn/service_drivers/pptp.py:73-74 | appends one `stop_vpnservice` cast to the host with the service and the delete flag |
| PptpServiceDriver.PptpVpnDriver.constructor | neutron/services/vpn/service_drivers/pptp.py:96-104 | the driver keeps its agent API and the plugin state it reads, with no status set |
| PptpServiceDriver.PptpVpnDriver.StartVpnservice | neutron/services/vpn/service_drivers/pptp.py:118-123 | a missing subnet gives SubnetNotFound and sends nothing; otherwise a start with the subnet's gateway as local address goes to every hosting agent |
| PptpServiceDriver.PptpVpnDriver.StopVpnservice | neutron/services/vpn/service_drivers/pptp.py:125-128 | a stop with the delete flag goes to every hosting agent |
| PptpServiceDriver.PptpVpnDriver.CreateVpnservice | neutron/services/vpn/service_drivers/pptp.py:130-133 | the service is marked DOWN, nothing else in the plugin changes, then it is started on its agents whatever its admin state |
| PptpServiceDriver.PptpVpnDriver.UpdateVpnservice | neutron/services/vpn/service_drivers/pptp.py:135-140 | the casts are those of the update's action: none, a stop without delete, or a start (or SubnetNotFound) |
| PptpServiceDriver.PptpVpnDriver.DeleteVpnservice | neutron/services/vpn/service_drivers/pptp.py:142-144 | an admin-up service is stopped with delete on its agents; an admin-down one sends nothing |
| PptpServiceDriver.FirstProvider | neutron/services/vpn/service_drivers/pptp.py:40-44 | a provider found is one of this driver's; none is found iff no walked provider's driver is this one |
| PptpServiceDriver.ReportStatusProvider | neutron/services/vpn/service_drivers/pptp.py:37-47 | the loop walks every provider once in some order and reports the first whose driver is this one |
| PptpServiceDriver.ReportStatusProviderSpec | neutron/services/vpn/service_drivers/pptp.py:37-47 | the reported provider is one of this driver's, there is none iff no provider is, and with a single such provider it is reported in any walk order |
| EayunNotifier.StatusChangedSpec | neutron/notifiers/eayun.py:11-14 | the event type is the resource followed by `.status.changed`, the resource can be read back from it, and two notifications give the same event exactly when resource, id and status agree |
| EayunNotifier.DispatchSpec | neutron/notifiers/eayun.py:79-92 | exactly the six service names have a handler, each a different one, and every other name raises NotImplementedError |
| EayunNotifier.IpsecEventsAppend | neutron/notifiers/eayun.py:34-43 | the IPsec handler's events are, per service in order, its vpnservice event followed by one event per connection |
| EayunNotifier.PortEventsSpec | neutron/notifiers/eayun.py:72-77 | one pptp_port event per updated port, in order, ACTIVE exactly when it is connected and DOWN otherwise |
| EayunNotifier.HandlersSpec | neutron/notifiers/eayun.py:20-77 | each handler calls the wrapped function first and notifies only after it returns, nothing when it raises; only the firewall handler returns its result; the load-balancer handler is silent for members and the member handler notifies only for a subclass of its model |

## Left out

- The operating system under the PPTP agent is abstract. This covers config directories, the jinja2 rendering of the ppp options file, `utils.replace_file`, namespace execution, `/proc` reads, the connections directory and the kill commands. What the probes would read is per-process state, and what the agent does is a trace of actions.
- RPC and messaging plumbing is reduced to messages appended to a list or events returned in order. This covers the report_status cast of the agent, the consumers and connections, and the oslo notifier. The topic constants in `neutron/common/topics.py` are not part of this model and stay symbolic.
- The `lockutils` lock, the fixed-interval timer and consumer threads are left out. `SyncFromServer` and `CheckAndReport` run as atomic sequential operations.
- Python dict and set iteration order is not fixed by the code, so the model never fixes it either. Loops over a map or set walk an arbitrary enumeration, and each method returns that enumeration as a ghost out-parameter.
- The SQLAlchemy layer (sessions, queries, joinedload, paging, `_fields` and filters) is left out. Tables are maps or sequences of rows. `get_es_metering_labels` paging and filters (es_metering_db.py:109-119) are left out.
- Randomness is a parameter. The MAC draws of `_create_dvr_mac_address` are a given sequence of draws, and `random.choice` in the chance scheduler is a given number `pick`, taken modulo the number of candidates.
- A request body handed to the PPTP credential check is a map from key to what iterating the value walks (a list's items, a dict's keys), or to unset for None. Other value types are not modelled.
- netaddr parsing is left out: a member's address is a natural number in the HAProxy sort key. `jsonutils.loads` of extra actions is left out: the parsed extra action is an input.
- Unseen base classes and helpers are not part of this model:
  - `IptablesMeteringDriver.update_routers` and iptables_manager internals beyond add/remove of chains and rules;
  - `is_eligible_agent` and `get_configuration_dict`, which are inputs;
  - the `VPNPluginDb` CRUD;
  - `pconf.normalize_provider_name`, modelled as ASCII lower-casing.
- The constants files `neutron/plugins/common/constants.py` and `neutron/common/constants.py` are not part of this model. Their values appear as named string constants.
- HaproxyCfg: `save_config` (cfg.py:70-79) writes the file and is left out; only the section lines are modelled. The stats section options (`STATS_MAP`) are left out too.
- HaproxyCfg.SortByKey: does not state that Python's sort is stable. Members with equal keys may end in either order.
- HaproxyCfg.BuildPolicyAndAcl: the rule values `_build_acl` converts in place are not written back into the policy array. The model only shows, through `RebuildingAnAclFails`, that building a rule twice fails.
- DvrMac: `get_subnet_for_dvr`, `get_ports_on_host_by_subnet`, `delete_dvr_mac_address`, `get_dvr_mac_address_list` and the agent notifier call are left out. They are plain queries or notifications, and the core does not use them in its grouping.
- VpnPlugin: create/update/delete of VPN services and the IPsec update/delete paths are left out. They call `VPNPluginDb` CRUD, which is not part of this model. Only their provider checks are modelled; `create_vpnservice` runs the provider lookup on the service dict of the POST body, which has no `id`.
- PptpServiceDriver: the credential notifications (service_drivers/pptp.py:76-90) and the server's `sync_from_server` answer (service_drivers/pptp.py:146-150) are left out. They only forward database rows.
- PptpAgent.PptpDriver.StartAddedServices: an added service record without the key `localip` makes `vpnservice.pop('localip')` (pptp.py:309) raise KeyError; the model's record always carries the value, possibly None, so that KeyError is not modelled.
- EsMeteringExt: a `tcp_port` value is None, an integer, a string or a value `int()` refuses. A float, which `int()` truncates (80.9 gives 80), and a bool, which `int()` turns into 0 or 1, are not represented.
- AgentScheduler.BindOutcome: the agents of a PoolsBoundToDifferentAgents error are a set, where agent_scheduler.py:131 builds a list of the bindings' agent ids; the error's content therefore loses their order and repeats.
- Alembic migrations, the declarative attribute maps of `loadbalancer_l7.py` and `firewall_target_routers.py`, and the URL-path regular expression of the load-balancer constants are left out.

## Findings

| source | as written | input that shows it | evidently intended | confidence | as-written member | corrected member |
|---|---|---|---|---|---|---|
| neutron/services/vpn/device_drivers/pptp.py:316 | `stop_process(vpnservice_id, deleted=False)` passes a keyword the method does not have (its parameter is `delete`) | a delta whose `disabled` list is non-empty: TypeError, and the deleted services, credentials and ports of the delta are never applied | stop the disabled service and keep it (`delete=False`), then go on with the sync | not executed | PptpAgent.DisabledStopsTheSync | PptpAgent.StageIntendedDisables |
| neutron/services/vpn/device_drivers/pptp.py:355 | `port_id not in ports['added']` compares a port id with (port id, port) pairs, so it always holds | any delta that adds a port to an existing process and also updates that port's credential, without deleting the port: the port is disconnected right after being added | skip the ports added by the same delta | not executed | PptpAgent.AddedPortIsDisconnected | PptpAgent.IntendedDisconnects |
| neutron/extensions/es_metering.py:41-46 | after `int(data)` fails, the message is set but `val` is then read unassigned | a direct call of the validator registered as `type:tcp_port_or_none` with `"http"` or `[80]`: UnboundLocalError instead of the "is not a valid number" message. The defect is latent: on the API path the attribute's `convert_to_int_if_not_none` (es_metering.py:76) refuses such values first (EsMeteringExt.ApiPathHidesDefect) | return the message for a value `int()` refuses | not executed | EsMeteringExt.NonNumericPortRaises | EsMeteringExt.ValidateTcpPortSpec |
| neutron/services/loadbalancer/agent_scheduler.py:187-194 | the already-hosted branch reads `lbaas_agent['id']`, but the hosting lookup returns `{'agent': ...}` | scheduling a pool that is already bound: KeyError('id') | read `lbaas_agent['agent']['id']` and return the hosting agent | not executed | AgentScheduler.HostedBranchRaises | AgentScheduler.HostedBranchReadsAgent |
| neutron/db/metering/es_metering_db.py:96 | the update calls `updte` on the row | any update of an existing label: AttributeError | `update` the row with the new fields | not executed | EsMeteringDb.UpdateAsWrittenFails | EsMeteringDb.EsMeteringDbMixin.UpdateEsMeteringLabel |
| neutron/services/vpn/plugin.py:125-132 | the no-default refusal formats `vpnservice['id']`, but `create_vpnservice` passes the POST body's service dict, which has no `id` | creating a VPN service without a provider when no default provider is configured: KeyError('id'), a server error, instead of InvalidInput | refuse the request with InvalidInput | not executed | VpnPlugin.NoDefaultOnCreateRaises | VpnPlugin.ProviderNameIntendedSpec |
| neutron/services/vpn/plugin.py:170-175 | the provider error reads `vpnservice_id` from the outer request body, which only holds `ipsec_site_connection` | creating an IPsec connection on a service served by the PPTP driver: KeyError('vpnservice_id') instead of BadProviderForIPsec | read the id from the connection and raise BadProviderForIPsec naming the service | not executed | VpnPlugin.IpsecCheckAsWrittenMisreports | VpnPlugin.IpsecCheckSpec |
| neutron/services/vpn/plugin.py:211-222 | both calls hand the check the whole request body, whose only key is `pptp_credential`, so its test for `vpnservices` never holds | creating a credential for a service served by the IPsec driver: accepted | hand the check `pptp_credential['pptp_credential']`, so the listed services are checked | not executed | VpnPlugin.WrappedCredentialSkipsCheck | VpnPlugin.PptpCredentialCheckSpec |
