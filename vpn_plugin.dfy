/** The provider checks of the VPN service plugin: which loaded driver a
    VPN service, a PPTP credential or an IPsec connection is served by,
    and when the plugin refuses a request or its own start-up because of
    a provider. */
module VpnPlugin {
  import opened Common

  const Ipsec: string := "ipsec"
  const Pptp: string := "pptp"

  /** A loaded service driver: its service type and the name of its
      validator, if it has one. */
  datatype Driver = Driver(serviceType: string, validator: Option<string>)

  /** The provider a stored VPN service is associated with. */
  datatype VpnService = VpnService(id: string, provider: string)

  /** A request attribute: unset (missing, None or not specified) or set. */
  datatype Attr<T> = Unset | Set(value: T)

  datatype PluginError =
    | InvalidInput(message: string)
    | BadProviderForPPTP(vpnserviceIds: seq<string>)
    | BadProviderForIPsec(vpnserviceId: string)
    | VpnServiceNotFound(vpnserviceId: string)
    | KeyError(key: string)
      /** Start-up aborted with the providers services still use. */
    | SystemExit(lostProviders: set<string>)

  datatype Result<T> = Ok(value: T) | Err(error: PluginError)

  /** The loaded drivers by provider name, and the default provider. */
  datatype Providers = Providers(drivers: map<string, Driver>, defaultProvider: Option<string>)

  // ---------------------------------------------------------------------
  // Provider names

  function LowerChar(c: char): char
  {
    if 'A' <= c <= 'Z' then (c as int + 32) as char else c
  }

  /** `normalize_provider_name`: the name in lower case. */
  function NormalizeProviderName(name: string): (r: string)
    ensures |r| == |name|
  {
    seq(|name|, i requires 0 <= i < |name| => LowerChar(name[i]))
  }

  /** A normalised name has no upper-case letter, so normalising again
      changes nothing; every other character is kept. */
  lemma NormalizeSpec(name: string)
    ensures forall i | 0 <= i < |name| :: !('A' <= NormalizeProviderName(name)[i] <= 'Z')
    ensures forall i | 0 <= i < |name| && !('A' <= name[i] <= 'Z') :: NormalizeProviderName(name)[i] == name[i]
    ensures NormalizeProviderName(NormalizeProviderName(name)) == NormalizeProviderName(name)
  {
    var n := NormalizeProviderName(name);
    assert forall i | 0 <= i < |n| :: LowerChar(n[i]) == n[i];
  }

  function NoProviderMsg(provider: string): string
  {
    "No provider with name '" + provider + "' found."
  }

  function NoDefaultMsg(serviceId: string): string
  {
    "No default provider specified for VPN Service " + serviceId
  }

  /** The refusal for a new service, which has no id yet. */
  const NoDefaultForNewServiceMsg: string := "No default provider specified for VPN Service"

  /** `validate_provider`. */
  function ValidateProvider(drivers: map<string, Driver>, provider: string): Option<PluginError>
  {
    if provider !in drivers then Some(InvalidInput(NoProviderMsg(provider))) else None
  }

  /** A provider is refused iff no driver is loaded under its name. */
  lemma ValidateProviderSpec(drivers: map<string, Driver>, provider: string)
    ensures ValidateProvider(drivers, provider).None? <==> provider in drivers
    ensures provider !in drivers ==> ValidateProvider(drivers, provider) == Some(InvalidInput(NoProviderMsg(provider)))
  {
  }

  /** `if not self.default_provider`: an empty name is no default. */
  predicate HasDefault(p: Providers)
  {
    p.defaultProvider.Some? && p.defaultProvider.value != ""
  }

  /** `_get_provider_name` as written, for a service dict whose `id` key
      holds `serviceId` (None when the dict has no `id`) and the requested
      provider: without a provider and without a default, the refusal's
      message reads `vpnservice['id']`. */
  function ProviderName(p: Providers, serviceId: Option<string>, provider: Attr<string>): Result<string>
  {
    if provider.Set? then
      var name := NormalizeProviderName(provider.value);
      match ValidateProvider(p.drivers, name)
      case Some(e) => Err(e)
      case None => Ok(name)
    else if !HasDefault(p) then
      if serviceId.None? then Err(KeyError("id")) else Err(InvalidInput(NoDefaultMsg(serviceId.value)))
    else Ok(p.defaultProvider.value)
  }

  /** A requested provider is normalised and must be loaded; without one
      the default is used; without a default the request is refused with
      the message naming the service, or, when the dict has no `id`, the
      lookup of `id` raises. */
  lemma ProviderNameSpec(p: Providers, serviceId: Option<string>, provider: Attr<string>)
    ensures provider.Set? ==>
              (ProviderName(p, serviceId, provider).Ok? <==> NormalizeProviderName(provider.value) in p.drivers)
    ensures provider.Set? && ProviderName(p, serviceId, provider).Ok? ==>
              ProviderName(p, serviceId, provider).value == NormalizeProviderName(provider.value)
    ensures provider.Set? && ProviderName(p, serviceId, provider).Err? ==>
              ProviderName(p, serviceId, provider).error == InvalidInput(NoProviderMsg(NormalizeProviderName(provider.value)))
    ensures provider.Unset? && HasDefault(p) ==> ProviderName(p, serviceId, provider) == Ok(p.defaultProvider.value)
    ensures provider.Unset? && !HasDefault(p) && serviceId.Some? ==>
              ProviderName(p, serviceId, provider) == Err(InvalidInput(NoDefaultMsg(serviceId.value)))
    ensures provider.Unset? && !HasDefault(p) && serviceId.None? ==>
              ProviderName(p, serviceId, provider) == Err(KeyError("id"))
  {
    if provider.Set? {
      ValidateProviderSpec(p.drivers, NormalizeProviderName(provider.value));
    }
  }

  /** A provider name already returned is returned again when it is
      requested explicitly. */
  lemma ProviderNameStable(p: Providers, serviceId: Option<string>, provider: string)
    requires ProviderName(p, serviceId, Set(provider)).Ok?
    ensures ProviderName(p, serviceId, Set(ProviderName(p, serviceId, Set(provider)).value))
            == ProviderName(p, serviceId, Set(provider))
  {
    NormalizeSpec(provider);
  }

  /** `create_vpnservice` hands `_get_provider_name` the service dict of
      the POST body, which never has an `id` (the id is not settable on
      creation): with no provider and no default, creating a service
      raises KeyError('id') instead of refusing the request, while the
      intended lookup refuses it with InvalidInput. */
  lemma NoDefaultOnCreateRaises(p: Providers, provider: Attr<string>)
    requires provider.Unset? && !HasDefault(p)
    ensures ProviderName(p, None, provider) == Err(KeyError("id"))
    ensures ProviderNameIntended(p, None, provider) == Err(InvalidInput(NoDefaultForNewServiceMsg))
  {
  }

  /** `_get_provider_name` as evidently intended: without a provider and
      without a default the request is refused with InvalidInput, naming
      the service when the dict has its id. */
  function ProviderNameIntended(p: Providers, serviceId: Option<string>, provider: Attr<string>): Result<string>
  {
    if provider.Set? then
      var name := NormalizeProviderName(provider.value);
      match ValidateProvider(p.drivers, name)
      case Some(e) => Err(e)
      case None => Ok(name)
    else if !HasDefault(p) then
      Err(InvalidInput(if serviceId.None? then NoDefaultForNewServiceMsg else NoDefaultMsg(serviceId.value)))
    else Ok(p.defaultProvider.value)
  }

  /** The intended lookup only ever refuses with InvalidInput: a requested
      provider that is not loaded, or no provider and no default; it gives
      the loaded requested provider or the default otherwise, and agrees
      with the code as written whenever the dict has an id. */
  lemma ProviderNameIntendedSpec(p: Providers, serviceId: Option<string>, provider: Attr<string>)
    ensures ProviderNameIntended(p, serviceId, provider).Err? ==> ProviderNameIntended(p, serviceId, provider).error.InvalidInput?
    ensures ProviderNameIntended(p, serviceId, provider).Ok?
            <==> (provider.Set? && NormalizeProviderName(provider.value) in p.drivers) || (provider.Unset? && HasDefault(p))
    ensures ProviderNameIntended(p, serviceId, provider).Ok? ==>
              ProviderNameIntended(p, serviceId, provider).value ==
                if provider.Set? then NormalizeProviderName(provider.value) else p.defaultProvider.value
    ensures serviceId.Some? ==> ProviderNameIntended(p, serviceId, provider) == ProviderName(p, serviceId, provider)
    ensures ProviderName(p, serviceId, provider).Ok? ==> ProviderNameIntended(p, serviceId, provider) == ProviderName(p, serviceId, provider)
  {
    if provider.Set? {
      ValidateProviderSpec(p.drivers, NormalizeProviderName(provider.value));
    }
  }

  /** `_get_validator`: a truthy provider gives its driver's validator. */
  function GetValidator(drivers: map<string, Driver>, provider: Option<string>): Result<Option<string>>
  {
    if provider.Some? && provider.value != "" then
      if provider.value in drivers then Ok(drivers[provider.value].validator) else Err(KeyError(provider.value))
    else Ok(None)
  }

  lemma GetValidatorSpec(drivers: map<string, Driver>, provider: Option<string>)
    ensures provider.None? ==> GetValidator(drivers, provider) == Ok(None)
    ensures provider.Some? && provider.value in drivers ==>
              GetValidator(drivers, provider).Ok?
              && (provider.value != "" ==> GetValidator(drivers, provider).value == drivers[provider.value].validator)
    ensures GetValidator(drivers, provider).Err? <==> provider.Some? && provider.value != "" && provider.value !in drivers
  {
  }

  // ---------------------------------------------------------------------
  // Orphaned services

  /** The providers of stored services that are not loaded. */
  function LostProviders(services: seq<VpnService>, providerNames: set<string>): set<string>
  {
    set s | s in services && s.provider !in providerNames :: s.provider
  }

  /** `_check_orphan_vpnservice_associations`. */
  function CheckOrphans(services: seq<VpnService>, providerNames: set<string>): Option<PluginError>
  {
    var lost := LostProviders(services, providerNames);
    if lost != {} then Some(SystemExit(lost)) else None
  }

  /** Start-up is aborted iff some stored service's provider is not
      loaded, and the abort names exactly those providers. */
  lemma CheckOrphansSpec(services: seq<VpnService>, providerNames: set<string>)
    ensures CheckOrphans(services, providerNames).Some? <==> exists s | s in services :: s.provider !in providerNames
    ensures CheckOrphans(services, providerNames).Some? ==>
              forall q :: q in CheckOrphans(services, providerNames).value.lostProviders
                          <==> q !in providerNames && exists s | s in services :: s.provider == q
  {
    if s :| s in services && s.provider !in providerNames {
      assert s.provider in LostProviders(services, providerNames);
    }
  }

  // ---------------------------------------------------------------------
  // PPTP credentials

  /** The `providers` dict of `_check_drivers_for_pptp_credential`: the
      listed services grouped by provider, in the order listed; a service
      that does not exist stops the check. */
  function GroupByProvider(services: map<string, VpnService>, ids: seq<string>): Result<map<string, seq<string>>>
    decreases |ids|
  {
    if |ids| == 0 then Ok(map[])
    else
      var id := ids[|ids| - 1];
      match GroupByProvider(services, ids[..|ids| - 1])
      case Err(e) => Err(e)
      case Ok(g) =>
        if id !in services then Err(VpnServiceNotFound(id))
        else
          var p := services[id].provider;
          Ok(g[p := (if p in g then g[p] else []) + [id]])
  }

  /** Grouping succeeds iff every listed service exists, and otherwise
      fails on a listed service that does not. */
  lemma {:induction false} GroupByProviderFound(services: map<string, VpnService>, ids: seq<string>)
    ensures GroupByProvider(services, ids).Ok? <==> forall id | id in ids :: id in services
    ensures GroupByProvider(services, ids).Err? ==>
              GroupByProvider(services, ids).error.VpnServiceNotFound?
              && GroupByProvider(services, ids).error.vpnserviceId in ids
              && GroupByProvider(services, ids).error.vpnserviceId !in services
    decreases |ids|
  {
    if |ids| > 0 {
      var init := ids[..|ids| - 1];
      GroupByProviderFound(services, init);
      assert ids == init + [ids[|ids| - 1]];
    }
  }

  /** The listed services a provider serves, in the order listed. */
  function Served(services: map<string, VpnService>, ids: seq<string>, provider: string): seq<string>
    requires forall id | id in ids :: id in services
    decreases |ids|
  {
    if |ids| == 0 then []
    else
      var id := ids[|ids| - 1];
      assert forall x | x in ids[..|ids| - 1] :: x in ids;
      Served(services, ids[..|ids| - 1], provider) + (if services[id].provider == provider then [id] else [])
  }

  lemma {:induction false} ServedSpec(services: map<string, VpnService>, ids: seq<string>, provider: string)
    requires forall id | id in ids :: id in services
    ensures forall x :: x in Served(services, ids, provider) <==> x in ids && services[x].provider == provider
    decreases |ids|
  {
    if |ids| > 0 {
      var init := ids[..|ids| - 1];
      assert forall x | x in init :: x in ids;
      ServedSpec(services, init, provider);
      assert ids == init + [ids[|ids| - 1]];
    }
  }

  lemma {:induction false} ServedNone(services: map<string, VpnService>, ids: seq<string>, provider: string)
    requires forall id | id in ids :: id in services && services[id].provider != provider
    ensures Served(services, ids, provider) == []
    decreases |ids|
  {
    if |ids| > 0 {
      var init := ids[..|ids| - 1];
      assert forall x | x in init :: x in ids;
      ServedNone(services, init, provider);
    }
  }

  /** The providers of the listed services. */
  function ProvidersOf(services: map<string, VpnService>, ids: seq<string>): set<string>
    requires forall id | id in ids :: id in services
  {
    set id | id in ids :: services[id].provider
  }

  /** The groups are keyed by the providers of the listed services, and
      each provider gets exactly the listed services it serves, in the
      order listed. */
  lemma {:induction false} GroupByProviderSpec(services: map<string, VpnService>, ids: seq<string>)
    requires forall id | id in ids :: id in services
    ensures GroupByProvider(services, ids).Ok?
    ensures GroupByProvider(services, ids).value.Keys == ProvidersOf(services, ids)
    ensures forall p | p in GroupByProvider(services, ids).value ::
              GroupByProvider(services, ids).value[p] == Served(services, ids, p)
    decreases |ids|
  {
    GroupByProviderFound(services, ids);
    if |ids| > 0 {
      var init := ids[..|ids| - 1];
      var id := ids[|ids| - 1];
      assert ids == init + [id];
      assert forall x | x in init :: x in ids;
      GroupByProviderSpec(services, init);
      var g0 := GroupByProvider(services, init).value;
      var g := GroupByProvider(services, ids).value;
      var p := services[id].provider;
      assert g == g0[p := (if p in g0 then g0[p] else []) + [id]];
      assert ProvidersOf(services, ids) == ProvidersOf(services, init) + {p};
      if p !in g0 {
        forall x | x in init ensures services[x].provider != p {
          assert services[x].provider in ProvidersOf(services, init);
        }
        ServedNone(services, init, p);
      }
    }
  }

  /** The second loop: the groups in the order the dict yields them; the
      first provider that is not loaded, or whose driver is not a PPTP
      driver, stops the check. */
  function CheckGroups(drivers: map<string, Driver>, groups: map<string, seq<string>>, order: seq<string>)
    : Option<PluginError>
    requires forall p | p in order :: p in groups
  {
    if |order| == 0 then None
    else
      var p := order[0];
      if p !in drivers then Some(KeyError(p))
      else if drivers[p].serviceType != Pptp then Some(BadProviderForPPTP(groups[p]))
      else CheckGroups(drivers, groups, order[1..])
  }

  /** Taken in any order of the providers, the check passes iff every
      provider is loaded with a PPTP driver; a refusal names a provider
      that is not, with all of its listed services. */
  lemma {:induction false} CheckGroupsSpec(drivers: map<string, Driver>, groups: map<string, seq<string>>,
                                           order: seq<string>)
    requires forall p | p in order :: p in groups
    ensures CheckGroups(drivers, groups, order).None?
            <==> forall p | p in order :: p in drivers && drivers[p].serviceType == Pptp
    ensures CheckGroups(drivers, groups, order).Some? ==>
              var e := CheckGroups(drivers, groups, order).value;
              (e.KeyError? && e.key in order && e.key !in drivers)
              || (e.BadProviderForPPTP? && exists p | p in order && p in drivers ::
                    drivers[p].serviceType != Pptp && e.vpnserviceIds == groups[p])
  {
    if |order| > 0 {
      var p := order[0];
      assert forall q | q in order[1..] :: q in order;
      CheckGroupsSpec(drivers, groups, order[1..]);
      assert forall q | q in order :: q == p || q in order[1..];
    }
  }

  /** For existing services, the credential check passes iff every listed
      service's provider is loaded with a PPTP driver, whatever order the
      providers are walked in; the provider error lists all listed
      services of one provider that is not. */
  lemma PptpCredentialCheckSpec(drivers: map<string, Driver>, services: map<string, VpnService>,
                                ids: seq<string>, order: seq<string>)
    requires forall id | id in ids :: id in services
    requires GroupByProvider(services, ids).Ok? && Enumerates(order, GroupByProvider(services, ids).value.Keys)
    ensures CheckGroups(drivers, GroupByProvider(services, ids).value, order).None?
            <==> forall id | id in ids :: services[id].provider in drivers
                                          && drivers[services[id].provider].serviceType == Pptp
    ensures CheckGroups(drivers, GroupByProvider(services, ids).value, order).Some? ==>
              var e := CheckGroups(drivers, GroupByProvider(services, ids).value, order).value;
              (e.KeyError? && e.key !in drivers && e.key in ProvidersOf(services, ids))
              || (e.BadProviderForPPTP? && exists p | p in drivers && drivers[p].serviceType != Pptp ::
                    e.vpnserviceIds == Served(services, ids, p) && |e.vpnserviceIds| > 0)
  {
    var g := GroupByProvider(services, ids).value;
    GroupByProviderSpec(services, ids);
    CheckGroupsSpec(drivers, g, order);
    forall id | id in ids ensures services[id].provider in order {
      assert services[id].provider in ProvidersOf(services, ids);
    }
    var e := CheckGroups(drivers, g, order);
    if e.Some? && e.value.BadProviderForPPTP? {
      var p :| p in order && p in drivers && drivers[p].serviceType != Pptp && e.value.vpnserviceIds == g[p];
      var x :| x in ids && services[x].provider == p;
      ServedSpec(services, ids, p);
      assert x in Served(services, ids, p);
    }
  }

  /** `_check_drivers_for_pptp_credential`, given the `vpnservices`
      attribute it is meant to read; `order` is the order the `providers`
      dict is walked in. */
  method CheckDriversForPptpCredential(drivers: map<string, Driver>, services: map<string, VpnService>,
                                       vpnservices: Attr<seq<string>>)
    returns (err: Option<PluginError>, ghost order: seq<string>)
    ensures vpnservices.Unset? ==> err.None?
    ensures vpnservices.Set? && GroupByProvider(services, vpnservices.value).Err? ==>
              err == Some(GroupByProvider(services, vpnservices.value).error)
    ensures vpnservices.Set? && GroupByProvider(services, vpnservices.value).Ok? ==>
              var g := GroupByProvider(services, vpnservices.value).value;
              Enumerates(order, g.Keys) && err == CheckGroups(drivers, g, order)
  {
    order := [];
    if vpnservices.Unset? {
      return None, order;
    }
    var ids := vpnservices.value;
    var providers: map<string, seq<string>> := map[];
    for i := 0 to |ids|
      invariant GroupByProvider(services, ids[..i]) == Ok(providers)
    {
      assert ids[..i + 1][..i] == ids[..i];
      var id := ids[i];
      if id !in services {
        GroupByProviderAbsorbs(services, ids, i + 1);
        assert ids[..i + 1] == ids[..i] + [id];
        return Some(VpnServiceNotFound(id)), order;
      }
      var provider := services[id].provider;
      if provider in providers {
        providers := providers[provider := providers[provider] + [id]];
      } else {
        assert [] + [id] == [id];
        providers := providers[provider := [id]];
      }
    }
    assert ids[..|ids|] == ids;
    var walk := SetToSeq(providers.Keys);
    order := walk;
    for i := 0 to |walk|
      invariant CheckGroups(drivers, providers, walk) == CheckGroups(drivers, providers, walk[i..])
    {
      assert walk[i..][1..] == walk[i + 1..];
      var provider := walk[i];
      if provider !in drivers {
        return Some(KeyError(provider)), order;
      }
      if drivers[provider].serviceType != Pptp {
        return Some(BadProviderForPPTP(providers[provider])), order;
      }
    }
    err := None;
  }

  /** The resource name the API layer files a credential's attributes
      under in the request body. */
  const CredentialResource: string := "pptp_credential"

  /** `'vpnservices' in d and attrs.is_attr_set(d['vpnservices'])`: the
      value under 'vpnservices' when the dict has that key and the value is
      set. Each value of `d` stands for what iterating it walks: a list its
      items, a dict its keys. */
  function ListedServices(d: map<string, Attr<seq<string>>>): (r: Attr<seq<string>>)
    ensures r.Set? <==> "vpnservices" in d && d["vpnservices"].Set?
    ensures r.Set? ==> r == d["vpnservices"]
  {
    if "vpnservices" in d then d["vpnservices"] else Unset
  }

  /** The body `create_pptp_credential` and `update_pptp_credential`
      receive: the credential's dict under the resource name, which
      iterating walks as its attribute names. */
  function WrappedCredential(attributeNames: seq<string>): map<string, Attr<seq<string>>>
  {
    map[CredentialResource := Set(attributeNames)]
  }

  /** `create_pptp_credential` / `update_pptp_credential` as written: the
      check is handed the request body itself, and reads 'vpnservices'
      from it. */
  method CheckPptpCredentialRequest(drivers: map<string, Driver>, services: map<string, VpnService>,
                                    body: map<string, Attr<seq<string>>>)
    returns (err: Option<PluginError>, ghost order: seq<string>)
    ensures ListedServices(body).Unset? ==> err.None?
    ensures ListedServices(body).Set? && GroupByProvider(services, ListedServices(body).value).Err? ==>
              err == Some(GroupByProvider(services, ListedServices(body).value).error)
    ensures ListedServices(body).Set? && GroupByProvider(services, ListedServices(body).value).Ok? ==>
              var g := GroupByProvider(services, ListedServices(body).value).value;
              Enumerates(order, g.Keys) && err == CheckGroups(drivers, g, order)
  {
    var listed := if "vpnservices" in body then body["vpnservices"] else Unset;
    err, order := CheckDriversForPptpCredential(drivers, services, listed);
  }

  /** As written the check never sees the services a credential lists: a
      wrapped body has no 'vpnservices' key, so every request passes it,
      while the credential's own attributes would have been refused for a
      service served by the IPsec driver. */
  lemma WrappedCredentialSkipsCheck(attributeNames: seq<string>)
    ensures ListedServices(WrappedCredential(attributeNames)) == Unset
    ensures var drivers := map[Ipsec := Driver(Ipsec, None)];
            var services := map["s1" := VpnService("s1", Ipsec)];
            ListedServices(map["vpnservices" := Set(["s1"])]) == Set(["s1"]) &&
            GroupByProvider(services, ["s1"]) == Ok(map[Ipsec := ["s1"]]) &&
            CheckGroups(drivers, map[Ipsec := ["s1"]], [Ipsec]) == Some(BadProviderForPPTP(["s1"]))
  {
    var services := map["s1" := VpnService("s1", Ipsec)];
    var none: map<string, seq<string>> := map[];
    var listed: seq<string> := [];
    assert ["s1"][..0] == listed;
    assert GroupByProvider(services, listed) == Ok(none);
    assert listed + ["s1"] == ["s1"];
  }

  /** Once grouping a prefix fails, grouping the whole list fails the same
      way. */
  lemma {:induction false} GroupByProviderAbsorbs(services: map<string, VpnService>, ids: seq<string>, n: nat)
    requires n <= |ids| && GroupByProvider(services, ids[..n]).Err?
    ensures GroupByProvider(services, ids) == GroupByProvider(services, ids[..n])
    decreases |ids| - n
  {
    if n < |ids| {
      assert ids[..n + 1][..n] == ids[..n];
      GroupByProviderAbsorbs(services, ids, n + 1);
    } else {
      assert ids[..n] == ids;
    }
  }

  // ---------------------------------------------------------------------
  // IPsec site connections

  /** `_get_driver_for_ipsec_site_connection`: the driver of the
      connection's VPN service. */
  function DriverForConnection(drivers: map<string, Driver>, services: map<string, VpnService>,
                               vpnserviceId: string): Result<Driver>
  {
    if vpnserviceId !in services then Err(VpnServiceNotFound(vpnserviceId))
    else if services[vpnserviceId].provider !in drivers then Err(KeyError(services[vpnserviceId].provider))
    else Ok(drivers[services[vpnserviceId].provider])
  }

  /** The provider check of `create_ipsec_site_connection` as written: the
      error's service id is read from the request body instead of from the
      connection inside it, and the body has no such key. */
  function IpsecCheckAsWritten(drivers: map<string, Driver>, services: map<string, VpnService>,
                               vpnserviceId: string): Result<Option<string>>
  {
    match DriverForConnection(drivers, services, vpnserviceId)
    case Err(e) => Err(e)
    case Ok(driver) =>
      if driver.serviceType != Ipsec then Err(KeyError("vpnservice_id")) else Ok(driver.validator)
  }

  /** An IPsec connection on a service whose loaded driver is not an
      IPsec driver fails, as written, with a key error instead of the
      provider error. */
  lemma IpsecCheckAsWrittenMisreports(drivers: map<string, Driver>, services: map<string, VpnService>,
                                      vpnserviceId: string)
    requires vpnserviceId in services && services[vpnserviceId].provider in drivers
    requires drivers[services[vpnserviceId].provider].serviceType != Ipsec
    ensures IpsecCheckAsWritten(drivers, services, vpnserviceId) == Err(KeyError("vpnservice_id"))
    ensures IpsecCheck(drivers, services, vpnserviceId) == Err(BadProviderForIPsec(vpnserviceId))
  {
  }

  /** The provider check as evidently intended: the validator to create
      the connection with, or the error naming its service. */
  function IpsecCheck(drivers: map<string, Driver>, services: map<string, VpnService>,
                      vpnserviceId: string): Result<Option<string>>
  {
    match DriverForConnection(drivers, services, vpnserviceId)
    case Err(e) => Err(e)
    case Ok(driver) =>
      if driver.serviceType != Ipsec then Err(BadProviderForIPsec(vpnserviceId)) else Ok(driver.validator)
  }

  /** A connection is created only on a loaded IPsec driver, with that
      driver's validator; on any other driver it is refused with the
      provider error naming its service, before anything is written. */
  lemma IpsecCheckSpec(drivers: map<string, Driver>, services: map<string, VpnService>, vpnserviceId: string)
    ensures IpsecCheck(drivers, services, vpnserviceId).Ok?
            <==> vpnserviceId in services && services[vpnserviceId].provider in drivers
                 && drivers[services[vpnserviceId].provider].serviceType == Ipsec
    ensures IpsecCheck(drivers, services, vpnserviceId).Ok? ==>
              IpsecCheck(drivers, services, vpnserviceId).value == drivers[services[vpnserviceId].provider].validator
    ensures vpnserviceId in services && services[vpnserviceId].provider in drivers
            && drivers[services[vpnserviceId].provider].serviceType != Ipsec ==>
              IpsecCheck(drivers, services, vpnserviceId) == Err(BadProviderForIPsec(vpnserviceId))
    ensures IpsecCheck(drivers, services, vpnserviceId).Ok? ==>
              IpsecCheckAsWritten(drivers, services, vpnserviceId) == IpsecCheck(drivers, services, vpnserviceId)
  {
  }
}
