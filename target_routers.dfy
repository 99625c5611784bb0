/** The firewall target routers: the table binding a firewall to the
    routers it applies to, keyed by the (firewall, router) pair, and the
    operations that create, list, check and delete those bindings. */
module TargetRouters {
  import opened Common

  /** One row of the binding table. */
  datatype Binding = Binding(firewallId: string, routerId: string)

  datatype FwError =
    | RouterInUseByFirewall(routerId: string, firewalls: seq<string>)
      /** A second row with the same (firewall, router) key. */
    | DuplicateEntry(firewallId: string, routerId: string)

  /** The (firewall, router) pair is the primary key. */
  predicate KeysUnique(bindings: seq<Binding>)
  {
    forall i, j | 0 <= i < j < |bindings| :: bindings[i] != bindings[j]
  }

  // ---------------------------------------------------------------------
  // Queries

  /** `_get_target_routers`: the routers bound to the firewall, in table
      order. */
  function TargetRouters(bindings: seq<Binding>, firewallId: string): seq<string>
    decreases |bindings|
  {
    if |bindings| == 0 then []
    else
      var last := bindings[|bindings| - 1];
      TargetRouters(bindings[..|bindings| - 1], firewallId) + (if last.firewallId == firewallId then [last.routerId] else [])
  }

  /** The firewalls bound to the router, in table order. */
  function FirewallsUsing(bindings: seq<Binding>, routerId: string): seq<string>
    decreases |bindings|
  {
    if |bindings| == 0 then []
    else
      var last := bindings[|bindings| - 1];
      FirewallsUsing(bindings[..|bindings| - 1], routerId) + (if last.routerId == routerId then [last.firewallId] else [])
  }

  /** The targets of a firewall are exactly the routers bound to it, each
      listed once when keys are unique. */
  lemma {:induction false} TargetRoutersSpec(bindings: seq<Binding>, firewallId: string)
    ensures forall r :: r in TargetRouters(bindings, firewallId) <==> Binding(firewallId, r) in bindings
    ensures KeysUnique(bindings) ==>
              forall i, j | 0 <= i < j < |TargetRouters(bindings, firewallId)| ::
                TargetRouters(bindings, firewallId)[i] != TargetRouters(bindings, firewallId)[j]
    decreases |bindings|
  {
    if |bindings| > 0 {
      var init := bindings[..|bindings| - 1];
      var last := bindings[|bindings| - 1];
      TargetRoutersSpec(init, firewallId);
      assert bindings == init + [last];
      if KeysUnique(bindings) {
        assert KeysUnique(init) by {
          forall i, j | 0 <= i < j < |init| ensures init[i] != init[j] {
            assert init[i] == bindings[i] && init[j] == bindings[j];
          }
        }
        if last.firewallId == firewallId {
          assert last !in init by {
            forall i | 0 <= i < |init| ensures init[i] != last {
              assert init[i] == bindings[i];
            }
          }
          assert last.routerId !in TargetRouters(init, firewallId);
        }
      }
    }
  }

  /** The firewalls using a router are exactly those bound to it. */
  lemma {:induction false} FirewallsUsingSpec(bindings: seq<Binding>, routerId: string)
    ensures forall f :: f in FirewallsUsing(bindings, routerId) <==> Binding(f, routerId) in bindings
    decreases |bindings|
  {
    if |bindings| > 0 {
      var init := bindings[..|bindings| - 1];
      FirewallsUsingSpec(init, routerId);
      assert bindings == init + [bindings[|bindings| - 1]];
    }
  }

  /** `check_router_in_use`: the error lists the firewalls bound to the
      router, when there is one. */
  function CheckRouterInUse(bindings: seq<Binding>, routerId: string): Option<FwError>
  {
    var firewalls := FirewallsUsing(bindings, routerId);
    if |firewalls| > 0 then Some(RouterInUseByFirewall(routerId, firewalls)) else None
  }

  /** A router is reported in use iff some binding references it, and the
      report names exactly the firewalls bound to it. */
  lemma CheckRouterInUseSpec(bindings: seq<Binding>, routerId: string)
    ensures CheckRouterInUse(bindings, routerId).Some? <==> exists b | b in bindings :: b.routerId == routerId
    ensures CheckRouterInUse(bindings, routerId).Some? ==>
              CheckRouterInUse(bindings, routerId).value.RouterInUseByFirewall?
              && CheckRouterInUse(bindings, routerId).value.routerId == routerId
              && forall f :: f in CheckRouterInUse(bindings, routerId).value.firewalls <==> Binding(f, routerId) in bindings
  {
    FirewallsUsingSpec(bindings, routerId);
    var firewalls := FirewallsUsing(bindings, routerId);
    if b :| b in bindings && b.routerId == routerId {
      assert b == Binding(b.firewallId, routerId);
      assert b.firewallId in firewalls;
    }
    if |firewalls| > 0 {
      assert Binding(firewalls[0], routerId) in bindings;
    }
  }

  // ---------------------------------------------------------------------
  // Creating and deleting

  /** The bindings a create adds: one per listed router that exists, in
      the order listed. */
  function NewBindings(routers: set<string>, firewallId: string, routerIds: seq<string>): seq<Binding>
    decreases |routerIds|
  {
    if |routerIds| == 0 then []
    else
      var last := routerIds[|routerIds| - 1];
      NewBindings(routers, firewallId, routerIds[..|routerIds| - 1])
      + (if last in routers then [Binding(firewallId, last)] else [])
  }

  /** A create binds the firewall to exactly the listed routers that
      exist, skipping the missing ones, and adds nothing for any other
      firewall. */
  lemma {:induction false} NewBindingsSpec(routers: set<string>, firewallId: string, routerIds: seq<string>)
    ensures |NewBindings(routers, firewallId, routerIds)| <= |routerIds|
    ensures forall b :: b in NewBindings(routers, firewallId, routerIds)
                        <==> b.firewallId == firewallId && b.routerId in routerIds && b.routerId in routers
    decreases |routerIds|
  {
    if |routerIds| > 0 {
      var init := routerIds[..|routerIds| - 1];
      NewBindingsSpec(routers, firewallId, init);
      assert routerIds == init + [routerIds[|routerIds| - 1]];
    }
  }

  /** The table without the firewall's bindings. */
  function WithoutFirewall(bindings: seq<Binding>, firewallId: string): seq<Binding>
    decreases |bindings|
  {
    if |bindings| == 0 then []
    else
      var last := bindings[|bindings| - 1];
      WithoutFirewall(bindings[..|bindings| - 1], firewallId) + (if last.firewallId == firewallId then [] else [last])
  }

  /** Deleting removes all bindings of the firewall and keeps every other
      binding. */
  lemma {:induction false} WithoutFirewallSpec(bindings: seq<Binding>, firewallId: string)
    ensures forall b :: b in WithoutFirewall(bindings, firewallId) <==> b in bindings && b.firewallId != firewallId
    decreases |bindings|
  {
    if |bindings| > 0 {
      var init := bindings[..|bindings| - 1];
      WithoutFirewallSpec(init, firewallId);
      assert bindings == init + [bindings[|bindings| - 1]];
    }
  }

  /** After a delete the firewall has no target routers, and every other
      firewall keeps the ones it had. */
  lemma DeleteThenGet(bindings: seq<Binding>, firewallId: string, other: string)
    requires other != firewallId
    ensures TargetRouters(WithoutFirewall(bindings, firewallId), firewallId) == []
    ensures forall r :: r in TargetRouters(WithoutFirewall(bindings, firewallId), other)
                        <==> r in TargetRouters(bindings, other)
  {
    var w := WithoutFirewall(bindings, firewallId);
    WithoutFirewallSpec(bindings, firewallId);
    TargetRoutersSpec(w, firewallId);
    TargetRoutersSpec(w, other);
    TargetRoutersSpec(bindings, other);
    if |TargetRouters(w, firewallId)| > 0 {
      assert Binding(firewallId, TargetRouters(w, firewallId)[0]) in w;
    }
  }

  /** The firewall dict the extension fills in. */
  class FirewallRes {
    const id: string
    /** The `fw_target_routers` key, absent as None. */
    var targetRouters: Option<seq<string>>

    constructor(id: string)
      ensures this.id == id && targetRouters == None
    {
      this.id := id;
      targetRouters := None;
    }
  }

  /** The binding table and the router table it refers to. */
  class FirewallTargetRoutersMixin {
    var bindings: seq<Binding>
    var routers: set<string>

    ghost predicate Valid()
      reads this
    {
      KeysUnique(bindings) && forall b | b in bindings :: b.routerId in routers
    }

    constructor(routers: set<string>)
      ensures Valid() && bindings == [] && this.routers == routers
    {
      bindings := [];
      this.routers := routers;
    }

    /** `_extend_firewall_dict_target_routers`: the dict lists the router
        of each binding of its firewall. */
    method ExtendFirewallDict(res: FirewallRes)
      modifies res
      ensures res.targetRouters == Some(TargetRouters(bindings, res.id))
    {
      var routerIds := GetTargetRouters(res.id);
      res.targetRouters := Some(routerIds);
    }

    /** `check_router_in_use`. */
    method CheckRouterInUse(routerId: string) returns (err: Option<FwError>)
      ensures err.Some? <==> exists b | b in bindings :: b.routerId == routerId
      ensures err.Some? ==> err.value.RouterInUseByFirewall? && err.value.routerId == routerId
                            && forall f :: f in err.value.firewalls <==> Binding(f, routerId) in bindings
    {
      var firewalls: seq<string> := [];
      for i := 0 to |bindings|
        invariant firewalls == FirewallsUsing(bindings[..i], routerId)
      {
        assert bindings[..i + 1][..i] == bindings[..i];
        if bindings[i].routerId == routerId {
          firewalls := firewalls + [bindings[i].firewallId];
        }
      }
      assert bindings[..|bindings|] == bindings;
      CheckRouterInUseSpec(bindings, routerId);
      if |firewalls| > 0 {
        return Some(RouterInUseByFirewall(routerId, firewalls));
      }
      err := None;
    }

    /** `_get_target_routers`. */
    method GetTargetRouters(firewallId: string) returns (routerIds: seq<string>)
      ensures routerIds == TargetRouters(bindings, firewallId)
      ensures forall r :: r in routerIds <==> Binding(firewallId, r) in bindings
    {
      routerIds := [];
      for i := 0 to |bindings|
        invariant routerIds == TargetRouters(bindings[..i], firewallId)
      {
        assert bindings[..i + 1][..i] == bindings[..i];
        if bindings[i].firewallId == firewallId {
          routerIds := routerIds + [bindings[i].routerId];
        }
      }
      assert bindings[..|bindings|] == bindings;
      TargetRoutersSpec(bindings, firewallId);
    }

    /** `_process_create_firewall_target_routers`: one binding per listed
        router that exists. The transaction commits only if no key is then
        duplicated (a router listed twice, or bound already); otherwise
        it rolls back and nothing is added. */
    method CreateTargetRouters(firewallId: string, routerIds: seq<string>) returns (err: Option<FwError>)
      requires Valid()
      modifies this
      ensures Valid() && routers == old(routers)
      ensures err.None? ==> bindings == old(bindings) + NewBindings(routers, firewallId, routerIds)
      ensures err.Some? ==> bindings == old(bindings) && err.value.DuplicateEntry?
                            && err.value.firewallId == firewallId && err.value.routerId in routerIds
      ensures err.Some? <==> !KeysUnique(old(bindings) + NewBindings(routers, firewallId, routerIds))
    {
      var added: seq<Binding> := [];
      for i := 0 to |routerIds|
        invariant added == NewBindings(routers, firewallId, routerIds[..i])
      {
        assert routerIds[..i + 1][..i] == routerIds[..i];
        if routerIds[i] in routers {
          added := added + [Binding(firewallId, routerIds[i])];
        }
      }
      assert routerIds[..|routerIds|] == routerIds;
      NewBindingsSpec(routers, firewallId, routerIds);
      var all := bindings + added;
      if !KeysUnique(all) {
        forall i, j | 0 <= i < j < |bindings| ensures all[i] != all[j] {
          assert all[i] == bindings[i] && all[j] == bindings[j];
        }
        var i, j :| 0 <= i < j < |all| && all[i] == all[j];
        assert j >= |bindings|;
        assert all[j] == added[j - |bindings|];
        return Some(DuplicateEntry(firewallId, all[j].routerId));
      }
      bindings := all;
      err := None;
    }

    /** `_delete_target_routers`. */
    method DeleteTargetRouters(firewallId: string)
      requires Valid()
      modifies this
      ensures Valid() && routers == old(routers)
      ensures bindings == WithoutFirewall(old(bindings), firewallId)
    {
      var kept: seq<Binding> := [];
      for i := 0 to |bindings|
        invariant kept == WithoutFirewall(bindings[..i], firewallId)
        invariant forall b | b in kept :: b in bindings[..i]
        invariant KeysUnique(kept)
      {
        assert bindings[..i + 1][..i] == bindings[..i];
        if bindings[i].firewallId != firewallId {
          forall k | 0 <= k < |kept| ensures kept[k] != bindings[i] {
            assert kept[k] in bindings[..i];
            var j :| 0 <= j < i && bindings[..i][j] == kept[k];
            assert bindings[j] == kept[k];
          }
          kept := kept + [bindings[i]];
        }
      }
      assert bindings[..|bindings|] == bindings;
      bindings := kept;
    }
  }
}
