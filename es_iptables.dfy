/** The EayunStack metering extension of the iptables metering driver: every
    router the driver tracks carries, next to the base driver's labels, a map
    of "es" metering labels, each realised as a chain of the router's mangle
    table that counts the traffic a rule in POSTROUTING (and, for traffic
    addressed to the router itself, in INPUT) sends to it.

    The mangle table is the iptables_manager table reduced to what this code
    does to it: a set of chains and the list of rules added so far. Applying
    the table to the kernel, and the transaction that defers it, are not
    modelled. */
module EsIptables {
  import opened Common

  /** The fwmark set on packets that arrive from the external network. */
  const EsMeteringMark: nat := 1
  /** The base driver's prefix of external gateway devices. */
  const ExternalDevPrefix: string := "qg-"
  /** The base driver's binary name and label infix for chain names. */
  const WrapName: string := "neutron-meter"
  const LabelInfix: string := "-l-"
  /** The longest chain name iptables_manager keeps for an unwrapped chain. */
  const MaxChainLenNoWrap: nat := 28

  /** The built-in chains the mangle table hooks into. */
  const BuiltinChains: seq<string> := ["PREROUTING", "INPUT", "POSTROUTING"]

  /** An es metering label as the server sends it. `direction` is the
      database enumeration ('ingress' or 'egress'); the driver only asks
      whether it is 'ingress'. */
  datatype Label = Label(id: string, direction: string, internalIp: Option<string>, tcpPort: Option<int>)

  /** A label of the base metering driver; only its id matters here. */
  datatype MeteringLabel = MeteringLabel(id: string)

  /** A router dict from the server; a router without the es label key
      carries the empty list. */
  datatype Router = Router(id: string, esLabels: seq<Label>)

  /** A chain of the table, and whether iptables_manager prefixes its name
      with the binary name. */
  datatype Chain = Chain(name: string, wrap: bool)

  datatype RuleEntry = RuleEntry(chain: Chain, rule: string)

  /** The IPv4 mangle table of one router. */
  datatype Mangle = Mangle(chains: set<Chain>, rules: seq<RuleEntry>)

  predicate IsIngress(lab: Label)
  {
    lab.direction == "ingress"
  }

  /** The labels whose rule is also placed in INPUT: ingress ones that do
      not name an internal address, so they also count traffic for the
      router itself. */
  predicate CountsRouterTraffic(lab: Label)
  {
    lab.internalIp.None? && IsIngress(lab)
  }

  function LabelIds(labels: seq<Label>): set<string>
  {
    set l | l in labels :: l.id
  }

  function IdSeq(labels: seq<Label>): (ids: seq<string>)
  {
    seq(|labels|, i requires 0 <= i < |labels| => labels[i].id)
  }

  // ---------------------------------------------------------------------
  // Rule strings

  const MarkMatch: string := "-m mark --mark " + NatToString(EsMeteringMark)

  /** The rule, placed in PREROUTING, that marks packets entering through
      an external device. */
  const MarkRule: string := "-i " + ExternalDevPrefix + "+ -j MARK --set-mark " + NatToString(EsMeteringMark)

  /** The name of the chain that counts one label: the base driver's
      label-chain name, cut to the length iptables accepts. */
  function LabelChainName(labelId: string): (r: string)
    ensures |r| <= MaxChainLenNoWrap
    ensures r == Take(WrapName + LabelInfix + labelId, MaxChainLenNoWrap)
    ensures StartsWith(r, WrapName + LabelInfix)
  {
    Take(WrapName + LabelInfix + labelId, MaxChainLenNoWrap)
  }

  function LabelChain(labelId: string): Chain
  {
    Chain(LabelChainName(labelId), false)
  }

  /** The space-separated pieces of a label's meter rule: the direction
      match, the address match when the label has an address, the port
      match when it has a port, and the jump to the label's chain. */
  function MeterRuleParts(lab: Label, chain: string): seq<string>
  {
    var ingress := IsIngress(lab);
    var ruleDir := if ingress then "-d" else "-s";
    var portSelector := if ingress then "--dport" else "--sport";
    [if ingress then MarkMatch else "-o " + ExternalDevPrefix + "+"]
      + (if lab.internalIp.Some? then [ruleDir + " " + lab.internalIp.value] else [])
      + (if lab.tcpPort.Some? then ["-p tcp " + portSelector + " " + IntToString(lab.tcpPort.value)] else [])
      + ["-j " + chain]
  }

  /** The rule has the direction match first and the jump last; the
      address match, with `-d` for ingress and `-s` for egress, follows the
      direction match exactly when the label has an address, and the port
      match, with `--dport` or `--sport`, precedes the jump exactly when it
      has a port. */
  lemma MeterRulePartsShape(lab: Label, chain: string)
    ensures var parts := MeterRuleParts(lab, chain);
            && |parts| == 2 + (if lab.internalIp.Some? then 1 else 0) + (if lab.tcpPort.Some? then 1 else 0)
            && parts[0] == (if IsIngress(lab) then MarkMatch else "-o " + ExternalDevPrefix + "+")
            && (lab.internalIp.Some? ==>
                  parts[1] == (if IsIngress(lab) then "-d" else "-s") + " " + lab.internalIp.value)
            && (lab.tcpPort.Some? ==>
                  parts[|parts| - 2] == "-p tcp " + (if IsIngress(lab) then "--dport" else "--sport") + " "
                                        + IntToString(lab.tcpPort.value))
            && parts[|parts| - 1] == "-j " + chain
  {
  }

  /** `_get_es_meter_rule`. */
  function EsMeterRule(lab: Label, chain: string): string
  {
    Join(MeterRuleParts(lab, chain), " ")
  }

  /** The rule opens with the direction match and closes with the jump to
      the label's chain. */
  lemma MeterRuleShape(lab: Label, chain: string)
    ensures StartsWith(EsMeterRule(lab, chain), if IsIngress(lab) then MarkMatch else "-o " + ExternalDevPrefix + "+")
    ensures EndsWith(EsMeterRule(lab, chain), "-j " + chain)
    ensures Contains(EsMeterRule(lab, chain), "-j " + chain)
  {
    var parts := MeterRuleParts(lab, chain);
    MeterRulePartsShape(lab, chain);
    JoinStartsWithFirst(parts, " ");
    JoinEndsWithLast(parts, " ");
    EndsWithContains(EsMeterRule(lab, chain), "-j " + chain);
  }

  /** A label with neither address nor port gives just the direction match
      and the jump. */
  lemma BareMeterRule(lab: Label, chain: string)
    requires lab.internalIp.None? && lab.tcpPort.None?
    ensures EsMeterRule(lab, chain)
            == (if IsIngress(lab) then MarkMatch else "-o " + ExternalDevPrefix + "+") + " " + "-j " + chain
  {
    var parts := MeterRuleParts(lab, chain);
    MeterRulePartsShape(lab, chain);
    assert parts[..1] == [parts[0]];
  }

  // ---------------------------------------------------------------------
  // The mangle table

  /** The table a new router starts with: the three built-in chains, each
      entered from the kernel's chain of the same name, plus the mark rule
      in PREROUTING. */
  function InitialMangle(): Mangle
  {
    Mangle(set c | c in BuiltinChains :: Chain(c, true),
           JumpRules(BuiltinChains) + [RuleEntry(Chain("PREROUTING", true), MarkRule)])
  }

  /** `-j $<chain>` in the kernel's chain of each name. */
  function JumpRules(names: seq<string>): (r: seq<RuleEntry>)
    ensures |r| == |names|
  {
    seq(|names|, i requires 0 <= i < |names| => RuleEntry(Chain(names[i], false), "-j $" + names[i]))
  }

  /** The built-in chains the label rules are added to. */
  predicate HasBuiltinChains(t: Mangle)
  {
    Chain("INPUT", true) in t.chains && Chain("POSTROUTING", true) in t.chains
  }

  /** Whether `remove_chain` of the unwrapped chain `name` drops the rule:
      it sits in that chain or jumps to it. */
  predicate Dropped(e: RuleEntry, name: string)
  {
    e.chain.name == name || Contains(e.rule, "-j " + name)
  }

  /** The rules `remove_chain` keeps for an unwrapped chain, in order. */
  function KeptRules(rules: seq<RuleEntry>, name: string): seq<RuleEntry>
    decreases |rules|
  {
    if |rules| == 0 then []
    else KeptRules(rules[..|rules| - 1], name)
         + (if Dropped(rules[|rules| - 1], name) then [] else [rules[|rules| - 1]])
  }

  /** `remove_chain` keeps exactly the rules it does not drop, and keeps
      everything when it drops nothing. */
  lemma {:induction false} KeptRulesSpec(rules: seq<RuleEntry>, name: string)
    ensures forall e | e in KeptRules(rules, name) :: e in rules && !Dropped(e, name)
    ensures forall e | e in rules && !Dropped(e, name) :: e in KeptRules(rules, name)
    ensures (forall e | e in rules :: !Dropped(e, name)) ==> KeptRules(rules, name) == rules
    decreases |rules|
  {
    if |rules| > 0 {
      var rest := rules[..|rules| - 1];
      var last := rules[|rules| - 1];
      KeptRulesSpec(rest, name);
      assert rules == rest + [last];
      var tail := if Dropped(last, name) then [] else [last];
      assert KeptRules(rules, name) == KeptRules(rest, name) + tail;
      forall e | e in rules && !Dropped(e, name)
        ensures e in KeptRules(rules, name)
      {
        if e != last {
          assert e in rest;
        }
      }
    }
  }

  /** `remove_chain(name, wrap=False)`: the chain goes, with its own rules
      and every rule that jumps to it; an unknown chain is left alone. */
  function ChainRemoved(t: Mangle, name: string): Mangle
  {
    if Chain(name, false) !in t.chains then t
    else Mangle(t.chains - {Chain(name, false)}, KeptRules(t.rules, name))
  }

  /** The rules `_add_es_metering_label` appends: the meter rule in
      POSTROUTING, the same rule in INPUT when the label counts traffic for
      the router itself, and an empty counting rule in the label's chain. */
  function LabelRules(lab: Label): seq<RuleEntry>
  {
    var chain := LabelChainName(lab.id);
    var rule := EsMeterRule(lab, chain);
    [RuleEntry(Chain("POSTROUTING", true), rule)]
      + (if CountsRouterTraffic(lab) then [RuleEntry(Chain("INPUT", true), rule)] else [])
      + [RuleEntry(Chain(chain, false), "")]
  }

  /** The table after `_add_es_metering_label`. */
  function LabelAdded(t: Mangle, lab: Label): Mangle
  {
    Mangle(t.chains + {LabelChain(lab.id)}, t.rules + LabelRules(lab))
  }

  /** Adding a label adds its chain, keeps every earlier rule in place and
      appends the POSTROUTING rule first and the counting rule last, with a
      rule in INPUT exactly for labels that count traffic for the router. */
  lemma LabelAddedShape(t: Mangle, lab: Label)
    ensures LabelAdded(t, lab).chains == t.chains + {LabelChain(lab.id)}
    ensures var r := LabelAdded(t, lab).rules;
            && |r| == |t.rules| + (if CountsRouterTraffic(lab) then 3 else 2)
            && r[..|t.rules|] == t.rules
            && r[|t.rules|] == RuleEntry(Chain("POSTROUTING", true), EsMeterRule(lab, LabelChainName(lab.id)))
            && (CountsRouterTraffic(lab) <==> exists e | e in r[|t.rules|..] :: e.chain == Chain("INPUT", true))
            && r[|r| - 1] == RuleEntry(LabelChain(lab.id), "")
  {
    var added := LabelRules(lab);
    var r := LabelAdded(t, lab).rules;
    assert r[|t.rules|..] == added;
    assert CountsRouterTraffic(lab) ==> added[1].chain == Chain("INPUT", true);
  }

  /** Adding and removing label chains never touches the built-in chains,
      so the rules added to INPUT and POSTROUTING always find their chain. */
  lemma BuiltinChainsStay(t: Mangle, lab: Label, labelId: string)
    requires HasBuiltinChains(t)
    ensures HasBuiltinChains(LabelAdded(t, lab))
    ensures HasBuiltinChains(ChainRemoved(t, LabelChainName(labelId)))
  {
  }

  /** Removing a label's chain right after adding it to a table that knew
      nothing of that chain gives the table back. */
  lemma {:induction false} AddThenRemoveRestores(t: Mangle, lab: Label)
    requires LabelChain(lab.id) !in t.chains
    requires forall e | e in t.rules :: !Dropped(e, LabelChainName(lab.id))
    ensures ChainRemoved(LabelAdded(t, lab), LabelChainName(lab.id)) == t
  {
    var name := LabelChainName(lab.id);
    var a := LabelAdded(t, lab);
    MeterRuleShape(lab, name);
    assert a.rules[|t.rules|..] == LabelRules(lab);
    KeptSplit(t.rules, a.rules[|t.rules|..], name);
    assert a.rules == t.rules + a.rules[|t.rules|..];
    assert a.chains - {Chain(name, false)} == t.chains;
  }

  /** Filtering a concatenation whose tail is all dropped keeps only what
      the head keeps. */
  lemma {:induction false} KeptSplit(xs: seq<RuleEntry>, ys: seq<RuleEntry>, name: string)
    requires forall e | e in xs :: !Dropped(e, name)
    requires forall e | e in ys :: Dropped(e, name)
    ensures KeptRules(xs + ys, name) == xs
    decreases |ys|
  {
    if |ys| == 0 {
      assert xs + ys == xs;
      KeptRulesSpec(xs, name);
    } else {
      var zs := xs + ys;
      assert zs[..|zs| - 1] == xs + ys[..|ys| - 1];
      assert zs[|zs| - 1] == ys[|ys| - 1];
      KeptSplit(xs, ys[..|ys| - 1], name);
    }
  }

  // ---------------------------------------------------------------------
  // Router views and the label reconciliation they follow

  /** Everything the driver keeps about one router. */
  datatype RouterView = RouterView(router: Router, meteringLabels: map<string, MeteringLabel>,
                                   esLabels: map<string, Label>, mangle: Mangle)

  /** A router the driver has just started tracking. */
  function NewView(router: Router): RouterView
  {
    RouterView(router, map[], map[], InitialMangle())
  }

  function AddLabelView(v: RouterView, lab: Label): (w: RouterView)
    ensures w.esLabels.Keys == v.esLabels.Keys + {lab.id}
  {
    v.(esLabels := v.esLabels[lab.id := lab], mangle := LabelAdded(v.mangle, lab))
  }

  function RemoveLabelView(v: RouterView, labelId: string): (w: RouterView)
    ensures w.esLabels.Keys == v.esLabels.Keys - {labelId}
  {
    if labelId !in v.esLabels then v
    else v.(esLabels := v.esLabels - {labelId}, mangle := ChainRemoved(v.mangle, LabelChainName(labelId)))
  }

  /** The labels added one after the other. */
  function AddAll(v: RouterView, labels: seq<Label>): RouterView
    decreases |labels|
  {
    if |labels| == 0 then v
    else AddLabelView(AddAll(v, labels[..|labels| - 1]), labels[|labels| - 1])
  }

  /** The labels with the given ids removed one after the other. */
  function RemoveAll(v: RouterView, ids: seq<string>): RouterView
    decreases |ids|
  {
    if |ids| == 0 then v
    else RemoveLabelView(RemoveAll(v, ids[..|ids| - 1]), ids[|ids| - 1])
  }

  /** The labels whose id is not among `known` added one after the other. */
  function AddNew(v: RouterView, labels: seq<Label>, known: set<string>): RouterView
    decreases |labels|
  {
    if |labels| == 0 then v
    else
      var w := AddNew(v, labels[..|labels| - 1], known);
      if labels[|labels| - 1].id in known then w else AddLabelView(w, labels[|labels| - 1])
  }

  /** The ids of `labels` the router already had. */
  function Persisting(labels: seq<Label>, known: set<string>): set<string>
  {
    set l | l in labels && l.id in known :: l.id
  }

  /** What `update_routers` does to a router it already tracks: the new
      labels are added in list order, then the labels no longer listed are
      removed in `removeOrder`, an order of the set of dropped ids. */
  function Reconciled(v: RouterView, labels: seq<Label>, removeOrder: seq<string>): RouterView
  {
    RemoveAll(AddNew(v, labels, v.esLabels.Keys), removeOrder)
  }

  lemma {:induction false} AddAllKeys(v: RouterView, labels: seq<Label>)
    ensures AddAll(v, labels).esLabels.Keys == v.esLabels.Keys + LabelIds(labels)
    ensures AddAll(v, labels).router == v.router && AddAll(v, labels).meteringLabels == v.meteringLabels
    decreases |labels|
  {
    if |labels| > 0 {
      var init := labels[..|labels| - 1];
      AddAllKeys(v, init);
      assert labels == init + [labels[|labels| - 1]];
      assert LabelIds(labels) == LabelIds(init) + {labels[|labels| - 1].id};
    }
  }

  lemma {:induction false} RemoveAllKeys(v: RouterView, ids: seq<string>)
    ensures RemoveAll(v, ids).esLabels.Keys == v.esLabels.Keys - set i | i in ids
    ensures forall k | k in RemoveAll(v, ids).esLabels :: RemoveAll(v, ids).esLabels[k] == v.esLabels[k]
    ensures RemoveAll(v, ids).router == v.router && RemoveAll(v, ids).meteringLabels == v.meteringLabels
    decreases |ids|
  {
    if |ids| > 0 {
      var init := ids[..|ids| - 1];
      RemoveAllKeys(v, init);
      assert ids == init + [ids[|ids| - 1]];
      assert (set i | i in ids) == (set i | i in init) + {ids[|ids| - 1]};
    }
  }

  lemma {:induction false} AddNewKeys(v: RouterView, labels: seq<Label>, known: set<string>)
    ensures AddNew(v, labels, known).esLabels.Keys == v.esLabels.Keys + (LabelIds(labels) - known)
    ensures forall k | k in v.esLabels && k in known :: AddNew(v, labels, known).esLabels[k] == v.esLabels[k]
    ensures AddNew(v, labels, known).router == v.router && AddNew(v, labels, known).meteringLabels == v.meteringLabels
    decreases |labels|
  {
    if |labels| > 0 {
      var init := labels[..|labels| - 1];
      AddNewKeys(v, init, known);
      assert labels == init + [labels[|labels| - 1]];
      assert LabelIds(labels) == LabelIds(init) + {labels[|labels| - 1].id};
    }
  }

  /** After reconciliation the router holds exactly the listed labels, and
      a label it already held keeps its old record: it is not re-added. */
  lemma ReconciledLabels(v: RouterView, labels: seq<Label>, removeOrder: seq<string>)
    requires Enumerates(removeOrder, v.esLabels.Keys - Persisting(labels, v.esLabels.Keys))
    ensures Reconciled(v, labels, removeOrder).esLabels.Keys == LabelIds(labels)
    ensures forall k | k in v.esLabels && k in LabelIds(labels) ::
              Reconciled(v, labels, removeOrder).esLabels[k] == v.esLabels[k]
    ensures Reconciled(v, labels, removeOrder).router == v.router
  {
    var known := v.esLabels.Keys;
    var a := AddNew(v, labels, known);
    AddNewKeys(v, labels, known);
    RemoveAllKeys(a, removeOrder);
    assert (set i | i in removeOrder) == known - Persisting(labels, known);
    forall k | k in known && k in LabelIds(labels)
      ensures k in Persisting(labels, known)
    {
      var l :| l in labels && l.id == k;
    }
  }

  /** Associating a router the driver did not track gives it exactly its
      listed labels. */
  lemma NewRouterLabels(router: Router)
    ensures AddAll(NewView(router), router.esLabels).esLabels.Keys == LabelIds(router.esLabels)
  {
    AddAllKeys(NewView(router), router.esLabels);
  }

  /** `_update_router` on the driver's table: the tracked entry with its
      router dict replaced, or a new entry. */
  function Tracked(view: map<string, RouterView>, router: Router): map<string, RouterView>
  {
    view[router.id := if router.id in view then view[router.id].(router := router) else NewView(router)]
  }

  function LabelsAddedAt(view: map<string, RouterView>, routerId: string, labels: seq<Label>): map<string, RouterView>
    requires routerId in view
  {
    view[routerId := AddAll(view[routerId], labels)]
  }

  function LabelsRemovedAt(view: map<string, RouterView>, routerId: string, ids: seq<string>): map<string, RouterView>
    requires routerId in view
  {
    view[routerId := RemoveAll(view[routerId], ids)]
  }

  function ReconciledAt(view: map<string, RouterView>, routerId: string, labels: seq<Label>,
                        removeOrder: seq<string>): map<string, RouterView>
    requires routerId in view
  {
    view[routerId := Reconciled(view[routerId], labels, removeOrder)]
  }

  /** `_process_associate_es_metering_label` on the driver's table. */
  function AssociateView(view: map<string, RouterView>, router: Router): map<string, RouterView>
  {
    LabelsAddedAt(Tracked(view, router), router.id, router.esLabels)
  }

  /** `_process_disassociate_es_metering_label` on the driver's table. */
  function DisassociateView(view: map<string, RouterView>, router: Router): map<string, RouterView>
  {
    if router.id !in view then view
    else LabelsRemovedAt(view, router.id, IdSeq(router.esLabels))
  }

  /** The first pass of `update_routers`: every tracked router whose id is
      not among `ids` loses the labels its stored router dict lists. */
  function DropAbsent(view: map<string, RouterView>, ids: set<string>): (r: map<string, RouterView>)
    ensures r.Keys == view.Keys
    ensures forall k | k in view && k in ids :: r[k] == view[k]
  {
    map k | k in view :: if k in ids then view[k] else RemoveAll(view[k], IdSeq(view[k].router.esLabels))
  }

  /** The first pass walked in the order `walk`: each tracked router not
      among `keep` is disassociated through its stored router dict. */
  function DropWalk(view: map<string, RouterView>, walk: seq<string>, keep: set<string>): map<string, RouterView>
    decreases |walk|
  {
    if |walk| == 0 then view
    else
      var v := DropWalk(view, walk[..|walk| - 1], keep);
      var k := walk[|walk| - 1];
      if k in keep || k !in v then v else DisassociateView(v, v[k].router)
  }

  /** The first pass does not depend on the order in which the dict
      yields the tracked routers. */
  lemma DropWalkInAnyOrder(view: map<string, RouterView>, walk: seq<string>, keep: set<string>)
    requires Enumerates(walk, view.Keys)
    requires forall k | k in view :: view[k].router.id == k
    ensures DropWalk(view, walk, keep) == DropAbsent(view, keep)
  {
    assert walk[..|walk|] == walk;
    DropWalkPrefix(view, walk, keep, |walk|);
  }

  /** After the first `n` routers of the walk, exactly those of them not
      among `keep` have been disassociated. */
  lemma {:induction false} DropWalkPrefix(view: map<string, RouterView>, walk: seq<string>, keep: set<string>, n: nat)
    requires Enumerates(walk, view.Keys) && n <= |walk|
    requires forall k | k in view :: view[k].router.id == k
    ensures DropWalk(view, walk[..n], keep).Keys == view.Keys
    ensures forall k | k in view ::
              DropWalk(view, walk[..n], keep)[k]
              == if k in walk[..n] && k !in keep then RemoveAll(view[k], IdSeq(view[k].router.esLabels)) else view[k]
    decreases n
  {
    if n == 0 {
      assert walk[..0] == [];
    } else {
      DropWalkPrefix(view, walk, keep, n - 1);
      var k := walk[n - 1];
      assert walk[..n][..n - 1] == walk[..n - 1];
      assert walk[..n] == walk[..n - 1] + [k];
      assert k !in walk[..n - 1] by {
        forall i | 0 <= i < n - 1 ensures walk[i] != k { }
      }
      RemoveAllKeys(view[k], IdSeq(view[k].router.esLabels));
    }
  }

  /** The second pass of `update_routers` for one router. */
  function ApplyRouter(view: map<string, RouterView>, router: Router, removeOrder: seq<string>): map<string, RouterView>
  {
    if router.id in view then ReconciledAt(view, router.id, router.esLabels, removeOrder)
    else AssociateView(view, router)
  }

  function ApplyRouters(view: map<string, RouterView>, routers: seq<Router>, orders: seq<seq<string>>): map<string, RouterView>
    requires |orders| == |routers|
    decreases |routers|
  {
    if |routers| == 0 then view
    else
      var n := |routers| - 1;
      ApplyRouter(ApplyRouters(view, routers[..n], orders[..n]), routers[n], orders[n])
  }

  /** The removal order of each reconciled router enumerates the ids it
      drops, in the state the pass reaches when it gets to that router. */
  ghost predicate OrdersFit(view: map<string, RouterView>, routers: seq<Router>, orders: seq<seq<string>>)
    requires |orders| == |routers|
    decreases |routers|
  {
    |routers| == 0 ||
    (var n := |routers| - 1;
     var before := ApplyRouters(view, routers[..n], orders[..n]);
     OrdersFit(view, routers[..n], orders[..n]) &&
     (routers[n].id in before ==>
        Enumerates(orders[n], before[routers[n].id].esLabels.Keys
                              - Persisting(routers[n].esLabels, before[routers[n].id].esLabels.Keys))))
  }

  /** One more router at the end of the pass. */
  lemma ApplyRoutersSnoc(view: map<string, RouterView>, routers: seq<Router>, orders: seq<seq<string>>,
                         router: Router, order: seq<string>)
    requires |orders| == |routers| && OrdersFit(view, routers, orders)
    requires var before := ApplyRouters(view, routers, orders);
             router.id in before ==>
               Enumerates(order, before[router.id].esLabels.Keys
                                 - Persisting(router.esLabels, before[router.id].esLabels.Keys))
    ensures OrdersFit(view, routers + [router], orders + [order])
    ensures ApplyRouters(view, routers + [router], orders + [order])
            == ApplyRouter(ApplyRouters(view, routers, orders), router, order)
  {
    assert (routers + [router])[..|routers|] == routers;
    assert (orders + [order])[..|orders|] == orders;
  }

  function RouterIds(routers: seq<Router>): set<string>
  {
    set r | r in routers :: r.id
  }

  /** When the update lists each router once, every listed router ends up
      tracked with exactly the labels listed for it. */
  lemma {:induction false} ApplyRoutersLabels(view: map<string, RouterView>, routers: seq<Router>,
                                              orders: seq<seq<string>>, i: nat)
    requires |orders| == |routers| && OrdersFit(view, routers, orders)
    requires forall a, b | 0 <= a < b < |routers| :: routers[a].id != routers[b].id
    requires i < |routers|
    ensures routers[i].id in ApplyRouters(view, routers, orders)
    ensures ApplyRouters(view, routers, orders)[routers[i].id].esLabels.Keys == LabelIds(routers[i].esLabels)
    decreases |routers|
  {
    var n := |routers| - 1;
    var before := ApplyRouters(view, routers[..n], orders[..n]);
    if i < n {
      ApplyRoutersLabels(view, routers[..n], orders[..n], i);
      ApplyRouterOthers(before, routers[n], orders[n], routers[i].id);
    } else {
      ApplyRouterLabels(before, routers[n], orders[n]);
    }
  }

  /** One step of the second pass leaves the other tracked routers alone. */
  lemma ApplyRouterOthers(view: map<string, RouterView>, router: Router, removeOrder: seq<string>, k: string)
    requires k in view && k != router.id
    ensures k in ApplyRouter(view, router, removeOrder)
    ensures ApplyRouter(view, router, removeOrder)[k] == view[k]
  {
  }

  /** One step of the second pass leaves its router with exactly the labels
      listed for it. */
  lemma ApplyRouterLabels(view: map<string, RouterView>, router: Router, removeOrder: seq<string>)
    requires router.id in view ==>
               Enumerates(removeOrder, view[router.id].esLabels.Keys
                                       - Persisting(router.esLabels, view[router.id].esLabels.Keys))
    ensures router.id in ApplyRouter(view, router, removeOrder)
    ensures ApplyRouter(view, router, removeOrder)[router.id].esLabels.Keys == LabelIds(router.esLabels)
  {
    if router.id in view {
      ReconciledLabels(view[router.id], router.esLabels, removeOrder);
    } else {
      NewRouterLabels(router);
    }
  }

  /** Routers the update does not list and the driver did not track stay
      untracked, and the pass never forgets a router. */
  lemma {:induction false} ApplyRoutersKeys(view: map<string, RouterView>, routers: seq<Router>, orders: seq<seq<string>>)
    requires |orders| == |routers|
    ensures ApplyRouters(view, routers, orders).Keys == view.Keys + RouterIds(routers)
    decreases |routers|
  {
    if |routers| > 0 {
      var n := |routers| - 1;
      ApplyRoutersKeys(view, routers[..n], orders[..n]);
      assert routers == routers[..n] + [routers[n]];
      assert RouterIds(routers) == RouterIds(routers[..n]) + {routers[n].id};
    }
  }

  // ---------------------------------------------------------------------
  // The objects

  /** `EsRouterWithMetering`: one tracked router. */
  class EsRouter {
    const id: string
    var router: Router
    var meteringLabels: map<string, MeteringLabel>
    var esLabels: map<string, Label>
    var mangle: Mangle

    function View(): RouterView
      reads this
    {
      RouterView(router, meteringLabels, esLabels, mangle)
    }

    /** The base constructor's state, then the es part: no es label, and a
        fresh mangle table with the three built-in chains, their jumps and
        the mark rule. */
    constructor (router: Router)
      ensures id == router.id && View() == NewView(router)
    {
      id := router.id;
      this.router := router;
      meteringLabels := map[];
      esLabels := map[];
      var table := Mangle({}, []);
      for i := 0 to |BuiltinChains|
        invariant table.chains == set c | c in BuiltinChains[..i] :: Chain(c, true)
        invariant table.rules == JumpRules(BuiltinChains[..i])
      {
        var chain := BuiltinChains[i];
        assert BuiltinChains[..i + 1] == BuiltinChains[..i] + [chain];
        table := table.(chains := table.chains + {Chain(chain, true)});
        table := table.(rules := table.rules + [RuleEntry(Chain(chain, false), "-j $" + chain)]);
      }
      assert BuiltinChains[..|BuiltinChains|] == BuiltinChains;
      table := table.(rules := table.rules + [RuleEntry(Chain("PREROUTING", true), MarkRule)]);
      mangle := table;
    }

    /** `iter_metering_labels`: the base labels, then the es labels, each
        group in the order its dict yields it. */
    method IterMeteringLabels() returns (baseItems: seq<(string, MeteringLabel)>, esItems: seq<(string, Label)>,
                                         items: seq<(string, MeteringLabel, Option<Label>)>)
      ensures |items| == |baseItems| + |esItems|
      ensures Enumerates(baseItems, set k | k in meteringLabels :: (k, meteringLabels[k]))
      ensures Enumerates(esItems, set k | k in esLabels :: (k, esLabels[k]))
      ensures forall i | 0 <= i < |baseItems| :: items[i] == (baseItems[i].0, baseItems[i].1, None)
      ensures forall i | 0 <= i < |esItems| ::
                items[|baseItems| + i] == (esItems[i].0, MeteringLabel(esItems[i].0), Some(esItems[i].1))
    {
      baseItems := SetToSeq(set k | k in meteringLabels :: (k, meteringLabels[k]));
      esItems := SetToSeq(set k | k in esLabels :: (k, esLabels[k]));
      items := seq(|baseItems|, i requires 0 <= i < |baseItems| => (baseItems[i].0, baseItems[i].1, None))
             + seq(|esItems|, i requires 0 <= i < |esItems| => (esItems[i].0, MeteringLabel(esItems[i].0), Some(esItems[i].1)));
    }
  }

  /** `EsIptablesMeteringDriver`: the table of tracked routers, and the
      ghost picture `view` of what each tracked router holds. */
  class EsDriver {
    var routers: map<string, EsRouter>
    ghost var view: map<string, RouterView>
    ghost var repr: set<EsRouter>

    /** Every entry is filed under its own id, remembers a router dict of
        that id and holds what `view` says; distinct ids therefore hold
        distinct objects. `repr` holds every tracked object. */
    ghost predicate Valid()
      reads this, repr
    {
      routers.Keys == view.Keys &&
      forall k | k in routers :: routers[k] in repr && routers[k].id == k && routers[k].View() == view[k]
                                 && view[k].router.id == k
    }

    constructor ()
      ensures Valid() && routers == map[] && view == map[]
    {
      routers := map[];
      view := map[];
      repr := {};
    }

    /** `_add_es_metering_label`. */
    method AddEsLabel(rm: EsRouter, lab: Label)
      modifies rm
      ensures rm.View() == AddLabelView(old(rm.View()), lab)
    {
      var table := rm.mangle;
      var labelChain := LabelChainName(lab.id);
      table := table.(chains := table.chains + {Chain(labelChain, false)});
      var rule := EsMeterRule(lab, labelChain);
      table := table.(rules := table.rules + [RuleEntry(Chain("POSTROUTING", true), rule)]);
      if lab.internalIp.None? && IsIngress(lab) {
        table := table.(rules := table.rules + [RuleEntry(Chain("INPUT", true), rule)]);
      }
      table := table.(rules := table.rules + [RuleEntry(Chain(labelChain, false), "")]);
      rm.mangle := table;
      rm.esLabels := rm.esLabels[lab.id := lab];
    }

    /** `_remove_es_metering_label`. */
    method RemoveEsLabel(rm: EsRouter, labelId: string)
      modifies rm
      ensures rm.View() == RemoveLabelView(old(rm.View()), labelId)
    {
      if labelId !in rm.esLabels {
        return;
      }
      rm.mangle := ChainRemoved(rm.mangle, LabelChainName(labelId));
      rm.esLabels := rm.esLabels - {labelId};
    }

    /** Every label of `labels` added to `rm`, in order. */
    method AddEsLabels(rm: EsRouter, labels: seq<Label>)
      modifies rm
      ensures rm.View() == AddAll(old(rm.View()), labels)
    {
      for i := 0 to |labels|
        invariant rm.View() == AddAll(old(rm.View()), labels[..i])
      {
        assert labels[..i + 1][..i] == labels[..i];
        AddEsLabel(rm, labels[i]);
      }
      assert labels[..|labels|] == labels;
    }

    /** Every label with an id of `ids` removed from `rm`, in order. */
    method RemoveEsLabels(rm: EsRouter, ids: seq<string>)
      modifies rm
      ensures rm.View() == RemoveAll(old(rm.View()), ids)
    {
      for i := 0 to |ids|
        invariant rm.View() == RemoveAll(old(rm.View()), ids[..i])
      {
        assert ids[..i + 1][..i] == ids[..i];
        RemoveEsLabel(rm, ids[i]);
      }
      assert ids[..|ids|] == ids;
    }

    /** `_update_router`: the tracked entry is reused with its router dict
        replaced, or a new entry is created. Like the source, the new
        entry is built even when it is not used. */
    method UpdateRouter(router: Router) returns (r: EsRouter)
      requires Valid()
      modifies this, repr
      ensures Valid() && routers == old(routers)[router.id := r]
      ensures fresh(repr - old(repr))
      ensures router.id in old(routers) ==> r == old(routers[router.id])
      ensures router.id !in old(routers) ==> fresh(r)
      ensures view == Tracked(old(view), router)
    {
      var created := new EsRouter(router);
      r := if router.id in routers then routers[router.id] else created;
      Store(r, router);
    }

    /** `r.router = router; self.routers[r.id] = r`, for the entry tracked
        under the router's id or a new one. */
    method Store(r: EsRouter, router: Router)
      requires Valid() && r.id == router.id
      requires router.id in routers ==> r == routers[router.id]
      requires router.id !in routers ==> r !in repr && r.View() == NewView(router)
      modifies this, r
      ensures Valid() && routers == old(routers)[router.id := r]
      ensures repr == old(repr) + {r}
      ensures view == Tracked(old(view), router)
    {
      r.router := router;
      routers := routers[r.id := r];
      view := Tracked(view, router);
      repr := repr + {r};
      forall j | j in routers
        ensures routers[j] in repr && routers[j].id == j && routers[j].View() == view[j] && view[j].router.id == j
      {
        if j != router.id {
          assert routers[j] == old(routers[j]) && old(routers[j]).id == j;
        }
      }
    }

    /** The labels added to the tracked router `routerId`. */
    method AddLabelsAt(routerId: string, labels: seq<Label>)
      requires Valid() && routerId in routers
      modifies this, repr
      ensures Valid() && routers == old(routers)
      ensures repr == old(repr)
      ensures view == LabelsAddedAt(old(view), routerId, labels)
    {
      var rm := routers[routerId];
      AddEsLabels(rm, labels);
      AddAllKeys(old(rm.View()), labels);
      view := view[routerId := rm.View()];
      forall j | j in routers && j != routerId
        ensures routers[j].View() == view[j]
      {
        assert routers[j].id == j;
      }
    }

    /** The labels with an id of `ids` removed from the tracked router
        `routerId`. */
    method RemoveLabelsAt(routerId: string, ids: seq<string>)
      requires Valid() && routerId in routers
      modifies this, repr
      ensures Valid() && routers == old(routers)
      ensures repr == old(repr)
      ensures view == LabelsRemovedAt(old(view), routerId, ids)
    {
      var rm := routers[routerId];
      RemoveEsLabels(rm, ids);
      RemoveAllKeys(old(rm.View()), ids);
      view := view[routerId := rm.View()];
      forall j | j in routers && j != routerId
        ensures routers[j].View() == view[j]
      {
        assert routers[j].id == j;
      }
    }

    /** `_process_associate_es_metering_label`. */
    method ProcessAssociate(router: Router)
      requires Valid()
      modifies this, repr
      ensures Valid() && routers.Keys == old(routers.Keys) + {router.id}
      ensures fresh(repr - old(repr))
      ensures view == AssociateView(old(view), router)
    {
      var rm := UpdateRouter(router);
      AddLabelsAt(router.id, router.esLabels);
    }

    /** `_process_disassociate_es_metering_label`. */
    method ProcessDisassociate(router: Router)
      requires Valid()
      modifies this, repr
      ensures Valid() && routers == old(routers)
      ensures repr == old(repr)
      ensures view == DisassociateView(old(view), router)
    {
      if router.id !in routers {
        return;
      }
      RemoveLabelsAt(router.id, IdSeq(router.esLabels));
    }

    /** `add_es_metering_label`: every router of the message associated. */
    method AddEsMeteringLabel(routersIn: seq<Router>)
      requires Valid()
      modifies this, repr
      ensures Valid() && view == AssociateAll(old(view), routersIn)
      ensures fresh(repr - old(repr))
    {
      for i := 0 to |routersIn|
        invariant Valid() && view == AssociateAll(old(view), routersIn[..i])
        invariant fresh(repr - old(repr))
      {
        assert routersIn[..i + 1][..i] == routersIn[..i];
        ProcessAssociate(routersIn[i]);
      }
      assert routersIn[..|routersIn|] == routersIn;
    }

    /** `remove_es_metering_label`: every router of the message
        disassociated. */
    method RemoveEsMeteringLabel(routersIn: seq<Router>)
      requires Valid()
      modifies this, repr
      ensures Valid() && routers == old(routers)
      ensures repr == old(repr)
      ensures view == DisassociateAll(old(view), routersIn)
    {
      for i := 0 to |routersIn|
        invariant Valid() && routers == old(routers) && repr == old(repr)
        invariant view == DisassociateAll(old(view), routersIn[..i])
      {
        assert routersIn[..i + 1][..i] == routersIn[..i];
        ProcessDisassociate(routersIn[i]);
      }
      assert routersIn[..|routersIn|] == routersIn;
    }

    /** The es part of `update_routers`, run after the base driver's pass:
        tracked routers missing from the message are disassociated; each
        listed router is reconciled if tracked and associated otherwise.
        `orders` records, for each listed router, the order in which the
        set of its dropped labels was walked. */
    method UpdateRouters(routersIn: seq<Router>) returns (ghost orders: seq<seq<string>>)
      requires Valid()
      modifies this, repr
      ensures Valid() && |orders| == |routersIn|
      ensures fresh(repr - old(repr))
      ensures OrdersFit(DropAbsent(old(view), RouterIds(routersIn)), routersIn, orders)
      ensures view == ApplyRouters(DropAbsent(old(view), RouterIds(routersIn)), routersIn, orders)
    {
      var routerIds := set r | r in routersIn :: r.id;
      ghost var walk := DisassociateAbsent(routerIds);
      DropWalkInAnyOrder(old(view), walk, routerIds);
      orders := ReconcileListed(routersIn);
    }

    /** The first pass of `update_routers`, over the tracked routers in
        the order `walk` the dict yields them. */
    method DisassociateAbsent(routerIds: set<string>) returns (ghost walk: seq<string>)
      requires Valid()
      modifies this, repr
      ensures Valid() && routers == old(routers)
      ensures repr == old(repr)
      ensures Enumerates(walk, old(view).Keys) && view == DropWalk(old(view), walk, routerIds)
    {
      var ids := SetToSeq(routers.Keys);
      for i := 0 to |ids|
        invariant Valid() && routers == old(routers) && repr == old(repr)
        invariant view == DropWalk(old(view), ids[..i], routerIds)
      {
        var routerId := ids[i];
        assert ids[..i + 1][..i] == ids[..i];
        if routerId !in routerIds {
          var rm := routers[routerId];
          ProcessDisassociate(rm.router);
        }
      }
      assert ids[..|ids|] == ids;
      walk := ids;
    }

    /** The second pass of `update_routers`, over the listed routers in
        order. */
    method ReconcileListed(routersIn: seq<Router>) returns (ghost orders: seq<seq<string>>)
      requires Valid()
      modifies this, repr
      ensures Valid() && |orders| == |routersIn|
      ensures fresh(repr - old(repr))
      ensures OrdersFit(old(view), routersIn, orders)
      ensures view == ApplyRouters(old(view), routersIn, orders)
    {
      orders := [];
      for i := 0 to |routersIn|
        invariant Valid() && |orders| == i
        invariant fresh(repr - old(repr))
        invariant OrdersFit(old(view), routersIn[..i], orders)
        invariant view == ApplyRouters(old(view), routersIn[..i], orders)
      {
        var router := routersIn[i];
        ghost var order := ApplyOne(router);
        ApplyRoutersSnoc(old(view), routersIn[..i], orders, router, order);
        assert routersIn[..i + 1] == routersIn[..i] + [router];
        orders := orders + [order];
      }
      assert routersIn[..|routersIn|] == routersIn;
    }

    /** The second pass of `update_routers` for one listed router. */
    method ApplyOne(router: Router) returns (ghost order: seq<string>)
      requires Valid()
      modifies this, repr
      ensures Valid() && fresh(repr - old(repr))
      ensures router.id in old(view) ==>
                Enumerates(order, old(view)[router.id].esLabels.Keys
                                  - Persisting(router.esLabels, old(view)[router.id].esLabels.Keys))
      ensures view == ApplyRouter(old(view), router, order)
    {
      order := [];
      if router.id in routers {
        order := ReconcileAt(router.id, router.esLabels);
      } else {
        ProcessAssociate(router);
      }
    }

    /** The per-router diff of `update_routers` on a tracked router. */
    method ReconcileAt(routerId: string, labels: seq<Label>) returns (ghost removeOrder: seq<string>)
      requires Valid() && routerId in routers
      modifies this, repr
      ensures Valid() && routers == old(routers)
      ensures repr == old(repr)
      ensures Enumerates(removeOrder, old(view)[routerId].esLabels.Keys
                                      - Persisting(labels, old(view)[routerId].esLabels.Keys))
      ensures view == ReconciledAt(old(view), routerId, labels, removeOrder)
    {
      var rm := routers[routerId];
      removeOrder := ReconcileRouter(rm, labels);
      ReconciledLabels(old(rm.View()), labels, removeOrder);
      view := view[routerId := rm.View()];
      forall j | j in routers && j != routerId
        ensures routers[j].View() == view[j]
      {
        assert routers[j].id == j;
      }
    }

    /** The diff itself: labels whose id `rm` already holds are kept as
        they are, the others are added, and then the held labels no longer
        listed are removed, in the order the set of their ids yields. */
    method ReconcileRouter(rm: EsRouter, labels: seq<Label>) returns (ghost removeOrder: seq<string>)
      modifies rm
      ensures Enumerates(removeOrder, old(rm.esLabels.Keys) - Persisting(labels, old(rm.esLabels.Keys)))
      ensures rm.View() == Reconciled(old(rm.View()), labels, removeOrder)
    {
      var oldLabels := rm.esLabels.Keys;
      var persist: set<string> := {};
      for i := 0 to |labels|
        invariant persist == Persisting(labels[..i], oldLabels)
        invariant rm.View() == AddNew(old(rm.View()), labels[..i], oldLabels)
      {
        var lab := labels[i];
        assert labels[..i + 1] == labels[..i] + [lab];
        if lab.id in oldLabels {
          persist := persist + {lab.id};
        } else {
          AddEsLabel(rm, lab);
        }
      }
      assert labels[..|labels|] == labels;
      var dropped := SetToSeq(oldLabels - persist);
      RemoveEsLabels(rm, dropped);
      removeOrder := dropped;
    }
  }

  function AssociateAll(view: map<string, RouterView>, routers: seq<Router>): map<string, RouterView>
    decreases |routers|
  {
    if |routers| == 0 then view
    else AssociateView(AssociateAll(view, routers[..|routers| - 1]), routers[|routers| - 1])
  }

  function DisassociateAll(view: map<string, RouterView>, routers: seq<Router>): map<string, RouterView>
    decreases |routers|
  {
    if |routers| == 0 then view
    else DisassociateView(DisassociateAll(view, routers[..|routers| - 1]), routers[|routers| - 1])
  }
}
