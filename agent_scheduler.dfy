/** The load-balancer agent scheduler: the table binding each pool to the
    agent that hosts it, the checks made before a pool is bound by hand,
    unbinding, and the chance scheduler that places a new pool on one of
    the active agents supporting its device driver. */
module AgentScheduler {
  import opened Common

  /** A load-balancer agent and the device drivers its configuration
      lists. */
  datatype Agent = Agent(id: string, deviceDrivers: seq<string>)

  /** The errors the binding operations raise. */
  datatype SchedError =
    | PoolHasBoundToAgent(pool: string, agent: string)
    | PoolsBoundToDifferentAgents(pools: seq<string>, agents: set<string>)
    | PoolNotBoundToAgent(pool: string, agent: string)
    | KeyError(key: string)

  datatype Result<T> = Ok(value: T) | Err(error: SchedError)

  /** The binding table, keyed by pool id: each pool is bound to at most
      one agent. */
  type Bindings = map<string, string>

  // ---------------------------------------------------------------------
  // Candidates

  /** The agents, in their given order, whose configuration lists
      `deviceDriver`. */
  function Candidates(deviceDriver: string, agents: seq<Agent>): seq<Agent>
    decreases |agents|
  {
    if |agents| == 0 then []
    else
      var last := agents[|agents| - 1];
      Candidates(deviceDriver, agents[..|agents| - 1]) + (if deviceDriver in last.deviceDrivers then [last] else [])
  }

  /** An agent is a candidate exactly when it is listed and supports the
      driver. */
  lemma {:induction false} CandidatesMembers(deviceDriver: string, agents: seq<Agent>)
    ensures forall a :: a in Candidates(deviceDriver, agents) <==> a in agents && deviceDriver in a.deviceDrivers
    ensures |Candidates(deviceDriver, agents)| <= |agents|
    decreases |agents|
  {
    if |agents| > 0 {
      var init := agents[..|agents| - 1];
      CandidatesMembers(deviceDriver, init);
      assert agents == init + [agents[|agents| - 1]];
    }
  }

  /** Filtering a concatenation filters each part: candidates keep the
      order of the agent list. */
  lemma {:induction false} CandidatesAppend(deviceDriver: string, xs: seq<Agent>, ys: seq<Agent>)
    ensures Candidates(deviceDriver, xs + ys) == Candidates(deviceDriver, xs) + Candidates(deviceDriver, ys)
    decreases |ys|
  {
    if |ys| == 0 {
      assert xs + ys == xs;
    } else {
      var init := ys[..|ys| - 1];
      CandidatesAppend(deviceDriver, xs, init);
      assert (xs + ys)[..|xs + ys| - 1] == xs + init;
    }
  }

  /** When every agent supports the driver, all of them are candidates, in
      order. */
  lemma {:induction false} CandidatesAll(deviceDriver: string, agents: seq<Agent>)
    requires forall a | a in agents :: deviceDriver in a.deviceDrivers
    ensures Candidates(deviceDriver, agents) == agents
    decreases |agents|
  {
    if |agents| > 0 {
      var init := agents[..|agents| - 1];
      CandidatesAll(deviceDriver, init);
      assert agents == init + [agents[|agents| - 1]];
    }
  }

  /** `get_lbaas_agent_candidates`. */
  method GetLbaasAgentCandidates(deviceDriver: string, activeAgents: seq<Agent>) returns (candidates: seq<Agent>)
    ensures candidates == Candidates(deviceDriver, activeAgents)
  {
    candidates := [];
    for i := 0 to |activeAgents|
      invariant candidates == Candidates(deviceDriver, activeAgents[..i])
    {
      assert activeAgents[..i + 1][..i] == activeAgents[..i];
      if deviceDriver in activeAgents[i].deviceDrivers {
        candidates := candidates + [activeAgents[i]];
      }
    }
    assert activeAgents[..|activeAgents|] == activeAgents;
  }

  // ---------------------------------------------------------------------
  // Binding by hand

  /** The agents the pools in `pools` are bound to. */
  function BoundAgents(bindings: Bindings, pools: seq<string>): set<string>
  {
    set p | p in pools && p in bindings :: bindings[p]
  }

  /** `_check_pool_can_be_bound_to_agent`: the error it raises, if any.
      `samePools` are the pools whose VIP shares the pool's VIP port,
      the pool itself included; it is empty when the pool has no VIP. */
  function BindCheck(bindings: Bindings, poolId: string, agentId: string, samePools: seq<string>): Option<SchedError>
  {
    if poolId in bindings then Some(PoolHasBoundToAgent(poolId, bindings[poolId]))
    else if |samePools| > 1 && BoundAgents(bindings, samePools) != {} && {agentId} != BoundAgents(bindings, samePools)
    then Some(PoolsBoundToDifferentAgents(samePools, BoundAgents(bindings, samePools)))
    else None
  }

  /** `_bind_pool`: the table with the new binding, or the check's error. */
  function Bound(bindings: Bindings, agentId: string, poolId: string, samePools: seq<string>): Result<Bindings>
  {
    match BindCheck(bindings, poolId, agentId, samePools)
    case Some(e) => Err(e)
    case None => Ok(bindings[poolId := agentId])
  }

  /** A pool is bound exactly when it has no binding yet and every pool
      sharing its VIP port that is bound is bound to the same agent; the
      binding adds that one entry and nothing else. */
  lemma BindOutcome(bindings: Bindings, agentId: string, poolId: string, samePools: seq<string>)
    ensures Bound(bindings, agentId, poolId, samePools).Ok?
            <==> poolId !in bindings && (|samePools| <= 1 || BoundAgents(bindings, samePools) <= {agentId})
    ensures poolId in bindings ==>
              Bound(bindings, agentId, poolId, samePools) == Err(PoolHasBoundToAgent(poolId, bindings[poolId]))
    ensures Bound(bindings, agentId, poolId, samePools).Ok? ==>
              var r := Bound(bindings, agentId, poolId, samePools).value;
              r.Keys == bindings.Keys + {poolId} && r[poolId] == agentId
              && forall p | p in bindings :: r[p] == bindings[p]
  {
    var b := BoundAgents(bindings, samePools);
    if b != {} && b <= {agentId} {
      var x :| x in b;
      assert x == agentId;
      assert b == {agentId};
    }
  }

  /** `_unbind_pool`: the table without the binding, or
      PoolNotBoundToAgent when the pool is not bound to that agent. */
  function Unbound(bindings: Bindings, agentId: string, poolId: string): Result<Bindings>
  {
    if poolId in bindings && bindings[poolId] == agentId then Ok(bindings - {poolId})
    else Err(PoolNotBoundToAgent(poolId, agentId))
  }

  /** Unbinding a pool just bound gives back the table it was bound in. */
  lemma BindThenUnbind(bindings: Bindings, agentId: string, poolId: string, samePools: seq<string>)
    requires Bound(bindings, agentId, poolId, samePools).Ok?
    ensures Unbound(Bound(bindings, agentId, poolId, samePools).value, agentId, poolId) == Ok(bindings)
  {
    var r := bindings[poolId := agentId];
    assert poolId !in bindings;
    assert r - {poolId} == bindings;
  }

  /** Unbinding succeeds exactly on an existing binding and removes only
      it. */
  lemma UnbindOutcome(bindings: Bindings, agentId: string, poolId: string)
    ensures Unbound(bindings, agentId, poolId).Ok? <==> poolId in bindings && bindings[poolId] == agentId
    ensures Unbound(bindings, agentId, poolId).Ok? ==>
              var r := Unbound(bindings, agentId, poolId).value;
              r.Keys == bindings.Keys - {poolId} && forall p | p in r :: r[p] == bindings[p]
  {
  }

  /** Pools whose VIPs share a port are bound to the same agent; `portOf`
      gives the VIP port of each pool that has a VIP. */
  ghost predicate Colocated(bindings: Bindings, portOf: map<string, string>)
  {
    forall p, q | p in bindings && q in bindings && p in portOf && q in portOf && portOf[p] == portOf[q] ::
      bindings[p] == bindings[q]
  }

  /** Binding by hand keeps pools that share a VIP port together. */
  lemma BindKeepsColocated(bindings: Bindings, portOf: map<string, string>, agentId: string, poolId: string,
                           samePools: seq<string>)
    requires Colocated(bindings, portOf)
    requires forall q :: q in samePools <==> poolId in portOf && q in portOf && portOf[q] == portOf[poolId]
    requires Bound(bindings, agentId, poolId, samePools).Ok?
    ensures Colocated(Bound(bindings, agentId, poolId, samePools).value, portOf)
  {
    var r := bindings[poolId := agentId];
    BindOutcome(bindings, agentId, poolId, samePools);
    forall p, q | p in r && q in r && p in portOf && q in portOf && portOf[p] == portOf[q]
      ensures r[p] == r[q]
    {
      if p == poolId && q != poolId {
        assert q in samePools && poolId in samePools;
        assert bindings[q] in BoundAgents(bindings, samePools);
      } else if q == poolId && p != poolId {
        assert p in samePools && poolId in samePools;
        assert bindings[p] in BoundAgents(bindings, samePools);
      }
    }
  }

  // ---------------------------------------------------------------------
  // The hosting lookup and the scheduler's hosted branch

  /** The dicts the hosting lookup builds. */
  datatype Value = Str(s: string) | Dict(entries: map<string, Value>)

  /** Python's `d[key]`. */
  function Lookup(v: Value, key: string): (r: Result<Value>)
    ensures r.Ok? <==> v.Dict? && key in v.entries
  {
    if v.Dict? && key in v.entries then Ok(v.entries[key]) else Err(KeyError(key))
  }

  /** `get_lbaas_agent_hosting_pool` with no activeness filter: the agent
      of the pool's binding, wrapped as `{'agent': <agent dict>}`; only the
      agent dict's `id` entry is modelled. */
  function HostingPool(bindings: Bindings, poolId: string): (r: Option<Value>)
    ensures r.Some? <==> poolId in bindings
  {
    if poolId in bindings then Some(Dict(map["agent" := Dict(map["id" := Str(bindings[poolId])])])) else None
  }

  /** The agent id the hosted branch of `schedule` logs, read as written:
      `lbaas_agent['id']`. */
  function HostedAgentIdAsWritten(lbaasAgent: Value): Result<Value>
  {
    Lookup(lbaasAgent, "id")
  }

  /** The read as written fails for every hosted pool: the lookup's dict
      has only the key `agent`. */
  lemma HostedBranchRaises(bindings: Bindings, poolId: string)
    requires poolId in bindings
    ensures HostedAgentIdAsWritten(HostingPool(bindings, poolId).value) == Err(KeyError("id"))
  {
    assert "id" != "agent";
  }

  /** The intended read: `lbaas_agent['agent']['id']`. */
  function HostedAgentId(lbaasAgent: Value): Result<Value>
  {
    match Lookup(lbaasAgent, "agent")
    case Err(e) => Err(e)
    case Ok(agent) => Lookup(agent, "id")
  }

  /** The intended read yields the id of the hosting agent. */
  lemma HostedBranchReadsAgent(bindings: Bindings, poolId: string)
    requires poolId in bindings
    ensures HostedAgentId(HostingPool(bindings, poolId).value) == Ok(Str(bindings[poolId]))
  {
  }

  /** What `ChanceScheduler.schedule` does: the agent chosen, if any, and
      the new table. `pick` stands for `random.choice`: the candidate at
      `pick` modulo their number is chosen. A pool already hosted is left
      where it is. */
  function Scheduled(bindings: Bindings, poolId: string, deviceDriver: string, activeAgents: seq<Agent>,
                     pick: nat): (Option<Agent>, Bindings)
  {
    if poolId in bindings || |activeAgents| == 0 then (None, bindings)
    else
      var candidates := Candidates(deviceDriver, activeAgents);
      if |candidates| == 0 then (None, bindings)
      else
        var chosen := candidates[pick % |candidates|];
        (Some(chosen), bindings[poolId := chosen.id])
  }

  /** The scheduler binds nothing when the pool is hosted or no active
      agent supports the driver; otherwise it binds the pool, and only
      it, to an active agent supporting the driver and returns that
      agent. */
  lemma ScheduledOutcome(bindings: Bindings, poolId: string, deviceDriver: string, activeAgents: seq<Agent>, pick: nat)
    ensures var (chosen, r) := Scheduled(bindings, poolId, deviceDriver, activeAgents, pick);
            && (chosen.None? <==>
                  poolId in bindings || forall a | a in activeAgents :: deviceDriver !in a.deviceDrivers)
            && (chosen.None? ==> r == bindings)
            && (chosen.Some? ==>
                  chosen.value in activeAgents && deviceDriver in chosen.value.deviceDrivers
                  && r == bindings[poolId := chosen.value.id] && poolId !in bindings)
  {
    CandidatesMembers(deviceDriver, activeAgents);
    var candidates := Candidates(deviceDriver, activeAgents);
    if |candidates| > 0 {
      assert candidates[pick % |candidates|] in candidates;
    }
  }

  /** A pool the scheduler places on an agent is then hosted by it. */
  lemma ScheduledThenHosted(bindings: Bindings, poolId: string, deviceDriver: string, activeAgents: seq<Agent>,
                            pick: nat)
    requires Scheduled(bindings, poolId, deviceDriver, activeAgents, pick).0.Some?
    ensures var (chosen, r) := Scheduled(bindings, poolId, deviceDriver, activeAgents, pick);
            HostedAgentId(HostingPool(r, poolId).value) == Ok(Str(chosen.value.id))
  {
    ScheduledOutcome(bindings, poolId, deviceDriver, activeAgents, pick);
    var r := Scheduled(bindings, poolId, deviceDriver, activeAgents, pick).1;
    HostedBranchReadsAgent(r, poolId);
  }

  // ---------------------------------------------------------------------
  // The table

  /** The `PoolLoadbalancerAgentBinding` table of the plugin. */
  class BindingTable {
    var bindings: Bindings

    constructor()
      ensures bindings == map[]
    {
      bindings := map[];
    }

    /** `_bind_pool`: the checks, then one new binding; on an error the
        transaction adds nothing. */
    method BindPool(agentId: string, poolId: string, samePools: seq<string>) returns (err: Option<SchedError>)
      modifies this
      ensures err == BindCheck(old(bindings), poolId, agentId, samePools)
      ensures Bound(old(bindings), agentId, poolId, samePools).Ok? ==>
                bindings == Bound(old(bindings), agentId, poolId, samePools).value
      ensures err.Some? ==> bindings == old(bindings)
    {
      err := BindCheck(bindings, poolId, agentId, samePools);
      if err.None? {
        bindings := bindings[poolId := agentId];
      }
    }

    /** `_unbind_pool`. */
    method UnbindPool(agentId: string, poolId: string) returns (err: Option<SchedError>)
      modifies this
      ensures err.None? <==> Unbound(old(bindings), agentId, poolId).Ok?
      ensures err.None? ==> bindings == Unbound(old(bindings), agentId, poolId).value
      ensures err.Some? ==> err == Some(PoolNotBoundToAgent(poolId, agentId)) && bindings == old(bindings)
    {
      if poolId in bindings && bindings[poolId] == agentId {
        bindings := bindings - {poolId};
        err := None;
      } else {
        err := Some(PoolNotBoundToAgent(poolId, agentId));
      }
    }
  }

  /** `ChanceScheduler.schedule` on the plugin's table, with the hosted
      branch's log read as intended. `activeAgents` is the plugin's list of
      active load-balancer agents. */
  method Schedule(plugin: BindingTable, poolId: string, deviceDriver: string, activeAgents: seq<Agent>, pick: nat)
    returns (chosen: Option<Agent>)
    modifies plugin
    ensures (chosen, plugin.bindings) == Scheduled(old(plugin.bindings), poolId, deviceDriver, activeAgents, pick)
  {
    var lbaasAgent := HostingPool(plugin.bindings, poolId);
    if lbaasAgent.Some? {
      var hostedBy := HostedAgentId(lbaasAgent.value);
      return None;
    }
    if |activeAgents| == 0 {
      return None;
    }
    var candidates := GetLbaasAgentCandidates(deviceDriver, activeAgents);
    if |candidates| == 0 {
      return None;
    }
    var agent := candidates[pick % |candidates|];
    plugin.bindings := plugin.bindings[poolId := agent.id];
    chosen := Some(agent);
  }
}
