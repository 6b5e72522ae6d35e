/**
  The stream processor (internal/aggregator/processor.go): streak counters per
  target and, nested inside, per agent; entries expire when they go stale.
*/
module Processor {
  import opened Common
  import opened Requests

  datatype AgentKey = AgentKey(node: string, mode: NetworkMode)

  datatype Agent = Agent(
    key: AgentKey, lastSuccess: Option<Time>, lastFailure: Option<Time>, code: string, layer: string,
    failures: nat, successes: nat)

  datatype Health = Healthy | Degraded | Unhealthy

  datatype State = State(
    key: string, name: string, namespace: string, kind: string, failures: nat, successes: nat,
    lastSuccess: Option<Time>, lastFailure: Option<Time>, code: string, layer: string,
    health: Health, updated: Time, agents: map<AgentKey, Agent>)

  type States = map<string, State>

  /** The readings of the clock while one result is counted: for the target, and later for the agent. */
  datatype Reading = Reading(target: Time, agent: Time)

  function KeyOf(r: Result): AgentKey {
    AgentKey(r.node, r.mode)
  }

  function NewAgent(key: AgentKey): Agent {
    Agent(key, None, None, "", "", 0, 0)
  }

  function NewState(r: Result, now: Time): State {
    State(r.Key(), r.name, r.namespace, r.kind, 0, 0, None, None, "", "", Healthy, now, map[])
  }

  function CountAgent(a: Agent, r: Result, now: Time): Agent {
    if r.success then a.(successes := a.successes + 1, failures := 0, lastSuccess := Some(now))
    else a.(failures := a.failures + 1, successes := 0, lastFailure := Some(now), code := r.code, layer := r.layer)
  }

  function FindAgent(agents: map<AgentKey, Agent>, key: AgentKey): Agent {
    if key in agents then agents[key] else NewAgent(key)
  }

  function CountAgents(agents: map<AgentKey, Agent>, r: Result, now: Time): map<AgentKey, Agent> {
    agents[KeyOf(r) := CountAgent(FindAgent(agents, KeyOf(r)), r, now)]
  }

  /** The target's own counters and health, which ignore which agent reported. */
  function CountTotals(s: State, r: Result, now: Time): State {
    if r.success
    then s.(successes := s.successes + 1, failures := 0, lastSuccess := Some(now), health := Healthy, updated := now)
    else s.(failures := s.failures + 1, successes := 0, lastFailure := Some(now), code := r.code, layer := r.layer,
            health := Unhealthy, updated := now)
  }

  function CountState(s: State, r: Result, now: Reading): State {
    CountTotals(s.(agents := CountAgents(s.agents, r, now.agent)), r, now.target)
  }

  function Find(ss: States, r: Result, now: Reading): State {
    if r.Key() in ss then ss[r.Key()] else NewState(r, now.target)
  }

  function AfterResult(ss: States, r: Result, now: Reading): States {
    ss[r.Key() := CountState(Find(ss, r, now), r, now)]
  }

  predicate Stale(expiration: int, s: State, now: Time) {
    now - s.updated > expiration
  }

  function AfterCleanup(expiration: int, ss: States, now: Time): States {
    map k | k in ss && !Stale(expiration, ss[k], now) :: ss[k]
  }

  /** A clean-up that still has the keys `todo` to look at. */
  ghost function Sweep(expiration: int, ss: States, todo: set<string>, now: Time): States {
    map k | k in ss && (k in todo || !Stale(expiration, ss[k], now)) :: ss[k]
  }

  lemma SweepOne(expiration: int, ss: States, todo: set<string>, key: string, now: Time)
    requires key in todo && todo <= ss.Keys
    ensures key in Sweep(expiration, ss, todo, now)
    ensures |todo - {key}| < |todo|
    ensures Sweep(expiration, ss, todo - {key}, now) ==
            if Stale(expiration, ss[key], now)
            then Sweep(expiration, ss, todo, now) - {key}
            else Sweep(expiration, ss, todo, now)
  {
  }

  lemma SweepDone(expiration: int, ss: States, now: Time)
    ensures Sweep(expiration, ss, {}, now) == AfterCleanup(expiration, ss, now)
  {
  }

  lemma CreatingChangesNothing(ss: States, r: Result, now: Reading)
    ensures AfterResult(ss[r.Key() := Find(ss, r, now)], r, now) == AfterResult(ss, r, now)
  {
  }

  /** A target's state. The entries of `agentStates` are reached through this object only, so they are values. */
  class TargetState {
    const targetKey: string
    const targetName: string
    const targetNamespace: string
    const targetType: string
    var consecutiveFailures: nat
    var consecutiveSuccesses: nat
    var lastSuccessTime: Option<Time>
    var lastFailureTime: Option<Time>
    var lastFailureCode: string
    var lastFailureLayer: string
    var health: Health
    var lastUpdatedAt: Time
    var agentStates: map<AgentKey, Agent>

    ghost function Value(): State
      reads this
    {
      State(targetKey, targetName, targetNamespace, targetType, consecutiveFailures, consecutiveSuccesses,
            lastSuccessTime, lastFailureTime, lastFailureCode, lastFailureLayer, health, lastUpdatedAt, agentStates)
    }

    constructor (r: Result, now: Time)
      ensures Value() == NewState(r, now)
    {
      targetKey, targetName, targetNamespace, targetType := r.Key(), r.name, r.namespace, r.kind;
      consecutiveFailures, consecutiveSuccesses := 0, 0;
      lastSuccessTime, lastFailureTime := None, None;
      lastFailureCode, lastFailureLayer := "", "";
      health, lastUpdatedAt := Healthy, now;
      agentStates := map[];
    }

    method UpdateAgentState(r: Result, now: Time)
      modifies `agentStates
      ensures agentStates == CountAgents(old(agentStates), r, now)
    {
      var key := KeyOf(r);
      var agent := if key in agentStates then agentStates[key] else NewAgent(key);
      if r.success {
        agent := agent.(successes := agent.successes + 1, failures := 0, lastSuccess := Some(now));
      } else {
        agent := agent.(failures := agent.failures + 1, successes := 0, lastFailure := Some(now),
                        code := r.code, layer := r.layer);
      }
      agentStates := agentStates[key := agent];
    }

    method UpdateState(r: Result, now: Reading)
      modifies this
      ensures Value() == CountState(old(Value()), r, now)
    {
      UpdateAgentState(r, now.agent);
      if r.success {
        consecutiveSuccesses := consecutiveSuccesses + 1;
        consecutiveFailures := 0;
        lastSuccessTime := Some(now.target);
        health := Healthy;
      } else {
        consecutiveFailures := consecutiveFailures + 1;
        consecutiveSuccesses := 0;
        lastFailureTime := Some(now.target);
        lastFailureCode, lastFailureLayer := r.code, r.layer;
        health := Unhealthy;
      }
      lastUpdatedAt := now.target;
    }
  }

  class StreamProcessor {
    const expiration: int
    var states: map<string, TargetState>
    ghost var contents: States

    ghost predicate Valid()
      reads this, states.Values
    {
      && contents.Keys == states.Keys
      && (forall k | k in states :: states[k].targetKey == k && states[k].Value() == contents[k])
    }

    constructor (expiration: int)
      ensures Valid() && states == map[] && contents == map[] && this.expiration == expiration
    {
      this.expiration := expiration;
      states, contents := map[], map[];
    }

    /** Known targets keep their state objects; new targets get new ones. */
    twostate predicate Grows()
      reads this
    {
      forall k | k in states :: if k in old(states) then states[k] == old(states)[k] else fresh(states[k])
    }

    method ProcessResult(r: Result, now: Reading)
      requires Valid()
      modifies this, states.Values
      ensures Valid() && Grows()
      ensures contents == AfterResult(old(contents), r, now)
    {
      FindOrCreate(r, now);
      CreatingChangesNothing(old(contents), r, now);
      ProcessKnown(r, now);
    }

    method FindOrCreate(r: Result, now: Reading)
      requires Valid()
      modifies this
      ensures Valid() && Grows()
      ensures r.Key() in states && contents == old(contents)[r.Key() := Find(old(contents), r, now)]
    {
      if r.Key() !in states {
        var state := new TargetState(r, now.target);
        states := states[r.Key() := state];
      }
      contents := contents[r.Key() := Find(contents, r, now)];
    }

    method ProcessKnown(r: Result, now: Reading)
      requires Valid() && r.Key() in states
      modifies this`contents, states[r.Key()]
      ensures Valid()
      ensures contents == AfterResult(old(contents), r, now)
    {
      states[r.Key()].UpdateState(r, now);
      contents := AfterResult(contents, r, now);
    }

    /** Nothing but the index itself changes, and it only shrinks. */
    twostate predicate Keeps()
      reads this
    {
      forall k | k in states :: k in old(states) && states[k] == old(states)[k]
    }

    method CleanupExpiredStates(now: Time) returns (expired: nat)
      requires Valid()
      modifies this
      ensures Valid() && Keeps()
      ensures contents == AfterCleanup(expiration, old(contents), now)
      ensures expired == |old(contents)| - |contents|
    {
      expired := 0;
      var todo := states.Keys;
      while todo != {}
        invariant Valid() && Keeps() && todo <= old(contents).Keys
        invariant contents == Sweep(expiration, old(contents), todo, now)
        invariant expired == |old(contents)| - |contents|
        decreases |todo|
      {
        var key :| key in todo;
        var state := states[key];
        SweepOne(expiration, old(contents), todo, key, now);
        assert state.Value() == old(contents)[key];
        if now - state.lastUpdatedAt > expiration {
          Delete(key);
          expired := expired + 1;
        }
        todo := todo - {key};
      }
      SweepDone(expiration, old(contents), now);
    }

    method Delete(key: string)
      requires Valid()
      modifies this
      ensures Valid() && Keeps()
      ensures contents == old(contents) - {key}
      ensures key in old(contents) ==> |contents| == |old(contents)| - 1
    {
      if key in contents {
        RemoveOne(contents, key);
      }
      states, contents := states - {key}, contents - {key};
      assert states.Keys == old(states).Keys - {key} && contents.Keys == old(contents).Keys - {key};
    }

    method CountByState(health: Health) returns (count: nat)
      requires Valid()
      ensures count == |InHealth(contents, health)|
    {
      count := 0;
      var todo := states.Keys;
      while todo != {}
        invariant todo <= contents.Keys
        invariant count == |InHealth(contents, health) - todo|
        decreases |todo|
      {
        var key :| key in todo;
        assert states[key].Value() == contents[key];
        CountOne(contents, health, todo, key);
        if states[key].health == health {
          count := count + 1;
        }
        todo := todo - {key};
      }
    }

    method GetStats() returns (total: nat, healthy: nat, degraded: nat, unhealthy: nat)
      requires Valid()
      ensures total == |contents| == healthy + degraded + unhealthy
      ensures healthy == |InHealth(contents, Healthy)| && unhealthy == |InHealth(contents, Unhealthy)|
    {
      total := |states|;
      healthy := CountByState(Healthy);
      degraded := CountByState(Degraded);
      unhealthy := CountByState(Unhealthy);
      HealthPartition(contents);
      assert |states.Keys| == |contents.Keys|;
    }
  }

  ghost function InHealth(ss: States, health: Health): set<string> {
    set k | k in ss && ss[k].health == health
  }

  lemma CountOne(ss: States, health: Health, todo: set<string>, key: string)
    requires key in todo && key in ss
    ensures |InHealth(ss, health) - (todo - {key})| ==
            |InHealth(ss, health) - todo| + if ss[key].health == health then 1 else 0
  {
    var counted := InHealth(ss, health) - todo;
    assert InHealth(ss, health) - (todo - {key}) == if ss[key].health == health then counted + {key} else counted;
  }

  /** The three health classes partition the targets. */
  lemma HealthPartition(ss: States)
    ensures |ss| == |InHealth(ss, Healthy)| + |InHealth(ss, Degraded)| + |InHealth(ss, Unhealthy)|
  {
    var h, d, u := InHealth(ss, Healthy), InHealth(ss, Degraded), InHealth(ss, Unhealthy);
    assert ss.Keys == h + d + u;
    assert |h + d| == |h| + |d| && |h + d + u| == |h + d| + |u|;
  }
}
