/**
 * The built-in scenarios (src/simulation/ScenarioLoader.ts): a constant list
 * holding the B2B-to-B2C pivot debate, a lookup by id, and the configuration
 * a run starts from by default.
 */
module ScenarioLoader {
  import opened Wrappers
  import opened Types
  import SimulationStates

  datatype ScenarioDefinition = ScenarioDefinition(id: string, name: string, briefing: string, agents: seq<AgentConfig>)

  const PivotId := "b2b-b2c-pivot"
  const PivotName := "Should our startup pivot from B2B to B2C?"
  const DefaultTickIntervalMs := 3000
  const DefaultSpeed := 1

  /** `SCENARIOS`: the pivot scenario, briefed with the same text and agents as the simulation state's defaults. */
  const Scenarios: seq<ScenarioDefinition> :=
    [ScenarioDefinition(PivotId, PivotName, SimulationStates.DefaultBriefing, SimulationStates.DefaultAgentConfigs)]

  /** `Array.prototype.find` by id: the first scenario carrying the id, or nothing. */
  function FindById(ss: seq<ScenarioDefinition>, id: string): (r: Option<ScenarioDefinition>)
    ensures r.None? <==> forall s :: s in ss ==> s.id != id
    ensures r.Some? ==> exists i :: 0 <= i < |ss| && ss[i] == r.value && r.value.id == id
                                   && forall j :: 0 <= j < i ==> ss[j].id != id
  {
    if ss == [] then None
    else if ss[0].id == id then Some(ss[0])
    else
      var rest := FindById(ss[1..], id);
      assert forall s :: s in ss[1..] ==> s in ss;
      if rest.Some? then
        var i :| 0 <= i < |ss[1..]| && ss[1..][i] == rest.value && rest.value.id == id
                 && forall j :: 0 <= j < i ==> ss[1..][j].id != id;
        assert ss[i + 1] == rest.value;
        assert forall j :: 0 <= j < i + 1 ==> ss[j].id != id by {
          forall j | 0 <= j < i + 1 ensures ss[j].id != id {
            if j > 0 { assert ss[j] == ss[1..][j - 1]; }
          }
        }
        rest
      else
        rest
  }

  /** `getScenarios()`: the whole list. */
  function GetScenarios(): (r: seq<ScenarioDefinition>)
    ensures |r| == 1 && r[0].id == PivotId && r[0].agents == SimulationStates.DefaultAgentConfigs
  {
    Scenarios
  }

  /** `getScenario(id)`: the scenario with that id, or `undefined`. */
  function GetScenario(id: string): (r: Option<ScenarioDefinition>)
    ensures r.Some? ==> r.value in GetScenarios() && r.value.id == id
    ensures r.None? <==> forall s :: s in GetScenarios() ==> s.id != id
  {
    FindById(Scenarios, id)
  }

  /** Only the pivot scenario's id is known, and it finds that scenario. */
  lemma GetScenarioKnownIds(id: string)
    ensures GetScenario(id).Some? <==> id == PivotId
    ensures id == PivotId ==> GetScenario(id) == Some(Scenarios[0])
  {
    assert Scenarios[0] in Scenarios;
  }

  /**
   * `getDefaultScenarioConfig()`: the first scenario's name, briefing and
   * agents, a tick every 3000 ms, at speed 1.
   */
  function GetDefaultScenarioConfig(): (c: SimulationConfig)
    ensures var first := GetScenarios()[0];
      c.scenario == first.name && c.briefing == first.briefing && c.agents == first.agents
    ensures c.tickIntervalMs == 3000 && c.speed == 1
  {
    var scenario := Scenarios[0];
    SimulationConfig(scenario.name, scenario.briefing, scenario.agents, DefaultTickIntervalMs, DefaultSpeed)
  }
}
