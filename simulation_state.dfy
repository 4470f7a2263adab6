/**
 * The canonical simulation state (src/simulation/SimulationState.ts): the
 * tick, the run status, the agents by id, the event log, the world tables
 * and the set of live subscribers; `initialize` builds the agents of a
 * scenario, `getSnapshot` reports the state and `broadcast` sends a message
 * to every subscriber, dropping those whose stream has closed.
 */
module SimulationStates {
  import opened Wrappers
  import opened Types
  import opened OrderedMap
  import JsText
  import Ids
  import MemoryStreams
  import Agents
  import EventLogs
  import EnvironmentTrees
  import ZoneRegistries
  import SpatialStates

  /** The five agents of the default scenario. */
  const DefaultAgentConfigs: seq<AgentConfig> := [
    AgentConfig("visionary", "The Visionary", "CEO", "#4CAF50", Collaborative, "office_visionary",
      "You are The Visionary, a startup CEO who thinks in terms of market opportunity and bold moves. You're excited about the B2C pivot because you see a massive TAM of 50M consumers. You tend to inspire others but sometimes overlook execution details. You believe in moving fast and iterating."),
    AgentConfig("skeptic", "The Skeptic", "CFO", "#F44336", Adversarial, "office_skeptic",
      "You are The Skeptic, a cautious CFO who demands evidence before any major decision. You're concerned about the B2C pivot because consumer acquisition costs are 5-10x higher than enterprise, the burn rate would triple, and the company has zero consumer brand recognition. You challenge assumptions relentlessly but fairly. You respect data above all."),
    AgentConfig("builder", "The Builder", "CTO", "#2196F3", Neutral, "office_builder",
      "You are The Builder, a pragmatic CTO who thinks about what's technically feasible and what the team of 12 engineers can actually ship in 6 months. You have concerns about rebuilding the product for consumer UX, but you also see technical advantages in the pivot. You're honest about timelines."),
    AgentConfig("whisperer", "The Customer Whisperer", "Head of Product", "#FFEB3B", Collaborative, "office_whisperer",
      "You are The Customer Whisperer, head of product who deeply understands user needs through 200+ customer interviews. You have data showing that 40% of B2B users actually came through word-of-mouth from individual users who loved the product. This makes you believe a B2C play has organic potential. You think about product-market fit above all."),
    AgentConfig("devil", "Devil's Advocate", "Board Advisor", "#9C27B0", Adversarial, "office_devil",
      "You are the Devil's Advocate, a board advisor whose explicit role is to challenge every argument, find weaknesses, and prevent groupthink. You don't have a personal position on the pivot \U{2014} your job is to stress-test whatever the current consensus is. If everyone agrees, you disagree. If everyone disagrees, you find the case for agreement. You ask uncomfortable questions.")
  ]

  const DefaultBriefing := "The board has asked the leadership team to evaluate whether the company should pivot from its current B2B SaaS model to a B2C consumer product. The B2B business is generating $2M ARR with 15% month-over-month growth, but the team believes the consumer market opportunity is 100x larger. The company has $5M in runway. The board wants a recommendation by end of week. Each team member should evaluate this from their area of expertise and discuss."

  const BriefingImportance := 9
  const InitializedMessage := "Simulation initialized. Agents reading scenario briefing."
  /** How many of the newest events a snapshot carries. */
  const SnapshotEvents := 20

  /** `Tick ${tick}`. */
  function TickLabel(tick: nat): string {
    "Tick " + JsText.NatToString(tick)
  }

  /** The observation every agent starts with. */
  function BriefingText(briefing: string): string {
    "Scenario briefing: " + briefing
  }

  // ---------------------------------------------------------------------
  // Subscribers
  // ---------------------------------------------------------------------

  /**
   * A server-sent-events subscriber. `open` is false for a subscriber whose
   * stream has closed: enqueueing on it throws.
   */
  datatype Controller = Controller(id: nat, open: bool)

  /** One message handed to one subscriber. */
  datatype Delivery = Delivery(controller: nat, message: ServerMessage)

  /** The subscribers of `cs` that are kept: the open ones and those in `keep`, in order. */
  function KeepIf(cs: seq<Controller>, keep: set<Controller>): (r: seq<Controller>)
    ensures forall c :: c in r <==> c in cs && (c.open || c in keep)
  {
    if cs == [] then [] else (if cs[0].open || cs[0] in keep then [cs[0]] else []) + KeepIf(cs[1..], keep)
  }

  /** The open subscribers, in order. */
  function Open(cs: seq<Controller>): (r: seq<Controller>)
    ensures forall c :: c in r <==> c in cs && c.open
  {
    KeepIf(cs, {})
  }

  /** The closed subscribers, in order. */
  function Closed(cs: seq<Controller>): (r: seq<Controller>)
    ensures forall c :: c in r <==> c in cs && !c.open
  {
    if cs == [] then [] else Closed(cs[..|cs| - 1]) + (if cs[|cs| - 1].open then [] else [cs[|cs| - 1]])
  }

  /** What a broadcast of `m` hands out: one delivery per open subscriber, in order. */
  function Deliveries(cs: seq<Controller>, m: ServerMessage): (r: seq<Delivery>)
    ensures |r| == |Open(cs)|
    ensures forall i :: 0 <= i < |r| ==> r[i] == Delivery(Open(cs)[i].id, m)
  {
    var open := Open(cs);
    seq(|open|, i requires 0 <= i < |open| => Delivery(open[i].id, m))
  }

  /** The subscribers kept from a longer list: those kept before, then the new one if it is kept. */
  lemma {:induction false} KeepIfSnoc(cs: seq<Controller>, c: Controller, keep: set<Controller>)
    ensures KeepIf(cs + [c], keep) == KeepIf(cs, keep) + (if c.open || c in keep then [c] else [])
  {
    var last := if c.open || c in keep then [c] else [];
    if cs == [] {
      calc {
        KeepIf([c], keep);
        last + KeepIf([], keep);
        KeepIf([], keep) + last;
      }
    } else {
      var head := if cs[0].open || cs[0] in keep then [cs[0]] else [];
      assert (cs + [c])[0] == cs[0];
      assert (cs + [c])[1..] == cs[1..] + [c];
      calc {
        KeepIf(cs + [c], keep);
        head + KeepIf(cs[1..] + [c], keep);
        { KeepIfSnoc(cs[1..], c, keep); }
        head + (KeepIf(cs[1..], keep) + last);
        (head + KeepIf(cs[1..], keep)) + last;
        KeepIf(cs, keep) + last;
      }
    }
  }

  /** One more subscriber joins the closed ones when it is not open. */
  lemma ClosedSnoc(cs: seq<Controller>, c: Controller)
    ensures Closed(cs + [c]) == Closed(cs) + (if c.open then [] else [c])
  {
    assert (cs + [c])[..|cs|] == cs;
  }

  /** One more subscriber hands out one more delivery if it is open. */
  lemma DeliveriesSnoc(cs: seq<Controller>, c: Controller, m: ServerMessage)
    ensures Deliveries(cs + [c], m) == Deliveries(cs, m) + (if c.open then [Delivery(c.id, m)] else [])
  {
    KeepIfSnoc(cs, c, {});
  }

  /** Every subscriber of `cs` is open or kept, so none is dropped. */
  lemma {:induction false} KeepIfAll(cs: seq<Controller>, keep: set<Controller>)
    requires forall c :: c in cs ==> c.open || c in keep
    ensures KeepIf(cs, keep) == cs
  {
    if cs != [] {
      KeepIfAll(cs[1..], keep);
      assert [cs[0]] + cs[1..] == cs;
    }
  }

  /** Deleting one closed subscriber is the same as no longer keeping it. */
  lemma {:induction false} KeepIfWithout(cs: seq<Controller>, keep: set<Controller>, d: Controller)
    requires !d.open && d !in keep
    ensures Without(KeepIf(cs, keep + {d}), d) == KeepIf(cs, keep)
  {
    if cs != [] {
      KeepIfWithout(cs[1..], keep, d);
      var c := cs[0];
      var rest := KeepIf(cs[1..], keep + {d});
      if c.open || c in keep + {d} {
        assert KeepIf(cs, keep + {d}) == [c] + rest;
        assert ([c] + rest)[1..] == rest;
      } else {
        assert KeepIf(cs, keep + {d}) == rest;
      }
    }
  }

  /** After a broadcast only open subscribers are left, so the next broadcast drops nobody and reaches all of them. */
  lemma BroadcastSettles(cs: seq<Controller>, m: ServerMessage)
    ensures Open(Open(cs)) == Open(cs)
    ensures Closed(Open(cs)) == []
    ensures |Deliveries(Open(cs), m)| == |Open(cs)|
  {
    KeepIfAll(Open(cs), {});
    if Closed(Open(cs)) != [] {
      assert Closed(Open(cs))[0] in Closed(Open(cs));
    }
  }

  // ---------------------------------------------------------------------
  // The agent table
  // ---------------------------------------------------------------------

  /** The memory streams of the agents in a table. */
  function Memories(agents: map<string, Agents.Agent>): set<MemoryStreams.MemoryStream> {
    set k | k in agents :: agents[k].memory
  }

  /** What each agent of the table remembers, by key. */
  ghost function Contents(agents: map<string, Agents.Agent>): (c: map<string, seq<MemoryEntry>>)
    reads Memories(agents)
    ensures c.Keys == agents.Keys
  {
    map k | k in agents :: agents[k].memory.entries
  }

  /** The zone each agent of the table is in, by key. */
  ghost function Whereabouts(agents: map<string, Agents.Agent>): (z: map<string, Option<string>>)
    reads agents.Values
    ensures z.Keys == agents.Keys
  {
    map k | k in agents :: agents[k].currentZone
  }

  /** Memories and zones only change through the agents and their memory streams. */
  twostate lemma Untouched(agents: map<string, Agents.Agent>)
    requires unchanged(Memories(agents)) && unchanged(agents.Values)
    ensures Contents(agents) == old(Contents(agents)) && Whereabouts(agents) == old(Whereabouts(agents))
  {
  }

  /**
   * The shape of the agent table: each agent filed under its own id, no two
   * sharing a memory stream, and `order` listing each key once (a
   * JavaScript `Map` iterates in insertion order).
   */
  predicate Roster(agents: map<string, Agents.Agent>, order: seq<string>) {
    && (forall k :: k in agents ==> agents[k].id == k)
    && Separate(agents)
    && Distinct(order)
    && (forall k :: k in order ==> k in agents)
    && (forall k :: k in agents ==> k in order)
  }

  /** No two agents of the table share a memory stream. */
  predicate Separate(agents: map<string, Agents.Agent>) {
    forall j, k :: j in agents && k in agents && j != k ==> agents[j].memory != agents[k].memory
  }

  /**
   * Every agent's memory is one of `mems`, well formed, and draws its ids
   * from the shared counter.
   */
  ghost predicate Minds(agents: map<string, Agents.Agent>, ids: Ids.Counter, mems: set<MemoryStreams.MemoryStream>)
    reads mems, ids
  {
    forall k :: k in agents ==> agents[k].memory in mems && agents[k].memory.ids == ids && agents[k].memory.Valid()
  }

  /** `Minds` with the counter's value given, so that it does not depend on the counter object. */
  ghost predicate MindsAt(agents: map<string, Agents.Agent>, ids: Ids.Counter, mems: set<MemoryStreams.MemoryStream>, counter: nat)
    reads mems
  {
    forall k :: k in agents ==> agents[k].memory in mems && agents[k].memory.ids == ids && agents[k].memory.ValidAt(counter)
  }

  /** The shared counter only moves on: memories valid before stay valid. */
  lemma MindsLater(agents: map<string, Agents.Agent>, ids: Ids.Counter, mems: set<MemoryStreams.MemoryStream>, before: nat)
    requires MindsAt(agents, ids, mems, before) && before <= ids.value
    ensures Minds(agents, ids, mems)
  {
  }

  /** The memories of all agents but `k` are valid at the counter's present value. */
  lemma MindsOthers(agents: map<string, Agents.Agent>, ids: Ids.Counter, mems: set<MemoryStreams.MemoryStream>, k: string)
    requires Minds(agents, ids, mems) && k in agents
    requires forall j :: j in agents && j != k ==> agents[j].memory != agents[k].memory
    ensures MindsAt(agents - {k}, ids, mems - {agents[k].memory}, ids.value)
  {
  }

  /** The table's memories are valid once agent `k`'s is and all the others' are. */
  lemma MindsJoin(agents: map<string, Agents.Agent>, ids: Ids.Counter, mems: set<MemoryStreams.MemoryStream>, k: string, before: nat)
    requires k in agents && agents[k].memory in mems
    requires MindsAt(agents - {k}, ids, mems - {agents[k].memory}, before) && before <= ids.value
    requires agents[k].memory.ids == ids && agents[k].memory.Valid()
    ensures Minds(agents, ids, mems)
  {
    assert forall j :: j in agents && j != k ==> j in agents - {k};
  }

  /** Filing an agent whose memory is well formed and draws from the shared counter keeps every memory well formed. */
  lemma MindsPut(agents: map<string, Agents.Agent>, ids: Ids.Counter, mems: set<MemoryStreams.MemoryStream>, k: string, a: Agents.Agent)
    requires Minds(agents, ids, mems) && a.memory.ids == ids && a.memory.Valid()
    ensures Minds(agents[k := a], ids, mems + {a.memory})
  {
  }

  /** The configurations whose starting zone has a spawn tile, in order. */
  function Placeable(configs: seq<AgentConfig>, zones: map<string, ZoneDefinition>): seq<AgentConfig> {
    if configs == [] then []
    else
      var last := configs[|configs| - 1];
      Placeable(configs[..|configs| - 1], zones) + (if last.startingLocation in zones then [last] else [])
  }

  /** One more configuration is placeable exactly when its zone is known. */
  lemma PlaceableNext(configs: seq<AgentConfig>, i: nat, zones: map<string, ZoneDefinition>)
    requires i < |configs|
    ensures Placeable(configs[..i + 1], zones)
      == Placeable(configs[..i], zones) + (if configs[i].startingLocation in zones then [configs[i]] else [])
  {
    assert configs[..i + 1][..i] == configs[..i];
  }

  /** The table `agents.set(cfg.id, …)` builds: a later configuration with the same id replaces an earlier one. */
  function Table(cs: seq<AgentConfig>): map<string, AgentConfig> {
    if cs == [] then map[] else Table(cs[..|cs| - 1])[cs[|cs| - 1].id := cs[|cs| - 1]]
  }

  /** `Map.set` on a key already present keeps its place; a new key goes last. */
  function AddKey(order: seq<string>, k: string): seq<string> {
    if k in order then order else order + [k]
  }

  /** The iteration order of the table built from `cs`. */
  function KeyOrder(cs: seq<AgentConfig>): seq<string> {
    if cs == [] then [] else AddKey(KeyOrder(cs[..|cs| - 1]), cs[|cs| - 1].id)
  }

  /** The ids of a list of configurations, in order. */
  function IdsOf(cs: seq<AgentConfig>): (r: seq<string>)
    ensures |r| == |cs| && forall i :: 0 <= i < |cs| ==> r[i] == cs[i].id
  {
    seq(|cs|, i requires 0 <= i < |cs| => cs[i].id)
  }

  /**
   * An id is filed in the table exactly when some configuration has it,
   * and the table holds under it the last configuration with that id.
   */
  lemma {:induction false} TableHoldsLast(cs: seq<AgentConfig>, k: string)
    ensures k in Table(cs) <==> k in IdsOf(cs)
    ensures k in Table(cs) ==>
      exists i :: 0 <= i < |cs| && Table(cs)[k] == cs[i] && cs[i].id == k && forall j :: i < j < |cs| ==> cs[j].id != k
  {
    if cs != [] {
      var init := cs[..|cs| - 1];
      var last := cs[|cs| - 1];
      TableHoldsLast(init, k);
      assert IdsOf(cs) == IdsOf(init) + [last.id];
      if k == last.id {
        assert Table(cs)[k] == cs[|cs| - 1];
      } else if k in Table(init) {
        var i :| 0 <= i < |init| && Table(init)[k] == init[i] && init[i].id == k && forall j :: i < j < |init| ==> init[j].id != k;
        assert Table(cs)[k] == cs[i];
      }
    }
  }

  /** With distinct ids, the key order is the configurations' order and each is filed as given. */
  lemma {:induction false} TableOfDistinct(cs: seq<AgentConfig>)
    requires Distinct(IdsOf(cs))
    ensures KeyOrder(cs) == IdsOf(cs)
    ensures forall i :: 0 <= i < |cs| ==> cs[i].id in Table(cs) && Table(cs)[cs[i].id] == cs[i]
  {
    if cs != [] {
      var init := cs[..|cs| - 1];
      var last := cs[|cs| - 1];
      assert IdsOf(init) == IdsOf(cs)[..|cs| - 1];
      DistinctPrefix(IdsOf(cs), |cs| - 1);
      TableOfDistinct(init);
      forall i | 0 <= i < |cs| - 1 ensures cs[i].id != last.id {
        DistinctAt(IdsOf(cs), i, |cs| - 1);
      }
      assert IdsOf(cs) == IdsOf(init) + [last.id];
    }
  }

  /** The key order lists each id of the table once. */
  lemma {:induction false} KeyOrderIsRoster(cs: seq<AgentConfig>)
    ensures Distinct(KeyOrder(cs))
    ensures forall k :: k in KeyOrder(cs) <==> k in Table(cs)
  {
    if cs != [] {
      var init := cs[..|cs| - 1];
      KeyOrderIsRoster(init);
      if cs[|cs| - 1].id !in KeyOrder(init) {
        DistinctSnoc(KeyOrder(init), cs[|cs| - 1].id);
      }
    }
  }

  /** The table files each configuration under its own id. */
  lemma {:induction false} TableIds(cs: seq<AgentConfig>)
    ensures forall k :: k in Table(cs) ==> Table(cs)[k].id == k
  {
    if cs != [] {
      TableIds(cs[..|cs| - 1]);
    }
  }

  /**
   * A newly built agent: the configuration's fields, standing on `spawn` in
   * its starting zone, idle and neutral, with one memory: the briefing,
   * importance 9, at tick 0, located in the starting zone.
   */
  ghost predicate Built(a: Agents.Agent, cfg: AgentConfig, spawn: Tile, briefing: string)
    reads a, a.memory
  {
    && a.id == cfg.id && a.name == cfg.name && a.role == cfg.role && a.color == cfg.color
    && a.disposition == cfg.disposition && a.persona == cfg.persona && a.startingLocation == cfg.startingLocation
    && a.tileX == spawn.x && a.tileY == spawn.y && a.currentZone == Some(cfg.startingLocation)
    && a.currentPlan == None && a.status == Idle && a.emotion == NeutralEmotion
    && a.lastAction == None && a.turnsSinceLastAction == 0
    && Briefed(a.memory.entries, cfg.startingLocation, briefing)
  }

  /**
   * A memory holding one observation only: the briefing, importance 9,
   * observed and last accessed at tick 0, located in the starting zone,
   * about no other agent.
   */
  ghost predicate Briefed(entries: seq<MemoryEntry>, location: string, briefing: string) {
    && |entries| == 1
    && entries[0].kind == Observation && entries[0].content == BriefingText(briefing)
    && entries[0].importance == BriefingImportance && entries[0].tick == 0 && entries[0].lastAccessed == 0
    && entries[0].location == Some(location) && entries[0].associatedAgent == None
  }

  /**
   * `new Agent(cfg, spawn.x, spawn.y)`, `spatialState.setPosition` and the
   * briefing observation: the body of `initialize`'s loop for one agent.
   */
  method Spawn(cfg: AgentConfig, spawn: Tile, briefing: string, spatial: SpatialStates.SpatialState, memoryIds: Ids.Counter)
      returns (agent: Agents.Agent)
    requires spatial.Valid()
    modifies spatial, memoryIds
    ensures fresh(agent) && fresh(agent.memory)
    ensures agent.memory.ids == memoryIds && agent.Valid()
    ensures memoryIds.value == old(memoryIds.value) + 1
    ensures Built(agent, cfg, spawn, briefing)
    ensures spatial.Valid()
    ensures spatial.positions == old(spatial.positions).Put(cfg.id, Position(cfg.id, spawn, spatial.registry.GetAllZones()))
  {
    agent := new Agents.Agent(cfg, spawn.x, spawn.y, memoryIds);
    spatial.SetPosition(cfg.id, spawn.x, spawn.y);
    agent.AddObservation(0, BriefingText(briefing), BriefingImportance, Some(cfg.startingLocation));
  }

  /** The position `setPosition` records for agent `id` put on `tile`, given the registry's zones. */
  function Position(id: string, tile: Tile, all: seq<ZoneDefinition>): SpatialStates.AgentPosition {
    SpatialStates.AgentPosition(id, tile.x, tile.y, SpatialStates.ZoneIdAt(all, tile.x, tile.y))
  }

  /** Every agent of the table was built from its configuration in `table`, on its zone's spawn tile. */
  ghost predicate BuiltAll(agents: map<string, Agents.Agent>, mems: set<MemoryStreams.MemoryStream>, table: map<string, AgentConfig>,
                           zones: map<string, ZoneDefinition>, briefing: string)
    reads agents.Values, mems
  {
    forall k :: k in agents ==>
      k in table && table[k].startingLocation in zones && agents[k].memory in mems
      && Built(agents[k], table[k], zones[table[k].startingLocation].spawnTile, briefing)
  }

  /** Every id in `keys` stands on its configuration's spawn tile in `positions`. */
  predicate Positioned(keys: set<string>, positions: map<string, SpatialStates.AgentPosition>,
                       table: map<string, AgentConfig>, zones: map<string, ZoneDefinition>, all: seq<ZoneDefinition>)
  {
    forall k :: k in keys ==>
      k in table && table[k].startingLocation in zones
      && k in positions && positions[k] == Position(k, zones[table[k].startingLocation].spawnTile, all)
  }

  /** Filing one more built agent keeps every agent built from its configuration. */
  lemma BuiltAllPut(agents: map<string, Agents.Agent>, mems: set<MemoryStreams.MemoryStream>, table: map<string, AgentConfig>,
                    zones: map<string, ZoneDefinition>, briefing: string, k: string, a: Agents.Agent, c: AgentConfig)
    requires BuiltAll(agents, mems, table, zones, briefing)
    requires c.startingLocation in zones && Built(a, c, zones[c.startingLocation].spawnTile, briefing)
    ensures BuiltAll(agents[k := a], mems + {a.memory}, table[k := c], zones, briefing)
  {
  }

  /** Placing one more agent on its spawn tile keeps every agent on its own. */
  lemma PositionedPut(keys: set<string>, positions: map<string, SpatialStates.AgentPosition>,
                      table: map<string, AgentConfig>, zones: map<string, ZoneDefinition>, all: seq<ZoneDefinition>, c: AgentConfig)
    requires Positioned(keys, positions, table, zones, all) && c.startingLocation in zones
    ensures Positioned(keys + {c.id}, positions[c.id := Position(c.id, zones[c.startingLocation].spawnTile, all)],
                       table[c.id := c], zones, all)
  {
  }

  /** The agents' states in table order. */
  function States(order: seq<string>, agents: map<string, Agents.Agent>): (r: seq<AgentState>)
    requires forall k :: k in order ==> k in agents
    reads agents.Values
    ensures |r| == |order| && forall i :: 0 <= i < |order| ==> r[i] == agents[order[i]].GetState()
  {
    if order == [] then [] else [agents[order[0]].GetState()] + States(order[1..], agents)
  }

  class SimulationState {
    var tick: nat
    var status: SimStatus
    var speed: int
    var agents: map<string, Agents.Agent>
    /** The iteration order of `agents`. */
    var agentOrder: seq<string>
    const eventLog: EventLogs.EventLog
    const environmentTree: EnvironmentTrees.EnvironmentTree
    const zoneRegistry: ZoneRegistries.ZoneRegistry
    const spatialState: SpatialStates.SpatialState
    var briefing: string
    /** The process-wide `memoryCounter` every memory stream draws its ids from. */
    const memoryIds: Ids.Counter
    /** The agents' memory streams. */
    ghost var minds: set<MemoryStreams.MemoryStream>
    /** The subscriber set, in insertion order. */
    var sseControllers: seq<Controller>
    /** Every message handed to a subscriber so far, in order. */
    var delivered: seq<Delivery>

    ghost predicate Valid()
      reads this, eventLog, eventLog.ids, spatialState, memoryIds, minds
    {
      && spatialState.registry == zoneRegistry
      && spatialState.Valid()
      && eventLog.Valid()
      && eventLog.ids != memoryIds
      && Roster(agents, agentOrder)
      && Minds(agents, memoryIds, minds)
      && Distinct(sseControllers)
    }

    /** A fresh state: stopped at tick 0, speed 1, no agents, no events, no subscribers, the default briefing. */
    constructor (memoryCounter: Ids.Counter, eventCounter: Ids.Counter)
      requires memoryCounter != eventCounter
      ensures Valid()
      ensures tick == 0 && status == Stopped && speed == 1 && agents == map[] && agentOrder == []
      ensures eventLog.events == [] && eventLog.ids == eventCounter && memoryIds == memoryCounter
      ensures spatialState.positions == Empty()
      ensures briefing == DefaultBriefing && sseControllers == [] && delivered == []
    {
      tick := 0;
      status := Stopped;
      speed := 1;
      agents := map[];
      agentOrder := [];
      eventLog := new EventLogs.EventLog(eventCounter);
      var tree, registry, spatial := World();
      environmentTree := tree;
      zoneRegistry := registry;
      spatialState := spatial;
      briefing := DefaultBriefing;
      memoryIds := memoryCounter;
      sseControllers := [];
      delivered := [];
      minds := {};
    }

    /** The zones with a spawn tile, by id. */
    function Zones(): map<string, ZoneDefinition>
    {
      zoneRegistry.zones.vals
    }

    /** The spawn tile of a configuration's starting zone. */
    function SpawnOf(cfg: AgentConfig): Tile
      requires cfg.startingLocation in Zones()
    {
      Zones()[cfg.startingLocation].spawnTile
    }

    /** The position `setPosition` records for an agent put on `tile`. */
    function PositionOf(id: string, tile: Tile): SpatialStates.AgentPosition
      requires zoneRegistry.Valid()
    {
      Position(id, tile, zoneRegistry.GetAllZones())
    }

    /**
     * The agent table holds one agent per id among `configs` whose starting
     * zone is known (the last such configuration for each id), in first-seen
     * order, each built from its configuration and standing on its spawn tile.
     */
    ghost predicate Populated(configs: seq<AgentConfig>)
      reads this, agents.Values, minds, spatialState
      requires zoneRegistry.Valid()
    {
      var placed := Placeable(configs, Zones());
      && agents.Keys == Table(placed).Keys
      && agentOrder == KeyOrder(placed)
      && BuiltAll(agents, minds, Table(placed), Zones(), briefing)
      && Positioned(agents.Keys, spatialState.positions.vals, Table(placed), Zones(), zoneRegistry.GetAllZones())
    }

    /**
     * `initialize`: tick 0, paused, and a new agent table holding one agent
     * per id among the configurations whose starting zone is known (the
     * last such configuration for each id), in first-seen order; each agent
     * is placed on its zone's spawn tile. Positions of agents not recreated
     * stay in the spatial table, and the event log keeps its events and gains
     * one system event.
     */
    method Initialize(configs: seq<AgentConfig>)
      requires Valid()
      modifies this, spatialState, eventLog, eventLog.ids, memoryIds
      ensures Valid()
      ensures tick == 0 && status == Paused
      ensures speed == old(speed) && briefing == old(briefing)
      ensures sseControllers == old(sseControllers) && delivered == old(delivered)
      ensures Populated(configs)
      ensures Kept(old(spatialState.positions.vals), spatialState.positions.vals, agents.Keys)
      ensures memoryIds.value == old(memoryIds.value) + |Placeable(configs, Zones())|
      ensures eventLog.ids.value == old(eventLog.ids.value) + 1
      ensures eventLog.events == old(eventLog.events)
        + [SimulationEvent(Ids.MakeId(EventLogs.Prefix, eventLog.ids.value), 0, SystemEvent, None, None, InitializedMessage, None)]
    {
      var _ := eventLog.Add(0, SystemEvent, None, None, InitializedMessage, None);
      Rebuild(configs);
    }

    /** The loop of `initialize` and the new agent table it builds. */
    method Rebuild(configs: seq<AgentConfig>)
      requires Valid()
      modifies this`tick, this`status, this`agents, this`agentOrder, this`minds, spatialState, memoryIds
      ensures Valid() && tick == 0 && status == Paused
      ensures Populated(configs)
      ensures Kept(old(spatialState.positions.vals), spatialState.positions.vals, agents.Keys)
      ensures memoryIds.value == old(memoryIds.value) + |Placeable(configs, Zones())|
    {
      var built, order, owner := Populate(configs, spatialState, memoryIds, briefing);
      Install(built, order, owner.Keys, Table(Placeable(configs, Zones())), Zones());
    }

    /** Files a new agent table. */
    method Install(built: map<string, Agents.Agent>, order: seq<string>, ghost mems: set<MemoryStreams.MemoryStream>,
                   ghost table: map<string, AgentConfig>, ghost zones: map<string, ZoneDefinition>)
      requires spatialState.registry == zoneRegistry && spatialState.Valid() && eventLog.Valid() && eventLog.ids != memoryIds
      requires Distinct(sseControllers) && Roster(built, order) && Minds(built, memoryIds, mems)
      requires BuiltAll(built, mems, table, zones, briefing)
      modifies this`tick, this`status, this`agents, this`agentOrder, this`minds
      ensures tick == 0 && status == Paused && agents == built && agentOrder == order && minds == mems
      ensures Valid() && BuiltAll(agents, minds, table, zones, briefing)
    {
      Assign(built, order, mems);
    }

    /** Sets the table fields. */
    method Assign(built: map<string, Agents.Agent>, order: seq<string>, ghost mems: set<MemoryStreams.MemoryStream>)
      modifies this`tick, this`status, this`agents, this`agentOrder, this`minds
      ensures tick == 0 && status == Paused && agents == built && agentOrder == order && minds == mems
    {
      tick, status, agents, agentOrder, minds := 0, Paused, built, order, mems;
    }

    /**
     * `getSnapshot`: the tick and its label, the status, every agent's state
     * in table order, and the newest twenty events, oldest first.
     */
    function GetSnapshot(): (s: SimulationSnapshot)
      reads this, eventLog, agents.Values
      requires forall k :: k in agentOrder ==> k in agents
      ensures s.tick == tick && s.simulationTime == TickLabel(tick) && s.status == status
      ensures |s.agents| == |agentOrder|
      ensures forall i :: 0 <= i < |agentOrder| ==> s.agents[i] == agents[agentOrder[i]].GetState()
      ensures |s.events| == JsText.Min(SnapshotEvents, |eventLog.events|)
      ensures s.events == eventLog.events[|eventLog.events| - |s.events|..]
    {
      SimulationSnapshot(tick, TickLabel(tick), status, States(agentOrder, agents), eventLog.GetRecent(SnapshotEvents))
    }

    /** `addSSEController`: a subscriber already in the set is not added twice. */
    method AddSseController(c: Controller)
      requires Valid()
      modifies this`sseControllers
      ensures Valid()
      ensures sseControllers == if c in old(sseControllers) then old(sseControllers) else old(sseControllers) + [c]
    {
      if c !in sseControllers {
        DistinctSnoc(sseControllers, c);
        sseControllers := sseControllers + [c];
      }
    }

    /** `removeSSEController`: the subscriber is gone and the others keep their order. */
    method RemoveSseController(c: Controller)
      requires Valid()
      modifies this`sseControllers
      ensures Valid()
      ensures sseControllers == Without(old(sseControllers), c)
    {
      WithoutDistinct(sseControllers, c);
      sseControllers := Without(sseControllers, c);
    }

    /**
     * `broadcast`: the message goes to every open subscriber, in order;
     * exactly the subscribers whose enqueue throws are removed.
     */
    method Broadcast(message: ServerMessage)
      requires Valid()
      modifies this`sseControllers, this`delivered
      ensures Valid()
      ensures sseControllers == Open(old(sseControllers))
      ensures delivered == old(delivered) + Deliveries(old(sseControllers), message)
    {
      var sent, dead := Deliver(sseControllers, message);
      delivered := delivered + sent;
      var kept := Drop(sseControllers, dead);
      sseControllers := kept;
    }

    /** `state.tick++`. */
    method Advance()
      requires Valid()
      modifies this`tick
      ensures Valid() && tick == old(tick) + 1
    {
      tick := tick + 1;
    }

    /** `state.status = s`. */
    method SetStatus(s: SimStatus)
      requires Valid()
      modifies this`status
      ensures Valid() && status == s
    {
      status := s;
    }

    /** `spatialState.setPosition` with the table's invariant kept. */
    method Place(agentId: string, tileX: int, tileY: int)
      requires Valid()
      modifies spatialState
      ensures Valid()
      ensures spatialState.positions == old(spatialState.positions).Put(agentId,
        SpatialStates.AgentPosition(agentId, tileX, tileY, SpatialStates.ZoneIdAt(spatialState.registry.GetAllZones(), tileX, tileY)))
    {
      spatialState.SetPosition(agentId, tileX, tileY);
    }

    /** `eventLog.addEvent` with the table's invariant kept: the log gains the event, nothing else changes. */
    method Record(tick: int, eventType: EventType, agentId: Option<string>, agentName: Option<string>,
                  content: string, target: Option<string>) returns (e: SimulationEvent)
      requires Valid()
      modifies eventLog, eventLog.ids
      ensures Valid()
      ensures eventLog.ids.value == old(eventLog.ids.value) + 1
      ensures e == SimulationEvent(Ids.MakeId(EventLogs.Prefix, eventLog.ids.value), tick, eventType, agentId, agentName, content, target)
      ensures eventLog.events == old(eventLog.events) + [e]
    {
      e := eventLog.Add(tick, eventType, agentId, agentName, content, target);
    }

    /**
     * One agent's `addObservation` with the table's invariant kept: that
     * agent's memory gains the entry, every other agent's is unchanged.
     */
    method Observe(k: string, tick: int, content: string, importance: int,
                   location: Option<string>, associatedAgent: Option<string>)
      requires Valid() && k in agents
      modifies agents[k].memory, memoryIds
      ensures Valid() && agents == old(agents) && Whereabouts(agents) == old(Whereabouts(agents))
      ensures memoryIds.value == old(memoryIds.value) + 1
      ensures agents[k].memory.entries == old(agents[k].memory.entries)
        + [Agents.Agent.ObservationEntry(memoryIds.value, tick, content, importance, location, associatedAgent)]
      ensures Contents(agents) == old(Contents(agents))[k := old(Contents(agents))[k]
        + [Agents.Agent.ObservationEntry(memoryIds.value, tick, content, importance, location, associatedAgent)]]
    {
      ghost var before := memoryIds.value;
      MindsOthers(agents, memoryIds, minds, k);
      File(agents, k, tick, content, importance, location, associatedAgent);
      MindsJoin(agents, memoryIds, minds, k, before);
    }
  }

  /** The world a fresh state starts in: the environment tree, the zone registry of the map, and an empty spatial table over it. */
  method World() returns (tree: EnvironmentTrees.EnvironmentTree, registry: ZoneRegistries.ZoneRegistry,
                          spatial: SpatialStates.SpatialState)
    ensures fresh(tree) && fresh(registry) && fresh(spatial)
    ensures spatial.Valid() && spatial.registry == registry && spatial.positions == Empty()
  {
    tree := new EnvironmentTrees.EnvironmentTree();
    registry := new ZoneRegistries.ZoneRegistry();
    spatial := new SpatialStates.SpatialState(registry);
  }

  /** Agent `k` observes: its memory gains the entry, and no other agent's memory changes. */
  method File(agents: map<string, Agents.Agent>, k: string, tick: int, content: string, importance: int,
              location: Option<string>, associatedAgent: Option<string>)
    requires k in agents && Separate(agents) && agents[k].Valid()
    modifies agents[k].memory, agents[k].memory.ids
    ensures agents[k].Valid() && agents[k].memory.ids.value == old(agents[k].memory.ids.value) + 1
    ensures Whereabouts(agents) == old(Whereabouts(agents))
    ensures Contents(agents) == old(Contents(agents))[k := old(Contents(agents))[k]
      + [Agents.Agent.ObservationEntry(agents[k].memory.ids.value, tick, content, importance, location, associatedAgent)]]
  {
    ghost var told := Contents(agents);
    agents[k].AddObservation(tick, content, importance, location, associatedAgent);
    ghost var e := Agents.Agent.ObservationEntry(agents[k].memory.ids.value, tick, content, importance, location, associatedAgent);
    forall j | j in agents
      ensures Contents(agents)[j] == told[k := told[k] + [e]][j]
    {
    }
  }

  /** `owner` tells whose each agent's memory stream is: the agent filed under that key. */
  predicate Owned(agents: map<string, Agents.Agent>, owner: map<MemoryStreams.MemoryStream, string>) {
    forall k :: k in agents ==> agents[k].memory in owner && owner[agents[k].memory] == k
  }

  /** Memory streams with an owner each are not shared. */
  lemma OwnedSeparate(agents: map<string, Agents.Agent>, owner: map<MemoryStreams.MemoryStream, string>)
    requires Owned(agents, owner)
    ensures Separate(agents)
  {
  }

  /**
   * The agent table built from the placeable configurations `placed`: each
   * agent filed under a configuration's id with a memory stream of its own,
   * well formed at counter value `counter`, and built from its configuration.
   */
  ghost predicate Settled(agents: map<string, Agents.Agent>, owner: map<MemoryStreams.MemoryStream, string>,
                          placed: seq<AgentConfig>, zones: map<string, ZoneDefinition>, ids: Ids.Counter, briefing: string,
                          counter: nat)
    reads agents.Values, owner.Keys
  {
    && Owned(agents, owner) && agents.Keys == Table(placed).Keys
    && MindsAt(agents, ids, owner.Keys, counter)
    && BuiltAll(agents, owner.Keys, Table(placed), zones, briefing)
  }

  /** A table built from configurations has the shape of an agent table, in first-seen order. */
  lemma SettledRoster(agents: map<string, Agents.Agent>, owner: map<MemoryStreams.MemoryStream, string>,
                      placed: seq<AgentConfig>, zones: map<string, ZoneDefinition>, ids: Ids.Counter, briefing: string,
                      counter: nat)
    requires Settled(agents, owner, placed, zones, ids, briefing, counter)
    ensures Roster(agents, KeyOrder(placed))
  {
    TableIds(placed);
    KeyOrderIsRoster(placed);
    OwnedSeparate(agents, owner);
  }

  /** One more configuration files its agent under its id, in first-seen order. */
  lemma TableSnoc(placed: seq<AgentConfig>, cfg: AgentConfig)
    ensures Table(placed + [cfg]) == Table(placed)[cfg.id := cfg]
    ensures KeyOrder(placed + [cfg]) == AddKey(KeyOrder(placed), cfg.id)
  {
    assert (placed + [cfg])[..|placed|] == placed;
  }

  /** Memories well formed at one counter value stay so at every later one, and a well-formed newcomer joins them. */
  lemma MindsAtPut(agents: map<string, Agents.Agent>, ids: Ids.Counter, mems: set<MemoryStreams.MemoryStream>,
                   before: nat, k: string, a: Agents.Agent)
    requires MindsAt(agents, ids, mems, before) && before <= ids.value
    requires a.memory.ids == ids && a.Valid()
    ensures MindsAt(agents[k := a], ids, mems + {a.memory}, ids.value)
  {
  }

  /** Filing a newly built agent, with a memory stream of its own, under its id keeps the table built from its configurations. */
  lemma SettledPut(agents: map<string, Agents.Agent>, owner: map<MemoryStreams.MemoryStream, string>,
                   placed: seq<AgentConfig>, zones: map<string, ZoneDefinition>, ids: Ids.Counter, briefing: string,
                   counter: nat, cfg: AgentConfig, agent: Agents.Agent)
    requires Settled(agents, owner, placed, zones, ids, briefing, counter) && counter <= ids.value
    requires agent.memory !in owner && agent.memory.ids == ids && agent.Valid()
    requires cfg.startingLocation in zones && Built(agent, cfg, zones[cfg.startingLocation].spawnTile, briefing)
    ensures Settled(agents[cfg.id := agent], owner[agent.memory := cfg.id], placed + [cfg], zones, ids, briefing, ids.value)
  {
    MindsAtPut(agents, ids, owner.Keys, counter, cfg.id, agent);
    BuiltAllPut(agents, owner.Keys, Table(placed), zones, briefing, cfg.id, agent, cfg);
    TableSnoc(placed, cfg);
    assert owner[agent.memory := cfg.id].Keys == owner.Keys + {agent.memory};
  }

  /** Positions of agents outside `keys` are as they were in `before`. */
  predicate Kept(before: map<string, SpatialStates.AgentPosition>, positions: map<string, SpatialStates.AgentPosition>, keys: set<string>) {
    forall k :: k in before && k !in keys ==> k in positions && positions[k] == before[k]
  }

  /** Placing agent `k` keeps the positions of the agents outside the table and `k`. */
  lemma KeptPut(before: map<string, SpatialStates.AgentPosition>, positions: map<string, SpatialStates.AgentPosition>,
                keys: set<string>, k: string, p: SpatialStates.AgentPosition)
    requires Kept(before, positions, keys)
    ensures Kept(before, positions[k := p], keys + {k})
  {
  }

  /**
   * The state of `initialize`'s loop after the first `i` configurations:
   * the table built from the placeable ones among them, in first-seen
   * order, each agent on its spawn tile in `positions`, one memory id drawn
   * per agent since `start`, and other positions as in `before`.
   */
  ghost predicate Progress(configs: seq<AgentConfig>, i: nat, agents: map<string, Agents.Agent>, order: seq<string>,
                           owner: map<MemoryStreams.MemoryStream, string>, positions: map<string, SpatialStates.AgentPosition>,
                           zones: map<string, ZoneDefinition>, all: seq<ZoneDefinition>,
                           ids: Ids.Counter, briefing: string, start: nat, before: map<string, SpatialStates.AgentPosition>)
    reads agents.Values, owner.Keys, ids
  {
    && i <= |configs|
    && var placed := Placeable(configs[..i], zones);
       && Settled(agents, owner, placed, zones, ids, briefing, ids.value)
       && order == KeyOrder(placed)
       && Positioned(agents.Keys, positions, Table(placed), zones, all)
       && ids.value == start + |placed|
       && Kept(before, positions, agents.Keys)
  }

  /** Filing a newly built agent placed on its spawn tile moves the loop on by one configuration. */
  lemma ProgressPut(configs: seq<AgentConfig>, i: nat, agents: map<string, Agents.Agent>, order: seq<string>,
                    owner: map<MemoryStreams.MemoryStream, string>, positions: map<string, SpatialStates.AgentPosition>,
                    zones: map<string, ZoneDefinition>, all: seq<ZoneDefinition>,
                    ids: Ids.Counter, briefing: string, start: nat, before: map<string, SpatialStates.AgentPosition>,
                    counter: nat, agent: Agents.Agent)
    requires i < |configs| && configs[i].startingLocation in zones
    requires Settled(agents, owner, Placeable(configs[..i], zones), zones, ids, briefing, counter) && counter <= ids.value
    requires order == KeyOrder(Placeable(configs[..i], zones))
    requires Positioned(agents.Keys, positions, Table(Placeable(configs[..i], zones)), zones, all)
    requires Kept(before, positions, agents.Keys)
    requires ids.value == start + |Placeable(configs[..i], zones)| + 1
    requires agent.memory !in owner && agent.memory.ids == ids && agent.Valid()
    requires Built(agent, configs[i], zones[configs[i].startingLocation].spawnTile, briefing)
    ensures Progress(configs, i + 1, agents[configs[i].id := agent], AddKey(order, configs[i].id),
                     owner[agent.memory := configs[i].id],
                     positions[configs[i].id := Position(configs[i].id, zones[configs[i].startingLocation].spawnTile, all)],
                     zones, all, ids, briefing, start, before)
  {
    var cfg, placed := configs[i], Placeable(configs[..i], zones);
    PlaceableNext(configs, i, zones);
    SettledPut(agents, owner, placed, zones, ids, briefing, counter, cfg, agent);
    PositionedPut(agents.Keys, positions, Table(placed), zones, all, cfg);
    KeptPut(before, positions, agents.Keys, cfg.id, Position(cfg.id, zones[cfg.startingLocation].spawnTile, all));
    TableSnoc(placed, cfg);
  }

  /** A configuration whose starting zone is unknown is skipped. */
  lemma ProgressSkip(configs: seq<AgentConfig>, i: nat, agents: map<string, Agents.Agent>, order: seq<string>,
                     owner: map<MemoryStreams.MemoryStream, string>, positions: map<string, SpatialStates.AgentPosition>,
                     zones: map<string, ZoneDefinition>, all: seq<ZoneDefinition>,
                     ids: Ids.Counter, briefing: string, start: nat, before: map<string, SpatialStates.AgentPosition>)
    requires i < |configs| && Progress(configs, i, agents, order, owner, positions, zones, all, ids, briefing, start, before)
    requires configs[i].startingLocation !in zones
    ensures Progress(configs, i + 1, agents, order, owner, positions, zones, all, ids, briefing, start, before)
  {
    PlaceableNext(configs, i, zones);
    assert Placeable(configs[..i], zones) + [] == Placeable(configs[..i], zones);
  }

  /**
   * One pass of `initialize`'s loop for a configuration whose starting zone
   * has a spawn tile: a new agent on that tile, told the briefing, filed
   * under its id and placed in the spatial table.
   */
  method Hire(configs: seq<AgentConfig>, i: nat, spawn: Tile, agents: map<string, Agents.Agent>, order: seq<string>,
              ghost owner: map<MemoryStreams.MemoryStream, string>, ghost zones: map<string, ZoneDefinition>,
              ghost all: seq<ZoneDefinition>, spatial: SpatialStates.SpatialState,
              memoryIds: Ids.Counter, briefing: string, ghost start: nat, ghost before: map<string, SpatialStates.AgentPosition>)
      returns (agents': map<string, Agents.Agent>, order': seq<string>, ghost owner': map<MemoryStreams.MemoryStream, string>)
    requires spatial.Valid() && all == spatial.registry.GetAllZones()
    requires i < |configs| && Progress(configs, i, agents, order, owner, spatial.positions.vals, zones, all, memoryIds, briefing, start, before)
    requires configs[i].startingLocation in zones && spawn == zones[configs[i].startingLocation].spawnTile
    modifies spatial, memoryIds
    ensures spatial.Valid()
    ensures Progress(configs, i + 1, agents', order', owner', spatial.positions.vals, zones, all, memoryIds, briefing, start, before)
  {
    ghost var positions, counter := spatial.positions.vals, memoryIds.value;
    var agent := Recruit(configs[i], spawn, briefing, spatial, memoryIds, agents, owner, Placeable(configs[..i], zones), zones, counter);
    ProgressPut(configs, i, agents, order, owner, positions, zones, all, memoryIds, briefing, start, before, counter, agent);
    agents' := agents[configs[i].id := agent];
    order' := AddKey(order, configs[i].id);
    owner' := owner[agent.memory := configs[i].id];
  }

  /** `Spawn` beside a table built so far: the table's agents and memory streams are untouched, the newcomer's stream is new. */
  method Recruit(cfg: AgentConfig, spawn: Tile, briefing: string, spatial: SpatialStates.SpatialState, memoryIds: Ids.Counter,
                 ghost agents: map<string, Agents.Agent>, ghost owner: map<MemoryStreams.MemoryStream, string>,
                 ghost placed: seq<AgentConfig>, ghost zones: map<string, ZoneDefinition>, ghost counter: nat)
      returns (agent: Agents.Agent)
    requires spatial.Valid() && Settled(agents, owner, placed, zones, memoryIds, briefing, counter)
    modifies spatial, memoryIds
    ensures agent.memory !in owner && agent.memory.ids == memoryIds && agent.Valid()
    ensures memoryIds.value == old(memoryIds.value) + 1
    ensures Built(agent, cfg, spawn, briefing)
    ensures spatial.Valid()
    ensures spatial.positions == old(spatial.positions).Put(cfg.id, Position(cfg.id, spawn, spatial.registry.GetAllZones()))
    ensures Settled(agents, owner, placed, zones, memoryIds, briefing, counter)
  {
    agent := Spawn(cfg, spawn, briefing, spatial, memoryIds);
    assert unchanged(owner.Keys) && unchanged(agents.Values);
  }

  /**
   * One pass of `initialize`'s loop: configuration `i` gets an agent when
   * its starting zone has a spawn tile and is skipped otherwise.
   */
  method Enlist(configs: seq<AgentConfig>, i: nat, agents: map<string, Agents.Agent>, order: seq<string>,
                ghost owner: map<MemoryStreams.MemoryStream, string>, ghost zones: map<string, ZoneDefinition>,
                ghost all: seq<ZoneDefinition>, spatial: SpatialStates.SpatialState,
                memoryIds: Ids.Counter, briefing: string, ghost start: nat, ghost before: map<string, SpatialStates.AgentPosition>)
      returns (agents': map<string, Agents.Agent>, order': seq<string>, ghost owner': map<MemoryStreams.MemoryStream, string>)
    requires spatial.Valid() && zones == spatial.registry.zones.vals && all == spatial.registry.GetAllZones()
    requires i < |configs| && Progress(configs, i, agents, order, owner, spatial.positions.vals, zones, all, memoryIds, briefing, start, before)
    modifies spatial, memoryIds
    ensures spatial.Valid()
    ensures Progress(configs, i + 1, agents', order', owner', spatial.positions.vals, zones, all, memoryIds, briefing, start, before)
  {
    var spawnTile := spatial.registry.GetSpawnTile(configs[i].startingLocation);
    if spawnTile.Some? {
      agents', order', owner' := Hire(configs, i, spawnTile.value, agents, order, owner, zones, all, spatial, memoryIds, briefing, start, before);
    } else {
      agents', order', owner' := agents, order, owner;
      ProgressSkip(configs, i, agents, order, owner, spatial.positions.vals, zones, all, memoryIds, briefing, start, before);
    }
  }

  /** After the last configuration: the table has the shape of an agent table, with every memory well formed now. */
  lemma ProgressDone(configs: seq<AgentConfig>, agents: map<string, Agents.Agent>, order: seq<string>,
                     owner: map<MemoryStreams.MemoryStream, string>, positions: map<string, SpatialStates.AgentPosition>,
                     zones: map<string, ZoneDefinition>, all: seq<ZoneDefinition>,
                     ids: Ids.Counter, briefing: string, start: nat, before: map<string, SpatialStates.AgentPosition>)
    requires Progress(configs, |configs|, agents, order, owner, positions, zones, all, ids, briefing, start, before)
    ensures Roster(agents, order) && Minds(agents, ids, owner.Keys)
    ensures agents.Keys == Table(Placeable(configs, zones)).Keys && order == KeyOrder(Placeable(configs, zones))
    ensures BuiltAll(agents, owner.Keys, Table(Placeable(configs, zones)), zones, briefing)
    ensures Positioned(agents.Keys, positions, Table(Placeable(configs, zones)), zones, all)
    ensures ids.value == start + |Placeable(configs, zones)|
    ensures Kept(before, positions, agents.Keys)
  {
    assert configs[..|configs|] == configs;
    var placed := Placeable(configs, zones);
    SettledRoster(agents, owner, placed, zones, ids, briefing, ids.value);
    MindsLater(agents, ids, owner.Keys, ids.value);
  }

  /**
   * The loop of `initialize`, building a new agent table: for each
   * configuration whose starting zone has a spawn tile, a new agent on that
   * tile, filed under its id, placed in the spatial table and told the
   * briefing; the other configurations are skipped.
   */
  method Populate(configs: seq<AgentConfig>, spatial: SpatialStates.SpatialState, memoryIds: Ids.Counter, briefing: string)
      returns (agents: map<string, Agents.Agent>, order: seq<string>, ghost owner: map<MemoryStreams.MemoryStream, string>)
    requires spatial.Valid()
    modifies spatial, memoryIds
    ensures spatial.Valid()
    ensures Roster(agents, order) && Minds(agents, memoryIds, owner.Keys)
    ensures var placed := Placeable(configs, spatial.registry.zones.vals);
      && agents.Keys == Table(placed).Keys && order == KeyOrder(placed)
      && BuiltAll(agents, owner.Keys, Table(placed), spatial.registry.zones.vals, briefing)
      && Positioned(agents.Keys, spatial.positions.vals, Table(placed), spatial.registry.zones.vals, spatial.registry.GetAllZones())
      && memoryIds.value == old(memoryIds.value) + |placed|
    ensures Kept(old(spatial.positions.vals), spatial.positions.vals, agents.Keys)
  {
    agents, order, owner := map[], [], map[];
    ghost var zones, all := spatial.registry.zones.vals, spatial.registry.GetAllZones();
    var i := 0;
    while i < |configs|
      invariant i <= |configs| && spatial.Valid()
      invariant Progress(configs, i, agents, order, owner, spatial.positions.vals, zones, all, memoryIds, briefing,
                         old(memoryIds.value), old(spatial.positions.vals))
    {
      agents, order, owner := Enlist(configs, i, agents, order, owner, zones, all, spatial, memoryIds, briefing,
                                     old(memoryIds.value), old(spatial.positions.vals));
      i := i + 1;
    }
    ProgressDone(configs, agents, order, owner, spatial.positions.vals, zones, all, memoryIds, briefing,
                 old(memoryIds.value), old(spatial.positions.vals));
  }

  /** The closed subscribers of a list without repeats have no repeats. */
  lemma {:induction false} ClosedDistinct(cs: seq<Controller>)
    requires Distinct(cs)
    ensures Distinct(Closed(cs))
  {
    if cs != [] {
      var init := cs[..|cs| - 1];
      DistinctPrefix(cs, |cs| - 1);
      ClosedDistinct(init);
      var last := cs[|cs| - 1];
      if !last.open {
        forall i | 0 <= i < |init| ensures init[i] != last {
          DistinctAt(cs, i, |cs| - 1);
        }
        assert last !in Closed(init);
        DistinctSnoc(Closed(init), last);
      } else {
        assert Closed(cs) == Closed(init) + [];
        assert Closed(init) + [] == Closed(init);
      }
    }
  }

  /**
   * The first loop of `broadcast`: the message is enqueued on each
   * subscriber in turn; those whose enqueue throws are collected.
   */
  method Deliver(all: seq<Controller>, message: ServerMessage) returns (sent: seq<Delivery>, dead: seq<Controller>)
    ensures sent == Deliveries(all, message)
    ensures dead == Closed(all)
  {
    sent, dead := [], [];
    var i := 0;
    while i < |all|
      invariant 0 <= i <= |all|
      invariant dead == Closed(all[..i])
      invariant sent == Deliveries(all[..i], message)
    {
      assert all[..i + 1] == all[..i] + [all[i]];
      DeliveriesSnoc(all[..i], all[i], message);
      ClosedSnoc(all[..i], all[i]);
      if all[i].open {
        sent := sent + [Delivery(all[i].id, message)];
      } else {
        dead := dead + [all[i]];
      }
      i := i + 1;
    }
    assert all[..i] == all;
  }

  /** The second loop of `broadcast`: each collected subscriber is deleted from the set. */
  method Drop(all: seq<Controller>, dead: seq<Controller>) returns (kept: seq<Controller>)
    requires Distinct(all) && dead == Closed(all)
    ensures kept == Open(all)
    ensures Distinct(kept)
  {
    KeepIfAll(all, Pending(dead, 0));
    ClosedDistinct(all);
    kept := all;
    var j := 0;
    while j < |dead|
      invariant 0 <= j <= |dead|
      invariant kept == KeepIf(all, Pending(dead, j))
      invariant Distinct(kept)
    {
      DropNext(all, dead, j, kept);
      kept := Without(kept, dead[j]);
      j := j + 1;
    }
    assert Pending(dead, j) == {};
  }

  /** Deleting the next closed subscriber keeps one fewer of them, and no subscriber twice. */
  lemma DropNext(all: seq<Controller>, dead: seq<Controller>, j: nat, kept: seq<Controller>)
    requires dead == Closed(all) && Distinct(dead) && j < |dead|
    requires kept == KeepIf(all, Pending(dead, j)) && Distinct(kept)
    ensures Without(kept, dead[j]) == KeepIf(all, Pending(dead, j + 1))
    ensures Distinct(Without(kept, dead[j]))
  {
    DistinctSuffix(dead, j + 1);
    assert dead[j] !in dead[j + 1..];
    assert dead[j] in dead;
    assert dead[j..] == [dead[j]] + dead[j + 1..];
    assert Pending(dead, j) == Pending(dead, j + 1) + {dead[j]};
    KeepIfWithout(all, Pending(dead, j + 1), dead[j]);
    WithoutDistinct(kept, dead[j]);
  }

  /** The subscribers of `dead` from position `j` on: those still to be deleted. */
  function Pending(dead: seq<Controller>, j: nat): set<Controller>
    requires j <= |dead|
  {
    set c | c in dead[j..]
  }
}
