/**
 * The tick loop (src/simulation/Orchestrator.ts): each tick bumps the clock
 * and announces it, lets every agent act once in order of how long it has
 * waited, carries out each action on the shared state, and triggers
 * reflection when an agent's unreflected observations have piled up. Without
 * a language model the agents replay a fixed script of mock actions.
 */
module Orchestrators {
  import opened Wrappers
  import opened Types
  import opened OrderedMap
  import Ids
  import JsText
  import StableRank
  import Agents
  import MemoryStreams
  import SpatialStates
  import EventLogs
  import Conversations
  import LanguageModels
  import CognitiveLoops
  import ReflectionEngines
  import SimulationStates
  import Perceptions
  import ZoneRegistries
  import LoopControl

  // ---------------------------------------------------------------------
  // The mock script
  // ---------------------------------------------------------------------

  /** A scripted `think` action, aimed at the agent itself. */
  function Musing(id: string, content: string, summary: string, emotion: Emotion, confidence: real, reasoning: string): AgentAction {
    AgentAction(id, 0, Think, None, Some("self"), Some(content), Some(summary), Some(emotion), None, Some(confidence), Some(reasoning))
  }

  /** A scripted `move_to` action. */
  function Trip(id: string, destination: string, reasoning: string): AgentAction {
    AgentAction(id, 0, MoveTo, Some(destination), None, None, None, None, None, None, Some(reasoning))
  }

  /** A scripted `speak` action. */
  function Remark(id: string, target: string, content: string, summary: string, emotion: Emotion,
                  confidence: real, agreement: real): AgentAction {
    AgentAction(id, 0, Speak, None, Some(target), Some(content), Some(summary), Some(emotion), Some(agreement), Some(confidence), None)
  }

  const Meeting := "boardroom"

  /** `MOCK_ACTIONS`: per scripted agent, think, walk to the boardroom, speak. */
  function MockActions(): map<string, seq<AgentAction>> {
    map[
      "visionary" := [
        Musing("visionary", "Time to rally the team. The consumer market is massive.",
               "Thinking about the pivot opportunity", Excited, 0.9, "Reading the briefing"),
        Trip("visionary", Meeting, "Need to gather the team"),
        Remark("visionary", "all", "Team, I've been thinking about this pivot. The consumer TAM is 50 million users. Even at 1% penetration, that's 500K users. This could be transformative.",
               "Consumer TAM is 50M — this could be huge", Excited, 0.85, 0.8)],
      "skeptic" := [
        Musing("skeptic", "Consumer CAC is astronomical. Need to check the numbers.",
               "Checking the financial implications", Skeptical, 0.8, "Numbers don't add up"),
        Trip("skeptic", Meeting, "Need to challenge assumptions"),
        Remark("skeptic", "visionary", "Hold on. Consumer acquisition costs are 5-10x higher than enterprise. Our burn rate would triple. With $5M runway, we'd have maybe 8 months.",
               "CAC is 5-10x higher. 8 months of runway.", Skeptical, 0.9, -0.7)],
      "builder" := [
        Musing("builder", "Product architecture needs significant rework for consumer UX.",
               "Assessing technical feasibility", NeutralEmotion, 0.7, "Evaluating engineering capacity"),
        Trip("builder", Meeting, "Sharing technical perspective"),
        Remark("builder", "all", "From a technical standpoint, consumer UX needs a full rebuild. That's 6 months minimum with our team of 12.",
               "6 months of rework needed for consumer UX", Uncertain, 0.75, -0.3)],
      "whisperer" := [
        Musing("whisperer", "Customer interviews show organic individual adoption. Data supports hybrid approach.",
               "Reviewing customer interview data", Confident, 0.8, "200+ interviews tell a story"),
        Trip("whisperer", Meeting, "Sharing customer data"),
        Remark("whisperer", "all", "40% of our B2B users came from individual word-of-mouth. There's already organic consumer pull. We could add a consumer tier without a full pivot.",
               "40% of users came from organic individual adoption", Confident, 0.85, 0.4)],
      "devil" := [
        Musing("devil", "Everyone will have strong opinions. My job is to find blind spots.",
               "Preparing to challenge consensus", Amused, 0.9, "Preventing groupthink"),
        Trip("devil", Meeting, "Where the action is"),
        Remark("devil", "all", "Has anyone asked why our B2B growth is 15% MoM? That's exceptional. Why abandon a winning strategy? What if the consumer opportunity is a mirage?",
               "Why abandon 15% MoM growth? Is B2C a mirage?", Skeptical, 0.85, -0.5)]
    ]
  }

  /** Every scripted agent at the head of its script. */
  function Start(script: map<string, seq<AgentAction>>): (r: map<string, nat>)
    ensures r.Keys == script.Keys && forall id :: Cursor(r, id) == 0
  {
    map id | id in script :: 0
  }

  /** `mockActionIndex.get(id) ?? 0`. */
  function Cursor(cursor: map<string, nat>, id: string): nat {
    if id in cursor then cursor[id] else 0
  }

  /** What an agent whose script has run out does: wait, "Listening". */
  function Listen(id: string, tick: int): AgentAction {
    BareAction(id, tick, Wait, Some("Listening"))
  }

  /**
   * `getMockAction`: the agent's next scripted action stamped with the
   * tick, and the cursor moved past it; once the script is spent, waiting;
   * no action at all for an agent without a script.
   */
  function MockStep(script: map<string, seq<AgentAction>>, cursor: map<string, nat>, id: string, tick: int)
    : (r: (Option<AgentAction>, map<string, nat>))
  {
    if id !in script then (None, cursor)
    else
      var index := Cursor(cursor, id);
      if index >= |script[id]| then (Some(Listen(id, tick)), cursor)
      else (Some(script[id][index].(tick := tick)), cursor[id := index + 1])
  }

  /** The cursor after `n` mock steps of one agent. */
  function Stepped(script: map<string, seq<AgentAction>>, cursor: map<string, nat>, id: string, n: nat): map<string, nat> {
    if n == 0 then cursor else MockStep(script, Stepped(script, cursor, id, n - 1), id, 0).1
  }

  /** The cursor a step moves, whatever the tick. */
  lemma MockStepCursor(script: map<string, seq<AgentAction>>, cursor: map<string, nat>, id: string, tick: int, other: string)
    ensures MockStep(script, cursor, id, tick).1 == MockStep(script, cursor, id, 0).1
    ensures other != id ==> Cursor(MockStep(script, cursor, id, tick).1, other) == Cursor(cursor, other)
    ensures Cursor(MockStep(script, cursor, id, tick).1, id)
      == if id in script && Cursor(cursor, id) < |script[id]| then Cursor(cursor, id) + 1 else Cursor(cursor, id)
  {
  }

  /**
   * Replaying the script: starting from a fresh cursor, the n-th mock step
   * of a scripted agent yields the n-th scripted action (stamped with the
   * tick) and, once the script is spent, waiting; an unscripted agent gets
   * nothing.
   */
  lemma {:induction false} MockReplay(script: map<string, seq<AgentAction>>, cursor: map<string, nat>, id: string, n: nat, tick: int)
    requires Cursor(cursor, id) == 0
    ensures Cursor(Stepped(script, cursor, id, n), id) == if id in script then JsText.Min(n, |script[id]|) else 0
    ensures var step := MockStep(script, Stepped(script, cursor, id, n), id, tick).0;
      && (id !in script ==> step.None?)
      && (id in script && n < |script[id]| ==> step == Some(script[id][n].(tick := tick)))
      && (id in script && n >= |script[id]| ==> step == Some(Listen(id, tick)))
  {
    if n > 0 {
      MockReplay(script, cursor, id, n - 1, 0);
      MockStepCursor(script, Stepped(script, cursor, id, n - 1), id, 0, id);
    }
  }

  // ---------------------------------------------------------------------
  // Turn order
  // ---------------------------------------------------------------------

  /** The agents' waiting counters, in table order, as sort keys. */
  function Waits(order: seq<string>, turns: map<string, int>): (r: seq<real>)
    requires forall k :: k in order ==> k in turns
    ensures |r| == |order| && forall i :: 0 <= i < |order| ==> r[i] == turns[order[i]] as real
  {
    seq(|order|, i requires 0 <= i < |order| => turns[order[i]] as real)
  }

  /**
   * `agents.sort((a, b) => b.turnsSinceLastAction - a.turnsSinceLastAction)`
   * over the table in insertion order: JavaScript's sort is stable, so
   * agents that waited equally long keep their table order.
   */
  function TurnOrder(order: seq<string>, turns: map<string, int>): (r: seq<string>)
    requires forall k :: k in order ==> k in turns
  {
    var ranks := StableRank.Rank(Waits(order, turns), |order|);
    seq(|ranks|, p requires 0 <= p < |ranks| => order[ranks[p]])
  }

  /** `a` comes before `b` in `order`. */
  predicate Earlier(order: seq<string>, a: string, b: string) {
    exists i, j :: 0 <= i < j < |order| && order[i] == a && order[j] == b
  }

  /**
   * The turn order lists every agent once, longest-waiting first, and
   * agents that waited equally long in table order.
   */
  lemma TurnOrderSorted(order: seq<string>, turns: map<string, int>)
    requires Distinct(order) && forall k :: k in order ==> k in turns
    ensures var r := TurnOrder(order, turns);
      && |r| == |order| && Distinct(r)
      && (forall a :: a in r <==> a in order)
      && (forall p, q :: 0 <= p < q < |r| ==> turns[r[p]] >= turns[r[q]])
      && (forall p, q :: 0 <= p < q < |r| && turns[r[p]] == turns[r[q]] ==> Earlier(order, r[p], r[q]))
  {
    var key := Waits(order, turns);
    var ranks := StableRank.Rank(key, |order|);
    var r := TurnOrder(order, turns);
    forall p, q | 0 <= p < q < |r|
      ensures Apart(r, p, q) && turns[r[p]] >= turns[r[q]]
      ensures turns[r[p]] == turns[r[q]] ==> Earlier(order, r[p], r[q])
    {
      StableRank.SortedKeysNonIncreasing(key, ranks, p, q);
      if ranks[p] < ranks[q] {
        DistinctAt(order, ranks[p], ranks[q]);
      } else {
        DistinctAt(order, ranks[q], ranks[p]);
      }
    }
    forall a | a in order ensures a in r {
      var i :| 0 <= i < |order| && order[i] == a;
      assert i in ranks;
      var p :| 0 <= p < |ranks| && ranks[p] == i;
      assert r[p] == a;
    }
  }

  // ---------------------------------------------------------------------
  // What actions say
  // ---------------------------------------------------------------------

  /** A template literal's rendering of an optional text: `undefined` when absent. */
  function Shown(o: Option<string>): string {
    if o.Some? then o.value else "undefined"
  }

  /** JavaScript truthiness of an optional text. */
  predicate Truthy(o: Option<string>) {
    o.Some? && o.value != ""
  }

  const MoveSpeed := 200
  const ArrivalImportance := 3
  const SpeechImportance := 6
  const ThoughtImportance := 4
  const ReflectionConfidence := 0.8
  const ReflectionReasoning := "Reflection on recent observations"

  function Moved(name: string, destination: string): string {
    name + " moved to " + destination
  }

  /** What agents already in the zone remember of an arrival. */
  function Arrival(name: string, role: string, destination: string): string {
    name + " (" + role + ") arrived at " + destination
  }

  /** What agents already in the zone perceive of an arrival. */
  function ArrivalPerception(name: string, role: string, destination: string): string {
    name + " (" + role + ") just arrived at " + destination + "."
  }

  /** What listeners remember and perceive of a speech. */
  function Said(name: string, content: Option<string>): string {
    name + " said: \"" + Shown(content) + "\""
  }

  /** The line a speech adds to the zone's conversation history. */
  function Line(name: string, content: Option<string>): string {
    name + ": " + Shown(content)
  }

  /** What a thinker remembers of its thought. */
  function Thought(content: Option<string>): string {
    "I thought: " + Shown(content)
  }

  /** The `think` action announced for one reflection. */
  function ReflectionAction(id: string, tick: int, reflection: string, emotion: Emotion): AgentAction {
    AgentAction(id, tick, Think, None, None, Some(reflection), Some(reflection), Some(emotion), None,
                Some(ReflectionConfidence), Some(ReflectionReasoning))
  }

  /** One `agent_action_complete` message per reflection, in order. */
  function ReflectionMessages(id: string, tick: int, rs: seq<string>, emotion: Emotion): (r: seq<ServerMessage>)
    ensures |r| == |rs| && forall i :: 0 <= i < |rs| ==> r[i] == AgentActionComplete(ReflectionAction(id, tick, rs[i], emotion))
  {
    seq(|rs|, i requires 0 <= i < |rs| => AgentActionComplete(ReflectionAction(id, tick, rs[i], emotion)))
  }

  /** `content || ""`. */
  function OrEmpty(o: Option<string>): string {
    if o.Some? then o.value else ""
  }

  /** What an arrival leaves in the memory of an agent already there. */
  function ArrivalNote(tick: int, name: string, role: string, destination: string, k: string): Perceptions.Note {
    var content := Arrival(name, role, destination);
    Perceptions.Note(tick, content, ArrivalImportance, Agents.ContentKeywords(content), Some(Some(destination)), Some(k))
  }

  /** What a speech leaves in the memory of a listener. */
  function SpeechNote(tick: int, name: string, content: Option<string>, zone: Option<string>, k: string): Perceptions.Note {
    var said := Said(name, content);
    Perceptions.Note(tick, said, SpeechImportance, Agents.ContentKeywords(said), Some(zone), Some(k))
  }

  /** The conversation tracker after an agent leaves `zone`: only a truthy zone has a conversation to leave. */
  ghost function Leaving(s: Conversations.Tracker, zone: Option<string>, k: string): (r: Conversations.Tracker)
    requires Conversations.Valid(s)
    ensures Conversations.Valid(r)
  {
    if Truthy(zone) then Conversations.WithoutParticipant(s, zone.value, k) else s
  }

  /**
   * Where a `move_to` takes the agent: its destination, when truthy and the
   * id of a known zone, with that zone's spawn tile.
   */
  function MoveTarget(destination: Option<string>, registry: ZoneRegistries.ZoneRegistry): (r: Option<(string, Tile)>)
    ensures r.Some? <==> Truthy(destination) && destination.value in registry.zones.vals
    ensures r.Some? ==> r.value == (destination.value, registry.zones.vals[destination.value].spawnTile)
  {
    if !Truthy(destination) then None
    else match registry.GetSpawnTile(destination.value)
      case None => None
      case Some(tile) => Some((destination.value, tile))
  }

  /**
   * What `executeAction` broadcasts for agent `k`'s action: the move of a
   * `move_to` that goes ahead, the action itself for `speak` and `think`,
   * nothing otherwise.
   */
  function ActionMessages(k: string, action: AgentAction, registry: ZoneRegistries.ZoneRegistry): (r: seq<ServerMessage>)
    ensures |r| <= 1
    ensures r != [] <==> action.actionType in {Speak, Think} || (action.actionType == MoveTo && MoveTarget(action.destination, registry).Some?)
    ensures action.actionType in {Speak, Think} ==> r == [AgentActionComplete(action)]
  {
    match action.actionType
    case MoveTo =>
      (match MoveTarget(action.destination, registry)
       case None => []
       case Some((_, tile)) => [AgentMove(k, [tile], MoveSpeed)])
    case Speak => [AgentActionComplete(action)]
    case Think => [AgentActionComplete(action)]
    case _ => []
  }

  /**
   * The event `executeAction` logs for an action of the agent called
   * `name`: its kind, content and target. Exactly the actions that
   * broadcast something log something.
   */
  function ActionEvent(name: string, action: AgentAction, registry: ZoneRegistries.ZoneRegistry): (r: Option<(EventType, string, Option<string>)>)
    ensures r.Some? <==> ActionMessages(name, action, registry) != []
    ensures r.Some? && action.actionType != MoveTo ==> r.value.1 == ActionText(action)
  {
    match action.actionType
    case MoveTo =>
      (match MoveTarget(action.destination, registry)
       case None => None
       case Some((destination, _)) => Some((MovementEvent, Moved(name, destination), None)))
    case Speak => Some((SpeechEvent, ActionText(action), action.target))
    case Think => Some((ThoughtEvent, ActionText(action), None))
    case _ => None
  }

  /** The log entries an action leaves: its event, if any, numbered `n`, for agent `k` at `tick`. */
  function Logged(e: Option<(EventType, string, Option<string>)>, n: nat, tick: int, k: string, name: string): seq<SimulationEvent> {
    if e.None? then [] else [SimulationEvent(Ids.MakeId(EventLogs.Prefix, n), tick, e.value.0, Some(k), Some(name), e.value.1, e.value.2)]
  }

  /**
   * The agent's status once `executeAction` is done: idle after every
   * action that does something, and as it was after `react` or a
   * `move_to` that goes nowhere.
   */
  function StatusAfter(action: AgentAction, registry: ZoneRegistries.ZoneRegistry, status: AgentStatus): AgentStatus {
    match action.actionType
    case MoveTo => if MoveTarget(action.destination, registry).Some? then Idle else status
    case React => status
    case _ => Idle
  }

  /**
   * What broadcasting the messages `ms` one after another hands out, `cs`
   * being the subscribers at the start: each message goes to every open
   * subscriber in turn (the closed ones are dropped by the first broadcast).
   */
  function Fanout(cs: seq<SimulationStates.Controller>, ms: seq<ServerMessage>): seq<SimulationStates.Delivery> {
    if ms == [] then [] else SimulationStates.Deliveries(cs, ms[0]) + Fanout(cs, ms[1..])
  }

  /** Every message reaches every open subscriber once. */
  lemma {:induction false} FanoutSize(cs: seq<SimulationStates.Controller>, ms: seq<ServerMessage>)
    ensures |Fanout(cs, ms)| == |ms| * |SimulationStates.Open(cs)|
  {
    if ms != [] {
      FanoutSize(cs, ms[1..]);
      calc {
        |Fanout(cs, ms)|;
        |SimulationStates.Deliveries(cs, ms[0])| + |Fanout(cs, ms[1..])|;
        |SimulationStates.Open(cs)| + (|ms| - 1) * |SimulationStates.Open(cs)|;
        |ms| * |SimulationStates.Open(cs)|;
      }
    }
  }

  /** One more message broadcast: its deliveries come after the others'. */
  lemma {:induction false} FanoutSnoc(cs: seq<SimulationStates.Controller>, ms: seq<ServerMessage>, m: ServerMessage)
    ensures Fanout(cs, ms + [m]) == Fanout(cs, ms) + SimulationStates.Deliveries(cs, m)
  {
    if ms == [] {
      assert ([] + [m])[1..] == [];
    } else {
      assert (ms + [m])[1..] == ms[1..] + [m];
      FanoutSnoc(cs, ms[1..], m);
    }
  }

  /**
   * The broadcast of `ms[i]` to the subscribers left by the earlier ones
   * (`cur`, with the same open ones as `cs`) hands out the next deliveries
   * of `Fanout`.
   */
  lemma FanoutNext(cs: seq<SimulationStates.Controller>, cur: seq<SimulationStates.Controller>, ms: seq<ServerMessage>, i: nat)
    requires i < |ms| && SimulationStates.Open(cur) == SimulationStates.Open(cs)
    ensures Fanout(cs, ms[..i + 1]) == Fanout(cs, ms[..i]) + SimulationStates.Deliveries(cur, ms[i])
  {
    assert SimulationStates.Deliveries(cur, ms[i]) == SimulationStates.Deliveries(cs, ms[i]);
    assert ms[..i + 1] == ms[..i] + [ms[i]];
    FanoutSnoc(cs, ms[..i], ms[i]);
  }

  /** The agents' waiting counters. */
  function Turns(agents: map<string, Agents.Agent>): (r: map<string, int>)
    reads agents.Values
    ensures r.Keys == agents.Keys && forall k :: k in agents ==> r[k] == agents[k].turnsSinceLastAction
  {
    map k | k in agents :: agents[k].turnsSinceLastAction
  }

  /** The visits' messages one after another, in turn order. */
  function Concat(parts: seq<seq<ServerMessage>>): seq<ServerMessage>
  {
    if parts == [] then [] else Concat(parts[..|parts| - 1]) + parts[|parts| - 1]
  }

  /** Each agent's standing in the tick's loop: its waiting counter and its last action. */
  function Standings(agents: map<string, Agents.Agent>): (r: map<string, (int, Option<AgentAction>)>)
    reads agents.Values
    ensures r.Keys == agents.Keys
  {
    map k | k in agents :: (agents[k].turnsSinceLastAction, agents[k].lastAction)
  }

  /**
   * How a visit in the tick's loop leaves the agent filed under `k`, which
   * had waited `waited` turns, given its standing afterwards: when it got
   * an action, that action is its last one, stamped with the present tick,
   * the action's message opens the visit's messages, and the counter is
   * back to 0; with none, the visit sends nothing and the counter keeps
   * the raised value.
   */
  predicate Visited(standing: (int, Option<AgentAction>), k: string, acted: bool, part: seq<ServerMessage>, waited: int,
                    tick: int, registry: ZoneRegistries.ZoneRegistry)
  {
    if acted then
      && standing.0 == 0 && standing.1.Some? && standing.1.value.tick == tick
      && ActionMessages(k, standing.1.value, registry) <= part
    else
      part == [] && standing.0 == waited
  }

  /**
   * The tick's loop after its first `i` visits, in turn order `order`:
   * each agent visited has the outcome its visit recorded (`acted`,
   * `parts`), and each one still to come has the counter it had after the
   * raise (`waited`).
   */
  predicate Kept(standings: map<string, (int, Option<AgentAction>)>, order: seq<string>, i: nat, waited: map<string, int>,
                 acted: seq<bool>, parts: seq<seq<ServerMessage>>, tick: int, registry: ZoneRegistries.ZoneRegistry)
  {
    && i <= |order| && |acted| == i && |parts| == i
    && (forall a :: a in order ==> a in standings && a in waited)
    && (forall j :: 0 <= j < i ==> Visited(standings[order[j]], order[j], acted[j], parts[j], waited[order[j]], tick, registry))
    && (forall j :: i <= j < |order| ==> standings[order[j]].0 == waited[order[j]])
  }

  /**
   * The tick's loop once over: every agent of `order` has had its visit,
   * and each one's outcome is measured from the counter it had before the
   * tick (`before`), raised by one.
   */
  predicate Outcome(standings: map<string, (int, Option<AgentAction>)>, order: seq<string>, acted: seq<bool>,
                    parts: seq<seq<ServerMessage>>, before: map<string, int>, tick: int, registry: ZoneRegistries.ZoneRegistry)
  {
    && |acted| == |order| && |parts| == |order|
    && (forall a :: a in order ==> a in standings && a in before)
    && forall i :: 0 <= i < |order| ==>
         Visited(standings[order[i]], order[i], acted[i], parts[i], before[order[i]] + 1, tick, registry)
  }

  /**
   * One visit of the tick's loop, to agent `order[i]`, moves the loop on:
   * the agents visited before keep their outcome, the visited one gains
   * its own, and the ones still to come keep their raised counter.
   */
  lemma Revisited(was: map<string, (int, Option<AgentAction>)>, now: map<string, (int, Option<AgentAction>)>,
                  order: seq<string>, i: nat, waited: map<string, int>, acted: seq<bool>, parts: seq<seq<ServerMessage>>,
                  did: bool, more: seq<ServerMessage>, tick: int, registry: ZoneRegistries.ZoneRegistry)
    requires i < |order| && Distinct(order) && Kept(was, order, i, waited, acted, parts, tick, registry) && order[i] in was
    requires now.Keys == was.Keys && forall a :: a in was && a != order[i] ==> now[a] == was[a]
    requires Visited(now[order[i]], order[i], did, more, was[order[i]].0, tick, registry)
    ensures Concat(parts + [more]) == Concat(parts) + more
    ensures Kept(now, order, i + 1, waited, acted + [did], parts + [more], tick, registry)
  {
    assert (parts + [more])[..i] == parts;
    forall j | 0 <= j < |order| && j != i ensures order[j] != order[i] {
      DistinctAt(order, j, i);
    }
  }

  /** Once every agent has been visited, each one's outcome is measured from its counter before the raise. */
  lemma Finished(standings: map<string, (int, Option<AgentAction>)>, order: seq<string>, waited: map<string, int>,
                 before: map<string, int>, acted: seq<bool>, parts: seq<seq<ServerMessage>>, tick: int,
                 registry: ZoneRegistries.ZoneRegistry)
    requires Kept(standings, order, |order|, waited, acted, parts, tick, registry)
    requires forall a :: a in order ==> a in before && waited[a] == before[a] + 1
    ensures Outcome(standings, order, acted, parts, before, tick, registry)
  {
  }

  // ---------------------------------------------------------------------
  // The orchestrator
  // ---------------------------------------------------------------------

  class Orchestrator {
    const state: SimulationStates.SimulationState
    const conversationManager: Conversations.ConversationManager
    /** Present exactly when a language model is in use. */
    const cognitiveLoop: Option<CognitiveLoops.CognitiveLoop>
    const reflectionEngine: Option<ReflectionEngines.ReflectionEngine>
    const useMock: bool
    /** The mock actions scripted per agent (`MockActions()`). */
    const script: map<string, seq<AgentAction>>
    /** How far each scripted agent has got through its script. */
    var mockActionIndex: map<string, nat>
    /** `tickInterval !== null`: a timer handle is held. */
    var holdsTimer: bool
    /** A `setTimeout` of the loop is scheduled and has not fired yet. */
    var timerArmed: bool

    ghost predicate Valid()
      reads state, state.eventLog, state.eventLog.ids, state.spatialState, state.memoryIds, state.minds,
            conversationManager, conversationManager.ids
    {
      && state.Valid()
      && Conversations.Valid(conversationManager.State())
      && conversationManager.ids != state.memoryIds && conversationManager.ids != state.eventLog.ids
      && (cognitiveLoop.Some? ==> cognitiveLoop.value.spatialState == state.spatialState)
    }

    /** The loop's control state: the status, the handle, the armed timer. */
    ghost function Control(): LoopControl.Timer
      reads this, state
    {
      LoopControl.Timer(state.status, holdsTimer, timerArmed)
    }

    /** The cognitive loop and its model client, when there is one. */
    ghost function Mind(): set<object> {
      if cognitiveLoop.Some? then {cognitiveLoop.value, cognitiveLoop.value.client} else {}
    }

    /** The reflection engine's model client, when there is one. */
    ghost function Muse(): set<object> {
      if reflectionEngine.Some? then {reflectionEngine.value.client} else {}
    }

    /**
     * Mock mode exactly when no key is given (an empty key counts as none);
     * otherwise a cognitive loop and a reflection engine sharing `client`,
     * which stands for the Claude client built from the key. `script` is
     * the mock script, `MockActions()`; every scripted agent starts at the
     * head of it.
     */
    constructor (state: SimulationStates.SimulationState, key: Option<string>, client: LanguageModels.LanguageModel,
                 counter: Ids.Counter, recency: int -> real, script: map<string, seq<AgentAction>>)
      requires state.Valid() && counter != state.memoryIds && counter != state.eventLog.ids
      requires Conversations.Valid(Conversations.NoConversations(counter.value))
      ensures Valid()
      ensures this.state == state && useMock == !Truthy(key) && this.script == script
      ensures conversationManager.State() == Conversations.NoConversations(counter.value)
      ensures useMock ==> cognitiveLoop.None? && reflectionEngine.None?
      ensures !useMock ==> && cognitiveLoop.Some? && cognitiveLoop.value.client == client
                           && cognitiveLoop.value.pendingPerceptions == map[]
                           && cognitiveLoop.value.conversationHistory == map[]
                           && reflectionEngine.Some? && reflectionEngine.value.client == client
      ensures mockActionIndex == Start(script)
      ensures !holdsTimer && !timerArmed
    {
      this.state := state;
      conversationManager := new Conversations.ConversationManager(counter);
      useMock := !Truthy(key);
      if !Truthy(key) {
        cognitiveLoop := None;
        reflectionEngine := None;
      } else {
        var loop := new CognitiveLoops.CognitiveLoop(client, state.environmentTree, state.spatialState, recency);
        var engine := new ReflectionEngines.ReflectionEngine(client);
        cognitiveLoop := Some(loop);
        reflectionEngine := Some(engine);
      }
      this.script := script;
      mockActionIndex := Start(script);
      holdsTimer := false;
      timerArmed := false;
    }

    /** `getMockAction`, proved to take one `MockStep`. */
    method GetMockAction(k: string) returns (action: Option<AgentAction>)
      modifies this`mockActionIndex
      ensures (action, mockActionIndex) == MockStep(script, old(mockActionIndex), k, state.tick)
    {
      if k !in script {
        return None;
      }
      var actions := script[k];
      var index := if k in mockActionIndex then mockActionIndex[k] else 0;
      if index >= |actions| {
        return Some(BareAction(k, state.tick, Wait, Some("Listening")));
      }
      mockActionIndex := mockActionIndex[k := index + 1];
      return Some(actions[index].(tick := state.tick));
    }

    /**
     * `getAgentsInTurnOrder`: the agents longest-waiting first (ties in
     * table order), and every agent's waiting counter one higher.
     */
    method GetAgentsInTurnOrder() returns (order: seq<string>)
      requires Valid()
      modifies state.agents.Values`turnsSinceLastAction
      ensures Valid() && state.agents == old(state.agents) && state.agentOrder == old(state.agentOrder)
      ensures state.tick == old(state.tick) && state.status == old(state.status)
      ensures order == TurnOrder(state.agentOrder, old(Turns(state.agents)))
      ensures Distinct(order) && forall k :: k in order <==> k in state.agents
      ensures forall k :: k in state.agents ==> state.agents[k].turnsSinceLastAction == old(Turns(state.agents))[k] + 1
    {
      order := TurnOrder(state.agentOrder, Turns(state.agents));
      TurnOrderSorted(state.agentOrder, Turns(state.agents));
      RaiseAll(state.agents, order);
    }

    /** The counting loop of `getAgentsInTurnOrder`: every agent of `order` counts one more waited turn. */
    static method RaiseAll(agents: map<string, Agents.Agent>, order: seq<string>)
      requires Distinct(order) && (forall k :: k in order <==> k in agents) && forall k :: k in agents ==> agents[k].id == k
      modifies agents.Values`turnsSinceLastAction
      ensures forall k :: k in agents ==> agents[k].turnsSinceLastAction == old(Turns(agents))[k] + 1
    {
      ghost var before := Turns(agents);
      var i := 0;
      while i < |order|
        invariant 0 <= i <= |order|
        invariant forall k :: k in agents ==>
          agents[k].turnsSinceLastAction == before[k] + if k in order[..i] then 1 else 0
      {
        Bump(agents, agents[order[i]], order, i, before);
        i := i + 1;
      }
      assert order[..i] == order;
    }

    /** One round of the counting loop: agent `order[i]` counts one more waited turn. */
    static method Bump(agents: map<string, Agents.Agent>, agent: Agents.Agent, order: seq<string>, i: nat,
                       ghost before: map<string, int>)
      requires i < |order| && Distinct(order) && order[i] in agents && agent == agents[order[i]]
      requires before.Keys == agents.Keys
      requires forall k :: k in agents ==> agents[k].id == k
      requires forall k :: k in agents ==>
        agents[k].turnsSinceLastAction == before[k] + if k in order[..i] then 1 else 0
      modifies agent`turnsSinceLastAction
      ensures forall k :: k in agents ==>
        agents[k].turnsSinceLastAction == before[k] + if k in order[..i + 1] then 1 else 0
    {
      var k := order[i];
      forall p | 0 <= p < i ensures order[p] != k {
        DistinctAt(order, p, i);
      }
      assert order[..i + 1] == order[..i] + [k];
      agent.turnsSinceLastAction := agent.turnsSinceLastAction + 1;
    }

    /** The agent filed under `k`. */
    function Actor(k: string): Agents.Agent
      reads state
      requires k in state.agents
    {
      state.agents[k]
    }

    /** The cognitive loop, when there is one. */
    ghost function Listener(): set<object> {
      if cognitiveLoop.Some? then {cognitiveLoop.value} else {}
    }

    /** The agents sharing `k`'s zone that the table knows, in placement order. */
    function Nearby(k: string): (r: seq<string>)
      reads state, state.spatialState
      requires state.spatialState.Valid()
      ensures forall a :: a in r <==> a in state.spatialState.GetAgentsInSameZone(k) && a in state.agents
    {
      Perceptions.Known(state.spatialState.GetAgentsInSameZone(k), state.agents)
    }

    /** `addPerception` for each listed agent, in order. */
    static method Perceive(state: SimulationStates.SimulationState, loop: CognitiveLoops.CognitiveLoop, ids: seq<string>,
                           perception: string)
      requires state.Valid()
      modifies loop
      ensures state.Valid() && state.memoryIds.value == old(state.memoryIds.value)
      ensures state.agents == old(state.agents) && state.tick == old(state.tick) && state.status == old(state.status)
      ensures state.eventLog.events == old(state.eventLog.events) && state.eventLog.ids.value == old(state.eventLog.ids.value)
      ensures SimulationStates.Contents(state.agents) == old(SimulationStates.Contents(state.agents))
      ensures loop.pendingPerceptions == CognitiveLoops.WithPerceptionEach(old(loop.pendingPerceptions), ids, perception)
      ensures loop.conversationHistory == old(loop.conversationHistory)
    {
      var i := 0;
      while i < |ids|
        invariant 0 <= i <= |ids|
        invariant CognitiveLoops.WithPerceptionEach(loop.pendingPerceptions, ids[i..], perception)
               == CognitiveLoops.WithPerceptionEach(old(loop.pendingPerceptions), ids, perception)
        invariant loop.conversationHistory == old(loop.conversationHistory)
      {
        loop.AddPerception(ids[i], perception);
        assert ids[i..][1..] == ids[i + 1..];
        i := i + 1;
      }
      SimulationStates.Untouched(state.agents);
    }

    /**
     * News reaching agents nearby: each listener, in order, remembers
     * `content` (filed under `spot`, about `about`) and, when there is a
     * cognitive loop, perceives `perception`.
     */
    method Spread(listeners: seq<string>, content: string, importance: int, spot: Option<Option<string>>,
                  about: Option<string>, perception: string)
      requires Valid() && Distinct(listeners) && forall a :: a in listeners ==> a in state.agents
      modifies SimulationStates.Memories(state.agents), state.memoryIds, Listener()
      ensures Valid()
      ensures state.eventLog.events == old(state.eventLog.events) && state.eventLog.ids.value == old(state.eventLog.ids.value)
      ensures state.tick == old(state.tick) && state.status == old(state.status) && state.agents == old(state.agents)
      ensures state.memoryIds.value == old(state.memoryIds.value) + |listeners|
      ensures Perceptions.Delivered(old(SimulationStates.Contents(state.agents)), SimulationStates.Contents(state.agents),
                                    listeners, old(state.memoryIds.value),
                                    Perceptions.Note(state.tick, content, importance, Agents.ContentKeywords(content), spot, about),
                                    SimulationStates.Whereabouts(state.agents))
      ensures cognitiveLoop.Some? ==>
        && cognitiveLoop.value.pendingPerceptions
           == CognitiveLoops.WithPerceptionEach(old(cognitiveLoop.value.pendingPerceptions), listeners, perception)
        && cognitiveLoop.value.conversationHistory == old(cognitiveLoop.value.conversationHistory)
    {
      if cognitiveLoop.Some? {
        Perceive(state, cognitiveLoop.value, listeners, perception);
      }
      Perceptions.Tell(state, listeners, content, importance, spot, about);
    }

    /**
     * The walk of a `move_to` to a zone's spawn tile: the agent leaves the
     * conversation of the zone it was in and joins the destination's, its
     * move along a one-tile path is broadcast, and its new position is filed
     * in the spatial index. (The agent itself takes the tile in `Stand`.)
     */
    method Walk(agent: Agents.Agent, k: string, destination: string, tile: Tile) returns (messages: seq<ServerMessage>)
      requires Valid() && k in state.agents && agent == state.agents[k]
      modifies conversationManager, conversationManager.ids, state`sseControllers, state`delivered, state.spatialState
      ensures Valid() && state.agents == old(state.agents) && state.tick == old(state.tick) && state.status == old(state.status)
      ensures messages == [AgentMove(k, [tile], MoveSpeed)]
      ensures conversationManager.State()
           == Conversations.WithParticipant(Leaving(old(conversationManager.State()), agent.currentZone, k),
                                            destination, k, state.tick)
      ensures state.sseControllers == SimulationStates.Open(old(state.sseControllers))
      ensures state.delivered == old(state.delivered) + SimulationStates.Deliveries(old(state.sseControllers), messages[0])
      ensures state.spatialState.positions == old(state.spatialState.positions).Put(k,
        SpatialStates.AgentPosition(k, tile.x, tile.y, SpatialStates.ZoneIdAt(state.spatialState.registry.GetAllZones(), tile.x, tile.y)))
    {
      Transfer(agent.currentZone, destination, k);
      messages := Settle(k, tile);
    }

    /** The conversations' side of a walk: the agent leaves the conversation of `zone` (if truthy) and joins `destination`'s. */
    method Transfer(zone: Option<string>, destination: string, k: string)
      requires Valid()
      modifies conversationManager, conversationManager.ids
      ensures Valid() && state.agents == old(state.agents) && state.tick == old(state.tick) && state.status == old(state.status)
      ensures conversationManager.State()
           == Conversations.WithParticipant(Leaving(old(conversationManager.State()), zone, k), destination, k, state.tick)
    {
      Leave(zone, k);
      Join(destination, k);
    }

    /** `removeParticipant` on the zone's conversation, when the zone is truthy. */
    method Leave(zone: Option<string>, k: string)
      requires Valid()
      modifies conversationManager
      ensures Valid() && conversationManager.State() == Leaving(old(conversationManager.State()), zone, k)
    {
      if zone.Some? && zone.value != "" {
        conversationManager.RemoveParticipant(zone.value, k);
      }
    }

    /** `addParticipant` on the destination's conversation at the present tick. */
    method Join(destination: string, k: string)
      requires Valid()
      modifies conversationManager, conversationManager.ids
      ensures Valid()
      ensures conversationManager.State() == Conversations.WithParticipant(old(conversationManager.State()), destination, k, state.tick)
    {
      conversationManager.AddParticipant(destination, k, state.tick);
    }

    /** The state's side of a walk: the move is broadcast and the agent's position filed. */
    method Settle(k: string, tile: Tile) returns (messages: seq<ServerMessage>)
      requires Valid()
      modifies state`sseControllers, state`delivered, state.spatialState
      ensures Valid() && conversationManager.State() == old(conversationManager.State()) && state.agents == old(state.agents) && state.tick == old(state.tick) && state.status == old(state.status)
      ensures messages == [AgentMove(k, [tile], MoveSpeed)]
      ensures state.sseControllers == SimulationStates.Open(old(state.sseControllers))
      ensures state.delivered == old(state.delivered) + SimulationStates.Deliveries(old(state.sseControllers), messages[0])
      ensures state.spatialState.positions == old(state.spatialState.positions).Put(k,
        SpatialStates.AgentPosition(k, tile.x, tile.y, SpatialStates.ZoneIdAt(state.spatialState.registry.GetAllZones(), tile.x, tile.y)))
    {
      var moveMsg := AgentMove(k, [tile], MoveSpeed);
      messages := [moveMsg];
      state.Broadcast(moveMsg);
      state.Place(k, tile.x, tile.y);
    }

    /** The agent's side of a walk: it stands on `tile` in `zone`, idle again (it was `moving` in between). */
    static method Stand(agent: Agents.Agent, tile: Tile, zone: string)
      modifies agent`status, agent`tileX, agent`tileY, agent`currentZone
      ensures agent.tileX == tile.x && agent.tileY == tile.y && agent.currentZone == Some(zone) && agent.status == Idle
    {
      agent.status := Moving;
      agent.tileX := tile.x;
      agent.tileY := tile.y;
      agent.currentZone := Some(zone);
      agent.status := Idle;
    }

    /**
     * The arrival of a `move_to`: a movement event is logged, and every
     * agent now sharing the newcomer's zone (placement order) remembers
     * and perceives the arrival.
     */
    method Arrive(agent: Agents.Agent, k: string, destination: string, listeners: seq<string>)
      requires Valid() && k in state.agents && agent == state.agents[k]
      requires listeners == Nearby(k) && Distinct(listeners) && forall a :: a in listeners ==> a in state.agents
      modifies state.eventLog, state.eventLog.ids, SimulationStates.Memories(state.agents), state.memoryIds, Listener()
      ensures Valid() && state.agents == old(state.agents) && state.tick == old(state.tick) && state.status == old(state.status)
      ensures state.eventLog.events == old(state.eventLog.events)
          + [SimulationEvent(Ids.MakeId(EventLogs.Prefix, state.eventLog.ids.value), state.tick, MovementEvent,
                             Some(k), Some(agent.name), Moved(agent.name, destination), None)]
      ensures state.eventLog.ids.value == old(state.eventLog.ids.value) + 1
      ensures state.memoryIds.value == old(state.memoryIds.value) + |listeners|
      ensures Perceptions.Delivered(old(SimulationStates.Contents(state.agents)), SimulationStates.Contents(state.agents),
                                    listeners, old(state.memoryIds.value), ArrivalNote(state.tick, agent.name, agent.role, destination, k),
                                    SimulationStates.Whereabouts(state.agents))
      ensures cognitiveLoop.Some? ==>
        && cognitiveLoop.value.pendingPerceptions == CognitiveLoops.WithPerceptionEach(old(cognitiveLoop.value.pendingPerceptions),
             listeners, ArrivalPerception(agent.name, agent.role, destination))
        && cognitiveLoop.value.conversationHistory == old(cognitiveLoop.value.conversationHistory)
    {
      Log(MovementEvent, k, agent.name, Moved(agent.name, destination), None);
      Spread(listeners, Arrival(agent.name, agent.role, destination), ArrivalImportance, Some(Some(destination)), Some(k),
             ArrivalPerception(agent.name, agent.role, destination));
    }

    /** `eventLog.addEvent` for agent `k` at the present tick. */
    method Log(kind: EventType, k: string, name: string, content: string, target: Option<string>)
      requires Valid()
      modifies state.eventLog, state.eventLog.ids
      ensures Valid() && SimulationStates.Contents(state.agents) == old(SimulationStates.Contents(state.agents))
      ensures state.tick == old(state.tick) && state.status == old(state.status) && state.agents == old(state.agents)
      ensures state.eventLog.ids.value == old(state.eventLog.ids.value) + 1
      ensures state.eventLog.events == old(state.eventLog.events)
          + [SimulationEvent(Ids.MakeId(EventLogs.Prefix, state.eventLog.ids.value), state.tick, kind, Some(k), Some(name), content, target)]
    {
      var _ := state.Record(state.tick, kind, Some(k), Some(name), content, target);
      SimulationStates.Untouched(state.agents);
    }

    /** The agents sharing `k`'s zone, found in the table, without repeats. */
    method Listeners(k: string) returns (listeners: seq<string>)
      requires Valid()
      ensures listeners == Nearby(k) && Distinct(listeners) && forall a :: a in listeners ==> a in state.agents
    {
      var nearby := state.spatialState.GetAgentsInSameZone(k);
      state.spatialState.SameZoneDistinct(k);
      Perceptions.KnownDistinct(nearby, state.agents);
      listeners := Perceptions.Known(nearby, state.agents);
    }

    /** `state.broadcast(message)` with the orchestrator's invariant kept. */
    method Announce(message: ServerMessage)
      requires Valid()
      modifies state`sseControllers, state`delivered
      ensures Valid() && state.agents == old(state.agents) && state.tick == old(state.tick) && state.status == old(state.status)
      ensures mockActionIndex == old(mockActionIndex)
      ensures state.sseControllers == SimulationStates.Open(old(state.sseControllers))
      ensures state.delivered == old(state.delivered) + SimulationStates.Deliveries(old(state.sseControllers), message)
    {
      state.Broadcast(message);
    }

    /** The agent takes `status` and, when the action carries one, the action's emotion. */
    static method Express(agent: Agents.Agent, status: AgentStatus, emotion: Option<Emotion>)
      modifies agent`status, agent`emotion
      ensures agent.status == status && agent.emotion == emotion.GetOr(old(agent.emotion))
    {
      agent.status := status;
      if emotion.Some? {
        agent.emotion := emotion.value;
      }
    }

    /** `agent.status = "idle"`. */
    static method Rest(agent: Agents.Agent)
      modifies agent`status
      ensures agent.status == Idle
    {
      agent.status := Idle;
    }

    /**
     * The opening of a `speak` or `think`: the agent takes `status` and the
     * action's emotion, and the action is broadcast as completed.
     */
    method Voice(agent: Agents.Agent, action: AgentAction, status: AgentStatus) returns (messages: seq<ServerMessage>)
      requires Valid()
      modifies agent`status, agent`emotion, state`sseControllers, state`delivered
      ensures Valid() && state.agents == old(state.agents) && state.tick == old(state.tick) && state.status == old(state.status)
      ensures messages == [AgentActionComplete(action)]
      ensures agent.status == status && agent.emotion == action.emotion.GetOr(old(agent.emotion))
      ensures state.sseControllers == SimulationStates.Open(old(state.sseControllers))
      ensures state.delivered == old(state.delivered) + SimulationStates.Deliveries(old(state.sseControllers), messages[0])
    {
      Express(agent, status, action.emotion);
      messages := [AgentActionComplete(action)];
      Announce(messages[0]);
    }

    /**
     * A speech joins the conversation of the speaker's zone, when that zone
     * is truthy: a turn in the tracker (its content, or empty) and a line in
     * the cognitive loop's history of the zone.
     */
    method Converse(zone: Option<string>, k: string, name: string, content: Option<string>)
      requires Valid()
      modifies conversationManager, conversationManager.ids, Listener()
      ensures Valid() && state.agents == old(state.agents) && state.tick == old(state.tick) && state.status == old(state.status)
      ensures state.eventLog.events == old(state.eventLog.events) && state.eventLog.ids.value == old(state.eventLog.ids.value)
      ensures conversationManager.State()
           == if Truthy(zone) then Conversations.WithTurn(old(conversationManager.State()), zone.value, k, name, OrEmpty(content), state.tick)
              else old(conversationManager.State())
      ensures cognitiveLoop.Some? ==>
        && cognitiveLoop.value.conversationHistory
           == (if Truthy(zone) then CognitiveLoops.WithConversationTurn(old(cognitiveLoop.value.conversationHistory), zone.value, Line(name, content))
               else old(cognitiveLoop.value.conversationHistory))
        && cognitiveLoop.value.pendingPerceptions == old(cognitiveLoop.value.pendingPerceptions)
    {
      if zone.Some? && zone.value != "" {
        Turn(zone.value, k, name, OrEmpty(content));
        if cognitiveLoop.Some? {
          cognitiveLoop.value.AddConversationTurn(zone.value, Line(name, content));
        }
      }
    }

    /** `addTurn` on the zone's conversation at the present tick. */
    method Turn(zone: string, k: string, name: string, content: string)
      requires Valid()
      modifies conversationManager, conversationManager.ids
      ensures Valid()
      ensures conversationManager.State() == Conversations.WithTurn(old(conversationManager.State()), zone, k, name, content, state.tick)
    {
      conversationManager.AddTurn(zone, k, name, content, state.tick);
    }

    /**
     * What a speech leaves behind: the zone's conversation gains the turn
     * (`Converse`), and every agent sharing the speaker's zone remembers
     * and perceives what was said, filed under the speaker's zone (`Spread`).
     */
    method Heard(agent: Agents.Agent, k: string, zone: Option<string>, content: Option<string>, listeners: seq<string>)
      requires Valid() && k in state.agents && agent == state.agents[k] && zone == agent.currentZone
      requires listeners == Nearby(k) && Distinct(listeners) && forall a :: a in listeners ==> a in state.agents
      modifies SimulationStates.Memories(state.agents), state.memoryIds, Listener(), conversationManager, conversationManager.ids
      ensures Valid() && state.agents == old(state.agents) && state.tick == old(state.tick) && state.status == old(state.status)
      ensures state.eventLog.events == old(state.eventLog.events) && state.eventLog.ids.value == old(state.eventLog.ids.value)
    {
      var said := Said(agent.name, content);
      Converse(zone, k, agent.name, content);
      Spread(listeners, said, SpeechImportance, Some(zone), Some(k), said);
    }
      /**
     * The `speak` case: the agent speaks (status `speaking`, the action's
     * emotion), the action is broadcast and logged as a speech event, the
     * speech is heard nearby and joins the zone's conversation, and the
     * agent is idle again.
     */
    method Speak(agent: Agents.Agent, k: string, action: AgentAction) returns (messages: seq<ServerMessage>)
      requires Valid() && k in state.agents && agent == state.agents[k]
      modifies agent`status, agent`emotion, state`sseControllers, state`delivered, state.eventLog, state.eventLog.ids,
               SimulationStates.Memories(state.agents), state.memoryIds, Listener(), conversationManager, conversationManager.ids
      ensures Valid() && state.agents == old(state.agents) && state.tick == old(state.tick) && state.status == old(state.status)
      ensures messages == [AgentActionComplete(action)]
      ensures agent.status == Idle && agent.emotion == action.emotion.GetOr(old(agent.emotion))
      ensures state.eventLog.ids.value == old(state.eventLog.ids.value) + 1
      ensures state.eventLog.events == old(state.eventLog.events)
          + [SimulationEvent(Ids.MakeId(EventLogs.Prefix, state.eventLog.ids.value), state.tick, SpeechEvent,
                             Some(k), Some(agent.name), ActionText(action), action.target)]
    {
      messages := Utter(agent, k, action, Speaking, SpeechEvent, action.target);
      Echo(agent, k, action.content);
      Rest(agent);
    }

    /** A speech is heard (`Heard`) by the agents sharing the speaker's zone. */
    method Echo(agent: Agents.Agent, k: string, content: Option<string>)
      requires Valid() && k in state.agents && agent == state.agents[k]
      modifies SimulationStates.Memories(state.agents), state.memoryIds, Listener(), conversationManager, conversationManager.ids
      ensures Valid() && state.agents == old(state.agents) && state.tick == old(state.tick) && state.status == old(state.status)
      ensures state.eventLog.events == old(state.eventLog.events) && state.eventLog.ids.value == old(state.eventLog.ids.value)
    {
      var listeners := Listeners(k);
      Heard(agent, k, agent.currentZone, content, listeners);
    }

    /**
     * The opening of a `speak` or `think` (`Voice`), followed by the event
     * of `kind` carrying the action's text.
     */
    method Utter(agent: Agents.Agent, k: string, action: AgentAction, status: AgentStatus, kind: EventType,
                 target: Option<string>) returns (messages: seq<ServerMessage>)
      requires Valid() && k in state.agents && agent == state.agents[k]
      modifies agent`status, agent`emotion, state`sseControllers, state`delivered, state.eventLog, state.eventLog.ids
      ensures Valid() && state.agents == old(state.agents) && state.tick == old(state.tick) && state.status == old(state.status)
      ensures messages == [AgentActionComplete(action)]
      ensures agent.status == status && agent.emotion == action.emotion.GetOr(old(agent.emotion))
      ensures state.eventLog.ids.value == old(state.eventLog.ids.value) + 1
      ensures state.eventLog.events == old(state.eventLog.events)
          + [SimulationEvent(Ids.MakeId(EventLogs.Prefix, state.eventLog.ids.value), state.tick, kind,
                             Some(k), Some(agent.name), ActionText(action), target)]
      ensures agent.memory.entries == old(agent.memory.entries) && state.memoryIds.value == old(state.memoryIds.value)
    {
      messages := Voice(agent, action, status);
      Log(kind, k, agent.name, ActionText(action), target);
    }

    /**
     * The `think` case: the agent thinks (status `thinking`, the action's
     * emotion), the action is broadcast, the agent remembers the thought
     * (importance 4, no location, about no one), a thought event is logged,
     * and the agent is idle again.
     */
    method Ponder(agent: Agents.Agent, k: string, action: AgentAction) returns (messages: seq<ServerMessage>)
      requires Valid() && k in state.agents && agent == state.agents[k]
      modifies agent`status, agent`emotion, state`sseControllers, state`delivered, state.eventLog, state.eventLog.ids,
               agent.memory, state.memoryIds
      ensures Valid() && state.agents == old(state.agents) && state.tick == old(state.tick) && state.status == old(state.status)
      ensures messages == [AgentActionComplete(action)]
      ensures agent.status == Idle && agent.emotion == action.emotion.GetOr(old(agent.emotion))
      ensures state.eventLog.ids.value == old(state.eventLog.ids.value) + 1
      ensures state.eventLog.events == old(state.eventLog.events)
          + [SimulationEvent(Ids.MakeId(EventLogs.Prefix, state.eventLog.ids.value), state.tick, ThoughtEvent,
                             Some(k), Some(agent.name), ActionText(action), None)]
      ensures state.memoryIds.value == old(state.memoryIds.value) + 1
      ensures agent.memory.entries == old(agent.memory.entries)
        + [Agents.Agent.ObservationEntry(state.memoryIds.value, state.tick, Thought(action.content), ThoughtImportance, None, None)]
    {
      messages := Utter(agent, k, action, Thinking, ThoughtEvent, None);
      Remember(agent, k, Thought(action.content), ThoughtImportance);
      Rest(agent);
    }

    /** `agent.addObservation` at the present tick, with no location and about no one. */
    method Remember(agent: Agents.Agent, k: string, content: string, importance: int)
      requires Valid() && k in state.agents && agent == state.agents[k]
      modifies agent.memory, state.memoryIds
      ensures Valid() && state.agents == old(state.agents) && state.tick == old(state.tick) && state.status == old(state.status)
      ensures state.eventLog.events == old(state.eventLog.events) && state.eventLog.ids.value == old(state.eventLog.ids.value)
      ensures state.memoryIds.value == old(state.memoryIds.value) + 1
      ensures agent.memory.entries == old(agent.memory.entries)
        + [Agents.Agent.ObservationEntry(state.memoryIds.value, state.tick, content, importance, None, None)]
    {
      state.Observe(k, state.tick, content, importance, None, None);
    }

    /**
     * The `move_to` case: nothing happens unless the destination is a
     * truthy known zone id; otherwise the agent walks to its spawn tile
     * (`Walk`) and arrives (`Arrive`), and the move is the one message.
     */
    method Go(agent: Agents.Agent, k: string, action: AgentAction) returns (messages: seq<ServerMessage>)
      requires Valid() && k in state.agents && agent == state.agents[k]
      modifies agent`status, agent`tileX, agent`tileY, agent`currentZone, conversationManager, conversationManager.ids,
               state`sseControllers, state`delivered, state.spatialState, state.eventLog, state.eventLog.ids,
               SimulationStates.Memories(state.agents), state.memoryIds, Listener()
      ensures Valid() && state.agents == old(state.agents) && state.tick == old(state.tick) && state.status == old(state.status)
      ensures MoveTarget(action.destination, state.zoneRegistry).None? ==>
        && messages == [] && agent.currentZone == old(agent.currentZone) && agent.status == old(agent.status)
        && state.eventLog.events == old(state.eventLog.events) && state.eventLog.ids.value == old(state.eventLog.ids.value)
      ensures MoveTarget(action.destination, state.zoneRegistry).Some? ==>
        var (destination, tile) := MoveTarget(action.destination, state.zoneRegistry).value;
        && messages == [AgentMove(k, [tile], MoveSpeed)]
        && agent.tileX == tile.x && agent.tileY == tile.y && agent.currentZone == Some(destination) && agent.status == Idle
        && state.eventLog.ids.value == old(state.eventLog.ids.value) + 1
        && state.eventLog.events == old(state.eventLog.events)
          + [SimulationEvent(Ids.MakeId(EventLogs.Prefix, state.eventLog.ids.value), state.tick, MovementEvent,
                             Some(k), Some(agent.name), Moved(agent.name, destination), None)]
    {
      var target := MoveTarget(action.destination, state.zoneRegistry);
      if target.None? {
        return [];
      }
      var (destination, tile) := target.value;
      messages := Travel(agent, k, destination, tile);
    }

    /** A `move_to` that goes ahead (`Relocate`), with the agent standing on the tile at the end. */
    method Travel(agent: Agents.Agent, k: string, destination: string, tile: Tile) returns (messages: seq<ServerMessage>)
      requires Valid() && k in state.agents && agent == state.agents[k]
      modifies agent`status, agent`tileX, agent`tileY, agent`currentZone, conversationManager, conversationManager.ids,
               state`sseControllers, state`delivered, state.spatialState, state.eventLog, state.eventLog.ids,
               SimulationStates.Memories(state.agents), state.memoryIds, Listener()
      ensures Valid() && state.agents == old(state.agents) && state.tick == old(state.tick) && state.status == old(state.status)
      ensures messages == [AgentMove(k, [tile], MoveSpeed)]
      ensures agent.tileX == tile.x && agent.tileY == tile.y && agent.currentZone == Some(destination) && agent.status == Idle
      ensures state.eventLog.ids.value == old(state.eventLog.ids.value) + 1
      ensures state.eventLog.events == old(state.eventLog.events)
          + [SimulationEvent(Ids.MakeId(EventLogs.Prefix, state.eventLog.ids.value), state.tick, MovementEvent,
                             Some(k), Some(agent.name), Moved(agent.name, destination), None)]
    {
      messages := Relocate(agent, k, destination, tile);
      Stand(agent, tile, destination);
    }

    /** A `move_to` that goes ahead: the walk, then the arrival among the agents now nearby. */
    method Relocate(agent: Agents.Agent, k: string, destination: string, tile: Tile) returns (messages: seq<ServerMessage>)
      requires Valid() && k in state.agents && agent == state.agents[k]
      modifies conversationManager, conversationManager.ids, state`sseControllers, state`delivered, state.spatialState,
               state.eventLog, state.eventLog.ids, SimulationStates.Memories(state.agents), state.memoryIds, Listener()
      ensures Valid() && state.agents == old(state.agents) && state.tick == old(state.tick) && state.status == old(state.status)
      ensures messages == [AgentMove(k, [tile], MoveSpeed)]
      ensures state.eventLog.ids.value == old(state.eventLog.ids.value) + 1
      ensures state.eventLog.events == old(state.eventLog.events)
          + [SimulationEvent(Ids.MakeId(EventLogs.Prefix, state.eventLog.ids.value), state.tick, MovementEvent,
                             Some(k), Some(agent.name), Moved(agent.name, destination), None)]
    {
      messages := Walk(agent, k, destination, tile);
      Land(agent, k, destination);
    }

    /** The arrival (`Arrive`) among the agents sharing the newcomer's zone once it has walked there. */
    method Land(agent: Agents.Agent, k: string, destination: string)
      requires Valid() && k in state.agents && agent == state.agents[k]
      modifies state.eventLog, state.eventLog.ids, SimulationStates.Memories(state.agents), state.memoryIds, Listener()
      ensures Valid() && state.agents == old(state.agents) && state.tick == old(state.tick) && state.status == old(state.status)
      ensures state.eventLog.ids.value == old(state.eventLog.ids.value) + 1
      ensures state.eventLog.events == old(state.eventLog.events)
          + [SimulationEvent(Ids.MakeId(EventLogs.Prefix, state.eventLog.ids.value), state.tick, MovementEvent,
                             Some(k), Some(agent.name), Moved(agent.name, destination), None)]
    {
      var listeners := Listeners(k);
      Arrive(agent, k, destination, listeners);
    }

    /**
     * `executeAction`: the agent remembers the action as its last one, and
     * the action is carried out by its type (`Go`, `Speak`, `Ponder`; a
     * `wait` only idles the agent, a `react` does nothing).
     */
    method ExecuteAction(agent: Agents.Agent, k: string, action: AgentAction) returns (messages: seq<ServerMessage>)
      requires Valid() && k in state.agents && agent == state.agents[k]
      modifies agent`lastAction, agent`status, agent`emotion, agent`tileX, agent`tileY, agent`currentZone,
               conversationManager, conversationManager.ids, state`sseControllers, state`delivered, state.spatialState,
               state.eventLog, state.eventLog.ids, SimulationStates.Memories(state.agents), state.memoryIds, Listener()
      ensures Valid() && state.agents == old(state.agents) && state.tick == old(state.tick) && state.status == old(state.status)
      ensures agent.lastAction == Some(action)
      ensures messages == ActionMessages(k, action, state.zoneRegistry)
      ensures agent.status == StatusAfter(action, state.zoneRegistry, old(agent.status))
      ensures state.eventLog.ids.value == old(state.eventLog.ids.value) + (if ActionEvent(agent.name, action, state.zoneRegistry).Some? then 1 else 0)
      ensures state.eventLog.events == old(state.eventLog.events)
          + Logged(ActionEvent(agent.name, action, state.zoneRegistry), state.eventLog.ids.value, state.tick, k, agent.name)
    {
      Adopt(agent, action);
      messages := Perform(agent, k, action);
    }

    /** `agent.lastAction = action`. */
    static method Adopt(agent: Agents.Agent, action: AgentAction)
      modifies agent`lastAction
      ensures agent.lastAction == Some(action)
    {
      agent.lastAction := Some(action);
    }

    /** The switch of `executeAction` on the action's type. */
    method Perform(agent: Agents.Agent, k: string, action: AgentAction) returns (messages: seq<ServerMessage>)
      requires Valid() && k in state.agents && agent == state.agents[k]
      modifies agent`status, agent`emotion, agent`tileX, agent`tileY, agent`currentZone,
               conversationManager, conversationManager.ids, state`sseControllers, state`delivered, state.spatialState,
               state.eventLog, state.eventLog.ids, SimulationStates.Memories(state.agents), state.memoryIds, Listener()
      ensures Valid() && state.agents == old(state.agents) && state.tick == old(state.tick) && state.status == old(state.status)
      ensures messages == ActionMessages(k, action, state.zoneRegistry)
      ensures agent.status == StatusAfter(action, state.zoneRegistry, old(agent.status))
      ensures state.eventLog.ids.value == old(state.eventLog.ids.value) + (if ActionEvent(agent.name, action, state.zoneRegistry).Some? then 1 else 0)
      ensures state.eventLog.events == old(state.eventLog.events)
          + Logged(ActionEvent(agent.name, action, state.zoneRegistry), state.eventLog.ids.value, state.tick, k, agent.name)
    {
      match action.actionType
      case MoveTo =>
        messages := Go(agent, k, action);
      case Speak =>
        messages := Speak(agent, k, action);
      case Think =>
        messages := Ponder(agent, k, action);
      case Wait =>
        Rest(agent);
        messages := [];
      case React =>
        messages := [];
    }

    /**
     * `cognitiveLoop.think` for agent `k`, with the table's invariant kept:
     * the action, emotion and plan adopted from the model's next reply (the
     * fallback when the call fails), and the agent's perceptions consumed.
     */
    method Deliberate(agent: Agents.Agent, k: string) returns (action: AgentAction)
      requires Valid() && cognitiveLoop.Some? && k in state.agents && agent == state.agents[k]
      modifies Mind(), agent, agent.memory
      ensures Valid() && state.agents == old(state.agents) && state.tick == old(state.tick) && state.status == old(state.status)
      ensures mockActionIndex == old(mockActionIndex)
      ensures (action, agent.emotion, agent.currentPlan)
           == CognitiveLoops.Adopted(LanguageModels.ActionFrom(LanguageModels.Head(old(cognitiveLoop.value.client.actionReplies),
                                                                                    LanguageModels.CallFails), k, 0),
                                     k, old(agent.emotion), old(agent.currentPlan))
      ensures cognitiveLoop.value.pendingPerceptions == old(cognitiveLoop.value.pendingPerceptions)[k := []]
      ensures agent.tileX == old(agent.tileX) && agent.tileY == old(agent.tileY) && agent.currentZone == old(agent.currentZone)
      ensures agent.status == old(agent.status) && agent.lastAction == old(agent.lastAction)
      ensures agent.turnsSinceLastAction == old(agent.turnsSinceLastAction)
    {
      ghost var before := state.memoryIds.value;
      SimulationStates.MindsOthers(state.agents, state.memoryIds, state.minds, k);
      action := cognitiveLoop.value.Decide(agent, state.agents);
      SimulationStates.MindsJoin(state.agents, state.memoryIds, state.minds, k, before);
    }

    /**
     * `getRealAction`: without a cognitive loop, the mock script's next
     * action; otherwise the agent is announced thinking and the model
     * decides (`Consult`).
     */
    method GetRealAction(agent: Agents.Agent, k: string) returns (action: Option<AgentAction>)
      requires Valid() && k in state.agents && agent == state.agents[k]
      modifies this`mockActionIndex, state`sseControllers, state`delivered, Mind(), agent, agent.memory
      ensures Valid() && state.agents == old(state.agents) && state.tick == old(state.tick) && state.status == old(state.status)
      ensures cognitiveLoop.None? ==>
        && (action, mockActionIndex) == MockStep(script, old(mockActionIndex), k, state.tick)
        && state.delivered == old(state.delivered)
      ensures cognitiveLoop.Some? ==>
        && action == Some(CognitiveLoops.Adopted(LanguageModels.ActionFrom(LanguageModels.Head(old(cognitiveLoop.value.client.actionReplies),
                                                 LanguageModels.CallFails), k, 0), k, old(agent.emotion), old(agent.currentPlan)).0)
        && mockActionIndex == old(mockActionIndex)
        && state.delivered == old(state.delivered) + SimulationStates.Deliveries(old(state.sseControllers), AgentThinking(k))
      ensures agent.lastAction == old(agent.lastAction) && agent.turnsSinceLastAction == old(agent.turnsSinceLastAction)
    {
      if cognitiveLoop.None? {
        action := Script(k);
        return;
      }
      var decided := Consult(agent, k);
      action := Some(decided);
    }

    /** `getMockAction` with the orchestrator's invariant kept. */
    method Script(k: string) returns (action: Option<AgentAction>)
      requires Valid()
      modifies this`mockActionIndex
      ensures Valid() && state.agents == old(state.agents) && state.tick == old(state.tick) && state.status == old(state.status)
      ensures state.delivered == old(state.delivered)
      ensures (action, mockActionIndex) == MockStep(script, old(mockActionIndex), k, state.tick)
    {
      action := GetMockAction(k);
    }

    /** The agent is announced thinking, then the model decides its action (`Deliberate`). */
    method Consult(agent: Agents.Agent, k: string) returns (action: AgentAction)
      requires Valid() && cognitiveLoop.Some? && k in state.agents && agent == state.agents[k]
      modifies state`sseControllers, state`delivered, Mind(), agent, agent.memory
      ensures Valid() && state.agents == old(state.agents) && state.tick == old(state.tick) && state.status == old(state.status)
      ensures mockActionIndex == old(mockActionIndex)
      ensures action == CognitiveLoops.Adopted(LanguageModels.ActionFrom(LanguageModels.Head(old(cognitiveLoop.value.client.actionReplies),
                                               LanguageModels.CallFails), k, 0), k, old(agent.emotion), old(agent.currentPlan)).0
      ensures state.sseControllers == SimulationStates.Open(old(state.sseControllers))
      ensures state.delivered == old(state.delivered) + SimulationStates.Deliveries(old(state.sseControllers), AgentThinking(k))
      ensures agent.lastAction == old(agent.lastAction) && agent.turnsSinceLastAction == old(agent.turnsSinceLastAction)
    {
      Announce(AgentThinking(k));
      action := Deliberate(agent, k);
    }

    /** Each message of `ms` broadcast in turn (`state.broadcast`). */
    method Proclaim(ms: seq<ServerMessage>)
      requires Valid()
      modifies state`sseControllers, state`delivered
      ensures Valid() && state.agents == old(state.agents) && state.tick == old(state.tick) && state.status == old(state.status)
      ensures state.delivered == old(state.delivered) + Fanout(old(state.sseControllers), ms)
      ensures state.sseControllers == if ms == [] then old(state.sseControllers) else SimulationStates.Open(old(state.sseControllers))
      ensures unchanged(state.agents.Values) && unchanged(SimulationStates.Memories(state.agents)) && unchanged(state.eventLog, state.eventLog.ids)
    {
      ghost var cs := state.sseControllers;
      ghost var sent := state.delivered;
      var i := 0;
      while i < |ms|
        invariant 0 <= i <= |ms| && Valid() && state.agents == old(state.agents) && state.tick == old(state.tick) && state.status == old(state.status)
        invariant state.delivered == sent + Fanout(cs, ms[..i])
        invariant i == 0 ==> state.sseControllers == cs
        invariant i > 0 ==> state.sseControllers == SimulationStates.Open(cs)
      {
        SimulationStates.BroadcastSettles(cs, ms[i]);
        ProclaimNext(cs, sent, ms, i);
        i := i + 1;
      }
      assert ms[..i] == ms;
    }

    /** One round of `Proclaim`: message `ms[i]` is broadcast. */
    method ProclaimNext(ghost cs: seq<SimulationStates.Controller>, ghost sent: seq<SimulationStates.Delivery>,
                        ms: seq<ServerMessage>, i: nat)
      requires Valid() && i < |ms|
      requires state.delivered == sent + Fanout(cs, ms[..i])
      requires SimulationStates.Open(state.sseControllers) == SimulationStates.Open(cs)
      modifies state`sseControllers, state`delivered
      ensures Valid() && state.agents == old(state.agents) && state.tick == old(state.tick) && state.status == old(state.status)
      ensures state.delivered == sent + Fanout(cs, ms[..i + 1])
      ensures state.sseControllers == SimulationStates.Open(cs)
    {
      ghost var earlier := Fanout(cs, ms[..i]);
      ghost var next := SimulationStates.Deliveries(state.sseControllers, ms[i]);
      FanoutNext(cs, state.sseControllers, ms, i);
      assert sent + (earlier + next) == (sent + earlier) + next;
      Announce(ms[i]);
    }

    /**
     * `reflectionEngine.reflect` for agent `k` at the present tick, with the
     * table's invariant kept: with no observations nothing happens;
     * otherwise the model's insights become reflection memories.
     */
    method Contemplate(agent: Agents.Agent, k: string) returns (reflections: seq<string>)
      requires Valid() && reflectionEngine.Some? && k in state.agents && agent == state.agents[k]
      modifies Muse(), agent.memory, state.memoryIds
      ensures Valid() && state.agents == old(state.agents) && state.tick == old(state.tick) && state.status == old(state.status)
      ensures agent.lastAction == old(agent.lastAction) && agent.turnsSinceLastAction == old(agent.turnsSinceLastAction)
      ensures state.sseControllers == old(state.sseControllers) && state.delivered == old(state.delivered)
      ensures state.eventLog.events == old(state.eventLog.events) && state.eventLog.ids.value == old(state.eventLog.ids.value)
      ensures if ReflectionEngines.RecentObservations(old(agent.memory.entries)) == [] then
          reflections == [] && agent.memory.entries == old(agent.memory.entries)
        else
          && reflections == LanguageModels.ReflectionsFrom(LanguageModels.Head(old(reflectionEngine.value.client.reflectionReplies),
                                                                                LanguageModels.ReflectionFails))
          && agent.memory.entries
             == old(agent.memory.entries) + ReflectionEngines.ReflectionEntries(old(state.memoryIds.value), state.tick, reflections)
    {
      ghost var before := state.memoryIds.value;
      SimulationStates.MindsOthers(state.agents, state.memoryIds, state.minds, k);
      reflections := reflectionEngine.value.Reconsider(agent, state.tick);
      SimulationStates.MindsJoin(state.agents, state.memoryIds, state.minds, k, before);
    }

    /**
     * The reflection check after an action: when there is a reflection
     * engine and a reflection is due, the agent reflects (`Confide`);
     * otherwise nothing happens.
     */
    method Introspect(agent: Agents.Agent, k: string) returns (messages: seq<ServerMessage>)
      requires Valid() && k in state.agents && agent == state.agents[k]
      modifies Muse(), agent.memory, state.memoryIds, state`sseControllers, state`delivered
      ensures Valid() && state.agents == old(state.agents) && state.tick == old(state.tick) && state.status == old(state.status)
      ensures agent.lastAction == old(agent.lastAction) && agent.turnsSinceLastAction == old(agent.turnsSinceLastAction)
      ensures state.eventLog.events == old(state.eventLog.events) && state.eventLog.ids.value == old(state.eventLog.ids.value)
      ensures reflectionEngine.None? || !ReflectionEngines.DueFor(old(agent.memory.entries)) ==>
        messages == [] && agent.memory.entries == old(agent.memory.entries) && state.delivered == old(state.delivered)
      ensures reflectionEngine.Some? && ReflectionEngines.DueFor(old(agent.memory.entries)) ==>
        var rs := LanguageModels.ReflectionsFrom(LanguageModels.Head(old(reflectionEngine.value.client.reflectionReplies),
                                                                      LanguageModels.ReflectionFails));
        && messages == ReflectionMessages(k, state.tick, rs, agent.emotion)
        && agent.memory.entries == old(agent.memory.entries) + ReflectionEngines.ReflectionEntries(old(state.memoryIds.value), state.tick, rs)
        && state.delivered == old(state.delivered) + Fanout(old(state.sseControllers), messages)
    {
      if reflectionEngine.None? {
        return [];
      }
      var due := reflectionEngine.value.ShouldReflect(agent);
      if !due {
        return [];
      }
      messages := Confide(agent, k);
    }

    /**
     * A due reflection: the agent reflects (`Contemplate`; a due agent
     * always has observations, so the model is asked) and every insight is
     * broadcast, in order, as a completed `think` carrying the agent's
     * emotion.
     */
    method Confide(agent: Agents.Agent, k: string) returns (messages: seq<ServerMessage>)
      requires Valid() && reflectionEngine.Some? && k in state.agents && agent == state.agents[k]
      requires ReflectionEngines.DueFor(agent.memory.entries)
      modifies Muse(), agent.memory, state.memoryIds, state`sseControllers, state`delivered
      ensures Valid() && state.agents == old(state.agents) && state.tick == old(state.tick) && state.status == old(state.status)
      ensures agent.lastAction == old(agent.lastAction) && agent.turnsSinceLastAction == old(agent.turnsSinceLastAction)
      ensures state.eventLog.events == old(state.eventLog.events) && state.eventLog.ids.value == old(state.eventLog.ids.value)
      ensures var rs := LanguageModels.ReflectionsFrom(LanguageModels.Head(old(reflectionEngine.value.client.reflectionReplies),
                                                                            LanguageModels.ReflectionFails));
        && messages == ReflectionMessages(k, state.tick, rs, agent.emotion)
        && agent.memory.entries == old(agent.memory.entries) + ReflectionEngines.ReflectionEntries(old(state.memoryIds.value), state.tick, rs)
        && state.delivered == old(state.delivered) + Fanout(old(state.sseControllers), messages)
    {
      ReflectionEngines.DueHasObservations(agent.memory.entries);
      var reflections := Contemplate(agent, k);
      messages := ReflectionMessages(k, state.tick, reflections, agent.emotion);
      Proclaim(messages);
    }

    /**
     * One agent's turn with the action it got: the action, stamped with the
     * present tick, is carried out (`Act`); then the reflection check
     * (`Introspect`). The action's messages come first, the reflections'
     * after.
     */
    method TakeTurn(agent: Agents.Agent, k: string, action: AgentAction) returns (messages: seq<ServerMessage>)
      requires Valid() && k in state.agents && agent == state.agents[k]
      modifies agent`lastAction, agent`status, agent`emotion, agent`tileX, agent`tileY, agent`currentZone, agent`turnsSinceLastAction,
               conversationManager, conversationManager.ids, state`sseControllers, state`delivered, state.spatialState,
               state.eventLog, state.eventLog.ids, SimulationStates.Memories(state.agents), state.memoryIds, Listener(), Muse()
      ensures Valid() && state.agents == old(state.agents) && state.tick == old(state.tick) && state.status == old(state.status)
      ensures agent.lastAction == Some(action.(tick := state.tick)) && agent.turnsSinceLastAction == 0
      ensures ActionMessages(k, action.(tick := state.tick), state.zoneRegistry) <= messages
      ensures state.eventLog.events == old(state.eventLog.events)
          + Logged(ActionEvent(agent.name, action.(tick := state.tick), state.zoneRegistry), state.eventLog.ids.value, state.tick, k, agent.name)
    {
      var done := Act(agent, k, action.(tick := state.tick));
      var more := Introspect(agent, k);
      messages := done + more;
    }

    /** `executeAction`, then the agent's waiting counter back to 0. */
    method Act(agent: Agents.Agent, k: string, action: AgentAction) returns (messages: seq<ServerMessage>)
      requires Valid() && k in state.agents && agent == state.agents[k]
      modifies agent`lastAction, agent`status, agent`emotion, agent`tileX, agent`tileY, agent`currentZone, agent`turnsSinceLastAction,
               conversationManager, conversationManager.ids, state`sseControllers, state`delivered, state.spatialState,
               state.eventLog, state.eventLog.ids, SimulationStates.Memories(state.agents), state.memoryIds, Listener()
      ensures Valid() && state.agents == old(state.agents) && state.tick == old(state.tick) && state.status == old(state.status)
      ensures agent.lastAction == Some(action) && agent.turnsSinceLastAction == 0
      ensures messages == ActionMessages(k, action, state.zoneRegistry)
      ensures state.eventLog.events == old(state.eventLog.events)
          + Logged(ActionEvent(agent.name, action, state.zoneRegistry), state.eventLog.ids.value, state.tick, k, agent.name)
    {
      messages := ExecuteAction(agent, k, action);
      Refresh(agent);
    }

    /** `agent.turnsSinceLastAction = 0`. */
    static method Refresh(agent: Agents.Agent)
      modifies agent`turnsSinceLastAction
      ensures agent.turnsSinceLastAction == 0
    {
      agent.turnsSinceLastAction := 0;
    }

    /**
     * One round of the tick's loop: agent `k` gets its action (the mock
     * script's next one in mock mode, otherwise `GetRealAction`); with none
     * it is skipped (`acted` is false), otherwise it takes its turn.
     */
    method Attend(k: string) returns (messages: seq<ServerMessage>, acted: bool)
      requires Valid() && k in state.agents
      modifies Footprint(k), state`sseControllers, state`delivered, this`mockActionIndex
      ensures Valid() && state.agents == old(state.agents) && state.tick == old(state.tick) && state.status == old(state.status)
      ensures useMock || cognitiveLoop.None? ==>
        && acted == MockStep(script, old(mockActionIndex), k, state.tick).0.Some?
        && (acted ==> state.agents[k].lastAction == MockStep(script, old(mockActionIndex), k, state.tick).0)
      ensures !useMock && cognitiveLoop.Some? ==>
        && acted
        && state.agents[k].lastAction
           == Some(CognitiveLoops.Adopted(LanguageModels.ActionFrom(LanguageModels.Head(old(cognitiveLoop.value.client.actionReplies),
                                          LanguageModels.CallFails), k, 0), k, old(state.agents[k].emotion),
                                          old(state.agents[k].currentPlan)).0.(tick := state.tick))
      ensures !acted ==> state.agents[k].lastAction == old(state.agents[k].lastAction)
      ensures Visited(Standings(state.agents)[k], k, acted, messages, old(state.agents[k].turnsSinceLastAction), state.tick,
                      state.zoneRegistry)
    {
      var agent := state.agents[k];
      var action: Option<AgentAction>;
      if useMock {
        action := GetMockAction(k);
      } else {
        action := GetRealAction(agent, k);
      }
      if action.Some? {
        messages := TakeTurn(agent, k, action.value);
        acted := true;
      } else {
        messages := [];
        acted := false;
      }
    }

    /**
     * Everything a tick may change besides the state's own fields: every
     * agent and its memory, the conversations, the grid, the event log,
     * the id counters and the language-model clients.
     */
    ghost function Reach(): set<object>
      reads state
    {
      {conversationManager as object, conversationManager.ids, state.spatialState, state.eventLog, state.eventLog.ids,
       state.memoryIds} + state.agents.Values + SimulationStates.Memories(state.agents) + Mind() + Muse()
    }

    /** What a visit to agent `k` may change: `Reach()` with that one agent in place of all of them. */
    ghost function Footprint(k: string): set<object>
      reads state
      requires k in state.agents
    {
      {state.agents[k] as object, conversationManager, conversationManager.ids, state.spatialState, state.eventLog,
       state.eventLog.ids, state.memoryIds} + SimulationStates.Memories(state.agents) + Mind() + Muse()
    }

    /** Agents are filed under their own ids, so no other agent lies in the footprint of `k`'s visit. */
    lemma Outside(k: string)
      requires k in state.agents && forall a :: a in state.agents ==> state.agents[a].id == a
      ensures forall a :: a in state.agents && a != k ==> state.agents[a] !in Footprint(k)
    {
      forall a | a in state.agents && a != k ensures state.agents[a] !in Footprint(k) {
        assert state.agents[a].id == a;
        assert (state.agents[a] as object) !in SimulationStates.Memories(state.agents);
      }
    }

    /** A visit's footprint lies within the loop's and leaves the state object and the orchestrator alone. */
    lemma Inside(k: string)
      requires k in state.agents
      ensures state !in Footprint(k) && this !in Footprint(k) && Footprint(k) <= Reach()
    {
    }

    /** The loop's footprint leaves the state object and the orchestrator itself alone. */
    lemma Apart()
      ensures state !in Reach() && this !in Reach()
    {
    }

    /**
     * One round of the tick's loop (`Attend`), seen from the loop: agent
     * `k`'s visit leaves every other agent's counter and last action as
     * they were.
     */
    method Visit(k: string) returns (messages: seq<ServerMessage>, acted: bool)
      requires Valid() && k in state.agents
      modifies Footprint(k), state`sseControllers, state`delivered, this`mockActionIndex
      ensures Valid() && state.agents == old(state.agents) && state.tick == old(state.tick) && state.status == old(state.status)
      ensures Visited(Standings(state.agents)[k], k, acted, messages, old(state.agents[k].turnsSinceLastAction), state.tick,
                      state.zoneRegistry)
      ensures forall a :: a in state.agents && a != k ==> Standings(state.agents)[a] == old(Standings(state.agents))[a]
    {
      ghost var was := Standings(state.agents);
      Outside(k);
      messages, acted := Attend(k);
      forall a | a in was && a != k ensures Standings(state.agents)[a] == was[a] {
      }
    }

    /**
     * `runTick`: the clock moves on one tick and the tick is announced
     * first (`Begin`); then every agent, longest-waiting first, gets its
     * action and takes its turn (`Round`). `order` is that turn order,
     * `acted[i]` says whether its i-th agent got an action and `parts[i]`
     * are that visit's messages.
     */
    method RunTick() returns (messages: seq<ServerMessage>, ghost order: seq<string>, ghost acted: seq<bool>,
                              ghost parts: seq<seq<ServerMessage>>)
      requires Valid()
      modifies state`tick, Reach(), state`sseControllers, state`delivered, this`mockActionIndex
      ensures Valid() && state.tick == old(state.tick) + 1 && state.status == old(state.status) && state.agents == old(state.agents)
      ensures Control() == old(Control())
      ensures order == TurnOrder(state.agentOrder, old(Turns(state.agents)))
      ensures Distinct(order) && forall a :: a in order <==> a in state.agents
      ensures messages == [TickMessage(state.tick, SimulationStates.TickLabel(state.tick))] + Concat(parts)
      ensures Outcome(Standings(state.agents), order, acted, parts, old(Turns(state.agents)), state.tick, state.zoneRegistry)
    {
      Apart();
      var tickMsg := Begin();
      var more;
      more, order, acted, parts := Round();
      messages := [tickMsg] + more;
    }

    /** The clock moves on one tick, and the tick message goes to every subscriber. */
    method Begin() returns (tickMsg: ServerMessage)
      requires Valid()
      modifies state`tick, state`sseControllers, state`delivered
      ensures Valid() && state.agents == old(state.agents) && state.tick == old(state.tick) + 1 && state.status == old(state.status)
      ensures state.agentOrder == old(state.agentOrder) && unchanged(state.agents.Values) && Control() == old(Control())
      ensures tickMsg == TickMessage(state.tick, SimulationStates.TickLabel(state.tick))
      ensures state.sseControllers == SimulationStates.Open(old(state.sseControllers))
      ensures state.delivered == old(state.delivered) + SimulationStates.Deliveries(old(state.sseControllers), tickMsg)
    {
      state.Advance();
      tickMsg := TickMessage(state.tick, SimulationStates.TickLabel(state.tick));
      Announce(tickMsg);
    }

    /**
     * The visit to the `i`-th agent in turn order, which moves the tick's
     * loop on by one (`Revisited`).
     */
    method Next(turns: seq<string>, i: nat, ghost waited: map<string, int>, ghost acted: seq<bool>,
                ghost parts: seq<seq<ServerMessage>>) returns (more: seq<ServerMessage>, did: bool)
      requires Valid() && i < |turns| && Distinct(turns) && (forall a :: a in turns <==> a in state.agents)
      requires waited.Keys == state.agents.Keys && |acted| == i && |parts| == i
      requires Kept(Standings(state.agents), turns, i, waited, acted, parts, state.tick, state.zoneRegistry)
      modifies Reach(), state`sseControllers, state`delivered, this`mockActionIndex
      ensures Valid() && state.agents == old(state.agents) && state.tick == old(state.tick) && state.status == old(state.status)
      ensures Concat(parts + [more]) == Concat(parts) + more
      ensures Kept(Standings(state.agents), turns, i + 1, waited, acted + [did], parts + [more], state.tick, state.zoneRegistry)
    {
      ghost var was := Standings(state.agents);
      Inside(turns[i]);
      more, did := Visit(turns[i]);
      Revisited(was, Standings(state.agents), turns, i, waited, acted, parts, did, more, state.tick, state.zoneRegistry);
    }

    /** Every agent of `turns` visited in that order (`Next`), their messages one after another. */
    method Sweep(turns: seq<string>, ghost before: map<string, int>)
      returns (messages: seq<ServerMessage>, ghost acted: seq<bool>, ghost parts: seq<seq<ServerMessage>>)
      requires Valid() && Distinct(turns) && (forall a :: a in turns <==> a in state.agents) && before.Keys == state.agents.Keys
      requires forall a :: a in state.agents ==> state.agents[a].turnsSinceLastAction == before[a] + 1
      modifies Reach(), state`sseControllers, state`delivered, this`mockActionIndex
      ensures Valid() && state.agents == old(state.agents) && state.tick == old(state.tick) && state.status == old(state.status)
      ensures state.agentOrder == old(state.agentOrder)
      ensures messages == Concat(parts)
      ensures Outcome(Standings(state.agents), turns, acted, parts, before, state.tick, state.zoneRegistry)
    {
      ghost var waited := Turns(state.agents);
      Apart();
      messages, acted, parts := [], [], [];
      var i := 0;
      while i < |turns|
        invariant 0 <= i <= |turns| && Valid()
        invariant state.agents == old(state.agents) && state.tick == old(state.tick) && state.status == old(state.status)
        invariant messages == Concat(parts)
        invariant Kept(Standings(state.agents), turns, i, waited, acted, parts, state.tick, state.zoneRegistry)
      {
        var more, did := Next(turns, i, waited, acted, parts);
        messages, acted, parts := messages + more, acted + [did], parts + [more];
        i := i + 1;
      }
      Finished(Standings(state.agents), turns, waited, before, acted, parts, state.tick, state.zoneRegistry);
    }

    /**
     * The tick's loop: every agent in turn order (`GetAgentsInTurnOrder`,
     * which raises every counter by one), each in turn (`Visit`), their
     * messages in that order.
     */
    method Round() returns (messages: seq<ServerMessage>, ghost order: seq<string>, ghost acted: seq<bool>,
                            ghost parts: seq<seq<ServerMessage>>)
      requires Valid()
      modifies Reach(), state`sseControllers, state`delivered, this`mockActionIndex
      ensures Valid() && state.agents == old(state.agents) && state.tick == old(state.tick) && state.status == old(state.status)
      ensures Control() == old(Control())
      ensures order == TurnOrder(state.agentOrder, old(Turns(state.agents)))
      ensures Distinct(order) && forall a :: a in order <==> a in state.agents
      ensures messages == Concat(parts)
      ensures Outcome(Standings(state.agents), order, acted, parts, old(Turns(state.agents)), state.tick, state.zoneRegistry)
    {
      ghost var before := Turns(state.agents);
      Apart();
      var turns := GetAgentsInTurnOrder();
      order := turns;
      messages, acted, parts := Sweep(turns, before);
    }

    // -------------------------------------------------------------------
    // Start, pause, resume, step (corrected; see LoopControl)
    // -------------------------------------------------------------------

    /**
     * The `loop` closure of `startLoop`, corrected: while running, a tick
     * and a new timer (`setTimeout(loop, intervalMs / speed)`); otherwise a
     * return that drops the spent handle.
     */
    method Loop()
      requires Valid()
      modifies state`tick, Reach(), state`sseControllers, state`delivered, this`mockActionIndex, this`holdsTimer, this`timerArmed
      ensures Valid() && Control() == LoopControl.FixedRun(old(Control())).after
      ensures state.tick == old(state.tick) + if LoopControl.FixedRun(old(Control())).ticked then 1 else 0
    {
      if state.status != Running {
        holdsTimer := false;
        return;
      }
      Apart();
      var sent;
      ghost var order, acted, parts;
      sent, order, acted, parts := RunTick();
      Schedule();
    }

    /** `this.tickInterval = setTimeout(loop, intervalMs / speed)`: a handle is held and the timer armed. */
    method Schedule()
      requires Valid()
      modifies this`holdsTimer, this`timerArmed
      ensures Valid() && holdsTimer && timerArmed
    {
      holdsTimer, timerArmed := true, true;
    }

    /** `startLoop`: nothing while a handle is held; otherwise the status becomes `running` and the loop runs at once. */
    method StartLoop()
      requires Valid()
      modifies state`tick, Reach(), state`sseControllers, state`delivered, this`mockActionIndex, this`holdsTimer, this`timerArmed,
               state`status
      ensures Valid() && Control() == LoopControl.FixedStartLoop(old(Control())).after
      ensures state.tick == old(state.tick) + if LoopControl.FixedStartLoop(old(Control())).ticked then 1 else 0
    {
      if holdsTimer {
        return;
      }
      state.SetStatus(Running);
      Loop();
    }

    /** The armed timer goes off and runs the loop; with none armed nothing happens. */
    method Fire()
      requires Valid()
      modifies state`tick, Reach(), state`sseControllers, state`delivered, this`mockActionIndex, this`holdsTimer, this`timerArmed
      ensures Valid() && Control() == LoopControl.FixedFire(old(Control())).after
      ensures state.tick == old(state.tick) + if LoopControl.FixedFire(old(Control())).ticked then 1 else 0
    {
      if !timerArmed {
        return;
      }
      timerArmed := false;
      Loop();
    }

    /** `pause`: the status becomes `paused`; a held timer is cleared (`clearTimeout`) and its handle dropped. */
    method Pause()
      requires Valid()
      modifies state`status, this`holdsTimer, this`timerArmed
      ensures Valid() && Control() == LoopControl.Pause(old(Control())).after && state.tick == old(state.tick)
    {
      state.SetStatus(Paused);
      if holdsTimer {
        timerArmed := false;
        holdsTimer := false;
      }
    }

    /** `resume`: nothing while running; otherwise `startLoop`. */
    method Resume()
      requires Valid()
      modifies state`tick, Reach(), state`sseControllers, state`delivered, this`mockActionIndex, this`holdsTimer, this`timerArmed,
               state`status
      ensures Valid() && Control() == LoopControl.FixedResume(old(Control())).after
      ensures state.tick == old(state.tick) + if LoopControl.FixedResume(old(Control())).ticked then 1 else 0
    {
      if state.status == Running {
        return;
      }
      StartLoop();
    }

    /** `step`, corrected: the loop is paused as by `pause`, then one tick runs and its messages are returned. */
    method Step() returns (messages: seq<ServerMessage>)
      requires Valid()
      modifies state`tick, Reach(), state`sseControllers, state`delivered, this`mockActionIndex, this`holdsTimer, this`timerArmed,
               state`status
      ensures Valid() && Control() == LoopControl.FixedStep(old(Control())).after && state.tick == old(state.tick) + 1
      ensures |messages| >= 1 && messages[0] == TickMessage(state.tick, SimulationStates.TickLabel(state.tick))
    {
      Pause();
      Apart();
      ghost var order, acted, parts;
      messages, order, acted, parts := RunTick();
    }
  }
}
