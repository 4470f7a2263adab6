/**
 * The shared record types of texperts.ai (src/types/index.ts): tiles and
 * zones of the office map, agent configuration and state, memory entries,
 * simulation events and the server-to-client message protocol.
 *
 * Wall-clock `timestamp` fields and the free-form `metadata` record are not
 * part of the model.
 */
module Types {
  import opened Wrappers

  datatype TileType = Floor | Wall | Furniture | Door

  datatype Tile = Tile(x: int, y: int)

  /** A zone rectangle in tile coordinates. */
  datatype Bounds = Bounds(x: int, y: int, width: int, height: int) {
    /** Half-open containment: the right and bottom edges are outside. */
    predicate Contains(tx: int, ty: int) {
      x <= tx < x + width && y <= ty < y + height
    }
  }

  datatype ZoneDefinition = ZoneDefinition(
    id: string,
    name: string,
    description: string,
    color: string,
    bounds: Bounds,
    objects: seq<string>,
    spawnTile: Tile)

  datatype Disposition = Collaborative | Adversarial | Neutral

  datatype AgentConfig = AgentConfig(
    id: string,
    name: string,
    role: string,
    color: string,
    disposition: Disposition,
    startingLocation: string,
    persona: string)

  /** What a run is started from: the scenario's name and briefing, its agents and the pacing. */
  datatype SimulationConfig = SimulationConfig(
    scenario: string,
    briefing: string,
    agents: seq<AgentConfig>,
    tickIntervalMs: int,
    speed: int)

  datatype Emotion = Confident | Uncertain | Skeptical | Excited | Alarmed | NeutralEmotion | Amused

  datatype ActionType = MoveTo | Speak | Think | React | Wait

  datatype AgentAction = AgentAction(
    agentId: string,
    tick: int,
    actionType: ActionType,
    destination: Option<string>,
    target: Option<string>,
    content: Option<string>,
    summary: Option<string>,
    emotion: Option<Emotion>,
    agreementScore: Option<real>,
    confidence: Option<real>,
    reasoning: Option<string>)

  /** An action with only the required fields set. */
  function BareAction(agentId: string, tick: int, actionType: ActionType, reasoning: Option<string>): AgentAction {
    AgentAction(agentId, tick, actionType, None, None, None, None, None, None, None, reasoning)
  }

  /** `action.summary || action.content || ""`: the first non-empty text of the two. */
  function ActionText(a: AgentAction): string {
    if a.summary.Some? && a.summary.value != "" then a.summary.value
    else if a.content.Some? && a.content.value != "" then a.content.value
    else ""
  }

  datatype AgentStatus = Idle | Moving | Speaking | Thinking | Planning

  datatype AgentState = AgentState(
    id: string,
    name: string,
    role: string,
    color: string,
    tileX: int,
    tileY: int,
    currentZone: Option<string>,
    currentPlan: Option<string>,
    status: AgentStatus,
    emotion: Emotion)

  datatype MemoryKind = Observation | Reflection | Plan

  datatype MemoryEntry = MemoryEntry(
    id: string,
    tick: int,
    kind: MemoryKind,
    content: string,
    importance: int,
    keywords: seq<string>,
    associatedAgent: Option<string>,
    location: Option<string>,
    lastAccessed: int)

  datatype SimStatus = Running | Paused | Stopped

  datatype EventType = SpeechEvent | ThoughtEvent | MovementEvent | ReflectionEvent | SystemEvent | InjectionEvent

  datatype SimulationEvent = SimulationEvent(
    id: string,
    tick: int,
    eventType: EventType,
    agentId: Option<string>,
    agentName: Option<string>,
    content: string,
    target: Option<string>)

  datatype SimulationSnapshot = SimulationSnapshot(
    tick: int,
    simulationTime: string,
    status: SimStatus,
    agents: seq<AgentState>,
    events: seq<SimulationEvent>)

  datatype BubbleType = SpeechBubble | ThoughtBubble

  datatype ServerMessage =
    | AgentMove(moveAgentId: string, path: seq<Tile>, speed: int)
    | AgentThinking(thinkingAgentId: string)
    | AgentStreamToken(tokenAgentId: string, token: string, bubbleType: BubbleType)
    | AgentActionComplete(action: AgentAction)
    | Perception(perceptionAgentId: string, perceptionContent: string, source: string)
    | ReflectionMessage(reflectionAgentId: string, reflections: seq<string>)
    | PhaseChange(phase: string, description: string)
    | StateSync(snapshot: SimulationSnapshot)
    | TickMessage(tick: int, simulationTime: string)
    | ErrorMessage(message: string)
}
