/**
 * The moderator's injection endpoint (src/app/api/simulation/inject/route.ts):
 * the text is delivered as an importance-8 observation to one agent or to
 * every agent, one injection event is logged, and a tick message is
 * broadcast. The request body arrives already parsed; a body that is not
 * JSON is not modelled.
 */
module InjectRoute {
  import opened Wrappers
  import opened Types
  import opened OrderedMap
  import Ids
  import Agents
  import EventLogs
  import SimulationStates
  import Perceptions

  /** The `text` field of the request body. */
  datatype TextField = Absent | NotAString | Text(value: string)

  /** `{ success: true }`, or the 400 "text is required". */
  datatype Response = Success | TextRequired

  const InjectionImportance := 8

  /** A JavaScript string used as a condition: present and not empty. */
  predicate Truthy(s: Option<string>) {
    s.Some? && s.value != ""
  }

  /** `!text || typeof text !== "string"` rejects the request. */
  predicate Accepted(text: TextField) {
    text.Text? && text.value != ""
  }

  /** What the agents are told: the prefix, then the text. */
  function Announcement(asInnerVoice: bool, text: string): string {
    (if asInnerVoice then "[Inner voice] " else "[Moderator announcement] ") + text
  }

  /** What the event log says. */
  function EventContent(asInnerVoice: bool, text: string): string {
    (if asInnerVoice then "Inner voice" else "Moderator") + ": " + text
  }

  /** `target || "all"`. */
  function AgentNameFor(target: Option<string>): string {
    if Truthy(target) then target.value else "all"
  }

  /**
   * The agents addressed, by id: the target alone when it names a known
   * agent, nobody for an unknown target, everyone in table order without one.
   */
  function Recipients(agents: map<string, Agents.Agent>, order: seq<string>, target: Option<string>): seq<string> {
    if Truthy(target) then (if target.value in agents then [target.value] else []) else order
  }

  /**
   * A targeted injection reaches that agent only (if it exists); an
   * untargeted one reaches every agent; nobody is addressed twice.
   */
  lemma RecipientsRule(agents: map<string, Agents.Agent>, order: seq<string>, target: Option<string>, k: string)
    requires SimulationStates.Roster(agents, order)
    ensures var r := Recipients(agents, order, target);
      && Distinct(r)
      && (forall a :: a in r ==> a in agents)
      && (k in agents ==> (k in r <==> !Truthy(target) || target == Some(k)))
  {
    var r := Recipients(agents, order, target);
    if Truthy(target) && target.value in agents {
      assert forall i, j :: 0 <= i < j < |r| ==> Apart(r, i, j);
    }
  }

  /**
   * `POST`: a request without a non-empty string `text` is turned away with
   * no effect. Otherwise each addressed agent, in order, gets one
   * importance-8 observation at the current tick, located in its current
   * zone; exactly one injection event is logged under the target's name
   * (or "all"), even when the target is unknown; and the current tick is
   * broadcast. The tick itself does not move.
   */
  method Post(state: SimulationStates.SimulationState, text: TextField, target: Option<string>, asInnerVoice: bool)
    returns (r: Response)
    requires state.Valid()
    modifies SimulationStates.Memories(state.agents), state.memoryIds, state.eventLog, state.eventLog.ids
    modifies state`sseControllers, state`delivered
    ensures state.Valid()
    ensures !Accepted(text) ==>
      && r == TextRequired
      && state.memoryIds.value == old(state.memoryIds.value)
      && SimulationStates.Contents(state.agents) == old(SimulationStates.Contents(state.agents))
      && state.eventLog.events == old(state.eventLog.events)
      && state.sseControllers == old(state.sseControllers) && state.delivered == old(state.delivered)
    ensures Accepted(text) ==>
      var ids := Recipients(state.agents, state.agentOrder, target);
      var base := old(state.memoryIds.value);
      && r == Success
      && state.memoryIds.value == base + |ids|
      && Perceptions.Delivered(old(SimulationStates.Contents(state.agents)), SimulationStates.Contents(state.agents), ids, base,
           Perceptions.Note(state.tick, Announcement(asInnerVoice, text.value), InjectionImportance,
                            Agents.ContentKeywords(Announcement(asInnerVoice, text.value)), None, None),
           SimulationStates.Whereabouts(state.agents))
      && state.eventLog.events == old(state.eventLog.events)
           + [SimulationEvent(Ids.MakeId(EventLogs.Prefix, state.eventLog.ids.value), state.tick, InjectionEvent,
                              None, Some(AgentNameFor(target)), EventContent(asInnerVoice, text.value), None)]
      && state.sseControllers == SimulationStates.Open(old(state.sseControllers))
      && state.delivered == old(state.delivered)
           + SimulationStates.Deliveries(old(state.sseControllers), TickMessage(state.tick, SimulationStates.TickLabel(state.tick)))
  {
    if !Accepted(text) {
      return TextRequired;
    }
    Inject(state, text.value, target, asInnerVoice);
    r := Success;
  }

  /** The accepted branch of `POST`: the announcement, then the event and the broadcast. */
  method Inject(state: SimulationStates.SimulationState, text: string, target: Option<string>, asInnerVoice: bool)
    requires state.Valid()
    modifies SimulationStates.Memories(state.agents), state.memoryIds, state.eventLog, state.eventLog.ids
    modifies state`sseControllers, state`delivered
    ensures state.Valid()
    ensures var ids := Recipients(state.agents, state.agentOrder, target);
      var base := old(state.memoryIds.value);
      && state.memoryIds.value == base + |ids|
      && Perceptions.Delivered(old(SimulationStates.Contents(state.agents)), SimulationStates.Contents(state.agents), ids, base,
           Perceptions.Note(state.tick, Announcement(asInnerVoice, text), InjectionImportance,
                            Agents.ContentKeywords(Announcement(asInnerVoice, text)), None, None),
           SimulationStates.Whereabouts(state.agents))
      && state.eventLog.events == old(state.eventLog.events)
           + [SimulationEvent(Ids.MakeId(EventLogs.Prefix, state.eventLog.ids.value), state.tick, InjectionEvent,
                              None, Some(AgentNameFor(target)), EventContent(asInnerVoice, text), None)]
      && state.sseControllers == SimulationStates.Open(old(state.sseControllers))
      && state.delivered == old(state.delivered)
           + SimulationStates.Deliveries(old(state.sseControllers), TickMessage(state.tick, SimulationStates.TickLabel(state.tick)))
  {
    var ids := Recipients(state.agents, state.agentOrder, target);
    RecipientsRule(state.agents, state.agentOrder, target, "");
    Perceptions.Tell(state, ids, Announcement(asInnerVoice, text), InjectionImportance, None, None);
    Publish(state, AgentNameFor(target), EventContent(asInnerVoice, text));
  }

  /**
   * The tail of an accepted injection: one injection event under `name`,
   * then the current tick broadcast; no agent's memories or zone change.
   */
  method Publish(state: SimulationStates.SimulationState, name: string, content: string)
    requires state.Valid()
    modifies state.eventLog, state.eventLog.ids, state`sseControllers, state`delivered
    ensures state.Valid() && state.agents == old(state.agents) && state.tick == old(state.tick)
    ensures state.memoryIds.value == old(state.memoryIds.value)
    ensures state.eventLog.events == old(state.eventLog.events)
      + [SimulationEvent(Ids.MakeId(EventLogs.Prefix, state.eventLog.ids.value), state.tick, InjectionEvent,
                         None, Some(name), content, None)]
    ensures state.sseControllers == SimulationStates.Open(old(state.sseControllers))
    ensures state.delivered == old(state.delivered)
      + SimulationStates.Deliveries(old(state.sseControllers), TickMessage(state.tick, SimulationStates.TickLabel(state.tick)))
    ensures SimulationStates.Contents(state.agents) == old(SimulationStates.Contents(state.agents))
    ensures SimulationStates.Whereabouts(state.agents) == old(SimulationStates.Whereabouts(state.agents))
  {
    var _ := state.Record(state.tick, InjectionEvent, None, Some(name), content, None);
    state.Broadcast(TickMessage(state.tick, SimulationStates.TickLabel(state.tick)));
    SimulationStates.Untouched(state.agents);
  }
}
