/**
 * One agent's perceive-plan-act cycle (src/simulation/CognitiveLoop.ts):
 * perceptions queued per agent until its next turn, a per-zone scrollback
 * of the last twenty conversation lines, and `think`, which builds the
 * agent's prompt, asks the language model for an action and falls back to
 * waiting when the call fails.
 */
module CognitiveLoops {
  import opened Wrappers
  import opened Types
  import JsText
  import MemoryStreams
  import Agents
  import SpatialStates
  import EnvironmentTrees
  import LanguageModels
  import PromptTemplates

  const HistoryCap := 20
  const FallbackReasoning := "Thinking..."

  /** The perceptions waiting for an agent (none when it has no queue). */
  function Pending(p: map<string, seq<string>>, agentId: string): seq<string> {
    if agentId in p then p[agentId] else []
  }

  /** The conversation lines kept for a zone (none when it has no history). */
  function History(h: map<string, seq<string>>, zoneId: string): seq<string> {
    if zoneId in h then h[zoneId] else []
  }

  /** `addPerception`. */
  function WithPerception(p: map<string, seq<string>>, agentId: string, perception: string): map<string, seq<string>> {
    p[agentId := Pending(p, agentId) + [perception]]
  }

  /** The same perception queued for each listed agent in turn. */
  function WithPerceptionEach(p: map<string, seq<string>>, ids: seq<string>, perception: string): map<string, seq<string>>
    decreases |ids|
  {
    if ids == [] then p else WithPerceptionEach(WithPerception(p, ids[0], perception), ids[1..], perception)
  }

  /** `addConversationTurn`: append, then drop from the front beyond twenty lines. */
  function WithConversationTurn(h: map<string, seq<string>>, zoneId: string, turn: string): map<string, seq<string>> {
    h[zoneId := JsText.LastN(History(h, zoneId) + [turn], HistoryCap)]
  }

  /** Several turns recorded one after the other in the same zone. */
  function WithConversationTurns(h: map<string, seq<string>>, zoneId: string, turns: seq<string>): map<string, seq<string>>
    decreases |turns|
  {
    if turns == [] then h else WithConversationTurns(WithConversationTurn(h, zoneId, turns[0]), zoneId, turns[1..])
  }

  /** `${a.name} (${a.role})` for a known agent, the raw id otherwise. */
  function NearbyNames(ids: seq<string>, agents: map<string, Agents.Agent>): (r: seq<string>)
    ensures |r| == |ids|
  {
    seq(|ids|, i requires 0 <= i < |ids| =>
      if ids[i] in agents then agents[ids[i]].name + " (" + agents[ids[i]].role + ")" else ids[i])
  }

  /** The action `think` answers with when the language model call throws. */
  function ThinkFallback(agentId: string): AgentAction {
    BareAction(agentId, 0, Wait, Some(FallbackReasoning))
  }

  /**
   * The action `think` returns and the agent's new emotion and plan: an
   * answer is returned as is, its emotion (when it has one) and its
   * reasoning (when not empty) adopted; a failed call gives the waiting
   * fallback and leaves the agent as it was.
   */
  function Adopted(reply: Option<AgentAction>, agentId: string, emotion: Emotion, plan: Option<string>)
    : (r: (AgentAction, Emotion, Option<string>))
    ensures reply.None? ==> r == (ThinkFallback(agentId), emotion, plan)
    ensures reply.Some? ==> r.0 == reply.value && r.2 == PlanFrom(reply.value.reasoning)
    ensures reply.Some? && reply.value.emotion.Some? ==> r.1 == reply.value.emotion.value
    ensures reply.Some? && reply.value.emotion.None? ==> r.1 == emotion
  {
    match reply
    case None => (ThinkFallback(agentId), emotion, plan)
    case Some(a) => (a, a.emotion.GetOr(emotion), PlanFrom(a.reasoning))
  }

  /** `action.reasoning || null`. */
  function PlanFrom(reasoning: Option<string>): Option<string> {
    if reasoning.Some? && reasoning.value != "" then reasoning else None
  }

  // ---------------------------------------------------------------------
  // Properties
  // ---------------------------------------------------------------------

  /** Perceptions queue first in, first out, and only the named agent's queue grows. */
  lemma PerceptionsFifo(p: map<string, seq<string>>, agentId: string, perception: string, other: string)
    ensures Pending(WithPerception(p, agentId, perception), agentId) == Pending(p, agentId) + [perception]
    ensures other != agentId ==> Pending(WithPerception(p, agentId, perception), other) == Pending(p, other)
  {
  }

  /** Queuing a perception for distinct agents gives each listed agent exactly one copy and no one else any. */
  lemma {:induction false} PerceptionEachOnce(p: map<string, seq<string>>, ids: seq<string>, perception: string, a: string)
    requires forall i, j :: 0 <= i < j < |ids| ==> ids[i] != ids[j]
    ensures a in ids ==> Pending(WithPerceptionEach(p, ids, perception), a) == Pending(p, a) + [perception]
    ensures a !in ids ==> Pending(WithPerceptionEach(p, ids, perception), a) == Pending(p, a)
    decreases |ids|
  {
    if ids != [] {
      var q := WithPerception(p, ids[0], perception);
      PerceptionEachOnce(q, ids[1..], perception, a);
      if a == ids[0] {
        assert a !in ids[1..] by {
          forall j | 0 <= j < |ids[1..]| ensures ids[1..][j] != a {
            assert ids[1..][j] == ids[j + 1];
          }
        }
      } else if a in ids {
        assert a in ids[1..] by {
          var i :| 0 <= i < |ids| && ids[i] == a;
          assert ids[1..][i - 1] == a;
        }
      }
    }
  }

  /** A recorded turn ends the zone's history, which never exceeds twenty lines. */
  lemma ConversationTurnCapped(h: map<string, seq<string>>, zoneId: string, turn: string)
    ensures var r := History(WithConversationTurn(h, zoneId, turn), zoneId);
      && |r| == JsText.Min(|History(h, zoneId)| + 1, HistoryCap)
      && r[|r| - 1] == turn
      && (|History(h, zoneId)| < HistoryCap ==> r == History(h, zoneId) + [turn])
  {
    JsText.LastNEnds(History(h, zoneId) + [turn], HistoryCap);
  }

  /** Recording a turn leaves the other zones' histories as they were. */
  lemma ConversationTurnElsewhere(h: map<string, seq<string>>, zoneId: string, turn: string, other: string)
    requires other != zoneId
    ensures History(WithConversationTurn(h, zoneId, turn), other) == History(h, other)
  {
  }

  /**
   * However many turns are recorded, the zone keeps exactly the newest
   * twenty lines of everything it was given, in order.
   */
  lemma {:induction false} ConversationKeepsNewest(h: map<string, seq<string>>, zoneId: string, turns: seq<string>)
    requires |History(h, zoneId)| <= HistoryCap
    ensures History(WithConversationTurns(h, zoneId, turns), zoneId) == JsText.LastN(History(h, zoneId) + turns, HistoryCap)
    decreases |turns|
  {
    var old_ := History(h, zoneId);
    if turns == [] {
      assert old_ + turns == old_;
      assert |old_| == JsText.Min(HistoryCap, |old_|);
      assert JsText.LastN(old_, HistoryCap) == old_[0..];
    } else {
      var next := WithConversationTurn(h, zoneId, turns[0]);
      var kept := JsText.LastN(old_ + [turns[0]], HistoryCap);
      assert History(next, zoneId) == kept;
      calc {
        History(WithConversationTurns(h, zoneId, turns), zoneId);
        History(WithConversationTurns(next, zoneId, turns[1..]), zoneId);
        { ConversationKeepsNewest(next, zoneId, turns[1..]); }
        JsText.LastN(kept + turns[1..], HistoryCap);
        { JsText.LastNAbsorbs(old_ + [turns[0]], turns[1..], HistoryCap); }
        JsText.LastN(old_ + [turns[0]] + turns[1..], HistoryCap);
        { assert old_ + [turns[0]] + turns[1..] == old_ + turns; }
        JsText.LastN(old_ + turns, HistoryCap);
      }
    }
  }

  /** The agents listed as nearby never include the agent itself. */
  lemma NearbyExcludesSelf(spatial: SpatialStates.SpatialState, agentId: string)
    requires spatial.Valid()
    ensures agentId !in spatial.GetAgentsInSameZone(agentId)
  {
    spatial.SameZoneMembers(agentId, agentId);
  }

  class CognitiveLoop {
    const client: LanguageModels.LanguageModel
    const envTree: EnvironmentTrees.EnvironmentTree
    const spatialState: SpatialStates.SpatialState
    /** The recency curve `exp(-0.1 * age)` used by memory retrieval; floating point is not modelled. */
    const recency: int -> real
    /** The text memories are retrieved for: always `PromptTemplates.RetrievalContext`. */
    const retrievalContext: string
    var pendingPerceptions: map<string, seq<string>>
    var conversationHistory: map<string, seq<string>>

    constructor (client: LanguageModels.LanguageModel, envTree: EnvironmentTrees.EnvironmentTree,
                 spatialState: SpatialStates.SpatialState, recency: int -> real)
      ensures this.client == client && this.envTree == envTree && this.spatialState == spatialState
      ensures this.recency == recency && retrievalContext == PromptTemplates.RetrievalContext
      ensures pendingPerceptions == map[] && conversationHistory == map[]
    {
      this.client := client;
      this.envTree := envTree;
      this.spatialState := spatialState;
      this.recency := recency;
      retrievalContext := PromptTemplates.RetrievalContext;
      pendingPerceptions := map[];
      conversationHistory := map[];
    }

    method AddPerception(agentId: string, perception: string)
      modifies this
      ensures pendingPerceptions == WithPerception(old(pendingPerceptions), agentId, perception)
      ensures conversationHistory == old(conversationHistory)
    {
      if agentId !in pendingPerceptions {
        pendingPerceptions := pendingPerceptions[agentId := []];
      }
      pendingPerceptions := pendingPerceptions[agentId := pendingPerceptions[agentId] + [perception]];
    }

    method AddConversationTurn(zoneId: string, turn: string)
      modifies this
      ensures conversationHistory == WithConversationTurn(old(conversationHistory), zoneId, turn)
      ensures pendingPerceptions == old(pendingPerceptions)
    {
      if zoneId !in conversationHistory {
        conversationHistory := conversationHistory[zoneId := []];
      }
      var history := conversationHistory[zoneId] + [turn];
      if |history| > HistoryCap {
        history := history[|history| - HistoryCap..];
      }
      conversationHistory := conversationHistory[zoneId := history];
    }

    /** The first half of `think`: the prompt, built from the agent's queue, which is emptied. */
    method PreparePrompt(agent: Agents.Agent, agents: map<string, Agents.Agent>) returns (systemPrompt: string)
      requires agent.Valid() && spatialState.Valid()
      modifies this, agent.memory
      ensures agent.Valid()
      ensures pendingPerceptions == old(pendingPerceptions)[agent.id := []]
      ensures conversationHistory == old(conversationHistory)
      ensures var picks := MemoryStreams.TopPositions(old(agent.memory.entries), PromptTemplates.RetrievalTick, MemoryStreams.ExtractKeywords(retrievalContext), PromptTemplates.MemoryCount, recency);
        var stamped := MemoryStreams.Stamp(old(agent.memory.entries), picks, PromptTemplates.RetrievalTick);
        && agent.memory.entries == stamped
        && systemPrompt == PromptTemplates.SystemPrompt(PromptTemplates.PromptInputs(
             agent.name, agent.role, agent.persona, old(agent.currentPlan), old(agent.currentZone),
             MemoryStreams.At(stamped, picks), stamped,
             envTree.ToNaturalLanguage(),
             old(NearbyNames(spatialState.GetAgentsInSameZone(agent.id), agents)),
             History(old(conversationHistory), PromptTemplates.OrElse(old(agent.currentZone), "")),
             Pending(old(pendingPerceptions), agent.id)))
    {
      var nearbyIds := spatialState.GetAgentsInSameZone(agent.id);
      var nearbyNames := NearbyNames(nearbyIds, agents);
      var zoneId := PromptTemplates.OrElse(agent.currentZone, "");
      var conversation := History(conversationHistory, zoneId);
      var perceptions := Pending(pendingPerceptions, agent.id);
      pendingPerceptions := pendingPerceptions[agent.id := []];
      systemPrompt := PromptTemplates.BuildSystemPrompt(agent, envTree, nearbyNames, conversation, perceptions,
                                                        retrievalContext, recency);
    }

    /**
     * `think`: sends the agent's prompt, which hands over its queued
     * perceptions and empties the queue; on an answer the agent takes its
     * emotion (when it has one) and its reasoning as plan; when the call
     * throws the agent is left as it was and waits.
     */
    method Think(agent: Agents.Agent, agents: map<string, Agents.Agent>) returns (action: AgentAction)
      requires agent.Valid() && spatialState.Valid()
      modifies this, agent, agent.memory, client
      ensures agent.Valid()
      ensures pendingPerceptions == old(pendingPerceptions)[agent.id := []]
      ensures conversationHistory == old(conversationHistory)
      ensures var picks := MemoryStreams.TopPositions(old(agent.memory.entries), PromptTemplates.RetrievalTick, MemoryStreams.ExtractKeywords(retrievalContext), PromptTemplates.MemoryCount, recency);
        var stamped := MemoryStreams.Stamp(old(agent.memory.entries), picks, PromptTemplates.RetrievalTick);
        && agent.memory.entries == stamped
        && client.actionPrompts == old(client.actionPrompts) + [PromptTemplates.SystemPrompt(PromptTemplates.PromptInputs(
             agent.name, agent.role, agent.persona, old(agent.currentPlan), old(agent.currentZone),
             MemoryStreams.At(stamped, picks), stamped,
             envTree.ToNaturalLanguage(),
             old(NearbyNames(spatialState.GetAgentsInSameZone(agent.id), agents)),
             History(old(conversationHistory), PromptTemplates.OrElse(old(agent.currentZone), "")),
             Pending(old(pendingPerceptions), agent.id)))]
      ensures client.actionReplies == LanguageModels.Tail(old(client.actionReplies))
      ensures (action, agent.emotion, agent.currentPlan)
           == Adopted(LanguageModels.ActionFrom(LanguageModels.Head(old(client.actionReplies), LanguageModels.CallFails), agent.id, 0),
                      agent.id, old(agent.emotion), old(agent.currentPlan))
      ensures action.agentId == agent.id && action.tick == 0
      ensures agent.tileX == old(agent.tileX) && agent.tileY == old(agent.tileY) && agent.currentZone == old(agent.currentZone)
      ensures agent.status == old(agent.status) && agent.lastAction == old(agent.lastAction)
      ensures agent.turnsSinceLastAction == old(agent.turnsSinceLastAction)
    {
      var systemPrompt := PreparePrompt(agent, agents);
      var reply := client.GetAgentActionStreaming(agent.id, 0, systemPrompt);
      assert agent.Valid();
      action := Adopt(agent, reply);
      assert agent.Valid();
    }

    /**
     * `think` as its caller sees it: the model's next reply is consumed and
     * the agent adopts its action, emotion and plan (the fallback when the
     * call fails); the agent's perceptions are consumed; nothing else about
     * the agent changes, and its memory stays well formed.
     */
    method Decide(agent: Agents.Agent, agents: map<string, Agents.Agent>) returns (action: AgentAction)
      requires agent.Valid() && spatialState.Valid()
      modifies this, agent, agent.memory, client
      ensures agent.Valid()
      ensures client.actionReplies == LanguageModels.Tail(old(client.actionReplies))
      ensures (action, agent.emotion, agent.currentPlan)
           == Adopted(LanguageModels.ActionFrom(LanguageModels.Head(old(client.actionReplies), LanguageModels.CallFails), agent.id, 0),
                      agent.id, old(agent.emotion), old(agent.currentPlan))
      ensures pendingPerceptions == old(pendingPerceptions)[agent.id := []]
      ensures conversationHistory == old(conversationHistory)
      ensures agent.tileX == old(agent.tileX) && agent.tileY == old(agent.tileY) && agent.currentZone == old(agent.currentZone)
      ensures agent.status == old(agent.status) && agent.lastAction == old(agent.lastAction)
      ensures agent.turnsSinceLastAction == old(agent.turnsSinceLastAction)
    {
      action := Think(agent, agents);
    }

    /** The second half of `think`: what the agent takes from the model's answer. */
    static method Adopt(agent: Agents.Agent, reply: Option<AgentAction>) returns (action: AgentAction)
      modifies agent
      ensures (action, agent.emotion, agent.currentPlan) == Adopted(reply, agent.id, old(agent.emotion), old(agent.currentPlan))
      ensures agent.tileX == old(agent.tileX) && agent.tileY == old(agent.tileY) && agent.currentZone == old(agent.currentZone)
      ensures agent.status == old(agent.status) && agent.lastAction == old(agent.lastAction)
      ensures agent.turnsSinceLastAction == old(agent.turnsSinceLastAction)
    {
      if reply.Some? {
        action := reply.value;
        if action.emotion.Some? {
          agent.emotion := action.emotion.value;
        }
        agent.currentPlan := PlanFrom(action.reasoning);
      } else {
        action := ThinkFallback(agent.id);
      }
    }
  }
}
