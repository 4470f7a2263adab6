/**
 * The language model behind the agents (src/simulation/llm/ClaudeClient.ts),
 * as an oracle. The network call itself is not modelled: each call consumes
 * the next scripted reply, and the oracle turns that reply into a result the
 * way the client does, with the client's own fallbacks when the reply has
 * no tool call, is not JSON, or is missing.
 */
module LanguageModels {
  import opened Wrappers
  import opened Types
  import JsText

  /** The fields the model may fill in an `agent_action` tool call. */
  datatype ToolInput = ToolInput(
    actionType: Option<ActionType>,
    destination: Option<string>,
    target: Option<string>,
    content: Option<string>,
    summary: Option<string>,
    emotion: Option<Emotion>,
    agreementScore: Option<real>,
    confidence: Option<real>,
    reasoning: Option<string>)

  /** What one streamed action call comes back with. */
  datatype ActionReply =
    | CallFails          // the stream rejects: the call throws
    | NoToolUse          // the final message has no tool call
    | ToolUse(input: ToolInput)

  /** What one reflection call comes back with. */
  datatype ReflectionReply =
    | ReflectionFails          // the request rejects
    | NonTextReply             // the first content block is not text
    | JsonArray(items: seq<string>)
    | PlainText(text: string)  // text that does not parse as JSON

  const NoActionReasoning := "Could not determine action"

  /**
   * The action the client returns for a reply, or nothing when the call
   * throws: the agent id and tick are always the caller's, a missing
   * action type falls back to `wait`.
   */
  function ActionFrom(reply: ActionReply, agentId: string, tick: int): (r: Option<AgentAction>)
    ensures r.None? <==> reply.CallFails?
    ensures r.Some? ==> r.value.agentId == agentId && r.value.tick == tick
    ensures reply.NoToolUse? ==> r == Some(BareAction(agentId, tick, Wait, Some(NoActionReasoning)))
  {
    match reply
    case CallFails => None
    case NoToolUse => Some(BareAction(agentId, tick, Wait, Some(NoActionReasoning)))
    case ToolUse(i) =>
      Some(AgentAction(agentId, tick, i.actionType.GetOr(Wait), i.destination, i.target, i.content,
                       i.summary, i.emotion, i.agreementScore, i.confidence, i.reasoning))
  }

  /** `l.trim().length > 0`: the line has a character other than white space. */
  predicate NotBlank(l: string) {
    exists i :: 0 <= i < |l| && !JsText.IsSpace(l[i])
  }

  /**
   * The reflections the client returns: the parsed array; for text that is
   * not JSON, its non-blank lines, at most three; nothing on any failure.
   */
  function ReflectionsFrom(reply: ReflectionReply): (r: seq<string>)
    ensures reply.PlainText? ==> |r| <= 3 && forall l :: l in r ==> NotBlank(l) && '\n' !in l
  {
    match reply
    case ReflectionFails => []
    case NonTextReply => []
    case JsonArray(items) => items
    case PlainText(text) =>
      var lines := JsText.Filter(JsText.SplitOn(text, '\n'), NotBlank);
      SplitOnFree(text);
      JsText.SliceTo(lines, 3)
  }

  /** The pieces of a split contain no separator. */
  lemma {:induction false} SplitOnFree(s: string)
    ensures forall p :: p in JsText.SplitOn(s, '\n') ==> '\n' !in p
    decreases |s|
  {
    var e := JsText.IndexOf(s, '\n');
    if e < |s| {
      SplitOnFree(s[e + 1..]);
    }
  }

  /** The next reply of a script and what is left of it; an exhausted script fails. */
  function Head<T>(replies: seq<T>, otherwise: T): T {
    if replies == [] then otherwise else replies[0]
  }

  function Tail<T>(replies: seq<T>): seq<T> {
    if replies == [] then [] else replies[1..]
  }

  class LanguageModel {
    /** The replies still to come, oldest first. */
    var actionReplies: seq<ActionReply>
    var reflectionReplies: seq<ReflectionReply>
    /** Every prompt sent so far, in order. */
    var actionPrompts: seq<string>
    var reflectionPrompts: seq<string>

    constructor (actionScript: seq<ActionReply>, reflectionScript: seq<ReflectionReply>)
      ensures actionReplies == actionScript && reflectionReplies == reflectionScript
      ensures actionPrompts == [] && reflectionPrompts == []
    {
      actionReplies := actionScript;
      reflectionReplies := reflectionScript;
      actionPrompts := [];
      reflectionPrompts := [];
    }

    /** `getAgentActionStreaming`: nothing when the call throws. Streamed tokens are not modelled. */
    method GetAgentActionStreaming(agentId: string, tick: int, systemPrompt: string) returns (r: Option<AgentAction>)
      modifies this
      ensures r == ActionFrom(Head(old(actionReplies), CallFails), agentId, tick)
      ensures actionReplies == Tail(old(actionReplies))
      ensures actionPrompts == old(actionPrompts) + [systemPrompt]
      ensures reflectionReplies == old(reflectionReplies) && reflectionPrompts == old(reflectionPrompts)
    {
      var reply := Head(actionReplies, CallFails);
      actionReplies := Tail(actionReplies);
      actionPrompts := actionPrompts + [systemPrompt];
      r := ActionFrom(reply, agentId, tick);
    }

    /** `generateReflections`: never throws; failures come back as an empty list. */
    method GenerateReflections(prompt: string) returns (r: seq<string>)
      modifies this
      ensures r == ReflectionsFrom(Head(old(reflectionReplies), ReflectionFails))
      ensures reflectionReplies == Tail(old(reflectionReplies))
      ensures reflectionPrompts == old(reflectionPrompts) + [prompt]
      ensures actionReplies == old(actionReplies) && actionPrompts == old(actionPrompts)
    {
      var reply := Head(reflectionReplies, ReflectionFails);
      reflectionReplies := Tail(reflectionReplies);
      reflectionPrompts := reflectionPrompts + [prompt];
      r := ReflectionsFrom(reply);
    }
  }
}
