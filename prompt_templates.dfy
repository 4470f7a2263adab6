/**
 * The prompts the agents are driven by (src/simulation/llm/PromptTemplates.ts):
 * the system prompt assembled from an agent's memories, reflections, world
 * description, neighbours, conversation and fresh perceptions, each section
 * with its fixed fallback text; the reflection prompt; and the
 * `agent_action` tool the model must answer with.
 */
module PromptTemplates {
  import opened Wrappers
  import opened Types
  import JsText
  import MemoryStreams
  import Agents
  import EnvironmentTrees

  /** The fixed retrieval context and limits `buildSystemPrompt` uses. */
  const RetrievalContext := "pivot B2B B2C discussion"
  const RetrievalTick := 0
  const MemoryCount := 10
  const ReflectionCount := 3
  const ConversationLines := 5

  const NoPlan := "None yet \U{2014} decide what to do."
  const NoMemories := "No memories yet."
  const NoReflections := "None yet."
  const UnknownZone := "unknown"
  const NobodyNearby := "none"
  const NoConversation := "No active conversation."
  const NothingNew := "Nothing new since your last turn."

  /** The memory type as it is spelt in the prompt. */
  function KindName(k: MemoryKind): string {
    match k
    case Observation => "observation"
    case Reflection => "reflection"
    case Plan => "plan"
  }

  /** `${i + 1}. ${text}`. */
  function NumberedLine(i: nat, text: string): string {
    JsText.NatToString(i + 1) + ". " + text
  }

  function NumberedLines(texts: seq<string>): (r: seq<string>)
    ensures |r| == |texts|
    ensures forall i :: 0 <= i < |texts| ==> r[i] == NumberedLine(i, texts[i])
  {
    seq(|texts|, i requires 0 <= i < |texts| => NumberedLine(i, texts[i]))
  }

  /** `[${m.type}] ${m.content}`. */
  function MemoryTexts(ms: seq<MemoryEntry>): (r: seq<string>)
    ensures |r| == |ms|
    ensures forall i :: 0 <= i < |ms| ==> r[i] == "[" + KindName(ms[i].kind) + "] " + ms[i].content
  {
    seq(|ms|, i requires 0 <= i < |ms| => "[" + KindName(ms[i].kind) + "] " + ms[i].content)
  }

  function ReflectionLines(rs: seq<MemoryEntry>): (r: seq<string>)
    ensures |r| == |rs|
    ensures forall i :: 0 <= i < |rs| ==> r[i] == "- " + rs[i].content
  {
    seq(|rs|, i requires 0 <= i < |rs| => "- " + rs[i].content)
  }

  function MemoriesSection(ms: seq<MemoryEntry>): string {
    if |ms| > 0 then JsText.Join(NumberedLines(MemoryTexts(ms)), "\n") else NoMemories
  }

  function ReflectionsSection(rs: seq<MemoryEntry>): string {
    if |rs| > 0 then JsText.Join(ReflectionLines(rs), "\n") else NoReflections
  }

  /** `x || fallback` for an optional string: the empty string falls back too. */
  function OrElse(x: Option<string>, fallback: string): string {
    if x.Some? && x.value != "" then x.value else fallback
  }

  function NearbySection(nearby: seq<string>): string {
    if |nearby| > 0 then JsText.Join(nearby, ", ") else NobodyNearby
  }

  function ConversationSection(conversation: seq<string>): string {
    if |conversation| > 0 then JsText.Join(JsText.LastN(conversation, ConversationLines), "\n") else NoConversation
  }

  function PerceptionsSection(perceptions: seq<string>): string {
    if |perceptions| > 0 then JsText.Join(perceptions, "\n") else NothingNew
  }

  /**
   * Everything the system prompt is built from: `memories` are the retrieved
   * ones, `stream` the whole memory stream, whose newest reflections the
   * prompt lists.
   */
  datatype PromptInputs = PromptInputs(
    name: string,
    role: string,
    persona: string,
    currentPlan: Option<string>,
    currentZone: Option<string>,
    memories: seq<MemoryEntry>,
    stream: seq<MemoryEntry>,
    world: string,
    nearby: seq<string>,
    conversation: seq<string>,
    perceptions: seq<string>)

  const Options :=
    "Decide your next action. Use the `agent_action` tool to respond. Your options:\n"
    + "- move_to(destination): Walk to a location. Pick from the available locations list.\n"
    + "- speak(target, message): Say something. Target a specific agent or \"all\".\n"
    + "- think(reflection): Think to yourself. This is private \U{2014} no one else sees it.\n"
    + "- react(target, emoji): Quick emotional reaction.\n"
    + "- wait(): Do nothing this turn. Observe.\n"

  const Guidelines :=
    "- Be concise: speeches should be 1-3 sentences. Thoughts should be 1 sentence.\n"
    + "- Take specific positions with concrete details (numbers, examples).\n"
    + "- Reference things other agents have said when responding.\n"
    + "- Your summary field should be \U{2264}80 characters \U{2014} a punchy one-liner version of your content.\n"
    + "- If you're moving to a location, briefly explain why in your reasoning field.\n"
    + "- Prefer speaking over waiting if there's an active discussion."

  /** The places in the system prompt template that are filled from the inputs. */
  datatype Slot = Name | Role | Persona | CurrentPlan | Memories | Reflections | World | Zone | Nearby | Conversation | Perceptions

  /** A piece of the template: fixed text, or a slot. */
  datatype Piece = Text(text: string) | Fill(slot: Slot)

  /** The text a slot is filled with, its section's fallback when there is nothing to show. */
  function SlotText(slot: Slot, p: PromptInputs): string {
    match slot
    case Name => p.name
    case Role => p.role
    case Persona => p.persona
    case CurrentPlan => OrElse(p.currentPlan, NoPlan)
    case Memories => MemoriesSection(p.memories)
    case Reflections => ReflectionsSection(MemoryStreams.Recent(p.stream, Some(Reflection), ReflectionCount))
    case World => p.world
    case Zone => OrElse(p.currentZone, UnknownZone)
    case Nearby => NearbySection(p.nearby)
    case Conversation => ConversationSection(p.conversation)
    case Perceptions => PerceptionsSection(p.perceptions)
  }

  /** The template with its slots filled in, piece after piece. */
  function Render(template: seq<Piece>, p: PromptInputs): string {
    if template == [] then ""
    else (match template[0] case Text(t) => t case Fill(slot) => SlotText(slot, p)) + Render(template[1..], p)
  }

  /** The system prompt template, in the order the sections are written. */
  const SystemTemplate: seq<Piece> := [
    Text("You are "), Fill(Name), Text(", "), Fill(Role), Text(" at a startup.\n\n"),
    Text("## Your Persona\n"), Fill(Persona), Text("\n\n"),
    Text("## Your Cognitive State\n"),
    Text("Current plan: "), Fill(CurrentPlan), Text("\n"),
    Text("Key memories (most relevant to current context):\n"), Fill(Memories), Text("\n\n"),
    Text("Recent reflections:\n"), Fill(Reflections), Text("\n\n"),
    Text("## The World\n"), Fill(World), Text("\n"),
    Text("You are currently at: "), Fill(Zone), Text("\n"),
    Text("Nearby agents: "), Fill(Nearby), Text("\n\n"),
    Text("## Current Conversation\n"), Fill(Conversation), Text("\n\n"),
    Text("## What Just Happened\n"), Fill(Perceptions), Text("\n\n"),
    Text("## Instructions\n"), Text(Options), Text("\n"),
    Text("Guidelines:\n"),
    Text("- Stay in character as "), Fill(Name), Text(" at all times.\n"),
    Text(Guidelines)]

  /** The system prompt text. */
  function SystemPrompt(p: PromptInputs): string {
    Render(SystemTemplate, p)
  }

  /**
   * `buildSystemPrompt`: retrieves the agent's top ten memories for the
   * retrieval context at tick 0, which stamps those memories as accessed at
   * tick 0, then lists the three newest reflections of the stamped stream
   * (`getRecent` is taken when the template's reflection slot is filled).
   * The context is always `RetrievalContext`, passed in by the caller.
   */
  method BuildSystemPrompt(agent: Agents.Agent, envTree: EnvironmentTrees.EnvironmentTree, nearbyAgents: seq<string>,
                           conversationHistory: seq<string>, newPerceptions: seq<string>,
                           context: string, recency: int -> real)
    returns (prompt: string)
    requires agent.Valid()
    modifies agent.memory
    ensures agent.Valid()
    ensures var picks := MemoryStreams.TopPositions(old(agent.memory.entries), RetrievalTick, MemoryStreams.ExtractKeywords(context), MemoryCount, recency);
      var stamped := MemoryStreams.Stamp(old(agent.memory.entries), picks, RetrievalTick);
      && agent.memory.entries == stamped
      && prompt == SystemPrompt(PromptInputs(
           agent.name, agent.role, agent.persona, old(agent.currentPlan), old(agent.currentZone),
           MemoryStreams.At(stamped, picks), stamped,
           envTree.ToNaturalLanguage(), nearbyAgents, conversationHistory, newPerceptions))
  {
    var topMemories := agent.memory.Retrieve(RetrievalTick, context, MemoryCount, recency);
    prompt := SystemPrompt(PromptInputs(
      agent.name, agent.role, agent.persona, agent.currentPlan, agent.currentZone,
      topMemories, agent.memory.entries, envTree.ToNaturalLanguage(), nearbyAgents,
      conversationHistory, newPerceptions));
  }

  const ReflectionInstructions :=
    "Based on these observations, generate exactly 3 high-level insights or questions. These should be:\n"
    + "- Synthetic (combine multiple observations into a higher-level understanding)\n"
    + "- Relevant to the B2B-to-B2C pivot discussion\n"

  /** `buildReflectionPrompt`: the observations numbered from 1, in the order given. */
  function ReflectionPrompt(agentName: string, agentRole: string, observations: seq<string>): string {
    "You are " + agentName + ". Here are your most recent observations:\n"
    + JsText.Join(NumberedLines(observations), "\n") + "\n\n"
    + ReflectionInstructions
    + "- Grounded in your role as " + agentRole + "\n\n"
    + "Format each as a single sentence. Respond with a JSON array of 3 strings."
  }

  // ---------------------------------------------------------------------
  // The action tool
  // ---------------------------------------------------------------------

  datatype PropertySchema = PropertySchema(name: string, jsonType: string, enumValues: seq<string>, description: string)

  datatype ToolDefinition = ToolDefinition(name: string, description: string, properties: seq<PropertySchema>, required: seq<string>)

  /** The wire name of each action type. */
  function ActionTypeName(t: ActionType): string {
    match t
    case MoveTo => "move_to"
    case Speak => "speak"
    case Think => "think"
    case React => "react"
    case Wait => "wait"
  }

  function EmotionName(e: Emotion): string {
    match e
    case Confident => "confident"
    case Uncertain => "uncertain"
    case Skeptical => "skeptical"
    case Excited => "excited"
    case Alarmed => "alarmed"
    case NeutralEmotion => "neutral"
    case Amused => "amused"
  }

  /** Reading a wire name back. */
  function ParseActionType(s: string): Option<ActionType> {
    if s == "move_to" then Some(MoveTo)
    else if s == "speak" then Some(Speak)
    else if s == "think" then Some(Think)
    else if s == "react" then Some(React)
    else if s == "wait" then Some(Wait)
    else None
  }

  function ParseEmotion(s: string): Option<Emotion> {
    if s == "confident" then Some(Confident)
    else if s == "uncertain" then Some(Uncertain)
    else if s == "skeptical" then Some(Skeptical)
    else if s == "excited" then Some(Excited)
    else if s == "alarmed" then Some(Alarmed)
    else if s == "neutral" then Some(NeutralEmotion)
    else if s == "amused" then Some(Amused)
    else None
  }

  const ActionTypeEnum := ["move_to", "speak", "think", "react", "wait"]
  const EmotionEnum := ["confident", "uncertain", "skeptical", "excited", "alarmed", "neutral", "amused"]

  const AgentActionTool := ToolDefinition(
    "agent_action",
    "Execute your next action in the simulation. Choose one action type and fill in the relevant fields.",
    [
      PropertySchema("action_type", "string", ActionTypeEnum, "The type of action to take"),
      PropertySchema("destination", "string", [], "For move_to: the location name to walk to (e.g., 'boardroom', 'library', 'office_visionary')"),
      PropertySchema("target", "string", [], "For speak/react: agent name, 'all', or 'self' (for think)"),
      PropertySchema("content", "string", [], "For speak/think/react: the full text content"),
      PropertySchema("summary", "string", [], "A punchy \U{2264}80 character summary for the speech bubble display"),
      PropertySchema("emotion", "string", EmotionEnum, "The emotional tone of this action"),
      PropertySchema("agreement_score", "number", [], "For speak: -1.0 (strongly disagree) to 1.0 (strongly agree) with the prior speaker"),
      PropertySchema("confidence", "number", [], "0.0 to 1.0 confidence in your statement"),
      PropertySchema("reasoning", "string", [], "Brief internal reasoning for this action (shown in thought bubble or inspector)")
    ],
    ["action_type", "reasoning"])

  /** The schema of the property with the given name, if the tool declares one. */
  function PropertyNamed(props: seq<PropertySchema>, name: string): (r: Option<PropertySchema>)
    ensures r.Some? ==> r.value in props && r.value.name == name
    ensures r.None? <==> forall p :: p in props ==> p.name != name
  {
    if props == [] then None
    else if props[0].name == name then Some(props[0])
    else PropertyNamed(props[1..], name)
  }

  // ---------------------------------------------------------------------
  // Properties
  // ---------------------------------------------------------------------

  /** A section falls back to its fixed text exactly when there is nothing to list. */
  lemma MemoriesFallbackIffEmpty(ms: seq<MemoryEntry>)
    ensures MemoriesSection(ms) == NoMemories <==> ms == []
  {
    if ms != [] {
      var lines := NumberedLines(MemoryTexts(ms));
      JsText.JoinStartsWith(lines, "\n");
      assert JsText.NatToString(1) == "1";
      assert lines[0][0] == '1';
      assert MemoriesSection(ms)[0] == '1';
    }
  }

  lemma ReflectionsFallbackIffEmpty(rs: seq<MemoryEntry>)
    ensures ReflectionsSection(rs) == NoReflections <==> rs == []
  {
    if rs != [] {
      var lines := ReflectionLines(rs);
      JsText.JoinStartsWith(lines, "\n");
      assert ReflectionsSection(rs)[0] == '-';
    }
  }

  /**
   * The fixed fallbacks: the remaining sections show theirs when there is
   * nothing to list, and a missing or empty plan or zone shows its own.
   */
  lemma FallbackTexts(p: PromptInputs)
    ensures p.nearby == [] ==> NearbySection(p.nearby) == "none"
    ensures p.conversation == [] ==> ConversationSection(p.conversation) == "No active conversation."
    ensures p.perceptions == [] ==> PerceptionsSection(p.perceptions) == "Nothing new since your last turn."
    ensures p.currentPlan.None? || p.currentPlan == Some("") ==> OrElse(p.currentPlan, NoPlan) == NoPlan
    ensures p.currentZone.None? || p.currentZone == Some("") ==> OrElse(p.currentZone, UnknownZone) == "unknown"
  {
  }

  /** At most the five newest conversation lines are shown, oldest first. */
  lemma ConversationShowsNewestFive(conversation: seq<string>)
    requires conversation != []
    ensures var k := JsText.Min(5, |conversation|);
      ConversationSection(conversation) == JsText.Join(conversation[|conversation| - k..], "\n")
  {
  }

  /** A numbered line gives back its number and its text. */
  lemma NumberedLineParses(i: nat, text: string)
    ensures var line := NumberedLine(i, text);
      var d := |JsText.NatToString(i + 1)|;
      && d <= |line|
      && (forall j :: 0 <= j < d ==> '0' <= line[j] <= '9')
      && JsText.StringToNat(line[..d]) == i + 1
      && line[d..] == ". " + text
  {
    var line := NumberedLine(i, text);
    var digits := JsText.NatToString(i + 1);
    assert line[..|digits|] == digits;
    JsText.NatStringRoundTrip(i + 1);
  }

  /**
   * When no text holds a newline, the numbered list splits back into its
   * lines, and line `i` carries the number `i + 1` and the `i`-th text.
   */
  lemma NumberedListSplits(texts: seq<string>)
    requires texts != []
    requires forall t :: t in texts ==> '\n' !in t
    ensures JsText.SplitOn(JsText.Join(NumberedLines(texts), "\n"), '\n') == NumberedLines(texts)
  {
    var lines := NumberedLines(texts);
    forall l | l in lines ensures '\n' !in l {
      var i :| 0 <= i < |lines| && lines[i] == l;
      assert texts[i] in texts;
      DigitsFree(JsText.NatToString(i + 1));
    }
    JsText.SplitJoinRoundTrip(lines, '\n');
    assert JsText.Join(lines, "\n") == JsText.Join(lines, ['\n']);
  }

  lemma DigitsFree(s: string)
    requires forall i :: 0 <= i < |s| ==> '0' <= s[i] <= '9'
    ensures '\n' !in s
  {
  }

  /** The memory section lists the retrieved memories one per line, numbered from 1 in retrieval order. */
  lemma MemoriesNumbered(ms: seq<MemoryEntry>)
    requires ms != []
    requires forall m :: m in ms ==> '\n' !in m.content
    ensures var lines := JsText.SplitOn(MemoriesSection(ms), '\n');
      && |lines| == |ms|
      && forall i :: 0 <= i < |ms| ==> lines[i] == NumberedLine(i, "[" + KindName(ms[i].kind) + "] " + ms[i].content)
  {
    var texts := MemoryTexts(ms);
    forall t | t in texts ensures '\n' !in t {
      var i :| 0 <= i < |texts| && texts[i] == t;
      assert ms[i] in ms;
      assert '\n' !in KindName(ms[i].kind);
    }
    NumberedListSplits(texts);
  }

  /** The reflection prompt lists the observations numbered from 1, in the order given, one per line. */
  lemma ReflectionPromptNumbered(agentName: string, agentRole: string, observations: seq<string>)
    requires observations != []
    requires forall o :: o in observations ==> '\n' !in o
    ensures var header := "You are " + agentName + ". Here are your most recent observations:\n";
      var list := JsText.Join(NumberedLines(observations), "\n");
      && header + list <= ReflectionPrompt(agentName, agentRole, observations)
      && JsText.SplitOn(list, '\n') == NumberedLines(observations)
  {
    NumberedListSplits(observations);
  }

  /**
   * The action tool requires exactly `action_type` and `reasoning`, both
   * declared; its action types are the five the simulation knows, each
   * named once, and likewise its emotions.
   */
  lemma ActionToolSchema()
    ensures AgentActionTool.required == ["action_type", "reasoning"]
    ensures forall r :: r in AgentActionTool.required ==> PropertyNamed(AgentActionTool.properties, r).Some?
    ensures PropertyNamed(AgentActionTool.properties, "action_type").value.enumValues == ActionTypeEnum
    ensures |ActionTypeEnum| == 5 && |EmotionEnum| == 7
  {
    assert PropertyNamed(AgentActionTool.properties, "action_type").Some?;
    assert AgentActionTool.properties[8].name == "reasoning";
  }

  /** Every action type has its wire name in the enum, and every enum entry names exactly one action type. */
  lemma ActionTypeNamesRoundTrip(t: ActionType, s: string)
    ensures ParseActionType(ActionTypeName(t)) == Some(t)
    ensures ActionTypeName(t) in ActionTypeEnum
    ensures s in ActionTypeEnum <==> ParseActionType(s).Some?
    ensures ParseActionType(s).Some? ==> ActionTypeName(ParseActionType(s).value) == s
  {
  }

  lemma EmotionNamesRoundTrip(e: Emotion, s: string)
    ensures ParseEmotion(EmotionName(e)) == Some(e)
    ensures EmotionName(e) in EmotionEnum
    ensures s in EmotionEnum <==> ParseEmotion(s).Some?
    ensures ParseEmotion(s).Some? ==> EmotionName(ParseEmotion(s).value) == s
  {
  }
}
