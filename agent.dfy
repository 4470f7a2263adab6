/**
 * A server-side agent (src/simulation/Agent.ts): fixed persona fields, a
 * mutable position, zone, plan, status and emotion, the last action and the
 * turns-since-last-action counter, and its own memory stream.
 */
module Agents {
  import opened Wrappers
  import opened Types
  import JsText
  import Ids
  import MemoryStreams

  /** `w.length > 3`: the only filter the agent's own keyword splitter applies. */
  predicate LongWord(w: string) {
    |w| > 3
  }

  /**
   * `content.toLowerCase().split(/\s+/).filter((w) => w.length > 3).slice(0, 10)`:
   * unlike `extractKeywords` there is no stopword list and punctuation stays.
   */
  function ContentKeywords(content: string): seq<string> {
    JsText.SliceTo(JsText.Filter(JsText.SplitWs(JsText.Lower(content)), LongWord), 10)
  }

  /** The stored keywords are the first min(10, n) of the long tokens, in order. */
  lemma ContentKeywordsPrefix(content: string)
    ensures var r := ContentKeywords(content);
      var long := JsText.Filter(JsText.SplitWs(JsText.Lower(content)), LongWord);
      |r| == JsText.Min(10, |long|) && r == long[..|r|]
  {
  }

  /** Each stored keyword has more than three characters, no whitespace and no upper-case ASCII letter. */
  lemma ContentKeywordsShape(content: string)
    ensures forall w :: w in ContentKeywords(content) ==>
      |w| > 3 && forall i :: 0 <= i < |w| ==> !JsText.IsSpace(w[i]) && !('A' <= w[i] <= 'Z')
  {
    var lower := JsText.Lower(content);
    var tokens := JsText.SplitWs(lower);
    var long := JsText.Filter(tokens, LongWord);
    var r := ContentKeywords(content);
    assert r == long[..JsText.SliceIndex(|long|, 10)];
    forall w | w in r
      ensures |w| > 3 && forall i :: 0 <= i < |w| ==> !JsText.IsSpace(w[i]) && !('A' <= w[i] <= 'Z')
    {
      assert w in long;
      assert w in tokens;
      TokenOfLowered(lower, w);
    }
  }

  /** Tokens of a lowered string carry no upper-case ASCII letter. */
  lemma {:induction false} TokenOfLowered(s: string, w: string)
    requires forall i :: 0 <= i < |s| ==> !('A' <= s[i] <= 'Z')
    requires w in JsText.SplitWs(s)
    ensures forall i :: 0 <= i < |w| ==> !('A' <= w[i] <= 'Z')
    decreases |s|
  {
    var e := JsText.FirstSpace(s);
    if e < |s| && w != s[..e] {
      var rest := JsText.DropSpaces(s[e..]);
      MemoryStreams.DropSpacesSuffix(s[e..]);
      TokenOfLowered(rest, w);
    }
  }

  class Agent {
    const id: string
    const name: string
    const role: string
    const color: string
    const disposition: Disposition
    const persona: string
    const startingLocation: string

    var tileX: int
    var tileY: int
    var currentZone: Option<string>
    var currentPlan: Option<string>
    var status: AgentStatus
    var emotion: Emotion
    const memory: MemoryStreams.MemoryStream
    var lastAction: Option<AgentAction>
    var turnsSinceLastAction: int

    ghost predicate Valid()
      reads memory, memory.ids
    {
      memory.Valid()
    }

    /** A new agent stands at its start tile in its starting zone, idle, neutral, with no memories. */
    constructor (config: AgentConfig, startTileX: int, startTileY: int, memoryCounter: Ids.Counter)
      ensures id == config.id && name == config.name && role == config.role && color == config.color
      ensures disposition == config.disposition && persona == config.persona
      ensures startingLocation == config.startingLocation
      ensures tileX == startTileX && tileY == startTileY
      ensures currentZone == Some(config.startingLocation) && currentPlan == None
      ensures status == Idle && emotion == NeutralEmotion
      ensures lastAction == None && turnsSinceLastAction == 0
      ensures fresh(memory) && memory.entries == [] && memory.ids == memoryCounter
      ensures Valid()
    {
      id := config.id;
      name := config.name;
      role := config.role;
      color := config.color;
      disposition := config.disposition;
      persona := config.persona;
      startingLocation := config.startingLocation;
      tileX := startTileX;
      tileY := startTileY;
      currentZone := Some(config.startingLocation);
      currentPlan := None;
      status := Idle;
      emotion := NeutralEmotion;
      memory := new MemoryStreams.MemoryStream(memoryCounter);
      lastAction := None;
      turnsSinceLastAction := 0;
    }

    /** `getState()`: a snapshot of the public fields. */
    function GetState(): (s: AgentState)
      reads this
      ensures s.id == id && s.name == name && s.role == role && s.color == color
      ensures s.tileX == tileX && s.tileY == tileY
      ensures s.currentZone == currentZone && s.currentPlan == currentPlan
      ensures s.status == status && s.emotion == emotion
    {
      AgentState(id, name, role, color, tileX, tileY, currentZone, currentPlan, status, emotion)
    }

    /** The memory entry `addObservation` appends when the counter reaches `n`. */
    static function ObservationEntry(n: nat, tick: int, content: string, importance: int,
                                     location: Option<string>, associatedAgent: Option<string>): MemoryEntry
    {
      MemoryEntry(Ids.MakeId("mem_", n), tick, Observation, content, importance,
                  ContentKeywords(content), associatedAgent, location, tick)
    }

    /** The memory entry `addReflection` appends when the counter reaches `n`. */
    static function ReflectionEntry(n: nat, tick: int, content: string, importance: int): MemoryEntry
    {
      MemoryEntry(Ids.MakeId("mem_", n), tick, Reflection, content, importance,
                  ContentKeywords(content), None, None, tick)
    }

    /** `addObservation`: appends exactly one observation to this agent's memory. */
    method AddObservation(tick: int, content: string, importance: int := 5,
                          location: Option<string> := None, associatedAgent: Option<string> := None)
      requires Valid()
      modifies memory, memory.ids
      ensures Valid()
      ensures memory.ids.value == old(memory.ids.value) + 1
      ensures memory.entries == old(memory.entries)
        + [ObservationEntry(memory.ids.value, tick, content, importance, location, associatedAgent)]
    {
      memory.Add(tick, Observation, content, importance, ContentKeywords(content), associatedAgent, location);
    }

    /** `addReflection`: appends exactly one reflection, with no location or associated agent. */
    method AddReflection(tick: int, content: string, importance: int := 7)
      requires Valid()
      modifies memory, memory.ids
      ensures Valid()
      ensures memory.ids.value == old(memory.ids.value) + 1
      ensures memory.entries == old(memory.entries) + [ReflectionEntry(memory.ids.value, tick, content, importance)]
    {
      memory.Add(tick, Reflection, content, importance, ContentKeywords(content), None, None);
    }
  }
}
