# texperts-mvp simulation core in Dafny

This project models the server-side simulation engine of texperts-mvp and the
deterministic parts of its browser client. The engine is a tick-driven
simulation of business "experts" (agents) who move between the zones of an
office map, talk, think and reflect.

- **Memory and agents.** Every agent keeps an append-only memory stream with
  scored top-k retrieval, recency queries and a running "unreflected
  importance" sum.
- **Conversations and space.** A conversation tracker keeps one conversation
  per zone. A zone registry and a spatial table record which agent stands on
  which tile and in which zone.
- **The orchestrator.** It runs the tick: turn order, scripted or
  model-chosen actions, the effects of `move_to`, `speak`, `think` and
  `wait`, reflections, and the start/pause/resume/step controls.
- **Supporting state.** The cognitive loop (perception queues and zone
  histories), the reflection engine, the phase manager, the event log and
  the simulation state (initialisation, snapshots and subscriber broadcast).
- **Fixed data and text.** The environment tree, the prompt templates, the
  moderator injection route and the scenario list.
- **Client side.** The tile-map generator, the client zone manager, the
  message reducer of the client store, the event bus and the speech-bubble
  queue.

Each source file becomes one Dafny module (`memory_stream.dfy` for
`MemoryStream.ts`, and so on). Source classes whose fields change in place
are Dafny classes with `modifies` clauses. Their methods are proved against
specification functions, and lemmas state the source's promises about those
functions. Pure source functions are Dafny functions and lemmas.

A few shared modules carry what several files rely on:
- `JsText`: the JavaScript string and array idioms the source uses, such as
  `split(/\s+/)`, `slice(-n)`, `join` and `toLowerCase` on ASCII.
- `OrderedMap`: a JavaScript `Map` with its insertion order.
- `StableRank`: the stable `Array.prototype.sort`.
- `Ids`: the module-level `let xCounter = 0` id counters.
- `Types`: the records of `types/index.ts`.
- `Perceptions`: one observation delivered to several agents.
- `LoopControl`: the timer logic of the start/pause/resume/step controls.

The language model is an oracle, `LanguageModels.LanguageModel`. It is a
script of replies, and each call consumes one reply or fails. The recency
term `Math.exp(-age * 0.1)` of the retrieval score is a function parameter
`recency: int -> real`. JavaScript numbers are modelled as unbounded
integers, or as reals where the source divides.

Where this model and the repository's prose documentation disagree, the
model follows the code:
- `ConversationManager.addTurn` never trims turns. Only the cognitive loop's
  zone history is capped at 20.
- The fallback reasoning of `CognitiveLoop.think` is `"Thinking..."`.
- An agent's own keywords come from the whitespace split, keeping words
  longer than three characters, at most ten, with no stopwords.
  `extractKeywords` instead keeps words longer than two characters, drops
  stopwords and has no cap.
- Relevance can exceed 1 when the context repeats a keyword.
- A new conversation is active with no participants.
- Every agent that gets an action acts in every tick.
- `reflect` returns whatever list the client returns. It is not forced to
  three entries.

## Model

| member | source | states |
|---|---|---|
| MemoryStreams.KeepWordChars | texperts-mvp/src/simulation/MemoryStream.ts:104 | the cleaned text is no longer than the input and holds only lower-case ASCII letters, digits and whitespace |
| MemoryStreams.ExtractedKeywordShape | texperts-mvp/src/simulation/MemoryStream.ts:89-107 | every extracted keyword is a lower-case `[a-z0-9]` token longer than two characters and not a stopword; a whitespace-delimited token of the cleaned text is extracted exactly when it has that shape |
| MemoryStreams.Scores | texperts-mvp/src/simulation/MemoryStream.ts:31-48 | one score per entry, in entry order, each recency + importance/10 + relevance |
| MemoryStreams.RelevanceBasics | texperts-mvp/src/simulation/MemoryStream.ts:40-43 | relevance is never negative, is 0 when both keyword lists are empty, and otherwise the union is non-empty |
| MemoryStreams.RelevanceCanExceedOne | texperts-mvp/src/simulation/MemoryStream.ts:41-43 | the context `["abc", "abc"]` against the keywords `["abc"]` gives relevance 2: the intersection counts context repeats |
| MemoryStreams.RelevanceAtMostOne | texperts-mvp/src/simulation/MemoryStream.ts:40-43 | without a repeated context keyword, relevance is at most 1 |
| MemoryStreams.Stamp | texperts-mvp/src/simulation/MemoryStream.ts:53-56 | `last_accessed` is set on exactly the selected positions; every other entry is unchanged and the length is kept |
| MemoryStreams.RetrieveEmpty | texperts-mvp/src/simulation/MemoryStream.ts:27 | an empty stream selects nothing |
| MemoryStreams.TopPositionsAreTopK | texperts-mvp/src/simulation/MemoryStream.ts:31-53 | retrieval selects min(k, n) distinct positions (k >= 0), ordered by non-increasing score with ties in insertion order, and every selected entry scores at least as high as every entry left out |
| MemoryStreams.SinceLastReflection | texperts-mvp/src/simulation/MemoryStream.ts:70-82 | the entries after the newest reflection form a suffix of the stream holding no reflection |
| MemoryStreams.UnreflectedSumSinceReflection | texperts-mvp/src/simulation/MemoryStream.ts:71-82 | the backward scan equals the sum of observation importances strictly after the newest reflection, plan entries ignored |
| MemoryStreams.UnreflectedSumStep | texperts-mvp/src/simulation/MemoryStream.ts:71-82 | a new reflection resets the sum to 0, a new observation adds its importance, a new plan entry adds nothing |
| MemoryStreams.UnreflectedSumIgnoresAccess | texperts-mvp/src/simulation/MemoryStream.ts:74-81 | the sum does not depend on `last_accessed` |
| MemoryStreams.OfKind | texperts-mvp/src/simulation/MemoryStream.ts:63-66 | an entry is kept exactly when it is of the requested kind (every entry when no kind is given) |
| MemoryStreams.Recent | texperts-mvp/src/simulation/MemoryStream.ts:62-68 | the newest min(limit, count) entries of the kind, newest first; a limit of 0 keeps them all (`slice(-0)`) |
| MemoryStreams.MemoryStream.constructor | texperts-mvp/src/simulation/MemoryStream.ts:9-10 | a new stream is empty and draws ids from the shared counter |
| MemoryStreams.MemoryStream.IdsUnique | texperts-mvp/src/simulation/MemoryStream.ts:15 | no two entries of a stream share an id |
| MemoryStreams.MemoryStream.NextIdFresh | texperts-mvp/src/simulation/MemoryStream.ts:15 | the id the next `add` assigns is not yet used in the stream |
| MemoryStreams.MemoryStream.Add | texperts-mvp/src/simulation/MemoryStream.ts:12-18 | exactly one entry is appended, with id `mem_N` for the next counter value and `last_accessed` equal to its tick; earlier entries are unchanged |
| MemoryStreams.MemoryStream.GetAll | texperts-mvp/src/simulation/MemoryStream.ts:21-23 | the same entries in reverse insertion order |
| MemoryStreams.MemoryStream.Length | texperts-mvp/src/simulation/MemoryStream.ts:84-86 | the number of entries |
| MemoryStreams.MemoryStream.GetUnreflectedImportanceSum | texperts-mvp/src/simulation/MemoryStream.ts:71-82 | the backward loop computes the unreflected sum (see `UnreflectedSumSinceReflection`) |
| MemoryStreams.MemoryStream.Retrieve | texperts-mvp/src/simulation/MemoryStream.ts:26-59 | returns the entries at the top-k positions by score, and stamps `last_accessed := currentTick` on exactly those entries, nothing else changing |
| MemoryStreams.StampKeepsContent | texperts-mvp/src/simulation/MemoryStream.ts:53-56 | retrieval changes only `last_accessed`, so ids, contents and the unreflected sum are kept |
| Agents.ContentKeywordsPrefix | texperts-mvp/src/simulation/Agent.ts:56-63 | an agent's stored keywords are the first min(10, n) of the whitespace-split lower-cased tokens longer than three characters, in order |
| Agents.ContentKeywordsShape | texperts-mvp/src/simulation/Agent.ts:56-63 | each stored keyword is longer than three characters, without whitespace or upper-case ASCII letters |
| Agents.Agent.constructor | texperts-mvp/src/simulation/Agent.ts:26-38 | the configuration's fields, the given start tile, `currentZone = startingLocation`, no plan, idle, neutral, no last action, `turnsSinceLastAction = 0`, a fresh empty memory |
| Agents.Agent.GetState | texperts-mvp/src/simulation/Agent.ts:40-53 | a copy of id, name, role, color, tile, zone, plan, status and emotion, read without change |
| Agents.Agent.AddObservation | texperts-mvp/src/simulation/Agent.ts:55-67 | appends exactly one `observation` entry with the given tick, content, importance (default 5), location and associated agent, and its keywords |
| Agents.Agent.AddReflection | texperts-mvp/src/simulation/Agent.ts:69-79 | appends exactly one `reflection` entry, importance 7 by default, with no location and no associated agent |
| StableRank.Rank | texperts-mvp/src/simulation/MemoryStream.ts:50 | the stable descending order of the positions by key: sorted by `Before` and a permutation of 0..n-1 |
| StableRank.SortedUnique | texperts-mvp/src/simulation/MemoryStream.ts:50 | a stable descending sort is unique: any ordering of the same positions sorted by `Before` is `Rank`'s |
| StableRank.SortedKeysNonIncreasing | texperts-mvp/src/simulation/MemoryStream.ts:50 | along a stable descending order the keys never increase |
| Ids.Counter.Next | texperts-mvp/src/simulation/MemoryStream.ts:15 | `++counter`: one more than before, returned |
| Ids.NextIdFresh | texperts-mvp/src/simulation/MemoryStream.ts:15 | the next id is none of those already handed out, and the ids handed out grow by exactly that one |
| Ids.MakeIdInjective | texperts-mvp/src/simulation/EventLog.ts:15 | ids built from one prefix and distinct counter values differ |
| JsText.Length | texperts-mvp/src/game/entities/BubbleManager.ts:186 | `text.length` counts UTF-16 code units: between one and two per character, and exactly one per character when no character lies beyond U+FFFF |
| JsText.SplitWs | texperts-mvp/src/simulation/Agent.ts:56 | `split(/\s+/)` yields at least one piece and no piece holds whitespace |
| JsText.LastN | texperts-mvp/src/simulation/EventLog.ts:25-27 | `slice(-limit)`: the last min(limit, n) elements for a positive limit, everything for 0, and for a negative limit all but the first -limit; always a suffix |
| OrderedMap.FromListLast | texperts-mvp/src/game/map/ZoneManager.ts:6-10 | building a `Map` by `set` over a list stores, for each key, the value of its last pair |
| OrderedMap.FromListDistinct | texperts-mvp/src/simulation/world/ZoneRegistry.ts:10-14 | with distinct keys the map keeps the list's keys and values in list order |
| Conversations.NoConversations | texperts-mvp/src/simulation/ConversationManager.ts:24-26 | an empty tracker is well formed and has no live pointer to break |
| Conversations.Ensure | texperts-mvp/src/simulation/ConversationManager.ts:29-48 | the tracker stays well formed and the id returned names a stored conversation |
| Conversations.EnsureKeepsActive | texperts-mvp/src/simulation/ConversationManager.ts:30-34 | a zone's active conversation is returned, with nothing changed |
| Conversations.EnsureCreatesFresh | texperts-mvp/src/simulation/ConversationManager.ts:36-47 | without an active conversation, a new active one with no participants and no turns is stored under a new id `conv_N` (appended last), the zone points at it, and the counter moves on by one |
| Conversations.AddParticipantJoins | texperts-mvp/src/simulation/ConversationManager.ts:51-54 | afterwards the zone has an active conversation containing the agent, whose turns are the previous active one's (none when it is new) |
| Conversations.RemoveParticipantRule | texperts-mvp/src/simulation/ConversationManager.ts:57-68 | nothing changes without a zone pointer; otherwise the agent leaves, and the conversation is deactivated and the pointer cleared exactly when fewer than two participants remain, the pointer being kept otherwise |
| Conversations.AddTurnAppends | texperts-mvp/src/simulation/ConversationManager.ts:71-75 | the speaker is a participant of the zone's active conversation, whose turns are the previous ones plus exactly this turn: never trimmed |
| Conversations.RecentTurnsRule | texperts-mvp/src/simulation/ConversationManager.ts:78-84 | nothing without a zone pointer; otherwise the last min(limit, n) turns, oldest first |
| Conversations.NeverRemoved | texperts-mvp/src/simulation/ConversationManager.ts:45 | no operation removes a stored conversation |
| Conversations.EnsureKeepsPointersLive | texperts-mvp/src/simulation/ConversationManager.ts:29-48 | every zone pointer still names an active conversation of that zone |
| Conversations.WithParticipantKeepsPointersLive | texperts-mvp/src/simulation/ConversationManager.ts:51-54 | as above for `addParticipant` |
| Conversations.WithoutParticipantKeepsPointersLive | texperts-mvp/src/simulation/ConversationManager.ts:57-68 | as above for `removeParticipant` |
| Conversations.WithTurnKeepsPointersLive | texperts-mvp/src/simulation/ConversationManager.ts:71-75 | as above for `addTurn` |
| Conversations.WithParticipant | texperts-mvp/src/simulation/ConversationManager.ts:51-54 | `addParticipant` keeps the tracker well formed: conversations filed under their own ids, every id issued by the counter, every zone pointer naming a stored conversation |
| Conversations.WithoutParticipant | texperts-mvp/src/simulation/ConversationManager.ts:57-68 | `removeParticipant` keeps the tracker well formed |
| Conversations.WithTurn | texperts-mvp/src/simulation/ConversationManager.ts:71-75 | `addTurn` keeps the tracker well formed |
| Conversations.ActiveIffPointer | texperts-mvp/src/simulation/ConversationManager.ts:87-92 | with live pointers, `hasActiveConversation(z)` holds exactly when z has a pointer |
| Conversations.AllListsEachOnce | texperts-mvp/src/simulation/ConversationManager.ts:95-97 | `getAll` lists every stored conversation exactly once, in creation order |
| Conversations.ConversationManager.constructor | texperts-mvp/src/simulation/ConversationManager.ts:23-26 | an empty tracker over the shared counter |
| Conversations.ConversationManager.EnsureConversation | texperts-mvp/src/simulation/ConversationManager.ts:29-48 | the new state and the returned conversation are those of `Ensure` |
| Conversations.ConversationManager.AddParticipant | texperts-mvp/src/simulation/ConversationManager.ts:51-54 | the new state is `WithParticipant` of the old |
| Conversations.ConversationManager.RemoveParticipant | texperts-mvp/src/simulation/ConversationManager.ts:57-68 | the new state is `WithoutParticipant` of the old |
| Conversations.ConversationManager.AddTurn | texperts-mvp/src/simulation/ConversationManager.ts:71-75 | the new state is `WithTurn` of the old |
| Conversations.ConversationManager.GetRecentTurns | texperts-mvp/src/simulation/ConversationManager.ts:78-84 | the turns of `RecentTurns` (default limit 10), state unchanged |
| Conversations.ConversationManager.HasActiveConversation | texperts-mvp/src/simulation/ConversationManager.ts:87-92 | true exactly when the zone points at an active conversation |
| Conversations.ConversationManager.GetAll | texperts-mvp/src/simulation/ConversationManager.ts:95-97 | every stored conversation, in creation order |
| ZoneRegistries.FindZoneAtTile | texperts-mvp/src/simulation/world/ZoneRegistry.ts:26-34 | the search loop returns the first zone in list order whose half-open bounds contain the tile, or nothing |
| ZoneRegistries.TableOf | texperts-mvp/src/simulation/world/ZoneRegistry.ts:10-14 | the loop of `set` calls builds the map of the zones by id |
| ZoneRegistries.ZoneRegistry.constructor | texperts-mvp/src/simulation/world/ZoneRegistry.ts:10-14 | the registry is keyed by zone id from `ZONE_DEFS` and lists the built-in zones in definition order |
| ZoneRegistries.ZoneRegistry.GetZone | texperts-mvp/src/simulation/world/ZoneRegistry.ts:16-18 | the zone stored under the id, or nothing for an unknown id |
| ZoneRegistries.ZoneRegistry.GetSpawnTile | texperts-mvp/src/simulation/world/ZoneRegistry.ts:20-23 | the zone's spawn tile for a known id, nothing for an unknown one |
| ZoneRegistries.ZoneRegistry.GetZoneAtTile | texperts-mvp/src/simulation/world/ZoneRegistry.ts:26-34 | the first zone, in registry order, containing the tile (half-open), or nothing exactly when none contains it |
| ZoneRegistries.ZoneRegistry.GetAllZoneIds | texperts-mvp/src/simulation/world/ZoneRegistry.ts:36-38 | the registry's keys, in insertion order |
| ZoneRegistries.ZoneRegistry.GetAllZones | texperts-mvp/src/simulation/world/ZoneRegistry.ts:40-42 | one zone per key, in key order |
| ZoneRegistries.ZoneRegistry.BuiltInOrder | texperts-mvp/src/simulation/world/ZoneRegistry.ts:10-14 | the registry built from `ZONE_DEFS` has their ids as keys and their zones as values, in definition order |
| SpatialStates.ZoneIdAt | texperts-mvp/src/simulation/world/SpatialState.ts:22-27 | a zone id is recorded exactly when some zone contains the tile, and then it is the id of such a zone |
| SpatialStates.IdsInZone | texperts-mvp/src/simulation/world/SpatialState.ts:49-53 | an id is listed exactly when some position in the zone carries it |
| SpatialStates.OthersInZone | texperts-mvp/src/simulation/world/SpatialState.ts:40-46 | an id is listed exactly when some position in the zone carries it and it is not the given agent |
| SpatialStates.OthersAreZoneWithoutSelf | texperts-mvp/src/simulation/world/SpatialState.ts:40-53 | "same zone as a" is `getAgentsInZone(zone)` with a removed, order kept |
| SpatialStates.OthersInZoneDistinct | texperts-mvp/src/simulation/world/SpatialState.ts:40-46 | with one position per agent, nobody is listed twice |
| SpatialStates.SpatialState.constructor | texperts-mvp/src/simulation/world/SpatialState.ts:14-19 | an empty table over the registry |
| SpatialStates.SpatialState.SetPosition | texperts-mvp/src/simulation/world/SpatialState.ts:21-29 | the agent's entry is overwritten (kept in place in the map order) with the tile and the id of the first registry zone containing it, or none |
| SpatialStates.SpatialState.GetPosition | texperts-mvp/src/simulation/world/SpatialState.ts:31-33 | the stored position, or nothing for an agent never positioned |
| SpatialStates.SpatialState.GetZone | texperts-mvp/src/simulation/world/SpatialState.ts:35-37 | the recorded zone; nothing for an agent never positioned or standing outside every zone |
| SpatialStates.SpatialState.GetAgentsInZone | texperts-mvp/src/simulation/world/SpatialState.ts:49-53 | the ids of the positions in that zone, in map order |
| SpatialStates.SpatialState.GetAgentsInSameZone | texperts-mvp/src/simulation/world/SpatialState.ts:40-46 | nobody when the agent has no zone (or the falsy empty id); otherwise `getAgentsInZone` of its zone without the agent |
| SpatialStates.SpatialState.GetAllPositions | texperts-mvp/src/simulation/world/SpatialState.ts:55-57 | one position per placed agent, in map order |
| SpatialStates.SpatialState.InValues | texperts-mvp/src/simulation/world/SpatialState.ts:21-29 | a position is in the table exactly when it is the one stored under its own agent id |
| SpatialStates.SpatialState.AgentsInZoneMembers | texperts-mvp/src/simulation/world/SpatialState.ts:49-53 | an id is returned for zone z exactly when `getZone(id)` is z |
| SpatialStates.SpatialState.SameZoneDistinct | texperts-mvp/src/simulation/world/SpatialState.ts:40-46 | the same-zone list names nobody twice |
| SpatialStates.SpatialState.SameZoneMembers | texperts-mvp/src/simulation/world/SpatialState.ts:40-46 | b is listed for a exactly when b is not a and both stand in the same non-empty zone |
| ZoneManagers.LastDefinitionWins | texperts-mvp/src/game/map/ZoneManager.ts:6-10 | with duplicate ids, the table holds the zone listed last under each id |
| ZoneManagers.KnownIds | texperts-mvp/src/game/map/ZoneManager.ts:6-10 | an id is known exactly when some listed zone carries it |
| ZoneManagers.ZoneManager.constructor | texperts-mvp/src/game/map/ZoneManager.ts:6-10 | the table is built by `set` over the given zones, in order |
| ZoneManagers.ZoneManager.GetZone | texperts-mvp/src/game/map/ZoneManager.ts:12-14 | the zone under the id, or nothing |
| ZoneManagers.ZoneManager.GetAllZones | texperts-mvp/src/game/map/ZoneManager.ts:16-18 | one zone per key, in key order |
| ZoneManagers.ZoneManager.GetZoneAtTile | texperts-mvp/src/game/map/ZoneManager.ts:20-28 | the first zone, in table order, whose half-open bounds contain the tile, else nothing |
| ZoneManagers.ZoneManager.GetSpawnTile | texperts-mvp/src/game/map/ZoneManager.ts:30-33 | the zone's spawn tile, or nothing for an unknown id |
| ZoneManagers.ZoneManager.GetZoneNames | texperts-mvp/src/game/map/ZoneManager.ts:35-37 | one name per stored zone, in table order |
| EventLogs.ByAgent | texperts-mvp/src/simulation/EventLog.ts:29-31 | an event is kept exactly when it carries the agent id |
| EventLogs.ByType | texperts-mvp/src/simulation/EventLog.ts:33-35 | an event is kept exactly when it has the type |
| EventLogs.QueriesAfterAppend | texperts-mvp/src/simulation/EventLog.ts:29-35 | after one more event, each query's result grows by that event exactly when it matches, in log order |
| EventLogs.EventLog.constructor | texperts-mvp/src/simulation/EventLog.ts:8-9 | an empty log over the shared counter |
| EventLogs.EventLog.IdsUnique | texperts-mvp/src/simulation/EventLog.ts:14 | no two events share an id |
| EventLogs.EventLog.Add | texperts-mvp/src/simulation/EventLog.ts:11-19 | exactly one event is appended, with id `evt_N` for the next counter value, unlike every earlier id, and that stored event is returned; the length grows by one |
| EventLogs.EventLog.GetAll | texperts-mvp/src/simulation/EventLog.ts:21-23 | every event, in log order |
| EventLogs.EventLog.GetRecent | texperts-mvp/src/simulation/EventLog.ts:25-27 | the last min(limit, n) events, oldest first (default 50); a limit of 0 keeps all |
| EventLogs.EventLog.GetByAgent | texperts-mvp/src/simulation/EventLog.ts:29-31 | the agent's events, in log order |
| EventLogs.EventLog.GetByType | texperts-mvp/src/simulation/EventLog.ts:33-35 | the events of the type, in log order |
| EventLogs.EventLog.Length | texperts-mvp/src/simulation/EventLog.ts:37-39 | the number of events |
| Phases.CurrentPhase | texperts-mvp/src/simulation/PhaseManager.ts:55-60 | free-form while disabled; otherwise a phase of the sequence, the indexed one while the index is in range |
| Phases.InvPreserved | texperts-mvp/src/simulation/PhaseManager.ts:45-82 | `enable`, `disable`, `advancePhase` and `tick` keep the index in [0, 5] |
| Phases.DisabledIsFreeForm | texperts-mvp/src/simulation/PhaseManager.ts:55-64 | while disabled the phase is free-form and `tick` returns null without counting |
| Phases.AdvanceRule | texperts-mvp/src/simulation/PhaseManager.ts:77-82 | at the last phase nothing changes and null is returned; before it, the index moves on one and `ticksInPhase` is reset |
| Phases.AdvanceWhileDisabled | texperts-mvp/src/simulation/PhaseManager.ts:55-82 | with no enabled check, the index moves while the reported phase stays free-form |
| Phases.LaterPhasesStay | texperts-mvp/src/simulation/PhaseManager.ts:24-28 | from open discussion on, ticks only count and never advance the phase |
| Phases.AutoAdvanceSchedule | texperts-mvp/src/simulation/PhaseManager.ts:21-28 | after `enable`, the third tick advances setup to gather, and the fifth tick after that advances to open discussion, each resetting the count |
| Phases.GuidanceEmptyIffFreeForm | texperts-mvp/src/simulation/PhaseManager.ts:85-103 | the guidance text is empty exactly for free-form |
| Phases.PhaseManager.constructor | texperts-mvp/src/simulation/PhaseManager.ts:36-39 | the given flag, the first phase, no ticks counted |
| Phases.PhaseManager.IsEnabled | texperts-mvp/src/simulation/PhaseManager.ts:41-43 | the flag |
| Phases.PhaseManager.Enable | texperts-mvp/src/simulation/PhaseManager.ts:45-49 | enabled, back to the first phase (setup) with a zero tick count |
| Phases.PhaseManager.Disable | texperts-mvp/src/simulation/PhaseManager.ts:51-53 | only the flag is cleared |
| Phases.PhaseManager.GetCurrentPhase | texperts-mvp/src/simulation/PhaseManager.ts:55-60 | `CurrentPhase` of the state |
| Phases.PhaseManager.AdvancePhase | texperts-mvp/src/simulation/PhaseManager.ts:77-82 | the new state and result are `AdvanceSpec`'s (see `AdvanceRule`) |
| Phases.PhaseManager.Tick | texperts-mvp/src/simulation/PhaseManager.ts:63-74 | the new state and result are `TickSpec`'s (see `AutoAdvanceSchedule`) |
| Phases.PhaseManager.GetPhaseGuidance | texperts-mvp/src/simulation/PhaseManager.ts:85-103 | the fixed text of the current phase, empty exactly while disabled |
| CognitiveLoops.NearbyNames | texperts-mvp/src/simulation/CognitiveLoop.ts:63-68 | one label per nearby id, in order |
| CognitiveLoops.Adopted | texperts-mvp/src/simulation/CognitiveLoop.ts:88-110 | on an answer, the action is returned as is, the agent takes its emotion only when it carries one, and the plan becomes `reasoning || null`; on a failure, the `wait` fallback with reasoning "Thinking..." and tick 0, emotion and plan unchanged |
| CognitiveLoops.PerceptionsFifo | texperts-mvp/src/simulation/CognitiveLoop.ts:34-39 | a perception joins the end of its agent's queue; every other queue is unchanged |
| CognitiveLoops.PerceptionEachOnce | texperts-mvp/src/simulation/CognitiveLoop.ts:34-39 | queuing one perception for distinct agents gives each listed agent exactly one copy, at the end, and nobody else any |
| CognitiveLoops.ConversationTurnCapped | texperts-mvp/src/simulation/CognitiveLoop.ts:42-52 | the recorded turn ends the zone's history, which holds min(n + 1, 20) lines, and below the cap nothing is dropped |
| CognitiveLoops.ConversationTurnElsewhere | texperts-mvp/src/simulation/CognitiveLoop.ts:42-52 | other zones' histories are unchanged |
| CognitiveLoops.ConversationKeepsNewest | texperts-mvp/src/simulation/CognitiveLoop.ts:42-52 | after any run of turns, the zone keeps exactly the newest 20 lines of its history and the turns, in order |
| CognitiveLoops.NearbyExcludesSelf | texperts-mvp/src/simulation/CognitiveLoop.ts:63 | the agents listed as nearby never include the agent itself |
| CognitiveLoops.CognitiveLoop.constructor | texperts-mvp/src/simulation/CognitiveLoop.ts:23-31 | the given client, tree and spatial table, with no perceptions and no histories |
| CognitiveLoops.CognitiveLoop.AddPerception | texperts-mvp/src/simulation/CognitiveLoop.ts:34-39 | the queues become `WithPerception` of the old (see `PerceptionsFifo`); histories unchanged |
| CognitiveLoops.CognitiveLoop.AddConversationTurn | texperts-mvp/src/simulation/CognitiveLoop.ts:42-52 | the histories become `WithConversationTurn` of the old (see `ConversationTurnCapped`); queues unchanged |
| CognitiveLoops.CognitiveLoop.PreparePrompt | texperts-mvp/src/simulation/CognitiveLoop.ts:62-85 | the agent's queue is emptied and its memory stamped by the prompt's retrieval; the prompt is the system prompt over the nearby names, the zone's history (zone `""` when none) and the queued perceptions in insertion order |
| CognitiveLoops.CognitiveLoop.Think | texperts-mvp/src/simulation/CognitiveLoop.ts:57-111 | the model receives exactly that prompt and consumes one reply; the queue is empty afterwards, also when the call fails; the action, emotion and plan are those of `Adopted` |
| CognitiveLoops.CognitiveLoop.Decide | texperts-mvp/src/simulation/CognitiveLoop.ts:57-111 | as `Think`, and the agent's tile, zone, status, last action and waiting counter are unchanged |
| CognitiveLoops.CognitiveLoop.Adopt | texperts-mvp/src/simulation/CognitiveLoop.ts:96-110 | the action, emotion and plan of `Adopted`; nothing else about the agent changes |
| ReflectionEngines.DueForSinceLastReflection | texperts-mvp/src/simulation/ReflectionEngine.ts:5-21 | a reflection is due exactly when the observations after the newest reflection weigh 15 or more |
| ReflectionEngines.DueForExamples | texperts-mvp/src/simulation/ReflectionEngine.ts:19-21 | importances [5, 6, 5] are due, [5, 5] are not, and nothing is due right after a reflection |
| ReflectionEngines.Contents | texperts-mvp/src/simulation/ReflectionEngine.ts:25-27 | the contents of the entries, in the same order |
| ReflectionEngines.RecentObservationsShape | texperts-mvp/src/simulation/ReflectionEngine.ts:25-29 | at most the ten newest observations are fed, newest first, and the list is empty exactly when the agent has no observation |
| ReflectionEngines.ReflectionEntries | texperts-mvp/src/simulation/ReflectionEngine.ts:35-37 | one reflection entry per insight, in order, numbered on from the counter, importance 7 |
| ReflectionEngines.DueHasObservations | texperts-mvp/src/simulation/ReflectionEngine.ts:19-29 | a due agent always has observations, so the model is asked |
| ReflectionEngines.UnreflectedNeedsObservation | texperts-mvp/src/simulation/MemoryStream.ts:71-82 | a non-zero unreflected sum needs at least one observation |
| ReflectionEngines.ReflectingResets | texperts-mvp/src/simulation/ReflectionEngine.ts:35-37 | after storing at least one reflection, the unreflected sum is 0 and no reflection is due |
| ReflectionEngines.ReflectionEngine.constructor | texperts-mvp/src/simulation/ReflectionEngine.ts:14-16 | the given client |
| ReflectionEngines.ReflectionEngine.ShouldReflect | texperts-mvp/src/simulation/ReflectionEngine.ts:19-21 | true exactly when the agent's unreflected importance sum is at least 15 |
| ReflectionEngines.ReflectionEngine.Reflect | texperts-mvp/src/simulation/ReflectionEngine.ts:24-40 | with no observation: returns [], stores nothing and does not call the client; otherwise the client gets the reflection prompt over the ten newest observations, and its list is returned unchanged (length not forced) and stored in order as importance-7 reflections at the tick |
| ReflectionEngines.ReflectionEngine.Reconsider | texperts-mvp/src/simulation/ReflectionEngine.ts:24-40 | the same as `Reflect` as its caller sees it: the returned insights and the stored entries |
| ReflectionEngines.ReflectionEngine.Store | texperts-mvp/src/simulation/ReflectionEngine.ts:35-37 | the loop appends one reflection entry per insight, in order, and the counter moves on by their number |
| LanguageModels.ActionFrom | texperts-mvp/src/simulation/llm/ClaudeClient.ts:76-129 | a thrown call gives no action; otherwise the caller's agent id and tick; no tool use gives `wait` with "Could not determine action" |
| LanguageModels.ReflectionsFrom | texperts-mvp/src/simulation/llm/ClaudeClient.ts:161-182 | for text that is not JSON, at most three lines, each non-blank and without a newline |
| LanguageModels.LanguageModel.constructor | texperts-mvp/src/simulation/llm/ClaudeClient.ts:14-18 | the scripted replies, and no prompts received yet |
| LanguageModels.LanguageModel.GetAgentActionStreaming | texperts-mvp/src/simulation/llm/ClaudeClient.ts:76-129 | consumes one action reply, records the prompt, returns `ActionFrom` of the reply |
| LanguageModels.LanguageModel.GenerateReflections | texperts-mvp/src/simulation/llm/ClaudeClient.ts:161-182 | consumes one reflection reply, records the prompt, returns `ReflectionsFrom` of the reply, and never fails |
| EnvironmentTrees.FirstWithId | texperts-mvp/src/simulation/world/EnvironmentTree.ts:123-130 | the reference search: a node of the list with the id, or nothing exactly when no node of the list has it |
| EnvironmentTrees.FirstWithIdAppend | texperts-mvp/src/simulation/world/EnvironmentTree.ts:123-130 | searching a concatenation searches the first part, then the second |
| EnvironmentTrees.FindNodeIsPreOrderSearch | texperts-mvp/src/simulation/world/EnvironmentTree.ts:123-130 | the recursive `findNode` is exactly the first match in the pre-order listing of the tree |
| EnvironmentTrees.FindInChildrenIsPreOrderSearch | texperts-mvp/src/simulation/world/EnvironmentTree.ts:125-129 | the loop over the children is the first match in their concatenated pre-order listings |
| EnvironmentTrees.GetLocationRule | texperts-mvp/src/simulation/world/EnvironmentTree.ts:105-107 | on the built-in tree, `getLocation(id)` returns a node of the tree with that id, or null exactly when no node has it |
| EnvironmentTrees.Names | texperts-mvp/src/simulation/world/EnvironmentTree.ts:117 | the children's names, in order |
| EnvironmentTrees.DescriptionLines | texperts-mvp/src/simulation/world/EnvironmentTree.ts:114-121 | the two fixed header lines, then exactly one line per location, in order |
| EnvironmentTrees.JoinNonEmpty | texperts-mvp/src/simulation/world/EnvironmentTree.ts:117-118 | a join of non-empty names is empty exactly when there are none |
| EnvironmentTrees.ContainsSuffixIffChildren | texperts-mvp/src/simulation/world/EnvironmentTree.ts:117-118 | with non-empty names, a location line carries the "(contains: ...)" suffix exactly when the location has children |
| EnvironmentTrees.DescriptionLineCount | texperts-mvp/src/simulation/world/EnvironmentTree.ts:114-121 | when no name holds a newline, the text splits back into the two headers and one line per location |
| EnvironmentTrees.EnvironmentTree.constructor | texperts-mvp/src/simulation/world/EnvironmentTree.ts:97-99 | the root is the built-in think-tank tree |
| EnvironmentTrees.EnvironmentTree.GetRoot | texperts-mvp/src/simulation/world/EnvironmentTree.ts:101-103 | the root |
| EnvironmentTrees.EnvironmentTree.GetLocation | texperts-mvp/src/simulation/world/EnvironmentTree.ts:105-107 | the pre-order first node with the id, or nothing |
| EnvironmentTrees.EnvironmentTree.GetLocations | texperts-mvp/src/simulation/world/EnvironmentTree.ts:109-111 | the root's children, in order |
| EnvironmentTrees.EnvironmentTree.ToNaturalLanguage | texperts-mvp/src/simulation/world/EnvironmentTree.ts:114-121 | the description lines joined with newlines (see `DescriptionLineCount`) |
| PromptTemplates.NumberedLines | texperts-mvp/src/simulation/llm/PromptTemplates.ts:68 | line i is `${i + 1}. ` followed by the i-th text |
| PromptTemplates.MemoryTexts | texperts-mvp/src/simulation/llm/PromptTemplates.ts:26 | one `[type] content` text per memory, in order |
| PromptTemplates.ReflectionLines | texperts-mvp/src/simulation/llm/PromptTemplates.ts:29 | one `- content` line per reflection, in order |
| PromptTemplates.BuildSystemPrompt | texperts-mvp/src/simulation/llm/PromptTemplates.ts:8-58 | retrieves the top 10 memories for the context at tick 0, which sets those memories' `last_accessed` to 0 and nothing else; the prompt is the template filled with them and with the three newest reflections of the stamped stream |
| PromptTemplates.PropertyNamed | texperts-mvp/src/simulation/llm/PromptTemplates.ts:84-123 | a declared property of that name, or nothing exactly when none is declared |
| PromptTemplates.MemoriesFallbackIffEmpty | texperts-mvp/src/simulation/llm/PromptTemplates.ts:26 | the memory section is "No memories yet." exactly when nothing was retrieved |
| PromptTemplates.ReflectionsFallbackIffEmpty | texperts-mvp/src/simulation/llm/PromptTemplates.ts:29 | the reflection section is "None yet." exactly when there is no reflection |
| PromptTemplates.FallbackTexts | texperts-mvp/src/simulation/llm/PromptTemplates.ts:24-40 | empty inputs show "none", "No active conversation." and "Nothing new since your last turn."; a missing or empty plan or zone shows its fixed text |
| PromptTemplates.ConversationShowsNewestFive | texperts-mvp/src/simulation/llm/PromptTemplates.ts:37 | a non-empty history shows its last min(5, n) lines, oldest first |
| PromptTemplates.NumberedLineParses | texperts-mvp/src/simulation/llm/PromptTemplates.ts:68 | a numbered line reads back as its number i + 1, then ". " and its text |
| PromptTemplates.NumberedListSplits | texperts-mvp/src/simulation/llm/PromptTemplates.ts:68 | without newlines in the texts, the numbered list splits back into exactly its numbered lines |
| PromptTemplates.MemoriesNumbered | texperts-mvp/src/simulation/llm/PromptTemplates.ts:26 | the memory section has one line per retrieved memory, numbered from 1 in retrieval order |
| PromptTemplates.ReflectionPromptNumbered | texperts-mvp/src/simulation/llm/PromptTemplates.ts:66-76 | the reflection prompt starts with its header and the observations numbered 1..n in input order, one per line |
| PromptTemplates.ActionToolSchema | texperts-mvp/src/simulation/llm/PromptTemplates.ts:79-126 | the tool requires exactly `action_type` and `reasoning`, both declared; `action_type` has the five action names as its enum, and emotion has seven |
| PromptTemplates.ActionTypeNamesRoundTrip | texperts-mvp/src/simulation/llm/PromptTemplates.ts:85-89 | every action type's wire name is in the enum and reads back as that type, and every enum entry names exactly one type |
| PromptTemplates.EmotionNamesRoundTrip | texperts-mvp/src/simulation/llm/PromptTemplates.ts:106-110 | the same round trip for the emotions |
| SimulationStates.KeepIf | texperts-mvp/src/simulation/SimulationState.ts:141-143 | a subscriber is kept exactly when it is open or in the kept set |
| SimulationStates.Open | texperts-mvp/src/simulation/SimulationState.ts:133-139 | exactly the subscribers whose enqueue succeeds |
| SimulationStates.Closed | texperts-mvp/src/simulation/SimulationState.ts:133-139 | exactly the subscribers whose enqueue throws |
| SimulationStates.Deliveries | texperts-mvp/src/simulation/SimulationState.ts:133-139 | one delivery of the message per open subscriber, in order |
| SimulationStates.KeepIfAll | texperts-mvp/src/simulation/SimulationState.ts:141-143 | when every subscriber is open or kept, none is dropped |
| SimulationStates.BroadcastSettles | texperts-mvp/src/simulation/SimulationState.ts:129-144 | after a broadcast only open subscribers remain, so the next broadcast drops nobody and reaches all of them |
| SimulationStates.Contents | texperts-mvp/src/simulation/SimulationState.ts:66 | one memory list per agent of the table |
| SimulationStates.Whereabouts | texperts-mvp/src/simulation/SimulationState.ts:66 | one zone per agent of the table |
| SimulationStates.Untouched | texperts-mvp/src/simulation/SimulationState.ts:66 | memories and zones change only through the agents and their memory streams |
| SimulationStates.PlaceableNext | texperts-mvp/src/simulation/SimulationState.ts:89-91 | one more configuration gets an agent exactly when its starting zone has a spawn tile |
| SimulationStates.IdsOf | texperts-mvp/src/simulation/SimulationState.ts:94 | the configurations' ids, in order |
| SimulationStates.TableHoldsLast | texperts-mvp/src/simulation/SimulationState.ts:94 | `agents.set(cfg.id, ...)` files an id exactly when some configuration has it, and a later configuration with the same id replaces an earlier one |
| SimulationStates.TableOfDistinct | texperts-mvp/src/simulation/SimulationState.ts:89-94 | with distinct ids, the map's order is the configurations' order and each is filed as given |
| SimulationStates.KeyOrderIsRoster | texperts-mvp/src/simulation/SimulationState.ts:94 | the map's iteration order lists each stored id exactly once |
| SimulationStates.TableIds | texperts-mvp/src/simulation/SimulationState.ts:94 | each configuration is filed under its own id |
| SimulationStates.Spawn | texperts-mvp/src/simulation/SimulationState.ts:93-98 | a new agent built from the configuration on the spawn tile, idle and neutral, whose only memory is the importance-9 briefing observation at tick 0 located in its starting zone; it is placed on that tile in the spatial table |
| SimulationStates.States | texperts-mvp/src/simulation/SimulationState.ts:113 | one `getState()` per agent, in table order |
| SimulationStates.SimulationState.constructor | texperts-mvp/src/simulation/SimulationState.ts:62-82 | stopped at tick 0, speed 1, no agents, an empty event log and spatial table, no subscribers, the default briefing |
| SimulationStates.SimulationState.Initialize | texperts-mvp/src/simulation/SimulationState.ts:84-106 | tick 0 and paused; the agent table holds exactly one agent per id among the configurations whose starting zone has a spawn tile (the last such configuration per id), in first-seen order, each built, briefed and positioned on its spawn tile; earlier positions of other agents stay; one memory id per created agent; the log keeps its events and gains one system event |
| SimulationStates.SimulationState.Rebuild | texperts-mvp/src/simulation/SimulationState.ts:85-99 | the agent-table part of `Initialize`: tick 0, paused, the populated table |
| SimulationStates.SimulationState.Install | texperts-mvp/src/simulation/SimulationState.ts:85-87 | files a built agent table, with tick 0 and paused |
| SimulationStates.SimulationState.Assign | texperts-mvp/src/simulation/SimulationState.ts:85-87 | sets tick 0, paused and the new table |
| SimulationStates.SimulationState.GetSnapshot | texperts-mvp/src/simulation/SimulationState.ts:108-116 | the current tick and its `Tick n` label, the status, one state per agent in table order, and the last min(20, n) events |
| SimulationStates.SimulationState.AddSseController | texperts-mvp/src/simulation/SimulationState.ts:120-122 | the subscriber is appended unless already present |
| SimulationStates.SimulationState.RemoveSseController | texperts-mvp/src/simulation/SimulationState.ts:124-126 | the subscriber is removed, the others keep their order |
| SimulationStates.SimulationState.Broadcast | texperts-mvp/src/simulation/SimulationState.ts:129-144 | the message is delivered to every open subscriber in order, and exactly the subscribers whose enqueue throws are removed |
| SimulationStates.SimulationState.Advance | texperts-mvp/src/simulation/Orchestrator.ts:77 | `state.tick++` |
| SimulationStates.SimulationState.SetStatus | texperts-mvp/src/simulation/Orchestrator.ts:133 | the status becomes the given one |
| SimulationStates.SimulationState.Place | texperts-mvp/src/simulation/world/SpatialState.ts:21-29 | `setPosition` through the state, its invariant kept |
| SimulationStates.SimulationState.Record | texperts-mvp/src/simulation/EventLog.ts:11-19 | `eventLog.add` through the state: the log gains exactly the returned event |
| SimulationStates.SimulationState.Observe | texperts-mvp/src/simulation/Agent.ts:55-67 | `addObservation` on agent k through the state: k's memory gains the entry, every other agent's memory and every zone are unchanged |
| SimulationStates.World | texperts-mvp/src/simulation/SimulationState.ts:77-80 | a new tree, a new zone registry and an empty spatial table over that registry |
| SimulationStates.File | texperts-mvp/src/simulation/Agent.ts:55-67 | agent k's memory gains the observation; no other agent's memory or zone changes |
| SimulationStates.Hire | texperts-mvp/src/simulation/SimulationState.ts:90-98 | one pass of the loop for a configuration with a spawn tile: the loop invariant moves on by one configuration |
| SimulationStates.Recruit | texperts-mvp/src/simulation/SimulationState.ts:93-98 | `Spawn` beside the table built so far: its agents and memory streams are untouched, and the newcomer's stream is new |
| SimulationStates.Enlist | texperts-mvp/src/simulation/SimulationState.ts:89-99 | one pass of the loop: configuration i gets an agent when its starting zone has a spawn tile and is skipped otherwise |
| SimulationStates.Populate | texperts-mvp/src/simulation/SimulationState.ts:89-99 | the whole loop builds the table of `Initialize`'s contract |
| SimulationStates.Deliver | texperts-mvp/src/simulation/SimulationState.ts:133-139 | the first loop hands the message to the open subscribers in order and collects exactly the closed ones |
| SimulationStates.Drop | texperts-mvp/src/simulation/SimulationState.ts:141-143 | the second loop leaves exactly the open subscribers, without repeats |
| InjectRoute.RecipientsRule | texperts-mvp/src/app/api/simulation/inject/route.ts:22-24 | with a non-empty target only that agent is addressed (and nobody if it is unknown); without one every agent is; every addressed id is a known agent and none is addressed twice |
| InjectRoute.Post | texperts-mvp/src/app/api/simulation/inject/route.ts:6-58 | a missing, non-string or empty `text` gives the "text is required" response and changes nothing; otherwise the response is success, each addressed agent gains one importance-8 observation of the prefixed text in its own zone, numbered in order from the memory counter, other agents' memories are unchanged, one injection event under the target's name (or "all") is logged, and the tick message reaches every open subscriber while closed ones are dropped |
| InjectRoute.Inject | texperts-mvp/src/app/api/simulation/inject/route.ts:21-52 | the accepted path of `Post`: the deliveries, the event and the broadcast above |
| InjectRoute.Publish | texperts-mvp/src/app/api/simulation/inject/route.ts:40-52 | one injection event is logged and the tick message broadcast; agents, memories, zones and the tick are untouched |
| Perceptions.SameNotice | texperts-mvp/src/simulation/Agent.ts:55-67 | a delivered note is exactly the entry `addObservation` files |
| Perceptions.DeliveredSnoc | texperts-mvp/src/app/api/simulation/inject/route.ts:30-38 | serving one more listed agent extends the delivery by that agent's next-numbered notice |
| Perceptions.DeliveredOnce | texperts-mvp/src/app/api/simulation/inject/route.ts:30-38 | every listed agent gains exactly one memory, an observation with the note's tick, content and importance, appended after its old memories; every other agent gains none |
| Perceptions.Known | texperts-mvp/src/simulation/Orchestrator.ts:256-258 | the listed ids for which `agents.get` finds an agent, in order |
| Perceptions.KnownDistinct | texperts-mvp/src/simulation/Orchestrator.ts:256-258 | filtering to known agents keeps a list without repeats |
| Perceptions.Tell | texperts-mvp/src/app/api/simulation/inject/route.ts:30-38 | each listed agent, in order, files the observation with the next memory number, at its own zone unless a place is given; nothing else in the state changes |
| ScenarioLoader.FindById | texperts-mvp/src/simulation/ScenarioLoader.ts:26-28 | `find`: none exactly when no scenario has the id; otherwise the first scenario with that id |
| ScenarioLoader.GetScenarios | texperts-mvp/src/simulation/ScenarioLoader.ts:13-24 | one scenario, the pivot-decision one, with the default agent configurations |
| ScenarioLoader.GetScenario | texperts-mvp/src/simulation/ScenarioLoader.ts:26-28 | a listed scenario with the id, and none exactly when no listed scenario has it |
| ScenarioLoader.GetScenarioKnownIds | texperts-mvp/src/simulation/ScenarioLoader.ts:26-28 | a scenario is found exactly for the pivot id, and it is the first one |
| ScenarioLoader.GetDefaultScenarioConfig | texperts-mvp/src/simulation/ScenarioLoader.ts:30-39 | the first scenario's name, briefing and agents, a 3000 ms tick interval and speed 1 |
| LoopControl.Run | texperts-mvp/src/simulation/Orchestrator.ts:136-140 | as written: a tick and a newly armed, held timer exactly while running; otherwise nothing changes, the handle included |
| LoopControl.StartLoop | texperts-mvp/src/simulation/Orchestrator.ts:132-143 | nothing while a handle is held; otherwise running, one tick, and a timer held and armed |
| LoopControl.Fire | texperts-mvp/src/simulation/Orchestrator.ts:139 | a timer going off ticks exactly when the loop is running; with none armed nothing happens |
| LoopControl.Pause | texperts-mvp/src/simulation/Orchestrator.ts:145-151 | paused and no handle held; a held timer is cancelled, an unheld one is left as it was |
| LoopControl.Resume | texperts-mvp/src/simulation/Orchestrator.ts:153-156 | nothing while running; otherwise exactly `startLoop` |
| LoopControl.Step | texperts-mvp/src/simulation/Orchestrator.ts:158-161 | as written: paused, one tick, the timer and its handle left as they were |
| LoopControl.TrackedKept | texperts-mvp/src/simulation/Orchestrator.ts:132-161 | every control keeps "an armed timer has its handle held" |
| LoopControl.PauseThenResume | texperts-mvp/src/simulation/Orchestrator.ts:145-156 | `pause` then `resume` always restarts the loop with one tick and a held, armed timer |
| LoopControl.SpentHandleSticks | texperts-mvp/src/simulation/Orchestrator.ts:135-156 | as written, a loop that is not running, with a handle held and no timer armed, is left unchanged by `resume`, by a timer and by a second `resume` |
| LoopControl.ResumeAfterStepStalls | texperts-mvp/src/simulation/Orchestrator.ts:132-161 | as written: start, step, the pending timer fires, resume: no tick, still paused, nothing armed, and the next resume is a no-op too |
| LoopControl.FixedRun | texperts-mvp/src/simulation/Orchestrator.ts:136-140 | corrected: as `Run`, except that a return on a loop that is not running drops the handle |
| LoopControl.FixedStartLoop | texperts-mvp/src/simulation/Orchestrator.ts:132-143 | `startLoop` over the corrected loop: nothing while held, otherwise running with one tick and a held, armed timer |
| LoopControl.FixedFire | texperts-mvp/src/simulation/Orchestrator.ts:139 | corrected: a timer going off ticks exactly when the loop is running |
| LoopControl.FixedResume | texperts-mvp/src/simulation/Orchestrator.ts:153-156 | corrected: nothing while running, otherwise the corrected `startLoop` |
| LoopControl.FixedStep | texperts-mvp/src/simulation/Orchestrator.ts:158-161 | corrected: the state `pause` leaves (no timer) and one tick |
| LoopControl.HealthyKept | texperts-mvp/src/simulation/Orchestrator.ts:62-161 | a new orchestrator has a timer held and armed exactly while running, and every corrected control keeps that |
| LoopControl.FixedResumeRestarts | texperts-mvp/src/simulation/Orchestrator.ts:153-156 | corrected, `resume` on a loop that is not running always ticks once and leaves it running with a timer armed |
| LoopControl.FixedFireTicks | texperts-mvp/src/simulation/Orchestrator.ts:136-140 | corrected, a firing ticks exactly when running, and a running loop re-arms itself unchanged |
| LoopControl.ResumeAfterStepRestarts | texperts-mvp/src/simulation/Orchestrator.ts:132-161 | corrected, the start, step, fire, resume sequence ends running with one tick |
| MapGenerator.BorderInsideAndHalfOpen | texperts-mvp/src/game/map/MapGenerator.ts:105-114 | a border tile is inside its zone; the columns at `x + width` and rows at `y + height` are outside it; the top-left corner of a non-empty zone is on its border |
| MapGenerator.ZoneAt | texperts-mvp/src/simulation/world/ZoneRegistry.ts:26-34 | a zone found is one of the list and contains the tile; nothing is found exactly when no zone contains it |
| MapGenerator.ZoneAtIsFirst | texperts-mvp/src/simulation/world/ZoneRegistry.ts:26-34 | the zone found is the first one in list order that contains the tile |
| MapGenerator.ById | texperts-mvp/src/simulation/world/ZoneRegistry.ts:10-14 | the (id, zone) pairs of the zone list, one per zone, in order |
| MapGenerator.ZoneDefsIdsDistinct | texperts-mvp/src/game/map/MapGenerator.ts:8-99 | the ten zone ids are pairwise different |
| MapGenerator.ZoneDefsDisjoint | texperts-mvp/src/game/map/MapGenerator.ts:8-99 | no tile lies inside two zones |
| MapGenerator.ZoneAtExamples | texperts-mvp/src/game/map/MapGenerator.ts:8-17 | the boardroom's spawn tile (20, 14) is in the boardroom, and (10, 10) is in no zone |
| MapGenerator.ZoneDefsInterior | texperts-mvp/src/game/map/MapGenerator.ts:8-99 | every zone lies inside the map, one tile clear of the outer wall |
| MapGenerator.DoorwaysOffPerimeter | texperts-mvp/src/game/map/MapGenerator.ts:177-210 | the doorway tiles of such a zone never lie on the outer wall |
| MapGenerator.Row | texperts-mvp/src/game/map/MapGenerator.ts:227-234 | the furniture row stays in the half-open column range, on its row |
| MapGenerator.CreateEmptyGrid | texperts-mvp/src/game/map/MapGenerator.ts:101-103 | a new `height` by `width` grid, every cell `fill` |
| MapGenerator.SetTile | texperts-mvp/src/game/map/MapGenerator.ts:143-144 | one cell gets the tile type and the walkable flag that goes with it; every other cell is unchanged |
| MapGenerator.BuildPerimeter | texperts-mvp/src/game/map/MapGenerator.ts:121-133 | the outer ring becomes wall, every other cell is unchanged, and walkability stays consistent with the tiles |
| MapGenerator.BuildZoneWalls | texperts-mvp/src/game/map/MapGenerator.ts:139-147 | exactly the zone's border tiles become wall; every other cell is unchanged |
| MapGenerator.CutDoorways | texperts-mvp/src/game/map/MapGenerator.ts:152-158 | every doorway inside the map becomes a walkable door; every cell that is not a doorway is unchanged |
| MapGenerator.PlaceFurniture | texperts-mvp/src/game/map/MapGenerator.ts:212-262 | every listed position strictly inside the map, off the spawn tile and not on a wall or a door becomes furniture; every cell that changes is such a position and becomes furniture; cells whose tile is unchanged keep their walkability |
| MapGenerator.BuildZones | texperts-mvp/src/game/map/MapGenerator.ts:135-164 | after walls and doorways for every zone, then furniture for every zone: every zone border is wall or door; every in-map doorway that no later zone's wall covers is a door; every furniture candidate strictly inside the map and off its spawn tile is furniture unless a wall or door holds it; the outer ring stays wall; walkability stays consistent with the tiles; every cell that changes is a border tile, doorway or furniture candidate of some zone |
| MapGenerator.Enclose | texperts-mvp/src/game/map/MapGenerator.ts:136-159 | one zone's walls and then its doorways: its border joins the wall-or-door border tiles, its doorways are doors unless a later wall covers them, and every cell that changes is one the zone lays: a border tile, a doorway or a furniture candidate off its spawn tile |
| MapGenerator.Furnish | texperts-mvp/src/game/map/MapGenerator.ts:162-164 | one zone's furniture: borders and doors stay, the zone's admitted candidates become furniture, and every cell that changes is one the zone lays: a border tile, a doorway or a furniture candidate off its spawn tile |
| MapGenerator.DoorwaysAtEdge | texperts-mvp/src/game/map/MapGenerator.ts:177-210 | every doorway tile is on the zone's border or one tile outside it, never in its inner part |
| MapGenerator.FurnitureInside | texperts-mvp/src/game/map/MapGenerator.ts:218-247 | every furniture candidate of a zone at least 6 by 6, or of an office, lies inside the zone |
| MapGenerator.ZoneDefsFurnitureInside | texperts-mvp/src/game/map/MapGenerator.ts:8-99 | every furniture candidate of the ten zones lies inside its zone |
| MapGenerator.ZoneDefsSpawnsInner | texperts-mvp/src/game/map/MapGenerator.ts:8-99 | every zone's spawn tile lies inside the zone and off its border |
| MapGenerator.ZoneDefsSeparated | texperts-mvp/src/game/map/MapGenerator.ts:8-99 | any two of the ten zones have at least one corridor tile between them |
| MapGenerator.SpawnNotLaid | texperts-mvp/src/game/map/MapGenerator.ts:218 | a zone writes nothing on an inner spawn tile of its own, nor on one of a zone separated from it |
| MapGenerator.SpawnTilesClear | texperts-mvp/src/game/map/MapGenerator.ts:8-99 | every spawn tile lies off the outer wall, and no zone's border, doorway or furniture candidate covers it |
| MapGenerator.DoorwaysStayOpen | texperts-mvp/src/game/map/MapGenerator.ts:135-159 | no doorway of one zone lies on another zone's border, so no later wall closes it |
| MapGenerator.DoorOpened | texperts-mvp/src/game/map/MapGenerator.ts:152-158 | a doorway of a zone clear of the outer wall, on no other zone's border, ends as a door in the map |
| MapGenerator.DoorsOpened | texperts-mvp/src/game/map/MapGenerator.ts:152-158 | with no doorway on another zone's border, every doorway of every zone ends as a door in the map |
| MapGenerator.Layout | texperts-mvp/src/game/map/MapGenerator.ts:121-164 | on all-floor, walkable grids, steps 1 to 3 leave the outer ring non-walkable wall, every border wall or door, every doorway a walkable door, every admitted furniture candidate furniture, and every other cell inside the ring walkable floor, spawn tiles included |
| MapGenerator.Settled | texperts-mvp/src/game/map/MapGenerator.ts:121-164 | once built, walkability follows the tiles: doorways and untouched cells are walkable, the ring is not, and every spawn tile is walkable floor |
| MapGenerator.GenerateMap | texperts-mvp/src/game/map/MapGenerator.ts:116-175 | three new 30 x 40 grids and the zone list as defined: the ground all floor; a cell walkable exactly when it is neither wall nor furniture; the outer ring non-walkable wall; every room border wall or door; every doorway a walkable door; every furniture candidate strictly inside the map and off its spawn tile furniture unless a wall or door holds it; every other cell inside the ring, every spawn tile included, walkable floor |
| Orchestrators.Start | texperts-mvp/src/simulation/Orchestrator.ts:69-71 | every scripted agent's cursor starts at 0, and only scripted agents have one |
| Orchestrators.MockStepCursor | texperts-mvp/src/simulation/Orchestrator.ts:172-183 | `getMockAction` moves only the agent's own cursor, by one exactly when it has a script with actions left; the tick does not affect the cursor |
| Orchestrators.MockReplay | texperts-mvp/src/simulation/Orchestrator.ts:172-183 | after n calls from a fresh cursor the cursor is min(n, script length); the next call gives nothing for an unscripted agent, the n-th scripted action stamped with the present tick while actions remain, and the "Listening" wait after that |
| Orchestrators.Waits | texperts-mvp/src/simulation/Orchestrator.ts:167 | the sort keys are the agents' waiting counters, in table order |
| Orchestrators.TurnOrderSorted | texperts-mvp/src/simulation/Orchestrator.ts:165-170 | the turn order is a permutation of the agents, by waiting counter from longest to shortest, with ties in table order (a stable sort) |
| Orchestrators.ReflectionMessages | texperts-mvp/src/simulation/Orchestrator.ts:103-119 | one completed `think` per insight, in order, carrying the insight and the agent's emotion |
| Orchestrators.Leaving | texperts-mvp/src/simulation/Orchestrator.ts:226-228 | leaving a zone's conversation keeps the conversation tracker's invariant |
| Orchestrators.MoveTarget | texperts-mvp/src/simulation/Orchestrator.ts:221-223 | a move goes ahead exactly when the destination is a non-empty known zone id, and then it heads for that zone's spawn tile |
| Orchestrators.ActionMessages | texperts-mvp/src/simulation/Orchestrator.ts:215-372 | at most one message; `speak` and `think` give their completed action, a `move_to` gives one exactly when it goes ahead, `wait` gives none |
| Orchestrators.ActionEvent | texperts-mvp/src/simulation/Orchestrator.ts:215-372 | an event is logged exactly when a message is sent; a speech or thought event carries the summary, else the content, else empty text |
| Orchestrators.FanoutSize | texperts-mvp/src/simulation/Orchestrator.ts:117-118 | broadcasting several messages makes one delivery per message and open subscriber |
| Orchestrators.FanoutSnoc | texperts-mvp/src/simulation/Orchestrator.ts:117-118 | the deliveries of one more message come after the earlier ones |
| Orchestrators.FanoutNext | texperts-mvp/src/simulation/Orchestrator.ts:117-118 | broadcasting the next message to the surviving subscribers extends the deliveries in order |
| Orchestrators.Turns | texperts-mvp/src/simulation/Orchestrator.ts:167 | the waiting counter of every agent of the table |
| Orchestrators.Orchestrator.constructor | texperts-mvp/src/simulation/Orchestrator.ts:51-72 | mock mode exactly when no key is given; with a key, a cognitive loop and a reflection engine over the same client with empty buffers; no conversations; every scripted agent's cursor at 0; no timer |
| Orchestrators.Orchestrator.GetMockAction | texperts-mvp/src/simulation/Orchestrator.ts:172-183 | the action and cursor `MockStepCursor` and `MockReplay` describe |
| Orchestrators.Orchestrator.GetAgentsInTurnOrder | texperts-mvp/src/simulation/Orchestrator.ts:165-170 | the turn order is the stable sort of the table by the counters before the call (longest-waiting first, ties in table order), it lists every agent exactly once, and every agent's counter goes up by one; the table is unchanged |
| Orchestrators.Orchestrator.Bump | texperts-mvp/src/simulation/Orchestrator.ts:168 | one pass of the increment loop: agent i's counter goes up by one |
| Orchestrators.Orchestrator.Nearby | texperts-mvp/src/simulation/Orchestrator.ts:256-258 | exactly the ids `getAgentsInSameZone` lists that are in the agent table |
| Orchestrators.Orchestrator.Perceive | texperts-mvp/src/simulation/Orchestrator.ts:267-272 | each listed agent, in order, gains the perception in the cognitive loop; memories, log and history are unchanged |
| Orchestrators.Orchestrator.Spread | texperts-mvp/src/simulation/Orchestrator.ts:255-274 | each listener, in order, files the observation with the next memory number and gains the perception; nothing is logged |
| Orchestrators.Orchestrator.Walk | texperts-mvp/src/simulation/Orchestrator.ts:226-245 | the agent leaves its old zone's conversation and joins the destination's, the one-tile move is broadcast, and its position is filed under the tile's zone |
| Orchestrators.Orchestrator.Transfer | texperts-mvp/src/simulation/Orchestrator.ts:226-245 | the conversations' side of a move: leave the old zone's (if any), join the destination's |
| Orchestrators.Orchestrator.Leave | texperts-mvp/src/simulation/Orchestrator.ts:226-228 | `removeParticipant` on a truthy zone only |
| Orchestrators.Orchestrator.Join | texperts-mvp/src/simulation/Orchestrator.ts:245 | `addParticipant` on the destination at the present tick |
| Orchestrators.Orchestrator.Settle | texperts-mvp/src/simulation/Orchestrator.ts:231-241 | the move message is broadcast and the position filed; the conversations are unchanged |
| Orchestrators.Orchestrator.Stand | texperts-mvp/src/simulation/Orchestrator.ts:238-242 | the agent stands on the tile, in the destination zone, idle |
| Orchestrators.Orchestrator.Arrive | texperts-mvp/src/simulation/Orchestrator.ts:247-274 | one movement event "… moved to …" is logged; every agent now sharing the zone gains the importance-3 arrival observation filed at the destination, about the newcomer, and the arrival perception |
| Orchestrators.Orchestrator.Log | texperts-mvp/src/simulation/Orchestrator.ts:247-253 | the log gains exactly one event for the agent at the present tick; memories are unchanged |
| Orchestrators.Orchestrator.Listeners | texperts-mvp/src/simulation/Orchestrator.ts:298-299 | the agents sharing the speaker's zone that are in the table, without repeats |
| Orchestrators.Orchestrator.Announce | texperts-mvp/src/simulation/Orchestrator.ts:83 | `state.broadcast`: every open subscriber gets the message, the closed ones are dropped |
| Orchestrators.Orchestrator.Express | texperts-mvp/src/simulation/Orchestrator.ts:279-280 | the status is set, and the emotion is the action's when it has one, else unchanged |
| Orchestrators.Orchestrator.Rest | texperts-mvp/src/simulation/Orchestrator.ts:336 | the agent is idle |
| Orchestrators.Orchestrator.Voice | texperts-mvp/src/simulation/Orchestrator.ts:279-287 | the status and emotion are set and the completed action is the one message, broadcast |
| Orchestrators.Orchestrator.Converse | texperts-mvp/src/simulation/Orchestrator.ts:319-334 | with a truthy zone, the zone's conversation gains the turn (content or empty) and the cognitive loop's history of the zone gains "name: content"; otherwise neither changes |
| Orchestrators.Orchestrator.Turn | texperts-mvp/src/simulation/Orchestrator.ts:321-327 | `addTurn` on the zone's conversation at the present tick |
| Orchestrators.Orchestrator.Heard | texperts-mvp/src/simulation/Orchestrator.ts:298-334 | the log is unchanged |
| Orchestrators.Orchestrator.Speak | texperts-mvp/src/simulation/Orchestrator.ts:278-338 | the completed action is the one message, a speech event with the action's text and target is logged, the emotion is the action's when it has one, and the agent ends idle |
| Orchestrators.Orchestrator.Echo | texperts-mvp/src/simulation/Orchestrator.ts:298-334 | the log is unchanged |
| Orchestrators.Orchestrator.Utter | texperts-mvp/src/simulation/Orchestrator.ts:279-296 | the opening of `speak` or `think`: status and emotion set, the action broadcast as the one message, one event of the given kind with the action's text; memories unchanged |
| Orchestrators.Orchestrator.Ponder | texperts-mvp/src/simulation/Orchestrator.ts:340-363 | the completed action is the one message, a thought event with the action's text is logged, the agent's memory gains the importance-4 "I thought: …" observation with no location, and the agent ends idle |
| Orchestrators.Orchestrator.Remember | texperts-mvp/src/simulation/Orchestrator.ts:351 | the agent's memory gains exactly that observation with the next memory number |
| Orchestrators.Orchestrator.Go | texperts-mvp/src/simulation/Orchestrator.ts:220-276 | a move that does not go ahead changes nothing; otherwise the move is the one message, the agent ends idle on the destination's spawn tile, in the destination zone, and one movement event is logged |
| Orchestrators.Orchestrator.Travel | texperts-mvp/src/simulation/Orchestrator.ts:225-275 | the move is the one message, the agent stands idle on the tile in the destination zone, and one movement event is logged |
| Orchestrators.Orchestrator.Relocate | texperts-mvp/src/simulation/Orchestrator.ts:225-275 | the move is the one message and one movement event is logged |
| Orchestrators.Orchestrator.Land | texperts-mvp/src/simulation/Orchestrator.ts:247-274 | one movement event is logged |
| Orchestrators.Orchestrator.ExecuteAction | texperts-mvp/src/simulation/Orchestrator.ts:215-372 | the action becomes the agent's last action; the messages are `ActionMessages`, the status afterwards follows the action's case, and the log gains exactly `ActionEvent`'s event |
| Orchestrators.Orchestrator.Adopt | texperts-mvp/src/simulation/Orchestrator.ts:217 | the action becomes the agent's last action |
| Orchestrators.Orchestrator.Perform | texperts-mvp/src/simulation/Orchestrator.ts:219-369 | the messages, status and logged event of the switch, as for `ExecuteAction` |
| Orchestrators.Orchestrator.Deliberate | texperts-mvp/src/simulation/Orchestrator.ts:196-206 | the action, emotion and plan are those adopted from the model's next reply (the fallback when the call fails), the agent's pending perceptions are consumed, and its position, status, last action and counter are unchanged |
| Orchestrators.Orchestrator.GetRealAction | texperts-mvp/src/simulation/Orchestrator.ts:185-213 | without a cognitive loop, the mock script's next action; with one, the "thinking" message is broadcast and the action is the model's, and the script cursors are unchanged |
| Orchestrators.Orchestrator.Script | texperts-mvp/src/simulation/Orchestrator.ts:186 | the mock script's next action, nothing broadcast |
| Orchestrators.Orchestrator.Consult | texperts-mvp/src/simulation/Orchestrator.ts:188-208 | the "thinking" message is broadcast, then the action is the model's |
| Orchestrators.Orchestrator.Proclaim | texperts-mvp/src/simulation/Orchestrator.ts:103-119 | each message is broadcast in turn: every open subscriber gets every message in order |
| Orchestrators.Orchestrator.ProclaimNext | texperts-mvp/src/simulation/Orchestrator.ts:117-118 | one more message broadcast extends the deliveries |
| Orchestrators.Orchestrator.Contemplate | texperts-mvp/src/simulation/Orchestrator.ts:102 | with no recent observations nothing happens; otherwise the insights are the model's reply (the fallback when the call fails) and become reflection memories numbered from the counter; the log, subscribers, last action and counter are unchanged |
| Orchestrators.Orchestrator.Introspect | texperts-mvp/src/simulation/Orchestrator.ts:100-123 | without a reflection engine, or when reflection is not due, nothing; otherwise the insights become reflection memories and are broadcast in order as completed `think` messages with the agent's emotion |
| Orchestrators.Orchestrator.Confide | texperts-mvp/src/simulation/Orchestrator.ts:100-119 | a due reflection: the insights become reflection memories and are broadcast in order as completed `think` messages |
| Orchestrators.Orchestrator.TakeTurn | texperts-mvp/src/simulation/Orchestrator.ts:94-123 | the action, stamped with the present tick, becomes the last action, the counter is 0, the messages begin with the action's, and the log gains exactly the action's event |
| Orchestrators.Orchestrator.Act | texperts-mvp/src/simulation/Orchestrator.ts:95-97 | `executeAction` then the counter back to 0: the action's messages and event |
| Orchestrators.Orchestrator.Refresh | texperts-mvp/src/simulation/Orchestrator.ts:97 | the agent's waiting counter is 0 |
| Orchestrators.Orchestrator.Visit | texperts-mvp/src/simulation/Orchestrator.ts:87-97 | one pass of the loop over agent k: if k got an action, its counter is 0, its last action carries the present tick and the action's messages open the visit's messages; if not, the visit sends nothing and k's counter is kept; every other agent's counter and last action are untouched |
| Orchestrators.Orchestrator.Attend | texperts-mvp/src/simulation/Orchestrator.ts:88-97 | the action is the mock script's next step in mock mode, otherwise the model's reply adopted as the agent's action; without one the last action is kept; the visit ends as `Visit` states for agent k |
| Orchestrators.Revisited | texperts-mvp/src/simulation/Orchestrator.ts:87-97 | one visit moves the loop on: agents visited earlier keep their outcome, the visited agent gains its own, the agents still to come keep their raised counters, and the messages so far are extended by the visit's messages |
| Orchestrators.Orchestrator.Sweep | texperts-mvp/src/simulation/Orchestrator.ts:87-127 | visiting the agents in the given order leaves each with the outcome of its own visit measured from its raised counter, and the messages are the visits' messages in that order |
| Orchestrators.Orchestrator.RunTick | texperts-mvp/src/simulation/Orchestrator.ts:74-130 | the tick goes up by one; the messages are the tick message with its "Tick n" label followed by every visit's messages in turn order; the turn order is that of `getAgentsInTurnOrder`; each agent that acted ends with counter 0 and a last action stamped with the new tick, each one that did not ends with its old counter plus one; the status is unchanged |
| Orchestrators.Orchestrator.Begin | texperts-mvp/src/simulation/Orchestrator.ts:75-83 | the tick goes up by one and its message is broadcast |
| Orchestrators.Orchestrator.Round | texperts-mvp/src/simulation/Orchestrator.ts:85-127 | the messages are the visits' messages concatenated in turn order; each agent that acted ends with counter 0 and a last action stamped with the tick, each one that did not ends with its counter from before the loop plus one; the table, tick and status are unchanged |
| Orchestrators.Orchestrator.Loop | texperts-mvp/src/simulation/Orchestrator.ts:136-140 | the corrected loop body: the timer state `LoopControl.FixedRun` gives, and one tick exactly when it ticks |
| Orchestrators.Orchestrator.StartLoop | texperts-mvp/src/simulation/Orchestrator.ts:132-143 | the timer state of `LoopControl.FixedStartLoop`, and one tick exactly when it ticks |
| Orchestrators.Orchestrator.Fire | texperts-mvp/src/simulation/Orchestrator.ts:139 | a firing timer: the timer state of `LoopControl.FixedFire`, and one tick exactly when it ticks |
| Orchestrators.Orchestrator.Pause | texperts-mvp/src/simulation/Orchestrator.ts:145-151 | the timer state of `LoopControl.Pause`; no tick |
| Orchestrators.Orchestrator.Resume | texperts-mvp/src/simulation/Orchestrator.ts:153-156 | the timer state of `LoopControl.FixedResume`, and one tick exactly when it ticks |
| Orchestrators.Orchestrator.Step | texperts-mvp/src/simulation/Orchestrator.ts:158-161 | the timer state of `LoopControl.FixedStep`, one tick, and the tick message first |
| SimulationStores.FindAgent | texperts-mvp/src/store/useSimulationStore.ts:85 | `find`: an agent with the id from the list, and none exactly when no agent has it |
| SimulationStores.UpdateAgents | texperts-mvp/src/store/useSimulationStore.ts:86-92 | `map`: same length, every agent with the id updated, every other agent unchanged |
| SimulationStores.ReflectionEvents | texperts-mvp/src/store/useSimulationStore.ts:168-178 | one reflection event per insight, in order, at the store's tick, under the agent |
| SimulationStores.AddEventKeepsNewest | texperts-mvp/src/store/useSimulationStore.ts:63-66 | `addEvent` keeps at most 100 events, the new one last: the last 100 of the grown list |
| SimulationStores.AddEventsKeepNewest | texperts-mvp/src/store/useSimulationStore.ts:168-178 | adding several events one at a time keeps the last 100 of the whole grown list |
| SimulationStores.AddEventsAppend | texperts-mvp/src/store/useSimulationStore.ts:168-178 | adding one more event after several is adding it to their result |
| SimulationStores.SnapshotRule | texperts-mvp/src/store/useSimulationStore.ts:55-61 | a snapshot replaces tick, status, agents and events and leaves the selection, speed and connection flag |
| SimulationStores.QuietMessages | texperts-mvp/src/store/useSimulationStore.ts:76-78 | a tick message sets only the tick; token and error messages, which the switch has no case for, change nothing |
| SimulationStores.MoveRule | texperts-mvp/src/store/useSimulationStore.ts:80-105 | an empty path changes nothing; otherwise every agent with the id moves to the path's last tile with status moving, keeping name and emotion, the others are unchanged, and one movement event about it is added |
| SimulationStores.ActionCompleteRule | texperts-mvp/src/store/useSimulationStore.ts:107-155 | the acting agent becomes idle, with the action's emotion if it has one; `speak` and `react` add a speech event and `think` a thought event carrying the action's text; `move_to` and `wait` add none |
| SimulationStores.ThinkingRule | texperts-mvp/src/store/useSimulationStore.ts:157-163 | only the status of the agents with the id changes, to thinking |
| SimulationStores.ReflectionRule | texperts-mvp/src/store/useSimulationStore.ts:165-180 | one reflection event per insight, in order, within the 100-event window; agents and tick unchanged |
| SimulationStores.SystemMessagesRule | texperts-mvp/src/store/useSimulationStore.ts:182-204 | `phase_change` and `perception` each add one system event at the store's tick, carrying "Phase: " and the description, or the perceived content under the agent |
| SimulationStores.EventsStayCapped | texperts-mvp/src/store/useSimulationStore.ts:63-205 | no message makes the store hold more than 100 events |
| SimulationStores.SimulationStore.constructor | texperts-mvp/src/store/useSimulationStore.ts:41-48 | tick 0, stopped, no agents, no events, nothing selected, speed 1, disconnected |
| SimulationStores.SimulationStore.ApplySnapshot | texperts-mvp/src/store/useSimulationStore.ts:55-61 | the state after a `state_sync` of the snapshot |
| SimulationStores.SimulationStore.AddEvent | texperts-mvp/src/store/useSimulationStore.ts:63-66 | only the events change: the newest 99 and the new one |
| SimulationStores.SimulationStore.HandleServerMessage | texperts-mvp/src/store/useSimulationStore.ts:68-206 | the new state is the message's rule applied to the old one |
| EventBuses.SetAdd | texperts-mvp/src/game/EventBus.ts:10 | `Set.add`: the members are the old ones and the callback |
| EventBuses.WithListener | texperts-mvp/src/game/EventBus.ts:6-11 | `on` keeps the table's invariant (each event's set has no repeats) |
| EventBuses.WithoutListener | texperts-mvp/src/game/EventBus.ts:13-15 | `off` keeps the table's invariant |
| EventBuses.Cleared | texperts-mvp/src/game/EventBus.ts:21-27 | `removeAllListeners` keeps the table's invariant |
| EventBuses.WellFormedPreserved | texperts-mvp/src/game/EventBus.ts:6-27 | `on`, `off` and `removeAllListeners` keep every event's callbacks free of repeats |
| EventBuses.OnThenEmit | texperts-mvp/src/game/EventBus.ts:6-19 | after `on`, emitting the event calls exactly the old callbacks and the new one; other events are unaffected |
| EventBuses.OnIdempotent | texperts-mvp/src/game/EventBus.ts:6-11 | registering the same callback twice is registering it once |
| EventBuses.EmitOnce | texperts-mvp/src/game/EventBus.ts:17-19 | `emit` calls each callback of the event at most once |
| EventBuses.OffRule | texperts-mvp/src/game/EventBus.ts:13-15 | `off` on an unknown event changes nothing; otherwise emitting calls exactly the old callbacks but that one; other events are unaffected |
| EventBuses.RemoveAllRule | texperts-mvp/src/game/EventBus.ts:21-27 | with a non-empty event name only that event loses its callbacks; without one every event does |
| EventBuses.EventBusImpl.constructor | texperts-mvp/src/game/EventBus.ts:3-4 | no listeners |
| EventBuses.EventBusImpl.On | texperts-mvp/src/game/EventBus.ts:6-11 | the table becomes `WithListener` of the old one |
| EventBuses.EventBusImpl.Off | texperts-mvp/src/game/EventBus.ts:13-15 | the table becomes `WithoutListener` of the old one |
| EventBuses.EventBusImpl.Emit | texperts-mvp/src/game/EventBus.ts:17-19 | the callbacks called, in insertion order, are those registered for the event |
| EventBuses.EventBusImpl.RemoveAllListeners | texperts-mvp/src/game/EventBus.ts:21-27 | the table becomes `Cleared` of the old one |
| Bubbles.DismissDelay | texperts-mvp/src/game/entities/BubbleManager.ts:184-190 | the auto-dismiss delay is 30 ms per UTF-16 code unit of the text (`text.length`) plus the requested duration, 5000 ms when none is given; the typewriter part lies between 30 and 60 ms per character |
| Bubbles.DismissDelayPerCharacter | texperts-mvp/src/game/entities/BubbleManager.ts:186 | the typewriter time is 30 ms per character exactly when no character of the text lies beyond U+FFFF |
| Bubbles.DismissDelaySurrogatePair | texperts-mvp/src/game/entities/BubbleManager.ts:185-187 | a bubble whose text is one emoji (two code units) and has no duration is dismissed after 2 * 30 + 5000 = 5060 ms |
| Bubbles.NoBubbles | texperts-mvp/src/game/entities/BubbleManager.ts:49-51 | a new manager, with no bubbles, queues or registered agents, satisfies the invariant |
| Bubbles.DismissedEach | texperts-mvp/src/game/entities/BubbleManager.ts:122-126 | dismissing the listed agents one after another keeps the active table well formed |
| Bubbles.RegisterKeepsInv | texperts-mvp/src/game/entities/BubbleManager.ts:54-56 | registering an agent keeps the invariant: bubbles only for registered agents, filed under their own agent, and requests wait only behind an active bubble of their own agent |
| Bubbles.CreateKeepsInv | texperts-mvp/src/game/entities/BubbleManager.ts:130-191 | creating a bubble for an agent without one keeps the invariant |
| Bubbles.ShowKeepsInv | texperts-mvp/src/game/entities/BubbleManager.ts:59-70 | `show` keeps the invariant |
| Bubbles.AppendTokenKeepsInv | texperts-mvp/src/game/entities/BubbleManager.ts:73-82 | `appendToken` keeps the invariant |
| Bubbles.DismissKeepsInv | texperts-mvp/src/game/entities/BubbleManager.ts:96-119 | `dismiss` keeps the invariant |
| Bubbles.ShowRule | texperts-mvp/src/game/entities/BubbleManager.ts:59-70 | with a bubble active the request joins the end of the agent's queue; without one a registered agent gets a bubble with the request's type, text and dismiss delay; an unregistered agent gets nothing |
| Bubbles.AppendTokenRule | texperts-mvp/src/game/entities/BubbleManager.ts:73-82 | with no active bubble nothing changes; otherwise the token is appended to the bubble's full text |
| Bubbles.DismissPromotesHead | texperts-mvp/src/game/entities/BubbleManager.ts:96-119 | with no active bubble nothing changes; with an empty queue the bubble goes; otherwise the first waiting request becomes the active bubble and leaves the queue |
| Bubbles.DismissEachEffect | texperts-mvp/src/game/entities/BubbleManager.ts:122-126 | after dismissing listed agents, each of them has a bubble exactly when it had one waiting; every other agent's bubble and queue are unchanged |
| Bubbles.DismissOthersAlone | texperts-mvp/src/game/entities/BubbleManager.ts:96-119 | dismissing one agent leaves every other agent's bubble and queue as they were |
| Bubbles.DismissAllRule | texperts-mvp/src/game/entities/BubbleManager.ts:122-126 | `dismissAll` keeps the invariant, and afterwards an agent has a bubble exactly when it had one active and another waiting |
| Bubbles.BubbleManager.constructor | texperts-mvp/src/game/entities/BubbleManager.ts:49-51 | no bubbles, no queues, no registered agents |
| Bubbles.BubbleManager.RegisterAgent | texperts-mvp/src/game/entities/BubbleManager.ts:54-56 | the agent is registered |
| Bubbles.BubbleManager.Show | texperts-mvp/src/game/entities/BubbleManager.ts:59-70 | the state becomes that of `ShowRule` |
| Bubbles.BubbleManager.AppendToken | texperts-mvp/src/game/entities/BubbleManager.ts:73-82 | the state becomes that of `AppendTokenRule` |
| Bubbles.BubbleManager.Dismiss | texperts-mvp/src/game/entities/BubbleManager.ts:96-119 | the state becomes that of `DismissPromotesHead`, and the invariant holds |
| Bubbles.BubbleManager.DismissAll | texperts-mvp/src/game/entities/BubbleManager.ts:122-126 | every agent active at the start is dismissed in table order |
| Bubbles.BubbleManager.CreateBubble | texperts-mvp/src/game/entities/BubbleManager.ts:130-191 | an unregistered agent gets nothing; a registered one gets the active bubble with the request's type, text and dismiss delay |

## Left out

- Timers and pacing: `setTimeout`, `sleep` between agents and the interval `intervalMs / speed` are not modelled. A tick runs to completion before anything else happens, and a timer is only a flag in `LoopControl.Timer`.
- Async interleaving: the awaits of `runTick` are modelled as sequential calls. Concurrent requests to the routes are not modelled.
- The language model and its network call (`llm/ClaudeClient.ts`): an oracle that replays a script of replies or fails. Only the fallback shapes and the reply parsing are modelled, and the reflection replies only in the two shapes named in the next line.
- LanguageModels.ReflectionsFrom and Orchestrators.Orchestrator.Introspect: a reflection reply is assumed to be either a JSON array of strings or text that is not JSON. The other JSON values that `JSON.parse(...) as string[]` lets through (`llm/ClaudeClient.ts:172`) are not modelled: a JSON string, which `ReflectionEngine.ts:35-37` would iterate as one reflection per character; an object, number or null, which throws there; and an array with a non-string item, which throws in `Agent.ts:70` after the earlier items are stored. So the `catch` of `runTick` that swallows these throws (`Orchestrator.ts:120-122`) is not modelled either.
- JsText.LowerChar, Agents.ContentKeywords and MemoryStreams.ExtractKeywords: `toLowerCase` is modelled on the ASCII letters only, so a word such as "Über" keeps its capital. JavaScript also lower-cases some non-ASCII letters to ASCII ones: "İ" (U+0130) becomes "i" followed by U+0307, and the Kelvin sign (U+212A) becomes "k". Both then survive the `[^a-z0-9\s]` filter, so the source extracts "istanbul" from "İSTANBUL" where the model extracts "stanbul". `w.length > 3` is modelled as more than three characters, where a character is a Unicode scalar value. JavaScript counts UTF-16 code units, so "a😀b" has length 4 there and 3 here.
- Token streaming: the `agent_stream_token` broadcasts that `getRealAction` makes while the model streams are not modelled. `Orchestrators.Orchestrator.GetRealAction` states only the `agent_thinking` broadcast.
- The `catch` of `getRealAction`: `think` never throws, because the client's failures become its fallback action, so the mock fallback on an exception is not modelled.
- Floating point: `Math.exp(-age * 0.1)` is a parameter `recency: int -> real`, and scores are reals. No rounding is modelled.
- SSE transport: the byte encoding of messages and the `ReadableStreamDefaultController` are not modelled. A subscriber is an id whose enqueue either succeeds or throws, and deliveries are recorded in order.
- Wall-clock timestamps, `Date.now()` ids and the `Math.random()` suffix of the client's reflection ids. Timestamps are dropped, and the clock reading is a parameter.
- Rendering: Phaser drawing, tweens, the typewriter and `updatePositions` of `BubbleManager.ts`. A dismissal completes at once, with no fade-out in between, so a second dismiss of the same bubble during the 300 ms fade (`BubbleManager.ts:96-118`) is not captured.
- The callback arguments of `EventBus.emit`. Callbacks are opaque ids, and `emit` returns the callbacks it would call. Re-entrant registration is not modelled either: `emit` iterates the live Set (EventBus.ts:18), so a callback that calls `on` or `off` during `emit` changes which callbacks run in that same `emit`, while the model fixes the list when `emit` starts.
- The one-field setters (`setStatus`, `setSelectedAgent`, `setSpeed`, `setConnected`) and the fetch-based actions of `useSimulationStore.ts`.
- Request parsing in the injection route: the body arrives parsed, so the "Invalid request body" reply to malformed JSON is not modelled.
- The `getSimulationState` singleton and the `ANTHROPIC_API_KEY` environment lookup. The state and the key are constructor parameters.
- Orchestrators.Orchestrator.constructor: the mock script `MOCK_ACTIONS` is a parameter `script`. Every scripted agent's cursor still starts at 0.
- Orchestrators.Orchestrator.Step: modelled corrected, so step cancels a pending timer as pause does. The as-written behaviour is `LoopControl.Step`; see Findings.
- Orchestrators.Orchestrator.Loop: modelled corrected, so a return on a loop that is not running drops the spent handle. The as-written behaviour is `LoopControl.Run`; see Findings.
- Orchestrators.Orchestrator.StartLoop, Orchestrators.Orchestrator.Fire and Orchestrators.Orchestrator.Resume: they are built on the corrected loop body, as above.
- Orchestrators.Orchestrator.Heard: states only that the log is unchanged. Its effects are stated by `Converse` (the conversation turn) and `Spread` (the importance-6 observations and perceptions).
- Orchestrators.Orchestrator.Echo: states only that the log is unchanged. Its effects are those of `Heard`'s callees.
- Orchestrators.Orchestrator.Speak: does not restate the listeners' observations or the conversation turn, which `Converse` and `Spread` state.
- Orchestrators.Orchestrator.TakeTurn: states that the action's messages come first, not what the reflection messages after them are. `Introspect` states those.
- Effects that touch disjoint state are applied in a different order than in the source, and no caller can observe the difference:
  - `think` files the "I thought" memory after logging its event;
  - a speech's conversation turn comes before the listeners' observations;
  - a moving agent's own tile and zone fields are set after the arrival is logged.
  - `initialize` logs its "Simulation initialized" system event before the agent table is built, not after it; the event counter and the memory counter are separate, so the ids are the same either way.
- The `moving` status of a walking agent is set and cleared within one call, so no other step can observe it.

## Findings

| source | as written | input that shows it | evidently intended | confidence | as-written member | corrected member |
|---|---|---|---|---|---|---|
| texperts-mvp/src/simulation/Orchestrator.ts:132-161 | `loop` returns early on a loop that is not running without clearing `tickInterval`, and `step` sets `paused` without cancelling the pending timer | `startLoop()`, then `step()`; the pending timer then fires on the paused loop and returns, keeping its spent handle; then `resume()` does nothing, because `startLoop` sees a handle, and every later `resume()` does nothing too. This needs one `Orchestrator` instance kept alive across those calls: the shipped routes build a new one per request (app/api/simulation/resume/route.ts:18, step/route.ts:17, stream/route.ts:24), so as shipped the stall is latent | `resume` after `step` restarts the loop: the early return drops the handle, and `step` cancels the timer as `pause` does | not executed | LoopControl.ResumeAfterStepStalls | LoopControl.ResumeAfterStepRestarts |
