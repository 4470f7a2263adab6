/**
 * One observation handed to several agents in turn, as the moderator's
 * injection (src/app/api/simulation/inject/route.ts) and the arrival and
 * speech cases of `executeAction` (src/simulation/Orchestrator.ts) do: each
 * listed agent, in order, files it through `addObservation`, so each copy
 * takes the next number of the shared memory counter.
 */
module Perceptions {
  import opened Wrappers
  import opened Types
  import opened OrderedMap
  import Ids
  import Agents
  import SimulationStates

  /**
   * What every recipient is told. `spot` is where the observation is
   * located: a fixed place, or (when absent) each recipient's own zone.
   * `keywords` are those of `content`.
   */
  datatype Note = Note(tick: int, content: string, importance: int, keywords: seq<string>,
                       spot: Option<Option<string>>, about: Option<string>)

  /** The location a recipient standing in `zone` files the note under. */
  function Where(zone: Option<string>, spot: Option<Option<string>>): Option<string> {
    if spot.Some? then spot.value else zone
  }

  /** The memory entry a note leaves, numbered `n`, for a recipient standing in `zone`. */
  function Notice(n: nat, note: Note, zone: Option<string>): MemoryEntry {
    MemoryEntry(Ids.MakeId("mem_", n), note.tick, Observation, note.content, note.importance, note.keywords,
                note.about, Where(zone, note.spot), note.tick)
  }

  /** A notice is the observation `addObservation` files, when its keywords are those of its content. */
  lemma SameNotice(n: nat, m: nat, note: Note, zone: Option<string>, location: Option<string>)
    requires n == m && location == Where(zone, note.spot) && note.keywords == Agents.ContentKeywords(note.content)
    ensures Notice(n, note, zone) == Agents.Agent.ObservationEntry(m, note.tick, note.content, note.importance, location, note.about)
  {
  }

  /**
   * Memories `after` are `before` with, for the j-th name of `done`, one
   * notice numbered `base + j + 1`; everyone else's memories are as they
   * were. `zone` says where each agent stands.
   */
  ghost predicate Delivered(before: map<string, seq<MemoryEntry>>, after: map<string, seq<MemoryEntry>>,
                            done: seq<string>, base: nat, note: Note, zone: map<string, Option<string>>)
  {
    && after.Keys == before.Keys
    && (forall j :: 0 <= j < |done| ==>
          done[j] in before && done[j] in zone
          && after[done[j]] == before[done[j]] + [Notice(base + j + 1, note, zone[done[j]])])
    && (forall k :: k in before && k !in done ==> after[k] == before[k])
  }

  /** Delivering to one more, not yet served, name: its memories gain the next notice. */
  lemma DeliveredSnoc(before: map<string, seq<MemoryEntry>>, cur: map<string, seq<MemoryEntry>>,
                      after: map<string, seq<MemoryEntry>>, ids: seq<string>, i: nat, j: nat, k: string, n: nat,
                      base: nat, note: Note, zone: map<string, Option<string>>)
    requires Distinct(ids) && i < |ids| && j == i + 1 && n == base + j && k == ids[i] && k in before && k in zone
    requires Delivered(before, cur, ids[..i], base, note, zone)
    requires after == cur[k := cur[k] + [Notice(n, note, zone[k])]]
    ensures Delivered(before, after, ids[..j], base, note, zone)
  {
    var done := ids[..j];
    forall p | 0 <= p < i ensures ids[p] != ids[i] {
      DistinctAt(ids, p, i);
    }
    assert done == ids[..i] + [ids[i]];
  }

  /**
   * Every agent on a list without repeats gains exactly one memory, the
   * note, and every other agent none.
   */
  lemma DeliveredOnce(before: map<string, seq<MemoryEntry>>, after: map<string, seq<MemoryEntry>>,
                      done: seq<string>, base: nat, note: Note, zone: map<string, Option<string>>, k: string)
    requires Delivered(before, after, done, base, note, zone) && k in before
    ensures k in after
    ensures k in done ==>
      && |after[k]| == |before[k]| + 1 && after[k][..|before[k]|] == before[k]
      && after[k][|before[k]|].content == note.content && after[k][|before[k]|].importance == note.importance
      && after[k][|before[k]|].tick == note.tick && after[k][|before[k]|].kind == Observation
    ensures k !in done ==> after[k] == before[k]
  {
    if k in done {
      var j :| 0 <= j < |done| && done[j] == k;
      assert after[k] == before[k] + [Notice(base + j + 1, note, zone[k])];
    }
  }

  /** The names of `ids` that are keys of the table, in order: `agents.get(id)` found an agent. */
  function Known(ids: seq<string>, agents: map<string, Agents.Agent>): (r: seq<string>)
    ensures forall a :: a in r <==> a in ids && a in agents
  {
    if ids == [] then [] else (if ids[0] in agents then [ids[0]] else []) + Known(ids[1..], agents)
  }

  /** Keeping only known names keeps a list without repeats. */
  lemma {:induction false} KnownDistinct(ids: seq<string>, agents: map<string, Agents.Agent>)
    requires Distinct(ids)
    ensures Distinct(Known(ids, agents))
  {
    if ids != [] {
      DistinctSuffix(ids, 1);
      KnownDistinct(ids[1..], agents);
      var head := if ids[0] in agents then [ids[0]] else [];
      var rest := Known(ids[1..], agents);
      var r := head + rest;
      forall p, q | 0 <= p < q < |r| ensures Apart(r, p, q) {
        if p < |head| {
          assert r[q] in rest;
        } else {
          assert Apart(rest, p - |head|, q - |head|);
        }
      }
    }
  }

  /**
   * The delivery loop: each listed agent, in order, observes the note's
   * content at the current tick, with the note's importance and associated
   * agent, located at the note's spot (or in its own zone).
   */
  method Tell(state: SimulationStates.SimulationState, ids: seq<string>, content: string, importance: int,
              spot: Option<Option<string>>, about: Option<string>)
    requires state.Valid() && Distinct(ids) && forall a :: a in ids ==> a in state.agents
    modifies SimulationStates.Memories(state.agents), state.memoryIds
    ensures state.Valid() && state.agents == old(state.agents) && state.tick == old(state.tick) && state.status == old(state.status)
    ensures state.eventLog.events == old(state.eventLog.events) && state.eventLog.ids.value == old(state.eventLog.ids.value)
    ensures state.memoryIds.value == old(state.memoryIds.value) + |ids|
    ensures Delivered(old(SimulationStates.Contents(state.agents)), SimulationStates.Contents(state.agents), ids,
                      old(state.memoryIds.value), Note(state.tick, content, importance, Agents.ContentKeywords(content), spot, about),
                      SimulationStates.Whereabouts(state.agents))
  {
    ghost var base := state.memoryIds.value;
    ghost var before := SimulationStates.Contents(state.agents);
    ghost var zone := SimulationStates.Whereabouts(state.agents);
    ghost var note := Note(state.tick, content, importance, Agents.ContentKeywords(content), spot, about);
    var i := 0;
    while i < |ids|
      invariant 0 <= i <= |ids|
      invariant state.Valid()
      invariant state.memoryIds.value == base + i && state.tick == note.tick && state.agents == old(state.agents)
      invariant zone == SimulationStates.Whereabouts(state.agents)
      invariant Delivered(before, SimulationStates.Contents(state.agents), ids[..i], base, note, zone)
    {
      ghost var cur := SimulationStates.Contents(state.agents);
      var k := ids[i];
      var j := i + 1;
      ghost var n: nat := base + j;
      ghost var after := TellNext(state, k, content, importance, spot, about, cur, n, zone, note);
      DeliveredSnoc(before, cur, after, ids, i, j, k, n, base, note, zone);
      i := j;
    }
    assert ids[..i] == ids;
  }

  /** One round of the delivery loop: agent `k`, whose memories are `told[k]`, observes the note. */
  method TellNext(state: SimulationStates.SimulationState, k: string, content: string, importance: int,
                  spot: Option<Option<string>>, about: Option<string>,
                  ghost told: map<string, seq<MemoryEntry>>, ghost n: nat, ghost zone: map<string, Option<string>>,
                  ghost note: Note)
    returns (ghost after: map<string, seq<MemoryEntry>>)
    requires state.Valid() && k in state.agents
    requires state.memoryIds.value + 1 == n && zone == SimulationStates.Whereabouts(state.agents)
    requires note == Note(state.tick, content, importance, Agents.ContentKeywords(content), spot, about)
    requires SimulationStates.Contents(state.agents) == told
    modifies SimulationStates.Memories(state.agents), state.memoryIds
    ensures state.agents == old(state.agents) && state.tick == old(state.tick) && state.status == old(state.status)
    ensures state.Valid() && state.memoryIds.value == n && zone == SimulationStates.Whereabouts(state.agents)
    ensures after == told[k := told[k] + [Notice(n, note, zone[k])]]
    ensures SimulationStates.Contents(state.agents) == after
  {
    var location := if spot.Some? then spot.value else state.agents[k].currentZone;
    state.Observe(k, state.tick, content, importance, location, about);
    SameNotice(n, state.memoryIds.value, note, zone[k], location);
    after := told[k := told[k] + [Notice(n, note, zone[k])]];
  }
}
