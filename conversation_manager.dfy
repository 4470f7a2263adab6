/**
 * Per-zone conversation tracking (src/simulation/ConversationManager.ts).
 * Conversations are kept forever in a map keyed by `conv_N` id; each zone
 * has at most one pointer to its active conversation. A conversation ends
 * when a departure leaves it with fewer than two participants.
 *
 * The behaviour is stated as functions on a `Tracker` value; the
 * `ConversationManager` class updates its fields in place and is proved to
 * follow them.
 */
module Conversations {
  import opened OrderedMap
  import JsText
  import Ids

  datatype ConversationTurn = ConversationTurn(agentId: string, agentName: string, content: string, tick: int)

  datatype Conversation = Conversation(
    id: string,
    zoneId: string,
    participants: set<string>,
    turns: seq<ConversationTurn>,
    startTick: int,
    active: bool)

  /** The manager's fields together with the shared `conversationCounter`. */
  datatype Tracker = Tracker(conversations: OMap<string, Conversation>, activeByZone: map<string, string>, counter: nat)

  const Prefix := "conv_"

  /** Keys match ids, every id was handed out by the counter, and zone pointers name stored conversations. */
  ghost predicate Valid(s: Tracker) {
    && s.conversations.Valid()
    && (forall k :: k in s.conversations.vals ==>
          s.conversations.vals[k].id == k && k in Ids.Issued(Prefix, s.counter))
    && (forall z :: z in s.activeByZone ==> s.activeByZone[z] in s.conversations.vals)
  }

  /** Every zone pointer names an active conversation of that zone. */
  ghost predicate PointersLive(s: Tracker)
    requires Valid(s)
  {
    forall z :: z in s.activeByZone ==>
      s.conversations.vals[s.activeByZone[z]].active && s.conversations.vals[s.activeByZone[z]].zoneId == z
  }

  function NoConversations(counter: nat): (s: Tracker)
    ensures Valid(s) && PointersLive(s)
  {
    Tracker(OrderedMap.Empty(), map[], counter)
  }

  /** `hasActiveConversation(zoneId)`. */
  predicate HasActive(s: Tracker, z: string)
    requires Valid(s)
  {
    z in s.activeByZone && s.conversations.vals[s.activeByZone[z]].active
  }

  /** `ensureConversation(zoneId, tick)`: the new state and the id of the conversation returned. */
  function Ensure(s: Tracker, z: string, tick: int): (r: (Tracker, string))
    requires Valid(s)
    ensures Valid(r.0) && r.1 in r.0.conversations.vals
  {
    if HasActive(s, z) then (s, s.activeByZone[z])
    else
      var id := Ids.MakeId(Prefix, s.counter + 1);
      Ids.NextIdFresh(Prefix, s.counter);
      var c := Conversation(id, z, {}, [], tick, true);
      (Tracker(s.conversations.Put(id, c), s.activeByZone[z := id], s.counter + 1), id)
  }

  /** `addParticipant(zoneId, agentId, tick)`. */
  function WithParticipant(s: Tracker, z: string, a: string, tick: int): (r: Tracker)
    requires Valid(s)
    ensures Valid(r)
  {
    var (t, id) := Ensure(s, z, tick);
    var c := t.conversations.vals[id];
    t.(conversations := t.conversations.Put(id, c.(participants := c.participants + {a})))
  }

  /** `removeParticipant(zoneId, agentId)`. */
  function WithoutParticipant(s: Tracker, z: string, a: string): (r: Tracker)
    requires Valid(s)
    ensures Valid(r)
  {
    if z !in s.activeByZone then s
    else
      var id := s.activeByZone[z];
      var c := s.conversations.vals[id];
      var left := c.(participants := c.participants - {a});
      if |left.participants| < 2 then
        Tracker(s.conversations.Put(id, left.(active := false)), s.activeByZone - {z}, s.counter)
      else
        s.(conversations := s.conversations.Put(id, left))
  }

  /** `addTurn(zoneId, agentId, agentName, content, tick)`. */
  function WithTurn(s: Tracker, z: string, a: string, name: string, content: string, tick: int): (r: Tracker)
    requires Valid(s)
    ensures Valid(r)
  {
    var (t, id) := Ensure(s, z, tick);
    var c := t.conversations.vals[id];
    var c' := c.(participants := c.participants + {a}, turns := c.turns + [ConversationTurn(a, name, content, tick)]);
    t.(conversations := t.conversations.Put(id, c'))
  }

  /** `getRecentTurns(zoneId, limit)`: `turns.slice(-limit)` of the pointed-to conversation. */
  function RecentTurns(s: Tracker, z: string, limit: int): seq<ConversationTurn>
    requires Valid(s)
  {
    if z !in s.activeByZone then [] else JsText.LastN(s.conversations.vals[s.activeByZone[z]].turns, limit)
  }

  /** `getAll()`: every conversation ever created, in creation order. */
  function All(s: Tracker): seq<Conversation>
    requires Valid(s)
  {
    s.conversations.Values()
  }

  /** The active conversation of a zone. */
  function ActiveIn(s: Tracker, z: string): Conversation
    requires Valid(s) && z in s.activeByZone
  {
    s.conversations.vals[s.activeByZone[z]]
  }

  // ---------------------------------------------------------------------
  // Properties
  // ---------------------------------------------------------------------

  /** A zone's active conversation is returned unchanged, with nothing else changed. */
  lemma EnsureKeepsActive(s: Tracker, z: string, tick: int)
    requires Valid(s) && HasActive(s, z)
    ensures Ensure(s, z, tick) == (s, s.activeByZone[z])
  {
  }

  /**
   * Without an active conversation, a fresh active one with no participants
   * and no turns is created under a new id, and the zone points at it; the
   * stored conversations are otherwise untouched.
   */
  lemma EnsureCreatesFresh(s: Tracker, z: string, tick: int)
    requires Valid(s) && !HasActive(s, z)
    ensures var (t, id) := Ensure(s, z, tick);
      && id !in s.conversations.vals
      && t.conversations.vals == s.conversations.vals[id := Conversation(id, z, {}, [], tick, true)]
      && t.conversations.keys == s.conversations.keys + [id]
      && t.activeByZone == s.activeByZone[z := id]
      && t.counter == s.counter + 1
      && HasActive(t, z)
  {
    Ids.NextIdFresh(Prefix, s.counter);
  }

  /** After `addParticipant` the zone has an active conversation that includes the agent. */
  lemma AddParticipantJoins(s: Tracker, z: string, a: string, tick: int)
    requires Valid(s)
    ensures var r := WithParticipant(s, z, a, tick);
      HasActive(r, z) && a in ActiveIn(r, z).participants
      && ActiveIn(r, z).turns == (if HasActive(s, z) then ActiveIn(s, z).turns else [])
  {
  }

  /**
   * `removeParticipant` does nothing without a zone pointer; otherwise the
   * agent leaves and, when fewer than two remain, the conversation is marked
   * inactive and the pointer cleared, else the conversation stays pointed at.
   */
  lemma RemoveParticipantRule(s: Tracker, z: string, a: string)
    requires Valid(s)
    ensures z !in s.activeByZone ==> WithoutParticipant(s, z, a) == s
    ensures z in s.activeByZone ==>
      var r := WithoutParticipant(s, z, a);
      var id := s.activeByZone[z];
      var left := s.conversations.vals[id].participants - {a};
      && r.conversations.vals[id].participants == left
      && r.conversations.keys == s.conversations.keys
      && (|left| < 2 <==> !r.conversations.vals[id].active && z !in r.activeByZone)
      && (|left| >= 2 ==> r.activeByZone == s.activeByZone && r.conversations.vals[id].active == s.conversations.vals[id].active)
  {
  }

  /**
   * `addTurn` makes the speaker a participant and appends exactly one turn to
   * the zone's active conversation (a fresh one when there was none); turns
   * are never trimmed.
   */
  lemma AddTurnAppends(s: Tracker, z: string, a: string, name: string, content: string, tick: int)
    requires Valid(s)
    ensures var r := WithTurn(s, z, a, name, content, tick);
      && HasActive(r, z)
      && a in ActiveIn(r, z).participants
      && ActiveIn(r, z).turns == (if HasActive(s, z) then ActiveIn(s, z).turns else []) + [ConversationTurn(a, name, content, tick)]
  {
  }

  /** `getRecentTurns` is empty without a zone pointer and otherwise the last min(limit, n) turns, oldest first. */
  lemma RecentTurnsRule(s: Tracker, z: string, limit: int)
    requires Valid(s)
    ensures z !in s.activeByZone ==> RecentTurns(s, z, limit) == []
    ensures z in s.activeByZone && limit > 0 ==>
      var turns := ActiveIn(s, z).turns;
      RecentTurns(s, z, limit) == turns[|turns| - JsText.Min(limit, |turns|)..]
  {
  }

  /** No operation removes a conversation from the map. */
  lemma NeverRemoved(s: Tracker, z: string, a: string, name: string, content: string, tick: int)
    requires Valid(s)
    ensures forall k :: k in s.conversations.vals ==> k in Ensure(s, z, tick).0.conversations.vals
    ensures forall k :: k in s.conversations.vals ==> k in WithParticipant(s, z, a, tick).conversations.vals
    ensures forall k :: k in s.conversations.vals ==> k in WithoutParticipant(s, z, a).conversations.vals
    ensures forall k :: k in s.conversations.vals ==> k in WithTurn(s, z, a, name, content, tick).conversations.vals
  {
  }

  /** Every operation keeps each zone pointer on an active conversation of that zone. */
  lemma EnsureKeepsPointersLive(s: Tracker, z: string, tick: int)
    requires Valid(s) && PointersLive(s)
    ensures PointersLive(Ensure(s, z, tick).0)
  {
    Ids.NextIdFresh(Prefix, s.counter);
  }

  lemma WithParticipantKeepsPointersLive(s: Tracker, z: string, a: string, tick: int)
    requires Valid(s) && PointersLive(s)
    ensures PointersLive(WithParticipant(s, z, a, tick))
  {
    EnsureKeepsPointersLive(s, z, tick);
  }

  lemma WithoutParticipantKeepsPointersLive(s: Tracker, z: string, a: string)
    requires Valid(s) && PointersLive(s)
    ensures PointersLive(WithoutParticipant(s, z, a))
  {
  }

  lemma WithTurnKeepsPointersLive(s: Tracker, z: string, a: string, name: string, content: string, tick: int)
    requires Valid(s) && PointersLive(s)
    ensures PointersLive(WithTurn(s, z, a, name, content, tick))
  {
    EnsureKeepsPointersLive(s, z, tick);
  }

  /** With live pointers, a zone has an active conversation exactly when it has a pointer. */
  lemma ActiveIffPointer(s: Tracker, z: string)
    requires Valid(s) && PointersLive(s)
    ensures HasActive(s, z) <==> z in s.activeByZone
  {
  }

  /** Conversation ids are pairwise distinct and `getAll` lists each stored conversation once. */
  lemma AllListsEachOnce(s: Tracker)
    requires Valid(s)
    ensures var all := All(s);
      |all| == |s.conversations.keys|
      && (forall i, j :: 0 <= i < j < |all| ==> all[i].id != all[j].id)
      && (forall k :: k in s.conversations.vals <==> exists i :: 0 <= i < |all| && all[i].id == k)
  {
    var all := All(s);
    forall i, j | 0 <= i < j < |all| ensures all[i].id != all[j].id {
      DistinctAt(s.conversations.keys, i, j);
    }
    forall k | k in s.conversations.vals ensures exists i :: 0 <= i < |all| && all[i].id == k {
      var i :| 0 <= i < |s.conversations.keys| && s.conversations.keys[i] == k;
      assert all[i].id == k;
    }
  }

  // ---------------------------------------------------------------------
  // The manager object
  // ---------------------------------------------------------------------

  class ConversationManager {
    var conversations: OMap<string, Conversation>
    var activeByZone: map<string, string>
    /** The process-wide `conversationCounter`. */
    const ids: Ids.Counter

    function State(): Tracker
      reads this, ids
    {
      Tracker(conversations, activeByZone, ids.value)
    }

    constructor (counter: Ids.Counter)
      requires Valid(NoConversations(counter.value))
      ensures State() == NoConversations(counter.value) && ids == counter
    {
      conversations := OrderedMap.Empty();
      activeByZone := map[];
      ids := counter;
    }

    method EnsureConversation(zoneId: string, tick: int) returns (conv: Conversation)
      requires Valid(State())
      modifies this, ids
      ensures State() == Ensure(old(State()), zoneId, tick).0
      ensures conv == conversations.vals[Ensure(old(State()), zoneId, tick).1]
    {
      if zoneId in activeByZone {
        var existing := conversations.vals[activeByZone[zoneId]];
        if existing.active {
          return existing;
        }
      }
      var n := ids.Next();
      var id := Ids.MakeId(Prefix, n);
      conv := Conversation(id, zoneId, {}, [], tick, true);
      conversations := conversations.Put(id, conv);
      activeByZone := activeByZone[zoneId := id];
    }

    method AddParticipant(zoneId: string, agentId: string, tick: int)
      requires Valid(State())
      modifies this, ids
      ensures State() == WithParticipant(old(State()), zoneId, agentId, tick)
    {
      var conv := EnsureConversation(zoneId, tick);
      conversations := conversations.Put(conv.id, conv.(participants := conv.participants + {agentId}));
    }

    method RemoveParticipant(zoneId: string, agentId: string)
      requires Valid(State())
      modifies this
      ensures State() == WithoutParticipant(old(State()), zoneId, agentId)
    {
      if zoneId !in activeByZone {
        return;
      }
      var convId := activeByZone[zoneId];
      var conv := conversations.vals[convId];
      conv := conv.(participants := conv.participants - {agentId});
      if |conv.participants| < 2 {
        conv := conv.(active := false);
        activeByZone := activeByZone - {zoneId};
      }
      conversations := conversations.Put(convId, conv);
    }

    method AddTurn(zoneId: string, agentId: string, agentName: string, content: string, tick: int)
      requires Valid(State())
      modifies this, ids
      ensures State() == WithTurn(old(State()), zoneId, agentId, agentName, content, tick)
    {
      var conv := EnsureConversation(zoneId, tick);
      conv := conv.(participants := conv.participants + {agentId});
      conv := conv.(turns := conv.turns + [ConversationTurn(agentId, agentName, content, tick)]);
      conversations := conversations.Put(conv.id, conv);
    }

    method GetRecentTurns(zoneId: string, limit: int := 10) returns (turns: seq<ConversationTurn>)
      requires Valid(State())
      ensures turns == RecentTurns(State(), zoneId, limit)
    {
      if zoneId !in activeByZone {
        return [];
      }
      var conv := conversations.vals[activeByZone[zoneId]];
      turns := JsText.LastN(conv.turns, limit);
    }

    function HasActiveConversation(zoneId: string): (b: bool)
      requires Valid(State())
      reads this, ids
      ensures b == HasActive(State(), zoneId)
    {
      zoneId in activeByZone && conversations.vals[activeByZone[zoneId]].active
    }

    function GetAll(): (all: seq<Conversation>)
      requires Valid(State())
      reads this, ids
      ensures all == All(State())
    {
      conversations.Values()
    }
  }
}
