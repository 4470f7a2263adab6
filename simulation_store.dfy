/**
 * The browser-side store (src/store/useSimulationStore.ts): the latest
 * snapshot of the simulation as the client sees it, updated by each message
 * the server pushes. Each update replaces some fields of the store state;
 * the event list keeps the newest 100 events.
 *
 * Events the client makes up itself get ids of the form
 * `evt_<clock>_<tag>`; the clock reading is a parameter, and the random
 * suffix of reflection ids is not modelled.
 */
module SimulationStores {
  import opened Wrappers
  import opened Types
  import JsText

  const EventCap := 100

  datatype StoreState = StoreState(
    tick: int,
    status: SimStatus,
    agents: seq<AgentState>,
    events: seq<SimulationEvent>,
    selectedAgentId: Option<string>,
    speed: int,
    isConnected: bool)

  function Initial(): StoreState {
    StoreState(0, Stopped, [], [], None, 1, false)
  }

  /** `addEvent`: `[...events.slice(-99), event]`. */
  function AddEventTo(events: seq<SimulationEvent>, e: SimulationEvent): seq<SimulationEvent> {
    JsText.SliceFrom(events, -(EventCap - 1)) + [e]
  }

  /** One `addEvent` after another, in list order. */
  function AddEventsTo(events: seq<SimulationEvent>, es: seq<SimulationEvent>): seq<SimulationEvent>
    decreases |es|
  {
    if es == [] then events else AddEventsTo(AddEventTo(events, es[0]), es[1..])
  }

  /** `agents.find((a) => a.id === id)`: the first agent with the id. */
  function FindAgent(agents: seq<AgentState>, id: string): (r: Option<AgentState>)
    ensures r.Some? ==> r.value in agents && r.value.id == id
    ensures r.None? <==> forall a :: a in agents ==> a.id != id
  {
    if agents == [] then None
    else if agents[0].id == id then Some(agents[0])
    else FindAgent(agents[1..], id)
  }

  function NameOf(a: Option<AgentState>): Option<string> {
    if a.Some? then Some(a.value.name) else None
  }

  /** `agents.map(...)`: `f` applied to every agent with the id, the others kept. */
  function UpdateAgents(agents: seq<AgentState>, id: string, f: AgentState -> AgentState): (r: seq<AgentState>)
    ensures |r| == |agents|
    ensures forall i :: 0 <= i < |agents| ==> r[i] == if agents[i].id == id then f(agents[i]) else agents[i]
  {
    seq(|agents|, i requires 0 <= i < |agents| => if agents[i].id == id then f(agents[i]) else agents[i])
  }

  function ClientEventId(clock: nat, tag: string): string {
    "evt_" + JsText.NatToString(clock) + "_" + tag
  }

  /** The event logged for a finished action: speech for `speak` and `react`, thought for `think`, none otherwise. */
  function ActionEvent(a: AgentAction, actor: Option<AgentState>, clock: nat): Option<SimulationEvent> {
    match a.actionType
    case Speak => Some(SimulationEvent(ClientEventId(clock, "sp"), a.tick, SpeechEvent, Some(a.agentId), NameOf(actor), ActionText(a), a.target))
    case Think => Some(SimulationEvent(ClientEventId(clock, "th"), a.tick, ThoughtEvent, Some(a.agentId), NameOf(actor), ActionText(a), None))
    case React => Some(SimulationEvent(ClientEventId(clock, "re"), a.tick, SpeechEvent, Some(a.agentId), NameOf(actor), ActionText(a), a.target))
    case MoveTo => None
    case Wait => None
  }

  /** One reflection event per reflection string, in order. */
  function ReflectionEvents(tick: int, agentId: string, name: Option<string>, rs: seq<string>, clock: nat): (r: seq<SimulationEvent>)
    ensures |r| == |rs|
    ensures forall i :: 0 <= i < |rs| ==>
      r[i] == SimulationEvent(ClientEventId(clock, "rf"), tick, ReflectionEvent, Some(agentId), name, rs[i], None)
  {
    seq(|rs|, i requires 0 <= i < |rs| =>
      SimulationEvent(ClientEventId(clock, "rf"), tick, ReflectionEvent, Some(agentId), name, rs[i], None))
  }

  function Moved(a: AgentState, t: Tile): AgentState {
    a.(tileX := t.x, tileY := t.y, status := Moving)
  }

  function Completed(a: AgentState, e: Option<Emotion>): AgentState {
    a.(status := Idle, emotion := e.GetOr(a.emotion))
  }

  /** `handleServerMessage`: the store state after one server message. */
  function Handle(s: StoreState, m: ServerMessage, clock: nat): StoreState {
    match m
    case StateSync(snap) => s.(tick := snap.tick, status := snap.status, agents := snap.agents, events := snap.events)
    case TickMessage(t, _) => s.(tick := t)
    case AgentMove(id, path, _) =>
      if |path| == 0 then s
      else
        var last := path[|path| - 1];
        var mover := FindAgent(s.agents, id);
        var content := (if mover.Some? then mover.value.name else id) + " moved";
        s.(agents := UpdateAgents(s.agents, id, a => Moved(a, last)),
           events := AddEventTo(s.events, SimulationEvent(ClientEventId(clock, "mv"), s.tick, MovementEvent, Some(id), NameOf(mover), content, None)))
    case AgentActionComplete(a) =>
      var actor := FindAgent(s.agents, a.agentId);
      var agents := UpdateAgents(s.agents, a.agentId, x => Completed(x, a.emotion));
      var e := ActionEvent(a, actor, clock);
      s.(agents := agents, events := if e.Some? then AddEventTo(s.events, e.value) else s.events)
    case AgentThinking(id) => s.(agents := UpdateAgents(s.agents, id, (a: AgentState) => a.(status := Thinking)))
    case ReflectionMessage(id, rs) =>
      s.(events := AddEventsTo(s.events, ReflectionEvents(s.tick, id, NameOf(FindAgent(s.agents, id)), rs, clock)))
    case PhaseChange(_, description) =>
      s.(events := AddEventTo(s.events, SimulationEvent(ClientEventId(clock, "ph"), s.tick, SystemEvent, None, None, "Phase: " + description, None)))
    case Perception(id, content, _) =>
      s.(events := AddEventTo(s.events, SimulationEvent(ClientEventId(clock, "pe"), s.tick, SystemEvent, Some(id), NameOf(FindAgent(s.agents, id)), content, None)))
    case AgentStreamToken(_, _, _) => s
    case ErrorMessage(_) => s
  }

  // ---------------------------------------------------------------------
  // Properties
  // ---------------------------------------------------------------------

  /** `addEvent` keeps the newest 100 events with the new one last: it is the last 100 of the grown list. */
  lemma AddEventKeepsNewest(events: seq<SimulationEvent>, e: SimulationEvent)
    ensures var r := AddEventTo(events, e);
      && |r| == JsText.Min(|events| + 1, EventCap)
      && r[|r| - 1] == e
      && r == JsText.LastN(events + [e], EventCap)
  {
    var r := AddEventTo(events, e);
    var all := events + [e];
    var k := JsText.Min(|all|, EventCap);
    assert r == all[|all| - k..];
  }

  /**
   * Adding several events one at a time keeps exactly the newest 100 of the
   * old and new events together: no more than 100 are ever held, and the
   * added ones come last in order.
   */
  lemma {:induction false} AddEventsKeepNewest(events: seq<SimulationEvent>, es: seq<SimulationEvent>)
    requires |events| <= EventCap
    ensures AddEventsTo(events, es) == JsText.LastN(events + es, EventCap)
    decreases |es|
  {
    if es == [] {
      assert events + es == events;
    } else {
      AddEventKeepsNewest(events, es[0]);
      var next := AddEventTo(events, es[0]);
      AddEventsKeepNewest(next, es[1..]);
      JsText.LastNAbsorbs(events + [es[0]], es[1..], EventCap);
      assert events + [es[0]] + es[1..] == events + es;
    }
  }

  /** A snapshot replaces tick, status, agents and events, and nothing else. */
  lemma SnapshotRule(s: StoreState, snap: SimulationSnapshot, clock: nat)
    ensures var r := Handle(s, StateSync(snap), clock);
      && r.tick == snap.tick && r.status == snap.status && r.agents == snap.agents && r.events == snap.events
      && r.selectedAgentId == s.selectedAgentId && r.speed == s.speed && r.isConnected == s.isConnected
  {
  }

  /** A tick message sets only the tick; token and error messages change nothing. */
  lemma QuietMessages(s: StoreState, t: int, time: string, id: string, token: string, bt: BubbleType, msg: string, clock: nat)
    ensures Handle(s, TickMessage(t, time), clock) == s.(tick := t)
    ensures Handle(s, AgentStreamToken(id, token, bt), clock) == s
    ensures Handle(s, ErrorMessage(msg), clock) == s
  {
  }

  /**
   * A move with an empty path changes nothing; otherwise every agent with
   * the id stands on the path's last tile with status moving, the others are
   * unchanged, and exactly one movement event is added.
   */
  lemma MoveRule(s: StoreState, id: string, path: seq<Tile>, speed: int, clock: nat)
    ensures path == [] ==> Handle(s, AgentMove(id, path, speed), clock) == s
    ensures path != [] ==>
      var r := Handle(s, AgentMove(id, path, speed), clock);
      var last := path[|path| - 1];
      && |r.agents| == |s.agents|
      && (forall i :: 0 <= i < |s.agents| && s.agents[i].id == id ==>
            r.agents[i].tileX == last.x && r.agents[i].tileY == last.y && r.agents[i].status == Moving
            && r.agents[i].name == s.agents[i].name && r.agents[i].emotion == s.agents[i].emotion)
      && (forall i :: 0 <= i < |s.agents| && s.agents[i].id != id ==> r.agents[i] == s.agents[i])
      && |r.events| == JsText.Min(|s.events| + 1, EventCap)
      && r.events[|r.events| - 1].eventType == MovementEvent && r.events[|r.events| - 1].agentId == Some(id)
      && r.tick == s.tick && r.status == s.status
  {
    if path != [] {
      var r := Handle(s, AgentMove(id, path, speed), clock);
      var mover := FindAgent(s.agents, id);
      var content := (if mover.Some? then mover.value.name else id) + " moved";
      AddEventKeepsNewest(s.events, SimulationEvent(ClientEventId(clock, "mv"), s.tick, MovementEvent, Some(id), NameOf(mover), content, None));
    }
  }

  /**
   * A finished action sets every agent with the id idle, keeping its emotion
   * when the action carries none, and adds one event exactly for `speak`,
   * `think` and `react`.
   */
  lemma ActionCompleteRule(s: StoreState, a: AgentAction, clock: nat)
    ensures var r := Handle(s, AgentActionComplete(a), clock);
      && |r.agents| == |s.agents|
      && (forall i :: 0 <= i < |s.agents| && s.agents[i].id == a.agentId ==>
            r.agents[i].status == Idle
            && r.agents[i].emotion == (if a.emotion.Some? then a.emotion.value else s.agents[i].emotion))
      && (forall i :: 0 <= i < |s.agents| && s.agents[i].id != a.agentId ==> r.agents[i] == s.agents[i])
      && (a.actionType in {MoveTo, Wait} ==> r.events == s.events)
      && (a.actionType in {Speak, Think, React} ==>
            |r.events| == JsText.Min(|s.events| + 1, EventCap)
            && r.events[|r.events| - 1].content == ActionText(a)
            && r.events[|r.events| - 1].eventType == (if a.actionType == Think then ThoughtEvent else SpeechEvent))
  {
    var e := ActionEvent(a, FindAgent(s.agents, a.agentId), clock);
    if e.Some? {
      AddEventKeepsNewest(s.events, e.value);
    }
  }

  /** `agent_thinking` changes only the status of the agents with the id. */
  lemma ThinkingRule(s: StoreState, id: string, clock: nat)
    ensures var r := Handle(s, AgentThinking(id), clock);
      && r.events == s.events && r.tick == s.tick
      && |r.agents| == |s.agents|
      && (forall i :: 0 <= i < |s.agents| ==>
            r.agents[i] == if s.agents[i].id == id then s.agents[i].(status := Thinking) else s.agents[i])
  {
  }

  /** A reflection message adds one reflection event per string, in order, within the 100-event window. */
  lemma ReflectionRule(s: StoreState, id: string, rs: seq<string>, clock: nat)
    requires |s.events| <= EventCap
    ensures var r := Handle(s, ReflectionMessage(id, rs), clock);
      var added := ReflectionEvents(s.tick, id, NameOf(FindAgent(s.agents, id)), rs, clock);
      && r.events == JsText.LastN(s.events + added, EventCap)
      && r.agents == s.agents && r.tick == s.tick
  {
    AddEventsKeepNewest(s.events, ReflectionEvents(s.tick, id, NameOf(FindAgent(s.agents, id)), rs, clock));
  }

  /**
   * `phase_change` and `perception` each add one system event, newest last,
   * at the store's tick: the phase's description, or the perceived content
   * under the perceiving agent; agents and tick are unchanged.
   */
  lemma SystemMessagesRule(s: StoreState, phase: string, description: string, id: string, content: string,
                           source: string, clock: nat)
    ensures var r := Handle(s, PhaseChange(phase, description), clock);
      && r.agents == s.agents && r.tick == s.tick
      && |r.events| == JsText.Min(|s.events| + 1, EventCap)
      && r.events[|r.events| - 1].eventType == SystemEvent
      && r.events[|r.events| - 1].content == "Phase: " + description
      && r.events[|r.events| - 1].tick == s.tick
    ensures var r := Handle(s, Perception(id, content, source), clock);
      && r.agents == s.agents && r.tick == s.tick
      && |r.events| == JsText.Min(|s.events| + 1, EventCap)
      && r.events[|r.events| - 1].eventType == SystemEvent
      && r.events[|r.events| - 1].content == content && r.events[|r.events| - 1].agentId == Some(id)
      && r.events[|r.events| - 1].tick == s.tick
  {
    AddEventKeepsNewest(s.events, SimulationEvent(ClientEventId(clock, "ph"), s.tick, SystemEvent, None, None,
                                                  "Phase: " + description, None));
    AddEventKeepsNewest(s.events, SimulationEvent(ClientEventId(clock, "pe"), s.tick, SystemEvent, Some(id),
                                                  NameOf(FindAgent(s.agents, id)), content, None));
  }

  /** No message makes the store hold more than 100 events, given a snapshot within the cap. */
  lemma EventsStayCapped(s: StoreState, m: ServerMessage, clock: nat)
    requires |s.events| <= EventCap
    requires m.StateSync? ==> |m.snapshot.events| <= EventCap
    ensures |Handle(s, m, clock).events| <= EventCap
  {
    match m
    case ReflectionMessage(id, rs) => ReflectionRule(s, id, rs, clock);
    case _ =>
  }

  class SimulationStore {
    var tick: int
    var status: SimStatus
    var agents: seq<AgentState>
    var events: seq<SimulationEvent>
    var selectedAgentId: Option<string>
    var speed: int
    var isConnected: bool

    function State(): StoreState
      reads this
    {
      StoreState(tick, status, agents, events, selectedAgentId, speed, isConnected)
    }

    constructor ()
      ensures State() == Initial()
    {
      tick := 0;
      status := Stopped;
      agents := [];
      events := [];
      selectedAgentId := None;
      speed := 1;
      isConnected := false;
    }

    method ApplySnapshot(snapshot: SimulationSnapshot)
      modifies this
      ensures State() == Handle(old(State()), StateSync(snapshot), 0)
    {
      tick := snapshot.tick;
      status := snapshot.status;
      agents := snapshot.agents;
      events := snapshot.events;
    }

    method AddEvent(event: SimulationEvent)
      modifies this
      ensures State() == old(State()).(events := AddEventTo(old(events), event))
    {
      events := JsText.SliceFrom(events, -99) + [event];
    }

    /** `handleServerMessage`, stepping through the same `set` and `addEvent` calls as the source. */
    method HandleServerMessage(message: ServerMessage, clock: nat)
      modifies this
      ensures State() == Handle(old(State()), message, clock)
    {
      match message {
        case StateSync(snapshot) =>
          ApplySnapshot(snapshot);
        case TickMessage(t, _) =>
          tick := t;
        case AgentMove(id, path, _) =>
          if |path| > 0 {
            var lastTile := path[|path| - 1];
            var movingAgent := FindAgent(agents, id);
            agents := UpdateAgents(agents, id, a => Moved(a, lastTile));
            var name := if movingAgent.Some? then movingAgent.value.name else id;
            AddEvent(SimulationEvent(ClientEventId(clock, "mv"), tick, MovementEvent, Some(id), NameOf(movingAgent), name + " moved", None));
          }
        case AgentActionComplete(action) =>
          var actingAgent := FindAgent(agents, action.agentId);
          agents := UpdateAgents(agents, action.agentId, x => Completed(x, action.emotion));
          var e := ActionEvent(action, actingAgent, clock);
          if e.Some? {
            AddEvent(e.value);
          }
        case AgentThinking(id) =>
          agents := UpdateAgents(agents, id, (a: AgentState) => a.(status := Thinking));
        case ReflectionMessage(id, reflections) =>
          var name := NameOf(FindAgent(agents, id));
          var added := ReflectionEvents(tick, id, name, reflections, clock);
          ghost var start := events;
          var i := 0;
          while i < |reflections|
            invariant 0 <= i <= |reflections|
            invariant State() == old(State()).(events := AddEventsTo(start, added[..i]))
          {
            AddEventsAppend(start, added[..i], added[i]);
            assert added[..i + 1] == added[..i] + [added[i]];
            AddEvent(SimulationEvent(ClientEventId(clock, "rf"), tick, ReflectionEvent, Some(id), name, reflections[i], None));
            i := i + 1;
          }
          assert added[..i] == added;
        case PhaseChange(_, description) =>
          AddEvent(SimulationEvent(ClientEventId(clock, "ph"), tick, SystemEvent, None, None, "Phase: " + description, None));
        case Perception(id, content, _) =>
          AddEvent(SimulationEvent(ClientEventId(clock, "pe"), tick, SystemEvent, Some(id), NameOf(FindAgent(agents, id)), content, None));
        case AgentStreamToken(_, _, _) =>
        case ErrorMessage(_) =>
      }
    }
  }

  /** Adding one more event after a run of additions. */
  lemma {:induction false} AddEventsAppend(events: seq<SimulationEvent>, es: seq<SimulationEvent>, e: SimulationEvent)
    ensures AddEventsTo(events, es + [e]) == AddEventTo(AddEventsTo(events, es), e)
    decreases |es|
  {
    if es == [] {
      assert [e][1..] == [];
    } else {
      assert (es + [e])[1..] == es[1..] + [e];
      AddEventsAppend(AddEventTo(events, es[0]), es[1..], e);
    }
  }
}
