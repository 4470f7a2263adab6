/**
 * The bookkeeping of the speech and thought bubbles drawn over the agents
 * (src/game/entities/BubbleManager.ts): at most one active bubble per agent,
 * later requests queued behind it, and the next request promoted when the
 * active bubble is dismissed.
 *
 * Drawing, tweens and timers are not modelled: a bubble records its text
 * and the delay after which its auto-dismiss fires, and `dismiss` performs
 * the work of the fade-out's completion at once.
 */
module Bubbles {
  import opened Wrappers
  import opened Types
  import opened OrderedMap
  import JsText

  const TypewriterSpeed := 30
  const DefaultDuration := 5000

  datatype BubbleRequest = BubbleRequest(
    agentId: string,
    bubbleType: BubbleType,
    text: string,
    duration: Option<int>,
    streaming: Option<bool>)

  datatype ActiveBubble = ActiveBubble(agentId: string, bubbleType: BubbleType, fullText: string, dismissDelay: int)

  /** The manager's maps: active bubbles, waiting requests, and the agents with a position source. */
  datatype Board = Board(active: OMap<string, ActiveBubble>, queues: map<string, seq<BubbleRequest>>, registered: set<string>)

  /**
   * The auto-dismiss delay: the typewriter's time for the text, 30 ms per
   * UTF-16 code unit of `text.length`, plus the requested duration (5000 ms
   * by default).
   */
  function DismissDelay(r: BubbleRequest): (d: int)
    ensures r.duration.None? ==> d == JsText.Length(r.text) * 30 + 5000
    ensures r.duration.Some? ==> d == JsText.Length(r.text) * 30 + r.duration.value
    ensures |r.text| * 30 <= d - r.duration.GetOr(5000) <= |r.text| * 60
  {
    JsText.Length(r.text) * TypewriterSpeed + r.duration.GetOr(DefaultDuration)
  }

  /** Text within the Basic Multilingual Plane takes 30 ms per character, and only such text does. */
  lemma DismissDelayPerCharacter(r: BubbleRequest)
    ensures DismissDelay(r) == |r.text| * 30 + r.duration.GetOr(5000)
        <==> forall i :: 0 <= i < |r.text| ==> r.text[i] as int < 0x1_0000
  {
  }

  /** A lone emoji is two code units, so with no duration its bubble stays 2 * 30 + 5000 ms. */
  lemma DismissDelaySurrogatePair()
    ensures DismissDelay(BubbleRequest("a", SpeechBubble, "\U{1F600}", None, None)) == 5060
  {
    assert JsText.Length("\U{1F600}") == JsText.Units('\U{1F600}') + JsText.Length([]);
  }

  /** The requests waiting for an agent (none when it has no queue). */
  function Queue(b: Board, id: string): seq<BubbleRequest> {
    if id in b.queues then b.queues[id] else []
  }

  /**
   * What every operation keeps: bubbles are filed under their own agent,
   * only registered agents have one, queued requests belong to their
   * agent, and requests wait only behind an active bubble.
   */
  ghost predicate Inv(b: Board) {
    && b.active.Valid()
    && (forall id :: id in b.active.vals ==> id in b.registered && b.active.vals[id].agentId == id)
    && (forall id :: id in b.queues ==> forall r :: r in b.queues[id] ==> r.agentId == id)
    && (forall id :: id in b.queues && b.queues[id] != [] ==> id in b.active.vals)
  }

  function NoBubbles(): (b: Board)
    ensures Inv(b)
  {
    Board(OrderedMap.Empty(), map[], {})
  }

  /** `registerAgent`. */
  function Registered(b: Board, id: string): Board {
    b.(registered := b.registered + {id})
  }

  /** `createBubble`: nothing for an unregistered agent; otherwise the request becomes the agent's active bubble. */
  function Created(b: Board, r: BubbleRequest): Board
    requires b.active.Valid()
  {
    if r.agentId !in b.registered then b
    else b.(active := b.active.Put(r.agentId, ActiveBubble(r.agentId, r.bubbleType, r.text, DismissDelay(r))))
  }

  /** `show`: queued at the tail behind an active bubble, otherwise created. */
  function Shown(b: Board, r: BubbleRequest): Board
    requires b.active.Valid()
  {
    if r.agentId in b.active.vals then b.(queues := b.queues[r.agentId := Queue(b, r.agentId) + [r]])
    else Created(b, r)
  }

  /** `appendToken`: nothing without an active bubble; otherwise the token is added to its text. */
  function WithToken(b: Board, id: string, token: string): Board
    requires b.active.Valid()
  {
    if id !in b.active.vals then b
    else
      var bubble := b.active.vals[id];
      b.(active := b.active.Put(id, bubble.(fullText := bubble.fullText + token)))
  }

  /** `dismiss` with its completion: the bubble goes and the head of the agent's queue, if any, is shown. */
  function Dismissed(b: Board, id: string): Board
    requires b.active.Valid()
  {
    if id !in b.active.vals then b
    else
      var gone := b.(active := b.active.Remove(id));
      var q := Queue(b, id);
      if q != [] then Created(gone.(queues := gone.queues[id := q[1..]]), q[0]) else gone
  }

  /** Dismissing each listed agent in turn. */
  function DismissedEach(b: Board, ids: seq<string>): (r: Board)
    requires b.active.Valid()
    ensures r.active.Valid()
  {
    if ids == [] then b else Dismissed(DismissedEach(b, ids[..|ids| - 1]), ids[|ids| - 1])
  }

  /** `dismissAll`: every agent that had a bubble when the call began, in map order. */
  function AllDismissed(b: Board): Board
    requires b.active.Valid()
  {
    DismissedEach(b, b.active.keys)
  }

  // ---------------------------------------------------------------------
  // Properties
  // ---------------------------------------------------------------------

  /** Every operation keeps the invariant, so no request is ever stranded without an active bubble. */
  lemma RegisterKeepsInv(b: Board, id: string)
    requires Inv(b)
    ensures Inv(Registered(b, id))
  {
  }

  lemma CreateKeepsInv(b: Board, r: BubbleRequest)
    requires Inv(b) && r.agentId !in b.active.vals
    ensures Inv(Created(b, r))
  {
  }

  lemma ShowKeepsInv(b: Board, r: BubbleRequest)
    requires Inv(b)
    ensures Inv(Shown(b, r))
  {
    if r.agentId !in b.active.vals {
      CreateKeepsInv(b, r);
    }
  }

  lemma AppendTokenKeepsInv(b: Board, id: string, token: string)
    requires Inv(b)
    ensures Inv(WithToken(b, id, token))
  {
  }

  lemma DismissKeepsInv(b: Board, id: string)
    requires Inv(b)
    ensures Inv(Dismissed(b, id))
  {
    if id in b.active.vals {
      var q := Queue(b, id);
      if q != [] {
        assert q[0] in b.queues[id];
        assert q[0].agentId == id && id in b.registered;
        assert forall r :: r in q[1..] ==> r in q;
      }
    }
  }

  /**
   * `show` leaves an active bubble alone and puts the request at the tail
   * of the agent's queue; otherwise a registered agent gets the request as
   * its bubble and an unregistered one nothing.
   */
  lemma ShowRule(b: Board, r: BubbleRequest)
    requires Inv(b)
    ensures var s := Shown(b, r);
      && (r.agentId in b.active.vals ==>
            s.active == b.active && Queue(s, r.agentId) == Queue(b, r.agentId) + [r])
      && (r.agentId !in b.active.vals && r.agentId in b.registered ==>
            s.active.vals == b.active.vals[r.agentId := ActiveBubble(r.agentId, r.bubbleType, r.text, DismissDelay(r))]
            && s.queues == b.queues)
      && (r.agentId !in b.registered ==> s == b)
  {
  }

  /** Tokens extend the active bubble's text and are dropped when there is none. */
  lemma AppendTokenRule(b: Board, id: string, token: string)
    requires Inv(b)
    ensures id !in b.active.vals ==> WithToken(b, id, token) == b
    ensures id in b.active.vals ==>
      WithToken(b, id, token).active.vals[id].fullText == b.active.vals[id].fullText + token
  {
  }

  /**
   * Dismissing an agent without a bubble does nothing; otherwise the head of
   * its queue becomes its bubble and leaves the queue, or the agent is left
   * without a bubble when nothing waits.
   */
  lemma DismissPromotesHead(b: Board, id: string)
    requires Inv(b)
    ensures id !in b.active.vals ==> Dismissed(b, id) == b
    ensures id in b.active.vals && Queue(b, id) == [] ==> id !in Dismissed(b, id).active.vals
    ensures id in b.active.vals && Queue(b, id) != [] ==>
      var head := Queue(b, id)[0];
      var d := Dismissed(b, id);
      && id in d.active.vals
      && d.active.vals[id] == ActiveBubble(id, head.bubbleType, head.text, DismissDelay(head))
      && Queue(d, id) == Queue(b, id)[1..]
  {
  }

  /**
   * Dismissing a list of distinct agents that all have bubbles leaves each
   * of them with a bubble exactly when something was queued for it, and
   * leaves every other agent's bubble and queue as they were.
   */
  lemma {:induction false} DismissEachEffect(b: Board, ids: seq<string>)
    requires Inv(b) && Distinct(ids)
    requires forall a :: a in ids ==> a in b.active.vals
    ensures var r := DismissedEach(b, ids);
      && Inv(r)
      && (forall a :: a in ids ==> (a in r.active.vals <==> Queue(b, a) != []))
      && (forall a :: a !in ids ==> (a in r.active.vals <==> a in b.active.vals) && Queue(r, a) == Queue(b, a))
  {
    if ids != [] {
      var n := |ids| - 1;
      var init := ids[..n];
      DistinctPrefix(ids, n);
      DismissEachEffect(b, init);
      var prev := DismissedEach(b, init);
      forall i | 0 <= i < n ensures init[i] != ids[n] {
        DistinctAt(ids, i, n);
      }
      var last := ids[n];
      var r := Dismissed(prev, last);
      DismissKeepsInv(prev, last);
      DismissPromotesHead(prev, last);
      forall a | a in ids ensures a in r.active.vals <==> Queue(b, a) != [] {
        if a != last {
          assert a in init;
          DismissOthersAlone(prev, last, a);
        }
      }
      forall a | a !in ids
        ensures (a in r.active.vals <==> a in b.active.vals) && Queue(r, a) == Queue(b, a)
      {
        assert a !in init;
        DismissOthersAlone(prev, last, a);
      }
    }
  }

  /** Dismissing one agent leaves every other agent's bubble and queue as they were. */
  lemma DismissOthersAlone(b: Board, id: string, a: string)
    requires b.active.Valid() && a != id
    requires forall r :: r in Queue(b, id) ==> r.agentId == id
    ensures a in Dismissed(b, id).active.vals <==> a in b.active.vals
    ensures Queue(Dismissed(b, id), a) == Queue(b, a)
  {
    if id in b.active.vals && Queue(b, id) != [] {
      assert Queue(b, id)[0] in Queue(b, id);
    }
  }

  /** After `dismissAll`, exactly the agents that had a bubble and a waiting request have a bubble. */
  lemma DismissAllRule(b: Board, a: string)
    requires Inv(b)
    ensures Inv(AllDismissed(b))
    ensures a in AllDismissed(b).active.vals <==> a in b.active.vals && Queue(b, a) != []
  {
    DismissEachEffect(b, b.active.keys);
  }

  class BubbleManager {
    var activeBubbles: OMap<string, ActiveBubble>
    var queues: map<string, seq<BubbleRequest>>
    var agentPositionFns: set<string>

    function State(): Board
      reads this
    {
      Board(activeBubbles, queues, agentPositionFns)
    }

    constructor ()
      ensures State() == NoBubbles() && Inv(State())
    {
      activeBubbles := OrderedMap.Empty();
      queues := map[];
      agentPositionFns := {};
    }

    method RegisterAgent(agentId: string)
      modifies this
      ensures State() == Registered(old(State()), agentId)
    {
      agentPositionFns := agentPositionFns + {agentId};
    }

    method Show(request: BubbleRequest)
      requires Inv(State())
      modifies this
      ensures State() == Shown(old(State()), request)
    {
      if request.agentId in activeBubbles.vals {
        var q := if request.agentId in queues then queues[request.agentId] else [];
        queues := queues[request.agentId := q + [request]];
        return;
      }
      CreateBubble(request);
    }

    method AppendToken(agentId: string, token: string)
      requires Inv(State())
      modifies this
      ensures State() == WithToken(old(State()), agentId, token)
    {
      if agentId !in activeBubbles.vals {
        return;
      }
      var active := activeBubbles.vals[agentId];
      activeBubbles := activeBubbles.Put(agentId, active.(fullText := active.fullText + token));
    }

    method Dismiss(agentId: string)
      requires Inv(State())
      modifies this
      ensures Inv(State())
      ensures State() == Dismissed(old(State()), agentId)
    {
      DismissKeepsInv(State(), agentId);
      if agentId !in activeBubbles.vals {
        return;
      }
      activeBubbles := activeBubbles.Remove(agentId);
      if agentId in queues && |queues[agentId]| > 0 {
        var queue := queues[agentId];
        var next := queue[0];
        queues := queues[agentId := queue[1..]];
        CreateBubble(next);
      }
    }

    method DismissAll()
      requires Inv(State())
      modifies this
      ensures State() == AllDismissed(old(State()))
    {
      var ids := activeBubbles.keys;
      var i := 0;
      while i < |ids|
        invariant 0 <= i <= |ids|
        invariant Inv(State())
        invariant State() == DismissedEach(old(State()), ids[..i])
      {
        assert ids[..i + 1][..i] == ids[..i];
        Dismiss(ids[i]);
        i := i + 1;
      }
      assert ids[..i] == ids;
    }

    method CreateBubble(request: BubbleRequest)
      requires activeBubbles.Valid()
      modifies this
      ensures State() == Created(old(State()), request)
    {
      if request.agentId !in agentPositionFns {
        return;
      }
      var delay := JsText.Length(request.text) * TypewriterSpeed + request.duration.GetOr(DefaultDuration);
      activeBubbles := activeBubbles.Put(request.agentId, ActiveBubble(request.agentId, request.bubbleType, request.text, delay));
    }
  }
}
