/**
 * The optional structured phase progression (src/simulation/PhaseManager.ts):
 * setup, gather, open discussion, breakout, reconvene, decision, walked
 * forward by ticks (the first two phases end on their own) or by hand;
 * while disabled the simulation reports a free-form phase.
 *
 * The rules are stated once as functions over a `PhaseState` value; the
 * class's methods are proved to follow them.
 */
module Phases {
  import opened Wrappers

  datatype Phase = Setup | Gather | OpenDiscussion | Breakout | Reconvene | Decision | FreeForm

  datatype PhaseConfig = PhaseConfig(phase: Phase, description: string, autoAdvanceTick: Option<int>)

  const PhaseSequence: seq<PhaseConfig> := [
    PhaseConfig(Setup, "Agents read the scenario briefing and form initial thoughts.", Some(3)),
    PhaseConfig(Gather, "Agents move to the Boardroom for discussion.", Some(5)),
    PhaseConfig(OpenDiscussion, "Free-form debate. Agents discuss the topic openly.", None),
    PhaseConfig(Breakout, "Agents may split into sub-groups at different locations.", None),
    PhaseConfig(Reconvene, "Agents return to the Boardroom to share findings.", None),
    PhaseConfig(Decision, "Final statements and vote.", None)
  ]

  const FreeFormConfig := PhaseConfig(FreeForm, "Free-form simulation.", None)

  const LastIndex := |PhaseSequence| - 1

  datatype PhaseState = PhaseState(enabled: bool, index: int, ticksInPhase: int)

  /** What every operation keeps: the index names a phase of the sequence. */
  predicate Inv(s: PhaseState) {
    0 <= s.index <= LastIndex && s.ticksInPhase >= 0
  }

  /** `getCurrentPhase`: free-form while disabled, else the indexed phase (the last one past the end). */
  function CurrentPhase(s: PhaseState): (c: PhaseConfig)
    ensures !s.enabled ==> c == FreeFormConfig
    ensures s.enabled ==> c in PhaseSequence
    ensures s.enabled && 0 <= s.index <= LastIndex ==> c == PhaseSequence[s.index]
  {
    if !s.enabled then FreeFormConfig
    else if 0 <= s.index < |PhaseSequence| then PhaseSequence[s.index]
    else PhaseSequence[LastIndex]
  }

  /** `enable`: back to the first phase with no ticks counted. */
  function EnableSpec(s: PhaseState): PhaseState {
    PhaseState(true, 0, 0)
  }

  /** `disable`: only the flag changes. */
  function DisableSpec(s: PhaseState): PhaseState {
    s.(enabled := false)
  }

  /**
   * `advancePhase`: nothing at the last phase; otherwise the next phase with
   * its tick count reset, reported through `CurrentPhase` (so free-form
   * while disabled: there is no enabled check).
   */
  function AdvanceSpec(s: PhaseState): (PhaseState, Option<PhaseConfig>) {
    if s.index >= LastIndex then (s, None)
    else
      var t := s.(index := s.index + 1, ticksInPhase := 0);
      (t, Some(CurrentPhase(t)))
  }

  /** JavaScript truthiness of an optional tick count: present and non-zero. */
  predicate Truthy(n: Option<int>) {
    n.Some? && n.value != 0
  }

  /**
   * `tick`: nothing while disabled; otherwise count one more tick in the
   * phase and advance once the phase's own tick budget is used up.
   */
  function TickSpec(s: PhaseState): (PhaseState, Option<PhaseConfig>) {
    if !s.enabled then (s, None)
    else
      var t := s.(ticksInPhase := s.ticksInPhase + 1);
      var current := CurrentPhase(t);
      if Truthy(current.autoAdvanceTick) && t.ticksInPhase >= current.autoAdvanceTick.value then AdvanceSpec(t)
      else (t, None)
  }

  const SetupGuidance := "You are in the Setup phase. Read the scenario briefing carefully and form your initial thoughts. Go to your office to think."
  const GatherGuidance := "It's time to gather. Move to The Boardroom for the group discussion."
  const OpenDiscussionGuidance := "Open discussion is underway. Share your perspective and engage with others' arguments."
  const BreakoutGuidance := "You may break out into smaller groups. Consider going to the Whiteboard Corner or Library to think through specific aspects."
  const ReconveneGuidance := "Time to reconvene. Return to The Boardroom and share what you've concluded."
  const DecisionGuidance := "Final round. Make your recommendation and explain your reasoning. Be clear about your position."

  /** `getPhaseGuidance`: fixed text per sequenced phase, empty for free-form. */
  function Guidance(p: Phase): string {
    match p
    case Setup => SetupGuidance
    case Gather => GatherGuidance
    case OpenDiscussion => OpenDiscussionGuidance
    case Breakout => BreakoutGuidance
    case Reconvene => ReconveneGuidance
    case Decision => DecisionGuidance
    case FreeForm => ""
  }

  // ---------------------------------------------------------------------
  // Properties of the rules
  // ---------------------------------------------------------------------

  /** Every operation keeps the index within the sequence. */
  lemma InvPreserved(s: PhaseState)
    requires Inv(s)
    ensures Inv(EnableSpec(s)) && Inv(DisableSpec(s)) && Inv(AdvanceSpec(s).0) && Inv(TickSpec(s).0)
  {
  }

  /** While disabled, the phase is free-form and a tick neither counts nor reports anything. */
  lemma DisabledIsFreeForm(s: PhaseState)
    requires !s.enabled
    ensures CurrentPhase(s) == FreeFormConfig && TickSpec(s) == (s, None)
  {
  }

  /**
   * At the last phase advancing reports nothing and changes nothing; before
   * it, advancing moves exactly one phase on and resets the tick count.
   */
  lemma AdvanceRule(s: PhaseState)
    ensures s.index >= LastIndex ==> AdvanceSpec(s) == (s, None)
    ensures s.index < LastIndex ==>
      AdvanceSpec(s).0 == PhaseState(s.enabled, s.index + 1, 0) && AdvanceSpec(s).1.Some?
  {
  }

  /** Advancing while disabled moves the hidden index yet still reports free-form. */
  lemma AdvanceWhileDisabled(s: PhaseState)
    requires !s.enabled && s.index < LastIndex
    ensures AdvanceSpec(s).0.index == s.index + 1
    ensures AdvanceSpec(s).1 == Some(FreeFormConfig) && CurrentPhase(AdvanceSpec(s).0) == FreeFormConfig
  {
  }

  /** Open discussion and every later phase never advance on their own. */
  lemma {:induction false} LaterPhasesStay(s: PhaseState, n: nat)
    requires Inv(s) && s.index >= 2
    ensures Ticks(s, n).index == s.index && Ticks(s, n).enabled == s.enabled
    ensures s.enabled ==> Ticks(s, n).ticksInPhase == s.ticksInPhase + n
    ensures !s.enabled ==> Ticks(s, n) == s
  {
    if n > 0 {
      LaterPhasesStay(s, n - 1);
    }
  }

  /** The state after `n` calls of `tick`. */
  function Ticks(s: PhaseState, n: nat): PhaseState {
    if n == 0 then s else TickSpec(Ticks(s, n - 1)).0
  }

  /** After `enable`, setup lasts three ticks (the third reports gather), then gather lasts five. */
  lemma AutoAdvanceSchedule(s: PhaseState)
    ensures var e := EnableSpec(s);
      && TickSpec(Ticks(e, 0)).1 == None && TickSpec(Ticks(e, 1)).1 == None
      && TickSpec(Ticks(e, 2)).1 == Some(PhaseSequence[1])
      && Ticks(e, 3) == PhaseState(true, 1, 0)
      && Ticks(e, 7).index == 1
      && TickSpec(Ticks(e, 7)).1 == Some(PhaseSequence[2])
      && Ticks(e, 8) == PhaseState(true, 2, 0)
  {
    var e := EnableSpec(s);
    assert Ticks(e, 1) == PhaseState(true, 0, 1);
    assert Ticks(e, 2) == PhaseState(true, 0, 2);
    assert Ticks(e, 3) == PhaseState(true, 1, 0);
    assert Ticks(e, 4) == PhaseState(true, 1, 1);
    assert Ticks(e, 5) == PhaseState(true, 1, 2);
    assert Ticks(e, 6) == PhaseState(true, 1, 3);
    assert Ticks(e, 7) == PhaseState(true, 1, 4);
  }

  /** Guidance is empty exactly for the free-form phase. */
  lemma GuidanceEmptyIffFreeForm(p: Phase)
    ensures Guidance(p) == "" <==> p == FreeForm
  {
  }

  class PhaseManager {
    var enabled: bool
    var currentIndex: int
    var ticksInPhase: int

    function State(): PhaseState
      reads this
    {
      PhaseState(enabled, currentIndex, ticksInPhase)
    }

    constructor (enabled: bool := false)
      ensures State() == PhaseState(enabled, 0, 0) && Inv(State())
    {
      this.enabled := enabled;
      currentIndex := 0;
      ticksInPhase := 0;
    }

    function IsEnabled(): (b: bool)
      reads this
      ensures b == State().enabled
    {
      enabled
    }

    method Enable()
      modifies this
      ensures State() == EnableSpec(old(State()))
    {
      enabled := true;
      currentIndex := 0;
      ticksInPhase := 0;
    }

    method Disable()
      modifies this
      ensures State() == DisableSpec(old(State()))
    {
      enabled := false;
    }

    function GetCurrentPhase(): (c: PhaseConfig)
      reads this
      ensures c == CurrentPhase(State())
    {
      if !enabled then FreeFormConfig
      else if 0 <= currentIndex < |PhaseSequence| then PhaseSequence[currentIndex]
      else PhaseSequence[|PhaseSequence| - 1]
    }

    method AdvancePhase() returns (r: Option<PhaseConfig>)
      modifies this
      ensures (State(), r) == AdvanceSpec(old(State()))
    {
      if currentIndex >= |PhaseSequence| - 1 {
        return None;
      }
      currentIndex := currentIndex + 1;
      ticksInPhase := 0;
      r := Some(GetCurrentPhase());
    }

    method Tick() returns (r: Option<PhaseConfig>)
      modifies this
      ensures (State(), r) == TickSpec(old(State()))
    {
      if !enabled {
        return None;
      }
      ticksInPhase := ticksInPhase + 1;
      var current := GetCurrentPhase();
      if current.autoAdvanceTick.Some? && current.autoAdvanceTick.value != 0
         && ticksInPhase >= current.autoAdvanceTick.value
      {
        r := AdvancePhase();
        return;
      }
      return None;
    }

    function GetPhaseGuidance(): (g: string)
      reads this
      ensures g == Guidance(CurrentPhase(State()).phase)
      ensures g == "" <==> !State().enabled
    {
      GuidanceEmptyIffFreeForm(GetCurrentPhase().phase);
      Guidance(GetCurrentPhase().phase)
    }
  }
}
