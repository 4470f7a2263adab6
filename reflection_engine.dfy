/**
 * When and how an agent reflects (src/simulation/ReflectionEngine.ts): once
 * the importance of its observations since the last reflection reaches 15,
 * its ten newest observations go to the language model, and every insight
 * that comes back is stored as a reflection memory of importance 7.
 */
module ReflectionEngines {
  import opened Wrappers
  import opened Types
  import MemoryStreams
  import Agents
  import LanguageModels
  import PromptTemplates
  import JsText

  const ReflectionThreshold := 15
  /** How many of the newest observations a reflection looks at. */
  const ObservationWindow := 10
  const ReflectionImportance := 7

  /** `shouldReflect` on a list of memories. */
  predicate DueFor(es: seq<MemoryEntry>) {
    MemoryStreams.UnreflectedSum(es) >= ReflectionThreshold
  }

  /** A reflection is due exactly when the observations after the newest reflection weigh 15 or more. */
  lemma DueForSinceLastReflection(es: seq<MemoryEntry>)
    ensures DueFor(es) <==> MemoryStreams.ObservationImportance(MemoryStreams.SinceLastReflection(es)) >= ReflectionThreshold
  {
    MemoryStreams.UnreflectedSumSinceReflection(es);
  }

  /** An observation of the given importance, for the examples. */
  function Seen(importance: int): MemoryEntry {
    MemoryEntry("m", 0, Observation, "", importance, [], None, None, 0)
  }

  /** Observations weighing 5, 6 and 5 call for a reflection; 5 and 5 do not, nor does anything after a reflection. */
  lemma DueForExamples()
    ensures DueFor([Seen(5), Seen(6), Seen(5)])
    ensures !DueFor([Seen(5), Seen(5)])
    ensures !DueFor([Seen(9), Seen(9), Seen(9).(kind := Reflection)])
  {
    assert [Seen(5), Seen(6), Seen(5)][..2] == [Seen(5), Seen(6)];
    assert [Seen(5), Seen(6)][..1] == [Seen(5)];
    assert [Seen(5), Seen(5)][..1] == [Seen(5)];
    assert [Seen(5)][..0] == [];
  }

  /** The contents of a list of memories, in the same order. */
  function Contents(es: seq<MemoryEntry>): (r: seq<string>)
    ensures |r| == |es| && forall i :: 0 <= i < |es| ==> r[i] == es[i].content
  {
    seq(|es|, i requires 0 <= i < |es| => es[i].content)
  }

  /** The observations a reflection is built from: the contents of the ten newest, newest first. */
  function RecentObservations(es: seq<MemoryEntry>): seq<string> {
    Contents(MemoryStreams.Recent(es, Some(Observation), ObservationWindow))
  }

  /** At most ten observations are fed, each the content of an observation, the newest one first. */
  lemma RecentObservationsShape(es: seq<MemoryEntry>)
    ensures var obs := RecentObservations(es);
      var all := MemoryStreams.OfKind(es, Some(Observation));
      && |obs| == JsText.Min(ObservationWindow, |all|)
      && (forall i :: 0 <= i < |obs| ==> obs[i] == all[|all| - 1 - i].content && all[|all| - 1 - i].kind == Observation)
      && (obs == [] <==> forall e :: e in es ==> e.kind != Observation)
  {
    var all := MemoryStreams.OfKind(es, Some(Observation));
    forall e | e in all ensures e.kind == Observation { }
    if all == [] {
      forall e | e in es ensures e.kind != Observation {
        assert e !in all;
      }
    } else {
      assert all[0] in all;
    }
  }

  /** The reflection memories `reflect` appends for `rs`, the first one numbered `n + 1`. */
  function ReflectionEntries(n: nat, tick: int, rs: seq<string>): (r: seq<MemoryEntry>)
    ensures |r| == |rs|
    ensures forall i :: 0 <= i < |rs| ==> r[i] == Agents.Agent.ReflectionEntry(n + i + 1, tick, rs[i], ReflectionImportance)
  {
    seq(|rs|, i requires 0 <= i < |rs| => Agents.Agent.ReflectionEntry(n + i + 1, tick, rs[i], ReflectionImportance))
  }

  /** One more insight stored: one more reflection entry, numbered next. */
  lemma ReflectionEntriesSnoc(n: nat, tick: int, rs: seq<string>, i: nat, m: nat)
    requires i < |rs| && m == n + i + 1
    ensures ReflectionEntries(n, tick, rs[..i + 1])
         == ReflectionEntries(n, tick, rs[..i]) + [Agents.Agent.ReflectionEntry(m, tick, rs[i], ReflectionImportance)]
  {
    assert rs[..i + 1][i] == rs[i];
  }

  /** Observations after the newest reflection that weigh anything include at least one observation. */
  lemma {:induction false} UnreflectedNeedsObservation(es: seq<MemoryEntry>)
    requires MemoryStreams.UnreflectedSum(es) != 0
    ensures exists i :: 0 <= i < |es| && es[i].kind == Observation
  {
    var init, last := es[..|es| - 1], es[|es| - 1];
    if last.kind != Observation {
      UnreflectedNeedsObservation(init);
      var i :| 0 <= i < |init| && init[i].kind == Observation;
      assert es[i] == init[i];
    }
  }

  /** A due reflection always has observations to look at: the model is asked. */
  lemma DueHasObservations(es: seq<MemoryEntry>)
    requires DueFor(es)
    ensures RecentObservations(es) != []
  {
    UnreflectedNeedsObservation(es);
    RecentObservationsShape(es);
    var i :| 0 <= i < |es| && es[i].kind == Observation;
    assert es[i] in es;
  }

  /** Once at least one reflection has been stored, nothing is left unreflected and no reflection is due. */
  lemma ReflectingResets(es: seq<MemoryEntry>, n: nat, tick: int, rs: seq<string>)
    requires rs != []
    ensures MemoryStreams.UnreflectedSum(es + ReflectionEntries(n, tick, rs)) == 0
    ensures !DueFor(es + ReflectionEntries(n, tick, rs))
  {
    var added := ReflectionEntries(n, tick, rs);
    var last := added[|added| - 1];
    assert es + added == (es + added[..|added| - 1]) + [last];
    MemoryStreams.UnreflectedSumStep(es + added[..|added| - 1], last);
  }

  class ReflectionEngine {
    const client: LanguageModels.LanguageModel

    constructor (client: LanguageModels.LanguageModel)
      ensures this.client == client
    {
      this.client := client;
    }

    /** `shouldReflect`: the agent's unreflected importance has reached the threshold. */
    method ShouldReflect(agent: Agents.Agent) returns (due: bool)
      ensures due <==> DueFor(agent.memory.entries)
    {
      var sum := agent.memory.GetUnreflectedImportanceSum();
      due := sum >= ReflectionThreshold;
    }

    /**
     * `reflect`: with no observation at all, nothing is asked and nothing
     * stored; otherwise the model gets the reflection prompt over the ten
     * newest observations, and each insight it returns, in order, becomes
     * one reflection memory at `tick`. The insights are returned as the
     * model gave them, however many there are.
     */
    method Reflect(agent: Agents.Agent, tick: int) returns (reflections: seq<string>)
      requires agent.Valid()
      modifies client, agent.memory, agent.memory.ids
      ensures agent.Valid()
      ensures var obs := RecentObservations(old(agent.memory.entries));
        if obs == [] then
          && reflections == []
          && agent.memory.entries == old(agent.memory.entries)
          && agent.memory.ids.value == old(agent.memory.ids.value)
          && client.reflectionReplies == old(client.reflectionReplies)
          && client.reflectionPrompts == old(client.reflectionPrompts)
        else
          && reflections == LanguageModels.ReflectionsFrom(LanguageModels.Head(old(client.reflectionReplies), LanguageModels.ReflectionFails))
          && client.reflectionReplies == LanguageModels.Tail(old(client.reflectionReplies))
          && client.reflectionPrompts == old(client.reflectionPrompts) + [PromptTemplates.ReflectionPrompt(agent.name, agent.role, obs)]
          && agent.memory.entries == old(agent.memory.entries) + ReflectionEntries(old(agent.memory.ids.value), tick, reflections)
          && agent.memory.ids.value == old(agent.memory.ids.value) + |reflections|
      ensures client.actionReplies == old(client.actionReplies) && client.actionPrompts == old(client.actionPrompts)
    {
      var recent := agent.memory.GetRecent(Some(Observation), ObservationWindow);
      var recentObs := Contents(recent);
      if |recentObs| == 0 {
        return [];
      }
      var prompt := PromptTemplates.ReflectionPrompt(agent.name, agent.role, recentObs);
      reflections := client.GenerateReflections(prompt);
      Store(agent, tick, reflections);
    }

    /**
     * `reflect` as its caller sees it: the insights the model gives (none
     * when there is no observation), stored in order as reflections at
     * `tick`; the shared counter only moves on.
     */
    method Reconsider(agent: Agents.Agent, tick: int) returns (reflections: seq<string>)
      requires agent.Valid()
      modifies client, agent.memory, agent.memory.ids
      ensures agent.Valid() && agent.memory.ids.value >= old(agent.memory.ids.value)
      ensures if RecentObservations(old(agent.memory.entries)) == [] then
          reflections == [] && agent.memory.entries == old(agent.memory.entries)
        else
          && reflections == LanguageModels.ReflectionsFrom(LanguageModels.Head(old(client.reflectionReplies), LanguageModels.ReflectionFails))
          && agent.memory.entries == old(agent.memory.entries) + ReflectionEntries(old(agent.memory.ids.value), tick, reflections)
    {
      reflections := Reflect(agent, tick);
    }

    /** The loop of `reflect`: each insight, in order, stored as one reflection at `tick`. */
    static method Store(agent: Agents.Agent, tick: int, reflections: seq<string>)
      requires agent.Valid()
      modifies agent.memory, agent.memory.ids
      ensures agent.Valid()
      ensures agent.memory.entries == old(agent.memory.entries) + ReflectionEntries(old(agent.memory.ids.value), tick, reflections)
      ensures agent.memory.ids.value == old(agent.memory.ids.value) + |reflections|
    {
      ghost var start := agent.memory.entries;
      ghost var n := agent.memory.ids.value;
      var i := 0;
      while i < |reflections|
        invariant 0 <= i <= |reflections|
        invariant agent.Valid()
        invariant agent.memory.ids.value == n + i
        invariant agent.memory.entries == start + ReflectionEntries(n, tick, reflections[..i])
      {
        ghost var m: nat := n + i + 1;
        ReflectionEntriesSnoc(n, tick, reflections, i, m);
        agent.AddReflection(tick, reflections[i], ReflectionImportance);
        i := i + 1;
      }
      assert reflections[..i] == reflections;
    }
  }
}
