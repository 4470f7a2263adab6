/**
 * An agent's append-only memory stream (src/simulation/MemoryStream.ts):
 * entries are appended with fresh `mem_N` ids, retrieved by a score that adds
 * recency, importance and keyword relevance, listed newest first, and summed
 * for the reflection trigger.
 *
 * `Math.exp(-age * 0.1)` is a parameter `recency` from the age to a real, so
 * the facts proved hold for any recency curve.
 */
module MemoryStreams {
  import opened Wrappers
  import opened Types
  import JsText
  import Ids
  import StableRank

  // ---------------------------------------------------------------------
  // Keyword extraction (`extractKeywords`)
  // ---------------------------------------------------------------------

  const Stopwords: set<string> := {
    "the", "a", "an", "is", "are", "was", "were", "be", "been", "being",
    "have", "has", "had", "do", "does", "did", "will", "would", "could",
    "should", "may", "might", "shall", "can", "to", "of", "in", "for",
    "on", "with", "at", "by", "from", "as", "into", "about", "like",
    "through", "after", "over", "between", "out", "against", "during",
    "before", "above", "below", "and", "but", "or", "not", "no", "so",
    "if", "than", "too", "very", "just", "that", "this", "it", "i", "we",
    "you", "they", "he", "she", "my", "your", "his", "her", "our", "their"
  }

  /** `.replace(/[^a-z0-9\s]/g, "")`: keeps lower-case letters, digits and whitespace. */
  function KeepWordChars(s: string): (r: string)
    ensures |r| <= |s|
    ensures forall i :: 0 <= i < |r| ==> JsText.IsLowerAlnum(r[i]) || JsText.IsSpace(r[i])
  {
    if s == [] then []
    else (if JsText.IsLowerAlnum(s[0]) || JsText.IsSpace(s[0]) then [s[0]] else []) + KeepWordChars(s[1..])
  }

  predicate IsKeyword(w: string) {
    |w| > 2 && w !in Stopwords
  }

  /** `extractKeywords(text)`: no cap on the count, duplicates kept. */
  function ExtractKeywords(text: string): seq<string> {
    JsText.Filter(JsText.SplitWs(KeepWordChars(JsText.Lower(text))), IsKeyword)
  }

  /**
   * Every extracted keyword is a lower-case `[a-z0-9]` token of more than two
   * characters outside the stopword set, and a whitespace-delimited token of
   * the cleaned text is kept exactly when it has that shape.
   */
  lemma ExtractedKeywordShape(text: string)
    ensures forall w :: w in ExtractKeywords(text) ==>
      |w| > 2 && w !in Stopwords && forall i :: 0 <= i < |w| ==> JsText.IsLowerAlnum(w[i])
    ensures forall w :: w in ExtractKeywords(text) <==>
      w in JsText.SplitWs(KeepWordChars(JsText.Lower(text))) && IsKeyword(w)
  {
    var cleaned := KeepWordChars(JsText.Lower(text));
    var tokens := JsText.SplitWs(cleaned);
    forall w | w in tokens ensures forall i :: 0 <= i < |w| ==> JsText.IsLowerAlnum(w[i]) {
      TokensAreSubstrings(cleaned, w);
    }
  }

  /** Each token produced by splitting consists of characters of the split text. */
  lemma {:induction false} TokensAreSubstrings(s: string, w: string)
    requires forall i :: 0 <= i < |s| ==> JsText.IsLowerAlnum(s[i]) || JsText.IsSpace(s[i])
    requires w in JsText.SplitWs(s)
    ensures forall i :: 0 <= i < |w| ==> JsText.IsLowerAlnum(w[i])
    decreases |s|
  {
    var e := JsText.FirstSpace(s);
    if e < |s| && w != s[..e] {
      var rest := JsText.DropSpaces(s[e..]);
      DropSpacesSuffix(s[e..]);
      TokensAreSubstrings(rest, w);
    }
  }

  lemma {:induction false} DropSpacesSuffix(s: string)
    ensures var r := JsText.DropSpaces(s); r == s[|s| - |r|..]
  {
    if s != [] && JsText.IsSpace(s[0]) {
      DropSpacesSuffix(s[1..]);
    }
  }

  // ---------------------------------------------------------------------
  // Retrieval scoring
  // ---------------------------------------------------------------------

  /** `contextKeywords.filter((k) => entryKeywords.has(k)).length`: repeats in the context count. */
  function Overlap(context: seq<string>, keywords: seq<string>): nat {
    |JsText.Filter(context, w => w in keywords)|
  }

  /** `new Set([...contextKeywords, ...keywords]).size`. */
  function UnionSize(context: seq<string>, keywords: seq<string>): nat {
    |set w | w in context + keywords|
  }

  /** Jaccard-style relevance, 0 when both keyword lists are empty. */
  function Relevance(context: seq<string>, keywords: seq<string>): real {
    var u := UnionSize(context, keywords);
    if u > 0 then Overlap(context, keywords) as real / u as real else 0.0
  }

  function Score(e: MemoryEntry, currentTick: int, context: seq<string>, recency: int -> real): real {
    recency(currentTick - e.tick) + e.importance as real / 10.0 + Relevance(context, e.keywords)
  }

  function Scores(es: seq<MemoryEntry>, currentTick: int, context: seq<string>, recency: int -> real): (r: seq<real>)
    ensures |r| == |es|
    ensures forall i :: 0 <= i < |es| ==> r[i] == Score(es[i], currentTick, context, recency)
  {
    seq(|es|, i requires 0 <= i < |es| => Score(es[i], currentTick, context, recency))
  }

  /** Relevance is 0 exactly when nothing is shared or both lists are empty, and is never negative. */
  lemma RelevanceBasics(context: seq<string>, keywords: seq<string>)
    ensures Relevance(context, keywords) >= 0.0
    ensures context == [] && keywords == [] ==> Relevance(context, keywords) == 0.0
    ensures context != [] || keywords != [] ==> UnionSize(context, keywords) > 0
  {
    var all := context + keywords;
    if all != [] {
      var w := all[0];
      var u := set x | x in all;
      assert w in u;
      assert |u| > 0;
    } else {
      assert (set w | w in context + keywords) == {};
    }
  }

  /** A context that repeats a keyword can push relevance above 1. */
  lemma RelevanceCanExceedOne()
    ensures Relevance(["abc", "abc"], ["abc"]) == 2.0
  {
    var ctx, kws := ["abc", "abc"], ["abc"];
    assert (set w | w in ctx + kws) == {"abc"};
    assert JsText.Filter(ctx, w => w in kws) == ["abc", "abc"];
  }

  /** Without repeats in the context, relevance is at most 1. */
  lemma RelevanceAtMostOne(context: seq<string>, keywords: seq<string>)
    requires Distinct(context)
    ensures Relevance(context, keywords) <= 1.0
  {
    var u := UnionSize(context, keywords);
    if u > 0 {
      var shared := JsText.Filter(context, w => w in keywords);
      DistinctFilter(context, w => w in keywords);
      DistinctCard(shared);
      var a, b := set w | w in shared, set w | w in context + keywords;
      assert a <= b;
      SubsetCard(a, b);
      DivAtMostOne(Overlap(context, keywords) as real, u as real);
    }
  }

  lemma DivAtMostOne(a: real, b: real)
    requires 0.0 <= a <= b && b > 0.0
    ensures a / b <= 1.0
  {
  }

  lemma SubsetCard<T>(a: set<T>, b: set<T>)
    requires a <= b
    ensures |a| <= |b|
  {
    assert b == a + (b - a);
  }

  predicate Distinct<T(==)>(s: seq<T>) {
    forall i, j :: 0 <= i < j < |s| ==> s[i] != s[j]
  }

  lemma {:induction false} DistinctFilter<T(!new)>(s: seq<T>, p: T -> bool)
    requires Distinct(s)
    ensures Distinct(JsText.Filter(s, p))
  {
    if s != [] {
      DistinctFilter(s[1..], p);
      var rest := JsText.Filter(s[1..], p);
      assert s[0] !in s[1..] by {
        forall j | 1 <= j < |s| ensures s[j] != s[0] { }
      }
      if p(s[0]) {
        var r := [s[0]] + rest;
        forall i, j | 0 <= i < j < |r| ensures r[i] != r[j] {
          if i == 0 {
            assert r[j] in rest;
          } else {
            assert r[i] == rest[i - 1] && r[j] == rest[j - 1];
          }
        }
      }
    }
  }

  /** A list without repeats has as many elements as its set. */
  lemma {:induction false} DistinctCard<T(!new)>(s: seq<T>)
    requires Distinct(s)
    ensures |set x | x in s| == |s|
  {
    if s != [] {
      DistinctCard(s[1..]);
      assert s[0] !in s[1..] by {
        forall j | 1 <= j < |s| ensures s[j] != s[0] { }
      }
      assert (set x | x in s) == (set x | x in s[1..]) + {s[0]};
    }
  }

  // ---------------------------------------------------------------------
  // Retrieval selection and stamping
  // ---------------------------------------------------------------------

  /**
   * The positions `retrieve` returns: the stable descending order of the
   * scores, cut by `slice(0, k)`; none for an empty stream.
   */
  function TopPositions(es: seq<MemoryEntry>, currentTick: int, context: seq<string>, k: int, recency: int -> real): (r: seq<nat>)
    ensures StableRank.InRange(Scores(es, currentTick, context, recency), r)
  {
    if |es| == 0 then []
    else JsText.SliceTo(StableRank.Rank(Scores(es, currentTick, context, recency), |es|), k)
  }

  /** The entries at `picks`, in the order of `picks`. */
  function At(es: seq<MemoryEntry>, picks: seq<nat>): (r: seq<MemoryEntry>)
    requires forall p :: 0 <= p < |picks| ==> picks[p] < |es|
    ensures |r| == |picks|
    ensures forall p :: 0 <= p < |picks| ==> r[p] == es[picks[p]]
  {
    seq(|picks|, p requires 0 <= p < |picks| => es[picks[p]])
  }

  /** Sets `lastAccessed` to `tick` on the entries at `picks`. */
  function Stamp(es: seq<MemoryEntry>, picks: seq<nat>, tick: int): (r: seq<MemoryEntry>)
    ensures |r| == |es|
    ensures forall i :: 0 <= i < |es| && i in picks ==> r[i] == es[i].(lastAccessed := tick)
    ensures forall i :: 0 <= i < |es| && i !in picks ==> r[i] == es[i]
  {
    seq(|es|, i requires 0 <= i < |es| => if i in picks then es[i].(lastAccessed := tick) else es[i])
  }

  /** Equal apart from `lastAccessed`. */
  predicate SameButAccess(a: MemoryEntry, b: MemoryEntry) {
    a.(lastAccessed := 0) == b.(lastAccessed := 0)
  }

  /** `retrieve` on an empty stream selects nothing. */
  lemma RetrieveEmpty(currentTick: int, context: seq<string>, k: int, recency: int -> real)
    ensures TopPositions([], currentTick, context, k, recency) == []
  {
  }

  /**
   * `retrieve` selects min(k, n) distinct positions for k >= 0, ordered by
   * non-increasing score with ties in insertion order, and every selected
   * entry scores at least as high as every entry left out.
   */
  lemma TopPositionsAreTopK(es: seq<MemoryEntry>, currentTick: int, context: seq<string>, k: int, recency: int -> real)
    ensures var r := TopPositions(es, currentTick, context, k, recency);
      var sc := Scores(es, currentTick, context, recency);
      && (k >= 0 ==> |r| == JsText.Min(k, |es|))
      && (forall p, q :: 0 <= p < q < |r| ==> r[p] != r[q] && sc[r[p]] >= sc[r[q]] && (sc[r[p]] == sc[r[q]] ==> r[p] < r[q]))
      && (forall p, j :: 0 <= p < |r| && 0 <= j < |es| && j !in r ==> sc[r[p]] >= sc[j])
  {
    var r := TopPositions(es, currentTick, context, k, recency);
    var sc := Scores(es, currentTick, context, recency);
    if |es| > 0 {
      var full := StableRank.Rank(sc, |es|);
      var m := JsText.SliceIndex(|full|, k);
      assert r == full[..m];
      forall p, q | 0 <= p < q < |r|
        ensures r[p] != r[q] && sc[r[p]] >= sc[r[q]] && (sc[r[p]] == sc[r[q]] ==> r[p] < r[q])
      {
        StableRank.SortedKeysNonIncreasing(sc, full, p, q);
      }
      forall p, j | 0 <= p < |r| && 0 <= j < |es| && j !in r ensures sc[r[p]] >= sc[j] {
        assert j in full;
        var q :| 0 <= q < |full| && full[q] == j;
        assert q >= m;
        StableRank.SortedKeysNonIncreasing(sc, full, p, q);
      }
    }
  }

  // ---------------------------------------------------------------------
  // Unreflected importance
  // ---------------------------------------------------------------------

  /** The sum `getUnreflectedImportanceSum` computes, read from the newest entry backwards. */
  function UnreflectedSum(es: seq<MemoryEntry>): int {
    if es == [] then 0
    else
      var last := es[|es| - 1];
      match last.kind
      case Reflection => 0
      case Observation => last.importance + UnreflectedSum(es[..|es| - 1])
      case Plan => UnreflectedSum(es[..|es| - 1])
  }

  /** The entries after the newest reflection, or all entries when there is none. */
  function SinceLastReflection(es: seq<MemoryEntry>): (r: seq<MemoryEntry>)
    ensures forall e :: e in r ==> e.kind != Reflection
    ensures |r| <= |es| && r == es[|es| - |r|..]
  {
    if es == [] then []
    else if es[|es| - 1].kind == Reflection then []
    else SinceLastReflection(es[..|es| - 1]) + [es[|es| - 1]]
  }

  /** The importances of the observations in `es`, added front to back. */
  function ObservationImportance(es: seq<MemoryEntry>): int {
    if es == [] then 0
    else (if es[0].kind == Observation then es[0].importance else 0) + ObservationImportance(es[1..])
  }

  lemma {:induction false} ObservationImportanceAppend(a: seq<MemoryEntry>, b: seq<MemoryEntry>)
    ensures ObservationImportance(a + b) == ObservationImportance(a) + ObservationImportance(b)
  {
    if a != [] {
      assert (a + b)[1..] == a[1..] + b;
      ObservationImportanceAppend(a[1..], b);
    } else {
      assert a + b == b;
    }
  }

  /**
   * The backward scan equals the sum of observation importances strictly
   * after the newest reflection, plan entries ignored.
   */
  lemma {:induction false} UnreflectedSumSinceReflection(es: seq<MemoryEntry>)
    ensures UnreflectedSum(es) == ObservationImportance(SinceLastReflection(es))
  {
    if es != [] && es[|es| - 1].kind != Reflection {
      var init, last := es[..|es| - 1], es[|es| - 1];
      UnreflectedSumSinceReflection(init);
      ObservationImportanceAppend(SinceLastReflection(init), [last]);
      assert ObservationImportance([last]) == (if last.kind == Observation then last.importance else 0) by {
        assert [last][1..] == [];
      }
    }
  }

  /** Adding a reflection resets the sum to 0; adding an observation raises it by its importance. */
  lemma UnreflectedSumStep(es: seq<MemoryEntry>, e: MemoryEntry)
    ensures e.kind == Reflection ==> UnreflectedSum(es + [e]) == 0
    ensures e.kind == Observation ==> UnreflectedSum(es + [e]) == UnreflectedSum(es) + e.importance
    ensures e.kind == Plan ==> UnreflectedSum(es + [e]) == UnreflectedSum(es)
  {
    assert (es + [e])[..|es|] == es;
  }

  /** Stamping `lastAccessed` leaves the sum alone. */
  lemma {:induction false} UnreflectedSumIgnoresAccess(a: seq<MemoryEntry>, b: seq<MemoryEntry>)
    requires |a| == |b| && forall i :: 0 <= i < |a| ==> SameButAccess(a[i], b[i])
    ensures UnreflectedSum(a) == UnreflectedSum(b)
  {
    if a != [] {
      var n := |a|;
      assert a[n - 1].(lastAccessed := 0) == b[n - 1].(lastAccessed := 0);
      assert a[n - 1].kind == b[n - 1].kind && a[n - 1].importance == b[n - 1].importance;
      UnreflectedSumIgnoresAccess(a[..n - 1], b[..n - 1]);
    }
  }

  // ---------------------------------------------------------------------
  // Recent entries of one kind
  // ---------------------------------------------------------------------

  /** The entries of one kind, in insertion order; all entries when no kind is given. */
  function OfKind(es: seq<MemoryEntry>, kind: Option<MemoryKind>): (r: seq<MemoryEntry>)
    ensures forall e :: e in r <==> e in es && (kind.Some? ==> e.kind == kind.value)
  {
    match kind
    case None => es
    case Some(k) => JsText.Filter(es, (e: MemoryEntry) => e.kind == k)
  }

  /**
   * `getRecent(type, limit)` on a list of entries: the newest min(limit,
   * count) entries of the kind (of every kind when none is given), newest
   * first. A limit of 0 keeps them all, as `slice(-0)` does.
   */
  function Recent(es: seq<MemoryEntry>, kind: Option<MemoryKind>, limit: int): (r: seq<MemoryEntry>)
    ensures var f := OfKind(es, kind);
      && (limit > 0 ==> |r| == JsText.Min(limit, |f|))
      && (limit == 0 ==> |r| == |f|)
      && |r| <= |f|
      && (forall i :: 0 <= i < |r| ==> r[i] == f[|f| - 1 - i])
  {
    JsText.Reverse(JsText.LastN(OfKind(es, kind), limit))
  }

  // ---------------------------------------------------------------------
  // The stream
  // ---------------------------------------------------------------------

  class MemoryStream {
    var entries: seq<MemoryEntry>
    /** The counter value each entry's id was built from. */
    ghost var nums: seq<nat>
    /** The process-wide `memoryCounter`, shared by every stream. */
    const ids: Ids.Counter

    ghost predicate Valid()
      reads this, ids
    {
      && |nums| == |entries|
      && Ids.Increasing(nums)
      && (forall i :: 0 <= i < |entries| ==> entries[i].id == Ids.MakeId("mem_", nums[i]))
      && (forall i :: 0 <= i < |nums| ==> 1 <= nums[i] <= ids.value)
    }

    /**
     * `Valid` with the counter's value given: the counter is shared by every
     * stream, so another stream's `add` moves it on, and a stream valid at
     * one value stays valid at every later one.
     */
    ghost predicate ValidAt(counter: nat)
      reads this
    {
      && |nums| == |entries|
      && Ids.Increasing(nums)
      && (forall i :: 0 <= i < |entries| ==> entries[i].id == Ids.MakeId("mem_", nums[i]))
      && (forall i :: 0 <= i < |nums| ==> 1 <= nums[i] <= counter)
    }

    constructor (counter: Ids.Counter)
      ensures Valid() && entries == [] && ids == counter
    {
      entries := [];
      nums := [];
      ids := counter;
    }

    /** Memory ids are never reused within a stream. */
    lemma IdsUnique()
      requires Valid()
      ensures forall i, j :: 0 <= i < j < |entries| ==> entries[i].id != entries[j].id
    {
      forall i, j | 0 <= i < j < |entries| ensures entries[i].id != entries[j].id {
        Ids.IncreasingIdsDistinct("mem_", nums, i, j);
      }
    }

    /** The id the next `Add` will assign is not yet used in this stream. */
    lemma NextIdFresh()
      requires Valid()
      ensures forall e :: e in entries ==> e.id != Ids.MakeId("mem_", ids.value + 1)
    {
      forall e | e in entries ensures e.id != Ids.MakeId("mem_", ids.value + 1) {
        var i :| 0 <= i < |entries| && entries[i] == e;
        Ids.MakeIdInjective("mem_", nums[i], ids.value + 1);
      }
    }

    /**
     * `add`: appends one entry with id `mem_N` for the next counter value and
     * `lastAccessed` equal to its tick; the earlier entries stay as they were.
     */
    method Add(tick: int, kind: MemoryKind, content: string, importance: int, keywords: seq<string>,
               associatedAgent: Option<string>, location: Option<string>)
      requires Valid()
      modifies this, ids
      ensures Valid()
      ensures ids.value == old(ids.value) + 1
      ensures entries == old(entries) + [MemoryEntry(Ids.MakeId("mem_", ids.value), tick, kind, content,
                                                    importance, keywords, associatedAgent, location, tick)]
    {
      var n := ids.Next();
      entries := entries + [MemoryEntry(Ids.MakeId("mem_", n), tick, kind, content, importance, keywords,
                                        associatedAgent, location, tick)];
      nums := nums + [n];
    }

    /** `getAll`: every entry, newest first. */
    function GetAll(): (r: seq<MemoryEntry>)
      reads this
      ensures |r| == |entries|
      ensures forall i :: 0 <= i < |r| ==> r[i] == entries[|entries| - 1 - i]
    {
      JsText.Reverse(entries)
    }

    /** `getRecent(type, limit)`. */
    function GetRecent(kind: Option<MemoryKind>, limit: int): (r: seq<MemoryEntry>)
      reads this
    {
      Recent(entries, kind, limit)
    }

    /** `length`. */
    function Length(): (n: nat)
      reads this
      ensures n == |entries|
    {
      |entries|
    }

    /** `getUnreflectedImportanceSum`: walks back from the newest entry to the newest reflection. */
    method GetUnreflectedImportanceSum() returns (sum: int)
      ensures sum == UnreflectedSum(entries)
    {
      sum := 0;
      var i := |entries|;
      assert entries[..i] == entries;
      while i > 0
        invariant 0 <= i <= |entries|
        invariant sum + UnreflectedSum(entries[..i]) == UnreflectedSum(entries)
      {
        var e := entries[i - 1];
        assert entries[..i][..i - 1] == entries[..i - 1];
        if e.kind == Reflection {
          break;
        }
        if e.kind == Observation {
          sum := sum + e.importance;
        }
        i := i - 1;
      }
    }

    /**
     * `retrieve(currentTick, context, k)`: the entries at the top-k positions
     * by score, with `lastAccessed := currentTick` stamped on exactly those
     * entries; nothing else changes.
     */
    method Retrieve(currentTick: int, context: string, k: int, recency: int -> real) returns (top: seq<MemoryEntry>)
      requires Valid()
      modifies this
      ensures Valid()
      ensures var picks := TopPositions(old(entries), currentTick, ExtractKeywords(context), k, recency);
        && entries == Stamp(old(entries), picks, currentTick)
        && top == At(entries, picks)
    {
      if |entries| == 0 {
        return [];
      }
      var contextKeywords := ExtractKeywords(context);
      var picks := TopPositions(entries, currentTick, contextKeywords, k, recency);
      ghost var start := entries;
      var i := 0;
      while i < |picks|
        invariant 0 <= i <= |picks|
        invariant entries == Stamp(start, picks[..i], currentTick)
        invariant nums == old(nums)
      {
        StampStep(start, picks, i, currentTick);
        entries := entries[picks[i] := entries[picks[i]].(lastAccessed := currentTick)];
        i := i + 1;
      }
      assert picks[..i] == picks;
      StampKeepsContent(start, picks, currentTick);
      top := At(entries, picks);
    }
  }

  lemma StampStep(es: seq<MemoryEntry>, picks: seq<nat>, i: int, tick: int)
    requires 0 <= i < |picks| && picks[i] < |es|
    ensures Stamp(es, picks[..i + 1], tick)
         == Stamp(es, picks[..i], tick)[picks[i] := es[picks[i]].(lastAccessed := tick)]
  {
    assert picks[..i + 1] == picks[..i] + [picks[i]];
  }

  /** Retrieval changes only `lastAccessed`, so it keeps ids, contents and the reflection sum. */
  lemma StampKeepsContent(es: seq<MemoryEntry>, picks: seq<nat>, tick: int)
    ensures var r := Stamp(es, picks, tick);
      (forall i :: 0 <= i < |es| ==> SameButAccess(r[i], es[i]))
      && UnreflectedSum(r) == UnreflectedSum(es)
  {
    var r := Stamp(es, picks, tick);
    UnreflectedSumIgnoresAccess(r, es);
  }
}
