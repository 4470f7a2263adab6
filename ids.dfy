/**
 * The module-level counters (`let memoryCounter = 0`, `let eventCounter = 0`,
 * `let conversationCounter = 0`) from which the source builds ids such as
 * `mem_7`: one shared object per counter, bumped before each use.
 */
module Ids {
  import JsText

  class Counter {
    var value: nat

    constructor ()
      ensures value == 0
    {
      value := 0;
    }

    /** `++counter`: the new value is one more than the old one and is returned. */
    method Next() returns (n: nat)
      modifies this
      ensures value == old(value) + 1 && n == value
    {
      value := value + 1;
      n := value;
    }
  }

  /** The id `prefix${n}` a counter value renders to. */
  function MakeId(prefix: string, n: nat): string {
    prefix + JsText.NatToString(n)
  }

  /** Ids built from one prefix and distinct counter values are distinct. */
  lemma MakeIdInjective(prefix: string, a: nat, b: nat)
    ensures MakeId(prefix, a) == MakeId(prefix, b) <==> a == b
  {
    if MakeId(prefix, a) == MakeId(prefix, b) {
      JsText.PrefixedNatInjective(prefix, a, b);
    }
  }

  /** Numbers are strictly increasing along a sequence: each is above the one before it. */
  ghost predicate Increasing(nums: seq<nat>) {
    forall i :: 0 < i < |nums| ==> nums[i - 1] < nums[i]
  }

  /** In an increasing sequence every number is below every later one. */
  lemma {:induction false} IncreasingPair(nums: seq<nat>, i: int, j: int)
    requires Increasing(nums)
    requires 0 <= i < j < |nums|
    ensures nums[i] < nums[j]
    decreases j - i
  {
    if i + 1 < j {
      IncreasingPair(nums, i + 1, j);
    }
  }

  /** The ids rendered from strictly increasing numbers are pairwise distinct. */
  lemma IncreasingIdsDistinct(prefix: string, nums: seq<nat>, i: int, j: int)
    requires Increasing(nums)
    requires 0 <= i < j < |nums|
    ensures MakeId(prefix, nums[i]) != MakeId(prefix, nums[j])
  {
    IncreasingPair(nums, i, j);
    MakeIdInjective(prefix, nums[i], nums[j]);
  }

  /** Every id `prefix1` .. `prefixN` handed out by a counter that has reached `n`. */
  ghost function Issued(prefix: string, n: nat): set<string> {
    set i | 1 <= i <= n :: MakeId(prefix, i)
  }

  /** The next id is not among those already handed out, and is handed out by the next step. */
  lemma NextIdFresh(prefix: string, n: nat)
    ensures MakeId(prefix, n + 1) !in Issued(prefix, n)
    ensures Issued(prefix, n + 1) == Issued(prefix, n) + {MakeId(prefix, n + 1)}
  {
    if MakeId(prefix, n + 1) in Issued(prefix, n) {
      var i :| 1 <= i <= n && MakeId(prefix, i) == MakeId(prefix, n + 1);
      MakeIdInjective(prefix, i, n + 1);
    }
  }
}
