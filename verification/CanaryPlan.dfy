/** The canary plan: how many devices each batch of a password rollout touches. */
module CanaryPlan {
  import opened Wrappers

  function Sum(s: seq<int>): int {
    if s == [] then 0 else s[0] + Sum(s[1..])
  }

  predicate AllPositive(s: seq<int>) {
    forall i :: 0 <= i < |s| ==> s[i] > 0
  }

  lemma {:induction false} SumConcat(a: seq<int>, b: seq<int>)
    ensures Sum(a + b) == Sum(a) + Sum(b)
  {
    if a == [] {
      assert a + b == b;
    } else {
      assert (a + b)[1..] == a[1..] + b;
      SumConcat(a[1..], b);
    }
  }

  lemma {:induction false} SumOfPositives(s: seq<int>)
    requires AllPositive(s)
    ensures Sum(s) >= |s|
  {
    if s != [] {
      SumOfPositives(s[1..]);
    }
  }

  const DEFAULT_PLAN := [1, 5, 20]

  function Requested(plan: Option<seq<int>>): seq<int> {
    if plan.None? || plan.value == [] then DEFAULT_PLAN else plan.value
  }

  /** The batches the request yields while devices remain, then one batch for the rest. */
  function Clip(remaining: nat, requested: seq<int>): seq<int> {
    if remaining == 0 then []
    else if requested == [] then [remaining]
    else
      var size := Min(requested[0], remaining);
      if size > 0 then [size] + Clip(remaining - size, requested[1..]) else Clip(remaining, requested[1..])
  }

  function Normalize(deviceCount: int, plan: Option<seq<int>>): seq<int> {
    if deviceCount <= 0 then [] else Clip(deviceCount, Requested(plan))
  }

  lemma ClipUnfolds(remaining: nat, requested: seq<int>, i: nat)
    requires i < |requested| && remaining > 0
    ensures var size := Min(requested[i], remaining);
            Clip(remaining, requested[i..]) ==
              if size > 0 then [size] + Clip(remaining - size, requested[i + 1..])
              else Clip(remaining, requested[i + 1..])
  {
    assert requested[i..][1..] == requested[i + 1..];
  }

  lemma ClipEnds(remaining: nat, requested: seq<int>, i: nat)
    requires i == |requested| || (i < |requested| && remaining == 0)
    ensures Clip(remaining, requested[i..]) == if remaining > 0 then [remaining] else []
  {
  }

  method NormalizeCanaryPlan(deviceCount: int, plan: Option<seq<int>>) returns (normalized: seq<int>)
    ensures normalized == Normalize(deviceCount, plan)
    ensures AllPositive(normalized) && Sum(normalized) == Max(deviceCount, 0)
  {
    if deviceCount <= 0 {
      return [];
    }
    var requested := Requested(plan);
    normalized := [];
    var remaining := deviceCount;
    var i := 0;
    ghost var rest := Clip(deviceCount, requested);
    assert requested[0..] == requested;
    while i < |requested| && remaining > 0
      invariant 0 <= i <= |requested| && 0 <= remaining
      invariant rest == Clip(remaining, requested[i..]) && normalized + rest == Clip(deviceCount, requested)
    {
      var size := Min(requested[i], remaining);
      ClipUnfolds(remaining, requested, i);
      if size > 0 {
        rest := Clip(remaining - size, requested[i + 1..]);
        Associative(normalized, [size], rest);
        normalized := normalized + [size];
        remaining := remaining - size;
      }
      i := i + 1;
    }
    ClipEnds(remaining, requested, i);
    if remaining > 0 {
      normalized := normalized + [remaining];
    }
    ClipCovers(deviceCount, requested);
  }

  lemma {:induction false} ClipCovers(remaining: nat, requested: seq<int>)
    ensures AllPositive(Clip(remaining, requested)) && Sum(Clip(remaining, requested)) == remaining
  {
    if remaining > 0 && requested != [] {
      var size := Min(requested[0], remaining);
      if size > 0 {
        ClipCovers(remaining - size, requested[1..]);
        assert Clip(remaining, requested)[1..] == Clip(remaining - size, requested[1..]);
      } else {
        ClipCovers(remaining, requested[1..]);
      }
    }
  }

  lemma {:induction false} ClipFixes(remaining: nat, plan: seq<int>)
    requires AllPositive(plan) && Sum(plan) == remaining
    ensures Clip(remaining, plan) == plan
  {
    if plan != [] {
      SumOfPositives(plan[1..]);
      ClipFixes(remaining - plan[0], plan[1..]);
      assert plan == [plan[0]] + plan[1..];
    }
  }

  /**
   A plan is left alone exactly when it is positive throughout and covers the devices; every outcome is such a plan.
   */
  lemma FixedPoints(deviceCount: int, plan: seq<int>)
    requires deviceCount > 0
    ensures Normalize(deviceCount, Some(plan)) == plan <==> AllPositive(plan) && Sum(plan) == deviceCount
    ensures forall p :: Normalize(deviceCount, Some(Normalize(deviceCount, p))) == Normalize(deviceCount, p)
  {
    ClipCovers(deviceCount, Requested(Some(plan)));
    if AllPositive(plan) && Sum(plan) == deviceCount {
      ClipFixes(deviceCount, plan);
    }
    forall p
      ensures Normalize(deviceCount, Some(Normalize(deviceCount, p))) == Normalize(deviceCount, p)
    {
      ClipCovers(deviceCount, Requested(p));
      ClipFixes(deviceCount, Normalize(deviceCount, p));
    }
  }

  /** The batches that were asked for come first: batch k has the requested size unless the devices ran out. */
  lemma {:induction false} RequestHonoured(deviceCount: nat, requested: seq<int>, k: nat)
    requires AllPositive(requested) && k < |requested| && Sum(requested[..k + 1]) <= deviceCount
    ensures k < |Clip(deviceCount, requested)| && Clip(deviceCount, requested)[k] == requested[k]
  {
    assert requested[..k + 1] == [requested[0]] + requested[1..][..k];
    SumOfPositives(requested[1..][..k]);
    if k > 0 {
      RequestHonoured(deviceCount - requested[0], requested[1..], k - 1);
    }
  }

  function Positives(s: seq<int>): seq<int> {
    if s == [] then [] else (if s[0] > 0 then [s[0]] else []) + Positives(s[1..])
  }

  lemma {:induction false} ClipExactly(remaining: nat, requested: seq<int>, k: nat)
    requires k < |Clip(remaining, requested)|
    ensures var sizes, rest := Clip(remaining, requested), remaining - Sum(Clip(remaining, requested)[..k]);
            sizes[k] == if k < |Positives(requested)| then Min(Positives(requested)[k], rest) else rest
    decreases |requested|
  {
    var sizes := Clip(remaining, requested);
    assert sizes[..0] == [];
    if requested != [] {
      if requested[0] <= 0 {
        ClipExactly(remaining, requested[1..], k);
      } else if k > 0 {
        ClipExactly(remaining - sizes[0], requested[1..], k - 1);
        AllButFirst(sizes, Positives(requested), k);
      }
    }
  }

  lemma AllButFirst(sizes: seq<int>, requested: seq<int>, k: nat)
    requires 0 < k < |sizes| && requested != []
    ensures Sum(sizes[..k]) == sizes[0] + Sum(sizes[1..][..k - 1])
    ensures k < |requested| ==> requested[k] == requested[1..][k - 1]
  {
    assert sizes[..k] == [sizes[0]] + sizes[1..][..k - 1];
  }

  /**
   Each batch size: batch k gets the k-th positive size requested or the devices that are left, whichever is less, and
   what is left after the last request is one batch. No request, and an empty one, stand for 1, 5, 20.
   */
  lemma SizesExactly(deviceCount: nat, plan: Option<seq<int>>, k: nat)
    requires k < |Normalize(deviceCount, plan)|
    ensures var sizes, requested := Normalize(deviceCount, plan),
            Positives(if plan == None || plan == Some([]) then [1, 5, 20] else plan.value);
            var rest := deviceCount - Sum(sizes[..k]);
            sizes[k] == if k < |requested| then Min(requested[k], rest) else rest
  {
    ClipExactly(deviceCount, Requested(plan), k);
  }

  /** So more than 26 devices without a request make batches of 1, 5, 20 and all the others. */
  lemma DefaultPlan(deviceCount: nat)
    requires deviceCount > 26
    ensures Normalize(deviceCount, None) == [1, 5, 20, deviceCount - 26]
  {
    ClipUnfolds(deviceCount, DEFAULT_PLAN, 0);
    ClipUnfolds(deviceCount - 1, DEFAULT_PLAN, 1);
    ClipUnfolds(deviceCount - 6, DEFAULT_PLAN, 2);
    assert DEFAULT_PLAN[0..] == DEFAULT_PLAN && DEFAULT_PLAN[3..] == [];
  }

  // ---------------------------------------------------------------------------------------------
  // Slicing the tasks into batches
  // ---------------------------------------------------------------------------------------------

  /** A Python slice bound: negative counts from the end, everything is clamped. */
  function Bound(n: nat, i: int): (r: nat)
    ensures r <= n
  {
    if i < 0 then Max(0, n + i) else Min(i, n)
  }

  function Slice<T>(s: seq<T>, from: int, to: int): seq<T> {
    var lo, hi := Bound(|s|, from), Bound(|s|, to);
    if lo <= hi then s[lo..hi] else []
  }

  /** Python counts a negative bound from the end, and a bound beyond either end stands for that end. */
  lemma SliceMeans<T>(s: seq<T>, k: nat)
    requires k > 0
    ensures k <= |s| ==> Slice(s, 0 - k, |s|) == s[|s| - k..] && Slice(s, 0, 0 - k) == s[..|s| - k]
    ensures k > |s| ==> Slice(s, 0 - k, k) == s && Slice(s, 0, 0 - k) == []
  {
  }

  function Slices<T>(tasks: seq<T>, plan: seq<int>, offset: int): seq<seq<T>> {
    if plan == [] then [] else [Slice(tasks, offset, offset + plan[0])] + Slices(tasks, plan[1..], offset + plan[0])
  }

  function Flatten<T>(batches: seq<seq<T>>): seq<T> {
    if batches == [] then [] else batches[0] + Flatten(batches[1..])
  }

  /** `create_batches`: the running offset over the task list. */
  method CreateBatches<T>(tasks: seq<T>, plan: seq<int>) returns (batches: seq<seq<T>>)
    ensures batches == Slices(tasks, plan, 0)
  {
    batches := [];
    var offset := 0;
    for i := 0 to |plan|
      invariant batches + Slices(tasks, plan[i..], offset) == Slices(tasks, plan, 0)
    {
      assert plan[i..][1..] == plan[i + 1..];
      Associative(batches, [Slice(tasks, offset, offset + plan[i])], Slices(tasks, plan[i + 1..], offset + plan[i]));
      batches := batches + [Slice(tasks, offset, offset + plan[i])];
      offset := offset + plan[i];
    }
  }

  lemma SumNext(plan: seq<int>, k: nat)
    requires AllPositive(plan) && k < |plan|
    ensures 0 <= Sum(plan[..k]) && Sum(plan[..k + 1]) == Sum(plan[..k]) + plan[k] <= Sum(plan)
  {
    assert plan[..k + 1] == plan[..k] + [plan[k]] && plan == plan[..k + 1] + plan[k + 1..];
    SumConcat(plan[..k], [plan[k]]);
    SumConcat(plan[..k + 1], plan[k + 1..]);
    SumOfPositives(plan[..k]);
    SumOfPositives(plan[k + 1..]);
  }

  lemma {:induction false} SlicesAt<T>(tasks: seq<T>, plan: seq<int>, offset: int, k: nat)
    requires k < |plan|
    ensures |Slices(tasks, plan, offset)| == |plan|
    ensures Slices(tasks, plan, offset)[k] == Slice(tasks, offset + Sum(plan[..k]), offset + Sum(plan[..k]) + plan[k])
  {
    if k > 0 {
      SlicesAt(tasks, plan[1..], offset + plan[0], k - 1);
      assert plan[..k][0] == plan[0] && plan[..k][1..] == plan[1..][..k - 1];
    } else if |plan| > 1 {
      SlicesAt(tasks, plan[1..], offset + plan[0], 0);
    }
  }

  /** Batch k is the stretch of tasks between the partial sums of the plan. */
  lemma BatchAt<T>(tasks: seq<T>, plan: seq<int>, offset: nat, k: nat)
    requires AllPositive(plan) && offset + Sum(plan) <= |tasks| && k < |plan|
    ensures |Slices(tasks, plan, offset)| == |plan|
    ensures 0 <= Sum(plan[..k]) && Sum(plan[..k + 1]) == Sum(plan[..k]) + plan[k]
            && offset + Sum(plan[..k + 1]) <= |tasks|
    ensures Slices(tasks, plan, offset)[k] == tasks[offset + Sum(plan[..k])..offset + Sum(plan[..k + 1])]
  {
    SumNext(plan, k);
    SlicesAt(tasks, plan, offset, k);
  }

  lemma {:induction false} PartialSums(plan: seq<int>, i: nat, k: nat)
    requires AllPositive(plan) && i <= k <= |plan|
    ensures 0 <= Sum(plan[..i]) <= Sum(plan[..k]) <= Sum(plan)
  {
    SumConcat(plan[..i], plan[i..k]);
    assert plan[..k] == plan[..i] + plan[i..k];
    SumConcat(plan[..k], plan[k..]);
    assert plan == plan[..k] + plan[k..];
    SumOfPositives(plan[..i]);
    SumOfPositives(plan[i..k]);
    SumOfPositives(plan[k..]);
  }

  /** Every position below the total lies between two consecutive partial sums. */
  lemma {:induction false} BatchHolding(plan: seq<int>, t: nat) returns (i: nat)
    requires AllPositive(plan) && t < Sum(plan)
    ensures i < |plan| && Sum(plan[..i]) <= t < Sum(plan[..i + 1])
  {
    if t < plan[0] {
      i := 0;
      assert plan[..1] == [plan[0]];
    } else {
      var rest := BatchHolding(plan[1..], t - plan[0]);
      i := rest + 1;
      assert plan[..i] == [plan[0]] + plan[1..][..rest];
      assert plan[..i + 1] == [plan[0]] + plan[1..][..rest + 1];
    }
  }

  lemma Rejoin<T>(tasks: seq<T>, i: nat, j: nat, k: nat)
    requires i <= j <= k <= |tasks|
    ensures tasks[i..j] + tasks[j..k] == tasks[i..k] && Slice(tasks, i, j) == tasks[i..j]
  {
  }

  lemma {:induction false} SlicesRejoin<T>(tasks: seq<T>, plan: seq<int>, offset: nat)
    requires AllPositive(plan) && offset + Sum(plan) <= |tasks|
    ensures 0 <= Sum(plan) && Flatten(Slices(tasks, plan, offset)) == tasks[offset..offset + Sum(plan)]
  {
    SumOfPositives(plan);
    if plan != [] {
      var next := offset + plan[0];
      SumOfPositives(plan[1..]);
      SlicesRejoin(tasks, plan[1..], next);
      Rejoin(tasks, offset, next, offset + Sum(plan));
    }
  }

  lemma {:induction false} SlicesPrefix<T>(tasks: seq<T>, plan: seq<int>, offset: int, k: nat)
    requires k <= |plan|
    ensures |Slices(tasks, plan, offset)| == |plan|
    ensures Slices(tasks, plan[..k], offset) == Slices(tasks, plan, offset)[..k]
  {
    if plan != [] {
      SlicesPrefix(tasks, plan[1..], offset + plan[0], if k > 0 then k - 1 else 0);
      if k > 0 {
        assert plan[..k][1..] == plan[1..][..k - 1];
      }
    }
  }

  /**
   A normalized plan partitions the tasks in order: no gap, no overlap, no empty batch; and the first
   k batches hold exactly the first `Sum(plan[..k])` tasks, which bounds the damage of a failing batch.
   */
  lemma NormalizedPlanPartitions<T>(tasks: seq<T>, plan: Option<seq<int>>, k: nat)
    requires tasks != [] && k <= |Normalize(|tasks|, plan)|
    ensures var sizes := Normalize(|tasks|, plan);
            var batches := Slices(tasks, sizes, 0);
            && |batches| == |sizes| > 0
            && (forall i :: 0 <= i < |batches| ==> |batches[i]| == sizes[i] > 0)
            && Flatten(batches) == tasks
            && 0 <= Sum(sizes[..k]) <= |tasks|
            && Flatten(batches[..k]) == tasks[..Sum(sizes[..k])]
  {
    var sizes := Normalize(|tasks|, plan);
    ClipCovers(|tasks|, Requested(plan));
    SlicesRejoin(tasks, sizes, 0);
    assert tasks[0..|tasks|] == tasks;
    SlicesHaveSizes(tasks, sizes);
    FirstSlices(tasks, sizes, k);
  }

  lemma SlicesHaveSizes<T>(tasks: seq<T>, plan: seq<int>)
    requires AllPositive(plan) && Sum(plan) == |tasks|
    ensures var batches := Slices(tasks, plan, 0);
            |batches| == |plan| && forall i :: 0 <= i < |batches| ==> |batches[i]| == plan[i] > 0
  {
    SlicesPrefix(tasks, plan, 0, 0);
    forall i | 0 <= i < |plan|
      ensures |Slices(tasks, plan, 0)[i]| == plan[i]
    {
      BatchAt(tasks, plan, 0, i);
    }
  }

  lemma FirstSlices<T>(tasks: seq<T>, plan: seq<int>, k: nat)
    requires AllPositive(plan) && Sum(plan) == |tasks| && k <= |plan|
    ensures |Slices(tasks, plan, 0)| == |plan|
    ensures 0 <= Sum(plan[..k]) <= |tasks| && Flatten(Slices(tasks, plan, 0)[..k]) == tasks[..Sum(plan[..k])]
  {
    PartialSums(plan, k, k);
    SlicesPrefix(tasks, plan, 0, k);
    SlicesRejoin(tasks, plan[..k], 0);
  }
}
