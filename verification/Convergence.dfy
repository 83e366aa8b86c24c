/** Rolling out to completion: how many steps it takes while images keep arriving, and that nothing
    changes afterwards. */
module Convergence {
  import opened Basics
  import opened Cluster
  import opened ApiServer
  import opened Rollout
  import opened RolloutRuns

  /** Between two steps every set of the current generation becomes ready for the gate. Sets of
      selected nodes keep their spec; elsewhere sets may disappear but none is created. */
  ghost predicate Settles(p: ImagePrefetch, sel: seq<string>, was: OwnedSets, now: OwnedSets) {
    && (forall n :: n in sel ==> (n in was <==> n in now))
    && (forall n :: n in sel && n in now ==>
          && now[n].spec == was[n].spec
          && (now[n].spec.prefetchGeneration == p.generation ==> GateReady(now[n], p.generation)))
    && (forall n :: n in now && n !in sel ==>
          n in was && now[n].spec == was[n].spec && (was[n].deleting ==> now[n].deleting))
  }

  /** Consecutive unrefused steps with spec, selection and limits fixed: round j starts from
      starts[j] and leaves ends[j]. */
  ghost predicate Rounds(cfg: Config, p: ImagePrefetch, sel: seq<string>,
                         starts: seq<OwnedSets>, ends: seq<OwnedSets>, outs: seq<Outcome>) {
    && |starts| == |ends| == |outs|
    && forall j: nat :: j < |starts| ==> RoundAt(cfg, p, sel, starts, ends, outs, j)
  }

  ghost predicate RoundAt(cfg: Config, p: ImagePrefetch, sel: seq<string>,
                          starts: seq<OwnedSets>, ends: seq<OwnedSets>, outs: seq<Outcome>, j: nat)
    requires j < |starts| == |ends| == |outs|
  {
    && RolloutStep(cfg, p, sel, starts[j], ends[j], outs[j]) && outs[j] != Refused
    && (j > 0 ==> Settles(p, sel, ends[j - 1], starts[j]))
  }

  lemma WrittenBecomeReady(cfg: Config, p: ImagePrefetch, sel: seq<string>, start: OwnedSets, end: OwnedSets,
                           next: OwnedSets, k: nat)
    requires Distinct(sel) && Wrote(cfg, p, sel, start, end, k) && Settles(p, sel, end, next)
    ensures ToSet(sel[..k]) <= ReadySets(next, p.generation)
    ensures |ReadySets(next, p.generation)| >= k
  {
    PrefixMembers(sel, k);
    forall n | n in sel[..k] ensures n in ReadySets(next, p.generation) {
      var i :| 0 <= i < k && sel[..k][i] == n;
      assert end[sel[i]].spec == Desired(cfg, p, sel, i);
    }
    SubsetCard(ToSet(sel[..k]), ReadySets(next, p.generation));
  }

  /** The measure: what one round left unprocessed shrinks by a whole batch in the next. */
  lemma NextRound(cfg: Config, p: ImagePrefetch, sel: seq<string>, start: OwnedSets, end: OwnedSets, next: OwnedSets,
                  out: Outcome)
    requires Distinct(sel) && cfg.maxConcurrent >= 1
    requires RolloutStep(cfg, p, sel, start, end, out) && out != Refused && Settles(p, sel, end, next)
    ensures Batch(cfg, p, sel, next) >= Min(|sel|, Batch(cfg, p, sel, start) + cfg.maxConcurrent)
  {
    var k := StepEffect(cfg, p, sel, start, end, out);
    WrittenBecomeReady(cfg, p, sel, start, end, next, k);
  }

  /** What a number of rounds can process. */
  function Capacity(c: int, rounds: nat): int {
    if rounds == 0 then 0 else Capacity(c, rounds - 1) + c
  }

  lemma {:induction false} CapacityIsProduct(c: int, rounds: nat)
    ensures Capacity(c, rounds) == rounds * c
  {
    if rounds > 0 {
      CapacityIsProduct(c, rounds - 1);
      assert rounds * c == (rounds - 1) * c + c;
    }
  }

  /** Each round reaches at least one more batch: after j + 1 rounds, j + 1 batches. */
  lemma {:induction false} Progress(cfg: Config, p: ImagePrefetch, sel: seq<string>,
                                    starts: seq<OwnedSets>, ends: seq<OwnedSets>, outs: seq<Outcome>, j: nat)
    requires Distinct(sel) && Rounds(cfg, p, sel, starts, ends, outs) && cfg.maxConcurrent >= 1 && j < |starts|
    ensures Batch(cfg, p, sel, starts[j]) >= Min(|sel|, Capacity(cfg.maxConcurrent, j + 1))
  {
    if j > 0 {
      Progress(cfg, p, sel, starts, ends, outs, j - 1);
      assert RoundAt(cfg, p, sel, starts, ends, outs, j - 1) && RoundAt(cfg, p, sel, starts, ends, outs, j);
      NextRound(cfg, p, sel, starts[j - 1], ends[j - 1], starts[j], outs[j - 1]);
    } else {
      assert Capacity(cfg.maxConcurrent, 1) == Capacity(cfg.maxConcurrent, 0) + cfg.maxConcurrent;
    }
  }

  /** Every selected node has a set with the desired spec; every other owned set is on its way out. */
  ghost predicate Converged(cfg: Config, p: ImagePrefetch, sel: seq<string>, sets: OwnedSets) {
    && (forall i :: 0 <= i < |sel| ==> sel[i] in sets && sets[sel[i]].spec == Desired(cfg, p, sel, i))
    && (forall n :: n in sets && n !in sel ==> sets[n].deleting && sets[n].finalizers != {})
  }

  lemma FullBatchConverges(cfg: Config, p: ImagePrefetch, sel: seq<string>, start: OwnedSets, end: OwnedSets,
                           out: Outcome)
    requires Distinct(sel) && RolloutStep(cfg, p, sel, start, end, out) && out != Refused && cfg.maxConcurrent >= 1
    requires Batch(cfg, p, sel, start) == |sel|
    ensures out == Completed && Converged(cfg, p, sel, end)
  {
    var k := StepEffect(cfg, p, sel, start, end, out);
    forall i | 0 <= i < |sel| ensures sel[i] in end && end[sel[i]].spec == Desired(cfg, p, sel, i) { }
  }

  /** ceil(n / c) rounds suffice from any starting store (one, when nothing is selected). */
  lemma ConvergesInTime(cfg: Config, p: ImagePrefetch, sel: seq<string>,
                        starts: seq<OwnedSets>, ends: seq<OwnedSets>, outs: seq<Outcome>)
    requires Distinct(sel) && Rounds(cfg, p, sel, starts, ends, outs) && cfg.maxConcurrent >= 1
    requires |starts| >= 1 && |starts| * cfg.maxConcurrent >= |sel|
    ensures outs[|starts| - 1] == Completed
    ensures Converged(cfg, p, sel, ends[|starts| - 1])
  {
    var j := |starts| - 1;
    Progress(cfg, p, sel, starts, ends, outs, j);
    CapacityIsProduct(cfg.maxConcurrent, |starts|);
    assert RoundAt(cfg, p, sel, starts, ends, outs, j);
    FullBatchConverges(cfg, p, sel, starts[j], ends[j], outs[j]);
  }

  /** Once converged, a further step of any outcome rewrites nothing. */
  lemma ConvergedIsStable(cfg: Config, p: ImagePrefetch, sel: seq<string>, pre: OwnedSets, post: OwnedSets,
                          out: Outcome)
    requires Distinct(sel) && Converged(cfg, p, sel, pre) && RolloutStep(cfg, p, sel, pre, post, out)
    ensures forall n :: n in sel ==> n in post && post[n] == pre[n]
    ensures forall n :: n in post ==> n in pre && post[n] == pre[n]
    ensures (forall n :: n in sel ==> GateReady(pre[n], p.generation)) ==> out != Stopped
  {
    var k := StepEffect(cfg, p, sel, pre, post, out);
    forall i | 0 <= i < |sel| ensures sel[i] in post && post[sel[i]] == pre[sel[i]] {
      if i < k { assert post[sel[i]] == Rewrite(pre[sel[i]], Desired(cfg, p, sel, i)); }
    }
    if forall n :: n in sel ==> GateReady(pre[n], p.generation) {
      DistinctCard(sel);
      SubsetCard(ToSet(sel), ReadySets(pre, p.generation));
    }
  }

  // ---- the bound is exact ------------------------------------------------------------------

  /** Sets of the current generation exist at most for the first d selected nodes. */
  ghost predicate OnlyFirst(p: ImagePrefetch, sel: seq<string>, sets: OwnedSets, d: nat) {
    d <= |sel| && forall n :: n in sets && sets[n].spec.prefetchGeneration == p.generation ==> n in sel[..d]
  }

  lemma ReadyExactly(cfg: Config, p: ImagePrefetch, sel: seq<string>, start: OwnedSets, end: OwnedSets,
                     next: OwnedSets, k: nat, d: nat)
    requires Distinct(sel) && Wrote(cfg, p, sel, start, end, k) && Settles(p, sel, end, next)
    requires OnlyFirst(p, sel, start, d) && d <= k
    ensures OnlyFirst(p, sel, next, k) && |ReadySets(next, p.generation)| == k
  {
    PrefixMembers(sel, k);
    PrefixMembers(sel, d);
    WrittenBecomeReady(cfg, p, sel, start, end, next, k);
    forall n | n in sel[..d] ensures n in sel { }
    forall n | n in next && next[n].spec.prefetchGeneration == p.generation ensures n in sel[..k] {
      if n !in sel {
        assert false;
      }
      var i :| 0 <= i < |sel| && sel[i] == n;
    }
    assert ReadySets(next, p.generation) == ToSet(sel[..k]);
  }

  lemma ExactNext(cfg: Config, p: ImagePrefetch, sel: seq<string>, start: OwnedSets, end: OwnedSets, next: OwnedSets,
                  out: Outcome, d: nat)
    requires Distinct(sel) && cfg.maxConcurrent >= 1
    requires RolloutStep(cfg, p, sel, start, end, out) && out != Refused && Settles(p, sel, end, next)
    requires OnlyFirst(p, sel, start, d) && |ReadySets(start, p.generation)| == d
    ensures var k := Batch(cfg, p, sel, start);
            k == Min(|sel|, d + cfg.maxConcurrent)
            && OnlyFirst(p, sel, next, k) && |ReadySets(next, p.generation)| == k
  {
    var k := StepEffect(cfg, p, sel, start, end, out);
    ReadyExactly(cfg, p, sel, start, end, next, k, d);
  }

  lemma {:induction false} ExactRounds(cfg: Config, p: ImagePrefetch, sel: seq<string>,
                                       starts: seq<OwnedSets>, ends: seq<OwnedSets>, outs: seq<Outcome>, j: nat)
    returns (d: nat)
    requires Distinct(sel) && Rounds(cfg, p, sel, starts, ends, outs) && cfg.maxConcurrent >= 1 && j < |starts|
    requires forall n :: n in starts[0] ==> starts[0][n].spec.prefetchGeneration != p.generation
    ensures d == Min(|sel|, Capacity(cfg.maxConcurrent, j))
    ensures OnlyFirst(p, sel, starts[j], d) && |ReadySets(starts[j], p.generation)| == d
  {
    if j == 0 {
      d := 0;
      assert ReadySets(starts[0], p.generation) == {};
    } else {
      var before := ExactRounds(cfg, p, sel, starts, ends, outs, j - 1);
      assert RoundAt(cfg, p, sel, starts, ends, outs, j - 1) && RoundAt(cfg, p, sel, starts, ends, outs, j);
      ExactNext(cfg, p, sel, starts[j - 1], ends[j - 1], starts[j], outs[j - 1], before);
      d := Batch(cfg, p, sel, starts[j - 1]);
    }
  }

  /** Starting with no set of the current generation, round j processes exactly the first
      min(n, (j + 1) * c) nodes and completes exactly when (j + 1) * c reaches n. */
  lemma RoundsAreExact(cfg: Config, p: ImagePrefetch, sel: seq<string>,
                       starts: seq<OwnedSets>, ends: seq<OwnedSets>, outs: seq<Outcome>, j: nat)
    requires Distinct(sel) && Rounds(cfg, p, sel, starts, ends, outs) && cfg.maxConcurrent >= 1 && j < |starts|
    requires forall n :: n in starts[0] ==> starts[0][n].spec.prefetchGeneration != p.generation
    ensures Batch(cfg, p, sel, starts[j]) == Min(|sel|, (j + 1) * cfg.maxConcurrent)
    ensures outs[j] == Completed <==> (j + 1) * cfg.maxConcurrent >= |sel|
  {
    var d := ExactRounds(cfg, p, sel, starts, ends, outs, j);
    CapacityIsProduct(cfg.maxConcurrent, j);
    CapacityIsProduct(cfg.maxConcurrent, j + 1);
    assert RoundAt(cfg, p, sel, starts, ends, outs, j);
  }
}
