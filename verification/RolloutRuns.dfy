/** What the rollout keeps over whole runs: the staircase of generations, the batch bound and the
    upstream pull bound. */
module RolloutRuns {
  import opened Basics
  import opened Names
  import opened Cluster
  import opened ApiServer
  import opened Rollout

  // ---- one step, pointwise -----------------------------------------------------------------

  /** The effect of a step in which the first k selected nodes were written. */
  ghost predicate Wrote(cfg: Config, p: ImagePrefetch, sel: seq<string>, pre: OwnedSets, post: OwnedSets, k: nat) {
    && k <= |sel|
    && (forall i :: 0 <= i < k ==> sel[i] in post && post[sel[i]] == Upsert(pre, Desired(cfg, p, sel, i))[sel[i]])
    && (forall i :: k <= i < |sel| ==>
        (sel[i] in post <==> sel[i] in pre) && (sel[i] in pre ==> post[sel[i]] == pre[sel[i]]))
    && (forall n :: n in post && n !in sel ==> n in pre && (post[n] == pre[n] || post[n] == Marked(pre[n])))
  }

  lemma ApplyThenDelete(cfg: Config, p: ImagePrefetch, sel: seq<string>, pre: OwnedSets, k: nat, gone: set<string>)
    requires Distinct(sel) && k <= |sel|
    requires gone <= Leftover(ApplyFirst(cfg, p, sel, k, pre), sel)
    ensures Wrote(cfg, p, sel, pre, DeleteAll(ApplyFirst(cfg, p, sel, k, pre), gone), k)
  {
    ApplyFirstAt(cfg, p, sel, k, pre);
    var mid := ApplyFirst(cfg, p, sel, k, pre);
    forall i | 0 <= i < k ensures sel[i] in mid { assert Among(sel, k, sel[i]); }
    forall i | k <= i < |sel| ensures !Among(sel, k, sel[i]) { }
    forall n | n !in sel ensures !Among(sel, k, n) { }
  }

  lemma StepEffect(cfg: Config, p: ImagePrefetch, sel: seq<string>, pre: OwnedSets, post: OwnedSets, out: Outcome)
    returns (k: nat)
    requires Distinct(sel) && RolloutStep(cfg, p, sel, pre, post, out)
    ensures k <= Batch(cfg, p, sel, pre) && (out != Refused ==> k == Batch(cfg, p, sel, pre))
    ensures Wrote(cfg, p, sel, pre, post, k)
    ensures out == Completed ==> k == |sel| && forall n :: n in post && n !in sel ==>
              post[n].deleting && post[n].finalizers != {}
    ensures out == Stopped ==> forall n :: n in pre && n !in sel ==> n in post && post[n] == pre[n]
  {
    match out
    case Stopped =>
      k := Batch(cfg, p, sel, pre);
      var mid := ApplyFirst(cfg, p, sel, k, pre);
      assert DeleteAll(mid, {}) == mid;
      ApplyThenDelete(cfg, p, sel, pre, k, {});
      ApplyFirstAt(cfg, p, sel, k, pre);
      forall n | n !in sel ensures !Among(sel, k, n) { }
    case Completed =>
      k := |sel|;
      var mid := ApplyFirst(cfg, p, sel, k, pre);
      ApplyThenDelete(cfg, p, sel, pre, k, Leftover(mid, sel));
    case Refused =>
      var gone: set<string>;
      k, gone :| CutShort(cfg, p, sel, pre, post, k, gone);
      ApplyThenDelete(cfg, p, sel, pre, k, gone);
  }

  /** What the sets that a step wrote say, field by field; all of them when it completed, the nodes up
      to the limit when it stopped, a first part of these when a request was refused. */
  lemma StepWritesSpecs(cfg: Config, p: ImagePrefetch, sel: seq<string>, pre: OwnedSets, post: OwnedSets, out: Outcome)
    returns (k: nat)
    requires Distinct(sel) && RolloutStep(cfg, p, sel, pre, post, out)
    ensures k <= Batch(cfg, p, sel, pre) <= |sel|
    ensures (out == Stopped ==> k == Batch(cfg, p, sel, pre)) && (out == Completed ==> k == |sel|)
    ensures forall i :: 0 <= i < k ==>
              && sel[i] in post
              && post[sel[i]].spec.images == p.spec.images
              && post[sel[i]].spec.secrets == p.spec.secrets
              && post[sel[i]].spec.nodeName == sel[i]
              && post[sel[i]].spec.prefetchGeneration == p.generation
              && (post[sel[i]].spec.policy == Default <==> i < cfg.imagePullNodeLimit)
    ensures forall i :: k <= i < |sel| && sel[i] in pre ==> sel[i] in post && post[sel[i]] == pre[sel[i]]
  {
    k := StepEffect(cfg, p, sel, pre, post, out);
    forall i | 0 <= i < k ensures sel[i] in post && post[sel[i]].spec == Desired(cfg, p, sel, i) { }
  }

  /** How many nodes a step may process, counted on the fields of the stored sets. */
  lemma BatchOnFields(cfg: Config, p: ImagePrefetch, sel: seq<string>, sets: OwnedSets)
    ensures var ready := set n | n in sets
                           && IMAGE_AVAILABLE in sets[n].status.conditions && sets[n].status.conditions[IMAGE_AVAILABLE]
                           && sets[n].spec.prefetchGeneration == p.generation
                           && |sets[n].spec.images| == |sets[n].status.reports|;
            Batch(cfg, p, sel, sets) ==
              if |ready| >= |sel| then |sel| else Max(0, Min(|sel|, |ready| + cfg.maxConcurrent))
  {
    assert ReadySets(sets, p.generation) ==
           set n | n in sets
             && IMAGE_AVAILABLE in sets[n].status.conditions && sets[n].status.conditions[IMAGE_AVAILABLE]
             && sets[n].spec.prefetchGeneration == p.generation
             && |sets[n].spec.images| == |sets[n].status.reports|;
  }

  // ---- runs --------------------------------------------------------------------------------

  datatype State = State(p: ImagePrefetch, sets: OwnedSets)

  datatype Event =
    | SpecEdited
    | StatusWritten(node: string, status: SetStatus)
    | FinalizersChanged(node: string, finalizers: set<string>)
    | Finalized(node: string)
    | SetDeleted(node: string)
    | Reconciled(outcome: Outcome)

  /** One step of a cluster whose selected nodes stay the same. The status of the ImagePrefetch may
      change at any time; only an edit of its spec moves its generation. */
  ghost predicate Next(cfg: Config, sel: seq<string>, s: State, e: Event, t: State) {
    match e
    case SpecEdited => t.p.generation == s.p.generation + 1 && t.sets == s.sets
    case StatusWritten(n, st) =>
      SamePrefetch(s.p, t.p) && n in s.sets && t.sets == s.sets[n := s.sets[n].(status := st)]
    case FinalizersChanged(n, f) =>
      SamePrefetch(s.p, t.p) && n in s.sets && t.sets == s.sets[n := s.sets[n].(finalizers := f)]
    case Finalized(n) =>
      SamePrefetch(s.p, t.p) && n in s.sets && s.sets[n].deleting && t.sets == s.sets - {n}
    case SetDeleted(n) => SamePrefetch(s.p, t.p) && n in s.sets && t.sets == DeleteAll(s.sets, {n})
    case Reconciled(out) => SamePrefetch(s.p, t.p) && RolloutStep(cfg, s.p, sel, s.sets, t.sets, out)
  }

  predicate SamePrefetch(p: ImagePrefetch, q: ImagePrefetch) {
    p.generation == q.generation && p.spec.images == q.spec.images && p.spec.secrets == q.spec.secrets
  }

  ghost predicate Run(cfg: Config, sel: seq<string>, states: seq<State>, events: seq<Event>) {
    && |states| == |events| + 1
    && forall i: nat :: i < |events| ==> NextAt(cfg, sel, states, events, i)
  }

  ghost predicate NextAt(cfg: Config, sel: seq<string>, states: seq<State>, events: seq<Event>, i: nat)
    requires i < |events| && |states| == |events| + 1
  {
    Next(cfg, sel, states[i], events[i], states[i + 1])
  }

  // ---- staircase ---------------------------------------------------------------------------

  /** The ImagePrefetch generation a node's set was written for; a missing set counts as 0. */
  function GenerationAt(sets: OwnedSets, n: string): int {
    if n in sets then sets[n].spec.prefetchGeneration else 0
  }

  /** The generations are non-increasing along the selected nodes, those in `lost` left out. */
  ghost predicate Staircase(sel: seq<string>, lost: set<string>, sets: OwnedSets) {
    forall i, j :: 0 <= i < j < |sel| && sel[i] !in lost && sel[j] !in lost ==>
      GenerationAt(sets, sel[j]) <= GenerationAt(sets, sel[i])
  }

  ghost predicate Coherent(p: ImagePrefetch, sets: OwnedSets) {
    && p.generation >= 1
    && forall n :: n in sets ==>
         && 0 <= sets[n].spec.prefetchGeneration <= p.generation
         && (sets[n].spec.prefetchGeneration == p.generation ==> sets[n].spec.images == p.spec.images)
  }

  /** What a run keeps: `lost` are the selected nodes whose set somebody else has deleted. */
  ghost predicate Steady(sel: seq<string>, lost: set<string>, s: State) {
    && Coherent(s.p, s.sets)
    && Staircase(sel, lost, s.sets)
    && AllLive(sel, lost, s.sets)
  }

  lemma WriteKeepsCoherent(cfg: Config, p: ImagePrefetch, sel: seq<string>, pre: OwnedSets, post: OwnedSets, k: nat)
    requires Coherent(p, pre) && Wrote(cfg, p, sel, pre, post, k)
    ensures Coherent(p, post)
  {
    forall n | n in post
      ensures 0 <= post[n].spec.prefetchGeneration <= p.generation
      ensures post[n].spec.prefetchGeneration == p.generation ==> post[n].spec.images == p.spec.images
    {
      if n in sel {
        var i :| 0 <= i < |sel| && sel[i] == n;
        if i < k { assert post[n].spec == Desired(cfg, p, sel, i); }
      }
    }
  }

  lemma WriteKeepsStaircase(cfg: Config, p: ImagePrefetch, sel: seq<string>, lost: set<string>, pre: OwnedSets,
                            post: OwnedSets, k: nat)
    requires Coherent(p, pre) && Staircase(sel, lost, pre) && Wrote(cfg, p, sel, pre, post, k)
    ensures Staircase(sel, lost, post)
  {
    forall i | 0 <= i < |sel|
      ensures GenerationAt(post, sel[i]) == if i < k then p.generation else GenerationAt(pre, sel[i])
    {
      if i < k { assert post[sel[i]].spec == Desired(cfg, p, sel, i); }
    }
  }

  /** No selected set is on its way out, but for lost ones. */
  ghost predicate AllLive(sel: seq<string>, lost: set<string>, sets: OwnedSets) {
    forall i :: 0 <= i < |sel| && sel[i] !in lost && sel[i] in sets ==> !sets[sel[i]].deleting
  }

  lemma WriteKeepsLive(cfg: Config, p: ImagePrefetch, sel: seq<string>, lost: set<string>, pre: OwnedSets,
                       post: OwnedSets, k: nat)
    requires AllLive(sel, lost, pre) && Wrote(cfg, p, sel, pre, post, k)
    ensures AllLive(sel, lost, post)
  {
    forall i | 0 <= i < |sel| && sel[i] !in lost && sel[i] in post ensures !post[sel[i]].deleting {
      if i < k { assert post[sel[i]] == Upsert(pre, Desired(cfg, p, sel, i))[sel[i]]; }
    }
  }

  lemma RolloutKeepsSteady(cfg: Config, sel: seq<string>, lost: set<string>, s: State, out: Outcome, t: State)
    requires Distinct(sel) && Steady(sel, lost, s) && Next(cfg, sel, s, Reconciled(out), t)
    ensures Steady(sel, lost, t)
  {
    var k := StepEffect(cfg, s.p, sel, s.sets, t.sets, out);
    WriteKeepsCoherent(cfg, s.p, sel, s.sets, t.sets, k);
    WriteKeepsStaircase(cfg, s.p, sel, lost, s.sets, t.sets, k);
    WriteKeepsLive(cfg, s.p, sel, lost, s.sets, t.sets, k);
  }

  /** A node is lost once somebody other than the reconciler has deleted its set. */
  function LostBy(e: Event): set<string> {
    if e.SetDeleted? then {e.node} else {}
  }

  lemma NextKeepsSteady(cfg: Config, sel: seq<string>, lost: set<string>, s: State, e: Event, t: State)
    requires Distinct(sel) && Steady(sel, lost, s) && Next(cfg, sel, s, e, t)
    ensures Steady(sel, lost + LostBy(e), t)
  {
    match e
    case Reconciled(out) =>
      RolloutKeepsSteady(cfg, sel, lost, s, out, t);
      assert lost + LostBy(e) == lost;
    case SpecEdited => assert forall n :: GenerationAt(t.sets, n) == GenerationAt(s.sets, n);
    case StatusWritten(_, _) => assert forall n :: GenerationAt(t.sets, n) == GenerationAt(s.sets, n);
    case FinalizersChanged(_, _) => assert forall n :: GenerationAt(t.sets, n) == GenerationAt(s.sets, n);
    case Finalized(gone) => assert forall n :: n != gone ==> GenerationAt(t.sets, n) == GenerationAt(s.sets, n);
    case SetDeleted(gone) => assert forall n :: n != gone ==> GenerationAt(t.sets, n) == GenerationAt(s.sets, n);
  }

  /** Why lost nodes are left out: taking a set away keeps the whole staircase exactly when no selected
      node behind it has a set of a positive generation. */
  lemma DeletionInStaircase(sel: seq<string>, s: State, i: nat)
    requires Distinct(sel) && Steady(sel, {}, s) && i < |sel| && sel[i] in s.sets
    ensures Staircase(sel, {}, s.sets - {sel[i]}) <==> forall j :: i < j < |sel| ==> GenerationAt(s.sets, sel[j]) == 0
  {
    var left := s.sets - {sel[i]};
    assert forall j :: 0 <= j < |sel| && j != i ==> GenerationAt(left, sel[j]) == GenerationAt(s.sets, sel[j]);
    assert GenerationAt(left, sel[i]) == 0;
    if Staircase(sel, {}, left) {
      forall j | i < j < |sel| ensures GenerationAt(s.sets, sel[j]) == 0 {
        assert GenerationAt(left, sel[j]) <= GenerationAt(left, sel[i]);
      }
    }
  }

  /** A fresh selection: none of its nodes has a set yet; older leftovers may exist elsewhere. */
  ghost predicate FreshSelection(sel: seq<string>, s: State) {
    Coherent(s.p, s.sets) && forall i :: 0 <= i < |sel| ==> sel[i] !in s.sets
  }

  lemma FreshIsSteady(sel: seq<string>, s: State)
    requires FreshSelection(sel, s)
    ensures Steady(sel, {}, s)
  {
  }

  /** The nodes lost in the course of some events. */
  function Lost(events: seq<Event>): set<string> {
    if events == [] then {} else Lost(events[..|events| - 1]) + LostBy(events[|events| - 1])
  }

  /** Over any run, from a fresh selection or any steady state, the generations are non-increasing
      along the selected nodes whose set nobody else has deleted, so among these the sets of the
      current generation always form a prefix. */
  lemma {:induction false} StaircaseOverRuns(cfg: Config, sel: seq<string>, states: seq<State>,
                                             events: seq<Event>, i: nat)
    requires Distinct(sel) && Run(cfg, sel, states, events) && Steady(sel, {}, states[0]) && i < |states|
    ensures Steady(sel, Lost(events[..i]), states[i])
    ensures exists k: nat :: k <= |sel| && CurrentPrefix(sel, Lost(events[..i]), states[i], k)
  {
    if i > 0 {
      StaircaseOverRuns(cfg, sel, states, events, i - 1);
      assert NextAt(cfg, sel, states, events, i - 1);
      assert events[..i][..i - 1] == events[..i - 1];
      NextKeepsSteady(cfg, sel, Lost(events[..i - 1]), states[i - 1], events[i - 1], states[i]);
    } else {
      assert events[..0] == [];
    }
    var k := PrefixLength(sel, Lost(events[..i]), states[i], |sel|);
    assert CurrentPrefix(sel, Lost(events[..i]), states[i], k);
  }

  ghost predicate CurrentPrefix(sel: seq<string>, lost: set<string>, s: State, k: nat) {
    forall j :: 0 <= j < |sel| && sel[j] !in lost ==> (GenerationAt(s.sets, sel[j]) == s.p.generation <==> j < k)
  }

  lemma {:induction false} PrefixLength(sel: seq<string>, lost: set<string>, s: State, upTo: nat) returns (k: nat)
    requires Steady(sel, lost, s) && upTo <= |sel|
    ensures k <= upTo
    ensures forall j :: 0 <= j < upTo && sel[j] !in lost ==> (GenerationAt(s.sets, sel[j]) == s.p.generation <==> j < k)
  {
    if upTo == 0 {
      k := 0;
    } else {
      k := PrefixLength(sel, lost, s, upTo - 1);
      if sel[upTo - 1] !in lost && GenerationAt(s.sets, sel[upTo - 1]) == s.p.generation {
        forall j | 0 <= j < upTo && sel[j] !in lost ensures GenerationAt(s.sets, sel[j]) == s.p.generation {
          assert GenerationAt(s.sets, sel[upTo - 1]) <= GenerationAt(s.sets, sel[j]) || j == upTo - 1;
        }
        k := upTo;
      }
    }
  }

  // ---- batch bound -------------------------------------------------------------------------

  /** The processed nodes that were not ready when the sets were listed. */
  function NotReady(sel: seq<string>, m: nat, pre: OwnedSets, generation: int): set<string>
    requires m <= |sel|
  {
    ToSet(sel[..m]) - ReadySets(pre, generation)
  }

  /** A step has at most one batch of unready nodes in hand, plus whatever the gate counted as ready
      outside the nodes it processes; a step that stops at the limit has exactly that many. */
  lemma BatchBound(cfg: Config, p: ImagePrefetch, sel: seq<string>, pre: OwnedSets)
    requires Distinct(sel)
    ensures var m := Batch(cfg, p, sel, pre);
            |NotReady(sel, m, pre, p.generation)|
              <= Max(cfg.maxConcurrent, 0) + |ReadySets(pre, p.generation) - ToSet(sel[..m])|
    ensures var m := Batch(cfg, p, sel, pre);
            0 <= GateOf(cfg, p, sel, pre) < |sel| ==>
              |NotReady(sel, m, pre, p.generation)| ==
                  cfg.maxConcurrent + |ReadySets(pre, p.generation) - ToSet(sel[..m])|
  {
    var m := Batch(cfg, p, sel, pre);
    PrefixMembers(sel, m);
    SplitCard(ToSet(sel[..m]), ReadySets(pre, p.generation));
    SplitCard(ReadySets(pre, p.generation), ToSet(sel[..m]));
    assert ToSet(sel[..m]) * ReadySets(pre, p.generation) == ReadySets(pre, p.generation) * ToSet(sel[..m]);
  }

  /** The selected nodes whose set is of the current generation but not ready. */
  function UnreadyCurrent(sel: seq<string>, sets: OwnedSets, generation: int): set<string> {
    set n | n in sel && n in sets && sets[n].spec.prefetchGeneration == generation && !GateReady(sets[n], generation)
  }

  lemma PromotedIsBehind(sel: seq<string>, lost: set<string>, s: State, i: nat, j: nat)
    requires Steady(sel, lost, s) && i <= j < |sel| && sel[i] !in lost && sel[j] !in lost
    requires GenerationAt(s.sets, sel[i]) != s.p.generation
    ensures GenerationAt(s.sets, sel[j]) != s.p.generation
  {
    if i < j { assert GenerationAt(s.sets, sel[j]) <= GenerationAt(s.sets, sel[i]); }
    assert sel[i] in s.sets ==> s.sets[sel[i]].spec.prefetchGeneration <= s.p.generation;
  }

  lemma ReadyStays(cfg: Config, p: ImagePrefetch, sel: seq<string>, pre: OwnedSets, post: OwnedSets, k: nat, j: nat)
    requires Coherent(p, pre) && Wrote(cfg, p, sel, pre, post, k) && j < k
    requires sel[j] in ReadySets(pre, p.generation)
    ensures GateReady(post[sel[j]], p.generation)
  {
    assert post[sel[j]] == Rewrite(pre[sel[j]], Desired(cfg, p, sel, j));
  }

  lemma ReadyBeyondBatch(sel: seq<string>, lost: set<string>, s: State, m: nat, promoted: nat)
    requires Distinct(sel) && Steady(sel, lost, s) && promoted < m <= |sel| && sel[promoted] !in lost
    requires GenerationAt(s.sets, sel[promoted]) != s.p.generation
    ensures ReadySets(s.sets, s.p.generation) - ToSet(sel[..m]) <= ReadySets(s.sets, s.p.generation)
            - (ToSet(sel) - lost)
  {
    PrefixMembers(sel, m);
    forall n | n in sel && n !in lost && n !in sel[..m] ensures n !in ReadySets(s.sets, s.p.generation) {
      var j :| 0 <= j < |sel| && sel[j] == n;
      PromotedIsBehind(sel, lost, s, promoted, j);
    }
  }

  lemma UnreadyWereNotReady(cfg: Config, sel: seq<string>, lost: set<string>, s: State, t: State, m: nat, k: nat,
                            promoted: nat)
    requires Distinct(sel) && Steady(sel, lost, s) && promoted < k <= m <= |sel| && sel[promoted] !in lost
    requires Wrote(cfg, s.p, sel, s.sets, t.sets, k)
    requires GenerationAt(s.sets, sel[promoted]) != s.p.generation
    ensures UnreadyCurrent(sel, t.sets, s.p.generation) - lost <= NotReady(sel, m, s.sets, s.p.generation)
  {
    PrefixMembers(sel, m);
    forall n | n in UnreadyCurrent(sel, t.sets, s.p.generation) - lost
      ensures n in NotReady(sel, m, s.sets, s.p.generation)
    {
      var j :| 0 <= j < |sel| && sel[j] == n;
      if j >= k {
        PromotedIsBehind(sel, lost, s, promoted, j);
        assert false;
      }
      if n in ReadySets(s.sets, s.p.generation) {
        ReadyStays(cfg, s.p, sel, s.sets, t.sets, k, j);
        assert false;
      }
    }
  }

  /** With a fixed selection a step that promotes a node leaves, lost nodes aside, at most one batch of
      unready sets of the current generation, plus the ready sets outside the selection or of lost
      nodes, even when sets that were ready before have lost their readiness. */
  lemma PromotionBound(cfg: Config, sel: seq<string>, lost: set<string>, s: State, out: Outcome, t: State,
                       promoted: nat)
    requires Distinct(sel) && Steady(sel, lost, s) && Next(cfg, sel, s, Reconciled(out), t)
    requires promoted < |sel| && sel[promoted] !in lost && GenerationAt(s.sets, sel[promoted]) != s.p.generation
    requires GenerationAt(t.sets, sel[promoted]) == s.p.generation
    ensures |UnreadyCurrent(sel, t.sets, s.p.generation) - lost|
              <= Max(cfg.maxConcurrent, 0) + |ReadySets(s.sets, s.p.generation) - (ToSet(sel) - lost)|
  {
    var gen, m := s.p.generation, Batch(cfg, s.p, sel, s.sets);
    var k := StepEffect(cfg, s.p, sel, s.sets, t.sets, out);
    UnreadyWereNotReady(cfg, sel, lost, s, t, m, k, promoted);
    SubsetCard(UnreadyCurrent(sel, t.sets, gen) - lost, NotReady(sel, m, s.sets, gen));
    BatchBound(cfg, s.p, sel, s.sets);
    ReadyBeyondBatch(sel, lost, s, m, promoted);
    SubsetCard(ReadySets(s.sets, gen) - ToSet(sel[..m]), ReadySets(s.sets, gen) - (ToSet(sel) - lost));
  }

  /** No set outside the selection is of the current generation. */
  ghost predicate OutsideIsOld(sel: seq<string>, s: State) {
    forall n :: n in s.sets && n !in sel ==> s.sets[n].spec.prefetchGeneration < s.p.generation
  }

  lemma NextKeepsOutsideOld(cfg: Config, sel: seq<string>, s: State, e: Event, t: State)
    requires Distinct(sel) && Next(cfg, sel, s, e, t) && Coherent(s.p, s.sets)
    requires OutsideIsOld(sel, s) || e == SpecEdited
    ensures OutsideIsOld(sel, t)
  {
    if e.Reconciled? {
      var k := StepEffect(cfg, s.p, sel, s.sets, t.sets, e.outcome);
    }
  }

  /** Once no set outside the selection is of the current generation, which an empty store and every
      spec edit bring about, each step of the run that promotes a node which is not lost leaves, lost
      nodes aside, at most one batch unready, plus the lost nodes that read as ready. With nobody else
      deleting selected sets that is one batch. */
  lemma {:induction false} BatchOverRuns(cfg: Config, sel: seq<string>, states: seq<State>, events: seq<Event>,
                                         i: nat, j: nat, promoted: nat)
    requires Distinct(sel) && Run(cfg, sel, states, events) && Steady(sel, {}, states[0])
    requires i <= j < |events| && OutsideIsOld(sel, states[i]) && Promotes(sel, states, events, j, promoted)
    ensures |UnreadyCurrent(sel, states[j + 1].sets, states[j].p.generation) - Lost(events[..j])|
              <= Max(cfg.maxConcurrent, 0) + |ReadySets(states[j].sets, states[j].p.generation) * Lost(events[..j])|
    ensures Lost(events[..j]) !! ToSet(sel) ==>
              |UnreadyCurrent(sel, states[j + 1].sets, states[j].p.generation)| <= Max(cfg.maxConcurrent, 0)
  {
    OutsideOldFrom(cfg, sel, states, events, i, j);
    StaircaseOverRuns(cfg, sel, states, events, j);
    assert NextAt(cfg, sel, states, events, j);
    var ready, unready := ReadySets(states[j].sets, states[j].p.generation),
        UnreadyCurrent(sel, states[j + 1].sets, states[j].p.generation);
    var lost := Lost(events[..j]);
    PromotionBound(cfg, sel, lost, states[j], events[j].outcome, states[j + 1], promoted);
    LostAside(ToSet(sel), lost, ready, unready);
  }

  lemma LostAside(sel: set<string>, lost: set<string>, ready: set<string>, unready: set<string>)
    requires ready <= sel && unready <= sel
    ensures |ready - (sel - lost)| <= |ready * lost|
    ensures lost !! sel ==> unready - lost == unready && ready - (sel - lost) == {}
  {
    SubsetCard(ready - (sel - lost), ready * lost);
  }

  /** In event j a reconciliation brings the set of a node that is not lost to the current generation. */
  ghost predicate Promotes(sel: seq<string>, states: seq<State>, events: seq<Event>, j: nat, promoted: nat)
    requires j < |events| && |states| == |events| + 1
  {
    && events[j].Reconciled? && promoted < |sel| && sel[promoted] !in Lost(events[..j])
    && GenerationAt(states[j].sets, sel[promoted]) != states[j].p.generation
    && GenerationAt(states[j + 1].sets, sel[promoted]) == states[j].p.generation
  }

  lemma {:induction false} OutsideOldFrom(cfg: Config, sel: seq<string>, states: seq<State>, events: seq<Event>,
                                          i: nat, j: nat)
    requires Distinct(sel) && Run(cfg, sel, states, events) && Steady(sel, {}, states[0])
    requires i <= j < |states| && OutsideIsOld(sel, states[i])
    ensures OutsideIsOld(sel, states[j])
  {
    if i < j {
      StaircaseOverRuns(cfg, sel, states, events, j - 1);
      OutsideOldFrom(cfg, sel, states, events, i, j - 1);
      assert NextAt(cfg, sel, states, events, j - 1);
      NextKeepsOutsideOld(cfg, sel, states[j - 1], events[j - 1], states[j]);
    }
  }

  /** So a rollout that starts from nothing has at most one batch in hand at a promotion. */
  lemma BatchFromNothing(cfg: Config, sel: seq<string>, states: seq<State>, events: seq<Event>, j: nat, promoted: nat)
    requires Distinct(sel) && Run(cfg, sel, states, events) && states[0].p.generation >= 1 && states[0].sets == map[]
    requires j < |events| && Promotes(sel, states, events, j, promoted)
    ensures |UnreadyCurrent(sel, states[j + 1].sets, states[j].p.generation) - Lost(events[..j])|
              <= Max(cfg.maxConcurrent, 0) + |ReadySets(states[j].sets, states[j].p.generation) * Lost(events[..j])|
    ensures Lost(events[..j]) !! ToSet(sel) ==>
              |UnreadyCurrent(sel, states[j + 1].sets, states[j].p.generation)| <= Max(cfg.maxConcurrent, 0)
  {
    BatchOverRuns(cfg, sel, states, events, 0, j, promoted);
  }

  /** And from a spec edit on the same holds, whatever was there before it. */
  lemma BatchAfterEdit(cfg: Config, sel: seq<string>, states: seq<State>, events: seq<Event>, i: nat, j: nat,
                       promoted: nat)
    requires Distinct(sel) && Run(cfg, sel, states, events) && Steady(sel, {}, states[0])
    requires i < j < |events| && events[i] == SpecEdited && Promotes(sel, states, events, j, promoted)
    ensures |UnreadyCurrent(sel, states[j + 1].sets, states[j].p.generation) - Lost(events[..j])|
              <= Max(cfg.maxConcurrent, 0) + |ReadySets(states[j].sets, states[j].p.generation) * Lost(events[..j])|
    ensures Lost(events[..j]) !! ToSet(sel) ==>
              |UnreadyCurrent(sel, states[j + 1].sets, states[j].p.generation)| <= Max(cfg.maxConcurrent, 0)
  {
    StaircaseOverRuns(cfg, sel, states, events, i);
    assert NextAt(cfg, sel, states, events, i);
    NextKeepsOutsideOld(cfg, sel, states[i], events[i], states[i + 1]);
    BatchOverRuns(cfg, sel, states, events, i + 1, j, promoted);
  }

  // ---- upstream pull bound -----------------------------------------------------------------

  function UpstreamTest(): NodeImageSet -> bool { (o: NodeImageSet) => o.spec.policy == Default }

  /** The nodes whose set may pull from the upstream registry. */
  function UpstreamSets(sets: OwnedSets): set<string> { Where(sets, UpstreamTest()) }

  function UpstreamSlots(cfg: Config, k: nat): (m: nat)
    ensures m <= k
  {
    Max(0, Min(cfg.imagePullNodeLimit, k))
  }

  lemma WriteAddsNoUpstream(cfg: Config, p: ImagePrefetch, sel: seq<string>, pre: OwnedSets, post: OwnedSets, k: nat)
    requires Wrote(cfg, p, sel, pre, post, k)
    ensures UpstreamSets(post) <= ToSet(sel[..UpstreamSlots(cfg, |sel|)]) + UpstreamSets(pre)
  {
    var m := UpstreamSlots(cfg, |sel|);
    forall n | n in UpstreamSets(post) && n !in UpstreamSets(pre) ensures n in sel[..m] {
      var i :| 0 <= i < |sel| && sel[i] == n;
      assert i < k && post[n].spec == Desired(cfg, p, sel, i);
      assert sel[..m][i] == n;
    }
  }

  lemma NextAddsNoUpstream(cfg: Config, sel: seq<string>, s: State, e: Event, t: State)
    requires Distinct(sel) && Next(cfg, sel, s, e, t)
    ensures UpstreamSets(t.sets) <= ToSet(sel[..UpstreamSlots(cfg, |sel|)]) + UpstreamSets(s.sets)
  {
    if e.Reconciled? {
      var k := StepEffect(cfg, s.p, sel, s.sets, t.sets, e.outcome);
      WriteAddsNoUpstream(cfg, s.p, sel, s.sets, t.sets, k);
    }
  }

  /** With a fixed selection, in every state of every run, only the first ImagePullNodeLimit nodes and
      those that had the right at the start may pull upstream; so if the start respected the ranks,
      an empty store for one, the limit holds throughout. */
  lemma {:induction false} UpstreamBoundOverRuns(cfg: Config, sel: seq<string>, states: seq<State>,
                                                 events: seq<Event>, i: nat)
    requires Distinct(sel) && Run(cfg, sel, states, events) && i < |states|
    ensures var first := ToSet(sel[..UpstreamSlots(cfg, |sel|)]);
            && UpstreamSets(states[i].sets) <= first + UpstreamSets(states[0].sets)
            && |UpstreamSets(states[i].sets)| <= Max(0, cfg.imagePullNodeLimit) + |UpstreamSets(states[0].sets) - first|
    ensures UpstreamSets(states[0].sets) <= ToSet(sel[..UpstreamSlots(cfg, |sel|)]) ==>
              |UpstreamSets(states[i].sets)| <= Max(0, cfg.imagePullNodeLimit)
  {
    if i > 0 {
      UpstreamBoundOverRuns(cfg, sel, states, events, i - 1);
      assert NextAt(cfg, sel, states, events, i - 1);
      NextAddsNoUpstream(cfg, sel, states[i - 1], events[i - 1], states[i]);
    }
    UpstreamCard(cfg, sel, UpstreamSets(states[0].sets), UpstreamSets(states[i].sets));
  }

  lemma UpstreamCard(cfg: Config, sel: seq<string>, was: set<string>, now: set<string>)
    requires now <= ToSet(sel[..UpstreamSlots(cfg, |sel|)]) + was
    ensures |now| <= Max(0, cfg.imagePullNodeLimit) + |was - ToSet(sel[..UpstreamSlots(cfg, |sel|)])|
  {
    var first := ToSet(sel[..UpstreamSlots(cfg, |sel|)]);
    ToSetCard(sel[..UpstreamSlots(cfg, |sel|)]);
    SubsetCard(now, first + (was - first));
  }

  /** From any history: after a step that stopped at the limit, the upstream sets are the first ranks
      of the new list together with those the step did not reach; so the limit is exceeded exactly when
      these two do not fit into it. */
  lemma UpstreamAfterStop(cfg: Config, p: ImagePrefetch, sel: seq<string>, pre: OwnedSets, post: OwnedSets)
    requires Distinct(sel) && RolloutStep(cfg, p, sel, pre, post, Stopped)
    ensures var m := Batch(cfg, p, sel, pre);
            && UpstreamSets(post) == ToSet(sel[..UpstreamSlots(cfg, m)]) + (UpstreamSets(pre) - ToSet(sel[..m]))
            && |UpstreamSets(post)| == UpstreamSlots(cfg, m) + |UpstreamSets(pre) - ToSet(sel[..m])|
  {
    var m := StepEffect(cfg, p, sel, pre, post, Stopped);
    var u := UpstreamSlots(cfg, m);
    var first := PrefixSet(sel, u);
    var reached := PrefixSet(sel, m);
    forall i | 0 <= i < |sel|
      ensures sel[i] in UpstreamSets(post) <==> i < u || (m <= i && sel[i] in UpstreamSets(pre))
    {
      if i < m { assert post[sel[i]].spec == Desired(cfg, p, sel, i); }
    }
    ByRank(sel, first, reached, UpstreamSets(pre), UpstreamSets(post), m, u);
  }

  lemma ByRank(sel: seq<string>, first: set<string>, reached: set<string>, was: set<string>, now: set<string>,
               m: nat, u: nat)
    requires u <= m <= |sel| && |first| == u
    requires forall i :: 0 <= i < |sel| ==> (sel[i] in first <==> i < u) && (sel[i] in reached <==> i < m)
    requires forall n :: n in first || n in reached ==> n in sel
    requires forall i :: 0 <= i < |sel| ==> (sel[i] in now <==> i < u || (m <= i && sel[i] in was))
    requires forall n :: n !in sel ==> (n in now <==> n in was)
    ensures now == first + (was - reached) && |now| == u + |was - reached|
  {
    forall n ensures n in now <==> n in first + (was - reached) {
      if n in sel {
        var i :| 0 <= i < |sel| && sel[i] == n;
      }
    }
    assert first !! (was - reached) by {
      forall n | n in first ensures n in reached { var i :| 0 <= i < |sel| && sel[i] == n; }
    }
  }

  /** The bound is not kept while a selection changes: a node that was first before and is not
      reached by the step keeps its upstream right beside the new first node. */
  lemma ReselectionCanExceedLimit()
    ensures exists cfg: Config, p: ImagePrefetch, sel: seq<string>, pre: OwnedSets, post: OwnedSets ::
              && cfg.imagePullNodeLimit == 1 && cfg.maxConcurrent == 1 && |UpstreamSets(pre)| == 1
              && RolloutStep(cfg, p, sel, pre, post, Stopped) && |UpstreamSets(post)| == 2
  {
    var cfg := Config(1, 1);
    var p := ImagePrefetch("p", PrefetchSpec(["img"], EmptySelector, true, 0, []), 1,
                           PrefetchStatus(0, map[], 0, 0, 0, 0, []));
    var sel := ["a", "b"];
    var held := NodeImageSet(SetSpec(["img"], Default, "b", [], 1), 1, NO_STATUS, {}, false);
    var pre: OwnedSets := map["b" := held];
    assert ReadySets(pre, 1) == {};
    assert Batch(cfg, p, sel, pre) == 1;
    var post := ApplyFirst(cfg, p, sel, 1, pre);
    assert post == Upsert(ApplyFirst(cfg, p, sel, 0, pre), Desired(cfg, p, sel, 0));
    assert UpstreamSets(pre) == {"b"};
    assert sel[0] == "a" && "a" != "b";
    assert post["a"].spec.policy == Default && post["b"] == held;
    assert UpstreamSets(post) == {"a", "b"};
    assert RolloutStep(cfg, p, sel, pre, post, Stopped);
  }

  /** After a completed step from any history, once the deleted leftovers are gone, exactly
      min(ImagePullNodeLimit, n) sets may pull upstream, and they are the least node names. */
  lemma UpstreamAfterCompletion(cfg: Config, p: ImagePrefetch, sel: seq<string>, pre: OwnedSets, post: OwnedSets)
    requires Distinct(sel) && Sorted(sel) && RolloutStep(cfg, p, sel, pre, post, Completed)
    ensures forall n :: n in post && n !in sel ==> post[n].deleting
    ensures |UpstreamSets(post) * ToSet(sel)| == UpstreamSlots(cfg, |sel|)
    ensures forall a, b :: a in UpstreamSets(post) * ToSet(sel) && b in ToSet(sel) - UpstreamSets(post) ==> LexLt(a, b)
  {
    var k := StepEffect(cfg, p, sel, pre, post, Completed);
    var m := UpstreamSlots(cfg, |sel|);
    var first := PrefixSet(sel, m);
    forall i | 0 <= i < |sel| ensures sel[i] in UpstreamSets(post) <==> i < m {
      assert post[sel[i]].spec == Desired(cfg, p, sel, i);
    }
    LeastRanks(sel, first, UpstreamSets(post), m);
  }

  /** In a sorted list, the members picked by rank are the least names. */
  lemma LeastRanks(sel: seq<string>, first: set<string>, picked: set<string>, m: nat)
    requires Sorted(sel) && |first| == m <= |sel|
    requires forall i :: 0 <= i < |sel| ==> (sel[i] in first <==> i < m) && (sel[i] in picked <==> i < m)
    requires forall n :: n in first ==> n in sel
    ensures |picked * ToSet(sel)| == m
    ensures forall a, b :: a in picked * ToSet(sel) && b in ToSet(sel) - picked ==> LexLt(a, b)
  {
    assert picked * ToSet(sel) == first by {
      forall n | n in sel ensures n in picked <==> n in first { var i :| 0 <= i < |sel| && sel[i] == n; }
    }
    forall a, b | a in picked * ToSet(sel) && b in ToSet(sel) - picked ensures LexLt(a, b) {
      var i :| 0 <= i < |sel| && sel[i] == a;
      var j :| 0 <= j < |sel| && sel[j] == b;
      assert i < m <= j;
    }
  }
}
