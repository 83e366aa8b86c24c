/** What selection by replicas achieves: exact size, global zone balance, zone coverage, and the
    least disruption of the previous choice. */
module Spreading {
  import opened Basics
  import opened Cluster
  import opened Selection

  // ---- shape -------------------------------------------------------------------------------

  predicate ChosenFrom(ready: seq<Node>, sel: seq<Node>) {
    && UniqueNames(sel)
    && forall n :: n in sel ==> n in ready
  }

  lemma SameName(ready: seq<Node>, a: Node, b: Node)
    requires UniqueNames(ready) && a in ready && b in ready && a.name == b.name
    ensures a == b
  {
  }

  lemma {:induction false} StillReadyShape(prev: seq<string>, ready: seq<Node>)
    requires UniqueNames(ready) && Distinct(prev)
    ensures ChosenFrom(ready, StillReady(prev, ready))
    ensures forall n :: n in StillReady(prev, ready) <==> n in ready && n.name in prev
  {
    if prev != [] {
      var front, last := prev[..|prev| - 1], prev[|prev| - 1];
      StillReadyShape(front, ready);
      assert prev == front + [last] && last !in front;
      var before := StillReady(front, ready);
      if last in NodeNames(ready) {
        var n := ready[IndexOf(NodeNames(ready), last)];
        assert n.name == last && n in ready;
        forall k | 0 <= k < |before| ensures before[k].name != last { assert before[k].name in front; }
        forall m | m in ready && m.name == last ensures m == n { SameName(ready, m, n); }
      } else {
        forall m | m in ready ensures m.name != last { NameListed(ready, m); }
      }
    }
  }

  lemma NameListed(nodes: seq<Node>, n: Node)
    requires n in nodes
    ensures n.name in NodeNames(nodes)
  {
    var i :| 0 <= i < |nodes| && nodes[i] == n;
    assert NodeNames(nodes)[i] == n.name;
  }

  lemma {:induction false} GreedyShape(ready: seq<Node>, kept: seq<Node>, sel: seq<Node>, k: nat)
    requires UniqueNames(ready) && ChosenFrom(ready, kept) && GreedyFrom(ready, kept, sel)
    requires |kept| <= k <= |sel|
    ensures ChosenFrom(ready, sel[..k])
  {
    if k == |kept| {
      assert sel[..k] == kept;
    } else {
      GreedyShape(ready, kept, sel, k - 1);
      assert PickedAt(ready, sel, k - 1);
      assert sel[..k] == sel[..k - 1] + [sel[k - 1]];
      forall j | 0 <= j < k - 1 ensures sel[..k][j].name != sel[k - 1].name {
        NameListed(sel[..k - 1], sel[j]);
      }
    }
  }

  lemma KeptShape(prev: seq<string>, replicas: int, ready: seq<Node>)
    requires UniqueNames(ready) && Distinct(prev)
    ensures ChosenFrom(ready, Kept(prev, ready, replicas))
  {
    StillReadyShape(prev, ready);
  }

  /** Exactly the requested number of distinct ready nodes is chosen. */
  lemma SelectionShape(prev: seq<string>, replicas: int, ready: seq<Node>, sel: seq<Node>)
    requires UniqueNames(ready) && Distinct(prev) && IsSelection(prev, replicas, ready, sel)
    ensures ChosenFrom(ready, sel) && |sel| == Max(replicas, 0) && Distinct(NodeNames(sel))
    ensures |ToSet(sel)| == |sel| && ToSet(sel) <= ToSet(ready)
  {
    KeptShape(prev, replicas, ready);
    GreedyShape(ready, Kept(prev, ready, replicas), sel, |sel|);
    assert sel[..|sel|] == sel;
    assert Distinct(sel);
    DistinctCard(sel);
  }

  // ---- zone balance ------------------------------------------------------------------------

  function InZone(s: set<Node>, z: string): set<Node> {
    set n | n in s && Zone(n) == z
  }

  lemma {:induction false} ZoneCountIsCard(nodes: seq<Node>, z: string)
    requires Distinct(nodes)
    ensures ZoneCount(nodes, z) == |InZone(ToSet(nodes), z)|
  {
    if nodes != [] {
      var front, last := nodes[..|nodes| - 1], nodes[|nodes| - 1];
      ZoneCountIsCard(front, z);
      assert last !in front;
      if Zone(last) == z {
        assert InZone(ToSet(nodes), z) == InZone(ToSet(front), z) + {last};
      } else {
        assert InZone(ToSet(nodes), z) == InZone(ToSet(front), z);
      }
    } else {
      assert InZone(ToSet(nodes), z) == {};
    }
  }

  ghost predicate HasSpare(ready: seq<Node>, chosen: seq<Node>, z: string) {
    exists n :: IsCandidate(ready, chosen, n) && Zone(n) == z
  }

  predicate Gained(kept: seq<Node>, chosen: seq<Node>, z: string) {
    ZoneCount(chosen, z) > ZoneCount(kept, z)
  }

  ghost predicate Level(ready: seq<Node>, kept: seq<Node>, chosen: seq<Node>) {
    forall z, w :: Gained(kept, chosen, z) && HasSpare(ready, chosen, w) ==>
          ZoneCount(chosen, z) <= ZoneCount(chosen, w) + 1
  }

  lemma LevelStep(ready: seq<Node>, kept: seq<Node>, chosen: seq<Node>, n: Node)
    requires Level(ready, kept, chosen) && BestPick(ready, chosen, n)
    ensures Level(ready, kept, chosen + [n])
  {
    var after := chosen + [n];
    assert after[..|after| - 1] == chosen;
    forall z, w | Gained(kept, after, z) && HasSpare(ready, after, w)
      ensures ZoneCount(after, z) <= ZoneCount(after, w) + 1
    {
      var c :| IsCandidate(ready, after, c) && Zone(c) == w;
      assert NodeNames(after) == NodeNames(chosen) + [n.name];
      assert IsCandidate(ready, chosen, c);
      assert HasSpare(ready, chosen, w) && HasSpare(ready, chosen, Zone(n));
      if z != Zone(n) { assert Gained(kept, chosen, z); }
    }
  }

  /** A zone that gained a node holds at most one node more than any zone with a ready node left. */
  lemma {:induction false} GreedyIsLevel(ready: seq<Node>, kept: seq<Node>, sel: seq<Node>, k: nat)
    requires GreedyFrom(ready, kept, sel) && |kept| <= k <= |sel|
    ensures Level(ready, kept, sel[..k])
  {
    if k == |kept| {
      assert sel[..k] == kept;
    } else {
      GreedyIsLevel(ready, kept, sel, k - 1);
      assert sel[..k] == sel[..k - 1] + [sel[k - 1]];
      assert PickedAt(ready, sel, k - 1);
      LevelStep(ready, kept, sel[..k - 1], sel[k - 1]);
    }
  }

  lemma {:induction false} GreedyOnlyAdds(kept: seq<Node>, sel: seq<Node>, z: string)
    requires kept <= sel
    ensures ZoneCount(kept, z) <= ZoneCount(sel, z)
  {
    if |kept| == |sel| {
      assert kept == sel;
    } else {
      GreedyOnlyAdds(kept, sel[..|sel| - 1], z);
    }
  }

  /** Costs that punish crowding: each further node in a zone costs at least as much as the last. */
  ghost predicate Convex(f: int -> int) {
    forall n: nat :: f(n + 1) - f(n) <= f(n + 2) - f(n + 1)
  }

  /** Total cost of a choice of nodes over a list of zones. */
  function Cost(zones: seq<string>, f: int -> int, s: set<Node>): int {
    if zones == [] then 0 else f(|InZone(s, zones[0])|) + Cost(zones[1..], f, s)
  }

  function Identity(): int -> int { n => n }

  function Slope(f: int -> int, level: int): int { f(level + 1) - f(level) }

  lemma Distribute(k: int, d: int)
    ensures (k + 1) * d == k * d + d
  {
  }

  lemma {:induction false} LineAbove(f: int -> int, level: nat, base: nat, k: nat)
    requires Convex(f) && level <= base
    ensures f(base + k) - f(base) >= k * Slope(f, level)
  {
    if k > 0 {
      LineAbove(f, level, base, k - 1);
      SlopeGrows(f, level, base + k - 1);
      Distribute(k - 1, Slope(f, level));
    }
  }

  lemma {:induction false} LineBelow(f: int -> int, level: nat, base: nat, k: nat)
    requires Convex(f) && k <= base <= level + 1
    ensures f(base) - f(base - k) <= k * Slope(f, level)
  {
    if k > 0 {
      LineBelow(f, level, base, k - 1);
      SlopeGrows(f, base - k, level);
      Distribute(k - 1, Slope(f, level));
    }
  }

  lemma {:induction false} SlopeGrows(f: int -> int, a: nat, b: nat)
    requires Convex(f) && a <= b
    ensures Slope(f, a) <= Slope(f, b)
    decreases b
  {
    if a < b {
      SlopeGrows(f, a, b - 1);
      assert f((b - 1) + 1) - f(b - 1) <= f((b - 1) + 2) - f((b - 1) + 1);
    }
  }

  /** A convex cost stays above its supporting line at `level`. */
  lemma AboveLine(f: int -> int, level: nat, base: nat, count: nat)
    requires Convex(f) && (count > base ==> level <= base) && (count < base ==> base <= level + 1)
    ensures f(count) - f(base) >= (count - base) * Slope(f, level)
  {
    if count > base {
      LineAbove(f, level, base, count - base);
    } else {
      var k := base - count;
      if k > 0 { LineBelow(f, level, base, k); }
      assert (count - base) * Slope(f, level) == -(k * Slope(f, level));
    }
  }

  lemma {:induction false} PointwiseCost(zones: seq<string>, f: int -> int, s: set<Node>, t: set<Node>, slope: int)
    requires forall z :: z in zones ==>
               f(|InZone(t, z)|) - f(|InZone(s, z)|) >= (|InZone(t, z)| - |InZone(s, z)|) * slope
    ensures Cost(zones, f, t) - Cost(zones, f, s) >= (Cost(zones, Identity(), t) - Cost(zones, Identity(), s)) * slope
  {
    if zones != [] {
      PointwiseCost(zones[1..], f, s, t, slope);
      var a, b := |InZone(t, zones[0])| - |InZone(s, zones[0])|,
          Cost(zones[1..], Identity(), t) - Cost(zones[1..], Identity(), s);
      assert (a + b) * slope == a * slope + b * slope;
      assert zones[0] in zones;
    }
  }

  predicate CoversZones(zones: seq<string>, s: set<Node>) {
    forall n :: n in s ==> Zone(n) in zones
  }

  lemma {:induction false} CostOfIdentity(zones: seq<string>, s: set<Node>)
    requires Distinct(zones)
    ensures Cost(zones, Identity(), s) == |set n | n in s && Zone(n) in zones|
  {
    var all := set n | n in s && Zone(n) in zones;
    if zones != [] {
      CostOfIdentity(zones[1..], s);
      var rest := set n | n in s && Zone(n) in zones[1..];
      assert zones == [zones[0]] + zones[1..] && zones[0] !in zones[1..];
      assert all == InZone(s, zones[0]) + rest;
      assert InZone(s, zones[0]) !! rest;
    } else {
      assert all == {};
    }
  }

  lemma CostOfSize(zones: seq<string>, s: set<Node>)
    requires Distinct(zones) && CoversZones(zones, s)
    ensures Cost(zones, Identity(), s) == |s|
  {
    CostOfIdentity(zones, s);
    assert s == set n | n in s && Zone(n) in zones;
  }

  /** The fullest zone among those that gained a node, as a level all others are compared with. */
  lemma {:induction false} GainedLevel(zones: seq<string>, kept: seq<Node>, sel: seq<Node>) returns (level: nat)
    ensures forall z :: z in zones && Gained(kept, sel, z) ==> ZoneCount(sel, z) <= level + 1
    ensures level == 0 || exists z :: z in zones && Gained(kept, sel, z) && ZoneCount(sel, z) == level + 1
  {
    if zones == [] {
      level := 0;
    } else {
      level := GainedLevel(zones[1..], kept, sel);
      assert zones == [zones[0]] + zones[1..];
      if Gained(kept, sel, zones[0]) && ZoneCount(sel, zones[0]) > level + 1 {
        level := ZoneCount(sel, zones[0]) - 1;
        assert zones[0] in zones;
      }
    }
  }

  lemma MoreMeansSpare(ready: seq<Node>, sel: seq<Node>, t: set<Node>, z: string)
    requires UniqueNames(ready) && ChosenFrom(ready, sel) && t <= ToSet(ready)
    requires |InZone(t, z)| > |InZone(ToSet(sel), z)|
    ensures HasSpare(ready, sel, z)
  {
    if InZone(t, z) <= InZone(ToSet(sel), z) {
      SubsetCard(InZone(t, z), InZone(ToSet(sel), z));
      assert false;
    }
    var n :| n in InZone(t, z) && n !in InZone(ToSet(sel), z);
    forall i | 0 <= i < |sel| ensures sel[i].name != n.name {
      assert sel[i] in ToSet(sel);
    }
    assert IsCandidate(ready, sel, n);
  }

  lemma ZoneGap(ready: seq<Node>, kept: seq<Node>, sel: seq<Node>, t: set<Node>, level: nat, z: string)
    requires UniqueNames(ready) && ChosenFrom(ready, kept) && ChosenFrom(ready, sel) && kept <= sel
    requires Level(ready, kept, sel) && ToSet(kept) <= t <= ToSet(ready)
    requires Gained(kept, sel, z) ==> ZoneCount(sel, z) <= level + 1
    requires level == 0 || exists y :: Gained(kept, sel, y) && ZoneCount(sel, y) == level + 1
    ensures |InZone(t, z)| > |InZone(ToSet(sel), z)| ==> level <= |InZone(ToSet(sel), z)|
    ensures |InZone(t, z)| < |InZone(ToSet(sel), z)| ==> |InZone(ToSet(sel), z)| <= level + 1
  {
    assert Distinct(sel) && Distinct(kept);
    ZoneCountIsCard(sel, z);
    ZoneCountIsCard(kept, z);
    if |InZone(t, z)| > |InZone(ToSet(sel), z)| {
      MoreMeansSpare(ready, sel, t, z);
    } else {
      SubsetCard(InZone(ToSet(kept), z), InZone(t, z));
    }
  }

  predicate ValidChoice(prev: seq<string>, replicas: int, ready: seq<Node>, t: set<Node>) {
    && ToSet(Kept(prev, ready, replicas)) <= t <= ToSet(ready)
    && |t| == Max(replicas, 0)
  }

  lemma SupportingLine(ready: seq<Node>, kept: seq<Node>, sel: seq<Node>, t: set<Node>,
                       f: int -> int, zones: seq<string>) returns (slope: int)
    requires UniqueNames(ready) && ChosenFrom(ready, kept) && ChosenFrom(ready, sel)
    requires GreedyFrom(ready, kept, sel) && Convex(f) && ToSet(kept) <= t <= ToSet(ready)
    ensures forall z :: z in zones ==>
              f(|InZone(t, z)|) - f(|InZone(ToSet(sel), z)|) >= (|InZone(t, z)| - |InZone(ToSet(sel), z)|) * slope
  {
    GreedyIsLevel(ready, kept, sel, |sel|);
    assert sel[..|sel|] == sel;
    var level := GainedLevel(zones, kept, sel);
    slope := Slope(f, level);
    forall z | z in zones
      ensures f(|InZone(t, z)|) - f(|InZone(ToSet(sel), z)|) >= (|InZone(t, z)| - |InZone(ToSet(sel), z)|) * slope
    {
      ZoneGap(ready, kept, sel, t, level, z);
      AboveLine(f, level, |InZone(ToSet(sel), z)|, |InZone(t, z)|);
    }
  }

  lemma CheaperByLine(ready: seq<Node>, kept: seq<Node>, sel: seq<Node>, t: set<Node>,
                      f: int -> int, zones: seq<string>) returns (slope: int)
    requires UniqueNames(ready) && ChosenFrom(ready, kept) && ChosenFrom(ready, sel)
    requires GreedyFrom(ready, kept, sel) && Convex(f) && ToSet(kept) <= t <= ToSet(ready)
    ensures Cost(zones, f, t) - Cost(zones, f, ToSet(sel))
         >= (Cost(zones, Identity(), t) - Cost(zones, Identity(), ToSet(sel))) * slope
  {
    slope := SupportingLine(ready, kept, sel, t, f, zones);
    PointwiseCost(zones, f, ToSet(sel), t, slope);
  }

  lemma EqualSize(zones: seq<string>, s: set<Node>, t: set<Node>)
    requires Distinct(zones) && CoversZones(zones, s) && CoversZones(zones, t) && |s| == |t|
    ensures Cost(zones, Identity(), s) == Cost(zones, Identity(), t)
  {
    CostOfSize(zones, s);
    CostOfSize(zones, t);
  }

  /** Greedy spreading is globally optimal: no choice of the same size that keeps the kept nodes is
      cheaper, whatever convex cost is put on the number of nodes per zone. */
  lemma SpreadingIsOptimal(prev: seq<string>, replicas: int, ready: seq<Node>, sel: seq<Node>,
                           t: set<Node>, f: int -> int, zones: seq<string>)
    requires UniqueNames(ready) && Distinct(prev) && IsSelection(prev, replicas, ready, sel)
    requires ValidChoice(prev, replicas, ready, t)
    requires Convex(f) && Distinct(zones) && CoversZones(zones, ToSet(ready))
    ensures Cost(zones, f, ToSet(sel)) <= Cost(zones, f, t)
  {
    KeptShape(prev, replicas, ready);
    SelectionShape(prev, replicas, ready, sel);
    EqualSize(zones, ToSet(sel), t);
    var slope := CheaperByLine(ready, Kept(prev, ready, replicas), sel, t, f, zones);
  }

  function Square(): int -> int { n => n * n }

  /** The sum of squares of the per-zone counts is minimal. */
  lemma SumOfSquaresMinimal(prev: seq<string>, replicas: int, ready: seq<Node>, sel: seq<Node>,
                            t: set<Node>, zones: seq<string>)
    requires UniqueNames(ready) && Distinct(prev) && IsSelection(prev, replicas, ready, sel)
    requires ValidChoice(prev, replicas, ready, t)
    requires Distinct(zones) && CoversZones(zones, ToSet(ready))
    ensures Cost(zones, Square(), ToSet(sel)) <= Cost(zones, Square(), t)
  {
    forall n: nat ensures Square()(n + 1) - Square()(n) <= Square()(n + 2) - Square()(n + 1) {
      assert (n + 1) * (n + 1) == n * n + 2 * n + 1;
      assert (n + 2) * (n + 2) == n * n + 4 * n + 4;
    }
    SpreadingIsOptimal(prev, replicas, ready, sel, t, Square(), zones);
  }

  /** Nodes beyond the first `free` of a zone, the cost that measures the fullest zone. */
  function Excess(free: nat): int -> int { n => Max(0, n - free) }

  lemma ExcessConvex(free: nat)
    ensures Convex(Excess(free))
  {
    forall n: nat ensures Excess(free)(n + 1) - Excess(free)(n) <= Excess(free)(n + 2) - Excess(free)(n + 1) {
      assert Excess(free)(n) == Max(0, n - free);
      assert Excess(free)(n + 1) == Max(0, n + 1 - free);
      assert Excess(free)(n + 2) == Max(0, n + 2 - free);
    }
  }

  lemma {:induction false} ExcessSomewhere(zones: seq<string>, free: nat, s: set<Node>)
    ensures Cost(zones, Excess(free), s) >= 0
    ensures Cost(zones, Excess(free), s) > 0 <==> exists z :: z in zones && |InZone(s, z)| > free
  {
    if zones != [] {
      var here := |InZone(s, zones[0])|;
      ExcessSomewhere(zones[1..], free, s);
      assert zones == [zones[0]] + zones[1..];
      assert Cost(zones, Excess(free), s) == Max(0, here - free) + Cost(zones[1..], Excess(free), s);
      if here > free {
        assert zones[0] in zones;
      } else {
        forall z | z in zones && |InZone(s, z)| > free ensures z in zones[1..] { }
      }
    }
  }

  /** The fullest zone is as empty as it can be: any other valid choice has a zone at least as full. */
  lemma FullestZoneMinimal(prev: seq<string>, replicas: int, ready: seq<Node>, sel: seq<Node>,
                           t: set<Node>, zones: seq<string>, z: string)
    requires UniqueNames(ready) && Distinct(prev) && IsSelection(prev, replicas, ready, sel)
    requires ValidChoice(prev, replicas, ready, t)
    requires Distinct(zones) && CoversZones(zones, ToSet(ready)) && z in zones
    ensures exists w :: w in zones && |InZone(ToSet(sel), z)| <= |InZone(t, w)|
  {
    var c := |InZone(ToSet(sel), z)|;
    if c == 0 {
      assert |InZone(t, z)| >= c;
    } else {
      ExcessConvex(c - 1);
      SpreadingIsOptimal(prev, replicas, ready, sel, t, Excess(c - 1), zones);
      ExcessSomewhere(zones, c - 1, ToSet(sel));
      ExcessSomewhere(zones, c - 1, t);
    }
  }

  // ---- zone coverage -----------------------------------------------------------------------

  function ZonesOf(nodes: seq<Node>): set<string> {
    set n | n in nodes :: Zone(n)
  }

  lemma {:induction false} CountedIffCovered(nodes: seq<Node>, z: string)
    ensures ZoneCount(nodes, z) > 0 <==> z in ZonesOf(nodes)
  {
    if nodes != [] {
      var front, last := nodes[..|nodes| - 1], nodes[|nodes| - 1];
      CountedIffCovered(front, z);
      assert nodes == front + [last];
    }
  }

  lemma UncoveredWouldWin(ready: seq<Node>, chosen: seq<Node>, n: Node, c: Node)
    requires BestPick(ready, chosen, n) && Zone(n) in ZonesOf(chosen)
    requires c in ready && Zone(c) !in ZonesOf(chosen)
    ensures c.name in NodeNames(chosen)
  {
    CountedIffCovered(chosen, Zone(n));
    CountedIffCovered(chosen, Zone(c));
    assert !IsCandidate(ready, chosen, c);
  }

  lemma ZonesOfAppend(nodes: seq<Node>, n: Node)
    ensures ZonesOf(nodes + [n]) == ZonesOf(nodes) + {Zone(n)}
  {
    forall z | z in ZonesOf(nodes) + {Zone(n)} ensures z in ZonesOf(nodes + [n]) {
      if z == Zone(n) {
        assert (nodes + [n])[|nodes|] == n;
      } else {
        var m :| m in nodes && Zone(m) == z;
        assert m in nodes + [n];
      }
    }
  }

  lemma NothingUncovered(ready: seq<Node>, chosen: seq<Node>, n: Node)
    requires UniqueNames(ready) && ChosenFrom(ready, chosen)
    requires BestPick(ready, chosen, n) && Zone(n) in ZonesOf(chosen)
    ensures ZonesOf(ready) <= ZonesOf(chosen)
  {
    forall z | z in ZonesOf(ready) ensures z in ZonesOf(chosen) {
      var c :| c in ready && Zone(c) == z;
      if z !in ZonesOf(chosen) {
        UncoveredWouldWin(ready, chosen, n, c);
        var i :| 0 <= i < |chosen| && NodeNames(chosen)[i] == c.name;
        SameName(ready, chosen[i], c);
        assert false;
      }
    }
  }

  lemma ZonesWithin(ready: seq<Node>, chosen: seq<Node>)
    requires ChosenFrom(ready, chosen)
    ensures ZonesOf(chosen) <= ZonesOf(ready) && |ZonesOf(chosen)| <= |ZonesOf(ready)|
  {
    forall z | z in ZonesOf(chosen) ensures z in ZonesOf(ready) {
      var m :| m in chosen && Zone(m) == z;
    }
    SubsetCard(ZonesOf(chosen), ZonesOf(ready));
  }

  lemma CoverageStep(ready: seq<Node>, chosen: seq<Node>, n: Node)
    requires UniqueNames(ready) && ChosenFrom(ready, chosen) && ChosenFrom(ready, chosen + [n])
    requires BestPick(ready, chosen, n)
    ensures |ZonesOf(chosen + [n])| == Min(|ZonesOf(ready)|, |ZonesOf(chosen)| + 1)
  {
    ZonesOfAppend(chosen, n);
    ZonesWithin(ready, chosen);
    ZonesWithin(ready, chosen + [n]);
    if Zone(n) in ZonesOf(chosen) {
      NothingUncovered(ready, chosen, n);
      assert ZonesOf(chosen + [n]) == ZonesOf(chosen) == ZonesOf(ready);
    } else {
      assert |ZonesOf(chosen) + {Zone(n)}| == |ZonesOf(chosen)| + 1;
    }
  }

  lemma ShapesAt(ready: seq<Node>, kept: seq<Node>, sel: seq<Node>, k: nat)
    requires UniqueNames(ready) && ChosenFrom(ready, kept) && GreedyFrom(ready, kept, sel) && |kept| < k <= |sel|
    ensures sel[..k] == sel[..k - 1] + [sel[k - 1]] && BestPick(ready, sel[..k - 1], sel[k - 1])
    ensures ChosenFrom(ready, sel[..k - 1]) && ChosenFrom(ready, sel[..k])
  {
    GreedyShape(ready, kept, sel, k - 1);
    GreedyShape(ready, kept, sel, k);
    assert PickedAt(ready, sel, k - 1);
  }

  lemma {:induction false} CoverageUpTo(ready: seq<Node>, kept: seq<Node>, sel: seq<Node>, k: nat)
    requires UniqueNames(ready) && ChosenFrom(ready, kept) && GreedyFrom(ready, kept, sel) && |kept| <= k <= |sel|
    ensures |ZonesOf(sel[..k])| == Min(|ZonesOf(ready)|, |ZonesOf(kept)| + (k - |kept|))
  {
    if k == |kept| {
      assert sel[..k] == kept;
      ZonesWithin(ready, kept);
    } else {
      CoverageUpTo(ready, kept, sel, k - 1);
      ShapesAt(ready, kept, sel, k);
      CoverageStep(ready, sel[..k - 1], sel[k - 1]);
    }
  }

  /** The selection covers as many zones as its added nodes can reach. */
  lemma ZoneCoverage(prev: seq<string>, replicas: int, ready: seq<Node>, sel: seq<Node>)
    requires UniqueNames(ready) && Distinct(prev) && IsSelection(prev, replicas, ready, sel)
    ensures var kept := Kept(prev, ready, replicas);
            |ZonesOf(sel)| == Min(|ZonesOf(ready)|, |ZonesOf(kept)| + (|sel| - |kept|))
    ensures prev == [] ==> |ZonesOf(sel)| == Min(|ZonesOf(ready)|, Max(replicas, 0))
  {
    KeptShape(prev, replicas, ready);
    CoverageUpTo(ready, Kept(prev, ready, replicas), sel, |sel|);
    assert sel[..|sel|] == sel;
  }

  // ---- disruption --------------------------------------------------------------------------

  /** The nodes of a choice that the previous selection already named. */
  function Reused(prev: seq<string>, s: set<Node>): set<Node> {
    set n | n in s && n.name in prev
  }

  lemma {:induction false} AddedAreNew(prev: seq<string>, replicas: int, ready: seq<Node>, sel: seq<Node>)
    requires UniqueNames(ready) && Distinct(prev) && IsSelection(prev, replicas, ready, sel)
    ensures Reused(prev, ToSet(sel)) == ToSet(Kept(prev, ready, replicas))
  {
    var kept, still := Kept(prev, ready, replicas), StillReady(prev, ready);
    StillReadyShape(prev, ready);
    SelectionShape(prev, replicas, ready, sel);
    forall n | n in sel && n.name in prev ensures n in kept {
      assert n in still;
      if |kept| == |still| {
        assert kept == still;
      } else {
        assert |kept| == |sel| && sel == kept;
      }
    }
  }

  /** Reselection reuses as many previous nodes as any valid selection could. */
  lemma MinimalDisruption(prev: seq<string>, replicas: int, ready: seq<Node>, sel: seq<Node>, t: set<Node>)
    requires UniqueNames(ready) && Distinct(prev) && IsSelection(prev, replicas, ready, sel)
    requires t <= ToSet(ready) && |t| == Max(replicas, 0)
    ensures |Reused(prev, ToSet(sel))| == Min(Max(replicas, 0), |Reused(prev, ToSet(ready))|)
    ensures |Reused(prev, t)| <= |Reused(prev, ToSet(sel))|
  {
    var kept, still := Kept(prev, ready, replicas), StillReady(prev, ready);
    AddedAreNew(prev, replicas, ready, sel);
    StillReadyShape(prev, ready);
    assert Distinct(still) && Distinct(kept);
    DistinctCard(still);
    DistinctCard(kept);
    assert ToSet(still) == Reused(prev, ToSet(ready));
    SubsetCard(Reused(prev, t), Reused(prev, ToSet(ready)));
    SubsetCard(Reused(prev, t), t);
  }

  lemma {:induction false} AllStillReady(prev: seq<string>, ready: seq<Node>)
    requires forall i :: 0 <= i < |prev| ==> prev[i] in NodeNames(ready)
    ensures NodeNames(StillReady(prev, ready)) == prev
  {
    if prev != [] {
      var front := prev[..|prev| - 1];
      AllStillReady(front, ready);
      assert prev == front + [prev[|prev| - 1]];
    }
  }

  /** While every previous node stays ready, changing Replicas only shortens or extends the list,
      and reselecting with the same count returns the list unchanged. */
  lemma ReselectionIsStable(prev: seq<string>, replicas: int, ready: seq<Node>, sel: seq<Node>)
    requires IsSelection(prev, replicas, ready, sel)
    requires forall i :: 0 <= i < |prev| ==> prev[i] in NodeNames(ready)
    ensures 0 <= replicas <= |prev| ==> NodeNames(sel) == prev[..replicas]
    ensures replicas >= |prev| ==> prev <= NodeNames(sel)
  {
    AllStillReady(prev, ready);
    var kept := Kept(prev, ready, replicas);
    assert NodeNames(kept) == prev[..|kept|];
    assert NodeNames(sel)[..|kept|] == NodeNames(kept);
  }
}
