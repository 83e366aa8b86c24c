/** Small vocabulary shared by every module: options, results, finite-set and sequence facts. */
module Basics {
  datatype Option<+T> = None | Some(value: T)

  datatype Result<+T, +E> = Ok(value: T) | Err(error: E)

  function Min(a: int, b: int): int { if a <= b then a else b }

  function Max(a: int, b: int): int { if a <= b then b else a }

  predicate Distinct<T(==)>(s: seq<T>) {
    forall i, j :: 0 <= i < j < |s| ==> s[i] != s[j]
  }

  function ToSet<T>(s: seq<T>): set<T> {
    set x | x in s
  }

  /** Position of the first occurrence; |s| when there is none. */
  function IndexOf<T(==)>(s: seq<T>, x: T): (i: nat)
    ensures x in s ==> i < |s| && s[i] == x
    ensures x !in s ==> i == |s|
  {
    if s == [] then 0 else if s[0] == x then 0 else 1 + IndexOf(s[1..], x)
  }

  lemma SubsetCard<T>(a: set<T>, b: set<T>)
    requires a <= b
    ensures |a| <= |b|
    ensures |a| == |b| ==> a == b
  {
    var rest := b - a;
    assert b == a + rest;
    assert |b| == |a| + |rest|;
  }

  lemma SplitCard<T>(a: set<T>, b: set<T>)
    ensures |a| == |a - b| + |a * b|
  {
    assert a == (a - b) + (a * b);
  }

  lemma {:induction false} DistinctCard<T>(s: seq<T>)
    requires Distinct(s)
    ensures |ToSet(s)| == |s|
  {
    if s != [] {
      var front, last := s[..|s| - 1], s[|s| - 1];
      DistinctCard(front);
      assert last !in front;
      assert ToSet(s) == ToSet(front) + {last};
    }
  }

  /** Two duplicate-free sequences over the same elements are permutations of one another. */
  lemma {:induction false} DistinctMultiset<T>(s: seq<T>, t: seq<T>)
    requires multiset(s) == multiset(t) && Distinct(s)
    ensures Distinct(t) && ToSet(t) == ToSet(s) && |t| == |s|
  {
    assert |multiset(s)| == |s| && |multiset(t)| == |t|;
    forall x ensures x in s <==> x in t {
      assert x in multiset(s) <==> x in s;
      assert x in multiset(t) <==> x in t;
    }
    DistinctCard(s);
    assert ToSet(s) == ToSet(t);
    if !Distinct(t) {
      var i, j :| 0 <= i < j < |t| && t[i] == t[j];
      var fewer := t[..j] + t[j + 1..];
      assert ToSet(t) == ToSet(fewer) by {
        forall x | x in t ensures x in fewer {
          var k :| 0 <= k < |t| && t[k] == x;
          if k < j { assert fewer[k] == x; }
          else if k == j { assert fewer[i] == x; }
          else { assert fewer[k - 1] == x; }
        }
      }
      ToSetCard(fewer);
      assert false;
    }
  }

  lemma {:induction false} ToSetCard<T>(s: seq<T>)
    ensures |ToSet(s)| <= |s|
  {
    if s != [] {
      var front, last := s[..|s| - 1], s[|s| - 1];
      ToSetCard(front);
      assert ToSet(s) == ToSet(front) + {last};
    }
  }

  lemma PrefixMembers<T>(s: seq<T>, m: nat)
    requires Distinct(s) && m <= |s|
    ensures |ToSet(s[..m])| == m
    ensures forall i :: 0 <= i < |s| ==> (s[i] in s[..m] <==> i < m)
  {
    DistinctCard(s[..m]);
    forall i | 0 <= i < |s| ensures s[i] in s[..m] <==> i < m {
      if i < m { assert s[..m][i] == s[i]; }
    }
  }

  lemma ToSetExtend<T>(s: seq<T>, i: nat)
    requires i < |s|
    ensures ToSet(s[..i + 1]) == ToSet(s[..i]) + {s[i]}
  {
    assert s[..i + 1] == s[..i] + [s[i]];
  }

  /** The set of the first m elements, without mentioning slices. */
  lemma PrefixSet<T>(s: seq<T>, m: nat) returns (front: set<T>)
    requires Distinct(s) && m <= |s|
    ensures front == ToSet(s[..m]) && |front| == m
    ensures forall i :: 0 <= i < |s| ==> (s[i] in front <==> i < m)
    ensures forall x :: x in front ==> x in s
  {
    PrefixMembers(s, m);
    front := ToSet(s[..m]);
    forall x | x in front ensures x in s { assert x in s[..m]; }
  }
}
