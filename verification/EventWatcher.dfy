/** Waking the NodeImageSets of a node when one of its images disappears. */
module EventWatcher {
  /** A set as the watcher lists it: its node label selects it. */
  datatype ListedSet = ListedSet(name: string, nodeLabel: string, images: seq<string>)

  function Occurrences(s: seq<string>, x: string): nat {
    if s == [] then 0 else Occurrences(s[..|s| - 1], x) + if s[|s| - 1] == x then 1 else 0
  }

  /** One notification per matching image entry of every set on the node. */
  function Notices(sets: seq<ListedSet>, node: string, image: string): nat {
    if sets == [] then 0
    else
      var last := sets[|sets| - 1];
      Notices(sets[..|sets| - 1], node, image) + if last.nodeLabel == node then Occurrences(last.images, image) else 0
  }

  lemma {:induction false} OccursIffIn(s: seq<string>, x: string)
    ensures Occurrences(s, x) > 0 <==> x in s
  {
    if s != [] {
      OccursIffIn(s[..|s| - 1], x);
      assert s == s[..|s| - 1] + [s[|s| - 1]];
    }
  }

  /** Where in the listed sets the image is named by a set of this node: list position, image position. */
  function Places(sets: seq<ListedSet>, node: string, image: string): set<(int, int)> {
    set i, k | 0 <= i < |sets| && sets[i].nodeLabel == node && 0 <= k < |sets[i].images|
        && sets[i].images[k] == image :: (i, k)
  }

  function Positions(s: seq<string>, x: string, row: int): set<(int, int)> {
    set k | 0 <= k < |s| && s[k] == x :: (row, k)
  }

  lemma {:induction false} OccurrencesArePositions(s: seq<string>, x: string, row: int)
    ensures Occurrences(s, x) == |Positions(s, x, row)|
  {
    if s == [] {
      assert Positions(s, x, row) == {};
    } else {
      var front, last := s[..|s| - 1], |s| - 1;
      OccurrencesArePositions(front, x, row);
      assert (row, last) !in Positions(front, x, row);
      assert Positions(s, x, row) == Positions(front, x, row) + if s[last] == x then {(row, last)} else {};
    }
  }

  lemma PlacesSplit(sets: seq<ListedSet>, node: string, image: string)
    requires sets != []
    ensures var last := |sets| - 1;
            var here := if sets[last].nodeLabel == node then Positions(sets[last].images, image, last) else {};
            && Places(sets, node, image) == Places(sets[..last], node, image) + here
            && Places(sets[..last], node, image) !! here
  {
    var last := |sets| - 1;
    var here := if sets[last].nodeLabel == node then Positions(sets[last].images, image, last) else {};
    forall i, k ensures (i, k) in Places(sets, node, image) <==> (i, k) in Places(sets[..last], node, image) + here {
      if 0 <= i < last { assert sets[..last][i] == sets[i]; }
    }
  }

  /** There is one notice for each place. */
  lemma {:induction false} NoticesArePlaces(sets: seq<ListedSet>, node: string, image: string)
    ensures Notices(sets, node, image) == |Places(sets, node, image)|
  {
    if sets == [] {
      assert Places(sets, node, image) == {};
    } else {
      var last := |sets| - 1;
      NoticesArePlaces(sets[..last], node, image);
      OccurrencesArePositions(sets[last].images, image, last);
      PlacesSplit(sets, node, image);
    }
  }

  /** Exactly the sets of this node that name the image are notified, in list order. */
  method NotifyController(sets: seq<ListedSet>, node: string, image: string) returns (sent: seq<string>)
    ensures |sent| == Notices(sets, node, image) == |Places(sets, node, image)|
    ensures forall name :: name in sent <==>
              exists i :: 0 <= i < |sets| && sets[i].name == name && sets[i].nodeLabel == node
                  && image in sets[i].images
  {
    sent := [];
    NoticesArePlaces(sets, node, image);
    for i := 0 to |sets|
      invariant |sent| == Notices(sets[..i], node, image)
      invariant forall name :: name in sent <==>
                  exists j :: 0 <= j < i && sets[j].name == name && sets[j].nodeLabel == node && image in sets[j].images
    {
      assert sets[..i + 1][..i] == sets[..i];
      ghost var before := sent;
      if sets[i].nodeLabel == node {
        var images := sets[i].images;
        for k := 0 to |images|
          invariant |sent| == |before| + Occurrences(images[..k], image)
          invariant forall name :: name in sent <==>
                      name in before || (name == sets[i].name && Occurrences(images[..k], image) > 0)
        {
          assert images[..k + 1][..k] == images[..k];
          if images[k] == image {
            sent := sent + [sets[i].name];
          }
        }
        assert images[..|images|] == images;
        OccursIffIn(images, image);
      }
    }
    assert sets[..|sets|] == sets;
  }
}
