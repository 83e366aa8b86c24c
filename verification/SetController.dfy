/** The NodeImageSet controller of one node: what it enqueues and which status it writes. */
module SetController {
  import opened Basics
  import opened Cluster
  import opened PullStatus
  import opened PullEngine
  import opened Runner
  import opened Prefetch

  type Probes = seq<Result<bool, PullError>>

  // ---- counting ----------------------------------------------------------------------------

  /** How many of the images read as the given state, containerd answering in turn. */
  function CountState(view: TableView, images: seq<string>, policy: RegistryPolicy, probes: Probes,
                      state: ImageState): nat
    requires |probes| == |images|
  {
    if images == [] then 0
    else
      var last := |images| - 1;
      CountState(view, images[..last], policy, probes[..last], state)
        + if Look(view, images[last], policy, probes[last]) == Ok(state) then 1 else 0
  }

  lemma {:induction false} CountsExclude(view: TableView, images: seq<string>, policy: RegistryPolicy, probes: Probes)
    requires |probes| == |images|
    ensures CountState(view, images, policy, probes, Downloaded)
            + CountState(view, images, policy, probes, Failed) <= |images|
  {
    if images != [] { CountsExclude(view, images[..|images| - 1], policy, probes[..|images| - 1]); }
  }

  lemma {:induction false} CountIsFull(view: TableView, images: seq<string>, policy: RegistryPolicy, probes: Probes,
                                       state: ImageState)
    requires |probes| == |images|
    ensures CountState(view, images, policy, probes, state) <= |images|
    ensures CountState(view, images, policy, probes, state) == |images| <==>
              forall i :: 0 <= i < |images| ==> Look(view, images[i], policy, probes[i]) == Ok(state)
  {
    if images != [] {
      var last := |images| - 1;
      CountIsFull(view, images[..last], policy, probes[..last], state);
      if forall i :: 0 <= i < |images| ==> Look(view, images[i], policy, probes[i]) == Ok(state) {
        assert forall i :: 0 <= i < last ==> Look(view, images[..last][i], policy, probes[..last][i]) == Ok(state);
      } else {
        var i :| 0 <= i < |images| && Look(view, images[i], policy, probes[i]) != Ok(state);
        if i < last { assert Look(view, images[..last][i], policy, probes[..last][i]) != Ok(state); }
      }
    }
  }

  lemma {:induction false} CountIsZero(view: TableView, images: seq<string>, policy: RegistryPolicy, probes: Probes,
                                       state: ImageState)
    requires |probes| == |images|
    ensures CountState(view, images, policy, probes, state) == 0 <==>
              forall i :: 0 <= i < |images| ==> Look(view, images[i], policy, probes[i]) != Ok(state)
  {
    if images != [] {
      var last := |images| - 1;
      CountIsZero(view, images[..last], policy, probes[..last], state);
      if forall i :: 0 <= i < |images| ==> Look(view, images[i], policy, probes[i]) != Ok(state) {
        assert forall i :: 0 <= i < last ==> Look(view, images[..last][i], policy, probes[..last][i]) != Ok(state);
      } else {
        var i :| 0 <= i < |images| && Look(view, images[i], policy, probes[i]) == Ok(state);
        if i < last { assert Look(view, images[..last][i], policy, probes[..last][i]) == Ok(state); }
      }
    }
  }

  method CalculateImageStatus(puller: ImagePuller, name: string, o: NodeImageSet, probes: Probes)
    returns (downloaded: int, failed: int)
    requires |probes| == |o.spec.images|
    ensures downloaded == CountState(puller.View(name), o.spec.images, o.spec.policy, probes, Downloaded)
    ensures failed == CountState(puller.View(name), o.spec.images, o.spec.policy, probes, Failed)
  {
    downloaded, failed := 0, 0;
    var images := o.spec.images;
    for i := 0 to |images|
      invariant downloaded == CountState(puller.View(name), images[..i], o.spec.policy, probes[..i], Downloaded)
      invariant failed == CountState(puller.View(name), images[..i], o.spec.policy, probes[..i], Failed)
    {
      assert images[..i + 1][..i] == images[..i] && probes[..i + 1][..i] == probes[..i];
      var status := puller.GetImageStatus(name, images[i], o.spec.policy, probes[i]);
      if status.Err? { continue; }
      match status.value {
        case Downloaded => downloaded := downloaded + 1;
        case Failed => failed := failed + 1;
        case _ =>
      }
    }
    assert images[..|images|] == images && probes[..|images|] == probes;
  }

  // ---- the status written ------------------------------------------------------------------

  /** The images of a set that containerd confirmed. */
  function SeenImages(o: NodeImageSet, probes: Probes): set<string>
    requires |probes| == |o.spec.images|
  {
    set i | 0 <= i < |probes| && probes[i] == Ok(true) :: o.spec.images[i]
  }

  /** One report per image, unless a check fails. */
  method ReportImages(puller: ImagePuller, name: string, o: NodeImageSet,
                      probes: Probes) returns (reports: Option<seq<ImageReport>>)
    requires |probes| == |o.spec.images|
    ensures reports.None? <==> puller.View(name).Some? && exists i :: 0 <= i < |probes| && probes[i].Err?
    ensures reports.Some? ==> |reports.value| == |o.spec.images|
    ensures reports.Some? ==>
              forall i :: 0 <= i < |o.spec.images| ==>
                reports.value[i].ref == o.spec.images[i]
                && Look(puller.View(name), o.spec.images[i], o.spec.policy, probes[i]) == Ok(reports.value[i].state)
  {
    var images := o.spec.images;
    var found: seq<ImageReport> := [];
    for i := 0 to |images|
      invariant |found| == i
      invariant forall j :: 0 <= j < i ==>
                  found[j].ref == images[j]
                      && Look(puller.View(name), images[j], o.spec.policy, probes[j]) == Ok(found[j].state)
      invariant puller.View(name).Some? ==> forall j :: 0 <= j < i ==> probes[j].Ok?
    {
      var state := puller.GetImageStatus(name, images[i], o.spec.policy, probes[i]);
      if state.Err? {
        return None;
      }
      found := found + [ImageReport(images[i], state.value)];
    }
    return Some(found);
  }

  /** All images count as downloaded if and only if containerd confirmed each of a tracked set. */
  lemma AllDownloaded(view: TableView, images: seq<string>, policy: RegistryPolicy, probes: Probes)
    requires |probes| == |images|
    ensures view.Some? ==>
              (CountState(view, images, policy, probes, Downloaded) == |images| <==>
               forall i :: 0 <= i < |probes| ==> probes[i] == Ok(true))
    ensures CountState(view, images, policy, probes, Downloaded) == |images| ==>
              forall i :: 0 <= i < |probes| ==> probes[i] == Ok(true)
  {
    CountIsFull(view, images, policy, probes, Downloaded);
    forall i | 0 <= i < |images|
      ensures Look(view, images[i], policy, probes[i]) == Ok(Downloaded) ==> probes[i] == Ok(true)
      ensures view.Some? ==> (Look(view, images[i], policy, probes[i]) == Ok(Downloaded) <==> probes[i] == Ok(true))
    {
    }
  }

  /** Builds the status after reading the set as `o`. The counts and the per-image reports come from
      separate rounds of existence checks; a failing check in the second round writes nothing. */
  method UpdateStatus(puller: ImagePuller, name: string, o: NodeImageSet, first: Probes, second: Probes)
    returns (status: Option<SetStatus>)
    requires |first| == |second| == |o.spec.images|
    ensures status.Some? ==> WrittenFor(o, status.value, SeenImages(o, first))
    ensures status.Some? && puller.View(name).Some? ==>
              (ConditionTrue(status.value.conditions, IMAGE_AVAILABLE) <==>
               forall i :: 0 <= i < |first| ==> first[i] == Ok(true))
    ensures status.Some? ==>
              (ConditionTrue(status.value.conditions, DOWNLOAD_SUCCEEDED) <==> status.value.failedImages == 0)
    ensures status.Some? ==>
              (DOWNLOAD_SUCCEEDED in status.value.conditions && !status.value.conditions[DOWNLOAD_SUCCEEDED] <==>
               exists i :: 0 <= i < |first| && first[i] == Ok(false)
                   && puller.Broken(name, o.spec.images[i], o.spec.policy))
    ensures status.Some? ==>
              && status.value.desiredImages == |o.spec.images|
              && status.value.availableImages ==
                  CountState(puller.View(name), o.spec.images, o.spec.policy, first, Downloaded)
              && status.value.failedImages == CountState(puller.View(name), o.spec.images, o.spec.policy, first, Failed)
              && 0 <= status.value.availableImages + status.value.failedImages <= status.value.desiredImages
    ensures status.Some? ==>
              forall i :: 0 <= i < |o.spec.images| ==>
                status.value.reports[i].ref == o.spec.images[i]
                && Look(puller.View(name), o.spec.images[i], o.spec.policy, second[i]) ==
                    Ok(status.value.reports[i].state)
    ensures status.None? <==> puller.View(name).Some? && exists i :: 0 <= i < |second| && second[i].Err?
  {
    var images := o.spec.images;
    var downloaded, failed := CalculateImageStatus(puller, name, o, first);
    CountsExclude(puller.View(name), images, o.spec.policy, first);
    AllDownloaded(puller.View(name), images, o.spec.policy, first);
    CountIsZero(puller.View(name), images, o.spec.policy, first, Failed);
    forall i | 0 <= i < |images|
      ensures Look(puller.View(name), images[i], o.spec.policy, first[i]) == Ok(Failed) <==>
                first[i] == Ok(false) && puller.Broken(name, images[i], o.spec.policy)
    {
    }
    var reports := ReportImages(puller, name, o, second);
    if reports.None? {
      return None;
    }
    var conditions := o.status.conditions;
    if |images| == downloaded {
      conditions := conditions[IMAGE_AVAILABLE := true];
    } else {
      conditions := conditions[IMAGE_AVAILABLE := false];
    }
    if failed > 0 {
      conditions := conditions[DOWNLOAD_SUCCEEDED := false];
    } else {
      conditions := conditions[DOWNLOAD_SUCCEEDED := true];
    }
    assert IMAGE_AVAILABLE[5] != DOWNLOAD_SUCCEEDED[5];
    return Some(SetStatus(o.generation, conditions, |images|, downloaded, failed, reports.value));
  }

  // ---- what is enqueued --------------------------------------------------------------------

  /** The images to enqueue: all of them for a spec not seen before, otherwise those that wait. */
  predicate IsPending(view: TableView, o: NodeImageSet, i: nat, probe: Result<bool, PullError>)
    requires i < |o.spec.images|
  {
    o.generation != o.status.observedGeneration || Look(view, o.spec.images[i], o.spec.policy, probe) == Ok(Waiting)
  }

  /** Every pending image of the set has a task in the queue. */
  ghost predicate AllPendingQueued(view: TableView, queued: set<Task>, name: string, o: NodeImageSet, probes: Probes)
    requires |probes| == |o.spec.images|
  {
    forall i :: 0 <= i < |o.spec.images| && IsPending(view, o, i, probes[i]) ==>
      exists t :: t in queued && t.owner == name && t.ref == o.spec.images[i]
  }

  method CollectPendingImages(puller: ImagePuller, name: string, o: NodeImageSet,
                              probes: Probes) returns (images: seq<string>)
    requires |probes| == |o.spec.images|
    ensures forall r :: r in images <==>
              exists i :: 0 <= i < |o.spec.images| && o.spec.images[i] == r
                  && IsPending(puller.View(name), o, i, probes[i])
    ensures o.generation != o.status.observedGeneration ==> images == o.spec.images
    ensures o.generation == o.status.observedGeneration ==>
              forall r :: r in images <==>
                exists i :: 0 <= i < |o.spec.images| && o.spec.images[i] == r
                            && name in puller.status && probes[i] == Ok(false) && puller.Idle(name, r)
  {
    if o.generation != o.status.observedGeneration {
      return o.spec.images;
    }
    images := [];
    for i := 0 to |o.spec.images|
      invariant forall r :: r in images <==>
                  exists j :: 0 <= j < i && o.spec.images[j] == r && IsPending(puller.View(name), o, j, probes[j])
    {
      var status := puller.GetImageStatus(name, o.spec.images[i], o.spec.policy, probes[i]);
      if status == Ok(Waiting) {
        images := images + [o.spec.images[i]];
      }
    }
  }

  /** Starts tracking the set if need be; for a spec not seen before, tracks exactly its images. */
  method TrackImages(puller: ImagePuller, name: string, o: NodeImageSet)
    requires puller.Valid()
    modifies puller, if name in puller.status then {puller.status[name]} else {}
    ensures puller.Valid() && name in puller.status
    ensures puller.status.Keys == old(puller.status.Keys) + {name}
    ensures forall n :: n in old(puller.status) ==> puller.status[n] == old(puller.status[n])
    ensures o.generation != o.status.observedGeneration ==> puller.status[name].images.Keys == ToSet(o.spec.images)
  {
    if name !in puller.status {
      puller.NewNodeImageSetStatus(name);
    }
    if o.generation != o.status.observedGeneration {
      puller.UpdateNodeImageSetStatus(name, o.spec.images);
    }
  }

  method EnqueueAll(queue: WorkQueue, name: string, pending: seq<string>, serial: nat)
    modifies queue`queued
    ensures old(queue.queued) <= queue.queued
    ensures forall r :: r in pending ==> exists t :: t in queue.queued && t.owner == name && t.ref == r
    ensures forall t :: t in queue.queued && t !in old(queue.queued) ==> t.owner == name && t.ref in pending
  {
    for i := 0 to |pending|
      invariant old(queue.queued) <= queue.queued
      invariant forall j :: 0 <= j < i ==> Task(serial + j, name, pending[j]) in queue.queued
      invariant forall t :: t in queue.queued && t !in old(queue.queued) ==> t.owner == name && t.ref in pending
    {
      queue.Add(Task(serial + i, name, pending[i]));
    }
    forall r | r in pending ensures exists t :: t in queue.queued && t.owner == name && t.ref == r {
      var j :| 0 <= j < |pending| && pending[j] == r;
      assert Task(serial + j, name, pending[j]) in queue.queued;
    }
  }

  /** Brings the tables of a live set up to date and enqueues its pending images: afterwards the set
      is tracked, a new spec's images are exactly the tracked ones, and every pending image has a task.
      A pull secret that cannot be read, other than a missing one, stops it before any of this. */
  method ReconcileNodeImageSet(puller: ImagePuller, queue: WorkQueue, name: string, o: NodeImageSet,
                               secretsRead: bool, probes: Probes, serial: nat)
    returns (ok: bool)
    requires puller.Valid() && |probes| == |o.spec.images|
    modifies puller, if name in puller.status then {puller.status[name]} else {}
    modifies queue`queued
    ensures puller.Valid() && ok == secretsRead
    ensures !ok ==> puller.status == old(puller.status) && queue.queued == old(queue.queued)
    ensures !ok && name in puller.status ==> puller.status[name].images == old(puller.status[name].images)
    ensures ok ==> puller.status.Keys == old(puller.status.Keys) + {name}
    ensures forall n :: n in old(puller.status) ==> n in puller.status && puller.status[n] == old(puller.status[n])
    ensures ok ==> puller.View(name).Some?
    ensures ok && o.generation != o.status.observedGeneration ==> puller.View(name).value.Keys == ToSet(o.spec.images)
    ensures ok ==> AllPendingQueued(puller.View(name), queue.queued, name, o, probes)
    ensures ok && o.generation != o.status.observedGeneration ==>
              forall r :: r in o.spec.images ==> exists t :: t in queue.queued && t.owner == name && t.ref == r
    ensures ok ==>
              forall i | 0 <= i < |o.spec.images| && probes[i] == Ok(false) && puller.Idle(name, o.spec.images[i]) ::
                exists t :: t in queue.queued && t.owner == name && t.ref == o.spec.images[i]
    ensures old(queue.queued) <= queue.queued
    ensures forall t :: t in queue.queued && t !in old(queue.queued) ==> t.owner == name && t.ref in o.spec.images
  {
    if !secretsRead {
      return false;
    }
    TrackImages(puller, name, o);
    var pending := CollectPendingImages(puller, name, o, probes);
    ghost var view := puller.View(name);
    EnqueueAll(queue, name, pending, serial);
    assert puller.View(name) == view;
    forall i | 0 <= i < |o.spec.images| && IsPending(view, o, i, probes[i])
      ensures exists t :: t in queue.queued && t.owner == name && t.ref == o.spec.images[i]
    {
      assert o.spec.images[i] in pending;
    }
    return true;
  }

  // ---- one reconciliation ------------------------------------------------------------------

  /** What a reconciliation did to the set it was called for. */
  datatype SetAction =
    | Ignored
    | FinalizerRemoved(o: NodeImageSet)
    | FinalizerAdded(o: NodeImageSet)
    | SecretsUnread
    | CheckFailed
    | Wrote(status: SetStatus, again: bool)
    | WriteRefused

  /** Another node's set is ignored, a deleted one is dropped from the tables before its finalizer
      goes, a set without the finalizer first gets it, and a live one is tracked, has every pending
      image enqueued and its status written. `accepted` says whether the one write is accepted. It looks
      again later, unless all images are there. */
  method Reconcile(puller: ImagePuller, queue: WorkQueue, nodeName: string, name: string, o: NodeImageSet,
                   secretsRead: bool, probes: Probes, first: Probes, second: Probes, accepted: bool, serial: nat)
    returns (done: SetAction)
    requires puller.Valid() && |probes| == |first| == |second| == |o.spec.images|
    modifies puller, if name in puller.status then {puller.status[name]} else {}
    modifies queue`queued
    ensures puller.Valid()
    ensures o.spec.nodeName != nodeName || (o.deleting && SET_FINALIZER !in o.finalizers) ==>
              done == Ignored && puller.status == old(puller.status) && queue.queued == old(queue.queued)
    ensures o.spec.nodeName == nodeName && o.deleting && SET_FINALIZER in o.finalizers ==>
              && done == (if accepted then FinalizerRemoved(o.(finalizers := o.finalizers - {SET_FINALIZER}))
                          else WriteRefused)
              && puller.status == old(puller.status) - {name} && queue.queued == old(queue.queued)
    ensures o.spec.nodeName == nodeName && !o.deleting && SET_FINALIZER !in o.finalizers ==>
              && done == (if accepted then FinalizerAdded(o.(finalizers := o.finalizers + {SET_FINALIZER}))
                          else WriteRefused)
              && puller.status == old(puller.status) && queue.queued == old(queue.queued)
    ensures o.spec.nodeName == nodeName && !o.deleting && SET_FINALIZER in o.finalizers ==>
              if !secretsRead then
                done == SecretsUnread && puller.status == old(puller.status) && queue.queued == old(queue.queued)
              else
                && puller.View(name).Some? && AllPendingQueued(puller.View(name), queue.queued, name, o, probes)
                && (if exists i :: 0 <= i < |second| && second[i].Err? then done == CheckFailed
                    else if !accepted then done == WriteRefused
                    else
                      && done.Wrote? && WrittenFor(o, done.status, SeenImages(o, first))
                      && (done.again <==> exists i :: 0 <= i < |first| && first[i] != Ok(true)))
  {
    if o.spec.nodeName != nodeName {
      return Ignored;
    }
    if o.deleting {
      if SET_FINALIZER in o.finalizers {
        puller.DeleteNodeImageSetStatus(name);
        return if accepted then FinalizerRemoved(o.(finalizers := o.finalizers - {SET_FINALIZER})) else WriteRefused;
      }
      return Ignored;
    }
    if SET_FINALIZER !in o.finalizers {
      return if accepted then FinalizerAdded(o.(finalizers := o.finalizers + {SET_FINALIZER})) else WriteRefused;
    }
    var ok := ReconcileNodeImageSet(puller, queue, name, o, secretsRead, probes, serial);
    if !ok {
      return SecretsUnread;
    }
    var status := UpdateStatus(puller, name, o, first, second);
    if status.None? {
      return CheckFailed;
    }
    var available := ConditionTrue(status.value.conditions, IMAGE_AVAILABLE);
    return if accepted then Wrote(status.value, !available) else WriteRefused;
  }
}
