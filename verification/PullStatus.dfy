/** The per-node tables of image pulls: one lock-protected status object per set and image. */
module PullStatus {
  import opened Basics
  import opened Cluster

  datatype PullError = NotFound | OtherError

  /** The control state of one image: is a pull marked as running, and the last error. */
  datatype PullState = PullState(pulling: bool, error: Option<PullError>)

  const UNPULLED := PullState(false, None)

  // ---- what one locked method does to the state ----------------------------------------------

  function Started(s: PullState): PullState {
    if s.pulling then s else PullState(true, None)
  }

  function Stopped(s: PullState): PullState { s.(pulling := false) }

  function WithError(s: PullState, e: Option<PullError>): PullState { s.(error := e) }

  /** The state reported for an image, from its presence in containerd and its table entry. */
  function ReportedState(present: bool, entry: Option<PullState>, policy: RegistryPolicy): ImageState {
    if present then Downloaded
    else if entry.None? then Waiting
    else if entry.value.pulling then InProgress
    else match entry.value.error
      case None => Waiting
      case Some(e) => if e == NotFound && policy == MirrorOnly then TemporarilyFailed else Failed
  }

  /** The reported state, case by case on presence, mark, error and policy. Not found under MirrorOnly is
      the one temporary failure. */
  lemma ReportedOnFields(present: bool, pulling: bool, error: Option<PullError>, policy: RegistryPolicy)
    ensures ReportedState(true, None, policy) == Downloaded && ReportedState(false, None, policy) == Waiting
    ensures var state := ReportedState(present, Some(PullState(pulling, error)), policy);
            && (state == Downloaded <==> present)
            && (state == InProgress <==> !present && pulling)
            && (state == Waiting <==> !present && !pulling && error == None)
            && (state == TemporarilyFailed <==> !present && !pulling && error == Some(NotFound) && policy == MirrorOnly)
            && (state == Failed <==>
                  !present && !pulling && (error == Some(OtherError) || (error == Some(NotFound) && policy == Default)))
  {
  }

  /** What a set's table looks like from outside: absent, or a pull state per tracked image. */
  type TableView = Option<map<string, PullState>>

  /** The answer to a status request, given containerd's answer to "does the image exist". */
  function Look(view: TableView, ref: string, policy: RegistryPolicy, probe: Result<bool,
                PullError>): Result<ImageState, PullError> {
    if view.None? then Ok(Untracked)
    else if probe.Err? then Err(probe.error)
    else Ok(ReportedState(probe.value, if ref in view.value then Some(view.value[ref]) else None, policy))
  }

  /** The entry of a tracked image after one pull without interference: `first` and `second` answer
      "does the image exist" before and after the mark is taken, `pulled` is the pull itself. */
  function EntryAfterPull(entry: Option<PullState>, first: Result<bool, PullError>, second: Result<bool, PullError>,
                          pulled: Result<int, PullError>): Option<PullState> {
    if first != Ok(false) || IsMarked(entry) then entry
    else Some(if second == Ok(false) && pulled.Err? then PullState(false, Some(pulled.error)) else UNPULLED)
  }

  predicate IsMarked(entry: Option<PullState>) { entry.Some? && entry.value.pulling }

  /** Whether that pull reports an error, so that its task is tried again. */
  predicate PullFails(entry: Option<PullState>, first: Result<bool, PullError>, second: Result<bool, PullError>,
                      pulled: Result<int, PullError>) {
    first.Err? || (first == Ok(false) && !IsMarked(entry) && (second.Err? || (second == Ok(false) && pulled.Err?)))
  }

  /** What a pull comes to, case by case. Whatever containerd answers, an unmarked entry ends unmarked;
      only a pull that was tried and failed records an error. An error is returned when a question to
      containerd fails or the pull does, and never by a pull that had nothing to do. */
  lemma PullOutcomes(entry: Option<PullState>, first: Result<bool, PullError>, second: Result<bool, PullError>,
                     pulled: Result<int, PullError>)
    ensures var after, fails := EntryAfterPull(entry, first, second, pulled), PullFails(entry, first, second, pulled);
            && (first.Err? ==> after == entry && fails)
            && (first == Ok(true) ==> after == entry && !fails)
            && (first == Ok(false) && entry.Some? && entry.value.pulling ==> after == entry && !fails)
            && (first == Ok(false) && (entry.None? || !entry.value.pulling) ==>
                  && after.Some? && !after.value.pulling
                  && (second.Err? ==> after.value.error == None && fails)
                  && (second == Ok(true) ==> after.value.error == None && !fails)
                  && (second == Ok(false) && pulled.Err? ==> after.value.error == Some(pulled.error) && fails)
                  && (second == Ok(false) && pulled.Ok? ==> after.value.error == None && !fails))
  {
  }

  class ImagePullStatus {
    var imagePulling: bool
    var error: Option<PullError>
    var pullStartTime: int
    var pullCompleteTime: int
    var imageSize: int
    /** The set and image this object was made for. */
    ghost const slot: (string, string)

    constructor (ghost slot: (string, string))
      ensures State() == UNPULLED && imageSize == 0 && pullStartTime == 0 && pullCompleteTime == 0 && this.slot == slot
    {
      this.slot := slot;
      imagePulling, error, pullStartTime, pullCompleteTime, imageSize := false, None, 0, 0, 0;
    }

    function State(): PullState
      reads this
    {
      PullState(imagePulling, error)
    }

    /** Size, start and completion time. */
    function Record(): (int, int, int)
      reads this
    {
      (imageSize, pullStartTime, pullCompleteTime)
    }

    method TryStartPulling(now: int) returns (ok: bool)
      modifies this
      ensures ok == !old(imagePulling) && State() == Started(old(State()))
      ensures imagePulling && error == if ok then None else old(error)
      ensures pullStartTime == (if ok then now else old(pullStartTime))
      ensures imageSize == old(imageSize) && pullCompleteTime == old(pullCompleteTime)
    {
      if imagePulling {
        return false;
      }
      imagePulling := true;
      error := None;
      pullStartTime := now;
      return true;
    }

    method StopPulling(now: int)
      modifies this
      ensures State() == Stopped(old(State())) && pullCompleteTime == now
      ensures !imagePulling && error == old(error)
      ensures imageSize == old(imageSize) && pullStartTime == old(pullStartTime)
    {
      imagePulling := false;
      pullCompleteTime := now;
    }

    method SetError(e: Option<PullError>)
      modifies this`error
      ensures State() == WithError(old(State()), e) && error == e
    {
      error := e;
    }

    method SetImagePulling(pulling: bool)
      modifies this`imagePulling
      ensures State() == old(State()).(pulling := pulling)
    {
      imagePulling := pulling;
    }

    method SetImageSize(size: int)
      modifies this`imageSize
      ensures imageSize == size
    {
      imageSize := size;
    }
  }

  /** The part of PullImage that follows once the entry is at hand. */
  method Attempt(s: ImagePullStatus, second: Result<bool, PullError>, pulled: Result<int, PullError>, now: int,
                 later: int)
    returns (err: Option<PullError>)
    modifies s
    ensures Some(s.State()) == EntryAfterPull(Some(old(s.State())), Ok(false), second, pulled)
    ensures err.Some? <==> PullFails(Some(old(s.State())), Ok(false), second, pulled)
    ensures s.Record() ==
              if old(s.imagePulling) then old(s.Record())
              else (if second == Ok(false) && pulled.Ok? then pulled.value else old(s.imageSize), now, later)
  {
    var started := s.TryStartPulling(now);
    if !started {
      return None;
    }
    if second.Err? {
      s.StopPulling(later);
      return Some(second.error);
    }
    if second.value {
      s.StopPulling(later);
      return None;
    }
    s.StopPulling(later);
    if pulled.Err? {
      s.SetError(Some(pulled.error));
      return Some(pulled.error);
    }
    s.SetImageSize(pulled.value);
    return None;
  }

  class NodeImageSetStatus {
    var images: map<string, ImagePullStatus>
    ghost const owner: string

    constructor (ghost owner: string)
      ensures images == map[] && this.owner == owner
    {
      this.owner := owner;
      images := map[];
    }

    method GetOrCreateImageStatus(ref: string) returns (s: ImagePullStatus)
      modifies this`images
      ensures ref in images && images[ref] == s
      ensures ref in old(images) ==> images == old(images)
      ensures ref !in old(images) ==>
                fresh(s) && s.State() == UNPULLED && s.slot == (owner, ref) && images == old(images)[ref := s]
      ensures ref !in old(images) ==> s.imageSize == 0 && s.pullStartTime == 0 && s.pullCompleteTime == 0
    {
      var newStatus := new ImagePullStatus((owner, ref));
      if ref in images {
        return images[ref];
      }
      images := images[ref := newStatus];
      return newStatus;
    }
  }

  class ImagePuller {
    var status: map<string, NodeImageSetStatus>

    constructor ()
      ensures status == map[]
    {
      status := map[];
    }

    /** No two set names share a table, and no two table slots share a status object. */
    ghost predicate Valid()
      reads this, status.Values
    {
      && (forall n :: n in status ==> status[n].owner == n)
      && (forall n, r :: n in status && r in status[n].images ==> status[n].images[r].slot == (n, r))
    }

    predicate Occupied(name: string, ref: string)
      reads this, if name in status then {status[name]} else {}
    {
      name in status && ref in status[name].images
    }

    /** The size and the start and completion times recorded for an image. */
    function Record(name: string, ref: string): (int, int, int)
      reads this, if name in status then {status[name]} else {}
      reads if name in status && ref in status[name].images then {status[name].images[ref]} else {}
    {
      if Occupied(name, ref)
      then status[name].images[ref].Record()
      else (0, 0, 0)
    }

    method NewNodeImageSetStatus(name: string)
      requires Valid()
      modifies this
      ensures Valid()
      ensures name in status && fresh(status[name]) && status[name].images == map[]
      ensures status == old(status)[name := status[name]]
    {
      var table := new NodeImageSetStatus(name);
      status := status[name := table];
    }

    method DeleteNodeImageSetStatus(name: string)
      requires Valid()
      modifies this
      ensures Valid() && status == old(status) - {name}
    {
      status := status - {name};
    }

    /** The tracked references of an existing set become exactly the given images; a reference that
        stays keeps its status object, a new one starts unpulled, and no other set is touched. */
    method UpdateNodeImageSetStatus(name: string, images: seq<string>)
      requires Valid()
      modifies if name in status then {status[name]} else {}
      ensures Valid() && status == old(status)
      ensures name in status ==> status[name].images.Keys == ToSet(images)
      ensures name in status ==>
                forall ref :: ref in old(status[name].images) && ref in images ==>
                      status[name].images[ref] == old(status[name].images[ref])
      ensures name in status ==>
                forall ref :: ref in images && ref !in old(status[name].images) ==>
                  fresh(status[name].images[ref]) && status[name].images[ref].State() == UNPULLED
      ensures name in status && old(status[name].images.Keys) == ToSet(images) ==>
                status[name].images == old(status[name].images)
    {
      if name !in status {
        return;
      }
      var table := status[name];
      ghost var before := table.images;
      var left := table.images.Keys;
      while left != {}
        invariant left <= table.images.Keys <= before.Keys
        invariant forall ref :: ref in before <==>
                    ref in table.images || (ref in before && ref !in images && ref !in left)
        invariant forall ref :: ref in table.images ==>
                    table.images[ref] == before[ref] && (ref in left || ref in images)
        decreases left
      {
        var key :| key in left;
        if key !in images {
          table.images := table.images - {key};
        }
        left := left - {key};
      }
      for i := 0 to |images|
        invariant forall ref :: ref in before && ref in images ==>
                    ref in table.images && table.images[ref] == before[ref]
        invariant forall ref :: ref in table.images ==> ref in images
        invariant forall j :: 0 <= j < i ==> images[j] in table.images
        invariant forall ref :: ref in table.images && ref !in before ==>
                    fresh(table.images[ref]) && table.images[ref].State() == UNPULLED
                        && table.images[ref].slot == (name, ref)
      {
        if images[i] !in table.images {
          var s := table.GetOrCreateImageStatus(images[i]);
        }
      }
    }

    /** The table entry of an image, if its set is tracked. */
    function Entry(name: string, ref: string): Option<PullState>
      reads this, if name in status then {status[name]} else {}
      reads if name in status && ref in status[name].images then {status[name].images[ref]} else {}
    {
      if name in status && ref in status[name].images then Some(status[name].images[ref].State()) else None
    }

    /** The tracked set has no entry for the image, or one with neither mark nor error. */
    predicate Idle(name: string, ref: string)
      reads this, if name in status then {status[name]} else {}
      reads if name in status && ref in status[name].images then {status[name].images[ref]} else {}
    {
      name in status && ref in status[name].images ==>
        !status[name].images[ref].imagePulling && status[name].images[ref].error == None
    }

    /** The image's last pull failed and the failure counts: not that a mirror did not have it yet. */
    predicate Broken(name: string, ref: string, policy: RegistryPolicy)
      reads this, if name in status then {status[name]} else {}
      reads if name in status && ref in status[name].images then {status[name].images[ref]} else {}
    {
      && name in status && ref in status[name].images
      && !status[name].images[ref].imagePulling && status[name].images[ref].error.Some?
      && !(status[name].images[ref].error.value == NotFound && policy == MirrorOnly)
    }

    function View(name: string): TableView
      reads this, if name in status then {status[name]} else {}
      reads if name in status then status[name].images.Values else {}
    {
      if name in status then Some(map ref | ref in status[name].images :: status[name].images[ref].State()) else None
    }

    /** `probe` is containerd's answer to "does the image exist". */
    method GetImageStatus(name: string, ref: string, policy: RegistryPolicy, probe: Result<bool, PullError>)
      returns (state: Result<ImageState, PullError>)
      ensures state == Look(View(name), ref, policy, probe)
      ensures name !in status ==> state == Ok(Untracked)
      ensures name in status && probe.Err? ==> state == Err(probe.error)
      ensures name in status && probe.Ok? ==>
                && (state == Ok(Downloaded) <==> probe.value)
                && (state == Ok(InProgress) <==>
                      !probe.value && ref in status[name].images && status[name].images[ref].imagePulling)
                && (state == Ok(Failed) <==> !probe.value && Broken(name, ref, policy))
                && (state == Ok(TemporarilyFailed) <==>
                      !probe.value && ref in status[name].images && !status[name].images[ref].imagePulling
                      && status[name].images[ref].error == Some(NotFound) && policy == MirrorOnly)
      ensures state == Ok(Waiting) <==> name in status && probe == Ok(false) && Idle(name, ref)
    {
      if name !in status {
        return Ok(Untracked);
      }
      if probe.Err? {
        return Err(probe.error);
      }
      if probe.value {
        return Ok(Downloaded);
      }
      if ref !in status[name].images {
        return Ok(Waiting);
      }
      var imageStatus := status[name].images[ref];
      if imageStatus.imagePulling {
        return Ok(InProgress);
      }
      if imageStatus.error.Some? {
        if imageStatus.error.value == NotFound && policy == MirrorOnly {
          return Ok(TemporarilyFailed);
        }
        return Ok(Failed);
      }
      return Ok(Waiting);
    }

    /** PullImage for a tracked set whose image was found absent. */
    method PullTracked(name: string, ref: string, second: Result<bool, PullError>, pulled: Result<int, PullError>,
                       now: int, later: int)
      returns (err: Option<PullError>)
      requires Valid() && name in status
      modifies status[name]
      modifies if ref in status[name].images then {status[name].images[ref]} else {}
      ensures Valid() && Entry(name, ref) == EntryAfterPull(old(Entry(name, ref)), Ok(false), second, pulled)
      ensures err.Some? <==> PullFails(old(Entry(name, ref)), Ok(false), second, pulled)
      ensures Record(name, ref) ==
                if IsMarked(old(Entry(name, ref))) then old(Record(name, ref))
                else (if second == Ok(false) && pulled.Ok? then pulled.value else old(Record(name, ref)).0, now, later)
      ensures forall n, r :: n != name || r != ref ==>
                Entry(n, r) == old(Entry(n, r)) && Record(n, r) == old(Record(n, r))
    {
      var imageStatus := status[name].GetOrCreateImageStatus(ref);
      err := Attempt(imageStatus, second, pulled, now, later);
    }

    /** One pull without interference, with containerd's two existence answers and the result of the
        pull given. It pulls only a tracked, absent image no other pull is marked for, records the
        error of a failed pull, and never leaves its own mark behind. */
    method PullImage(name: string, ref: string, first: Result<bool, PullError>, second: Result<bool, PullError>,
                     pulled: Result<int, PullError>, now: int, later: int)
      returns (err: Option<PullError>)
      requires Valid()
      modifies if name in status then {status[name]} else {}
      modifies if name in status && ref in status[name].images then {status[name].images[ref]} else {}
      ensures Valid() && status == old(status)
      ensures Entry(name, ref) == if name in status then EntryAfterPull(old(Entry(name, ref)), first, second, pulled)
              else None
      ensures err.Some? <==> name in status && PullFails(old(Entry(name, ref)), first, second, pulled)
      ensures var tries := name in status && first == Ok(false) && !IsMarked(old(Entry(name, ref)));
              Record(name, ref) ==
                if tries then (if second == Ok(false) && pulled.Ok? then pulled.value
                               else old(Record(name, ref)).0, now, later)
                else old(Record(name, ref))
      ensures forall n, r :: n != name || r != ref ==>
                Entry(n, r) == old(Entry(n, r)) && Record(n, r) == old(Record(n, r))
    {
      if name !in status {
        return None;
      }
      if first.Err? {
        return Some(first.error);
      }
      if first.value {
        return None;
      }
      err := PullTracked(name, ref, second, pulled, now, later);
    }

    ghost function Tracked(ref: string): set<ImagePullStatus>
      reads this, status.Values
    {
      set name | name in status && ref in status[name].images :: status[name].images[ref]
    }

    /** Handling the deletion of an image: every tracked entry for it becomes unpulled. */
    method HandleDelete(ref: string)
      requires Valid()
      modifies Tracked(ref)`imagePulling, Tracked(ref)`error
      ensures forall name :: name in status && ref in status[name].images ==>
                !status[name].images[ref].imagePulling && status[name].images[ref].error == None
    {
      var left := status.Keys;
      while left != {}
        invariant left <= status.Keys
        invariant forall name :: name in status && name !in left && ref in status[name].images ==>
                    status[name].images[ref].State() == UNPULLED
        decreases left
      {
        var key :| key in left;
        if ref in status[key].images {
          var imageStatus := status[key].images[ref];
          assert imageStatus in Tracked(ref);
          imageStatus.SetImagePulling(false);
          imageStatus.SetError(None);
        }
        left := left - {key};
      }
    }
  }
}
