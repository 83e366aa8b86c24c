/** What the pull engine guarantees after any sequence of steps from an empty start. */
module PullEngineRuns {
  import opened Basics
  import opened Cluster
  import opened PullStatus
  import opened PullEngine
  import opened PullEngineShape
  import opened PullEngineSafety

  /** The process has just started; any images may already be on the node. */
  predicate Initial(s: Engine) {
    && s.status == map[] && s.tables == map[] && s.entries == map[]
    && s.queued == {} && s.delayed == {} && s.workers == map[]
    && s.deletions == [] && s.sweep == Idle
  }

  /** The engine can be in state s after exactly these steps. */
  ghost predicate After(actions: seq<Action>, s: Engine)
    decreases |actions|
  {
    if actions == [] then Initial(s)
    else exists before :: LastLeads(before, actions, s) && After(actions[..|actions| - 1], before)
  }

  predicate LastLeads(before: Engine, actions: seq<Action>, s: Engine)
    requires actions != []
  {
    Leads(before, actions[|actions| - 1], s)
  }

  predicate Leads(s: Engine, a: Action, t: Engine) {
    Enabled(s, a) && t == Do(s, a)
  }

  lemma {:induction false} InvAfter(actions: seq<Action>, s: Engine)
    requires After(actions, s)
    ensures Inv(s)
    decreases |actions|
  {
    if actions != [] {
      var last := actions[|actions| - 1];
      var before :| LastLeads(before, actions, s) && After(actions[..|actions| - 1], before);
      InvAfter(actions[..|actions| - 1], before);
      StepKeepsInv(before, last);
    }
  }

  // ---- pulls in flight -----------------------------------------------------------------------

  function Times(actions: seq<Action>, a: Action): nat {
    if actions == [] then 0
    else Times(actions[..|actions| - 1], a) + if actions[|actions| - 1] == a then 1 else 0
  }

  /** The current sweep may still clear e's mark. */
  predicate ClearPending(s: Engine, e: EntryId) {
    s.sweep.Sweeping? && s.sweep.ref == e.ref &&
      (e.table !in s.sweep.seen || (s.sweep.at == Some(e) && !s.sweep.markCleared))
  }

  /** Each handled deletion clears an entry's mark at most once. */
  predicate ClearsCounted(actions: seq<Action>, s: Engine) {
    SweepCounted(actions, s) && forall e :: e in s.entries ==> EntryCounted(actions, s, e)
  }

  predicate SweepCounted(actions: seq<Action>, s: Engine) {
    s.sweep.Sweeping? ==>
      && Times(actions, TakeDeletion(s.sweep.ref)) >= 1
      && s.sweep.todo !! s.sweep.seen
      && (s.sweep.at.Some? ==> s.sweep.at.value.table in s.sweep.seen)
  }

  predicate EntryCounted(actions: seq<Action>, s: Engine, e: EntryId)
    requires e in s.entries
  {
    s.entries[e].cleared + Bit(ClearPending(s, e)) <= Times(actions, TakeDeletion(e.ref))
  }

  lemma TimesAppend(actions: seq<Action>, a: Action, b: Action)
    ensures Times(actions + [a], b) == Times(actions, b) + if a == b then 1 else 0
  {
    assert (actions + [a])[..|actions|] == actions;
  }

  lemma OthersLeaveSweep(before: Engine, a: Action, s: Engine)
    requires Leads(before, a, s) && !IsSweepStep(a)
    ensures s.sweep == before.sweep
  {
  }

  lemma SweepCountsSweep(actions: seq<Action>, before: Engine, a: Action, s: Engine)
    requires Shape(before) && SweepCounted(actions, before) && Leads(before, a, s) && IsSweepStep(a)
             && s.sweep.Sweeping?
    requires Times(actions + [a], TakeDeletion(s.sweep.ref)) ==
               Times(actions, TakeDeletion(s.sweep.ref)) + if a == TakeDeletion(s.sweep.ref) then 1 else 0
    ensures SweepCounted(actions + [a], s)
  {
  }

  lemma StepCountsSweep(actions: seq<Action>, before: Engine, a: Action, s: Engine)
    requires Shape(before) && SweepCounted(actions, before) && Leads(before, a, s)
    ensures SweepCounted(actions + [a], s)
  {
    if s.sweep.Sweeping? {
      TimesAppend(actions, a, TakeDeletion(s.sweep.ref));
      if IsSweepStep(a) { SweepCountsSweep(actions, before, a, s); } else { OthersLeaveSweep(before, a, s); }
    }
  }

  /** Marks of e cleared so far; an entry that does not exist yet has none. */
  function ClearsOf(s: Engine, e: EntryId): nat {
    if e in s.entries then s.entries[e].cleared else 0
  }

  lemma EntryLeavesClears(s: Engine, tbl: TableId, ref: string, e: EntryId)
    requires TablesOk(s) && tbl in s.tables
    ensures ClearsOf(WithEntry(s, tbl, ref).0, e) == ClearsOf(s, e)
  {
  }

  lemma WorkLeavesClears(s: Engine, t: Task, answer: Answer, e: EntryId)
    requires TablesOk(s) && t in s.workers && Grounded(s, s.workers[t])
    ensures ClearsOf(WorkStep(s, t, answer), e) == ClearsOf(s, e) && WorkStep(s, t, answer).sweep == s.sweep
  {
    if s.workers[t].Enter? { EntryLeavesClears(s, s.workers[t].table, t.ref, e); }
  }

  /** Steps outside the handler leave every entry's count, and what is pending for it, alone. */
  lemma OthersLeaveClears(before: Engine, a: Action, s: Engine, e: EntryId)
    requires TablesOk(before) && Leads(before, a, s) && !IsSweepStep(a)
    ensures ClearsOf(s, e) == ClearsOf(before, e) && s.sweep == before.sweep
  {
    match a
    case Work(t, answer) => WorkLeavesClears(before, t, answer, e);
    case AddRef(n, r) => EntryLeavesClears(before, before.status[n], r, e);
    case _ =>
  }

  /** Marks of e cleared, and the one the current sweep may still clear. */
  function ClearsDue(s: Engine, e: EntryId): nat {
    ClearsOf(s, e) + Bit(ClearPending(s, e))
  }

  /** Only taking up a deletion of the image adds to what is due. */
  lemma SweepAddsNothing(before: Engine, a: Action, s: Engine, e: EntryId)
    requires before.sweep.Sweeping? ==> before.sweep.todo !! before.sweep.seen
    requires before.sweep.Sweeping? && before.sweep.at.Some? ==> before.sweep.at.value.table in before.sweep.seen
    requires TablesOk(before) && SweepOk(before) && Leads(before, a, s) && IsSweepStep(a)
    ensures ClearsDue(s, e) <= ClearsDue(before, e) + if a == TakeDeletion(e.ref) then 1 else 0
  {
    match a
    case TakeDeletion(_) =>
    case Visit(_) =>
    case VisitMore(_) =>
    case SkipGone(_) =>
    case ClearMark =>
    case ClearError =>
    case EndSweep(_) =>
  }

  lemma SweepCountsEntry(actions: seq<Action>, before: Engine, a: Action, s: Engine, e: EntryId)
    requires TablesOk(before) && SweepOk(before) && SweepCounted(actions, before) && Leads(before, a, s)
             && IsSweepStep(a) && e in s.entries
    requires e in before.entries ==> EntryCounted(actions, before, e)
    ensures EntryCounted(actions + [a], s, e)
  {
    TimesAppend(actions, a, TakeDeletion(e.ref));
    SweepAddsNothing(before, a, s, e);
    assert e in before.entries;
  }

  lemma StepCountsEntry(actions: seq<Action>, before: Engine, a: Action, s: Engine, e: EntryId)
    requires Shape(before) && SweepCounted(actions, before) && Leads(before, a, s) && e in s.entries
    requires e in before.entries ==> EntryCounted(actions, before, e)
    ensures EntryCounted(actions + [a], s, e)
  {
    TimesAppend(actions, a, TakeDeletion(e.ref));
    if IsSweepStep(a) {
      SweepCountsEntry(actions, before, a, s, e);
    } else {
      OthersLeaveClears(before, a, s, e);
    }
  }

  lemma {:induction false} ClearsAfter(actions: seq<Action>, s: Engine)
    requires After(actions, s)
    ensures ClearsCounted(actions, s)
    decreases |actions|
  {
    if actions != [] {
      var front, last := actions[..|actions| - 1], actions[|actions| - 1];
      var before :| LastLeads(before, actions, s) && After(front, before);
      assert actions == front + [last];
      InvAfter(front, before);
      ClearsAfter(front, before);
      StepCountsSweep(front, before, last, s);
      forall e | e in s.entries ensures EntryCounted(actions, s, e) {
        StepCountsEntry(front, before, last, s, e);
      }
    }
  }

  /** With f pulls in flight on an entry, its mark b (0 or 1) and d deletions of its image handled so
      far: b <= f <= b + d after every interleaving. */
  lemma {:induction false} PullBound(actions: seq<Action>, s: Engine, e: EntryId)
    requires After(actions, s) && e in s.entries
    ensures Bit(s.entries[e].pull.pulling) <= |InFlight(s, e)|
    ensures |InFlight(s, e)| <= Bit(s.entries[e].pull.pulling) + Times(actions, TakeDeletion(e.ref))
    ensures Times(actions, TakeDeletion(e.ref)) == 0 ==>
              |InFlight(s, e)| <= 1 && (s.entries[e].pull.pulling <==> |InFlight(s, e)| == 1)
  {
    InvAfter(actions, s);
    ClearsAfter(actions, s);
    assert MarkBounds(s, e) && EntryCounted(actions, s, e);
  }

  // ---- no image is stranded ------------------------------------------------------------------

  /** A task for this set and image is queued, waiting out a delay, or being processed. */
  ghost predicate TaskOutstanding(s: Engine, name: string, ref: string) {
    exists t: Task :: t.owner == name && t.ref == ref && IsOutstanding(s, t)
  }

  predicate IsOutstanding(s: Engine, t: Task) {
    t in s.queued || t in s.delayed || t in s.workers
  }

  /** A deletion of the image has not been fully handled. */
  predicate DeletionUnhandled(s: Engine, ref: string) {
    ref in s.deletions || (s.sweep.Sweeping? && s.sweep.ref == ref)
  }

  function PullOf(s: Engine, name: string, ref: string): Option<PullState> {
    if name in s.status && s.status[name] in s.tables && ref in s.tables[s.status[name]]
        && s.tables[s.status[name]][ref] in s.entries
    then Some(s.entries[s.tables[s.status[name]][ref]].pull) else None
  }

  /** The state GetImageStatus reports for a tracked set. */
  function Reported(s: Engine, name: string, ref: string, policy: RegistryPolicy): ImageState {
    if name !in s.status then Untracked else ReportedState(ref in s.images, PullOf(s, name, ref), policy)
  }

  /** No image is stranded: for a tracked set and an absent image, InProgress means a worker is pulling
      for exactly this set and image, a failure means a task is outstanding or a deletion is still to be
      handled, and in every other case the image reads Waiting, which the next reconciliation enqueues. */
  lemma NoImageStranded(actions: seq<Action>, s: Engine, name: string, ref: string, policy: RegistryPolicy)
    requires After(actions, s) && name in s.status && ref !in s.images
    ensures var state := Reported(s, name, ref, policy);
            && (state == InProgress ==>
                exists t :: t in s.workers && t.owner == name && t.ref == ref
                    && HoldsMark(s.workers[t], s.tables[s.status[name]][ref]))
            && (state == Failed || state == TemporarilyFailed ==>
                TaskOutstanding(s, name, ref) || DeletionUnhandled(s, ref))
            && (state == InProgress || state == Failed || state == TemporarilyFailed || state == Waiting)
  {
    InvAfter(actions, s);
    var state := Reported(s, name, ref, policy);
    if state == InProgress {
      var e := s.tables[s.status[name]][ref];
      assert Tracked(s, e);
      var t :| MarkHeld(s, e, t);
    } else if state == Failed || state == TemporarilyFailed {
      var e := s.tables[s.status[name]][ref];
      assert Tracked(s, e) && ErrorCovered(s, e);
      if !DeletionUnhandled(s, ref) {
        var t :| Covers(s, t, e);
        assert IsOutstanding(s, t);
      }
    }
  }

  /** For a tracked set, an absent image with no task and no deletion left to handle reads Waiting. */
  lemma {:induction false} IdleAbsentIsWaiting(actions: seq<Action>, s: Engine, name: string, ref: string,
                                               policy: RegistryPolicy)
    requires After(actions, s) && name in s.status && ref !in s.images
    requires !DeletionUnhandled(s, ref) && !TaskOutstanding(s, name, ref)
    ensures Reported(s, name, ref, policy) == Waiting
  {
    forall t: Task | t in s.workers ensures t.owner != name || t.ref != ref { assert IsOutstanding(s, t); }
    NoImageStranded(actions, s, name, ref, policy);
  }

  // ---- a deleted set stays deleted -----------------------------------------------------------

  ghost predicate Steps(s: Engine, actions: seq<Action>, t: Engine)
    decreases |actions|
  {
    if actions == [] then s == t
    else exists mid :: Leads(s, actions[0], mid) && Steps(mid, actions[1..], t)
  }

  lemma OnlyTrackTracks(s: Engine, a: Action, t: Engine, name: string)
    requires Leads(s, a, t) && name !in s.status && a != TrackSet(name)
    ensures name !in t.status
  {
  }

  /** However many pulls were in flight when a set was dropped, none of them brings it back. */
  lemma {:induction false} DeletedStaysDeleted(s: Engine, actions: seq<Action>, t: Engine, name: string)
    requires Steps(s, actions, t) && name !in s.status && TrackSet(name) !in actions
    ensures name !in t.status
    decreases |actions|
  {
    if actions != [] {
      var mid :| Leads(s, actions[0], mid) && Steps(mid, actions[1..], t);
      assert actions[0] in actions;
      OnlyTrackTracks(s, actions[0], mid, name);
      DeletedStaysDeleted(mid, actions[1..], t, name);
    }
  }
}
