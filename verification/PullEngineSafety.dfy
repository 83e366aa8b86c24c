/** Safety of the pull engine over every interleaving: how many pulls of one image run at once, and
    that no image is left behind with an error nobody will act on. */
module PullEngineSafety {
  import opened Basics
  import opened PullStatus
  import opened PullEngine
  import opened PullEngineShape

  // ---- how many pulls are in flight ----------------------------------------------------------

  /** The worker is between TryStartPulling and StopPulling on entry e. */
  predicate HoldsMark(pc: Pc, e: EntryId) {
    match pc
    case Confirm(x) => x == e
    case Pull(x) => x == e
    case Unmark(x, _) => x == e
    case _ => false
  }

  function InFlight(s: Engine, e: EntryId): set<Task> {
    set t | t in s.workers && HoldsMark(s.workers[t], e)
  }

  function Bit(b: bool): nat { if b then 1 else 0 }

  /** With f pulls in flight, mark b and d deletions handled on the entry: b <= f <= b + d. */
  predicate MarkBounds(s: Engine, e: EntryId)
    requires e in s.entries
  {
    Bit(s.entries[e].pull.pulling) <= |InFlight(s, e)| <= Bit(s.entries[e].pull.pulling) + s.entries[e].cleared
  }

  predicate AllBounded(s: Engine) {
    forall e :: e in s.entries ==> MarkBounds(s, e)
  }

  lemma MarkTaken(s: Engine, s': Engine, t: Task, e: EntryId)
    requires t in s.workers && s'.workers == s.workers[t := Confirm(e)] && !HoldsMark(s.workers[t], e)
    ensures InFlight(s', e) == InFlight(s, e) + {t} && |InFlight(s', e)| == |InFlight(s, e)| + 1
  {
    assert InFlight(s', e) == InFlight(s, e) + {t};
  }

  lemma MarkReturned(s: Engine, s': Engine, t: Task, e: EntryId, pc: Pc)
    requires t in s.workers && s'.workers == s.workers[t := pc] && HoldsMark(s.workers[t], e) && !HoldsMark(pc, e)
    ensures |InFlight(s', e)| == |InFlight(s, e)| - 1
  {
    assert InFlight(s', e) == InFlight(s, e) - {t};
  }

  /** A step that moves workers only between places that agree on the mark changes no count. */
  lemma SameMarks(s: Engine, s': Engine, e: EntryId)
    requires forall t :: (t in s.workers && HoldsMark(s.workers[t], e)) <==>
               (t in s'.workers && HoldsMark(s'.workers[t], e))
    ensures InFlight(s', e) == InFlight(s, e)
  {
  }

  lemma TryKeepsBound(s: Engine, t: Task, answer: Answer, e: EntryId)
    requires t in s.workers && s.workers[t].Try? && Grounded(s, s.workers[t]) && e in s.entries && MarkBounds(s, e)
    ensures MarkBounds(WorkStep(s, t, answer), e)
  {
    var s' := WorkStep(s, t, answer);
    var x := s.workers[t].entry;
    if x == e && !s.entries[e].pull.pulling {
      MarkTaken(s, s', t, e);
    } else {
      SameMarks(s, s', e);
    }
  }

  lemma UnmarkKeepsBound(s: Engine, t: Task, answer: Answer, e: EntryId)
    requires t in s.workers && s.workers[t].Unmark? && Grounded(s, s.workers[t]) && e in s.entries && MarkBounds(s, e)
    ensures MarkBounds(WorkStep(s, t, answer), e)
  {
    var s' := WorkStep(s, t, answer);
    if s.workers[t].entry == e {
      MarkReturned(s, s', t, e, s'.workers[t]);
    } else {
      SameMarks(s, s', e);
    }
  }

  lemma PlainWorkKeepsBound(s: Engine, t: Task, answer: Answer, e: EntryId)
    requires t in s.workers && Grounded(s, s.workers[t]) && e in s.entries && MarkBounds(s, e)
    requires !s.workers[t].Try? && !s.workers[t].Unmark? && !s.workers[t].Enter?
    ensures MarkBounds(WorkStep(s, t, answer), e)
  {
    var s' := WorkStep(s, t, answer);
    SameMarks(s, s', e);
    assert s'.entries[e].pull.pulling == s.entries[e].pull.pulling && s'.entries[e].cleared == s.entries[e].cleared;
  }

  lemma EnterKeepsBound(s: Engine, t: Task, answer: Answer, e: EntryId)
    requires t in s.workers && s.workers[t].Enter? && Grounded(s, s.workers[t]) && e in s.entries && MarkBounds(s, e)
    requires Shape(s)
    ensures MarkBounds(WorkStep(s, t, answer), e)
  {
    SameMarks(s, WorkStep(s, t, answer), e);
  }

  /** A new entry is unmarked and no worker can hold it yet. */
  lemma NewEntryBounded(s: Engine, tbl: TableId, ref: string)
    requires Shape(s) && tbl in s.tables && ref !in s.tables[tbl]
    ensures var e := WithEntry(s, tbl, ref).1; e !in s.entries && InFlight(s, e) == {}
  {
    var e := WithEntry(s, tbl, ref).1;
    forall t | t in s.workers ensures !HoldsMark(s.workers[t], e) { assert Owned(s, t, s.workers[t]); }
  }

  lemma QuietKeepsBound(s: Engine, a: Action, e: EntryId)
    requires Enabled(s, a) && Shape(s) && !a.Work? && e in s.entries && MarkBounds(s, e)
    ensures e in Do(s, a).entries && MarkBounds(Do(s, a), e)
  {
    SameMarks(s, Do(s, a), e);
  }

  lemma FreshKeepsBound(s: Engine, tbl: TableId, ref: string, e: EntryId, s': Engine)
    requires Shape(s) && tbl in s.tables && e !in s.entries && e in WithEntry(s, tbl, ref).0.entries
    requires s'.entries == WithEntry(s, tbl, ref).0.entries
    requires forall t :: (t in s.workers && HoldsMark(s.workers[t], e)) <==>
               (t in s'.workers && HoldsMark(s'.workers[t], e))
    ensures MarkBounds(s', e)
  {
    NewEntryBounded(s, tbl, ref);
    SameMarks(s, s', e);
  }

  lemma NewKeepsBound(s: Engine, a: Action, e: EntryId)
    requires Enabled(s, a) && Shape(s) && e !in s.entries && e in Do(s, a).entries
    ensures MarkBounds(Do(s, a), e)
  {
    if a.AddRef? {
      FreshKeepsBound(s, s.status[a.name], a.ref, e, Do(s, a));
    } else {
      NewByWork(s, a.task, a.answer, e);
    }
  }

  lemma NewByWork(s: Engine, t: Task, answer: Answer, e: EntryId)
    requires t in s.workers && Grounded(s, s.workers[t]) && Shape(s) && e !in s.entries
             && e in WorkStep(s, t, answer).entries
    ensures MarkBounds(WorkStep(s, t, answer), e)
  {
    assert s.workers[t].Enter?;
    FreshKeepsBound(s, s.workers[t].table, t.ref, e, WorkStep(s, t, answer));
  }

  lemma WorkKeepsBound(s: Engine, t: Task, answer: Answer, e: EntryId)
    requires Shape(s) && t in s.workers && Grounded(s, s.workers[t]) && e in s.entries && MarkBounds(s, e)
    ensures e in WorkStep(s, t, answer).entries && MarkBounds(WorkStep(s, t, answer), e)
  {
    if s.workers[t].Try? {
      TryKeepsBound(s, t, answer, e);
    } else if s.workers[t].Unmark? {
      UnmarkKeepsBound(s, t, answer, e);
    } else if s.workers[t].Enter? {
      EnterKeepsBound(s, t, answer, e);
    } else {
      PlainWorkKeepsBound(s, t, answer, e);
    }
  }

  lemma StepKeepsBounded(s: Engine, a: Action)
    requires Shape(s) && AllBounded(s) && Enabled(s, a)
    ensures AllBounded(Do(s, a))
  {
    forall e | e in Do(s, a).entries ensures MarkBounds(Do(s, a), e) {
      if e !in s.entries {
        NewKeepsBound(s, a, e);
      } else if a.Work? {
        WorkKeepsBound(s, a.task, a.answer, e);
      } else {
        QuietKeepsBound(s, a, e);
      }
    }
  }

  // ---- no image is stranded ------------------------------------------------------------------

  predicate Tracked(s: Engine, e: EntryId) {
    && e.table.owner in s.status && s.status[e.table.owner] == e.table
    && e.table in s.tables && e.ref in s.tables[e.table] && s.tables[e.table][e.ref] == e
  }

  /** From here the worker will start over, or finish its attempt on e, rather than drop its task. */
  predicate Presses(pc: Pc, e: EntryId) {
    match pc
    case Check => true
    case Load => true
    case Recheck(tbl) => tbl == e.table
    case Enter(tbl) => tbl == e.table
    case Try(x) => x == e
    case Confirm(x) => x == e
    case Pull(x) => x == e
    case Unmark(_, next) => next != Succeed
    case SetErr(_, _) => true
    case Requeue => true
    case Leave => false
  }

  /** Task t will make sure of entry e. */
  predicate Covers(s: Engine, t: Task, e: EntryId) {
    && t.owner == e.table.owner && t.ref == e.ref
    && (t in s.queued || t in s.delayed || (t in s.workers && Presses(s.workers[t], e)))
  }

  /** The deletion handler has yet to clear e's error, or e's mark. */
  predicate SweepClears(s: Engine, e: EntryId) {
    s.sweep.Sweeping? && s.sweep.ref == e.ref && (e.table in s.sweep.todo || s.sweep.at == Some(e))
  }

  predicate SweepUnmarks(s: Engine, e: EntryId) {
    s.sweep.Sweeping? && s.sweep.ref == e.ref
        && (e.table in s.sweep.todo || (s.sweep.at == Some(e) && !s.sweep.markCleared))
  }

  /** The ways other than a task in which e is looked after. */
  predicate Safe(s: Engine, e: EntryId) {
    e.ref in s.images || e.ref in s.deletions || SweepClears(s, e)
  }

  ghost predicate ErrorCovered(s: Engine, e: EntryId) {
    Safe(s, e) || exists t :: Covers(s, t, e)
  }

  ghost predicate MarkHeld(s: Engine, e: EntryId, t: Task) {
    && t in s.workers && HoldsMark(s.workers[t], e) && t.owner == e.table.owner && t.ref == e.ref
    && (Presses(s.workers[t], e) || e.ref in s.images || e.ref in s.deletions || SweepUnmarks(s, e))
  }

  ghost predicate ErrorsInv(s: Engine) {
    forall e :: e in s.entries && Tracked(s, e) && s.entries[e].pull.error.Some? ==> ErrorCovered(s, e)
  }

  ghost predicate MarksInv(s: Engine) {
    forall e :: e in s.entries && Tracked(s, e) && s.entries[e].pull.pulling ==> exists t :: MarkHeld(s, e, t)
  }

  ghost predicate Inv(s: Engine) {
    Shape(s) && AllBounded(s) && ErrorsInv(s) && MarksInv(s)
  }

  // ---- workers -------------------------------------------------------------------------------

  /** The worker covering e goes on covering it, or leaves its task waiting out a delay, unless it
      finds the mark taken, finds the image, or has just pulled it. */
  lemma WorkerGoesOn(s: Engine, t: Task, answer: Answer, e: EntryId)
    requires t in s.workers && Grounded(s, s.workers[t]) && Covers(s, t, e)
    requires e in s.entries && Tracked(s, e) && !(s.workers[t] == Try(e) && s.entries[e].pull.pulling)
    requires !Safe(WorkStep(s, t, answer), e)
    ensures Covers(WorkStep(s, t, answer), t, e)
  {
  }

  /** A worker that finds the mark taken hands over to the worker holding it. */
  lemma HandsToHolder(s: Engine, t: Task, answer: Answer, e: EntryId, u: Task)
    requires t in s.workers && s.workers[t] == Try(e) && Grounded(s, s.workers[t])
    requires e in s.entries && s.entries[e].pull.pulling && MarkHeld(s, e, u)
    ensures ErrorCovered(WorkStep(s, t, answer), e)
  {
    var s' := WorkStep(s, t, answer);
    assert u != t && s'.workers[u] == s.workers[u];
    if Presses(s.workers[u], e) { assert Covers(s', u, e); }
  }

  lemma WorkerHandsOver(s: Engine, t: Task, answer: Answer, e: EntryId)
    requires MarksInv(s) && t in s.workers && Grounded(s, s.workers[t]) && e in s.entries && Tracked(s, e)
    requires Covers(s, t, e)
    ensures ErrorCovered(WorkStep(s, t, answer), e)
  {
    if s.workers[t] == Try(e) && s.entries[e].pull.pulling {
      var u :| MarkHeld(s, e, u);
      HandsToHolder(s, t, answer, e, u);
    } else if !Safe(WorkStep(s, t, answer), e) {
      WorkerGoesOn(s, t, answer, e);
    }
  }

  lemma OthersStill(s: Engine, t: Task, answer: Answer, u: Task, e: EntryId)
    requires t in s.workers && Grounded(s, s.workers[t]) && u != t && Covers(s, u, e)
    ensures Covers(WorkStep(s, t, answer), u, e)
  {
  }

  lemma WorkTracks(s: Engine, t: Task, answer: Answer, e: EntryId)
    requires Shape(s) && t in s.workers && Grounded(s, s.workers[t]) && e in s.entries
    ensures Tracked(WorkStep(s, t, answer), e) ==> Tracked(s, e)
  {
    assert Owned(s, t, s.workers[t]);
  }

  lemma NewErrorIsCovered(s: Engine, t: Task, answer: Answer, e: EntryId)
    requires Shape(s) && t in s.workers && Grounded(s, s.workers[t])
    requires e in s.entries ==> s.entries[e].pull.error.None?
    requires var s' := WorkStep(s, t, answer); e in s'.entries && s'.entries[e].pull.error.Some?
    ensures Covers(WorkStep(s, t, answer), t, e)
  {
    assert Owned(s, t, s.workers[t]);
    if e !in s.entries {
      FreshEntryIsUnmarked(s, t, answer, e);
      assert false;
    }
    assert s.workers[t].SetErr?;
  }

  lemma WorkKeepsSafe(s: Engine, t: Task, answer: Answer, e: EntryId)
    requires t in s.workers && Grounded(s, s.workers[t]) && Safe(s, e)
    ensures Safe(WorkStep(s, t, answer), e)
  {
  }

  lemma WorkKeepsErrors(s: Engine, t: Task, answer: Answer, e: EntryId)
    requires Inv(s) && t in s.workers && Grounded(s, s.workers[t])
    requires var s' := WorkStep(s, t, answer); e in s'.entries && Tracked(s', e) && s'.entries[e].pull.error.Some?
    ensures ErrorCovered(WorkStep(s, t, answer), e)
  {
    if e !in s.entries || s.entries[e].pull.error.None? {
      NewErrorIsCovered(s, t, answer, e);
    } else {
      WorkTracks(s, t, answer, e);
      if Safe(s, e) {
        WorkKeepsSafe(s, t, answer, e);
      } else {
        var u :| Covers(s, u, e);
        if u == t { WorkerHandsOver(s, t, answer, e); } else { OthersStill(s, t, answer, u, e); }
      }
    }
  }

  lemma HolderGoesOn(s: Engine, t: Task, answer: Answer, e: EntryId)
    requires t in s.workers && Grounded(s, s.workers[t]) && e in s.entries && MarkHeld(s, e, t)
    requires var s' := WorkStep(s, t, answer); e in s'.entries && s'.entries[e].pull.pulling
    ensures MarkHeld(WorkStep(s, t, answer), e, t)
  {
  }

  lemma OtherHolderStays(s: Engine, t: Task, answer: Answer, e: EntryId, u: Task)
    requires t in s.workers && Grounded(s, s.workers[t]) && u != t && MarkHeld(s, e, u)
    ensures MarkHeld(WorkStep(s, t, answer), e, u)
  {
    var s' := WorkStep(s, t, answer);
    assert s'.workers[u] == s.workers[u] && s.images <= s'.images && s'.deletions == s.deletions && s'.sweep == s.sweep;
  }

  lemma NewMark(s: Engine, t: Task, answer: Answer, e: EntryId)
    requires Shape(s) && t in s.workers && Grounded(s, s.workers[t]) && e in s.entries && !s.entries[e].pull.pulling
    requires var s' := WorkStep(s, t, answer); e in s'.entries && s'.entries[e].pull.pulling
    ensures MarkHeld(WorkStep(s, t, answer), e, t)
  {
    assert Owned(s, t, s.workers[t]);
  }

  lemma FreshEntryIsUnmarked(s: Engine, t: Task, answer: Answer, e: EntryId)
    requires t in s.workers && Grounded(s, s.workers[t]) && e !in s.entries && e in WorkStep(s, t, answer).entries
    ensures WorkStep(s, t, answer).entries[e].pull == UNPULLED
  {
    assert s.workers[t].Enter?;
  }

  lemma WorkKeepsMarks(s: Engine, t: Task, answer: Answer, e: EntryId)
    requires Shape(s) && MarksInv(s) && t in s.workers && Grounded(s, s.workers[t])
    requires var s' := WorkStep(s, t, answer); e in s'.entries && Tracked(s', e) && s'.entries[e].pull.pulling
    ensures exists u :: MarkHeld(WorkStep(s, t, answer), e, u)
  {
    if e !in s.entries {
      FreshEntryIsUnmarked(s, t, answer, e);
    } else if !s.entries[e].pull.pulling {
      NewMark(s, t, answer, e);
    } else {
      WorkTracks(s, t, answer, e);
      var u :| MarkHeld(s, e, u);
      if u == t { HolderGoesOn(s, t, answer, e); } else { OtherHolderStays(s, t, answer, e, u); }
    }
  }

  // ---- everything else -----------------------------------------------------------------------

  lemma EntryTracks(s: Engine, tbl: TableId, ref: string, e: EntryId)
    requires TablesOk(s) && tbl in s.tables && e in s.entries && Tracked(WithEntry(s, tbl, ref).0, e)
    ensures Tracked(s, e)
  {
  }

  lemma QuietTracks(s: Engine, a: Action, e: EntryId)
    requires Shape(s) && Enabled(s, a) && !a.Work? && e in s.entries && Tracked(Do(s, a), e)
    ensures Tracked(s, e)
  {
    if a.AddRef? { EntryTracks(s, s.status[a.name], a.ref, e); }
  }

  lemma QuietCovers(s: Engine, a: Action, t: Task, e: EntryId)
    requires Enabled(s, a) && !a.Work? && Covers(s, t, e)
    ensures Covers(Do(s, a), t, e)
  {
  }

  lemma SweepKeepsSafe(s: Engine, a: Action, e: EntryId)
    requires Enabled(s, a) && IsSweepStep(a) && Tracked(s, e) && Safe(s, e)
    requires e in Do(s, a).entries && Do(s, a).entries[e].pull.error.Some?
    ensures Safe(Do(s, a), e)
  {
    if a.TakeDeletion? {
      assert e.table in s.status.Values;
      assert s.deletions == [s.deletions[0]] + s.deletions[1..];
    } else if a.SkipGone? {
      assert s.status[e.table.owner] in s.status.Values;
    }
  }

  lemma QuietKeepsSafe(s: Engine, a: Action, e: EntryId)
    requires Enabled(s, a) && !a.Work? && Tracked(s, e) && Safe(s, e)
    requires e in Do(s, a).entries && Do(s, a).entries[e].pull.error.Some?
    ensures Safe(Do(s, a), e)
  {
    if IsSweepStep(a) {
      SweepKeepsSafe(s, a, e);
    } else if a.ImageRemoved? {
      assert Do(s, a).deletions[|s.deletions|] == a.ref;
    }
  }

  lemma QuietErrors(s: Engine, a: Action, e: EntryId)
    requires Enabled(s, a) && !a.Work? && e in Do(s, a).entries && Do(s, a).entries[e].pull.error.Some?
    ensures e in s.entries && s.entries[e].pull.error.Some?
  {
  }

  lemma QuietKeepsErrors(s: Engine, a: Action, e: EntryId)
    requires Shape(s) && ErrorsInv(s) && Enabled(s, a) && !a.Work?
    requires e in Do(s, a).entries && Tracked(Do(s, a), e) && Do(s, a).entries[e].pull.error.Some?
    ensures ErrorCovered(Do(s, a), e)
  {
    QuietErrors(s, a, e);
    QuietTracks(s, a, e);
    if Safe(s, e) {
      QuietKeepsSafe(s, a, e);
    } else {
      var t :| Covers(s, t, e);
      QuietCovers(s, a, t, e);
    }
  }

  lemma QuietMarks(s: Engine, a: Action, e: EntryId)
    requires Enabled(s, a) && !a.Work? && e in Do(s, a).entries && Do(s, a).entries[e].pull.pulling
    ensures e in s.entries && s.entries[e].pull.pulling
  {
  }

  lemma SweepHolderStays(s: Engine, a: Action, e: EntryId, t: Task)
    requires Enabled(s, a) && IsSweepStep(a) && Tracked(s, e) && MarkHeld(s, e, t)
    requires e in Do(s, a).entries && Do(s, a).entries[e].pull.pulling
    ensures MarkHeld(Do(s, a), e, t)
  {
    if a.TakeDeletion? {
      assert e.table in s.status.Values;
      assert s.deletions == [s.deletions[0]] + s.deletions[1..];
    } else if a.SkipGone? {
      assert s.status[e.table.owner] in s.status.Values;
    }
  }

  lemma QuietHolderStays(s: Engine, a: Action, e: EntryId, t: Task)
    requires Enabled(s, a) && !a.Work? && Tracked(s, e) && MarkHeld(s, e, t)
    requires e in Do(s, a).entries && Do(s, a).entries[e].pull.pulling
    ensures MarkHeld(Do(s, a), e, t)
  {
    if IsSweepStep(a) {
      SweepHolderStays(s, a, e, t);
    } else if a.ImageRemoved? {
      assert Do(s, a).deletions[|s.deletions|] == a.ref;
    }
  }

  lemma QuietKeepsMarks(s: Engine, a: Action, e: EntryId)
    requires Shape(s) && MarksInv(s) && Enabled(s, a) && !a.Work?
    requires e in Do(s, a).entries && Tracked(Do(s, a), e) && Do(s, a).entries[e].pull.pulling
    ensures exists t :: MarkHeld(Do(s, a), e, t)
  {
    QuietMarks(s, a, e);
    QuietTracks(s, a, e);
    var t :| MarkHeld(s, e, t);
    QuietHolderStays(s, a, e, t);
  }

  lemma {:induction false} StepKeepsInv(s: Engine, a: Action)
    requires Inv(s) && Enabled(s, a)
    ensures Inv(Do(s, a))
  {
    var s' := Do(s, a);
    StepKeepsShape(s, a);
    StepKeepsBounded(s, a);
    forall e | e in s'.entries && Tracked(s', e) && s'.entries[e].pull.error.Some? ensures ErrorCovered(s', e) {
      if a.Work? { WorkKeepsErrors(s, a.task, a.answer, e); } else { QuietKeepsErrors(s, a, e); }
    }
    forall e | e in s'.entries && Tracked(s', e) && s'.entries[e].pull.pulling ensures exists t :: MarkHeld(s', e, t) {
      if a.Work? { WorkKeepsMarks(s, a.task, a.answer, e); } else { QuietKeepsMarks(s, a, e); }
    }
  }
}
