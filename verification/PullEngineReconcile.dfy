/** What a reconciliation achieves while everything else goes on: an image it enqueued, or had no need
    to enqueue, stays accounted for. */
module PullEngineReconcile {
  import opened Basics
  import opened Cluster
  import opened PullStatus
  import opened PullEngine
  import opened PullEngineShape
  import opened PullEngineSafety
  import opened PullEngineRuns

  predicate IsTable(s: Engine, tbl: TableId, name: string) {
    name in s.status && s.status[name] == tbl
  }

  /** From here a worker for this set and image starts over, or finishes its attempt on what is
      tracked now, rather than drop its task. */
  predicate PressesOn(s: Engine, pc: Pc, name: string, ref: string) {
    match pc
    case Check => true
    case Load => true
    case Recheck(tbl) => IsTable(s, tbl, name)
    case Enter(tbl) => IsTable(s, tbl, name)
    case Try(e) => IsEntryFor(s, e, name, ref)
    case Confirm(e) => IsEntryFor(s, e, name, ref)
    case Pull(e) => IsEntryFor(s, e, name, ref)
    case Unmark(_, next) => next != Succeed
    case SetErr(_, _) => true
    case Requeue => true
    case Leave => false
  }

  predicate SeesTo(s: Engine, t: Task, name: string, ref: string) {
    && t.owner == name && t.ref == ref
    && (t in s.queued || t in s.delayed || (t in s.workers && PressesOn(s, s.workers[t], name, ref)))
  }

  /** The image of the tracked set is present, or a deletion of it is still to be handled, or a task
      will see to it. */
  ghost predicate Accounted(s: Engine, name: string, ref: string) {
    && name in s.status
    && (ref in s.images || DeletionUnhandled(s, ref) || exists t :: SeesTo(s, t, name, ref))
  }

  /** The steps after which a set's image needs a new look: the set is dropped, the image is dropped
      from its table, or a deletion of the image has been handled, which notifies the controller. */
  predicate Disturbs(a: Action, name: string, ref: string) {
    a == UntrackSet(name) || a == DropRef(name, ref) || a == EndSweep(ref)
  }

  // ---- one step ------------------------------------------------------------------------------

  lemma EntryStaysSeen(s: Engine, tbl: TableId, pc: Pc, other: string, name: string, ref: string)
    requires Shape(s) && tbl in s.tables && PressesOn(s, pc, name, ref)
    ensures PressesOn(WithEntry(s, tbl, other).0, pc, name, ref)
  {
  }

  lemma QuietStaysSeen(s: Engine, a: Action, t: Task, name: string, ref: string)
    requires Shape(s) && Enabled(s, a) && !a.Work? && !Disturbs(a, name, ref) && name in s.status
             && SeesTo(s, t, name, ref)
    ensures SeesTo(Do(s, a), t, name, ref)
  {
    if a.AddRef? && t in s.workers && PressesOn(s, s.workers[t], name, ref) {
      EntryStaysSeen(s, s.status[a.name], s.workers[t], a.ref, name, ref);
    } else if a.DropRef? {
      assert a.name != name ==> s.status[a.name] != s.status[name];
    }
  }

  lemma QuietStaysAccounted(s: Engine, a: Action, name: string, ref: string)
    requires Shape(s) && Enabled(s, a) && !a.Work? && !Disturbs(a, name, ref) && Accounted(s, name, ref)
    ensures Accounted(Do(s, a), name, ref)
  {
    var s' := Do(s, a);
    assert name in s'.status;
    if ref in s.images {
      if a.ImageRemoved? { assert s'.deletions[|s.deletions|] == a.ref; }
    } else if DeletionUnhandled(s, ref) {
      if a.TakeDeletion? { assert s.deletions == [s.deletions[0]] + s.deletions[1..]; }
    } else {
      var t :| SeesTo(s, t, name, ref);
      QuietStaysSeen(s, a, t, name, ref);
    }
  }

  lemma WorkLeavesPressing(s: Engine, u: Task, answer: Answer, pc: Pc, name: string, ref: string)
    requires Shape(s) && u in s.workers && Grounded(s, s.workers[u]) && PressesOn(s, pc, name, ref)
    ensures PressesOn(WorkStep(s, u, answer), pc, name, ref)
  {
    if s.workers[u].Enter? { EntryStaysSeen(s, s.workers[u].table, pc, u.ref, name, ref); }
  }

  /** Another worker's step takes nothing away from a task that sees to the image. */
  lemma OtherStaysSeen(s: Engine, u: Task, answer: Answer, t: Task, name: string, ref: string)
    requires Shape(s) && u in s.workers && Grounded(s, s.workers[u]) && t != u && SeesTo(s, t, name, ref)
    ensures SeesTo(WorkStep(s, u, answer), t, name, ref)
  {
    if t in s.workers && PressesOn(s, s.workers[t], name, ref) {
      WorkLeavesPressing(s, u, answer, s.workers[t], name, ref);
    }
  }

  /** A worker goes on seeing to its image unless it finds the mark taken or the image is there. */
  lemma WorkerStaysSeen(s: Engine, t: Task, answer: Answer, name: string, ref: string)
    requires Shape(s) && t in s.workers && Grounded(s, s.workers[t]) && name in s.status && SeesTo(s, t, name, ref)
    requires t !in s.queued && t !in s.delayed && !(s.workers[t].Try? && s.entries[s.workers[t].entry].pull.pulling)
    requires ref !in WorkStep(s, t, answer).images
    ensures SeesTo(WorkStep(s, t, answer), t, name, ref)
  {
    if s.workers[t].Enter? { EnterFindsEntry(s, t, name, ref); }
  }

  lemma EnterFindsEntry(s: Engine, t: Task, name: string, ref: string)
    requires Shape(s) && t in s.workers && s.workers[t].Enter? && IsTable(s, s.workers[t].table, name) && t.ref == ref
    requires s.workers[t].table in s.tables
    ensures var (s', e) := WithEntry(s, s.workers[t].table, ref); IsEntryFor(s', e, name, ref)
  {
  }

  /** A worker that finds the mark taken leaves the image to the worker holding it. */
  lemma HolderSeesTo(s: Engine, t: Task, answer: Answer, name: string, ref: string)
    requires Inv(s) && t in s.workers && Grounded(s, s.workers[t]) && name in s.status && t.owner == name
             && t.ref == ref
    requires s.workers[t].Try? && IsEntryFor(s, s.workers[t].entry, name, ref)
             && s.entries[s.workers[t].entry].pull.pulling
    ensures Accounted(WorkStep(s, t, answer), name, ref)
  {
    var s', e := WorkStep(s, t, answer), s.workers[t].entry;
    assert Owned(s, t, s.workers[t]);
    assert Tracked(s, e);
    var u :| MarkHeld(s, e, u);
    assert u != t && s'.workers[u] == s.workers[u];
    if Presses(s.workers[u], e) { assert SeesTo(s', u, name, ref); }
  }

  lemma WorkStaysAccounted(s: Engine, u: Task, answer: Answer, name: string, ref: string)
    requires Inv(s) && u in s.workers && Grounded(s, s.workers[u]) && Accounted(s, name, ref)
    ensures Accounted(WorkStep(s, u, answer), name, ref)
  {
    var s' := WorkStep(s, u, answer);
    if ref !in s'.images && !DeletionUnhandled(s', ref) {
      var t :| SeesTo(s, t, name, ref);
      if t != u {
        OtherStaysSeen(s, u, answer, t, name, ref);
      } else if t in s.queued || t in s.delayed || !s.workers[t].Try? || !s.entries[s.workers[t].entry].pull.pulling {
        SeenOnward(s, t, answer, name, ref);
      } else {
        HolderSeesTo(s, t, answer, name, ref);
      }
    }
  }

  lemma SeenOnward(s: Engine, t: Task, answer: Answer, name: string, ref: string)
    requires Shape(s) && t in s.workers && Grounded(s, s.workers[t]) && name in s.status && SeesTo(s, t, name, ref)
    requires t in s.queued || t in s.delayed || !s.workers[t].Try? || !s.entries[s.workers[t].entry].pull.pulling
    requires ref !in WorkStep(s, t, answer).images
    ensures SeesTo(WorkStep(s, t, answer), t, name, ref)
  {
    if !(t in s.queued || t in s.delayed) { WorkerStaysSeen(s, t, answer, name, ref); }
  }

  lemma StepStaysAccounted(s: Engine, a: Action, name: string, ref: string)
    requires Inv(s) && Enabled(s, a) && !Disturbs(a, name, ref) && Accounted(s, name, ref)
    ensures Accounted(Do(s, a), name, ref)
  {
    if a.Work? { WorkStaysAccounted(s, a.task, a.answer, name, ref); } else { QuietStaysAccounted(s, a, name, ref); }
  }

  // ---- whole runs ----------------------------------------------------------------------------

  predicate Undisturbed(actions: seq<Action>, name: string, ref: string) {
    forall a :: a in actions ==> !Disturbs(a, name, ref)
  }

  lemma {:induction false} StaysAccounted(s: Engine, actions: seq<Action>, t: Engine, name: string, ref: string)
    requires Inv(s) && Steps(s, actions, t) && Undisturbed(actions, name, ref) && Accounted(s, name, ref)
    ensures Accounted(t, name, ref)
    decreases |actions|
  {
    if actions != [] {
      var mid :| Leads(s, actions[0], mid) && Steps(mid, actions[1..], t);
      assert actions[0] in actions;
      StepStaysAccounted(s, actions[0], name, ref);
      StepKeepsInv(s, actions[0]);
      StaysAccounted(mid, actions[1..], t, name, ref);
    }
  }

  lemma StaysTracked(s: Engine, a: Action, name: string)
    requires Enabled(s, a) && name in s.status && a != UntrackSet(name)
    ensures name in Do(s, a).status
  {
  }

  lemma {:induction false} EnqueuedIsAccounted(s: Engine, actions: seq<Action>, t: Engine, task: Task)
    requires Inv(s) && Steps(s, actions, t) && task.owner in s.status
    requires Enqueue(task) in actions && Undisturbed(actions, task.owner, task.ref)
    ensures Accounted(t, task.owner, task.ref)
    decreases |actions|
  {
    var mid :| Leads(s, actions[0], mid) && Steps(mid, actions[1..], t);
    assert actions[0] in actions && actions == [actions[0]] + actions[1..];
    StepKeepsInv(s, actions[0]);
    StaysTracked(s, actions[0], task.owner);
    if actions[0] == Enqueue(task) {
      assert SeesTo(mid, task, task.owner, task.ref);
      StaysAccounted(mid, actions[1..], t, task.owner, task.ref);
    } else {
      EnqueuedIsAccounted(mid, actions[1..], t, task);
    }
  }

  // ---- reading the state of an image ---------------------------------------------------------

  /** Where a status request stands: it looks up the table, asks containerd, looks up the entry, then
      reads its mark and its error, and everything else goes on in between. */
  datatype Reader =
    | AtTable
    | AtImage(table: TableId)
    | AtEntry(table: TableId)
    | AtMark(entry: EntryId)
    | AtError(entry: EntryId)
    | Answered(state: ImageState)
    | GaveUp

  /** The objects the reader holds pointers to exist. */
  predicate CanLook(s: Engine, r: Reader) {
    match r
    case AtEntry(tbl) => tbl in s.tables
    case AtMark(e) => e in s.entries
    case AtError(e) => e in s.entries
    case _ => true
  }

  /** One access of the reader; containerd may fail to answer. */
  function Look(s: Engine, r: Reader, fails: bool, name: string, ref: string, policy: RegistryPolicy): Reader
    requires CanLook(s, r)
  {
    match r
    case AtTable => if name in s.status then AtImage(s.status[name]) else Answered(Untracked)
    case AtImage(tbl) => if fails then GaveUp else if ref in s.images then Answered(Downloaded) else AtEntry(tbl)
    case AtEntry(tbl) => if ref in s.tables[tbl] then AtMark(s.tables[tbl][ref]) else Answered(Waiting)
    case AtMark(e) => if s.entries[e].pull.pulling then Answered(InProgress) else AtError(e)
    case AtError(e) => Answered(ReportedState(false, Some(s.entries[e].pull.(pulling := false)), policy))
    case _ => r
  }

  /** Undisturbed, the reader answers what the state is. */
  lemma LooksAreReported(s: Engine, name: string, ref: string, policy: RegistryPolicy)
    requires Shape(s)
    ensures var r1 := Look(s, AtTable, false, name, ref, policy);
            var r2 := Look(s, r1, false, name, ref, policy);
            CanLook(s, r2) &&
            var r3 := Look(s, r2, false, name, ref, policy);
            CanLook(s, r3) &&
            var r4 := Look(s, r3, false, name, ref, policy);
            CanLook(s, r4) && Look(s, r4, false, name, ref, policy) == Answered(Reported(s, name, ref, policy))
  {
    if name in s.status && ref !in s.images && ref in s.tables[s.status[name]] {
      assert s.tables[s.status[name]][ref] in s.entries;
    }
  }

  /** What the reader holds is what is tracked, and what it answered is accounted for. */
  ghost predicate ReaderSound(s: Engine, r: Reader, name: string, ref: string) {
    name in s.status &&
    match r
    case AtTable => true
    case AtImage(tbl) => IsTable(s, tbl, name)
    case AtEntry(tbl) => IsTable(s, tbl, name)
    case AtMark(e) => IsEntryFor(s, e, name, ref)
    case AtError(e) => IsEntryFor(s, e, name, ref)
    case Answered(state) => state != Untracked && (state != Waiting ==> Accounted(s, name, ref))
    case GaveUp => true
  }

  lemma MarkIsAccounted(s: Engine, e: EntryId, name: string, ref: string)
    requires Inv(s) && IsEntryFor(s, e, name, ref) && s.entries[e].pull.pulling
    ensures Accounted(s, name, ref)
  {
    assert Tracked(s, e);
    var u :| MarkHeld(s, e, u);
    if Presses(s.workers[u], e) { assert SeesTo(s, u, name, ref); }
  }

  lemma ErrorIsAccounted(s: Engine, e: EntryId, name: string, ref: string)
    requires Inv(s) && IsEntryFor(s, e, name, ref) && s.entries[e].pull.error.Some?
    ensures Accounted(s, name, ref)
  {
    assert Tracked(s, e) && ErrorCovered(s, e);
    if !Safe(s, e) {
      var u :| Covers(s, u, e);
      assert SeesTo(s, u, name, ref);
    }
  }

  lemma LookKeepsSound(s: Engine, r: Reader, fails: bool, name: string, ref: string, policy: RegistryPolicy)
    requires Inv(s) && CanLook(s, r) && ReaderSound(s, r, name, ref)
    ensures ReaderSound(s, Look(s, r, fails, name, ref, policy), name, ref)
  {
    if r.AtMark? && s.entries[r.entry].pull.pulling { MarkIsAccounted(s, r.entry, name, ref); }
    if r.AtError? && s.entries[r.entry].pull.error.Some? { ErrorIsAccounted(s, r.entry, name, ref); }
  }

  lemma EntryStaysTracked(s: Engine, tbl: TableId, other: string, e: EntryId, name: string, ref: string)
    requires tbl in s.tables && IsEntryFor(s, e, name, ref)
    ensures IsEntryFor(WithEntry(s, tbl, other).0, e, name, ref)
  {
  }

  lemma WorkKeepsEntry(s: Engine, u: Task, answer: Answer, e: EntryId, name: string, ref: string)
    requires u in s.workers && Grounded(s, s.workers[u]) && IsEntryFor(s, e, name, ref)
    ensures IsEntryFor(WorkStep(s, u, answer), e, name, ref)
  {
    if s.workers[u].Enter? { EntryStaysTracked(s, s.workers[u].table, u.ref, e, name, ref); }
  }

  lemma StepKeepsEntry(s: Engine, a: Action, e: EntryId, name: string, ref: string)
    requires Shape(s) && Enabled(s, a) && !Disturbs(a, name, ref) && IsEntryFor(s, e, name, ref)
    ensures IsEntryFor(Do(s, a), e, name, ref)
  {
    match a
    case Work(u, answer) => WorkKeepsEntry(s, u, answer, e, name, ref);
    case AddRef(n, r) => EntryStaysTracked(s, s.status[n], r, e, name, ref);
    case DropRef(n, _) => assert n != name ==> s.status[n] != s.status[name];
    case _ =>
  }

  lemma StepKeepsTable(s: Engine, a: Action, tbl: TableId, name: string)
    requires Enabled(s, a) && a != UntrackSet(name) && IsTable(s, tbl, name)
    ensures IsTable(Do(s, a), tbl, name)
  {
  }

  lemma StepKeepsSound(s: Engine, a: Action, r: Reader, name: string, ref: string)
    requires Inv(s) && Enabled(s, a) && !Disturbs(a, name, ref) && ReaderSound(s, r, name, ref)
    ensures ReaderSound(Do(s, a), r, name, ref)
  {
    StepKeepsTable(s, a, s.status[name], name);
    match r
    case AtMark(e) => StepKeepsEntry(s, a, e, name, ref);
    case AtError(e) => StepKeepsEntry(s, a, e, name, ref);
    case Answered(state) => if state != Waiting { StepStaysAccounted(s, a, name, ref); }
    case _ =>
  }

  // ---- a reconciliation among everything else --------------------------------------------------

  /** A step of the engine, or an access of the reconciliation that reads the image's state. */
  datatype Move = Act(a: Action) | Access(fails: bool)

  ghost predicate Interleaved(s: Engine, r: Reader, moves: seq<Move>, t: Engine, q: Reader,
                              name: string, ref: string, policy: RegistryPolicy)
    decreases |moves|
  {
    if moves == [] then s == t && r == q
    else
      match moves[0]
      case Act(a) => exists mid :: Leads(s, a, mid) && Interleaved(mid, r, moves[1..], t, q, name, ref, policy)
      case Access(fails) =>
        CanLook(s, r) && Interleaved(s, Look(s, r, fails, name, ref, policy), moves[1..], t, q, name, ref, policy)
  }

  predicate UndisturbedMoves(moves: seq<Move>, name: string, ref: string) {
    forall m :: m in moves && m.Act? ==> !Disturbs(m.a, name, ref)
  }

  lemma {:induction false} MovesKeepSound(s: Engine, r: Reader, moves: seq<Move>, t: Engine, q: Reader,
                                          name: string, ref: string, policy: RegistryPolicy)
    requires Inv(s) && Interleaved(s, r, moves, t, q, name, ref, policy) && UndisturbedMoves(moves, name, ref)
    requires ReaderSound(s, r, name, ref)
    ensures ReaderSound(t, q, name, ref)
    decreases |moves|
  {
    if moves != [] {
      assert moves[0] in moves;
      match moves[0]
      case Act(a) =>
        var mid :| Leads(s, a, mid) && Interleaved(mid, r, moves[1..], t, q, name, ref, policy);
        StepKeepsSound(s, a, r, name, ref);
        StepKeepsInv(s, a);
        MovesKeepSound(mid, r, moves[1..], t, q, name, ref, policy);
      case Access(fails) =>
        LookKeepsSound(s, r, fails, name, ref, policy);
        MovesKeepSound(s, Look(s, r, fails, name, ref, policy), moves[1..], t, q, name, ref, policy);
    }
  }

  /** The engine steps of an interleaving, without the reader. */
  function Actions(moves: seq<Move>): seq<Action> {
    if moves == [] then [] else (if moves[0].Act? then [moves[0].a] else []) + Actions(moves[1..])
  }

  lemma {:induction false} ActionsAreSteps(s: Engine, r: Reader, moves: seq<Move>, t: Engine, q: Reader,
                                           name: string, ref: string, policy: RegistryPolicy)
    requires Interleaved(s, r, moves, t, q, name, ref, policy)
    ensures Steps(s, Actions(moves), t)
    ensures forall a :: a in Actions(moves) <==> Act(a) in moves
    decreases |moves|
  {
    if moves != [] {
      assert moves == [moves[0]] + moves[1..];
      match moves[0]
      case Act(a) =>
        var mid :| Leads(s, a, mid) && Interleaved(mid, r, moves[1..], t, q, name, ref, policy);
        ActionsAreSteps(mid, r, moves[1..], t, q, name, ref, policy);
        assert Actions(moves) == [a] + Actions(moves[1..]) && Actions(moves)[1..] == Actions(moves[1..]);
      case Access(fails) =>
        ActionsAreSteps(s, Look(s, r, fails, name, ref, policy), moves[1..], t, q, name, ref, policy);
        assert Actions(moves) == Actions(moves[1..]);
    }
  }

  /** A reconciliation reads the state of an image, access by access, and enqueues a task if the answer
      is Waiting. Whatever workers, deletions and other reconciliations do in between and afterwards,
      the image is accounted for, unless the set or the image was dropped meanwhile or a deletion of
      the image was handled, which brings about the next reconciliation. */
  lemma {:induction false} ReconcileAccountsForAll(start: seq<Action>, s: Engine, moves: seq<Move>, t: Engine,
                                                   state: ImageState,
                                                   name: string, ref: string, policy: RegistryPolicy)
    requires After(start, s) && name in s.status && UndisturbedMoves(moves, name, ref)
    requires Interleaved(s, AtTable, moves, t, Answered(state), name, ref, policy)
    requires state == Waiting ==>
               exists task: Task :: task.owner == name && task.ref == ref && Act(Enqueue(task)) in moves
    ensures Accounted(t, name, ref)
  {
    InvAfter(start, s);
    if state == Waiting {
      var task: Task :| task.owner == name && task.ref == ref && Act(Enqueue(task)) in moves;
      ActionsAreSteps(s, AtTable, moves, t, Answered(state), name, ref, policy);
      EnqueuedIsAccounted(s, Actions(moves), t, task);
    } else {
      MovesKeepSound(s, AtTable, moves, t, Answered(state), name, ref, policy);
    }
  }
}
