/** The pull engine of one node as a state machine at lock granularity: any number of workers, the
    status tables, containerd's image store, the work queue and the loop that handles image
    deletions. Every step is one atomic access to shared state. */
module PullEngine {
  import opened Basics
  import opened PullStatus

  // ---- state -------------------------------------------------------------------------------

  /** Identities of the heap objects: a table belongs to one set name, an entry to one table and
      image. The serial number tells incarnations apart. */
  datatype TableId = TableId(owner: string, serial: nat)
  datatype EntryId = EntryId(table: TableId, ref: string, serial: nat)

  datatype Task = Task(id: nat, owner: string, ref: string)

  /** What follows once the pull mark is taken back. */
  datatype Then = Succeed | Retry | Record(e: PullError)

  /** Where a worker is within processing its task. */
  datatype Pc =
    | Check                              // is the image there already?
    | Load                               // look up the set's table
    | Recheck(table: TableId)            // is it there now?
    | Enter(table: TableId)              // get or create the entry
    | Try(entry: EntryId)                // TryStartPulling
    | Confirm(entry: EntryId)            // marked; is it there now?
    | Pull(entry: EntryId)               // containerd pulls
    | Unmark(entry: EntryId, next: Then) // StopPulling
    | SetErr(entry: EntryId, e: PullError)
    | Requeue                            // AddRateLimited
    | Leave                              // Done

  /** The deletion handler sweeps the tables, each at most once; `at` is the entry it is clearing,
      first its mark, then its error. */
  datatype Sweep =
    | Idle
    | Sweeping(ref: string, todo: set<TableId>, seen: set<TableId>, at: Option<EntryId>, markCleared: bool)

  datatype Entry = Entry(pull: PullState, cleared: nat)

  datatype Engine = Engine(
    images: set<string>,
    status: map<string, TableId>,
    tables: map<TableId, map<string, EntryId>>,
    entries: map<EntryId, Entry>,
    queued: set<Task>, delayed: set<Task>, workers: map<Task, Pc>,
    deletions: seq<string>, sweep: Sweep, serial: nat)

  // ---- steps -------------------------------------------------------------------------------

  /** What containerd answers to the worker taking a step. */
  datatype Answer = Works | Fails(e: PullError, leftImage: bool)

  datatype Action =
    | ImageAppears(ref: string)
    | ImageRemoved(ref: string)
    | TrackSet(name: string)
    | UntrackSet(name: string)
    | AddRef(name: string, ref: string)
    | DropRef(name: string, ref: string)
    | Enqueue(task: Task)
    | DelayOver(task: Task)
    | Get(task: Task)
    | Work(task: Task, answer: Answer)
    | TakeDeletion(ref: string)
    | Visit(table: TableId)
    | VisitMore(table: TableId)
    | SkipGone(table: TableId)
    | ClearMark
    | ClearError
    | EndSweep(ref: string)

  /** The steps of the deletion handler. */
  predicate IsSweepStep(a: Action) {
    a.TakeDeletion? || a.Visit? || a.VisitMore? || a.SkipGone? || a.ClearMark? || a.ClearError? || a.EndSweep?
  }

  predicate Enabled(s: Engine, a: Action) {
    match a
    case ImageAppears(_) => true
    case ImageRemoved(r) => r in s.images
    case TrackSet(n) => n !in s.status
    case UntrackSet(n) => n in s.status
    case AddRef(n, r) => n in s.status && s.status[n] in s.tables
    case DropRef(n, r) => n in s.status && s.status[n] in s.tables && r in s.tables[s.status[n]]
    case Enqueue(_) => true
    case DelayOver(t) => t in s.delayed
    case Get(t) => t in s.queued && t !in s.workers
    case Work(t, _) => t in s.workers && Grounded(s, s.workers[t])
    case TakeDeletion(r) => s.sweep.Idle? && s.deletions != [] && s.deletions[0] == r
    case Visit(t) => s.sweep.Sweeping? && s.sweep.at.None? && t in s.sweep.todo && t in s.tables
    case VisitMore(t) => s.sweep.Sweeping? && t in s.status.Values && t !in s.sweep.todo + s.sweep.seen
    case SkipGone(t) => s.sweep.Sweeping? && t in s.sweep.todo && t !in s.status.Values
    case ClearMark => s.sweep.Sweeping? && s.sweep.at.Some? && !s.sweep.markCleared && s.sweep.at.value in s.entries
    case ClearError => s.sweep.Sweeping? && s.sweep.at.Some? && s.sweep.markCleared && s.sweep.at.value in s.entries
    case EndSweep(r) => s.sweep.Sweeping? && s.sweep.ref == r && s.sweep.todo == {} && s.sweep.at.None?
  }

  /** The objects a worker holds pointers to exist. */
  predicate Grounded(s: Engine, pc: Pc) {
    match pc
    case Recheck(t) => t in s.tables
    case Enter(t) => t in s.tables
    case Try(e) => e in s.entries
    case Confirm(e) => e in s.entries
    case Pull(e) => e in s.entries
    case Unmark(e, _) => e in s.entries
    case SetErr(e, _) => e in s.entries
    case _ => true
  }

  function Goto(s: Engine, t: Task, pc: Pc): Engine {
    s.(workers := s.workers[t := pc])
  }

  function PutPull(s: Engine, e: EntryId, pull: PullState): Engine
    requires e in s.entries
  {
    s.(entries := s.entries[e := s.entries[e].(pull := pull)])
  }

  /** GetOrCreateImageStatus on a table that may no longer be tracked. */
  function WithEntry(s: Engine, t: TableId, ref: string): (r: (Engine, EntryId))
    requires t in s.tables
  {
    if ref in s.tables[t] then (s, s.tables[t][ref])
    else
      var e := EntryId(t, ref, s.serial);
      (s.(tables := s.tables[t := s.tables[t][ref := e]], entries := s.entries[e := Entry(UNPULLED, 0)],
          serial := s.serial + 1), e)
  }

  /** One step of the worker processing task t. */
  function WorkStep(s: Engine, t: Task, answer: Answer): Engine
    requires t in s.workers && Grounded(s, s.workers[t])
  {
    match s.workers[t]
    case Check => Goto(s, t, if answer.Works? && t.ref in s.images then Leave else Load)
    case Load => Goto(s, t, if t.owner in s.status then Recheck(s.status[t.owner]) else Leave)
    case Recheck(tbl) => Goto(s, t, if answer.Fails? then Requeue else if t.ref in s.images then Leave else Enter(tbl))
    case Enter(tbl) => var (s', e) := WithEntry(s, tbl, t.ref); Goto(s', t, Try(e))
    case Try(e) =>
      if s.entries[e].pull.pulling then Goto(s, t, Leave)
      else Goto(PutPull(s, e, Started(s.entries[e].pull)), t, Confirm(e))
    case Confirm(e) =>
      Goto(s, t, if answer.Fails? then Unmark(e, Retry) else if t.ref in s.images then Unmark(e, Succeed) else Pull(e))
    case Pull(e) =>
      (match answer
       case Works => Goto(s.(images := s.images + {t.ref}), t, Unmark(e, Succeed))
       case Fails(err, leftImage) =>
         Goto(s.(images := if leftImage then s.images + {t.ref} else s.images), t, Unmark(e, Record(err))))
    case Unmark(e, next) =>
      Goto(PutPull(s, e, Stopped(s.entries[e].pull)), t,
           match next case Succeed => Leave case Retry => Requeue case Record(err) => SetErr(e, err))
    case SetErr(e, err) => Goto(PutPull(s, e, WithError(s.entries[e].pull, Some(err))), t, Requeue)
    case Requeue => Goto(s.(delayed := s.delayed + {t}), t, Leave)
    case Leave => s.(workers := s.workers - {t})
  }

  function Do(s: Engine, a: Action): Engine
    requires Enabled(s, a)
  {
    match a
    case ImageAppears(r) => s.(images := s.images + {r})
    case ImageRemoved(r) => s.(images := s.images - {r}, deletions := s.deletions + [r])
    case TrackSet(n) =>
      var t := TableId(n, s.serial);
      s.(status := s.status[n := t], tables := s.tables[t := map[]], serial := s.serial + 1)
    case UntrackSet(n) => s.(status := s.status - {n})
    case AddRef(n, r) => WithEntry(s, s.status[n], r).0
    case DropRef(n, r) => var t := s.status[n]; s.(tables := s.tables[t := s.tables[t] - {r}])
    case Enqueue(t) => s.(queued := s.queued + {t})
    case DelayOver(t) => s.(delayed := s.delayed - {t}, queued := s.queued + {t})
    case Get(t) => Goto(s.(queued := s.queued - {t}), t, Check)
    case Work(t, answer) => WorkStep(s, t, answer)
    case TakeDeletion(r) =>
      s.(deletions := s.deletions[1..], sweep := Sweeping(r, s.status.Values, {}, None, false))
    case Visit(t) =>
      var at := if s.sweep.ref in s.tables[t] then Some(s.tables[t][s.sweep.ref]) else None;
      s.(sweep := s.sweep.(todo := s.sweep.todo - {t}, seen := s.sweep.seen + {t}, at := at, markCleared := false))
    case VisitMore(t) => s.(sweep := s.sweep.(todo := s.sweep.todo + {t}))
    case SkipGone(t) => s.(sweep := s.sweep.(todo := s.sweep.todo - {t}, seen := s.sweep.seen + {t}))
    case ClearMark =>
      var e := s.sweep.at.value;
      s.(entries := s.entries[e := Entry(s.entries[e].pull.(pulling := false), s.entries[e].cleared + 1)],
         sweep := s.sweep.(markCleared := true))
    case ClearError =>
      var e := s.sweep.at.value;
      PutPull(s, e, WithError(s.entries[e].pull, None)).(sweep := s.sweep.(at := None, markCleared := false))
    case EndSweep(_) => s.(sweep := Idle)
  }}
