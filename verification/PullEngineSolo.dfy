/** The pull engine and the pull methods agree: the steps of a worker that nobody interferes with add
    up to what one call of PullImage does to the tables. */
module PullEngineSolo {
  import opened Basics
  import opened PullStatus
  import opened PullEngine
  import opened PullEngineShape
  import opened PullEngineRuns
  import opened Runner

  /** Containerd's answers to one attempt. */
  datatype Attempt = Attempt(before: Answer, first: Answer, second: Answer, pulled: Answer)

  function AnswerAt(a: Attempt, pc: Pc): Answer {
    match pc
    case Check => a.before
    case Recheck(_) => a.first
    case Confirm(_) => a.second
    case Pull(_) => a.pulled
    case _ => Works
  }

  function StepsLeft(pc: Pc): nat {
    match pc
    case Check => 9
    case Load => 8
    case Recheck(_) => 7
    case Enter(_) => 6
    case Try(_) => 5
    case Confirm(_) => 4
    case Pull(_) => 3
    case Unmark(_, _) => 2
    case SetErr(_, _) => 1
    case Requeue => 0
    case Leave => 0
  }

  predicate Trying(pc: Pc) { !pc.Requeue? && !pc.Leave? }

  function StepAlone(s: Engine, t: Task, a: Attempt): Engine
    requires t in s.workers && Grounded(s, s.workers[t])
  {
    WorkStep(s, t, AnswerAt(a, s.workers[t]))
  }

  lemma StepsRunOut(s: Engine, t: Task, a: Attempt)
    requires t in s.workers && Grounded(s, s.workers[t]) && Trying(s.workers[t])
    ensures var s' := StepAlone(s, t, a); t in s'.workers && StepsLeft(s'.workers[t]) < StepsLeft(s.workers[t])
  {
    if s.workers[t].Enter? {
      var (s', e) := WithEntry(s, s.workers[t].table, t.ref);
      assert StepAlone(s, t, a) == Goto(s', t, Try(e));
    }
  }

  /** The worker runs on its own until its attempt is over. */
  ghost function Alone(s: Engine, t: Task, a: Attempt): Engine
    requires Shape(s) && t in s.workers
    decreases StepsLeft(s.workers[t])
  {
    if Trying(s.workers[t]) then
      ShapeGrounds(s, t);
      WorkKeepsShape(s, t, AnswerAt(a, s.workers[t]));
      StepsRunOut(s, t, a);
      Alone(StepAlone(s, t, a), t, a)
    else s
  }

  lemma AloneGoesOn(s: Engine, t: Task, a: Attempt) returns (s': Engine)
    requires Shape(s) && t in s.workers && Trying(s.workers[t])
    ensures Grounded(s, s.workers[t]) && s' == StepAlone(s, t, a)
    ensures Shape(s') && t in s'.workers && Alone(s, t, a) == Alone(s', t, a)
  {
    ShapeGrounds(s, t);
    WorkKeepsShape(s, t, AnswerAt(a, s.workers[t]));
    StepsRunOut(s, t, a);
    s' := StepAlone(s, t, a);
  }

  /** From s to r only worker t and entry e moved, and images may have appeared. */
  predicate Ends(s: Engine, r: Engine, t: Task, e: EntryId, pull: PullState, again: bool)
    requires e in s.entries
  {
    && r == s.(workers := r.workers, entries := r.entries, images := r.images)
    && r.workers == s.workers[t := if again then Requeue else Leave]
    && r.entries == s.entries[e := s.entries[e].(pull := pull)]
  }

  function Probe(answer: Answer, present: bool): Result<bool, PullError> {
    if answer.Fails? then Err(answer.e) else Ok(present)
  }

  /** The size of a pulled image plays no part in the engine. */
  function PullResult(answer: Answer): Result<int, PullError> {
    if answer.Fails? then Err(answer.e) else Ok(0)
  }

  lemma FromRecord(s: Engine, t: Task, a: Attempt)
    requires Shape(s) && t in s.workers && s.workers[t].SetErr? && s.workers[t].entry in s.entries
    ensures Ends(s, Alone(s, t, a), t, s.workers[t].entry,
                 WithError(s.entries[s.workers[t].entry].pull, Some(s.workers[t].e)), true)
  {
    var s' := AloneGoesOn(s, t, a);
  }

  lemma FromUnmark(s: Engine, t: Task, a: Attempt)
    requires Shape(s) && t in s.workers && s.workers[t].Unmark? && s.workers[t].entry in s.entries
    requires s.entries[s.workers[t].entry].pull == PullState(true, None)
    ensures var next := s.workers[t].next;
            Ends(s, Alone(s, t, a), t, s.workers[t].entry,
                 if next.Record? then PullState(false, Some(next.e)) else UNPULLED, next != Succeed)
  {
    var s' := AloneGoesOn(s, t, a);
    if s'.workers[t].SetErr? { FromRecord(s', t, a); }
  }

  lemma EndsLater(s: Engine, s': Engine, r: Engine, t: Task, e: EntryId, pull: PullState, again: bool)
    requires e in s.entries && s' == s.(workers := s'.workers, images := s'.images)
    requires t in s'.workers && s'.workers == s.workers[t := s'.workers[t]] && Ends(s', r, t, e, pull, again)
    ensures Ends(s, r, t, e, pull, again)
  {
  }

  lemma FromPull(s: Engine, t: Task, a: Attempt)
    requires Shape(s) && t in s.workers && s.workers[t].Pull? && s.workers[t].entry in s.entries
    requires s.entries[s.workers[t].entry].pull == PullState(true, None)
    ensures Ends(s, Alone(s, t, a), t, s.workers[t].entry,
                 if a.pulled.Fails? then PullState(false, Some(a.pulled.e)) else UNPULLED, a.pulled.Fails?)
  {
    var s' := AloneGoesOn(s, t, a);
    var next := if a.pulled.Fails? then Record(a.pulled.e) else Succeed;
    assert s' == Goto(s.(images := s'.images), t, Unmark(s.workers[t].entry, next));
    FromUnmark(s', t, a);
    EndsLater(s, s', Alone(s', t, a), t, s.workers[t].entry,
              if a.pulled.Fails? then PullState(false, Some(a.pulled.e)) else UNPULLED, a.pulled.Fails?);
  }

  /** From the mark on, with the image there by then or not: the worker goes through with the rest of
      the pull, and pulls only an image that is still absent. */
  lemma FromConfirm(s: Engine, t: Task, a: Attempt)
    requires Shape(s) && t in s.workers && s.workers[t].Confirm? && s.workers[t].entry in s.entries
    requires s.entries[s.workers[t].entry].pull == PullState(true, None)
    ensures var second, pulled := Probe(a.second, t.ref in s.images), PullResult(a.pulled);
            Ends(s, Alone(s, t, a), t, s.workers[t].entry,
                 EntryAfterPull(Some(UNPULLED), Ok(false), second, pulled).value,
                 PullFails(Some(UNPULLED), Ok(false), second, pulled))
    ensures StepAlone(s, t, a).workers[t].Pull? <==> a.second.Works? && t.ref !in s.images
  {
    var s' := AloneGoesOn(s, t, a);
    if s'.workers[t].Pull? { FromPull(s', t, a); } else { FromUnmark(s', t, a); }
  }

  lemma FromTry(s: Engine, t: Task, a: Attempt)
    requires Shape(s) && t in s.workers && s.workers[t].Try? && s.workers[t].entry in s.entries && t.ref !in s.images
    ensures var e := s.workers[t].entry;
            var was, second, pulled := Some(s.entries[e].pull), Probe(a.second, false), PullResult(a.pulled);
            Ends(s, Alone(s, t, a), t, e, EntryAfterPull(was, Ok(false), second, pulled).value,
                 PullFails(was, Ok(false), second, pulled))
  {
    var s' := AloneGoesOn(s, t, a);
    if !s.entries[s.workers[t].entry].pull.pulling { FromConfirm(s', t, a); }
  }

  /** From s to r worker t finished an attempt which turned the entry of its set and image, if the
      set is tracked, into `pull`; nothing else changed, except that images may have appeared. */
  ghost predicate Attempted(s: Engine, r: Engine, t: Task, pull: Option<PullState>, again: bool) {
    && r == s.(workers := r.workers, entries := r.entries, images := r.images, tables := r.tables, serial := r.serial)
    && r.workers == s.workers[t := if again then Requeue else Leave]
    && PullOf(r, t.owner, t.ref) == pull
    && (forall n, x :: n != t.owner || x != t.ref ==> PullOf(r, n, x) == PullOf(s, n, x))
    && forall e :: e in s.entries && !IsEntryFor(s, e, t.owner, t.ref) ==>
          e in r.entries && r.entries[e] == s.entries[e]
  }

  lemma EntryAtHand(s: Engine, name: string, ref: string)
    requires Shape(s) && name in s.status && s.status[name] in s.tables
    ensures var (s', e) := WithEntry(s, s.status[name], ref);
            && e in s'.entries && IsEntryFor(s', e, name, ref)
            && s'.entries[e].pull == (if PullOf(s, name, ref).Some? then PullOf(s, name, ref).value else UNPULLED)
            && s' == s.(tables := s'.tables, entries := s'.entries, serial := s'.serial)
            && s'.tables == s.tables[s.status[name] := s.tables[s.status[name]][ref := e]]
            && forall x :: x in s.entries ==>
                  x in s'.entries && s'.entries[x] == s.entries[x] && (x == e ==> IsEntryFor(s, e, name, ref))
  {
    var table := s.tables[s.status[name]];
    if ref in table {
      assert table[ref := table[ref]] == table;
      assert s.tables[s.status[name] := table] == s.tables;
    }
  }

  lemma EndsIsAttempt(s: Engine, s': Engine, r: Engine, t: Task, e: EntryId, pull: PullState, again: bool)
    requires s' == s.(workers := s'.workers, tables := s'.tables, entries := s'.entries, serial := s'.serial)
    requires t in s'.workers && s'.workers == s.workers[t := s'.workers[t]]
    requires e in s'.entries && IsEntryFor(s', e, t.owner, t.ref) && Ends(s', r, t, e, pull, again)
    requires forall x :: x in s.entries ==>
               x in s'.entries && s'.entries[x] == s.entries[x] && (x == e ==> IsEntryFor(s, e, t.owner, t.ref))
    requires Shape(s) && t.owner in s.status && s.status[t.owner] in s.tables
    requires s'.tables == s.tables[s.status[t.owner] := s.tables[s.status[t.owner]][t.ref := e]]
    ensures Attempted(s, r, t, Some(pull), again)
  {
    forall n, x | n != t.owner || x != t.ref ensures PullOf(r, n, x) == PullOf(s, n, x) {
      if n in s.status && n != t.owner { assert s.status[n] != s.status[t.owner]; }
    }
    assert r.workers == s.workers[t := if again then Requeue else Leave];
  }

  lemma FromEnter(s: Engine, t: Task, a: Attempt)
    requires Shape(s) && t in s.workers && t.owner in s.status && t.ref !in s.images
    requires s.workers[t] == Enter(s.status[t.owner])
    ensures var was, second, pulled := PullOf(s, t.owner, t.ref), Probe(a.second, false), PullResult(a.pulled);
            Attempted(s, Alone(s, t, a), t, EntryAfterPull(was, Ok(false), second, pulled),
                      PullFails(was, Ok(false), second, pulled))
  {
    var s' := AloneGoesOn(s, t, a);
    EntryAtHand(s, t.owner, t.ref);
    FromTry(s', t, a);
    var e, again := s'.workers[t].entry,
        PullFails(Some(s'.entries[s'.workers[t].entry].pull), Ok(false), Probe(a.second, false), PullResult(a.pulled));
    EndsIsAttempt(s, s', Alone(s', t, a), t, e,
                  EntryAfterPull(Some(s'.entries[e].pull), Ok(false), Probe(a.second, false),
                                 PullResult(a.pulled)).value, again);
  }

  lemma SameAttempt(s: Engine, s': Engine, r: Engine, t: Task, pull: Option<PullState>, again: bool)
    requires s' == s.(workers := s'.workers) && t in s'.workers && s'.workers == s.workers[t := s'.workers[t]]
    requires Attempted(s', r, t, pull, again)
    ensures Attempted(s, r, t, pull, again) && PullOf(s', t.owner, t.ref) == PullOf(s, t.owner, t.ref)
  {
    assert r.workers == s.workers[t := if again then Requeue else Leave];
  }

  lemma FromRecheck(s: Engine, t: Task, a: Attempt)
    requires Shape(s) && t in s.workers && t.owner in s.status && s.workers[t] == Recheck(s.status[t.owner])
    ensures var was := PullOf(s, t.owner, t.ref);
            var first, second, pulled := Probe(a.first, t.ref in s.images), Probe(a.second, t.ref in s.images),
                PullResult(a.pulled);
            Attempted(s, Alone(s, t, a), t, EntryAfterPull(was, first, second, pulled),
                      PullFails(was, first, second, pulled))
  {
    var s' := AloneGoesOn(s, t, a);
    if s'.workers[t].Enter? {
      FromEnter(s', t, a);
      var was, second, pulled := PullOf(s', t.owner, t.ref), Probe(a.second, false), PullResult(a.pulled);
      SameAttempt(s, s', Alone(s', t, a), t, EntryAfterPull(was, Ok(false), second, pulled),
                  PullFails(was, Ok(false), second, pulled));
    }
  }

  /** An attempt that nobody interferes with does to the engine what PullImage does to the tables:
      same entry, and a retry exactly when PullImage returns an error. */
  lemma AloneIsPullImage(s: Engine, t: Task, a: Attempt)
    requires Shape(s) && t in s.workers && s.workers[t] == Load
    ensures var was, tracked := PullOf(s, t.owner, t.ref), t.owner in s.status;
            var first, second, pulled := Probe(a.first, t.ref in s.images), Probe(a.second, t.ref in s.images),
                PullResult(a.pulled);
            Attempted(s, Alone(s, t, a), t, if tracked then EntryAfterPull(was, first, second, pulled) else None,
                      tracked && PullFails(was, first, second, pulled))
  {
    var s' := AloneGoesOn(s, t, a);
    if t.owner in s.status {
      FromRecheck(s', t, a);
      var was := PullOf(s', t.owner, t.ref);
      var first, second, pulled := Probe(a.first, t.ref in s.images), Probe(a.second, t.ref in s.images),
          PullResult(a.pulled);
      SameAttempt(s, s', Alone(s', t, a), t, EntryAfterPull(was, first, second, pulled),
                  PullFails(was, first, second, pulled));
    }
  }
  /** The whole task from its first check is what the runner makes of it. */
  lemma AloneIsTask(s: Engine, t: Task, a: Attempt)
    requires Shape(s) && t in s.workers && s.workers[t] == Check
    ensures var was, tracked, present := PullOf(s, t.owner, t.ref), t.owner in s.status, t.ref in s.images;
            var answers := Answers(Probe(a.before, present), Probe(a.first, present), Probe(a.second, present),
                                   PullResult(a.pulled));
            Attempted(s, Alone(s, t, a), t, EntryAfterTask(tracked, was, answers), TaskFails(tracked, was, answers))
  {
    var s' := AloneGoesOn(s, t, a);
    if s'.workers[t] == Load {
      AloneIsPullImage(s', t, a);
      var was, tracked, present := PullOf(s', t.owner, t.ref), t.owner in s'.status, t.ref in s.images;
      var first, second, pulled := Probe(a.first, present), Probe(a.second, present), PullResult(a.pulled);
      SameAttempt(s, s', Alone(s', t, a), t, if tracked then EntryAfterPull(was, first, second, pulled) else None,
                  tracked && PullFails(was, first, second, pulled));
    }
  }

  /** Afterwards a task to be tried again waits out its delay, any other is gone from the queue. */
  lemma TurnEnds(s: Engine, t: Task, answer: Answer)
    requires t in s.workers && (s.workers[t] == Requeue || s.workers[t] == Leave)
    ensures s.workers[t] == Leave ==> WorkStep(s, t, answer) == s.(workers := s.workers - {t})
    ensures s.workers[t] == Requeue ==>
              var s' := WorkStep(s, t, answer);
              t in s'.workers && Grounded(s', s'.workers[t]) &&
              WorkStep(s', t, answer) == s.(workers := s.workers - {t}, delayed := s.delayed + {t})
  {
    if s.workers[t] == Requeue {
      assert WorkStep(s, t, answer).workers - {t} == s.workers - {t};
    }
  }
}
