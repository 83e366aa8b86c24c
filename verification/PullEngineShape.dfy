/** Well-formedness of the pull engine: pointers held anywhere lead to objects of the right set and
    image, and identities are never reused. */
module PullEngineShape {
  import opened Basics
  import opened PullStatus
  import opened PullEngine

  predicate EntryOf(s: Engine, e: EntryId, t: Task) {
    e in s.entries && e.table.owner == t.owner && e.ref == t.ref
  }

  predicate TableOf(s: Engine, tbl: TableId, t: Task) {
    tbl in s.tables && tbl.owner == t.owner
  }

  predicate Owned(s: Engine, t: Task, pc: Pc) {
    match pc
    case Recheck(tbl) => TableOf(s, tbl, t)
    case Enter(tbl) => TableOf(s, tbl, t)
    case Try(e) => EntryOf(s, e, t)
    case Confirm(e) => EntryOf(s, e, t)
    case Pull(e) => EntryOf(s, e, t)
    case Unmark(e, _) => EntryOf(s, e, t)
    case SetErr(e, _) => EntryOf(s, e, t)
    case _ => true
  }

  /** The entry tracked for this set and image. */
  predicate IsEntryFor(s: Engine, e: EntryId, name: string, ref: string) {
    && name in s.status && s.status[name] in s.tables
    && ref in s.tables[s.status[name]] && s.tables[s.status[name]][ref] == e
  }

  predicate StatusOk(s: Engine) {
    forall n :: n in s.status ==> s.status[n] in s.tables && s.status[n].owner == n
  }

  predicate TablesOk(s: Engine) {
    && (forall t :: t in s.tables ==> t.serial < s.serial)
    && (forall e :: e in s.entries ==> e.serial < s.serial)
    && (forall t, r :: t in s.tables && r in s.tables[t] ==>
          s.tables[t][r] in s.entries && s.tables[t][r].table == t && s.tables[t][r].ref == r)
  }

  predicate WorkersOk(s: Engine) {
    forall t :: t in s.workers ==> Owned(s, t, s.workers[t])
  }

  predicate SweepOk(s: Engine) {
    s.sweep.Sweeping? ==>
      && s.sweep.todo <= s.tables.Keys
      && (s.sweep.at.Some? ==> s.sweep.at.value in s.entries && s.sweep.at.value.ref == s.sweep.ref)
  }

  predicate Shape(s: Engine) {
    StatusOk(s) && TablesOk(s) && WorkersOk(s) && SweepOk(s)
  }

  lemma GotoKeeps(s: Engine, t: Task, pc: Pc)
    requires Shape(s) && Owned(s, t, pc)
    ensures Shape(Goto(s, t, pc))
  {
    var s' := Goto(s, t, pc);
    forall u | u in s'.workers ensures Owned(s', u, s'.workers[u]) {
      if u != t { assert Owned(s, u, s.workers[u]); }
    }
  }

  lemma PutPullKeeps(s: Engine, e: EntryId, pull: PullState)
    requires Shape(s) && e in s.entries
    ensures Shape(PutPull(s, e, pull)) && PutPull(s, e, pull).entries.Keys == s.entries.Keys
  {
    var s' := PutPull(s, e, pull);
    assert s'.entries.Keys == s.entries.Keys;
    forall u | u in s'.workers ensures Owned(s', u, s'.workers[u]) { assert Owned(s, u, s.workers[u]); }
  }

  lemma WithEntryKeeps(s: Engine, tbl: TableId, ref: string)
    requires Shape(s) && tbl in s.tables
    ensures var (s', e) := WithEntry(s, tbl, ref);
            && Shape(s') && e in s'.entries && e.table == tbl && e.ref == ref
            && s.tables.Keys == s'.tables.Keys && s.entries.Keys <= s'.entries.Keys
  {
    var (s', e) := WithEntry(s, tbl, ref);
    forall u | u in s'.workers ensures Owned(s', u, s'.workers[u]) { assert Owned(s, u, s.workers[u]); }
  }

  /** Images, queues and pending deletions hold no pointers. */
  lemma LooseParts(s: Engine, s': Engine)
    requires Shape(s) && s'.status == s.status && s'.tables == s.tables && s'.entries == s.entries
    requires s'.workers == s.workers && s'.sweep == s.sweep && s'.serial == s.serial
    ensures Shape(s')
  {
    forall u | u in s'.workers ensures Owned(s', u, s'.workers[u]) { assert Owned(s, u, s.workers[u]); }
  }

  lemma ShapeGrounds(s: Engine, t: Task)
    requires Shape(s) && t in s.workers
    ensures Grounded(s, s.workers[t])
  {
    assert Owned(s, t, s.workers[t]);
  }

  lemma LookingKeepsShape(s: Engine, t: Task, answer: Answer)
    requires Shape(s) && t in s.workers && Grounded(s, s.workers[t]) && Owned(s, t, s.workers[t])
    requires var pc := s.workers[t]; pc.Check? || pc.Load? || pc.Recheck? || pc.Enter?
    ensures Shape(WorkStep(s, t, answer))
  {
    match s.workers[t]
    case Check => GotoKeeps(s, t, if answer.Works? && t.ref in s.images then Leave else Load);
    case Load => GotoKeeps(s, t, if t.owner in s.status then Recheck(s.status[t.owner]) else Leave);
    case Recheck(tbl) =>
      GotoKeeps(s, t, if answer.Fails? then Requeue else if t.ref in s.images then Leave else Enter(tbl));
    case Enter(tbl) =>
      WithEntryKeeps(s, tbl, t.ref);
      var (s', e) := WithEntry(s, tbl, t.ref);
      GotoKeeps(s', t, Try(e));
  }

  lemma PullingKeepsShape(s: Engine, t: Task, answer: Answer)
    requires Shape(s) && t in s.workers && Grounded(s, s.workers[t]) && Owned(s, t, s.workers[t])
    requires var pc := s.workers[t]; pc.Try? || pc.Confirm? || pc.Pull?
    ensures Shape(WorkStep(s, t, answer))
  {
    match s.workers[t]
    case Try(e) =>
      if s.entries[e].pull.pulling {
        GotoKeeps(s, t, Leave);
      } else {
        PutPullKeeps(s, e, Started(s.entries[e].pull));
        GotoKeeps(PutPull(s, e, Started(s.entries[e].pull)), t, Confirm(e));
      }
    case Confirm(e) =>
      GotoKeeps(s, t,
                if answer.Fails? then Unmark(e, Retry) else if t.ref in s.images then Unmark(e, Succeed) else Pull(e));
    case Pull(e) =>
      var s' := s.(images := if answer.Works? || answer.leftImage then s.images + {t.ref} else s.images);
      LooseParts(s, s');
      GotoKeeps(s', t, Unmark(e, if answer.Works? then Succeed else Record(answer.e)));
  }

  lemma EndingKeepsShape(s: Engine, t: Task, answer: Answer)
    requires Shape(s) && t in s.workers && Grounded(s, s.workers[t]) && Owned(s, t, s.workers[t])
    requires var pc := s.workers[t]; pc.Unmark? || pc.SetErr? || pc.Requeue? || pc.Leave?
    ensures Shape(WorkStep(s, t, answer))
  {
    match s.workers[t]
    case Unmark(e, next) =>
      PutPullKeeps(s, e, Stopped(s.entries[e].pull));
      GotoKeeps(PutPull(s, e, Stopped(s.entries[e].pull)), t,
                match next case Succeed => Leave case Retry => Requeue case Record(err) => SetErr(e, err));
    case SetErr(e, err) =>
      PutPullKeeps(s, e, WithError(s.entries[e].pull, Some(err)));
      GotoKeeps(PutPull(s, e, WithError(s.entries[e].pull, Some(err))), t, Requeue);
    case Requeue =>
      LooseParts(s, s.(delayed := s.delayed + {t}));
      GotoKeeps(s.(delayed := s.delayed + {t}), t, Leave);
    case Leave =>
      var s' := s.(workers := s.workers - {t});
      forall u | u in s'.workers ensures Owned(s', u, s'.workers[u]) { assert Owned(s, u, s.workers[u]); }
  }

  lemma WorkKeepsShape(s: Engine, t: Task, answer: Answer)
    requires Shape(s) && t in s.workers && Grounded(s, s.workers[t])
    ensures Shape(WorkStep(s, t, answer))
  {
    assert Owned(s, t, s.workers[t]);
    var pc := s.workers[t];
    if pc.Check? || pc.Load? || pc.Recheck? || pc.Enter? {
      LookingKeepsShape(s, t, answer);
    } else if pc.Try? || pc.Confirm? || pc.Pull? {
      PullingKeepsShape(s, t, answer);
    } else {
      EndingKeepsShape(s, t, answer);
    }
  }

  lemma TrackKeepsShape(s: Engine, n: string)
    requires Shape(s) && n !in s.status
    ensures Shape(Do(s, TrackSet(n)))
  {
    var s' := Do(s, TrackSet(n));
    forall u | u in s'.workers ensures Owned(s', u, s'.workers[u]) { assert Owned(s, u, s.workers[u]); }
  }

  lemma DropKeepsShape(s: Engine, n: string, r: string)
    requires Shape(s) && Enabled(s, DropRef(n, r))
    ensures Shape(Do(s, DropRef(n, r)))
  {
    var s' := Do(s, DropRef(n, r));
    assert s'.tables.Keys == s.tables.Keys;
    forall u | u in s'.workers ensures Owned(s', u, s'.workers[u]) { assert Owned(s, u, s.workers[u]); }
  }

  lemma StatusValuesAreTables(s: Engine)
    requires Shape(s)
    ensures s.status.Values <= s.tables.Keys
  {
  }

  lemma SweepKeepsShape(s: Engine, a: Action)
    requires Shape(s) && Enabled(s, a) && IsSweepStep(a)
    ensures Shape(Do(s, a))
  {
    var s' := Do(s, a);
    assert s'.entries.Keys == s.entries.Keys && s'.tables == s.tables;
    forall u | u in s'.workers ensures Owned(s', u, s'.workers[u]) { assert Owned(s, u, s.workers[u]); }
    StatusValuesAreTables(s);
  }

  lemma StepKeepsShape(s: Engine, a: Action)
    requires Shape(s) && Enabled(s, a)
    ensures Shape(Do(s, a))
  {
    match a
    case Work(t, answer) => WorkKeepsShape(s, t, answer);
    case TrackSet(n) => TrackKeepsShape(s, n);
    case AddRef(n, r) => WithEntryKeeps(s, s.status[n], r);
    case DropRef(n, r) => DropKeepsShape(s, n, r);
    case Get(t) =>
      LooseParts(s, s.(queued := s.queued - {t}));
      GotoKeeps(s.(queued := s.queued - {t}), t, Check);
    case UntrackSet(n) =>
      forall u | u in s.workers ensures Owned(Do(s, a), u, s.workers[u]) { assert Owned(s, u, s.workers[u]); }
    case ImageAppears(_) => LooseParts(s, Do(s, a));
    case ImageRemoved(_) => LooseParts(s, Do(s, a));
    case Enqueue(_) => LooseParts(s, Do(s, a));
    case DelayOver(_) => LooseParts(s, Do(s, a));
    case _ => SweepKeepsShape(s, a);
  }
}
