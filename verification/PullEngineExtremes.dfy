/** The pull bound cannot be improved: runs in which as many pulls as it allows are in flight. */
module PullEngineExtremes {
  import opened Basics
  import opened PullStatus
  import opened PullEngine
  import opened PullEngineSafety
  import opened PullEngineRuns

  /** The engine can be in state s after d deletions of the image have been taken up. */
  ghost predicate Reached(s: Engine, ref: string, d: nat) {
    exists actions :: After(actions, s) && Times(actions, TakeDeletion(ref)) == d
  }

  lemma Extend(s: Engine, a: Action, t: Engine, ref: string, d: nat)
    requires Reached(s, ref, d) && Leads(s, a, t)
    ensures Reached(t, ref, d + if a == TakeDeletion(ref) then 1 else 0)
  {
    var actions :| After(actions, s) && Times(actions, TakeDeletion(ref)) == d;
    TimesAppend(actions, a, TakeDeletion(ref));
    var longer := actions + [a];
    assert longer[..|longer| - 1] == actions && longer[|longer| - 1] == a;
    assert LastLeads(s, longer, t);
    assert After(longer, t);
  }

  /** An engine that tracks one image of one set, with nothing queued and no deletion at hand. */
  function Lone(owner: string, ref: string, pull: PullState, cleared: nat, workers: map<Task, Pc>): Engine {
    var e := LoneEntry(owner, ref);
    Engine({}, map[owner := e.table], map[e.table := map[ref := e]], map[e := Entry(pull, cleared)],
           {}, {}, workers, [], Idle, 2)
  }

  function LoneEntry(owner: string, ref: string): EntryId {
    EntryId(TableId(owner, 0), ref, 1)
  }

  lemma LoneStart(owner: string, ref: string)
    ensures Reached(Lone(owner, ref, UNPULLED, 0, map[]), ref, 0)
  {
    var e := LoneEntry(owner, ref);
    var s0 := Engine({}, map[], map[], map[], {}, {}, map[], [], Idle, 0);
    assert After([], s0);
    var s1 := Engine({}, map[owner := e.table], map[e.table := map[]], map[], {}, {}, map[], [], Idle, 1);
    Extend(s0, TrackSet(owner), s1, ref, 0);
    Extend(s1, AddRef(owner, ref), Lone(owner, ref, UNPULLED, 0, map[]), ref, 0);
  }

  /** A worker of the image that only looks around moves on. */
  lemma LoneWork(owner: string, ref: string, c: nat, w: map<Task, Pc>, u: Task, was: Pc, now: Pc)
    requires Reached(Lone(owner, ref, UNPULLED, c, w[u := was]), ref, c) && u.owner == owner && u.ref == ref
    requires var e := LoneEntry(owner, ref);
             || (was == Check && now == Load) || (was == Load && now == Recheck(e.table))
             || (was == Recheck(e.table) && now == Enter(e.table)) || (was == Enter(e.table) && now == Try(e))
    ensures Reached(Lone(owner, ref, UNPULLED, c, w[u := now]), ref, c)
  {
    assert w[u := was][u := now] == w[u := now];
    Extend(Lone(owner, ref, UNPULLED, c, w[u := was]), Work(u, Works),
           Lone(owner, ref, UNPULLED, c, w[u := now]), ref, c);
  }

  lemma TryLeads(owner: string, ref: string, c: nat, w: map<Task, Pc>, u: Task)
    requires u.owner == owner && u.ref == ref
    ensures var e := LoneEntry(owner, ref);
            Leads(Lone(owner, ref, UNPULLED, c, w[u := Try(e)]), Work(u, Works),
                  Lone(owner, ref, PullState(true, None), c, w[u := Confirm(e)]))
  {
    var e := LoneEntry(owner, ref);
    assert w[u := Try(e)][u := Confirm(e)] == w[u := Confirm(e)];
  }

  lemma ConfirmLeads(owner: string, ref: string, c: nat, w: map<Task, Pc>, u: Task)
    ensures var e := LoneEntry(owner, ref);
            Leads(Lone(owner, ref, PullState(true, None), c, w[u := Confirm(e)]), Work(u, Works),
                  Lone(owner, ref, PullState(true, None), c, w[u := Pull(e)]))
  {
    var e := LoneEntry(owner, ref);
    assert w[u := Confirm(e)][u := Pull(e)] == w[u := Pull(e)];
  }

  lemma LoneTry(owner: string, ref: string, c: nat, w: map<Task, Pc>, u: Task)
    requires Reached(Lone(owner, ref, UNPULLED, c, w[u := Try(LoneEntry(owner, ref))]), ref, c) && u.owner == owner
             && u.ref == ref
    ensures Reached(Lone(owner, ref, PullState(true, None), c, w[u := Pull(LoneEntry(owner, ref))]), ref, c)
  {
    var e := LoneEntry(owner, ref);
    var marked := Lone(owner, ref, PullState(true, None), c, w[u := Confirm(e)]);
    TryLeads(owner, ref, c, w, u);
    Extend(Lone(owner, ref, UNPULLED, c, w[u := Try(e)]), Work(u, Works), marked, ref, c);
    ConfirmLeads(owner, ref, c, w, u);
    Extend(marked, Work(u, Works), Lone(owner, ref, PullState(true, None), c, w[u := Pull(e)]), ref, c);
  }

  lemma LoneGet(owner: string, ref: string, c: nat, w: map<Task, Pc>, u: Task)
    requires Reached(Lone(owner, ref, UNPULLED, c, w), ref, c) && u !in w
    ensures Reached(Lone(owner, ref, UNPULLED, c, w[u := Check]), ref, c)
  {
    var s := Lone(owner, ref, UNPULLED, c, w);
    Extend(s, Enqueue(u), s.(queued := {u}), ref, c);
    Extend(s.(queued := {u}), Get(u), Lone(owner, ref, UNPULLED, c, w[u := Check]), ref, c);
  }

  /** A new task for an unmarked, absent image gets its pull in flight, whoever else is at work. */
  lemma PullBegins(owner: string, ref: string, c: nat, w: map<Task, Pc>, u: Task)
    requires Reached(Lone(owner, ref, UNPULLED, c, w), ref, c) && u !in w && u.owner == owner && u.ref == ref
    ensures Reached(Lone(owner, ref, PullState(true, None), c, w[u := Pull(LoneEntry(owner, ref))]), ref, c)
  {
    var e := LoneEntry(owner, ref);
    LoneGet(owner, ref, c, w, u);
    LoneWork(owner, ref, c, w, u, Check, Load);
    LoneWork(owner, ref, c, w, u, Load, Recheck(e.table));
    LoneWork(owner, ref, c, w, u, Recheck(e.table), Enter(e.table));
    LoneWork(owner, ref, c, w, u, Enter(e.table), Try(e));
    LoneTry(owner, ref, c, w, u);
  }

  lemma LoneRemoval(owner: string, ref: string, pull: PullState, c: nat, w: map<Task, Pc>)
    requires Reached(Lone(owner, ref, pull, c, w), ref, c)
    ensures Reached(Lone(owner, ref, pull, c, w).(deletions := [ref]), ref, c)
  {
    var s := Lone(owner, ref, pull, c, w);
    Extend(s, ImageAppears(ref), s.(images := {ref}), ref, c);
    Extend(s.(images := {ref}), ImageRemoved(ref), s.(deletions := [ref]), ref, c);
  }

  lemma LoneTake(owner: string, ref: string, pull: PullState, c: nat, w: map<Task, Pc>)
    requires Reached(Lone(owner, ref, pull, c, w).(deletions := [ref]), ref, c)
    ensures var t := LoneEntry(owner, ref).table;
            Reached(Lone(owner, ref, pull, c, w).(sweep := Sweeping(ref, {t}, {}, None, false)), ref, c + 1)
  {
    var s, t := Lone(owner, ref, pull, c, w), LoneEntry(owner, ref).table;
    assert s.status.Values == {t} by { assert s.status[owner] in s.status.Values; }
    Extend(s.(deletions := [ref]), TakeDeletion(ref), s.(sweep := Sweeping(ref, {t}, {}, None, false)), ref, c);
  }

  lemma LoneVisit(owner: string, ref: string, pull: PullState, c: nat, w: map<Task, Pc>)
    requires var t := LoneEntry(owner, ref).table;
             Reached(Lone(owner, ref, pull, c, w).(sweep := Sweeping(ref, {t}, {}, None, false)), ref, c + 1)
    ensures var e := LoneEntry(owner, ref);
            Reached(Lone(owner, ref, pull, c, w).(sweep := Sweeping(ref, {}, {e.table}, Some(e), false)), ref, c + 1)
  {
    var s, e := Lone(owner, ref, pull, c, w), LoneEntry(owner, ref);
    assert {e.table} - {e.table} == {} && {} + {e.table} == {e.table};
    Extend(s.(sweep := Sweeping(ref, {e.table}, {}, None, false)), Visit(e.table),
           s.(sweep := Sweeping(ref, {}, {e.table}, Some(e), false)), ref, c + 1);
  }

  lemma ClearMarkLeads(owner: string, ref: string, c: nat, w: map<Task, Pc>)
    ensures var e := LoneEntry(owner, ref);
            var was, now := Lone(owner, ref, PullState(true, None), c, w), Lone(owner, ref, UNPULLED, c + 1, w);
            Leads(was.(sweep := Sweeping(ref, {}, {e.table}, Some(e), false)), ClearMark,
                  now.(sweep := Sweeping(ref, {}, {e.table}, Some(e), true)))
  {
  }

  lemma ClearErrorLeads(owner: string, ref: string, c: nat, w: map<Task, Pc>)
    ensures var e, s := LoneEntry(owner, ref), Lone(owner, ref, UNPULLED, c, w);
            var done := s.(sweep := Sweeping(ref, {}, {e.table}, None, false));
            Leads(s.(sweep := Sweeping(ref, {}, {e.table}, Some(e), true)), ClearError, done)
                && Leads(done, EndSweep(ref), s)
  {
  }

  lemma LoneClearMark(owner: string, ref: string, c: nat, w: map<Task, Pc>)
    requires var e, was := LoneEntry(owner, ref), Lone(owner, ref, PullState(true, None), c, w);
             Reached(was.(sweep := Sweeping(ref, {}, {e.table}, Some(e), false)), ref, c + 1)
    ensures var e := LoneEntry(owner, ref);
            Reached(Lone(owner, ref, UNPULLED, c + 1, w).(sweep := Sweeping(ref, {}, {e.table}, Some(e), true)),
                    ref, c + 1)
  {
    var e := LoneEntry(owner, ref);
    var was, now := Lone(owner, ref, PullState(true, None), c, w), Lone(owner, ref, UNPULLED, c + 1, w);
    ClearMarkLeads(owner, ref, c, w);
    Extend(was.(sweep := Sweeping(ref, {}, {e.table}, Some(e), false)), ClearMark,
           now.(sweep := Sweeping(ref, {}, {e.table}, Some(e), true)), ref, c + 1);
  }

  lemma LoneClearError(owner: string, ref: string, c: nat, w: map<Task, Pc>)
    requires var e := LoneEntry(owner, ref);
             Reached(Lone(owner, ref, UNPULLED, c, w).(sweep := Sweeping(ref, {}, {e.table}, Some(e), true)), ref, c)
    ensures Reached(Lone(owner, ref, UNPULLED, c, w), ref, c)
  {
    var e, s := LoneEntry(owner, ref), Lone(owner, ref, UNPULLED, c, w);
    var done := s.(sweep := Sweeping(ref, {}, {e.table}, None, false));
    ClearErrorLeads(owner, ref, c, w);
    Extend(s.(sweep := Sweeping(ref, {}, {e.table}, Some(e), true)), ClearError, done, ref, c);
    Extend(done, EndSweep(ref), s, ref, c);
  }

  /** The image is pulled by someone else and removed again; its deletion is handled. */
  lemma DeletionUnmarks(owner: string, ref: string, c: nat, w: map<Task, Pc>)
    requires Reached(Lone(owner, ref, PullState(true, None), c, w), ref, c)
    ensures Reached(Lone(owner, ref, UNPULLED, c + 1, w), ref, c + 1)
  {
    LoneRemoval(owner, ref, PullState(true, None), c, w);
    LoneTake(owner, ref, PullState(true, None), c, w);
    LoneVisit(owner, ref, PullState(true, None), c, w);
    LoneClearMark(owner, ref, c, w);
    LoneClearError(owner, ref, c + 1, w);
  }

  function AllPulling(tasks: seq<Task>, e: EntryId): map<Task, Pc> {
    map t | t in tasks :: Pull(e)
  }

  predicate TasksFor(tasks: seq<Task>, owner: string, ref: string) {
    Distinct(tasks) && forall t :: t in tasks ==> t.owner == owner && t.ref == ref
  }

  lemma OneMorePulls(tasks: seq<Task>, e: EntryId)
    requires Distinct(tasks) && tasks != []
    ensures var d := |tasks| - 1;
            tasks[d] !in AllPulling(tasks[..d], e)
                && AllPulling(tasks[..d], e)[tasks[d] := Pull(e)] == AllPulling(tasks, e)
  {
    var d := |tasks| - 1;
    assert tasks == tasks[..d] + [tasks[d]];
  }

  /** Each task starts its pull once the deletion before it has cleared the mark. */
  lemma {:induction false} AllAtWork(owner: string, ref: string, tasks: seq<Task>)
    requires TasksFor(tasks, owner, ref) && tasks != []
    ensures Reached(Lone(owner, ref, PullState(true, None), |tasks| - 1, AllPulling(tasks, LoneEntry(owner, ref))),
                    ref, |tasks| - 1)
  {
    var e, d := LoneEntry(owner, ref), |tasks| - 1;
    var before := AllPulling(tasks[..d], e);
    OneMorePulls(tasks, e);
    if d == 0 {
      LoneStart(owner, ref);
      assert before == map[];
    } else {
      AllAtWork(owner, ref, tasks[..d]);
      DeletionUnmarks(owner, ref, d - 1, before);
    }
    PullBegins(owner, ref, d, before, tasks[d]);
  }

  lemma AllInFlight(owner: string, ref: string, pull: PullState, c: nat, tasks: seq<Task>)
    requires TasksFor(tasks, owner, ref)
    ensures var e := LoneEntry(owner, ref);
            var s := Lone(owner, ref, pull, c, AllPulling(tasks, e));
            InFlight(s, e) == ToSet(tasks) && |InFlight(s, e)| == |tasks|
  {
    var e := LoneEntry(owner, ref);
    DistinctCard(tasks);
    assert InFlight(Lone(owner, ref, pull, c, AllPulling(tasks, e)), e) == ToSet(tasks);
  }

  /** The bound of PullBound is attained for every number of deletions, marked or not: any n tasks of
      one image all pull at once, after n - 1 deletions with the mark set, after n without it. */
  lemma BoundIsAttained(owner: string, ref: string, tasks: seq<Task>) returns (s: Engine, u: Engine, e: EntryId)
    requires TasksFor(tasks, owner, ref) && tasks != []
    ensures Reached(s, ref, |tasks| - 1) && e in s.entries && s.entries[e].pull.pulling
    ensures InFlight(s, e) == ToSet(tasks) && |InFlight(s, e)| == Bit(true) + (|tasks| - 1)
    ensures Reached(u, ref, |tasks|) && e in u.entries && !u.entries[e].pull.pulling
    ensures InFlight(u, e) == ToSet(tasks) && |InFlight(u, e)| == Bit(false) + |tasks|
    ensures e.ref == ref && e.table.owner == owner
  {
    e := LoneEntry(owner, ref);
    var d := |tasks| - 1;
    s := Lone(owner, ref, PullState(true, None), d, AllPulling(tasks, e));
    u := Lone(owner, ref, UNPULLED, d + 1, AllPulling(tasks, e));
    AllAtWork(owner, ref, tasks);
    DeletionUnmarks(owner, ref, d, AllPulling(tasks, e));
    AllInFlight(owner, ref, PullState(true, None), d, tasks);
    AllInFlight(owner, ref, UNPULLED, d + 1, tasks);
  }

  /** In particular one handled deletion is enough for any two tasks of an image to pull at once, so
      the mark does not exclude a second pull. */
  lemma TwoPullsAfterOneDeletion(t: Task, u: Task) returns (s: Engine, e: EntryId)
    requires t != u && t.owner == u.owner && t.ref == u.ref
    ensures exists actions :: After(actions, s) && Times(actions, TakeDeletion(t.ref)) == 1
    ensures e in s.entries && e.ref == t.ref && s.entries[e].pull.pulling && InFlight(s, e) == {t, u}
  {
    var v: Engine;
    s, v, e := BoundIsAttained(t.owner, t.ref, [t, u]);
    assert ToSet([t, u]) == {t, u};
  }
}
