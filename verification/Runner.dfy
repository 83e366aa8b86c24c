/** The work queue and the worker that drains it. */
module Runner {
  import opened Basics
  import opened PullStatus
  import opened PullEngine

  /** The rate-limited work queue: what is queued, what waits out a delay, what is being processed. */
  class WorkQueue {
    var queued: set<Task>
    var delayed: set<Task>
    var processing: set<Task>

    constructor ()
      ensures queued == delayed == processing == {}
    {
      queued, delayed, processing := {}, {}, {};
    }

    method Add(t: Task)
      modifies this`queued
      ensures queued == old(queued) + {t}
    {
      queued := queued + {t};
    }

    /** An item being processed is not handed out again before it is done. */
    method Get() returns (t: Option<Task>)
      modifies this`queued, this`processing
      ensures t.None? ==> queued == old(queued) && processing == old(processing) && queued <= processing
      ensures t.Some? ==> t.value in old(queued) - old(processing)
                          && queued == old(queued) - {t.value} && processing == old(processing) + {t.value}
    {
      if queued - processing == {} {
        forall x | x in queued ensures x in processing { assert x !in queued - processing; }
        return None;
      }
      var next :| next in queued - processing;
      queued, processing := queued - {next}, processing + {next};
      return Some(next);
    }

    method AddRateLimited(t: Task)
      modifies this`delayed
      ensures delayed == old(delayed) + {t}
    {
      delayed := delayed + {t};
    }

    method Done(t: Task)
      modifies this`processing
      ensures processing == old(processing) - {t}
    {
      processing := processing - {t};
    }
  }

  /** Containerd's answers during one task. */
  datatype Answers = Answers(before: Result<bool, PullError>, first: Result<bool, PullError>,
                             second: Result<bool, PullError>, pulled: Result<int, PullError>)

  /** What processing a task does to the entry of its image, and whether it has to be tried again. */
  function EntryAfterTask(tracked: bool, entry: Option<PullState>, a: Answers): Option<PullState> {
    if a.before == Ok(true) || !tracked then entry else EntryAfterPull(entry, a.first, a.second, a.pulled)
  }

  predicate TaskFails(tracked: bool, entry: Option<PullState>, a: Answers) {
    a.before != Ok(true) && tracked && PullFails(entry, a.first, a.second, a.pulled)
  }

  /** A task does nothing when the image is there or its set is not tracked; otherwise an unmarked entry
      ends unmarked, and the task fails exactly when containerd fails to answer or the pull fails. */
  lemma TaskOutcomes(tracked: bool, entry: Option<PullState>, a: Answers)
    ensures a.before == Ok(true) || !tracked ==>
              EntryAfterTask(tracked, entry, a) == entry && !TaskFails(tracked, entry, a)
    ensures a.before != Ok(true) && tracked && (entry.None? || !entry.value.pulling) ==>
              var after := EntryAfterTask(tracked, entry, a);
              && (after.Some? ==> !after.value.pulling)
              && (TaskFails(tracked, entry, a) <==>
                    a.first.Err? || (a.first == Ok(false)
                                     && (a.second.Err? || (a.second == Ok(false) && a.pulled.Err?))))
              && (a.first == Ok(false) && a.second == Ok(false) ==>
                    after == Some(PullState(false, if a.pulled.Err? then Some(a.pulled.error) else None)))
    ensures a.before != Ok(true) && tracked && entry.Some? && entry.value.pulling ==>
              EntryAfterTask(tracked, entry, a) == entry && (TaskFails(tracked, entry, a) <==> a.first.Err?)
  {
  }

  method ProcessTask(puller: ImagePuller, t: Task, a: Answers, now: int, later: int) returns (err: Option<PullError>)
    requires puller.Valid()
    modifies if t.owner in puller.status then {puller.status[t.owner]} else {}
    modifies if t.owner in puller.status && t.ref in puller.status[t.owner].images
        then {puller.status[t.owner].images[t.ref]} else {}
    ensures puller.Valid() && puller.status == old(puller.status)
    ensures puller.Entry(t.owner, t.ref) ==
            EntryAfterTask(t.owner in puller.status, old(puller.Entry(t.owner, t.ref)), a)
    ensures err.Some? <==> TaskFails(t.owner in puller.status, old(puller.Entry(t.owner, t.ref)), a)
    ensures forall n, r :: n != t.owner || r != t.ref ==> puller.Entry(n, r) == old(puller.Entry(n, r))
  {
    if a.before == Ok(true) {
      return None;
    }
    err := puller.PullImage(t.owner, t.ref, a.first, a.second, a.pulled, now, later);
  }

  /** What the worker does with a task it was handed: nothing when the process is stopping. */
  method Serve(puller: ImagePuller, queue: WorkQueue, t: Task, a: Answers, now: int, later: int, stopping: bool)
    returns (err: Option<PullError>)
    requires puller.Valid()
    modifies queue`delayed
    modifies if t.owner in puller.status then {puller.status[t.owner]} else {}
    modifies if t.owner in puller.status && t.ref in puller.status[t.owner].images
        then {puller.status[t.owner].images[t.ref]} else {}
    ensures puller.Valid() && puller.status == old(puller.status)
    ensures err.Some? <==> !stopping && TaskFails(t.owner in puller.status, old(puller.Entry(t.owner, t.ref)), a)
    ensures queue.delayed == if err.Some? then old(queue.delayed) + {t} else old(queue.delayed)
    ensures puller.Entry(t.owner, t.ref) ==
              if stopping then old(puller.Entry(t.owner, t.ref))
              else EntryAfterTask(t.owner in puller.status, old(puller.Entry(t.owner, t.ref)), a)
    ensures forall n, r :: n != t.owner || r != t.ref ==> puller.Entry(n, r) == old(puller.Entry(n, r))
  {
    err := None;
    if !stopping {
      err := ProcessTask(puller, t, a, now, later);
      if err.Some? {
        queue.AddRateLimited(t);
      }
    }
  }

  /** One turn of the worker loop: a task leaves the queue for good exactly when it succeeded or the
      process is stopping; a failed one waits out its delay. Only the entry of its image changes, as
      the pull demands. */
  method RunOnce(puller: ImagePuller, queue: WorkQueue, a: Answers, now: int, later: int, stopping: bool)
    returns (t: Option<Task>, err: Option<PullError>)
    requires puller.Valid()
    modifies queue, puller.status.Values, set n, r | n in puller.status && r in puller.status[n].images ::
          puller.status[n].images[r]
    ensures puller.Valid() && puller.status == old(puller.status)
    ensures t.None? ==> err.None? && old(queue.queued) <= old(queue.processing)
                        && queue.queued == old(queue.queued) && queue.delayed == old(queue.delayed)
                            && queue.processing == old(queue.processing)
    ensures t.Some? ==>
              && t.value in old(queue.queued) && t.value !in old(queue.processing)
              && queue.queued == old(queue.queued) - {t.value} && queue.processing == old(queue.processing)
              && queue.delayed == (if err.Some? then old(queue.delayed) + {t.value} else old(queue.delayed))
    ensures t.Some? ==>
              var tracked, was := t.value.owner in puller.status, old(puller.Entry(t.value.owner, t.value.ref));
              && (err.Some? <==> !stopping && TaskFails(tracked, was, a))
              && puller.Entry(t.value.owner, t.value.ref) == if stopping then was else EntryAfterTask(tracked, was, a)
    ensures forall n, r :: t.None? || n != t.value.owner || r != t.value.ref ==>
              puller.Entry(n, r) == old(puller.Entry(n, r))
  {
    err := None;
    t := queue.Get();
    if t.None? {
      return;
    }
    err := Serve(puller, queue, t.value, a, now, later, stopping);
    queue.Done(t.value);
  }
}
