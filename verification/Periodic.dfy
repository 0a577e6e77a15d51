/**
 The periodic dispatcher: the jobs it tracks and when each launches next.
 */
module PeriodicModel {
  import opened IndexedHeap

  const ZERO_TIME := 0

  // The spec stands for everything a job update may change.
  datatype Job = Job(id: ID, periodic: bool, enabled: bool, parameterized: bool, spec: string)

  // Times of the launch heap: the zero time comes after every other.
  predicate LaunchesBefore(a: Time, b: Time) {
    if a == ZERO_TIME && b == ZERO_TIME then false
    else if a == ZERO_TIME then false
    else if b == ZERO_TIME then true
    else a < b
  }

  lemma LaunchOrderIsWeak()
    ensures StrictWeak(LaunchesBefore)
  {
  }

  datatype Schedule = Schedule(enabled: bool, tracked: map<ID, Job>, launches: map<ID, (Job, Time)>)

  const NEW_SCHEDULE := Schedule(false, map[], map[])

  predicate Launchable(job: Job) {
    job.periodic && job.enabled
  }

  // next is the launch time that the job's cron expression gives.
  function Add(s: Schedule, job: Job, next: Time): Schedule {
    if !s.enabled then s
    else if !Launchable(job) then Remove(s, job.id)
    else if job.parameterized then s
    else s.(tracked := s.tracked[job.id := job], launches := s.launches[job.id := (job, next)])
  }

  function Remove(s: Schedule, id: ID): Schedule {
    if !s.enabled || id !in s.tracked then s
    else s.(tracked := s.tracked - {id}, launches := s.launches - {id})
  }

  // The job is the one the launch loop read before it waited; a failed update is only
  // logged.
  function Dispatch(s: Schedule, job: Job, next: Time): Schedule {
    if job.id in s.launches then s.(launches := s.launches[job.id := (job, next)]) else s
  }

  function Flush(s: Schedule): Schedule {
    s.(tracked := map[], launches := map[])
  }

  datatype Step =
    | DoAdd(job: Job, next: Time)
    | DoRemove(id: ID)
    | DoDispatch(job: Job, next: Time)
    | SetFlag(on: bool)
    | DoFlush

  function Next(s: Schedule, step: Step): Schedule {
    match step
    case DoAdd(job, next) => Add(s, job, next)
    case DoRemove(id) => Remove(s, id)
    case DoDispatch(job, next) => Dispatch(s, job, next)
    case SetFlag(on) => s.(enabled := on)
    case DoFlush => Flush(s)
  }

  function After(s: Schedule, steps: seq<Step>): Schedule {
    if steps == [] then s else Next(After(s, steps[..|steps| - 1]), steps[|steps| - 1])
  }

  // The jobs with a launch time are exactly the tracked ones, each under its own ID.
  ghost predicate Agrees(s: Schedule) {
    && s.tracked.Keys == s.launches.Keys
    && (forall id | id in s.tracked :: s.tracked[id].id == id)
    && (forall id | id in s.launches :: s.launches[id].0.id == id)
  }

  lemma StepAgrees(s: Schedule, step: Step)
    requires Agrees(s)
    ensures Agrees(Next(s, step))
  {
  }

  lemma {:induction false} RunAgrees(steps: seq<Step>)
    ensures Agrees(After(NEW_SCHEDULE, steps))
  {
    if steps != [] {
      RunAgrees(steps[..|steps| - 1]);
      StepAgrees(After(NEW_SCHEDULE, steps[..|steps| - 1]), steps[|steps| - 1]);
    }
  }

  // An enabled dispatcher tracks a job it is given if it is periodic and enabled; a
  // parameterized one only stays as it was.  No other job is touched.
  lemma AddTracksIff(s: Schedule, job: Job, next: Time)
    requires Agrees(s) && s.enabled
    ensures var s' := Add(s, job, next);
      var launchable := job.periodic && job.enabled;
      && (job.id in s'.tracked <==> launchable && (job.parameterized ==> job.id in s.tracked))
      && (launchable && !job.parameterized ==> s'.tracked[job.id] == job && s'.launches[job.id] == (job, next))
      && (launchable && job.parameterized ==> s' == s)
      && s'.tracked - {job.id} == s.tracked - {job.id} && s'.launches - {job.id} == s.launches - {job.id}
  {
  }

  // A removed job is neither tracked nor launched; a disabled dispatcher removes none.
  lemma RemoveForgets(s: Schedule, id: ID)
    requires Agrees(s)
    ensures var s' := Remove(s, id);
      if s.enabled then s' == s.(tracked := s.tracked - {id}, launches := s.launches - {id}) else s' == s
  {
    assert id !in s.tracked ==> s.tracked - {id} == s.tracked && s.launches - {id} == s.launches;
  }

  // A dispatch gives its job, if tracked, the next launch time, and changes nothing
  // else, whether the dispatcher is enabled or not.
  lemma DispatchSchedules(s: Schedule, job: Job, next: Time)
    requires Agrees(s)
    ensures var s' := Dispatch(s, job, next);
      && s'.enabled == s.enabled && s'.tracked == s.tracked && s'.launches.Keys == s.launches.Keys
      && (job.id in s.tracked ==> s'.launches[job.id] == (job, next))
      && (forall id | id in s.launches && id != job.id :: s'.launches[id] == s.launches[id])
  {
  }

  // The heap's jobs are the tracked ones, values and all.
  ghost predicate SameJobs(s: Schedule) {
    forall id | id in s.tracked :: id in s.launches && s.launches[id].0 == s.tracked[id]
  }

  // A dispatch writes back the job that the loop read, so the values stay equal
  // exactly when that job is no longer tracked or has not been updated meanwhile.
  lemma DispatchKeepsJobsIff(s: Schedule, job: Job, next: Time)
    requires Agrees(s) && SameJobs(s)
    ensures SameJobs(Dispatch(s, job, next)) <==> job.id !in s.tracked || s.tracked[job.id] == job
  {
    var s' := Dispatch(s, job, next);
    if job.id in s.tracked && s.tracked[job.id] != job {
      assert s'.launches[job.id].0 == job;
    } else {
      forall id | id in s'.tracked ensures id in s'.launches && s'.launches[id].0 == s'.tracked[id] {
        assert s.launches[id].0 == s.tracked[id];
      }
    }
  }

  // An update that overtakes a pending launch is undone in the heap.
  lemma DispatchCanBeStale(job: Job, spec: string, t: Time)
    requires Launchable(job) && !job.parameterized && spec != job.spec
    ensures var run := [SetFlag(true), DoAdd(job, t), DoAdd(job.(spec := spec), t), DoDispatch(job, t)];
      Agrees(After(NEW_SCHEDULE, run)) && !SameJobs(After(NEW_SCHEDULE, run))
  {
    var run := [SetFlag(true), DoAdd(job, t), DoAdd(job.(spec := spec), t), DoDispatch(job, t)];
    RunAgrees(run);
    var r1, r2, r3 := run[..1], run[..2], run[..3];
    assert r1[..0] == [] && r2[..1] == r1 && r3[..2] == r2;
    assert After(NEW_SCHEDULE, r1) == NEW_SCHEDULE.(enabled := true);
    assert job.id in After(NEW_SCHEDULE, r2).tracked;
    assert After(NEW_SCHEDULE, r3).tracked[job.id].spec == spec;
    assert job.id in After(NEW_SCHEDULE, r3).launches;
    assert After(NEW_SCHEDULE, run).launches[job.id].0.spec == job.spec;
  }

  // The zero time means that the job never launches.
  ghost predicate NextUp(s: Schedule, id: ID, time: Time) {
    && id in s.tracked && id in s.launches && s.launches[id].1 == time
    && forall j | j in s.tracked ::
         j in s.launches && (s.launches[j].1 == ZERO_TIME || (time != ZERO_TIME && time <= s.launches[j].1))
  }

  lemma EarliestIsNextUp(s: Schedule, id: ID, job: Job, time: Time)
    requires Agrees(s) && Earliest(LaunchesBefore, s.launches, id, job, time)
    ensures NextUp(s, id, time)
  {
  }
}

/**
 The dispatcher as an object that keeps the tracked jobs beside the launch heap.
 */
module PeriodicObject {
  import opened IndexedHeap
  import opened PeriodicModel

  class PeriodicDispatch {
    var enabled: bool
    var tracked: map<ID, Job>
    var heap: IndexedHeap<Job>

    ghost function State(): Schedule
      reads this, heap
    {
      Schedule(enabled, tracked, heap.contents)
    }

    ghost predicate Valid()
      reads this, heap, heap.repr
    {
      heap.Valid() && heap.before == LaunchesBefore && Agrees(State())
    }

    constructor ()
      ensures Valid() && State() == NEW_SCHEDULE && fresh(heap) && fresh(heap.repr)
    {
      LaunchOrderIsWeak();
      enabled, tracked := false, map[];
      heap := new IndexedHeap(LaunchesBefore);
    }

    // No error is ever returned: the heap knows exactly the tracked jobs.
    method Add(job: Job, next: Time) returns (ok: bool)
      requires Valid()
      modifies this, heap, heap.repr
      ensures Valid() && heap == old(heap) && fresh(heap.repr - old(heap.repr))
      ensures State() == PeriodicModel.Add(old(State()), job, next) && ok
    {
      if !enabled {
        return true;
      }
      var disabled := !job.periodic || !job.enabled;
      var isTracked := job.id in tracked;
      if disabled {
        ok := true;
        if isTracked {
          ok := Remove(job.id);
        }
        return;
      }
      if job.parameterized {
        return true;
      }
      tracked := tracked[job.id := job];
      if isTracked {
        ok := heap.Update(job.id, job, next);
      } else {
        ok := heap.Push(job.id, job, next);
      }
    }

    method Remove(id: ID) returns (ok: bool)
      requires Valid()
      modifies this, heap, heap.repr
      ensures Valid() && heap == old(heap) && heap.repr == old(heap.repr)
      ensures State() == PeriodicModel.Remove(old(State()), id) && ok
    {
      if !enabled || id !in tracked {
        return true;
      }
      tracked := tracked - {id};
      var r := heap.Remove(id);
      return r.Entry?;
    }

    // The update at the start of dispatch, which is only logged when it fails.
    method Dispatch(job: Job, next: Time) returns (updated: bool)
      requires Valid()
      modifies heap, heap.repr
      ensures Valid() && heap.repr == old(heap.repr)
      ensures State() == PeriodicModel.Dispatch(old(State()), job, next)
      ensures updated <==> job.id in tracked
      ensures heap.contents ==
        if job.id in tracked then old(heap.contents)[job.id := (job, next)] else old(heap.contents)
    {
      updated := heap.Update(job.id, job, next);
    }

    // The launch to wait for: the first among exactly the tracked jobs.
    method NextLaunch() returns (r: Popped<Job>)
      requires Valid()
      ensures r.Nothing? <==> tracked == map[]
      ensures r.Entry? ==> NextUp(State(), r.key, r.time) && r.value.id == r.key
    {
      r := heap.Peek();
      assert tracked == map[] <==> tracked.Keys == {};
      assert heap.contents == map[] <==> heap.contents.Keys == {};
      if r.Entry? {
        EarliestIsNextUp(State(), r.key, r.value, r.time);
      }
    }

    method Flush()
      requires Valid()
      modifies this
      ensures Valid() && fresh(heap) && fresh(heap.repr)
      ensures State() == PeriodicModel.Flush(old(State()))
      ensures tracked == map[] && heap.contents == map[] && enabled == old(enabled)
    {
      LaunchOrderIsWeak();
      tracked := map[];
      heap := new IndexedHeap(LaunchesBefore);
    }
  }
}
