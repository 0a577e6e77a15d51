/**
 The client's garbage collector of finished allocations: a queue ordered by the time at
 which each allocation was marked, loops that evict the oldest ones, and a channel that
 bounds the number of concurrent destroys.
 */
module AllocGC {
  import opened IndexedHeap
  import opened Sums

  // What is collected of an allocation runner.
  datatype Runner = Runner(allocID: ID, diskMB: int)

  type Marked = map<ID, (Runner, Time)>

  // An evicted runner and the time it was marked at.
  datatype Victim = Victim(runner: Runner, time: Time)

  const MB := 1024 * 1024

  predicate MarkedBefore(a: Time, b: Time) {
    a < b
  }

  lemma MarkOrderIsWeak()
    ensures StrictWeak(MarkedBefore)
  {
  }

  ghost function Ids(victims: seq<Victim>): set<ID> {
    set v | v in victims :: v.runner.allocID
  }

  // The victim was marked, later than those before it and earlier than what is left.
  ghost predicate VictimOk(m: Marked, victims: seq<Victim>, rest: Marked, i: int) {
    0 <= i < |victims| ==>
      && victims[i].runner.allocID in m && m[victims[i].runner.allocID] == (victims[i].runner, victims[i].time)
      && (forall j | 0 <= j < i :: victims[j].time <= victims[i].time)
      && (forall id | id in rest :: victims[i].time <= rest[id].1)
  }

  // Eviction takes the oldest first, and none is lost or evicted twice.
  ghost predicate Evicted(m: Marked, victims: seq<Victim>, rest: Marked) {
    && (forall i :: VictimOk(m, victims, rest, i))
    && rest == m - Ids(victims) && |m| == |victims| + |rest|
  }

  lemma EvictedOneMore(m: Marked, victims: seq<Victim>, rest: Marked, runner: Runner, time: Time)
    requires Evicted(m, victims, rest) && Earliest(MarkedBefore, rest, runner.allocID, runner, time)
    ensures Evicted(m, victims + [Victim(runner, time)], rest - {runner.allocID})
  {
    var victims', rest' := victims + [Victim(runner, time)], rest - {runner.allocID};
    forall i ensures VictimOk(m, victims', rest', i) {
      if i == |victims| {
        forall j | 0 <= j < i ensures victims'[j].time <= time {
          assert VictimOk(m, victims, rest, j);
        }
        forall id | id in rest' ensures time <= rest'[id].1 {
          assert !MarkedBefore(rest[id].1, time);
        }
      } else {
        assert VictimOk(m, victims, rest, i);
      }
    }
    IdsOneMore(victims, Victim(runner, time));
    MinusOneMore(m, Ids(victims), runner.allocID);
    CardRemove(rest, runner.allocID);
  }

  lemma IdsOneMore(victims: seq<Victim>, v: Victim)
    ensures Ids(victims + [v]) == Ids(victims) + {v.runner.allocID}
  {
  }

  lemma MinusOneMore(m: Marked, ids: set<ID>, id: ID)
    ensures m - ids - {id} == m - (ids + {id})
  {
  }

  lemma NoneEvicted(m: Marked)
    ensures Evicted(m, [], m)
  {
  }

  // Before each of the first n evictions the total was over the limit.
  ghost predicate OverBefore(marked: nat, running: nat -> nat, max: int, n: nat) {
    forall k: nat | k < n :: marked - k + running(k) > max
  }

  lemma OverOnceMore(marked: nat, running: nat -> nat, max: int, n: nat)
    requires OverBefore(marked, running, max, n) && marked - n + running(n) > max
    ensures OverBefore(marked, running, max, n + 1)
  {
  }

  // The first number of evictions, from k on, that brings the total within the limit
  // or leaves nothing marked.
  function FirstFit(marked: nat, running: nat -> nat, max: int, k: nat): nat
    requires k <= marked
    decreases marked - k
  {
    if k == marked || marked - k + running(k) <= max then k else FirstFit(marked, running, max, k + 1)
  }

  // A loop that evicts while the total is over the limit stops at the first number
  // that fits, however the number of running allocations changes.
  lemma {:induction false} EvictionCount(marked: nat, running: nat -> nat, max: int, k: nat, n: nat)
    requires k <= n <= marked && OverBefore(marked, running, max, n)
    requires n == marked || marked - n + running(n) <= max
    ensures n == FirstFit(marked, running, max, k)
    decreases n - k
  {
    if k < n {
      EvictionCount(marked, running, max, k + 1, n);
    }
  }

  // With a steady number that is the excess over the limit, or all that were marked.
  lemma {:induction false} SteadyCount(marked: nat, running: nat -> nat, max: int, k: nat, steady: nat)
    requires k <= marked && forall i: nat :: running(i) == steady
    ensures var excess := marked + steady - max;
      FirstFit(marked, running, max, k) == if excess <= k then k else if excess <= marked then excess else marked
    decreases marked - k
  {
    if k < marked && marked - k + running(k) > max {
      SteadyCount(marked, running, max, k + 1, steady);
    }
  }

  // Disk space

  datatype Option<T> = None | Some(value: T)

  function Cleared(victims: seq<Victim>): int {
    if victims == [] then 0 else Cleared(victims[..|victims| - 1]) + victims[|victims| - 1].runner.diskMB
  }

  // By the host's statistics or, when there are none, by what was cleared.
  predicate EnoughDisk(needMB: int, available: Option<int>, clearedMB: int) {
    if available.Some? then available.value >= needMB * MB else clearedMB >= needMB
  }

  // The host has room for the new allocations beside what is reserved.
  predicate HasRoom(needMB: int, reservedMB: int, host: Option<int>) {
    host.Some? && needMB * MB < if host.value < reservedMB * MB then 0 else host.value - reservedMB * MB
  }

  // Fewer bytes are available than needed; without statistics, less was cleared.
  predicate Lacks(needMB: int, available: Option<int>, clearedMB: int) {
    if available.Some? then available.value < needMB * 1024 * 1024 else clearedMB < needMB
  }

  lemma LacksIff(needMB: int, available: Option<int>, clearedMB: int)
    ensures Lacks(needMB, available, clearedMB) <==> !EnoughDisk(needMB, available, clearedMB)
  {
  }

  ghost predicate ShortBefore(needMB: int, available: nat -> Option<int>, victims: seq<Victim>, n: nat)
    requires n <= |victims|
  {
    forall k: nat | k < n :: Lacks(needMB, available(k), Cleared(victims[..k]))
  }

  // What is cleared is the sum of the victims' disk space.
  lemma {:induction false} ClearedAdds(a: seq<Victim>, b: seq<Victim>)
    ensures Cleared(a + b) == Cleared(a) + Cleared(b)
    ensures |b| == 1 ==> Cleared(b) == b[0].runner.diskMB
  {
    if b == [] {
      assert a + b == a;
    } else {
      var init := b[..|b| - 1];
      ClearedAdds(a, init);
      assert (a + b)[..|a + b| - 1] == a + init;
    }
  }

  lemma ShortOnceMore(needMB: int, available: nat -> Option<int>, victims: seq<Victim>, more: seq<Victim>)
    requires ShortBefore(needMB, available, victims, |victims|) && victims <= more && |more| == |victims| + 1
    requires Lacks(needMB, available(|victims|), Cleared(victims))
    ensures ShortBefore(needMB, available, more, |more|)
  {
    forall k: nat | k < |more| ensures Lacks(needMB, available(k), Cleared(more[..k])) {
      if k < |victims| {
        assert more[..k] == victims[..k];
        assert Lacks(needMB, available(k), Cleared(victims[..k]));
      } else {
        assert more[..k] == victims;
      }
    }
  }

  // More bytes than needed are available beside the reserved ones.
  predicate Fits(needMB: int, reservedMB: int, host: Option<int>) {
    && host.Some?
    && if host.value >= reservedMB * 1024 * 1024 then needMB * 1024 * 1024 < host.value - reservedMB * 1024 * 1024
       else needMB < 0
  }

  lemma FitsIff(needMB: int, reservedMB: int, host: Option<int>)
    ensures Fits(needMB, reservedMB, host) <==> HasRoom(needMB, reservedMB, host)
  {
  }

  class AllocGarbageCollector {
    const maxAllocs: int
    const allocRunners: IndexedHeap<Runner>

    ghost predicate Valid()
      reads this, allocRunners, allocRunners.repr
    {
      && allocRunners.Valid() && allocRunners.before == MarkedBefore
      && forall id | id in allocRunners.contents :: allocRunners.contents[id].0.allocID == id
    }

    constructor (maxAllocs: int)
      ensures Valid() && allocRunners.contents == map[] && this.maxAllocs == maxAllocs
    {
      MarkOrderIsWeak();
      this.maxAllocs := maxAllocs;
      allocRunners := new IndexedHeap(MarkedBefore);
    }

    // A runner that is already marked keeps its time.
    method MarkForCollection(runner: Runner, now: Time)
      requires Valid()
      modifies allocRunners, allocRunners.repr
      ensures Valid() && fresh(allocRunners.repr - old(allocRunners.repr))
      ensures allocRunners.contents == if runner.allocID in old(allocRunners.contents)
        then old(allocRunners.contents) else old(allocRunners.contents)[runner.allocID := (runner, now)]
    {
      var ok := allocRunners.Push(runner.allocID, runner, now);
    }

    method Collect(id: ID) returns (victims: seq<Victim>)
      requires Valid()
      modifies allocRunners, allocRunners.repr
      ensures Valid() && allocRunners.contents == old(allocRunners.contents) - {id}
      ensures victims == if id in old(allocRunners.contents)
        then [Victim(old(allocRunners.contents)[id].0, old(allocRunners.contents)[id].1)] else []
    {
      var r := allocRunners.Remove(id);
      victims := if r.Entry? then [Victim(r.value, r.time)] else [];
    }

    // One turn of an eviction loop.
    method PopOldest(ghost m: Marked, victims: seq<Victim>) returns (victims': seq<Victim>, found: bool)
      requires Valid() && Evicted(m, victims, allocRunners.contents)
      modifies allocRunners, allocRunners.repr
      ensures Valid() && Evicted(m, victims', allocRunners.contents) && allocRunners.repr == old(allocRunners.repr)
      ensures found <==> old(allocRunners.contents) != map[]
      ensures !found ==> victims' == victims && allocRunners.contents == map[]
      ensures found ==> |victims'| == |victims| + 1 && victims == victims'[..|victims|]
    {
      var r := allocRunners.Pop();
      if r.Nothing? {
        return victims, false;
      }
      EvictedOneMore(m, victims, old(allocRunners.contents), r.value, r.time);
      return victims + [Victim(r.value, r.time)], true;
    }

    // Shutdown is seen after the given number of turns.
    method CollectAll(shutdown: nat) returns (victims: seq<Victim>)
      requires Valid()
      modifies allocRunners, allocRunners.repr
      ensures Valid() && Evicted(old(allocRunners.contents), victims, allocRunners.contents)
      ensures |victims| < shutdown ==> allocRunners.contents == map[]
    {
      victims := [];
      ghost var m := allocRunners.contents;
      NoneEvicted(m);
      while true
        invariant Valid() && allocRunners.repr == old(allocRunners.repr)
        invariant Evicted(m, victims, allocRunners.contents) && |victims| <= shutdown
        decreases |allocRunners.contents|
      {
        if |victims| == shutdown {
          return;
        }
        var found;
        victims, found := PopOldest(m, victims);
        if !found {
          break;
        }
      }
    }

    // Where the first loop of MakeRoomFor stands: all evictions so far were needed.
    ghost predicate Progress(m: Marked, victims: seq<Victim>, length: nat, running: nat -> nat, max: int)
      reads this, allocRunners, allocRunners.repr
    {
      && Valid() && Evicted(m, victims, allocRunners.contents) && length == |allocRunners.contents|
      && OverBefore(|m|, running, max, |victims|)
    }

    method EvictOne(ghost m: Marked, victims: seq<Victim>, length: nat, running: nat -> nat, max: int)
      returns (victims': seq<Victim>, length': nat, found: bool)
      requires Progress(m, victims, length, running, max) && length + running(|victims|) > max
      modifies allocRunners, allocRunners.repr
      ensures allocRunners.repr == old(allocRunners.repr) && Progress(m, victims', length', running, max)
      ensures found <==> length > 0
      ensures found ==> |victims'| == |victims| + 1 && length' == length - 1
      ensures !found ==> victims' == victims && length' == 0
    {
      OverOnceMore(|m|, running, max, |victims|);
      victims', found := PopOldest(m, victims);
      length' := allocRunners.Length();
    }

    // The first loop of MakeRoomFor.
    method EvictWhileOver(running: nat -> nat, max: int, shutdown: nat) returns (victims: seq<Victim>, length: nat)
      requires Valid()
      modifies allocRunners, allocRunners.repr
      ensures Progress(old(allocRunners.contents), victims, length, running, max)
      ensures |victims| < shutdown ==> length == 0 || length + running(|victims|) <= max
    {
      victims := [];
      ghost var m := allocRunners.contents;
      NoneEvicted(m);
      length := allocRunners.Length();
      while length + running(|victims|) > max
        invariant allocRunners.repr == old(allocRunners.repr) && Progress(m, victims, length, running, max)
        invariant |victims| <= shutdown
        decreases length
      {
        if |victims| == shutdown {
          return;
        }
        var found;
        victims, length, found := EvictOne(m, victims, length, running, max);
        if !found {
          break;
        }
      }
    }

    // The part of MakeRoomFor before the disk is looked at. running(k) is the number of
    // allocations that the client reports after k evictions.  Unless a shutdown
    // interrupts it, exactly as many are evicted as it takes to get within the limit.
    method MakeRoomFor(incoming: nat, running: nat -> nat, shutdown: nat) returns (victims: seq<Victim>, length: nat)
      requires Valid()
      modifies allocRunners, allocRunners.repr
      ensures Progress(old(allocRunners.contents), victims, length, running, maxAllocs - incoming)
      ensures |victims| < shutdown ==> length == 0 || length + running(|victims|) <= maxAllocs - incoming
      ensures |victims| < shutdown ==>
        |victims| == FirstFit(|old(allocRunners.contents)|, running, maxAllocs - incoming, 0)
    {
      ghost var marked := |allocRunners.contents|;
      victims, length := EvictWhileOver(running, maxAllocs - incoming, shutdown);
      assert marked == |victims| + length;
      if |victims| < shutdown {
        EvictionCount(marked, running, maxAllocs - incoming, 0, |victims|);
      }
    }

    // Where the second loop stands: all evictions so far were needed.
    ghost predicate DiskProgress(m: Marked, victims: seq<Victim>, clearedMB: int, needMB: int, available: nat -> Option<int>)
      reads this, allocRunners, allocRunners.repr
    {
      && Valid() && Evicted(m, victims, allocRunners.contents) && clearedMB == Cleared(victims)
      && ShortBefore(needMB, available, victims, |victims|)
    }

    method EvictForDisk(ghost m: Marked, victims: seq<Victim>, clearedMB: int, needMB: int, available: nat -> Option<int>)
      returns (victims': seq<Victim>, clearedMB': int, found: bool)
      requires DiskProgress(m, victims, clearedMB, needMB, available)
      requires !EnoughDisk(needMB, available(|victims|), clearedMB)
      modifies allocRunners, allocRunners.repr
      ensures allocRunners.repr == old(allocRunners.repr)
      ensures DiskProgress(m, victims', clearedMB', needMB, available)
      ensures if found then |victims'| == |victims| + 1 && |allocRunners.contents| < |old(allocRunners.contents)|
              else victims' == victims && allocRunners.contents == map[]
    {
      victims', found := PopOldest(m, victims);
      clearedMB' := clearedMB;
      if found {
        LacksIff(needMB, available(|victims|), clearedMB);
        ShortOnceMore(needMB, available, victims, victims');
        clearedMB' := clearedMB + victims'[|victims|].runner.diskMB;
      }
    }

    // The second loop of MakeRoomFor, with the reading available(k) of the host's
    // statistics after k evictions.
    method EvictUntilEnough(needMB: int, available: nat -> Option<int>, shutdown: nat)
      returns (victims: seq<Victim>, diskCleared: int)
      requires Valid()
      modifies allocRunners, allocRunners.repr
      ensures DiskProgress(old(allocRunners.contents), victims, diskCleared, needMB, available)
      ensures |victims| < shutdown ==>
        allocRunners.contents == map[] || EnoughDisk(needMB, available(|victims|), diskCleared)
    {
      victims, diskCleared := [], 0;
      ghost var m := allocRunners.contents;
      NoneEvicted(m);
      while |victims| < shutdown && !EnoughDisk(needMB, available(|victims|), diskCleared)
        invariant allocRunners.repr == old(allocRunners.repr)
        invariant DiskProgress(m, victims, diskCleared, needMB, available)
        decreases |allocRunners.contents|
      {
        var found;
        victims, diskCleared, found := EvictForDisk(m, victims, diskCleared, needMB, available);
        if !found {
          break;
        }
      }
    }

    // The rest of MakeRoomFor: nothing is evicted when the host has room.
    method FreeDisk(needMB: int, reservedMB: int, host: Option<int>, available: nat -> Option<int>, shutdown: nat)
      returns (victims: seq<Victim>, diskCleared: int)
      requires Valid()
      modifies allocRunners, allocRunners.repr
      ensures DiskProgress(old(allocRunners.contents), victims, diskCleared, needMB, available)
      ensures Fits(needMB, reservedMB, host) ==> victims == []
      ensures !Fits(needMB, reservedMB, host) && |victims| < shutdown && allocRunners.contents != map[] ==>
        !Lacks(needMB, available(|victims|), diskCleared)
    {
      FitsIff(needMB, reservedMB, host);
      if HasRoom(needMB, reservedMB, host) {
        NoneEvicted(allocRunners.contents);
        return [], 0;
      }
      victims, diskCleared := EvictUntilEnough(needMB, available, shutdown);
      LacksIff(needMB, available(|victims|), diskCleared);
    }
  }
}

/**
 The channel that bounds the number of concurrent destroys: a goroutine sends before it
 destroys a runner and receives when it is done, unless a shutdown makes it give up.
 */
module DestroyLimit {
  datatype Place = Waiting | Destroying | Finished | Abandoned

  // The channel's capacity and the number of values in it, and where each goroutine is.
  datatype State = State(capacity: nat, buffered: nat, shutdown: bool, places: map<nat, Place>)

  // At least one destroy can always proceed.
  function Allowed(parallelDestroys: int): nat {
    if parallelDestroys <= 0 then 1 else parallelDestroys
  }

  function New(parallelDestroys: int): State {
    State(Allowed(parallelDestroys), 0, false, map[])
  }

  datatype Step = Spawn(g: nat) | Acquire(g: nat) | Release(g: nat) | GiveUp(g: nat) | Stop

  predicate At(s: State, g: nat, place: Place) {
    g in s.places && s.places[g] == place
  }

  // A send needs room in the channel and a receive needs a value in it.
  predicate Legal(s: State, step: Step) {
    match step
    case Spawn(g) => g !in s.places
    case Acquire(g) => At(s, g, Waiting) && s.buffered < s.capacity
    case Release(g) => At(s, g, Destroying) && s.buffered > 0
    case GiveUp(g) => At(s, g, Waiting) && s.shutdown
    case Stop => true
  }

  function Next(s: State, step: Step): State
    requires Legal(s, step)
  {
    match step
    case Spawn(g) => s.(places := s.places[g := Waiting])
    case Acquire(g) => s.(places := s.places[g := Destroying], buffered := s.buffered + 1)
    case Release(g) => s.(places := s.places[g := Finished], buffered := s.buffered - 1)
    case GiveUp(g) => s.(places := s.places[g := Abandoned])
    case Stop => s.(shutdown := true)
  }

  ghost predicate LegalRun(s: State, steps: seq<Step>)
    decreases |steps|, 0
  {
    steps == [] || (LegalRun(s, steps[..|steps| - 1]) && Legal(After(s, steps[..|steps| - 1]), steps[|steps| - 1]))
  }

  ghost function After(s: State, steps: seq<Step>): State
    requires LegalRun(s, steps)
    decreases |steps|, 1
  {
    if steps == [] then s else Next(After(s, steps[..|steps| - 1]), steps[|steps| - 1])
  }

  function Destroyers(places: map<nat, Place>): set<nat> {
    set g | g in places && places[g] == Destroying
  }

  ghost predicate Counted(s: State) {
    s.buffered == |Destroyers(s.places)| <= s.capacity && forall g :: At(s, g, Abandoned) ==> s.shutdown
  }

  lemma Moved(places: map<nat, Place>, g: nat, place: Place)
    ensures var d, d' := Destroyers(places), Destroyers(places[g := place]);
      |d'| == |d| - (if g in d then 1 else 0) + (if place == Destroying then 1 else 0)
  {
    var d, d' := Destroyers(places), Destroyers(places[g := place]);
    assert d' - {g} == d - {g};
    assert |d - {g}| == |d| - if g in d then 1 else 0;
    assert |d' - {g}| == |d'| - if g in d' then 1 else 0;
  }

  lemma StepCounted(s: State, step: Step)
    requires Counted(s) && Legal(s, step)
    ensures Counted(Next(s, step))
  {
    var s' := Next(s, step);
    match step {
      case Spawn(g) => Moved(s.places, g, Waiting);
      case Acquire(g) => Moved(s.places, g, Destroying);
      case Release(g) => Moved(s.places, g, Finished);
      case GiveUp(g) => Moved(s.places, g, Abandoned);
      case Stop =>
    }
    forall h ensures At(s', h, Abandoned) ==> s'.shutdown {
      assert At(s, h, Abandoned) ==> s.shutdown;
    }
  }

  lemma {:induction false} RunCounted(parallelDestroys: int, steps: seq<Step>)
    requires LegalRun(New(parallelDestroys), steps)
    ensures Counted(After(New(parallelDestroys), steps))
    ensures After(New(parallelDestroys), steps).capacity == New(parallelDestroys).capacity
  {
    if steps != [] {
      RunCounted(parallelDestroys, steps[..|steps| - 1]);
      StepCounted(After(New(parallelDestroys), steps[..|steps| - 1]), steps[|steps| - 1]);
    }
  }

  // At no point of a run do more goroutines destroy than allowed, one that has
  // destroyed its runner can always leave, and one that waits can always go ahead when
  // fewer than allowed destroy; without a shutdown none is abandoned.
  lemma DestroysAreBounded(parallelDestroys: int, steps: seq<Step>, g: nat)
    requires LegalRun(New(parallelDestroys), steps)
    ensures var s := After(New(parallelDestroys), steps);
      var allowed := if parallelDestroys > 1 then parallelDestroys else 1;
      && |Destroyers(s.places)| <= allowed
      && (At(s, g, Destroying) ==> Legal(s, Release(g)))
      && (At(s, g, Waiting) ==> (Legal(s, Acquire(g)) <==> |Destroyers(s.places)| < allowed))
      && (At(s, g, Abandoned) ==> s.shutdown)
  {
    RunCounted(parallelDestroys, steps);
    var s := After(New(parallelDestroys), steps);
    if At(s, g, Destroying) {
      assert g in Destroyers(s.places);
    }
  }
}
