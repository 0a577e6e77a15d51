/**
 What garbage collection guarantees at every point of a call.
 */
module CoreTheorems {
  import opened CoreModel

  // Batching

  function EvalIds(requests: seq<Request>): seq<ID> {
    if requests == [] then [] else requests[0].evals + EvalIds(requests[1..])
  }

  function AllocIds(requests: seq<Request>): seq<ID> {
    if requests == [] then [] else requests[0].allocs + AllocIds(requests[1..])
  }

  function Size(r: Request): nat {
    |r.evals| + |r.allocs|
  }

  lemma TakeRest<T>(s: seq<T>, n: nat)
    requires n <= |s|
    ensures s[..n] + s[n..] == s
  {
  }

  // Nothing is lost, added or reordered.
  lemma {:induction false} PartitionIsLossless(evals: seq<ID>, allocs: seq<ID>, max: nat)
    requires max >= 1
    ensures EvalIds(Partition(evals, allocs, max)) == evals
    ensures AllocIds(Partition(evals, allocs, max)) == allocs
    decreases |evals| + |allocs|
  {
    if evals != [] || allocs != [] {
      var a := Min(|allocs|, max);
      var e := Min(|evals|, max - a);
      PartitionIsLossless(evals[e..], allocs[a..], max);
      var rest := Partition(evals[e..], allocs[a..], max);
      assert Partition(evals, allocs, max)[1..] == rest;
      TakeRest(evals, e);
      TakeRest(allocs, a);
    }
  }

  // The first request is full unless everything fits it.
  lemma FirstRequest(evals: seq<ID>, allocs: seq<ID>, max: nat)
    requires max >= 1 && (evals != [] || allocs != [])
    ensures var a := Min(|allocs|, max); var e := Min(|evals|, max - a);
      && Partition(evals, allocs, max) == [Request(evals[..e], allocs[..a])] + Partition(evals[e..], allocs[a..], max)
      && 1 <= e + a <= max && (e + a < max ==> evals[e..] == [] && allocs[a..] == [])
  {
  }

  // Every request but the last is full, and the last holds something.
  lemma {:induction false} PartitionFills(evals: seq<ID>, allocs: seq<ID>, max: nat, i: nat)
    requires max >= 1 && i < |Partition(evals, allocs, max)|
    ensures var rs := Partition(evals, allocs, max);
      1 <= Size(rs[i]) <= max && (i < |rs| - 1 ==> Size(rs[i]) == max)
    decreases |evals| + |allocs|
  {
    FirstRequest(evals, allocs, max);
    var a := Min(|allocs|, max);
    var e := Min(|evals|, max - a);
    var rs, rest := Partition(evals, allocs, max), Partition(evals[e..], allocs[a..], max);
    if i == 0 {
      assert Size(rs[0]) == e + a;
    } else {
      PartitionFills(evals[e..], allocs[a..], max, i - 1);
      assert rs[i] == rest[i - 1];
    }
  }

  lemma {:induction false} EvalIdsSplit(rs: seq<Request>, k: nat)
    requires k <= |rs|
    ensures EvalIds(rs) == EvalIds(rs[..k]) + EvalIds(rs[k..])
  {
    if k == 0 {
      assert rs[..0] == [] && rs[0..] == rs;
    } else {
      EvalIdsSplit(rs[1..], k - 1);
      assert rs[1..][..k - 1] == rs[..k][1..] && rs[1..][k - 1..] == rs[k..];
    }
  }

  lemma {:induction false} AllocIdsSplit(rs: seq<Request>, k: nat)
    requires k <= |rs|
    ensures AllocIds(rs) == AllocIds(rs[..k]) + AllocIds(rs[k..])
  {
    if k == 0 {
      assert rs[..0] == [] && rs[0..] == rs;
    } else {
      AllocIdsSplit(rs[1..], k - 1);
      assert rs[1..][..k - 1] == rs[..k][1..] && rs[1..][k - 1..] == rs[k..];
    }
  }

  // At any point, what has been sent is a prefix, and an evaluation has been sent
  // only if every allocation has.
  lemma AllocationsGoFirst(evals: seq<ID>, allocs: seq<ID>, max: nat, k: nat)
    requires max >= 1 && k <= |Partition(evals, allocs, max)|
    ensures var sent := Partition(evals, allocs, max)[..k];
      EvalIds(sent) <= evals && AllocIds(sent) <= allocs && (EvalIds(sent) != [] ==> AllocIds(sent) == allocs)
  {
    PartitionIsLossless(evals, allocs, max);
    EvalIdsSplit(Partition(evals, allocs, max), k);
    AllocIdsSplit(Partition(evals, allocs, max), k);
    EvalsWait(evals, allocs, max, k);
  }

  lemma {:induction false} EvalsWait(evals: seq<ID>, allocs: seq<ID>, max: nat, k: nat)
    requires max >= 1 && k <= |Partition(evals, allocs, max)|
    ensures EvalIds(Partition(evals, allocs, max)[..k]) != [] ==>
      |AllocIds(Partition(evals, allocs, max)[..k])| >= |allocs|
    decreases |evals| + |allocs|
  {
    if k > 0 {
      var a := Min(|allocs|, max);
      var e := Min(|evals|, max - a);
      var rest := Partition(evals[e..], allocs[a..], max);
      EvalsWait(evals[e..], allocs[a..], max, k - 1);
      var sent := Partition(evals, allocs, max)[..k];
      assert sent[1..] == rest[..k - 1];
      assert |AllocIds(sent)| == a + |AllocIds(rest[..k - 1])|;
      assert a < |allocs| ==> EvalIds(sent) == EvalIds(rest[..k - 1]);
    }
  }

  // No way to send the same IDs within the limit takes fewer requests.
  lemma {:induction false} PartitionIsMinimal(evals: seq<ID>, allocs: seq<ID>, max: nat, other: seq<Request>)
    requires max >= 1
    requires |EvalIds(other)| == |evals| && |AllocIds(other)| == |allocs|
    requires forall r | r in other :: Size(r) <= max
    ensures |Partition(evals, allocs, max)| <= |other|
  {
    PartitionCount(evals, allocs, max);
    CoverNeeds(other, max);
    var n, m := |Partition(evals, allocs, max)|, |other|;
    if m < n {
      MulMonotone(m, n - 1, max);
    }
  }

  lemma MulMonotone(a: nat, b: nat, c: nat)
    requires a <= b
    ensures a * c <= b * c
  {
  }

  lemma {:induction false} PartitionCount(evals: seq<ID>, allocs: seq<ID>, max: nat)
    requires max >= 1
    ensures var n := |Partition(evals, allocs, max)|;
      (n - 1) * max < |evals| + |allocs| || n == 0
    decreases |evals| + |allocs|
  {
    if evals != [] || allocs != [] {
      var a := Min(|allocs|, max);
      var e := Min(|evals|, max - a);
      var rest := Partition(evals[e..], allocs[a..], max);
      PartitionCount(evals[e..], allocs[a..], max);
      if rest != [] {
        assert (|rest| - 1) * max + max == |rest| * max;
      }
    }
  }

  lemma {:induction false} CoverNeeds(rs: seq<Request>, max: nat)
    requires forall r | r in rs :: Size(r) <= max
    ensures |EvalIds(rs)| + |AllocIds(rs)| <= |rs| * max
  {
    if rs != [] {
      CoverNeeds(rs[1..], max);
      assert Size(rs[0]) <= max;
      assert |rs| * max == |rs[1..]| * max + max;
    }
  }

  // Eligibility

  ghost predicate Clear(s: Snapshot, eval: ID, threshold: nat) {
    forall a | a in s.allocs && a.evalID == eval :: a.terminal && a.modifyIndex <= threshold
  }

  // The job of a batch evaluation is gone, or it is dead and either stopped or about
  // to be collected with its evaluations.
  ghost predicate Unneeded(s: Snapshot, e: Eval, allowBatch: bool) {
    e.batch && e.jobID in s.jobs ==> s.jobs[e.jobID].dead && (s.jobs[e.jobID].stop || allowBatch)
  }

  // The evaluation itself does not stand in the way of a collection.
  ghost predicate Settled(s: Snapshot, e: Eval, threshold: nat, allowBatch: bool) {
    e.terminal && e.modifyIndex <= threshold && Unneeded(s, e, allowBatch)
  }

  ghost predicate Eligible(s: Snapshot, e: Eval, threshold: nat, allowBatch: bool) {
    Settled(s, e, threshold, allowBatch) && Clear(s, e.id, threshold)
  }

  // An old allocation of the evaluation with this ID.
  ghost predicate OldOf(s: Snapshot, eval: ID, threshold: nat, id: ID) {
    exists a :: a in s.allocs && a.evalID == eval && a.id == id && a.terminal && a.modifyIndex <= threshold
  }

  lemma {:induction false} OldIdsMember(allocs: seq<Alloc>, threshold: nat, id: ID)
    ensures id in OldIds(allocs, threshold) <==>
      exists a :: a in allocs && a.id == id && a.terminal && a.modifyIndex <= threshold
  {
    if allocs != [] {
      var init, last := allocs[..|allocs| - 1], allocs[|allocs| - 1];
      OldIdsMember(init, threshold, id);
      assert allocs == init + [last];
    }
  }

  lemma AllocsOfMember(s: Snapshot, eval: ID, a: Alloc)
    ensures a in AllocsOf(s, eval) <==> a in s.allocs && a.evalID == eval
  {
    WhereMember(s.allocs, (x: Alloc) => x.evalID == eval, a);
  }

  lemma OldIdsOf(s: Snapshot, eval: ID, threshold: nat, id: ID)
    ensures id in OldIds(AllocsOf(s, eval), threshold) <==> OldOf(s, eval, threshold, id)
  {
    OldIdsMember(AllocsOf(s, eval), threshold, id);
    forall a ensures a in AllocsOf(s, eval) <==> a in s.allocs && a.evalID == eval {
      AllocsOfMember(s, eval, a);
    }
  }

  // A lookup that the decision about this evaluation needs fails.
  ghost predicate LookupFails(s: Snapshot, e: Eval, threshold: nat, allowBatch: bool) {
    && e.terminal && e.modifyIndex <= threshold
    && ((e.batch && JobByID(e.jobID) in s.failing) || (Unneeded(s, e, allowBatch) && AllocsByEval(e.id) in s.failing))
  }

  // Where no lookup fails, an evaluation goes exactly when it is eligible, together
  // with all of its old allocations.
  lemma GcEvalIsExact(s: Snapshot, e: Eval, threshold: nat, allowBatch: bool)
    ensures GcEval(s, e, threshold, allowBatch).Failed? <==> LookupFails(s, e, threshold, allowBatch)
    ensures var r := GcEval(s, e, threshold, allowBatch);
      r.Found? ==>
        && (r.value.0 <==> Eligible(s, e, threshold, allowBatch))
        && forall id :: id in r.value.1 <==> Settled(s, e, threshold, allowBatch) && OldOf(s, e.id, threshold, id)
  {
    forall a ensures a in AllocsOf(s, e.id) <==> a in s.allocs && a.evalID == e.id {
      AllocsOfMember(s, e.id, a);
    }
    forall id ensures id in OldIds(AllocsOf(s, e.id), threshold) <==> OldOf(s, e.id, threshold, id) {
      OldIdsOf(s, e.id, threshold, id);
    }
  }

  // Selections

  ghost predicate PicksEvals(s: Snapshot, threshold: nat, evals: seq<Eval>, ids: seq<ID>) {
    forall id :: id in ids <==> exists e :: e in evals && e.id == id && Eligible(s, e, threshold, false)
  }

  ghost predicate PicksAllocs(s: Snapshot, threshold: nat, evals: seq<Eval>, ids: seq<ID>) {
    forall id :: id in ids <==>
      exists e :: e in evals && Settled(s, e, threshold, false) && OldOf(s, e.id, threshold, id)
  }

  lemma {:induction false} EvalGcIdsExact(s: Snapshot, threshold: nat, evals: seq<Eval>)
    ensures EvalGcIds(s, threshold, evals).Found? ==>
      var (es, allocs) := EvalGcIds(s, threshold, evals).value;
      PicksEvals(s, threshold, evals, es) && PicksAllocs(s, threshold, evals, allocs)
  {
    if evals != [] && EvalGcIds(s, threshold, evals).Found? {
      var init, last := evals[..|evals| - 1], evals[|evals| - 1];
      EvalGcIdsExact(s, threshold, init);
      GcEvalIsExact(s, last, threshold, false);
      assert evals == init + [last];
    }
  }

  // The collected evaluations leave no allocation behind.
  ghost predicate Covers(s: Snapshot, threshold: nat, evals: seq<ID>, allocs: seq<ID>) {
    && (forall id, a | id in evals && a in s.allocs && a.evalID == id :: a.id in allocs)
    && (forall id | id in allocs :: SomeOld(s, threshold, id))
  }

  ghost predicate SomeOld(s: Snapshot, threshold: nat, id: ID) {
    exists a :: a in s.allocs && a.id == id && a.terminal && a.modifyIndex <= threshold
  }

  lemma EvalGcCovers(s: Snapshot, threshold: nat)
    requires EvalGcIds(s, threshold, s.evals).Found?
    ensures var (es, allocs) := EvalGcIds(s, threshold, s.evals).value; Covers(s, threshold, es, allocs)
  {
    EvalGcIdsExact(s, threshold, s.evals);
    var (es, allocs) := EvalGcIds(s, threshold, s.evals).value;
    forall id, a | id in es && a in s.allocs && a.evalID == id ensures a.id in allocs {
      var e :| e in s.evals && e.id == id && Eligible(s, e, threshold, false);
      assert OldOf(s, e.id, threshold, a.id);
    }
  }

  lemma {:induction false} JobIdsCover(s: Snapshot, threshold: nat, evals: seq<Eval>)
    ensures JobIds(s, threshold, evals).Found? ==>
      var (es, allocs) := JobIds(s, threshold, evals).value;
      Covers(s, threshold, es, allocs) && (forall e | e in evals :: e.id in es && Eligible(s, e, threshold, true))
  {
    if evals != [] && JobIds(s, threshold, evals).Found? {
      var init, last := evals[..|evals| - 1], evals[|evals| - 1];
      JobIdsCover(s, threshold, init);
      GcEvalIsExact(s, last, threshold, true);
      assert evals == init + [last];
      var ids := GcEval(s, last, threshold, true).value.1;
      forall a | a in s.allocs && a.evalID == last.id ensures a.id in ids {
        assert OldOf(s, last.id, threshold, a.id);
      }
    }
  }

  // The deregistered jobs leave no evaluation behind.
  ghost predicate Emptied(s: Snapshot, jobs: seq<ID>, evals: seq<ID>) {
    forall e | e in s.evals && e.jobID in jobs :: e.id in evals
  }

  lemma {:induction false} JobGcCovers(s: Snapshot, threshold: nat, jobs: seq<Job>)
    ensures var (js, es, allocs) := JobGcIds(s, threshold, jobs);
      Covers(s, threshold, es, allocs) && Emptied(s, js, es)
  {
    if jobs != [] {
      var init, last := jobs[..|jobs| - 1], jobs[|jobs| - 1];
      JobGcCovers(s, threshold, init);
      JobIdsCover(s, threshold, EvalsOf(s, last.id));
      forall e | e in s.evals && e.jobID == last.id ensures e in EvalsOf(s, last.id) {
        WhereMember(s.evals, (x: Eval) => x.jobID == last.id, e);
      }
    }
  }

  // No lookup for the job fails, and each of its evaluations is eligible.
  ghost predicate JobMayGo(s: Snapshot, threshold: nat, job: Job) {
    && job.createIndex <= threshold && EvalsByJob(job.id) !in s.failing
    && forall e | e in s.evals && e.jobID == job.id ::
         Eligible(s, e, threshold, true) && !LookupFails(s, e, threshold, true)
  }

  lemma {:induction false} JobIdsExact(s: Snapshot, threshold: nat, evals: seq<Eval>)
    ensures JobIds(s, threshold, evals).Found? <==>
      forall e | e in evals :: Eligible(s, e, threshold, true) && !LookupFails(s, e, threshold, true)
  {
    if evals != [] {
      var init, last := evals[..|evals| - 1], evals[|evals| - 1];
      JobIdsExact(s, threshold, init);
      GcEvalIsExact(s, last, threshold, true);
      assert evals == init + [last];
    }
  }

  // A job goes exactly when it may, whatever happens to the others.
  lemma {:induction false} JobGcIsExact(s: Snapshot, threshold: nat, jobs: seq<Job>, id: ID)
    ensures id in JobGcIds(s, threshold, jobs).0 <==>
      exists job :: job in jobs && job.id == id && JobMayGo(s, threshold, job)
  {
    if jobs != [] {
      var init, last := jobs[..|jobs| - 1], jobs[|jobs| - 1];
      JobGcIsExact(s, threshold, init, id);
      JobIdsExact(s, threshold, EvalsOf(s, last.id));
      forall e ensures e in EvalsOf(s, last.id) <==> e in s.evals && e.jobID == last.id {
        WhereMember(s.evals, (x: Eval) => x.jobID == last.id, e);
      }
      assert JobGc(s, threshold, last).Found? <==> JobMayGo(s, threshold, last);
      assert jobs == init + [last];
    }
  }

  lemma {:induction false} JobEvalIds(s: Snapshot, threshold: nat, evals: seq<Eval>, id: ID)
    requires JobIds(s, threshold, evals).Found?
    ensures id in JobIds(s, threshold, evals).value.0 <==> exists e :: e in evals && e.id == id
  {
    if evals != [] {
      var init, last := evals[..|evals| - 1], evals[|evals| - 1];
      JobEvalIds(s, threshold, init, id);
      assert evals == init + [last];
    }
  }

  lemma {:induction false} JobAllocIds(s: Snapshot, threshold: nat, evals: seq<Eval>, id: ID)
    requires JobIds(s, threshold, evals).Found?
    ensures id in JobIds(s, threshold, evals).value.1 <==> exists e :: e in evals && OldOf(s, e.id, threshold, id)
  {
    if evals != [] {
      var init, last := evals[..|evals| - 1], evals[|evals| - 1];
      JobAllocIds(s, threshold, init, id);
      GcEvalIsExact(s, last, threshold, true);
      assert evals == init + [last];
    }
  }

  // The evaluation's job is among those given, and may go.
  ghost predicate GoesWithJob(s: Snapshot, threshold: nat, jobs: seq<Job>, e: Eval) {
    e in s.evals && exists job :: job in jobs && job.id == e.jobID && JobMayGo(s, threshold, job)
  }

  lemma GoesWithOneMore(s: Snapshot, threshold: nat, jobs: seq<Job>, last: Job, e: Eval)
    ensures GoesWithJob(s, threshold, jobs + [last], e) <==>
      GoesWithJob(s, threshold, jobs, e) || (e in s.evals && e.jobID == last.id && JobMayGo(s, threshold, last))
  {
    assert forall job :: job in jobs + [last] <==> job in jobs || job == last;
  }

  lemma JobGcFound(s: Snapshot, threshold: nat, job: Job, id: ID)
    ensures JobGc(s, threshold, job).Found? <==> JobMayGo(s, threshold, job)
    ensures JobGc(s, threshold, job).Found? ==>
      var (es, allocs) := JobGc(s, threshold, job).value;
      && (id in es <==> exists e :: e in s.evals && e.jobID == job.id && e.id == id)
      && (id in allocs <==> exists e :: e in s.evals && e.jobID == job.id && OldOf(s, e.id, threshold, id))
  {
    var evals := EvalsOf(s, job.id);
    JobIdsExact(s, threshold, evals);
    if JobIds(s, threshold, evals).Found? {
      JobEvalIds(s, threshold, evals, id);
      JobAllocIds(s, threshold, evals, id);
    }
    forall e ensures e in evals <==> e in s.evals && e.jobID == job.id {
      WhereMember(s.evals, (x: Eval) => x.jobID == job.id, e);
    }
  }

  // A job GC takes exactly the evaluations of the jobs that go, and exactly their
  // old allocations.
  lemma {:induction false} JobGcIdsExact(s: Snapshot, threshold: nat, jobs: seq<Job>, id: ID)
    ensures id in JobGcIds(s, threshold, jobs).1 <==> exists e :: GoesWithJob(s, threshold, jobs, e) && e.id == id
    ensures id in JobGcIds(s, threshold, jobs).2 <==>
      exists e :: GoesWithJob(s, threshold, jobs, e) && OldOf(s, e.id, threshold, id)
  {
    if jobs != [] {
      var init, last := jobs[..|jobs| - 1], jobs[|jobs| - 1];
      JobGcIdsExact(s, threshold, init, id);
      JobGcFound(s, threshold, last, id);
      assert jobs == init + [last];
      forall e ensures GoesWithJob(s, threshold, jobs, e) <==>
        GoesWithJob(s, threshold, init, e) || (e in s.evals && e.jobID == last.id && JobMayGo(s, threshold, last))
      {
        GoesWithOneMore(s, threshold, init, last, e);
      }
    }
  }

  lemma {:induction false} NodeGcIsExact(s: Snapshot, threshold: nat, nodes: seq<Node>, id: ID)
    ensures id in NodeGcIds(s, threshold, nodes) <==>
      exists n :: n in nodes && n.id == id && n.terminal && n.modifyIndex <= threshold
        && AllocsByNode(id) !in s.failing && forall a | a in s.allocs && a.nodeID == id :: a.terminal
  {
    if nodes != [] {
      var init, last := nodes[..|nodes| - 1], nodes[|nodes| - 1];
      NodeGcIsExact(s, threshold, init, id);
      forall a ensures a in AllocsOn(s, last.id) <==> a in s.allocs && a.nodeID == last.id {
        WhereMember(s.allocs, (x: Alloc) => x.nodeID == last.id, a);
      }
      assert nodes == init + [last];
    }
  }

  lemma {:induction false} DeploymentGcIsExact(threshold: nat, deployments: seq<Deployment>, id: ID)
    ensures id in DeploymentGcIds(threshold, deployments) <==>
      exists d :: d in deployments && d.id == id && !d.active && d.modifyIndex <= threshold
  {
    if deployments != [] {
      var init, last := deployments[..|deployments| - 1], deployments[|deployments| - 1];
      DeploymentGcIsExact(threshold, init, id);
      assert deployments == init + [last];
    }
  }

  // Deployments are batched like evaluations that have no allocations.
  lemma {:induction false} ChunksArePartition(ids: seq<ID>, max: nat)
    requires max >= 1
    ensures |Chunks(ids, max)| == |Partition(ids, [], max)|
    ensures forall i | 0 <= i < |Chunks(ids, max)| :: Partition(ids, [], max)[i] == Request(Chunks(ids, max)[i], [])
  {
    if ids != [] {
      ChunksArePartition(ids[Min(|ids|, max)..], max);
    }
  }

  // Safety at every point

  ghost predicate DeletesEval(actions: seq<Action>, id: ID) {
    exists x :: x in actions && x.Reap? && id in x.request.evals
  }

  ghost predicate DeletesAlloc(actions: seq<Action>, id: ID) {
    exists x :: x in actions && x.Reap? && id in x.request.allocs
  }

  ghost predicate Quiet(s: Snapshot, node: ID) {
    forall a | a in s.allocs && a.nodeID == node :: a.terminal
  }

  // Once these deletions have been applied: a deleted evaluation has no allocation
  // left, a deleted allocation was terminal and old, a deregistered job has no
  // evaluation left, and a deregistered node ran nothing.
  ghost predicate Safe(s: Snapshot, threshold: nat, actions: seq<Action>) {
    && (forall a | a in s.allocs && DeletesEval(actions, a.evalID) :: DeletesAlloc(actions, a.id))
    && (forall id | DeletesAlloc(actions, id) :: SomeOld(s, threshold, id))
    && (forall e | e in s.evals && DeregisterJob(e.jobID) in actions :: DeletesEval(actions, e.id))
    && (forall n | DeregisterNode(n) in actions :: Quiet(s, n))
  }

  lemma DeletesBoth(a: seq<Action>, b: seq<Action>, id: ID)
    ensures DeletesEval(a + b, id) <==> DeletesEval(a, id) || DeletesEval(b, id)
    ensures DeletesAlloc(a + b, id) <==> DeletesAlloc(a, id) || DeletesAlloc(b, id)
  {
  }

  lemma SafeBoth(s: Snapshot, threshold: nat, a: seq<Action>, b: seq<Action>)
    requires Safe(s, threshold, a) && Safe(s, threshold, b)
    ensures Safe(s, threshold, a + b)
  {
  }

  ghost predicate AlwaysSafe(s: Snapshot, threshold: nat, actions: seq<Action>) {
    forall k | 0 <= k <= |actions| :: Safe(s, threshold, actions[..k])
  }

  lemma AlwaysSafeBoth(s: Snapshot, threshold: nat, a: seq<Action>, b: seq<Action>)
    requires AlwaysSafe(s, threshold, a) && AlwaysSafe(s, threshold, b)
    ensures AlwaysSafe(s, threshold, a + b)
  {
    forall k | 0 <= k <= |a + b| ensures Safe(s, threshold, (a + b)[..k]) {
      if k <= |a| {
        assert (a + b)[..k] == a[..k];
      } else {
        assert a[..|a|] == a && (a + b)[..k] == a + b[..k - |a|];
        SafeBoth(s, threshold, a, b[..k - |a|]);
      }
    }
  }

  lemma {:induction false} RequestsDelete(requests: seq<Request>, id: ID)
    ensures DeletesEval(Reaps(requests), id) <==> id in EvalIds(requests)
    ensures DeletesAlloc(Reaps(requests), id) <==> id in AllocIds(requests)
  {
    var actions := Reaps(requests);
    if requests != [] {
      RequestsDelete(requests[1..], id);
      assert actions == [Reap(requests[0])] + Reaps(requests[1..]);
      DeletesBoth([Reap(requests[0])], Reaps(requests[1..]), id);
      assert DeletesEval([Reap(requests[0])], id) <==> id in requests[0].evals by {
        assert Reap(requests[0]) in [Reap(requests[0])];
      }
      assert DeletesAlloc([Reap(requests[0])], id) <==> id in requests[0].allocs by {
        assert Reap(requests[0]) in [Reap(requests[0])];
      }
    }
  }

  lemma SentIsSafe(s: Snapshot, threshold: nat, evals: seq<ID>, allocs: seq<ID>, sent: seq<Request>)
    requires Covers(s, threshold, evals, allocs)
    requires EvalIds(sent) <= evals && AllocIds(sent) <= allocs && (EvalIds(sent) != [] ==> AllocIds(sent) == allocs)
    ensures Safe(s, threshold, Reaps(sent))
  {
    forall id
      ensures DeletesEval(Reaps(sent), id) <==> id in EvalIds(sent)
      ensures DeletesAlloc(Reaps(sent), id) <==> id in AllocIds(sent)
    {
      RequestsDelete(sent, id);
    }
    assert forall i | 0 <= i < |EvalIds(sent)| :: EvalIds(sent)[i] == evals[i];
    assert forall i | 0 <= i < |AllocIds(sent)| :: AllocIds(sent)[i] == allocs[i];
    forall a | a in s.allocs && DeletesEval(Reaps(sent), a.evalID) ensures DeletesAlloc(Reaps(sent), a.id) {
      assert a.evalID in evals;
    }
  }

  // Any prefix of a covering reap is safe.
  lemma ReapIsSafe(s: Snapshot, threshold: nat, evals: seq<ID>, allocs: seq<ID>, max: nat)
    requires max >= 1 && Covers(s, threshold, evals, allocs)
    ensures AlwaysSafe(s, threshold, Reaps(Partition(evals, allocs, max)))
  {
    var rs := Partition(evals, allocs, max);
    forall k | 0 <= k <= |Reaps(rs)| ensures Safe(s, threshold, Reaps(rs)[..k]) {
      assert Reaps(rs)[..k] == Reaps(rs[..k]);
      AllocationsGoFirst(evals, allocs, max, k);
      SentIsSafe(s, threshold, evals, allocs, rs[..k]);
    }
  }

  lemma EvalGcIsSafe(s: Snapshot, threshold: nat)
    ensures AlwaysSafe(s, threshold, EvalGc(s, threshold).0)
  {
    if AllEvals !in s.failing && EvalGcIds(s, threshold, s.evals).Found? {
      EvalGcCovers(s, threshold);
      var (es, allocs) := EvalGcIds(s, threshold, s.evals).value;
      ReapIsSafe(s, threshold, es, allocs, MAX_IDS_PER_REAP);
    }
  }

  // A deregistration comes after the whole reap.
  lemma JobGcIsSafe(s: Snapshot, threshold: nat)
    ensures AlwaysSafe(s, threshold, JobGcPlan(s, threshold).0)
  {
    if JobsByGC !in s.failing {
      var (jobs, es, allocs) := JobGcIds(s, threshold, s.gcJobs);
      JobGcCovers(s, threshold, s.gcJobs);
      ReapIsSafe(s, threshold, es, allocs, MAX_IDS_PER_REAP);
      var reaps := Reaps(Partition(es, allocs, MAX_IDS_PER_REAP));
      ReapDeletesAll(es, allocs);
      forall k | 0 <= k <= |reaps + Deregisters(jobs)| ensures Safe(s, threshold, (reaps + Deregisters(jobs))[..k]) {
        if k <= |reaps| {
          assert (reaps + Deregisters(jobs))[..k] == reaps[..k];
        } else {
          assert (reaps + Deregisters(jobs))[..k] == reaps + Deregisters(jobs)[..k - |reaps|];
          assert reaps[..|reaps|] == reaps;
          DeregistersAfter(s, threshold, reaps, jobs, es, Deregisters(jobs)[..k - |reaps|]);
        }
      }
    }
  }

  lemma ReapDeletesAll(evals: seq<ID>, allocs: seq<ID>)
    ensures forall id | id in evals :: DeletesEval(Reaps(Partition(evals, allocs, MAX_IDS_PER_REAP)), id)
  {
    var rs := Partition(evals, allocs, MAX_IDS_PER_REAP);
    PartitionIsLossless(evals, allocs, MAX_IDS_PER_REAP);
    forall id | id in evals ensures DeletesEval(Reaps(rs), id) {
      RequestsDelete(rs, id);
    }
  }

  lemma DeregistersAfter(s: Snapshot, threshold: nat, reaps: seq<Action>, jobs: seq<ID>, evals: seq<ID>, d: seq<Action>)
    requires Safe(s, threshold, reaps) && Emptied(s, jobs, evals)
    requires forall id | id in evals :: DeletesEval(reaps, id)
    requires forall x | x in reaps :: x.Reap?
    requires forall x | x in d :: x.DeregisterJob? && x.job in jobs
    ensures Safe(s, threshold, reaps + d)
  {
  }

  lemma NodeGcIsSafe(s: Snapshot, threshold: nat)
    ensures AlwaysSafe(s, threshold, NodeGc(s, threshold).0)
  {
    forall id | id in NodeGcIds(s, threshold, s.nodes) ensures Quiet(s, id) {
      NodeGcIsExact(s, threshold, s.nodes, id);
    }
  }

  // Whatever a core job does, wherever it stops: no prefix of its requests leaves an
  // allocation without its evaluation.
  lemma ProcessIsSafe(s: Snapshot, job: CoreJob, threshold: nat)
    ensures AlwaysSafe(s, if job == ForceGC then MAX_UINT64 else threshold, Process(s, job, threshold).0)
  {
    var t := if job == ForceGC then MAX_UINT64 else threshold;
    EvalGcIsSafe(s, t);
    JobGcIsSafe(s, t);
    NodeGcIsSafe(s, t);
    assert AlwaysSafe(s, t, DeploymentGc(s, t).0);
    var first, second, third, last := JobGcPlan(s, t), EvalGc(s, t), DeploymentGc(s, t), NodeGc(s, t);
    AlwaysSafeBoth(s, t, first.0, second.0);
    AlwaysSafeBoth(s, t, first.0 + second.0, third.0);
    AlwaysSafeBoth(s, t, first.0 + second.0 + third.0, last.0);
  }

  ghost predicate NoNodes(actions: seq<Action>) {
    forall i | 0 <= i < |actions| :: !actions[i].DeregisterNode?
  }

  lemma OthersTouchNoNodes(s: Snapshot, threshold: nat)
    ensures NoNodes(JobGcPlan(s, threshold).0) && NoNodes(EvalGc(s, threshold).0)
    ensures NoNodes(DeploymentGc(s, threshold).0)
  {
  }

  lemma NoNodesThen(first: (seq<Action>, bool), second: (seq<Action>, bool))
    requires NoNodes(first.0) && NoNodes(second.0)
    ensures NoNodes(Then(first, second).0)
  {
  }

  // A forced GC deregisters nodes after everything else.
  lemma NodesGoLast(s: Snapshot, threshold: nat, i: nat, j: nat)
    requires i < j < |Process(s, ForceGC, threshold).0| && Process(s, ForceGC, threshold).0[i].DeregisterNode?
    ensures Process(s, ForceGC, threshold).0[j].DeregisterNode?
  {
    var first, second, third := JobGcPlan(s, MAX_UINT64), EvalGc(s, MAX_UINT64), DeploymentGc(s, MAX_UINT64);
    OthersTouchNoNodes(s, MAX_UINT64);
    NoNodesThen(first, second);
    NoNodesThen(Then(first, second), third);
    var others, nodes := Then(Then(first, second), third), NodeGc(s, MAX_UINT64);
    assert Process(s, ForceGC, threshold) == Then(others, nodes);
  }

  // Allocation IDs are the store's primary key.
  ghost predicate UniqueAllocs(s: Snapshot) {
    forall a, b | a in s.allocs && b in s.allocs && a.id == b.id :: a == b
  }

  lemma DeletedWasOld(s: Snapshot, job: CoreJob, threshold: nat, k: nat, a: Alloc)
    requires UniqueAllocs(s) && a in s.allocs && k <= |Process(s, job, threshold).0|
    requires DeletesAlloc(Process(s, job, threshold).0[..k], a.id)
    ensures a.terminal && a.modifyIndex <= if job == ForceGC then MAX_UINT64 else threshold
  {
    ProcessIsSafe(s, job, threshold);
  }

  // A completed evaluation GC deletes the eligible evaluations and nothing else.
  lemma EvalGcIsExact(s: Snapshot, threshold: nat, id: ID)
    requires EvalGc(s, threshold).1
    ensures DeletesEval(EvalGc(s, threshold).0, id) <==>
      exists e :: e in s.evals && e.id == id && Eligible(s, e, threshold, false)
    ensures DeletesAlloc(EvalGc(s, threshold).0, id) <==>
      exists e :: e in s.evals && Settled(s, e, threshold, false) && OldOf(s, e.id, threshold, id)
  {
    EvalGcIdsExact(s, threshold, s.evals);
    var (es, allocs) := EvalGcIds(s, threshold, s.evals).value;
    PartitionIsLossless(es, allocs, MAX_IDS_PER_REAP);
    RequestsDelete(Partition(es, allocs, MAX_IDS_PER_REAP), id);
  }

  // What a completed job GC deletes.
  lemma JobGcDeletesExactly(s: Snapshot, threshold: nat, id: ID)
    requires JobGcPlan(s, threshold).1
    ensures DeletesEval(JobGcPlan(s, threshold).0, id) <==>
      exists e :: GoesWithJob(s, threshold, s.gcJobs, e) && e.id == id
    ensures DeletesAlloc(JobGcPlan(s, threshold).0, id) <==>
      exists e :: GoesWithJob(s, threshold, s.gcJobs, e) && OldOf(s, e.id, threshold, id)
  {
    JobGcIdsExact(s, threshold, s.gcJobs, id);
    var (jobs, es, allocs) := JobGcIds(s, threshold, s.gcJobs);
    PartitionIsLossless(es, allocs, MAX_IDS_PER_REAP);
    var requests := Partition(es, allocs, MAX_IDS_PER_REAP);
    RequestsDelete(requests, id);
    DeletesBoth(Reaps(requests), Deregisters(jobs), id);
  }

  // One failing lookup stops the evaluation GC before it deletes anything.
  lemma {:induction false} EvalGcFailsIff(s: Snapshot, threshold: nat, evals: seq<Eval>)
    ensures EvalGcIds(s, threshold, evals).Failed? <==> exists e :: e in evals && LookupFails(s, e, threshold, false)
  {
    if evals != [] {
      var init, last := evals[..|evals| - 1], evals[|evals| - 1];
      EvalGcFailsIff(s, threshold, init);
      GcEvalIsExact(s, last, threshold, false);
      assert evals == init + [last];
    }
  }

  // Evaluation IDs are the store's primary key.
  ghost predicate UniqueEvals(s: Snapshot) {
    forall e, f | e in s.evals && f in s.evals && e.id == f.id :: e == f
  }

  // Neither the evaluation nor one of its allocations is deleted.
  ghost predicate Keeps(s: Snapshot, actions: seq<Action>, e: Eval) {
    && !DeletesEval(actions, e.id)
    && forall a | a in s.allocs && a.evalID == e.id :: !DeletesAlloc(actions, a.id)
  }

  lemma KeepsBoth(s: Snapshot, first: (seq<Action>, bool), second: (seq<Action>, bool), e: Eval)
    requires Keeps(s, first.0, e) && Keeps(s, second.0, e)
    ensures Keeps(s, Then(first, second).0, e)
  {
    forall id {
      DeletesBoth(first.0, second.0, id);
    }
  }

  lemma EvalGcKeepsBatch(s: Snapshot, threshold: nat, e: Eval)
    requires UniqueEvals(s) && UniqueAllocs(s) && e in s.evals && e.batch && e.jobID in s.jobs
    requires !(s.jobs[e.jobID].dead && s.jobs[e.jobID].stop)
    ensures Keeps(s, EvalGc(s, threshold).0, e)
  {
    if EvalGc(s, threshold).1 {
      forall id {
        EvalGcIsExact(s, threshold, id);
      }
    }
  }

  lemma JobGcKeepsBatch(s: Snapshot, threshold: nat, e: Eval)
    requires UniqueEvals(s) && UniqueAllocs(s) && e in s.evals && e.batch && e.jobID in s.jobs
    requires !s.jobs[e.jobID].dead
    ensures Keeps(s, JobGcPlan(s, threshold).0, e)
  {
    assert !GoesWithJob(s, threshold, s.gcJobs, e);
    if JobGcPlan(s, threshold).1 {
      forall id {
        JobGcDeletesExactly(s, threshold, id);
      }
    }
  }

  // An evaluation GC deletes nothing of a batch job unless the job is gone, or dead
  // and stopped; no core job deletes anything of a batch job that is not dead.
  lemma LiveBatchIsKept(s: Snapshot, job: CoreJob, threshold: nat, e: Eval)
    requires UniqueEvals(s) && UniqueAllocs(s) && e in s.evals && e.batch && e.jobID in s.jobs
    requires !s.jobs[e.jobID].dead || (job == EvalGC && !s.jobs[e.jobID].stop)
    ensures Keeps(s, Process(s, job, threshold).0, e)
  {
    if job == EvalGC {
      EvalGcKeepsBatch(s, threshold, e);
    } else {
      JobGcKeepsBatch(s, threshold, e);
      var first, second := JobGcPlan(s, MAX_UINT64), EvalGc(s, MAX_UINT64);
      JobGcKeepsBatch(s, MAX_UINT64, e);
      EvalGcKeepsBatch(s, MAX_UINT64, e);
      KeepsBoth(s, first, second, e);
      KeepsBoth(s, Then(first, second), DeploymentGc(s, MAX_UINT64), e);
      KeepsBoth(s, Then(Then(first, second), DeploymentGc(s, MAX_UINT64)), NodeGc(s, MAX_UINT64), e);
    }
  }

  // Jobs, nodes and deployments

  ghost predicate DeletesDeployment(actions: seq<Action>, id: ID) {
    exists x :: x in actions && x.ReapDeployments? && id in x.deployments
  }

  lemma {:induction false} ChunksHold(ids: seq<ID>, max: nat, id: ID)
    requires max >= 1
    ensures id in ids <==> exists c :: c in Chunks(ids, max) && id in c
  {
    if ids != [] {
      var n := Min(|ids|, max);
      ChunksHold(ids[n..], max, id);
      TakeRest(ids, n);
    }
  }

  // What is deregistered and which deployments are deleted, from the lookups on.
  lemma JobsGoIff(s: Snapshot, threshold: nat, id: ID)
    ensures DeregisterJob(id) in Process(s, JobGC, threshold).0 <==>
      JobsByGC !in s.failing && exists job :: job in s.gcJobs && job.id == id && JobMayGo(s, threshold, job)
  {
    JobGcIsExact(s, threshold, s.gcJobs, id);
    if JobsByGC !in s.failing {
      var jobs := JobGcIds(s, threshold, s.gcJobs).0;
      if id in jobs {
        var i :| 0 <= i < |jobs| && jobs[i] == id;
        assert Deregisters(jobs)[i] == DeregisterJob(id);
      }
    }
  }

  lemma NodesGoIff(s: Snapshot, threshold: nat, id: ID)
    ensures DeregisterNode(id) in Process(s, NodeGC, threshold).0 <==>
      && AllNodes !in s.failing && AllocsByNode(id) !in s.failing && Quiet(s, id)
      && exists n :: n in s.nodes && n.id == id && n.terminal && n.modifyIndex <= threshold
  {
    NodeGcIsExact(s, threshold, s.nodes, id);
    if AllNodes !in s.failing {
      var nodes, actions := NodeGcIds(s, threshold, s.nodes), NodeGc(s, threshold).0;
      if id in nodes {
        var i :| 0 <= i < |nodes| && nodes[i] == id;
        assert actions[i] == DeregisterNode(id);
      }
    }
  }

  lemma DeploymentsGoIff(s: Snapshot, threshold: nat, id: ID)
    ensures DeletesDeployment(Process(s, DeploymentGC, threshold).0, id) <==>
      && AllDeployments !in s.failing
      && exists d :: d in s.deployments && d.id == id && !d.active && d.modifyIndex <= threshold
  {
    var ids := DeploymentGcIds(threshold, s.deployments);
    DeploymentGcIsExact(threshold, s.deployments, id);
    ChunksHold(ids, MAX_IDS_PER_REAP, id);
    if AllDeployments !in s.failing {
      var chunks, actions := Chunks(ids, MAX_IDS_PER_REAP), DeploymentGc(s, threshold).0;
      forall c | c in chunks && id in c ensures DeletesDeployment(actions, id) {
        var i :| 0 <= i < |chunks| && chunks[i] == c;
        assert actions[i] in actions;
      }
    }
  }

  // The kinds of actions that concern one ID.
  datatype Effects = Effects(eval: bool, alloc: bool, job: bool, deployment: bool, node: bool)

  ghost function EffectsOn(actions: seq<Action>, id: ID): Effects {
    Effects(DeletesEval(actions, id), DeletesAlloc(actions, id), DeregisterJob(id) in actions,
            DeletesDeployment(actions, id), DeregisterNode(id) in actions)
  }

  ghost function Either(x: Effects, y: Effects): Effects {
    Effects(x.eval || y.eval, x.alloc || y.alloc, x.job || y.job, x.deployment || y.deployment, x.node || y.node)
  }

  lemma ThenDoesBoth(first: (seq<Action>, bool), second: (seq<Action>, bool), id: ID)
    ensures first.1 ==>
      EffectsOn(Then(first, second).0, id) == Either(EffectsOn(first.0, id), EffectsOn(second.0, id))
  {
    DeletesBoth(first.0, second.0, id);
    assert DeletesDeployment(first.0 + second.0, id) <==>
      DeletesDeployment(first.0, id) || DeletesDeployment(second.0, id);
  }

  lemma FourInTurn(first: (seq<Action>, bool), second: (seq<Action>, bool), third: (seq<Action>, bool),
                   last: (seq<Action>, bool), id: ID)
    ensures var plan := Then(Then(Then(first, second), third), last);
      plan.1 ==>
        EffectsOn(plan.0, id) == Either(Either(EffectsOn(first.0, id), EffectsOn(second.0, id)),
                                        Either(EffectsOn(third.0, id), EffectsOn(last.0, id)))
  {
    ThenDoesBoth(first, second, id);
    ThenDoesBoth(Then(first, second), third, id);
    ThenDoesBoth(Then(Then(first, second), third), last, id);
  }

  // A forced GC that gets to its end does what the four kinds do when nothing is too
  // young, indexes being 64 bits wide.
  lemma ForceTakesAll(s: Snapshot, threshold: nat, id: ID)
    requires Process(s, ForceGC, threshold).1
    ensures var all := 0x1_0000_0000_0000_0000 - 1;
      EffectsOn(Process(s, ForceGC, threshold).0, id) ==
        Either(Either(EffectsOn(Process(s, JobGC, all).0, id), EffectsOn(Process(s, EvalGC, all).0, id)),
               Either(EffectsOn(Process(s, DeploymentGC, all).0, id), EffectsOn(Process(s, NodeGC, all).0, id)))
  {
    var all := 0x1_0000_0000_0000_0000 - 1;
    FourInTurn(Process(s, JobGC, all), Process(s, EvalGC, all),
               Process(s, DeploymentGC, all), Process(s, NodeGC, all), id);
  }

  // Request sizes

  ghost predicate Small(x: Action) {
    && (x.Reap? ==> 1 <= |x.request.evals| + |x.request.allocs| <= 7281)
    && (x.ReapDeployments? ==> 1 <= |x.deployments| <= 7281)
  }

  ghost predicate AllSmall(actions: seq<Action>) {
    forall i | 0 <= i < |actions| :: Small(actions[i])
  }

  lemma ReapsAreSmall(evals: seq<ID>, allocs: seq<ID>)
    ensures AllSmall(Reaps(Partition(evals, allocs, MAX_IDS_PER_REAP)))
  {
    var rs := Partition(evals, allocs, MAX_IDS_PER_REAP);
    forall i | 0 <= i < |rs| ensures Small(Reaps(rs)[i]) {
      PartitionFills(evals, allocs, MAX_IDS_PER_REAP, i);
    }
  }

  lemma EvalGcIsSmall(s: Snapshot, threshold: nat)
    ensures AllSmall(EvalGc(s, threshold).0)
  {
    if AllEvals !in s.failing && EvalGcIds(s, threshold, s.evals).Found? {
      var (es, allocs) := EvalGcIds(s, threshold, s.evals).value;
      ReapsAreSmall(es, allocs);
    }
  }

  lemma JobGcIsSmall(s: Snapshot, threshold: nat)
    ensures AllSmall(JobGcPlan(s, threshold).0)
  {
    if JobsByGC !in s.failing {
      var (jobs, es, allocs) := JobGcIds(s, threshold, s.gcJobs);
      ReapsAreSmall(es, allocs);
    }
  }

  lemma DeploymentGcIsSmall(s: Snapshot, threshold: nat)
    ensures AllSmall(DeploymentGc(s, threshold).0)
  {
    var ids := DeploymentGcIds(threshold, s.deployments);
    var rs, chunks := Partition(ids, [], MAX_IDS_PER_REAP), Chunks(ids, MAX_IDS_PER_REAP);
    ChunksArePartition(ids, MAX_IDS_PER_REAP);
    forall i | 0 <= i < |chunks| ensures 1 <= |chunks[i]| <= 7281 {
      PartitionFills(ids, [], MAX_IDS_PER_REAP, i);
      assert rs[i] == Request(chunks[i], []);
    }
  }

  lemma ThenIsSmall(first: (seq<Action>, bool), second: (seq<Action>, bool))
    requires AllSmall(first.0) && AllSmall(second.0)
    ensures AllSmall(Then(first, second).0)
  {
  }

  // Whatever a core job sends fits 0.25 MB of 36-character IDs, and is not empty.
  lemma RequestsAreSmall(s: Snapshot, job: CoreJob, threshold: nat)
    ensures AllSmall(Process(s, job, threshold).0)
  {
    var t := if job == ForceGC then MAX_UINT64 else threshold;
    EvalGcIsSmall(s, t);
    JobGcIsSmall(s, t);
    DeploymentGcIsSmall(s, t);
    var first, second, third := JobGcPlan(s, t), EvalGc(s, t), DeploymentGc(s, t);
    ThenIsSmall(first, second);
    ThenIsSmall(Then(first, second), third);
    ThenIsSmall(Then(Then(first, second), third), NodeGc(s, t));
  }
}
