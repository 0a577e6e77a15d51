/**
 The loops of the core scheduler, each proved to compute the plan.
 */
module CoreScheduler {
  import opened CoreModel
  import opened CoreTheorems

  // The scan over an evaluation's allocations.
  method ScanAllocs(allocs: seq<Alloc>, threshold: nat) returns (gc: bool, ids: seq<ID>)
    ensures gc <==> forall a | a in allocs :: a.terminal && a.modifyIndex <= threshold
    ensures ids == OldIds(allocs, threshold)
  {
    gc, ids := true, [];
    for i := 0 to |allocs|
      invariant gc <==> forall j | 0 <= j < i :: allocs[j].terminal && allocs[j].modifyIndex <= threshold
      invariant ids == OldIds(allocs[..i], threshold)
    {
      assert allocs[..i + 1][..i] == allocs[..i];
      if !allocs[i].terminal || allocs[i].modifyIndex > threshold {
        gc := false;
      } else {
        ids := ids + [allocs[i].id];
      }
    }
    assert allocs[..|allocs|] == allocs;
  }

  method CheckEval(s: Snapshot, e: Eval, threshold: nat, allowBatch: bool) returns (r: Result<(bool, seq<ID>)>)
    ensures r == GcEval(s, e, threshold, allowBatch)
    ensures r.Failed? <==> LookupFails(s, e, threshold, allowBatch)
    ensures r.Found? ==>
      && (r.value.0 <==> Eligible(s, e, threshold, allowBatch))
      && forall id :: id in r.value.1 <==> Settled(s, e, threshold, allowBatch) && OldOf(s, e.id, threshold, id)
  {
    GcEvalIsExact(s, e, threshold, allowBatch);
    if !e.terminal || e.modifyIndex > threshold {
      return Found((false, []));
    }
    if e.batch {
      if JobByID(e.jobID) in s.failing {
        return Failed;
      }
      var collect := false;
      if e.jobID !in s.jobs {
        collect := true;
      } else if !s.jobs[e.jobID].dead {
        collect := false;
      } else if s.jobs[e.jobID].stop {
        collect := true;
      } else if allowBatch {
        collect := true;
      }
      if !collect {
        return Found((false, []));
      }
    }
    if AllocsByEval(e.id) in s.failing {
      return Failed;
    }
    var gc, ids := ScanAllocs(AllocsOf(s, e.id), threshold);
    return Found((gc, ids));
  }

  // One request: allocations first, evaluations in the space that is left.
  method FillRequest(evals: seq<ID>, allocs: seq<ID>, sentEvals: nat, sentAllocs: nat, max: nat)
    returns (evalsEnd: nat, allocsEnd: nat)
    requires max >= 1 && sentEvals <= |evals| && sentAllocs <= |allocs|
    ensures sentEvals <= evalsEnd <= |evals| && sentAllocs <= allocsEnd <= |allocs|
    ensures allocsEnd - sentAllocs == Min(|allocs| - sentAllocs, max)
    ensures evalsEnd - sentEvals == Min(|evals| - sentEvals, max - (allocsEnd - sentAllocs))
  {
    evalsEnd, allocsEnd := sentEvals, sentAllocs;
    var available := max;
    var remaining := |allocs| - sentAllocs;
    if remaining > 0 {
      if remaining <= available {
        available := available - remaining;
        allocsEnd := allocsEnd + remaining;
      } else {
        allocsEnd := allocsEnd + available;
        return;
      }
    }
    remaining := |evals| - sentEvals;
    if remaining > 0 {
      if remaining <= available {
        evalsEnd := evalsEnd + remaining;
      } else {
        evalsEnd := evalsEnd + available;
      }
    }
  }

  method PartitionEvalReap(evals: seq<ID>, allocs: seq<ID>, max: nat) returns (requests: seq<Request>)
    requires max >= 1
    ensures requests == Partition(evals, allocs, max)
  {
    requests := [];
    var submittedEvals, submittedAllocs := 0, 0;
    assert evals[0..] == evals && allocs[0..] == allocs;
    while submittedEvals != |evals| || submittedAllocs != |allocs|
      invariant submittedEvals <= |evals| && submittedAllocs <= |allocs|
      invariant requests + Partition(evals[submittedEvals..], allocs[submittedAllocs..], max)
             == Partition(evals, allocs, max)
      decreases |evals| - submittedEvals + |allocs| - submittedAllocs
    {
      var evalsEnd, allocsEnd := FillRequest(evals, allocs, submittedEvals, submittedAllocs, max);
      var req := Request(evals[submittedEvals..evalsEnd], allocs[submittedAllocs..allocsEnd]);
      PartitionStep(evals, submittedEvals, evalsEnd, allocs, submittedAllocs, allocsEnd, max);
      requests := requests + [req];
      submittedEvals, submittedAllocs := evalsEnd, allocsEnd;
    }
  }

  lemma PartitionStep(evals: seq<ID>, e: nat, e': nat, allocs: seq<ID>, a: nat, a': nat, max: nat)
    requires max >= 1 && e <= e' <= |evals| && a <= a' <= |allocs| && (e != |evals| || a != |allocs|)
    requires a' - a == Min(|allocs| - a, max) && e' - e == Min(|evals| - e, max - (a' - a))
    ensures Partition(evals[e..], allocs[a..], max)
         == [Request(evals[e..e'], allocs[a..a'])] + Partition(evals[e'..], allocs[a'..], max)
  {
    assert evals[e..][..e' - e] == evals[e..e'] && evals[e..][e' - e..] == evals[e'..];
    assert allocs[a..][..a' - a] == allocs[a..a'] && allocs[a..][a' - a..] == allocs[a'..];
  }

  method PartitionDeploymentReap(ids: seq<ID>, max: nat) returns (requests: seq<seq<ID>>)
    requires max >= 1
    ensures requests == Chunks(ids, max)
  {
    requests := [];
    var submitted := 0;
    assert ids[0..] == ids;
    while submitted != |ids|
      invariant submitted <= |ids| && requests + Chunks(ids[submitted..], max) == Chunks(ids, max)
      decreases |ids| - submitted
    {
      ghost var rest := ids[submitted..];
      var remaining, available, req := |ids| - submitted, max, [];
      if remaining <= available {
        req := ids[submitted..];
        submitted := submitted + remaining;
      } else {
        req := ids[submitted..submitted + available];
        submitted := submitted + available;
      }
      assert rest[..|req|] == req && rest[|req|..] == ids[submitted..];
      requests := requests + [req];
    }
  }

  method CollectEvals(s: Snapshot, threshold: nat) returns (actions: seq<Action>, ok: bool)
    ensures (actions, ok) == EvalGc(s, threshold)
  {
    if AllEvals in s.failing {
      return [], false;
    }
    var gcEval, gcAlloc := [], [];
    for i := 0 to |s.evals|
      invariant EvalGcIds(s, threshold, s.evals[..i]) == Found((gcEval, gcAlloc))
    {
      assert s.evals[..i + 1][..i] == s.evals[..i];
      var r := CheckEval(s, s.evals[i], threshold, false);
      if r.Failed? {
        EvalGcFails(s, threshold, s.evals, i + 1);
        return [], false;
      }
      if r.value.0 {
        gcEval := gcEval + [s.evals[i].id];
      }
      gcAlloc := gcAlloc + r.value.1;
    }
    assert s.evals[..|s.evals|] == s.evals;
    var requests := PartitionEvalReap(gcEval, gcAlloc, MAX_IDS_PER_REAP);
    return Reaps(requests), true;
  }

  lemma {:induction false} EvalGcFails(s: Snapshot, threshold: nat, evals: seq<Eval>, i: nat)
    requires i <= |evals| && EvalGcIds(s, threshold, evals[..i]).Failed?
    ensures EvalGcIds(s, threshold, evals).Failed?
    decreases |evals| - i
  {
    if i == |evals| {
      assert evals[..i] == evals;
    } else {
      assert evals[..i + 1][..i] == evals[..i];
      EvalGcFails(s, threshold, evals, i + 1);
    }
  }

  // The evaluations of one job; Failed stands for a job that has to stay.
  method CollectJob(s: Snapshot, threshold: nat, evals: seq<Eval>) returns (r: Result<(seq<ID>, seq<ID>)>)
    ensures r == JobIds(s, threshold, evals)
  {
    var jobEval, jobAlloc := [], [];
    for i := 0 to |evals|
      invariant JobIds(s, threshold, evals[..i]) == Found((jobEval, jobAlloc))
    {
      assert evals[..i + 1][..i] == evals[..i];
      var e := CheckEval(s, evals[i], threshold, true);
      if e.Failed? || !e.value.0 {
        JobIdsFails(s, threshold, evals, i + 1);
        return Failed;
      }
      jobEval := jobEval + [evals[i].id];
      jobAlloc := jobAlloc + e.value.1;
    }
    assert evals[..|evals|] == evals;
    return Found((jobEval, jobAlloc));
  }

  lemma {:induction false} JobIdsFails(s: Snapshot, threshold: nat, evals: seq<Eval>, i: nat)
    requires i <= |evals| && JobIds(s, threshold, evals[..i]).Failed?
    ensures JobIds(s, threshold, evals).Failed?
    decreases |evals| - i
  {
    if i == |evals| {
      assert evals[..i] == evals;
    } else {
      assert evals[..i + 1][..i] == evals[..i];
      JobIdsFails(s, threshold, evals, i + 1);
    }
  }

  method CollectJobs(s: Snapshot, threshold: nat) returns (actions: seq<Action>, ok: bool)
    ensures (actions, ok) == JobGcPlan(s, threshold)
  {
    if JobsByGC in s.failing {
      return [], false;
    }
    var gcJob, gcEval, gcAlloc := [], [], [];
    for i := 0 to |s.gcJobs|
      invariant JobGcIds(s, threshold, s.gcJobs[..i]) == (gcJob, gcEval, gcAlloc)
    {
      assert s.gcJobs[..i + 1][..i] == s.gcJobs[..i];
      var job := s.gcJobs[i];
      if job.createIndex > threshold || EvalsByJob(job.id) in s.failing {
        continue;
      }
      var r := CollectJob(s, threshold, EvalsOf(s, job.id));
      if r.Found? {
        gcJob, gcEval, gcAlloc := gcJob + [job.id], gcEval + r.value.0, gcAlloc + r.value.1;
      }
    }
    assert s.gcJobs[..|s.gcJobs|] == s.gcJobs;
    var requests := PartitionEvalReap(gcEval, gcAlloc, MAX_IDS_PER_REAP);
    return Reaps(requests) + Deregisters(gcJob), true;
  }

  method CollectNodes(s: Snapshot, threshold: nat) returns (actions: seq<Action>, ok: bool)
    ensures (actions, ok) == NodeGc(s, threshold)
  {
    if AllNodes in s.failing {
      return [], false;
    }
    var gcNode := [];
    for i := 0 to |s.nodes|
      invariant gcNode == NodeGcIds(s, threshold, s.nodes[..i])
    {
      assert s.nodes[..i + 1][..i] == s.nodes[..i];
      var node := s.nodes[i];
      if node.terminal && node.modifyIndex <= threshold && AllocsByNode(node.id) !in s.failing {
        var quiet := AllTerminal(AllocsOn(s, node.id));
        if quiet {
          gcNode := gcNode + [node.id];
        }
      }
    }
    assert s.nodes[..|s.nodes|] == s.nodes;
    return seq(|gcNode|, i requires 0 <= i < |gcNode| => DeregisterNode(gcNode[i])), true;
  }

  method AllTerminal(allocs: seq<Alloc>) returns (r: bool)
    ensures r <==> forall a | a in allocs :: a.terminal
  {
    for i := 0 to |allocs|
      invariant forall j | 0 <= j < i :: allocs[j].terminal
    {
      if !allocs[i].terminal {
        return false;
      }
    }
    return true;
  }

  method CollectDeployments(s: Snapshot, threshold: nat) returns (actions: seq<Action>, ok: bool)
    ensures (actions, ok) == DeploymentGc(s, threshold)
  {
    if AllDeployments in s.failing {
      return [], false;
    }
    var gc := [];
    for i := 0 to |s.deployments|
      invariant gc == DeploymentGcIds(threshold, s.deployments[..i])
    {
      assert s.deployments[..i + 1][..i] == s.deployments[..i];
      var d := s.deployments[i];
      if d.active || d.modifyIndex > threshold {
        continue;
      }
      gc := gc + [d.id];
    }
    assert s.deployments[..|s.deployments|] == s.deployments;
    var chunks := PartitionDeploymentReap(gc, MAX_IDS_PER_REAP);
    return seq(|chunks|, i requires 0 <= i < |chunks| => ReapDeployments(chunks[i])), true;
  }

  // A forced GC stops at the first part that fails.
  method Run(s: Snapshot, job: CoreJob, threshold: nat) returns (actions: seq<Action>, ok: bool)
    ensures (actions, ok) == Process(s, job, threshold)
  {
    match job
    case EvalGC => actions, ok := CollectEvals(s, threshold);
    case NodeGC => actions, ok := CollectNodes(s, threshold);
    case JobGC => actions, ok := CollectJobs(s, threshold);
    case DeploymentGC => actions, ok := CollectDeployments(s, threshold);
    case UnknownJob => actions, ok := [], false;
    case ForceGC =>
      actions, ok := CollectJobs(s, MAX_UINT64);
      var more;
      if ok {
        more, ok := CollectEvals(s, MAX_UINT64);
        actions := actions + more;
      }
      if ok {
        more, ok := CollectDeployments(s, MAX_UINT64);
        actions := actions + more;
      }
      if ok {
        more, ok := CollectNodes(s, MAX_UINT64);
        actions := actions + more;
      }
  }
}
