/**
 The core scheduler's garbage collection as plans over a snapshot of the state store:
 what is eligible, how the deletions are batched and in which order they are issued.
 */
module CoreModel {
  type ID = string

  const MAX_UINT64 := 0xFFFF_FFFF_FFFF_FFFF

  // 0.25 MB of IDs
  const MAX_IDS_PER_REAP := (1024 * 256) / 36

  datatype Eval = Eval(id: ID, jobID: ID, batch: bool, terminal: bool, modifyIndex: nat)

  datatype Alloc = Alloc(id: ID, evalID: ID, nodeID: ID, terminal: bool, modifyIndex: nat)

  datatype Job = Job(id: ID, dead: bool, stop: bool, createIndex: nat)

  datatype Node = Node(id: ID, terminal: bool, modifyIndex: nat)

  datatype Deployment = Deployment(id: ID, active: bool, modifyIndex: nat)

  datatype Query =
    | JobsByGC
    | AllEvals
    | AllNodes
    | AllDeployments
    | JobByID(id: ID)
    | EvalsByJob(id: ID)
    | AllocsByEval(id: ID)
    | AllocsByNode(id: ID)

  // The queries in failing return an error.
  datatype Snapshot = Snapshot(
    evals: seq<Eval>,
    allocs: seq<Alloc>,
    jobs: map<ID, Job>,
    gcJobs: seq<Job>,
    nodes: seq<Node>,
    deployments: seq<Deployment>,
    failing: set<Query>)

  datatype Result<T> = Found(value: T) | Failed

  datatype Request = Request(evals: seq<ID>, allocs: seq<ID>)

  datatype Action =
    | Reap(request: Request)
    | DeregisterJob(job: ID)
    | ReapDeployments(deployments: seq<ID>)
    | DeregisterNode(node: ID)

  function Where<T>(xs: seq<T>, p: T -> bool): seq<T> {
    if xs == [] then []
    else
      var last := xs[|xs| - 1];
      Where(xs[..|xs| - 1], p) + (if p(last) then [last] else [])
  }

  lemma {:induction false} WhereMember<T>(xs: seq<T>, p: T -> bool, x: T)
    ensures x in Where(xs, p) <==> x in xs && p(x)
  {
    if xs != [] {
      WhereMember(xs[..|xs| - 1], p, x);
      assert xs == xs[..|xs| - 1] + [xs[|xs| - 1]];
    }
  }

  function AllocsOf(s: Snapshot, eval: ID): seq<Alloc> {
    Where(s.allocs, (a: Alloc) => a.evalID == eval)
  }

  function EvalsOf(s: Snapshot, job: ID): seq<Eval> {
    Where(s.evals, (e: Eval) => e.jobID == job)
  }

  function AllocsOn(s: Snapshot, node: ID): seq<Alloc> {
    Where(s.allocs, (a: Alloc) => a.nodeID == node)
  }

  // Eligibility

  predicate Old(a: Alloc, threshold: nat) {
    a.terminal && a.modifyIndex <= threshold
  }

  function OldIds(allocs: seq<Alloc>, threshold: nat): seq<ID> {
    if allocs == [] then []
    else
      var last := allocs[|allocs| - 1];
      OldIds(allocs[..|allocs| - 1], threshold) + (if Old(last, threshold) then [last.id] else [])
  }

  // Whether the evaluations of a batch job may go.
  predicate BatchMayGo(s: Snapshot, job: ID, allowBatch: bool) {
    job !in s.jobs || (s.jobs[job].dead && (s.jobs[job].stop || allowBatch))
  }

  function GcEval(s: Snapshot, e: Eval, threshold: nat, allowBatch: bool): Result<(bool, seq<ID>)> {
    if !e.terminal || e.modifyIndex > threshold then Found((false, []))
    else if e.batch && JobByID(e.jobID) in s.failing then Failed
    else if e.batch && !BatchMayGo(s, e.jobID, allowBatch) then Found((false, []))
    else if AllocsByEval(e.id) in s.failing then Failed
    else
      var allocs := AllocsOf(s, e.id);
      Found((forall a | a in allocs :: Old(a, threshold), OldIds(allocs, threshold)))
  }

  // What evalGC collects from evals: evaluation IDs and allocation IDs.
  function EvalGcIds(s: Snapshot, threshold: nat, evals: seq<Eval>): Result<(seq<ID>, seq<ID>)> {
    if evals == [] then Found(([], []))
    else
      var last := evals[|evals| - 1];
      match EvalGcIds(s, threshold, evals[..|evals| - 1])
      case Failed => Failed
      case Found((es, allocIds)) =>
        match GcEval(s, last, threshold, false)
        case Failed => Failed
        case Found((gc, allocs)) => Found((if gc then es + [last.id] else es, allocIds + allocs))
  }

  // All the evaluations of a job and their allocations, if every evaluation can go.
  function JobIds(s: Snapshot, threshold: nat, evals: seq<Eval>): Result<(seq<ID>, seq<ID>)> {
    if evals == [] then Found(([], []))
    else
      var last := evals[|evals| - 1];
      match JobIds(s, threshold, evals[..|evals| - 1])
      case Failed => Failed
      case Found((es, allocIds)) =>
        match GcEval(s, last, threshold, true)
        case Failed => Failed
        case Found((gc, allocs)) => if gc then Found((es + [last.id], allocIds + allocs)) else Failed
  }

  // What one job contributes, if it can go.
  function JobGc(s: Snapshot, threshold: nat, job: Job): Result<(seq<ID>, seq<ID>)> {
    if job.createIndex > threshold || EvalsByJob(job.id) in s.failing then Failed
    else JobIds(s, threshold, EvalsOf(s, job.id))
  }

  // What jobGC collects: jobs, evaluations and allocations.
  function JobGcIds(s: Snapshot, threshold: nat, jobs: seq<Job>): (seq<ID>, seq<ID>, seq<ID>) {
    if jobs == [] then ([], [], [])
    else
      var last := jobs[|jobs| - 1];
      var (js, es, allocIds) := JobGcIds(s, threshold, jobs[..|jobs| - 1]);
      match JobGc(s, threshold, last)
      case Failed => (js, es, allocIds)
      case Found((jobEvals, jobAllocs)) => (js + [last.id], es + jobEvals, allocIds + jobAllocs)
  }

  predicate NodeMayGo(s: Snapshot, threshold: nat, n: Node) {
    && n.terminal && n.modifyIndex <= threshold
    && AllocsByNode(n.id) !in s.failing
    && forall a | a in AllocsOn(s, n.id) :: a.terminal
  }

  function NodeGcIds(s: Snapshot, threshold: nat, nodes: seq<Node>): seq<ID> {
    if nodes == [] then []
    else
      var last := nodes[|nodes| - 1];
      NodeGcIds(s, threshold, nodes[..|nodes| - 1]) + (if NodeMayGo(s, threshold, last) then [last.id] else [])
  }

  function DeploymentGcIds(threshold: nat, deployments: seq<Deployment>): seq<ID> {
    if deployments == [] then []
    else
      var last := deployments[|deployments| - 1];
      DeploymentGcIds(threshold, deployments[..|deployments| - 1])
      + (if !last.active && last.modifyIndex <= threshold then [last.id] else [])
  }

  // Batching

  function Min(a: nat, b: nat): nat {
    if a <= b then a else b
  }

  // Allocations fill the requests first, evaluations the space that is left.
  function Partition(evals: seq<ID>, allocs: seq<ID>, max: nat): seq<Request>
    requires max >= 1
    decreases |evals| + |allocs|
  {
    if evals == [] && allocs == [] then []
    else
      var a := Min(|allocs|, max);
      var e := Min(|evals|, max - a);
      [Request(evals[..e], allocs[..a])] + Partition(evals[e..], allocs[a..], max)
  }

  function Chunks(ids: seq<ID>, max: nat): seq<seq<ID>>
    requires max >= 1
  {
    if ids == [] then []
    else
      var n := Min(|ids|, max);
      [ids[..n]] + Chunks(ids[n..], max)
  }

  // Plans: the requests of one call in the order in which they are issued, and
  // whether the call gets to its end if none of them fails.

  function Reaps(requests: seq<Request>): seq<Action> {
    seq(|requests|, i requires 0 <= i < |requests| => Reap(requests[i]))
  }

  function EvalGc(s: Snapshot, threshold: nat): (seq<Action>, bool) {
    if AllEvals in s.failing then ([], false)
    else
      match EvalGcIds(s, threshold, s.evals)
      case Failed => ([], false)
      case Found((evals, allocs)) => (Reaps(Partition(evals, allocs, MAX_IDS_PER_REAP)), true)
  }

  function Deregisters(jobs: seq<ID>): seq<Action> {
    seq(|jobs|, i requires 0 <= i < |jobs| => DeregisterJob(jobs[i]))
  }

  function JobGcPlan(s: Snapshot, threshold: nat): (seq<Action>, bool) {
    if JobsByGC in s.failing then ([], false)
    else
      var (jobs, evals, allocs) := JobGcIds(s, threshold, s.gcJobs);
      (Reaps(Partition(evals, allocs, MAX_IDS_PER_REAP)) + Deregisters(jobs), true)
  }

  function NodeGc(s: Snapshot, threshold: nat): (seq<Action>, bool) {
    if AllNodes in s.failing then ([], false)
    else
      var nodes := NodeGcIds(s, threshold, s.nodes);
      (seq(|nodes|, i requires 0 <= i < |nodes| => DeregisterNode(nodes[i])), true)
  }

  function DeploymentGc(s: Snapshot, threshold: nat): (seq<Action>, bool) {
    if AllDeployments in s.failing then ([], false)
    else
      var chunks := Chunks(DeploymentGcIds(threshold, s.deployments), MAX_IDS_PER_REAP);
      (seq(|chunks|, i requires 0 <= i < |chunks| => ReapDeployments(chunks[i])), true)
  }

  // Run one plan after another, as long as they get to their end.
  function Then(first: (seq<Action>, bool), second: (seq<Action>, bool)): (seq<Action>, bool) {
    if first.1 then (first.0 + second.0, second.1) else first
  }

  datatype CoreJob = EvalGC | NodeGC | JobGC | DeploymentGC | ForceGC | UnknownJob

  // The threshold is the index that the time table gives for the kind of GC; a forced
  // GC takes everything.
  function Process(s: Snapshot, job: CoreJob, threshold: nat): (seq<Action>, bool) {
    match job
    case EvalGC => EvalGc(s, threshold)
    case NodeGC => NodeGc(s, threshold)
    case JobGC => JobGcPlan(s, threshold)
    case DeploymentGC => DeploymentGc(s, threshold)
    case ForceGC =>
      Then(Then(Then(JobGcPlan(s, MAX_UINT64), EvalGc(s, MAX_UINT64)), DeploymentGc(s, MAX_UINT64)),
           NodeGc(s, MAX_UINT64))
    case UnknownJob => ([], false)
  }
}
