/**
 Evaluations and the comparator of the broker's pending queues.
 */
module Evaluations {
  import opened GoHeap

  type ID = string
  type JobID = string
  type Queue = string
  type Token = string
  type Class = string

  // Why the evaluation was created; only exhausted plan attempts matter here.
  datatype Trigger = MaxPlans | OtherTrigger

  // The fields of structs.Evaluation that the broker and the blocked tracker read.
  datatype Eval = Eval(
    id: ID,
    jobID: JobID,
    kind: Queue,
    priority: int,
    createIndex: nat,
    wait: int,
    snapshotIndex: nat,
    escaped: bool,
    eligibility: map<Class, bool>,
    triggeredBy: Trigger)

  // PendingEvaluations.Less
  predicate Less(a: Eval, b: Eval) {
    if a.jobID != b.jobID && a.priority != b.priority
    then !(a.priority < b.priority)
    else a.createIndex < b.createIndex
  }

  ghost predicate DistinctJobs(s: set<Eval>) {
    forall a, b | a in s && b in s && a.jobID == b.jobID :: a == b
  }

  ghost predicate OneJob(s: set<Eval>) {
    forall a, b | a in s && b in s :: a.jobID == b.jobID
  }

  // Less cycles: two evaluations of one job compare by create index even when
  // an evaluation of another job lies between their priorities.
  lemma LessIsNotTransitive()
    ensures exists a, b, c :: Less(a, b) && Less(b, c) && Less(c, a)
  {
    var a := Eval("a", "x", "service", 10, 1, 0, 0, false, map[], OtherTrigger);
    var b := a.(id := "b", priority := 90, createIndex := 2);
    var c := a.(id := "c", jobID := "y", priority := 50, createIndex := 3);
    assert Less(a, b) && Less(b, c) && Less(c, a);
  }

  // A set without that mix is ordered: the ready queues hold distinct jobs and
  // each blocked queue holds one job.
  lemma LessIsWeakOrder(s: set<Eval>)
    requires DistinctJobs(s) || OneJob(s)
    ensures WeakOrder(Less, s)
  {
  }

  lemma RootOfReadyQueue(h: seq<Eval>, s: set<Eval>, i: nat)
    requires i < |h| && IsHeap(Less, h) && Within(h, s) && DistinctJobs(s)
    ensures h[0].priority > h[i].priority
         || (h[0].priority == h[i].priority && h[0].createIndex <= h[i].createIndex)
  {
    LessIsWeakOrder(s);
    RootIsLeast(Less, h, i, s);
  }

  lemma RootOfBlockedQueue(h: seq<Eval>, s: set<Eval>, i: nat)
    requires i < |h| && IsHeap(Less, h) && Within(h, s) && OneJob(s)
    ensures h[0].createIndex <= h[i].createIndex
  {
    LessIsWeakOrder(s);
    RootIsLeast(Less, h, i, s);
  }
}
