/**
 No work is lost between the tracker and the broker: an evaluation that one of them has
 is there, or has moved to the other, until something is entitled to forget it.
 */
module BlockedKept {
  import opened Evaluations
  import opened BlockedModel
  import opened BlockedRuns
  import opened BlockedTheorems
  import B = BrokerRuns
  import BM = BrokerModel
  import T = BrokerTheorems

  predicate IsTracked(t: Tracker, job: JobID, id: ID) {
    id in Tracked(t) && Tracked(t)[id].eval.jobID == job
  }

  // The evaluation is tracked for its job or known to the broker.
  predicate Kept(s: System, job: JobID, id: ID) {
    IsTracked(s.t, job, id) || id in s.w.b.evals
  }

  // What may forget it: untracking its job, a successful Ack of it, or a flush.
  predicate MayForget(s: System, step: Step, job: JobID, id: ID) {
    match step
    case DisableTracker(_) => true
    case DoUntrack(j) => j == job
    case BrokerStep(x) =>
      x == B.Disable || (x.DoAck? && x.id == id && BM.Ack(s.w.b, id, x.token).1 == BM.Done)
    case _ => false
  }

  lemma BlockKeepsTracked(t: Tracker, e: Eval, token: Token, job: JobID, id: ID)
    requires Valid(t) && SameJob(t, e) && IsTracked(t, job, id)
    ensures IsTracked(Block(t, e, token), job, id)
  {
    if BlockVerdict(t, e) == Retained {
      TrackKeeps(t, e, token);
    }
  }

  lemma UntrackKeepsOthers(t: Tracker, j: JobID, job: JobID, id: ID)
    requires Valid(t) && j != job && IsTracked(t, job, id)
    ensures IsTracked(Untrack(t, j), job, id)
  {
    assert JobOk(t, j);
  }

  lemma TrackingIsEnabled(t: Tracker, id: ID)
    requires Valid(t) && id in Tracked(t)
    ensures t.enabled
  {
  }

  lemma ProcessKeeps(s: System, u: Update, batch: seq<(Eval, Token)>, job: JobID, id: ID)
    requires Tracking(s) && Legal(s, Process(u, batch)) && s.w.b.enabled && IsTracked(s.t, job, id)
    ensures Kept(ProcessNext(s, u, batch), job, id)
  {
    TrackingIsEnabled(s.t, id);
    ProcessReleases(s, u, batch, id);
    ReleasedIff(s.t, u.computedClass, id);
  }

  lemma FailedKeeps(s: System, batch: seq<(Eval, Token)>, job: JobID, id: ID)
    requires Tracking(s) && Legal(s, DoUnblockFailed(batch)) && s.w.b.enabled && IsTracked(s.t, job, id)
    ensures Kept(FailedNext(s, batch), job, id)
  {
    TrackingIsEnabled(s.t, id);
    FailedReleases(s, batch, id);
    FailedIff(s.t, id);
  }

  // The tracker keeps what it has, or hands it over.
  lemma TrackedIsKept(s: System, step: Step, job: JobID, id: ID)
    requires Tracking(s) && Legal(s, step) && s.w.b.enabled && IsTracked(s.t, job, id)
    requires !MayForget(s, step, job, id)
    ensures Kept(Next(s, step), job, id)
  {
    match step
    case DoBlock(e, token) => BlockKeepsTracked(s.t, e, token, job, id);
    case DoUntrack(j) => UntrackKeepsOthers(s.t, j, job, id);
    case Process(u, batch) => ProcessKeeps(s, u, batch, job, id);
    case DoUnblockFailed(batch) => FailedKeeps(s, batch, job, id);
    case _ =>
  }

  // The broker keeps what it has.
  lemma KnownIsKept(s: System, step: Step, job: JobID, id: ID)
    requires Legal(s, step) && id in s.w.b.evals && !MayForget(s, step, job, id)
    ensures id in Next(s, step).w.b.evals
  {
    match step
    case Process(_, batch) => OfferAllGrows(s.w, batch);
    case DoUnblockFailed(batch) => OfferAllGrows(s.w, batch);
    case BrokerStep(x) => T.OnlyAckForgets(s.w, x, id);
    case _ =>
  }

  lemma BrokerStaysOn(w: B.World, x: B.Step)
    requires B.Legal(w, x) && w.b.enabled && x != B.Disable
    ensures B.Next(w, x).b.enabled
  {
    match x
    case DoAck(id, t) => assert BM.Ack(w.b, id, t).0.enabled;
    case DoNack(id, t) => assert BM.Nack(w.b, id, t).0.enabled;
    case _ =>
  }

  lemma StaysOn(s: System, step: Step, job: JobID, id: ID)
    requires Legal(s, step) && s.w.b.enabled && !MayForget(s, step, job, id)
    ensures Next(s, step).w.b.enabled
  {
    match step
    case Process(_, batch) => OfferAllGrows(s.w, batch);
    case DoUnblockFailed(batch) => OfferAllGrows(s.w, batch);
    case BrokerStep(x) => BrokerStaysOn(s.w, x);
    case _ =>
  }

  // No step of the run may forget the evaluation.
  ghost predicate NoneForgets(s: System, steps: seq<Step>, job: JobID, id: ID)
    requires LegalRun(s, steps)
  {
    steps == []
    || (NoneForgets(s, steps[..|steps| - 1], job, id)
        && !MayForget(After(s, steps[..|steps| - 1]), steps[|steps| - 1], job, id))
  }

  // Over every run of tracker and enabled broker in which its job is not untracked, it
  // is not successfully acknowledged and nothing is flushed, an evaluation that either
  // of them has is not lost.
  lemma {:induction false} NoWorkIsLost(s: System, steps: seq<Step>, job: JobID, id: ID)
    requires SysInv(s) && s.w.b.enabled && Kept(s, job, id)
    requires LegalRun(s, steps) && NoneForgets(s, steps, job, id)
    ensures Kept(After(s, steps), job, id) && After(s, steps).w.b.enabled
  {
    if steps != [] {
      var prev, last := steps[..|steps| - 1], steps[|steps| - 1];
      var s1 := After(s, prev);
      NoWorkIsLost(s, prev, job, id);
      RunKeepsFrom(s, prev);
      StaysOn(s1, last, job, id);
      if id in s1.w.b.evals {
        KnownIsKept(s1, last, job, id);
      } else {
        TrackedIsKept(s1, last, job, id);
      }
    }
  }
}
