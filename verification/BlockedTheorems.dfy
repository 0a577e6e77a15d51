/**
 What the tracker promises over every run, alone and together with the broker.
 */
module BlockedTheorems {
  import opened Evaluations
  import opened BlockedModel
  import opened BlockedRuns
  import opened BrokerSteps
  import B = BrokerRuns
  import BM = BrokerModel
  import H = BrokerHandoff

  // No lost wakeups

  // For every accepted Unblock and every evaluation still tracked that it could
  // serve, an update able to release the evaluation is unsent, queued or being
  // processed.
  lemma NoLostWakeup(config: BM.Config, s: System, id: ID, u: Update)
    requires Reachable(config, s) && u in s.accepted && id in Tracked(s.t)
    requires var (e, c) := (Tracked(s.t)[id].eval, u.computedClass);
      e.snapshotIndex < u.index && (e.escaped || c !in e.eligibility || e.eligibility[c])
    ensures PendingFor(s, u.computedClass)
  {
    ReachableKeeps(config, s);
    assert WakeOk(s, id, u.computedClass);
  }

  // Once no update is in flight, no tracked evaluation has missed an unblock.
  lemma DrainedIsCaughtUp(config: BM.Config, s: System, id: ID)
    requires Reachable(config, s) && id in Tracked(s.t)
    requires s.unsent == multiset{} && s.queue == [] && s.processing == multiset{}
    ensures !Missed(s.t.unblockIndexes, Tracked(s.t)[id].eval)
    ensures var e := Tracked(s.t)[id].eval;
      forall u | u in s.accepted && e.snapshotIndex < u.index ::
        !e.escaped && u.computedClass in e.eligibility && !e.eligibility[u.computedClass]
  {
    ReachableKeeps(config, s);
    forall c | c in s.t.unblockIndexes && Serves(Tracked(s.t)[id].eval, c)
      ensures s.t.unblockIndexes[c] <= Tracked(s.t)[id].eval.snapshotIndex
    {
      assert WakeOk(s, id, c);
    }
  }

  // Processing an update releases exactly the evaluations its class could serve, and
  // the enabled broker knows them afterwards.
  lemma ProcessReleases(s: System, u: Update, batch: seq<(Eval, Token)>, id: ID)
    requires Tracking(s) && Legal(s, Process(u, batch)) && s.t.enabled && s.w.b.enabled && id in Tracked(s.t)
    ensures var (e, c, s') := (Tracked(s.t)[id].eval, u.computedClass, ProcessNext(s, u, batch));
      && (id !in Tracked(s'.t) <==> e.escaped || c !in e.eligibility || e.eligibility[c])
      && (id !in Tracked(s'.t) ==> id in s'.w.b.evals)
  {
    ReleasedIff(s.t, u.computedClass, id);
    if id in Released(s.t, u.computedClass) {
      BatchKnown(s.w, batch, Released(s.t, u.computedClass), id);
    }
  }

  lemma ReleasedIff(t: Tracker, c: Class, id: ID)
    requires Valid(t) && t.enabled && id in Tracked(t)
    ensures var (e, t') := (Tracked(t)[id].eval, Unblock(t, c));
      && (id in Released(t, c) <==> e.escaped || c !in e.eligibility || e.eligibility[c])
      && (id in Released(t, c) ==> Released(t, c)[id] == Tracked(t)[id] && e.id == id && id !in Tracked(t'))
      && (id !in Released(t, c) ==> id in Tracked(t') && Tracked(t')[id] == Tracked(t)[id])
  {
    assert HoldsOk(t.captured, false, t.jobs, id) && HoldsOk(t.escaped, true, t.jobs, id);
  }

  // Those whose class is marked ineligible, and those that did not run out of plans.
  function NotUsing(m: map<ID, Wrapped>, c: Class): map<ID, Wrapped> {
    map id | id in m && c in m[id].eval.eligibility && !m[id].eval.eligibility[c] :: m[id]
  }

  function NotFailed(m: map<ID, Wrapped>): map<ID, Wrapped> {
    map id | id in m && m[id].eval.triggeredBy != MaxPlans :: m[id]
  }

  lemma UnblockLeaves(t: Tracker, c: Class)
    requires t.enabled
    ensures Unblock(t, c).captured == NotUsing(t.captured, c) && Unblock(t, c).escaped == map[]
  {
  }

  lemma MinusFailed(m: map<ID, Wrapped>)
    ensures m - FailedIn(m) == NotFailed(m)
  {
  }

  lemma UnblockFailedLeaves(t: Tracker)
    requires t.enabled
    ensures UnblockFailed(t).captured == NotFailed(t.captured) && UnblockFailed(t).escaped == NotFailed(t.escaped)
  {
    MinusFailed(t.captured);
    MinusFailed(t.escaped);
  }

  lemma FailedPart(t: Tracker, id: ID)
    requires t.captured.Keys !! t.escaped.Keys && id in Tracked(t)
    ensures id in ReleasedFailed(t) <==> Tracked(t)[id].eval.triggeredBy == MaxPlans
    ensures id in ReleasedFailed(t) ==> ReleasedFailed(t)[id] == Tracked(t)[id]
  {
    if id in t.captured {
      assert id !in t.escaped;
    }
  }

  lemma NotFailedAt(m: map<ID, Wrapped>, n: map<ID, Wrapped>, id: ID)
    requires m.Keys !! n.Keys && id in m + n
    ensures id in NotFailed(m) + NotFailed(n) <==> (m + n)[id].eval.triggeredBy != MaxPlans
    ensures id in NotFailed(m) + NotFailed(n) ==> (NotFailed(m) + NotFailed(n))[id] == (m + n)[id]
  {
  }

  lemma FailedLeft(t: Tracker, id: ID)
    requires t.enabled && t.captured.Keys !! t.escaped.Keys && id in Tracked(t)
    ensures id in Tracked(UnblockFailed(t)) <==> Tracked(t)[id].eval.triggeredBy != MaxPlans
    ensures id in Tracked(UnblockFailed(t)) ==> Tracked(UnblockFailed(t))[id] == Tracked(t)[id]
  {
    UnblockFailedLeaves(t);
    NotFailedAt(t.captured, t.escaped, id);
  }

  lemma FailedIff(t: Tracker, id: ID)
    requires Valid(t) && t.enabled && id in Tracked(t)
    ensures var (e, t') := (Tracked(t)[id].eval, UnblockFailed(t));
      && (id in ReleasedFailed(t) <==> e.triggeredBy == MaxPlans)
      && (id in ReleasedFailed(t) ==> ReleasedFailed(t)[id] == Tracked(t)[id] && e.id == id && id !in Tracked(t'))
      && (id !in ReleasedFailed(t) ==> id in Tracked(t') && Tracked(t')[id] == Tracked(t)[id])
  {
    assert HoldsOk(t.captured, false, t.jobs, id) && HoldsOk(t.escaped, true, t.jobs, id);
    FailedPart(t, id);
    FailedLeft(t, id);
  }

  lemma BatchKnown(w: B.World, batch: seq<(Eval, Token)>, m: map<ID, Wrapped>, id: ID)
    requires Lists(batch, m) && id in m && m[id].eval.id == id && w.b.enabled
    ensures id in OfferAll(w, batch).b.evals
  {
    var i :| 0 <= i < |batch| && batch[i] == (m[id].eval, m[id].token);
    OfferAllKnown(w, batch, i);
  }

  // UnblockFailed releases exactly the evaluations of plans that failed too often, and
  // the enabled broker knows them afterwards.
  lemma FailedReleases(s: System, batch: seq<(Eval, Token)>, id: ID)
    requires Tracking(s) && Legal(s, DoUnblockFailed(batch)) && s.t.enabled && s.w.b.enabled && id in Tracked(s.t)
    ensures var s' := FailedNext(s, batch);
      && (id !in Tracked(s'.t) <==> Tracked(s.t)[id].eval.triggeredBy == MaxPlans)
      && (id !in Tracked(s'.t) ==> id in s'.w.b.evals)
  {
    FailedIff(s.t, id);
    if id in ReleasedFailed(s.t) {
      BatchKnown(s.w, batch, ReleasedFailed(s.t), id);
    }
  }

  // Where a blocked evaluation goes: nowhere if the tracker is off, to the duplicates
  // if its job is tracked, to the broker if a class it could use was unblocked after
  // its snapshot, and to the tracker otherwise.
  lemma BlockGoesTo(t: Tracker, e: Eval, token: Token)
    ensures var (t', verdict) := (Block(t, e, token), BlockVerdict(t, e));
      && (!t.enabled <==> verdict == Ignored)
      && (t.enabled && e.jobID in t.jobs <==> verdict == Duplicate)
      && (t.enabled && e.jobID !in t.jobs
          && (exists c :: c in t.unblockIndexes && e.snapshotIndex < t.unblockIndexes[c]
                          && (e.escaped || c !in e.eligibility || e.eligibility[c]))
          <==> verdict == Enqueued)
      && (verdict == Duplicate ==> t' == t.(duplicates := t.duplicates + [e]))
      && (verdict == Ignored || verdict == Enqueued ==> t' == t)
      && (verdict == Retained ==> TracksAlso(t, t', e, token))
  {
    assert Missed(t.unblockIndexes, e) <==>
      exists c :: c in t.unblockIndexes && e.snapshotIndex < t.unblockIndexes[c]
                  && (e.escaped || c !in e.eligibility || e.eligibility[c]);
  }

  // The evaluation is the job's, stored under its ID with the token, and nothing else
  // changes.
  ghost predicate TracksAlso(t: Tracker, t': Tracker, e: Eval, token: Token) {
    && t'.jobs == t.jobs[e.jobID := e.id]
    && t'.captured == (if e.escaped then t.captured else t.captured[e.id := Wrapped(e, token)])
    && t'.escaped == (if e.escaped then t.escaped[e.id := Wrapped(e, token)] else t.escaped)
    && t'.enabled == t.enabled && t'.unblockIndexes == t.unblockIndexes && t'.duplicates == t.duplicates
  }

  // An evaluation that missed an unblock is known to the enabled broker at once, and
  // held under its token if its own delivery is outstanding.
  lemma MissedIsKnown(s: System, e: Eval, token: Token)
    requires SysInv(s) && Legal(s, DoBlock(e, token)) && s.w.b.enabled && BlockVerdict(s.t, e) == Enqueued
    ensures var s' := BlockNext(s, e, token);
      && e.id in s'.w.b.evals && e.id !in Tracked(s'.t)
      && (H.Outstanding(s.w.b, e.id, token) ==>
            H.Held(s'.w.b, e.id, token) && s'.w.b.requeue[token] == e)
  {
    assert HoldsOk(s.t.captured, false, s.t.jobs, e.id) && HoldsOk(s.t.escaped, true, s.t.jobs, e.id);
    if H.Outstanding(s.w.b, e.id, token) {
      H.OfferHolds(s.w, e, token);
    }
  }

  // Recorded indexes must not decrease

  // Recording an unblock never makes the tracker forget that an evaluation missed
  // one, exactly when the index does not fall below the recorded one.
  lemma RecordForgetsIff(t: Tracker, c: Class, i: nat)
    requires t.enabled
    ensures (forall e :: Missed(t.unblockIndexes, e) ==> Missed(Record(t, c, i).unblockIndexes, e))
       <==> (c in t.unblockIndexes ==> t.unblockIndexes[c] <= i)
  {
    var was, now := t.unblockIndexes, Record(t, c, i).unblockIndexes;
    if c in was && i < was[c] {
      var only := map d | d in was && d != c :: false;
      var e := Eval("e", "j", "service", 50, 1, 0, i, false, only, OtherTrigger);
      assert c in was && e.snapshotIndex < was[c] && Serves(e, c);
      assert Missed(was, e) && !Missed(now, e);
    } else {
      forall e | Missed(was, e) ensures Missed(now, e) {
        var d :| d in was && e.snapshotIndex < was[d] && Serves(e, d);
        assert d in now && e.snapshotIndex < now[d];
      }
    }
  }

  // One tracked evaluation per job

  lemma OneTrackedPerJob(config: BM.Config, s: System, x: ID, y: ID)
    requires Reachable(config, s) && x in Tracked(s.t) && y in Tracked(s.t)
    requires Tracked(s.t)[x].eval.jobID == Tracked(s.t)[y].eval.jobID
    ensures x == y && Tracked(s.t)[x].eval.jobID in s.t.jobs && s.t.jobs[Tracked(s.t)[x].eval.jobID] == x
  {
    ReachableKeeps(config, s);
    var t := s.t;
    assert HoldsOk(t.captured, false, t.jobs, x) && HoldsOk(t.escaped, true, t.jobs, x);
    assert HoldsOk(t.captured, false, t.jobs, y) && HoldsOk(t.escaped, true, t.jobs, y);
  }

  // The counters equal the set sizes, and there are as many jobs as tracked evaluations.
  lemma TrackerCounters(config: BM.Config, s: System)
    requires Reachable(config, s)
    ensures s.t.totalEscaped == |s.t.escaped| && s.t.totalBlocked == |Tracked(s.t)|
    ensures s.t.captured.Keys !! s.t.escaped.Keys && s.t.jobs.Values == Tracked(s.t).Keys
  {
    ReachableKeeps(config, s);
    TrackedSize(s.t);
    forall id ensures id in s.t.jobs.Values <==> id in Tracked(s.t).Keys {
      JobsOnto(s.t, id);
    }
  }

  lemma TrackedSize(t: Tracker)
    requires t.captured.Keys !! t.escaped.Keys
    ensures |Tracked(t)| == |t.captured| + |t.escaped|
  {
    assert Tracked(t).Keys == t.captured.Keys + t.escaped.Keys;
  }

  lemma JobsOnto(t: Tracker, id: ID)
    requires Valid(t)
    ensures id in t.jobs.Values <==> id in Tracked(t)
  {
    assert HoldsOk(t.captured, false, t.jobs, id) && HoldsOk(t.escaped, true, t.jobs, id);
    if id in t.jobs.Values {
      var j :| j in t.jobs && t.jobs[j] == id;
      assert JobOk(t, j);
    }
  }

  // The three ways: into the tracked set, among the duplicates, or to the broker.

  ghost predicate GoesToTracked(s: System, s': System, e: Eval, token: Token) {
    s'.t == Track(s.t, e, token) && e.id !in Tracked(s.t) && e.id in Tracked(s'.t) && s'.w == s.w
  }

  ghost predicate GoesToDuplicates(s: System, s': System, e: Eval) {
    s'.t == s.t.(duplicates := s.t.duplicates + [e]) && s'.w == s.w
  }

  ghost predicate GoesToBroker(s: System, s': System, e: Eval, token: Token) {
    s'.t == s.t && s'.w == B.OfferWorld(s.w, e, token) && (s.w.b.enabled ==> e.id in s'.w.b.evals)
  }

  lemma WaysDiffer(s: System, s': System, e: Eval, token: Token)
    requires Valid(s.t)
    ensures !(GoesToTracked(s, s', e, token) && GoesToDuplicates(s, s', e))
    ensures !(GoesToTracked(s, s', e, token) && GoesToBroker(s, s', e, token))
    ensures !(GoesToDuplicates(s, s', e) && GoesToBroker(s, s', e, token))
  {
    assert Track(s.t, e, token).totalBlocked == s.t.totalBlocked + 1;
    assert |s.t.duplicates + [e]| == |s.t.duplicates| + 1;
  }

  lemma GoesSomeWay(s: System, e: Eval, token: Token)
    requires Tracking(s) && s.t.enabled && SameJob(s.t, e)
    ensures var s' := BlockNext(s, e, token);
      GoesToTracked(s, s', e, token) || GoesToDuplicates(s, s', e) || GoesToBroker(s, s', e, token)
  {
    var s' := BlockNext(s, e, token);
    if BlockVerdict(s.t, e) == Retained {
      TrackKeeps(s.t, e, token);
      assert GoesToTracked(s, s', e, token);
    } else if BlockVerdict(s.t, e) == Duplicate {
      assert GoesToDuplicates(s, s', e);
    } else {
      assert GoesToBroker(s, s', e, token);
    }
  }

  // An evaluation blocked while the tracker is enabled goes exactly one of the ways.
  lemma BlockGoesOneWay(s: System, e: Eval, token: Token)
    requires Tracking(s) && s.t.enabled && SameJob(s.t, e)
    ensures var s' := BlockNext(s, e, token);
      var tracked, duplicate, offered :=
        GoesToTracked(s, s', e, token), GoesToDuplicates(s, s', e), GoesToBroker(s, s', e, token);
      (tracked && !duplicate && !offered) || (duplicate && !tracked && !offered) || (offered && !tracked && !duplicate)
  {
    WaysDiffer(s, BlockNext(s, e, token), e, token);
    GoesSomeWay(s, e, token);
  }

  // Handoff to the broker

  ghost predicate Offerable(w: B.World, batch: seq<(Eval, Token)>) {
    forall i | 0 <= i < |batch| :: Acceptable(batch[i].0) && Prompt(w.b, batch[i].0)
  }

  ghost predicate DistinctIDs(batch: seq<(Eval, Token)>) {
    forall i, j | 0 <= i < j < |batch| :: batch[i].0.id != batch[j].0.id
  }

  // A released evaluation whose own delivery is outstanding is held under its token.
  lemma {:induction false} ReleasedIsHeld(w: B.World, batch: seq<(Eval, Token)>, i: nat)
    requires B.RunInv(w) && Offerable(w, batch) && DistinctIDs(batch) && i < |batch|
    requires batch[i].0.id in w.b.unack && w.b.unack[batch[i].0.id].token == batch[i].1
    ensures var (e, t) := batch[i];
      H.Held(OfferAll(w, batch).b, e.id, t) && OfferAll(w, batch).b.requeue[t] == e
  {
    var n := |batch| - 1;
    var init, last := batch[..n], batch[n];
    OfferAllKeeps(w, init);
    OfferAllGrows(w, init);
    if i == n {
      H.OfferHolds(OfferAll(w, init), last.0, last.1);
    } else {
      ReleasedIsHeld(w, init, i);
      H.HeldThroughOffer(OfferAll(w, init), last.0, last.1, batch[i].0.id, batch[i].1);
    }
  }

  lemma {:induction false} HeldThroughBatch(w: B.World, batch: seq<(Eval, Token)>, id: ID, t: Token)
    requires B.RunInv(w) && Offerable(w, batch) && H.Held(w.b, id, t)
    ensures H.Held(OfferAll(w, batch).b, id, t)
  {
    if batch != [] {
      var n := |batch| - 1;
      HeldThroughBatch(w, batch[..n], id, t);
      OfferAllKeeps(w, batch[..n]);
      H.HeldThroughOffer(OfferAll(w, batch[..n]), batch[n].0, batch[n].1, id, t);
    }
  }

  lemma HeldNext(s: System, step: Step, id: ID, t: Token)
    requires SysInv(s) && Legal(s, step) && H.Held(s.w.b, id, t)
    requires step.BrokerStep? ==> !H.Touches(step.step, t)
    ensures H.Held(Next(s, step).w.b, id, t)
  {
    match step
    case DoBlock(e, token) => H.HeldThroughOffer(s.w, e, token, id, t);
    case Process(u, batch) =>
      BatchAcceptable(s, Eligibles(s.t.captured, u.computedClass), s.t.escaped.Keys, batch);
      HeldThroughBatch(s.w, batch, id, t);
    case DoUnblockFailed(batch) =>
      BatchAcceptable(s, FailedIn(s.t.captured), FailedIn(s.t.escaped), batch);
      HeldThroughBatch(s.w, batch, id, t);
    case BrokerStep(x) => H.HeldNext(s.w, x, id, t);
    case _ =>
  }

  // Whatever the tracker and the broker do next, a handed-over evaluation stays held
  // until its token is settled or the broker is flushed.
  lemma {:induction false} HeldUntilSettled(s: System, steps: seq<Step>, id: ID, t: Token)
    requires SysInv(s) && LegalRun(s, steps) && H.Held(s.w.b, id, t)
    requires forall i | 0 <= i < |steps| && steps[i].BrokerStep? :: !H.Touches(steps[i].step, t)
    ensures H.Held(After(s, steps).w.b, id, t)
  {
    if steps != [] {
      var prev := steps[..|steps| - 1];
      assert forall i | 0 <= i < |prev| :: prev[i] == steps[i];
      HeldUntilSettled(s, prev, id, t);
      RunKeepsFrom(s, prev);
      HeldNext(After(s, prev), steps[|steps| - 1], id, t);
    }
  }
}
