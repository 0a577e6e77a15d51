/**
 What becomes of an evaluation that the tracker hands to the broker while its own earlier
 delivery is outstanding, over every run of tracker and broker up to the settlement of
 that delivery.
 */
module BlockedHandoff {
  import opened Evaluations
  import opened BlockedModel
  import opened BlockedRuns
  import opened BlockedTheorems
  import B = BrokerRuns
  import BI = BrokerInvariant
  import BM = BrokerModel
  import E = BrokerEdges
  import H = BrokerHandoff

  // The batch has the evaluation under the token.
  ghost predicate HasOffer(batch: seq<(Eval, Token)>, id: ID, t: Token) {
    exists i :: 0 <= i < |batch| && batch[i].0.id == id && batch[i].1 == t
  }

  // The step hands the evaluation to the broker under the token.
  ghost predicate Offers(s: System, step: Step, id: ID, t: Token) {
    match step
    case DoBlock(e, y) => BlockVerdict(s.t, e) == Enqueued && e.id == id && y == t
    case Process(_, batch) => HasOffer(batch, id, t)
    case DoUnblockFailed(batch) => HasOffer(batch, id, t)
    case BrokerStep(x) => H.Offers(x, id, t)
    case _ => false
  }

  // The step is an Ack or Nack under the token, successful or not.
  predicate Names(step: Step, t: Token) {
    step.BrokerStep? && H.Names(step.step, t)
  }

  // The evaluation was held at the start or has been offered since, and no Ack or Nack
  // named the token after the last offer.
  ghost predicate StillHeld(s: System, steps: seq<Step>, id: ID, t: Token)
    requires LegalRun(s, steps)
  {
    if steps == [] then t in s.w.b.requeue
    else
      var prev, last := steps[..|steps| - 1], steps[|steps| - 1];
      Offers(After(s, prev), last, id, t) || (!Names(last, t) && StillHeld(s, prev, id, t))
  }

  lemma {:induction false} BatchHoldsIff(w: B.World, batch: seq<(Eval, Token)>, id: ID, t: Token)
    requires B.RunInv(w) && Offerable(w, batch) && H.Outstanding(w.b, id, t)
    ensures t in OfferAll(w, batch).b.requeue <==> t in w.b.requeue || HasOffer(batch, id, t)
  {
    if batch != [] {
      var n := |batch| - 1;
      BatchHoldsIff(w, batch[..n], id, t);
      OfferAllKeeps(w, batch[..n]);
      OfferAllGrows(w, batch[..n]);
      H.OfferHoldsIff(OfferAll(w, batch[..n]), batch[n].0, batch[n].1, id, t);
      HasOfferMore(batch, id, t);
    }
  }

  lemma HasOfferMore(batch: seq<(Eval, Token)>, id: ID, t: Token)
    requires batch != []
    ensures var n := |batch| - 1;
      HasOffer(batch, id, t) <==> HasOffer(batch[..n], id, t) || (batch[n].0.id == id && batch[n].1 == t)
  {
    var n := |batch| - 1;
    assert forall i | 0 <= i < n :: batch[..n][i] == batch[i];
    if HasOffer(batch[..n], id, t) {
      var i :| 0 <= i < n && batch[..n][i].0.id == id && batch[..n][i].1 == t;
      assert batch[i].0.id == id;
    }
  }

  lemma HoldsNextIff(s: System, step: Step, id: ID, t: Token)
    requires SysInv(s) && Legal(s, step) && H.Outstanding(s.w.b, id, t) && H.Outstanding(Next(s, step).w.b, id, t)
    ensures t in Next(s, step).w.b.requeue <==> Offers(s, step, id, t) || (!Names(step, t) && t in s.w.b.requeue)
  {
    match step
    case DoBlock(e, y) => H.OfferHoldsIff(s.w, e, y, id, t);
    case Process(u, batch) =>
      BatchAcceptable(s, Eligibles(s.t.captured, u.computedClass), s.t.escaped.Keys, batch);
      BatchHoldsIff(s.w, batch, id, t);
    case DoUnblockFailed(batch) =>
      BatchAcceptable(s, FailedIn(s.t.captured), FailedIn(s.t.escaped), batch);
      BatchHoldsIff(s.w, batch, id, t);
    case BrokerStep(x) => H.HoldsNextIff(s.w, x, id, t);
    case _ =>
  }

  lemma WasOutstanding(s: System, step: Step, id: ID, t: Token)
    requires SysInv(s) && Legal(s, step) && B.Deliveries(s.w.log, t) >= 1
    requires H.Outstanding(Next(s, step).w.b, id, t)
    ensures H.Outstanding(s.w.b, id, t)
  {
    match step
    case Process(_, batch) => OfferAllGrows(s.w, batch);
    case DoUnblockFailed(batch) => OfferAllGrows(s.w, batch);
    case BrokerStep(x) => H.WasOutstanding(s.w, x, id, t);
    case _ =>
  }

  lemma {:induction false} OfferAllLog(w: B.World, batch: seq<(Eval, Token)>, t: Token)
    ensures B.Deliveries(OfferAll(w, batch).log, t) == B.Deliveries(w.log, t)
  {
    if batch != [] {
      var n := |batch| - 1;
      OfferAllLog(w, batch[..n], t);
      OfferLog(OfferAll(w, batch[..n]), batch[n].0, batch[n].1, t);
    }
  }

  lemma OfferLog(w: B.World, e: Eval, y: Token, t: Token)
    ensures B.Deliveries(B.OfferWorld(w, e, y).log, t) == B.Deliveries(w.log, t)
  {
    var log := w.log + [B.Accepted(e.id)];
    assert log[..|log| - 1] == w.log;
  }

  lemma DeliveriesGrow(s: System, step: Step, t: Token)
    requires Legal(s, step)
    ensures B.Deliveries(s.w.log, t) <= B.Deliveries(Next(s, step).w.log, t)
  {
    match step
    case DoBlock(e, y) => OfferLog(s.w, e, y, t);
    case Process(_, batch) => OfferAllLog(s.w, batch, t);
    case DoUnblockFailed(batch) => OfferAllLog(s.w, batch, t);
    case BrokerStep(x) => H.DeliveriesGrow(s.w, x, t);
    case _ =>
  }

  lemma {:induction false} RunDeliveries(s: System, steps: seq<Step>, t: Token)
    requires LegalRun(s, steps)
    ensures B.Deliveries(s.w.log, t) <= B.Deliveries(After(s, steps).w.log, t)
  {
    if steps != [] {
      var prev := steps[..|steps| - 1];
      RunDeliveries(s, prev, t);
      DeliveriesGrow(After(s, prev), steps[|steps| - 1], t);
    }
  }

  // Over any run that leaves the delivery outstanding, the evaluation is held at the
  // end if and only if no Ack or Nack named the token after it was last offered.
  lemma {:induction false} HeldIff(s: System, steps: seq<Step>, id: ID, t: Token)
    requires SysInv(s) && LegalRun(s, steps)
    requires H.Outstanding(s.w.b, id, t) && H.Outstanding(After(s, steps).w.b, id, t)
    ensures t in After(s, steps).w.b.requeue <==> StillHeld(s, steps, id, t)
  {
    if steps != [] {
      var prev, last := steps[..|steps| - 1], steps[|steps| - 1];
      var s1 := After(s, prev);
      RunKeepsFrom(s, prev);
      RunDeliveries(s, prev, t);
      assert B.IdHistory(s.w.b, s.w.log, id);
      WasOutstanding(s1, last, id, t);
      HeldIff(s, prev, id, t);
      HoldsNextIff(s1, last, id, t);
    }
  }

  // From any point of a run at which the delivery is outstanding to its successful Ack:
  // the broker still knows the evaluation afterwards if and only if it was handed over
  // and no failed Ack or Nack named the token after the last handover.
  lemma AckedIsKnownIff(s: System, steps: seq<Step>, id: ID, t: Token)
    requires SysInv(s) && LegalRun(s, steps) && H.Outstanding(s.w.b, id, t)
    requires BM.Ack(After(s, steps).w.b, id, t).1 == BM.Done
    ensures id in BM.Ack(After(s, steps).w.b, id, t).0.evals <==> StillHeld(s, steps, id, t)
  {
    RunKeepsFrom(s, steps);
    HeldIff(s, steps, id, t);
    H.AckedStaysKnownIff(After(s, steps).w, id, t);
  }

  // A successful Nack keeps the original, whatever was handed over.
  lemma NackedIsKnown(s: System, steps: seq<Step>, id: ID, t: Token) returns (led: BI.Ledger)
    requires SysInv(s) && LegalRun(s, steps) && BM.Nack(After(s, steps).w.b, id, t).1 == BM.Done
    ensures var b := After(s, steps).w.b;
      && id in BM.Nack(b, id, t).0.evals && BI.Inv(BM.Nack(b, id, t).0, led)
      && id in b.unack && H.Redelivers(led, id, b.unack[id].eval)
  {
    RunKeepsFrom(s, steps);
    led := H.NackedStaysKnown(After(s, steps).w, id, t);
  }

  // A run that loses a released evaluation.

  lemma SystemReaches(config: BM.Config, w: B.World)
    requires B.Reaches(B.Start(config), w)
    ensures Reaches(Start(config), Start(config).(w := w))
  {
    var steps :| B.LegalRun(B.Start(config), steps) && B.After(B.Start(config), steps) == w;
    BrokerReaches(Start(config), steps);
  }

  lemma OutstandingSample(config: BM.Config) returns (s: System)
    requires config.deliveryLimit >= 1
    ensures Reachable(config, s) && s.t == NEW_TRACKER && s.w.b.enabled
    ensures H.Outstanding(s.w.b, "e", "t")
  {
    var w := E.SampleDelivered(config);
    SystemReaches(config, w);
    s := Start(config).(w := w);
  }

  // The release: an unblock that the evaluation missed hands it to the broker.
  lemma MissedSample(config: BM.Config) returns (s: System)
    requires config.deliveryLimit >= 1
    ensures Reachable(config, s) && Legal(s, DoBlock(E.SAMPLE, "t")) && BlockVerdict(s.t, E.SAMPLE) == Enqueued
    ensures s.t.captured == map[] && s.t.escaped == map[] && H.Outstanding(s.w.b, "e", "t")
  {
    var s0 := OutstandingSample(config);
    ReachesNext(Start(config), s0, EnableTracker);
    var s1 := Next(s0, EnableTracker);
    ReachesNext(Start(config), s1, DoUnblock("c", 1));
    s := Next(s1, DoUnblock("c", 1));
    assert "c" in s.t.unblockIndexes && E.SAMPLE.snapshotIndex < s.t.unblockIndexes["c"] && Serves(E.SAMPLE, "c");
  }

  lemma ReleasedSample(config: BM.Config) returns (s: System)
    requires config.deliveryLimit >= 1
    ensures Reachable(config, s) && H.Held(s.w.b, "e", "t") && "e" !in Tracked(s.t)
  {
    var s0 := MissedSample(config);
    ReachableKeeps(config, s0);
    ReachesNext(Start(config), s0, DoBlock(E.SAMPLE, "t"));
    s := Next(s0, DoBlock(E.SAMPLE, "t"));
    H.OfferHolds(s0.w, E.SAMPLE, "t");
  }

  // The handover is undone by an Ack that fails because the delivery is paused: after
  // the next Ack neither broker nor tracker knows the evaluation, although nothing was
  // flushed or rejected.
  lemma ReleasedCanBeDropped(config: BM.Config) returns (s: System, s': System)
    requires config.deliveryLimit >= 1
    ensures Reachable(config, s) && H.Held(s.w.b, "e", "t") && "e" !in Tracked(s.t)
    ensures var steps := [B.Pause("e", "t"), B.DoAck("e", "t"), B.Resume("e", "t")];
      B.LegalRun(s.w, steps) && s' == s.(w := B.After(s.w, steps)) && Reachable(config, s')
    ensures BM.Ack(s'.w.b, "e", "t").1 == BM.Done && "e" !in BM.Ack(s'.w.b, "e", "t").0.evals
  {
    s := ReleasedSample(config);
    ReachableKeeps(config, s);
    var w := H.PausedAckDrops(s.w, "e", "t");
    s' := s.(w := w);
    BrokerReaches(s, [B.Pause("e", "t"), B.DoAck("e", "t"), B.Resume("e", "t")]);
    ReachesVia(Start(config), s, s');
  }

  lemma {:induction false} ReachesAlong(a: System, b: System, steps: seq<Step>)
    requires Reaches(a, b) && LegalRun(b, steps)
    ensures Reaches(a, After(b, steps))
  {
    if steps != [] {
      ReachesAlong(a, b, steps[..|steps| - 1]);
      ReachesNext(a, After(b, steps[..|steps| - 1]), steps[|steps| - 1]);
    }
  }

  lemma ReachesVia(a: System, b: System, c: System)
    requires Reaches(a, b) && Reaches(b, c)
    ensures Reaches(a, c)
  {
    var steps :| LegalRun(b, steps) && After(b, steps) == c;
    ReachesAlong(a, b, steps);
  }
}
