/**
 Handing an evaluation to the broker while its own earlier delivery is outstanding: it is
 held under that delivery's token until something names the token.  A successful Ack then
 takes it over, and a successful Nack keeps the original.  An Ack or Nack that names the
 token and fails drops what is held, so that a later Ack forgets the evaluation.
 */
module BrokerHandoff {
  import opened Evaluations
  import opened BrokerModel
  import opened BrokerInvariant
  import opened BrokerSteps
  import opened BrokerRuns

  // Some evaluation is held for requeueing under the token of its own delivery.
  ghost predicate Held(b: Broker, id: ID, t: Token) {
    id in b.unack && b.unack[id].token == t && t in b.requeue && b.requeue[t].id == id
  }

  // A step that tries to settle the token, or a flush.
  predicate Touches(s: Step, t: Token) {
    s == Disable || ((s.DoAck? || s.DoNack?) && s.token == t)
  }

  lemma OfferHolds(w: World, e: Eval, t: Token)
    requires RunInv(w) && e.id in w.b.unack && w.b.unack[e.id].token == t
    ensures Held(ProcessEnqueue(w.b, e, t), e.id, t) && ProcessEnqueue(w.b, e, t).requeue[t] == e
  {
    assert IdHistory(w.b, w.log, e.id);
  }

  lemma HeldThroughOffer(w: World, e: Eval, y: Token, id: ID, t: Token)
    requires RunInv(w) && Held(w.b, id, t)
    ensures Held(ProcessEnqueue(w.b, e, y), id, t)
    ensures e.id != id ==> ProcessEnqueue(w.b, e, y).requeue[t] == w.b.requeue[t]
  {
    assert IdHistory(w.b, w.log, id) && IdHistory(w.b, w.log, e.id);
  }

  lemma HeldThroughDelivery(w: World, q: Queue, y: Token, id: ID, t: Token)
    requires RunInv(w) && Held(w.b, id, t) && HasWork(w.b, q)
    ensures Held(DequeueForSched(w.b, q, y), id, t)
  {
    var led: Ledger :| Inv(w.b, led);
    ReadyHead(w.b, led, q);
    DequeueTakes(w.b, q, y);
  }

  // An attempt to settle another token leaves it held; one that names the token
  // drops it, even when the attempt fails.
  lemma HeldThroughAck(b: Broker, x: ID, y: Token, id: ID, t: Token)
    requires Held(b, id, t)
    ensures Held(Ack(b, x, y).0, id, t) <==> y != t
    ensures Held(Nack(b, x, y).0, id, t) <==> y != t
  {
  }

  lemma HeldNext(w: World, s: Step, id: ID, t: Token)
    requires RunInv(w) && Legal(w, s) && Held(w.b, id, t) && !Touches(s, t)
    ensures Held(Next(w, s).b, id, t)
  {
    match s
    case Offer(e, y) => HeldThroughOffer(w, e, y, id, t);
    case Deliver(qs, i, y) =>
      if w.b.enabled && Served(w.b, qs, i) {
        EligibleHasWork(w.b, qs);
        assert Eligible(w.b, qs)[i] in Eligible(w.b, qs);
        HeldThroughDelivery(w, Eligible(w.b, qs)[i], y, id, t);
      }
    case DoAck(x, y) => HeldThroughAck(w.b, x, y, id, t);
    case DoNack(x, y) => HeldThroughAck(w.b, x, y, id, t);
    case _ =>
  }

  // However the run goes on, the evaluation stays held and its delivery outstanding
  // until something names the token.
  lemma {:induction false} HeldUntilSettled(w: World, steps: seq<Step>, id: ID, t: Token)
    requires RunInv(w) && LegalRun(w, steps) && Held(w.b, id, t)
    requires forall i | 0 <= i < |steps| :: !Touches(steps[i], t)
    ensures Held(After(w, steps).b, id, t)
  {
    if steps != [] {
      var prev := steps[..|steps| - 1];
      assert forall i | 0 <= i < |prev| :: prev[i] == steps[i];
      HeldUntilSettled(w, prev, id, t);
      RunKeepsFrom(w, prev);
      HeldNext(After(w, prev), steps[|steps| - 1], id, t);
    }
  }

  // An acknowledged evaluation stays known exactly if one is held under the token.
  lemma AckedStaysKnownIff(w: World, id: ID, t: Token)
    requires RunInv(w) && Ack(w.b, id, t).1 == Done
    ensures id in Ack(w.b, id, t).0.evals <==> t in w.b.requeue
  {
    var led: Ledger :| Inv(w.b, led);
    OutstandingFacts(w.b, led, id);
    HeldIsOwn(w, id, t);
  }

  // What is held under the token of an outstanding evaluation has its ID.
  lemma HeldIsOwn(w: World, id: ID, t: Token)
    requires RunInv(w) && id in w.b.unack && w.b.unack[id].token == t
    ensures t in w.b.requeue ==> w.b.requeue[t].id == id
  {
    assert IdHistory(w.b, w.log, id) && TokenHistory(w.b, w.log, t);
    if t in w.b.requeue {
      assert IdHistory(w.b, w.log, w.b.requeue[t].id);
    }
  }

  // Acknowledging puts the held evaluation itself in its place.
  lemma AckedTakesHeld(w: World, id: ID, t: Token) returns (led: Ledger)
    requires RunInv(w) && Ack(w.b, id, t).1 == Done && t in w.b.requeue
    ensures Inv(Ack(w.b, id, t).0, led) && id in led && led[id].eval == w.b.requeue[t]
  {
    var was: Ledger :| Inv(w.b, was);
    OutstandingFacts(w.b, was, id);
    HeldIsOwn(w, id, t);
    AckedKeeps(w.b, was, id);
    led := ReenqueueKeeps(Acked(w.b, id), AckedLedger(w.b, was, id), t);
  }

  // The evaluation, with another wait, is to be delivered again.
  ghost predicate Redelivers(led: Ledger, id: ID, e: Eval) {
    && id in led && led[id].eval == e.(wait := led[id].eval.wait)
    && (led[id].place == Waiting || led[id].place.Ready?)
  }

  // Rejecting keeps the original: it is to be delivered again.
  lemma NackedStaysKnown(w: World, id: ID, t: Token) returns (led: Ledger)
    requires RunInv(w) && Nack(w.b, id, t).1 == Done
    ensures id in Nack(w.b, id, t).0.evals && id !in Nack(w.b, id, t).0.unack
    ensures Inv(Nack(w.b, id, t).0, led) && Redelivers(led, id, w.b.unack[id].eval)
  {
    var was: Ledger :| Inv(w.b, was);
    OutstandingFacts(w.b, was, id);
    led := NackKeeps(w.b, was, id, t);
    assert IdOk(Nack(w.b, id, t).0, led, {}, id);
  }

  // From offer to settlement

  predicate Outstanding(b: Broker, id: ID, t: Token) {
    id in b.unack && b.unack[id].token == t
  }

  predicate Names(s: Step, t: Token) {
    (s.DoAck? || s.DoNack?) && s.token == t
  }

  predicate Offers(s: Step, id: ID, t: Token) {
    s.Offer? && s.eval.id == id && s.token == t
  }

  // A token has one holder.
  lemma OneHolder(w: World, id: ID, x: ID, t: Token)
    requires RunInv(w) && Outstanding(w.b, id, t) && Outstanding(w.b, x, t)
    ensures x == id
  {
    assert IdHistory(w.b, w.log, id) && IdHistory(w.b, w.log, x);
  }

  // An offer adds to what is held under the token exactly if it comes with the token
  // and the ID.
  lemma OfferHoldsIff(w: World, e: Eval, y: Token, id: ID, t: Token)
    requires RunInv(w) && Outstanding(w.b, id, t)
    ensures t in ProcessEnqueue(w.b, e, y).requeue <==> t in w.b.requeue || (e.id == id && y == t)
  {
    assert IdHistory(w.b, w.log, id);
    if y == t && Outstanding(w.b, e.id, t) {
      OneHolder(w, id, e.id, t);
    }
  }

  // While the delivery stays outstanding, something is held after a step exactly if the
  // step offers it, or something was held and the step does not name the token.
  lemma HoldsNextIff(w: World, s: Step, id: ID, t: Token)
    requires RunInv(w) && Legal(w, s) && Outstanding(w.b, id, t) && Outstanding(Next(w, s).b, id, t)
    ensures t in Next(w, s).b.requeue <==> Offers(s, id, t) || (t in w.b.requeue && !Names(s, t))
  {
    match s
    case Offer(e, y) => OfferHoldsIff(w, e, y, id, t);
    case DoAck(x, y) => assert Ack(w.b, x, y).0.requeue == w.b.requeue - {y};
    case DoNack(x, y) => assert Nack(w.b, x, y).0.requeue == w.b.requeue - {y};
    case _ =>
  }

  lemma DeliveryIsNew(w: World, q: Queue, y: Token, id: ID, t: Token)
    requires RunInv(w) && HasWork(w.b, q) && y != t && Outstanding(DequeueForSched(w.b, q, y), id, t)
    ensures Outstanding(w.b, id, t)
  {
    DeliverFacts(w.b, q, y);
  }

  lemma SettlingShrinks(b: Broker, x: ID, y: Token, id: ID, t: Token)
    ensures Outstanding(Ack(b, x, y).0, id, t) ==> Outstanding(b, id, t)
    ensures Outstanding(Nack(b, x, y).0, id, t) ==> Outstanding(b, id, t)
  {
  }

  // A token that was delivered is not delivered again.
  lemma WasOutstanding(w: World, s: Step, id: ID, t: Token)
    requires RunInv(w) && Legal(w, s) && Deliveries(w.log, t) >= 1 && Outstanding(Next(w, s).b, id, t)
    ensures Outstanding(w.b, id, t)
  {
    match s
    case Deliver(qs, i, y) =>
      if w.b.enabled && Served(w.b, qs, i) {
        EligibleHasWork(w.b, qs);
        assert Eligible(w.b, qs)[i] in Eligible(w.b, qs);
        DeliveryIsNew(w, Eligible(w.b, qs)[i], y, id, t);
      }
    case DoAck(x, y) => SettlingShrinks(w.b, x, y, id, t);
    case DoNack(x, y) => SettlingShrinks(w.b, x, y, id, t);
    case _ =>
  }

  lemma DeliveriesGrow(w: World, s: Step, t: Token)
    requires Legal(w, s)
    ensures Deliveries(w.log, t) <= Deliveries(Next(w, s).log, t)
  {
    var log := Next(w, s).log;
    if s.DoAck? && |log| == |w.log| + 2 {
      assert log[..|w.log| + 1][..|w.log|] == w.log && log[..|log| - 1] == log[..|w.log| + 1];
    } else if |log| == |w.log| + 1 {
      assert log[..|log| - 1] == w.log;
    }
  }

  // How what is held gets lost

  // A paused delivery cannot be acknowledged, and the attempt drops what is held.
  lemma PausedAckDrops(w: World, id: ID, t: Token) returns (w': World)
    requires RunInv(w) && Held(w.b, id, t)
    ensures var steps := [Pause(id, t), DoAck(id, t), Resume(id, t)];
      LegalRun(w, steps) && After(w, steps) == w' && RunInv(w')
    ensures Ack(w'.b, id, t).1 == Done && id !in Ack(w'.b, id, t).0.evals
  {
    var w1 := Next(w, Pause(id, t));
    var w2 := Next(w1, DoAck(id, t));
    w' := Next(w2, Resume(id, t));
    NextKeeps(w, Pause(id, t));
    NextKeeps(w1, DoAck(id, t));
    NextKeeps(w2, Resume(id, t));
    ThreeSteps(w, w1, w2, Pause(id, t), DoAck(id, t), Resume(id, t));
    AckConsistent(w'.b, id, t);
    AckedStaysKnownIff(w', id, t);
  }

  lemma ThreeSteps(w: World, w1: World, w2: World, a: Step, b: Step, c: Step)
    requires Legal(w, a) && w1 == Next(w, a) && Legal(w1, b) && w2 == Next(w1, b) && Legal(w2, c)
    ensures LegalRun(w, [a, b, c]) && After(w, [a, b, c]) == Next(w2, c)
  {
    assert [] + [a] == [a] && [a] + [b] == [a, b] && [a, b] + [c] == [a, b, c];
    RunExtends(w, [], a);
    RunExtends(w, [a], b);
    RunExtends(w, [a, b], c);
  }

  // So does a Nack under the token for an evaluation that is not outstanding.
  lemma StrayNackDrops(w: World, id: ID, t: Token, x: ID)
    requires RunInv(w) && Held(w.b, id, t) && w.b.unack[id].armed && x !in w.b.unack
    ensures var b := Next(w, DoNack(x, t)).b;
      Ack(b, id, t).1 == Done && id !in Ack(b, id, t).0.evals
  {
    var w' := Next(w, DoNack(x, t));
    NextKeeps(w, DoNack(x, t));
    AckConsistent(w'.b, id, t);
    AckedStaysKnownIff(w', id, t);
  }
}
