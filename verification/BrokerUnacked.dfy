/**
 The per-scheduler counters of outstanding evaluations.  Their sum is always right, but a
 rejected delivery of the failed queue is taken off the counter of the evaluation's own
 queue, so over a run the single counters are right exactly as long as that has not
 happened since the last flush.
 */
module BrokerUnacked {
  import opened Evaluations
  import opened BrokerModel
  import opened BrokerInvariant
  import opened BrokerSteps
  import opened BrokerRuns
  import opened BrokerEdges

  // The outstanding evaluations that the queue handed out.
  function From(b: Broker, q: Queue): set<ID> {
    set id | id in b.unack && AckQueue(b, id) == q
  }

  ghost predicate UnackedExact(b: Broker) {
    forall q :: SchedOf(b, q).unacked == |From(b, q)|
  }

  lemma EnqueueCounts(b: Broker, e: Eval, queue: Queue, q: Queue)
    ensures SchedOf(EnqueueLocked(b, e, queue), q).unacked == SchedOf(b, q).unacked
  {
  }

  lemma EnqueueNewCounts(b: Broker, e: Eval, q: Queue)
    ensures SchedOf(EnqueueNew(b, e), q).unacked == SchedOf(b, q).unacked
  {
    if e.wait <= 0 {
      EnqueueCounts(b, e, e.kind, q);
    }
  }

  lemma RedeliverCounts(b: Broker, e: Eval, q: Queue)
    ensures SchedOf(Redeliver(b, e), q).unacked == SchedOf(b, q).unacked
  {
    var n := Dequeues(b, e.id);
    if n >= b.config.deliveryLimit {
      EnqueueCounts(b, e, FAILED, q);
    } else {
      EnqueueNewCounts(b, e.(wait := NackDelay(b.config, n)), q);
    }
  }

  // The same deliveries but one.
  lemma FromWithout(b: Broker, b': Broker, id: ID, q: Queue)
    requires id in b.unack && b'.unack == b.unack - {id} && b'.config == b.config
    requires forall x | x in b'.unack :: Dequeues(b', x) == Dequeues(b, x)
    ensures |From(b', q)| == |From(b, q)| - if AckQueue(b, id) == q then 1 else 0
  {
    assert From(b', q) == From(b, q) - {id};
  }

  lemma NackCounts(b: Broker, id: ID, t: Token, q: Queue)
    requires Nack(b, id, t).1 == Done
    ensures var b' := Nack(b, id, t).0;
      && SchedOf(b', q).unacked == SchedOf(b, q).unacked - (if b.unack[id].eval.kind == q then 1 else 0)
      && |From(b', q)| == |From(b, q)| - if AckQueue(b, id) == q then 1 else 0
  {
    var b' := Nack(b, id, t).0;
    RedeliverCounts(DropUnacked(DropRequeue(b, t), id, b.unack[id].eval.kind), b.unack[id].eval, q);
    FromWithout(b, b', id, q);
  }

  // A rejection keeps the counters exact if and only if it does not come from the
  // failed queue.
  lemma NackKeepsExactIff(b: Broker, id: ID, t: Token)
    requires Consistent(b) && UnackedExact(b) && Nack(b, id, t).1 == Done
    ensures UnackedExact(Nack(b, id, t).0) <==> Dequeues(b, id) <= b.config.deliveryLimit
  {
    var led: Ledger :| Inv(b, led);
    assert IdOk(b, led, {}, id);
    var b', kind := Nack(b, id, t).0, b.unack[id].eval.kind;
    if Dequeues(b, id) <= b.config.deliveryLimit {
      forall q ensures SchedOf(b', q).unacked == |From(b', q)| {
        NackCounts(b, id, t, q);
      }
    } else {
      NackCounts(b, id, t, FAILED);
      assert SchedOf(b', FAILED).unacked == |From(b', FAILED)| + 1;
    }
  }

  // The same deliveries and one more.
  lemma FromWith(b: Broker, b': Broker, e: Eval, t: Token, from: Queue, q: Queue)
    requires e.id !in b.unack && b'.unack == b.unack[e.id := Unack(e, t, true)] && b'.config == b.config
    requires forall x | x in b.unack :: Dequeues(b', x) == Dequeues(b, x)
    requires AckQueue(b', e.id) == from
    ensures |From(b', q)| == |From(b, q)| + if from == q then 1 else 0
  {
    assert From(b', q) - {e.id} == From(b, q);
    assert e.id in From(b', q) <==> from == q;
  }

  lemma HandOutCounts(b: Broker, e: Eval, h: seq<Eval>, from: Queue, t: Token, q: Queue)
    ensures SchedOf(HandOut(b, from, e, h, t), q).unacked == SchedOf(b, q).unacked + if from == q then 1 else 0
  {
  }

  lemma DeliveryKeepsExact(b: Broker, q: Queue, t: Token)
    requires Consistent(b) && UnackedExact(b) && HasWork(b, q)
    ensures UnackedExact(DequeueForSched(b, q, t))
  {
    DeliveryDrift(b, q, t);
    SameDriftIsExact(b, DequeueForSched(b, q, t));
  }

  lemma PromoteCounts(b: Broker, job: JobID, q: Queue)
    ensures SchedOf(Promote(b, job), q).unacked == SchedOf(b, q).unacked
  {
  }

  lemma ReenqueueCounts(b: Broker, t: Token, q: Queue)
    ensures SchedOf(Reenqueue(b, t), q).unacked == SchedOf(b, q).unacked
  {
    if t in b.requeue && b.requeue[t].id !in b.evals {
      var e := b.requeue[t];
      EnqueueNewCounts(if b.enabled then b.(evals := b.evals[e.id := 0]) else b, e, q);
    }
  }

  lemma AckCounts(b: Broker, id: ID, t: Token, q: Queue)
    requires id in b.unack && AckQueue(b, id) in b.stats.bySched
    ensures SchedOf(AckDone(b, id, t), q).unacked == SchedOf(b, q).unacked - if AckQueue(b, id) == q then 1 else 0
  {
    PromoteCounts(Forget(b, id), b.unack[id].eval.jobID, q);
    ReenqueueCounts(Acked(b, id), t, q);
  }

  // No other outstanding evaluation's count changes.
  lemma AckDequeues(b: Broker, id: ID, t: Token, x: ID)
    requires Consistent(b) && id in b.unack && AckQueue(b, id) in b.stats.bySched && x in b.unack && x != id
    ensures Dequeues(AckDone(b, id, t), x) == Dequeues(b, x)
  {
  }

  lemma AckKeepsExact(b: Broker, id: ID, t: Token)
    requires Consistent(b) && UnackedExact(b) && Ack(b, id, t).1 == Done
    ensures UnackedExact(Ack(b, id, t).0)
  {
    AckDrift(b, id, t);
    SameDriftIsExact(b, Ack(b, id, t).0);
  }

  // Over runs

  // By how much a counter is off.
  function Drift(b: Broker, q: Queue): int {
    SchedOf(b, q).unacked - |From(b, q)|
  }

  // Rejected deliveries of the failed queue since the last flush.
  function FailedNacks(log: seq<Event>): nat {
    if log == [] then 0
    else Recount(FailedNacks(log[..|log| - 1]), log[..|log| - 1], log[|log| - 1])
  }

  function Recount(n: nat, log: seq<Event>, ev: Event): nat {
    match ev
    case NackEvent(_, t) => if Origin(log, t).1 == FAILED then n + 1 else n
    case Flushed => 0
    case _ => n
  }

  lemma OneMoreEvent(log: seq<Event>, ev: Event)
    ensures FailedNacks(log + [ev]) == Recount(FailedNacks(log), log, ev)
  {
    assert (log + [ev])[..|log|] == log;
  }

  ghost predicate DriftOk(w: World) {
    Drift(w.b, FAILED) == FailedNacks(w.log) && (FailedNacks(w.log) == 0 ==> UnackedExact(w.b))
  }

  ghost predicate SameDrift(b: Broker, b': Broker) {
    forall q :: Drift(b', q) == Drift(b, q)
  }

  lemma SameDriftIsExact(b: Broker, b': Broker)
    requires UnackedExact(b) && SameDrift(b, b')
    ensures UnackedExact(b')
  {
    forall q ensures SchedOf(b', q).unacked == |From(b', q)| {
      assert Drift(b', q) == Drift(b, q);
    }
  }

  lemma SameDriftOk(w: World, w': World)
    requires DriftOk(w) && SameDrift(w.b, w'.b) && FailedNacks(w'.log) == FailedNacks(w.log)
    ensures DriftOk(w')
  {
    assert Drift(w'.b, FAILED) == Drift(w.b, FAILED);
    if FailedNacks(w.log) == 0 {
      SameDriftIsExact(w.b, w'.b);
    }
  }

  // The same deliveries outstanding, each delivered as often.
  ghost predicate SameDelivery(b: Broker, b': Broker, id: ID) {
    && (id in b.unack <==> id in b'.unack)
    && (id in b.unack && id in b'.unack ==>
          b'.unack[id].eval == b.unack[id].eval && Dequeues(b', id) == Dequeues(b, id))
  }

  lemma SameFrom(b: Broker, b': Broker, q: Queue)
    requires b'.config == b.config && forall id :: SameDelivery(b, b', id)
    ensures From(b', q) == From(b, q)
  {
    forall id ensures id in From(b', q) <==> id in From(b, q) {
      assert SameDelivery(b, b', id);
    }
  }

  lemma QuietDrift(b: Broker, b': Broker)
    requires b'.config == b.config && forall id :: SameDelivery(b, b', id)
    requires forall q :: SchedOf(b', q).unacked == SchedOf(b, q).unacked
    ensures SameDrift(b, b')
  {
    forall q ensures Drift(b', q) == Drift(b, q) {
      SameFrom(b, b', q);
      assert SchedOf(b', q).unacked == SchedOf(b, q).unacked;
    }
  }

  lemma OfferDrift(b: Broker, e: Eval, t: Token)
    requires Consistent(b)
    ensures SameDrift(b, ProcessEnqueue(b, e, t))
  {
    var b' := ProcessEnqueue(b, e, t);
    var led: Ledger :| Inv(b, led);
    forall id ensures SameDelivery(b, b', id) {
      assert IdOk(b, led, {}, id);
    }
    forall q ensures SchedOf(b', q).unacked == SchedOf(b, q).unacked {
      if e.id !in b.evals {
        EnqueueNewCounts(if b.enabled then b.(evals := b.evals[e.id := 0]) else b, e, q);
      }
    }
    QuietDrift(b, b');
  }

  lemma WaitOverDrift(b: Broker, e: Eval)
    ensures SameDrift(b, EnqueueWaiting(b, e))
  {
    var b' := EnqueueWaiting(b, e);
    forall id ensures SameDelivery(b, b', id) {
    }
    forall q ensures SchedOf(b', q).unacked == SchedOf(b, q).unacked {
      EnqueueCounts(EndWait(b, e.id), e, e.kind, q);
    }
    QuietDrift(b, b');
  }

  lemma ArmDrift(b: Broker, id: ID, armed: bool)
    requires id in b.unack
    ensures SameDrift(b, Arm(b, id, armed))
  {
    var b' := Arm(b, id, armed);
    forall x ensures SameDelivery(b, b', x) {
    }
    QuietDrift(b, b');
  }

  lemma DeliveryDrift(b: Broker, q: Queue, t: Token)
    requires Consistent(b) && HasWork(b, q)
    ensures SameDrift(b, DequeueForSched(b, q, t))
  {
    var led: Ledger :| Inv(b, led);
    ReadyHead(b, led, q);
    DequeueTakes(b, q, t);
    var e, b' := b.ready[q][0], DequeueForSched(b, q, t);
    assert IdOk(b, led, {}, e.id);
    forall x ensures Drift(b', x) == Drift(b, x) {
      HandOutCounts(b, e, GoHeap.PopRest(Less, b.ready[q]), q, t, x);
      FromWith(b, b', e, t, q, x);
    }
  }

  lemma AckFrom(b: Broker, id: ID, t: Token, q: Queue)
    requires Consistent(b) && id in b.unack && AckQueue(b, id) in b.stats.bySched
    ensures |From(AckDone(b, id, t), q)| == |From(b, q)| - if AckQueue(b, id) == q then 1 else 0
  {
    var b' := AckDone(b, id, t);
    forall x | x in b'.unack ensures Dequeues(b', x) == Dequeues(b, x) {
      AckDequeues(b, id, t, x);
    }
    FromWithout(b, b', id, q);
  }

  lemma AckDrift(b: Broker, id: ID, t: Token)
    requires Consistent(b) && Ack(b, id, t).1 == Done
    ensures SameDrift(b, Ack(b, id, t).0)
  {
    var b' := AckDone(b, id, t);
    forall q ensures Drift(b', q) == Drift(b, q) {
      AckCounts(b, id, t, q);
      AckFrom(b, id, t, q);
    }
  }

  // A broker that differs in the requeue map only.
  lemma RequeueDrift(b: Broker, b': Broker)
    requires b' == b.(requeue := b'.requeue)
    ensures SameDrift(b, b')
  {
    forall id ensures SameDelivery(b, b', id) {
    }
    QuietDrift(b, b');
  }

  lemma AckStepDrift(w: World, id: ID, t: Token)
    requires RunInv(w) && DriftOk(w)
    ensures DriftOk(AckWorld(w, id, t))
  {
    AckConsistent(w.b, id, t);
    var w' := AckWorld(w, id, t);
    if Ack(w.b, id, t).1 == Done {
      AckDrift(w.b, id, t);
      OneMoreEvent(w.log, AckEvent(id, t));
      if t in w.b.requeue {
        OneMoreEvent(w.log + [AckEvent(id, t)], Accepted(w.b.requeue[t].id));
      }
    } else {
      RequeueDrift(w.b, w'.b);
    }
    SameDriftOk(w, w');
  }

  // A rejection moves the counters exactly when the failed queue had delivered.
  lemma NackDrift(b: Broker, id: ID, t: Token, q: Queue)
    requires Consistent(b) && Nack(b, id, t).1 == Done
    ensures var failed := Dequeues(b, id) > b.config.deliveryLimit;
      Drift(Nack(b, id, t).0, q) == Drift(b, q)
        + (if failed && q == FAILED then 1 else 0) - (if failed && q == b.unack[id].eval.kind then 1 else 0)
    ensures b.unack[id].eval.kind != FAILED
  {
    var led: Ledger :| Inv(b, led);
    assert IdOk(b, led, {}, id);
    NackCounts(b, id, t, q);
  }

  lemma NackDoneDrift(w: World, id: ID, t: Token)
    requires RunInv(w) && DriftOk(w) && Nack(w.b, id, t).1 == Done
    ensures DriftOk(World(Nack(w.b, id, t).0, w.log + [NackEvent(id, t)]))
  {
    var b', log := Nack(w.b, id, t).0, w.log + [NackEvent(id, t)];
    assert IdHistory(w.b, w.log, id);
    OneMoreEvent(w.log, NackEvent(id, t));
    NackDrift(w.b, id, t, FAILED);
    if FailedNacks(log) == 0 {
      forall q ensures SchedOf(b', q).unacked == |From(b', q)| {
        NackDrift(w.b, id, t, q);
      }
    }
  }

  lemma NackStepDrift(w: World, id: ID, t: Token)
    requires RunInv(w) && DriftOk(w)
    ensures DriftOk(NackWorld(w, id, t))
  {
    NackConsistent(w.b, id, t);
    if Nack(w.b, id, t).1 == Done {
      NackDoneDrift(w, id, t);
    } else {
      RequeueDrift(w.b, Nack(w.b, id, t).0);
      SameDriftOk(w, NackWorld(w, id, t));
    }
  }

  lemma TimerStepDrift(w: World, s: Step)
    requires DriftOk(w) && (s.NackTimerFires? || s.Pause? || s.Resume? || s.DoReset?)
    ensures DriftOk(Next(w, s))
  {
    if s.id in w.b.unack {
      ArmDrift(w.b, s.id, true);
      ArmDrift(w.b, s.id, false);
      SameDriftOk(w, w.(b := Arm(w.b, s.id, true)));
      SameDriftOk(w, w.(b := Arm(w.b, s.id, false)));
    }
  }

  lemma EmptyDrift(w: World)
    requires w.b.unack == map[] && w.b.stats == NO_STATS && FailedNacks(w.log) == 0
    ensures DriftOk(w)
  {
    forall q ensures From(w.b, q) == {} {
    }
  }

  lemma DeliverStepDrift(w: World, q: Queue, t: Token)
    requires RunInv(w) && DriftOk(w) && HasWork(w.b, q)
    ensures DriftOk(DeliverFrom(w, q, t))
  {
    DeliveryDrift(w.b, q, t);
    OneMoreEvent(w.log, Delivery(GoHeap.PopTop(Less, w.b.ready[q]).id, t, q));
    SameDriftOk(w, DeliverFrom(w, q, t));
  }

  lemma NextDrift(w: World, s: Step)
    requires RunInv(w) && DriftOk(w) && Legal(w, s)
    ensures DriftOk(Next(w, s))
  {
    match s
    case Enable =>
      QuietDrift(w.b, Next(w, s).b);
      SameDriftOk(w, Next(w, s));
    case Disable =>
      OneMoreEvent(w.log, Flushed);
      EmptyDrift(Next(w, s));
    case Offer(e, t) =>
      OfferDrift(w.b, e, t);
      OneMoreEvent(w.log, Accepted(e.id));
      SameDriftOk(w, Next(w, s));
    case WaitOver(id) =>
      WaitOverDrift(w.b, w.b.timeWait[id]);
      SameDriftOk(w, Next(w, s));
    case Deliver(qs, i, t) =>
      if w.b.enabled && Served(w.b, qs, i) {
        EligibleHasWork(w.b, qs);
        assert Eligible(w.b, qs)[i] in Eligible(w.b, qs);
        DeliverStepDrift(w, Eligible(w.b, qs)[i], t);
      }
    case DoAck(id, t) => AckStepDrift(w, id, t);
    case DoNack(id, t) => NackStepDrift(w, id, t);
    case _ => TimerStepDrift(w, s);
  }

  lemma {:induction false} RunDrift(config: Config, steps: seq<Step>)
    requires config.deliveryLimit >= 1 && LegalRun(Start(config), steps)
    ensures DriftOk(After(Start(config), steps))
  {
    if steps == [] {
      EmptyDrift(Start(config));
    } else {
      var prev := steps[..|steps| - 1];
      RunDrift(config, prev);
      RunsKeepInvariant(config, prev);
      NextDrift(After(Start(config), prev), steps[|steps| - 1]);
    }
  }

  // In every reachable state the failed queue's counter is too high by the number of
  // its deliveries that were rejected since the last flush, and all counters are exact
  // if and only if there was none.
  lemma UnackedExactIff(config: Config, w: World)
    requires Reachable(config, w)
    ensures SchedOf(w.b, FAILED).unacked == |From(w.b, FAILED)| + FailedNacks(w.log)
    ensures UnackedExact(w.b) <==> FailedNacks(w.log) == 0
  {
    var steps :| LegalRun(Start(config), steps) && After(Start(config), steps) == w;
    RunDrift(config, steps);
  }

  // An outstanding evaluation that has used up its one delivery goes to the failed
  // queue when it is rejected.
  lemma RejectReaches(config: Config, w: World, e: Eval, t: Token) returns (w': World)
    requires Reaches(Start(config), w) && w.b.enabled && w.b.config == config && Acceptable(e)
    requires e.id in w.b.unack && w.b.unack[e.id] == Unack(e, t, true)
    requires e.id in w.b.evals && w.b.evals[e.id] >= config.deliveryLimit
    requires e.jobID in w.b.jobEvals && w.b.jobEvals[e.jobID] == e.id && e.kind in w.b.stats.bySched
    requires Slice(w.b.ready, FAILED) == []
    ensures Reaches(Start(config), w') && w' == NackWorld(w, e.id, t) && w'.b.enabled && w'.b.config == config
    ensures FAILED in w'.b.ready && w'.b.ready[FAILED] == [e] && w'.b.evals == w.b.evals
    ensures w'.b.jobEvals == w.b.jobEvals && e.kind in w'.b.stats.bySched
    ensures w'.log == w.log + [NackEvent(e.id, t)] && Nack(w.b, e.id, t).1 == Done
  {
    ReachesNext(Start(config), w, DoNack(e.id, t));
    PushOne(e);
    w' := NackWorld(w, e.id, t);
  }

  // A token for each delivery.
  function Tok(n: nat): Token {
    seq(n + 1, _ => 't')
  }

  // None of the later tokens has been delivered.
  ghost predicate NewFrom(log: seq<Event>, n: nat) {
    forall k: nat | k >= n :: Deliveries(log, Tok(k)) == 0
  }

  lemma StillNew(log: seq<Event>, n: nat, ev: Event)
    requires NewFrom(log, n) && (ev.Delivery? ==> ev.token == Tok(n))
    ensures NewFrom(log + [ev], n + 1)
  {
    assert (log + [ev])[..|log|] == log;
    forall k: nat | k >= n + 1 ensures Deliveries(log + [ev], Tok(k)) == 0 {
      assert Deliveries(log, Tok(k)) == 0;
      assert |Tok(k)| != |Tok(n)|;
    }
  }

  // The sample evaluation, apart from its wait, has been handed out n times and none of
  // this was the failed queue's doing.
  ghost predicate Sampled(config: Config, w: World, n: nat, x: Eval) {
    && Reaches(Start(config), w) && w.b.enabled && w.b.config == config && x == SAMPLE.(wait := x.wait)
    && "e" in w.b.evals && w.b.evals["e"] == n && "j" in w.b.jobEvals && w.b.jobEvals["j"] == "e"
    && "service" in w.b.stats.bySched && "service" in w.b.ready && FAILED !in w.b.ready
    && FailedNacks(w.log) == 0 && NewFrom(w.log, n + 1)
  }

  ghost predicate SampleOut(config: Config, w: World, n: nat, x: Eval) {
    && Sampled(config, w, n, x) && w.b.ready["service"] == []
    && "e" in w.b.unack && w.b.unack["e"] == Unack(x, Tok(n), true)
  }

  ghost predicate SampleReady(config: Config, w: World, n: nat, x: Eval) {
    Sampled(config, w, n, x) && w.b.ready["service"] == [x]
  }

  lemma HandOutSample(config: Config, w: World, n: nat, x: Eval) returns (w': World)
    requires SampleReady(config, w, n, x)
    ensures SampleOut(config, w', n + 1, x)
  {
    assert Deliveries(w.log, Tok(n + 1)) == 0;
    w' := DeliverReaches(config, w, "service", x, Tok(n + 1));
    OneMoreEvent(w.log, Delivery("e", Tok(n + 1), "service"));
    StillNew(w.log, n + 1, Delivery("e", Tok(n + 1), "service"));
  }

  // The log after a rejection of a delivery that was within the limit.
  lemma RejectedLog(config: Config, w: World, n: nat, x: Eval)
    requires SampleOut(config, w, n, x) && 1 <= n <= config.deliveryLimit
    ensures var log := w.log + [NackEvent("e", Tok(n))]; FailedNacks(log) == 0 && NewFrom(log, n + 1)
  {
    var log := w.log + [NackEvent("e", Tok(n))];
    ReachableKeeps(config, w);
    assert IdHistory(w.b, w.log, "e");
    OneMoreEvent(w.log, NackEvent("e", Tok(n)));
    assert log[..|log| - 1] == w.log;
  }

  // Rejected before the limit, the evaluation waits or is ready at once.
  lemma RejectSample(config: Config, w: World, n: nat, x: Eval) returns (w': World, x': Eval)
    requires SampleOut(config, w, n, x) && 1 <= n < config.deliveryLimit
    ensures Sampled(config, w', n, x')
    ensures if x'.wait > 0 then w'.b.ready["service"] == [] && "e" in w'.b.timeWait && w'.b.timeWait["e"] == x'
            else w'.b.ready["service"] == [x']
  {
    x' := x.(wait := NackDelay(config, n));
    PushOne(x');
    RejectedLog(config, w, n, x);
    ReachesNext(Start(config), w, DoNack("e", Tok(n)));
    w' := NackWorld(w, "e", Tok(n));
  }

  lemma SampleWaitOver(config: Config, w: World, n: nat, x: Eval) returns (w': World)
    requires Sampled(config, w, n, x) && w.b.ready["service"] == [] && "e" in w.b.timeWait && w.b.timeWait["e"] == x
    ensures SampleReady(config, w', n, x)
  {
    PushOne(x);
    ReachesNext(Start(config), w, WaitOver("e"));
    w' := Next(w, WaitOver("e"));
  }

  // However long the limit, some run has handed the evaluation out n times.
  lemma {:induction false} HandedOutTimes(config: Config, n: nat) returns (w: World, x: Eval)
    requires 1 <= n <= config.deliveryLimit
    ensures SampleOut(config, w, n, x)
  {
    var w0;
    if n == 1 {
      w0 := SampleOffered(config);
      x := SAMPLE;
      NewLog(w0.log);
    } else {
      w0, x := HandedOutTimes(config, n - 1);
      w0, x := RejectSample(config, w0, n - 1, x);
      if x.wait > 0 {
        w0 := SampleWaitOver(config, w0, n - 1, x);
      }
    }
    w := HandOutSample(config, w0, n - 1, x);
  }

  lemma NewLog(log: seq<Event>)
    requires log == [Accepted("e")]
    ensures FailedNacks(log) == 0 && NewFrom(log, 1)
  {
    assert log[..0] == [];
  }

  // Under every limit, a run that ends with exact counters and a delivery of the failed
  // queue, whose rejection then makes them wrong.
  lemma FailedNackDrifts(config: Config) returns (w: World, t: Token)
    requires config.deliveryLimit >= 1
    ensures Reachable(config, w) && UnackedExact(w.b)
    ensures Nack(w.b, "e", t).1 == Done && !UnackedExact(NackWorld(w, "e", t).b)
  {
    var n := config.deliveryLimit;
    var w1, x := HandedOutTimes(config, n);
    RejectedLog(config, w1, n, x);
    var w2 := RejectReaches(config, w1, x, Tok(n));
    t := Tok(n + 1);
    assert Deliveries(w2.log, t) == 0;
    w := DeliverReaches(config, w2, FAILED, x, t);
    OneMoreEvent(w2.log, Delivery("e", t, FAILED));
    UnackedExactIff(config, w);
    FailedIsWrong(config, w, "e", t);
  }

  lemma FailedIsWrong(config: Config, w: World, id: ID, t: Token)
    requires Reachable(config, w) && UnackedExact(w.b) && Nack(w.b, id, t).1 == Done
    requires id in w.b.evals && w.b.evals[id] > config.deliveryLimit
    ensures !UnackedExact(NackWorld(w, id, t).b)
  {
    ReachableKeeps(config, w);
    NackKeepsExactIff(w.b, id, t);
  }
}
