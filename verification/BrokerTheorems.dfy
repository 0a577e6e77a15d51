/**
 What the invariant says in terms of the broker's own structures.
 */
module BrokerTheorems {
  import opened GoHeap
  import opened Evaluations
  import opened BrokerModel
  import opened BrokerInvariant
  import opened BrokerSteps
  import opened BrokerRuns
  import opened Sums

  // No evaluation is lost or duplicated

  // The number of slots of a slice that hold the evaluation.
  function Slots(h: seq<Eval>, id: ID): nat {
    if h == [] then 0
    else Slots(h[..|h| - 1], id) + if h[|h| - 1].id == id then 1 else 0
  }

  function SlotsPer(m: map<string, seq<Eval>>, id: ID): map<string, int> {
    map k | k in m :: Slots(m[k], id)
  }

  // How often an evaluation sits in the broker.
  ghost function Occurrences(b: Broker, id: ID): int {
    (if id in b.timeWait then 1 else 0) + (if id in b.unack then 1 else 0)
    + Sum(SlotsPer(b.ready, id)) + Sum(SlotsPer(b.blocked, id))
  }

  lemma {:induction false} SlotsCount(h: seq<Eval>, e: Eval)
    requires forall x | x in h :: x.id == e.id ==> x == e
    ensures Slots(h, e.id) == multiset(h)[e]
  {
    if h != [] {
      var g := h[..|h| - 1];
      assert h == g + [h[|h| - 1]];
      SlotsCount(g, e);
      assert h[|h| - 1] in h;
    }
  }

  lemma SlotsOfPlace(h: seq<Eval>, led: Ledger, p: Place, e: Eval)
    requires QueueHolds(h, led, p) && NoDuplicates(h)
    requires e.id in led ==> led[e.id].eval == e
    requires e.id in led && led[e.id].place == p ==> e in h
    ensures Slots(h, e.id) == if e.id in led && led[e.id].place == p then 1 else 0
  {
    SlotsCount(h, e);
  }

  lemma ReadySlots(b: Broker, led: Ledger, e: Eval)
    requires Inv(b, led) && (e.id in led ==> led[e.id].eval == e)
    ensures Sum(SlotsPer(b.ready, e.id)) == if e.id in led && led[e.id].place.Ready? then 1 else 0
  {
    var m := SlotsPer(b.ready, e.id);
    assert IdOk(b, led, {}, e.id);
    forall q | q in b.ready
      ensures m[q] == if e.id in led && led[e.id].place == Ready(q) then 1 else 0
    {
      assert QueueOk(b, led, q);
      SlotsOfPlace(b.ready[q], led, Ready(q), e);
    }
    if e.id in led && led[e.id].place.Ready? {
      SumOfOne(m, led[e.id].place.queue);
    } else {
      SumOfZeros(m);
    }
  }

  lemma BlockedSlots(b: Broker, led: Ledger, e: Eval)
    requires Inv(b, led) && (e.id in led ==> led[e.id].eval == e)
    ensures Sum(SlotsPer(b.blocked, e.id)) == if e.id in led && led[e.id].place == Blocked then 1 else 0
  {
    var m := SlotsPer(b.blocked, e.id);
    assert IdOk(b, led, {}, e.id);
    forall j | j in b.blocked
      ensures m[j] == if e.id in led && led[e.id].place == Blocked && e.jobID == j then 1 else 0
    {
      assert JobOk(b, led, j);
      if e.id in led && led[e.id].place == Blocked && e.jobID != j {
        assert e !in b.blocked[j];
        SlotsCount(b.blocked[j], e);
      } else {
        SlotsOfPlace(b.blocked[j], led, Blocked, e);
      }
    }
    if e.id in led && led[e.id].place == Blocked {
      SumOfOne(m, e.jobID);
    } else {
      SumOfZeros(m);
    }
  }

  // Each known evaluation sits in exactly one slot of one structure, and nothing
  // else sits anywhere.
  lemma ExactlyOnePlace(b: Broker, id: ID)
    requires Consistent(b)
    ensures Occurrences(b, id) == if id in b.evals then 1 else 0
  {
    var led: Ledger :| Inv(b, led);
    assert IdOk(b, led, {}, id);
    var dummy := Eval(id, "", "", 0, 0, 0, 0, false, map[], OtherTrigger);
    var e := if id in led then led[id].eval else dummy;
    ReadySlots(b, led, e);
    BlockedSlots(b, led, e);
  }

  // Only a successful Ack or a flush forgets an evaluation.
  lemma OnlyAckForgets(w: World, s: Step, id: ID)
    requires Legal(w, s) && id in w.b.evals
    ensures id in Next(w, s).b.evals || s == Disable
         || (s.DoAck? && s.id == id && Ack(w.b, id, s.token).1 == Done)
  {
    match s
    case DoAck(x, t) => assert w.b.evals.Keys - (if Ack(w.b, x, t).1 == Done then {x} else {}) <= Ack(w.b, x, t).0.evals.Keys;
    case DoNack(x, t) => assert Nack(w.b, x, t).0.evals == w.b.evals;
    case Offer(e, t) => assert id in ProcessEnqueue(w.b, e, t).evals;
    case _ =>
  }

  // Jobs are serialized

  // Handed out, or next to be handed out.
  ghost predicate Live(b: Broker, e: Eval) {
    || (exists q :: q in b.ready && e in b.ready[q])
    || (e.id in b.unack && b.unack[e.id].eval == e)
  }

  lemma LiveOwns(b: Broker, led: Ledger, e: Eval)
    requires Inv(b, led) && Live(b, e)
    ensures Owns(b, e) && e.id in led && led[e.id].eval == e
  {
    if e.id in b.unack && b.unack[e.id].eval == e {
      assert IdOk(b, led, {}, e.id);
    } else {
      var q :| q in b.ready && e in b.ready[q];
      assert QueueOk(b, led, q);
      assert IdOk(b, led, {}, e.id);
    }
  }

  // At most one evaluation per job is ready or outstanding: the job's owner.
  lemma JobsAreSerialized(b: Broker, x: Eval, y: Eval)
    requires Consistent(b) && Live(b, x) && Live(b, y) && x.jobID == y.jobID
    ensures x == y && x.jobID in b.jobEvals && b.jobEvals[x.jobID] == x.id
  {
    var led: Ledger :| Inv(b, led);
    LiveOwns(b, led, x);
    LiveOwns(b, led, y);
  }

  // A blocked evaluation waits for an owner that will be settled or whose timer
  // will fire, so it is not stranded.
  lemma NoneIsStranded(b: Broker, j: JobID)
    requires Consistent(b) && Slice(b.blocked, j) != []
    ensures j in b.jobEvals
    ensures b.jobEvals[j] in b.timeWait || (exists e :: Live(b, e) && e.id == b.jobEvals[j] && e.jobID == j)
  {
    var led: Ledger :| Inv(b, led);
    assert JobOk(b, led, j);
    var x := b.blocked[j][0];
    assert x in b.blocked[j];
    assert IdOk(b, led, {}, x.id);
    var owner := b.jobEvals[j];
    assert IdOk(b, led, {}, owner);
    if owner !in b.timeWait {
      assert Live(b, led[owner].eval);
    }
  }

  // Order of service

  // A dequeue takes the highest priority of its queue, and among equals the one
  // created first.
  lemma DequeueTakesTheBest(b: Broker, q: Queue, x: Eval)
    requires Consistent(b) && HasWork(b, q) && x in b.ready[q]
    ensures var e := PopTop(Less, b.ready[q]);
      e.priority > x.priority || (e.priority == x.priority && e.createIndex <= x.createIndex)
  {
    var led: Ledger :| Inv(b, led);
    var h := b.ready[q];
    ReadyHead(b, led, q);
    DequeueTakes(b, q, "");
    var i :| 0 <= i < |h| && h[i] == x;
    RootOfReadyQueue(h, (set y | y in h), i);
  }

  ghost predicate BestOf(e: Eval, h: seq<Eval>) {
    e in h && forall x | x in h ::
      e.priority > x.priority || (e.priority == x.priority && e.createIndex <= x.createIndex)
  }

  // The evaluation is the best of the queue, leaves it and nothing else does, and is
  // outstanding under the token with an armed timer and one more delivery.
  ghost predicate DeliversFrom(b: Broker, b': Broker, q: Queue, e: Eval, t: Token) {
    && q in b.ready && BestOf(e, b.ready[q]) && q in b'.ready
    && multiset(b.ready[q]) == multiset(b'.ready[q]) + multiset{e} && b'.ready == b.ready[q := b'.ready[q]]
    && b'.unack == b.unack[e.id := Unack(e, t, true)]
    && e.id in b.evals && b'.evals == b.evals[e.id := b.evals[e.id] + 1]
    && b'.jobEvals == b.jobEvals && b'.blocked == b.blocked
    && b'.requeue == b.requeue && b'.timeWait == b.timeWait
  }

  lemma TopIsBest(b: Broker, q: Queue)
    requires Consistent(b) && HasWork(b, q)
    ensures var h := b.ready[q]; var e := PopTop(Less, h);
      && BestOf(e, h) && e.id in b.evals && q in b.stats.bySched
      && multiset(PopRest(Less, h)) + multiset{e} == multiset(h)
  {
    var led: Ledger :| Inv(b, led);
    ReadyHead(b, led, q);
    LessIsWeakOrder(set x | x in b.ready[q]);
    PopCorrect(Less, b.ready[q], (set x | x in b.ready[q]));
    forall x | x in b.ready[q] {
      DequeueTakesTheBest(b, q, x);
    }
  }

  lemma DeliveryIsRight(b: Broker, q: Queue, t: Token)
    requires Consistent(b) && HasWork(b, q)
    ensures DeliversFrom(b, DequeueForSched(b, q, t), q, PopTop(Less, b.ready[q]), t)
  {
    TopIsBest(b, q);
  }

  // An unknown evaluation waits, or claims its job and is ready, or is blocked behind
  // the job's owner.
  lemma OfferGoesTo(b: Broker, e: Eval, t: Token)
    requires Consistent(b) && b.enabled && Acceptable(e) && e.id !in b.evals
    ensures var b' := ProcessEnqueue(b, e, t);
      && b'.evals == b.evals[e.id := 0]
      && (if e.wait > 0 then b'.timeWait == b.timeWait[e.id := e] && b'.jobEvals == b.jobEvals
          else if e.jobID !in b.jobEvals then
            b'.jobEvals == b.jobEvals[e.jobID := e.id] && e.kind in b'.ready && e in b'.ready[e.kind]
          else b'.jobEvals == b.jobEvals && e.jobID in b'.blocked && e in b'.blocked[e.jobID])
  {
    var led: Ledger :| Inv(b, led);
    PendingIsOwner(b, led, {}, e.jobID);
    assert JobOk(b, led, e.jobID) && IdOk(b, led, {}, e.id);
    var led' := ProcessEnqueueKeeps(b, led, e, t);
    assert IdOk(ProcessEnqueue(b, e, t), led', {}, e.id);
  }

  // A known evaluation is offered again: it is kept for later exactly if it comes with
  // the token of its own outstanding delivery, and nothing else changes.
  lemma KnownOfferIs(b: Broker, e: Eval, t: Token)
    requires e.id in b.evals
    ensures ProcessEnqueue(b, e, t) ==
      if t != "" && e.id in b.unack && b.unack[e.id].token == t then b.(requeue := b.requeue[t := e]) else b
  {
  }

  lemma OldestBlocked(b: Broker, led: Ledger, j: JobID, x: Eval)
    requires Inv(b, led) && Slice(b.blocked, j) != [] && x in b.blocked[j]
    ensures b.blocked[j][0].createIndex <= x.createIndex
  {
    var h := b.blocked[j];
    assert JobOk(b, led, j);
    var i :| 0 <= i < |h| && h[i] == x;
    RootOfBlockedQueue(h, (set y | y in h), i);
  }

  lemma PromotedIsLive(b: Broker, led: Ledger, id: ID)
    requires Inv(b, led) && id in b.unack && AckQueue(b, id) in b.stats.bySched
    requires Slice(b.blocked, b.unack[id].eval.jobID) != []
    ensures var e := b.blocked[b.unack[id].eval.jobID][0];
      e.id in AckedLedger(b, led, id) && AckedLedger(b, led, id)[e.id] == Entry(e, Ready(e.kind))
  {
  }

  // After a successful Ack the job's earliest blocked evaluation is ready and owns
  // the job.
  lemma AckPromotesTheOldest(b: Broker, id: ID, t: Token) returns (e: Eval)
    requires Consistent(b) && Ack(b, id, t).1 == Done
    requires Slice(b.blocked, b.unack[id].eval.jobID) != []
    ensures var j := b.unack[id].eval.jobID;
      && e in b.blocked[j] && Owns(Ack(b, id, t).0, e) && Live(Ack(b, id, t).0, e)
      && forall x | x in b.blocked[j] :: e.createIndex <= x.createIndex
  {
    var led: Ledger :| Inv(b, led);
    var j := b.unack[id].eval.jobID;
    e := b.blocked[j][0];
    forall x | x in b.blocked[j] ensures e.createIndex <= x.createIndex {
      OldestBlocked(b, led, j, x);
    }
    OutstandingFacts(b, led, id);
    AckedKeeps(b, led, id);
    PromotedIsLive(b, led, id);
    ReenqueueKeepsLive(Acked(b, id), AckedLedger(b, led, id), t, e);
  }

  lemma ReenqueueKeepsLive(b: Broker, led: Ledger, t: Token, e: Eval)
    requires Inv(b, led) && Requeues(b) && b.enabled
    requires e.id in led && led[e.id] == Entry(e, Ready(e.kind))
    ensures Owns(Reenqueue(b, t), e) && Live(Reenqueue(b, t), e)
  {
    assert IdOk(b, led, {}, e.id);
    var led' := ReenqueueKeeps(b, led, t);
    assert led'[e.id] == led[e.id];
    assert IdOk(Reenqueue(b, t), led', {}, e.id);
  }

  // Counters are exact.
  lemma CountersAreExact(b: Broker)
    requires Consistent(b)
    ensures b.stats.totalReady == Total(b.ready) && b.stats.totalBlocked == Total(b.blocked)
    ensures b.stats.totalUnacked == |b.unack| && b.stats.totalWaiting == |b.timeWait|
    ensures b.stats.bySched.Keys == b.ready.Keys
    ensures forall q | q in b.ready :: b.stats.bySched[q].ready == |b.ready[q]|
    ensures Sum(UnackedBySched(b.stats.bySched)) == b.stats.totalUnacked
  {
    var led: Ledger :| Inv(b, led);
    forall q ensures q in b.ready <==> q in b.stats.bySched
    {
      assert QueueOk(b, led, q);
    }
    forall q | q in b.ready ensures b.stats.bySched[q].ready == |b.ready[q]| {
      assert QueueOk(b, led, q);
    }
  }

  // Deliveries and tokens over a whole run

  // An evaluation is accepted once more than it is acknowledged exactly while the
  // broker knows it.
  lemma AcceptedOnceUntilAcked(config: Config, w: World, id: ID)
    requires Reachable(config, w)
    ensures Balance(w.log, id) == if id in w.b.evals then 1 else 0
  {
    ReachableKeeps(config, w);
    assert IdHistory(w.b, w.log, id);
  }

  // Between two acceptances an ordinary queue hands an evaluation out at most
  // deliveryLimit times.
  lemma DeliveriesAreBounded(config: Config, w: World, id: ID)
    requires Reachable(config, w)
    ensures Ordinary(w.log, id) <= config.deliveryLimit
  {
    ReachableKeeps(config, w);
    assert IdHistory(w.b, w.log, id);
  }

  // A token is settled at most once, by Ack or by Nack, however timers, pauses,
  // resets and flushes interleave; and never under another delivery.
  lemma TokensSettleOnce(config: Config, w: World, t: Token)
    requires Reachable(config, w)
    ensures Settlements(w.log, t) <= Deliveries(w.log, t) <= 1
  {
    ReachableKeeps(config, w);
    assert TokenHistory(w.b, w.log, t);
  }

  // An outstanding evaluation has used up its deliveries exactly when the failed
  // queue handed it out.
  lemma FailedDeliveries(config: Config, w: World, id: ID)
    requires Reachable(config, w) && id in w.b.unack
    ensures id in w.b.evals && Origin(w.log, w.b.unack[id].token).0 == id
    ensures Origin(w.log, w.b.unack[id].token).1 == "_failed" <==> w.b.evals[id] > config.deliveryLimit
  {
    ReachableKeeps(config, w);
    assert IdHistory(w.b, w.log, id);
  }

  // A blocked evaluation has never been handed out.
  lemma BlockedIsFresh(b: Broker, j: JobID, e: Eval)
    requires Consistent(b) && j in b.blocked && e in b.blocked[j]
    ensures e.id in b.evals && b.evals[e.id] == 0
  {
    var led: Ledger :| Inv(b, led);
    assert JobOk(b, led, j);
    assert IdOk(b, led, {}, e.id);
  }

  // A requeued evaluation is held under the token of its own outstanding delivery,
  // unless a flush cancelled that delivery.
  lemma RequeueKeysAreOutstanding(config: Config, w: World, t: Token)
    requires Reachable(config, w) && t in w.b.requeue
    ensures var id := w.b.requeue[t].id;
      (id in w.b.unack && w.b.unack[id].token == t) || Current(w.log, t) == 0
  {
    ReachableKeeps(config, w);
    assert TokenHistory(w.b, w.log, t);
  }

  // Settling and timers

  // An Ack needs the token of the outstanding delivery and its timer, a Nack only
  // the token.
  lemma SettlesIff(b: Broker, id: ID, t: Token)
    requires Consistent(b)
    ensures Ack(b, id, t).1 == Done <==> id in b.unack && b.unack[id].token == t && b.unack[id].armed
    ensures Nack(b, id, t).1 == Done <==> id in b.unack && b.unack[id].token == t
  {
    AckConsistent(b, id, t);
    NackConsistent(b, id, t);
  }

  // Every answer: not found if nothing is outstanding under the ID, a mismatch if it is
  // under another token, an expired timer if the operation needs an armed one.
  lemma AnswersAre(b: Broker, id: ID, t: Token)
    requires Consistent(b)
    ensures var held := if id !in b.unack then NotFound else if b.unack[id].token != t then TokenMismatch else Done;
      var timed := if held == Done && !b.unack[id].armed then TimerExpired else held;
      && Ack(b, id, t).1 == timed && Nack(b, id, t).1 == held
      && PauseNackTimeout(b, id, t).1 == timed && Reset(b, id, t).1 == timed
      && ResumeNackTimeout(b, id, t).1 == held
  {
    AckConsistent(b, id, t);
    NackConsistent(b, id, t);
  }

  // What the three timer operations do to the timer, and to nothing else.
  lemma TimersAre(b: Broker, id: ID, t: Token)
    ensures var armed := (on: bool) =>
        if id in b.unack && b.unack[id].token == t
        then b.(unack := b.unack[id := Unack(b.unack[id].eval, t, on)]) else b;
      && PauseNackTimeout(b, id, t).0 == armed(false)
      && ResumeNackTimeout(b, id, t).0 == armed(true) && Reset(b, id, t).0 == armed(true)
  {
  }

  // While a delivery is paused it cannot be acknowledged; resuming undoes the pause,
  // and a reset lets even a delivery whose timer has fired be acknowledged.  Pausing an
  // armed timer succeeds, pausing it twice does not.
  lemma PauseAndResume(b: Broker, id: ID, t: Token)
    requires Consistent(b) && id in b.unack && b.unack[id].token == t
    ensures var (paused, answer) := PauseNackTimeout(b, id, t);
      && (answer == Done <==> b.unack[id].armed) && (answer == TimerExpired <==> !b.unack[id].armed)
      && PauseNackTimeout(paused, id, t).1 == TimerExpired && Ack(paused, id, t).1 == TimerExpired
      && (ResumeNackTimeout(paused, id, t).0 == b <==> b.unack[id].armed)
      && Reset(paused, id, t).1 == TimerExpired && Ack(Reset(paused, id, t).0, id, t).1 == Done
  {
    var paused := PauseNackTimeout(b, id, t).0;
    var resumed := ResumeNackTimeout(paused, id, t).0;
    assert resumed.unack == b.unack[id := b.unack[id].(armed := true)];
    if b.unack[id].armed {
      assert resumed.unack == b.unack;
    }
    AckConsistent(b, id, t);
  }

  // Right after its delivery an evaluation can be paused once, and not twice.
  lemma DeliveredPausesOnce(b: Broker, q: Queue, t: Token)
    requires Consistent(b) && HasWork(b, q)
    ensures var id := PopTop(Less, b.ready[q]).id;
      var (paused, answer) := PauseNackTimeout(DequeueForSched(b, q, t), id, t);
      answer == Done && PauseNackTimeout(paused, id, t).1 == TimerExpired
  {
    DeliveryIsRight(b, q, t);
    DequeueConsistent(b, q, t);
    PauseAndResume(DequeueForSched(b, q, t), PopTop(Less, b.ready[q]).id, t);
  }

  // Each rejection after the first two adds the same delay.
  lemma NackDelayCompounds(config: Config, n: nat)
    ensures NackDelay(config, 0) == 0 && NackDelay(config, 1) == config.initialNackDelay
    ensures n >= 2 ==> NackDelay(config, n + 1) == NackDelay(config, n) + config.subsequentNackDelay
    ensures NackDelay(config, 2) == config.subsequentNackDelay
  {
    if n >= 2 {
      assert n * config.subsequentNackDelay == (n - 1) * config.subsequentNackDelay + config.subsequentNackDelay;
    }
  }
}
