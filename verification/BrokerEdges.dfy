/**
 Where the broker's guarantees end, and what a scan and a handoff promise.
 */
module BrokerEdges {
  import opened GoHeap
  import opened Evaluations
  import opened BrokerModel
  import opened BrokerInvariant
  import opened BrokerSteps
  import opened BrokerRuns
  import opened BrokerTheorems

  lemma WaitersAreCounted(b: Broker)
    ensures Consistent(b) ==>
      b.stats.totalWaiting == |b.timeWait| && forall id | id in b.timeWait :: id in b.evals
  {
    if Consistent(b) {
      var led: Ledger :| Inv(b, led);
      forall id | id in b.timeWait ensures id in b.evals {
        assert IdOk(b, led, {}, id);
      }
    }
  }

  // A disabled broker starts the wait timer of an evaluation it does not record, so
  // an offer keeps the structures in agreement exactly when this cannot happen.
  lemma OfferAgreesIff(b: Broker, e: Eval, t: Token)
    requires Consistent(b) && Acceptable(e)
    ensures Consistent(ProcessEnqueue(b, e, t)) <==> b.enabled || e.wait <= 0
  {
    var led: Ledger :| Inv(b, led);
    if b.enabled || e.wait <= 0 {
      var led' := ProcessEnqueueKeeps(b, led, e, t);
    } else {
      assert IdOk(b, led, {}, e.id);
      WaitersAreCounted(ProcessEnqueue(b, e, t));
    }
  }

  // With a delivery limit below one the first acknowledgement of all would look up
  // the failed queue's missing entry; from one on it never does.
  ghost predicate NeverCrashes(config: Config) {
    forall w, id, t | Reaches(Start(config), w) ::
      Ack(w.b, id, t).1 != NilScheduler && Nack(w.b, id, t).1 != NilScheduler
  }

  lemma CrashFreeIff(config: Config)
    ensures NeverCrashes(config) <==> config.deliveryLimit >= 1
  {
    if config.deliveryLimit >= 1 {
      forall w, id, t | Reaches(Start(config), w)
        ensures Ack(w.b, id, t).1 != NilScheduler && Nack(w.b, id, t).1 != NilScheduler
      {
        ReachableKeeps(config, w);
        AckConsistent(w.b, id, t);
        NackConsistent(w.b, id, t);
      }
    } else {
      FirstAckCrashes(config);
    }
  }

  const SAMPLE := Eval("e", "j", "service", 50, 1, 0, 0, false, map[], OtherTrigger)

  // An enabled broker without evaluations.
  lemma EnabledReaches(config: Config) returns (w: World)
    ensures Reaches(Start(config), w) && w == World(New(config).(enabled := true), [])
  {
    ReachesSelf(Start(config));
    ReachesNext(Start(config), Start(config), Enable);
    w := Next(Start(config), Enable);
  }

  // Offering an evaluation of a job that the enabled broker does not hold.
  lemma OfferReaches(config: Config, w: World, e: Eval) returns (w': World)
    requires Reaches(Start(config), w) && w.b.enabled && Acceptable(e) && e.wait <= 0
    requires e.id !in w.b.evals && e.jobID !in w.b.jobEvals
    ensures Reaches(Start(config), w') && w'.b.enabled && w'.b.config == w.b.config && w'.b.unack == w.b.unack
    ensures w'.b.ready == w.b.ready[e.kind := Push(Less, Slice(w.b.ready, e.kind), e)]
    ensures w'.b.jobEvals == w.b.jobEvals[e.jobID := e.id] && w'.b.evals == w.b.evals[e.id := 0]
    ensures w'.b.stats.bySched.Keys == w.b.stats.bySched.Keys + {e.kind} && w'.log == w.log + [Accepted(e.id)]
  {
    ReachesNext(Start(config), w, Offer(e, ""));
    w' := OfferWorld(w, e, "");
  }

  // The one evaluation of a queue is handed out.
  lemma DeliverReaches(config: Config, w: World, q: Queue, e: Eval, t: Token) returns (w': World)
    requires Reaches(Start(config), w) && w.b.enabled && q in w.b.ready && w.b.ready[q] == [e]
    requires t != "" && Deliveries(w.log, t) == 0
    ensures Reaches(Start(config), w') && w' == DeliverFrom(w, q, t) && GoHeap.PopTop(Less, [e]) == e
    ensures w'.b == HandOut(w.b, q, e, [], t) && w'.log == w.log + [Delivery(e.id, t, q)]
  {
    ScanOne(w.b, q);
    ReachesNext(Start(config), w, Deliver([q], 0, t));
    PopOne(e);
    w' := DeliverFrom(w, q, t);
  }

  lemma SampleOffered(config: Config) returns (w: World)
    ensures Reaches(Start(config), w) && w.b.enabled && w.b.config == config && w.b.unack == map[]
    ensures "service" in w.b.ready && w.b.ready["service"] == [SAMPLE] && FAILED !in w.b.ready
    ensures "e" in w.b.evals && w.b.evals["e"] == 0 && "j" in w.b.jobEvals && w.b.jobEvals["j"] == "e"
    ensures "service" in w.b.stats.bySched && FAILED !in w.b.stats.bySched && w.log == [Accepted("e")]
  {
    var w0 := EnabledReaches(config);
    PushOne(SAMPLE);
    w := OfferReaches(config, w0, SAMPLE);
  }

  // The sample evaluation, offered and handed out.
  lemma SampleDelivered(config: Config) returns (w: World)
    ensures Reaches(Start(config), w) && w.b.enabled && w.b.config == config
    ensures "e" in w.b.unack && w.b.unack["e"] == Unack(SAMPLE, "t", true) && FAILED !in w.b.ready
    ensures "e" in w.b.evals && w.b.evals["e"] == 1 && "j" in w.b.jobEvals && w.b.jobEvals["j"] == "e"
    ensures "service" in w.b.stats.bySched && FAILED !in w.b.stats.bySched
    ensures w.log == [Accepted("e"), Delivery("e", "t", "service")]
  {
    var w1 := SampleOffered(config);
    assert w1.log[..0] == [];
    w := DeliverReaches(config, w1, "service", SAMPLE, "t");
  }

  lemma FirstAckCrashes(config: Config)
    requires config.deliveryLimit < 1
    ensures !NeverCrashes(config)
  {
    var w := SampleDelivered(config);
    assert Ack(w.b, "e", "t").1 == NilScheduler;
  }

  lemma PushOne(e: Eval)
    ensures Push(Less, [], e) == [e]
  {
    assert [] + [e] == [e];
  }

  lemma PushTwo(h: Eval, e: Eval)
    requires !Less(e, h)
    ensures Push(Less, [h], e) == [h, e]
  {
    assert [h] + [e] == [h, e];
  }

  lemma PopOne(e: Eval)
    ensures PopTop(Less, [e]) == e && PopRest(Less, [e]) == []
  {
  }

  lemma ScanOne(b: Broker, q: Queue)
    requires HasWork(b, q)
    ensures Eligible(b, [q]) == [q]
  {
    assert [q][..0] == [];
    assert Scan(b, []) == ([], 0);
  }

  // Scanning

  // What a scan over the given schedulers has found.
  ghost predicate Found(b: Broker, schedulers: seq<Queue>, eligible: seq<Queue>, best: int) {
    && (forall q | q in eligible :: q in schedulers && HasWork(b, q) && Peek(b.ready[q]).priority == best)
    && (forall q | q in schedulers && HasWork(b, q) ::
          eligible != [] && Peek(b.ready[q]).priority <= best && (Peek(b.ready[q]).priority == best ==> q in eligible))
  }

  // A scan comes back empty-handed only when none of the schedulers has work, and
  // otherwise may choose any queue whose last slot has the highest priority.
  lemma {:induction false} ScanFinds(b: Broker, schedulers: seq<Queue>)
    ensures Found(b, schedulers, Scan(b, schedulers).0, Scan(b, schedulers).1)
  {
    if schedulers != [] {
      var prev, s := schedulers[..|schedulers| - 1], schedulers[|schedulers| - 1];
      ScanFinds(b, prev);
      assert schedulers == prev + [s];
    }
  }

  // No listed queue's last slot has a higher priority than this queue's.
  ghost predicate LastIsHighest(b: Broker, schedulers: seq<Queue>, q: Queue) {
    && q in schedulers && HasWork(b, q)
    && forall r | r in schedulers && HasWork(b, r) :: Peek(b.ready[r]).priority <= Peek(b.ready[q]).priority
  }

  // No listed queue's root has a higher priority than this queue's.
  ghost predicate RootIsHighest(b: Broker, schedulers: seq<Queue>, q: Queue)
    requires HasWork(b, q)
  {
    forall r | r in schedulers && HasWork(b, r) :: b.ready[r][0].priority <= b.ready[q][0].priority
  }

  // A delivery from the queue has the highest priority of all that is ready for the
  // listed schedulers.
  ghost predicate DeliversHighest(b: Broker, schedulers: seq<Queue>, q: Queue)
    requires HasWork(b, q)
  {
    forall r, x | r in schedulers && r in b.ready && x in b.ready[r] :: x.priority <= PopTop(Less, b.ready[q]).priority
  }

  lemma EligibleIff(b: Broker, schedulers: seq<Queue>, q: Queue)
    ensures q in Eligible(b, schedulers) <==> LastIsHighest(b, schedulers, q)
  {
    ScanFinds(b, schedulers);
    var (eligible, best) := Scan(b, schedulers);
    if LastIsHighest(b, schedulers, q) {
      assert eligible[0] in eligible;
    }
  }

  lemma DeliversHighestIff(b: Broker, schedulers: seq<Queue>, q: Queue)
    requires Consistent(b) && HasWork(b, q)
    ensures DeliversHighest(b, schedulers, q) <==> RootIsHighest(b, schedulers, q)
  {
    RootIsNext(b, q);
    forall r | r in schedulers && HasWork(b, r) ensures b.ready[r][0] in b.ready[r] {
    }
    if RootIsHighest(b, schedulers, q) {
      forall r, x | r in schedulers && r in b.ready && x in b.ready[r]
        ensures x.priority <= PopTop(Less, b.ready[q]).priority
      {
        RootIsNext(b, r);
        DequeueTakesTheBest(b, r, x);
      }
    }
  }

  lemma RootIsNext(b: Broker, q: Queue)
    requires Consistent(b) && HasWork(b, q)
    ensures PopTop(Less, b.ready[q]) == b.ready[q][0]
  {
    var led: Ledger :| Inv(b, led);
    ReadyHead(b, led, q);
    DequeueTakes(b, q, "");
  }

  // Whatever the scan chooses delivers the highest priority, if and only if every
  // queue whose last slot is the highest also has the highest root.
  lemma ScanIsRightIff(b: Broker, schedulers: seq<Queue>)
    requires Consistent(b)
    ensures (forall q | q in Eligible(b, schedulers) :: HasWork(b, q) && DeliversHighest(b, schedulers, q))
       <==> (forall q | LastIsHighest(b, schedulers, q) :: RootIsHighest(b, schedulers, q))
  {
    forall q ensures q in Eligible(b, schedulers) <==> LastIsHighest(b, schedulers, q) {
      EligibleIff(b, schedulers, q);
    }
    forall q | HasWork(b, q) ensures DeliversHighest(b, schedulers, q) <==> RootIsHighest(b, schedulers, q) {
      DeliversHighestIff(b, schedulers, q);
    }
  }

  // Peek reads the last slot of a heap, so a run can reach a broker whose scan takes
  // the queue with the lower priority.
  lemma ScanMissesHighestPriority(config: Config) returns (w: World)
    requires config.deliveryLimit >= 1
    ensures Reachable(config, w) && HasWork(w.b, "service") && HasWork(w.b, "batch")
    ensures Eligible(w.b, ["service", "batch"]) == ["batch"]
    ensures PopTop(Less, w.b.ready["batch"]).priority < PopTop(Less, w.b.ready["service"]).priority
    ensures !DeliversHighest(w.b, ["service", "batch"], "batch")
  {
    var high := SAMPLE.(priority := 90);
    var low := SAMPLE.(id := "f", jobID := "k", priority := 10);
    var mid := SAMPLE.(id := "g", jobID := "l", kind := "batch");
    var w2 := TwoReady(config, high, low);
    PushOne(mid);
    w := OfferReaches(config, w2, mid);
    ScanPrefersSecond(w.b, high, low, mid);
    assert high in w.b.ready["service"];
  }

  lemma TwoReady(config: Config, x: Eval, y: Eval) returns (w: World)
    requires Acceptable(x) && Acceptable(y) && x.wait <= 0 && y.wait <= 0
    requires x.id != y.id && x.jobID != y.jobID && x.kind == y.kind && !Less(y, x)
    ensures Reaches(Start(config), w) && w.b.enabled && w.b.ready == map[x.kind := [x, y]]
    ensures w.b.evals.Keys == {x.id, y.id} && w.b.jobEvals.Keys == {x.jobID, y.jobID}
  {
    PushOne(x);
    PushTwo(x, y);
    var w0 := EnabledReaches(config);
    var w1 := OfferReaches(config, w0, x);
    w := OfferReaches(config, w1, y);
  }

  lemma ScanPrefersSecond(b: Broker, high: Eval, low: Eval, mid: Eval)
    requires HasWork(b, "service") && b.ready["service"] == [high, low]
    requires HasWork(b, "batch") && b.ready["batch"] == [mid]
    requires low.priority < mid.priority < high.priority
    ensures Eligible(b, ["service", "batch"]) == ["batch"]
    ensures PopTop(Less, b.ready["batch"]) == mid && PopTop(Less, b.ready["service"]) == high
  {
    assert ["service", "batch"][..1] == ["service"];
    ScanOne(b, "service");
    assert Scan(b, ["service"]).1 == low.priority;
    PopOne(mid);
    assert PopTop(Less, [high, low]) == high;
  }
}
