/**
 Every critical section of the broker keeps its invariant.
 */
module BrokerSteps {
  import opened GoHeap
  import opened Evaluations
  import opened BrokerModel
  import opened BrokerInvariant

  // What callers may enqueue.
  predicate Acceptable(e: Eval) {
    e.id != "" && e.kind != FAILED
  }

  ghost predicate Requeues(b: Broker) {
    forall t | t in b.requeue :: Acceptable(b.requeue[t])
  }

  // The broker's structures agree: some ledger explains them.
  ghost predicate Consistent(b: Broker) {
    Requeues(b) && exists led :: Inv(b, led)
  }

  // The invariant does not look at the requeue map
  lemma RequeueFrame(b: Broker, led: Ledger, holes: set<JobID>, rq: map<Token, Eval>)
    requires Core(b, led, holes)
    ensures Core(b.(requeue := rq), led, holes)
  {
    var b' := b.(requeue := rq);
    forall id ensures IdOk(b', led, holes, id) {
      assert IdOk(b, led, holes, id);
    }
    forall q ensures QueueOk(b', led, q) {
      assert QueueOk(b, led, q);
    }
    forall j ensures JobOk(b', led, j) {
      assert JobOk(b, led, j);
    }
  }

  lemma Rewritten(led: Ledger, id: ID, x: Entry, y: Entry)
    ensures led[id := x][id := y] == led[id := y]
  {
  }

  // Enqueueing

  lemma PendingIsOwner(b: Broker, led: Ledger, holes: set<JobID>, j: JobID)
    requires Core(b, led, holes)
    ensures Pending(b, j) == "" <==> j !in b.jobEvals
  {
    assert JobOk(b, led, j);
    if j in b.jobEvals {
      assert IdOk(b, led, holes, b.jobEvals[j]);
    }
  }

  // Where enqueueLocked puts an evaluation.
  function Destination(b: Broker, e: Eval, q: Queue): Place {
    if Pending(b, e.jobID) == "" || Pending(b, e.jobID) == e.id then Ready(q) else Blocked
  }

  lemma EnqueueLockedKeeps(b: Broker, led: Ledger, holes: set<JobID>, e: Eval, q: Queue)
    requires Core(b, led, holes) && b.enabled && e.id in led && led[e.id] == Entry(e, Limbo)
    requires e.id in b.evals && CountFits(b.config.deliveryLimit, b.evals[e.id], Entry(e, Ready(q)))
    ensures Core(EnqueueLocked(b, e, q), led[e.id := Entry(e, Destination(b, e, q))], holes - {e.jobID})
  {
    PendingIsOwner(b, led, holes, e.jobID);
    var b' := EnqueueLocked(b, e, q);
    var led' := led[e.id := Entry(e, Destination(b, e, q))];
    if e.jobID !in b.jobEvals {
      var b1 := b.(jobEvals := b.jobEvals[e.jobID := e.id]);
      ClaimKeeps(b, led, holes, e);
      PushReadyKeeps(b1, led, holes, e, q);
    } else if b.jobEvals[e.jobID] != e.id {
      PushBlockedKeeps(b, led, holes, e);
    } else {
      PushReadyKeeps(b, led, holes, e, q);
    }
    FillHole(b', led', holes, e.jobID);
  }

  function NewPlace(b: Broker, e: Eval): Place {
    if e.wait > 0 then Waiting else Destination(b, e, e.kind)
  }

  lemma EnqueueNewKeeps(b: Broker, led: Ledger, e: Eval)
    requires Core(b, led, {}) && b.enabled && e.id in led && led[e.id] == Entry(e, Limbo) && e.kind != FAILED
    requires e.id in b.evals && 0 <= b.evals[e.id] < b.config.deliveryLimit
    ensures Core(EnqueueNew(b, e), led[e.id := Entry(e, NewPlace(b, e))], {})
  {
    if e.wait > 0 {
      StartWaitKeeps(b, led, {}, e);
    } else {
      EnqueueLockedKeeps(b, led, {}, e, e.kind);
      assert {} - {e.jobID} == {};
    }
  }

  lemma AcceptKeeps(b: Broker, led: Ledger, e: Eval)
    requires Core(b, led, {}) && b.enabled && Acceptable(e) && e.id !in b.evals
    ensures Core(EnqueueNew(b.(evals := b.evals[e.id := 0]), e), led[e.id := Entry(e, NewPlace(b, e))], {})
  {
    AdmitKeeps(b, led, {}, e);
    EnqueueNewKeeps(b.(evals := b.evals[e.id := 0]), led[e.id := Entry(e, Limbo)], e);
    Rewritten(led, e.id, Entry(e, Limbo), Entry(e, NewPlace(b, e)));
  }

  lemma ProcessEnqueueKeeps(b: Broker, led: Ledger, e: Eval, token: Token) returns (led': Ledger)
    requires Inv(b, led) && Requeues(b) && Acceptable(e)
    requires b.enabled || e.wait <= 0
    ensures Inv(ProcessEnqueue(b, e, token), led') && Requeues(ProcessEnqueue(b, e, token))
    ensures led' == if b.enabled && e.id !in b.evals then led[e.id := Entry(e, NewPlace(b, e))] else led
  {
    led' := led;
    if e.id in b.evals {
      RequeueFrame(b, led, {}, b.requeue[token := e]);
    } else if b.enabled {
      AcceptKeeps(b, led, e);
      led' := led[e.id := Entry(e, NewPlace(b, e))];
    }
  }

  lemma WaitOverKeeps(b: Broker, led: Ledger, id: ID)
    requires Core(b, led, {}) && b.enabled && id in b.timeWait
    ensures var e := b.timeWait[id];
      Core(EnqueueWaiting(b, e), led[id := Entry(e, Destination(b, e, e.kind))], {})
  {
    var e := b.timeWait[id];
    assert IdOk(b, led, {}, id);
    EndWaitKeeps(b, led, id);
    EnqueueLockedKeeps(EndWait(b, id), led[id := Entry(e, Limbo)], {}, e, e.kind);
    assert {} - {e.jobID} == {};
    Rewritten(led, id, Entry(e, Limbo), Entry(e, Destination(b, e, e.kind)));
  }

  lemma EnqueueWaitingKeeps(b: Broker, led: Ledger, id: ID) returns (led': Ledger)
    requires Inv(b, led) && id in b.timeWait
    ensures Inv(EnqueueWaiting(b, b.timeWait[id]), led')
  {
    var e := b.timeWait[id];
    assert IdOk(b, led, {}, id);
    WaitOverKeeps(b, led, id);
    led' := led[id := Entry(e, Destination(b, e, e.kind))];
  }

  // Delivering

  lemma ReadyHead(b: Broker, led: Ledger, q: Queue)
    requires Core(b, led, {}) && HasWork(b, q)
    ensures var h := b.ready[q];
      && DistinctJobs(set x | x in h) && IsHeap(Less, h) && NoDuplicates(h)
      && h[0].id in led && led[h[0].id] == Entry(h[0], Ready(q))
      && h[0].id in b.evals && h[0].id !in b.unack && q in b.stats.bySched
      && CountFits(b.config.deliveryLimit, b.evals[h[0].id], Entry(h[0], Ready(q)))
  {
    var h := b.ready[q];
    ReadyJobsDiffer(b, led, {}, q);
    assert QueueOk(b, led, q);
    assert h[0] in h;
    assert IdOk(b, led, {}, h[0].id);
  }

  // The evaluation that a dequeue takes, and what it leaves in the queue.
  lemma DequeueTakes(b: Broker, q: Queue, token: Token)
    requires HasWork(b, q) && IsHeap(Less, b.ready[q]) && NoDuplicates(b.ready[q])
    requires DistinctJobs(set x | x in b.ready[q])
    ensures var e := b.ready[q][0];
      && PopTop(Less, b.ready[q]) == e
      && ReadyShrinks(b, DequeueForSched(b, q, token), e, q, PopRest(Less, b.ready[q]), token)
  {
    var s := set x | x in b.ready[q];
    LessIsWeakOrder(s);
    PopMembers(b.ready[q], s);
  }

  lemma DequeueKeeps(b: Broker, led: Ledger, q: Queue, token: Token) returns (led': Ledger)
    requires Inv(b, led) && HasWork(b, q)
    ensures led' == led[b.ready[q][0].id := Entry(b.ready[q][0], Outstanding)]
    ensures Inv(DequeueForSched(b, q, token), led')
  {
    var h, e := b.ready[q], b.ready[q][0];
    var r, b' := PopRest(Less, h), DequeueForSched(b, q, token);
    ReadyHead(b, led, q);
    DequeueTakes(b, q, token);
    led' := led[e.id := Entry(e, Outstanding)];
    ShrinkReadyIds(b, b', led, e, q, r, token);
    ShrinkReadyQueues(b, b', led, e, q, r, token);
    ShrinkReadyTotals(b, b', e, q, r, token);
  }

  lemma ArmKeeps(b: Broker, led: Ledger, id: ID, armed: bool)
    requires Inv(b, led) && id in b.unack
    ensures Inv(Arm(b, id, armed), led)
  {
    var b' := Arm(b, id, armed);
    forall x ensures IdOk(b', led, {}, x) {
      assert IdOk(b, led, {}, x);
    }
    forall q ensures QueueOk(b', led, q) {
      assert QueueOk(b, led, q);
    }
    forall j ensures JobOk(b', led, j) {
      assert JobOk(b, led, j);
    }
    assert b'.unack.Keys == b.unack.Keys;
  }

  // Acknowledging

  lemma OutstandingFacts(b: Broker, led: Ledger, id: ID)
    requires Core(b, led, {}) && id in b.unack
    ensures id in led && led[id] == Entry(b.unack[id].eval, Outstanding) && b.unack[id].eval.id == id
    ensures Owns(b, b.unack[id].eval) && id in b.evals && b.evals[id] >= 1
    ensures b.unack[id].eval.kind in b.stats.bySched && AckQueue(b, id) in b.stats.bySched
    ensures Acceptable(b.unack[id].eval)
  {
    assert IdOk(b, led, {}, id);
  }

  lemma ForgetKeeps(b: Broker, led: Ledger, id: ID)
    requires Core(b, led, {}) && id in b.unack && AckQueue(b, id) in b.stats.bySched
    ensures Core(Forget(b, id), led - {id}, {b.unack[id].eval.jobID})
  {
    var e := b.unack[id].eval;
    OutstandingFacts(b, led, id);
    DropUnackedKeeps(b, led, id, AckQueue(b, id));
    var b1, led1 := DropUnacked(b, id, AckQueue(b, id)), led[id := Entry(e, Limbo)];
    RetireKeeps(b1, Forget(b, id), led1, e);
    assert led1 - {id} == led - {id};
  }

  lemma PopBlockedKeeps(b: Broker, led: Ledger, j: JobID, holes: set<JobID>)
    requires Core(b, led, holes) && Slice(b.blocked, j) != []
    ensures var e := b.blocked[j][0];
      && PopTop(Less, b.blocked[j]) == e && e.jobID == j
      && e.id in led && led[e.id] == Entry(e, Blocked)
      && Core(PopBlocked(b, j), led[e.id := Entry(e, Limbo)], holes)
  {
    var h, e := b.blocked[j], b.blocked[j][0];
    var r, b' := PopRest(Less, h), PopBlocked(b, j);
    var s := set x | x in h;
    assert JobOk(b, led, j);
    LessIsWeakOrder(s);
    PopMembers(h, s);
    assert e in h;
    ShrinkBlockedIds(b, b', led, holes, e, r);
    ShrinkBlockedQueues(b, b', led, e, r);
    ShrinkBlockedTotals(b, b', e, r);
  }

  // The ledger after the next blocked evaluation of the job, if any, became ready.
  function PromotedLedger(b: Broker, led: Ledger, j: JobID): Ledger {
    if Slice(b.blocked, j) == [] then led
    else var e := b.blocked[j][0]; led[e.id := Entry(e, Ready(e.kind))]
  }

  lemma PromoteKeeps(b: Broker, led: Ledger, j: JobID)
    requires Core(b, led, {j}) && b.enabled && j !in b.jobEvals
    ensures Core(Promote(b, j), PromotedLedger(b, led, j), {})
  {
    assert {j} - {j} == {};
    if Slice(b.blocked, j) == [] {
      FillHole(b, led, {j}, j);
    } else {
      var e := b.blocked[j][0];
      PopBlockedKeeps(b, led, j, {j});
      assert IdOk(b, led, {j}, e.id);
      EnqueueLockedKeeps(PopBlocked(b, j), led[e.id := Entry(e, Limbo)], {j}, e, e.kind);
      Rewritten(led, e.id, Entry(e, Limbo), Entry(e, Ready(e.kind)));
    }
  }

  function AckedLedger(b: Broker, led: Ledger, id: ID): Ledger
    requires id in b.unack
  {
    PromotedLedger(b, led - {id}, b.unack[id].eval.jobID)
  }

  lemma AckedKeeps(b: Broker, led: Ledger, id: ID)
    requires Inv(b, led) && id in b.unack && AckQueue(b, id) in b.stats.bySched
    ensures Inv(Acked(b, id), AckedLedger(b, led, id))
    ensures Acked(b, id).requeue == b.requeue && Acked(b, id).enabled
  {
    OutstandingFacts(b, led, id);
    ForgetKeeps(b, led, id);
    PromoteKeeps(Forget(b, id), led - {id}, b.unack[id].eval.jobID);
  }

  lemma ReenqueueKeeps(b: Broker, led: Ledger, token: Token) returns (led': Ledger)
    requires Inv(b, led) && Requeues(b) && b.enabled
    ensures Inv(Reenqueue(b, token), led') && Requeues(Reenqueue(b, token))
    ensures led' ==
      if token in b.requeue && b.requeue[token].id !in b.evals
      then led[b.requeue[token].id := Entry(b.requeue[token], NewPlace(b, b.requeue[token]))] else led
  {
    var b1 := b;
    led' := led;
    if token in b.requeue {
      led' := ProcessEnqueueKeeps(b, led, b.requeue[token], "");
      b1 := ProcessEnqueue(b, b.requeue[token], "");
    }
    RequeueFrame(b1, led', {}, b1.requeue - {token});
  }

  lemma AckKeeps(b: Broker, led: Ledger, id: ID, token: Token) returns (led': Ledger)
    requires Inv(b, led) && Requeues(b)
    ensures Inv(Ack(b, id, token).0, led') && Requeues(Ack(b, id, token).0)
  {
    led' := led;
    if Lookup(b, id, token) != Done || !b.unack[id].armed {
      RequeueFrame(b, led, {}, b.requeue - {token});
    } else {
      OutstandingFacts(b, led, id);
      AckedKeeps(b, led, id);
      led' := ReenqueueKeeps(Acked(b, id), AckedLedger(b, led, id), token);
    }
  }

  // Rejecting

  lemma ReplaceKeeps(b: Broker, led: Ledger, e: Eval, wait: int)
    requires Core(b, led, {}) && e.id in led && led[e.id] == Entry(e, Limbo)
    ensures Core(b, led[e.id := Entry(e.(wait := wait), Limbo)], {})
  {
    var x := Entry(e.(wait := wait), Limbo);
    var led' := led[e.id := x];
    forall id ensures IdOk(b, led', {}, id) {
      assert IdOk(b, led, {}, id);
    }
    QueuesFrame(b, b, led, e.id, x);
  }

  // Where Nack puts an evaluation that was delivered n times.
  function NackEntry(c: Config, n: int, e: Eval): Entry {
    if n >= c.deliveryLimit then Entry(e, Ready(FAILED))
    else
      var e' := e.(wait := NackDelay(c, n));
      Entry(e', if e'.wait > 0 then Waiting else Ready(e'.kind))
  }

  lemma RedeliverKeeps(b: Broker, led: Ledger, e: Eval)
    requires Core(b, led, {}) && b.enabled && e.id in led && led[e.id] == Entry(e, Limbo)
    requires Acceptable(e) && Owns(b, e) && e.id in b.evals
    ensures Core(Redeliver(b, e), led[e.id := NackEntry(b.config, b.evals[e.id], e)], {})
  {
    var n := b.evals[e.id];
    assert IdOk(b, led, {}, e.id);
    if n >= b.config.deliveryLimit {
      EnqueueLockedKeeps(b, led, {}, e, FAILED);
      assert {} - {e.jobID} == {};
    } else {
      var e' := e.(wait := NackDelay(b.config, n));
      ReplaceKeeps(b, led, e, e'.wait);
      EnqueueNewKeeps(b, led[e.id := Entry(e', Limbo)], e');
      Rewritten(led, e.id, Entry(e', Limbo), NackEntry(b.config, n, e));
    }
  }

  lemma NackedKeeps(b: Broker, led: Ledger, id: ID)
    requires Core(b, led, {}) && b.enabled && id in b.unack && b.unack[id].eval.kind in b.stats.bySched
    ensures id in b.evals
    ensures Core(NackDone(b, id), led[id := NackEntry(b.config, b.evals[id], b.unack[id].eval)], {})
  {
    var e := b.unack[id].eval;
    OutstandingFacts(b, led, id);
    DropUnackedKeeps(b, led, id, e.kind);
    RedeliverKeeps(DropUnacked(b, id, e.kind), led[id := Entry(e, Limbo)], e);
    Rewritten(led, id, Entry(e, Limbo), NackEntry(b.config, b.evals[id], e));
  }

  lemma NackKeeps(b: Broker, led: Ledger, id: ID, token: Token) returns (led': Ledger)
    requires Inv(b, led) && Requeues(b)
    ensures Inv(Nack(b, id, token).0, led') && Requeues(Nack(b, id, token).0)
    ensures Lookup(b, id, token) == Done ==>
      id in b.evals && led' == led[id := NackEntry(b.config, b.evals[id], b.unack[id].eval)]
  {
    led' := led;
    var b0 := DropRequeue(b, token);
    RequeueFrame(b, led, {}, b0.requeue);
    if Lookup(b, id, token) == Done {
      OutstandingFacts(b0, led, id);
      NackedKeeps(b0, led, id);
      led' := led[id := NackEntry(b.config, b.evals[id], b.unack[id].eval)];
    }
  }

  // Starting, flushing

  lemma EmptyKeeps(b: Broker)
    requires b.config.deliveryLimit >= 1
    requires b == New(b.config).(enabled := b.enabled, requeue := b.requeue)
    ensures Inv(b, map[])
  {
  }

  // The same without the ledger

  lemma EnqueueWaitingConsistent(b: Broker, id: ID)
    requires Consistent(b) && id in b.timeWait
    ensures Consistent(EnqueueWaiting(b, b.timeWait[id])) && b.timeWait[id].id == id
  {
    var led: Ledger :| Inv(b, led);
    assert IdOk(b, led, {}, id);
    var led' := EnqueueWaitingKeeps(b, led, id);
  }

  lemma ProcessEnqueueConsistent(b: Broker, e: Eval, token: Token)
    requires Consistent(b) && Acceptable(e) && (b.enabled || e.wait <= 0)
    ensures Consistent(ProcessEnqueue(b, e, token))
  {
    var led: Ledger :| Inv(b, led);
    var led' := ProcessEnqueueKeeps(b, led, e, token);
  }

  // What an enabled broker may always be given, and a disabled one unless it waits.
  predicate Enqueueable(enabled: bool, batch: seq<(Eval, Token)>) {
    forall i | 0 <= i < |batch| :: Acceptable(batch[i].0) && (enabled || batch[i].0.wait <= 0)
  }

  lemma {:induction false} EnqueueAllConsistent(b: Broker, batch: seq<(Eval, Token)>)
    requires Consistent(b) && Enqueueable(b.enabled, batch)
    ensures Consistent(EnqueueAll(b, batch))
  {
    if batch != [] {
      var n := |batch| - 1;
      EnqueueAllConsistent(b, batch[..n]);
      ProcessEnqueueConsistent(EnqueueAll(b, batch[..n]), batch[n].0, batch[n].1);
    }
  }

  lemma DequeueConsistent(b: Broker, q: Queue, token: Token)
    requires Consistent(b) && HasWork(b, q)
    ensures Consistent(DequeueForSched(b, q, token))
    ensures q in b.stats.bySched && PopTop(Less, b.ready[q]) in b.ready[q]
  {
    var led: Ledger :| Inv(b, led);
    ReadyHead(b, led, q);
    DequeueTakes(b, q, token);
    var led' := DequeueKeeps(b, led, q, token);
  }

  lemma AckConsistent(b: Broker, id: ID, t: Token)
    requires Consistent(b)
    ensures Consistent(Ack(b, id, t).0) && Ack(b, id, t).1 != NilScheduler
    ensures id in b.unack ==> AckQueue(b, id) in b.stats.bySched
  {
    var led: Ledger :| Inv(b, led);
    var led' := AckKeeps(b, led, id, t);
    if id in b.unack {
      OutstandingFacts(b, led, id);
    }
  }

  lemma NackConsistent(b: Broker, id: ID, t: Token)
    requires Consistent(b)
    ensures Consistent(Nack(b, id, t).0) && Nack(b, id, t).1 != NilScheduler
    ensures id in b.unack ==> b.unack[id].eval.kind in b.stats.bySched && b.unack[id].eval.id == id
  {
    var led: Ledger :| Inv(b, led);
    var led' := NackKeeps(b, led, id, t);
    if id in b.unack {
      OutstandingFacts(b, led, id);
    }
  }

  lemma ArmConsistent(b: Broker, id: ID, armed: bool)
    requires Consistent(b) && id in b.unack
    ensures Consistent(Arm(b, id, armed))
  {
    var led: Ledger :| Inv(b, led);
    ArmKeeps(b, led, id, armed);
  }

  lemma SetEnabledConsistent(b: Broker, enabled: bool)
    requires Consistent(b)
    ensures Consistent(SetEnabled(b, enabled))
  {
    var led: Ledger :| Inv(b, led);
    if enabled {
      var b' := SetEnabled(b, true);
      forall id ensures IdOk(b', led, {}, id) {
        assert IdOk(b, led, {}, id);
      }
      forall q ensures QueueOk(b', led, q) {
        assert QueueOk(b, led, q);
      }
      forall j ensures JobOk(b', led, j) {
        assert JobOk(b, led, j);
      }
      assert Inv(b', led);
    } else {
      EmptyKeeps(SetEnabled(b, false));
    }
  }
}
