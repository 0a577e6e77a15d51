/**
 Late callbacks of wait timers.  Stopping a timer does not stop a callback that has already
 started, so one may run after a flush, and after its evaluation's ID has been registered
 again with other contents.
 */
module BrokerCallbacks {
  import opened GoHeap
  import opened Evaluations
  import opened BrokerModel
  import opened BrokerInvariant
  import opened BrokerSteps
  import opened BrokerEdges
  import opened Sums

  // A timer is registered for the evaluation's ID, and the callback's evaluation can
  // stand in for the registered one: if that one holds the slot of its job, for the same
  // job.
  predicate CanStandIn(b: Broker, e: Eval) {
    && e.id in b.timeWait && e.kind != FAILED
    && (Owns(b, b.timeWait[e.id]) ==> e.jobID == b.timeWait[e.id].jobID)
  }

  // Enough

  // The queue of the evaluation's type has been used before.
  function OpenQueue(b: Broker, q: Queue): Broker {
    b.(ready := b.ready[q := []], stats := b.stats.(bySched := b.stats.bySched[q := SchedulerStats(0, 0)]))
  }

  lemma OpenQueueTotals(b: Broker, q: Queue)
    requires Totals(b) && q !in b.ready && q !in b.stats.bySched
    ensures Totals(OpenQueue(b, q))
  {
    TotalUpdate(b.ready, q, []);
    UnackedUpdate(b.stats.bySched, q, SchedulerStats(0, 0));
  }

  lemma OpenQueueKeeps(b: Broker, led: Ledger, q: Queue)
    requires Inv(b, led) && q !in b.stats.bySched
    ensures Inv(OpenQueue(b, q), led)
  {
    var b' := OpenQueue(b, q);
    assert QueueOk(b, led, q);
    OpenQueueTotals(b, q);
    forall id ensures IdOk(b', led, {}, id) {
      assert IdOk(b, led, {}, id);
    }
    forall x ensures QueueOk(b', led, x) {
      assert QueueOk(b, led, x);
    }
    forall j ensures JobOk(b', led, j) {
      assert JobOk(b, led, j);
    }
  }

  function Replace(b: Broker, e: Eval): Broker {
    b.(timeWait := b.timeWait[e.id := e])
  }

  lemma ReplaceIds(b: Broker, led: Ledger, e: Eval, id: ID)
    requires Inv(b, led) && CanStandIn(b, e)
    requires e.id in b.evals && b.evals[e.id] >= 1 ==> e.kind in b.stats.bySched
    ensures IdOk(Replace(b, e), led[e.id := Entry(e, Waiting)], {}, id)
  {
    assert IdOk(b, led, {}, id) && IdOk(b, led, {}, e.id);
  }

  lemma ReplaceJobs(b: Broker, led: Ledger, e: Eval, j: JobID)
    requires Inv(b, led) && CanStandIn(b, e)
    ensures JobOk(Replace(b, e), led[e.id := Entry(e, Waiting)], j)
  {
    assert JobOk(b, led, j) && IdOk(b, led, {}, e.id);
  }

  lemma ReplaceKeeps(b: Broker, led: Ledger, e: Eval)
    requires Inv(b, led) && CanStandIn(b, e)
    requires e.id in b.evals && b.evals[e.id] >= 1 ==> e.kind in b.stats.bySched
    ensures Inv(Replace(b, e), led[e.id := Entry(e, Waiting)])
  {
    var b', led' := Replace(b, e), led[e.id := Entry(e, Waiting)];
    assert IdOk(b, led, {}, e.id);
    assert b'.timeWait.Keys == b.timeWait.Keys;
    assert |b'.timeWait| == |b'.timeWait.Keys| && |b.timeWait| == |b.timeWait.Keys|;
    forall id ensures IdOk(b', led', {}, id) {
      ReplaceIds(b, led, e, id);
    }
    forall q ensures QueueOk(b', led', q) {
      assert QueueOk(b, led, q);
    }
    forall j ensures JobOk(b', led', j) {
      ReplaceJobs(b, led, e, j);
    }
  }

  lemma CallbackIgnoresContents(b: Broker, e: Eval)
    ensures EnqueueWaiting(Replace(b, e), e) == EnqueueWaiting(b, e)
  {
    assert b.timeWait[e.id := e] - {e.id} == b.timeWait - {e.id};
  }

  lemma OpenedAgain(b: Broker, q: Queue, h: seq<Eval>)
    requires q !in b.ready && q !in b.stats.bySched
    ensures GrowReady(OpenQueue(b, q), q, h) == GrowReady(b, q, h)
  {
  }

  lemma CallbackOpensQueue(b: Broker, e: Eval)
    requires b.enabled && e.id != "" && Owns(b, e) && e.kind !in b.ready && e.kind !in b.stats.bySched
    ensures EnqueueWaiting(OpenQueue(b, e.kind), e) == EnqueueWaiting(b, e)
  {
    OpenedAgain(EndWait(b, e.id), e.kind, Push(Less, [], e));
  }

  lemma StandInKeeps(b: Broker, led: Ledger, e: Eval)
    requires Inv(b, led) && CanStandIn(b, e)
    requires e.id in b.evals && b.evals[e.id] >= 1 ==> e.kind in b.stats.bySched
    ensures exists led' :: Inv(EnqueueWaiting(b, e), led')
  {
    ReplaceKeeps(b, led, e);
    CallbackIgnoresContents(b, e);
    var led' := EnqueueWaitingKeeps(Replace(b, e), led[e.id := Entry(e, Waiting)], e.id);
  }

  lemma CallbackKeeps(b: Broker, e: Eval)
    requires Consistent(b) && CanStandIn(b, e)
    ensures Consistent(EnqueueWaiting(b, e))
  {
    var led: Ledger :| Inv(b, led);
    assert IdOk(b, led, {}, e.id) && QueueOk(b, led, e.kind);
    if b.evals[e.id] >= 1 && e.kind !in b.stats.bySched {
      OpenQueueKeeps(b, led, e.kind);
      CallbackOpensQueue(b, e);
      StandInKeeps(OpenQueue(b, e.kind), led, e);
    } else {
      StandInKeeps(b, led, e);
    }
  }

  // Necessary

  lemma PushAdds(h: seq<Eval>, e: Eval, x: Eval)
    ensures x in Push(Less, h, e) ==> x in h || x == e
  {
    UpPermutes(Less, h + [e], |h|);
    assert x in Push(Less, h, e) ==> x in multiset(Push(Less, h, e));
  }

  // Besides the callback's own, the heaps hold what they held.
  lemma EnqueueAdds(b: Broker, e: Eval, x: Eval, k: string)
    ensures var b' := EnqueueLocked(b, e, e.kind);
      x in Slice(b'.ready, k) + Slice(b'.blocked, k) ==> x == e || x in Slice(b.ready, k) + Slice(b.blocked, k)
  {
    PushAdds(Slice(b.ready, e.kind), e, x);
    PushAdds(Slice(b.blocked, e.jobID), e, x);
  }

  // No heap holds an evaluation that waits.
  lemma WaitersAreNotHeaped(b: Broker, led: Ledger, x: Eval, k: string)
    requires Inv(b, led) && x.id in b.timeWait
    ensures x !in Slice(b.ready, k) + Slice(b.blocked, k)
  {
    assert IdOk(b, led, {}, x.id) && QueueOk(b, led, k) && JobOk(b, led, k);
  }

  // If the structures agree afterwards, it is the callback's evaluation that they hold.
  lemma CallbackTakesPlace(b: Broker, led: Ledger, e: Eval, led': Ledger)
    requires Inv(b, led) && e.id in b.timeWait && Inv(EnqueueWaiting(b, e), led')
    ensures e.id in led' && led'[e.id].eval == e
  {
    var b' := EnqueueWaiting(b, e);
    assert IdOk(b, led, {}, e.id) && IdOk(b', led', {}, e.id);
    var x := led'[e.id].eval;
    var k := if led'[e.id].place.Ready? then led'[e.id].place.queue else x.jobID;
    EnqueueAdds(EndWait(b, e.id), e, x, k);
    WaitersAreNotHeaped(b, led, x, k);
  }

  lemma OtherOwnersStay(b: Broker, e: Eval, j: JobID)
    requires j in b.jobEvals && j != e.jobID
    ensures var b' := EnqueueWaiting(b, e); j in b'.jobEvals && b'.jobEvals[j] == b.jobEvals[j]
  {
  }

  lemma HeldStandsIn(b: Broker, e: Eval, b': Broker, led': Ledger)
    requires e.id in b.timeWait && Inv(b', led') && e.id in led' && led'[e.id].eval == e
    requires var j := b.timeWait[e.id].jobID;
      j in b.jobEvals && j != e.jobID ==> j in b'.jobEvals && b'.jobEvals[j] == b.jobEvals[j]
    requires b.timeWait[e.id].id == e.id
    ensures CanStandIn(b, e)
  {
    assert IdOk(b', led', {}, e.id) && JobOk(b', led', b.timeWait[e.id].jobID);
  }

  lemma CallbackNeeds(b: Broker, e: Eval)
    requires Consistent(b) && e.id in b.timeWait && Consistent(EnqueueWaiting(b, e))
    ensures CanStandIn(b, e)
  {
    var led: Ledger :| Inv(b, led);
    var b' := EnqueueWaiting(b, e);
    var led': Ledger :| Inv(b', led');
    CallbackTakesPlace(b, led, e, led');
    assert IdOk(b, led, {}, e.id);
    var j := b.timeWait[e.id].jobID;
    if j in b.jobEvals && j != e.jobID {
      OtherOwnersStay(b, e, j);
    }
    HeldStandsIn(b, e, b', led');
  }

  lemma WaitTotalAfter(b: Broker, e: Eval)
    ensures EnqueueWaiting(b, e).stats.totalWaiting == b.stats.totalWaiting - 1
  {
  }

  // Whenever and with whatever contents a callback runs, it keeps the structures in
  // agreement if and only if a timer is registered under its ID for which its evaluation
  // can stand in.
  lemma WaitCallbackAgreesIff(b: Broker, e: Eval)
    requires Consistent(b)
    ensures Consistent(EnqueueWaiting(b, e)) <==> CanStandIn(b, e)
  {
    if CanStandIn(b, e) {
      CallbackKeeps(b, e);
    } else if e.id in b.timeWait {
      if Consistent(EnqueueWaiting(b, e)) {
        CallbackNeeds(b, e);
      }
    } else {
      assert EnqueueWaiting(b, e).timeWait == b.timeWait;
      WaitTotalAfter(b, e);
      WaitersAreCounted(b);
      WaitersAreCounted(EnqueueWaiting(b, e));
    }
  }

  // The registered evaluation can always stand in for itself.
  lemma RegisteredStandsIn(b: Broker, id: ID)
    requires Consistent(b) && id in b.timeWait
    ensures b.timeWait[id].id == id && CanStandIn(b, b.timeWait[id])
  {
    var led: Ledger :| Inv(b, led);
    assert IdOk(b, led, {}, id);
  }
}
