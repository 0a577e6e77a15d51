/**
 The broker as an object whose methods update its maps, slices and counters, each
 proved to take the step of the state machine.
 */
module EvalBrokerObject {
  import opened GoHeap
  import opened Evaluations
  import opened BrokerModel
  import opened BrokerInvariant
  import opened BrokerSteps
  import opened BrokerCallbacks
  import opened BrokerTheorems
  import R = BrokerRuns

  class EvalBroker {
    const config: Config
    var enabled: bool
    var stats: Stats
    var evals: map<ID, int>
    var jobEvals: map<JobID, ID>
    var blocked: map<JobID, seq<Eval>>
    var ready: map<Queue, seq<Eval>>
    var unack: map<ID, Unack>
    var requeue: map<Token, Eval>
    var timeWait: map<ID, Eval>

    function State(): Broker
      reads this
    {
      Broker(config, enabled, evals, jobEvals, blocked, ready, unack, requeue, timeWait, stats)
    }

    ghost predicate Valid()
      reads this
    {
      Consistent(State())
    }

    constructor (config: Config)
      ensures State() == New(config)
      ensures config.deliveryLimit >= 1 ==> Valid()
    {
      this.config := config;
      enabled := false;
      stats := NO_STATS;
      evals, jobEvals, blocked, ready := map[], map[], map[], map[];
      unack, requeue, timeWait := map[], map[], map[];
      new;
      if config.deliveryLimit >= 1 {
        EmptyKeeps(New(config));
      }
    }

    // NewEvalBroker refuses a negative Nack timeout.
    static method Create(nackTimeout: int, config: Config) returns (broker: EvalBroker?)
      ensures broker == null <==> nackTimeout < 0
      ensures broker != null ==> fresh(broker) && broker.State() == New(config)
      ensures broker != null && config.deliveryLimit >= 1 ==> broker.Valid()
    {
      if nackTimeout < 0 {
        return null;
      }
      broker := new EvalBroker(config);
    }

    method AddReady(e: Eval, queue: Queue)
      modifies this
      ensures State() == PushReady(old(State()), e, queue)
    {
      var pending := PushSlice(Less, Slice(ready, queue), e);
      ready := ready[queue := pending];
      var bySched := if queue in stats.bySched then stats.bySched[queue] else SchedulerStats(0, 0);
      stats := stats.(totalReady := stats.totalReady + 1,
                      bySched := stats.bySched[queue := bySched.(ready := bySched.ready + 1)]);
    }

    method AddBlocked(e: Eval)
      modifies this
      ensures State() == PushBlocked(old(State()), e)
    {
      var slice := PushSlice(Less, Slice(blocked, e.jobID), e);
      blocked := blocked[e.jobID := slice];
      stats := stats.(totalBlocked := stats.totalBlocked + 1);
    }

    method EnqueueLocked(e: Eval, queue: Queue)
      modifies this
      ensures State() == BrokerModel.EnqueueLocked(old(State()), e, queue)
    {
      if !enabled {
        return;
      }
      var pendingEval := if e.jobID in jobEvals then jobEvals[e.jobID] else "";
      if pendingEval == "" {
        jobEvals := jobEvals[e.jobID := e.id];
      } else if pendingEval != e.id {
        AddBlocked(e);
        return;
      }
      AddReady(e, queue);
    }

    method ProcessWaitingEnqueue(e: Eval)
      modifies this
      ensures State() == StartWait(old(State()), e)
    {
      timeWait := timeWait[e.id := e];
      stats := stats.(totalWaiting := stats.totalWaiting + 1);
    }

    // The callback of a wait timer.
    method EnqueueWaiting(e: Eval)
      modifies this
      ensures State() == BrokerModel.EnqueueWaiting(old(State()), e)
      ensures old(Valid()) ==> (Valid() <==> CanStandIn(old(State()), e))
    {
      ghost var b := State();
      timeWait, stats := timeWait - {e.id}, stats.(totalWaiting := stats.totalWaiting - 1);
      assert State() == EndWait(b, e.id);
      EnqueueLocked(e, e.kind);
      if Consistent(b) {
        WaitCallbackAgreesIff(b, e);
      }
    }

    method ProcessEnqueue(e: Eval, token: Token)
      modifies this
      ensures State() == BrokerModel.ProcessEnqueue(old(State()), e, token)
    {
      if e.id in evals {
        if token == "" {
          return;
        }
        if e.id in unack && unack[e.id].token == token {
          requeue := requeue[token := e];
        }
        return;
      } else if enabled {
        evals := evals[e.id := 0];
      }
      if e.wait > 0 {
        ProcessWaitingEnqueue(e);
        return;
      }
      EnqueueLocked(e, e.kind);
    }

    method EnqueueAll(batch: seq<(Eval, Token)>)
      modifies this
      ensures State() == BrokerModel.EnqueueAll(old(State()), batch)
      ensures old(Valid()) && Enqueueable(old(enabled), batch) ==> Valid()
    {
      ghost var b := State();
      for k := 0 to |batch|
        invariant State() == BrokerModel.EnqueueAll(b, batch[..k])
      {
        ProcessEnqueue(batch[k].0, batch[k].1);
        assert batch[..k + 1][..k] == batch[..k];
      }
      assert batch[..|batch|] == batch;
      if Consistent(b) && Enqueueable(b.enabled, batch) {
        EnqueueAllConsistent(b, batch);
      }
    }

    // The queues from which a scan may take work.
    method ScanForSchedulers(schedulers: seq<Queue>) returns (eligible: seq<Queue>)
      ensures eligible == Eligible(State(), schedulers)
    {
      var best := 0;
      eligible := [];
      for k := 0 to |schedulers|
        invariant (eligible, best) == Scan(State(), schedulers[..k])
      {
        assert schedulers[..k + 1][..k] == schedulers[..k];
        var sched := schedulers[k];
        if sched in ready {
          var pending := ready[sched];
          if |pending| > 0 {
            var next := pending[|pending| - 1];
            if |eligible| == 0 || next.priority > best {
              eligible, best := [sched], next.priority;
            } else if best > next.priority {
            } else {
              eligible := eligible + [sched];
            }
          }
        }
      }
      assert schedulers[..|schedulers|] == schedulers;
    }

    // The bookkeeping of a delivery.
    method AddUnacked(sched: Queue, e: Eval, rest: seq<Eval>, token: Token)
      requires sched in stats.bySched
      modifies this
      ensures State() == HandOut(old(State()), sched, e, rest, token)
    {
      ready := ready[sched := rest];
      unack := unack[e.id := Unack(e, token, true)];
      var count := if e.id in evals then evals[e.id] else 0;
      evals := evals[e.id := count + 1];
      var bySched := stats.bySched[sched];
      stats := stats.(totalReady := stats.totalReady - 1, totalUnacked := stats.totalUnacked + 1,
                      bySched := stats.bySched[sched := SchedulerStats(bySched.ready - 1, bySched.unacked + 1)]);
    }

    method DequeueForSched(sched: Queue, token: Token) returns (e: Eval)
      requires Valid() && HasWork(State(), sched)
      modifies this
      ensures State() == BrokerModel.DequeueForSched(old(State()), sched, token)
      ensures DeliversFrom(old(State()), State(), sched, e, token)
      ensures Valid()
    {
      DequeueConsistent(State(), sched, token);
      DeliveryIsRight(State(), sched, token);
      var rest;
      e, rest := PopSlice(Less, ready[sched]);
      AddUnacked(sched, e, rest, token);
    }

    // Dequeue without the wait for work: nothing when disabled or out of work.
    method TryDequeue(schedulers: seq<Queue>, offset: nat, token: Token) returns (found: bool, e: Eval)
      requires Valid() && (Eligible(State(), schedulers) != [] ==> offset < |Eligible(State(), schedulers)|)
      modifies this
      ensures Valid() && found == (old(enabled) && old(Eligible(State(), schedulers)) != [])
      ensures !found ==> State() == old(State())
      ensures found ==>
        var q := old(Eligible(State(), schedulers))[offset];
        && old(HasWork(State(), q)) && State() == BrokerModel.DequeueForSched(old(State()), q, token)
        && q in schedulers && DeliversFrom(old(State()), State(), q, e, token)
    {
      e := Eval("", "", "", 0, 0, 0, 0, false, map[], OtherTrigger);
      var eligible := ScanForSchedulers(schedulers);
      if !enabled || |eligible| == 0 {
        return false, e;
      }
      R.EligibleHasWork(State(), schedulers);
      assert eligible[offset] in eligible;
      e := DequeueForSched(eligible[offset], token);
      found := true;
    }

    method OutstandingReset(id: ID, token: Token) returns (outcome: Outcome)
      requires Valid()
      modifies this
      ensures (State(), outcome) == Reset(old(State()), id, token)
      ensures outcome ==
        if id !in old(unack) then NotFound
        else if old(unack)[id].token != token then TokenMismatch
        else if !old(unack)[id].armed then TimerExpired
        else Done
      ensures Valid()
    {
      outcome := Lookup(State(), id, token);
      if outcome == Done {
        ArmConsistent(State(), id, true);
        outcome := if unack[id].armed then Done else TimerExpired;
        unack := unack[id := unack[id].(armed := true)];
      }
    }

    method PauseNackTimeout(id: ID, token: Token) returns (outcome: Outcome)
      requires Valid()
      modifies this
      ensures (State(), outcome) == BrokerModel.PauseNackTimeout(old(State()), id, token)
      ensures outcome ==
        if id !in old(unack) then NotFound
        else if old(unack)[id].token != token then TokenMismatch
        else if !old(unack)[id].armed then TimerExpired
        else Done
      ensures Valid()
    {
      outcome := Lookup(State(), id, token);
      if outcome == Done {
        ArmConsistent(State(), id, false);
        outcome := if unack[id].armed then Done else TimerExpired;
        unack := unack[id := unack[id].(armed := false)];
      }
    }

    method ResumeNackTimeout(id: ID, token: Token) returns (outcome: Outcome)
      requires Valid()
      modifies this
      ensures (State(), outcome) == BrokerModel.ResumeNackTimeout(old(State()), id, token)
      ensures outcome ==
        if id !in old(unack) then NotFound
        else if old(unack)[id].token != token then TokenMismatch
        else Done
      ensures Valid()
    {
      outcome := Lookup(State(), id, token);
      if outcome == Done {
        ArmConsistent(State(), id, true);
        unack := unack[id := unack[id].(armed := true)];
      }
    }

    method RemoveUnacked(id: ID, queue: Queue)
      requires queue in stats.bySched
      modifies this
      ensures State() == DropUnacked(old(State()), id, queue)
    {
      unack := unack - {id};
      var bySched := stats.bySched[queue];
      stats := stats.(totalUnacked := stats.totalUnacked - 1,
                      bySched := stats.bySched[queue := bySched.(unacked := bySched.unacked - 1)]);
    }

    // Make the next blocked evaluation of the job ready.
    method PromoteBlocked(job: JobID)
      modifies this
      ensures State() == Promote(old(State()), job)
    {
      if job in blocked && |blocked[job]| != 0 {
        var e, rest := PopSlice(Less, blocked[job]);
        if |rest| > 0 {
          blocked := blocked[job := rest];
        } else {
          blocked := blocked - {job};
        }
        stats := stats.(totalBlocked := stats.totalBlocked - 1);
        EnqueueLocked(e, e.kind);
      }
    }

    // A successful acknowledgement.
    method Settle(id: ID, token: Token)
      requires id in unack && AckQueue(State(), id) in stats.bySched
      modifies this
      ensures State() == AckDone(old(State()), id, token)
    {
      ghost var b := State();
      var jobID := unack[id].eval.jobID;
      RemoveUnacked(id, AckQueue(State(), id));
      evals := evals - {id};
      jobEvals := jobEvals - {jobID};
      assert State() == Forget(b, id);
      PromoteBlocked(jobID);
      if token in requeue {
        ProcessEnqueue(requeue[token], "");
      }
      requeue := requeue - {token};
    }

    // Ack, when the statistics know the evaluation's queue.
    method AckLocked(id: ID, token: Token) returns (outcome: Outcome)
      requires AckOutcome(State(), id, token) != NilScheduler
      modifies this
      ensures (State(), outcome) == BrokerModel.Ack(old(State()), id, token)
    {
      outcome := Lookup(State(), id, token);
      if outcome == Done && !unack[id].armed {
        outcome := TimerExpired;
      }
      if outcome != Done {
        requeue := requeue - {token};
        return;
      }
      Settle(id, token);
    }

    method Ack(id: ID, token: Token) returns (outcome: Outcome)
      requires Valid()
      modifies this
      ensures (State(), outcome) == BrokerModel.Ack(old(State()), id, token)
      ensures outcome ==
        if id !in old(unack) then NotFound
        else if old(unack)[id].token != token then TokenMismatch
        else if !old(unack)[id].armed then TimerExpired
        else Done
      ensures Valid()
    {
      AckConsistent(State(), id, token);
      AnswersAre(State(), id, token);
      outcome := AckLocked(id, token);
    }

    // Put an evaluation back that was not acknowledged.
    method Requeue(e: Eval)
      modifies this
      ensures State() == Redeliver(old(State()), e)
    {
      var dequeues := if e.id in evals then evals[e.id] else 0;
      if dequeues >= config.deliveryLimit {
        EnqueueLocked(e, FAILED);
      } else {
        var again := e.(wait := NackDelay(config, dequeues));
        if again.wait > 0 {
          ProcessWaitingEnqueue(again);
        } else {
          EnqueueLocked(again, again.kind);
        }
      }
    }

    // Nack, when the statistics know the evaluation's queue.
    method NackLocked(id: ID, token: Token) returns (outcome: Outcome)
      requires BrokerModel.Nack(State(), id, token).1 != NilScheduler
      modifies this
      ensures (State(), outcome) == BrokerModel.Nack(old(State()), id, token)
    {
      requeue := requeue - {token};
      outcome := Lookup(State(), id, token);
      if outcome != Done {
        return;
      }
      var e := unack[id].eval;
      RemoveUnacked(id, e.kind);
      Requeue(e);
    }

    method Nack(id: ID, token: Token) returns (outcome: Outcome)
      requires Valid()
      modifies this
      ensures (State(), outcome) == BrokerModel.Nack(old(State()), id, token)
      ensures outcome ==
        if id !in old(unack) then NotFound
        else if old(unack)[id].token != token then TokenMismatch
        else Done
      ensures Valid()
    {
      NackConsistent(State(), id, token);
      AnswersAre(State(), id, token);
      outcome := NackLocked(id, token);
    }

    method Flush()
      modifies this
      ensures State() == BrokerModel.Flush(old(State()))
      ensures evals == map[] && jobEvals == map[] && blocked == map[] && ready == map[] && unack == map[]
      ensures timeWait == map[] && stats == Stats(0, 0, 0, 0, map[])
      ensures requeue == old(requeue) && enabled == old(enabled)
    {
      stats := NO_STATS;
      evals, jobEvals, blocked, ready := map[], map[], map[], map[];
      unack, timeWait := map[], map[];
    }

    method SetEnabled(on: bool)
      requires Valid()
      modifies this
      ensures State() == BrokerModel.SetEnabled(old(State()), on)
      ensures Valid()
    {
      SetEnabledConsistent(State(), on);
      enabled := on;
      if !on {
        Flush();
      }
    }
  }
}
