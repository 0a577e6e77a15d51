/**
 What every critical section of the broker keeps.

 A ledger gives each known evaluation exactly one place.  The broker's maps, heaps
 and counters agree with it: together they hold each known evaluation once, in that
 place, and nothing else.  While a critical section moves an evaluation from one
 structure to another, its place is Limbo.
 */
module BrokerInvariant {
  import opened GoHeap
  import opened Evaluations
  import opened BrokerModel
  import opened Sums

  datatype Place = Waiting | Ready(queue: Queue) | Blocked | Outstanding | Limbo

  datatype Entry = Entry(eval: Eval, place: Place)

  type Ledger = map<ID, Entry>

  // The evaluation holds the slot of its job.
  predicate Owns(b: Broker, e: Eval) {
    e.jobID in b.jobEvals && b.jobEvals[e.jobID] == e.id
  }

  // How often an evaluation in this place has been delivered.
  predicate CountFits(limit: int, n: int, x: Entry) {
    match x.place
    case Waiting => 0 <= n < limit
    case Ready(q) => if q == FAILED then n >= limit else q == x.eval.kind && 0 <= n < limit
    case Blocked => n == 0
    case Outstanding => n >= 1
    case Limbo => n >= 0
  }

  ghost predicate InPlace(b: Broker, x: Entry) {
    match x.place
    case Waiting => x.eval.id in b.timeWait && b.timeWait[x.eval.id] == x.eval
    case Ready(q) => q in b.ready && x.eval in b.ready[q] && Owns(b, x.eval)
    case Blocked => x.eval.jobID in b.blocked && x.eval in b.blocked[x.eval.jobID]
    case Outstanding => x.eval.id in b.unack && b.unack[x.eval.id].eval == x.eval && Owns(b, x.eval)
    case Limbo => true
  }

  // A delivered evaluation keeps its job, and the per-scheduler entries that Ack
  // and Nack will look up for it exist.
  predicate Delivered(b: Broker, n: int, e: Eval) {
    && (n >= 1 ==> Owns(b, e) && e.kind in b.stats.bySched)
    && (n > b.config.deliveryLimit ==> FAILED in b.stats.bySched)
  }

  // What holds for one evaluation ID.  A blocked evaluation waits for the owner of
  // its job, except in the jobs `holes`.
  ghost predicate IdOk(b: Broker, led: Ledger, holes: set<JobID>, id: ID) {
    && (id in led <==> id in b.evals)
    && (id in b.timeWait ==> id in led && led[id].place == Waiting)
    && (id in b.unack ==> id in led && led[id].place == Outstanding)
    && (id in led && id in b.evals ==>
          && id != "" && led[id].eval.id == id && led[id].eval.kind != FAILED
          && InPlace(b, led[id])
          && CountFits(b.config.deliveryLimit, b.evals[id], led[id])
          && Delivered(b, b.evals[id], led[id].eval)
          && (led[id].place == Blocked ==>
                led[id].eval.jobID in b.jobEvals || led[id].eval.jobID in holes))
  }

  ghost predicate NoDuplicates(h: seq<Eval>) {
    forall e | e in h :: multiset(h)[e] == 1
  }

  ghost predicate QueueHolds(h: seq<Eval>, led: Ledger, p: Place) {
    forall e | e in h :: e.id in led && led[e.id] == Entry(e, p)
  }

  // What holds for one scheduler queue.
  ghost predicate QueueOk(b: Broker, led: Ledger, q: Queue) {
    && (q in b.ready <==> q in b.stats.bySched)
    && (q in b.ready && q in b.stats.bySched ==>
          && QueueHolds(b.ready[q], led, Ready(q))
          && NoDuplicates(b.ready[q]) && IsHeap(Less, b.ready[q])
          && b.stats.bySched[q].ready == |b.ready[q]|)
  }

  ghost predicate OfJob(h: seq<Eval>, j: JobID) {
    forall e | e in h :: e.jobID == j
  }

  // What holds for one job.
  ghost predicate JobOk(b: Broker, led: Ledger, j: JobID) {
    && (j in b.jobEvals ==>
          && b.jobEvals[j] in led
          && led[b.jobEvals[j]].eval.jobID == j
          && led[b.jobEvals[j]].place != Blocked)
    && (j in b.blocked ==>
          && b.blocked[j] != [] && OfJob(b.blocked[j], j)
          && QueueHolds(b.blocked[j], led, Blocked)
          && NoDuplicates(b.blocked[j]) && IsHeap(Less, b.blocked[j]))
  }

  function UnackedBySched(bySched: map<Queue, SchedulerStats>): map<Queue, int> {
    map q | q in bySched :: bySched[q].unacked
  }

  ghost predicate Totals(b: Broker) {
    && b.stats.totalReady == Total(b.ready)
    && b.stats.totalBlocked == Total(b.blocked)
    && b.stats.totalWaiting == |b.timeWait|
    && b.stats.totalUnacked == |b.unack|
    && b.stats.totalUnacked == Sum(UnackedBySched(b.stats.bySched))
  }

  ghost predicate Ids(b: Broker, led: Ledger, holes: set<JobID>) {
    forall id :: IdOk(b, led, holes, id)
  }

  ghost predicate Queues(b: Broker, led: Ledger) {
    forall q :: QueueOk(b, led, q)
  }

  ghost predicate Jobs(b: Broker, led: Ledger) {
    forall j :: JobOk(b, led, j)
  }

  ghost predicate Core(b: Broker, led: Ledger, holes: set<JobID>) {
    && b.config.deliveryLimit >= 1
    && Ids(b, led, holes) && Queues(b, led) && Jobs(b, led) && Totals(b)
  }

  ghost predicate NoLimbo(led: Ledger) {
    forall id | id in led :: led[id].place != Limbo
  }

  // A disabled broker has been flushed, so its ledger is empty.
  ghost predicate Inv(b: Broker, led: Ledger) {
    && Core(b, led, {})
    && NoLimbo(led)
    && (!b.enabled ==> led == map[])
  }

  // Members of a slice after a push or a pop

  ghost predicate Grown(h: seq<Eval>, e: Eval, r: seq<Eval>) {
    && NoDuplicates(r) && IsHeap(Less, r) && |r| == |h| + 1
    && (forall x :: x in r <==> x in h || x == e)
  }

  lemma PushMembers(h: seq<Eval>, e: Eval, s: set<Eval>)
    requires IsHeap(Less, h) && NoDuplicates(h) && e !in h
    requires Within(h, s) && e in s && WeakOrder(Less, s)
    ensures Grown(h, e, Push(Less, h, e))
  {
    var r := Push(Less, h, e);
    PushCorrect(Less, h, e, s);
    forall x ensures x in r <==> x in h || x == e {
      assert x in r <==> x in multiset(r);
    }
  }

  lemma PopMembers(h: seq<Eval>, s: set<Eval>)
    requires h != [] && IsHeap(Less, h) && NoDuplicates(h)
    requires Within(h, s) && WeakOrder(Less, s)
    ensures PopTop(Less, h) == h[0]
    ensures Grown(PopRest(Less, h), h[0], h)
    ensures NoDuplicates(PopRest(Less, h)) && IsHeap(Less, PopRest(Less, h)) && h[0] !in PopRest(Less, h)
  {
    var r := PopRest(Less, h);
    PopCorrect(Less, h, s);
    assert multiset(h)[h[0]] == 1;
    forall x ensures x in h <==> x in r || x == h[0] {
      assert x in r <==> x in multiset(r);
      assert x in h <==> x in multiset(h);
    }
    forall x | x in r ensures multiset(r)[x] == 1 {
      assert x in h;
    }
  }

  lemma UnackedUpdate(bySched: map<Queue, SchedulerStats>, q: Queue, x: SchedulerStats)
    ensures Sum(UnackedBySched(bySched[q := x]))
         == Sum(UnackedBySched(bySched)) + x.unacked - (if q in bySched then bySched[q].unacked else 0)
  {
    SumUpdate(UnackedBySched(bySched), q, x.unacked);
    assert UnackedBySched(bySched[q := x]) == UnackedBySched(bySched)[q := x.unacked];
  }

  // Moving the evaluation e, so far in Limbo, to a ready queue

  // The evaluations of one ready queue belong to different jobs.
  lemma ReadyJobsDiffer(b: Broker, led: Ledger, holes: set<JobID>, q: Queue)
    requires Core(b, led, holes)
    ensures DistinctJobs(set x | x in Slice(b.ready, q))
    ensures forall x | x in Slice(b.ready, q) :: Owns(b, x) && x.id in led && led[x.id] == Entry(x, Ready(q))
  {
    assert QueueOk(b, led, q);
    forall x | x in Slice(b.ready, q) ensures Owns(b, x) && x.id in led && led[x.id] == Entry(x, Ready(q)) {
      assert IdOk(b, led, holes, x.id);
    }
  }

  lemma PushReadySlice(b: Broker, led: Ledger, holes: set<JobID>, e: Eval, q: Queue)
    requires Core(b, led, holes) && e.id in led && led[e.id] == Entry(e, Limbo) && Owns(b, e)
    ensures Grown(Slice(b.ready, q), e, Push(Less, Slice(b.ready, q), e))
  {
    var h := Slice(b.ready, q);
    ReadyJobsDiffer(b, led, holes, q);
    assert QueueOk(b, led, q);
    var s := (set x | x in h) + {e};
    LessIsWeakOrder(s);
    PushMembers(h, e, s);
  }

  ghost predicate ReadyGrows(b: Broker, b': Broker, e: Eval, q: Queue, r: seq<Eval>) {
    Grown(Slice(b.ready, q), e, r) && b' == GrowReady(b, q, r)
  }

  lemma GrowReadyIds(b: Broker, b': Broker, led: Ledger, holes: set<JobID>, e: Eval, q: Queue, r: seq<Eval>)
    requires Ids(b, led, holes) && e.id in led && led[e.id] == Entry(e, Limbo) && Owns(b, e)
    requires ReadyGrows(b, b', e, q, r)
    requires e.id in b.evals && CountFits(b.config.deliveryLimit, b.evals[e.id], Entry(e, Ready(q)))
    ensures Ids(b', led[e.id := Entry(e, Ready(q))], holes)
  {
    var led' := led[e.id := Entry(e, Ready(q))];
    forall id ensures IdOk(b', led', holes, id) {
      assert IdOk(b, led, holes, id);
    }
  }

  lemma GrowReadyQueues(b: Broker, b': Broker, led: Ledger, e: Eval, q: Queue, r: seq<Eval>)
    requires Queues(b, led) && Jobs(b, led) && e.id in led && led[e.id] == Entry(e, Limbo)
    requires ReadyGrows(b, b', e, q, r)
    ensures Queues(b', led[e.id := Entry(e, Ready(q))])
    ensures Jobs(b', led[e.id := Entry(e, Ready(q))])
  {
    var led' := led[e.id := Entry(e, Ready(q))];
    forall p ensures QueueOk(b', led', p) {
      assert QueueOk(b, led, p);
    }
    forall j ensures JobOk(b', led', j) {
      assert JobOk(b, led, j);
    }
  }

  lemma GrowReadyTotals(b: Broker, b': Broker, e: Eval, q: Queue, r: seq<Eval>)
    requires Totals(b) && ReadyGrows(b, b', e, q, r)
    ensures Totals(b')
  {
    TotalUpdate(b.ready, q, r);
    UnackedUpdate(b.stats.bySched, q, b'.stats.bySched[q]);
  }

  lemma PushReadyKeeps(b: Broker, led: Ledger, holes: set<JobID>, e: Eval, q: Queue)
    requires Core(b, led, holes) && e.id in led && led[e.id] == Entry(e, Limbo) && Owns(b, e)
    requires e.id in b.evals && CountFits(b.config.deliveryLimit, b.evals[e.id], Entry(e, Ready(q)))
    ensures Core(PushReady(b, e, q), led[e.id := Entry(e, Ready(q))], holes)
  {
    var b', r := PushReady(b, e, q), Push(Less, Slice(b.ready, q), e);
    PushReadySlice(b, led, holes, e, q);
    GrowReadyIds(b, b', led, holes, e, q, r);
    GrowReadyQueues(b, b', led, e, q, r);
    GrowReadyTotals(b, b', e, q, r);
  }

  // Moving it to the blocked queue of its job

  lemma PushBlockedSlice(b: Broker, led: Ledger, e: Eval)
    requires Jobs(b, led) && e.id in led && led[e.id] == Entry(e, Limbo)
    ensures Grown(Slice(b.blocked, e.jobID), e, Push(Less, Slice(b.blocked, e.jobID), e))
  {
    var h := Slice(b.blocked, e.jobID);
    assert JobOk(b, led, e.jobID);
    var s := (set x | x in h) + {e};
    LessIsWeakOrder(s);
    PushMembers(h, e, s);
  }

  ghost predicate BlockedGrows(b: Broker, b': Broker, e: Eval, r: seq<Eval>) {
    Grown(Slice(b.blocked, e.jobID), e, r) && b' == GrowBlocked(b, e.jobID, r)
  }

  lemma GrowBlockedIds(b: Broker, b': Broker, led: Ledger, holes: set<JobID>, e: Eval, r: seq<Eval>)
    requires Ids(b, led, holes) && e.id in led && led[e.id] == Entry(e, Limbo)
    requires e.jobID in b.jobEvals && b.jobEvals[e.jobID] != e.id
    requires BlockedGrows(b, b', e, r)
    ensures Ids(b', led[e.id := Entry(e, Blocked)], holes)
  {
    var led' := led[e.id := Entry(e, Blocked)];
    forall id ensures IdOk(b', led', holes, id) {
      assert IdOk(b, led, holes, id);
    }
  }

  lemma GrowBlockedQueues(b: Broker, b': Broker, led: Ledger, e: Eval, r: seq<Eval>)
    requires Queues(b, led) && Jobs(b, led) && e.id in led && led[e.id] == Entry(e, Limbo)
    requires e.jobID in b.jobEvals && b.jobEvals[e.jobID] != e.id
    requires BlockedGrows(b, b', e, r)
    ensures Queues(b', led[e.id := Entry(e, Blocked)])
    ensures Jobs(b', led[e.id := Entry(e, Blocked)])
  {
    var led' := led[e.id := Entry(e, Blocked)];
    forall p ensures QueueOk(b', led', p) {
      assert QueueOk(b, led, p);
    }
    forall j ensures JobOk(b', led', j) {
      assert JobOk(b, led, j);
    }
  }

  lemma PushBlockedKeeps(b: Broker, led: Ledger, holes: set<JobID>, e: Eval)
    requires Core(b, led, holes) && e.id in led && led[e.id] == Entry(e, Limbo)
    requires e.jobID in b.jobEvals && b.jobEvals[e.jobID] != e.id
    ensures Core(PushBlocked(b, e), led[e.id := Entry(e, Blocked)], holes)
  {
    var b', r := PushBlocked(b, e), Push(Less, Slice(b.blocked, e.jobID), e);
    PushBlockedSlice(b, led, e);
    GrowBlockedIds(b, b', led, holes, e, r);
    GrowBlockedQueues(b, b', led, e, r);
    TotalUpdate(b.blocked, e.jobID, r);
  }

  // Taking and giving up the slot of a job

  lemma ClaimKeeps(b: Broker, led: Ledger, holes: set<JobID>, e: Eval)
    requires Core(b, led, holes) && e.id in led && led[e.id] == Entry(e, Limbo) && e.jobID !in b.jobEvals
    ensures Core(b.(jobEvals := b.jobEvals[e.jobID := e.id]), led, holes)
  {
    var b' := b.(jobEvals := b.jobEvals[e.jobID := e.id]);
    forall id ensures IdOk(b', led, holes, id) {
      assert IdOk(b, led, holes, id);
    }
    forall q ensures QueueOk(b', led, q) {
      assert QueueOk(b, led, q);
    }
    forall j ensures JobOk(b', led, j) {
      assert JobOk(b, led, j);
    }
  }

  lemma FillHole(b: Broker, led: Ledger, holes: set<JobID>, j: JobID)
    requires Core(b, led, holes)
    requires j in b.jobEvals || Slice(b.blocked, j) == []
    ensures Core(b, led, holes - {j})
  {
    forall id ensures IdOk(b, led, holes - {j}, id) {
      assert IdOk(b, led, holes, id);
    }
  }

  // Dropping an evaluation that owns its job, together with the slot
  lemma RetireKeeps(b: Broker, b': Broker, led: Ledger, e: Eval)
    requires Core(b, led, {}) && e.id in led && led[e.id] == Entry(e, Limbo) && Owns(b, e)
    requires b' == b.(evals := b.evals - {e.id}, jobEvals := b.jobEvals - {e.jobID})
    ensures Core(b', led - {e.id}, {e.jobID})
  {
    RetireIds(b, b', led, e);
    RetireQueues(b, b', led, e);
  }

  lemma RetireIds(b: Broker, b': Broker, led: Ledger, e: Eval)
    requires Ids(b, led, {}) && e.id in led && led[e.id] == Entry(e, Limbo) && Owns(b, e)
    requires b' == b.(evals := b.evals - {e.id}, jobEvals := b.jobEvals - {e.jobID})
    ensures Ids(b', led - {e.id}, {e.jobID})
  {
    var led' := led - {e.id};
    forall id ensures IdOk(b', led', {e.jobID}, id) {
      assert IdOk(b, led, {}, id);
    }
  }

  lemma RetireQueues(b: Broker, b': Broker, led: Ledger, e: Eval)
    requires Queues(b, led) && Jobs(b, led) && e.id in led && led[e.id] == Entry(e, Limbo) && Owns(b, e)
    requires b' == b.(evals := b.evals - {e.id}, jobEvals := b.jobEvals - {e.jobID})
    ensures Queues(b', led - {e.id}) && Jobs(b', led - {e.id})
  {
    var led' := led - {e.id};
    forall q ensures QueueOk(b', led', q) {
      assert QueueOk(b, led, q);
    }
    forall j ensures JobOk(b', led', j) {
      assert JobOk(b, led, j) && JobOk(b, led, e.jobID);
    }
  }

  // A move between Limbo, the wait timers and the outstanding evaluations leaves the
  // queues alone.
  lemma QueuesFrame(b: Broker, b': Broker, led: Ledger, id: ID, x: Entry)
    requires Queues(b, led) && Jobs(b, led)
    requires b'.ready == b.ready && b'.blocked == b.blocked && b'.jobEvals == b.jobEvals
    requires b'.stats.bySched.Keys == b.stats.bySched.Keys
    requires forall q | q in b.stats.bySched :: b'.stats.bySched[q].ready == b.stats.bySched[q].ready
    requires id in led ==> x.eval.jobID == led[id].eval.jobID && !led[id].place.Ready? && led[id].place != Blocked
    requires !x.place.Ready? && x.place != Blocked
    ensures Queues(b', led[id := x]) && Jobs(b', led[id := x])
  {
    var led' := led[id := x];
    forall q ensures QueueOk(b', led', q) {
      assert QueueOk(b, led, q);
    }
    forall j ensures JobOk(b', led', j) {
      assert JobOk(b, led, j);
    }
  }

  // A new evaluation enters in Limbo
  lemma AdmitKeeps(b: Broker, led: Ledger, holes: set<JobID>, e: Eval)
    requires Core(b, led, holes) && e.id !in b.evals && e.id != "" && e.kind != FAILED
    ensures Core(b.(evals := b.evals[e.id := 0]), led[e.id := Entry(e, Limbo)], holes)
  {
    var b' := b.(evals := b.evals[e.id := 0]);
    var led' := led[e.id := Entry(e, Limbo)];
    assert IdOk(b, led, holes, e.id);
    forall id ensures IdOk(b', led', holes, id) {
      assert IdOk(b, led, holes, id);
    }
    QueuesFrame(b, b', led, e.id, Entry(e, Limbo));
  }

  // Wait timers

  lemma StartWaitKeeps(b: Broker, led: Ledger, holes: set<JobID>, e: Eval)
    requires Core(b, led, holes) && e.id in led && led[e.id] == Entry(e, Limbo)
    requires e.id in b.evals && CountFits(b.config.deliveryLimit, b.evals[e.id], Entry(e, Waiting))
    ensures Core(StartWait(b, e), led[e.id := Entry(e, Waiting)], holes)
  {
    var b', led' := StartWait(b, e), led[e.id := Entry(e, Waiting)];
    assert IdOk(b, led, holes, e.id);
    forall id ensures IdOk(b', led', holes, id) {
      assert IdOk(b, led, holes, id);
    }
    QueuesFrame(b, b', led, e.id, Entry(e, Waiting));
    CardInsert(b.timeWait, e.id, e);
  }

  function EndWait(b: Broker, id: ID): Broker {
    b.(timeWait := b.timeWait - {id},
       stats := b.stats.(totalWaiting := b.stats.totalWaiting - 1))
  }

  lemma EndWaitKeeps(b: Broker, led: Ledger, id: ID)
    requires Core(b, led, {}) && id in b.timeWait
    ensures id in led && led[id] == Entry(b.timeWait[id], Waiting)
    ensures Core(EndWait(b, id), led[id := Entry(b.timeWait[id], Limbo)], {})
  {
    assert IdOk(b, led, {}, id);
    var b', led' := EndWait(b, id), led[id := Entry(b.timeWait[id], Limbo)];
    forall x ensures IdOk(b', led', {}, x) {
      assert IdOk(b, led, {}, x);
    }
    QueuesFrame(b, b', led, id, Entry(b.timeWait[id], Limbo));
    CardRemove(b.timeWait, id);
  }

  // Settling an outstanding evaluation

  lemma DropUnackedTotals(b: Broker, id: ID, q: Queue)
    requires Totals(b) && id in b.unack && q in b.stats.bySched
    ensures Totals(DropUnacked(b, id, q))
  {
    CardRemove(b.unack, id);
    UnackedUpdate(b.stats.bySched, q, DropUnacked(b, id, q).stats.bySched[q]);
  }

  lemma DropUnackedKeeps(b: Broker, led: Ledger, id: ID, q: Queue)
    requires Core(b, led, {}) && id in b.unack && q in b.stats.bySched
    ensures id in led && led[id] == Entry(b.unack[id].eval, Outstanding)
    ensures Core(DropUnacked(b, id, q), led[id := Entry(b.unack[id].eval, Limbo)], {})
  {
    assert IdOk(b, led, {}, id);
    var b', led' := DropUnacked(b, id, q), led[id := Entry(b.unack[id].eval, Limbo)];
    forall x ensures IdOk(b', led', {}, x) {
      assert IdOk(b, led, {}, x);
    }
    QueuesFrame(b, b', led, id, Entry(b.unack[id].eval, Limbo));
    DropUnackedTotals(b, id, q);
  }

  // Delivering the first evaluation of a queue

  ghost predicate ReadyShrinks(b: Broker, b': Broker, e: Eval, q: Queue, r: seq<Eval>, token: Token) {
    && q in b.ready && Grown(r, e, b.ready[q]) && NoDuplicates(r) && IsHeap(Less, r) && e !in r
    && b' == HandOut(b, q, e, r, token)
  }

  lemma ShrinkReadyIds(b: Broker, b': Broker, led: Ledger, e: Eval, q: Queue, r: seq<Eval>, token: Token)
    requires Ids(b, led, {}) && e.id in led && led[e.id] == Entry(e, Ready(q))
    requires ReadyShrinks(b, b', e, q, r, token) && q in b.stats.bySched && b.config.deliveryLimit >= 1
    ensures Ids(b', led[e.id := Entry(e, Outstanding)], {})
  {
    var led' := led[e.id := Entry(e, Outstanding)];
    assert IdOk(b, led, {}, e.id);
    forall id ensures IdOk(b', led', {}, id) {
      assert IdOk(b, led, {}, id);
    }
  }

  lemma ShrinkReadyQueues(b: Broker, b': Broker, led: Ledger, e: Eval, q: Queue, r: seq<Eval>, token: Token)
    requires Queues(b, led) && Jobs(b, led) && e.id in led && led[e.id] == Entry(e, Ready(q))
    requires ReadyShrinks(b, b', e, q, r, token)
    ensures Queues(b', led[e.id := Entry(e, Outstanding)])
    ensures Jobs(b', led[e.id := Entry(e, Outstanding)])
  {
    var led' := led[e.id := Entry(e, Outstanding)];
    assert QueueOk(b, led, q);
    forall p ensures QueueOk(b', led', p) {
      assert QueueOk(b, led, p);
    }
    forall j ensures JobOk(b', led', j) {
      assert JobOk(b, led, j);
    }
  }

  lemma ShrinkReadyTotals(b: Broker, b': Broker, e: Eval, q: Queue, r: seq<Eval>, token: Token)
    requires Totals(b) && ReadyShrinks(b, b', e, q, r, token) && e.id !in b.unack && q in b.stats.bySched
    ensures Totals(b')
  {
    TotalUpdate(b.ready, q, r);
    UnackedUpdate(b.stats.bySched, q, b'.stats.bySched[q]);
    CardInsert(b.unack, e.id, Unack(e, token, true));
  }

  // Releasing the first blocked evaluation of a job

  ghost predicate BlockedShrinks(b: Broker, b': Broker, e: Eval, r: seq<Eval>) {
    && e.jobID in b.blocked && Grown(r, e, b.blocked[e.jobID]) && NoDuplicates(r) && IsHeap(Less, r) && e !in r
    && b' == ShrinkBlocked(b, e.jobID, r)
  }

  lemma ShrinkBlockedIds(b: Broker, b': Broker, led: Ledger, holes: set<JobID>, e: Eval, r: seq<Eval>)
    requires Ids(b, led, holes) && e.id in led && led[e.id] == Entry(e, Blocked)
    requires BlockedShrinks(b, b', e, r)
    ensures Ids(b', led[e.id := Entry(e, Limbo)], holes)
  {
    var led' := led[e.id := Entry(e, Limbo)];
    forall id ensures IdOk(b', led', holes, id) {
      assert IdOk(b, led, holes, id);
    }
  }

  lemma ShrinkBlockedQueues(b: Broker, b': Broker, led: Ledger, e: Eval, r: seq<Eval>)
    requires Queues(b, led) && Jobs(b, led) && e.id in led && led[e.id] == Entry(e, Blocked)
    requires BlockedShrinks(b, b', e, r)
    ensures Queues(b', led[e.id := Entry(e, Limbo)])
    ensures Jobs(b', led[e.id := Entry(e, Limbo)])
  {
    var led' := led[e.id := Entry(e, Limbo)];
    forall p ensures QueueOk(b', led', p) {
      assert QueueOk(b, led, p);
    }
    forall j ensures JobOk(b', led', j) {
      assert JobOk(b, led, j);
    }
  }

  lemma ShrinkBlockedTotals(b: Broker, b': Broker, e: Eval, r: seq<Eval>)
    requires Totals(b) && BlockedShrinks(b, b', e, r)
    ensures Totals(b')
  {
    TotalUpdate(b.blocked, e.jobID, r);
    TotalRemove(b.blocked, e.jobID);
  }
}
