/**
 The evaluation broker as a state machine on values: one function per critical
 section of EvalBroker, following its branches.  A Nack timer is either armed or
 not; stopping and resetting report whether it was armed, as Go's timers do.
 */
module BrokerModel {
  import opened GoHeap
  import opened Evaluations

  const FAILED: Queue := "_failed"

  // nackTimeout only decides when a timer fires, which is left open.
  datatype Config = Config(deliveryLimit: int, initialNackDelay: int, subsequentNackDelay: int)

  datatype Unack = Unack(eval: Eval, token: Token, armed: bool)

  datatype SchedulerStats = SchedulerStats(ready: int, unacked: int)

  datatype Stats = Stats(
    totalReady: int,
    totalUnacked: int,
    totalBlocked: int,
    totalWaiting: int,
    bySched: map<Queue, SchedulerStats>)

  datatype Broker = Broker(
    config: Config,
    enabled: bool,
    evals: map<ID, int>,
    jobEvals: map<JobID, ID>,
    blocked: map<JobID, seq<Eval>>,
    ready: map<Queue, seq<Eval>>,
    unack: map<ID, Unack>,
    requeue: map<Token, Eval>,
    timeWait: map<ID, Eval>,
    stats: Stats)

  // How a call on an outstanding evaluation ends.  NilScheduler is the nil
  // dereference of a missing per-scheduler entry.
  datatype Outcome = Done | NotFound | TokenMismatch | TimerExpired | NilScheduler

  const NO_STATS := Stats(0, 0, 0, 0, map[])

  function New(config: Config): Broker {
    Broker(config, false, map[], map[], map[], map[], map[], map[], map[], NO_STATS)
  }

  // Go's indexing of a map of slices: a missing key reads as the empty slice.
  function Slice(m: map<string, seq<Eval>>, k: string): seq<Eval> {
    if k in m then m[k] else []
  }

  function SchedOf(b: Broker, q: Queue): SchedulerStats {
    if q in b.stats.bySched then b.stats.bySched[q] else SchedulerStats(0, 0)
  }

  function Pending(b: Broker, job: JobID): ID {
    if job in b.jobEvals then b.jobEvals[job] else ""
  }

  function Dequeues(b: Broker, id: ID): int {
    if id in b.evals then b.evals[id] else 0
  }

  // A job's blocked slice has become h, with one more evaluation.
  function GrowBlocked(b: Broker, j: JobID, h: seq<Eval>): Broker {
    b.(blocked := b.blocked[j := h], stats := b.stats.(totalBlocked := b.stats.totalBlocked + 1))
  }

  // A ready slice has become h, with one more evaluation.
  function GrowReady(b: Broker, q: Queue, h: seq<Eval>): Broker {
    var s := SchedOf(b, q);
    b.(ready := b.ready[q := h],
       stats := b.stats.(totalReady := b.stats.totalReady + 1,
                         bySched := b.stats.bySched[q := s.(ready := s.ready + 1)]))
  }

  function PushBlocked(b: Broker, e: Eval): Broker {
    GrowBlocked(b, e.jobID, Push(Less, Slice(b.blocked, e.jobID), e))
  }

  function PushReady(b: Broker, e: Eval, q: Queue): Broker {
    GrowReady(b, q, Push(Less, Slice(b.ready, q), e))
  }

  // enqueueLocked
  function EnqueueLocked(b: Broker, e: Eval, q: Queue): (r: Broker)
    ensures r.evals == b.evals && r.unack == b.unack && r.requeue == b.requeue
    ensures r.enabled == b.enabled && r.config == b.config
    ensures r.timeWait == b.timeWait
  {
    if !b.enabled then b
    else if Pending(b, e.jobID) == "" then
      PushReady(b.(jobEvals := b.jobEvals[e.jobID := e.id]), e, q)
    else if Pending(b, e.jobID) != e.id then PushBlocked(b, e)
    else PushReady(b, e, q)
  }

  // processWaitingEnqueue
  function StartWait(b: Broker, e: Eval): Broker {
    b.(timeWait := b.timeWait[e.id := e],
       stats := b.stats.(totalWaiting := b.stats.totalWaiting + 1))
  }

  // enqueueWaiting: the callback of a wait timer
  function EnqueueWaiting(b: Broker, e: Eval): (r: Broker)
    ensures r.evals == b.evals && r.unack == b.unack && r.requeue == b.requeue
    ensures r.enabled == b.enabled && r.config == b.config
  {
    EnqueueLocked(
      b.(timeWait := b.timeWait - {e.id},
         stats := b.stats.(totalWaiting := b.stats.totalWaiting - 1)),
      e, e.kind)
  }

  function EnqueueNew(b: Broker, e: Eval): (r: Broker)
    ensures r.evals == b.evals && r.unack == b.unack && r.requeue == b.requeue
    ensures r.enabled == b.enabled && r.config == b.config
  {
    if e.wait > 0 then StartWait(b, e) else EnqueueLocked(b, e, e.kind)
  }

  // processEnqueue
  function ProcessEnqueue(b: Broker, e: Eval, token: Token): (r: Broker)
    ensures r.evals == if e.id in b.evals || !b.enabled then b.evals else b.evals[e.id := 0]
    ensures r.unack == b.unack && r.enabled == b.enabled && r.config == b.config
    ensures r.requeue == if token != "" && e.id in b.evals && e.id in b.unack && b.unack[e.id].token == token
                         then b.requeue[token := e] else b.requeue
  {
    if e.id in b.evals then
      if token != "" && e.id in b.unack && b.unack[e.id].token == token
      then b.(requeue := b.requeue[token := e])
      else b
    else
      EnqueueNew(if b.enabled then b.(evals := b.evals[e.id := 0]) else b, e)
  }

  // EnqueueAll: the Go map is walked in some order, given here by the sequence.
  function EnqueueAll(b: Broker, batch: seq<(Eval, Token)>): (r: Broker)
    ensures r.enabled == b.enabled
  {
    if batch == [] then b
    else
      var last := batch[|batch| - 1];
      ProcessEnqueue(EnqueueAll(b, batch[..|batch| - 1]), last.0, last.1)
  }

  // Peek reads the last slot, not the root.
  function Peek(h: seq<Eval>): Eval
    requires h != []
  {
    h[|h| - 1]
  }

  predicate HasWork(b: Broker, q: Queue) {
    q in b.ready && b.ready[q] != []
  }

  // One turn of the loop of scanForSchedulers.
  function ScanStep(b: Broker, eligible: seq<Queue>, best: int, sched: Queue): (seq<Queue>, int) {
    if !HasWork(b, sched) then (eligible, best)
    else
      var p := Peek(b.ready[sched]).priority;
      if eligible == [] || p > best then ([sched], p)
      else if best > p then (eligible, best)
      else (eligible + [sched], best)
  }

  function Scan(b: Broker, schedulers: seq<Queue>): (seq<Queue>, int) {
    if schedulers == [] then ([], 0)
    else
      var prev := Scan(b, schedulers[..|schedulers| - 1]);
      ScanStep(b, prev.0, prev.1, schedulers[|schedulers| - 1])
  }

  function Eligible(b: Broker, schedulers: seq<Queue>): seq<Queue> {
    Scan(b, schedulers).0
  }

  // The first evaluation of a ready slice is handed out, leaving h.
  function HandOut(b: Broker, q: Queue, e: Eval, h: seq<Eval>, token: Token): Broker {
    var s := SchedOf(b, q);
    b.(ready := b.ready[q := h],
       unack := b.unack[e.id := Unack(e, token, true)],
       evals := b.evals[e.id := Dequeues(b, e.id) + 1],
       stats := b.stats.(
         totalReady := b.stats.totalReady - 1,
         totalUnacked := b.stats.totalUnacked + 1,
         bySched := b.stats.bySched[q := SchedulerStats(s.ready - 1, s.unacked + 1)]))
  }

  // dequeueForSched, with the generated token passed in
  function DequeueForSched(b: Broker, q: Queue, token: Token): Broker
    requires HasWork(b, q)
  {
    HandOut(b, q, PopTop(Less, b.ready[q]), PopRest(Less, b.ready[q]), token)
  }

  // The lookup that Ack, Nack, Pause, Resume and Reset share.
  function Lookup(b: Broker, id: ID, token: Token): Outcome {
    if id !in b.unack then NotFound
    else if b.unack[id].token != token then TokenMismatch
    else Done
  }

  function Arm(b: Broker, id: ID, armed: bool): Broker
    requires id in b.unack
  {
    b.(unack := b.unack[id := b.unack[id].(armed := armed)])
  }

  // OutstandingReset: resetting a timer that is not armed reports the timeout and
  // arms it all the same.
  function Reset(b: Broker, id: ID, token: Token): (Broker, Outcome) {
    if Lookup(b, id, token) != Done then (b, Lookup(b, id, token))
    else (Arm(b, id, true), if b.unack[id].armed then Done else TimerExpired)
  }

  function PauseNackTimeout(b: Broker, id: ID, token: Token): (Broker, Outcome) {
    if Lookup(b, id, token) != Done then (b, Lookup(b, id, token))
    else (Arm(b, id, false), if b.unack[id].armed then Done else TimerExpired)
  }

  function ResumeNackTimeout(b: Broker, id: ID, token: Token): (Broker, Outcome) {
    if Lookup(b, id, token) != Done then (b, Lookup(b, id, token))
    else (Arm(b, id, true), Done)
  }

  function DropUnacked(b: Broker, id: ID, q: Queue): Broker
    requires q in b.stats.bySched
  {
    var s := b.stats.bySched[q];
    b.(unack := b.unack - {id},
       stats := b.stats.(totalUnacked := b.stats.totalUnacked - 1,
                         bySched := b.stats.bySched[q := s.(unacked := s.unacked - 1)]))
  }

  function AckQueue(b: Broker, id: ID): Queue
    requires id in b.unack
  {
    if Dequeues(b, id) > b.config.deliveryLimit then FAILED else b.unack[id].eval.kind
  }

  // The part of Ack that forgets the evaluation.
  function Forget(b: Broker, id: ID): Broker
    requires id in b.unack && AckQueue(b, id) in b.stats.bySched
  {
    var b1 := DropUnacked(b, id, AckQueue(b, id));
    b1.(evals := b1.evals - {id}, jobEvals := b1.jobEvals - {b.unack[id].eval.jobID})
  }

  // A job's blocked slice has become h, with one evaluation less.
  function ShrinkBlocked(b: Broker, j: JobID, h: seq<Eval>): Broker {
    b.(blocked := if |h| > 0 then b.blocked[j := h] else b.blocked - {j},
       stats := b.stats.(totalBlocked := b.stats.totalBlocked - 1))
  }

  function PopBlocked(b: Broker, job: JobID): Broker
    requires Slice(b.blocked, job) != []
  {
    ShrinkBlocked(b, job, PopRest(Less, b.blocked[job]))
  }

  // The part of Ack that makes the next evaluation of the job ready.
  function Promote(b: Broker, job: JobID): (r: Broker)
    ensures r.evals == b.evals && r.unack == b.unack && r.requeue == b.requeue
    ensures r.enabled == b.enabled && r.config == b.config
  {
    if Slice(b.blocked, job) == [] then b
    else
      var e := PopTop(Less, b.blocked[job]);
      EnqueueLocked(PopBlocked(b, job), e, e.kind)
  }

  function DropRequeue(b: Broker, token: Token): Broker {
    b.(requeue := b.requeue - {token})
  }

  // The broker once the evaluation is forgotten and its job's next one is ready.
  function Acked(b: Broker, id: ID): (r: Broker)
    requires id in b.unack && AckQueue(b, id) in b.stats.bySched
    ensures r.evals == b.evals - {id} && r.unack == b.unack - {id} && r.requeue == b.requeue
    ensures r.enabled == b.enabled && r.config == b.config
  {
    Promote(Forget(b, id), b.unack[id].eval.jobID)
  }

  // The part of Ack that enqueues what was requeued under the token.
  function Reenqueue(b: Broker, token: Token): (r: Broker)
    ensures r.config == b.config && r.enabled == b.enabled && r.unack == b.unack
    ensures r.requeue == b.requeue - {token}
    ensures r.evals == if token in b.requeue && b.requeue[token].id !in b.evals && b.enabled
                       then b.evals[b.requeue[token].id := 0] else b.evals
  {
    DropRequeue(if token in b.requeue then ProcessEnqueue(b, b.requeue[token], "") else b, token)
  }

  function AckDone(b: Broker, id: ID, token: Token): (r: Broker)
    requires id in b.unack && AckQueue(b, id) in b.stats.bySched
    ensures r.config == b.config && r.enabled == b.enabled
    ensures r.requeue == b.requeue - {token} && r.unack == b.unack - {id}
    ensures b.evals.Keys - {id} <= r.evals.Keys
  {
    Reenqueue(Acked(b, id), token)
  }

  function AckOutcome(b: Broker, id: ID, token: Token): Outcome {
    if Lookup(b, id, token) != Done then Lookup(b, id, token)
    else if !b.unack[id].armed then TimerExpired
    else if AckQueue(b, id) !in b.stats.bySched then NilScheduler
    else Done
  }

  // A failing Ack has counted the evaluation out only if it got as far as the
  // scheduler's statistics.
  function AckRefused(b: Broker, token: Token, outcome: Outcome): (r: Broker)
    ensures r == b.(requeue := b.requeue - {token}, stats := r.stats)
  {
    var stats := if outcome == NilScheduler then b.stats.(totalUnacked := b.stats.totalUnacked - 1) else b.stats;
    DropRequeue(b.(stats := stats), token)
  }

  function Ack(b: Broker, id: ID, token: Token): (r: (Broker, Outcome))
    ensures r.0.config == b.config && r.0.enabled == b.enabled
    ensures if r.1 == Done then b.evals.Keys - {id} <= r.0.evals.Keys else r.0.evals == b.evals
    ensures r.0.requeue == b.requeue - {token}
    ensures r.0.unack == b.unack || (Lookup(b, id, token) == Done && r.0.unack == b.unack - {id})
  {
    var outcome := AckOutcome(b, id, token);
    (if outcome == Done then AckDone(b, id, token) else AckRefused(b, token, outcome), outcome)
  }

  // nackReenqueueDelay
  function NackDelay(c: Config, dequeues: int): int {
    if dequeues <= 0 then 0
    else if dequeues == 1 then c.initialNackDelay
    else (dequeues - 1) * c.subsequentNackDelay
  }

  // The part of Nack that puts the evaluation back.
  function Redeliver(b: Broker, e: Eval): (r: Broker)
    ensures r.evals == b.evals && r.unack == b.unack && r.requeue == b.requeue
    ensures r.enabled == b.enabled && r.config == b.config
  {
    var n := Dequeues(b, e.id);
    if n >= b.config.deliveryLimit then EnqueueLocked(b, e, FAILED)
    else EnqueueNew(b, e.(wait := NackDelay(b.config, n)))
  }

  function NackDone(b: Broker, id: ID): (r: Broker)
    requires id in b.unack && b.unack[id].eval.kind in b.stats.bySched
    ensures r.config == b.config && r.enabled == b.enabled && r.evals == b.evals
    ensures r.requeue == b.requeue && r.unack == b.unack - {id}
  {
    Redeliver(DropUnacked(b, id, b.unack[id].eval.kind), b.unack[id].eval)
  }

  function Nack(b: Broker, id: ID, token: Token): (r: (Broker, Outcome))
    ensures r.0.config == b.config && r.0.enabled == b.enabled && r.0.evals == b.evals
    ensures r.0.requeue == b.requeue - {token}
    ensures r.0.unack == b.unack || (Lookup(b, id, token) == Done && r.0.unack == b.unack - {id})
  {
    var b0 := DropRequeue(b, token);
    if Lookup(b, id, token) != Done then (b0, Lookup(b, id, token))
    else if b.unack[id].eval.kind !in b.stats.bySched then
      (b0.(unack := b.unack - {id},
           stats := b.stats.(totalUnacked := b.stats.totalUnacked - 1)), NilScheduler)
    else (NackDone(b0, id), Done)
  }

  // Flush keeps the requeue map.
  function Flush(b: Broker): Broker {
    New(b.config).(enabled := b.enabled, requeue := b.requeue)
  }

  // SetEnabled, with the Flush that follows a disable
  function SetEnabled(b: Broker, enabled: bool): Broker {
    if enabled then b.(enabled := true) else Flush(b.(enabled := false))
  }
}
