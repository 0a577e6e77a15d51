/**
 Whole runs of the broker.

 A run is any interleaving of calls and timer firings on a broker that starts
 empty.  A log records what became of each evaluation and each delivery token;
 the theorems are about every log a run can produce.
 */
module BrokerRuns {
  import opened Evaluations
  import opened BrokerModel
  import opened BrokerInvariant
  import opened BrokerSteps

  datatype Step =
    | Enable
    | Disable
    | Offer(eval: Eval, token: Token)
    | WaitOver(id: ID)
    | Deliver(schedulers: seq<Queue>, offset: nat, token: Token)
    | DoAck(id: ID, token: Token)
    | DoNack(id: ID, token: Token)
    | NackTimerFires(id: ID)
    | Pause(id: ID, token: Token)
    | Resume(id: ID, token: Token)
    | DoReset(id: ID, token: Token)

  datatype Event =
    | Accepted(id: ID)
    | Delivery(id: ID, token: Token, queue: Queue)
    | AckEvent(id: ID, token: Token)
    | NackEvent(id: ID, token: Token)
    | Flushed

  datatype World = World(b: Broker, log: seq<Event>)

  function Start(config: Config): World {
    World(New(config), [])
  }

  // The queue that a scan takes from; the offset stands for the random choice.
  predicate Served(b: Broker, schedulers: seq<Queue>, offset: nat) {
    offset < |Eligible(b, schedulers)|
  }

  // What the environment guarantees: evaluations have an ID and an ordinary type,
  // a disabled broker is not offered evaluations that wait, wait timers fire only
  // while registered, and generated tokens are new.
  predicate Legal(w: World, s: Step) {
    match s
    case Offer(e, _) => Acceptable(e) && (w.b.enabled || e.wait <= 0)
    case WaitOver(id) => id in w.b.timeWait
    case Deliver(_, _, t) => t != "" && Deliveries(w.log, t) == 0
    case _ => true
  }

  lemma EligibleHasWork(b: Broker, schedulers: seq<Queue>)
    ensures forall q | q in Eligible(b, schedulers) :: HasWork(b, q) && q in schedulers
  {
    if schedulers != [] {
      EligibleHasWork(b, schedulers[..|schedulers| - 1]);
    }
  }

  function Next(w: World, s: Step): World
    requires Legal(w, s)
  {
    var b := w.b;
    match s
    case Enable => w.(b := SetEnabled(b, true))
    case Disable => World(SetEnabled(b, false), w.log + [Flushed])
    case Offer(e, t) => OfferWorld(w, e, t)
    case WaitOver(id) => w.(b := EnqueueWaiting(b, b.timeWait[id]))
    case Deliver(qs, i, t) =>
      if !b.enabled || !Served(b, qs, i) then w
      else
        EligibleHasWork(b, qs);
        var q := Eligible(b, qs)[i];
        assert q in Eligible(b, qs);
        DeliverFrom(w, q, t)
    case DoAck(id, t) => AckWorld(w, id, t)
    case DoNack(id, t) => NackWorld(w, id, t)
    case NackTimerFires(id) => if id in b.unack then w.(b := Arm(b, id, false)) else w
    case Pause(id, t) => w.(b := PauseNackTimeout(b, id, t).0)
    case Resume(id, t) => w.(b := ResumeNackTimeout(b, id, t).0)
    case DoReset(id, t) => w.(b := Reset(b, id, t).0)
  }

  function OfferWorld(w: World, e: Eval, t: Token): World {
    World(ProcessEnqueue(w.b, e, t),
          if w.b.enabled && e.id !in w.b.evals then w.log + [Accepted(e.id)] else w.log)
  }

  function AckWorld(w: World, id: ID, t: Token): World {
    var r := Ack(w.b, id, t);
    if r.1 != Done then w.(b := r.0)
    else
      var log := w.log + [AckEvent(id, t)];
      World(r.0, if t in w.b.requeue && w.b.requeue[t].id !in w.b.evals - {id}
                 then log + [Accepted(w.b.requeue[t].id)] else log)
  }

  function NackWorld(w: World, id: ID, t: Token): World {
    var r := Nack(w.b, id, t);
    World(r.0, if r.1 == Done then w.log + [NackEvent(id, t)] else w.log)
  }

  predicate LegalRun(w: World, steps: seq<Step>)
    decreases |steps|, 0
  {
    steps == [] || (LegalRun(w, steps[..|steps| - 1]) && Legal(After(w, steps[..|steps| - 1]), steps[|steps| - 1]))
  }

  function After(w: World, steps: seq<Step>): World
    requires LegalRun(w, steps)
    decreases |steps|, 1
  {
    if steps == [] then w
    else Next(After(w, steps[..|steps| - 1]), steps[|steps| - 1])
  }

  // Reading the log

  // Acceptances less acknowledgements of an evaluation since the last flush.
  function Balance(log: seq<Event>, id: ID): int {
    if log == [] then 0
    else
      var n := Balance(log[..|log| - 1], id);
      match log[|log| - 1]
      case Accepted(x) => if x == id then n + 1 else n
      case AckEvent(x, _) => if x == id then n - 1 else n
      case Flushed => 0
      case _ => n
  }

  // Deliveries from ordinary queues since the evaluation was last accepted.
  function Ordinary(log: seq<Event>, id: ID): nat {
    if log == [] then 0
    else
      var n := Ordinary(log[..|log| - 1], id);
      match log[|log| - 1]
      case Accepted(x) => if x == id then 0 else n
      case Delivery(x, _, q) => if x == id && q != FAILED then n + 1 else n
      case _ => n
  }

  function Deliveries(log: seq<Event>, t: Token): nat {
    if log == [] then 0
    else
      var n := Deliveries(log[..|log| - 1], t);
      match log[|log| - 1]
      case Delivery(_, x, _) => if x == t then n + 1 else n
      case _ => n
  }

  // Deliveries under a token since the last flush.
  function Current(log: seq<Event>, t: Token): nat {
    if log == [] then 0
    else
      var n := Current(log[..|log| - 1], t);
      match log[|log| - 1]
      case Delivery(_, x, _) => if x == t then n + 1 else n
      case Flushed => 0
      case _ => n
  }

  // Successful acknowledgements and rejections under a token.
  function Settlements(log: seq<Event>, t: Token): nat {
    if log == [] then 0
    else
      var n := Settlements(log[..|log| - 1], t);
      match log[|log| - 1]
      case AckEvent(_, x) => if x == t then n + 1 else n
      case NackEvent(_, x) => if x == t then n + 1 else n
      case _ => n
  }

  // The last delivery under a token: the evaluation, and the queue it came from.
  function Origin(log: seq<Event>, t: Token): (ID, Queue) {
    if log == [] then ("", "")
    else
      match log[|log| - 1]
      case Delivery(id, x, q) => if x == t then (id, q) else Origin(log[..|log| - 1], t)
      case _ => Origin(log[..|log| - 1], t)
  }

  // What the log says of the broker

  ghost predicate IdHistory(b: Broker, log: seq<Event>, id: ID) {
    && Balance(log, id) == (if id in b.evals then 1 else 0)
    && Ordinary(log, id) <= b.config.deliveryLimit
    && (id in b.evals ==>
          Ordinary(log, id) == if b.evals[id] <= b.config.deliveryLimit then b.evals[id] else b.config.deliveryLimit)
    && (id in b.unack ==> id in b.evals && Open(b, log, id))
  }

  // The token of an outstanding evaluation.
  ghost predicate Open(b: Broker, log: seq<Event>, id: ID)
    requires id in b.unack && id in b.evals
  {
    var t := b.unack[id].token;
    && t != "" && Current(log, t) == Deliveries(log, t) == 1 && Settlements(log, t) == 0
    && Origin(log, t).0 == id
    && (Origin(log, t).1 == FAILED <==> b.evals[id] > b.config.deliveryLimit)
  }

  ghost predicate TokenHistory(b: Broker, log: seq<Event>, t: Token) {
    && Settlements(log, t) <= Deliveries(log, t) <= 1
    && (t in b.requeue && Current(log, t) > 0 ==>
          && b.requeue[t].id in b.unack && b.unack[b.requeue[t].id].token == t)
    && (t in b.requeue ==> Deliveries(log, t) == 1)
  }

  ghost predicate History(w: World) {
    && (forall id :: IdHistory(w.b, w.log, id))
    && (forall t :: TokenHistory(w.b, w.log, t))
  }

  ghost predicate RunInv(w: World) {
    Consistent(w.b) && History(w)
  }

  // One more event

  lemma LastEvent(log: seq<Event>, ev: Event)
    ensures (log + [ev])[..|log + [ev]| - 1] == log && (log + [ev])[|log + [ev]| - 1] == ev
  {
  }

  // Steps that leave the known and outstanding evaluations alone

  lemma QuietKeeps(w: World, b': Broker)
    requires History(w)
    requires b'.config == w.b.config && b'.evals == w.b.evals && b'.unack.Keys == w.b.unack.Keys
    requires forall id | id in w.b.unack :: b'.unack[id].token == w.b.unack[id].token
    requires b'.requeue.Keys <= w.b.requeue.Keys
    requires forall t | t in b'.requeue :: b'.requeue[t] == w.b.requeue[t]
    ensures History(w.(b := b'))
  {
    forall id ensures IdHistory(b', w.log, id) {
      assert IdHistory(w.b, w.log, id);
    }
    forall t ensures TokenHistory(b', w.log, t) {
      assert TokenHistory(w.b, w.log, t);
    }
  }

  // A new evaluation is accepted
  lemma AcceptedHistory(w: World, b': Broker, x: ID)
    requires History(w) && x !in w.b.evals && w.b.config.deliveryLimit >= 1
    requires b'.config == w.b.config && b'.evals == w.b.evals[x := 0]
    requires b'.unack == w.b.unack && b'.requeue == w.b.requeue
    ensures History(World(b', w.log + [Accepted(x)]))
  {
    var log := w.log + [Accepted(x)];
    LastEvent(w.log, Accepted(x));
    forall id ensures IdHistory(b', log, id) {
      assert IdHistory(w.b, w.log, id) && IdHistory(w.b, w.log, x);
    }
    forall t ensures TokenHistory(b', log, t) {
      assert TokenHistory(w.b, w.log, t);
    }
  }

  // An evaluation is delivered under a new token
  lemma DeliveredHistory(w: World, b': Broker, e: Eval, t: Token, q: Queue)
    requires History(w) && t != "" && Deliveries(w.log, t) == 0
    requires e.id in w.b.evals && e.id !in w.b.unack && w.b.config.deliveryLimit >= 1
    requires if q == FAILED then w.b.evals[e.id] >= w.b.config.deliveryLimit
             else 0 <= w.b.evals[e.id] < w.b.config.deliveryLimit
    requires b'.config == w.b.config && b'.requeue == w.b.requeue
    requires b'.evals == w.b.evals[e.id := w.b.evals[e.id] + 1]
    requires b'.unack == w.b.unack[e.id := Unack(e, t, true)]
    ensures History(World(b', w.log + [Delivery(e.id, t, q)]))
  {
    var log := w.log + [Delivery(e.id, t, q)];
    LastEvent(w.log, Delivery(e.id, t, q));
    NeverDelivered(w.log, t);
    assert TokenHistory(w.b, w.log, t);
    forall id ensures IdHistory(b', log, id) {
      assert IdHistory(w.b, w.log, id);
    }
    forall x ensures TokenHistory(b', log, x) {
      assert TokenHistory(w.b, w.log, x);
    }
  }

  lemma {:induction false} NeverDelivered(log: seq<Event>, t: Token)
    ensures Current(log, t) <= Deliveries(log, t)
  {
    if log != [] {
      NeverDelivered(log[..|log| - 1], t);
    }
  }

  // A token is settled: the evaluation goes, or stays known
  lemma SettledHistory(w: World, b': Broker, x: ID, t: Token, ev: Event)
    requires History(w) && x in w.b.unack && w.b.unack[x].token == t
    requires ev == AckEvent(x, t) || ev == NackEvent(x, t)
    requires b'.config == w.b.config && b'.unack == w.b.unack - {x}
    requires b'.evals == if ev.AckEvent? then w.b.evals - {x} else w.b.evals
    requires b'.requeue == w.b.requeue - {t}
    ensures History(World(b', w.log + [ev]))
  {
    var log := w.log + [ev];
    LastEvent(w.log, ev);
    assert IdHistory(w.b, w.log, x);
    forall id ensures IdHistory(b', log, id) {
      assert IdHistory(w.b, w.log, id);
    }
    forall y ensures TokenHistory(b', log, y) {
      assert TokenHistory(w.b, w.log, y);
    }
  }

  lemma FlushedHistory(w: World, b': Broker)
    requires History(w) && b'.config == w.b.config && b'.evals == map[] && b'.unack == map[]
    requires b'.requeue == w.b.requeue
    ensures History(World(b', w.log + [Flushed]))
  {
    var log := w.log + [Flushed];
    LastEvent(w.log, Flushed);
    forall id ensures IdHistory(b', log, id) {
      assert IdHistory(w.b, w.log, id);
    }
    forall t ensures TokenHistory(b', log, t) {
      assert TokenHistory(w.b, w.log, t);
    }
  }

  // Every step

  lemma OfferKeeps(w: World, e: Eval, t: Token)
    requires RunInv(w) && Legal(w, Offer(e, t))
    ensures RunInv(Next(w, Offer(e, t)))
  {
    ProcessEnqueueConsistent(w.b, e, t);
    var b' := ProcessEnqueue(w.b, e, t);
    if e.id !in w.b.evals && w.b.enabled {
      AcceptedHistory(w, b', e.id);
    } else {
      OfferHistory(w, e, t);
    }
  }

  // Requeueing under a live token
  lemma OfferHistory(w: World, e: Eval, t: Token)
    requires History(w) && (e.id in w.b.evals || (!w.b.enabled && e.wait <= 0))
    ensures History(w.(b := ProcessEnqueue(w.b, e, t)))
  {
    var b' := ProcessEnqueue(w.b, e, t);
    forall id ensures IdHistory(b', w.log, id) {
      assert IdHistory(w.b, w.log, id);
    }
    forall x ensures TokenHistory(b', w.log, x) {
      assert TokenHistory(w.b, w.log, x) && IdHistory(w.b, w.log, e.id);
    }
  }

  function DeliverFrom(w: World, q: Queue, t: Token): World
    requires HasWork(w.b, q)
  {
    World(DequeueForSched(w.b, q, t), w.log + [Delivery(GoHeap.PopTop(Less, w.b.ready[q]).id, t, q)])
  }

  // What a delivery takes, and from whom.
  lemma DeliverFacts(b: Broker, q: Queue, t: Token)
    requires Consistent(b) && HasWork(b, q)
    ensures var e, b' := GoHeap.PopTop(Less, b.ready[q]), DequeueForSched(b, q, t);
      && e.id in b.evals && e.id !in b.unack && b.config.deliveryLimit >= 1
      && (if q == FAILED then b.evals[e.id] >= b.config.deliveryLimit
          else 0 <= b.evals[e.id] < b.config.deliveryLimit)
      && b'.config == b.config && b'.requeue == b.requeue
      && b'.evals == b.evals[e.id := b.evals[e.id] + 1]
      && b'.unack == b.unack[e.id := Unack(e, t, true)]
  {
    var led: Ledger :| Inv(b, led);
    ReadyHead(b, led, q);
    DequeueTakes(b, q, t);
  }

  lemma DeliverFromKeeps(w: World, q: Queue, t: Token)
    requires RunInv(w) && HasWork(w.b, q) && t != "" && Deliveries(w.log, t) == 0
    ensures RunInv(DeliverFrom(w, q, t))
  {
    DequeueConsistent(w.b, q, t);
    DeliverFacts(w.b, q, t);
    DeliveredHistory(w, DequeueForSched(w.b, q, t), GoHeap.PopTop(Less, w.b.ready[q]), t, q);
  }

  lemma AckHistory(w: World, id: ID, t: Token)
    requires RunInv(w) && Ack(w.b, id, t).1 == Done
    ensures History(AckWorld(w, id, t))
  {
    var led: Ledger :| Inv(w.b, led);
    OutstandingFacts(w.b, led, id);
    var b1 := DropRequeue(Acked(w.b, id), t);
    SettledHistory(w, b1, id, t, AckEvent(id, t));
    var w1 := World(b1, w.log + [AckEvent(id, t)]);
    if t in w.b.requeue {
      var x := w.b.requeue[t].id;
      if x !in w.b.evals - {id} {
        AcceptedHistory(w1, Ack(w.b, id, t).0, x);
      }
    }
  }

  lemma AckStepKeeps(w: World, id: ID, t: Token)
    requires RunInv(w)
    ensures RunInv(AckWorld(w, id, t))
  {
    AckConsistent(w.b, id, t);
    if Ack(w.b, id, t).1 == Done {
      AckHistory(w, id, t);
    } else {
      QuietKeeps(w, Ack(w.b, id, t).0);
    }
  }

  lemma NackHistory(w: World, id: ID, t: Token)
    requires History(w) && Nack(w.b, id, t).1 != NilScheduler
    ensures History(NackWorld(w, id, t))
  {
    var r := Nack(w.b, id, t);
    if r.1 == Done {
      SettledHistory(w, r.0, id, t, NackEvent(id, t));
    } else {
      QuietKeeps(w, r.0);
    }
  }

  lemma NackStepKeeps(w: World, id: ID, t: Token)
    requires RunInv(w)
    ensures RunInv(NackWorld(w, id, t))
  {
    NackConsistent(w.b, id, t);
    NackHistory(w, id, t);
  }

  lemma ArmStepKeeps(w: World, id: ID, armed: bool)
    requires RunInv(w) && id in w.b.unack
    ensures RunInv(w.(b := Arm(w.b, id, armed)))
  {
    ArmConsistent(w.b, id, armed);
    QuietKeeps(w, Arm(w.b, id, armed));
  }

  lemma TimerStepKeeps(w: World, s: Step)
    requires RunInv(w) && (s.NackTimerFires? || s.Pause? || s.Resume? || s.DoReset?)
    ensures RunInv(Next(w, s))
  {
    if s.id in w.b.unack {
      ArmStepKeeps(w, s.id, true);
      ArmStepKeeps(w, s.id, false);
    }
  }

  lemma NextKeeps(w: World, s: Step)
    requires RunInv(w) && Legal(w, s)
    ensures RunInv(Next(w, s))
  {
    match s
    case Enable =>
      SetEnabledConsistent(w.b, true);
      QuietKeeps(w, Next(w, s).b);
    case Disable =>
      SetEnabledConsistent(w.b, false);
      FlushedHistory(w, Next(w, s).b);
    case Offer(e, t) => OfferKeeps(w, e, t);
    case WaitOver(id) =>
      EnqueueWaitingConsistent(w.b, id);
      QuietKeeps(w, Next(w, s).b);
    case Deliver(qs, i, t) =>
      if w.b.enabled && Served(w.b, qs, i) {
        EligibleHasWork(w.b, qs);
        assert Eligible(w.b, qs)[i] in Eligible(w.b, qs);
        DeliverFromKeeps(w, Eligible(w.b, qs)[i], t);
      }
    case DoAck(id, t) => AckStepKeeps(w, id, t);
    case DoNack(id, t) => NackStepKeeps(w, id, t);
    case _ => TimerStepKeeps(w, s);
  }

  lemma StartKeeps(config: Config)
    requires config.deliveryLimit >= 1
    ensures RunInv(Start(config))
  {
    EmptyKeeps(New(config));
    assert forall id :: IdHistory(New(config), [], id);
    assert forall t :: TokenHistory(New(config), [], t);
  }

  lemma {:induction false} RunKeepsFrom(w: World, steps: seq<Step>)
    requires RunInv(w) && LegalRun(w, steps)
    ensures RunInv(After(w, steps))
  {
    if steps != [] {
      var prev := steps[..|steps| - 1];
      RunKeepsFrom(w, prev);
      NextKeeps(After(w, prev), steps[|steps| - 1]);
    }
  }

  // The broker's structures, counters and log agree after every run.
  lemma RunsKeepInvariant(config: Config, steps: seq<Step>)
    requires config.deliveryLimit >= 1 && LegalRun(Start(config), steps)
    ensures RunInv(After(Start(config), steps))
  {
    StartKeeps(config);
    RunKeepsFrom(Start(config), steps);
  }

  lemma {:induction false} ConfigIsFixed(config: Config, steps: seq<Step>)
    requires LegalRun(Start(config), steps)
    ensures After(Start(config), steps).b.config == config
  {
    if steps != [] {
      var prev := steps[..|steps| - 1];
      ConfigIsFixed(config, prev);
      NextConfig(After(Start(config), prev), steps[|steps| - 1]);
    }
  }

  lemma NextConfig(w: World, s: Step)
    requires Legal(w, s)
    ensures Next(w, s).b.config == w.b.config
  {
    match s
    case DoAck(id, t) => assert Ack(w.b, id, t).0.config == w.b.config;
    case DoNack(id, t) => assert Nack(w.b, id, t).0.config == w.b.config;
    case _ =>
  }

  ghost predicate Reaches(w: World, w': World) {
    exists steps :: LegalRun(w, steps) && After(w, steps) == w'
  }

  lemma ReachesSelf(w: World)
    ensures Reaches(w, w)
  {
    assert LegalRun(w, []) && After(w, []) == w;
  }

  lemma ReachesNext(w: World, w': World, s: Step)
    requires Reaches(w, w') && Legal(w', s)
    ensures Reaches(w, Next(w', s))
  {
    var steps :| LegalRun(w, steps) && After(w, steps) == w';
    RunExtends(w, steps, s);
  }

  lemma RunExtends(w: World, steps: seq<Step>, s: Step)
    requires LegalRun(w, steps) && Legal(After(w, steps), s)
    ensures LegalRun(w, steps + [s]) && After(w, steps + [s]) == Next(After(w, steps), s)
  {
    assert (steps + [s])[..|steps|] == steps;
  }

  // The states that some run reaches.
  ghost predicate Reachable(config: Config, w: World) {
    config.deliveryLimit >= 1 && Reaches(Start(config), w)
  }

  lemma ReachableKeeps(config: Config, w: World)
    requires Reachable(config, w)
    ensures RunInv(w) && w.b.config == config
  {
    var steps :| LegalRun(Start(config), steps) && After(Start(config), steps) == w;
    RunsKeepInvariant(config, steps);
    ConfigIsFixed(config, steps);
  }
}
