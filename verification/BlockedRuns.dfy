/**
 The blocked tracker and the broker together.

 Unblock records an index under the tracker's lock and sends the capacity update
 afterwards; a watcher receives it and takes the lock again to release evaluations
 into the broker.  Between these points an update is unsent, queued or being
 processed.  A run interleaves these steps with blocking, untracking, flushing and
 with every step of the broker.
 */
module BlockedRuns {
  import opened Evaluations
  import opened BlockedModel
  import opened BrokerSteps
  import B = BrokerRuns
  import BM = BrokerModel

  datatype System = System(
    t: Tracker,
    w: B.World,
    unsent: multiset<Update>,
    queue: seq<Update>,
    processing: multiset<Update>,
    accepted: set<Update>)

  datatype Step =
    | DoBlock(eval: Eval, token: Token)
    | DoUntrack(job: JobID)
    | DoUnblock(computedClass: Class, index: nat)
    | Send(update: Update)
    | Receive
    | Process(update: Update, batch: seq<(Eval, Token)>)
    | DoUnblockFailed(batch: seq<(Eval, Token)>)
    | TakeDuplicates
    | EnableTracker
    | DisableTracker(kept: multiset<Update>)
    | BrokerStep(step: B.Step)

  function Start(config: BM.Config): System {
    System(NEW_TRACKER, B.Start(config), multiset{}, [], multiset{}, {})
  }

  // A batch lists the released evaluations, each once, in some order.
  ghost predicate Lists(batch: seq<(Eval, Token)>, m: map<ID, Wrapped>) {
    && (forall i | 0 <= i < |batch| ::
          batch[i].0.id in m && m[batch[i].0.id] == Wrapped(batch[i].0, batch[i].1))
    && (forall i, j | 0 <= i < j < |batch| :: batch[i].0.id != batch[j].0.id)
    && (forall id | id in m :: (m[id].eval, m[id].token) in batch)
  }

  // EnqueueAll, with its log
  function OfferAll(w: B.World, batch: seq<(Eval, Token)>): (r: B.World)
    ensures r.b == BM.EnqueueAll(w.b, batch)
  {
    if batch == [] then w
    else
      var last := batch[|batch| - 1];
      B.OfferWorld(OfferAll(w, batch[..|batch| - 1]), last.0, last.1)
  }

  predicate Prompt(b: BM.Broker, e: Eval) {
    b.enabled || e.wait <= 0
  }

  ghost predicate ReleaseLegal(s: System, m: map<ID, Wrapped>, batch: seq<(Eval, Token)>) {
    Lists(batch, if s.t.enabled then m else map[]) && forall i | 0 <= i < |batch| :: Prompt(s.w.b, batch[i].0)
  }

  // What the environment guarantees: the broker's own conditions, evaluation IDs
  // that name one job, and Raft indexes that do not decrease.
  ghost predicate Legal(s: System, step: Step) {
    match step
    case DoBlock(e, _) => Acceptable(e) && SameJob(s.t, e) && Prompt(s.w.b, e)
    case DoUnblock(c, i) => c in s.t.unblockIndexes ==> s.t.unblockIndexes[c] <= i
    case Send(u) => u in s.unsent
    case Receive => s.queue != []
    case Process(u, batch) => u in s.processing && ReleaseLegal(s, Released(s.t, u.computedClass), batch)
    case DoUnblockFailed(batch) => ReleaseLegal(s, ReleasedFailed(s.t), batch)
    case DisableTracker(kept) => kept <= s.unsent
    case BrokerStep(x) => B.Legal(s.w, x)
    case _ => true
  }

  ghost function BlockNext(s: System, e: Eval, token: Token): System {
    s.(t := Block(s.t, e, token),
       w := if BlockVerdict(s.t, e) == Enqueued then B.OfferWorld(s.w, e, token) else s.w)
  }

  function UnblockNext(s: System, c: Class, i: nat): System {
    if !s.t.enabled then s
    else s.(t := Record(s.t, c, i), unsent := s.unsent + multiset{Update(c, i)},
            accepted := s.accepted + {Update(c, i)})
  }

  function ProcessNext(s: System, u: Update, batch: seq<(Eval, Token)>): System {
    s.(t := Unblock(s.t, u.computedClass), w := OfferAll(s.w, batch), processing := s.processing - multiset{u})
  }

  function FailedNext(s: System, batch: seq<(Eval, Token)>): System {
    s.(t := UnblockFailed(s.t), w := OfferAll(s.w, batch))
  }

  // Flush replaces the channel; a send that had already read the old one is lost.
  function DisableNext(s: System, kept: multiset<Update>): System {
    if s.t.enabled then s.(t := SetEnabled(s.t, false), queue := [], unsent := kept) else s
  }

  ghost function Next(s: System, step: Step): System
    requires Legal(s, step)
  {
    match step
    case DoBlock(e, token) => BlockNext(s, e, token)
    case DoUntrack(j) => s.(t := Untrack(s.t, j))
    case DoUnblock(c, i) => UnblockNext(s, c, i)
    case Send(u) => s.(unsent := s.unsent - multiset{u}, queue := s.queue + [u])
    case Receive => s.(queue := s.queue[1..], processing := s.processing + multiset{s.queue[0]})
    case Process(u, batch) => ProcessNext(s, u, batch)
    case DoUnblockFailed(batch) => FailedNext(s, batch)
    case TakeDuplicates => s.(t := s.t.(duplicates := []))
    case EnableTracker => s.(t := SetEnabled(s.t, true))
    case DisableTracker(kept) => DisableNext(s, kept)
    case BrokerStep(x) => s.(w := B.Next(s.w, x))
  }

  ghost predicate LegalRun(s: System, steps: seq<Step>)
    decreases |steps|, 0
  {
    steps == [] || (LegalRun(s, steps[..|steps| - 1]) && Legal(After(s, steps[..|steps| - 1]), steps[|steps| - 1]))
  }

  ghost function After(s: System, steps: seq<Step>): System
    requires LegalRun(s, steps)
    decreases |steps|, 1
  {
    if steps == [] then s
    else Next(After(s, steps[..|steps| - 1]), steps[|steps| - 1])
  }

  // Invariants

  predicate InFlight(s: System, u: Update) {
    u in s.unsent || u in s.queue || u in s.processing
  }

  ghost predicate PendingFor(s: System, c: Class) {
    exists u :: InFlight(s, u) && u.computedClass == c
  }

  // A tracked evaluation that missed the last unblock of class c has an update for
  // that class on its way.
  ghost predicate WakeOk(s: System, id: ID, c: Class) {
    id in Tracked(s.t) && c in s.t.unblockIndexes
    && Tracked(s.t)[id].eval.snapshotIndex < s.t.unblockIndexes[c] && Serves(Tracked(s.t)[id].eval, c)
    ==> PendingFor(s, c)
  }

  ghost predicate Awake(s: System) {
    forall id, c :: WakeOk(s, id, c)
  }

  ghost predicate Remembered(s: System) {
    forall u | u in s.accepted ::
      u.computedClass in s.t.unblockIndexes && u.index <= s.t.unblockIndexes[u.computedClass]
  }

  ghost predicate AllAcceptable(t: Tracker) {
    forall id | id in Tracked(t) :: Acceptable(Tracked(t)[id].eval)
  }

  // The tracker's part.
  ghost predicate Tracking(s: System) {
    Valid(s.t) && AllAcceptable(s.t) && Awake(s) && Remembered(s)
  }

  ghost predicate SysInv(s: System) {
    Tracking(s) && B.RunInv(s.w)
  }

  // Wakeups

  // Updates in flight stay in flight.
  lemma SameFlight(s: System, s': System, c: Class)
    requires PendingFor(s, c)
    requires forall u: Update | u.computedClass == c && InFlight(s, u) :: InFlight(s', u)
    ensures PendingFor(s', c)
  {
  }

  ghost predicate SameChannel(s: System, s': System) {
    s'.unsent == s.unsent && s'.queue == s.queue && s'.processing == s.processing
  }

  // An evaluation that starts being tracked has missed no unblock.
  lemma TrackAwake(s: System, s': System, e: Eval, token: Token)
    requires Awake(s) && !Missed(s.t.unblockIndexes, e)
    requires s'.t == Track(s.t, e, token) && SameChannel(s, s')
    ensures Awake(s')
  {
    forall id, c ensures WakeOk(s', id, c) {
      assert WakeOk(s, id, c);
      if PendingFor(s, c) {
        SameFlight(s, s', c);
      }
    }
  }

  lemma RecordAwake(s: System, s': System, c: Class, i: nat)
    requires Awake(s) && s.t.enabled
    requires s'.t == Record(s.t, c, i) && s'.unsent == s.unsent + multiset{Update(c, i)}
    requires s'.queue == s.queue && s'.processing == s.processing
    ensures Awake(s')
  {
    forall id, d ensures WakeOk(s', id, d) {
      assert WakeOk(s, id, d);
      if PendingFor(s, d) {
        SameFlight(s, s', d);
      }
      if d == c {
        assert InFlight(s', Update(c, i));
      }
    }
  }

  // Sending and receiving move an update along.
  lemma ChannelAwake(s: System, s': System)
    requires Awake(s) && s'.t == s.t
    requires forall u | InFlight(s, u) :: InFlight(s', u)
    ensures Awake(s')
  {
    forall id, c ensures WakeOk(s', id, c) {
      assert WakeOk(s, id, c);
      if PendingFor(s, c) {
        SameFlight(s, s', c);
      }
    }
  }

  // After an update for class c, the evaluations still tracked have marked c ineligible.
  lemma ProcessAwake(s: System, s': System, u: Update)
    requires Awake(s) && s.t.captured.Keys !! s.t.escaped.Keys && Shrinks(s.t, s'.t)
    requires forall id | id in Tracked(s'.t) :: !Serves(Tracked(s'.t)[id].eval, u.computedClass)
    requires s'.unsent == s.unsent && s'.queue == s.queue && s'.processing == s.processing - multiset{u}
    ensures Awake(s')
  {
    forall id, c ensures WakeOk(s', id, c) {
      assert WakeOk(s, id, c);
      if id in Tracked(s'.t) && c != u.computedClass {
        ShrunkTracked(s.t, s'.t, id);
        if PendingFor(s, c) {
          SameFlight(s, s', c);
        }
      }
    }
  }

  // Steps that only stop tracking, or do not touch the tracker.
  lemma ShrinkAwake(s: System, s': System)
    requires Awake(s) && s.t.captured.Keys !! s.t.escaped.Keys && Shrinks(s.t, s'.t) && SameChannel(s, s')
    ensures Awake(s')
  {
    forall id, c ensures WakeOk(s', id, c) {
      assert WakeOk(s, id, c);
      if id in Tracked(s'.t) {
        ShrunkTracked(s.t, s'.t, id);
        if PendingFor(s, c) {
          SameFlight(s, s', c);
        }
      }
    }
  }

  lemma ShrinkAcceptable(t: Tracker, t': Tracker)
    requires AllAcceptable(t) && t.captured.Keys !! t.escaped.Keys && Shrinks(t, t')
    ensures AllAcceptable(t')
  {
    forall id | id in Tracked(t') ensures Acceptable(Tracked(t')[id].eval) {
      ShrunkTracked(t, t', id);
    }
  }

  lemma EmptyAwake(s: System)
    requires Tracked(s.t) == map[]
    ensures Awake(s)
  {
  }

  // The broker's side

  lemma {:induction false} OfferAllKeeps(w: B.World, batch: seq<(Eval, Token)>)
    requires B.RunInv(w) && forall i | 0 <= i < |batch| :: Acceptable(batch[i].0) && Prompt(w.b, batch[i].0)
    ensures B.RunInv(OfferAll(w, batch)) && OfferAll(w, batch).b.enabled == w.b.enabled
  {
    if batch != [] {
      var n := |batch| - 1;
      var last := batch[n];
      assert last == batch[n];
      OfferAllKeeps(w, batch[..n]);
      B.OfferKeeps(OfferAll(w, batch[..n]), last.0, last.1);
    }
  }

  // Every released evaluation is known to the enabled broker afterwards.
  lemma {:induction false} OfferAllKnown(w: B.World, batch: seq<(Eval, Token)>, i: nat)
    requires i < |batch| && w.b.enabled
    ensures OfferAll(w, batch).b.enabled
    ensures batch[i].0.id in OfferAll(w, batch).b.evals
  {
    OfferAllGrows(w, batch[..|batch| - 1]);
    if i < |batch| - 1 {
      OfferAllKnown(w, batch[..|batch| - 1], i);
    }
  }

  lemma {:induction false} OfferAllGrows(w: B.World, batch: seq<(Eval, Token)>)
    ensures OfferAll(w, batch).b.enabled == w.b.enabled && OfferAll(w, batch).b.unack == w.b.unack
    ensures w.b.evals.Keys <= OfferAll(w, batch).b.evals.Keys
  {
    if batch != [] {
      OfferAllGrows(w, batch[..|batch| - 1]);
    }
  }

  // Every step, on the tracker

  lemma BlockTracking(s: System, e: Eval, token: Token)
    requires Tracking(s) && Acceptable(e) && SameJob(s.t, e)
    ensures Tracking(BlockNext(s, e, token))
  {
    var s' := BlockNext(s, e, token);
    BlockKeeps(s.t, e, token);
    if BlockVerdict(s.t, e) == Retained {
      TrackAwake(s, s', e, token);
      TrackAcceptable(s.t, e, token);
    } else {
      ShrinkAwake(s, s');
      ShrinkAcceptable(s.t, s'.t);
    }
  }

  lemma TrackAcceptable(t: Tracker, e: Eval, token: Token)
    requires AllAcceptable(t) && Acceptable(e)
    ensures AllAcceptable(Track(t, e, token))
  {
    var t' := Track(t, e, token);
    forall id | id in Tracked(t') ensures Acceptable(Tracked(t')[id].eval) {
      assert Tracked(t')[id].eval == e || (id in Tracked(t) && Tracked(t')[id] == Tracked(t)[id]);
    }
  }

  lemma UnblockTracking(s: System, c: Class, i: nat)
    requires Tracking(s) && Legal(s, DoUnblock(c, i))
    ensures Tracking(UnblockNext(s, c, i))
  {
    if s.t.enabled {
      var s' := UnblockNext(s, c, i);
      RecordAwake(s, s', c, i);
      RecordRemembers(s, s', c, i);
      SameTracked(s.t, s'.t);
    }
  }

  lemma RecordRemembers(s: System, s': System, c: Class, i: nat)
    requires Remembered(s) && (c in s.t.unblockIndexes ==> s.t.unblockIndexes[c] <= i)
    requires s'.t.unblockIndexes == s.t.unblockIndexes[c := i] && s'.accepted == s.accepted + {Update(c, i)}
    ensures Remembered(s')
  {
  }

  lemma SameTracked(t: Tracker, t': Tracker)
    requires Valid(t) && (t'.enabled || !t.enabled)
    requires t'.captured == t.captured && t'.escaped == t.escaped && t'.jobs == t.jobs
    requires t'.totalBlocked == t.totalBlocked && t'.totalEscaped == t.totalEscaped
    ensures Valid(t') && (AllAcceptable(t) ==> AllAcceptable(t'))
  {
    assert Tracked(t') == Tracked(t);
    forall j ensures JobOk(t', j) {
      assert JobOk(t, j);
    }
  }

  lemma ProcessTracking(s: System, u: Update, batch: seq<(Eval, Token)>)
    requires Tracking(s)
    ensures Tracking(ProcessNext(s, u, batch))
  {
    var s' := ProcessNext(s, u, batch);
    UnblockKeeps(s.t, u.computedClass);
    UnblockShrinks(s.t, u.computedClass);
    NoneLeft(s.t, u.computedClass);
    ProcessAwake(s, s', u);
    ShrinkAcceptable(s.t, s'.t);
  }

  lemma NoneLeft(t: Tracker, c: Class)
    requires Valid(t)
    ensures forall id | id in Tracked(Unblock(t, c)) :: !Serves(Tracked(Unblock(t, c))[id].eval, c)
  {
    UnblockShrinks(t, c);
    forall id | id in Tracked(Unblock(t, c)) ensures !Serves(Tracked(Unblock(t, c))[id].eval, c) {
      assert HoldsOk(t.captured, false, t.jobs, id);
    }
  }

  lemma FailedTracking(s: System, batch: seq<(Eval, Token)>)
    requires Tracking(s)
    ensures Tracking(FailedNext(s, batch))
  {
    var s' := FailedNext(s, batch);
    UnblockFailedKeeps(s.t);
    UnblockFailedShrinks(s.t);
    ShrinkAwake(s, s');
    ShrinkAcceptable(s.t, s'.t);
  }

  lemma UntrackTracking(s: System, j: JobID)
    requires Tracking(s)
    ensures Tracking(s.(t := Untrack(s.t, j)))
  {
    var s' := s.(t := Untrack(s.t, j));
    UntrackKeeps(s.t, j);
    UntrackShrinks(s.t, j);
    ShrinkAwake(s, s');
    ShrinkAcceptable(s.t, s'.t);
  }

  lemma DisableTracking(s: System, kept: multiset<Update>)
    requires Tracking(s)
    ensures Tracking(DisableNext(s, kept))
  {
  }

  lemma SendTracking(s: System, u: Update)
    requires Tracking(s) && u in s.unsent
    ensures Tracking(s.(unsent := s.unsent - multiset{u}, queue := s.queue + [u]))
  {
    ChannelAwake(s, s.(unsent := s.unsent - multiset{u}, queue := s.queue + [u]));
  }

  lemma ReceiveTracking(s: System)
    requires Tracking(s) && s.queue != []
    ensures Tracking(s.(queue := s.queue[1..], processing := s.processing + multiset{s.queue[0]}))
  {
    assert s.queue == [s.queue[0]] + s.queue[1..];
    ChannelAwake(s, s.(queue := s.queue[1..], processing := s.processing + multiset{s.queue[0]}));
  }

  lemma QuietTracking(s: System, t': Tracker, w': B.World)
    requires Tracking(s) && (t'.enabled || !s.t.enabled)
    requires t' == s.t.(enabled := t'.enabled, duplicates := t'.duplicates)
    ensures Tracking(s.(t := t', w := w'))
  {
    SameTracked(s.t, t');
    ShrinkAwake(s, s.(t := t', w := w'));
  }

  lemma NextTracking(s: System, step: Step)
    requires Tracking(s) && Legal(s, step)
    ensures Tracking(Next(s, step))
  {
    match step
    case DoBlock(e, token) => BlockTracking(s, e, token);
    case DoUntrack(j) => UntrackTracking(s, j);
    case DoUnblock(c, i) => UnblockTracking(s, c, i);
    case Send(u) => SendTracking(s, u);
    case Receive => ReceiveTracking(s);
    case Process(u, batch) => ProcessTracking(s, u, batch);
    case DoUnblockFailed(batch) => FailedTracking(s, batch);
    case TakeDuplicates => QuietTracking(s, s.t.(duplicates := []), s.w);
    case EnableTracker => QuietTracking(s, SetEnabled(s.t, true), s.w);
    case DisableTracker(kept) => DisableTracking(s, kept);
    case BrokerStep(x) => QuietTracking(s, s.t, B.Next(s.w, x));
  }

  // Every step, on the broker

  lemma PartOfTracked(t: Tracker, cs: set<ID>, es: set<ID>)
    requires t.captured.Keys !! t.escaped.Keys
    ensures forall id | id in Part(t, cs, es) :: id in Tracked(t) && Part(t, cs, es)[id] == Tracked(t)[id]
  {
  }

  lemma BatchAcceptable(s: System, cs: set<ID>, es: set<ID>, batch: seq<(Eval, Token)>)
    requires Valid(s.t) && AllAcceptable(s.t) && ReleaseLegal(s, Part(s.t, cs, es), batch)
    ensures forall i | 0 <= i < |batch| :: Acceptable(batch[i].0) && Prompt(s.w.b, batch[i].0)
  {
    PartOfTracked(s.t, cs, es);
    forall i | 0 <= i < |batch| ensures Acceptable(batch[i].0) {
      assert batch[i].0.id in Tracked(s.t);
    }
  }

  lemma NextBroker(s: System, step: Step)
    requires Tracking(s) && B.RunInv(s.w) && Legal(s, step)
    ensures B.RunInv(Next(s, step).w)
  {
    match step
    case DoBlock(e, token) =>
      B.OfferKeeps(s.w, e, token);
    case Process(u, batch) =>
      BatchAcceptable(s, Eligibles(s.t.captured, u.computedClass), s.t.escaped.Keys, batch);
      OfferAllKeeps(s.w, batch);
    case DoUnblockFailed(batch) =>
      BatchAcceptable(s, FailedIn(s.t.captured), FailedIn(s.t.escaped), batch);
      OfferAllKeeps(s.w, batch);
    case BrokerStep(x) =>
      B.NextKeeps(s.w, x);
    case _ =>
  }

  lemma {:induction false} RunKeepsFrom(s: System, steps: seq<Step>)
    requires SysInv(s) && LegalRun(s, steps)
    ensures SysInv(After(s, steps))
  {
    if steps != [] {
      var prev := steps[..|steps| - 1];
      RunKeepsFrom(s, prev);
      NextTracking(After(s, prev), steps[|steps| - 1]);
      NextBroker(After(s, prev), steps[|steps| - 1]);
    }
  }

  lemma RunsKeepInvariant(config: BM.Config, steps: seq<Step>)
    requires config.deliveryLimit >= 1 && LegalRun(Start(config), steps)
    ensures SysInv(After(Start(config), steps))
  {
    B.StartKeeps(config);
    EmptyAwake(Start(config));
    RunKeepsFrom(Start(config), steps);
  }

  ghost predicate Reaches(s: System, s': System) {
    exists steps :: LegalRun(s, steps) && After(s, steps) == s'
  }

  lemma ReachesSelf(s: System)
    ensures Reaches(s, s)
  {
    assert LegalRun(s, []) && After(s, []) == s;
  }

  lemma ReachesNext(s: System, s': System, step: Step)
    requires Reaches(s, s') && Legal(s', step)
    ensures Reaches(s, Next(s', step))
  {
    var steps :| LegalRun(s, steps) && After(s, steps) == s';
    RunExtends(s, steps, step);
  }

  lemma RunExtends(s: System, steps: seq<Step>, step: Step)
    requires LegalRun(s, steps) && Legal(After(s, steps), step)
    ensures LegalRun(s, steps + [step]) && After(s, steps + [step]) == Next(After(s, steps), step)
  {
    assert (steps + [step])[..|steps|] == steps;
  }

  // What the broker reaches, it reaches in the system.
  lemma {:induction false} BrokerReaches(s: System, steps: seq<B.Step>)
    requires B.LegalRun(s.w, steps)
    ensures Reaches(s, s.(w := B.After(s.w, steps)))
  {
    if steps == [] {
      ReachesSelf(s);
    } else {
      var prev := steps[..|steps| - 1];
      BrokerReaches(s, prev);
      ReachesNext(s, s.(w := B.After(s.w, prev)), BrokerStep(steps[|steps| - 1]));
    }
  }

  // The states that some run reaches.
  ghost predicate Reachable(config: BM.Config, s: System) {
    config.deliveryLimit >= 1 && Reaches(Start(config), s)
  }

  lemma ReachableKeeps(config: BM.Config, s: System)
    requires Reachable(config, s)
    ensures SysInv(s)
  {
    var steps :| LegalRun(Start(config), steps) && After(Start(config), steps) == s;
    RunsKeepInvariant(config, steps);
  }

  lemma ListsOneMore(batch: seq<(Eval, Token)>, m: map<ID, Wrapped>, e: Eval, token: Token)
    requires Lists(batch, m) && e.id !in m
    ensures Lists(batch + [(e, token)], m[e.id := Wrapped(e, token)])
  {
  }
}
