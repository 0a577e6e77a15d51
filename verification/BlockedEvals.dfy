/**
 The blocked tracker as an object that updates its maps and counters and enqueues
 into a broker, each method proved to take the step of the state machine.
 */
module BlockedEvalsObject {
  import opened Evaluations
  import opened BlockedModel
  import opened BlockedRuns
  import opened BrokerSteps
  import opened EvalBrokerObject
  import opened Sums
  import BM = BrokerModel
  import T = BlockedTheorems

  // Each evaluation is stored under its own ID.
  ghost predicate Keyed(m: map<ID, Wrapped>) {
    forall id | id in m :: m[id].eval.id == id
  }

  lemma ListsInit(batch: seq<(Eval, Token)>, m: map<ID, Wrapped>)
    requires batch != [] && Lists(batch, m) && Keyed(m)
    ensures var n := |batch| - 1; Lists(batch[..n], m - {batch[n].0.id})
  {
  }

  // A batch that lists a map has its size.
  lemma {:induction false} ListsLength(batch: seq<(Eval, Token)>, m: map<ID, Wrapped>)
    requires Lists(batch, m) && Keyed(m)
    ensures |batch| == |m|
  {
    if batch == [] {
      assert m.Keys == {};
    } else {
      var id := batch[|batch| - 1].0.id;
      ListsInit(batch, m);
      ListsLength(batch[..|batch| - 1], m - {id});
      CardRemove(m, id);
    }
  }

  // Two lists of disjoint parts, one after the other.
  lemma ListsBoth(a: seq<(Eval, Token)>, m: map<ID, Wrapped>, b: seq<(Eval, Token)>, n: map<ID, Wrapped>)
    requires Lists(a, m) && Lists(b, n) && m.Keys !! n.Keys
    ensures Lists(a + b, n + m)
  {
  }

  function Selected(m: map<ID, Wrapped>, p: Eval -> bool): set<ID> {
    set id | id in m && p(m[id].eval)
  }

  // r is m without the keys ks.
  ghost predicate Without<V>(r: map<string, V>, m: map<string, V>, ks: set<string>) {
    && (forall k :: k in r <==> k in m && k !in ks)
    && (forall k | k in r :: r[k] == m[k])
  }

  lemma WithoutOneMore<V>(r: map<string, V>, m: map<string, V>, ks: set<string>, k: string)
    requires Without(r, m, ks)
    ensures Without(r - {k}, m, ks + {k})
  {
  }

  // Where a pass stands that has taken out the given evaluations.
  ghost predicate Passed(m: map<ID, Wrapped>, jobs: map<JobID, ID>, taken: map<ID, Wrapped>,
                         rest: map<ID, Wrapped>, jobs': map<JobID, ID>, batch: seq<(Eval, Token)>) {
    && (forall id | id in taken :: id in m && taken[id] == m[id])
    && Lists(batch, taken)
    && Without(rest, m, taken.Keys)
    && Without(jobs', jobs, JobsOf(taken))
  }

  lemma PassedOneMore(m: map<ID, Wrapped>, jobs: map<JobID, ID>, taken: map<ID, Wrapped>,
                      rest: map<ID, Wrapped>, jobs': map<JobID, ID>, batch: seq<(Eval, Token)>, id: ID)
    requires Passed(m, jobs, taken, rest, jobs', batch)
    requires id in m && m[id].eval.id == id && id !in taken
    ensures Passed(m, jobs, taken[id := m[id]], rest - {id}, jobs' - {m[id].eval.jobID},
                   batch + [(m[id].eval, m[id].token)])
  {
    ListsOneMore(batch, taken, m[id].eval, m[id].token);
    JobsOfInsert(taken, id, m[id]);
    WithoutOneMore(rest, m, taken.Keys, id);
    WithoutOneMore(jobs', jobs, JobsOf(taken), m[id].eval.jobID);
    assert taken[id := m[id]].Keys == taken.Keys + {id};
  }

  lemma PassedAll(m: map<ID, Wrapped>, jobs: map<JobID, ID>, taken: map<ID, Wrapped>,
                  rest: map<ID, Wrapped>, jobs': map<JobID, ID>, batch: seq<(Eval, Token)>, ids: set<ID>)
    requires Passed(m, jobs, taken, rest, jobs', batch) && taken.Keys == ids
    ensures taken == Restrict(m, ids) && rest == m - ids && jobs' == jobs - JobsOf(taken)
  {
  }

  // One pass over a map of tracked evaluations that takes out those selected by p.
  method ReleaseWhere(m: map<ID, Wrapped>, jobs: map<JobID, ID>, p: Eval -> bool)
    returns (rest: map<ID, Wrapped>, jobs': map<JobID, ID>, batch: seq<(Eval, Token)>)
    requires Keyed(m)
    ensures rest == m - Selected(m, p)
    ensures jobs' == jobs - JobsOf(Restrict(m, Selected(m, p)))
    ensures Lists(batch, Restrict(m, Selected(m, p)))
  {
    rest, jobs', batch := m, jobs, [];
    var todo := m.Keys;
    ghost var taken: map<ID, Wrapped> := map[];
    while todo != {}
      invariant todo <= m.Keys && taken.Keys == Selected(m, p) - todo
      invariant Passed(m, jobs, taken, rest, jobs', batch)
      decreases todo
    {
      var id :| id in todo;
      var w := m[id];
      if p(w.eval) {
        PassedOneMore(m, jobs, taken, rest, jobs', batch, id);
        batch := batch + [(w.eval, w.token)];
        jobs' := jobs' - {w.eval.jobID};
        rest := rest - {id};
        taken := taken[id := w];
      }
      todo := todo - {id};
    }
    PassedAll(m, jobs, taken, rest, jobs', batch, Selected(m, p));
  }

  lemma MergeCommutes(m: map<ID, Wrapped>, n: map<ID, Wrapped>)
    requires m.Keys !! n.Keys
    ensures m + n == n + m
  {
  }

  lemma PartKeyed(t: Tracker, cs: set<ID>, es: set<ID>)
    requires Keyed(t.captured) && Keyed(t.escaped)
    ensures Keyed(Part(t, cs, es))
  {
  }

  lemma SelectedIs(m: map<ID, Wrapped>, p: Eval -> bool, ids: set<ID>)
    requires ids <= m.Keys && forall id | id in m :: p(m[id].eval) <==> id in ids
    ensures Selected(m, p) == ids
  {
  }

  lemma RestrictLists(m: map<ID, Wrapped>, ids: set<ID>, batch: seq<(Eval, Token)>)
    requires Keyed(m) && ids <= m.Keys && Lists(batch, Restrict(m, ids))
    ensures |batch| == |ids|
  {
    ListsLength(batch, Restrict(m, ids));
    assert Restrict(m, ids).Keys == ids;
  }

  // Two passes over disjoint maps list their union.
  lemma BothLists(m: map<ID, Wrapped>, n: map<ID, Wrapped>, a: seq<(Eval, Token)>, b: seq<(Eval, Token)>)
    requires Lists(a, m) && Lists(b, n) && m.Keys !! n.Keys
    requires Keyed(m + n)
    ensures Lists(a + b, m + n)
    ensures |a + b| == |m + n|
  {
    MergeCommutes(m, n);
    ListsBoth(a, m, b, n);
    ListsLength(a + b, m + n);
  }

  // Both passes of a release.
  lemma PartLists(t: Tracker, cs: set<ID>, es: set<ID>, a: seq<(Eval, Token)>, b: seq<(Eval, Token)>)
    requires t.captured.Keys !! t.escaped.Keys
    requires Keyed(Part(t, cs, es))
    requires Lists(a, Restrict(t.captured, cs)) && Lists(b, Restrict(t.escaped, es))
    ensures Lists(a + b, Part(t, cs, es))
    ensures |a + b| == |Part(t, cs, es)|
  {
    BothLists(Restrict(t.captured, cs), Restrict(t.escaped, es), a, b);
  }

  // The job map after both passes.
  lemma PartJobs(t: Tracker, cs: set<ID>, es: set<ID>)
    requires t.captured.Keys !! t.escaped.Keys
    ensures t.jobs - JobsOf(Part(t, cs, es))
         == t.jobs - JobsOf(Restrict(t.captured, cs)) - JobsOf(Restrict(t.escaped, es))
  {
  }

  // What is tracked can be enqueued at any time.
  ghost predicate AllReady(t: Tracker, brokerEnabled: bool) {
    forall id :: ReadyIn(t.captured, id, brokerEnabled) && ReadyIn(t.escaped, id, brokerEnabled)
  }

  ghost predicate ReadyIn(m: map<ID, Wrapped>, id: ID, brokerEnabled: bool) {
    id in m ==> Acceptable(m[id].eval) && (brokerEnabled || m[id].eval.wait <= 0)
  }

  lemma ReleaseReady(t: Tracker, cs: set<ID>, es: set<ID>, n: int, on: bool)
    requires AllReady(t, on)
    ensures AllReady(Release(t, cs, es, n), on)
  {
    var t' := Release(t, cs, es, n);
    forall id ensures ReadyIn(t'.captured, id, on) && ReadyIn(t'.escaped, id, on) {
      assert ReadyIn(t.captured, id, on) && ReadyIn(t.escaped, id, on);
    }
  }

  lemma BatchReady(t: Tracker, cs: set<ID>, es: set<ID>, on: bool, batch: seq<(Eval, Token)>)
    requires AllReady(t, on) && Lists(batch, Part(t, cs, es))
    ensures Enqueueable(on, batch)
  {
    forall i | 0 <= i < |batch| ensures Acceptable(batch[i].0) && (on || batch[i].0.wait <= 0) {
      var id := batch[i].0.id;
      assert ReadyIn(t.captured, id, on) && ReadyIn(t.escaped, id, on);
    }
  }

  // The tracker and its broker.
  ghost predicate Sound(t: Tracker, b: BM.Broker) {
    Valid(t) && Consistent(b) && AllReady(t, b.enabled)
  }

  lemma KeyedParts(t: Tracker)
    requires Valid(t)
    ensures Keyed(t.captured) && Keyed(t.escaped)
  {
    forall id ensures (id in t.captured ==> t.captured[id].eval.id == id)
      && (id in t.escaped ==> t.escaped[id].eval.id == id)
    {
      assert HoldsOk(t.captured, false, t.jobs, id) && HoldsOk(t.escaped, true, t.jobs, id);
    }
  }

  lemma BlockReady(t: Tracker, e: Eval, token: Token, on: bool)
    requires AllReady(t, on) && Acceptable(e) && (on || e.wait <= 0)
    ensures AllReady(Block(t, e, token), on)
  {
    var t' := Block(t, e, token);
    forall id ensures ReadyIn(t'.captured, id, on) && ReadyIn(t'.escaped, id, on) {
      assert ReadyIn(t.captured, id, on) && ReadyIn(t.escaped, id, on);
    }
  }

  lemma BlockSound(t: Tracker, b: BM.Broker, e: Eval, token: Token)
    requires Sound(t, b) && Acceptable(e) && SameJob(t, e) && Prompt(b, e)
    ensures Sound(Block(t, e, token), b) && Sound(t, BM.ProcessEnqueue(b, e, token))
  {
    BlockKeeps(t, e, token);
    BlockReady(t, e, token, b.enabled);
    ProcessEnqueueConsistent(b, e, token);
  }

  // A change that touches neither evaluations nor counters.
  lemma SameReady(t: Tracker, t': Tracker, on: bool)
    requires AllReady(t, on) && t'.captured == t.captured && t'.escaped == t.escaped
    ensures AllReady(t', on)
  {
  }

  lemma SameSound(t: Tracker, t': Tracker, b: BM.Broker)
    requires Sound(t, b)
    requires t' == t.(unblockIndexes := t'.unblockIndexes, duplicates := t'.duplicates, enabled := t.enabled || t'.enabled)
    ensures Sound(t', b)
  {
    SameReady(t, t', b.enabled);
    forall j ensures JobOk(t', j) {
      assert JobOk(t, j);
    }
  }

  lemma UntrackSound(t: Tracker, b: BM.Broker, job: JobID)
    requires Sound(t, b)
    ensures Sound(Untrack(t, job), b)
  {
    UntrackKeeps(t, job);
    var t', on := Untrack(t, job), b.enabled;
    forall id ensures ReadyIn(t'.captured, id, on) && ReadyIn(t'.escaped, id, on) {
      assert ReadyIn(t.captured, id, on) && ReadyIn(t.escaped, id, on);
    }
  }

  lemma UnblockSound(t: Tracker, b: BM.Broker, c: Class, batch: seq<(Eval, Token)>)
    requires Sound(t, b) && t.enabled && Lists(batch, Released(t, c))
    ensures Sound(Unblock(t, c), b) && Enqueueable(b.enabled, batch)
  {
    UnblockKeeps(t, c);
    var cs, es := Eligibles(t.captured, c), t.escaped.Keys;
    ReleaseReady(t, cs, es, Unblock(t, c).totalEscaped, b.enabled);
    BatchReady(t, cs, es, b.enabled, batch);
  }

  lemma UnblockFailedSound(t: Tracker, b: BM.Broker, batch: seq<(Eval, Token)>)
    requires Sound(t, b) && t.enabled && Lists(batch, ReleasedFailed(t))
    ensures Sound(UnblockFailed(t), b) && Enqueueable(b.enabled, batch)
  {
    UnblockFailedKeeps(t);
    var cs, es := FailedIn(t.captured), FailedIn(t.escaped);
    ReleaseReady(t, cs, es, UnblockFailed(t).totalEscaped, b.enabled);
    BatchReady(t, cs, es, b.enabled, batch);
  }

  // A state with the fields of a release.
  lemma ReleaseIs(t: Tracker, cs: set<ID>, es: set<ID>, t': Tracker)
    requires t'.captured == t.captured - cs && t'.escaped == t.escaped - es
    requires t'.jobs == t.jobs - JobsOf(Part(t, cs, es)) && t'.totalBlocked == t.totalBlocked - |Part(t, cs, es)|
    requires SameOutside(t, t')
    ensures t' == Release(t, cs, es, t'.totalEscaped)
  {
  }

  // A release leaves the switch, the indexes and the duplicates alone.
  predicate SameOutside(t: Tracker, t': Tracker) {
    t'.enabled == t.enabled && t'.unblockIndexes == t.unblockIndexes && t'.duplicates == t.duplicates
  }

  // Take out the captured evaluations selected by p and the escaped ones selected
  // by q.
  method ReleaseBoth(t: Tracker, p: Eval -> bool, q: Eval -> bool, ghost cs: set<ID>, ghost es: set<ID>)
    returns (t': Tracker, unblocked: seq<(Eval, Token)>, numEscaped: nat)
    requires Keyed(t.captured) && Keyed(t.escaped) && t.captured.Keys !! t.escaped.Keys
    requires Selected(t.captured, p) == cs && Selected(t.escaped, q) == es
    ensures t' == Release(t, cs, es, t.totalEscaped) && SameOutside(t, t')
    ensures Lists(unblocked, Part(t, cs, es)) && |unblocked| == |Part(t, cs, es)|
    ensures numEscaped == |es|
  {
    var captured, js, first := ReleaseWhere(t.captured, t.jobs, p);
    var escaped, jobs, second := ReleaseWhere(t.escaped, js, q);
    RestrictLists(t.escaped, es, second);
    PartKeyed(t, cs, es);
    PartLists(t, cs, es, first, second);
    PartJobs(t, cs, es);
    unblocked, numEscaped := first + second, |second|;
    t' := t.(captured := captured, escaped := escaped, jobs := jobs, totalBlocked := t.totalBlocked - |unblocked|);
    ReleaseIs(t, cs, es, t');
  }

  lemma ReleaseTotal(t: Tracker, cs: set<ID>, es: set<ID>, m: int, n: int)
    ensures Release(t, cs, es, m).(totalEscaped := n) == Release(t, cs, es, n)
  {
  }

  lemma ReleaseOfFailed(t: Tracker, cs: set<ID>, es: set<ID>)
    requires t.enabled && cs == FailedIn(t.captured) && es == FailedIn(t.escaped)
    ensures Release(t, cs, es, t.totalEscaped).(totalEscaped := t.totalEscaped - |es|) == UnblockFailed(t)
  {
    ReleaseTotal(t, cs, es, t.totalEscaped, t.totalEscaped - |es|);
  }

  class BlockedEvals {
    const evalBroker: EvalBroker
    var enabled: bool
    var captured: map<ID, Wrapped>
    var escaped: map<ID, Wrapped>
    var jobs: map<JobID, ID>
    var unblockIndexes: map<Class, nat>
    var duplicates: seq<Eval>
    var totalEscaped: int
    var totalBlocked: int

    function State(): Tracker
      reads this
    {
      Tracker(enabled, captured, escaped, jobs, unblockIndexes, duplicates, totalEscaped, totalBlocked)
    }

    ghost predicate Valid()
      reads this, evalBroker
    {
      Sound(State(), evalBroker.State())
    }

    constructor (evalBroker: EvalBroker)
      requires evalBroker.Valid()
      ensures this.evalBroker == evalBroker && State() == NEW_TRACKER && Valid()
    {
      this.evalBroker := evalBroker;
      enabled := false;
      captured, escaped, jobs, unblockIndexes := map[], map[], map[], map[];
      duplicates, totalEscaped, totalBlocked := [], 0, 0;
    }

    // The loop returns early on a class that serves the evaluation, and otherwise
    // compares an escaped evaluation with the highest index of all.
    method MissedUnblock(e: Eval) returns (missed: bool)
      ensures missed <==>
        exists c :: c in unblockIndexes && e.snapshotIndex < unblockIndexes[c]
          && (e.escaped || c !in e.eligibility || e.eligibility[c])
    {
      var max := 0;
      var todo := unblockIndexes.Keys;
      while todo != {}
        invariant todo <= unblockIndexes.Keys
        invariant forall c | c in unblockIndexes.Keys - todo ::
          unblockIndexes[c] <= max
          && (e.snapshotIndex < unblockIndexes[c] ==> c in e.eligibility && !e.eligibility[c])
        invariant max == 0 || exists c :: c in unblockIndexes && unblockIndexes[c] == max
        decreases todo
      {
        var c :| c in todo;
        var index := unblockIndexes[c];
        if max < index {
          max := index;
        }
        var ok := c in e.eligibility;
        if !ok && e.snapshotIndex < index {
          return true;
        }
        if ok && e.eligibility[c] && e.snapshotIndex < index {
          return true;
        }
        todo := todo - {c};
      }
      return e.escaped && e.snapshotIndex < max;
    }

    // Mark the job as tracked and store the evaluation.
    method StartTracking(e: Eval, token: Token)
      modifies this
      ensures State() == Track(old(State()), e, token)
    {
      totalBlocked := totalBlocked + 1;
      jobs := jobs[e.jobID := e.id];
      var wrapped := Wrapped(e, token);
      if e.escaped {
        escaped := escaped[e.id := wrapped];
        totalEscaped := totalEscaped + 1;
        return;
      }
      captured := captured[e.id := wrapped];
    }

    // The tracker's part of blocking; a missed unblock is left to the caller.
    method Admit(e: Eval, token: Token) returns (missed: bool)
      modifies this
      ensures State() == Block(old(State()), e, token)
      ensures missed <==> old(BlockVerdict(State(), e)) == Enqueued
    {
      if !enabled {
        return false;
      }
      if e.jobID in jobs {
        duplicates := duplicates + [e];
        return false;
      }
      missed := MissedUnblock(e);
      T.BlockGoesTo(State(), e, token);
      if !missed {
        StartTracking(e, token);
      }
    }

    method ProcessBlock(e: Eval, token: Token)
      requires Valid()
      modifies this, evalBroker
      ensures State() == Block(old(State()), e, token)
      ensures evalBroker.State() == if old(BlockVerdict(State(), e)) == Enqueued
        then BM.ProcessEnqueue(old(evalBroker.State()), e, token) else old(evalBroker.State())
      ensures Acceptable(e) && old(SameJob(State(), e) && Prompt(evalBroker.State(), e)) ==> Valid()
    {
      ghost var t, b := State(), evalBroker.State();
      var missed := Admit(e, token);
      if missed {
        EnqueueOne(e, token);
      }
      if Acceptable(e) && SameJob(t, e) && Prompt(b, e) {
        BlockSound(t, b, e, token);
      }
    }

    method EnqueueOne(e: Eval, token: Token)
      modifies evalBroker
      ensures evalBroker.State() == BM.ProcessEnqueue(old(evalBroker.State()), e, token)
    {
      var batch := [(e, token)];
      evalBroker.EnqueueAll(batch);
      assert batch[..0] == [];
    }

    method EnqueueUnblocked(batch: seq<(Eval, Token)>)
      requires evalBroker.Valid() && Enqueueable(evalBroker.enabled, batch)
      modifies evalBroker
      ensures evalBroker.Valid() && evalBroker.State() == BM.EnqueueAll(old(evalBroker.State()), batch)
    {
      evalBroker.EnqueueAll(batch);
    }

    method Remove(job: JobID)
      modifies this
      ensures State() == BlockedModel.Untrack(old(State()), job)
    {
      if !enabled || job !in jobs {
        return;
      }
      var id := jobs[job];
      if id in captured {
        jobs := jobs - {captured[id].eval.jobID};
        captured := captured - {id};
        totalBlocked := totalBlocked - 1;
      }
      if id in escaped {
        jobs := jobs - {escaped[id].eval.jobID};
        escaped := escaped - {id};
        totalEscaped := totalEscaped - 1;
        totalBlocked := totalBlocked - 1;
      }
    }

    method Untrack(job: JobID)
      requires Valid()
      modifies this
      ensures State() == BlockedModel.Untrack(old(State()), job)
      ensures Valid()
    {
      UntrackSound(State(), evalBroker.State(), job);
      Remove(job);
    }

    // The update to send once the lock is released, if any.
    method Unblock(c: Class, index: nat) returns (updates: seq<Update>)
      requires Valid()
      modifies this
      ensures State() == Record(old(State()), c, index)
      ensures updates == if old(enabled) then [Update(c, index)] else []
      ensures Valid()
    {
      SameSound(State(), Record(State(), c, index), evalBroker.State());
      if !enabled {
        return [];
      }
      unblockIndexes := unblockIndexes[c := index];
      return [Update(c, index)];
    }

    // Take over the evaluations, jobs and counters that a release left.
    method Install(t: Tracker)
      requires SameOutside(State(), t)
      modifies this
      ensures State() == t
    {
      captured, escaped, jobs := t.captured, t.escaped, t.jobs;
      totalEscaped, totalBlocked := t.totalEscaped, t.totalBlocked;
    }

    // Take out the captured evaluations that can use the class and all escaped ones.
    method TakeEligible(c: Class) returns (unblocked: seq<(Eval, Token)>)
      requires Valid() && enabled
      modifies this
      ensures State() == BlockedModel.Unblock(old(State()), c)
      ensures Lists(unblocked, Released(old(State()), c))
    {
      ghost var t := State();
      ghost var cs, es := Eligibles(captured, c), escaped.Keys;
      KeyedParts(t);
      var eligible, all := (e: Eval) => !Ineligible(e, c), (e: Eval) => true;
      SelectedIs(captured, eligible, cs);
      SelectedIs(escaped, all, es);
      var t', numEscaped;
      t', unblocked, numEscaped := ReleaseBoth(State(), eligible, all, cs, es);
      ReleaseTotal(t, cs, es, t.totalEscaped, 0);
      Install(if |unblocked| != 0 then t'.(totalEscaped := 0) else t');
    }

    // Handle one capacity update.
    method UnblockClass(c: Class) returns (ghost batch: seq<(Eval, Token)>)
      requires Valid()
      modifies this, evalBroker
      ensures State() == BlockedModel.Unblock(old(State()), c)
      ensures Lists(batch, if old(enabled) then Released(old(State()), c) else map[])
      ensures old(enabled) ==> captured == T.NotUsing(old(captured), c) && escaped == map[]
      ensures evalBroker.State() == BM.EnqueueAll(old(evalBroker.State()), batch)
      ensures Valid()
    {
      batch := [];
      if enabled {
        ghost var t := State();
        var unblocked := TakeEligible(c);
        batch := unblocked;
        T.UnblockLeaves(t, c);
        UnblockSound(t, evalBroker.State(), c, unblocked);
        if |unblocked| != 0 {
          EnqueueUnblocked(unblocked);
        }
      }
    }

    // Take out the evaluations that ran out of plan attempts.
    method TakeFailed() returns (unblocked: seq<(Eval, Token)>)
      requires Valid() && enabled
      modifies this
      ensures State() == BlockedModel.UnblockFailed(old(State()))
      ensures Lists(unblocked, ReleasedFailed(old(State())))
    {
      ghost var t := State();
      ghost var cs, es := FailedIn(captured), FailedIn(escaped);
      KeyedParts(t);
      var failed := (e: Eval) => e.triggeredBy == MaxPlans;
      SelectedIs(captured, failed, cs);
      SelectedIs(escaped, failed, es);
      var t', numEscaped;
      t', unblocked, numEscaped := ReleaseBoth(State(), failed, failed, cs, es);
      ReleaseOfFailed(t, cs, es);
      Install(t'.(totalEscaped := totalEscaped - numEscaped));
    }

    method UnblockFailed() returns (ghost batch: seq<(Eval, Token)>)
      requires Valid()
      modifies this, evalBroker
      ensures State() == BlockedModel.UnblockFailed(old(State()))
      ensures Lists(batch, if old(enabled) then ReleasedFailed(old(State())) else map[])
      ensures old(enabled) ==> captured == T.NotFailed(old(captured)) && escaped == T.NotFailed(old(escaped))
      ensures evalBroker.State() == BM.EnqueueAll(old(evalBroker.State()), batch)
      ensures Valid()
    {
      batch := [];
      if enabled {
        ghost var t := State();
        var unblocked := TakeFailed();
        batch := unblocked;
        T.UnblockFailedLeaves(t);
        UnblockFailedSound(t, evalBroker.State(), unblocked);
        if |unblocked| > 0 {
          EnqueueUnblocked(unblocked);
        }
      }
    }

    // GetDuplicates without the wait.
    method TakeDuplicates() returns (dups: seq<Eval>)
      requires Valid()
      modifies this
      ensures State() == old(State()).(duplicates := []) && dups == old(duplicates)
      ensures Valid()
    {
      SameSound(State(), State().(duplicates := []), evalBroker.State());
      dups := duplicates;
      duplicates := [];
    }

    method Flush()
      modifies this
      ensures captured == map[] && escaped == map[] && jobs == map[] && duplicates == []
      ensures totalEscaped == 0 && totalBlocked == 0
      ensures enabled == old(enabled) && unblockIndexes == old(unblockIndexes)
    {
      totalEscaped, totalBlocked := 0, 0;
      captured, escaped, jobs, duplicates := map[], map[], map[], [];
    }

    method SetEnabled(on: bool)
      requires Valid()
      modifies this
      ensures State() == BlockedModel.SetEnabled(old(State()), on)
      ensures Valid()
    {
      if on {
        SameSound(State(), State().(enabled := true), evalBroker.State());
      }
      if enabled == on {
        return;
      }
      enabled := on;
      if !on {
        Flush();
      }
    }
  }
}
