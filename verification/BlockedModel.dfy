/**
 The tracker of blocked evaluations as a state machine on values: one function per
 critical section of BlockedEvals.
 */
module BlockedModel {
  import opened Evaluations
  import opened Sums

  datatype Wrapped = Wrapped(eval: Eval, token: Token)

  datatype Update = Update(computedClass: Class, index: nat)

  datatype Tracker = Tracker(
    enabled: bool,
    captured: map<ID, Wrapped>,
    escaped: map<ID, Wrapped>,
    jobs: map<JobID, ID>,
    unblockIndexes: map<Class, nat>,
    duplicates: seq<Eval>,
    totalEscaped: int,
    totalBlocked: int)

  const NEW_TRACKER := Tracker(false, map[], map[], map[], map[], [], 0, 0)

  // The evaluation has explicitly marked the class as ineligible.
  predicate Ineligible(e: Eval, c: Class) {
    c in e.eligibility && !e.eligibility[c]
  }

  // Capacity of class c could serve the evaluation.
  predicate Serves(e: Eval, c: Class) {
    e.escaped || !Ineligible(e, c)
  }

  // Some recorded unblock came after the snapshot the evaluation was scheduled on.
  ghost predicate Missed(indexes: map<Class, nat>, e: Eval) {
    exists c :: c in indexes && e.snapshotIndex < indexes[c] && Serves(e, c)
  }

  function Tracked(t: Tracker): map<ID, Wrapped> {
    t.captured + t.escaped
  }

  // The part of processBlock that starts tracking.
  function Track(t: Tracker, e: Eval, token: Token): Tracker {
    var t1 := t.(totalBlocked := t.totalBlocked + 1, jobs := t.jobs[e.jobID := e.id]);
    if e.escaped
    then t1.(escaped := t.escaped[e.id := Wrapped(e, token)], totalEscaped := t.totalEscaped + 1)
    else t1.(captured := t.captured[e.id := Wrapped(e, token)])
  }

  datatype Verdict = Ignored | Duplicate | Enqueued | Retained

  // The branch that processBlock takes.
  ghost function BlockVerdict(t: Tracker, e: Eval): Verdict {
    if !t.enabled then Ignored
    else if e.jobID in t.jobs then Duplicate
    else if Missed(t.unblockIndexes, e) then Enqueued
    else Retained
  }

  ghost function Block(t: Tracker, e: Eval, token: Token): Tracker {
    match BlockVerdict(t, e)
    case Duplicate => t.(duplicates := t.duplicates + [e])
    case Retained => Track(t, e, token)
    case _ => t
  }

  function Untrack(t: Tracker, job: JobID): Tracker {
    if !t.enabled || job !in t.jobs then t
    else
      var id := t.jobs[job];
      var t1 := if id in t.captured
        then t.(jobs := t.jobs - {t.captured[id].eval.jobID}, captured := t.captured - {id},
                totalBlocked := t.totalBlocked - 1)
        else t;
      if id in t1.escaped
      then t1.(jobs := t1.jobs - {t1.escaped[id].eval.jobID}, escaped := t1.escaped - {id},
               totalEscaped := t1.totalEscaped - 1, totalBlocked := t1.totalBlocked - 1)
      else t1
  }

  // The part of Unblock under the lock.
  function Record(t: Tracker, c: Class, index: nat): Tracker {
    if t.enabled then t.(unblockIndexes := t.unblockIndexes[c := index]) else t
  }

  function JobsOf(m: map<ID, Wrapped>): set<JobID> {
    set id | id in m :: m[id].eval.jobID
  }

  function Restrict(m: map<ID, Wrapped>, s: set<ID>): map<ID, Wrapped> {
    map id | id in m && id in s :: m[id]
  }

  // The tracked evaluations with these IDs.
  function Part(t: Tracker, cs: set<ID>, es: set<ID>): map<ID, Wrapped> {
    Restrict(t.captured, cs) + Restrict(t.escaped, es)
  }

  // Stop tracking them, together with their jobs.
  function Release(t: Tracker, cs: set<ID>, es: set<ID>, totalEscaped: int): Tracker {
    t.(captured := t.captured - cs,
       escaped := t.escaped - es,
       jobs := t.jobs - JobsOf(Part(t, cs, es)),
       totalEscaped := totalEscaped,
       totalBlocked := t.totalBlocked - |Part(t, cs, es)|)
  }

  function Eligibles(m: map<ID, Wrapped>, c: Class): set<ID> {
    set id | id in m && !Ineligible(m[id].eval, c)
  }

  // What an update for class c releases.
  function Released(t: Tracker, c: Class): map<ID, Wrapped> {
    Part(t, Eligibles(t.captured, c), t.escaped.Keys)
  }

  function Unblock(t: Tracker, c: Class): Tracker {
    if !t.enabled then t
    else
      Release(t, Eligibles(t.captured, c), t.escaped.Keys,
              if |Released(t, c)| != 0 then 0 else t.totalEscaped)
  }

  function FailedIn(m: map<ID, Wrapped>): set<ID> {
    set id | id in m && m[id].eval.triggeredBy == MaxPlans
  }

  // What UnblockFailed releases.
  function ReleasedFailed(t: Tracker): map<ID, Wrapped> {
    Part(t, FailedIn(t.captured), FailedIn(t.escaped))
  }

  function UnblockFailed(t: Tracker): Tracker {
    if !t.enabled then t
    else
      Release(t, FailedIn(t.captured), FailedIn(t.escaped), t.totalEscaped - |FailedIn(t.escaped)|)
  }

  // SetEnabled, with the Flush that follows a disable; the indexes survive.
  function SetEnabled(t: Tracker, enabled: bool): Tracker {
    if enabled then t.(enabled := true)
    else if !t.enabled then t
    else NEW_TRACKER.(unblockIndexes := t.unblockIndexes)
  }

  // Invariant

  ghost predicate HoldsOk(m: map<ID, Wrapped>, escaped: bool, jobs: map<JobID, ID>, id: ID) {
    id in m ==>
      && m[id].eval.id == id && m[id].eval.escaped == escaped
      && m[id].eval.jobID in jobs && jobs[m[id].eval.jobID] == id
  }

  ghost predicate JobOk(t: Tracker, j: JobID) {
    j in t.jobs ==>
      (t.jobs[j] in t.captured && t.captured[t.jobs[j]].eval.jobID == j)
      || (t.jobs[j] in t.escaped && t.escaped[t.jobs[j]].eval.jobID == j)
  }

  // One tracked evaluation per job; the counters equal the set sizes.
  ghost predicate Valid(t: Tracker) {
    && (forall id :: HoldsOk(t.captured, false, t.jobs, id) && HoldsOk(t.escaped, true, t.jobs, id))
    && (forall j :: JobOk(t, j))
    && t.captured.Keys !! t.escaped.Keys
    && t.totalBlocked == |t.captured| + |t.escaped|
    && t.totalEscaped == |t.escaped|
    && (!t.enabled ==> t.captured == map[] && t.escaped == map[] && t.jobs == map[])
  }

  // An evaluation ID names one evaluation of one job.
  predicate SameJob(t: Tracker, e: Eval) {
    && (e.id in t.captured ==> t.captured[e.id].eval.jobID == e.jobID)
    && (e.id in t.escaped ==> t.escaped[e.id].eval.jobID == e.jobID)
  }

  lemma TrackKeeps(t: Tracker, e: Eval, token: Token)
    requires Valid(t) && t.enabled && e.jobID !in t.jobs && SameJob(t, e)
    ensures Valid(Track(t, e, token))
    ensures e.id !in Tracked(t)
  {
    var t' := Track(t, e, token);
    assert HoldsOk(t.captured, false, t.jobs, e.id) && HoldsOk(t.escaped, true, t.jobs, e.id);
    forall id ensures HoldsOk(t'.captured, false, t'.jobs, id) && HoldsOk(t'.escaped, true, t'.jobs, id) {
      assert HoldsOk(t.captured, false, t.jobs, id) && HoldsOk(t.escaped, true, t.jobs, id);
    }
    forall j ensures JobOk(t', j) {
      assert JobOk(t, j);
    }
    if e.escaped {
      CardInsert(t.escaped, e.id, Wrapped(e, token));
    } else {
      CardInsert(t.captured, e.id, Wrapped(e, token));
    }
  }

  lemma BlockKeeps(t: Tracker, e: Eval, token: Token)
    requires Valid(t) && SameJob(t, e)
    ensures Valid(Block(t, e, token))
  {
    if BlockVerdict(t, e) == Retained {
      TrackKeeps(t, e, token);
    } else if BlockVerdict(t, e) == Duplicate {
      var t' := Block(t, e, token);
      forall j ensures JobOk(t', j) {
        assert JobOk(t, j);
      }
    }
  }

  lemma CardMinus<V>(m: map<ID, V>, s: set<ID>)
    requires s <= m.Keys
    ensures |m - s| == |m| - |s|
  {
  }

  lemma MinusNone<V>(m: map<ID, V>)
    ensures m - {} == m
  {
  }

  lemma PartKeys(t: Tracker, cs: set<ID>, es: set<ID>)
    requires cs <= t.captured.Keys && es <= t.escaped.Keys && t.captured.Keys !! t.escaped.Keys
    ensures Part(t, cs, es).Keys == cs + es && |Part(t, cs, es)| == |cs| + |es|
  {
  }

  // A job leaves with its evaluation.
  lemma JobsOfPart(t: Tracker, cs: set<ID>, es: set<ID>, j: JobID)
    requires Valid(t) && cs <= t.captured.Keys && es <= t.escaped.Keys
    ensures j in t.jobs - JobsOf(Part(t, cs, es)) <==> j in t.jobs && t.jobs[j] !in cs && t.jobs[j] !in es
  {
    var out := Part(t, cs, es);
    assert JobOk(t, j);
    if j in t.jobs {
      var id := t.jobs[j];
      if id in out {
        assert out[id].eval.jobID in JobsOf(out);
      }
      if j in JobsOf(out) {
        var x :| x in out && out[x].eval.jobID == j;
        assert HoldsOk(t.captured, false, t.jobs, x) && HoldsOk(t.escaped, true, t.jobs, x);
      }
    }
  }

  // Releasing any part of the tracked evaluations keeps the bijection with the jobs.
  lemma ReleaseKeeps(t: Tracker, cs: set<ID>, es: set<ID>)
    requires Valid(t) && t.enabled && cs <= t.captured.Keys && es <= t.escaped.Keys
    ensures Valid(Release(t, cs, es, t.totalEscaped - |es|))
  {
    var t' := Release(t, cs, es, t.totalEscaped - |es|);
    forall j ensures j in t'.jobs <==> j in t.jobs && t.jobs[j] !in cs && t.jobs[j] !in es {
      JobsOfPart(t, cs, es, j);
    }
    PartKeys(t, cs, es);
    RestValid(t, t', cs, es);
  }

  lemma RestValid(t: Tracker, t': Tracker, cs: set<ID>, es: set<ID>)
    requires Valid(t) && t.enabled && cs <= t.captured.Keys && es <= t.escaped.Keys
    requires t'.enabled && t'.captured == t.captured - cs && t'.escaped == t.escaped - es
    requires t'.totalBlocked == t.totalBlocked - |cs| - |es| && t'.totalEscaped == t.totalEscaped - |es|
    requires forall j :: j in t'.jobs <==> j in t.jobs && t.jobs[j] !in cs && t.jobs[j] !in es
    requires forall j | j in t'.jobs :: t'.jobs[j] == t.jobs[j]
    ensures Valid(t')
  {
    forall id ensures HoldsOk(t'.captured, false, t'.jobs, id) && HoldsOk(t'.escaped, true, t'.jobs, id) {
      assert HoldsOk(t.captured, false, t.jobs, id) && HoldsOk(t.escaped, true, t.jobs, id);
    }
    forall j ensures JobOk(t', j) {
      assert JobOk(t, j);
    }
    CardMinus(t.captured, cs);
    CardMinus(t.escaped, es);
  }

  lemma UnblockKeeps(t: Tracker, c: Class)
    requires Valid(t)
    ensures Valid(Unblock(t, c))
  {
    if t.enabled {
      var cs, es := Eligibles(t.captured, c), t.escaped.Keys;
      PartKeys(t, cs, es);
      ReleaseKeeps(t, cs, es);
      assert Unblock(t, c) == Release(t, cs, es, t.totalEscaped - |es|);
    }
  }

  lemma UnblockFailedKeeps(t: Tracker)
    requires Valid(t)
    ensures Valid(UnblockFailed(t))
  {
    if t.enabled {
      ReleaseKeeps(t, FailedIn(t.captured), FailedIn(t.escaped));
    }
  }

  lemma UntrackKeeps(t: Tracker, job: JobID)
    requires Valid(t)
    ensures Valid(Untrack(t, job))
    ensures t.enabled ==> job !in Untrack(t, job).jobs
  {
    if t.enabled && job in t.jobs {
      var id, t' := t.jobs[job], Untrack(t, job);
      assert JobOk(t, job);
      assert HoldsOk(t.captured, false, t.jobs, id) && HoldsOk(t.escaped, true, t.jobs, id);
      var cs := if id in t.captured then {id} else {};
      var es := if id in t.escaped then {id} else {};
      forall j ensures j in t'.jobs <==> j in t.jobs && t.jobs[j] !in cs && t.jobs[j] !in es {
        assert JobOk(t, j);
      }
      assert t'.captured == t.captured - cs by {
        MinusNone(t.captured);
      }
      assert t'.escaped == t.escaped - es by {
        MinusNone(t.escaped);
      }
      RestValid(t, t', cs, es);
    }
  }

  // t' tracks some of what t tracks.
  ghost predicate Shrinks(t: Tracker, t': Tracker) {
    && t'.unblockIndexes == t.unblockIndexes
    && (forall id | id in t'.captured :: id in t.captured && t'.captured[id] == t.captured[id])
    && (forall id | id in t'.escaped :: id in t.escaped && t'.escaped[id] == t.escaped[id])
  }

  lemma ShrunkTracked(t: Tracker, t': Tracker, id: ID)
    requires Shrinks(t, t') && t.captured.Keys !! t.escaped.Keys && id in Tracked(t')
    ensures id in Tracked(t) && Tracked(t')[id] == Tracked(t)[id]
  {
  }

  lemma UntrackShrinks(t: Tracker, job: JobID)
    ensures Shrinks(t, Untrack(t, job))
  {
  }

  lemma UnblockShrinks(t: Tracker, c: Class)
    ensures Shrinks(t, Unblock(t, c))
    ensures t.enabled ==> forall id | id in Tracked(Unblock(t, c)) ::
      id in t.captured && Tracked(Unblock(t, c))[id] == t.captured[id] && Ineligible(t.captured[id].eval, c)
  {
  }

  lemma UnblockFailedShrinks(t: Tracker)
    ensures Shrinks(t, UnblockFailed(t))
  {
  }

  lemma JobsOfInsert(m: map<ID, Wrapped>, id: ID, x: Wrapped)
    requires id !in m
    ensures JobsOf(m[id := x]) == JobsOf(m) + {x.eval.jobID}
  {
    var m1 := m[id := x];
    forall j ensures j in JobsOf(m1) <==> j in JobsOf(m) || j == x.eval.jobID {
      if j in JobsOf(m) {
        var k :| k in m && m[k].eval.jobID == j;
        assert k in m1 && m1[k].eval.jobID == j;
      }
      assert id in m1 && m1[id].eval.jobID in JobsOf(m1);
    }
  }
}
