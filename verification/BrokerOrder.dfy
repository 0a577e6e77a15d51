/**
 The order in which a batch is enqueued does not matter.  A heap's slots depend on it, so
 brokers are compared by a view in which each heap is the multiset of its evaluations; on
 everything else they agree exactly.
 */
module BrokerOrder {
  import opened GoHeap
  import opened Evaluations
  import opened BrokerModel

  type Bag = multiset<Eval>

  datatype View = View(
    config: Config,
    enabled: bool,
    evals: map<ID, int>,
    jobEvals: map<JobID, ID>,
    blocked: map<JobID, Bag>,
    ready: map<Queue, Bag>,
    unack: map<ID, Unack>,
    requeue: map<Token, Eval>,
    timeWait: map<ID, Eval>,
    stats: Stats)

  ghost function Bags(m: map<string, seq<Eval>>): map<string, Bag> {
    map k | k in m :: multiset(m[k])
  }

  ghost function ViewOf(b: Broker): View {
    View(b.config, b.enabled, b.evals, b.jobEvals, Bags(b.blocked), Bags(b.ready),
         b.unack, b.requeue, b.timeWait, b.stats)
  }

  // What enqueueing does with an evaluation.
  datatype Effect = Ignored | Held | Waits | Claims | Joins | Blocks

  function EffectOn(v: View, e: Eval, t: Token): Effect {
    var pending := if e.jobID in v.jobEvals then v.jobEvals[e.jobID] else "";
    if e.id in v.evals then
      if t != "" && e.id in v.unack && v.unack[e.id].token == t then Held else Ignored
    else if e.wait > 0 then Waits
    else if !v.enabled then Ignored
    else if pending == "" then Claims
    else if pending != e.id then Blocks
    else Joins
  }

  function BagOf(m: map<string, Bag>, k: string): Bag {
    if k in m then m[k] else multiset{}
  }

  function AddTo(m: map<string, Bag>, k: string, e: Eval): map<string, Bag> {
    m[k := BagOf(m, k) + multiset{e}]
  }

  function AddEval(m: map<ID, int>, id: ID): map<ID, int> {
    if id in m then m else m[id := 0]
  }

  function AddReady(m: map<Queue, SchedulerStats>, q: Queue): map<Queue, SchedulerStats> {
    var s := if q in m then m[q] else SchedulerStats(0, 0);
    m[q := s.(ready := s.ready + 1)]
  }

  function AddStats(s: Stats, e: Eval, x: Effect): Stats {
    match x
    case Waits => s.(totalWaiting := s.totalWaiting + 1)
    case Blocks => s.(totalBlocked := s.totalBlocked + 1)
    case Claims => s.(totalReady := s.totalReady + 1, bySched := AddReady(s.bySched, e.kind))
    case Joins => s.(totalReady := s.totalReady + 1, bySched := AddReady(s.bySched, e.kind))
    case _ => s
  }

  predicate BecomesReady(x: Effect) {
    x == Claims || x == Joins
  }

  function Apply(v: View, e: Eval, t: Token, x: Effect): View {
    v.(evals := if v.enabled then AddEval(v.evals, e.id) else v.evals,
       jobEvals := if x == Claims then v.jobEvals[e.jobID := e.id] else v.jobEvals,
       blocked := if x == Blocks then AddTo(v.blocked, e.jobID, e) else v.blocked,
       ready := if BecomesReady(x) then AddTo(v.ready, e.kind, e) else v.ready,
       requeue := if x == Held then v.requeue[t := e] else v.requeue,
       timeWait := if x == Waits then v.timeWait[e.id := e] else v.timeWait,
       stats := AddStats(v.stats, e, x))
  }

  function Add(v: View, e: Eval, t: Token): View {
    Apply(v, e, t, EffectOn(v, e, t))
  }

  function AddAll(v: View, batch: seq<(Eval, Token)>): View {
    if batch == [] then v
    else Add(AddAll(v, batch[..|batch| - 1]), batch[|batch| - 1].0, batch[|batch| - 1].1)
  }

  // The view follows the broker

  lemma PushBag(h: seq<Eval>, e: Eval)
    ensures multiset(Push(Less, h, e)) == multiset(h) + multiset{e}
  {
    UpPermutes(Less, h + [e], |h|);
  }

  lemma GrownBags(m: map<string, seq<Eval>>, k: string, e: Eval)
    ensures Bags(m[k := Push(Less, Slice(m, k), e)]) == AddTo(Bags(m), k, e)
  {
    PushBag(Slice(m, k), e);
  }

  lemma ViewOfReady(b: Broker, e: Eval)
    ensures ViewOf(PushReady(b, e, e.kind)) ==
      ViewOf(b).(ready := AddTo(Bags(b.ready), e.kind, e), stats := AddStats(b.stats, e, Joins))
  {
    GrownBags(b.ready, e.kind, e);
  }

  lemma ViewOfBlocked(b: Broker, e: Eval)
    ensures ViewOf(PushBlocked(b, e)) ==
      ViewOf(b).(blocked := AddTo(Bags(b.blocked), e.jobID, e), stats := AddStats(b.stats, e, Blocks))
  {
    GrownBags(b.blocked, e.jobID, e);
  }

  lemma ViewOfLocked(b: Broker, e: Eval, x: Effect)
    requires b.enabled && x == if Pending(b, e.jobID) == "" then Claims else if Pending(b, e.jobID) != e.id then Blocks else Joins
    ensures ViewOf(EnqueueLocked(b, e, e.kind)) == ViewOf(b).(
      jobEvals := if x == Claims then b.jobEvals[e.jobID := e.id] else b.jobEvals,
      blocked := if x == Blocks then AddTo(Bags(b.blocked), e.jobID, e) else Bags(b.blocked),
      ready := if BecomesReady(x) then AddTo(Bags(b.ready), e.kind, e) else Bags(b.ready),
      stats := AddStats(b.stats, e, x))
  {
    match x
    case Claims => ViewOfReady(b.(jobEvals := b.jobEvals[e.jobID := e.id]), e);
    case Joins => ViewOfReady(b, e);
    case Blocks => ViewOfBlocked(b, e);
  }

  // An evaluation the broker does not know yet, with its acceptance recorded.
  lemma ViewOfNew(b: Broker, e: Eval, t: Token)
    requires e.id !in b.evals && b.enabled
    ensures ViewOf(EnqueueNew(b.(evals := b.evals[e.id := 0]), e)) == Add(ViewOf(b), e, t)
  {
    var b1 := b.(evals := b.evals[e.id := 0]);
    if e.wait <= 0 {
      ViewOfLocked(b1, e, EffectOn(ViewOf(b), e, t));
      assert EnqueueNew(b1, e) == EnqueueLocked(b1, e, e.kind);
    }
  }

  // An evaluation that a disabled broker does not know can only be made to wait.
  lemma ViewOfDisabled(b: Broker, e: Eval, t: Token)
    requires e.id !in b.evals && !b.enabled
    ensures ViewOf(ProcessEnqueue(b, e, t)) == Add(ViewOf(b), e, t)
  {
  }

  lemma ViewOfKnown(b: Broker, e: Eval, t: Token)
    requires e.id in b.evals
    ensures ViewOf(ProcessEnqueue(b, e, t)) == Add(ViewOf(b), e, t)
  {
  }

  lemma ViewFollows(b: Broker, e: Eval, t: Token)
    ensures ViewOf(ProcessEnqueue(b, e, t)) == Add(ViewOf(b), e, t)
  {
    if e.id in b.evals {
      ViewOfKnown(b, e, t);
    } else if b.enabled {
      ViewOfNew(b, e, t);
    } else {
      ViewOfDisabled(b, e, t);
    }
  }

  lemma {:induction false} ViewFollowsAll(b: Broker, batch: seq<(Eval, Token)>)
    ensures ViewOf(EnqueueAll(b, batch)) == AddAll(ViewOf(b), batch)
  {
    if batch != [] {
      ViewFollowsAll(b, batch[..|batch| - 1]);
      ViewFollows(EnqueueAll(b, batch[..|batch| - 1]), batch[|batch| - 1].0, batch[|batch| - 1].1);
    }
  }

  // Two enqueues commute

  // Evaluations of two jobs, not both held under one token.
  predicate Apart(v: View, e: Eval, t: Token, f: Eval, u: Token) {
    && e.id != f.id && e.jobID != f.jobID
    && !(t == u && EffectOn(v, e, t) == Held && EffectOn(v, f, u) == Held)
  }

  lemma EffectStays(v: View, e: Eval, t: Token, f: Eval, u: Token)
    requires e.id != f.id && e.jobID != f.jobID
    ensures EffectOn(Add(v, f, u), e, t) == EffectOn(v, e, t)
  {
  }

  lemma UpdatesCommute<V>(m: map<string, V>, k: string, a: V, l: string, b: V)
    requires k != l
    ensures m[k := a][l := b] == m[l := b][k := a]
  {
  }

  lemma UpdateAgain<V>(m: map<string, V>, k: string, a: V, b: V)
    ensures m[k := a][k := b] == m[k := b]
  {
  }

  lemma AddToCommutes(m: map<string, Bag>, k: string, e: Eval, l: string, f: Eval)
    ensures AddTo(AddTo(m, k, e), l, f) == AddTo(AddTo(m, l, f), k, e)
  {
    var a, b := BagOf(m, k) + multiset{e}, BagOf(m, l) + multiset{f};
    if k == l {
      assert a + multiset{f} == b + multiset{e};
      UpdateAgain(m, k, a, a + multiset{f});
      UpdateAgain(m, k, b, b + multiset{e});
    } else {
      UpdatesCommute(m, k, a, l, b);
    }
  }

  lemma AddReadyCommutes(m: map<Queue, SchedulerStats>, p: Queue, q: Queue)
    ensures AddReady(AddReady(m, p), q) == AddReady(AddReady(m, q), p)
  {
  }

  lemma AddStatsCommutes(s: Stats, e: Eval, x: Effect, f: Eval, y: Effect)
    ensures AddStats(AddStats(s, e, x), f, y) == AddStats(AddStats(s, f, y), e, x)
  {
    AddReadyCommutes(s.bySched, e.kind, f.kind);
  }

  lemma AddEvalCommutes(m: map<ID, int>, x: ID, y: ID)
    ensures AddEval(AddEval(m, x), y) == AddEval(AddEval(m, y), x)
  {
    if x != y {
      UpdatesCommute(m, x, 0, y, 0);
    }
  }

  lemma WaitsCommute(v: View, e: Eval, t: Token, x: Effect, f: Eval, u: Token, y: Effect)
    requires e.id != f.id
    ensures Apply(Apply(v, e, t, x), f, u, y).timeWait == Apply(Apply(v, f, u, y), e, t, x).timeWait
  {
    if x == Waits && y == Waits {
      UpdatesCommute(v.timeWait, e.id, e, f.id, f);
    }
  }

  lemma JobsCommute(v: View, e: Eval, t: Token, x: Effect, f: Eval, u: Token, y: Effect)
    requires e.jobID != f.jobID
    ensures Apply(Apply(v, e, t, x), f, u, y).jobEvals == Apply(Apply(v, f, u, y), e, t, x).jobEvals
  {
    if x == Claims && y == Claims {
      UpdatesCommute(v.jobEvals, e.jobID, e.id, f.jobID, f.id);
    }
  }

  lemma HoldsCommute(v: View, e: Eval, t: Token, x: Effect, f: Eval, u: Token, y: Effect)
    requires !(t == u && x == Held && y == Held)
    ensures Apply(Apply(v, e, t, x), f, u, y).requeue == Apply(Apply(v, f, u, y), e, t, x).requeue
  {
    if x == Held && y == Held {
      UpdatesCommute(v.requeue, t, e, u, f);
    }
  }

  lemma BlockedCommutes(v: View, e: Eval, t: Token, x: Effect, f: Eval, u: Token, y: Effect)
    ensures Apply(Apply(v, e, t, x), f, u, y).blocked == Apply(Apply(v, f, u, y), e, t, x).blocked
  {
    if x == Blocks && y == Blocks {
      AddToCommutes(v.blocked, e.jobID, e, f.jobID, f);
    }
  }

  lemma ReadyCommutes(v: View, e: Eval, t: Token, x: Effect, f: Eval, u: Token, y: Effect)
    ensures Apply(Apply(v, e, t, x), f, u, y).ready == Apply(Apply(v, f, u, y), e, t, x).ready
  {
    if BecomesReady(x) && BecomesReady(y) {
      AddToCommutes(v.ready, e.kind, e, f.kind, f);
    }
  }

  lemma AddsCommute(v: View, e: Eval, t: Token, f: Eval, u: Token)
    requires Apart(v, e, t, f, u)
    ensures Add(Add(v, e, t), f, u) == Add(Add(v, f, u), e, t)
  {
    var x, y := EffectOn(v, e, t), EffectOn(v, f, u);
    EffectStays(v, e, t, f, u);
    EffectStays(v, f, u, e, t);
    AddEvalCommutes(v.evals, e.id, f.id);
    WaitsCommute(v, e, t, x, f, u, y);
    JobsCommute(v, e, t, x, f, u, y);
    HoldsCommute(v, e, t, x, f, u, y);
    BlockedCommutes(v, e, t, x, f, u, y);
    ReadyCommutes(v, e, t, x, f, u, y);
    AddStatsCommutes(v.stats, e, x, f, y);
  }

  // Batches

  // No token is the token of two outstanding evaluations.
  ghost predicate TokensDiffer(unack: map<ID, Unack>) {
    forall x, y | x in unack && y in unack && unack[x].token == unack[y].token :: x == y
  }

  ghost predicate Independent(batch: seq<(Eval, Token)>) {
    forall i, j | 0 <= i < j < |batch| :: batch[i].0.id != batch[j].0.id && batch[i].0.jobID != batch[j].0.jobID
  }

  lemma {:induction false} AddAllKeeps(v: View, batch: seq<(Eval, Token)>)
    ensures AddAll(v, batch).unack == v.unack
  {
    if batch != [] {
      AddAllKeeps(v, batch[..|batch| - 1]);
    }
  }

  function Without(batch: seq<(Eval, Token)>, k: nat): seq<(Eval, Token)>
    requires k < |batch|
  {
    batch[..k] + batch[k + 1..]
  }

  lemma TokensKeepApart(v: View, e: Eval, t: Token, f: Eval, u: Token)
    requires TokensDiffer(v.unack) && e.id != f.id && e.jobID != f.jobID
    ensures Apart(v, e, t, f, u)
  {
  }

  lemma WithoutLast(batch: seq<(Eval, Token)>, k: nat)
    requires k < |batch| - 1
    ensures var n := |batch| - 1;
      Without(batch, k) == Without(batch[..n], k) + [batch[n]]
  {
  }

  lemma AddAllOne(v: View, batch: seq<(Eval, Token)>, e: Eval, t: Token)
    ensures AddAll(v, batch + [(e, t)]) == Add(AddAll(v, batch), e, t)
  {
    assert (batch + [(e, t)])[..|batch|] == batch;
  }

  lemma LastIsApart(v: View, batch: seq<(Eval, Token)>, k: nat)
    requires TokensDiffer(v.unack) && Independent(batch) && k < |batch| - 1
    ensures var n := |batch| - 1;
      Independent(batch[..n]) && Apart(v, batch[k].0, batch[k].1, batch[n].0, batch[n].1)
  {
    TokensKeepApart(v, batch[k].0, batch[k].1, batch[|batch| - 1].0, batch[|batch| - 1].1);
  }

  lemma SwapLast(v: View, rest: seq<(Eval, Token)>, x: (Eval, Token), y: (Eval, Token))
    requires Apart(AddAll(v, rest), x.0, x.1, y.0, y.1)
    ensures Add(Add(AddAll(v, rest), x.0, x.1), y.0, y.1) == Add(AddAll(v, rest + [y]), x.0, x.1)
  {
    AddAllOne(v, rest, y.0, y.1);
    AddsCommute(AddAll(v, rest), x.0, x.1, y.0, y.1);
  }

  lemma {:induction false} MoveToEnd(v: View, batch: seq<(Eval, Token)>, k: nat)
    requires TokensDiffer(v.unack) && Independent(batch) && k < |batch|
    ensures AddAll(v, batch) == Add(AddAll(v, Without(batch, k)), batch[k].0, batch[k].1)
  {
    var n := |batch| - 1;
    var init := batch[..n];
    if k == n {
      assert Without(batch, k) == init;
    } else {
      var rest := Without(init, k);
      AddAllKeeps(v, rest);
      LastIsApart(AddAll(v, rest), batch, k);
      MoveToEnd(v, init, k);
      WithoutLast(batch, k);
      SwapLast(v, rest, batch[k], batch[n]);
    }
  }

  ghost predicate SameElements(x: seq<(Eval, Token)>, y: seq<(Eval, Token)>) {
    forall p :: p in x <==> p in y
  }

  lemma WithoutElements(x: seq<(Eval, Token)>, k: nat)
    requires k < |x| && Independent(x)
    ensures Independent(Without(x, k)) && forall p :: p in Without(x, k) <==> p in x && p != x[k]
  {
    var y := Without(x, k);
    forall p ensures p in y <==> p in x && p != x[k] {
      if p in x && p != x[k] {
        var i :| 0 <= i < |x| && x[i] == p;
        assert y[if i < k then i else i - 1] == p;
      }
    }
  }

  lemma NonEmpty(x: seq<(Eval, Token)>)
    ensures x == [] || exists p :: p in x
  {
    if x != [] {
      assert x[0] in x;
    }
  }

  // Two batches of the same evaluations leave the same view.
  lemma {:induction false} OrderDoesNotMatter(v: View, x: seq<(Eval, Token)>, y: seq<(Eval, Token)>)
    requires TokensDiffer(v.unack) && Independent(x) && Independent(y) && SameElements(x, y)
    ensures AddAll(v, x) == AddAll(v, y)
    decreases |y|
  {
    if y == [] {
      NonEmpty(x);
    } else {
      var n := |y| - 1;
      assert y[n] in x;
      var k :| 0 <= k < |x| && x[k] == y[n];
      MoveToEnd(v, x, k);
      WithoutElements(x, k);
      WithoutElements(y, n);
      assert Without(y, n) == y[..n];
      OrderDoesNotMatter(v, Without(x, k), y[..n]);
    }
  }

  // EnqueueAll over a Go map may visit it in any order.
  lemma EnqueueAllOrder(b: Broker, x: seq<(Eval, Token)>, y: seq<(Eval, Token)>)
    requires TokensDiffer(b.unack) && Independent(x) && Independent(y) && SameElements(x, y)
    ensures ViewOf(EnqueueAll(b, x)) == ViewOf(EnqueueAll(b, y))
  {
    ViewFollowsAll(b, x);
    ViewFollowsAll(b, y);
    OrderDoesNotMatter(ViewOf(b), x, y);
  }
}
