/**
 Blocking and unblocking commute: an evaluation ends up in the same place whether
 the capacity arrives just after it is blocked or just before.
 */
module BlockedCommute {
  import opened Evaluations
  import opened BlockedModel
  import opened BlockedRuns
  import opened Sums
  import B = BrokerRuns
  import H = BrokerHandoff
  import O = BrokerOrder

  // Unblock(c, i) on an idle channel: recorded, sent, received and processed.
  function UnblockAndDrain(s: System, c: Class, i: nat, batch: seq<(Eval, Token)>): System {
    s.(t := Unblock(Record(s.t, c, i), c), w := OfferAll(s.w, batch), accepted := s.accepted + {Update(c, i)})
  }

  function Drain(c: Class, i: nat, batch: seq<(Eval, Token)>): seq<Step> {
    [DoUnblock(c, i)] + [Send(Update(c, i))] + [Receive] + [Process(Update(c, i), batch)]
  }

  lemma DrainIsRun(s: System, c: Class, i: nat, batch: seq<(Eval, Token)>)
    requires s.t.enabled && s.queue == []
    requires Legal(s, DoUnblock(c, i)) && ReleaseLegal(s, Released(Record(s.t, c, i), c), batch)
    ensures LegalRun(s, Drain(c, i, batch)) && After(s, Drain(c, i, batch)) == UnblockAndDrain(s, c, i, batch)
  {
    var u := Update(c, i);
    var s1 := UnblockNext(s, c, i);
    assert [] + [DoUnblock(c, i)] == [DoUnblock(c, i)];
    RunExtends(s, [], DoUnblock(c, i));
    RunExtends(s, [DoUnblock(c, i)], Send(u));
    var s2 := After(s, [DoUnblock(c, i)] + [Send(u)]);
    SendEmpties(s, u, s1, s2);
    RunExtends(s, [DoUnblock(c, i)] + [Send(u)], Receive);
    RunExtends(s, [DoUnblock(c, i)] + [Send(u)] + [Receive], Process(u, batch));
    ReceiveEmpties(s, u, s2, s2.(queue := s2.queue[1..], processing := s2.processing + multiset{u}));
  }

  lemma SendEmpties(s: System, u: Update, s1: System, s2: System)
    requires s.queue == [] && s1.unsent == s.unsent + multiset{u} && s1.queue == s.queue
    requires s2 == s1.(unsent := s1.unsent - multiset{u}, queue := s1.queue + [u])
    ensures s2.unsent == s.unsent && s2.queue == [u]
  {
  }

  lemma ReceiveEmpties(s: System, u: Update, s2: System, s3: System)
    requires s2.queue == [u] && s2.processing == s.processing
    requires s3 == s2.(queue := s2.queue[1..], processing := s2.processing + multiset{u})
    ensures s3.queue == [] && s3.processing - multiset{u} == s.processing
  {
  }

  lemma SameRelease(t: Tracker, cs: set<ID>, es: set<ID>, m: int, u: Tracker, ds: set<ID>, fs: set<ID>, n: int)
    requires t.captured - cs == u.captured - ds && t.escaped - es == u.escaped - fs && m == n
    requires t.jobs - JobsOf(Part(t, cs, es)) == u.jobs - JobsOf(Part(u, ds, fs))
    requires t.totalBlocked - |Part(t, cs, es)| == u.totalBlocked - |Part(u, ds, fs)|
    requires t.enabled == u.enabled && t.unblockIndexes == u.unblockIndexes && t.duplicates == u.duplicates
    ensures Release(t, cs, es, m) == Release(u, ds, fs, n)
  {
  }

  // The tracker after releasing the evaluation it has just started to track is the
  // tracker that never did.
  lemma UnblockUndoesTrack(t: Tracker, e: Eval, token: Token, c: Class)
    requires t.enabled && e.jobID !in t.jobs && e.id !in t.captured && e.id !in t.escaped && Serves(e, c)
    requires t.totalEscaped == |t.escaped|
    ensures Unblock(Track(t, e, token), c) == Unblock(t, c)
    ensures Released(Track(t, e, token), c) == Released(t, c)[e.id := Wrapped(e, token)]
  {
    var u := Track(t, e, token);
    UndoneReleased(t, e, token, c);
    UndoneSets(t, e, token, c);
    UndoneJobs(t, e, token, c);
    CardInsert(Released(t, c), e.id, Wrapped(e, token));
    EscapedReleased(t, c);
    SameRelease(u, Eligibles(u.captured, c), u.escaped.Keys, 0, t, Eligibles(t.captured, c), t.escaped.Keys, 0);
  }

  lemma EscapedReleased(t: Tracker, c: Class)
    ensures |Released(t, c)| == 0 ==> |t.escaped| == 0
  {
    if t.escaped != map[] {
      var id :| id in t.escaped;
      assert id in Released(t, c);
    }
  }

  lemma UndoneReleased(t: Tracker, e: Eval, token: Token, c: Class)
    requires e.id !in t.captured && e.id !in t.escaped && Serves(e, c)
    ensures Released(Track(t, e, token), c) == Released(t, c)[e.id := Wrapped(e, token)]
    ensures e.id !in Released(t, c)
  {
  }

  lemma UndoneSets(t: Tracker, e: Eval, token: Token, c: Class)
    requires e.id !in t.captured && e.id !in t.escaped && Serves(e, c)
    ensures var t1 := Track(t, e, token);
      && t1.captured - Eligibles(t1.captured, c) == t.captured - Eligibles(t.captured, c)
      && t1.escaped - t1.escaped.Keys == t.escaped - t.escaped.Keys
  {
  }

  lemma UndoneJobs(t: Tracker, e: Eval, token: Token, c: Class)
    requires e.jobID !in t.jobs && e.id !in Released(t, c)
    requires Released(Track(t, e, token), c) == Released(t, c)[e.id := Wrapped(e, token)]
    ensures Track(t, e, token).jobs - JobsOf(Released(Track(t, e, token), c)) == t.jobs - JobsOf(Released(t, c))
  {
    JobsOfInsert(Released(t, c), e.id, Wrapped(e, token));
  }

  // An evaluation that the class cannot serve is left alone.
  lemma UnblockPassesTrack(t: Tracker, e: Eval, token: Token, c: Class)
    requires t.enabled && e.id !in t.captured && e.id !in t.escaped && !Serves(e, c)
    requires e.jobID !in JobsOf(Released(t, c))
    ensures Unblock(Track(t, e, token), c) == Track(Unblock(t, c), e, token)
  {
    PassedReleased(t, e, token, c);
    PassedCaptured(t, e, token, c);
    PassedJobs(t, e, token, c);
    TrackedAs(Unblock(t, c), Unblock(Track(t, e, token), c), e, token);
  }

  lemma PassedCaptured(t: Tracker, e: Eval, token: Token, c: Class)
    requires t.enabled && e.id !in t.captured && !Serves(e, c)
    requires Eligibles(Track(t, e, token).captured, c) == Eligibles(t.captured, c)
    ensures Unblock(Track(t, e, token), c).captured == Unblock(t, c).captured[e.id := Wrapped(e, token)]
  {
    MinusUpdate(t.captured, Eligibles(t.captured, c), e.id, Wrapped(e, token));
  }

  lemma PassedJobs(t: Tracker, e: Eval, token: Token, c: Class)
    requires t.enabled && Released(Track(t, e, token), c) == Released(t, c)
    requires e.jobID !in JobsOf(Released(t, c))
    ensures Unblock(Track(t, e, token), c).jobs == Unblock(t, c).jobs[e.jobID := e.id]
  {
    MinusUpdate(t.jobs, JobsOf(Released(t, c)), e.jobID, e.id);
  }

  lemma TrackedAs(u: Tracker, u1: Tracker, e: Eval, token: Token)
    requires !e.escaped && u1.captured == u.captured[e.id := Wrapped(e, token)]
    requires u1.jobs == u.jobs[e.jobID := e.id] && u1.totalBlocked == u.totalBlocked + 1
    requires u1 == u.(captured := u1.captured, jobs := u1.jobs, totalBlocked := u1.totalBlocked)
    ensures u1 == Track(u, e, token)
  {
  }

  lemma MinusUpdate<V>(m: map<string, V>, s: set<string>, k: string, v: V)
    requires k !in s
    ensures m[k := v] - s == (m - s)[k := v]
  {
  }

  lemma PassedEligibles(m: map<ID, Wrapped>, id: ID, x: Wrapped, c: Class)
    requires id !in m && Ineligible(x.eval, c)
    ensures Eligibles(m[id := x], c) == Eligibles(m, c)
    ensures Restrict(m[id := x], Eligibles(m, c)) == Restrict(m, Eligibles(m, c))
  {
  }

  lemma PassedReleased(t: Tracker, e: Eval, token: Token, c: Class)
    requires e.id !in t.captured && e.id !in t.escaped && !Serves(e, c)
    ensures Released(Track(t, e, token), c) == Released(t, c)
    ensures Eligibles(Track(t, e, token).captured, c) == Eligibles(t.captured, c)
  {
    PassedEligibles(t.captured, e.id, Wrapped(e, token), c);
  }

  lemma JobNotReleased(t: Tracker, e: Eval, c: Class)
    requires Valid(t) && e.jobID !in t.jobs
    ensures e.jobID !in JobsOf(Released(t, c))
  {
    var m := Released(t, c);
    forall k | k in m ensures m[k].eval.jobID in t.jobs {
      assert HoldsOk(t.captured, false, t.jobs, k) && HoldsOk(t.escaped, true, t.jobs, k);
    }
  }

  // Whether the evaluation is released by an unblock recorded after its snapshot
  // depends only on the class.
  lemma MissedAfterRecord(t: Tracker, e: Eval, c: Class, i: nat)
    requires t.enabled && !Missed(t.unblockIndexes, e) && e.snapshotIndex < i
    ensures Missed(Record(t, c, i).unblockIndexes, e) <==> e.escaped || c !in e.eligibility || e.eligibility[c]
  {
    var now := Record(t, c, i).unblockIndexes;
    if Serves(e, c) {
      assert c in now && e.snapshotIndex < now[c] && Serves(e, c);
    } else {
      forall d | d in now && e.snapshotIndex < now[d] ensures !Serves(e, d) {
        assert d == c || (d in t.unblockIndexes && now[d] == t.unblockIndexes[d]);
      }
    }
  }

  lemma TrackersCommute(t: Tracker, e: Eval, token: Token, c: Class, i: nat)
    requires Valid(t) && t.enabled && e.jobID !in t.jobs && e.id !in t.captured && e.id !in t.escaped
    ensures var r := Record(t, c, i);
      Unblock(Record(Track(t, e, token), c, i), c)
      == if Serves(e, c) then Unblock(r, c) else Track(Unblock(r, c), e, token)
  {
    var r := Record(t, c, i);
    assert Record(Track(t, e, token), c, i) == Track(r, e, token);
    if Serves(e, c) {
      UnblockUndoesTrack(r, e, token, c);
    } else {
      JobNotReleased(t, e, c);
      UnblockPassesTrack(r, e, token, c);
    }
  }

  // What Block does once the unblock has been drained.
  lemma BlockAfterDrain(t: Tracker, e: Eval, token: Token, c: Class, i: nat)
    requires t.enabled && e.jobID !in t.jobs && !Missed(t.unblockIndexes, e) && e.snapshotIndex < i
    ensures BlockVerdict(Unblock(Record(t, c, i), c), e) == if Serves(e, c) then Enqueued else Retained
  {
  }

  lemma BlockCommutes(t: Tracker, e: Eval, token: Token, c: Class, i: nat)
    requires Valid(t) && t.enabled && e.jobID !in t.jobs && SameJob(t, e)
    requires !Missed(t.unblockIndexes, e) && e.snapshotIndex < i
    ensures Unblock(Record(Block(t, e, token), c, i), c) == Block(Unblock(Record(t, c, i), c), e, token)
  {
    TrackKeeps(t, e, token);
    TrackersCommute(t, e, token, c, i);
    BlockAfterDrain(t, e, token, c, i);
  }

  // With the new evaluation last in the batch, Block then Unblock and drain is exactly
  // Unblock and drain then Block.
  lemma CommuteInOneOrder(s: System, e: Eval, token: Token, c: Class, i: nat, batch: seq<(Eval, Token)>)
    requires Valid(s.t) && s.t.enabled && e.jobID !in s.t.jobs && SameJob(s.t, e)
    requires !Missed(s.t.unblockIndexes, e) && e.snapshotIndex < i
    ensures var batch' := if Serves(e, c) then batch + [(e, token)] else batch;
      UnblockAndDrain(BlockNext(s, e, token), c, i, batch')
      == BlockNext(UnblockAndDrain(s, c, i, batch), e, token)
  {
    BlockCommutes(s.t, e, token, c, i);
    BlockAfterDrain(s.t, e, token, c, i);
    OfferOneMore(s.w, batch, e, token);
    assert BlockNext(s, e, token).w == s.w;
  }

  // The batches of the two orders list what each releases.
  lemma CommutingBatches(t: Tracker, e: Eval, token: Token, c: Class, batch: seq<(Eval, Token)>)
    requires Valid(t) && t.enabled && e.jobID !in t.jobs && SameJob(t, e) && !Missed(t.unblockIndexes, e)
    requires Lists(batch, Released(t, c))
    ensures Lists(if Serves(e, c) then batch + [(e, token)] else batch, Released(Block(t, e, token), c))
  {
    TrackKeeps(t, e, token);
    if Serves(e, c) {
      UndoneReleased(t, e, token, c);
      ListsOneMore(batch, Released(t, c), e, token);
    } else {
      PassedReleased(t, e, token, c);
    }
  }

  lemma OfferOneMore(w: B.World, batch: seq<(Eval, Token)>, e: Eval, token: Token)
    ensures OfferAll(w, batch + [(e, token)]) == B.OfferWorld(OfferAll(w, batch), e, token)
  {
  }

  // Any two batches

  lemma BatchIndependent(t: Tracker, m: map<ID, Wrapped>, batch: seq<(Eval, Token)>)
    requires Valid(t) && Lists(batch, m) && forall id | id in m :: id in Tracked(t) && m[id] == Tracked(t)[id]
    ensures O.Independent(batch)
  {
    forall i, j | 0 <= i < j < |batch|
      ensures batch[i].0.id != batch[j].0.id && batch[i].0.jobID != batch[j].0.jobID
    {
      var x, y := batch[i].0.id, batch[j].0.id;
      assert HoldsOk(t.captured, false, t.jobs, x) && HoldsOk(t.escaped, true, t.jobs, x);
      assert HoldsOk(t.captured, false, t.jobs, y) && HoldsOk(t.escaped, true, t.jobs, y);
    }
  }

  lemma BatchesAgree(x: seq<(Eval, Token)>, y: seq<(Eval, Token)>, m: map<ID, Wrapped>)
    requires Lists(x, m) && Lists(y, m)
    ensures O.SameElements(x, y)
  {
    forall p ensures p in x <==> p in y {
      if p in x {
        assert m[p.0.id] == Wrapped(p.0, p.1);
      }
      if p in y {
        assert m[p.0.id] == Wrapped(p.0, p.1);
      }
    }
  }

  lemma TokensAreUnique(w: B.World)
    requires B.RunInv(w)
    ensures O.TokensDiffer(w.b.unack)
  {
    forall x, y | x in w.b.unack && y in w.b.unack && w.b.unack[x].token == w.b.unack[y].token ensures x == y {
      H.OneHolder(w, x, y, w.b.unack[x].token);
    }
  }

  // Whichever way a release is listed, the broker ends up the same.
  lemma ReleasesAgree(w: B.World, t: Tracker, m: map<ID, Wrapped>, x: seq<(Eval, Token)>, y: seq<(Eval, Token)>)
    requires B.RunInv(w) && Valid(t) && Lists(x, m) && Lists(y, m)
    requires forall id | id in m :: id in Tracked(t) && m[id] == Tracked(t)[id]
    ensures O.ViewOf(OfferAll(w, x).b) == O.ViewOf(OfferAll(w, y).b)
  {
    TokensAreUnique(w);
    BatchIndependent(t, m, x);
    BatchIndependent(t, m, y);
    BatchesAgree(x, y, m);
    O.EnqueueAllOrder(w.b, x, y);
  }

  // The same tracker, the same channel, and brokers that differ in the order of heap
  // slots only.
  ghost predicate SameSystem(a: System, b: System) {
    && a.t == b.t && O.ViewOf(a.w.b) == O.ViewOf(b.w.b)
    && a.unsent == b.unsent && a.queue == b.queue && a.processing == b.processing && a.accepted == b.accepted
  }

  lemma {:induction false} RunsAppend(s: System, a: seq<Step>, b: seq<Step>)
    requires LegalRun(s, a) && LegalRun(After(s, a), b)
    ensures LegalRun(s, a + b) && After(s, a + b) == After(After(s, a), b)
  {
    if b == [] {
      assert a + b == a;
    } else {
      var init, last := b[..|b| - 1], b[|b| - 1];
      LastStep(After(s, a), b);
      RunsAppend(s, a, init);
      RunExtends(s, a + init, last);
      Regroup(a, b);
    }
  }

  lemma Regroup<T>(a: seq<T>, b: seq<T>)
    requires b != []
    ensures a + b[..|b| - 1] + [b[|b| - 1]] == a + b
  {
  }

  lemma LastStep(s: System, steps: seq<Step>)
    requires steps != [] && LegalRun(s, steps)
    ensures var init, last := steps[..|steps| - 1], steps[|steps| - 1];
      LegalRun(s, init) && Legal(After(s, init), last) && After(s, steps) == Next(After(s, init), last)
  {
  }

  // A tracker, a channel and a batch for each order of the two calls.
  ghost predicate BothOrdersLegal(s: System, e: Eval, token: Token, c: Class, i: nat,
                                  first: seq<(Eval, Token)>, second: seq<(Eval, Token)>)
  {
    && s.t.enabled && s.queue == [] && Legal(s, DoBlock(e, token)) && Legal(s, DoUnblock(c, i))
    && ReleaseLegal(s, Released(Block(s.t, e, token), c), first)
    && ReleaseLegal(s, Released(s.t, c), second)
  }

  lemma SameDrain(s: System, c: Class, i: nat, x: seq<(Eval, Token)>, y: seq<(Eval, Token)>)
    requires O.ViewOf(OfferAll(s.w, x).b) == O.ViewOf(OfferAll(s.w, y).b)
    ensures SameSystem(UnblockAndDrain(s, c, i, x), UnblockAndDrain(s, c, i, y))
  {
  }

  // The batch of the first order and the one that extends the second agree.
  lemma BatchesSame(s: System, e: Eval, token: Token, c: Class, i: nat,
                    first: seq<(Eval, Token)>, second: seq<(Eval, Token)>)
    requires SysInv(s) && BothOrdersLegal(s, e, token, c, i, first, second)
    requires e.jobID !in s.t.jobs && !Missed(s.t.unblockIndexes, e)
    ensures var other := if Serves(e, c) then second + [(e, token)] else second;
      O.ViewOf(OfferAll(s.w, first).b) == O.ViewOf(OfferAll(s.w, other).b)
  {
    var t' := Block(s.t, e, token);
    CommutingBatches(s.t, e, token, c, second);
    BlockKeeps(s.t, e, token);
    PartOfTracked(t', Eligibles(t'.captured, c), t'.escaped.Keys);
    ReleasesAgree(s.w, t', Released(t', c), first, if Serves(e, c) then second + [(e, token)] else second);
  }

  lemma DrainedAgree(s: System, e: Eval, token: Token, c: Class, i: nat,
                     first: seq<(Eval, Token)>, second: seq<(Eval, Token)>)
    requires SysInv(s) && BothOrdersLegal(s, e, token, c, i, first, second)
    requires e.jobID !in s.t.jobs && !Missed(s.t.unblockIndexes, e) && e.snapshotIndex < i
    ensures SameSystem(UnblockAndDrain(BlockNext(s, e, token), c, i, first),
                       BlockNext(UnblockAndDrain(s, c, i, second), e, token))
  {
    BatchesSame(s, e, token, c, i, first, second);
    SameDrain(BlockNext(s, e, token), c, i, first, if Serves(e, c) then second + [(e, token)] else second);
    CommuteInOneOrder(s, e, token, c, i, second);
  }

  // After blocking, the capacity update can still be drained.
  lemma BlockedCanDrain(s: System, e: Eval, token: Token, c: Class, i: nat, batch: seq<(Eval, Token)>)
    requires s.t.enabled && s.queue == [] && Legal(s, DoUnblock(c, i))
    requires e.jobID !in s.t.jobs && !Missed(s.t.unblockIndexes, e)
    requires ReleaseLegal(s, Released(Block(s.t, e, token), c), batch)
    ensures var s1 := BlockNext(s, e, token);
      && s1.t.enabled && s1.queue == [] && Legal(s1, DoUnblock(c, i))
      && ReleaseLegal(s1, Released(Record(s1.t, c, i), c), batch)
  {
    var s1 := BlockNext(s, e, token);
    assert Released(Record(s1.t, c, i), c) == Released(s1.t, c);
  }

  lemma BlockFirstIsRun(s: System, e: Eval, token: Token, c: Class, i: nat, batch: seq<(Eval, Token)>)
    requires s.t.enabled && s.queue == [] && Legal(s, DoBlock(e, token)) && Legal(s, DoUnblock(c, i))
    requires e.jobID !in s.t.jobs && !Missed(s.t.unblockIndexes, e)
    requires ReleaseLegal(s, Released(Block(s.t, e, token), c), batch)
    ensures var run := [DoBlock(e, token)] + Drain(c, i, batch);
      LegalRun(s, run) && After(s, run) == UnblockAndDrain(BlockNext(s, e, token), c, i, batch)
  {
    var s1 := BlockNext(s, e, token);
    assert [] + [DoBlock(e, token)] == [DoBlock(e, token)];
    RunExtends(s, [], DoBlock(e, token));
    BlockedCanDrain(s, e, token, c, i, batch);
    DrainIsRun(s1, c, i, batch);
    RunsAppend(s, [DoBlock(e, token)], Drain(c, i, batch));
  }

  lemma BlockLastIsRun(s: System, e: Eval, token: Token, c: Class, i: nat, batch: seq<(Eval, Token)>)
    requires s.t.enabled && s.queue == [] && Legal(s, DoBlock(e, token)) && Legal(s, DoUnblock(c, i))
    requires ReleaseLegal(s, Released(s.t, c), batch)
    ensures var run := Drain(c, i, batch) + [DoBlock(e, token)];
      LegalRun(s, run) && After(s, run) == BlockNext(UnblockAndDrain(s, c, i, batch), e, token)
  {
    assert Released(Record(s.t, c, i), c) == Released(s.t, c);
    DrainIsRun(s, c, i, batch);
    OfferAllGrows(s.w, batch);
    RunExtends(s, Drain(c, i, batch), DoBlock(e, token));
  }

  // For an untracked job with no earlier missed unblock and an unblock newer than the
  // evaluation's snapshot: blocking, then unblocking and draining, ends where unblocking
  // and draining, then blocking, does, however the two releases visit their maps.
  lemma BlockUnblockCommute(s: System, e: Eval, token: Token, c: Class, i: nat,
                            first: seq<(Eval, Token)>, second: seq<(Eval, Token)>)
    requires SysInv(s) && BothOrdersLegal(s, e, token, c, i, first, second)
    requires e.jobID !in s.t.jobs && !Missed(s.t.unblockIndexes, e) && e.snapshotIndex < i
    ensures var blockFirst, blockLast := [DoBlock(e, token)] + Drain(c, i, first), Drain(c, i, second) + [DoBlock(e, token)];
      LegalRun(s, blockFirst) && LegalRun(s, blockLast) && SameSystem(After(s, blockFirst), After(s, blockLast))
  {
    BlockFirstIsRun(s, e, token, c, i, first);
    BlockLastIsRun(s, e, token, c, i, second);
    DrainedAgree(s, e, token, c, i, first, second);
  }
}
