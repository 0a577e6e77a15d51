/**
 The restart tracker of a task: whether and when the task is started again after it
 failed to start or exited, in intervals that begin when a call finds the last one over.
 Times and durations are in nanoseconds.
 */
module RestartModel {

  datatype Mode = FailMode | DelayMode

  datatype Policy = Policy(attempts: int, interval: nat, delay: nat, mode: Mode)

  datatype WaitResult = WaitResult(exitCode: int, signal: int, failed: bool)

  datatype StartError = StartError(recoverable: bool)

  datatype Option<T> = None | Some(value: T)

  datatype TaskState = Restarting | NotRestarting | Terminated | NoState

  datatype Reason =
    | NoReason
    | NoRestartsAllowed
    | Unrecoverable
    | WithinPolicy
    | Delayed
    | ExceededInFailMode
    | Unnecessary

  datatype Tracker = Tracker(
    waitRes: Option<WaitResult>,
    startErr: Option<StartError>,
    triggered: bool,
    count: int,
    onSuccess: bool,
    startTime: int,
    reason: Reason,
    policy: Policy)

  // The two clock readings of a call and the number drawn for the jitter.
  datatype Readings = Readings(now: int, later: int, drawn: nat)

  function New(policy: Policy, onSuccess: bool, now: int): Tracker {
    Tracker(None, None, false, 0, onSuccess, now, NoReason, policy)
  }

  predicate Successful(res: WaitResult) {
    res.exitCode == 0 && res.signal == 0 && !res.failed
  }

  function JitterBase(p: Policy): nat {
    if p.delay == 0 then 1 else p.delay
  }

  // A quarter of a number drawn below the base, rounded down.
  function Jitter(p: Policy, drawn: nat): nat {
    JitterBase(p) + drawn / 4
  }

  function Cleared(t: Tracker): Tracker {
    t.(startErr := None, waitRes := None, triggered := false)
  }

  // The start of a call that is neither triggered nor without attempts.
  function Counted(t: Tracker, now: int): Tracker {
    if now > t.startTime + t.policy.interval
    then t.(count := 0, startTime := now)
    else t.(count := t.count + 1)
  }

  function Allowance(t: Tracker, x: Readings): (TaskState, int, Reason) {
    if t.count > t.policy.attempts then
      if t.policy.mode == FailMode then (NotRestarting, 0, ExceededInFailMode)
      else (Restarting, t.startTime + t.policy.interval - x.later, Delayed)
    else (Restarting, Jitter(t.policy, x.drawn), WithinPolicy)
  }

  function Decide(t: Tracker, x: Readings): (TaskState, int, Reason) {
    if t.startErr.Some? then
      if !t.startErr.value.recoverable then (NotRestarting, 0, Unrecoverable)
      else Allowance(t, x)
    else if t.waitRes.Some? then
      if Successful(t.waitRes.value) && !t.onSuccess then (Terminated, 0, Unnecessary)
      else Allowance(t, x)
    else (NoState, 0, t.reason)
  }

  function GetState(t: Tracker, x: Readings): (Tracker, TaskState, int) {
    if t.triggered then (Cleared(t).(reason := NoReason), Restarting, 0)
    else if t.policy.attempts == 0 then
      (Cleared(t).(reason := NoRestartsAllowed),
       if t.waitRes.Some? && Successful(t.waitRes.value) then Terminated else NotRestarting, 0)
    else
      var t1 := Counted(t, x.now);
      var (state, delay, reason) := Decide(t1, x);
      (Cleared(t1).(reason := reason), state, delay)
  }

  // Runs under one policy

  datatype Step =
    | SetStartError(err: Option<StartError>)
    | SetWaitResult(res: Option<WaitResult>)
    | SetTriggered
    | Ask(x: Readings)

  // One answer: in which interval it was given, and why.
  datatype Answer = Answer(interval: nat, triggered: bool, state: TaskState, reason: Reason, delay: int)

  datatype World = World(t: Tracker, clock: int, interval: nat, log: seq<Answer>)

  function Start(policy: Policy, onSuccess: bool, now: int): World {
    World(New(policy, onSuccess, now), now, 0, [])
  }

  // The clock does not run backwards, and the jitter is drawn below its base.
  predicate Legal(w: World, step: Step) {
    step.Ask? ==> w.clock <= step.x.now <= step.x.later && step.x.drawn < JitterBase(w.t.policy)
  }

  function AskNext(w: World, x: Readings): World {
    var (t, state, delay) := GetState(w.t, x);
    var interval := if t.startTime != w.t.startTime then w.interval + 1 else w.interval;
    World(t, x.later, interval, w.log + [Answer(interval, w.t.triggered, state, t.reason, delay)])
  }

  function Next(w: World, step: Step): World
    requires Legal(w, step)
  {
    match step
    case SetStartError(err) => w.(t := w.t.(startErr := err))
    case SetWaitResult(res) => w.(t := w.t.(waitRes := res))
    case SetTriggered => w.(t := w.t.(triggered := true))
    case Ask(x) => AskNext(w, x)
  }

  ghost predicate LegalRun(w: World, steps: seq<Step>)
    decreases |steps|, 0
  {
    steps == [] || (LegalRun(w, steps[..|steps| - 1]) && Legal(After(w, steps[..|steps| - 1]), steps[|steps| - 1]))
  }

  ghost function After(w: World, steps: seq<Step>): World
    requires LegalRun(w, steps)
    decreases |steps|, 1
  {
    if steps == [] then w else Next(After(w, steps[..|steps| - 1]), steps[|steps| - 1])
  }

  // How many restarts within the policy the log has in one interval, and in all.

  predicate IsWithin(a: Answer) {
    a.state == Restarting && a.reason == WithinPolicy
  }

  function WithinIn(log: seq<Answer>, interval: nat): nat {
    if log == [] then 0
    else
      var last := log[|log| - 1];
      WithinIn(log[..|log| - 1], interval) + (if IsWithin(last) && last.interval == interval then 1 else 0)
  }

  function Within(log: seq<Answer>): nat {
    if log == [] then 0
    else Within(log[..|log| - 1]) + (if IsWithin(log[|log| - 1]) then 1 else 0)
  }

  function Max(a: int, b: int): int {
    if a >= b then a else b
  }

  function Limit(p: Policy, interval: nat): nat {
    Max(0, if interval == 0 then p.attempts else p.attempts + 1)
  }
}

/**
 Bounds over whole runs of the restart tracker.
 */
module RestartTheorems {
  import opened RestartModel

  // What earlier intervals allowed in total.
  function PastLimit(p: Policy, interval: nat): nat {
    if interval == 0 then 0 else PastLimit(p, interval - 1) + Limit(p, interval - 1)
  }

  predicate IsRefusal(a: Answer) {
    a.state == NotRestarting && a.reason == ExceededInFailMode
  }

  // What the current interval has seen.
  ghost predicate CountOk(w: World) {
    && 0 <= w.t.count
    && WithinIn(w.log, w.interval) <= w.t.count + (if w.interval == 0 then 0 else 1)
    && forall i | 0 <= i < |w.log| && w.log[i].interval == w.interval && IsRefusal(w.log[i]) ::
         w.t.count > w.t.policy.attempts
  }

  ghost predicate LimitOk(log: seq<Answer>, p: Policy, n: nat) {
    WithinIn(log, n) <= Limit(p, n)
  }

  // What all intervals have seen.
  ghost predicate LogOk(w: World, p: Policy) {
    && w.t.policy == p
    && (forall i | 0 <= i < |w.log| :: w.log[i].interval <= w.interval && (IsRefusal(w.log[i]) ==> p.mode == FailMode))
    && (forall n: nat :: LimitOk(w.log, p, n))
    && Within(w.log) <= PastLimit(p, w.interval) + WithinIn(w.log, w.interval)
  }

  // The least time that n whole intervals take.
  function Span(p: Policy, n: nat): nat {
    if n == 0 then 0 else Span(p, n - 1) + p.interval + 1
  }

  ghost predicate TimeOk(w: World, p: Policy, begin: int) {
    w.t.policy == p && w.t.startTime <= w.clock && Span(p, w.interval) <= w.t.startTime - begin
  }

  lemma {:induction false} NoneLater(log: seq<Answer>, n: nat)
    requires forall i | 0 <= i < |log| :: log[i].interval < n
    ensures WithinIn(log, n) == 0
  {
    if log != [] {
      NoneLater(log[..|log| - 1], n);
    }
  }

  lemma Extended(log: seq<Answer>, a: Answer, n: nat)
    ensures WithinIn(log + [a], n) == WithinIn(log, n) + (if IsWithin(a) && a.interval == n then 1 else 0)
    ensures Within(log + [a]) == Within(log) + (if IsWithin(a) then 1 else 0)
  {
    assert (log + [a])[..|log|] == log;
  }

  // How the count moves with an answer.
  ghost predicate Moves(w: World, w': World, a: Answer) {
    && w'.t.policy == w.t.policy && w'.log == w.log + [a] && a.interval == w'.interval
    && (if w'.interval == w.interval
        then w.t.count <= w'.t.count && (IsWithin(a) ==> w'.t.count == w.t.count + 1)
        else w'.interval == w.interval + 1 && w'.t.count == 0)
    && (IsWithin(a) ==> w'.t.count <= w.t.policy.attempts)
    && (IsRefusal(a) ==> w'.t.count > w.t.policy.attempts && w.t.policy.mode == FailMode)
  }

  lemma AskMoves(w: World, x: Readings)
    requires w.t.startTime <= x.now
    ensures Moves(w, AskNext(w, x), AskNext(w, x).log[|w.log|])
  {
  }

  lemma AskTime(w: World, x: Readings, p: Policy, begin: int)
    requires TimeOk(w, p, begin) && w.clock <= x.now <= x.later
    ensures TimeOk(AskNext(w, x), p, begin)
  {
  }

  lemma MovesCount(w: World, w': World, a: Answer, p: Policy)
    requires CountOk(w) && LogOk(w, p) && Moves(w, w', a)
    ensures CountOk(w')
    ensures IsWithin(a) ==> LimitOk(w'.log, p, w'.interval)
  {
    Extended(w.log, a, w'.interval);
    if w'.interval != w.interval {
      NoneLater(w.log, w'.interval);
    }
  }

  lemma MovesLog(w: World, w': World, a: Answer, p: Policy)
    requires CountOk(w) && LogOk(w, p) && Moves(w, w', a)
    ensures LogOk(w', p)
  {
    MovesCount(w, w', a, p);
    forall n: nat ensures LimitOk(w'.log, p, n) {
      assert LimitOk(w.log, p, n);
      Extended(w.log, a, n);
    }
    assert LimitOk(w.log, p, w.interval);
    Extended(w.log, a, w'.interval);
    if w'.interval != w.interval {
      NoneLater(w.log, w'.interval);
    }
  }

  lemma {:induction false} RunOk(p: Policy, onSuccess: bool, begin: int, steps: seq<Step>)
    requires LegalRun(Start(p, onSuccess, begin), steps)
    ensures CountOk(After(Start(p, onSuccess, begin), steps))
    ensures LogOk(After(Start(p, onSuccess, begin), steps), p)
    ensures TimeOk(After(Start(p, onSuccess, begin), steps), p, begin)
  {
    if steps == [] {
      forall n: nat ensures LimitOk([], p, n) {
      }
    } else {
      RunOk(p, onSuccess, begin, steps[..|steps| - 1]);
      NextOk(After(Start(p, onSuccess, begin), steps[..|steps| - 1]), steps[|steps| - 1], p, begin);
    }
  }

  lemma NextOk(w: World, step: Step, p: Policy, begin: int)
    requires Legal(w, step) && CountOk(w) && LogOk(w, p) && TimeOk(w, p, begin)
    ensures CountOk(Next(w, step)) && LogOk(Next(w, step), p) && TimeOk(Next(w, step), p, begin)
  {
    var w' := Next(w, step);
    if step.Ask? {
      var a := w'.log[|w.log|];
      AskMoves(w, step.x);
      AskTime(w, step.x, p, begin);
      MovesCount(w, w', a, p);
      MovesLog(w, w', a, p);
    } else {
      forall n: nat ensures LimitOk(w'.log, p, n) {
        assert LimitOk(w.log, p, n);
      }
    }
  }

  // At most Attempts restarts within the policy in the first interval, and at most
  // one more in each later one.
  lemma RestartsAreBounded(p: Policy, onSuccess: bool, begin: int, steps: seq<Step>, interval: nat)
    requires LegalRun(Start(p, onSuccess, begin), steps)
    ensures WithinIn(After(Start(p, onSuccess, begin), steps).log, interval) <=
      if interval == 0 then Max(0, p.attempts) else Max(0, p.attempts + 1)
  {
    RunOk(p, onSuccess, begin, steps);
    assert LimitOk(After(Start(p, onSuccess, begin), steps).log, p, interval);
  }

  lemma {:induction false} PastLimitSum(p: Policy, n: nat)
    ensures PastLimit(p, n) + Limit(p, n) <= Max(0, p.attempts) + n * Max(0, p.attempts + 1)
  {
    if n > 0 {
      PastLimitSum(p, n - 1);
      var m := Max(0, p.attempts + 1);
      assert n * m == (n - 1) * m + m;
    }
  }

  lemma {:induction false} SpanProduct(p: Policy, n: nat)
    ensures Span(p, n) == n * (p.interval + 1)
  {
    if n > 0 {
      SpanProduct(p, n - 1);
      assert n * (p.interval + 1) == (n - 1) * (p.interval + 1) + p.interval + 1;
    }
  }

  // Over the whole run the number of restarts within the policy is linear in the time
  // that has passed, counted in intervals.
  lemma RateIsBounded(p: Policy, onSuccess: bool, begin: int, steps: seq<Step>)
    requires LegalRun(Start(p, onSuccess, begin), steps)
    ensures var w := After(Start(p, onSuccess, begin), steps);
      && Within(w.log) <= Max(0, p.attempts) + w.interval * Max(0, p.attempts + 1)
      && w.interval * (p.interval + 1) <= w.clock - begin
  {
    RunOk(p, onSuccess, begin, steps);
    var w := After(Start(p, onSuccess, begin), steps);
    assert LimitOk(w.log, p, w.interval);
    PastLimitSum(p, w.interval);
    SpanProduct(p, w.interval);
  }

  // Once fail mode has refused a restart, no untriggered restart follows in the same
  // interval.
  lemma {:induction false} FailModeRefuses(p: Policy, onSuccess: bool, begin: int, steps: seq<Step>, i: nat, j: nat)
    requires LegalRun(Start(p, onSuccess, begin), steps)
    requires var log := After(Start(p, onSuccess, begin), steps).log;
      i < j < |log| && IsRefusal(log[i]) && log[j].interval == log[i].interval && !log[j].triggered
    ensures After(Start(p, onSuccess, begin), steps).log[j].state != Restarting
  {
    var init, last := steps[..|steps| - 1], steps[|steps| - 1];
    var w := After(Start(p, onSuccess, begin), init);
    RunOk(p, onSuccess, begin, init);
    if last.Ask? && j == |w.log| {
      StillRefused(w, last.x, i);
    } else {
      FailModeRefuses(p, onSuccess, begin, init, i, j);
    }
  }

  lemma StillRefused(w: World, x: Readings, i: nat)
    requires Legal(w, Ask(x)) && CountOk(w) && i < |w.log| && IsRefusal(w.log[i]) && w.log[i].interval <= w.interval
    requires w.t.policy.mode == FailMode && w.t.startTime <= w.clock
    ensures var a := AskNext(w, x).log[|w.log|];
      a.interval == w.log[i].interval && !a.triggered ==> a.state != Restarting
  {
  }

  // The state given by an untriggered call under a policy with attempts, from the
  // count that the call arrives at.
  function StateAt(t: Tracker, count: int): TaskState {
    var res := t.waitRes;
    if t.startErr.None? && res.None? then NoState
    else if t.startErr.Some? && !t.startErr.value.recoverable then NotRestarting
    else if t.startErr.None? && res.value.exitCode == 0 && res.value.signal == 0 && !res.value.failed && !t.onSuccess
    then Terminated
    else if count > t.policy.attempts && t.policy.mode == FailMode then NotRestarting
    else Restarting
  }

  // A task is terminated exactly after a good exit that asks for no restart: by a
  // policy without attempts, or because successes are not restarted and the start
  // did not fail.
  lemma TerminatedIff(t: Tracker, x: Readings)
    ensures GetState(t, x).1 == Terminated <==>
      && !t.triggered && t.waitRes.Some?
      && t.waitRes.value.exitCode == 0 && t.waitRes.value.signal == 0 && !t.waitRes.value.failed
      && (t.policy.attempts == 0 || (t.startErr.None? && !t.onSuccess))
  {
  }

  // Every answer of an untriggered call, and the tracker it leaves.
  lemma AnswersAre(t: Tracker, x: Readings)
    requires !t.triggered
    ensures var (t', state, delay) := GetState(t, x);
      var over := x.now > t.startTime + t.policy.interval;
      if t.policy.attempts == 0 then
        && (state == Terminated || state == NotRestarting)
        && t'.count == t.count && t'.startTime == t.startTime && t'.reason == NoRestartsAllowed
      else
        && t'.count == (if over then 0 else t.count + 1) && t'.startTime == (if over then x.now else t.startTime)
        && state == StateAt(t, t'.count)
        && t'.reason == (if state == NoState then t.reason
                         else if state == Terminated then Unnecessary
                         else if t.startErr.Some? && !t.startErr.value.recoverable then Unrecoverable
                         else if t'.count <= t.policy.attempts then WithinPolicy
                         else if t.policy.mode == FailMode then ExceededInFailMode
                         else Delayed)
  {
  }

  // A triggered call restarts at once and outside the count, and every call forgets
  // what it was told.
  lemma CallsForget(t: Tracker, x: Readings)
    ensures var (t', state, delay) := GetState(t, x);
      && t'.waitRes == None && t'.startErr == None && !t'.triggered
      && t'.policy == t.policy && t'.onSuccess == t.onSuccess
      && (t.triggered ==> state == Restarting && delay == 0 && t'.count == t.count && t'.startTime == t.startTime)
  {
  }

  // Delays: within the policy the base, one nanosecond if the policy has none, and at
  // most a quarter on top; beyond it the rest of the interval, which is negative
  // exactly when the second reading of the clock comes after the interval's end.
  lemma DelaysAreBounded(t: Tracker, x: Readings)
    requires t.startTime <= x.now <= x.later && x.drawn < JitterBase(t.policy)
    ensures var (t', state, delay) := GetState(t, x); var base := if t.policy.delay == 0 then 1 else t.policy.delay;
      && (state == Restarting && t'.reason == WithinPolicy ==>
            && base <= delay <= base + (base - 1) / 4
            && 4 * (delay - base) <= x.drawn < 4 * (delay - base) + 4)
      && (state == Restarting && t'.reason == Delayed ==>
            && delay == t'.startTime + t.policy.interval - x.later
            && delay <= t.policy.interval && (delay >= 0 <==> x.later <= t'.startTime + t.policy.interval))
      && (state == Restarting && t'.reason != WithinPolicy && t'.reason != Delayed ==> t.triggered && delay == 0)
      && (state != Restarting ==> delay == 0)
  {
  }

  function InFailMode(t: Tracker): Tracker {
    t.(policy := t.policy.(mode := FailMode))
  }

  // A start error is answered as in fail mode exactly when the answer does not depend
  // on the mode: a triggered restart, no attempts, fail mode itself, an unrecoverable
  // error, or a count within the attempts.
  lemma StartErrorFailsIff(t: Tracker, x: Readings)
    requires t.startErr.Some?
    ensures GetState(t, x).1 == GetState(InFailMode(t), x).1 <==>
      || t.triggered || t.policy.attempts == 0 || t.policy.mode == FailMode || !t.startErr.value.recoverable
      || (if x.now > t.startTime + t.policy.interval then 0 else t.count + 1) <= t.policy.attempts
  {
  }

  // A recoverable start error has the same effect as a failed exit.
  lemma StartErrorIsLikeExit(t: Tracker, err: StartError, res: WaitResult, x: Readings)
    requires err.recoverable && !Successful(res)
    ensures GetState(t.(startErr := Some(err), waitRes := None), x)
         == GetState(t.(startErr := None, waitRes := Some(res)), x)
  {
  }

  // Start errors that keep coming

  ghost predicate Reaches(w: World, w': World) {
    exists steps :: LegalRun(w, steps) && After(w, steps) == w'
  }

  lemma ReachesSelf(w: World)
    ensures Reaches(w, w)
  {
    assert LegalRun(w, []) && After(w, []) == w;
  }

  lemma ReachesNext(w: World, w': World, s: Step)
    requires Reaches(w, w') && Legal(w', s)
    ensures Reaches(w, Next(w', s))
  {
    var steps :| LegalRun(w, steps) && After(w, steps) == w';
    assert (steps + [s])[..|steps|] == steps;
    assert LegalRun(w, steps + [s]) && After(w, steps + [s]) == Next(w', s);
  }

  const FAULT := Some(StartError(true))

  // One more recoverable start error, reported at the given time.
  function Failing(w: World, now: int): World {
    AskNext(w.(t := w.t.(startErr := FAULT)), Readings(now, now, 0))
  }

  lemma ReachesFailing(w: World, w': World, now: int)
    requires Reaches(w, w') && w'.clock <= now
    ensures Reaches(w, Failing(w', now))
  {
    ReachesNext(w, w', SetStartError(FAULT));
    ReachesNext(w, w'.(t := w'.t.(startErr := FAULT)), Ask(Readings(now, now, 0)));
  }

  // A state in which the current interval has just begun, or has seen m restarts since.
  ghost predicate Counting(w: World, p: Policy, m: int) {
    && w.t.policy == p && !w.t.triggered && w.t.count == m && w.t.startTime == w.clock
    && (forall i | 0 <= i < |w.log| :: w.log[i].interval <= w.interval)
  }

  lemma {:induction false} EnterInterval(p: Policy, onSuccess: bool, begin: int, k: nat) returns (w: World)
    requires p.attempts >= 1
    ensures Reaches(Start(p, onSuccess, begin), w) && Counting(w, p, 0) && w.interval == k
    ensures WithinIn(w.log, k) == if k == 0 then 0 else 1
  {
    if k == 0 {
      w := Start(p, onSuccess, begin);
      ReachesSelf(w);
    } else {
      var w1 := EnterInterval(p, onSuccess, begin, k - 1);
      var now := w1.t.startTime + p.interval + 1;
      ReachesFailing(Start(p, onSuccess, begin), w1, now);
      w := Failing(w1, now);
      NoneLater(w1.log, k);
      Extended(w1.log, w.log[|w1.log|], k);
    }
  }

  lemma {:induction false} StayInInterval(p: Policy, onSuccess: bool, begin: int, k: nat, m: nat) returns (w: World)
    requires 1 <= p.attempts && m <= p.attempts
    ensures Reaches(Start(p, onSuccess, begin), w) && Counting(w, p, m) && w.interval == k
    ensures WithinIn(w.log, k) == m + if k == 0 then 0 else 1
  {
    if m == 0 {
      w := EnterInterval(p, onSuccess, begin, k);
    } else {
      var w1 := StayInInterval(p, onSuccess, begin, k, m - 1);
      ReachesFailing(Start(p, onSuccess, begin), w1, w1.clock);
      w := Failing(w1, w1.clock);
      Extended(w1.log, w.log[|w1.log|], k);
    }
  }

  // The bounds are reached: under every policy that allows attempts, each interval can
  // have as many restarts within the policy as RestartsAreBounded allows.
  lemma BoundsAreReached(p: Policy, onSuccess: bool, begin: int, k: nat) returns (w: World)
    requires p.attempts >= 1
    ensures Reaches(Start(p, onSuccess, begin), w)
    ensures WithinIn(w.log, k) == if k == 0 then p.attempts else p.attempts + 1
  {
    w := StayInInterval(p, onSuccess, begin, k, p.attempts);
  }

  // What the comment on start errors rules out: in delay mode they are answered with
  // any number of restarts within one interval.
  lemma {:induction false} DelayModeNeverStops(p: Policy, onSuccess: bool, begin: int, n: nat) returns (w: World)
    requires p.mode == DelayMode && p.attempts != 0
    ensures Reaches(Start(p, onSuccess, begin), w) && Counting(w, p, n) && w.interval == 0 && |w.log| == n
    ensures forall i | 0 <= i < n :: w.log[i].state == Restarting && !w.log[i].triggered && w.log[i].interval == 0
  {
    if n == 0 {
      w := Start(p, onSuccess, begin);
      ReachesSelf(w);
    } else {
      var w1 := DelayModeNeverStops(p, onSuccess, begin, n - 1);
      ReachesFailing(Start(p, onSuccess, begin), w1, w1.clock);
      w := Failing(w1, w1.clock);
    }
  }
}

/**
 The tracker as an object.
 */
module RestartObject {
  import opened RestartModel
  import T = RestartTheorems

  class RestartTracker {
    var waitRes: Option<WaitResult>
    var startErr: Option<StartError>
    var restartTriggered: bool
    var count: int
    const onSuccess: bool
    var startTime: int
    var reason: Reason
    var policy: Policy

    function State(): Tracker
      reads this
    {
      Tracker(waitRes, startErr, restartTriggered, count, onSuccess, startTime, reason, policy)
    }

    // Batch jobs are not restarted after a success.
    constructor (policy: Policy, batch: bool, now: int)
      ensures State() == New(policy, !batch, now)
    {
      waitRes, startErr, restartTriggered, count := None, None, false, 0;
      onSuccess, startTime, reason, this.policy := !batch, now, NoReason, policy;
    }

    method SetPolicy(p: Policy)
      modifies this
      ensures State() == old(State()).(policy := p)
    {
      policy := p;
    }

    method SetStartError(err: Option<StartError>)
      modifies this
      ensures State() == old(State()).(startErr := err)
    {
      startErr := err;
    }

    method SetWaitResult(res: Option<WaitResult>)
      modifies this
      ensures State() == old(State()).(waitRes := res)
    {
      waitRes := res;
    }

    method SetRestartTriggered()
      modifies this
      ensures State() == old(State()).(triggered := true)
    {
      restartTriggered := true;
    }

    method GetState(x: Readings) returns (state: TaskState, delay: int)
      modifies this
      ensures (State(), state, delay) == RestartModel.GetState(old(State()), x)
      ensures state == Terminated <==>
        && !old(restartTriggered) && old(waitRes).Some?
        && old(waitRes).value.exitCode == 0 && old(waitRes).value.signal == 0 && !old(waitRes).value.failed
        && (policy.attempts == 0 || (old(startErr).None? && !onSuccess))
    {
      T.TerminatedIff(State(), x);
      state, delay := Answer(x);
      startErr, waitRes, restartTriggered := None, None, false;
    }

    // GetState before the deferred clean-up.
    method Answer(x: Readings) returns (state: TaskState, delay: int)
      modifies this
      ensures (Cleared(State()), state, delay) == RestartModel.GetState(old(State()), x)
    {
      if restartTriggered {
        reason := NoReason;
        return Restarting, 0;
      }
      if policy.attempts == 0 {
        reason := NoRestartsAllowed;
        if waitRes.Some? && Successful(waitRes.value) {
          return Terminated, 0;
        }
        return NotRestarting, 0;
      }
      count := count + 1;
      var end := startTime + policy.interval;
      if x.now > end {
        count := 0;
        startTime := x.now;
      }
      if startErr.Some? {
        state, delay := HandleStartError(x);
      } else if waitRes.Some? {
        state, delay := HandleWaitResult(x);
      } else {
        return NoState, 0;
      }
    }

    method HandleStartError(x: Readings) returns (state: TaskState, delay: int)
      requires startErr.Some?
      modifies this`reason
      ensures (state, delay, reason) == Decide(old(State()), x)
      ensures state == if !startErr.value.recoverable || (count > policy.attempts && policy.mode == FailMode)
        then NotRestarting else Restarting
    {
      if !startErr.value.recoverable {
        reason := Unrecoverable;
        return NotRestarting, 0;
      }
      if count > policy.attempts {
        if policy.mode == FailMode {
          reason := ExceededInFailMode;
          return NotRestarting, 0;
        } else {
          reason := Delayed;
          return Restarting, startTime + policy.interval - x.later;
        }
      }
      reason := WithinPolicy;
      return Restarting, Jitter(policy, x.drawn);
    }

    method HandleWaitResult(x: Readings) returns (state: TaskState, delay: int)
      requires startErr.None? && waitRes.Some?
      modifies this`reason
      ensures (state, delay, reason) == Decide(old(State()), x)
      ensures state == Terminated <==>
        waitRes.value.exitCode == 0 && waitRes.value.signal == 0 && !waitRes.value.failed && !onSuccess
      ensures state == NotRestarting <==>
        state != Terminated && count > policy.attempts && policy.mode == FailMode
    {
      if Successful(waitRes.value) && !onSuccess {
        reason := Unnecessary;
        return Terminated, 0;
      }
      if count > policy.attempts {
        if policy.mode == FailMode {
          reason := ExceededInFailMode;
          return NotRestarting, 0;
        } else {
          reason := Delayed;
          return Restarting, startTime + policy.interval - x.later;
        }
      }
      reason := WithinPolicy;
      return Restarting, Jitter(policy, x.drawn);
    }
  }
}
