/** What the REST client promises over whole runs. */
module RestTheorems {
  import opened Wrappers
  import opened RestModel
  import opened RestInvariant
  import opened RestSelector
  import opened RestSteps
  import T = TimerQueue

  // ---------------------------------------------------------------- conservation

  /** In every state of every run each allocated request is in exactly one container, once, and no
      container holds anything else. */
  lemma Conservation(states: seq<State>, steps: seq<Step>, k: nat, r: ReqId)
    requires IsRun(states, steps) && k < |states|
    ensures var s := states[k];
            && (r in s.reqs <==> exists p :: In(s, p, r))
            && (forall p, q :: In(s, p, r) && In(s, q, r) ==> p == q)
            && Queues(s)
  {
    RunKeeps(states, steps, k);
    var s := states[k];
    if r in s.reqs {
      assert In(s, s.reqs[r].place, r);
    }
  }

  // -------------------------------------------------------------------- the buckets

  /** The request `r` is in the air for the bucket `b`. */
  ghost predicate Flies(s: State, b: BucketId, r: ReqId) {
    r in s.flying && r in s.reqs && s.reqs[r].bucket == Some(b)
  }

  /** The timer `id` is one of the bucket `b`. */
  ghost predicate TimerOf(s: State, id: T.TimerId, b: BucketId) {
    id in s.timers.q && s.timers.q[id].timer.data == b
  }

  lemma FlightIsBusy(s: State, r: ReqId)
    requires Inv(s) && r in s.flying
    ensures r in s.reqs && s.reqs[r].bucket.Some? && s.reqs[r].bucket.value in s.buckets
    ensures s.buckets[s.reqs[r].bucket.value].busy == Holding(r)
  {
    assert In(s, InFlight, r);
    assert ReqOk(s, r);
  }

  lemma TimerIsWait(s: State, b: BucketId, id: T.TimerId)
    requires Inv(s) && b in s.buckets
    ensures TimerOf(s, id, b) ==>
              && b in s.waits && s.waits[b].id == id && s.buckets[b].busy == Timeout
              && s.timers.q[id].key >= 1000 * s.waits[b].until
    ensures s.buckets[b].busy == Timeout ==> b in s.waits && TimerOf(s, s.waits[b].id, b)
  {
    if TimerOf(s, id, b) {
      assert WaitOk(s, b);
    }
    if s.buckets[b].busy == Timeout {
      assert WaitOk(s, b);
    }
  }

  /** The three states of a bucket. Idle: nothing in the air, no timer. Busy: at most its busy request is
      in the air, no timer. Timed out: nothing in the air, and one timer, which is armed. */
  ghost predicate OneOfThree(s: State, b: BucketId)
    requires b in s.buckets
  {
    match s.buckets[b].busy
    case Idle => (forall r :: !Flies(s, b, r)) && forall id :: !TimerOf(s, id, b)
    case Holding(q) => (forall r :: Flies(s, b, r) ==> r == q) && forall id :: !TimerOf(s, id, b)
    case Timeout =>
      && (forall r :: !Flies(s, b, r))
      && exists id :: TimerOf(s, id, b) && s.timers.q[id].key >= 0 && forall j :: TimerOf(s, j, b) ==> j == id
  }

  /** A bucket is in one of the three, in every state of every run. And what is in the air is in the air
      for some bucket. */
  lemma Trichotomy(states: seq<State>, steps: seq<Step>, k: nat, b: BucketId)
    requires IsRun(states, steps) && k < |states| && b in states[k].buckets
    ensures OneOfThree(states[k], b)
    ensures forall r :: r in states[k].flying ==> exists c :: c in states[k].buckets && Flies(states[k], c, r)
  {
    RunKeeps(states, steps, k);
    hide *;
    AlwaysOneOfThree(states[k], b);
    Flights(states[k], b);
  }

  lemma AlwaysOneOfThree(s: State, b: BucketId)
    requires Inv(s) && b in s.buckets
    ensures OneOfThree(s, b)
  {
    hide Inv, Flies, TimerOf;
    Flights(s, b);
    Timers(s, b);
  }

  lemma Flights(s: State, b: BucketId)
    requires Inv(s) && b in s.buckets
    ensures forall r :: Flies(s, b, r) ==> s.buckets[b].busy == Holding(r)
    ensures forall r :: r in s.flying ==> exists c :: c in s.buckets && Flies(s, c, r)
  {
    hide Inv;
    forall r | r in s.flying
      ensures r in s.reqs && s.reqs[r].bucket.Some? && s.reqs[r].bucket.value in s.buckets
      ensures s.buckets[s.reqs[r].bucket.value].busy == Holding(r) && Flies(s, s.reqs[r].bucket.value, r)
    {
      FlightIsBusy(s, r);
    }
  }

  lemma Timers(s: State, b: BucketId)
    requires Inv(s) && b in s.buckets
    ensures forall id :: TimerOf(s, id, b) ==> s.buckets[b].busy == Timeout
    ensures s.buckets[b].busy == Timeout ==>
              exists id :: TimerOf(s, id, b) && s.timers.q[id].key >= 0 && forall j :: TimerOf(s, j, b) ==> j == id
  {
    hide Inv;
    forall id
      ensures TimerOf(s, id, b) ==> b in s.waits && s.waits[b].id == id && s.buckets[b].busy == Timeout
      ensures TimerOf(s, id, b) ==> s.timers.q[id].key >= 0
    {
      TimerIsWait(s, b, id);
    }
    TimerIsWait(s, b, 0);
    if s.buckets[b].busy == Timeout {
      var id := s.waits[b].id;
      assert TimerOf(s, id, b) && s.timers.q[id].key >= 0;
      hide TimerOf;
    }
  }

  /** The selector never meets a bucket without a request, and never misses one with a request. */
  lemma PendingIffQueued(states: seq<State>, steps: seq<Step>, k: nat, b: BucketId)
    requires IsRun(states, steps) && k < |states| && b in states[k].buckets
    ensures b in states[k].line <==> states[k].buckets[b].next != []
  {
    RunKeeps(states, steps, k);
    assert OnLine(states[k], b) <==> b in states[k].line;
  }

  // -------------------------------------------------- what a step does to a bucket

  /** The bucket is in the air, waiting or idle exactly as before. */
  ghost predicate SameBusy(s: State, s1: State, c: BucketId)
    requires c in s.buckets
  {
    c in s1.buckets && s1.buckets[c].busy == s.buckets[c].busy
  }

  ghost predicate WaitKept(s: State, s1: State, c: BucketId) {
    c in s.waits ==> c in s1.waits && s1.waits[c] == s.waits[c]
  }

  lemma FiledSpares(s: State)
    requires Inv(s)
    ensures Inv(Filed(s)) && Spared(s, Filed(s))
  {
    TakePendingKeeps(s);
    FileAllKeeps(TakePending(s));
    assert Spared(TakePending(s), Filed(s));
  }

  lemma StartLeaves(s: State, arms: map<BucketId, Arming>, c: BucketId)
    requires Inv(s) && Startable(s, arms) && c in s.buckets
    ensures s.buckets[c].busy != Idle ==> SameBusy(s, StartCall(s, arms), c)
    ensures WaitKept(s, StartCall(s, arms), c)
  {
    assert c in s.waits ==> WaitOk(s, c);
    hide Inv, Within, Filed, Startable, Selectable, SelectAll;
    FiledSpares(s);
    StartReady(s, arms);
    var s0 := TakeLine(Filed(s));
    PassBuckets(s0, arms);
    PassWait(s0, arms, c);
  }

  lemma StartFlights(s: State, arms: map<BucketId, Arming>, r: ReqId)
    requires Inv(s) && Startable(s, arms)
    ensures Inv(Filed(s)) && Filed(s).flying == s.flying
    ensures r in StartCall(s, arms).flying <==> r in s.flying || Departs(TakeLine(Filed(s)), r)
  {
    FiledSpares(s);
    StartReady(s, arms);
    hide Within, Inv, Filed, Departs;
    PassFlights(TakeLine(Filed(s)), arms, r);
  }

  lemma SettleLeaves(s: State, r: ReqId, b: BucketId, result: Result, c: BucketId)
    requires Landed(s, r, b) && c in s.buckets && Settle(s, r, result).Ok?
    ensures var s1 := Settle(s, r, result).s;
            && (c != b ==> SameBusy(s, s1, c))
            && s1.waits == s.waits && s1.flying == s.flying && s1.timers == s.timers
            && b in s1.buckets
            && s1.buckets[b].busy ==
                 (if Retryable(result) && s.reqs[r].attempts < s.retryLimit then s.buckets[b].busy else Idle)
  {
  }

  lemma CompleteLeaves(s: State, r: ReqId, result: Result, times: Times, newB: BucketId, c: BucketId)
    requires Inv(s) && r in s.flying && newB !in s.buckets && c in s.buckets
    requires CompleteCall(s, r, result, times, newB).Ok?
    ensures r in s.reqs && s.reqs[r].bucket.Some? && s.reqs[r].bucket.value in s.buckets
    ensures var s1 := CompleteCall(s, r, result, times, newB).s;
            var b := s.reqs[r].bucket.value;
            && (c != b ==> SameBusy(s, s1, c))
            && s1.waits == s.waits && s1.flying == s.flying - {r} && s1.timers == s.timers
            && b in s1.buckets
            && s1.buckets[b].busy == (if Retryable(result) && !IsTooMany(result) && s.reqs[r].attempts < s.retryLimit
                                      then Holding(r) else Idle)
  {
    hide Within, Digest, Inv, Settle;
    LandKeeps(s, r);
    DigestedState(s, r, result, times, newB);
    SettleLeaves(Digest(Land(s, r), r, result, times, newB), r, s.reqs[r].bucket.value, result, c);
  }

  /** Beginning, dispatching and returning requests is no business of the buckets. */
  lemma QuietLeaves(s: State, step: Step)
    requires Inv(s) && Enabled(s, step) && (step.Begin? || step.Dispatch? || step.SyncReturn?)
    ensures var o := Do(s, step);
            o.Ok? && o.s.buckets == s.buckets && o.s.flying == s.flying && o.s.waits == s.waits
  {
    hide Within, Inv;
    match step
    case Begin(id, key, sync, high) => BeginKeeps(s, id, key, sync, high);
    case Dispatch => DispatchKeeps(s);
    case SyncReturn(r) => SyncReturnKeeps(s, r);
  }

  lemma WakeLeaves(s: State, step: Step, c: BucketId)
    requires Inv(s) && Enabled(s, step) && step.Wake? && c in s.buckets
    ensures var o := Do(s, step);
            && o.Ok? && o.s.flying == s.flying
            && (s.buckets[c].busy != Timeout ==> SameBusy(s, o.s, c))
            && (c in s.waits && s.waits[c].id != step.id ==> WaitKept(s, o.s, c))
  {
    hide Within, Inv, T.Do, Startable, CompleteCall, BeginCall, StartCall, DoComplete, DoStart, DoBegin;
    WakeTimers(s, step.id, step.now);
  }

  /** A wait lasts until its own timer runs; nothing else ends or changes it. */
  lemma StepKeepsWait(s: State, step: Step, b: BucketId)
    requires Inv(s) && Enabled(s, step) && Do(s, step).Ok? && b in s.waits
    requires step.Wake? ==> step.id != s.waits[b].id
    ensures WaitKept(s, Do(s, step).s, b)
  {
    assert WaitOk(s, b);
    hide Within, Inv, StartCall, CompleteCall, DoWake;
    if step.StartPending? {
      StartLeaves(s, step.arms, b);
    } else if step.Complete? {
      CompleteLeaves(s, step.r, step.result, step.times, step.newBucket, b);
    } else if step.Wake? {
      WakeLeaves(s, step, b);
    } else {
      hide Do;
      QuietLeaves(s, step);
    }
  }

  // ------------------------------------------------------------------- cool-down

  /** The bucket's wake timer does not run in the steps from `i` to `j`. */
  ghost predicate Asleep(states: seq<State>, steps: seq<Step>, b: BucketId, i: nat, j: nat)
    requires |states| == |steps| + 1 && i <= j <= |steps|
  {
    forall n :: i <= n < j && steps[n].Wake? && b in states[n].waits ==> steps[n].id != states[n].waits[b].id
  }

  lemma WaitingRests(s: State, b: BucketId, r: ReqId)
    requires Inv(s) && b in s.waits && r in s.flying
    ensures r in s.reqs && s.reqs[r].bucket != Some(b)
  {
    assert WaitOk(s, b);
    assert In(s, InFlight, r);
    assert ReqOk(s, r);
  }

  lemma {:induction false} WaitStands(states: seq<State>, steps: seq<Step>, i: nat, j: nat, b: BucketId)
    requires IsRun(states, steps) && i <= j <= |steps| && b in states[i].waits && Asleep(states, steps, b, i, j)
    ensures b in states[j].waits && states[j].waits[b] == states[i].waits[b]
    decreases j
  {
    if i < j {
      var k := j - 1;
      WaitStands(states, steps, i, k, b);
      assert Moves(states[k], steps[k], states[k + 1]);
      assert steps[k].Wake? ==> steps[k].id != states[k].waits[b].id;
      hide Inv, Enabled, Do;
      StepKeepsWait(states[k], steps[k], b);
    }
  }

  /** Cool-down: from the arming of a bucket until its wake callback runs, whatever else happens,
      no request of the bucket is in the air and its wait stands. */
  lemma CoolDown(states: seq<State>, steps: seq<Step>, i: nat, j: nat, b: BucketId, r: ReqId)
    requires IsRun(states, steps) && i <= j <= |steps| && b in states[i].waits && Asleep(states, steps, b, i, j)
    ensures b in states[j].waits && states[j].waits[b] == states[i].waits[b]
    ensures r in states[j].flying ==> r in states[j].reqs && states[j].reqs[r].bucket != Some(b)
  {
    WaitStands(states, steps, i, j, b);
    RunKeeps(states, steps, j);
    if r in states[j].flying {
      WaitingRests(states[j], b, r);
    }
  }

  /** The wake of an armed bucket does not run before the time it was armed for, whatever was lost
      in converting microseconds to milliseconds and back. */
  lemma WakeNotEarly(states: seq<State>, steps: seq<Step>, i: nat, j: nat, b: BucketId)
    requires IsRun(states, steps) && i <= j < |steps| && b in states[i].waits && Asleep(states, steps, b, i, j)
    requires steps[j].Wake? && steps[j].id == states[i].waits[b].id
    ensures states[i].waits[b].until <= steps[j].now / 1000
  {
    WaitStands(states, steps, i, j, b);
    RunKeeps(states, steps, j);
    assert Moves(states[j], steps[j], states[j + 1]);
    assert WaitOk(states[j], b);
    WakeTimers(states[j], steps[j].id, steps[j].now);
  }

  lemma PassUntil(s: State, arms: map<BucketId, Arming>, b: BucketId)
    requires Inv(s) && Selectable(TakeLine(s)) && b in s.buckets
    ensures s.buckets[b].next != [] && VerdictOn(s.buckets[b]).Armed? ==>
              b in SelectAll(TakeLine(s), arms).waits && SelectAll(TakeLine(s), arms).waits[b].until == Until(s, b)
  {
    assert OnLine(s, b) <==> b in s.line;
    hide Inv, Selectable, SelectAll;
    PassWait(TakeLine(s), arms, b);
  }

  /** The selector arms a bucket for the later of the global and the bucket's own reset time. */
  lemma ArmedUntil(s: State, arms: map<BucketId, Arming>, b: BucketId)
    requires Inv(s) && Startable(s, arms) && b in Filed(s).buckets
    ensures var s0 := Filed(s);
            var armed := s0.buckets[b].next != [] && VerdictOn(s0.buckets[b]).Armed?;
            armed ==> b in StartCall(s, arms).waits && StartCall(s, arms).waits[b].until == Until(s0, b)
  {
    hide Inv, Filed, Startable, Selectable, Until, Within;
    StartReady(s, arms);
    PassUntil(Filed(s), arms, b);
  }

  // -------------------------------------------------------------- the lasting stall

  /** The bucket's busy request is not in the air. */
  ghost predicate Stalled(s: State, b: BucketId) {
    b in s.buckets && s.buckets[b].busy.Holding? && s.buckets[b].busy.req !in s.flying
  }

  lemma StalledPlace(s: State, b: BucketId)
    requires Inv(s) && Stalled(s, b)
    ensures In(s, Next(b), s.buckets[b].busy.req)
  {
    var r := s.buckets[b].busy.req;
    assert BusyOk(s, b);
    assert In(s, s.reqs[r].place, r);
  }

  lemma NoneFlies(s: State, b: BucketId, q: ReqId)
    requires Inv(s) && Stalled(s, b) && q in s.flying
    ensures q in s.reqs && s.reqs[q].bucket.Some? && s.reqs[q].bucket != Some(b)
  {
    assert In(s, InFlight, q);
    assert ReqOk(s, q);
  }

  lemma HeadSentIdle(s: State, b: BucketId, c: BucketId)
    requires Inv(s) && Stalled(s, b) && c in s.buckets && s.buckets[c].busy == Idle && s.buckets[c].next != []
    ensures s.buckets[c].next[0] != s.buckets[b].busy.req
  {
    StalledPlace(s, b);
    assert In(s, Next(c), s.buckets[c].next[0]);
  }

  lemma StallStart(s: State, arms: map<BucketId, Arming>, b: BucketId)
    requires Inv(s) && Stalled(s, b) && Startable(s, arms)
    ensures Stalled(StartCall(s, arms), b)
  {
    StartLeaves(s, arms, b);
    FiledSpares(s);
    hide Within, Inv, StartCall, Filed;
    var r := s.buckets[b].busy.req;
    var s0 := Filed(s);
    if r in StartCall(s, arms).flying {
      StartFlights(s, arms, r);
      var c :| HasVerdict(TakeLine(s0), c, Sent) && s0.buckets[c].next != [] && r == s0.buckets[c].next[0];
      HeadSentIdle(s0, b, c);
    }
  }

  lemma StallStep(s: State, step: Step, b: BucketId)
    requires Inv(s) && Stalled(s, b) && Enabled(s, step) && Do(s, step).Ok?
    ensures Stalled(Do(s, step).s, b)
  {
    hide Within, Inv, StartCall, CompleteCall, DoWake;
    if step.StartPending? {
      StallStart(s, step.arms, b);
    } else if step.Complete? {
      NoneFlies(s, b, step.r);
      CompleteLeaves(s, step.r, step.result, step.times, step.newBucket, b);
    } else if step.Wake? {
      WakeLeaves(s, step, b);
    } else {
      hide Do;
      QuietLeaves(s, step);
    }
  }

  /** A stalled bucket stays stalled in every run: none of its requests is ever sent again. */
  lemma {:induction false} StallLasts(states: seq<State>, steps: seq<Step>, i: nat, j: nat, b: BucketId, q: ReqId)
    requires IsRun(states, steps) && i <= j <= |steps| && Stalled(states[i], b)
    ensures Stalled(states[j], b)
    ensures q in states[j].flying ==> q in states[j].reqs && states[j].reqs[q].bucket != Some(b)
    decreases j
  {
    RunKeeps(states, steps, j);
    if i < j {
      var k := j - 1;
      StallLasts(states, steps, i, k, b, q);
      assert Moves(states[k], steps[k], states[k + 1]);
      hide Inv, Enabled, Do, Stalled;
      StallStep(states[k], steps[k], b);
    }
    if q in states[j].flying {
      NoneFlies(states[j], b, q);
    }
  }

  /** A completion stalls its bucket exactly when the transfer is retried for another reason than a
      429: only the 429 path releases the bucket before the request is put back. */
  lemma StallIff(s: State, r: ReqId, result: Result, times: Times, newB: BucketId)
    requires Inv(s) && r in s.flying && newB !in s.buckets && !Trips(s, r, result)
    ensures CompleteCall(s, r, result, times, newB).Ok?
    ensures r in s.reqs && s.reqs[r].bucket.Some? && s.reqs[r].bucket.value in s.buckets
    ensures Stalled(CompleteCall(s, r, result, times, newB).s, s.reqs[r].bucket.value)
       <==> Retryable(result) && !IsTooMany(result) && s.reqs[r].attempts < s.retryLimit
  {
    LandKeeps(s, r);
    AbortsIff(s, r, result, times, newB);
    hide Inv, CompleteCall;
    CompleteLeaves(s, r, result, times, newB, s.reqs[r].bucket.value);
  }

  // ------------------------------------------------------- what is never lost

  /** Requests stay allocated, and the limit of retries stands. */
  ghost predicate Grows(s: State, s1: State) {
    s1.retryLimit == s.retryLimit && forall r :: r in s.reqs ==> r in s1.reqs
  }

  lemma StartGrows(s: State, arms: map<BucketId, Arming>)
    requires Inv(s) && Startable(s, arms)
    ensures Grows(s, StartCall(s, arms))
  {
    FiledSpares(s);
    StartReady(s, arms);
    hide Within, Inv;
    PassRequests(TakeLine(Filed(s)), arms);
  }

  lemma SettleGrows(s: State, r: ReqId, result: Result)
    requires r in s.reqs && s.reqs[r].bucket.Some? && s.reqs[r].bucket.value in s.buckets
    ensures Settle(s, r, result).Ok? ==> Grows(s, Settle(s, r, result).s)
  {
  }

  lemma CompleteGrows(s: State, r: ReqId, result: Result, times: Times, newB: BucketId)
    requires Inv(s) && r in s.flying && newB !in s.buckets && CompleteCall(s, r, result, times, newB).Ok?
    ensures Grows(s, CompleteCall(s, r, result, times, newB).s)
  {
    LandKeeps(s, r);
    DigestedState(s, r, result, times, newB);
    hide Within, Digest, Inv, Settle;
    SettleGrows(Digest(Land(s, r), r, result, times, newB), r, result);
  }

  lemma StepGrows(s: State, step: Step)
    requires Inv(s) && Enabled(s, step) && Do(s, step).Ok?
    ensures Grows(s, Do(s, step).s)
  {
    if step.StartPending? {
      StartGrows(s, step.arms);
    } else if step.Complete? {
      CompleteGrows(s, step.r, step.result, step.times, step.newBucket);
    } else {
      hide Within, T.Do;
      match step
      case Begin(id, key, sync, high) => BeginKeeps(s, id, key, sync, high);
      case Wake(id, now) => WakeKeeps(s, id, now);
      case Dispatch => DispatchKeeps(s);
      case SyncReturn(r) => SyncReturnKeeps(s, r);
    }
  }

  lemma {:induction false} RunGrows(states: seq<State>, steps: seq<Step>, i: nat, j: nat)
    requires IsRun(states, steps) && i <= j <= |steps|
    ensures Grows(states[i], states[j])
    decreases j
  {
    if i < j {
      var k := j - 1;
      RunGrows(states, steps, i, k);
      assert Moves(states[k], steps[k], states[k + 1]);
      hide Inv, Enabled, Do;
      StepGrows(states[k], steps[k]);
    }
  }

  /** Over any run no request is lost, and no use of a request is sent more than `retry_limit + 1` times. */
  lemma NothingLostNothingRepeated(states: seq<State>, steps: seq<Step>, i: nat, j: nat, r: ReqId)
    requires IsRun(states, steps) && i <= j <= |steps| && r in states[i].reqs
    ensures r in states[j].reqs
    ensures states[j].reqs[r].place != Recycling ==> states[j].reqs[r].sends <= states[i].retryLimit + 1
  {
    RunGrows(states, steps, i, j);
    RunKeeps(states, steps, j);
    assert ReqOk(states[j], r);
  }
}
