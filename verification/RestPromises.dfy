/** What becomes of a request, and when a held bucket is woken. */
module RestPromises {
  import opened Wrappers
  import opened RestModel
  import opened RestInvariant
  import opened RestSelector
  import opened RestSteps
  import opened RestTheorems
  import opened RestLimits
  import opened RestOrder
  import T = TimerQueue

  // ------------------------------------------------------------------ the wake's time

  /** Timers that are set stay as they are while the selector sets others. */
  lemma {:induction false} PassTimers(s: State, arms: map<BucketId, Arming>, id: T.TimerId)
    requires Within(s, {}) && s.hand == [] && s.current == None && ArmingsOk(s, arms) && id in s.timers.q
    ensures Selectable(s)
    ensures var s1 := SelectAll(s, arms);
            id in s1.timers.q && s1.timers.q[id] == s.timers.q[id]
    decreases |s.todo|
  {
    SelectableWithin(s);
    if s.todo != [] {
      var b := s.todo[0];
      var arm := ArmingOf(arms, b);
      SelectableAt(s, b);
      TurnReady(s, arms);
      var s1 := SelectOne(s.(todo := s.todo[1..]), b, arm);
      TurnTimers(s.(todo := s.todo[1..]), b, arm);
      assert VerdictOn(s.buckets[b]).Armed? ==> ArmingOk(s, arm);
      hide Within, SelectOne, ArmingsOk, ArmingOk, VerdictOn, Selectable;
      PassTimers(s1, arms, id);
    }
  }

  lemma TurnReady(s: State, arms: map<BucketId, Arming>)
    requires Within(s, {}) && s.hand == [] && s.current == None && ArmingsOk(s, arms) && s.todo != []
    ensures s.todo[0] in s.buckets && s.buckets[s.todo[0]].next != [] && s.buckets[s.todo[0]].next[0] in s.reqs
    ensures Selectable(s)
    ensures var s1 := SelectOne(s.(todo := s.todo[1..]), s.todo[0], ArmingOf(arms, s.todo[0]));
            && Within(s1, {}) && s1.hand == [] && s1.current == None && ArmingsOk(s1, arms) && s1.todo == s.todo[1..]
            && Selectable(s1) && SelectAll(s, arms) == SelectAll(s1, arms)
  {
    var b := s.todo[0];
    SelectableWithin(s);
    SelectableAt(s, b);
    assert OnLine(s, b);
    SelectKeeps(s, ArmingOf(arms, b));
    SelectShape(s.(todo := s.todo[1..]), b, ArmingOf(arms, b));
    SelectLeaves(s, arms);
    hide Within, SelectOne, ArmingsOk, Selectable;
    PassUnfold(s, arms);
  }

  /** The trigger of a bucket that is to wait until then (ms), by the two clock readings (us). */
  function WakeAt(until: nat, arm: Arming): nat {
    if until > arm.seen / 1000 then arm.now + 1000 * (until - arm.seen / 1000) else arm.now
  }

  lemma TurnTimers(s: State, b: BucketId, arm: Arming)
    requires b in s.buckets && s.buckets[b].next != [] && s.buckets[b].next[0] in s.reqs
    ensures var s1 := SelectOne(s, b, arm);
            if VerdictOn(s.buckets[b]).Armed? && arm.id != 0 && arm.id !in s.timers.q then
              && s1.timers.q.Keys == s.timers.q.Keys + {arm.id} && s1.timers.q - {arm.id} == s.timers.q
              && s1.timers.q[arm.id].key == WakeAt(Until(s, b), arm)
            else if !VerdictOn(s.buckets[b]).Armed? then s1.timers.q == s.timers.q
            else true
  {
  }

  lemma {:induction false} PassArms(s: State, arms: map<BucketId, Arming>, b: BucketId)
    requires Within(s, {}) && s.hand == [] && s.current == None && ArmingsOk(s, arms) && HasVerdict(s, b, Armed)
    ensures Selectable(s)
    ensures var s1 := SelectAll(s, arms);
            var arm := ArmingOf(arms, b);
            arm.id in s1.timers.q && s1.timers.q[arm.id].key == WakeAt(Until(s, b), arm)
    decreases |s.todo|
  {
    hide Within, SelectOne, Selectable, VerdictOn, SelectAll, ArmingOk;
    var c := s.todo[0];
    var arm := ArmingOf(arms, c);
    TurnReady(s, arms);
    assert VerdictOn(s.buckets[c]).Armed? ==> ArmingOk(s, arm);
    hide ArmingsOk;
    var s0 := s.(todo := s.todo[1..]);
    var s1 := SelectOne(s0, c, arm);
    TurnTimers(s0, c, arm);
    SelectWait(s0, c, arm, b);
    SelectShape(s0, c, arm);
    if c == b {
      ArmingFresh(s, arm);
      PassTimers(s1, arms, arm.id);
    } else {
      assert HasVerdict(s1, b, Armed);
      PassArms(s1, arms, b);
    }
  }

  lemma ArmingFresh(s: State, arm: Arming)
    requires ArmingOk(s, arm)
    ensures arm.id != 0 && arm.id !in s.timers.q
  {
  }

  /** A bucket that is held back is woken neither early nor late: its timer is due when the wait that was
      read off the clock, in full ms, has passed, or at once if there is nothing to wait for any more. */
  lemma WakesOnTime(s: State, arms: map<BucketId, Arming>, b: BucketId)
    requires Inv(s) && Startable(s, arms) && b in s.buckets
    requires s.buckets[b].next != [] && VerdictOn(s.buckets[b]).Armed?
    ensures var s1 := StartCall(s, arms);
            var arm := ArmingOf(arms, b);
            var until := if s.globalWait > s.buckets[b].reset then s.globalWait else s.buckets[b].reset;
            && b in s1.waits && s1.waits[b].id in s1.timers.q
            && s1.timers.q[s1.waits[b].id].key == WakeAt(until, arm)
            && (arm.now == arm.seen ==> WakeAt(until, arm) < 1000 * until + 1000 || WakeAt(until, arm) == arm.now)
  {
    hide Inv, Startable, Filed, SelectAll, Selectable, Within;
    StartReady(s, arms);
    FiledBucket(s, b);
    FiledLimits(s);
    var s0 := TakeLine(Filed(s));
    assert Until(s0, b) == Until(s, b);
    hide SameLimits, Joined;
    LineReady(s, arms, b);
    PassArms(s0, arms, b);
    PassWait(s0, arms, b);
    WakeSoon(Until(s, b), ArmingOf(arms, b));
  }

  lemma WakeSoon(until: nat, arm: Arming)
    ensures arm.now == arm.seen ==> WakeAt(until, arm) < 1000 * until + 1000 || WakeAt(until, arm) == arm.now
  {
  }

  lemma LineReady(s: State, arms: map<BucketId, Arming>, b: BucketId)
    requires Inv(s) && Startable(s, arms) && b in s.buckets
    requires s.buckets[b].next != [] && VerdictOn(s.buckets[b]).Armed?
    ensures Inv(Filed(s))
    ensures var s0 := TakeLine(Filed(s));
            ArmingsOk(s0, arms) && s0.hand == [] && s0.current == None && HasVerdict(s0, b, Armed)
  {
    hide Inv, Filed;
    FiledBucket(s, b);
    assert Joined(s, b) != [];
    hide Joined;
    OnItsLine(Filed(s), b);
  }

  lemma OnItsLine(s: State, b: BucketId)
    requires Inv(s) && b in s.buckets && s.buckets[b].next != []
    ensures b in s.line && s.hand == [] && s.current == None
  {
    assert OnLine(s, b);
  }

  // ---------------------------------------------------------------- the fate of a request

  /** A finished transfer is tried again after a server error, a 429 or a failed read, while there are
      attempts left; it then heads its bucket's queue, with one attempt more. */
  predicate TriedAgain(s: State, r: ReqId, result: Result)
    requires r in s.reqs
  {
    && s.reqs[r].attempts < s.retryLimit
    && match result
       case Response(Final, _) => false
       case Response(ServerError, _) => true
       case Response(TooMany(_, _), _) => true
       case Failure(readError) => readError
  }

  /** In all other cases it leaves its bucket for good: a synchronous one for its caller, the others for the
      end of the finished queue. */
  lemma CompletionFate(s: State, step: Step, s1: State)
    requires Moves(s, step, s1) && step.Complete?
    ensures var r := step.r;
            && r in s.reqs && r in s1.reqs && s.reqs[r].bucket.Some? && s1.flying == s.flying - {r}
            && if TriedAgain(s, r, step.result) then
                 && s1.reqs[r] == s.reqs[r].(attempts := s.reqs[r].attempts + 1, place := s1.reqs[r].place)
                 && s.reqs[r].bucket.value in s1.buckets && s1.buckets[s.reqs[r].bucket.value].next != []
                 && s1.buckets[s.reqs[r].bucket.value].next[0] == r
                 && s1.finished == s.finished && s1.syncDone == s.syncDone
               else
                 && s1.reqs[r].bucket == None
                 && s1.finished == (if s.reqs[r].sync then s.finished else s.finished + [r])
                 && s1.syncDone == (if s.reqs[r].sync then s.syncDone + {r} else s.syncDone)
  {
    hide Inv, Within, CompleteCall, Digest, Settle, Spared;
    var r, result := step.r, step.result;
    CompleteIs(s, step, s1);
    LandKeeps(s, r);
    DigestedState(s, r, result, step.times, step.newBucket);
    DigestFate(Land(s, r), r, s.reqs[r].bucket.value, result, step.times, step.newBucket);
    CompleteUnfolds(s, r, result, step.times, step.newBucket);
    SettleFate(Digest(Land(s, r), r, result, step.times, step.newBucket), r, result);
  }

  lemma CompleteUnfolds(s: State, r: ReqId, result: Result, times: Times, newB: BucketId)
    requires Inv(s) && r in s.flying && newB !in s.buckets
    requires r in s.reqs && s.reqs[r].bucket.Some? && Sane(Land(s, r)) && Land(s, r).hand == []
    requires s.reqs[r].bucket.value in s.buckets
    requires forall i :: 0 <= i < |s.buckets[s.nullB].next| ==> s.buckets[s.nullB].next[i] in s.reqs
    requires r in Digest(Land(s, r), r, result, times, newB).reqs
    requires Digest(Land(s, r), r, result, times, newB).reqs[r].bucket.Some?
    requires Digest(Land(s, r), r, result, times, newB).reqs[r].bucket.value
          in Digest(Land(s, r), r, result, times, newB).buckets
    ensures CompleteCall(s, r, result, times, newB) == Settle(Digest(Land(s, r), r, result, times, newB), r, result)
  {
    hide Inv, Digest, Settle;
  }

  lemma {:induction false} FilterFinished(s: State, b: BucketId, key: Key)
    requires Sane(s) && b in s.buckets
    ensures FilterAll(s, b, key).finished == s.finished && FilterAll(s, b, key).syncDone == s.syncDone
    decreases |s.hand|
  {
    if s.hand != [] {
      var to := if s.reqs[s.hand[0]].key != key then s.nullB else b;
      FileTail(s, to);
      FilterUnfold(s, b, key);
      var s1 := Insert(Pop(s), to, s.hand[0], false);
      assert s1.finished == s.finished && s1.syncDone == s.syncDone;
      hide Insert, FilterAll, Sane, Spared, SameKeys;
      FilterFinished(s1, to, key);
    }
  }

  lemma NullFilterFinished(s: State, b: BucketId, key: Key)
    requires Sane(s) && b in s.buckets && s.hand == []
    requires forall i :: 0 <= i < |s.buckets[s.nullB].next| ==> s.buckets[s.nullB].next[i] in s.reqs
    ensures NullFilter(s, b, key).finished == s.finished && NullFilter(s, b, key).syncDone == s.syncDone
  {
    var s0 := TakeNull(s);
    assert Sane(s0) && b in s0.buckets;
    hide FilterAll, Sane, Spared;
    FilterFinished(s0, b, key);
  }

  lemma DigestFinished(s: State, r: ReqId, b: BucketId, result: Result, times: Times, newB: BucketId)
    requires s.hand == [] && Landed(s, r, b) && newB !in s.buckets && Sane(s)
    requires forall i :: 0 <= i < |s.buckets[s.nullB].next| ==> s.buckets[s.nullB].next[i] in s.reqs
    ensures var s1 := Digest(s, r, result, times, newB);
            s1.finished == s.finished && s1.syncDone == s.syncDone
  {
    if result.Response? && b == s.nullB {
      var s0 := Noted(s, b, result, times);
      NotedSane(s, b, result, times);
      var key := s.reqs[r].key;
      var s1 := AddBucket(s0, key, result.headers, newB);
      AddedSane(s0, key, result.headers, newB);
      hide Sane, Spared, NullFilter;
      NullFilterFinished(s1, MatchOf(s0, key, result.headers, newB), key);
    }
  }

  lemma DigestFate(s: State, r: ReqId, b: BucketId, result: Result, times: Times, newB: BucketId)
    requires Within(s, {}) && s.hand == [] && s.todo == [] && Landed(s, r, b) && newB !in s.buckets && Sane(s)
    requires forall i :: 0 <= i < |s.buckets[s.nullB].next| ==> s.buckets[s.nullB].next[i] in s.reqs
    ensures var s1 := Digest(s, r, result, times, newB);
            && s1.finished == s.finished && s1.syncDone == s.syncDone && s1.flying == s.flying
            && s1.retryLimit == s.retryLimit && r in s1.reqs && s1.reqs[r] == s.reqs[r] && b in s1.buckets
  {
    hide Within, Digest, Sane;
    DigestLeaves(s, r, b, result, times, newB);
    DigestFinished(s, r, b, result, times, newB);
  }

  lemma SettleFate(s: State, r: ReqId, result: Result)
    requires r in s.reqs && s.reqs[r].bucket.Some? && s.reqs[r].bucket.value in s.buckets
    requires Settle(s, r, result).Ok?
    ensures var s1 := Settle(s, r, result).s;
            var b := s.reqs[r].bucket.value;
            && r in s1.reqs && s1.flying == s.flying && b in s1.buckets
            && if TriedAgain(s, r, result) then
                 && s1.reqs[r] == s.reqs[r].(attempts := s.reqs[r].attempts + 1, place := s1.reqs[r].place)
                 && s1.buckets[b].next == [r] + s.buckets[b].next
                 && s1.finished == s.finished && s1.syncDone == s.syncDone
               else
                 && s1.reqs[r].bucket == None
                 && s1.finished == (if s.reqs[r].sync then s.finished else s.finished + [r])
                 && s1.syncDone == (if s.reqs[r].sync then s.syncDone + {r} else s.syncDone)
  {
  }

  /** Finished requests are dispatched one at a time, the first one first, and recycled last; so is the
      request of a synchronous caller. */
  lemma RecycledLast(s: State, step: Step, s1: State)
    requires Moves(s, step, s1) && (step.Dispatch? || step.SyncReturn?)
    ensures step.Dispatch? ==> s.finished != [] && s1.finished == s.finished[1..] && s1.syncDone == s.syncDone
    ensures step.SyncReturn? ==> s1.finished == s.finished && s1.syncDone == s.syncDone - {step.r}
    ensures s1.recycling == s.recycling + [if step.Dispatch? then s.finished[0] else step.r]
    ensures s1.pending == s.pending && s1.flying == s.flying && s1.buckets == s.buckets
  {
    hide Inv;
  }

  /** No other step touches the finished queue. */
  lemma FinishedStays(s: State, step: Step, s1: State)
    requires Moves(s, step, s1) && (step.Begin? || step.StartPending? || step.Wake?)
    ensures s1.finished == s.finished
  {
    hide Inv, T.Do, StartCall, Do;
    match step
    case Begin(_, _, _, _) => BeginFinished(s, step, s1);
    case StartPending(arms) => StartFinished(s, step, s1);
    case Wake(_, _) => WakeFinished(s, step, s1);
  }

  lemma BeginFinished(s: State, step: Step, s1: State)
    requires Moves(s, step, s1) && step.Begin?
    ensures s1.finished == s.finished
  {
    hide Inv;
  }

  lemma WakeFinished(s: State, step: Step, s1: State)
    requires Moves(s, step, s1) && step.Wake?
    ensures s1.finished == s.finished
  {
    hide Inv, T.Do;
    WakeTimers(s, step.id, step.now);
  }

  lemma {:induction false} FileFinished(s: State)
    requires Sane(s)
    ensures FileAll(s).finished == s.finished
    decreases |s.hand|
  {
    if s.hand != [] {
      FileLimit(s);
      var r := s.hand[0];
      var s1 := Insert(s.(hand := s.hand[1..]), BucketOf(s, s.reqs[r].key), r, s.reqs[r].high);
      assert s1.finished == s.finished;
      hide Insert, FileAll, Sane, SameLimits, Spared;
      FileFinished(s1);
    }
  }

  lemma {:induction false} PassFinished(s: State, arms: map<BucketId, Arming>)
    requires Selectable(s)
    ensures SelectAll(s, arms).finished == s.finished
    decreases |s.todo|
  {
    if s.todo != [] {
      PassUnfold(s, arms);
      var b := s.todo[0];
      SelectableAt(s, b);
      SelectableTail(s, ArmingOf(arms, b));
      var s1 := SelectOne(s.(todo := s.todo[1..]), b, ArmingOf(arms, b));
      assert s1.finished == s.finished;
      hide SelectOne, Selectable, SelectAll;
      PassFinished(s1, arms);
    }
  }

  lemma StartFinished(s: State, step: Step, s1: State)
    requires Moves(s, step, s1) && step.StartPending?
    ensures s1.finished == s.finished
  {
    hide Inv, Within, SelectAll, Selectable, Startable, FileAll;
    TakePendingKeeps(s);
    SaneWithin(TakePending(s), {});
    FileFinished(TakePending(s));
    StartReady(s, step.arms);
    PassFinished(TakeLine(Filed(s)), step.arms);
  }

  /** Dispatched in the order of finishing: over any run, as long as a finished request waits to be
      dispatched, those that finished after it wait behind it. */
  lemma {:induction false} FinishedInOrder(states: seq<State>, steps: seq<Step>, i: nat, j: nat, x: ReqId, y: ReqId)
    requires IsRun(states, steps) && i <= j <= |steps| && Precedes(states[i].finished, x, y)
    requires forall k :: i <= k <= j ==> x in states[k].finished
    ensures Precedes(states[j].finished, x, y)
    decreases j
  {
    hide Inv, Moves, IsRun, Precedes;
    if i < j {
      FinishedInOrder(states, steps, i, j - 1, x, y);
      StepAt(states, steps, j - 1);
      FinishedStep(states[j - 1], steps[j - 1], states[j], x, y);
    }
  }

  lemma FinishedStep(s: State, step: Step, s1: State, x: ReqId, y: ReqId)
    requires Moves(s, step, s1) && Precedes(s.finished, x, y) && x in s1.finished
    ensures Precedes(s1.finished, x, y)
  {
    hide Inv, Moves, Precedes, NoDup;
    FinishedOnce(s, step, s1);
    if step.Complete? {
      CompletionFate(s, step, s1);
      var more := if s1.finished == s.finished then [] else [step.r];
      PrecedesWithin([], s.finished, more, x, y);
      assert [] + s.finished + more == s1.finished;
    } else if step.Dispatch? || step.SyncReturn? {
      RecycledLast(s, step, s1);
      if step.Dispatch? {
        PrecedesInRest(s.finished, 1, x, y);
      }
    } else {
      FinishedStays(s, step, s1);
    }
  }

  lemma FinishedOnce(s: State, step: Step, s1: State)
    requires Moves(s, step, s1)
    ensures NoDup(s.finished)
  {
  }

  /** A request that finishes comes behind all that wait to be dispatched. */
  lemma FinishesLast(s: State, step: Step, s1: State, x: ReqId)
    requires Moves(s, step, s1) && step.Complete? && x in s.finished && step.r in s1.finished
    ensures x in s1.finished && Precedes(s1.finished, x, step.r)
  {
    NotYetFinished(s, step);
    hide Inv, Moves, Precedes;
    CompletionFate(s, step, s1);
    PrecedesAcross(s.finished, [step.r], x, step.r);
  }

  lemma NotYetFinished(s: State, step: Step)
    requires Inv(s) && step.Complete? && Enabled(s, step)
    ensures step.r !in s.finished
  {
    assert In(s, InFlight, step.r) && !In(s, Finished, step.r);
  }

  // ------------------------------------------------------------------ the pending buckets

  /** The list `all` ends with `end`. */
  predicate EndsWith(all: seq<BucketId>, end: seq<BucketId>) {
    |end| <= |all| && all[|all| - |end|..] == end
  }

  lemma EndsWithEnd(all: seq<BucketId>, first: seq<BucketId>, end: seq<BucketId>)
    requires EndsWith(all, first + end)
    ensures EndsWith(all, end)
  {
    assert (first + end)[|first|..] == end;
    assert all[|all| - |end|..] == all[|all| - |first + end|..][|first|..];
  }

  /** Buckets that come to the pending list come before those that are on it, which keep their order. */
  lemma {:induction false} FiledInFront(s: State)
    requires Sane(s)
    ensures EndsWith(FileAll(s).line, s.line)
    decreases |s.hand|
  {
    if s.hand != [] {
      FileLine(s);
      var r := s.hand[0];
      var b := BucketOf(s, s.reqs[r].key);
      var s1 := Insert(s.(hand := s.hand[1..]), b, r, s.reqs[r].high);
      hide *;
      FiledInFront(s1);
      EndsWithEnd(FileAll(s1).line, if b in s.line then [] else [b], s.line);
    }
  }

  lemma FileLine(s: State)
    requires Sane(s) && s.hand != []
    ensures var r := s.hand[0];
            var b := BucketOf(s, s.reqs[r].key);
            var s1 := Insert(s.(hand := s.hand[1..]), b, r, s.reqs[r].high);
            && Sane(s1) && s1.hand == s.hand[1..] && FileAll(s) == FileAll(s1)
            && s1.line == (if b in s.line then [] else [b]) + s.line
  {
    hide SameLimits;
    FileLimit(s);
  }
}
