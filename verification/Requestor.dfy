/** The requestor with its embedded rate limiter as the program runs it, refining RestModel. */
module Requestor {
  import opened Wrappers
  import opened RestModel
  import opened RestInvariant
  import opened RestSteps
  import T = TimerQueue
  import S = RestSelector
  import H = RestTheorems
  import Numbers
  import TimerGroup

  lemma FileReady(s: State)
    requires Inv(s)
    ensures var s0 := TakePending(s);
            Filing(s0.(hand := []), s.pending, s0) && Sane(s0) && Filed(s) == FileAll(s0)
  {
    TakePendingKeeps(s);
    FileAllKeeps(TakePending(s));
    assert TakePending(s).(hand := []).(hand := s.pending) == TakePending(s);
  }

  /** The invariant of the filing loop, `queue` being the local queue and `s0` the state it began in. */
  ghost predicate Filing(s: State, queue: seq<ReqId>, s0: State) {
    var s1 := s.(hand := queue);
    Within(s1, {}) && s1.todo == [] && Sane(s1) && Sane(s0) && FileAll(s1) == FileAll(s0)
  }

  lemma FileStep(s: State, queue: seq<ReqId>, s0: State)
    requires Filing(s, queue, s0) && queue != []
    ensures queue[0] in s.reqs && BucketOf(s, s.reqs[queue[0]].key) in s.buckets
    ensures var r := queue[0];
            Filing(Insert(s, BucketOf(s, s.reqs[r].key), r, s.reqs[r].high), queue[1..], s0)
  {
    hide Within;
    var s1 := s.(hand := queue);
    var r := queue[0];
    var b := BucketOf(s, s.reqs[r].key);
    InsertKeeps(s1, b, s.reqs[r].high, {});
    SaneWithin(Insert(Pop(s1), b, r, s.reqs[r].high), {});
    assert Insert(Pop(s1), b, r, s.reqs[r].high) == Insert(s, b, r, s.reqs[r].high).(hand := queue[1..]);
  }

  lemma FiledInv(s: State)
    requires Inv(s)
    ensures Inv(Filed(s))
  {
    TakePendingKeeps(s);
    FileAllKeeps(TakePending(s));
  }

  lemma FileEnd(s: State, s0: State)
    requires Filing(s, [], s0) && s.hand == []
    ensures FileAll(s0) == s
  {
  }

  /** `more` knows what `arms` knows. */
  ghost predicate Extends(more: map<BucketId, Arming>, arms: map<BucketId, Arming>) {
    forall b :: b in arms ==> b in more && more[b] == arms[b]
  }

  /** The readings used so far are as the model asks, seen from the state `s0` the pass began in. */
  ghost predicate Readings(s: State, queue: seq<BucketId>, s0: State, arms: map<BucketId, Arming>) {
    && (forall id :: id in s0.timers.q ==> id in s.timers.q)
    && (forall b :: b in arms ==> arms[b].id in s.timers.q && ArmingOk(s0, arms[b]))
    && (forall b, c :: b in arms && c in arms && b != c ==> arms[b].id != arms[c].id)
    && (forall b :: b in s0.todo && b !in queue && b in s0.buckets && VerdictOn(s0.buckets[b]).Armed? ==> b in arms)
    && (forall b :: b in queue ==>
          b in s0.todo && b !in arms && b in s.buckets && b in s0.buckets && s.buckets[b] == s0.buckets[b])
  }

  /** The invariant of the selector's loop, `queue` being its local queue. */
  ghost predicate Selecting(s: State, queue: seq<BucketId>, s0: State, arms: map<BucketId, Arming>) {
    var s1 := s.(todo := queue);
    && Within(s1, {}) && s1.hand == [] && s1.current == None && Selectable(s1) && Selectable(s0)
    && Readings(s, queue, s0, arms)
    && forall more :: Extends(more, arms) ==> SelectAll(s1, more) == SelectAll(s0, more)
  }

  lemma SelectBegin(s: State)
    requires Inv(s)
    ensures Selecting(s.(line := []), s.line, TakeLine(s), map[])
  {
    TakeLineKeeps(s);
    SelectableWithin(TakeLine(s));
    assert s.(line := []).(todo := s.line) == TakeLine(s);
    assert forall b :: b in s.line ==> b in s.buckets;
  }

  lemma SelectHead(s: State, queue: seq<BucketId>, s0: State, arms: map<BucketId, Arming>)
    requires Selecting(s, queue, s0, arms) && queue != []
    ensures var b := queue[0];
            b in s.buckets && s.buckets[b].next != [] && s.buckets[b].next[0] in s.reqs
  {
    var s1 := s.(todo := queue);
    assert s1.todo[0] == queue[0];
  }

  lemma SelectTimers(s: State, b: BucketId, arm: Arming)
    requires b in s.buckets && s.buckets[b].next != [] && s.buckets[b].next[0] in s.reqs
    requires VerdictOn(s.buckets[b]).Armed? ==> ArmingOk(s, arm)
    ensures forall id :: id in SelectOne(s, b, arm).timers.q <==>
              id in s.timers.q || (VerdictOn(s.buckets[b]).Armed? && id == arm.id)
  {
  }

  lemma ReadingsStep(s: State, s1: State, queue: seq<BucketId>, s0: State,
                     arms: map<BucketId, Arming>, arm: Arming, armed: bool)
    requires queue != [] && queue[0] !in queue[1..] && Readings(s, queue, s0, arms)
    requires armed <==> VerdictOn(s.buckets[queue[0]]).Armed?
    requires armed ==> ArmingOk(s, arm)
    requires forall id :: id in s1.timers.q <==> id in s.timers.q || (armed && id == arm.id)
    requires forall c :: c in s.buckets && c != queue[0] ==> c in s1.buckets && s1.buckets[c] == s.buckets[c]
    ensures Readings(s1, queue[1..], s0, if armed then arms[queue[0] := arm] else arms)
  {
    assert queue == [queue[0]] + queue[1..];
  }

  lemma SelectReadings(s: State, queue: seq<BucketId>, s0: State, arms: map<BucketId, Arming>, arm: Arming)
    requires Selectable(s.(todo := queue)) && queue != [] && Readings(s, queue, s0, arms)
    requires queue[0] in s.buckets && s.buckets[queue[0]].next != [] && s.buckets[queue[0]].next[0] in s.reqs
    requires VerdictOn(s.buckets[queue[0]]).Armed? ==> ArmingOk(s, arm)
    ensures var b := queue[0];
            var armed := VerdictOn(s.buckets[b]).Armed?;
            Readings(SelectOne(s, b, arm), queue[1..], s0, if armed then arms[b := arm] else arms)
  {
    var s1 := s.(todo := queue);
    var b := queue[0];
    assert s1.todo[0] == b;
    assert forall i :: 0 < i < |queue| ==> s1.todo[i] != b;
    hide Selectable, Readings;
    SelectShape(s, b, arm);
    SelectTimers(s, b, arm);
    hide SelectOne;
    ReadingsStep(s, SelectOne(s, b, arm), queue, s0, arms, arm, VerdictOn(s.buckets[b]).Armed?);
  }

  /** A turn of the selector does not look at the rest of its local list. */
  lemma SelectElsewhere(s: State, queue: seq<BucketId>, b: BucketId, arm: Arming)
    requires b in s.buckets && s.buckets[b].next != [] && s.buckets[b].next[0] in s.reqs
    ensures SelectOne(s.(todo := queue), b, arm) == SelectOne(s, b, arm).(todo := queue)
  {
    match VerdictOn(s.buckets[b])
    case Skipped =>
    case Armed =>
      hide Send;
      hide T.Apply;
    case Sent =>
      hide TryTimeout;
  }

  lemma SelectStepKeeps(s: State, queue: seq<BucketId>, arm: Arming)
    requires var s1 := s.(todo := queue);
             Within(s1, {}) && s1.hand == [] && s1.current == None && queue != []
    requires queue[0] in s.buckets && s.buckets[queue[0]].next != [] && s.buckets[queue[0]].next[0] in s.reqs
    requires VerdictOn(s.buckets[queue[0]]).Armed? ==> ArmingOk(s, arm)
    ensures var s2 := SelectOne(s, queue[0], arm).(todo := queue[1..]);
            && s2 == SelectOne(s.(todo := queue).(todo := queue[1..]), queue[0], arm)
            && Within(s2, {}) && s2.hand == [] && s2.current == None && Selectable(s2)
  {
    var s1 := s.(todo := queue);
    assert ArmingOk(s, arm) ==> ArmingOk(s1, arm);
    hide Within, SelectOne, ArmingOk, Selectable;
    SelectKeeps(s1, arm);
    assert s1.(todo := queue[1..]) == s.(todo := queue[1..]);
    SelectElsewhere(s, queue[1..], queue[0], arm);
    SelectShape(s, queue[0], arm);
    SelectableWithin(SelectOne(s1.(todo := queue[1..]), queue[0], arm));
  }

  lemma SelectStepSame(s1: State, s2: State, s0: State, arms: map<BucketId, Arming>, arm: Arming,
                       more: map<BucketId, Arming>)
    requires Selectable(s1) && Selectable(s0) && s1.todo != [] && s1.todo[0] !in arms
    requires s1.todo[0] in s1.buckets && s1.buckets[s1.todo[0]].next != [] && s1.buckets[s1.todo[0]].next[0] in s1.reqs
    requires s2 == SelectOne(s1.(todo := s1.todo[1..]), s1.todo[0], arm) && Selectable(s2)
    requires Extends(more, if VerdictOn(s1.buckets[s1.todo[0]]).Armed? then arms[s1.todo[0] := arm] else arms)
    requires Extends(more, arms) ==> SelectAll(s1, more) == SelectAll(s0, more)
    ensures SelectAll(s2, more) == SelectAll(s0, more)
  {
    var b := s1.todo[0];
    hide Selectable, SelectOne, SelectAll;
    if VerdictOn(s1.buckets[b]).Armed? {
      assert b in arms[b := arm];
    }
    SelectUnfold(s1, more, arm);
  }

  lemma SelectStep(s: State, queue: seq<BucketId>, s0: State, arms: map<BucketId, Arming>, arm: Arming)
    requires Selecting(s, queue, s0, arms) && queue != []
    requires queue[0] in s.buckets && (VerdictOn(s.buckets[queue[0]]).Armed? ==> ArmingOk(s, arm))
    ensures var b := queue[0];
            var armed := VerdictOn(s.buckets[b]).Armed?;
            && s.buckets[b].next != [] && s.buckets[b].next[0] in s.reqs
            && Selecting(SelectOne(s, b, arm), queue[1..], s0, if armed then arms[b := arm] else arms)
  {
    var s1 := s.(todo := queue);
    var b := queue[0];
    SelectHead(s, queue, s0, arms);
    hide Within, SelectOne, Selectable, SelectAll, ArmingOk;
    SelectReadings(s, queue, s0, arms, arm);
    SelectStepKeeps(s, queue, arm);
    var arms1 := if VerdictOn(s.buckets[b]).Armed? then arms[b := arm] else arms;
    var s2 := SelectOne(s, b, arm).(todo := queue[1..]);
    assert b !in arms by {
      assert Readings(s, queue, s0, arms);
    }
    hide Readings;
    forall more | Extends(more, arms1)
      ensures SelectAll(s2, more) == SelectAll(s0, more)
    {
      SelectStepSame(s1, s2, s0, arms, arm, more);
    }
  }

  lemma SelectUnfold(s: State, more: map<BucketId, Arming>, arm: Arming)
    requires Selectable(s) && s.todo != []
    requires VerdictOn(s.buckets[s.todo[0]]).Armed? ==> ArmingOf(more, s.todo[0]) == arm
    ensures var s1 := SelectOne(s.(todo := s.todo[1..]), s.todo[0], arm);
            Selectable(s1) && SelectAll(s, more) == SelectAll(s1, more)
  {
    var s1 := SelectOne(s.(todo := s.todo[1..]), s.todo[0], arm);
    assert forall i :: 0 <= i < |s1.todo| ==> s1.todo[i] == s.todo[i + 1];
  }

  lemma SelectEnd(s: State, s0: State, arms: map<BucketId, Arming>)
    requires Selecting(s, [], s0, arms) && s.todo == []
    ensures Selectable(s0) && ArmingsOk(s0, arms) && SelectAll(s0, arms) == s
  {
    assert s.(todo := []) == s;
    assert Extends(arms, arms);
  }

  // ------------------------------------------------------------- reading responses

  /** The invariant of null_filter's loop: what is left to do gives what the whole had to give. */
  ghost predicate Filtering(s: State, queue: seq<ReqId>, b: BucketId, s0: State, b0: BucketId, key: Key) {
    var s1 := s.(hand := queue);
    && Sane(s1) && Sane(s0) && b in s1.buckets && b0 in s0.buckets
    && FilterAll(s1, b, key) == FilterAll(s0, b0, key)
  }

  lemma FilterBegin(s: State, b: BucketId, key: Key)
    requires Sane(s) && b in s.buckets && s.hand == []
    requires forall i :: 0 <= i < |s.buckets[s.nullB].next| ==> s.buckets[s.nullB].next[i] in s.reqs
    ensures var s1 := TakeNull(s);
            Filtering(s1.(hand := []), s.buckets[s.nullB].next, b, s1, b, key)
  {
    var s1 := TakeNull(s);
    assert s1.(hand := []).(hand := s1.hand) == s1;
  }

  lemma FilterStep(s: State, queue: seq<ReqId>, b: BucketId, s0: State, b0: BucketId, key: Key)
    requires Filtering(s, queue, b, s0, b0, key) && queue != []
    ensures queue[0] in s.reqs && s.nullB in s.buckets && b in s.buckets
    ensures var to := if s.reqs[queue[0]].key != key then s.nullB else b;
            Filtering(Insert(s, to, queue[0], false), queue[1..], to, s0, b0, key)
  {
    var s1 := s.(hand := queue);
    assert s1.hand[0] in s.reqs;
    var to := if s.reqs[queue[0]].key != key then s.nullB else b;
    S.FileTail(s1, to);
    S.FilterUnfold(s1, b, key);
    assert Insert(Pop(s1), to, queue[0], false) == Insert(s, to, queue[0], false).(hand := queue[1..]);
  }

  lemma FilterEnd(s: State, b: BucketId, s0: State, b0: BucketId, key: Key)
    requires Filtering(s, [], b, s0, b0, key) && s.hand == []
    ensures FilterAll(s0, b0, key) == s
  {
    assert s.(hand := []) == s;
  }

  lemma AddedSane(s: State, key: Key, headers: Headers, newB: BucketId)
    requires Sane(s) && newB !in s.buckets
    requires forall i :: 0 <= i < |s.buckets[s.nullB].next| ==> s.buckets[s.nullB].next[i] in s.reqs
    ensures var s1 := AddBucket(s, key, headers, newB);
            && Sane(s1)
            && forall i :: 0 <= i < |s1.buckets[s1.nullB].next| ==> s1.buckets[s1.nullB].next[i] in s1.reqs
  {
  }

  /** The time-out of a 429 has its own clock readings. */
  lemma NotedIgnores(s: State, b: BucketId, result: Result, times: Times, now: nat)
    requires b in s.buckets
    ensures Noted(s, b, result, times.(headers := now)) == Noted(s, b, result, times)
  {
  }

  /** A run from `s0` to `s`. */
  ghost predicate Leads(s0: State, states: seq<State>, steps: seq<Step>, s: State) {
    IsRun(states, steps) && states[0] == s0 && states[|steps|] == s
  }

  lemma Still(s: State)
    requires Inv(s)
    ensures Leads(s, [s], [], s)
  {
  }

  /** A run may be extended by a step that does not abort. */
  lemma ExtendRun(s0: State, states: seq<State>, steps: seq<Step>, s: State, step: Step, s1: State)
    requires Leads(s0, states, steps, s) && Moves(s, step, s1)
    ensures Leads(s0, states + [s1], steps + [step], s1)
  {
    hide Moves, Inv;
    var states1, steps1 := states + [s1], steps + [step];
    forall i | 0 <= i < |steps1|
      ensures Moves(states1[i], steps1[i], states1[i + 1])
    {
      if i < |steps| {
        assert Moves(states[i], steps[i], states[i + 1]);
      }
    }
  }

  lemma LeadsKeeps(s0: State, states: seq<State>, steps: seq<Step>, s: State)
    requires Leads(s0, states, steps, s)
    ensures Inv(s)
  {
    RunKeeps(states, steps, |steps|);
  }

  lemma LeadsShape(s0: State, states: seq<State>, steps: seq<Step>, s: State)
    requires Leads(s0, states, steps, s)
    ensures |states| == |steps| + 1 && states[|steps|] == s
  {
  }

  /** The completion `last` would trip the assertion. */
  ghost predicate Fails(s: State, last: Step) {
    last.Complete? && Inv(s) && Enabled(s, last) && Do(s, last).Aborted?
  }

  lemma MovesKeeps(s: State, step: Step, s1: State)
    requires Moves(s, step, s1)
    ensures Inv(s1)
  {
    hide Inv, Enabled;
  }

  lemma CompleteStep(s: State, r: ReqId, result: Result, times: Times, newB: BucketId)
    requires Inv(s) && r in s.flying && newB !in s.buckets
    ensures var step := Complete(r, result, times, newB);
            Enabled(s, step) && Do(s, step) == CompleteCall(s, r, result, times, newB)
  {
    hide Inv, CompleteCall, Startable, DoBegin, DoStart, DoWake, DoDispatch, DoSyncReturn;
  }

  lemma BeginStep(s: State, id: ReqId, key: Key, sync: bool, high: bool)
    requires Inv(s) && id !in s.reqs
    ensures s.recycling != [] ==> s.recycling[0] in s.reqs
    ensures var step := Begin(id, key, sync, high);
            Moves(s, step, BeginCall(s, id, key, sync, high))
  {
    BeginKeeps(s, id, key, sync, high);
    hide Inv, BeginCall, CompleteCall, Startable, DoStart, DoWake, DoDispatch, DoSyncReturn;
  }

  lemma DispatchStep(s: State)
    requires Inv(s) && s.finished != []
    ensures s.finished[0] in s.reqs
    ensures Moves(s, Dispatch, DispatchCall(s))
  {
    DispatchKeeps(s);
    hide Inv, DispatchCall, CompleteCall, Startable, DoStart, DoWake, DoBegin, DoSyncReturn;
  }

  /** One more transfer is finished. */
  lemma CompleteNext(s: State, r: ReqId, result: Result, times: Times, newB: BucketId)
    requires Inv(s) && r in s.flying && newB !in s.buckets
    ensures var o := CompleteCall(s, r, result, times, newB);
            var step := Complete(r, result, times, newB);
            && (o.Ok? ==> Moves(s, step, o.s) && o.s.flying == s.flying - {r})
            && (o.Aborted? ==> Fails(s, step))
  {
    assert s.nullB in s.buckets;
    hide Inv, CompleteCall, Enabled, Do;
    CompleteStep(s, r, result, times, newB);
    if CompleteCall(s, r, result, times, newB).Ok? {
      H.CompleteLeaves(s, r, result, times, newB, s.nullB);
    }
  }

  predicate QuietStep(step: Step) {
    step.Begin? || step.Dispatch?
  }

  /** The finished queue is being worked off; `queue` is what is left of it. */
  ghost predicate Dispatching(s0: State, states: seq<State>, steps: seq<Step>, s: State, queue: seq<ReqId>) {
    && Leads(s0, states, steps, s.(finished := queue + s.finished))
    && forall i :: 0 <= i < |steps| ==> QuietStep(steps[i])
  }

  lemma DispatchBegin(s: State, queue: seq<ReqId>)
    requires Inv(s.(finished := queue + s.finished))
    ensures s.recycling != [] ==> s.recycling[0] in s.reqs
    ensures queue != [] ==> queue[0] in s.reqs
  {
    var s1 := s.(finished := queue + s.finished);
    if s.recycling != [] {
      assert In(s1, Recycling, s.recycling[0]);
    }
    if queue != [] {
      assert In(s1, Finished, (queue + s.finished)[0]);
    }
  }

  lemma BeginElsewhere(s: State, finished: seq<ReqId>, id: ReqId, key: Key, sync: bool, high: bool)
    requires s.recycling != [] ==> s.recycling[0] in s.reqs
    ensures BeginCall(s.(finished := finished), id, key, sync, high)
         == BeginCall(s, id, key, sync, high).(finished := finished)
    ensures BeginCall(s, id, key, sync, high).finished == s.finished
  {
  }

  lemma DispatchElsewhere(s: State, queue: seq<ReqId>)
    requires queue != [] && queue[0] in s.reqs
    ensures var s1 := s.(finished := queue + s.finished);
            && s1.finished != [] && s1.finished[0] in s.reqs
            && DispatchCall(s1) == Recycle(s, queue[0]).(finished := queue[1..] + s.finished)
    ensures Recycle(s, queue[0]).finished == s.finished
  {
    assert (queue + s.finished)[1..] == queue[1..] + s.finished;
  }

  lemma DispatchCallback(s0: State, states: seq<State>, steps: seq<Step>,
                         s: State, queue: seq<ReqId>, step: Step, s1: State)
    requires Dispatching(s0, states, steps, s, queue) && step.Begin? && step.id !in s.reqs
    requires s.recycling != [] ==> s.recycling[0] in s.reqs
    requires s1 == BeginCall(s, step.id, step.key, step.sync, step.high)
    ensures Dispatching(s0, states + [s1.(finished := queue + s1.finished)], steps + [step], s1, queue)
  {
    hide Inv, Leads, Moves, BeginCall;
    var full := s.(finished := queue + s.finished);
    LeadsKeeps(s0, states, steps, full);
    BeginStep(full, step.id, step.key, step.sync, step.high);
    BeginElsewhere(s, queue + s.finished, step.id, step.key, step.sync, step.high);
    ExtendRun(s0, states, steps, full, step, s1.(finished := queue + s1.finished));
  }

  lemma DispatchNext(s0: State, states: seq<State>, steps: seq<Step>, s: State, queue: seq<ReqId>, s1: State)
    requires Dispatching(s0, states, steps, s, queue) && queue != [] && queue[0] in s.reqs
    requires s1 == Recycle(s, queue[0])
    ensures Dispatching(s0, states + [s1.(finished := queue[1..] + s1.finished)], steps + [Dispatch], s1, queue[1..])
  {
    var full := s.(finished := queue + s.finished);
    LeadsKeeps(s0, states, steps, full);
    hide Inv, Leads, Moves, Recycle, DispatchCall;
    DispatchElsewhere(s, queue);
    DispatchStep(full);
    ExtendRun(s0, states, steps, full, Dispatch, s1.(finished := queue[1..] + s1.finished));
  }

  lemma DispatchReady(s0: State, states: seq<State>, steps: seq<Step>, s: State, queue: seq<ReqId>)
    requires Dispatching(s0, states, steps, s, queue)
    ensures s.recycling != [] ==> s.recycling[0] in s.reqs
    ensures queue != [] ==> queue[0] in s.reqs
  {
    LeadsKeeps(s0, states, steps, s.(finished := queue + s.finished));
    hide Inv, Leads;
    DispatchBegin(s, queue);
  }

  class Client {
    const retryLimit: nat
    const nullB: BucketId
    const missB: BucketId
    const timers: TimerGroup.Timers

    var reqs: map<ReqId, Req>
    var recycling: seq<ReqId>
    var pending: seq<ReqId>
    var finished: seq<ReqId>
    var flying: set<ReqId>
    var syncDone: set<ReqId>
    var buckets: map<BucketId, Bucket>
    var routes: map<Key, BucketId>
    var line: seq<BucketId>
    var globalWait: nat
    ghost var waits: map<BucketId, Wait>
    /** The request a completed transfer belongs to, while it is dealt with. */
    ghost var current: Option<ReqId>

    ghost function Snapshot(): State
      reads this, timers
    {
      State(retryLimit, nullB, missB, reqs, recycling, pending, finished, flying, syncDone,
            buckets, routes, line, globalWait, timers.Snapshot(), waits, [], [], current)
    }

    constructor (limit: nat)
      ensures Inv(Snapshot()) && Snapshot() == Initial(limit, 0, 1) && fresh(timers) && !timers.full
    {
      retryLimit, nullB, missB := limit, 0, 1;
      reqs, recycling, pending, finished := map[], [], [], [];
      flying, syncDone := {}, {};
      buckets := map[0 := Bucket(1, 0, Idle, []), 1 := Bucket(1, 0, Idle, [])];
      routes := map["null" := 0, "miss" := 1];
      line, globalWait, waits, current := [], 0, map[], None;
      timers := new TimerGroup.Timers();
      new;
      assert Snapshot() == Initial(limit, 0, 1);
      InitialInv(limit, 0, 1);
    }

    // ------------------------------------------------------------------ buckets

    method BucketInsert(b: BucketId, r: ReqId, high: bool)
      requires b in buckets && r in reqs
      modifies this`buckets, this`line, this`reqs
      ensures Snapshot() == Insert(old(Snapshot()), b, r, high)
    {
      var bucket := buckets[b];
      if high {
        buckets := buckets[b := bucket.(next := [r] + bucket.next)];
      } else {
        buckets := buckets[b := bucket.(next := bucket.next + [r])];
      }
      if b !in line {
        line := [b] + line;
      }
      reqs := reqs[r := reqs[r].(bucket := Some(b), place := Next(b))];
    }

    method BucketGet(key: Key) returns (b: BucketId)
      ensures b == BucketOf(Snapshot(), key)
    {
      b := nullB;
      if key in routes {
        b := routes[key];
      }
    }

    /** QUEUE_MOVE of the pending queue. */
    method MovePending() returns (queue: seq<ReqId>)
      modifies this`reqs, this`pending
      ensures queue == old(pending) && Snapshot() == TakePending(old(Snapshot())).(hand := [])
    {
      queue := pending;
      pending := [];
      reqs := map r | r in reqs :: if r in queue then reqs[r].(place := Hand) else reqs[r];
    }

    /** The loop of start_pending. */
    method FilePending()
      requires Inv(Snapshot())
      modifies this`buckets, this`line, this`reqs, this`pending
      ensures Snapshot() == Filed(old(Snapshot()))
    {
      ghost var s0 := TakePending(Snapshot());
      FileReady(Snapshot());
      hide Filing, Filed, Within, Insert, Inv, TakePending;
      var queue := MovePending();
      while queue != []
        invariant Filing(Snapshot(), queue, s0)
        decreases |queue|
      {
        FileStep(Snapshot(), queue, s0);
        var r := queue[0];
        queue := queue[1..];
        var b := BucketGet(reqs[r].key);
        BucketInsert(b, r, reqs[r].high);
      }
      FileEnd(Snapshot(), s0);
    }

    method TryTimeout(b: BucketId) returns (ghost arm: Arming)
      requires b in buckets && !timers.full
      modifies this`buckets, this`waits, timers`q, timers`skip, timers`clock
      ensures Snapshot() == RestModel.TryTimeout(old(Snapshot()), b, arm)
      ensures ArmingOk(old(Snapshot()), arm)
    {
      var reset := if globalWait > buckets[b].reset then globalWait else buckets[b].reset;
      var seen := timers.Timestamp();
      var wait := reset - seen / 1000;
      if wait < 0 {
        wait := 0;
      }
      buckets := buckets[b := buckets[b].(busy := Timeout)];
      var id, fetched;
      ghost var op;
      id, fetched, op := timers.CtlNoLock(WakeTimer(b, wait));
      arm := Arming(seen, op.now, op.newId);
      waits := waits[b := Wait(op.newId, reset)];
    }

    /** request_select and request_send. */
    method SendNext(b: BucketId)
      requires b in buckets && buckets[b].next != [] && buckets[b].next[0] in reqs
      modifies this`buckets, this`flying, this`reqs
      ensures Snapshot() == Send(old(Snapshot()), b)
    {
      var r := buckets[b].next[0];
      buckets := buckets[b := buckets[b].(next := buckets[b].next[1..])];
      buckets := buckets[b := buckets[b].(busy := Holding(r))];
      flying := flying + {r};
      reqs := reqs[r := reqs[r].(sends := reqs[r].sends + 1, place := InFlight)];
    }

    /** What the selector does with one bucket of its local queue. */
    method SelectTurn(b: BucketId) returns (ghost arm: Arming)
      requires b in buckets && buckets[b].next != [] && buckets[b].next[0] in reqs && !timers.full
      modifies this`buckets, this`waits, this`flying, this`reqs, this`line, timers`q, timers`skip, timers`clock
      ensures Snapshot() == SelectOne(old(Snapshot()), b, arm)
      ensures VerdictOn(old(buckets[b])).Armed? ==> ArmingOk(old(Snapshot()), arm)
    {
      arm := Arming(0, 0, 0);
      if buckets[b].busy != Idle {
        line := line + [b];
        return;
      }
      if buckets[b].remaining == 0 {
        arm := TryTimeout(b);
        line := line + [b];
        return;
      }
      SendNext(b);
      if buckets[b].next != [] {
        line := line + [b];
      }
    }

    /** The body of the selector's loop. */
    method SelectorStep(queue: seq<BucketId>, ghost s0: State, ghost known: map<BucketId, Arming>)
      returns (ghost arms: map<BucketId, Arming>)
      requires queue != [] && Selecting(Snapshot(), queue, s0, known) && !timers.full
      modifies this`buckets, this`waits, this`flying, this`reqs, this`line, timers`q, timers`skip, timers`clock
      ensures Selecting(Snapshot(), queue[1..], s0, arms)
    {
      ghost var s := Snapshot();
      SelectHead(s, queue, s0, known);
      hide Selecting, SelectOne;
      ghost var arm := SelectTurn(queue[0]);
      SelectStep(s, queue, s0, known, arm);
      arms := if VerdictOn(s.buckets[queue[0]]).Armed? then known[queue[0] := arm] else known;
    }

    /** bucket_request_selector */
    method Selector() returns (ghost arms: map<BucketId, Arming>)
      requires Inv(Snapshot()) && !timers.full
      modifies this`buckets, this`waits, this`flying, this`reqs, this`line, timers`q, timers`skip, timers`clock
      ensures var s0 := TakeLine(old(Snapshot()));
              Selectable(s0) && ArmingsOk(s0, arms) && Snapshot() == SelectAll(s0, arms)
    {
      hide Selecting, Inv, TakeLine, Selectable, SelectAll, ArmingsOk, ArmingOk, Within;
      ghost var s0 := TakeLine(Snapshot());
      SelectBegin(Snapshot());
      arms := map[];
      var queue := line;
      line := [];
      while queue != []
        invariant Selecting(Snapshot(), queue, s0, arms)
        decreases |queue|
      {
        arms := SelectorStep(queue, s0, arms);
        queue := queue[1..];
      }
      SelectEnd(Snapshot(), s0, arms);
    }

    /** winecord_requestor_start_pending */
    method StartPending() returns (ghost arms: map<BucketId, Arming>)
      requires Inv(Snapshot()) && !timers.full
      modifies this, timers
      ensures Startable(old(Snapshot()), arms)
      ensures Snapshot() == StartCall(old(Snapshot()), arms)
    {
      FilePending();
      FiledInv(old(Snapshot()));
      arms := Selector();
    }

    // -------------------------------------------------------------- response headers

    /** QUEUE_MOVE of the null bucket's queue. */
    method MoveNull() returns (queue: seq<ReqId>)
      requires nullB in buckets
      modifies this`reqs, this`buckets
      ensures queue == old(buckets)[nullB].next && Snapshot() == TakeNull(old(Snapshot())).(hand := [])
    {
      queue := buckets[nullB].next;
      buckets := buckets[nullB := buckets[nullB].(next := [])];
      reqs := map r | r in reqs :: if r in queue then reqs[r].(place := Hand) else reqs[r];
    }

    /** _winecord_ratelimiter_null_filter */
    method NullFilter(match_: BucketId, key: Key)
      requires Sane(Snapshot()) && match_ in buckets
      requires forall i :: 0 <= i < |buckets[nullB].next| ==> buckets[nullB].next[i] in reqs
      modifies this`buckets, this`line, this`reqs
      ensures Snapshot() == RestModel.NullFilter(old(Snapshot()), match_, key)
    {
      ghost var s0 := TakeNull(Snapshot());
      FilterBegin(Snapshot(), match_, key);
      hide Filtering, Insert, FilterAll, TakeNull, Sane;
      var b := match_;
      var queue := MoveNull();
      while queue != []
        invariant Filtering(Snapshot(), queue, b, s0, match_, key)
        decreases |queue|
      {
        FilterStep(Snapshot(), queue, b, s0, match_, key);
        var r := queue[0];
        queue := queue[1..];
        if reqs[r].key != key {
          b := nullB;
        }
        BucketInsert(b, r, false);
      }
      FilterEnd(Snapshot(), b, s0, match_, key);
    }

    /** _winecord_ratelimiter_get_match, up to the call of null_filter. */
    method FindOrAdd(key: Key, headers: Headers) returns (b: BucketId, ghost newB: BucketId)
      requires Sane(Snapshot())
      modifies this`buckets, this`routes
      ensures newB !in old(buckets) && b in buckets
      ensures b == MatchOf(old(Snapshot()), key, headers, newB)
      ensures Snapshot() == AddBucket(old(Snapshot()), key, headers, newB)
    {
      var unused := Numbers.Unused(buckets.Keys);
      newB := unused;
      if key in routes {
        b := routes[key];
      } else if !headers.bucket {
        b := missB;
      } else {
        b := unused;
        buckets := buckets[b := Bucket(1, 0, Idle, [])];
        routes := routes[key := b];
      }
    }

    /** _winecord_bucket_populate */
    method Populate(b: BucketId, headers: Headers) returns (ghost now: nat)
      requires b in buckets
      modifies this`buckets, this`globalWait, timers`clock
      ensures Snapshot() == RestModel.Populate(old(Snapshot()), b, headers, now)
      ensures old(timers.clock) / 1000 <= now <= timers.clock / 1000
    {
      var clock := timers.Timestamp();
      now := clock / 1000;
      var bucket := buckets[b];
      bucket := bucket.(remaining := if headers.remaining.Some? then headers.remaining.value else 1);
      if headers.resetAfter.Some? {
        var reset := clock / 1000 + headers.resetAfter.value;
        if headers.global {
          globalWait := reset;
        } else {
          bucket := bucket.(reset := reset);
        }
      } else if headers.reset.Some? {
        bucket := bucket.(reset := headers.reset.value);
      }
      buckets := buckets[b := bucket];
    }

    /** winecord_ratelimiter_build */
    method Build(bucket: BucketId, key: Key, headers: Headers) returns (ghost now: nat, ghost newB: BucketId)
      requires Sane(Snapshot()) && bucket in buckets
      requires forall i :: 0 <= i < |buckets[nullB].next| ==> buckets[nullB].next[i] in reqs
      modifies this`buckets, this`routes, this`line, this`reqs, this`globalWait, timers`clock
      ensures newB !in old(buckets)
      ensures Snapshot() == RestModel.Build(old(Snapshot()), bucket, key, headers, now, newB)
    {
      var b := bucket;
      ghost var s := Snapshot();
      if b == nullB {
        b, newB := FindOrAdd(key, headers);
        AddedSane(s, key, headers, newB);
        hide Sane, AddBucket, RestModel.NullFilter, RestModel.Populate, MatchOf;
        NullFilter(b, key);
        now := Populate(b, headers);
      } else {
        newB := Numbers.Unused(buckets.Keys);
        now := Populate(b, headers);
      }
    }

    method SetTimeout(b: BucketId, wait: nat) returns (ghost now: nat)
      requires b in buckets
      modifies this`buckets, timers`clock
      ensures Snapshot() == RestModel.SetTimeout(old(Snapshot()), b, false, wait, Times(0, now, 0))
    {
      var clock := timers.Timestamp();
      now := clock / 1000;
      buckets := buckets[b := buckets[b].(remaining := 0, reset := clock / 1000 + wait, busy := Idle)];
    }

    method SetGlobalTimeout(b: BucketId, wait: nat) returns (ghost times: Times)
      requires b in buckets
      modifies this`buckets, this`globalWait, timers`clock
      ensures Snapshot() == RestModel.SetTimeout(old(Snapshot()), b, true, wait, times)
    {
      var clock := timers.Timestamp();
      globalWait := clock / 1000 + wait;
      ghost var now := SetTimeout(b, wait);
      times := Times(clock / 1000, now, 0);
    }

    // ------------------------------------------------------------ finished transfers

    /** QUEUE_REMOVE of the bucket from the pending list. */
    method LeaveLine(b: BucketId)
      modifies this`line
      ensures Snapshot() == old(Snapshot()).(line := Without(old(line), b))
    {
      var kept: seq<BucketId> := [];
      var rest := line;
      while rest != [] && rest[0] != b
        invariant Without(line, b) == kept + Without(rest, b)
        decreases |rest|
      {
        kept := kept + [rest[0]];
        rest := rest[1..];
      }
      if rest != [] {
        rest := rest[1..];
      }
      line := kept + rest;
    }

    /** winecord_bucket_request_unselect; not `ok` is its failed assertion. */
    method Unselect(b: BucketId, r: ReqId) returns (ok: bool)
      requires b in buckets && r in reqs
      modifies this`line, this`buckets, this`reqs
      ensures ok <==> old(buckets)[b].busy == Holding(r)
      ensures ok ==> Snapshot() == old(Snapshot()).(
                line := if old(buckets)[b].next == [] then Without(old(line), b) else old(line),
                buckets := old(buckets)[b := old(buckets)[b].(busy := Idle)],
                reqs := old(reqs)[r := old(reqs)[r].(bucket := None)])
    {
      ok := buckets[b].busy == Holding(r);
      if !ok {
        return;
      }
      if buckets[b].next == [] {
        LeaveLine(b);
      }
      buckets := buckets[b := buckets[b].(busy := Idle)];
      reqs := reqs[r := reqs[r].(bucket := None)];
    }

    /** Release the bucket and hand the request over. */
    method Finish(b: BucketId, r: ReqId) returns (ok: bool)
      requires b in buckets && r in reqs
      modifies this`line, this`buckets, this`reqs, this`syncDone, this`finished, this`current
      ensures ok <==> RestModel.Unselect(old(Snapshot()), r, b).Ok?
      ensures ok ==> Snapshot() == RestModel.Unselect(old(Snapshot()), r, b).s
    {
      ok := Unselect(b, r);
      if !ok {
        return;
      }
      current := None;
      if reqs[r].sync {
        reqs := reqs[r := reqs[r].(place := RestModel.SyncDone)];
        syncDone := syncDone + {r};
      } else {
        reqs := reqs[r := reqs[r].(place := RestModel.Finished)];
        finished := finished + [r];
      }
    }

    /** _winecord_request_retry */
    method Retry(b: BucketId, r: ReqId) returns (again: bool)
      requires b in buckets && r in reqs && reqs[r].bucket == Some(b)
      modifies this`line, this`buckets, this`reqs, this`current
      ensures again <==> old(reqs)[r].attempts < retryLimit
      ensures Snapshot() == if again then RestModel.Retry(old(Snapshot()), r, b)
                            else Counted(old(Snapshot()), r, old(reqs)[r].attempts + 1)
    {
      var attempts := reqs[r].attempts;
      reqs := reqs[r := reqs[r].(attempts := attempts + 1)];
      again := attempts < retryLimit;
      if again {
        current := None;
        BucketInsert(b, r, true);
      }
    }

    /** _winecord_request_info_extract */
    method InfoExtract(b: BucketId, result: Result) returns (retry: bool, ghost times: Times)
      requires b in buckets && result.Response?
      modifies this`buckets, this`globalWait, timers`clock
      ensures retry <==> Retryable(result)
      ensures Snapshot() == Noted(old(Snapshot()), b, result, times)
    {
      match result.reply
      case Final =>
        retry, times := false, Times(0, 0, 0);
      case ServerError =>
        retry, times := true, Times(0, 0, 0);
      case TooMany(global, wait) =>
        if global {
          times := SetGlobalTimeout(b, wait);
        } else {
          ghost var now := SetTimeout(b, wait);
          times := Times(0, now, 0);
        }
        retry := true;
    }

    /** The response is read, if there is one. */
    method ReadResponse(b: BucketId, r: ReqId, result: Result)
      returns (retry: bool, ghost times: Times, ghost newB: BucketId)
      requires Sane(Snapshot()) && r in reqs && b in buckets && reqs[r].bucket == Some(b)
      requires forall i :: 0 <= i < |buckets[nullB].next| ==> buckets[nullB].next[i] in reqs
      modifies this`line, this`buckets, this`routes, this`reqs, this`globalWait, timers`clock
      ensures retry <==> Retryable(result)
      ensures newB !in old(buckets)
      ensures Snapshot() == Digest(old(Snapshot()), r, result, times, newB)
    {
      newB := Numbers.Unused(buckets.Keys);
      match result
      case Failure(readError) =>
        retry, times := readError, Times(0, 0, 0);
      case Response(_, headers) =>
        ghost var now;
        ghost var s := Snapshot();
        retry, times := InfoExtract(b, result);
        NotedSane(s, b, result, times);
        hide Sane, Noted, RestModel.Build;
        now, newB := Build(b, reqs[r].key, headers);
        NotedIgnores(s, b, result, times, now);
        times := times.(headers := now);
    }

    /** Retry the request, or finish it. */
    method Decide(b: BucketId, r: ReqId, retryable: bool, ghost result: Result) returns (ok: bool)
      requires b in buckets && r in reqs && reqs[r].bucket == Some(b) && (retryable <==> Retryable(result))
      modifies this`line, this`buckets, this`reqs, this`syncDone, this`finished, this`current
      ensures ok <==> Settle(old(Snapshot()), r, result).Ok?
      ensures ok ==> Snapshot() == Settle(old(Snapshot()), r, result).s
    {
      hide RestModel.Unselect, RestModel.Retry;
      var retry := retryable;
      assert Counted(Snapshot(), r, reqs[r].attempts) == Snapshot();
      if retry {
        retry := Retry(b, r);
      }
      ok := true;
      if !retry {
        ok := Finish(b, r);
      }
    }

    /** curl_multi_remove_handle */
    method TakeOff(r: ReqId)
      requires Inv(Snapshot()) && r in flying
      modifies this`flying, this`current, this`reqs
      ensures r in old(reqs) && Snapshot() == Land(old(Snapshot()), r) && Sane(Snapshot())
      ensures r in reqs && reqs[r].bucket == old(reqs)[r].bucket
      ensures reqs[r].bucket.Some? && reqs[r].bucket.value in buckets
      ensures forall i :: 0 <= i < |buckets[nullB].next| ==> buckets[nullB].next[i] in reqs
    {
      hide Inv, Within;
      LandKeeps(Snapshot(), r);
      SaneWithin(Land(Snapshot(), r), {});
      hide Sane;
      flying := flying - {r};
      current := Some(r);
      reqs := reqs[r := reqs[r].(place := RestModel.Current)];
    }

    /** The body of info_read's loop for one finished transfer; not `ok` is a failed assertion. */
    method Complete(r: ReqId, result: Result) returns (ok: bool, ghost times: Times, ghost newB: BucketId)
      requires Inv(Snapshot()) && r in flying
      modifies this, timers`clock
      ensures newB !in old(buckets)
      ensures ok <==> CompleteCall(old(Snapshot()), r, result, times, newB).Ok?
      ensures ok ==> Snapshot() == CompleteCall(old(Snapshot()), r, result, times, newB).s
    {
      hide Inv, Within, Sane, Digest, Settle, RestModel.Build, Noted, Land;
      TakeOff(r);
      var b := reqs[r].bucket.value;
      var retry;
      retry, times, newB := ReadResponse(b, r, result);
      DigestedState(old(Snapshot()), r, result, times, newB);
      ok := Decide(b, r, retry, result);
    }

    /** One message of info_read's loop. */
    method ReadOne(ghost s0: State, ghost states0: seq<State>, ghost steps0: seq<Step>)
      returns (ok: bool, ghost states: seq<State>, ghost steps: seq<Step>, ghost last: Step)
      requires Inv(Snapshot()) && flying != {} && Leads(s0, states0, steps0, Snapshot())
      modifies this, timers`clock
      ensures last.Complete? && steps == (if ok then steps0 + [last] else steps0)
      ensures |states| == |steps| + 1 && Leads(s0, states, steps, states[|steps|])
      ensures ok ==> Snapshot() == states[|steps|] && Inv(Snapshot()) && flying < old(flying)
      ensures !ok ==> Fails(states[|steps|], last)
    {
      LeadsShape(s0, states0, steps0, Snapshot());
      hide Inv, Leads, Moves, Fails, CompleteCall;
      var r :| r in flying;
      var result: Result := *;
      ghost var s := Snapshot();
      ghost var times, newB;
      ok, times, newB := Complete(r, result);
      CompleteNext(s, r, result, times, newB);
      last := Step.Complete(r, result, times, newB);
      states, steps := states0, steps0;
      if ok {
        ExtendRun(s0, states, steps, s, last, Snapshot());
        MovesKeeps(s, last, Snapshot());
        states := states + [Snapshot()];
        steps := steps + [last];
      }
    }

    /** winecord_requestor_info_read: some of the transfers are finished, each in some way. Not `ok` is
        a failed assertion, in the completion `last`. */
    method InfoRead() returns (ok: bool, ghost states: seq<State>, ghost steps: seq<Step>, ghost last: Step)
      requires Inv(Snapshot())
      modifies this, timers`clock
      ensures forall i :: 0 <= i < |steps| ==> steps[i].Complete?
      ensures |states| == |steps| + 1
      ensures Leads(old(Snapshot()), states, steps, states[|steps|])
      ensures ok ==> Snapshot() == states[|steps|]
      ensures !ok ==> Fails(states[|steps|], last)
    {
      hide *;
      Still(Snapshot());
      ok, states, steps, last := true, [Snapshot()], [], Dispatch;
      while ok && flying != {}
        invariant |states| == |steps| + 1
        invariant Leads(old(Snapshot()), states, steps, states[|steps|])
        invariant ok ==> Snapshot() == states[|steps|] && Inv(Snapshot())
        invariant !ok ==> Fails(states[|steps|], last)
        invariant forall i :: 0 <= i < |steps| ==> steps[i].Complete?
        decreases ok, flying
      {
        var more: bool := *;
        if !more {
          break;
        }
        ok, states, steps, last := ReadOne(old(Snapshot()), states, steps);
      }
    }

    // ------------------------------------------------------------------- requests

    /** winecord_request_begin, up to the wait of a synchronous caller. */
    method Begin(key: Key, sync: bool, high: bool) returns (r: ReqId, ghost id: ReqId)
      requires recycling != [] ==> recycling[0] in reqs
      modifies this`reqs, this`recycling, this`pending
      ensures id !in old(reqs) && Snapshot() == BeginCall(old(Snapshot()), id, key, sync, high)
    {
      var unused := Numbers.Unused(reqs.Keys);
      id := unused;
      if recycling == [] {
        r := unused;
        reqs := reqs[r := Req(key, sync, high, None, 0, 0, RestModel.Recycling)];
      } else {
        r := recycling[0];
        recycling := recycling[1..];
      }
      reqs := reqs[r := reqs[r].(key := key, sync := sync, high := high, sends := 0, place := RestModel.Pending)];
      pending := pending + [r];
    }

    /** winecord_request_cancel, of a request that is in no queue. */
    method Cancel(r: ReqId)
      requires r in reqs
      modifies this`reqs, this`recycling
      ensures Snapshot() == Recycle(old(Snapshot()), r)
    {
      reqs := reqs[r := reqs[r].(attempts := 0, place := RestModel.Recycling)];
      recycling := recycling + [r];
    }

    /** A synchronous caller is woken up, runs its callback and recycles the request. */
    method SyncReturn(r: ReqId)
      requires Inv(Snapshot()) && r in syncDone
      modifies this`reqs, this`recycling, this`syncDone
      ensures r in old(reqs) && Snapshot() == SyncReturnCall(old(Snapshot()), r)
    {
      SyncReturnKeeps(Snapshot(), r);
      syncDone := syncDone - {r};
      Cancel(r);
    }

    /** A response callback: it begins whatever requests it likes. */
    method Callback(ghost s0: State, ghost states0: seq<State>, ghost steps0: seq<Step>, ghost queue: seq<ReqId>)
      returns (ghost states: seq<State>, ghost steps: seq<Step>)
      requires Dispatching(s0, states0, steps0, Snapshot(), queue)
      modifies this`reqs, this`recycling, this`pending
      ensures Dispatching(s0, states, steps, Snapshot(), queue)
    {
      states, steps := states0, steps0;
      var calls: seq<(Key, bool)> := *;
      for i := 0 to |calls|
        invariant Dispatching(s0, states, steps, Snapshot(), queue)
      {
        ghost var s := Snapshot();
        DispatchReady(s0, states, steps, s, queue);
        hide Dispatching, BeginCall;
        var r;
        ghost var id;
        r, id := Begin(calls[i].0, false, calls[i].1);
        ghost var step := Step.Begin(id, calls[i].0, false, calls[i].1);
        DispatchCallback(s0, states, steps, s, queue, step, Snapshot());
        states := states + [Snapshot().(finished := queue + finished)];
        steps := steps + [step];
      }
    }

    /** winecord_requestor_dispatch_responses; `locked` says whether the queue's lock was busy. */
    method DispatchResponses(locked: bool) returns (ghost states: seq<State>, ghost steps: seq<Step>)
      requires Inv(Snapshot())
      modifies this`reqs, this`recycling, this`pending, this`finished
      ensures Leads(old(Snapshot()), states, steps, Snapshot())
      ensures forall i :: 0 <= i < |steps| ==> QuietStep(steps[i])
      ensures if locked then steps == [] else finished == []
    {
      ghost var s0 := Snapshot();
      Still(s0);
      hide Inv, IsRun;
      states, steps := [s0], [];
      if locked {
        return;
      }
      var queue := finished;
      finished := [];
      assert queue + [] == queue;
      while queue != []
        invariant finished == [] && Dispatching(s0, states, steps, Snapshot(), queue)
        decreases |queue|
      {
        var r := queue[0];
        states, steps := Callback(s0, states, steps, queue);
        DispatchReady(s0, states, steps, Snapshot(), queue);
        hide Dispatching, Recycle;
        ghost var s := Snapshot();
        Cancel(r);
        DispatchNext(s0, states, steps, s, queue, Snapshot());
        queue := queue[1..];
        states := states + [Snapshot().(finished := queue + finished)];
        steps := steps + [Step.Dispatch];
      }
      assert [] + finished == finished;
    }

    /** _winecord_bucket_wake_cb; its timer is about to delete itself. */
    method WakeCb(b: BucketId)
      requires b in buckets
      modifies this`buckets, this`waits
      ensures Snapshot() == Woken(old(Snapshot()), b, timers.Snapshot())
    {
      buckets := buckets[b := buckets[b].(busy := Idle)];
      buckets := buckets[b := buckets[b].(remaining := 1)];
      waits := waits - {b};
    }
  }
}
