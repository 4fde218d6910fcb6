/** Short runs from the initial state that reach the failures of the REST client. */
module RestRuns {
  import opened Wrappers
  import opened RestModel
  import opened RestInvariant
  import opened RestSelector
  import opened RestSteps
  import opened RestTheorems
  import opened RestLimits

  /** Nothing is queued, and the bucket of `key` can send. */
  ghost predicate Quiet(s: State, key: Key) {
    && Inv(s) && s.recycling == [] && s.pending == [] && s.line == []
    && BucketOf(s, key) in s.buckets
    && s.buckets[BucketOf(s, key)].busy == Idle && s.buckets[BucketOf(s, key)].next == []
    && s.buckets[BucketOf(s, key)].remaining != 0
  }

  /** The request `id` has been begun. */
  function Begun(s: State, id: ReqId, key: Key): State {
    s.(reqs := s.reqs[id := Req(key, false, false, None, 0, 0, Pending)], pending := [id])
  }

  /** The request `id` is in the air, sent through the bucket of its route. */
  function Airborne(s: State, id: ReqId, key: Key): State
    requires BucketOf(s, key) in s.buckets
  {
    var b := BucketOf(s, key);
    s.(reqs := s.reqs[id := Req(key, false, false, Some(b), 0, 1, InFlight)],
       buckets := s.buckets[b := s.buckets[b].(busy := Holding(id))],
       flying := s.flying + {id})
  }

  /** The pending list once the request is filed. */
  function Queued(s: State, id: ReqId, key: Key): State
    requires BucketOf(s, key) in s.buckets
  {
    var b := BucketOf(s, key);
    s.(reqs := s.reqs[id := Req(key, false, false, Some(b), 0, 0, Next(b))],
       buckets := s.buckets[b := s.buckets[b].(next := [id])], line := [b])
  }

  lemma InsertBegun(s: State, id: ReqId, key: Key)
    requires BucketOf(s, key) in s.buckets && s.buckets[BucketOf(s, key)].next == []
    requires s.hand == [] && s.pending == [] && s.line == [] && id !in s.reqs
    ensures var s0 := TakePending(Begun(s, id, key));
            && s0.hand == [id] && id in s0.reqs && s0.reqs[id].key == key && !s0.reqs[id].high
            && Insert(s0.(hand := []), BucketOf(s, key), id, false) == Queued(s, id, key)
  {
    var s0 := TakePending(Begun(s, id, key));
    var s1 := Insert(s0.(hand := []), BucketOf(s, key), id, false);
    assert [] + [id] == [id] && [BucketOf(s, key)] + [] == [BucketOf(s, key)];
    assert s1.reqs == Queued(s, id, key).reqs;
  }

  lemma FiledBegun(s: State, id: ReqId, key: Key)
    requires Quiet(s, key) && id !in s.reqs && Inv(Begun(s, id, key))
    ensures Filed(Begun(s, id, key)) == Queued(s, id, key)
  {
    var s0 := TakePending(Begun(s, id, key));
    TakePendingKeeps(Begun(s, id, key));
    SaneWithin(s0, {});
    InsertBegun(s, id, key);
    FileLimit(s0);
    hide Within, Inv, Sane, Spared, FileAll, Insert, TakePending, Queued, SameLimits;
    assert s0.hand[1..] == [];
    FileNone(Queued(s, id, key));
  }

  lemma FileNone(s: State)
    requires Sane(s) && s.hand == []
    ensures FileAll(s) == s
  {
  }

  lemma PassQueued(s: State, id: ReqId, key: Key)
    requires BucketOf(s, key) in s.buckets && s.buckets[BucketOf(s, key)].busy == Idle
    requires s.buckets[BucketOf(s, key)].next == [] && s.buckets[BucketOf(s, key)].remaining != 0
    requires s.line == [] && s.todo == [] && Selectable(TakeLine(Queued(s, id, key)))
    ensures SelectAll(TakeLine(Queued(s, id, key)), map[]) == Airborne(s, id, key)
  {
    var s0 := TakeLine(Queued(s, id, key));
    var b := BucketOf(s, key);
    assert s0.todo == [b];
    var s1 := SelectOne(s0.(todo := s0.todo[1..]), b, Arming(0, 0, 0));
    assert SelectAll(s0, map[]) == SelectAll(s1, map[]) == s1;
    assert s1.reqs == Airborne(s, id, key).reqs;
    assert s1.buckets == Airborne(s, id, key).buckets;
  }

  lemma BegunStep(s: State, id: ReqId, key: Key)
    requires Inv(s) && id !in s.reqs && s.recycling == []
    ensures var s1 := DoBegin(s, id, key, false, false);
            Moves(s, RestModel.Begin(id, key, false, false), s1) && Inv(s1) && s1 == BeginCall(s, id, key, false, false)
  {
    hide Inv, BeginCall;
  }

  lemma BeginQuiet(s: State, id: ReqId, key: Key)
    requires Quiet(s, key) && id !in s.reqs
    ensures Moves(s, RestModel.Begin(id, key, false, false), Begun(s, id, key)) && Inv(Begun(s, id, key))
  {
    assert Begun(s, id, key) == BeginCall(s, id, key, false, false);
    hide Inv, BeginCall, Begun;
    BegunStep(s, id, key);
  }

  lemma NothingToArm(s: State, id: ReqId, key: Key)
    requires BucketOf(s, key) in s.buckets && s.buckets[BucketOf(s, key)].busy == Idle
    requires s.buckets[BucketOf(s, key)].remaining != 0
    ensures ArmingsOk(TakeLine(Queued(s, id, key)), map[])
  {
  }

  lemma StartQuiet(s: State, id: ReqId, key: Key)
    requires Quiet(s, key) && id !in s.reqs && Inv(Begun(s, id, key))
    ensures Moves(Begun(s, id, key), StartPending(map[]), Airborne(s, id, key))
    ensures Inv(Airborne(s, id, key))
  {
    var s1 := Begun(s, id, key);
    FiledBegun(s, id, key);
    NothingToArm(s, id, key);
    assert s.todo == [];
    hide Inv, Filed, SelectAll, Selectable, Begun, ArmingsOk, TakeLine, Queued, Airborne;
    StartReady(s1, map[]);
    PassQueued(s, id, key);
    Started(s1, map[], Airborne(s, id, key));
  }

  lemma Started(s: State, arms: map<BucketId, Arming>, s1: State)
    requires Inv(s) && Startable(s, arms) && StartCall(s, arms) == s1
    ensures Moves(s, StartPending(arms), s1) && Inv(s1)
  {
    hide Inv, Startable, StartCall;
  }

  /** A request begun when all is quiet is sent at once. */
  lemma Launch(s: State, id: ReqId, key: Key)
    requires Quiet(s, key) && id !in s.reqs
    ensures Moves(s, RestModel.Begin(id, key, false, false), Begun(s, id, key))
    ensures Moves(Begun(s, id, key), StartPending(map[]), Airborne(s, id, key))
    ensures Inv(Airborne(s, id, key))
  {
    BeginQuiet(s, id, key);
    StartQuiet(s, id, key);
  }

  /** The first request of a client whose requests may be retried `limit` times. */
  function First(limit: nat, key: Key): State {
    Airborne(Initial(limit, 0, 1), 0, key)
  }

  const NO_HEADERS := Headers(false, None, None, false, None)

  /** A key of a route, which begins with a colon. */
  predicate RouteKey(key: Key) {
    key != "null" && key != "miss"
  }

  lemma InitialQuiet(limit: nat, key: Key)
    requires RouteKey(key)
    ensures Quiet(Initial(limit, 0, 1), key)
  {
    InitialInv(limit, 0, 1);
    hide Inv;
  }

  /** A run with one step more. */
  lemma RunOn(states: seq<State>, steps: seq<Step>, step: Step, s1: State)
    requires IsRun(states, steps) && Moves(states[|steps|], step, s1)
    ensures IsRun(states + [s1], steps + [step])
  {
    hide Inv, Moves;
  }

  /** A run in the end of which a request is sent. */
  lemma LaunchOn(states: seq<State>, steps: seq<Step>, id: ReqId, key: Key)
    returns (states1: seq<State>, steps1: seq<Step>)
    requires IsRun(states, steps) && Quiet(states[|steps|], key) && id !in states[|steps|].reqs
    ensures IsRun(states1, steps1) && |steps1| == |steps| + 2 && states1[0] == states[0]
    ensures states1[|steps1|] == Airborne(states[|steps|], id, key) && Inv(states1[|steps1|])
  {
    var s := states[|steps|];
    Launch(s, id, key);
    hide IsRun, Moves, Quiet, Airborne, Begun, Inv, BucketOf;
    var s1, s2 := Begun(s, id, key), Airborne(s, id, key);
    RunOn(states, steps, RestModel.Begin(id, key, false, false), s1);
    states1, steps1 := states + [s1], steps + [RestModel.Begin(id, key, false, false)];
    RunOn(states1, steps1, StartPending(map[]), s2);
    states1, steps1 := states1 + [s2], steps1 + [StartPending(map[])];
  }

  lemma Completed(s: State, r: ReqId, result: Result, times: Times, newB: BucketId)
    requires Inv(s) && r in s.flying && newB !in s.buckets && !Trips(s, r, result)
    ensures CompleteCall(s, r, result, times, newB).Ok?
    ensures Moves(s, Complete(r, result, times, newB), CompleteCall(s, r, result, times, newB).s)
  {
    hide Inv, CompleteCall, Trips;
    AbortsIff(s, r, result, times, newB);
  }

  /** A run in the end of which a transfer completes. */
  lemma CompleteOn(states: seq<State>, steps: seq<Step>, r: ReqId, result: Result, times: Times, newB: BucketId)
    returns (states1: seq<State>, steps1: seq<Step>)
    requires IsRun(states, steps) && Inv(states[|steps|]) && r in states[|steps|].flying
    requires newB !in states[|steps|].buckets && !Trips(states[|steps|], r, result)
    ensures CompleteCall(states[|steps|], r, result, times, newB).Ok?
    ensures IsRun(states1, steps1) && |steps1| == |steps| + 1 && states1[0] == states[0]
    ensures steps1[|steps|] == Complete(r, result, times, newB)
    ensures states1[|steps1|] == CompleteCall(states[|steps|], r, result, times, newB).s
  {
    var s := states[|steps|];
    hide IsRun, Moves, Inv, CompleteCall, Trips;
    Completed(s, r, result, times, newB);
    var s1 := CompleteCall(s, r, result, times, newB).s;
    RunOn(states, steps, Complete(r, result, times, newB), s1);
    states1, steps1 := states + [s1], steps + [Complete(r, result, times, newB)];
  }

  lemma FirstRun(limit: nat, key: Key) returns (states: seq<State>, steps: seq<Step>)
    requires RouteKey(key)
    ensures IsRun(states, steps) && |steps| == 2 && states[0] == Initial(limit, 0, 1) && states[2] == First(limit, key)
    ensures Inv(First(limit, key)) && 0 in First(limit, key).flying
  {
    var s := Initial(limit, 0, 1);
    InitialQuiet(limit, key);
    assert 0 !in s.reqs && 0 in First(limit, key).flying;
    hide Inv, Initial, Airborne, RouteKey;
    assert IsRun([s], []);
    states, steps := LaunchOn([s], [], 0, key);
  }

  // -------------------------------------------------------------------- the failures

  lemma TooManyAborts(s: State, r: ReqId, result: Result, times: Times, newB: BucketId)
    requires Inv(s) && r in s.flying && newB !in s.buckets && Trips(s, r, result)
    ensures Enabled(s, Complete(r, result, times, newB)) && Do(s, Complete(r, result, times, newB)) == Aborted
  {
    hide Inv, CompleteCall;
    AbortsIff(s, r, result, times, newB);
  }

  /** AbortsIff at work: without retries, the first 429 to the first request trips the assertion. */
  lemma AbortRun(key: Key, global: bool, wait: nat, h: Headers, times: Times)
    returns (states: seq<State>, steps: seq<Step>)
    requires RouteKey(key)
    ensures IsRun(states, steps) && |steps| == 2 && states[0] == Initial(0, 0, 1) && Inv(states[2])
    ensures var last := Complete(0, Response(TooMany(global, wait), h), times, 2);
            Enabled(states[2], last) && Do(states[2], last) == Aborted
  {
    states, steps := FirstRun(0, key);
    TooManyAborts(First(0, key), 0, Response(TooMany(global, wait), h), times, 2);
    hide Inv, IsRun;
  }

  /** The first request's response, when that does not trip the assertion. */
  lemma FirstResponse(limit: nat, key: Key, result: Result, times: Times)
    returns (states: seq<State>, steps: seq<Step>)
    requires RouteKey(key) && !(IsTooMany(result) && limit == 0)
    ensures var s := First(limit, key);
            && Inv(s) && 0 in s.flying && 2 !in s.buckets && !Trips(s, 0, result)
            && CompleteCall(s, 0, result, times, 2).Ok?
            && IsRun(states, steps) && |steps| == 3 && states[0] == Initial(limit, 0, 1)
            && steps[2] == Complete(0, result, times, 2) && states[3] == CompleteCall(s, 0, result, times, 2).s
  {
    states, steps := FirstRun(limit, key);
    var s := First(limit, key);
    assert 2 !in s.buckets && !Trips(s, 0, result);
    hide Inv, IsRun, CompleteCall, Trips, First, Initial;
    states, steps := CompleteOn(states, steps, 0, result, times, 2);
  }

  /** StallIff at work: a server error on the first request stalls the null bucket, which every request
      on a route not known yet goes through. */
  lemma StallRun(limit: nat, key: Key, h: Headers, times: Times) returns (states: seq<State>, steps: seq<Step>)
    requires RouteKey(key) && limit > 0
    ensures IsRun(states, steps) && |steps| == 3 && states[0] == Initial(limit, 0, 1)
    ensures steps[2] == Complete(0, Response(ServerError, h), times, 2) && Stalled(states[3], 0)
  {
    states, steps := FirstResponse(limit, key, Response(ServerError, h), times);
    hide Inv, IsRun, CompleteCall, Stalled;
    StallIff(First(limit, key), 0, Response(ServerError, h), times, 2);
  }

  /** HeldBackIff at work on a route not known yet: after a 429 whose headers say that five requests
      remain, the next pass holds the null bucket back all the same. */
  lemma HeldRun(limit: nat, key: Key, wait: nat, times: Times) returns (states: seq<State>, steps: seq<Step>)
    requires RouteKey(key) && limit > 0
    ensures IsRun(states, steps) && |steps| == 3 && states[0] == Initial(limit, 0, 1)
    ensures steps[2] == Complete(0, Response(TooMany(false, wait), NO_HEADERS.(remaining := Some(5))), times, 2)
    ensures 0 in states[3].buckets && VerdictOn(states[3].buckets[0]).Armed?
  {
    var result := Response(TooMany(false, wait), NO_HEADERS.(remaining := Some(5)));
    states, steps := FirstResponse(limit, key, result, times);
    hide Inv, IsRun, CompleteCall;
    HeldBackIff(First(limit, key), 0, result, times, 2);
  }

  // ------------------------------------------------------------ a route that is known

  /** A final response to the first request, which makes its route known. */
  const LEARNED := Response(Final, NO_HEADERS.(bucket := true))

  lemma NothingToFilter(s: State, b: BucketId, key: Key)
    requires Sane(s) && b in s.buckets && s.hand == [] && s.buckets[s.nullB].next == []
    ensures NullFilter(s, b, key) == s
  {
    var s0 := TakeNull(s);
    assert s0.hand == [] && s0.reqs == s.reqs && s0.buckets == s.buckets;
    assert FilterAll(s0, b, key) == s0;
  }

  lemma LearnedDigest(limit: nat, key: Key, times: Times)
    requires RouteKey(key)
    ensures var s := Land(First(limit, key), 0);
            && Sane(s) && s.buckets[0].next == []
            && var s1 := Digest(s, 0, LEARNED, times, 2);
            && s1.recycling == [] && s1.pending == [] && s1.line == [] && s1.retryLimit == limit && s1.nullB == 0
            && s1.reqs == map[0 := Req(key, false, false, Some(0), 0, 1, Current)]
            && key in s1.routes && s1.routes[key] == 2 && 0 in s1.buckets && 2 in s1.buckets && 3 !in s1.buckets
            && s1.buckets[0] == Bucket(1, 0, Holding(0), []) && s1.buckets[2] == Bucket(1, 0, Idle, [])
  {
    var s := Land(First(limit, key), 0);
    var s0 := AddBucket(s, key, LEARNED.headers, 2);
    assert s0.reqs == s.reqs == map[0 := Req(key, false, false, Some(0), 0, 1, Current)];
    NothingToFilter(s0, 2, key);
    hide NullFilter;
  }

  lemma FinalSettles(s: State, r: ReqId, b: BucketId, result: Result, c: BucketId)
    requires r in s.reqs && s.reqs[r].bucket == Some(b) && b in s.buckets && result == LEARNED
    requires s.buckets[b].busy == Holding(r) && s.buckets[b].next == [] && s.line == [] && c in s.buckets && c != b
    ensures var o := Settle(s, r, result);
            && o.Ok? && o.s.recycling == s.recycling && o.s.pending == s.pending && o.s.line == []
            && o.s.nullB == s.nullB && o.s.retryLimit == s.retryLimit && o.s.routes == s.routes
            && (forall q :: q in o.s.reqs <==> q in s.reqs) && (forall d :: d in o.s.buckets <==> d in s.buckets)
            && o.s.buckets[c] == s.buckets[c]
  {
  }

  lemma LearnedSettle(limit: nat, key: Key, times: Times)
    requires RouteKey(key)
    ensures Sane(Land(First(limit, key), 0)) && Land(First(limit, key), 0).buckets[0].next == []
    ensures var s := Digest(Land(First(limit, key), 0), 0, LEARNED, times, 2);
            && 0 in s.reqs && s.reqs[0].bucket == Some(0) && 0 in s.buckets
            && var o := Settle(s, 0, LEARNED);
            && o.Ok? && o.s.recycling == [] && o.s.pending == [] && o.s.line == [] && o.s.nullB == 0
            && o.s.retryLimit == limit && 1 !in o.s.reqs && 3 !in o.s.buckets
            && key in o.s.routes && o.s.routes[key] == 2
            && 2 in o.s.buckets && o.s.buckets[2] == Bucket(1, 0, Idle, [])
  {
    LearnedDigest(limit, key, times);
    var s := Digest(Land(First(limit, key), 0), 0, LEARNED, times, 2);
    hide *;
    FinalSettles(s, 0, 0, LEARNED, 2);
  }

  lemma LearnedQuiet(limit: nat, key: Key, times: Times)
    requires RouteKey(key) && Inv(First(limit, key)) && 0 in First(limit, key).flying && 2 !in First(limit, key).buckets
    requires CompleteCall(First(limit, key), 0, LEARNED, times, 2).Ok?
    ensures var s := CompleteCall(First(limit, key), 0, LEARNED, times, 2).s;
            && Quiet(s, key) && 1 !in s.reqs && 3 !in s.buckets && s.retryLimit == limit
            && s.nullB == 0 && BucketOf(s, key) == 2
  {
    hide Inv, Digest, Settle, First, Land, RouteKey, CompleteCall;
    LearnedSettle(limit, key, times);
    LearnedKeeps(limit, key, times);
  }

  lemma LearnedKeeps(limit: nat, key: Key, times: Times)
    requires Inv(First(limit, key)) && 0 in First(limit, key).flying && 2 !in First(limit, key).buckets
    requires Sane(Land(First(limit, key), 0)) && Land(First(limit, key), 0).buckets[0].next == []
    requires 0 in Digest(Land(First(limit, key), 0), 0, LEARNED, times, 2).reqs
    ensures var o := CompleteCall(First(limit, key), 0, LEARNED, times, 2);
            o.Ok? && Inv(o.s) && o == Settle(Digest(Land(First(limit, key), 0), 0, LEARNED, times, 2), 0, LEARNED)
  {
    CompleteKeeps(First(limit, key), 0, LEARNED, times, 2);
  }

  /** A 429 without any headers, on a request that was sent through the bucket of a known route. */
  lemma SentAgain(s: State, id: ReqId, key: Key, wait: nat, times: Times, newB: BucketId)
    requires Quiet(s, key) && s.retryLimit > 0 && BucketOf(s, key) != s.nullB && newB !in s.buckets
    requires Inv(Airborne(s, id, key)) && id in Airborne(s, id, key).flying
    ensures var s1 := Airborne(s, id, key);
            var b := BucketOf(s, key);
            var result := Response(TooMany(false, wait), NO_HEADERS);
            && newB !in s1.buckets && !Trips(s1, id, result)
            && var o := CompleteCall(s1, id, result, times, newB);
            && o.Ok? && b in o.s.buckets && VerdictOn(o.s.buckets[b]).Sent?
            && o.s.buckets[b].next != [] && o.s.buckets[b].next[0] == id
  {
    hide Inv, CompleteCall;
    HeldBackIff(Airborne(s, id, key), id, Response(TooMany(false, wait), NO_HEADERS), times, newB);
  }

  /** HeldBackIff at work on a known route: after a 429 without X-Ratelimit-Remaining the request is due
      again in the next pass, however long it was told to wait. */
  lemma SentAgainRun(limit: nat, key: Key, wait: nat, times: Times) returns (states: seq<State>, steps: seq<Step>)
    requires RouteKey(key) && limit > 0
    ensures IsRun(states, steps) && |steps| == 6 && states[0] == Initial(limit, 0, 1)
    ensures steps[5] == Complete(1, Response(TooMany(false, wait), NO_HEADERS), times, 3)
    ensures 2 in states[6].buckets && VerdictOn(states[6].buckets[2]).Sent?
    ensures states[6].buckets[2].next != [] && states[6].buckets[2].next[0] == 1
  {
    states, steps := FirstResponse(limit, key, LEARNED, times);
    LearnedQuiet(limit, key, times);
    var s := states[3];
    assert 1 in Airborne(s, 1, key).flying;
    hide Inv, IsRun, CompleteCall, Airborne, Quiet, First, Initial, BucketOf, RouteKey, Trips;
    states, steps := LaunchOn(states, steps, 1, key);
    SentAgain(s, 1, key, wait, times, 3);
    states, steps := CompleteOn(states, steps, 1, Response(TooMany(false, wait), NO_HEADERS), times, 3);
  }
}
