/**
 The REST client as a state machine: requests travel between the requestor's queues, the
 buckets of the rate limiter and the transfer engine, while exhausted buckets wait for a
 timer of the REST thread's own timer group.
 */
module RestModel {
  import opened Wrappers
  import T = TimerQueue

  type ReqId = nat
  type BucketId = nat
  type Key = string

  /** `busy_req`: null, WINECORD_BUCKET_TIMEOUT, or a request. */
  datatype Busy = Idle | Timeout | Holding(req: ReqId)

  datatype Bucket = Bucket(remaining: int, reset: nat, busy: Busy, next: seq<ReqId>)

  datatype Place = Recycling | Pending | Next(b: BucketId) | InFlight | Finished | SyncDone | Hand | Current

  /** `sends` and `place` are history: transfers started for this use, and where the request is. */
  datatype Req = Req(
    key: Key, sync: bool, high: bool, bucket: Option<BucketId>, attempts: nat,
    sends: nat, place: Place)

  /** History of an armed bucket: its wake timer and the time (ms) it has to wait for. */
  datatype Wait = Wait(id: T.TimerId, until: nat)

  /** `hand`, `todo` and `current` are the local queues and the local request of the function
      that is executing; they are empty between steps. */
  datatype State = State(
    retryLimit: nat, nullB: BucketId, missB: BucketId,
    reqs: map<ReqId, Req>,
    recycling: seq<ReqId>, pending: seq<ReqId>, finished: seq<ReqId>,
    flying: set<ReqId>, syncDone: set<ReqId>,
    buckets: map<BucketId, Bucket>, routes: map<Key, BucketId>, line: seq<BucketId>, globalWait: nat,
    timers: T.State, waits: map<BucketId, Wait>,
    hand: seq<ReqId>, todo: seq<BucketId>, current: Option<ReqId>)

  /** The clock readings (us) and the timer id one arming of a bucket uses. */
  datatype Arming = Arming(seen: nat, now: nat, id: T.TimerId)

  /** The rate-limit headers of a response; times in ms. */
  datatype Headers = Headers(
    bucket: bool, remaining: Option<int>, resetAfter: Option<nat>, global: bool, reset: Option<nat>)

  datatype Reply = Final | ServerError | TooMany(global: bool, wait: nat)

  datatype Result =
    | Response(reply: Reply, headers: Headers)
    | Failure(readError: bool)

  /** The clock (ms) as read for the global timeout, the bucket's timeout and the headers. */
  datatype Times = Times(global: nat, bucket: nat, headers: nat)

  datatype Step =
    | Begin(id: ReqId, key: Key, sync: bool, high: bool)
    | StartPending(arms: map<BucketId, Arming>)
    | Complete(r: ReqId, result: Result, times: Times, newBucket: BucketId)
    | Wake(id: T.TimerId, now: nat)
    | Dispatch
    | SyncReturn(r: ReqId)

  /** The function pointer _winecord_bucket_wake_cb. */
  const WAKE: T.Callback := 1

  // -------------------------------------------------------------------- requests

  /** request_begin: reuse a recycled request or allocate one, and queue it. */
  function BeginCall(s: State, id: ReqId, key: Key, sync: bool, high: bool): State
    requires s.recycling != [] ==> s.recycling[0] in s.reqs
  {
    var isNew := s.recycling == [];
    var r := if isNew then id else s.recycling[0];
    var bucket := if isNew then None else s.reqs[r].bucket;
    var attempts := if isNew then 0 else s.reqs[r].attempts;
    s.(recycling := if isNew then [] else s.recycling[1..],
       reqs := s.reqs[r := Req(key, sync, high, bucket, attempts, 0, Pending)],
       pending := s.pending + [r])
  }

  /** request_cancel, of a request that is in no queue any more. */
  function Recycle(s: State, r: ReqId): State
    requires r in s.reqs
  {
    s.(recycling := s.recycling + [r], reqs := s.reqs[r := s.reqs[r].(attempts := 0, place := Recycling)])
  }

  // --------------------------------------------------------------------- buckets

  /** bucket_get */
  function BucketOf(s: State, key: Key): BucketId {
    if key in s.routes then s.routes[key] else s.nullB
  }

  /** bucket_insert */
  function Insert(s: State, b: BucketId, r: ReqId, high: bool): State
    requires b in s.buckets && r in s.reqs
  {
    var bucket := s.buckets[b];
    s.(buckets := s.buckets[b := bucket.(next := if high then [r] + bucket.next else bucket.next + [r])],
       line := if b in s.line then s.line else [b] + s.line,
       reqs := s.reqs[r := s.reqs[r].(bucket := Some(b), place := Next(b))])
  }

  /** The references the functions below follow lead somewhere. */
  ghost predicate Sane(s: State) {
    && s.nullB in s.buckets && s.missB in s.buckets
    && (forall k :: k in s.routes ==> s.routes[k] in s.buckets)
    && (forall i :: 0 <= i < |s.hand| ==> s.hand[i] in s.reqs)
  }

  /** Filing requests and reading headers touches neither transfers nor timers, nor which request
      keeps a known bucket busy; new buckets are idle. */
  ghost predicate Spared(s: State, s1: State) {
    && s1.retryLimit == s.retryLimit && s1.nullB == s.nullB && s1.missB == s.missB
    && s1.timers == s.timers && s1.waits == s.waits && s1.flying == s.flying
    && s1.current == s.current && s1.todo == s.todo
    && (forall c :: c in s.buckets ==> c in s1.buckets && s1.buckets[c].busy == s.buckets[c].busy)
    && (forall c :: c in s1.buckets && c !in s.buckets ==> s1.buckets[c].busy == Idle)
    && (forall q :: q in s.reqs ==> q in s1.reqs)
  }

  /** The loop of start_pending: file each request of the local queue with its bucket. */
  ghost function FileAll(s: State): (s1: State)
    requires Sane(s)
    ensures Spared(s, s1) && s1.hand == []
    decreases |s.hand|
  {
    if s.hand == [] then s
    else
      var r := s.hand[0];
      var s1 := Insert(s.(hand := s.hand[1..]), BucketOf(s, s.reqs[r].key), r, s.reqs[r].high);
      assert Spared(s, s1);
      FileAll(s1)
  }

  /** The loop of null_filter: from the first request with another key on, back to `null`. */
  ghost function FilterAll(s: State, b: BucketId, key: Key): (s1: State)
    requires Sane(s) && b in s.buckets
    ensures Spared(s, s1) && s1.hand == []
    ensures forall q :: q in s.reqs && q !in s.hand ==> s1.reqs[q] == s.reqs[q]
    decreases |s.hand|
  {
    if s.hand == [] then s
    else
      var r := s.hand[0];
      var to := if s.reqs[r].key != key then s.nullB else b;
      var s1 := Insert(s.(hand := s.hand[1..]), to, r, false);
      assert s.hand == [r] + s1.hand;
      assert Spared(s, s1);
      FilterAll(s1, to, key)
  }

  /** null_filter */
  ghost function NullFilter(s: State, b: BucketId, key: Key): (s1: State)
    requires Sane(s) && b in s.buckets && s.hand == []
    requires forall i :: 0 <= i < |s.buckets[s.nullB].next| ==> s.buckets[s.nullB].next[i] in s.reqs
    ensures Spared(s, s1) && s1.hand == []
    ensures forall q :: q in s.reqs && q !in s.buckets[s.nullB].next ==> s1.reqs[q] == s.reqs[q]
  {
    FilterAll(TakeNull(s), b, key)
  }

  /** QUEUE_MOVE of the null bucket's queue into the local one. */
  function TakeNull(s: State): (s1: State)
    requires s.nullB in s.buckets
    ensures Spared(s, s1) && s1.hand == s.buckets[s.nullB].next && s1.routes == s.routes
    ensures forall q :: q in s.reqs && q !in s.buckets[s.nullB].next ==> s1.reqs[q] == s.reqs[q]
  {
    var queue := s.buckets[s.nullB].next;
    s.(buckets := s.buckets[s.nullB := s.buckets[s.nullB].(next := [])],
       hand := queue,
       reqs := map r | r in s.reqs :: if r in queue then s.reqs[r].(place := Hand) else s.reqs[r])
  }

  /** The bucket get_match finds, creates at `newB`, or falls back to. */
  function MatchOf(s: State, key: Key, headers: Headers, newB: BucketId): BucketId {
    if key in s.routes then s.routes[key]
    else if headers.bucket then newB
    else s.missB
  }

  /** get_match's creation of a bucket, when it creates one. */
  function AddBucket(s: State, key: Key, headers: Headers, newB: BucketId): (s1: State)
    requires newB !in s.buckets
    ensures Spared(s, s1) && s1.reqs == s.reqs && s1.hand == s.hand
  {
    if key !in s.routes && headers.bucket then
      s.(buckets := s.buckets[newB := Bucket(1, 0, Idle, [])], routes := s.routes[key := newB])
    else s
  }

  /** bucket_populate */
  function Populate(s: State, b: BucketId, headers: Headers, now: nat): (s1: State)
    requires b in s.buckets
    ensures Spared(s, s1) && s1.reqs == s.reqs && s1.hand == s.hand
  {
    var b1 := s.buckets[b].(remaining := if headers.remaining.Some? then headers.remaining.value else 1);
    var b2 := if headers.resetAfter.Some? && !headers.global then b1.(reset := now + headers.resetAfter.value)
              else if headers.resetAfter.None? && headers.reset.Some? then b1.(reset := headers.reset.value)
              else b1;
    s.(buckets := s.buckets[b := b2],
       globalWait := if headers.resetAfter.Some? && headers.global then now + headers.resetAfter.value
                     else s.globalWait)
  }

  /** ratelimiter_build */
  ghost function Build(s: State, b: BucketId, key: Key, headers: Headers, now: nat, newB: BucketId): (s1: State)
    requires Sane(s) && b in s.buckets && s.hand == []
    requires forall i :: 0 <= i < |s.buckets[s.nullB].next| ==> s.buckets[s.nullB].next[i] in s.reqs
    requires newB !in s.buckets
    ensures Spared(s, s1) && s1.hand == []
    ensures forall q :: q in s.reqs && q !in s.buckets[s.nullB].next ==> s1.reqs[q] == s.reqs[q]
  {
    if b == s.nullB then
      var m := MatchOf(s, key, headers, newB);
      Populate(NullFilter(AddBucket(s, key, headers, newB), m, key), m, headers, now)
    else Populate(s, b, headers, now)
  }

  /** bucket_set_timeout, after the global one when the response asks for it. */
  function SetTimeout(s: State, b: BucketId, global: bool, wait: nat, times: Times): State
    requires b in s.buckets
  {
    s.(globalWait := if global then times.global + wait else s.globalWait,
       buckets := s.buckets[b := s.buckets[b].(remaining := 0, reset := times.bucket + wait, busy := Idle)])
  }

  /** The time (ms) an exhausted bucket has to wait for. */
  function Until(s: State, b: BucketId): nat
    requires b in s.buckets
  {
    if s.globalWait > s.buckets[b].reset then s.globalWait else s.buckets[b].reset
  }

  /** The timer try_timeout asks for. */
  function WakeTimer(b: BucketId, wait: nat): T.Timer {
    T.Timer(0, WAKE, T.NULL, b, wait, 0, 0, T.NO_FLAGS.(deleteAuto := true))
  }

  /** try_timeout */
  function TryTimeout(s: State, b: BucketId, arm: Arming): State
    requires b in s.buckets
  {
    var until := Until(s, b);
    var wait := if until > arm.seen / 1000 then until - arm.seen / 1000 else 0;
    s.(buckets := s.buckets[b := s.buckets[b].(busy := Timeout)],
       timers := T.Apply(s.timers, T.Ctl(WakeTimer(b, wait), arm.now, arm.id)).0,
       waits := s.waits[b := Wait(arm.id, until)])
  }

  /** request_select and request_send */
  function Send(s: State, b: BucketId): State
    requires b in s.buckets && s.buckets[b].next != [] && s.buckets[b].next[0] in s.reqs
  {
    var r := s.buckets[b].next[0];
    s.(buckets := s.buckets[b := s.buckets[b].(busy := Holding(r), next := s.buckets[b].next[1..])],
       flying := s.flying + {r},
       reqs := s.reqs[r := s.reqs[r].(sends := s.reqs[r].sends + 1, place := InFlight)])
  }

  /** What the selector does with a bucket. */
  datatype Verdict = Skipped | Armed | Sent

  function VerdictOn(bucket: Bucket): Verdict {
    if bucket.busy != Idle then Skipped else if bucket.remaining == 0 then Armed else Sent
  }

  /** One turn of the selector on the bucket `b`, already taken off the local list. */
  function SelectOne(s: State, b: BucketId, arm: Arming): State
    requires b in s.buckets
    requires VerdictOn(s.buckets[b]).Sent? ==> s.buckets[b].next != [] && s.buckets[b].next[0] in s.reqs
  {
    match VerdictOn(s.buckets[b])
    case Skipped => s.(line := s.line + [b])
    case Armed => TryTimeout(s, b, arm).(line := s.line + [b])
    case Sent =>
      var s1 := Send(s, b);
      s1.(line := if s1.buckets[b].next == [] then s1.line else s1.line + [b])
  }

  function ArmingOf(arms: map<BucketId, Arming>, b: BucketId): Arming {
    if b in arms then arms[b] else Arming(0, 0, 0)
  }

  /** Every bucket on the local list is there once and has a request. */
  ghost predicate Selectable(s: State) {
    forall i :: 0 <= i < |s.todo| ==>
      && s.todo[i] in s.buckets
      && s.buckets[s.todo[i]].next != [] && s.buckets[s.todo[i]].next[0] in s.reqs
      && forall j :: i < j < |s.todo| ==> s.todo[i] != s.todo[j]
  }

  /** The loop of request_selector. */
  ghost function SelectAll(s: State, arms: map<BucketId, Arming>): State
    requires Selectable(s)
    decreases |s.todo|
  {
    if s.todo == [] then s
    else
      var b := s.todo[0];
      var s1 := SelectOne(s.(todo := s.todo[1..]), b, ArmingOf(arms, b));
      assert forall i :: 0 <= i < |s1.todo| ==> s1.todo[i] == s.todo[i + 1];
      SelectAll(s1, arms)
  }

  /** The local copy of everything pending. */
  function TakePending(s: State): State {
    s.(pending := [], hand := s.pending,
       reqs := map r | r in s.reqs :: if r in s.pending then s.reqs[r].(place := Hand) else s.reqs[r])
  }

  function TakeLine(s: State): State {
    s.(line := [], todo := s.line)
  }

  // ------------------------------------------------------------------ completion

  datatype Outcome = Aborted | Ok(s: State)

  function Retryable(result: Result): bool {
    match result
    case Response(reply, _) => !reply.Final?
    case Failure(readError) => readError
  }

  /** The request leaves the transfer engine. */
  function Land(s: State, r: ReqId): State
    requires r in s.reqs
  {
    s.(flying := s.flying - {r}, current := Some(r), reqs := s.reqs[r := s.reqs[r].(place := Current)])
  }

  predicate IsTooMany(result: Result) {
    result.Response? && result.reply.TooMany?
  }

  /** The time-out a 429 asks for. */
  function Noted(s: State, b: BucketId, result: Result, times: Times): State
    requires b in s.buckets
  {
    if IsTooMany(result) then SetTimeout(s, b, result.reply.global, result.reply.wait, times) else s
  }

  /** What the response tells the rate limiter, before the request's own fate is decided. */
  ghost function Digest(s: State, r: ReqId, result: Result, times: Times, newB: BucketId): State
    requires Sane(s) && s.hand == [] && newB !in s.buckets
    requires r in s.reqs && s.reqs[r].bucket.Some? && s.reqs[r].bucket.value in s.buckets
    requires forall i :: 0 <= i < |s.buckets[s.nullB].next| ==> s.buckets[s.nullB].next[i] in s.reqs
  {
    if result.Failure? then s
    else
      var b := s.reqs[r].bucket.value;
      Build(Noted(s, b, result, times), b, s.reqs[r].key, result.headers, times.headers, newB)
  }

  /** bucket_request_unselect and the hand-over of the finished request. */
  function Unselect(s: State, r: ReqId, b: BucketId): Outcome
    requires r in s.reqs && b in s.buckets
  {
    if s.buckets[b].busy != Holding(r) then Aborted
    else
      var req := s.reqs[r].(bucket := None, place := if s.reqs[r].sync then SyncDone else Finished);
      Ok(s.(line := if s.buckets[b].next == [] then Without(s.line, b) else s.line,
            buckets := s.buckets[b := s.buckets[b].(busy := Idle)],
            reqs := s.reqs[r := req], current := None,
            syncDone := if req.sync then s.syncDone + {r} else s.syncDone,
            finished := if req.sync then s.finished else s.finished + [r]))
  }

  function Without<V(==)>(q: seq<V>, v: V): seq<V> {
    if q == [] then [] else if q[0] == v then q[1..] else [q[0]] + Without(q[1..], v)
  }

  /** The landed request with `attempts` attempts on its account. */
  function Counted(s: State, r: ReqId, attempts: nat): State
    requires r in s.reqs
  {
    s.(reqs := s.reqs[r := s.reqs[r].(attempts := attempts)])
  }

  /** _winecord_request_retry, when it retries. */
  function Retry(s: State, r: ReqId, b: BucketId): State
    requires r in s.reqs && b in s.buckets
  {
    Insert(Counted(s, r, s.reqs[r].attempts + 1).(current := None), b, r, true)
  }

  /** Retry the landed request or let it finish; `retry_attempt++` counts a refused retry too. */
  function Settle(s: State, r: ReqId, result: Result): Outcome
    requires r in s.reqs && s.reqs[r].bucket.Some? && s.reqs[r].bucket.value in s.buckets
  {
    var b := s.reqs[r].bucket.value;
    var attempts := s.reqs[r].attempts;
    if Retryable(result) && attempts < s.retryLimit then Ok(Retry(s, r, b))
    else Unselect(Counted(s, r, if Retryable(result) then attempts + 1 else attempts), r, b)
  }
}
