/** What responses do to the limits of buckets, and what a 429 leads to. */
module RestLimits {
  import opened Wrappers
  import opened RestModel
  import opened RestInvariant
  import opened RestSelector
  import opened RestSteps
  import opened RestTheorems

  /** Filing requests is no business of limits and routes. */
  ghost predicate SameLimits(s: State, s1: State) {
    && s1.globalWait == s.globalWait && s1.routes == s.routes && s1.nullB == s.nullB
    && forall c :: c in s.buckets ==>
         && c in s1.buckets && s1.buckets[c].remaining == s.buckets[c].remaining
         && s1.buckets[c].reset == s.buckets[c].reset
  }

  lemma InsertLimits(s: State, b: BucketId, r: ReqId)
    requires s.hand != [] && b in s.buckets && r in s.reqs
    ensures SameLimits(s, Insert(Pop(s), b, r, false))
  {
  }

  lemma SameLimitsTrans(a: State, b: State, c: State)
    requires SameLimits(a, b) && SameLimits(b, c)
    ensures SameLimits(a, c)
  {
  }

  lemma {:induction false} FilterLimits(s: State, b: BucketId, key: Key)
    requires Sane(s) && b in s.buckets
    ensures SameLimits(s, FilterAll(s, b, key))
    decreases |s.hand|
  {
    if s.hand != [] {
      var to := if s.reqs[s.hand[0]].key != key then s.nullB else b;
      FileTail(s, to);
      FilterUnfold(s, b, key);
      InsertLimits(s, to, s.hand[0]);
      var s1 := Insert(Pop(s), to, s.hand[0], false);
      hide Insert, FilterAll, Sane, SameLimits, Spared, SameKeys;
      FilterLimits(s1, to, key);
      SameLimitsTrans(s, s1, FilterAll(s1, to, key));
    }
  }

  lemma NullFilterLimits(s: State, b: BucketId, key: Key)
    requires Sane(s) && b in s.buckets && s.hand == []
    requires forall i :: 0 <= i < |s.buckets[s.nullB].next| ==> s.buckets[s.nullB].next[i] in s.reqs
    ensures SameLimits(s, NullFilter(s, b, key))
  {
    var s0 := TakeNull(s);
    assert SameLimits(s, s0);
    FilterLimits(s0, b, key);
    hide FilterAll, SameLimits;
    SameLimitsTrans(s, s0, FilterAll(s0, b, key));
  }

  lemma FileLimit(s: State)
    requires Sane(s) && s.hand != []
    ensures var r := s.hand[0];
            var s1 := Insert(s.(hand := s.hand[1..]), BucketOf(s, s.reqs[r].key), r, s.reqs[r].high);
            Sane(s1) && s1.hand == s.hand[1..] && SameLimits(s, s1) && FileAll(s) == FileAll(s1)
  {
  }

  lemma {:induction false} FileLimits(s: State)
    requires Sane(s)
    ensures SameLimits(s, FileAll(s))
    decreases |s.hand|
  {
    if s.hand != [] {
      var r := s.hand[0];
      FileLimit(s);
      var s1 := Insert(s.(hand := s.hand[1..]), BucketOf(s, s.reqs[r].key), r, s.reqs[r].high);
      hide Insert, FileAll, Sane, SameLimits, Spared;
      FileLimits(s1);
      SameLimitsTrans(s, s1, FileAll(s1));
    }
  }

  lemma FiledLimits(s: State)
    requires Inv(s)
    ensures SameLimits(s, Filed(s))
  {
    var s0 := TakePending(s);
    TakePendingKeeps(s);
    SaneWithin(s0, {});
    assert SameLimits(s, s0);
    hide Inv, Within, Sane, FileAll, SameLimits, TakePending;
    FileLimits(s0);
    SameLimitsTrans(s, s0, FileAll(s0));
  }

  /** The bucket whose limits a response sets: the request's own, or the one its route is matched to. */
  function Target(s: State, b: BucketId, key: Key, headers: Headers, newB: BucketId): BucketId {
    if b == s.nullB then MatchOf(s, key, headers, newB) else b
  }

  // ---------------------------------------------------------------- after a response

  /** What holds requests back: what a bucket has left, when it is reset, and the global wait. */
  datatype Limits = Limits(remaining: int, reset: nat, globalWait: nat)

  function LimitsOf(s: State, c: BucketId): Limits
    requires c in s.buckets
  {
    Limits(s.buckets[c].remaining, s.buckets[c].reset, s.globalWait)
  }

  /** What a 429 demands of the request's own bucket, and of all. */
  function Demanded(l: Limits, own: bool, result: Result, times: Times): Limits {
    if !IsTooMany(result) then l
    else
      Limits(if own then 0 else l.remaining,
             if own then times.bucket + result.reply.wait else l.reset,
             if result.reply.global then times.global + result.reply.wait else l.globalWait)
  }

  /** The reset time the headers give the bucket, if they do. */
  function NewReset(h: Headers, now: nat): Option<nat> {
    if h.resetAfter.Some? then (if h.global then None else Some(now + h.resetAfter.value)) else h.reset
  }

  /** The global wait the headers give, if they do. */
  function NewGlobal(h: Headers, now: nat): Option<nat> {
    if h.resetAfter.Some? && h.global then Some(now + h.resetAfter.value) else None
  }

  /** What the headers grant the bucket they are about, and what they say of all. */
  function Granted(l: Limits, target: bool, h: Headers, now: nat): Limits {
    Limits(if !target then l.remaining else if h.remaining.Some? then h.remaining.value else 1,
           if target && NewReset(h, now).Some? then NewReset(h, now).value else l.reset,
           if NewGlobal(h, now).Some? then NewGlobal(h, now).value else l.globalWait)
  }

  lemma NotedLimits(s: State, b: BucketId, result: Result, times: Times, c: BucketId)
    requires b in s.buckets && c in s.buckets
    ensures var s1 := Noted(s, b, result, times);
            && c in s1.buckets && LimitsOf(s1, c) == Demanded(LimitsOf(s, c), c == b, result, times)
            && s1.routes == s.routes && s1.nullB == s.nullB && s1.missB == s.missB
            && (forall d :: d in s.buckets <==> d in s1.buckets)
  {
  }

  lemma PopulateLimits(s: State, target: BucketId, h: Headers, now: nat, c: BucketId)
    requires target in s.buckets && c in s.buckets
    ensures LimitsOf(Populate(s, target, h, now), c) == Granted(LimitsOf(s, c), c == target, h, now)
    ensures Populate(s, target, h, now).routes == s.routes
  {
  }

  lemma BuildLimits(s: State, b: BucketId, key: Key, h: Headers, now: nat, newB: BucketId, c: BucketId)
    requires Sane(s) && b in s.buckets && s.hand == [] && newB !in s.buckets && c in s.buckets
    requires forall i :: 0 <= i < |s.buckets[s.nullB].next| ==> s.buckets[s.nullB].next[i] in s.reqs
    ensures var s1 := Build(s, b, key, h, now, newB);
            && c in s1.buckets
            && LimitsOf(s1, c) == Granted(LimitsOf(s, c), c == Target(s, b, key, h, newB), h, now)
            && s1.routes == if b == s.nullB && key !in s.routes && h.bucket then s.routes[key := newB] else s.routes
  {
    if b == s.nullB {
      var s0 := AddBucket(s, key, h, newB);
      var m := MatchOf(s, key, h, newB);
      NullFilterLimits(s0, m, key);
      assert LimitsOf(s0, c) == LimitsOf(s, c);
      assert LimitsOf(NullFilter(s0, m, key), c) == LimitsOf(s0, c);
      hide NullFilter, Sane, Spared, LimitsOf, Granted;
      PopulateLimits(NullFilter(s0, m, key), m, h, now, c);
    } else {
      hide LimitsOf, Granted;
      PopulateLimits(s, b, h, now, c);
    }
  }

  lemma DigestLimits(s: State, r: ReqId, b: BucketId, result: Result, times: Times, newB: BucketId, c: BucketId)
    requires Sane(s) && s.hand == [] && newB !in s.buckets && Landed(s, r, b) && c in s.buckets && result.Response?
    requires forall i :: 0 <= i < |s.buckets[s.nullB].next| ==> s.buckets[s.nullB].next[i] in s.reqs
    ensures var s1 := Digest(s, r, result, times, newB);
            var h := result.headers;
            var key := s.reqs[r].key;
            && c in s1.buckets
            && LimitsOf(s1, c) == Granted(Demanded(LimitsOf(s, c), c == b, result, times),
                                          c == Target(s, b, key, h, newB), h, times.headers)
            && s1.routes == if b == s.nullB && key !in s.routes && h.bucket then s.routes[key := newB] else s.routes
  {
    NotedLimits(s, b, result, times, c);
    NotedSane(s, b, result, times);
    hide LimitsOf, Granted, Demanded, Noted, Sane, Build;
    BuildLimits(Noted(s, b, result, times), b, s.reqs[r].key, result.headers, times.headers, newB, c);
  }

  lemma SettleLimits(s: State, r: ReqId, result: Result)
    requires r in s.reqs && s.reqs[r].bucket.Some? && s.reqs[r].bucket.value in s.buckets
    ensures Settle(s, r, result).Ok? ==> SameLimits(s, Settle(s, r, result).s)
  {
  }

  /** What a response teaches: first a 429 demands, then the headers grant. The headers are about one
      bucket, the request's own or, for a request sent through the null bucket, the one its route is
      matched to; other buckets keep their limits. And the route is learned, unless it is known or the
      response names no bucket. */
  lemma LimitsAfter(s: State, r: ReqId, result: Result, times: Times, newB: BucketId, c: BucketId)
    requires Inv(s) && r in s.flying && newB !in s.buckets && c in s.buckets
    requires result.Response? && !Trips(s, r, result)
    ensures CompleteCall(s, r, result, times, newB).Ok?
    ensures r in s.reqs && s.reqs[r].bucket.Some?
    ensures var b := s.reqs[r].bucket.value;
            var key := s.reqs[r].key;
            var h := result.headers;
            var s1 := CompleteCall(s, r, result, times, newB).s;
            && c in s1.buckets
            && LimitsOf(s1, c) == Granted(Demanded(LimitsOf(s, c), c == b, result, times),
                                          c == Target(s, b, key, h, newB), h, times.headers)
            && s1.routes == (if b == s.nullB && key !in s.routes && h.bucket then s.routes[key := newB] else s.routes)
  {
    LandKeeps(s, r);
    DigestedState(s, r, result, times, newB);
    AbortsIff(s, r, result, times, newB);
    hide Within, Inv;
    var s0 := Land(s, r);
    DigestLimits(s0, r, s.reqs[r].bucket.value, result, times, newB, c);
    SettleLimits(Digest(s0, r, result, times, newB), r, result);
    hide Digest, Settle, Granted, Demanded, Target;
  }

  // -------------------------------------------------------------------- after a 429

  lemma SettleRebuff(s: State, r: ReqId, b: BucketId, result: Result)
    requires Landed(s, r, b) && IsTooMany(result) && s.buckets[b].busy == Idle && Settle(s, r, result).Ok?
    ensures var s1 := Settle(s, r, result).s;
            && b in s1.buckets && s1.buckets[b].busy == Idle
            && s1.buckets[b].next != [] && s1.buckets[b].next[0] == r
  {
  }

  /** After a 429 the request's bucket is idle and the request the next one to be sent. */
  lemma RebuffedIsNext(s: State, r: ReqId, result: Result, times: Times, newB: BucketId)
    requires Inv(s) && r in s.flying && newB !in s.buckets && IsTooMany(result) && !Trips(s, r, result)
    ensures CompleteCall(s, r, result, times, newB).Ok?
    ensures r in s.reqs && s.reqs[r].bucket.Some? && s.reqs[r].bucket.value in s.buckets
    ensures var b := s.reqs[r].bucket.value;
            var s1 := CompleteCall(s, r, result, times, newB).s;
            && b in s1.buckets && s1.buckets[b].busy == Idle
            && s1.buckets[b].next != [] && s1.buckets[b].next[0] == r
  {
    LandKeeps(s, r);
    DigestedState(s, r, result, times, newB);
    AbortsIff(s, r, result, times, newB);
    hide Within, Inv, Digest, Settle;
    var b := s.reqs[r].bucket.value;
    SettleRebuff(Digest(Land(s, r), r, result, times, newB), r, b, result);
  }

  /** The headers are about another bucket than the request's own: it was sent through the null bucket,
      and its route does not lead back there. */
  predicate Elsewhere(s: State, b: BucketId, key: Key) {
    b == s.nullB && !(key in s.routes && s.routes[key] == s.nullB)
  }

  lemma TargetIsOwn(s: State, b: BucketId, key: Key, h: Headers, newB: BucketId)
    requires Inv(s) && newB !in s.buckets
    ensures Target(s, b, key, h, newB) == b <==> !Elsewhere(s, b, key)
  {
  }

  /** After a 429 the next pass holds the bucket back if and only if the headers are about another
      bucket, as for every request of an unknown route, or say that nothing remains. In all other cases
      the request is due again in the very next pass, whatever `retry_after` said. */
  lemma HeldBackIff(s: State, r: ReqId, result: Result, times: Times, newB: BucketId)
    requires Inv(s) && r in s.flying && newB !in s.buckets && IsTooMany(result) && !Trips(s, r, result)
    ensures CompleteCall(s, r, result, times, newB).Ok?
    ensures r in s.reqs && s.reqs[r].bucket.Some?
    ensures var b := s.reqs[r].bucket.value;
            var s1 := CompleteCall(s, r, result, times, newB).s;
            var held := Elsewhere(s, b, s.reqs[r].key) || result.headers.remaining == Some(0);
            && b in s1.buckets && s1.buckets[b].next != [] && s1.buckets[b].next[0] == r
            && (VerdictOn(s1.buckets[b]).Armed? <==> held)
            && (VerdictOn(s1.buckets[b]).Sent? <==> !held)
  {
    hide CompleteCall, Inv;
    RebuffedIsNext(s, r, result, times, newB);
    var b := s.reqs[r].bucket.value;
    LimitsAfter(s, r, result, times, newB, b);
    TargetIsOwn(s, b, s.reqs[r].key, result.headers, newB);
    hide Target;
  }

  /** The global wait after a 429. */
  function GlobalAfter(s: State, result: Result, times: Times): nat
    requires IsTooMany(result)
  {
    var given := NewGlobal(result.headers, times.headers);
    if given.Some? then given.value
    else if result.reply.global then times.global + result.reply.wait
    else s.globalWait
  }

  /** The time an exhausted bucket waits for after a 429 is at least what `retry_after` asked for if and
      only if the headers give the bucket no reset time of their own, or one as late, or the global wait
      is as late: a reset time in the headers replaces the one asked for, even by an earlier one. */
  lemma HeldLongEnoughIff(s: State, r: ReqId, result: Result, times: Times, newB: BucketId)
    requires Inv(s) && r in s.flying && newB !in s.buckets && IsTooMany(result) && !Trips(s, r, result)
    ensures CompleteCall(s, r, result, times, newB).Ok?
    ensures r in s.reqs && s.reqs[r].bucket.Some?
    ensures var b := s.reqs[r].bucket.value;
            var s1 := CompleteCall(s, r, result, times, newB).s;
            var given := NewReset(result.headers, times.headers);
            var asked := times.bucket + result.reply.wait;
            && b in s1.buckets
            && (Until(s1, b) >= asked <==>
                  Elsewhere(s, b, s.reqs[r].key) || given.None? || given.value >= asked
                  || GlobalAfter(s, result, times) >= asked)
  {
    hide CompleteCall, Inv;
    RebuffedIsNext(s, r, result, times, newB);
    var b := s.reqs[r].bucket.value;
    LimitsAfter(s, r, result, times, newB, b);
    TargetIsOwn(s, b, s.reqs[r].key, result.headers, newB);
    hide Target, NewReset, NewGlobal;
  }
}
