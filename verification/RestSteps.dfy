/** The steps of the REST client, each shown to keep the invariant, and the runs they form. */
module RestSteps {
  import opened Wrappers
  import opened RestModel
  import opened RestInvariant
  import T = TimerQueue
  import L = TimerLaws

  // ------------------------------------------------------------------ completion

  /** The landed request and its bucket. */
  ghost predicate Landed(s: State, r: ReqId, b: BucketId) {
    && s.current == Some(r) && r in s.reqs && s.reqs[r].place == Current && s.reqs[r].bucket == Some(b)
    && b in s.buckets
  }

  lemma LandPlaced(s: State, r: ReqId)
    requires Placed(s) && Queues(s) && s.current == None && r in s.reqs && s.reqs[r].place == InFlight
    ensures Placed(Land(s, r)) && Queues(Land(s, r))
  {
    var s1 := Land(s, r);
    forall p, q
      ensures In(s1, p, q) <==> q in s1.reqs && s1.reqs[q].place == p
    {
      assert In(s, p, q) <==> q in s.reqs && s.reqs[q].place == p;
    }
  }

  lemma LandKeeps(s: State, r: ReqId)
    requires Inv(s) && r in s.flying
    ensures r in s.reqs && s.reqs[r].place == InFlight && s.reqs[r].bucket.Some?
    ensures s.reqs[r].bucket.value in s.buckets && s.buckets[s.reqs[r].bucket.value].busy == Holding(r)
    ensures Within(Land(s, r), {}) && Landed(Land(s, r), r, s.reqs[r].bucket.value)
    ensures Land(s, r).hand == [] && Land(s, r).todo == []
  {
    hide Waits, Lined, Queues;
    assert In(s, InFlight, r);
    assert ReqOk(s, r);
    var s1 := Land(s, r);
    LandPlaced(s, r);
    forall q | q in s1.reqs
      ensures ReqOk(s1, q)
    {
      assert ReqOk(s, q);
    }
    forall c | c in s1.buckets
      ensures BusyOk(s1, c)
    {
      assert BusyOk(s, c);
    }
    FrameWaits(s, s1);
    FrameLined(s, s1, {});
  }

  /** A bucket whose busy request has landed has nothing in the air. */
  lemma NothingElseFlies(s: State, b: BucketId, r: ReqId, q: ReqId)
    requires Within(s, {}) && Landed(s, r, b) && q in s.reqs && s.reqs[q].place == InFlight
    ensures s.reqs[q].bucket != Some(b)
  {
    assert ReqOk(s, q);
    assert ReqOk(s, r);
  }

  lemma SetTimeoutRequests(s: State, r: ReqId, b: BucketId, global: bool, wait: nat, times: Times)
    requires Within(s, {}) && Landed(s, r, b)
    ensures Requests(SetTimeout(s, b, global, wait, times))
  {
    var s1 := SetTimeout(s, b, global, wait, times);
    forall q | q in s1.reqs
      ensures ReqOk(s1, q)
    {
      assert ReqOk(s, q);
      if s.reqs[q].place == InFlight {
        NothingElseFlies(s, b, r, q);
      }
    }
  }

  lemma SetTimeoutRest(s: State, r: ReqId, b: BucketId, global: bool, wait: nat, times: Times)
    requires Buckets(s) && Waits(s) && Landed(s, r, b) && ReqOk(s, r)
    ensures Buckets(SetTimeout(s, b, global, wait, times)) && Waits(SetTimeout(s, b, global, wait, times))
  {
    var s1 := SetTimeout(s, b, global, wait, times);
    forall c | c in s1.buckets
      ensures BusyOk(s1, c)
    {
      assert BusyOk(s, c);
    }
    FrameWaits(s, s1);
  }

  lemma SetTimeoutKeeps(s: State, r: ReqId, b: BucketId, global: bool, wait: nat, times: Times)
    requires Within(s, {}) && Landed(s, r, b)
    ensures Within(SetTimeout(s, b, global, wait, times), {})
  {
    var s1 := SetTimeout(s, b, global, wait, times);
    assert ReqOk(s, r);
    hide Placed, Queues, Requests, Lined, Waits, Buckets;
    SetTimeoutRequests(s, r, b, global, wait, times);
    SetTimeoutRest(s, r, b, global, wait, times);
    FramePlaced(s, s1);
    FrameLined(s, s1, {});
  }

  lemma NotedKeeps(s: State, r: ReqId, b: BucketId, result: Result, times: Times)
    requires Within(s, {}) && Landed(s, r, b)
    ensures Within(Noted(s, b, result, times), {})
  {
    if IsTooMany(result) {
      SetTimeoutKeeps(s, r, b, result.reply.global, result.reply.wait, times);
    }
  }

  lemma NotedSane(s: State, b: BucketId, result: Result, times: Times)
    requires Sane(s) && b in s.buckets
    ensures var s1 := Noted(s, b, result, times);
            && Sane(s1) && s1.buckets.Keys == s.buckets.Keys && s1.reqs == s.reqs && s1.nullB == s.nullB
            && s1.hand == s.hand && s1.buckets[s1.nullB].next == s.buckets[s.nullB].next
  {
  }

  lemma AddBucketKeeps(s: State, key: Key, headers: Headers, newB: BucketId, loose: set<BucketId>)
    requires Within(s, loose) && newB !in s.buckets
    ensures Within(AddBucket(s, key, headers, newB), loose)
    ensures MatchOf(s, key, headers, newB) in AddBucket(s, key, headers, newB).buckets
  {
    hide Placed, Queues, Requests, Lined, Waits;
    var s1 := AddBucket(s, key, headers, newB);
    FramePlaced(s, s1);
    FrameRest(s, s1);
    FrameLined(s, s1, loose);
  }

  lemma PopulateKeeps(s: State, b: BucketId, headers: Headers, now: nat, loose: set<BucketId>)
    requires Within(s, loose) && b in s.buckets
    ensures Within(Populate(s, b, headers, now), loose)
  {
    var s1 := Populate(s, b, headers, now);
    FramePlaced(s, s1);
    FrameRest(s, s1);
    FrameLined(s, s1, loose);
  }

  lemma NullFilterKeeps(s: State, b: BucketId, key: Key)
    requires Within(s, {}) && s.hand == [] && s.todo == [] && NullFree(s) && b in s.buckets
    ensures Sane(s)
    ensures forall i :: 0 <= i < |s.buckets[s.nullB].next| ==> s.buckets[s.nullB].next[i] in s.reqs
    ensures Within(NullFilter(s, b, key), {s.nullB})
  {
    SaneWithin(s, {});
    TakeNullKeeps(s, {});
    assert {} + {s.nullB} == {s.nullB};
    FilterAllKeeps(TakeNull(s), b, key, {s.nullB});
  }

  lemma NotQueued(s: State, r: ReqId)
    requires Within(s, {}) && r in s.reqs && s.reqs[r].place == Current
    ensures r !in s.buckets[s.nullB].next
  {
    assert !In(s, Next(s.nullB), r);
  }

  lemma LandedNullFree(s: State, r: ReqId)
    requires Within(s, {}) && Landed(s, r, s.nullB)
    ensures NullFree(s)
  {
    assert ReqOk(s, r);
  }

  lemma BuildKeeps(s: State, r: ReqId, b: BucketId, headers: Headers, now: nat, newB: BucketId)
    requires Within(s, {}) && s.hand == [] && s.todo == [] && Landed(s, r, b) && newB !in s.buckets
    ensures Sane(s)
    ensures forall i :: 0 <= i < |s.buckets[s.nullB].next| ==> s.buckets[s.nullB].next[i] in s.reqs
    ensures Within(Build(s, b, s.reqs[r].key, headers, now, newB), {b})
  {
    SaneWithin(s, {});
    if b == s.nullB {
      var key := s.reqs[r].key;
      NotQueued(s, r);
      LandedNullFree(s, r);
      hide Placed, Queues, Requests, Lined, Waits;
      AddBucketKeeps(s, key, headers, newB, {});
      var s1 := AddBucket(s, key, headers, newB);
      var m := MatchOf(s, key, headers, newB);
      NullFilterKeeps(s1, m, key);
      PopulateKeeps(NullFilter(s1, m, key), m, headers, now, {s.nullB});
    } else {
      PopulateKeeps(s, b, headers, now, {});
      Loosen(Populate(s, b, headers, now), b);
    }
  }

  lemma Loosen(s: State, b: BucketId)
    requires Within(s, {})
    ensures Within(s, {b})
  {
  }

  /** Digesting the response keeps the invariant; only the request's own bucket may be left on the
      pending list with an empty queue. */
  lemma DigestKeeps(s: State, r: ReqId, b: BucketId, result: Result, times: Times, newB: BucketId)
    requires Within(s, {}) && s.hand == [] && s.todo == [] && Landed(s, r, b) && newB !in s.buckets
    ensures Sane(s)
    ensures forall i :: 0 <= i < |s.buckets[s.nullB].next| ==> s.buckets[s.nullB].next[i] in s.reqs
    ensures Within(Digest(s, r, result, times, newB), {b})
  {
    SaneWithin(s, {});
    Loosen(s, b);
    if result.Response? {
      NotedKeeps(s, r, b, result, times);
      hide Within, Build;
      BuildKeeps(Noted(s, b, result, times), r, b, result.headers, times.headers, newB);
    }
  }

  /** What digesting a response leaves alone: the request itself, timers, transfers, and every busy
      request but that of the request's own bucket, which a 429 releases. */
  lemma DigestLeaves(s: State, r: ReqId, b: BucketId, result: Result, times: Times, newB: BucketId)
    requires Within(s, {}) && s.hand == [] && s.todo == [] && Landed(s, r, b) && newB !in s.buckets
    ensures Sane(s)
    ensures forall i :: 0 <= i < |s.buckets[s.nullB].next| ==> s.buckets[s.nullB].next[i] in s.reqs
    ensures var s1 := Digest(s, r, result, times, newB);
            && Landed(s1, r, b) && s1.reqs[r] == s.reqs[r] && s1.hand == []
            && Spared(Noted(s, b, result, times), s1)
  {
    hide Requests, Buckets, Lined, Waits, Queues, Placed;
    SaneWithin(s, {});
    NotQueued(s, r);
  }

  // ------------------------------------------------- retrying and finishing

  lemma RetryPlaced(s: State, r: ReqId, b: BucketId)
    requires Placed(s) && Queues(s) && Landed(s, r, b)
    ensures Placed(Retry(s, r, b)) && Queues(Retry(s, r, b))
  {
    var s1 := Retry(s, r, b);
    forall p, q
      ensures In(s1, p, q) <==> q in s1.reqs && s1.reqs[q].place == p
    {
      assert In(s, p, q) <==> q in s.reqs && s.reqs[q].place == p;
    }
    assert !In(s, Next(b), r);
  }

  lemma RetryKeeps(s: State, r: ReqId, b: BucketId)
    requires Within(s, {b}) && s.todo == [] && Landed(s, r, b) && s.reqs[r].attempts < s.retryLimit
    ensures Within(Retry(s, r, b), {})
  {
    hide Placed, Queues, Requests, Lined, Waits, Buckets;
    RetryPlaced(s, r, b);
    var s0 := Counted(s, r, s.reqs[r].attempts + 1).(current := None);
    FrameLined(s, s0, {b});
    InsertLined(s0, b, r, true, {b});
    assert {b} - {b} == {};
    hide Insert;
    RetryRest(s, r, b);
  }

  lemma RetryRequests(s: State, r: ReqId, b: BucketId)
    requires Placed(s) && Requests(s) && Landed(s, r, b) && s.reqs[r].attempts < s.retryLimit
    ensures Requests(Retry(s, r, b))
  {
    var s1 := Retry(s, r, b);
    assert ReqOk(s, r);
    forall q | q in s1.reqs
      ensures ReqOk(s1, q)
    {
      assert ReqOk(s, q);
      assert In(s, Current, q) <==> s.reqs[q].place == Current;
    }
  }

  lemma RetryWaits(s: State, r: ReqId, b: BucketId)
    requires Waits(s) && r in s.reqs && b in s.buckets
    ensures Waits(Retry(s, r, b))
  {
    var s1 := Retry(s, r, b);
    FrameWaits(s, s1);
  }

  lemma RetryBuckets(s: State, r: ReqId, b: BucketId)
    requires Buckets(s) && Landed(s, r, b)
    ensures Buckets(Retry(s, r, b))
  {
    var s1 := Retry(s, r, b);
    forall c | c in s1.buckets
      ensures BusyOk(s1, c)
    {
      assert BusyOk(s, c);
    }
  }

  lemma RetryRest(s: State, r: ReqId, b: BucketId)
    requires Placed(s) && Requests(s) && Buckets(s) && Waits(s) && Landed(s, r, b)
    requires s.reqs[r].attempts < s.retryLimit
    ensures var s1 := Retry(s, r, b);
            Requests(s1) && Buckets(s1) && Waits(s1)
  {
    hide Requests, Buckets, Waits, Placed, Retry;
    RetryRequests(s, r, b);
    RetryBuckets(s, r, b);
    RetryWaits(s, r, b);
  }

  lemma {:induction false} WithoutIn<V>(q: seq<V>, v: V, w: V)
    requires NoDup(q)
    ensures w in Without(q, v) <==> w in q && w != v
    ensures NoDup(Without(q, v))
  {
    if q != [] && q[0] != v {
      assert q == [q[0]] + q[1..];
      WithoutIn(q[1..], v, w);
      WithoutIn(q[1..], v, q[0]);
      assert NoDup([q[0]] + Without(q[1..], v));
    } else if q != [] {
      assert q == [v] + q[1..];
    }
  }

  /** The request `r` once it is finished. */
  function Done(s: State, r: ReqId): Req
    requires r in s.reqs
  {
    s.reqs[r].(bucket := None, place := if s.reqs[r].sync then SyncDone else Finished)
  }

  lemma UnselectPlaced(s: State, r: ReqId, b: BucketId)
    requires Placed(s) && Queues(s) && Landed(s, r, b) && s.buckets[b].busy == Holding(r)
    ensures Placed(Unselect(s, r, b).s) && Queues(Unselect(s, r, b).s)
  {
    var s1 := Unselect(s, r, b).s;
    assert s1.reqs == s.reqs[r := Done(s, r)];
    assert !In(s, Finished, r);
    forall p, q
      ensures In(s1, p, q) <==> q in s1.reqs && s1.reqs[q].place == p
    {
      assert In(s, p, q) <==> q in s.reqs && s.reqs[q].place == p;
    }
  }

  lemma WithoutLine(line: seq<BucketId>, b: BucketId)
    requires NoDup(line)
    ensures NoDup(Without(line, b))
    ensures forall c :: c in Without(line, b) <==> c in line && c != b
  {
    forall c
      ensures c in Without(line, b) <==> c in line && c != b
    {
      WithoutIn(line, b, c);
    }
    WithoutIn(line, b, b);
  }

  /** A bucket whose queue is empty is taken off the pending list. */
  lemma DropLined(s: State, s1: State, b: BucketId)
    requires Lined(s, {b}) && s.todo == [] && s1.todo == [] && b in s.buckets && s1.buckets.Keys == s.buckets.Keys
    requires s1.line == if s.buckets[b].next == [] then Without(s.line, b) else s.line
    requires forall c :: c in s.buckets ==> s1.buckets[c].next == s.buckets[c].next
    ensures Lined(s1, {})
  {
    WithoutLine(s.line, b);
    forall c
      ensures OnLine(s1, c) <==> OnLine(s, c) && (c == b ==> s.buckets[b].next != [])
    {
    }
  }

  lemma UnselectRequests(s: State, r: ReqId, b: BucketId)
    requires Placed(s) && Landed(s, r, b) && s.buckets[b].busy == Holding(r)
    requires s.reqs[r].sends <= s.retryLimit + 1 && 1 <= s.reqs[r].sends
    requires forall q :: q in s.reqs && q != r ==> ReqOk(s, q)
    ensures Requests(Unselect(s, r, b).s)
  {
    var s1 := Unselect(s, r, b).s;
    forall q | q in s1.reqs
      ensures ReqOk(s1, q)
    {
      assert In(s, Current, q) <==> s.reqs[q].place == Current;
    }
  }

  lemma CountedKeeps(s: State, r: ReqId, b: BucketId, attempts: nat)
    requires Within(s, {b}) && Landed(s, r, b)
    ensures var s1 := Counted(s, r, attempts);
            && Placed(s1) && Queues(s1) && Lined(s1, {b}) && Buckets(s1) && Waits(s1) && Landed(s1, r, b)
            && forall q :: q in s1.reqs && q != r ==> ReqOk(s1, q)
  {
    hide Lined, Waits;
    var s1 := Counted(s, r, attempts);
    FrameLined(s, s1, {b});
    forall p, q
      ensures In(s1, p, q) <==> q in s1.reqs && s1.reqs[q].place == p
    {
      assert In(s, p, q) <==> q in s.reqs && s.reqs[q].place == p;
    }
    forall q | q in s1.reqs && q != r
      ensures ReqOk(s1, q)
    {
      assert ReqOk(s, q);
    }
    CountedRest(s, r, b, attempts);
  }

  lemma CountedRest(s: State, r: ReqId, b: BucketId, attempts: nat)
    requires Buckets(s) && Waits(s) && Landed(s, r, b)
    ensures Buckets(Counted(s, r, attempts)) && Waits(Counted(s, r, attempts))
  {
    var s1 := Counted(s, r, attempts);
    forall c | c in s1.buckets
      ensures BusyOk(s1, c)
    {
      assert BusyOk(s, c);
    }
    FrameWaits(s, s1);
  }

  lemma UnselectRest(s: State, r: ReqId, b: BucketId)
    requires Buckets(s) && Waits(s) && Landed(s, r, b) && s.buckets[b].busy == Holding(r)
    ensures Buckets(Unselect(s, r, b).s) && Waits(Unselect(s, r, b).s)
  {
    var s1 := Unselect(s, r, b).s;
    forall c | c in s1.buckets
      ensures BusyOk(s1, c)
    {
      assert BusyOk(s, c);
    }
    FrameWaits(s, s1);
  }

  lemma UnselectWithin(s: State, r: ReqId, b: BucketId)
    requires Placed(s) && Queues(s) && Lined(s, {b}) && Buckets(s) && Waits(s) && AtRest(s.(current := None))
    requires Landed(s, r, b) && s.buckets[b].busy == Holding(r) && 1 <= s.reqs[r].sends <= s.retryLimit + 1
    requires forall q :: q in s.reqs && q != r ==> ReqOk(s, q)
    ensures Inv(Unselect(s, r, b).s)
  {
    hide Placed, Queues, Requests, Lined, Waits, Buckets, ReqOk;
    UnselectPlaced(s, r, b);
    UnselectRequests(s, r, b);
    UnselectRest(s, r, b);
    DropLined(s, Unselect(s, r, b).s, b);
  }

  lemma UnselectKeeps(s: State, r: ReqId, b: BucketId, attempts: nat)
    requires Within(s, {b}) && s.hand == [] && s.todo == [] && Landed(s, r, b) && s.buckets[b].busy == Holding(r)
    ensures Unselect(Counted(s, r, attempts), r, b).Ok?
    ensures Inv(Unselect(Counted(s, r, attempts), r, b).s)
  {
    assert ReqOk(s, r);
    CountedKeeps(s, r, b, attempts);
    hide Within, Placed, Queues, Requests, Lined, Waits, Buckets, ReqOk, Inv;
    UnselectWithin(Counted(s, r, attempts), r, b);
  }

  // ------------------------------------------------------------- whole operations

  /** The state in which the fate of the landed request is decided. */
  lemma DigestedState(s: State, r: ReqId, result: Result, times: Times, newB: BucketId)
    requires Inv(s) && r in s.flying && newB !in s.buckets
    ensures r in s.reqs && s.reqs[r].place == InFlight && s.reqs[r].bucket.Some?
    ensures var b := s.reqs[r].bucket.value;
            && Sane(Land(s, r)) && b in s.buckets
            && (forall i :: 0 <= i < |s.buckets[s.nullB].next| ==> s.buckets[s.nullB].next[i] in s.reqs)
            && var s1 := Digest(Land(s, r), r, result, times, newB);
            && Within(s1, {b}) && Landed(s1, r, b) && s1.hand == [] && s1.todo == []
            && s1.reqs[r].attempts == s.reqs[r].attempts && s1.retryLimit == s.retryLimit
            && Spared(Noted(Land(s, r), b, result, times), s1)
  {
    LandKeeps(s, r);
    var s0 := Land(s, r);
    var b := s.reqs[r].bucket.value;
    hide *;
    DigestKeeps(s0, r, b, result, times, newB);
    DigestLeaves(s0, r, b, result, times, newB);
  }

  lemma RetriedAtRest(s: State, r: ReqId, b: BucketId)
    requires Landed(s, r, b) && s.hand == [] && s.todo == []
    requires Within(Retry(s, r, b), {})
    ensures Inv(Retry(s, r, b))
  {
    hide Within;
  }

  lemma SettleKeeps(s: State, r: ReqId, b: BucketId, result: Result)
    requires Within(s, {b}) && s.hand == [] && s.todo == [] && Landed(s, r, b)
    requires s.buckets[b].busy == Holding(r) || (Retryable(result) && s.reqs[r].attempts < s.retryLimit)
    ensures Settle(s, r, result).Ok? && Inv(Settle(s, r, result).s)
  {
    hide Within, Retry, Unselect, Inv;
    var attempts := s.reqs[r].attempts;
    if Retryable(result) && attempts < s.retryLimit {
      RetryKeeps(s, r, b);
      RetriedAtRest(s, r, b);
    } else {
      UnselectKeeps(s, r, b, if Retryable(result) then attempts + 1 else attempts);
    }
  }

  /** One completed transfer, as info_read handles it. */
  ghost function CompleteCall(s: State, r: ReqId, result: Result, times: Times, newB: BucketId): Outcome
    requires Inv(s) && r in s.flying && newB !in s.buckets
  {
    DigestedState(s, r, result, times, newB);
    Settle(Digest(Land(s, r), r, result, times, newB), r, result)
  }

  /** The completion is a 429 of a request without an attempt left. */
  predicate Trips(s: State, r: ReqId, result: Result) {
    IsTooMany(result) && r in s.reqs && s.reqs[r].attempts >= s.retryLimit
  }

  /** A completion trips the assertion of bucket_request_unselect exactly when it is a 429 and the
      request has no attempt left: the 429 has already released the bucket. */
  lemma AbortsIff(s: State, r: ReqId, result: Result, times: Times, newB: BucketId)
    requires Inv(s) && r in s.flying && newB !in s.buckets
    ensures r in s.reqs
    ensures CompleteCall(s, r, result, times, newB).Aborted? <==> Trips(s, r, result)
  {
    hide Within, Digest;
    DigestedState(s, r, result, times, newB);
    LandKeeps(s, r);
  }

  lemma CompleteKeeps(s: State, r: ReqId, result: Result, times: Times, newB: BucketId)
    requires Inv(s) && r in s.flying && newB !in s.buckets && !Trips(s, r, result)
    ensures CompleteCall(s, r, result, times, newB).Ok?
    ensures Inv(CompleteCall(s, r, result, times, newB).s)
  {
    hide Within, Digest;
    DigestedState(s, r, result, times, newB);
    LandKeeps(s, r);
    AbortsIff(s, r, result, times, newB);
    hide Settle;
    SettleKeeps(Digest(Land(s, r), r, result, times, newB), r, s.reqs[r].bucket.value, result);
  }

  // --------------------------------------------------------------- other operations

  lemma BeginPlaced(s: State, id: ReqId, key: Key, sync: bool, high: bool)
    requires Inv(s) && id !in s.reqs
    ensures s.recycling != [] ==> s.recycling[0] in s.reqs
    ensures Placed(BeginCall(s, id, key, sync, high)) && Queues(BeginCall(s, id, key, sync, high))
  {
    hide Lined, Waits, Requests, Buckets;
    var r := if s.recycling == [] then id else s.recycling[0];
    if s.recycling != [] {
      assert In(s, Recycling, r);
      assert s.recycling == [r] + s.recycling[1..];
    }
    assert !In(s, Pending, r);
    var s1 := BeginCall(s, id, key, sync, high);
    forall p, q
      ensures In(s1, p, q) <==> q in s1.reqs && s1.reqs[q].place == p
    {
      assert In(s, p, q) <==> q in s.reqs && s.reqs[q].place == p;
      assert p == Recycling && s.recycling != [] ==> (q in s.recycling[1..] <==> q in s.recycling && q != r);
    }
  }

  lemma BeginKeeps(s: State, id: ReqId, key: Key, sync: bool, high: bool)
    requires Inv(s) && id !in s.reqs
    ensures s.recycling != [] ==> s.recycling[0] in s.reqs
    ensures Inv(BeginCall(s, id, key, sync, high))
  {
    hide Waits, Lined;
    BeginPlaced(s, id, key, sync, high);
    var r := if s.recycling == [] then id else s.recycling[0];
    assert s.recycling != [] ==> In(s, Recycling, r) && ReqOk(s, r);
    var s1 := BeginCall(s, id, key, sync, high);
    FrameLined(s, s1, {});
    forall q | q in s1.reqs
      ensures ReqOk(s1, q)
    {
      assert q != r ==> ReqOk(s, q);
    }
    forall c | c in s1.buckets
      ensures BusyOk(s1, c)
    {
      assert BusyOk(s, c);
    }
    FrameWaits(s, s1);
  }

  /** The finished request at the head of its queue is dispatched and recycled. */
  function DispatchCall(s: State): State
    requires s.finished != [] && s.finished[0] in s.reqs
  {
    Recycle(s.(finished := s.finished[1..]), s.finished[0])
  }

  /** A synchronous caller wakes up and recycles its request. */
  function SyncReturnCall(s: State, r: ReqId): State
    requires r in s.reqs
  {
    Recycle(s.(syncDone := s.syncDone - {r}), r)
  }

  lemma RecycleRest(s: State, s0: State, r: ReqId)
    requires Inv(s) && r in s.reqs && (s.reqs[r].place == Finished || s.reqs[r].place == SyncDone)
    requires s0 == s.(finished := s0.finished, syncDone := s0.syncDone)
    requires Placed(Recycle(s0, r)) && Queues(Recycle(s0, r))
    ensures Inv(Recycle(s0, r))
  {
    hide Waits, Lined, Queues, Placed;
    var s1 := Recycle(s0, r);
    assert ReqOk(s, r);
    FrameLined(s, s1, {});
    forall q | q in s1.reqs
      ensures ReqOk(s1, q)
    {
      assert ReqOk(s, q);
    }
    forall c | c in s1.buckets
      ensures BusyOk(s1, c)
    {
      assert BusyOk(s, c);
    }
    FrameWaits(s, s1);
  }

  lemma DispatchKeeps(s: State)
    requires Inv(s) && s.finished != []
    ensures s.finished[0] in s.reqs
    ensures Inv(DispatchCall(s))
  {
    hide Lined, Waits, Requests, Buckets;
    var r := s.finished[0];
    assert In(s, Finished, r);
    assert s.finished == [r] + s.finished[1..];
    assert !In(s, Recycling, r);
    var s1 := DispatchCall(s);
    forall p, q
      ensures In(s1, p, q) <==> q in s1.reqs && s1.reqs[q].place == p
    {
      assert In(s, p, q) <==> q in s.reqs && s.reqs[q].place == p;
      assert p == Finished ==> (q in s.finished[1..] <==> q in s.finished && q != r);
    }
    RecycleRest(s, s.(finished := s.finished[1..]), r);
  }

  lemma SyncReturnKeeps(s: State, r: ReqId)
    requires Inv(s) && r in s.syncDone
    ensures r in s.reqs
    ensures Inv(SyncReturnCall(s, r))
  {
    hide Lined, Waits, Requests, Buckets;
    assert In(s, SyncDone, r);
    assert !In(s, Recycling, r);
    var s1 := SyncReturnCall(s, r);
    forall p, q
      ensures In(s1, p, q) <==> q in s1.reqs && s1.reqs[q].place == p
    {
      assert In(s, p, q) <==> q in s.reqs && s.reqs[q].place == p;
    }
    RecycleRest(s, s.(syncDone := s.syncDone - {r}), r);
  }

  /** The wake callback makes no call and leaves its timer alone. */
  function WakesBucket(t: T.Timer): T.Reactions {
    var r := T.Reaction([], T.Ticking(t));
    T.Reactions(r, r, r)
  }

  /** Bucket `b` is awake again, the timers being `timers`. */
  function Woken(s: State, b: BucketId, timers: T.State): State
    requires b in s.buckets
  {
    s.(timers := timers, waits := s.waits - {b},
       buckets := s.buckets[b := s.buckets[b].(busy := Idle, remaining := 1)])
  }

  /** A wake timer's turn in the REST thread's timer pass: the callback frees the bucket, the timer
      deletes itself. */
  function WakeCall(s: State, id: T.TimerId, now: nat): State
    requires id in s.timers.q && 0 <= s.timers.q[id].key <= now && s.timers.q[id].timer.data in s.buckets
  {
    Woken(s, s.timers.q[id].timer.data,
          T.Do(s.timers, T.Turn(id, now, WakesBucket(s.timers.q[id].timer.(id := id)))).s)
  }

  /** A wake never comes before the time the bucket was told to wait for. */
  lemma WakeTimers(s: State, id: T.TimerId, now: nat)
    requires Inv(s) && id in s.timers.q && 0 <= s.timers.q[id].key <= now
    ensures var b := s.timers.q[id].timer.data;
            && b in s.waits && b in s.buckets && s.waits[b].id == id && s.buckets[b].busy == Timeout
            && s.waits[b].until <= now / 1000
    ensures L.Settled(WakeCall(s, id, now).timers)
    ensures WakeCall(s, id, now).timers.q == s.timers.q - {id}
  {
    hide Lined, Requests, Placed, Queues;
    var b := s.timers.q[id].timer.data;
    assert WaitOk(s, b);
    var step := T.Turn(id, now, WakesBucket(s.timers.q[id].timer.(id := id)));
    L.DoKeeps(s.timers, step);
    L.OwnTurn(s.timers, id, now, step.rs);
  }

  lemma WokenRest(s: State, b: BucketId, timers: T.State)
    requires Placed(s) && s.current == None && Requests(s) && Buckets(s)
    requires b in s.buckets && s.buckets[b].busy == Timeout
    ensures Requests(Woken(s, b, timers)) && Buckets(Woken(s, b, timers))
  {
    var s1 := Woken(s, b, timers);
    forall q | q in s1.reqs
      ensures ReqOk(s1, q)
    {
      assert ReqOk(s, q);
      assert !In(s, Current, q);
    }
    forall c | c in s1.buckets
      ensures BusyOk(s1, c)
    {
      assert BusyOk(s, c);
    }
  }

  lemma WokenWaits(s: State, b: BucketId, timers: T.State)
    requires Waits(s) && b in s.waits && b in s.buckets
    requires L.Settled(timers) && timers.q == s.timers.q - {s.waits[b].id}
    ensures Waits(Woken(s, b, timers))
  {
    var s1 := Woken(s, b, timers);
    forall c | c in s1.waits
      ensures WaitOk(s1, c)
    {
      assert WaitOk(s, c) && WaitOk(s, b);
    }
    forall i | i in s1.timers.q
      ensures s1.timers.q[i].timer.data in s1.waits && s1.waits[s1.timers.q[i].timer.data].id == i
    {
      assert s1.timers.q[i] == s.timers.q[i];
    }
  }

  lemma WokenKeeps(s: State, b: BucketId, timers: T.State)
    requires Inv(s) && b in s.waits && b in s.buckets && s.buckets[b].busy == Timeout
    requires L.Settled(timers) && timers.q == s.timers.q - {s.waits[b].id}
    ensures Inv(Woken(s, b, timers))
  {
    hide Waits, Buckets, Requests, Placed, Queues, Lined, L.Settled;
    WokenRest(s, b, timers);
    WokenWaits(s, b, timers);
    FramePlaced(s, Woken(s, b, timers));
    FrameLined(s, Woken(s, b, timers), {});
  }

  lemma WakeKeeps(s: State, id: T.TimerId, now: nat)
    requires Inv(s) && id in s.timers.q && 0 <= s.timers.q[id].key <= now
    ensures s.timers.q[id].timer.data in s.buckets
    ensures Inv(WakeCall(s, id, now))
  {
    hide Inv, L.Settled, T.Do;
    WakeTimers(s, id, now);
    var step := T.Turn(id, now, WakesBucket(s.timers.q[id].timer.(id := id)));
    WokenKeeps(s, s.timers.q[id].timer.data, T.Do(s.timers, step).s);
  }

  // ------------------------------------------------------------------------- runs

  /** start_pending: file everything pending, then let the selector pass over the pending list. */
  ghost function StartCall(s: State, arms: map<BucketId, Arming>): State
    requires Inv(s) && Startable(s, arms)
  {
    StartReady(s, arms);
    SelectAll(TakeLine(Filed(s)), arms)
  }

  /** The pending list as the selector finds it. */
  ghost function Filed(s: State): State
    requires Inv(s)
  {
    TakePendingKeeps(s);
    FileAllKeeps(TakePending(s));
    FileAll(TakePending(s))
  }

  ghost predicate Startable(s: State, arms: map<BucketId, Arming>)
    requires Inv(s)
  {
    ArmingsOk(TakeLine(Filed(s)), arms)
  }

  lemma StartReady(s: State, arms: map<BucketId, Arming>)
    requires Inv(s) && Startable(s, arms)
    ensures Inv(Filed(s)) && Within(TakeLine(Filed(s)), {}) && Selectable(TakeLine(Filed(s)))
    ensures Inv(SelectAll(TakeLine(Filed(s)), arms))
  {
    TakePendingKeeps(s);
    FileAllKeeps(TakePending(s));
    hide Within;
    TakeLineKeeps(Filed(s));
    SelectAllKeeps(TakeLine(Filed(s)), arms);
  }

  ghost predicate Enabled(s: State, step: Step)
    requires Inv(s)
  {
    match step
    case Begin(id, _, _, _) => id !in s.reqs
    case StartPending(arms) => Startable(s, arms)
    case Complete(r, _, _, newB) => r in s.flying && newB !in s.buckets
    case Wake(id, now) => id in s.timers.q && 0 <= s.timers.q[id].key <= now
    case Dispatch => s.finished != []
    case SyncReturn(r) => r in s.syncDone
  }

  ghost function DoBegin(s: State, id: ReqId, key: Key, sync: bool, high: bool): (s1: State)
    requires Inv(s) && id !in s.reqs
    ensures Inv(s1)
  {
    BeginKeeps(s, id, key, sync, high);
    BeginCall(s, id, key, sync, high)
  }

  ghost function DoStart(s: State, arms: map<BucketId, Arming>): (s1: State)
    requires Inv(s) && Startable(s, arms)
    ensures Inv(s1)
  {
    StartReady(s, arms);
    StartCall(s, arms)
  }

  ghost function DoComplete(s: State, r: ReqId, result: Result, times: Times, newB: BucketId): (o: Outcome)
    requires Inv(s) && r in s.flying && newB !in s.buckets
    ensures o.Ok? ==> Inv(o.s)
  {
    var o := CompleteCall(s, r, result, times, newB);
    assert o.Ok? ==> Inv(o.s) by {
      AbortsIff(s, r, result, times, newB);
      if o.Ok? {
        CompleteKeeps(s, r, result, times, newB);
      }
    }
    o
  }

  ghost function DoWake(s: State, id: T.TimerId, now: nat): (s1: State)
    requires Inv(s) && id in s.timers.q && 0 <= s.timers.q[id].key <= now
    ensures Inv(s1)
  {
    WakeKeeps(s, id, now);
    WakeCall(s, id, now)
  }

  ghost function DoDispatch(s: State): (s1: State)
    requires Inv(s) && s.finished != []
    ensures Inv(s1)
  {
    DispatchKeeps(s);
    DispatchCall(s)
  }

  ghost function DoSyncReturn(s: State, r: ReqId): (s1: State)
    requires Inv(s) && r in s.syncDone
    ensures Inv(s1)
  {
    SyncReturnKeeps(s, r);
    SyncReturnCall(s, r)
  }

  /** One step of the REST client. */
  ghost function Do(s: State, step: Step): (o: Outcome)
    requires Inv(s) && Enabled(s, step)
    ensures o.Ok? ==> Inv(o.s)
  {
    hide Inv, Startable, CompleteCall, DoBegin, DoStart, DoComplete, DoWake, DoDispatch, DoSyncReturn;
    match step
    case Begin(id, key, sync, high) => Ok(DoBegin(s, id, key, sync, high))
    case StartPending(arms) => Ok(DoStart(s, arms))
    case Complete(r, result, times, newB) => DoComplete(s, r, result, times, newB)
    case Wake(id, now) => Ok(DoWake(s, id, now))
    case Dispatch => Ok(DoDispatch(s))
    case SyncReturn(r) => Ok(DoSyncReturn(s, r))
  }

  /** The step is enabled in `s`, does not abort, and leads to `s1`. */
  ghost predicate Moves(s: State, step: Step, s1: State) {
    Inv(s) && Enabled(s, step) && Do(s, step) == Ok(s1)
  }

  /** A run: the states it passes through, and the steps between them. */
  ghost predicate IsRun(states: seq<State>, steps: seq<Step>) {
    && |states| == |steps| + 1 && Inv(states[0])
    && forall i :: 0 <= i < |steps| ==> Moves(states[i], steps[i], states[i + 1])
  }

  /** The invariant holds in every state of every run. */
  lemma RunKeeps(states: seq<State>, steps: seq<Step>, k: nat)
    requires IsRun(states, steps) && k < |states|
    ensures Inv(states[k])
  {
    if k > 0 {
      assert Moves(states[k - 1], steps[k - 1], states[k - 1 + 1]);
    }
  }

  /** requestor_init: the two singleton buckets and nothing else. */
  function Initial(retryLimit: nat, nullB: BucketId, missB: BucketId): State {
    var bucket := Bucket(1, 0, Idle, []);
    State(retryLimit, nullB, missB, map[], [], [], [], {}, {},
          map[nullB := bucket, missB := bucket], map["null" := nullB, "miss" := missB], [], 0,
          T.State(map[], 0, false), map[], [], [], None)
  }

  lemma InitialInv(retryLimit: nat, nullB: BucketId, missB: BucketId)
    requires nullB != missB
    ensures Inv(Initial(retryLimit, nullB, missB))
  {
    var s := Initial(retryLimit, nullB, missB);
    assert forall p, r :: !In(s, p, r);
  }
}
