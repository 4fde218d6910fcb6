/** In which order the requests of a bucket are sent. */
module RestOrder {
  import opened Wrappers
  import opened RestModel
  import opened RestInvariant
  import opened RestSelector
  import opened RestSteps
  import opened RestTheorems
  import opened RestLimits
  import T = TimerQueue

  /** What filing the local queue puts in front of a bucket's queue: its high-priority requests, the
      last one first. */
  ghost function Front(s: State, queue: seq<ReqId>, b: BucketId): seq<ReqId> {
    if queue == [] || queue[0] !in s.reqs then []
    else
      var rest := Front(s, queue[1..], b);
      if BucketOf(s, s.reqs[queue[0]].key) == b && s.reqs[queue[0]].high then rest + [queue[0]] else rest
  }

  /** What it puts behind: the normal requests, in order. */
  ghost function Behind(s: State, queue: seq<ReqId>, b: BucketId): seq<ReqId> {
    if queue == [] || queue[0] !in s.reqs then []
    else
      var rest := Behind(s, queue[1..], b);
      if BucketOf(s, s.reqs[queue[0]].key) == b && !s.reqs[queue[0]].high then [queue[0]] + rest else rest
  }

  /** The same requests going to the same buckets. */
  ghost predicate SameRoutes(s: State, s1: State) {
    && s1.routes == s.routes && s1.nullB == s.nullB
    && (forall r :: r in s.reqs <==> r in s1.reqs)
    && forall r :: r in s.reqs ==> s1.reqs[r].key == s.reqs[r].key && s1.reqs[r].high == s.reqs[r].high
  }

  lemma {:induction false} FrontBehindSame(s: State, s1: State, queue: seq<ReqId>, b: BucketId)
    requires SameRoutes(s, s1)
    ensures Front(s, queue, b) == Front(s1, queue, b) && Behind(s, queue, b) == Behind(s1, queue, b)
  {
    if queue != [] && queue[0] in s.reqs {
      FrontBehindSame(s, s1, queue[1..], b);
    }
  }

  lemma FileOne(s: State, b: BucketId)
    requires Sane(s) && s.hand != [] && b in s.buckets
    ensures var r := s.hand[0];
            var to := BucketOf(s, s.reqs[r].key);
            var s1 := Insert(s.(hand := s.hand[1..]), to, r, s.reqs[r].high);
            && Sane(s1) && s1.hand == s.hand[1..] && b in s1.buckets && SameRoutes(s, s1)
            && FileAll(s) == FileAll(s1)
            && s1.buckets[b].next == if to != b then s.buckets[b].next
                                     else if s.reqs[r].high then [r] + s.buckets[b].next
                                     else s.buckets[b].next + [r]
  {
  }

  /** Filing is a deque per bucket: high-priority requests go to its head, the others to its tail in
      the order in which they were begun, and what was queued before keeps its place between them. */
  lemma {:induction false} FilingOrder(s: State, b: BucketId)
    requires Sane(s) && b in s.buckets
    ensures FileAll(s).buckets[b].next == Front(s, s.hand, b) + s.buckets[b].next + Behind(s, s.hand, b)
    decreases |s.hand|
  {
    if s.hand != [] {
      var r := s.hand[0];
      FileOne(s, b);
      var s1 := Insert(s.(hand := s.hand[1..]), BucketOf(s, s.reqs[r].key), r, s.reqs[r].high);
      hide Insert, FileAll, Spared;
      FilingOrder(s1, b);
      FrontBehindSame(s, s1, s.hand[1..], b);
      Regroup(Front(s, s.hand[1..], b), [r], s.buckets[b].next, Behind(s, s.hand[1..], b));
    }
  }

  lemma Regroup<V>(a: seq<V>, r: seq<V>, m: seq<V>, z: seq<V>)
    ensures a + (r + m) + z == (a + r) + m + z
    ensures a + (m + r) + z == a + m + (r + z)
    ensures a + [] == a && [] + z == z
  {
  }

  lemma TakePendingRoutes(s: State)
    ensures var s0 := TakePending(s);
            SameRoutes(s, s0) && s0.hand == s.pending && s0.buckets == s.buckets
  {
  }

  /** Filing, as a bucket's queue sees it. */
  lemma FiledDeque(s: State, b: BucketId)
    requires Inv(s) && b in s.buckets
    ensures b in Filed(s).buckets
    ensures Filed(s).buckets[b].next == Front(s, s.pending, b) + s.buckets[b].next + Behind(s, s.pending, b)
  {
    var s0 := TakePending(s);
    TakePendingKeeps(s);
    SaneWithin(s0, {});
    TakePendingRoutes(s);
    hide Within, Inv, SameRoutes, FileAll, Sane, TakePending;
    FilingOrder(s0, b);
    FrontBehindSame(s, s0, s.pending, b);
  }

  lemma PassDeque(s: State, arms: map<BucketId, Arming>, b: BucketId)
    requires Inv(s) && Selectable(TakeLine(s)) && b in s.buckets
    ensures var s1 := SelectAll(TakeLine(s), arms);
            && b in s1.buckets
            && s1.buckets[b] == (if s.buckets[b].next == [] then s.buckets[b] else Turned(s.buckets[b]))
  {
    assert OnLine(s, b) <==> b in s.line;
    hide Within, Selectable, SelectAll;
    PassBucket(TakeLine(s), arms, b);
  }

  /** One pass of start_pending, as a bucket's queue sees it: the pending requests join the deque, then
      its head is sent if the bucket is idle and not exhausted. */
  lemma StartDeque(s: State, arms: map<BucketId, Arming>, b: BucketId)
    requires Inv(s) && Startable(s, arms) && b in s.buckets
    ensures var queue := Front(s, s.pending, b) + s.buckets[b].next + Behind(s, s.pending, b);
            var s1 := StartCall(s, arms);
            && b in Filed(s).buckets && Filed(s).buckets[b].next == queue && b in s1.buckets
            && s1.buckets[b] == (if queue == [] then Filed(s).buckets[b] else Turned(Filed(s).buckets[b]))
  {
    FiledDeque(s, b);
    StartReady(s, arms);
    hide Within, Inv, Filed, Startable, Selectable, Turned;
    PassDeque(Filed(s), arms, b);
  }

  /** A bucket with requests, after the selector's turn on it. */
  function Turned(o: Bucket): Bucket
    requires o.next != []
  {
    match VerdictOn(o)
    case Skipped => o
    case Armed => o.(busy := Timeout)
    case Sent => o.(busy := Holding(o.next[0]), next := o.next[1..])
  }

  // ------------------------------------------------------------- queues after a response

  /** What null_filter leaves in the queue of `c`, the null bucket's queue being matched to `m`. */
  function Sifted(s: State, m: BucketId, key: Key, c: BucketId): seq<ReqId>
    requires s.nullB in s.buckets
  {
    var own := if c in s.buckets then s.buckets[c].next else [];
    var queue := s.buckets[s.nullB].next;
    var n := Prefix(s, queue, key);
    if m == s.nullB then own
    else if c == s.nullB then queue[n..]
    else if c == m then own + queue[..n]
    else own
  }

  lemma NullFilterQueues(s: State, m: BucketId, key: Key, c: BucketId)
    requires Sane(s) && s.hand == [] && m in s.buckets && c in s.buckets
    requires forall i :: 0 <= i < |s.buckets[s.nullB].next| ==> s.buckets[s.nullB].next[i] in s.reqs
    ensures c in NullFilter(s, m, key).buckets
    ensures NullFilter(s, m, key).buckets[c].next == Sifted(s, m, key, c)
  {
    hide FilterAll;
    if m == s.nullB {
      var s0 := TakeNull(s);
      if c == m {
        FilterToNull(s0, key);
        assert [] + s.buckets[m].next == s.buckets[m].next;
      } else {
        FilterElsewhere(s0, m, key, c);
      }
    } else {
      NullFilterSplits(s, m, key);
      if c != s.nullB && c != m {
        NullFilterElsewhere(s, m, key, c);
      }
    }
  }

  lemma AddedSifted(s: State, key: Key, h: Headers, newB: BucketId, m: BucketId, c: BucketId)
    requires s.nullB in s.buckets && newB !in s.buckets
    ensures Sifted(AddBucket(s, key, h, newB), m, key, c) == Sifted(s, m, key, c)
  {
    PrefixSame(s, AddBucket(s, key, h, newB), s.buckets[s.nullB].next, key);
  }

  lemma AddedSane(s: State, key: Key, h: Headers, newB: BucketId)
    requires Sane(s) && newB !in s.buckets
    ensures var s0 := AddBucket(s, key, h, newB);
            Sane(s0) && MatchOf(s, key, h, newB) in s0.buckets && s0.buckets[s.nullB] == s.buckets[s.nullB]
  {
  }

  lemma PopulateQueues(s: State, b: BucketId, h: Headers, now: nat, c: BucketId)
    requires b in s.buckets && c in s.buckets
    ensures c in Populate(s, b, h, now).buckets && Populate(s, b, h, now).buckets[c].next == s.buckets[c].next
  {
  }

  /** The buckets there are after a response, with one more if its route gets one. */
  predicate Known(s: State, b: BucketId, key: Key, h: Headers, newB: BucketId, c: BucketId) {
    c in s.buckets || (c == newB && b == s.nullB && key !in s.routes && h.bucket)
  }

  lemma BuildQueues(s: State, b: BucketId, key: Key, h: Headers, now: nat, newB: BucketId, c: BucketId)
    requires Sane(s) && b in s.buckets && s.hand == [] && newB !in s.buckets && Known(s, b, key, h, newB, c)
    requires forall i :: 0 <= i < |s.buckets[s.nullB].next| ==> s.buckets[s.nullB].next[i] in s.reqs
    ensures var s1 := Build(s, b, key, h, now, newB);
            && c in s1.buckets
            && s1.buckets[c].next ==
                 if b == s.nullB then Sifted(s, MatchOf(s, key, h, newB), key, c) else s.buckets[c].next
  {
    if b == s.nullB {
      var s0 := AddBucket(s, key, h, newB);
      var m := MatchOf(s, key, h, newB);
      AddedSane(s, key, h, newB);
      assert c in s0.buckets;
      hide NullFilter, Sane, Sifted, Populate, AddBucket, MatchOf;
      NullFilterQueues(s0, m, key, c);
      AddedSifted(s, key, h, newB, m, c);
      PopulateQueues(NullFilter(s0, m, key), m, h, now, c);
    } else {
      PopulateQueues(s, b, h, now, c);
    }
  }

  lemma NotedSifted(s: State, b: BucketId, result: Result, times: Times, m: BucketId, key: Key, c: BucketId)
    requires s.nullB in s.buckets && b in s.buckets
    ensures var s1 := Noted(s, b, result, times);
            && s1.nullB == s.nullB && s1.nullB in s1.buckets && Sifted(s1, m, key, c) == Sifted(s, m, key, c)
            && s1.missB == s.missB && s1.routes == s.routes && s1.buckets.Keys == s.buckets.Keys
            && (c in s.buckets ==> s1.buckets[c].next == s.buckets[c].next)
  {
    hide Prefix;
    PrefixSame(s, Noted(s, b, result, times), s.buckets[s.nullB].next, key);
  }

  /** A request sent through the null bucket whose response can be read has the null bucket's queue
      sifted. */
  predicate Sifts(s: State, b: BucketId, result: Result) {
    b == s.nullB && result.Response?
  }

  /** The queue of `c` once the response to `r` is read, and before `r` is put back if it is. */
  function Digested(s: State, r: ReqId, b: BucketId, result: Result, newB: BucketId, c: BucketId): seq<ReqId>
    requires r in s.reqs && s.nullB in s.buckets
  {
    if Sifts(s, b, result) then
      Sifted(s, MatchOf(s, s.reqs[r].key, result.headers, newB), s.reqs[r].key, c)
    else if c in s.buckets then s.buckets[c].next else []
  }

  predicate Extant(s: State, r: ReqId, b: BucketId, result: Result, newB: BucketId, c: BucketId)
    requires r in s.reqs
  {
    c in s.buckets || (result.Response? && Known(s, b, s.reqs[r].key, result.headers, newB, c))
  }

  lemma DigestQueues(s: State, r: ReqId, b: BucketId, result: Result, times: Times, newB: BucketId, c: BucketId)
    requires Sane(s) && s.hand == [] && newB !in s.buckets && Landed(s, r, b) && Extant(s, r, b, result, newB, c)
    requires forall i :: 0 <= i < |s.buckets[s.nullB].next| ==> s.buckets[s.nullB].next[i] in s.reqs
    ensures c in Digest(s, r, result, times, newB).buckets
    ensures Digest(s, r, result, times, newB).buckets[c].next == Digested(s, r, b, result, newB, c)
  {
    if result.Response? {
      var key := s.reqs[r].key;
      NotedSifted(s, b, result, times, MatchOf(s, key, result.headers, newB), key, c);
      NotedSane(s, b, result, times);
      hide Noted, Sane, Build, Sifted;
      BuildQueues(Noted(s, b, result, times), b, key, result.headers, times.headers, newB, c);
    }
  }

  lemma SettleQueues(s: State, r: ReqId, b: BucketId, result: Result, c: BucketId)
    requires Landed(s, r, b) && c in s.buckets && Settle(s, r, result).Ok?
    ensures var s1 := Settle(s, r, result).s;
            && c in s1.buckets
            && s1.buckets[c].next ==
                 (if c == b && Retryable(result) && s.reqs[r].attempts < s.retryLimit then [r] else [])
                 + s.buckets[c].next
  {
    assert [] + s.buckets[c].next == s.buckets[c].next;
  }

  lemma LandedDigested(s: State, r: ReqId, b: BucketId, result: Result, newB: BucketId, c: BucketId)
    requires r in s.reqs && s.nullB in s.buckets
    ensures Digested(Land(s, r), r, b, result, newB, c) == Digested(s, r, b, result, newB, c)
    ensures Extant(Land(s, r), r, b, result, newB, c) == Extant(s, r, b, result, newB, c)
  {
    hide Prefix;
    PrefixSame(s, Land(s, r), s.buckets[s.nullB].next, s.reqs[r].key);
  }

  /** A completion, as every bucket's queue sees it: the null bucket's queue is sifted if the request was
      sent through it and its response could be read, and a retried request goes to the head of its own
      bucket's queue. All else stays. */
  lemma CompleteDeque(s: State, r: ReqId, result: Result, times: Times, newB: BucketId, c: BucketId)
    requires Inv(s) && r in s.flying && newB !in s.buckets && !Trips(s, r, result)
    ensures CompleteCall(s, r, result, times, newB).Ok?
    ensures r in s.reqs && s.reqs[r].bucket.Some? && s.nullB in s.buckets
    ensures var b := s.reqs[r].bucket.value;
            var s1 := CompleteCall(s, r, result, times, newB).s;
            var again := Retryable(result) && s.reqs[r].attempts < s.retryLimit;
            Extant(s, r, b, result, newB, c) ==>
              && c in s1.buckets
              && s1.buckets[c].next == (if c == b && again then [r] else []) + Digested(s, r, b, result, newB, c)
  {
    LandKeeps(s, r);
    DigestedState(s, r, result, times, newB);
    AbortsIff(s, r, result, times, newB);
    var b := s.reqs[r].bucket.value;
    assert s.nullB in s.buckets;
    LandedDigested(s, r, b, result, newB, c);
    assert Land(s, r).buckets == s.buckets && Land(s, r).hand == [];
    hide Within, Inv, Digested, Extant, Spared, Land, Sane, Digest, Settle;
    if Extant(s, r, b, result, newB, c) {
      DigestQueues(Land(s, r), r, b, result, times, newB, c);
      SettleQueues(Digest(Land(s, r), r, result, times, newB), r, b, result, c);
    }
  }

  // ------------------------------------------------------------- queues after any step

  /** The pending requests filed around the queue of `c`. */
  ghost function Joined(s: State, c: BucketId): seq<ReqId>
    requires c in s.buckets
  {
    Front(s, s.pending, c) + s.buckets[c].next + Behind(s, s.pending, c)
  }

  /** The queue of `c` after a step: every step is one operation on a deque, or none. */
  ghost function QueueAfter(s: State, step: Step, c: BucketId): seq<ReqId>
    requires Inv(s) && Enabled(s, step) && c in s.buckets
  {
    match step
    case StartPending(_) =>
      var queue := Joined(s, c);
      if queue != [] && s.buckets[c].busy == Idle && s.buckets[c].remaining != 0 then queue[1..] else queue
    case Complete(r, result, _, newB) =>
      FlightIsBusy(s, r);
      var b := s.reqs[r].bucket.value;
      (if c == b && Retryable(result) && s.reqs[r].attempts < s.retryLimit then [r] else [])
      + Digested(s, r, b, result, newB, c)
    case _ => s.buckets[c].next
  }

  /** Filing changes nothing of a bucket but its queue. */
  lemma FiledBucket(s: State, c: BucketId)
    requires Inv(s) && c in s.buckets
    ensures Inv(Filed(s)) && c in Filed(s).buckets && Filed(s).buckets[c] == s.buckets[c].(next := Joined(s, c))
  {
    FiledLimits(s);
    FiledSpares(s);
    hide Inv, Filed, Front, Behind;
    FiledDeque(s, c);
  }

  lemma StartQueue(s: State, arms: map<BucketId, Arming>, c: BucketId)
    requires Inv(s) && Startable(s, arms) && c in s.buckets
    ensures c in StartCall(s, arms).buckets
    ensures StartCall(s, arms).buckets[c].next ==
              if Joined(s, c) != [] && s.buckets[c].busy == Idle && s.buckets[c].remaining != 0 then Joined(s, c)[1..]
              else Joined(s, c)
  {
    FiledBucket(s, c);
    hide Inv, Filed, Startable, StartCall, Front, Behind;
    StartDeque(s, arms, c);
  }

  lemma StartBusy(s: State, arms: map<BucketId, Arming>, c: BucketId)
    requires Inv(s) && Startable(s, arms) && c in s.buckets && Joined(s, c) != []
    ensures c in StartCall(s, arms).buckets
    ensures var o := s.buckets[c];
            StartCall(s, arms).buckets[c].busy ==
              if o.busy != Idle then o.busy else if o.remaining == 0 then Timeout else Holding(Joined(s, c)[0])
  {
    FiledBucket(s, c);
    hide Inv, Filed, Startable, StartCall, Front, Behind;
    StartDeque(s, arms, c);
  }

  lemma WakeQueue(s: State, id: nat, now: nat, c: BucketId)
    requires Inv(s) && Enabled(s, Wake(id, now)) && c in s.buckets
    ensures var o := Do(s, Wake(id, now));
            o.Ok? && c in o.s.buckets && o.s.buckets[c].next == s.buckets[c].next
  {
    hide Inv, T.Do, Startable, CompleteCall, BeginCall, StartCall, DoComplete, DoStart, DoBegin;
    WakeTimers(s, id, now);
  }

  /** One step of any kind, as the queue of any bucket sees it, the null bucket's included. */
  lemma QueueStep(s: State, step: Step, s1: State, c: BucketId)
    requires Moves(s, step, s1) && c in s.buckets
    ensures c in s1.buckets && s1.buckets[c].next == QueueAfter(s, step, c)
  {
    hide Inv, StartCall, CompleteCall, Joined, Digested;
    if step.StartPending? {
      StartQueue(s, step.arms, c);
    } else if step.Complete? {
      hide Sifted;
      AbortsIff(s, step.r, step.result, step.times, step.newBucket);
      CompleteDeque(s, step.r, step.result, step.times, step.newBucket, c);
    } else if step.Wake? {
      hide Do;
      WakeQueue(s, step.id, step.now, c);
    } else {
      hide Do;
      QuietLeaves(s, step);
    }
  }

  // ------------------------------------------------------------------ order over runs

  /** `x` comes before `y` in the queue. */
  ghost predicate Precedes(q: seq<ReqId>, x: ReqId, y: ReqId) {
    exists i, j :: 0 <= i < j < |q| && q[i] == x && q[j] == y
  }

  lemma PrecedesWithin(a: seq<ReqId>, q: seq<ReqId>, z: seq<ReqId>, x: ReqId, y: ReqId)
    requires Precedes(q, x, y)
    ensures Precedes(a + q + z, x, y)
  {
    var i, j :| 0 <= i < j < |q| && q[i] == x && q[j] == y;
    var w := a + q + z;
    assert w[|a| + i] == x && w[|a| + j] == y;
  }

  lemma PrecedesAcross(a: seq<ReqId>, z: seq<ReqId>, x: ReqId, y: ReqId)
    requires x in a && y in z
    ensures Precedes(a + z, x, y)
  {
    var i :| 0 <= i < |a| && a[i] == x;
    var j :| 0 <= j < |z| && z[j] == y;
    var w := a + z;
    assert w[i] == x && w[|a| + j] == y;
  }

  lemma PrecedesMembers(q: seq<ReqId>, x: ReqId, y: ReqId)
    requires Precedes(q, x, y)
    ensures x in q && y in q
  {
  }

  /** What is left of a queue when its beginning is taken off: if the first one stays both do. */
  lemma PrecedesInRest(q: seq<ReqId>, n: nat, x: ReqId, y: ReqId)
    requires NoDup(q) && n <= |q| && Precedes(q, x, y)
    ensures x in q[n..] ==> Precedes(q[n..], x, y)
    ensures y in q[..n] ==> Precedes(q[..n], x, y)
  {
    var i, j :| 0 <= i < j < |q| && q[i] == x && q[j] == y;
    if x in q[n..] {
      var k :| 0 <= k < |q[n..]| && q[n..][k] == x;
      assert q[n + k] == x && n + k == i;
      assert q[n..][i - n] == x && q[n..][j - n] == y;
    }
    if y in q[..n] {
      var k :| 0 <= k < n && q[..n][k] == y;
      assert q[k] == y && k == j;
      assert q[..n][i] == x && q[..n][j] == y;
    }
  }

  lemma PrecedesOneWay(q: seq<ReqId>, x: ReqId, y: ReqId)
    requires NoDup(q) && Precedes(q, x, y)
    ensures !Precedes(q, y, x) && x != y
  {
  }

  /** The queues of a state that satisfies the invariant hold each request once, and no request of a
      queue is in the air or in another queue. */
  lemma Queued(s: State, c: BucketId, y: ReqId)
    requires Inv(s) && c in s.buckets
    ensures NoDup(s.buckets[c].next)
    ensures y in s.buckets[c].next ==>
              y !in s.flying && y !in s.pending && forall d :: d in s.buckets && d != c ==> y !in s.buckets[d].next
  {
    if y in s.buckets[c].next {
      assert In(s, Next(c), y);
      assert !In(s, InFlight, y) && !In(s, Pending, y);
      forall d | d in s.buckets && d != c
        ensures y !in s.buckets[d].next
      {
        assert !In(s, Next(d), y);
      }
    }
  }

  /** While `x` stays in the queue, what came after it stays behind it. */
  lemma StepOrder(s: State, step: Step, s1: State, c: BucketId, x: ReqId, y: ReqId)
    requires Moves(s, step, s1) && Inv(s1) && c in s.buckets && c in s1.buckets
    requires Precedes(s.buckets[c].next, x, y) && x in s1.buckets[c].next
    ensures Precedes(s1.buckets[c].next, x, y)
  {
    QueueStep(s, step, s1, c);
    var q := s.buckets[c].next;
    PrecedesMembers(q, x, y);
    Queued(s, c, x);
    hide Inv, Do, Precedes, NoDup, QueueAfter, Joined, Startable;
    if step.StartPending? {
      StartTakesHead(s, step.arms, c);
      StartOrder(s, s1.buckets[c].next, c, x, y);
    } else if step.Complete? {
      CompleteOrder(s, step, s1, c, x, y);
    } else {
      QueueStays(s, step, c);
    }
  }

  /** A pass leaves the filed queue as it is, or sends its head. */
  ghost predicate HeadTaken(queue: seq<ReqId>, after: seq<ReqId>) {
    after == queue || (queue != [] && after == queue[1..])
  }

  lemma StartTakesHead(s: State, arms: map<BucketId, Arming>, c: BucketId)
    requires Inv(s) && Startable(s, arms) && c in s.buckets
    ensures HeadTaken(Joined(s, c), QueueAfter(s, StartPending(arms), c))
  {
  }

  lemma QueueStays(s: State, step: Step, c: BucketId)
    requires Inv(s) && Enabled(s, step) && c in s.buckets && !step.StartPending? && !step.Complete?
    ensures QueueAfter(s, step, c) == s.buckets[c].next
  {
  }

  lemma StartOrder(s: State, after: seq<ReqId>, c: BucketId, x: ReqId, y: ReqId)
    requires Inv(s) && c in s.buckets && HeadTaken(Joined(s, c), after)
    requires Precedes(s.buckets[c].next, x, y) && x in after
    ensures Precedes(after, x, y)
  {
    var queue := Joined(s, c);
    hide Inv, Front, Behind, Precedes, NoDup;
    JoinedOnce(s, c);
    PrecedesWithin(Front(s, s.pending, c), s.buckets[c].next, Behind(s, s.pending, c), x, y);
    if after != queue {
      PrecedesInRest(queue, 1, x, y);
    }
  }

  lemma JoinedOnce(s: State, c: BucketId)
    requires Inv(s) && c in s.buckets
    ensures NoDup(Joined(s, c))
  {
    FiledBucket(s, c);
    hide Inv, Filed, Front, Behind;
    Queued(Filed(s), c, 0);
  }

  lemma CompleteOrder(s: State, step: Step, s1: State, c: BucketId, x: ReqId, y: ReqId)
    requires Inv(s) && Enabled(s, step) && step.Complete? && c in s.buckets && c in s1.buckets
    requires s1.buckets[c].next == QueueAfter(s, step, c)
    requires Precedes(s.buckets[c].next, x, y) && x in s1.buckets[c].next
    ensures Precedes(s1.buckets[c].next, x, y)
  {
    FlightIsBusy(s, step.r);
    var r, b := step.r, s.reqs[step.r].bucket.value;
    var left := Digested(s, r, b, step.result, step.newBucket, c);
    var head := if c == b && Retryable(step.result) && s.reqs[r].attempts < s.retryLimit then [r] else [];
    assert s1.buckets[c].next == head + left;
    Queued(s, c, r);
    PrecedesMembers(s.buckets[c].next, x, y);
    assert x !in head;
    hide Inv, Enabled, Precedes, NoDup, Digested;
    SiftedOrder(s, r, b, step.result, step.newBucket, c, x, y);
    PrecedesWithin(head, left, [], x, y);
    assert head + left + [] == head + left;
  }

  lemma SiftedOrder(s: State, r: ReqId, b: BucketId, result: Result, newB: BucketId, c: BucketId, x: ReqId, y: ReqId)
    requires r in s.reqs && s.nullB in s.buckets && c in s.buckets && NoDup(s.buckets[c].next)
    requires Precedes(s.buckets[c].next, x, y) && x in Digested(s, r, b, result, newB, c)
    ensures Precedes(Digested(s, r, b, result, newB, c), x, y)
  {
    if Sifts(s, b, result) {
      var key := s.reqs[r].key;
      var m := MatchOf(s, key, result.headers, newB);
      var queue := s.buckets[s.nullB].next;
      var n := Prefix(s, queue, key);
      hide NoDup, Precedes;
      if m != s.nullB && c == s.nullB {
        PrecedesInRest(queue, n, x, y);
      } else if m != s.nullB && c == m {
        PrecedesWithin([], s.buckets[c].next, queue[..n], x, y);
        assert [] + s.buckets[c].next + queue[..n] == s.buckets[c].next + queue[..n];
      }
    }
  }

  /** Order over runs: as long as a request stays in the queue of a bucket, every request that was behind
      it is still behind it, and is not sent; whether it was filed normally or with high priority, put
      back for a retry, or moved there by null_filter. */
  lemma {:induction false} OrderStands(states: seq<State>, steps: seq<Step>, i: nat, j: nat,
                                       c: BucketId, x: ReqId, y: ReqId)
    requires IsRun(states, steps) && i <= j <= |steps|
    requires forall k :: i <= k <= j ==> c in states[k].buckets && x in states[k].buckets[c].next
    requires Precedes(states[i].buckets[c].next, x, y)
    ensures Precedes(states[j].buckets[c].next, x, y) && y !in states[j].flying
    decreases j
  {
    RunKeeps(states, steps, j);
    if i < j {
      var k := j - 1;
      OrderStands(states, steps, i, k, c, x, y);
      assert Moves(states[k], steps[k], states[k + 1]);
      hide Inv, Moves, Precedes;
      StepOrder(states[k], steps[k], states[j], c, x, y);
    }
    Queued(states[j], c, y);
    PrecedesMembers(states[j].buckets[c].next, x, y);
  }

  /** A request that null_filter moves to another bucket does not overtake: those before it have moved
      with it, and are before it there. */
  lemma MovedInOrder(s: State, r: ReqId, result: Result, times: Times, newB: BucketId, c: BucketId, x: ReqId, y: ReqId)
    requires Inv(s) && r in s.flying && newB !in s.buckets && !Trips(s, r, result)
    requires r in s.reqs && s.reqs[r].bucket.Some? && Extant(s, r, s.reqs[r].bucket.value, result, newB, c)
    requires s.nullB in s.buckets && c != s.nullB && Precedes(s.buckets[s.nullB].next, x, y)
    ensures CompleteCall(s, r, result, times, newB).Ok?
    ensures var s1 := CompleteCall(s, r, result, times, newB).s;
            c in s1.buckets && (y in s1.buckets[c].next ==> Precedes(s1.buckets[c].next, x, y))
  {
    hide Precedes, NoDup, Digested, Extant, CompleteCall, Inv;
    CompleteDeque(s, r, result, times, newB, c);
    var b := s.reqs[r].bucket.value;
    var left := Digested(s, r, b, result, newB, c);
    var head := if c == b && Retryable(result) && s.reqs[r].attempts < s.retryLimit then [r] else [];
    PrecedesMembers(s.buckets[s.nullB].next, x, y);
    NotFlying(s, s.nullB, y, r);
    Queued(s, s.nullB, y);
    if y in left {
      MovedAlong(s, r, b, result, newB, c, x, y);
      PrecedesWithin(head, left, [], x, y);
      assert head + left + [] == head + left;
    }
  }

  lemma MovedAlong(s: State, r: ReqId, b: BucketId, result: Result, newB: BucketId, c: BucketId, x: ReqId, y: ReqId)
    requires r in s.reqs && s.nullB in s.buckets && c != s.nullB && (c in s.buckets ==> y !in s.buckets[c].next)
    requires Precedes(s.buckets[s.nullB].next, x, y) && NoDup(s.buckets[s.nullB].next)
    requires y in Digested(s, r, b, result, newB, c)
    ensures Precedes(Digested(s, r, b, result, newB, c), x, y)
  {
    var queue := s.buckets[s.nullB].next;
    var n := Prefix(s, queue, s.reqs[r].key);
    var own := if c in s.buckets then s.buckets[c].next else [];
    hide Precedes, NoDup, Prefix, MatchOf;
    var left := Digested(s, r, b, result, newB, c);
    assert left == own + queue[..n] && y in queue[..n];
    PrecedesInRest(queue, n, x, y);
    PrecedesWithin(own, queue[..n], [], x, y);
    assert own + queue[..n] + [] == own + queue[..n];
  }

  /** The step lets `y` jump the queue: it is filed with high priority, or put back for a retry. */
  predicate Jumps(s: State, step: Step, y: ReqId) {
    || (step.StartPending? && y in s.reqs && s.reqs[y].high)
    || (step.Complete? && step.r == y)
  }

  lemma {:induction false} FrontBehindHigh(s: State, queue: seq<ReqId>, c: BucketId, y: ReqId)
    ensures y in Front(s, queue, c) ==> y in s.reqs && s.reqs[y].high
    ensures y in Behind(s, queue, c) ==> y in s.reqs && !s.reqs[y].high
  {
    if queue != [] && queue[0] in s.reqs {
      FrontBehindHigh(s, queue[1..], c, y);
    }
  }

  /** A request that comes to a queue goes behind all that are there, unless the step lets it jump the
      queue; then it goes before them. */
  lemma StepArrival(s: State, step: Step, s1: State, c: BucketId, x: ReqId, y: ReqId)
    requires Moves(s, step, s1) && Inv(s1) && c in s.buckets && c in s1.buckets
    requires x in s.buckets[c].next && x in s1.buckets[c].next
    requires y !in s.buckets[c].next && y in s1.buckets[c].next
    ensures Precedes(s1.buckets[c].next, x, y) <==> !Jumps(s, step, y)
    ensures Precedes(s1.buckets[c].next, y, x) <==> Jumps(s, step, y)
  {
    QueueStep(s, step, s1, c);
    Queued(s, c, x);
    Queued(s1, c, x);
    hide Inv, Do, Precedes, NoDup, QueueAfter, Joined, Startable;
    if step.StartPending? {
      StartTakesHead(s, step.arms, c);
      StartArrival(s, s1.buckets[c].next, c, x, y);
    } else if step.Complete? {
      CompleteArrival(s, step, s1, c, x, y);
    } else {
      QueueStays(s, step, c);
    }
    if Precedes(s1.buckets[c].next, x, y) {
      PrecedesOneWay(s1.buckets[c].next, x, y);
    } else {
      PrecedesOneWay(s1.buckets[c].next, y, x);
    }
  }

  lemma StartArrival(s: State, after: seq<ReqId>, c: BucketId, x: ReqId, y: ReqId)
    requires Inv(s) && c in s.buckets && HeadTaken(Joined(s, c), after)
    requires x in s.buckets[c].next && x in after && y !in s.buckets[c].next && y in after
    ensures y in s.reqs && if s.reqs[y].high then Precedes(after, y, x) else Precedes(after, x, y)
  {
    var queue := Joined(s, c);
    hide Inv, Precedes, NoDup, Joined;
    JoinedOnce(s, c);
    assert y in queue;
    JoinedArrival(s, c, x, y);
    if after != queue {
      if s.reqs[y].high {
        PrecedesInRest(queue, 1, y, x);
      } else {
        PrecedesInRest(queue, 1, x, y);
      }
    }
  }

  lemma JoinedArrival(s: State, c: BucketId, x: ReqId, y: ReqId)
    requires c in s.buckets && x in s.buckets[c].next && y !in s.buckets[c].next && y in Joined(s, c)
    ensures y in s.reqs
    ensures if s.reqs[y].high then Precedes(Joined(s, c), y, x) else Precedes(Joined(s, c), x, y)
  {
    var queue, q := Joined(s, c), s.buckets[c].next;
    var front, behind := Front(s, s.pending, c), Behind(s, s.pending, c);
    FrontBehindHigh(s, s.pending, c, y);
    hide Front, Behind, Precedes;
    if y in front {
      PrecedesAcross(front, q, y, x);
      PrecedesWithin([], front + q, behind, y, x);
      assert [] + (front + q) + behind == queue;
    } else {
      PrecedesAcross(q, behind, x, y);
      PrecedesWithin(front, q + behind, [], x, y);
      assert front + (q + behind) + [] == queue;
    }
  }

  lemma CompleteArrival(s: State, step: Step, s1: State, c: BucketId, x: ReqId, y: ReqId)
    requires Inv(s) && Enabled(s, step) && step.Complete? && c in s.buckets && c in s1.buckets
    requires s1.buckets[c].next == QueueAfter(s, step, c)
    requires x in s.buckets[c].next && x in s1.buckets[c].next
    requires y !in s.buckets[c].next && y in s1.buckets[c].next
    ensures if Jumps(s, step, y) then Precedes(s1.buckets[c].next, y, x) else Precedes(s1.buckets[c].next, x, y)
  {
    FlightIsBusy(s, step.r);
    var r, b, q := step.r, s.reqs[step.r].bucket.value, s.buckets[c].next;
    Queued(s, c, r);
    hide Inv, Enabled;
    var head := if c == b && Retryable(step.result) && s.reqs[r].attempts < s.retryLimit then [r] else [];
    var left := Digested(s, r, b, step.result, step.newBucket, c);
    assert x in left;
    if y in left {
      var key := s.reqs[r].key;
      var queue := s.buckets[s.nullB].next;
      var n := Prefix(s, queue, key);
      assert left == q + queue[..n] && y in queue[..n];
      NotFlying(s, s.nullB, y, r);
      PrecedesAcross(q, queue[..n], x, y);
      hide Precedes;
      PrecedesWithin(head, left, [], x, y);
      assert head + left + [] == head + left;
    } else {
      assert y == r && head == [r];
      PrecedesAcross([r], left, y, x);
    }
  }

  lemma NotFlying(s: State, c: BucketId, y: ReqId, r: ReqId)
    requires Inv(s) && c in s.buckets && y in s.buckets[c].next && r in s.flying
    ensures y != r
  {
    Queued(s, c, y);
  }

  /** First come, first served: a request that comes to a queue without jumping it stays behind each
      request that was there, and is not sent, until that one has left the queue. */
  lemma FirstComeFirstServed(states: seq<State>, steps: seq<Step>, k: nat, j: nat, c: BucketId, x: ReqId, y: ReqId)
    requires IsRun(states, steps) && k < j <= |steps|
    requires forall n :: k <= n <= j ==> c in states[n].buckets && x in states[n].buckets[c].next
    requires y !in states[k].buckets[c].next && y in states[k + 1].buckets[c].next && !Jumps(states[k], steps[k], y)
    ensures Precedes(states[j].buckets[c].next, x, y) && y !in states[j].flying
  {
    RunKeeps(states, steps, k + 1);
    assert Moves(states[k], steps[k], states[k + 1]);
    hide Inv, Moves, Precedes;
    StepArrival(states[k], steps[k], states[k + 1], c, x, y);
    OrderStands(states, steps, k + 1, j, c, x, y);
  }

  // ------------------------------------------------------------ what a pass sends and arms

  /** What is filed before the pass changes nothing: a bucket that is held is armed by it, for the time
      it has to wait for. */
  lemma HeldIsArmed(s: State, arms: map<BucketId, Arming>, b: BucketId)
    requires Inv(s) && Startable(s, arms) && b in s.buckets
    requires s.buckets[b].next != [] && VerdictOn(s.buckets[b]).Armed?
    ensures var s1 := StartCall(s, arms);
            && b in s1.buckets && s1.buckets[b].busy == Timeout
            && b in s1.waits && s1.waits[b].until == Until(s, b)
  {
    hide Inv, Filed, Startable, StartCall, Front, Behind;
    FiledLimits(s);
    FiledBucket(s, b);
    assert Until(Filed(s), b) == Until(s, b) && Joined(s, b) != [];
    hide Joined, SameLimits, Until, QueueAfter;
    StartBusy(s, arms, b);
    ArmedUntil(s, arms, b);
  }

  /** The bucket that a departing request comes from. */
  lemma DepartsFrom(s: State, arms: map<BucketId, Arming>, r: ReqId) returns (c: BucketId)
    requires Inv(s) && Startable(s, arms) && r !in s.flying && r in StartCall(s, arms).flying
    ensures Inv(Filed(s)) && c in Filed(s).buckets && Filed(s).buckets[c].next != []
    ensures VerdictOn(Filed(s).buckets[c]).Sent? && r == Filed(s).buckets[c].next[0]
  {
    StartFlights(s, arms, r);
    hide Inv, Startable, StartCall, Filed;
    var s0 := TakeLine(Filed(s));
    c :| HasVerdict(s0, c, Sent) && s0.buckets[c].next != [] && r == s0.buckets[c].next[0];
  }

  lemma SentFromOwn(s: State, arms: map<BucketId, Arming>, b: BucketId, r: ReqId)
    requires Inv(s) && Startable(s, arms) && b in s.buckets && r !in s.flying && Flies(StartCall(s, arms), b, r)
    ensures Joined(s, b) != [] && r == Joined(s, b)[0] && s.buckets[b].busy == Idle && s.buckets[b].remaining != 0
  {
    var c := DepartsFrom(s, arms, r);
    SentIsOwn(s, arms, c, r);
    FiledBucket(s, b);
  }

  lemma HeadIsSent(s: State, arms: map<BucketId, Arming>, b: BucketId)
    requires Inv(s) && Startable(s, arms) && b in s.buckets
    requires Joined(s, b) != [] && s.buckets[b].busy == Idle && s.buckets[b].remaining != 0
    ensures Joined(s, b)[0] !in s.flying && Flies(StartCall(s, arms), b, Joined(s, b)[0])
  {
    var r := Joined(s, b)[0];
    FiledBucket(s, b);
    Queued(Filed(s), b, r);
    StartReady(s, arms);
    StartFlights(s, arms, r);
    assert OnLine(Filed(s), b) <==> b in Filed(s).line;
    assert HasVerdict(TakeLine(Filed(s)), b, Sent);
    StartBusy(s, arms, b);
    hide Filed, Startable, Joined;
    FlightIsBusy(StartCall(s, arms), r);
    SentIsOwn(s, arms, b, r);
  }

  lemma SentIsOwn(s: State, arms: map<BucketId, Arming>, b: BucketId, r: ReqId)
    requires Inv(s) && Startable(s, arms) && Inv(Filed(s)) && b in Filed(s).buckets && r in Filed(s).buckets[b].next
    ensures r in StartCall(s, arms).reqs && StartCall(s, arms).reqs[r].bucket == Some(b)
  {
    assert In(Filed(s), Next(b), r);
    assert ReqOk(Filed(s), r);
    StartReady(s, arms);
    PassRequests(TakeLine(Filed(s)), arms);
  }

  /** A pass sends from a bucket exactly if there is a request for it, it is idle and not exhausted, and
      then it sends the first one. The global wait is not looked at: a bucket that is not exhausted
      sends during it all the same. */
  lemma SendsIff(s: State, arms: map<BucketId, Arming>, b: BucketId, r: ReqId)
    requires Inv(s) && Startable(s, arms) && b in s.buckets
    ensures r !in s.flying && Flies(StartCall(s, arms), b, r) <==>
              Joined(s, b) != [] && s.buckets[b].busy == Idle && s.buckets[b].remaining != 0 && r == Joined(s, b)[0]
  {
    hide Inv, Startable, StartCall, Joined, Flies;
    if r !in s.flying && Flies(StartCall(s, arms), b, r) {
      SentFromOwn(s, arms, b, r);
    }
    if Joined(s, b) != [] && s.buckets[b].busy == Idle && s.buckets[b].remaining != 0 {
      HeadIsSent(s, arms, b);
    }
  }

  // ---------------------------------------------------------------------- after a wake

  /** What a wake does: its bucket is idle again and good for one request. Queues, reset times, routes,
      requests and all other buckets are as they were. */
  lemma WakeFrees(s: State, id: T.TimerId, now: nat, s1: State, b: BucketId)
    requires Moves(s, Wake(id, now), s1) && id in s.timers.q && b == s.timers.q[id].timer.data
    ensures b in s.buckets && b in s1.buckets && s1.buckets[b] == s.buckets[b].(busy := Idle, remaining := 1)
    ensures forall c :: c in s.buckets <==> c in s1.buckets
    ensures forall c :: c in s.buckets && c != b ==> s1.buckets[c] == s.buckets[c]
    ensures s1.routes == s.routes && s1.nullB == s.nullB && s1.globalWait == s.globalWait && s1.line == s.line
    ensures s1.reqs == s.reqs && s1.pending == s.pending && s1.flying == s.flying
  {
    hide Inv, T.Do;
    WakeTimers(s, id, now);
  }

  lemma {:induction false} JoinedSame(s: State, s1: State, queue: seq<ReqId>, c: BucketId)
    requires s1.reqs == s.reqs && s1.routes == s.routes && s1.nullB == s.nullB
    ensures Front(s1, queue, c) == Front(s, queue, c) && Behind(s1, queue, c) == Behind(s, queue, c)
  {
    FrontBehindSame(s, s1, queue, c);
  }

  /** A bucket that is woken can send: if there is a request for it, queued or pending, the pass that
      follows sends the first one. */
  lemma WakeSends(s: State, id: T.TimerId, now: nat, s1: State, b: BucketId, arms: map<BucketId, Arming>)
    requires Moves(s, Wake(id, now), s1) && id in s.timers.q && b == s.timers.q[id].timer.data
    requires b in s.buckets && Joined(s, b) != [] && Inv(s1) && Startable(s1, arms)
    ensures Joined(s, b)[0] !in s.flying && Flies(StartCall(s1, arms), b, Joined(s, b)[0])
  {
    hide Inv, Startable, StartCall, Moves, Flies;
    WakeFrees(s, id, now, s1, b);
    JoinedSame(s, s1, s.pending, b);
    assert Joined(s1, b) == Joined(s, b);
    hide Joined;
    SendsIff(s1, arms, b, Joined(s, b)[0]);
  }

  // ----------------------------------------------------------------- in order of their begin

  /** The request that a begin queues. */
  function BegunReq(s: State, step: Step): ReqId
    requires step.Begin?
  {
    if s.recycling == [] then step.id else s.recycling[0]
  }

  /** The request waits, with the key and the priority it was begun with, to be filed. */
  ghost predicate Waiting(s: State, r: ReqId, key: Key, high: bool) {
    r in s.pending && r in s.reqs && s.reqs[r].key == key && s.reqs[r].high == high
  }

  /** A begin queues one request, last. */
  lemma BeginIsLast(s: State, step: Step, s1: State)
    requires Moves(s, step, s1) && step.Begin?
    ensures var r := BegunReq(s, step);
            && r !in s.pending && s1.pending == s.pending + [r]
            && Waiting(s1, r, step.key, step.high) && s1.reqs[r].sync == step.sync
            && s1.recycling == if s.recycling == [] then [] else s.recycling[1..]
    ensures forall q :: q in s.reqs && q != BegunReq(s, step) ==> q in s1.reqs && s1.reqs[q] == s.reqs[q]
  {
    var r := BegunReq(s, step);
    assert s.recycling != [] ==> In(s, Recycling, r);
    assert !In(s, Pending, r);
    assert r !in s.pending;
    hide Inv;
    assert s1 == BeginCall(s, step.id, step.key, step.sync, step.high);
    hide Do;
  }

  lemma {:induction false} FilterPending(s: State, b: BucketId, key: Key)
    requires Sane(s) && b in s.buckets
    ensures FilterAll(s, b, key).pending == s.pending
    decreases |s.hand|
  {
    if s.hand != [] {
      var to := if s.reqs[s.hand[0]].key != key then s.nullB else b;
      FileTail(s, to);
      FilterUnfold(s, b, key);
      var s1 := Insert(Pop(s), to, s.hand[0], false);
      assert s1.pending == s.pending;
      hide Insert, FilterAll, Sane, Spared, SameKeys;
      FilterPending(s1, to, key);
    }
  }

  lemma DigestPending(s: State, r: ReqId, b: BucketId, result: Result, times: Times, newB: BucketId, q: ReqId)
    requires Sane(s) && s.hand == [] && newB !in s.buckets && Landed(s, r, b)
    requires forall i :: 0 <= i < |s.buckets[s.nullB].next| ==> s.buckets[s.nullB].next[i] in s.reqs
    requires q in s.reqs && q !in s.buckets[s.nullB].next
    ensures var s1 := Digest(s, r, result, times, newB);
            s1.pending == s.pending && q in s1.reqs && s1.reqs[q] == s.reqs[q]
  {
    if result.Response? && b == s.nullB {
      var s0 := Noted(s, b, result, times);
      NotedSane(s, b, result, times);
      var key := s.reqs[r].key;
      var s1 := AddBucket(s0, key, result.headers, newB);
      AddedSane(s0, key, result.headers, newB);
      hide Sane, Spared, FilterAll;
      FilterPending(TakeNull(s1), MatchOf(s0, key, result.headers, newB), key);
    }
  }

  lemma PendingElsewhere(s: State, q: ReqId)
    requires Inv(s) && q in s.pending
    ensures q in s.reqs && q !in s.flying && (s.nullB in s.buckets ==> q !in s.buckets[s.nullB].next)
  {
    assert In(s, Pending, q) && !In(s, Next(s.nullB), q) && !In(s, InFlight, q);
  }

  lemma SettlePending(s: State, r: ReqId, result: Result, q: ReqId)
    requires r in s.reqs && s.reqs[r].bucket.Some? && s.reqs[r].bucket.value in s.buckets
    requires Settle(s, r, result).Ok? && q in s.reqs && q != r
    ensures var s1 := Settle(s, r, result).s;
            s1.pending == s.pending && q in s1.reqs && s1.reqs[q] == s.reqs[q]
  {
  }

  lemma CompletePending(s: State, r: ReqId, result: Result, times: Times, newB: BucketId, q: ReqId)
    requires Inv(s) && r in s.flying && newB !in s.buckets && q in s.pending
    requires CompleteCall(s, r, result, times, newB).Ok?
    ensures var s1 := CompleteCall(s, r, result, times, newB).s;
            s1.pending == s.pending && q in s.reqs && q in s1.reqs && s1.reqs[q] == s.reqs[q]
  {
    hide Within, Inv, Digest, Spared, Settle;
    PendingElsewhere(s, q);
    LandKeeps(s, r);
    DigestedState(s, r, result, times, newB);
    DigestPending(Land(s, r), r, s.reqs[r].bucket.value, result, times, newB, q);
    SettlePending(Digest(Land(s, r), r, result, times, newB), r, result, q);
  }

  /** A step that does not file leaves the pending requests where they are, in front. */
  lemma PendingStays(s: State, step: Step, s1: State, q: ReqId)
    requires Moves(s, step, s1) && !step.StartPending? && q in s.pending
    ensures s1.pending == s.pending + if step.Begin? then [BegunReq(s, step)] else []
    ensures q in s.reqs && q in s1.reqs && s1.reqs[q] == s.reqs[q]
  {
    hide Inv, Do;
    match step
    case Begin(_, _, _, _) =>
      BeginIsLast(s, step, s1);
      PendingIsNotBegun(s, step, q);
    case Complete(r, result, times, newB) =>
      CompleteIs(s, step, s1);
      CompletePending(s, r, result, times, newB, q);
    case Wake(id, now) =>
      PendingElsewhere(s, q);
      WakeFrees(s, id, now, s1, s.timers.q[id].timer.data);
    case Dispatch => ReturnPending(s, step, s1, q);
    case SyncReturn(_) => ReturnPending(s, step, s1, q);
  }

  lemma CompleteIs(s: State, step: Step, s1: State)
    requires Moves(s, step, s1) && step.Complete?
    ensures CompleteCall(s, step.r, step.result, step.times, step.newBucket) == Ok(s1)
  {
    hide Inv, CompleteCall;
  }

  lemma ReturnPending(s: State, step: Step, s1: State, q: ReqId)
    requires Moves(s, step, s1) && (step.Dispatch? || step.SyncReturn?) && q in s.pending
    ensures s1.pending == s.pending && q in s.reqs && q in s1.reqs && s1.reqs[q] == s.reqs[q]
  {
    assert In(s, Pending, q) && !In(s, Finished, q) && !In(s, SyncDone, q);
    var r := if step.Dispatch? then s.finished[0] else step.r;
    assert In(s, if step.Dispatch? then Finished else SyncDone, r);
    hide Inv;
  }

  lemma PendingIsNotBegun(s: State, step: Step, q: ReqId)
    requires Inv(s) && step.Begin? && Enabled(s, step) && q in s.pending
    ensures q in s.reqs && q != BegunReq(s, step)
  {
    assert In(s, Pending, q);
    assert s.recycling != [] ==> In(s, Recycling, s.recycling[0]);
  }

  lemma {:induction false} BehindIn(s: State, queue: seq<ReqId>, c: BucketId, y: ReqId, key: Key)
    requires y in queue && y in s.reqs && s.reqs[y].key == key && !s.reqs[y].high && BucketOf(s, key) == c
    requires forall r :: r in queue ==> r in s.reqs
    ensures y in Behind(s, queue, c)
  {
    if queue[0] != y {
      assert queue == [queue[0]] + queue[1..];
      BehindIn(s, queue[1..], c, y, key);
    }
  }

  /** Filing keeps the order of normal requests of one route. */
  lemma {:induction false} BehindInOrder(s: State, queue: seq<ReqId>, c: BucketId, x: ReqId, y: ReqId, key: Key)
    requires Precedes(queue, x, y) && x in s.reqs && y in s.reqs && BucketOf(s, key) == c
    requires s.reqs[x].key == key && !s.reqs[x].high && s.reqs[y].key == key && !s.reqs[y].high
    requires forall r :: r in queue ==> r in s.reqs
    ensures Precedes(Behind(s, queue, c), x, y)
  {
    var i, j :| 0 <= i < j < |queue| && queue[i] == x && queue[j] == y;
    var rest := queue[1..];
    assert queue == [queue[0]] + rest;
    if i == 0 {
      assert rest[j - 1] == y;
      BehindIn(s, rest, c, y, key);
      hide Precedes;
      PrecedesAcross([x], Behind(s, rest, c), x, y);
    } else {
      assert rest[i - 1] == x && rest[j - 1] == y;
      BehindInOrder(s, rest, c, x, y, key);
      var first := if BucketOf(s, s.reqs[queue[0]].key) == c && !s.reqs[queue[0]].high then [queue[0]] else [];
      hide Precedes;
      PrecedesWithin(first, Behind(s, rest, c), [], x, y);
      assert first + Behind(s, rest, c) + [] == Behind(s, queue, c);
    }
  }

  lemma PendingKnown(s: State)
    requires Inv(s)
    ensures forall r :: r in s.pending ==> r in s.reqs
    ensures NoDup(s.pending)
  {
    forall r | r in s.pending
      ensures r in s.reqs
    {
      assert In(s, Pending, r);
    }
  }

  /** Both requests wait as they were begun, `x` before `y`. */
  ghost predicate WaitingInOrder(s: State, x: ReqId, first: Step, y: ReqId, second: Step)
    requires first.Begin? && second.Begin?
  {
    && Precedes(s.pending, x, y)
    && Waiting(s, x, first.key, first.high) && Waiting(s, y, second.key, second.high)
  }

  /** While nothing is filed, requests that wait in some order go on to do so. */
  lemma {:induction false} WaitOn(states: seq<State>, steps: seq<Step>, j: nat, m: nat,
                                  x: ReqId, first: Step, y: ReqId, second: Step)
    requires IsRun(states, steps) && j <= m <= |steps| && first.Begin? && second.Begin?
    requires forall k :: j <= k < m ==> !steps[k].StartPending?
    requires WaitingInOrder(states[j], x, first, y, second)
    ensures WaitingInOrder(states[m], x, first, y, second)
    decreases m
  {
    hide Inv, Moves, WaitingInOrder, IsRun;
    if j < m {
      WaitOn(states, steps, j, m - 1, x, first, y, second);
      StepAt(states, steps, m - 1);
      StayInOrder(states[m - 1], steps[m - 1], states[m], x, first, y, second);
    }
  }

  /** Between two begins and the next start_pending: both wait, in the order in which they were begun. */
  lemma WaitInOrder(states: seq<State>, steps: seq<Step>, i: nat, j: nat, m: nat)
    requires IsRun(states, steps) && i < j < m <= |steps| && steps[i].Begin? && steps[j].Begin?
    requires forall k :: i < k < m ==> !steps[k].StartPending?
    ensures WaitingInOrder(states[m], BegunReq(states[i], steps[i]), steps[i], BegunReq(states[j], steps[j]), steps[j])
  {
    var x, y := BegunReq(states[i], steps[i]), BegunReq(states[j], steps[j]);
    hide Inv, Moves, WaitingInOrder, Waiting, IsRun, BegunReq;
    StepAt(states, steps, j);
    WaitOne(states, steps, i, j);
    BegunBehind(states[j], steps[j], states[j + 1], x, steps[i]);
    WaitOn(states, steps, j + 1, m, x, steps[i], y, steps[j]);
  }

  lemma StepAt(states: seq<State>, steps: seq<Step>, k: nat)
    requires IsRun(states, steps) && k < |steps|
    ensures |states| == |steps| + 1 && Moves(states[k], steps[k], states[k + 1])
  {
    hide Inv, Moves;
  }

  lemma BegunBehind(s: State, step: Step, s1: State, x: ReqId, first: Step)
    requires Moves(s, step, s1) && step.Begin? && first.Begin? && Waiting(s, x, first.key, first.high)
    ensures WaitingInOrder(s1, x, first, BegunReq(s, step), step)
  {
    hide Inv, Moves, Precedes;
    BeginIsLast(s, step, s1);
    PendingStays(s, step, s1, x);
    PrecedesAcross(s.pending, [BegunReq(s, step)], x, BegunReq(s, step));
  }

  lemma StayInOrder(s: State, step: Step, s1: State, x: ReqId, first: Step, y: ReqId, second: Step)
    requires Moves(s, step, s1) && !step.StartPending? && first.Begin? && second.Begin?
    requires WaitingInOrder(s, x, first, y, second)
    ensures WaitingInOrder(s1, x, first, y, second)
  {
    hide Inv, Moves, Precedes, Waiting;
    StaysWaiting(s, step, s1, x, first.key, first.high);
    StaysWaiting(s, step, s1, y, second.key, second.high);
  }

  lemma StaysWaiting(s: State, step: Step, s1: State, x: ReqId, key: Key, high: bool)
    requires Moves(s, step, s1) && !step.StartPending? && Waiting(s, x, key, high)
    ensures Waiting(s1, x, key, high)
    ensures forall y :: Precedes(s.pending, x, y) ==> Precedes(s1.pending, x, y)
  {
    hide Inv, Moves, Precedes;
    PendingStays(s, step, s1, x);
    var more := if step.Begin? then [BegunReq(s, step)] else [];
    assert [] + s.pending + more == s1.pending;
    forall y | Precedes(s.pending, x, y)
      ensures Precedes(s1.pending, x, y)
    {
      PrecedesWithin([], s.pending, more, x, y);
    }
  }

  lemma {:induction false} WaitOne(states: seq<State>, steps: seq<Step>, i: nat, m: nat)
    requires IsRun(states, steps) && i < m <= |steps| && steps[i].Begin?
    requires forall k :: i < k < m ==> !steps[k].StartPending?
    ensures Waiting(states[m], BegunReq(states[i], steps[i]), steps[i].key, steps[i].high)
    decreases m
  {
    hide Inv, Moves, Waiting, IsRun;
    StepAt(states, steps, m - 1);
    if i + 1 < m {
      WaitOne(states, steps, i, m - 1);
      StaysWaiting(states[m - 1], steps[m - 1], states[m], BegunReq(states[i], steps[i]), steps[i].key, steps[i].high);
    } else {
      BeginIsLast(states[i], steps[i], states[m]);
    }
  }

  /** In the order of their begin: of two normal requests of one route, begun one after the other and filed
      by the same start_pending, the second stays behind the first in their bucket's queue, and is not
      sent, as long as the first one waits there. */
  lemma BegunInOrder(states: seq<State>, steps: seq<Step>, i: nat, j: nat, m: nat, n: nat, c: BucketId)
    requires IsRun(states, steps) && i < j < m < n <= |steps| && steps[i].Begin? && steps[j].Begin?
    requires steps[i].key == steps[j].key && !steps[i].high && !steps[j].high
    requires steps[m].StartPending? && forall k :: i < k < m ==> !steps[k].StartPending?
    requires c == BucketOf(states[m], steps[i].key)
    requires forall k :: m < k <= n ==>
               c in states[k].buckets && BegunReq(states[i], steps[i]) in states[k].buckets[c].next
    ensures var x, y := BegunReq(states[i], steps[i]), BegunReq(states[j], steps[j]);
            Precedes(states[n].buckets[c].next, x, y) && y !in states[n].flying
  {
    var x, y := BegunReq(states[i], steps[i]), BegunReq(states[j], steps[j]);
    var s := states[m];
    hide Inv, Moves, Precedes;
    RunKeeps(states, steps, m);
    WaitInOrder(states, steps, i, j, m);
    assert Moves(s, steps[m], states[m + 1]);
    FiledInOrder(s, steps[m], states[m + 1], c, x, y, steps[i].key);
    OrderStands(states, steps, m + 1, n, c, x, y);
  }

  lemma FiledInOrder(s: State, step: Step, s1: State, c: BucketId, x: ReqId, y: ReqId, key: Key)
    requires Moves(s, step, s1) && step.StartPending? && Precedes(s.pending, x, y) && BucketOf(s, key) == c
    requires Waiting(s, x, key, false) && Waiting(s, y, key, false) && c in s1.buckets && x in s1.buckets[c].next
    ensures Precedes(s1.buckets[c].next, x, y)
  {
    PendingKnown(s);
    RoutesLead(s, key);
    QueueStep(s, step, s1, c);
    hide Inv, Moves, Precedes, NoDup, Startable, Do;
    BehindInOrder(s, s.pending, c, x, y, key);
    StartTakesHead(s, step.arms, c);
    hide QueueAfter;
    PrecedesWithin(Front(s, s.pending, c) + s.buckets[c].next, Behind(s, s.pending, c), [], x, y);
    assert Front(s, s.pending, c) + s.buckets[c].next + Behind(s, s.pending, c) + [] == Joined(s, c);
    JoinedOnce(s, c);
    if s1.buckets[c].next != Joined(s, c) {
      PrecedesInRest(Joined(s, c), 1, x, y);
    }
  }

  lemma RoutesLead(s: State, key: Key)
    requires Inv(s)
    ensures BucketOf(s, key) in s.buckets
  {
  }
}
