/** The invariant of the REST client, and what each of its operations keeps of it. */
module RestInvariant {
  import opened Wrappers
  import opened RestModel
  import T = TimerQueue
  import L = TimerLaws

  // -------------------------------------------------------------- the invariant

  /** Request `r` is held by the container `p`. */
  ghost predicate In(s: State, p: Place, r: ReqId) {
    match p
    case Recycling => r in s.recycling
    case Pending => r in s.pending
    case Next(b) => b in s.buckets && r in s.buckets[b].next
    case InFlight => r in s.flying
    case Finished => r in s.finished
    case SyncDone => r in s.syncDone
    case Hand => r in s.hand
    case Current => s.current == Some(r)
  }

  ghost predicate NoDup<V>(q: seq<V>) {
    forall i, j :: 0 <= i < j < |q| ==> q[i] != q[j]
  }

  /** A container holds a request exactly when the request's history says so. */
  ghost predicate Placed(s: State) {
    forall p, r :: In(s, p, r) <==> r in s.reqs && s.reqs[r].place == p
  }

  ghost predicate Queues(s: State) {
    && NoDup(s.recycling) && NoDup(s.pending) && NoDup(s.finished) && NoDup(s.hand)
    && forall b :: b in s.buckets ==> NoDup(s.buckets[b].next)
  }

  /** The bucket `b` may have the landed request `r` as its busy one, or none. */
  ghost predicate Releasing(s: State, b: BucketId, r: ReqId) {
    b in s.buckets && (s.buckets[b].busy == Idle || s.buckets[b].busy == Holding(r))
  }

  /** What is known of a request by where it is. */
  ghost predicate ReqOk(s: State, r: ReqId)
    requires r in s.reqs
  {
    var q := s.reqs[r];
    match q.place
    case Recycling => q.bucket == None && q.attempts == 0
    case Pending => q.bucket == None && q.attempts == 0 && q.sends == 0
    case Hand => q.sends == q.attempts <= s.retryLimit
    case Next(b) => q.bucket == Some(b) && q.sends == q.attempts <= s.retryLimit
    case InFlight =>
      && q.bucket.Some? && q.bucket.value in s.buckets && s.buckets[q.bucket.value].busy == Holding(r)
      && q.sends == q.attempts + 1 <= s.retryLimit + 1
    case Current =>
      q.bucket.Some? && Releasing(s, q.bucket.value, r) && q.sends == q.attempts + 1 <= s.retryLimit + 1
    case Finished => !q.sync && q.bucket == None && 1 <= q.sends <= s.retryLimit + 1
    case SyncDone => q.sync && q.bucket == None && 1 <= q.sends <= s.retryLimit + 1
  }

  ghost predicate Requests(s: State) {
    forall r :: r in s.reqs ==> ReqOk(s, r)
  }

  /** A bucket's busy request is one of its own: in the air, landed, or waiting to be retried. */
  ghost predicate BusyOk(s: State, b: BucketId)
    requires b in s.buckets
  {
    s.buckets[b].busy.Holding? ==>
      var r := s.buckets[b].busy.req;
      r in s.reqs && s.reqs[r].bucket == Some(b)
      && (s.reqs[r].place == InFlight || s.reqs[r].place == Current || s.reqs[r].place == Next(b))
  }

  ghost predicate OnLine(s: State, b: BucketId) {
    b in s.line || b in s.todo
  }

  /** A bucket is on the pending list exactly when its queue has a request; those in `loose` may
      still be on it with an empty queue. */
  ghost predicate Lined(s: State, loose: set<BucketId>) {
    && NoDup(s.line) && NoDup(s.todo)
    && (forall b :: b in s.line ==> b in s.buckets && b !in s.todo)
    && (forall b :: b in s.todo ==> b in s.buckets)
    && (forall b :: b in s.buckets && s.buckets[b].next != [] ==> OnLine(s, b))
    && (forall b :: b in s.buckets && OnLine(s, b) && b !in loose ==> s.buckets[b].next != [])
  }

  ghost predicate Buckets(s: State) {
    && s.nullB in s.buckets && s.missB in s.buckets && s.nullB != s.missB
    && (forall k :: k in s.routes ==> s.routes[k] in s.buckets)
    && forall b :: b in s.buckets ==> BusyOk(s, b)
  }

  /** The armed wake timer of bucket `b`, which will not run before `until` ms. */
  ghost predicate WakeEntry(e: T.Entry, b: BucketId, until: nat) {
    && e.timer.data == b && e.timer.onTick == WAKE && e.timer.onStatus == T.NULL
    && L.SelfDeleting(e) && e.timer.repeat == 0
    && e.key >= 1000 * until
  }

  ghost predicate WaitOk(s: State, b: BucketId)
    requires b in s.waits
  {
    && b in s.buckets && s.buckets[b].busy == Timeout
    && s.waits[b].id in s.timers.q
    && WakeEntry(s.timers.q[s.waits[b].id], b, s.waits[b].until)
  }

  /** The timers of the REST thread are the wake timers of the timed out buckets, one each. */
  ghost predicate Waits(s: State) {
    && L.Settled(s.timers)
    && (forall b :: b in s.waits ==> WaitOk(s, b))
    && (forall b :: b in s.buckets && s.buckets[b].busy == Timeout ==> b in s.waits)
    && (forall id :: id in s.timers.q ==>
          s.timers.q[id].timer.data in s.waits && s.waits[s.timers.q[id].timer.data].id == id)
  }

  /** The invariant inside an operation. */
  ghost predicate Within(s: State, loose: set<BucketId>) {
    Placed(s) && Queues(s) && Requests(s) && Buckets(s) && Lined(s, loose) && Waits(s)
  }

  ghost predicate AtRest(s: State) {
    s.hand == [] && s.todo == [] && s.current == None
  }

  /** The invariant of every reachable state. */
  ghost predicate Inv(s: State) {
    Within(s, {}) && AtRest(s)
  }

  /** Waits depend on timers, and on which buckets are timed out. */
  lemma FrameWaits(s: State, s1: State)
    requires Waits(s) && s1.timers == s.timers && s1.waits == s.waits
    requires forall c :: c in s.buckets && s.buckets[c].busy == Timeout ==>
               c in s1.buckets && s1.buckets[c].busy == Timeout
    requires forall c :: c in s1.buckets && s1.buckets[c].busy == Timeout ==>
               c in s.buckets && s.buckets[c].busy == Timeout
    ensures Waits(s1)
  {
    forall c | c in s1.waits
      ensures WaitOk(s1, c)
    {
      assert WaitOk(s, c);
    }
  }

  /** Requests, busy requests and waits do not depend on queues, limits and headers. */
  lemma FrameRest(s: State, s1: State)
    requires Requests(s) && Buckets(s) && Waits(s)
    requires s1.reqs == s.reqs && s1.retryLimit == s.retryLimit && s1.nullB == s.nullB && s1.missB == s.missB
    requires s1.timers == s.timers && s1.waits == s.waits && s.buckets.Keys <= s1.buckets.Keys
    requires forall k :: k in s1.routes ==> s1.routes[k] in s1.buckets
    requires forall c :: c in s1.buckets ==>
               if c in s.buckets then s1.buckets[c].busy == s.buckets[c].busy else s1.buckets[c].busy == Idle
    ensures Requests(s1) && Buckets(s1) && Waits(s1)
  {
    forall q | q in s1.reqs
      ensures ReqOk(s1, q)
    {
      assert ReqOk(s, q);
    }
    forall c | c in s1.buckets
      ensures BusyOk(s1, c)
    {
      assert c in s.buckets ==> BusyOk(s, c);
    }
    FrameWaits(s, s1);
  }

  /** Containers that did not change hold what they held. */
  lemma FramePlaced(s: State, s1: State)
    requires Placed(s) && Queues(s) && s1.reqs == s.reqs
    requires s1.recycling == s.recycling && s1.pending == s.pending && s1.finished == s.finished
    requires s1.flying == s.flying && s1.syncDone == s.syncDone && s1.hand == s.hand && s1.current == s.current
    requires s.buckets.Keys <= s1.buckets.Keys
    requires forall c :: c in s1.buckets ==>
               if c in s.buckets then s1.buckets[c].next == s.buckets[c].next else s1.buckets[c].next == []
    ensures Placed(s1) && Queues(s1)
  {
    forall p, q
      ensures In(s1, p, q) <==> q in s1.reqs && s1.reqs[q].place == p
    {
      assert In(s, p, q) <==> q in s.reqs && s.reqs[q].place == p;
    }
  }

  /** The pending list is right as long as no queue changes. */
  lemma FrameLined(s: State, s1: State, loose: set<BucketId>)
    requires Lined(s, loose) && s1.line == s.line && s1.todo == s.todo && s.buckets.Keys <= s1.buckets.Keys
    requires forall c :: c in s1.buckets ==>
               if c in s.buckets then s1.buckets[c].next == s.buckets[c].next else s1.buckets[c].next == []
    ensures Lined(s1, loose)
  {
    assert forall c :: OnLine(s1, c) <==> OnLine(s, c);
    assert forall c :: OnLine(s, c) ==> c in s.buckets;
  }

  // ------------------------------------------------------------------- inserting

  /** The state without the head of the local queue. */
  function Pop(s: State): State
    requires s.hand != []
  {
    s.(hand := s.hand[1..])
  }

  lemma InsertPlaced(s: State, b: BucketId, high: bool)
    requires Placed(s) && Queues(s) && s.hand != [] && b in s.buckets
    requires s.hand[0] in s.reqs
    ensures Placed(Insert(Pop(s), b, s.hand[0], high))
    ensures Queues(Insert(Pop(s), b, s.hand[0], high))
  {
    var r := s.hand[0];
    var s1 := Insert(Pop(s), b, r, high);
    assert In(s, Hand, r);
    assert s.hand == [r] + s.hand[1..];
    forall p, q
      ensures In(s1, p, q) <==> q in s1.reqs && s1.reqs[q].place == p
    {
      assert In(s, p, q) <==> q in s.reqs && s.reqs[q].place == p;
      assert p.Hand? ==> (q in s.hand[1..] <==> q in s.hand && q != r);
    }
    assert !In(s, Next(b), r);
  }

  lemma InsertLined(s: State, b: BucketId, r: ReqId, high: bool, loose: set<BucketId>)
    requires Lined(s, loose) && s.todo == [] && b in s.buckets && r in s.reqs
    ensures Lined(Insert(s, b, r, high), loose)
    ensures Lined(Insert(s, b, r, high), loose - {b})
  {
    var s1 := Insert(s, b, r, high);
    forall c | c in s1.buckets
      ensures OnLine(s1, c) <==> OnLine(s, c) || c == b
    {
    }
  }

  lemma InsertRest(s: State, b: BucketId, r: ReqId, high: bool)
    requires Requests(s) && Buckets(s) && Waits(s) && b in s.buckets && r in s.reqs
    requires s.reqs[r].place == Hand || s.reqs[r].place == Current
    requires s.reqs[r].sends == s.reqs[r].attempts <= s.retryLimit
    requires s.reqs[r].bucket == Some(b) || forall c :: c in s.buckets ==> s.buckets[c].busy != Holding(r)
    ensures Requests(Insert(s, b, r, high)) && Buckets(Insert(s, b, r, high)) && Waits(Insert(s, b, r, high))
  {
    hide Waits, In;
    var s1 := Insert(s, b, r, high);
    forall q | q in s1.reqs
      ensures ReqOk(s1, q)
    {
      assert ReqOk(s, q);
    }
    forall c | c in s1.buckets
      ensures BusyOk(s1, c)
    {
      assert BusyOk(s, c);
    }
    FrameWaits(s, s1);
  }

  /** Filing the head of the local queue keeps the invariant, and tightens it for its bucket. */
  lemma InsertKeeps(s: State, b: BucketId, high: bool, loose: set<BucketId>)
    requires Within(s, loose) && s.hand != [] && s.todo == [] && b in s.buckets
    ensures s.hand[0] in s.reqs
    ensures Within(Insert(Pop(s), b, s.hand[0], high), loose)
  {
    var r := s.hand[0];
    assert In(s, Hand, r);
    assert ReqOk(s, r);
    forall c | c in s.buckets
      ensures s.buckets[c].busy != Holding(r)
    {
      assert BusyOk(s, c);
    }
    hide Placed, Queues, Lined, Requests, Waits, ReqOk;
    InsertPlaced(s, b, high);
    assert Lined(Pop(s), loose) by {
      FrameLined(s, Pop(s), loose);
    }
    InsertLined(Pop(s), b, r, high, loose);
    FrameRest(s, Pop(s));
    InsertRest(Pop(s), b, r, high);
  }

  lemma SaneWithin(s: State, loose: set<BucketId>)
    requires Within(s, loose)
    ensures Sane(s)
    ensures forall b, i :: b in s.buckets && 0 <= i < |s.buckets[b].next| ==> s.buckets[b].next[i] in s.reqs
  {
    forall i | 0 <= i < |s.hand|
      ensures s.hand[i] in s.reqs
    {
      assert In(s, Hand, s.hand[i]);
    }
    forall b, i | b in s.buckets && 0 <= i < |s.buckets[b].next|
      ensures s.buckets[b].next[i] in s.reqs
    {
      assert In(s, Next(b), s.buckets[b].next[i]);
    }
  }

  lemma {:induction false} FileAllKeeps(s: State)
    requires Within(s, {}) && s.todo == [] && s.current == None
    ensures Sane(s)
    ensures Within(FileAll(s), {}) && AtRest(FileAll(s))
    decreases |s.hand|
  {
    SaneWithin(s, {});
    if s.hand != [] {
      var r := s.hand[0];
      var b := BucketOf(s, s.reqs[r].key);
      InsertKeeps(s, b, s.reqs[r].high, {});
      FileAllKeeps(Insert(Pop(s), b, r, s.reqs[r].high));
    }
  }

  lemma {:induction false} FilterAllKeeps(s: State, b: BucketId, key: Key, loose: set<BucketId>)
    requires Within(s, loose) && s.todo == [] && b in s.buckets
    ensures Sane(s)
    ensures Within(FilterAll(s, b, key), loose)
    decreases |s.hand|
  {
    SaneWithin(s, loose);
    if s.hand != [] {
      var r := s.hand[0];
      var to := if s.reqs[r].key != key then s.nullB else b;
      InsertKeeps(s, to, false, loose);
      FilterAllKeeps(Insert(Pop(s), to, r, false), to, key, loose);
    }
  }

  // ------------------------------------------------------------- moving whole queues

  lemma TakePendingPlaced(s: State)
    requires Inv(s)
    ensures Placed(TakePending(s)) && Queues(TakePending(s))
  {
    var s1 := TakePending(s);
    forall p, q
      ensures In(s1, p, q) <==> q in s1.reqs && s1.reqs[q].place == p
    {
      assert In(s, p, q) <==> q in s.reqs && s.reqs[q].place == p;
      assert In(s, Pending, q) <==> q in s.reqs && s.reqs[q].place == Pending;
    }
  }

  lemma TakePendingRest(s: State)
    requires Inv(s)
    ensures Requests(TakePending(s)) && Buckets(TakePending(s)) && Waits(TakePending(s))
  {
    hide Waits, Lined, Queues;
    var s1 := TakePending(s);
    forall q | q in s1.reqs
      ensures ReqOk(s1, q)
    {
      assert ReqOk(s, q);
      assert In(s, Pending, q) <==> s.reqs[q].place == Pending;
    }
    forall c | c in s1.buckets
      ensures BusyOk(s1, c)
    {
      assert BusyOk(s, c);
      assert s.buckets[c].busy.Holding? ==> !In(s, Pending, s.buckets[c].busy.req);
    }
    FrameWaits(s, s1);
  }

  lemma TakePendingKeeps(s: State)
    requires Inv(s)
    ensures Within(TakePending(s), {}) && TakePending(s).todo == [] && TakePending(s).current == None
  {
    TakePendingPlaced(s);
    TakePendingRest(s);
    hide Placed, Queues, Requests, Buckets, Waits;
    FrameLined(s, TakePending(s), {});
  }

  /** No request of the null bucket waits for a retry that cannot come. */
  ghost predicate NullFree(s: State)
    requires s.nullB in s.buckets
  {
    s.buckets[s.nullB].busy.Holding? ==> s.current == Some(s.buckets[s.nullB].busy.req)
  }

  lemma TakeNullPlaced(s: State)
    requires Placed(s) && Queues(s) && s.nullB in s.buckets && s.hand == []
    ensures Placed(TakeNull(s)) && Queues(TakeNull(s))
  {
    var s1 := TakeNull(s);
    forall p, q
      ensures In(s1, p, q) <==> q in s1.reqs && s1.reqs[q].place == p
    {
      assert In(s, p, q) <==> q in s.reqs && s.reqs[q].place == p;
      assert In(s, Next(s.nullB), q) <==> q in s.reqs && s.reqs[q].place == Next(s.nullB);
    }
  }

  lemma TakeNullBuckets(s: State)
    requires Placed(s) && Buckets(s) && NullFree(s)
    ensures Buckets(TakeNull(s))
  {
    var s1 := TakeNull(s);
    var b := s.nullB;
    forall c | c in s1.buckets
      ensures BusyOk(s1, c)
    {
      assert BusyOk(s, c);
      if s.buckets[c].busy.Holding? {
        var h := s.buckets[c].busy.req;
        assert In(s, Next(b), h) <==> s.reqs[h].place == Next(b);
        assert c == b ==> In(s, Current, h);
      }
    }
  }

  lemma TakeNullRequests(s: State)
    requires Placed(s) && Requests(s) && s.nullB in s.buckets && s.hand == []
    ensures Requests(TakeNull(s))
  {
    var s1 := TakeNull(s);
    var b := s.nullB;
    forall q | q in s1.reqs
      ensures ReqOk(s1, q)
    {
      assert ReqOk(s, q);
      assert In(s, Next(b), q) <==> s.reqs[q].place == Next(b);
    }
  }

  lemma TakeNullRest(s: State, loose: set<BucketId>)
    requires Within(s, loose) && s.hand == [] && NullFree(s)
    ensures Requests(TakeNull(s)) && Buckets(TakeNull(s)) && Waits(TakeNull(s))
  {
    assert s.nullB in s.buckets;
    hide Placed, Requests, Buckets, Lined, Queues, Waits;
    TakeNullRequests(s);
    TakeNullBuckets(s);
    FrameWaits(s, TakeNull(s));
  }

  lemma TakeNullKeeps(s: State, loose: set<BucketId>)
    requires Within(s, loose) && s.hand == [] && NullFree(s)
    ensures Within(TakeNull(s), loose + {s.nullB})
  {
    TakeNullPlaced(s);
    TakeNullRest(s, loose);
    hide Placed, Queues, Requests, Waits;
    forall c
      ensures OnLine(TakeNull(s), c) <==> OnLine(s, c)
    {
    }
  }

  // ------------------------------------------------------------------- selecting

  lemma SendPlaced(s: State, b: BucketId)
    requires Placed(s) && Queues(s) && b in s.buckets
    requires s.buckets[b].next != [] && s.buckets[b].next[0] in s.reqs
    ensures Placed(Send(s, b)) && Queues(Send(s, b))
  {
    var s1 := Send(s, b);
    var r := s.buckets[b].next[0];
    assert s.buckets[b].next == [r] + s.buckets[b].next[1..];
    assert In(s, Next(b), r);
    forall p, q
      ensures In(s1, p, q) <==> q in s1.reqs && s1.reqs[q].place == p
    {
      assert In(s, p, q) <==> q in s.reqs && s.reqs[q].place == p;
      assert p == Next(b) ==> (q in s.buckets[b].next[1..] <==> q in s.buckets[b].next && q != r);
    }
  }

  lemma SendRest(s: State, b: BucketId)
    requires Placed(s) && Requests(s) && Buckets(s) && Waits(s) && b in s.buckets && s.buckets[b].busy == Idle
    requires s.current == None && s.buckets[b].next != [] && s.buckets[b].next[0] in s.reqs
    ensures Requests(Send(s, b)) && Buckets(Send(s, b)) && Waits(Send(s, b))
  {
    hide Waits;
    var s1 := Send(s, b);
    var r := s.buckets[b].next[0];
    assert In(s, Next(b), r);
    assert ReqOk(s, r);
    forall q | q in s1.reqs
      ensures ReqOk(s1, q)
    {
      assert ReqOk(s, q);
      assert !In(s, Current, q);
    }
    forall c | c in s1.buckets
      ensures BusyOk(s1, c)
    {
      assert BusyOk(s, c);
    }
    FrameWaits(s, s1);
  }

  /** The readings an arming uses: the clock does not go back, the timer id is new. */
  ghost predicate ArmingOk(s: State, arm: Arming) {
    arm.seen <= arm.now && arm.id != 0 && arm.id !in s.timers.q
  }

  /** The trigger computed from milliseconds is never before the time waited for. */
  lemma NeverEarly(until: nat, seen: nat, now: nat)
    requires seen <= now
    ensures now + (if until > seen / 1000 then until - seen / 1000 else 0) * 1000 >= 1000 * until
  {
    assert seen / 1000 * 1000 <= seen;
  }

  lemma ArmRest(s: State, b: BucketId, arm: Arming)
    requires Placed(s) && s.current == None
    requires Requests(s) && Buckets(s) && Waits(s) && b in s.buckets && s.buckets[b].busy == Idle && ArmingOk(s, arm)
    ensures Requests(TryTimeout(s, b, arm)) && Buckets(TryTimeout(s, b, arm)) && Waits(TryTimeout(s, b, arm))
  {
    var s1 := TryTimeout(s, b, arm);
    forall q | q in s1.reqs
      ensures ReqOk(s1, q)
    {
      assert ReqOk(s, q);
      assert !In(s, Current, q);
    }
    forall c | c in s1.buckets
      ensures BusyOk(s1, c)
    {
      assert BusyOk(s, c);
    }
    ArmWaits(s, b, arm);
  }

  /** What try_timeout adds to the timers of the REST thread. */
  function WakeEntryOf(s: State, b: BucketId, arm: Arming): T.Entry
    requires b in s.buckets
  {
    var until := Until(s, b);
    var wait := if until > arm.seen / 1000 then until - arm.seen / 1000 else 0;
    T.Entry(arm.now + wait * 1000, WakeTimer(b, wait))
  }

  lemma ArmTimer(s: State, b: BucketId, arm: Arming)
    requires L.Settled(s.timers) && b in s.buckets && ArmingOk(s, arm)
    ensures L.Settled(TryTimeout(s, b, arm).timers)
    ensures TryTimeout(s, b, arm).timers.q == s.timers.q[arm.id := WakeEntryOf(s, b, arm)]
    ensures WakeEntry(WakeEntryOf(s, b, arm), b, Until(s, b))
  {
    var until := Until(s, b);
    var wait := if until > arm.seen / 1000 then until - arm.seen / 1000 else 0;
    L.ApplyKeeps(s.timers, T.Ctl(WakeTimer(b, wait), arm.now, arm.id));
    NeverEarly(until, arm.seen, arm.now);
  }

  lemma ArmWaits(s: State, b: BucketId, arm: Arming)
    requires Waits(s) && b in s.buckets && s.buckets[b].busy == Idle && ArmingOk(s, arm)
    ensures Waits(TryTimeout(s, b, arm))
  {
    var s1 := TryTimeout(s, b, arm);
    ArmTimer(s, b, arm);
    assert b in s.waits ==> WaitOk(s, b);
    forall c | c in s1.waits
      ensures WaitOk(s1, c)
    {
      if c != b {
        assert WaitOk(s, c);
      }
    }
    forall id | id in s1.timers.q
      ensures s1.timers.q[id].timer.data in s1.waits && s1.waits[s1.timers.q[id].timer.data].id == id
    {
      if id != arm.id {
        assert s1.timers.q[id] == s.timers.q[id];
      }
    }
  }

  /** The selector's turn on the head of its local list, as far as the lists are concerned. */
  lemma MoveLined(s: State, s1: State)
    requires Lined(s, {}) && s.todo != [] && s1.todo == s.todo[1..] && s1.buckets.Keys == s.buckets.Keys
    requires s1.line == if s1.buckets[s.todo[0]].next == [] then s.line else s.line + [s.todo[0]]
    requires forall c :: c in s.buckets && c != s.todo[0] ==> s1.buckets[c].next == s.buckets[c].next
    ensures Lined(s1, {})
  {
    var b := s.todo[0];
    assert s.todo == [b] + s.todo[1..];
    assert b in s.todo && b !in s.line && b !in s1.todo;
    forall c
      ensures OnLine(s1, c) <==> if c == b then s1.buckets[b].next != [] else OnLine(s, c)
    {
      assert c != b ==> (c in s1.todo <==> c in s.todo);
    }
  }

  lemma SelectRest(s: State, b: BucketId, arm: Arming)
    requires Placed(s) && Queues(s) && Requests(s) && Buckets(s) && Waits(s) && s.current == None && b in s.buckets
    requires s.buckets[b].next != [] && s.buckets[b].next[0] in s.reqs
    requires VerdictOn(s.buckets[b]).Armed? ==> ArmingOk(s, arm)
    ensures var s1 := SelectOne(s, b, arm);
            Placed(s1) && Queues(s1) && Requests(s1) && Buckets(s1) && Waits(s1)
  {
    hide Waits, Placed, Queues, Requests;
    var s1 := SelectOne(s, b, arm);
    match VerdictOn(s.buckets[b]) {
      case Skipped =>
        FramePlaced(s, s1);
        FrameRest(s, s1);
      case Armed =>
        ArmRest(s, b, arm);
        FramePlaced(s, s1);
        FrameRest(TryTimeout(s, b, arm), s1);
      case Sent =>
        SendPlaced(s, b);
        SendRest(s, b);
        FramePlaced(Send(s, b), s1);
        FrameRest(Send(s, b), s1);
    }
  }

  lemma SelectShape(s: State, b: BucketId, arm: Arming)
    requires b in s.buckets && s.buckets[b].next != [] && s.buckets[b].next[0] in s.reqs
    ensures var s1 := SelectOne(s, b, arm);
            && s1.todo == s.todo && s1.buckets.Keys == s.buckets.Keys
            && s1.hand == s.hand && s1.current == s.current
            && s1.line == (if s1.buckets[b].next == [] then s.line else s.line + [b])
            && forall c :: c in s.buckets && c != b ==> s1.buckets[c] == s.buckets[c]
  {
  }

  /** A turn of the selector keeps the invariant. */
  lemma SelectKeeps(s: State, arm: Arming)
    requires Within(s, {}) && s.current == None && s.todo != []
    requires s.buckets[s.todo[0]].next != [] && s.buckets[s.todo[0]].next[0] in s.reqs
    requires VerdictOn(s.buckets[s.todo[0]]).Armed? ==> ArmingOk(s, arm)
    ensures Within(SelectOne(s.(todo := s.todo[1..]), s.todo[0], arm), {})
  {
    var b := s.todo[0];
    var s0 := s.(todo := s.todo[1..]);
    FramePlaced(s, s0);
    FrameRest(s, s0);
    SelectRest(s0, b, arm);
    SelectShape(s0, b, arm);
    var s1 := SelectOne(s0, b, arm);
    assert Lined(s1, {}) by {
      MoveLined(s, s1);
    }
  }

  /** The readings the selector will use for the exhausted buckets on its local list. */
  ghost predicate ArmingsOk(s: State, arms: map<BucketId, Arming>) {
    && (forall b :: b in s.todo && b in s.buckets && VerdictOn(s.buckets[b]).Armed? ==> ArmingOk(s, ArmingOf(arms, b)))
    && (forall b, c :: b in s.todo && c in s.todo && b in arms && c in arms && b != c ==> arms[b].id != arms[c].id)
  }

  lemma SelectableWithin(s: State)
    requires Within(s, {})
    ensures Selectable(s)
  {
    SaneWithin(s, {});
    forall i | 0 <= i < |s.todo|
      ensures s.todo[i] in s.buckets && s.buckets[s.todo[i]].next != [] && s.buckets[s.todo[i]].next[0] in s.reqs
    {
      assert s.todo[i] in s.todo;
      assert OnLine(s, s.todo[i]);
    }
  }

  lemma SelectTimerKeys(s: State, b: BucketId, arm: Arming)
    requires b in s.buckets && s.buckets[b].next != [] && s.buckets[b].next[0] in s.reqs
    ensures SelectOne(s, b, arm).timers.q.Keys
         <= s.timers.q.Keys + (if VerdictOn(s.buckets[b]).Armed? then {arm.id} else {})
  {
  }

  lemma ArmingStays(s: State, s1: State, arm: Arming, other: Arming, armed: bool)
    requires ArmingOk(s, other) && (armed ==> arm.id != other.id)
    requires s1.timers.q.Keys <= s.timers.q.Keys + (if armed then {arm.id} else {})
    ensures ArmingOk(s1, other)
  {
    assert other.id !in s1.timers.q.Keys;
  }

  lemma ArmingsStay(s: State, s1: State, arms: map<BucketId, Arming>, b: BucketId)
    requires ArmingsOk(s, arms) && b in s.todo && b in s.buckets
    requires forall c :: c in s1.todo ==>
               c in s.todo && c != b && (c in s1.buckets ==> c in s.buckets && s1.buckets[c] == s.buckets[c])
    requires s1.timers.q.Keys
          <= s.timers.q.Keys + (if VerdictOn(s.buckets[b]).Armed? then {ArmingOf(arms, b).id} else {})
    ensures ArmingsOk(s1, arms)
  {
    var armed := VerdictOn(s.buckets[b]).Armed?;
    assert forall c :: ArmingOk(s, ArmingOf(arms, c)) ==> c in arms;
    hide ArmingOk;
    forall c | c in s1.todo && c in s1.buckets && VerdictOn(s1.buckets[c]).Armed?
      ensures ArmingOk(s1, ArmingOf(arms, c))
    {
      assert ArmingOk(s, ArmingOf(arms, c));
      assert armed ==> ArmingOk(s, ArmingOf(arms, b));
      ArmingStays(s, s1, ArmingOf(arms, b), ArmingOf(arms, c), armed);
    }
  }

  lemma TailOf<V>(q: seq<V>, v: V)
    requires q != [] && NoDup(q)
    ensures v in q[1..] <==> v in q && v != q[0]
  {
    assert q == [q[0]] + q[1..];
  }

  /** A turn of the selector leaves the buckets still to come, and their readings, as they were. */
  lemma SelectLeaves(s: State, arms: map<BucketId, Arming>)
    requires Within(s, {}) && s.todo != [] && ArmingsOk(s, arms)
    requires s.buckets[s.todo[0]].next != [] && s.buckets[s.todo[0]].next[0] in s.reqs
    ensures ArmingsOk(SelectOne(s.(todo := s.todo[1..]), s.todo[0], ArmingOf(arms, s.todo[0])), arms)
  {
    var b := s.todo[0];
    var s0 := s.(todo := s.todo[1..]);
    assert NoDup(s.todo) && b in s.buckets;
    hide Within, SelectOne, NoDup, ArmingsOk, VerdictOn, ArmingOf;
    SelectTimerKeys(s0, b, ArmingOf(arms, b));
    SelectShape(s0, b, ArmingOf(arms, b));
    var s1 := SelectOne(s0, b, ArmingOf(arms, b));
    forall c | c in s1.todo
      ensures c in s.todo && c != b
    {
      TailOf(s.todo, c);
    }
    ArmingsStay(s, s1, arms, b);
  }

  lemma {:induction false} SelectAllKeeps(s: State, arms: map<BucketId, Arming>)
    requires Within(s, {}) && s.hand == [] && s.current == None && ArmingsOk(s, arms)
    ensures Selectable(s)
    ensures Inv(SelectAll(s, arms))
    decreases |s.todo|
  {
    SelectableWithin(s);
    if s.todo != [] {
      var b := s.todo[0];
      assert OnLine(s, b);
      SelectKeeps(s, ArmingOf(arms, b));
      SelectShape(s.(todo := s.todo[1..]), b, ArmingOf(arms, b));
      SelectLeaves(s, arms);
      SelectAllKeeps(SelectOne(s.(todo := s.todo[1..]), b, ArmingOf(arms, b)), arms);
    }
  }

  lemma TakeLineKeeps(s: State)
    requires Inv(s)
    ensures Within(TakeLine(s), {})
  {
    var s1 := TakeLine(s);
    FramePlaced(s, s1);
    FrameRest(s, s1);
    forall b
      ensures OnLine(s1, b) <==> OnLine(s, b)
    {
    }
  }
}
