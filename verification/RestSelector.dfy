/** What one pass of the selector does, bucket by bucket, and how queues are split and kept in order. */
module RestSelector {
  import opened RestModel
  import opened RestInvariant

  /** The bucket `b` after a pass over the buckets of the local list. */
  ghost function Passed(s: State, b: BucketId): Bucket
    requires b in s.buckets
    requires b in s.todo && VerdictOn(s.buckets[b]).Sent? ==> s.buckets[b].next != []
  {
    var o := s.buckets[b];
    if b !in s.todo then o
    else
      match VerdictOn(o)
      case Skipped => o
      case Armed => o.(busy := Timeout)
      case Sent => o.(busy := Holding(o.next[0]), next := o.next[1..])
  }

  ghost predicate HasVerdict(s: State, b: BucketId, v: Verdict) {
    b in s.todo && b in s.buckets && VerdictOn(s.buckets[b]) == v
  }

  lemma SelectableAt(s: State, b: BucketId)
    requires Selectable(s) && b in s.todo
    ensures b in s.buckets && s.buckets[b].next != [] && s.buckets[b].next[0] in s.reqs
  {
    var i :| 0 <= i < |s.todo| && s.todo[i] == b;
  }

  lemma SelectableTail(s: State, arm: Arming)
    requires Selectable(s) && s.todo != []
    ensures var s1 := SelectOne(s.(todo := s.todo[1..]), s.todo[0], arm);
            && Selectable(s1) && s1.todo == s.todo[1..] && s.todo[0] !in s1.todo
            && s1.buckets.Keys == s.buckets.Keys && s1.globalWait == s.globalWait
            && (forall c :: c in s.buckets && c != s.todo[0] ==> s1.buckets[c] == s.buckets[c])
            && forall c :: c in s.todo <==> c == s.todo[0] || c in s1.todo
  {
    var b := s.todo[0];
    var s1 := SelectOne(s.(todo := s.todo[1..]), b, arm);
    assert s.todo == [b] + s.todo[1..];
    assert forall i :: 0 <= i < |s1.todo| ==> s1.todo[i] == s.todo[i + 1];
  }

  lemma TurnShape(s: State, b: BucketId, arm: Arming)
    requires b in s.buckets && s.buckets[b].next != [] && s.buckets[b].next[0] in s.reqs
    ensures var o := s.buckets[b];
            var o1 := SelectOne(s, b, arm).buckets[b];
            match VerdictOn(o)
            case Skipped => o1 == o
            case Armed => o1 == o.(busy := Timeout)
            case Sent => o1 == o.(busy := Holding(o.next[0]), next := o.next[1..])
  {
  }

  lemma PassUnfold(s: State, arms: map<BucketId, Arming>)
    requires Selectable(s) && s.todo != []
    ensures var arm := ArmingOf(arms, s.todo[0]);
            s.todo[0] in s.buckets && s.buckets[s.todo[0]].next != [] && s.buckets[s.todo[0]].next[0] in s.reqs
            && Selectable(SelectOne(s.(todo := s.todo[1..]), s.todo[0], arm))
            && SelectAll(s, arms) == SelectAll(SelectOne(s.(todo := s.todo[1..]), s.todo[0], arm), arms)
  {
    SelectableAt(s, s.todo[0]);
    SelectableTail(s, ArmingOf(arms, s.todo[0]));
  }

  lemma {:induction false} PassBucket(s: State, arms: map<BucketId, Arming>, b: BucketId)
    requires Selectable(s) && b in s.buckets
    ensures b in s.todo ==> s.buckets[b].next != []
    ensures b in SelectAll(s, arms).buckets && SelectAll(s, arms).buckets[b] == Passed(s, b)
    decreases |s.todo|
  {
    if b in s.todo {
      SelectableAt(s, b);
    }
    if s.todo != [] {
      var c := s.todo[0];
      var arm := ArmingOf(arms, c);
      PassUnfold(s, arms);
      SelectableTail(s, arm);
      TurnShape(s.(todo := s.todo[1..]), c, arm);
      hide Selectable, SelectOne, SelectAll;
      PassBucket(SelectOne(s.(todo := s.todo[1..]), c, arm), arms, b);
    }
  }

  lemma {:induction false} PassKeys(s: State, arms: map<BucketId, Arming>)
    requires Selectable(s)
    ensures SelectAll(s, arms).buckets.Keys == s.buckets.Keys
    decreases |s.todo|
  {
    if s.todo != [] {
      PassUnfold(s, arms);
      SelectableTail(s, ArmingOf(arms, s.todo[0]));
      hide Selectable, SelectOne, SelectAll;
      PassKeys(SelectOne(s.(todo := s.todo[1..]), s.todo[0], ArmingOf(arms, s.todo[0])), arms);
    }
  }

  /** Every bucket, after a pass. */
  lemma PassBuckets(s: State, arms: map<BucketId, Arming>)
    requires Selectable(s)
    ensures SelectAll(s, arms).buckets.Keys == s.buckets.Keys
    ensures forall b :: b in s.todo ==> b in s.buckets && s.buckets[b].next != []
    ensures forall b :: b in s.buckets ==> SelectAll(s, arms).buckets[b] == Passed(s, b)
  {
    PassKeys(s, arms);
    forall b | b in s.todo
      ensures b in s.buckets && s.buckets[b].next != []
    {
      SelectableAt(s, b);
    }
    hide Selectable, SelectAll;
    forall b | b in s.buckets
      ensures SelectAll(s, arms).buckets[b] == Passed(s, b)
    {
      PassBucket(s, arms, b);
    }
  }

  lemma TurnFlights(s: State, b: BucketId, arm: Arming)
    requires b in s.buckets && s.buckets[b].next != [] && s.buckets[b].next[0] in s.reqs
    ensures SelectOne(s, b, arm).flying
         == if VerdictOn(s.buckets[b]).Sent? then s.flying + {s.buckets[b].next[0]} else s.flying
  {
  }

  /** `r` is the head of a bucket the pass sends from. */
  ghost predicate Departs(s: State, r: ReqId) {
    exists b :: HasVerdict(s, b, Sent) && s.buckets[b].next != [] && r == s.buckets[b].next[0]
  }

  lemma DepartsNext(s: State, s1: State, r: ReqId)
    requires s.todo != [] && s.todo[0] in s.buckets && s.buckets[s.todo[0]].next != []
    requires s.todo[0] !in s1.todo && s1.buckets.Keys == s.buckets.Keys
    requires forall c :: c in s.buckets && c != s.todo[0] ==> s1.buckets[c] == s.buckets[c]
    requires forall c :: c in s.todo <==> c == s.todo[0] || c in s1.todo
    ensures Departs(s, r)
       <==> Departs(s1, r) || (VerdictOn(s.buckets[s.todo[0]]).Sent? && r == s.buckets[s.todo[0]].next[0])
  {
    var b := s.todo[0];
    if Departs(s1, r) {
      var c :| HasVerdict(s1, c, Sent) && s1.buckets[c].next != [] && r == s1.buckets[c].next[0];
      assert HasVerdict(s, c, Sent);
    }
    if VerdictOn(s.buckets[b]).Sent? && r == s.buckets[b].next[0] {
      assert HasVerdict(s, b, Sent);
    }
    if Departs(s, r) {
      var c :| HasVerdict(s, c, Sent) && s.buckets[c].next != [] && r == s.buckets[c].next[0];
      assert c != b ==> HasVerdict(s1, c, Sent);
    }
  }

  /** The requests a pass puts in the air are the heads of the buckets it sends from, one each. */
  lemma {:induction false} PassFlights(s: State, arms: map<BucketId, Arming>, r: ReqId)
    requires Selectable(s)
    ensures r in SelectAll(s, arms).flying <==> r in s.flying || Departs(s, r)
    decreases |s.todo|
  {
    if s.todo != [] {
      var b := s.todo[0];
      var arm := ArmingOf(arms, b);
      PassUnfold(s, arms);
      SelectableTail(s, arm);
      TurnFlights(s.(todo := s.todo[1..]), b, arm);
      var s1 := SelectOne(s.(todo := s.todo[1..]), b, arm);
      DepartsNext(s, s1, r);
      hide Selectable, SelectOne, SelectAll, Departs;
      PassFlights(s1, arms, r);
    }
  }

  lemma SelectWait(s: State, c: BucketId, arm: Arming, b: BucketId)
    requires c in s.buckets && s.buckets[c].next != [] && s.buckets[c].next[0] in s.reqs
    ensures var s1 := SelectOne(s, c, arm);
            var armed := c == b && VerdictOn(s.buckets[c]).Armed?;
            && (b in s1.waits <==> b in s.waits || armed)
            && (armed ==> s1.waits[b] == Wait(arm.id, Until(s, b)))
            && (!armed && b in s.waits ==> s1.waits[b] == s.waits[b])
            && (b in s.buckets && b != c ==> b in s1.buckets && Until(s1, b) == Until(s, b))
  {
  }

  /** A pass arms exactly the idle exhausted buckets, each for the later of the global and its own
      reset time, and leaves every wait there was. */
  lemma {:induction false} PassWait(s: State, arms: map<BucketId, Arming>, b: BucketId)
    requires Selectable(s)
    ensures b in SelectAll(s, arms).waits <==> b in s.waits || HasVerdict(s, b, Armed)
    ensures HasVerdict(s, b, Armed) ==> SelectAll(s, arms).waits[b] == Wait(ArmingOf(arms, b).id, Until(s, b))
    ensures !HasVerdict(s, b, Armed) && b in s.waits ==> SelectAll(s, arms).waits[b] == s.waits[b]
    decreases |s.todo|
  {
    if s.todo != [] {
      var c := s.todo[0];
      var arm := ArmingOf(arms, c);
      SelectableAt(s, c);
      SelectableTail(s, arm);
      var s0 := s.(todo := s.todo[1..]);
      SelectWait(s0, c, arm, b);
      hide SelectOne, Selectable, VerdictOn, Until;
      var s1 := SelectOne(s0, c, arm);
      PassWait(s1, arms, b);
      assert HasVerdict(s, c, VerdictOn(s.buckets[c]));
      assert HasVerdict(s1, b, Armed) <==> HasVerdict(s, b, Armed) && b != c;
    }
  }

  /** The same request but for how often it was sent and where it is. */
  ghost predicate SameUse(q: Req, q1: Req) {
    q1 == q.(sends := q1.sends, place := q1.place)
  }

  lemma SelectRequests(s: State, b: BucketId, arm: Arming)
    requires b in s.buckets && s.buckets[b].next != [] && s.buckets[b].next[0] in s.reqs
    ensures SelectOne(s, b, arm).reqs.Keys == s.reqs.Keys && SelectOne(s, b, arm).retryLimit == s.retryLimit
    ensures forall r :: r in s.reqs ==> SameUse(s.reqs[r], SelectOne(s, b, arm).reqs[r])
  {
  }

  /** Nothing else of a request changes in a pass than that it may be sent. */
  lemma {:induction false} PassRequests(s: State, arms: map<BucketId, Arming>)
    requires Selectable(s)
    ensures SelectAll(s, arms).reqs.Keys == s.reqs.Keys && SelectAll(s, arms).retryLimit == s.retryLimit
    ensures forall r :: r in s.reqs ==> SameUse(s.reqs[r], SelectAll(s, arms).reqs[r])
    decreases |s.todo|
  {
    if s.todo != [] {
      var arm := ArmingOf(arms, s.todo[0]);
      SelectableAt(s, s.todo[0]);
      SelectableTail(s, arm);
      var s0 := s.(todo := s.todo[1..]);
      SelectRequests(s0, s.todo[0], arm);
      hide SelectOne, Selectable;
      PassRequests(SelectOne(s0, s.todo[0], arm), arms);
    }
  }

  /** Buckets that still have something to send, in the order given. */
  function StillPending(s: State, queue: seq<BucketId>): seq<BucketId> {
    if queue == [] then []
    else Kept(s, queue[0]) + StillPending(s, queue[1..])
  }

  function Kept(s: State, b: BucketId): seq<BucketId> {
    if b in s.buckets && s.buckets[b].next != [] then [b] else []
  }

  /** A pass goes round the pending list once and keeps its order. */
  lemma {:induction false} PassLine(s: State, arms: map<BucketId, Arming>)
    requires Selectable(s)
    ensures SelectAll(s, arms).todo == []
    ensures SelectAll(s, arms).line == s.line + StillPending(SelectAll(s, arms), s.todo)
    decreases |s.todo|
  {
    if s.todo != [] {
      TurnLine(s, arms);
      var s1 := SelectOne(s.(todo := s.todo[1..]), s.todo[0], ArmingOf(arms, s.todo[0]));
      var end := SelectAll(s1, arms);
      hide SelectOne, Selectable, SelectAll;
      PassLine(s1, arms);
      var kept := Kept(end, s.todo[0]);
      var more := StillPending(end, s1.todo);
      assert s.line + (kept + more) == s.line + kept + more;
    }
  }

  /** One turn of the selector, as the pending list sees it. */
  lemma TurnLine(s: State, arms: map<BucketId, Arming>)
    requires Selectable(s) && s.todo != []
    ensures var s1 := SelectOne(s.(todo := s.todo[1..]), s.todo[0], ArmingOf(arms, s.todo[0]));
            && Selectable(s1) && s1.todo == s.todo[1..] && SelectAll(s, arms) == SelectAll(s1, arms)
            && s1.line == s.line + Kept(SelectAll(s1, arms), s.todo[0])
  {
    var b := s.todo[0];
    var arm := ArmingOf(arms, b);
    PassUnfold(s, arms);
    SelectableTail(s, arm);
    SelectShape(s.(todo := s.todo[1..]), b, arm);
    hide SelectOne, Selectable, SelectAll;
    PassBucket(SelectOne(s.(todo := s.todo[1..]), b, arm), arms, b);
  }

  // ---------------------------------------------------------------- splitting a queue

  /** The longest prefix of requests whose key is `key`. */
  function Prefix(s: State, queue: seq<ReqId>, key: Key): nat
    ensures Prefix(s, queue, key) <= |queue|
  {
    if queue != [] && queue[0] in s.reqs && s.reqs[queue[0]].key == key then 1 + Prefix(s, queue[1..], key) else 0
  }

  lemma {:induction false} PrefixIsLongest(s: State, queue: seq<ReqId>, key: Key)
    requires forall i :: 0 <= i < |queue| ==> queue[i] in s.reqs
    ensures forall i :: 0 <= i < Prefix(s, queue, key) ==> s.reqs[queue[i]].key == key
    ensures Prefix(s, queue, key) < |queue| ==> s.reqs[queue[Prefix(s, queue, key)]].key != key
  {
    if queue != [] && s.reqs[queue[0]].key == key {
      PrefixIsLongest(s, queue[1..], key);
      assert forall i :: 0 < i < |queue| ==> queue[i] == queue[1..][i - 1];
    }
  }

  /** Filing the head of the local queue at the end of a bucket's queue. */
  lemma FileTail(s: State, to: BucketId)
    requires Sane(s) && s.hand != [] && to in s.buckets
    ensures var s1 := Insert(Pop(s), to, s.hand[0], false);
            && Sane(s1) && s1.hand == s.hand[1..] && s1.nullB == s.nullB && s1.buckets.Keys == s.buckets.Keys
            && s1.buckets[to].next == s.buckets[to].next + [s.hand[0]]
            && (forall c :: c in s.buckets && c != to ==> s1.buckets[c].next == s.buckets[c].next)
            && SameKeys(s, s1)
  {
  }

  ghost predicate SameKeys(s: State, s1: State) {
    && (forall r :: r in s.reqs <==> r in s1.reqs)
    && forall r :: r in s.reqs ==> s.reqs[r].key == s1.reqs[r].key
  }

  lemma {:induction false} PrefixSame(s: State, s1: State, queue: seq<ReqId>, key: Key)
    requires SameKeys(s, s1)
    ensures Prefix(s, queue, key) == Prefix(s1, queue, key)
  {
    if queue != [] {
      PrefixSame(s, s1, queue[1..], key);
    }
  }

  lemma FilterUnfold(s: State, b: BucketId, key: Key)
    requires Sane(s) && b in s.buckets && s.hand != []
    ensures var to := if s.reqs[s.hand[0]].key != key then s.nullB else b;
            && Sane(Insert(Pop(s), to, s.hand[0], false))
            && FilterAll(s, b, key) == FilterAll(Insert(Pop(s), to, s.hand[0], false), to, key)
  {
  }

  lemma Rejoin<V>(a: seq<V>, q: seq<V>, n: nat)
    requires q != [] && n <= |q|
    ensures a + [q[0]] + q[1..] == a + q
    ensures n > 0 ==> a + [q[0]] + q[1..][..n - 1] == a + q[..n] && q[1..][n - 1..] == q[n..]
    ensures a + q[..0] == a && q[0..] == q
  {
  }

  /** From a request with another key on, everything goes back to the null bucket. */
  lemma {:induction false} FilterToNull(s: State, key: Key)
    requires Sane(s)
    ensures FilterAll(s, s.nullB, key).buckets[s.nullB].next == s.buckets[s.nullB].next + s.hand
    decreases |s.hand|
  {
    if s.hand != [] {
      FileTail(s, s.nullB);
      FilterUnfold(s, s.nullB, key);
      hide Insert, FilterAll, Spared, SameKeys;
      FilterToNull(Insert(Pop(s), s.nullB, s.hand[0], false), key);
      Rejoin(s.buckets[s.nullB].next, s.hand, 0);
    }
  }

  /** Buckets that are neither matched nor null keep their queues. */
  lemma {:induction false} FilterElsewhere(s: State, b: BucketId, key: Key, c: BucketId)
    requires Sane(s) && b in s.buckets && c in s.buckets && c != b && c != s.nullB
    ensures FilterAll(s, b, key).buckets[c].next == s.buckets[c].next
    decreases |s.hand|
  {
    if s.hand != [] {
      var to := if s.reqs[s.hand[0]].key != key then s.nullB else b;
      FileTail(s, to);
      FilterUnfold(s, b, key);
      hide Insert, FilterAll, Spared, SameKeys;
      FilterElsewhere(Insert(Pop(s), to, s.hand[0], false), to, key, c);
    }
  }

  lemma {:induction false} FilterSplits(s: State, b: BucketId, key: Key)
    requires Sane(s) && b in s.buckets && b != s.nullB
    ensures var s1 := FilterAll(s, b, key);
            var n := Prefix(s, s.hand, key);
            && s1.buckets[b].next == s.buckets[b].next + s.hand[..n]
            && s1.buckets[s.nullB].next == s.buckets[s.nullB].next + s.hand[n..]
    decreases |s.hand|
  {
    if s.hand != [] {
      var r := s.hand[0];
      var to := if s.reqs[r].key != key then s.nullB else b;
      FileTail(s, to);
      var s0 := Insert(Pop(s), to, r, false);
      FilterUnfold(s, b, key);
      var n := Prefix(s, s.hand, key);
      PrefixSame(s, s0, s.hand[1..], key);
      hide Insert, FilterAll, Spared, SameKeys;
      if s.reqs[r].key == key {
        FilterSplits(s0, b, key);
        Rejoin(s.buckets[b].next, s.hand, n);
      } else {
        FilterToNull(s0, key);
        FilterElsewhere(s0, s.nullB, key, b);
        Rejoin(s.buckets[s.nullB].next, s.hand, 0);
        Rejoin(s.buckets[b].next, s.hand, 0);
      }
    }
  }

  /** null_filter moves the longest prefix of the null bucket's queue that has the matched key to the
      end of the matched bucket's queue; the rest stays, and both keep their order. */
  lemma NullFilterSplits(s: State, b: BucketId, key: Key)
    requires Sane(s) && s.hand == [] && b in s.buckets && b != s.nullB
    requires forall i :: 0 <= i < |s.buckets[s.nullB].next| ==> s.buckets[s.nullB].next[i] in s.reqs
    ensures var s1 := NullFilter(s, b, key);
            var queue := s.buckets[s.nullB].next;
            var n := Prefix(s, queue, key);
            && (forall i :: 0 <= i < n ==> s.reqs[queue[i]].key == key)
            && (n < |queue| ==> s.reqs[queue[n]].key != key)
            && s1.buckets[b].next == s.buckets[b].next + queue[..n]
            && s1.buckets[s.nullB].next == queue[n..]
  {
    var queue := s.buckets[s.nullB].next;
    var s0 := TakeNull(s);
    PrefixIsLongest(s, queue, key);
    PrefixSame(s, s0, queue, key);
    FilterSplits(s0, b, key);
    assert [] + queue[Prefix(s, queue, key)..] == queue[Prefix(s, queue, key)..];
  }

  /** null_filter leaves every other bucket's queue alone. */
  lemma NullFilterElsewhere(s: State, b: BucketId, key: Key, c: BucketId)
    requires Sane(s) && s.hand == [] && b in s.buckets && c in s.buckets && c != b && c != s.nullB
    requires forall i :: 0 <= i < |s.buckets[s.nullB].next| ==> s.buckets[s.nullB].next[i] in s.reqs
    ensures NullFilter(s, b, key).buckets[c].next == s.buckets[c].next
  {
    FilterElsewhere(TakeNull(s), b, key, c);
  }
}
