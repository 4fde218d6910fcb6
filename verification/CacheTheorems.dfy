/** What the cache, the refcounter and the dispatch of events promise together over whole runs. */
module CacheTheorems {
  import opened Wrappers
  import opened CacheModel
  import opened CacheLaws
  import R = Refcount

  ghost function Next(w: World, step: Step): (w1: World)
    requires Inv(w) && Enabled(w, step)
    ensures Inv(w1)
  {
    StepKeeps(w, step);
    Do(w, step)
  }

  ghost predicate Legal(w: World, steps: seq<Step>)
    requires Inv(w)
    decreases |steps|
  {
    steps == [] || (Enabled(w, steps[0]) && Legal(Next(w, steps[0]), steps[1..]))
  }

  ghost function After(w: World, steps: seq<Step>): (w1: World)
    requires Inv(w) && Legal(w, steps)
    ensures Inv(w1)
    decreases |steps|
  {
    if steps == [] then w else After(Next(w, steps[0]), steps[1..])
  }

  lemma InitialInv(total: nat, guildsOn: bool, messagesOn: bool)
    requires total > 0
    ensures Inv(Initial(total, guildsOn, messagesOn))
  {
    var w := Initial(total, guildsOn, messagesOn);
    assert forall p :: CountOk(w, p);
  }

  // --------------------------------------------------------------------- lifetimes

  /** In every reachable state each cached pointer is live, no two entries share one, and a resource
      is live exactly while somebody holds it: the cache, a dispatch, a request, the user, or
      nobody who could still reach it. */
  lemma CachedIsLive(w: World, steps: seq<Step>, p: Ptr)
    requires Inv(w) && Legal(w, steps)
    ensures var w1 := After(w, steps);
            && (forall slot :: slot in w1.store ==> w1.store[slot] in w1.refs.refs)
            && (forall s, t :: s in w1.store && t in w1.store && w1.store[s] == w1.store[t] ==> s == t)
            && (p in w1.refs.refs <==>
                  p in w1.home || p in w1.active || p in w1.leaked || w1.held[p] > 0 || w1.claims[p] > 0)
            && (p in w1.refs.refs ==> w1.refs.refs[p] == R.Ref(Plain(w1, p) + w1.claims[p], w1.claims[p]))
  {
    var w1 := After(w, steps);
    forall slot | slot in w1.store
      ensures w1.store[slot] in w1.refs.refs
    {
      assert CountOk(w1, w1.store[slot]);
    }
    assert CountOk(w1, p);
  }

  /** A resource is cleaned up once for each time it was added, and exactly when its last holder let go. */
  lemma CleanedOncePerLife(w: World, steps: seq<Step>, p: Ptr)
    requires Inv(w) && Legal(w, steps)
    ensures var w1 := After(w, steps);
            && w1.refs.added[p] == w1.refs.cleaned[p] + (if p in w1.refs.refs then 1 else 0)
            && (p in w1.refs.refs <==> Plain(w1, p) + w1.claims[p] > 0)
  {
    assert CountOk(After(w, steps), p);
  }

  /** Balanced callers are never turned down by the refcounter. */
  lemma NeverRefused(w: World, p: Ptr)
    requires Inv(w)
    ensures Plain(w, p) > 0 ==> R.DecrCall(w.refs, p).1 == R.OK
    ensures w.claims[p] > 0 ==> R.UnclaimCall(w.refs, p).1 == R.OK
    ensures p in w.refs.refs && R.Room(w.refs, p) ==>
              R.IncrCall(w.refs, p).1 == R.OK && R.ClaimCall(w.refs, p).1 == R.OK
  {
    assert CountOk(w, p);
  }

  /** How often `p` is counted. */
  function Visits(t: R.Table, p: Ptr): int {
    if p in t.refs then t.refs[p].visits else 0
  }

  /** The references a step takes of `p`, less those it gives back; and the claims among them. */
  ghost function Taken(w: World, step: Step, p: Ptr): int
    requires Inv(w)
  {
    match step
    case Arrive(q, _, _) => if q == p then 1 else 0
    case Claim(q) => if q == p then 1 else 0
    case Keep(q) => if q == p then 1 else 0
    case Adopt(q) => if q == p then 1 else 0
    case GetMessage(_, _) => if Returned(w, step) == Some(p) then 1 else 0
    case GetGuild(_) => if Returned(w, step) == Some(p) then 1 else 0
    case Leave(q) => if q == p then -1 else 0
    case Unclaim(q) => if q == p then -1 else 0
    case Release(q) => if q == p then -1 else 0
    case _ => 0
  }

  ghost function ClaimsTaken(w: World, step: Step, p: Ptr): int
    requires Inv(w)
  {
    if step.Claim? || step.Unclaim? || step.GetMessage? || step.GetGuild? then Taken(w, step, p) else 0
  }

  /** What a getter returns. */
  ghost function Returned(w: World, step: Step): Option<Ptr>
    requires Inv(w) && (step.GetMessage? || step.GetGuild?)
  {
    if step.GetMessage? then FindMessage(w, step.channel, step.id) else FindGuild(w, step.id)
  }

  /** Dispatches, requests and user code move the count of a resource by just the references they take or
      give back, and its claims by the claims; none of them changes what is cached. */
  lemma StepCounts(w: World, step: Step, p: Ptr)
    requires Inv(w) && Enabled(w, step)
    requires !step.Handle? && !step.Clear? && !step.Collect? && !step.Mark?
    ensures var w1 := Next(w, step);
            && Visits(w1.refs, p) == Visits(w.refs, p) + Taken(w, step, p)
            && w1.claims[p] == w.claims[p] + ClaimsTaken(w, step, p)
            && w1.store == w.store && w1.valid == w.valid
            && (p in w1.refs.refs <==> Visits(w.refs, p) + Taken(w, step, p) > 0)
  {
    assert CountOk(w, p);
    hide Counted, Linked, Shaped, FindMessage, FindGuild, Claimed;
    if step.GetMessage? || step.GetGuild? {
      FoundIsLive(w, step);
      FoundCounts(w, Returned(w, step), p);
    } else if step.Claim? {
      FoundCounts(w, Some(step.p), p);
    } else if step.Arrive? || step.Adopt? || step.Keep? {
      hide Do;
      TakingCounts(w, step, p);
    } else {
      hide Do;
      GivingCounts(w, step, p);
    }
  }

  lemma FoundIsLive(w: World, step: Step)
    requires Inv(w) && (step.GetMessage? || step.GetGuild?) && Enabled(w, step)
    ensures var found := Returned(w, step);
            found.Some? ==> found.value in w.home && found.value in w.refs.refs && R.Room(w.refs, found.value)
  {
    FoundIsCached(w, if step.GetMessage? then step.channel else 0, step.id);
    if Returned(w, step).Some? {
      assert CountOk(w, Returned(w, step).value);
    }
    hide Counted, Linked, FindMessage, FindGuild;
  }

  lemma FoundCounts(w: World, found: Option<Ptr>, p: Ptr)
    requires Inv(w) && (found.Some? ==> found.value in w.refs.refs && R.Room(w.refs, found.value))
    ensures var w1 := Claimed(w, found);
            var taken := if found == Some(p) then 1 else 0;
            && Visits(w1.refs, p) == Visits(w.refs, p) + taken && w1.claims[p] == w.claims[p] + taken
            && w1.store == w.store && w1.valid == w.valid && (p in w1.refs.refs <==> p in w.refs.refs)
  {
  }

  lemma TakingCounts(w: World, step: Step, p: Ptr)
    requires Inv(w) && Enabled(w, step) && (step.Arrive? || step.Adopt? || step.Keep?)
    ensures var w1 := Do(w, step);
            && Visits(w1.refs, p) == Visits(w.refs, p) + (if step.p == p then 1 else 0) && w1.claims == w.claims
            && w1.store == w.store && w1.valid == w.valid
            && (p in w1.refs.refs <==> p in w.refs.refs || step.p == p)
  {
  }

  lemma GivingCounts(w: World, step: Step, p: Ptr)
    requires Inv(w) && Enabled(w, step) && (step.Leave? || step.Unclaim? || step.Release?)
    ensures var w1 := Do(w, step);
            var given := if step.p == p then 1 else 0;
            && Visits(w1.refs, p) == Visits(w.refs, p) - given
            && w1.claims[p] == w.claims[p] - (if step.Unclaim? then given else 0)
            && w1.store == w.store && w1.valid == w.valid
            && (p in w1.refs.refs <==> p in w.refs.refs && Visits(w.refs, p) > given)
  {
    assert CountOk(w, p) && CountOk(w, step.p);
    hide Counted, Linked;
  }

  function Unclaims(steps: seq<Step>, p: Ptr): nat {
    if steps == [] then 0 else (if steps[0] == Unclaim(p) then 1 else 0) + Unclaims(steps[1..], p)
  }

  /** Dropping entries adds no resource and concerns no claim or reference but the cache's. */
  lemma {:induction false} DropAllLeaves(w: World, order: seq<Slot>)
    ensures DropAll(w, order).refs.added == w.refs.added
    ensures var w1 := DropAll(w, order);
            w1 == w.(refs := w1.refs, store := w1.store, home := w1.home)
    decreases |order|
  {
    if order != [] {
      DropAllLeaves(Drop(w, order[0]), order[1..]);
    }
  }

  /** No single call adds a resource that is live. */
  lemma AddedKept(t: R.Table, op: R.Op, p: Ptr)
    requires p in t.refs && R.Room(t, op.p)
    ensures R.Do(t, op).0.added[p] == t.added[p]
  {
  }

  lemma FoundClaims(w: World, found: Option<Ptr>, p: Ptr)
    requires p in w.refs.refs && (found.Some? ==> R.Room(w.refs, found.value))
    ensures Claimed(w, found).refs.added[p] == w.refs.added[p] && Claimed(w, found).claims[p] >= w.claims[p]
  {
    if found.Some? {
      AddedKept(w.refs, R.Claim(found.value), p);
    }
  }

  lemma RoomToDrop(w: World, q: Ptr)
    requires Inv(w) && (Plain(w, q) > 0 || w.claims[q] > 0)
    ensures R.DecrCall(w.refs, q).0.added == w.refs.added && R.UnclaimCall(w.refs, q).0.added == w.refs.added
  {
  }

  /** No step adds a resource that is live, and only unclaiming lowers its claims. */
  lemma StepClaims(w: World, step: Step, p: Ptr)
    requires Inv(w) && Enabled(w, step) && p in w.refs.refs
    ensures Do(w, step).refs.added[p] == w.refs.added[p]
    ensures Do(w, step).claims[p] >= w.claims[p] - if step == Unclaim(p) then 1 else 0
  {
    hide HandleEvent, Counted, Linked, Doomed, Claimed, FindMessage, FindGuild;
    hide R.TakeCall, R.IncrCall, R.DecrCall, R.ClaimCall, R.UnclaimCall;
    match step
    case Handle(q, event, copy) => HandleClaims(w.(pending := w.pending - {q}), q, event, copy);
    case Clear(_, order) => DropAllLeaves(w, order);
    case Collect(_, _, order) => DropAllLeaves(w, order);
    case Arrive(q, _, _) => AddedKept(w.refs, R.Take(q), p);
    case Adopt(q) => AddedKept(w.refs, R.Take(q), p);
    case Keep(q) => AddedKept(w.refs, R.Incr(q), p);
    case Claim(q) => FoundClaims(w, Some(q), p);
    case GetMessage(channel, id) => FoundClaims(w, FindMessage(w, channel, id), p);
    case GetGuild(id) => FoundClaims(w, FindGuild(w, id), p);
    case Leave(q) => RoomToDrop(w, q);
    case Release(q) => RoomToDrop(w, q);
    case Unclaim(q) => RoomToDrop(w, q);
    case Mark(_, _) =>
  }

  lemma HandleClaims(w: World, p: Ptr, event: Event, copy: Ptr)
    requires w.total > 0 && (event.Ready? ==> event.shard < |w.valid|)
    ensures HandleEvent(w, p, event, copy).claims == w.claims
    ensures forall q :: q != copy ==> HandleEvent(w, p, event, copy).refs.added[q] == w.refs.added[q]
  {
    var w1 := w.(refs := R.AddCall(w.refs, copy));
    if event.GuildCreate? || event.GuildUpdate? || event.GuildDelete? {
      var slot := GuildSlot(w, event.id);
      DropAdds(w, slot);
      DropAdds(w1, slot);
      hide Drop;
    } else if !event.Ready? && !event.Other? {
      var slot := MessageSlot(w, event.guild, event.id);
      DropAdds(w, slot);
      PutAdds(w, slot, p);
      PutAdds(Drop(w, slot), slot, p);
      hide Drop, PutMessage;
    }
  }

  lemma DropAdds(w: World, slot: Slot)
    ensures Drop(w, slot).refs.added == w.refs.added && Drop(w, slot).claims == w.claims
  {
  }

  lemma PutAdds(w: World, slot: Slot, p: Ptr)
    ensures PutMessage(w, slot, p).refs.added == w.refs.added && PutMessage(w, slot, p).claims == w.claims
  {
  }

  /** Memory with a claim on it, such as what a getter returned, stays live and is not cleaned up
      until the claim is given back, whatever is dispatched, updated, deleted, collected or cleared. */
  lemma {:induction false} ClaimPins(w: World, steps: seq<Step>, p: Ptr)
    requires Inv(w) && Legal(w, steps) && Unclaims(steps, p) < w.claims[p]
    ensures var w1 := After(w, steps);
            p in w1.refs.refs && w1.claims[p] > 0 && w1.refs.cleaned[p] == w.refs.cleaned[p]
    decreases |steps|
  {
    assert CountOk(w, p);
    if steps != [] {
      StepClaims(w, steps[0], p);
      assert CountOk(Next(w, steps[0]), p);
      hide Inv, Do, Enabled;
      ClaimPins(Next(w, steps[0]), steps[1..], p);
    }
  }

  /** The message getter and the guild getter: what one of them returns is cached and live, and from then
      on claimed once more and counted once more; one that returns nothing claims nothing. */
  lemma GetterClaims(w: World, step: Step)
    requires Inv(w) && (step.GetMessage? || step.GetGuild?) && Enabled(w, step)
    ensures var w1 := Next(w, step);
            match Returned(w, step)
            case None => w1 == w
            case Some(p) =>
              && p in w.home && p in w.refs.refs
              && w1.claims == w.claims + multiset{p}
              && w1.refs.refs == w.refs.refs[p := R.Ref(w.refs.refs[p].visits + 1, w.refs.refs[p].claims + 1)]
              && w1 == w.(claims := w1.claims, refs := w.refs.(refs := w1.refs.refs))
  {
    FoundIsLive(w, step);
    hide Counted, Linked, Shaped, FindMessage, FindGuild;
  }

  /** So what a getter returned stays live, whatever is dispatched, updated, deleted, collected or cleared
      meanwhile, until it has been given back as often as it was claimed, that claim included. */
  lemma GetterPins(w: World, step: Step, steps: seq<Step>, p: Ptr)
    requires Inv(w) && (step.GetMessage? || step.GetGuild?) && Enabled(w, step) && Returned(w, step) == Some(p)
    requires Legal(Next(w, step), steps) && Unclaims(steps, p) <= w.claims[p]
    ensures var w1 := After(Next(w, step), steps);
            p in w1.refs.refs && w1.claims[p] > 0 && w1.refs.cleaned[p] == w.refs.cleaned[p]
  {
    GetterClaims(w, step);
    var w1 := Next(w, step);
    assert w1.claims[p] == w.claims[p] + 1 && w1.refs.cleaned == w.refs.cleaned;
    hide Inv, Enabled, Next;
    ClaimPins(w1, steps, p);
  }

  // ------------------------------------------------------------------------ the leak

  /** A guild announced again leaves a copy nobody can reach, exactly when it is in the cache. */
  lemma LeaksIff(w: World, p: Ptr, id: Snowflake, copy: Ptr)
    requires Inv(w) && Enabled(w, Handle(p, GuildCreate(id), copy))
    ensures copy in Next(w, Handle(p, GuildCreate(id), copy)).leaked <==> w.guildsOn && GuildSlot(w, id) in w.store
  {
    AbsentHasNone(w, copy);
  }

  lemma LeakStep(w: World, step: Step, p: Ptr)
    requires Inv(w) && Enabled(w, step) && p in w.leaked
    ensures p in Do(w, step).leaked && p in w.refs.refs
  {
    assert CountOk(w, p);
    match step
    case Clear(_, order) => DropAllLeaves(w, order);
    case Collect(_, _, order) => DropAllLeaves(w, order);
    case _ =>
  }

  /** Such a copy is never cleaned up. */
  lemma {:induction false} LeakLasts(w: World, steps: seq<Step>, p: Ptr)
    requires Inv(w) && Legal(w, steps) && p in w.leaked
    ensures p in After(w, steps).refs.refs && After(w, steps).refs.cleaned[p] == w.refs.cleaned[p]
    decreases |steps|
  {
    assert CountOk(w, p);
    if steps != [] {
      LeakStep(w, steps[0], p);
      StepClaims(w, steps[0], p);
      assert CountOk(Next(w, steps[0]), p);
      hide Inv, Do, Enabled;
      LeakLasts(Next(w, steps[0]), steps[1..], p);
    }
  }

  /** An event that creates the guild arrives, is handled with the copy `p + 1`, and ends. */
  function Announce(p: Ptr, id: Snowflake): seq<Step> {
    [Arrive(p, GuildCreate(id), false), Handle(p, GuildCreate(id), p + 1), Leave(p)]
  }

  lemma AnnounceArrives(w: World, p: Ptr, id: Snowflake)
    requires Inv(w) && p !in w.refs.refs
    ensures var step := Arrive(p, GuildCreate(id), false);
            && Enabled(w, step)
            && var w1 := Next(w, step);
            && w1.total == w.total && w1.guildsOn == w.guildsOn && w1.store == w.store && w1.leaked == w.leaked
            && p in w1.active && p in w1.pending && w1.pending[p] == GuildCreate(id)
            && p in w1.refs.refs && w1.refs.refs[p].visits == 1
            && (forall q :: q != p && q !in w.refs.refs ==> q !in w1.refs.refs)
  {
  }

  lemma AnnounceHandled(w: World, p: Ptr, id: Snowflake)
    requires Inv(w) && w.guildsOn && p + 1 !in w.refs.refs && p in w.active && p in w.pending
    requires w.pending[p] == GuildCreate(id) && p in w.refs.refs && w.refs.refs[p].visits == 1
    ensures var step := Handle(p, GuildCreate(id), p + 1);
            && Enabled(w, step)
            && var w1 := Next(w, step);
            && w1.total == w.total && w1.guildsOn && GuildSlot(w, id) in w1.store
            && (GuildSlot(w, id) in w.store ==> w1.leaked == w.leaked + {p + 1})
            && (GuildSlot(w, id) !in w.store ==> w1.leaked == w.leaked)
            && p in w1.active && p !in w1.pending
            && (forall q :: q != p + 1 && q !in w.refs.refs ==> q !in w1.refs.refs)
  {
    hide CountOk, Linked;
  }

  lemma AnnounceLeaves(w: World, p: Ptr)
    requires Inv(w) && p in w.active && p !in w.pending
    ensures Enabled(w, Leave(p))
    ensures var w1 := Next(w, Leave(p));
            && w1.total == w.total && w1.guildsOn == w.guildsOn && w1.store == w.store && w1.leaked == w.leaked
            && (forall q :: q !in w.refs.refs ==> q !in w1.refs.refs)
  {
    hide CountOk, Linked;
  }

  lemma Announced(w: World, p: Ptr, id: Snowflake)
    requires Inv(w) && w.guildsOn && p !in w.refs.refs && p + 1 !in w.refs.refs
    ensures Legal(w, Announce(p, id))
    ensures var w1 := After(w, Announce(p, id));
            && w1.total == w.total && w1.guildsOn && GuildSlot(w, id) in w1.store
            && (GuildSlot(w, id) in w.store ==> p + 1 in w1.leaked)
            && (forall q :: q > p + 1 && q !in w.refs.refs ==> q !in w1.refs.refs)
  {
    var arrive, handle := Arrive(p, GuildCreate(id), false), Handle(p, GuildCreate(id), p + 1);
    AnnounceArrives(w, p, id);
    var w1 := Next(w, arrive);
    AnnounceHandled(w1, p, id);
    var w2 := Next(w1, handle);
    AnnounceLeaves(w2, p);
    hide Inv, Enabled, Next;
    ThreeSteps(w, arrive, handle, Leave(p));
  }

  lemma ThreeSteps(w: World, a: Step, b: Step, c: Step)
    requires Inv(w) && Enabled(w, a) && Enabled(Next(w, a), b) && Enabled(Next(Next(w, a), b), c)
    ensures Legal(w, [a, b, c]) && After(w, [a, b, c]) == Next(Next(Next(w, a), b), c)
  {
    hide Inv, Enabled, Next;
    var w1, w2 := Next(w, a), Next(Next(w, a), b);
    assert [a, b, c][1..] == [b, c] && [b, c][1..] == [c] && [c][1..] == [];
    var w3 := Next(w2, c);
    assert Legal(w3, []) && After(w3, []) == w3;
    assert Legal(w2, [c]) && After(w2, [c]) == w3;
    assert Legal(w1, [b, c]) && After(w1, [b, c]) == w3;
  }

  /** Such a leak, from an empty cache: the same guild is announced twice. */
  lemma LeakRun(messagesOn: bool, id: Snowflake)
    ensures var w := Initial(1, true, messagesOn);
            && Inv(w) && Legal(w, Announce(0, id))
            && var w1 := After(w, Announce(0, id));
            && Legal(w1, Announce(2, id)) && 3 in After(w1, Announce(2, id)).leaked
  {
    InitialInv(1, true, messagesOn);
    var w := Initial(1, true, messagesOn);
    assert w.refs.refs == map[] && w.guildsOn && w.total == 1;
    hide *;
    Announced(w, 0, id);
    AnnouncedAgain(w, id);
  }

  lemma AnnouncedAgain(w: World, id: Snowflake)
    requires Inv(w) && w.guildsOn && w.refs.refs == map[] && Legal(w, Announce(0, id))
    ensures var w1 := After(w, Announce(0, id));
            Legal(w1, Announce(2, id)) && 3 in After(w1, Announce(2, id)).leaked
  {
    hide Inv, Legal, After, Announce;
    Announced(w, 0, id);
    Announced(After(w, Announce(0, id)), 2, id);
  }

  // --------------------------------------------------------------- garbage collection

  lemma IndexIsMonotone(keys: set<Snowflake>, a: Snowflake, b: Snowflake)
    ensures a <= b ==> IndexOf(keys, a) <= IndexOf(keys, b)
    ensures a < b && a in keys ==> IndexOf(keys, a) < IndexOf(keys, b)
  {
    var below := set k | k in keys && k < a;
    var belowB := set k | k in keys && k < b;
    if a <= b {
      Subsets(below, belowB);
      if a < b && a in keys {
        Subsets(below + {a}, belowB);
      }
    }
  }

  lemma {:induction false} Subsets(a: set<Snowflake>, b: set<Snowflake>)
    requires a <= b
    ensures |a| <= |b|
  {
    assert |b| == |a| + |b - a| by {
      assert b == a + (b - a);
    }
  }

  /** The lower bound and the inclusive range together remove exactly the keys below the bound. */
  lemma SweptIff(keys: set<Snowflake>, now: nat, k: Snowflake)
    ensures k in Swept(keys, now) <==> k in keys && k < DeleteBefore(now)
  {
    IndexIsMonotone(keys, k, DeleteBefore(now));
    IndexIsMonotone(keys, DeleteBefore(now), k);
  }

  /** The time (ms) in a snowflake. */
  function TimeOf(id: Snowflake): nat {
    id / TWO22 + EPOCH
  }

  lemma ShiftOrder(x: nat, id: Snowflake)
    ensures id < x * TWO22 <==> id / TWO22 < x
  {
    assert id == id / TWO22 * TWO22 + id % TWO22;
  }

  lemma DeleteBeforeIs(now: nat)
    ensures DeleteBefore(now) == (now - EPOCH - TEN_MINUTES) % TWO42 * TWO22
  {
    var d := now - EPOCH - TEN_MINUTES;
    var x := d % TWO64;
    var y := d % TWO42;
    assert TWO64 == TWO42 * TWO22;
    assert d == d / TWO64 * TWO64 + x;
    assert d == d / TWO42 * TWO42 + y;
    assert x == x / TWO42 * TWO42 + x % TWO42;
    assert x % TWO42 == y by {
      var n := d / TWO64 * TWO22 + x / TWO42;
      assert d == n * TWO42 + x % TWO42;
      Uniquely(d, n, x % TWO42);
    }
    assert x * TWO22 == x / TWO42 * TWO64 + y * TWO22;
    Remainder(x * TWO22, x / TWO42, y * TWO22);
  }

  lemma Uniquely(d: int, n: int, m: nat)
    requires m < TWO42 && d == n * TWO42 + m
    ensures d % TWO42 == m
  {
  }

  lemma Remainder(d: int, n: int, m: nat)
    requires m < TWO64 && d == n * TWO64 + m
    ensures d % TWO64 == m
  {
  }

  /** A collection removes exactly the messages whose id says that they are more than 600000 ms old, if and
      only if the clock is past the epoch by that much or more, and by less than 42 bits of ms. */
  lemma CollectsOldIff(now: nat)
    ensures (forall id: Snowflake :: id < TWO64 ==>
               (id < DeleteBefore(now) <==> now - (id / 4194304 + 1420070400000) > 600000))
       <==> 1420071000000 <= now < 1420071000000 + 4398046511104
  {
    CollectsOldInRange(now);
    forall id: Snowflake | id < TWO64
      ensures TimeOf(id) == id / 4194304 + 1420070400000
    {
    }
  }

  lemma CollectsOldInRange(now: nat)
    ensures (forall id: Snowflake :: id < TWO64 ==> (id < DeleteBefore(now) <==> now - TimeOf(id) > TEN_MINUTES))
       <==> EPOCH + TEN_MINUTES <= now < EPOCH + TEN_MINUTES + TWO42
  {
    var d := now - EPOCH - TEN_MINUTES;
    DeleteBeforeIs(now);
    forall id: Snowflake | id < TWO64
      ensures id < DeleteBefore(now) <==> id / TWO22 < d % TWO42
      ensures now - TimeOf(id) > TEN_MINUTES <==> id / TWO22 < d
    {
      ShiftOrder(d % TWO42, id);
    }
    if d < 0 {
      assert d % TWO42 > 0 by {
        assert 0 - TWO42 < d;
      }
      assert 0 / TWO22 == 0;
      var id: Snowflake := 0;
      assert id < TWO64 && id < DeleteBefore(now) && !(now - TimeOf(id) > TEN_MINUTES);
    } else if d >= TWO42 {
      var id: Snowflake := (TWO42 - 1) * TWO22;
      assert id < TWO64 && id / TWO22 == TWO42 - 1;
      assert !(id < DeleteBefore(now)) && now - TimeOf(id) > TEN_MINUTES;
    } else {
      assert d % TWO42 == d;
    }
  }

  lemma {:induction false} DropAllHomes(w: World, order: seq<Slot>, p: Ptr)
    ensures var w1 := DropAll(w, order);
            && (p in w1.home ==> p in w.home && w1.home[p] == w.home[p])
            && (forall slot :: slot in w1.store ==> slot in w.store && w1.store[slot] == w.store[slot])
    decreases |order|
  {
    if order != [] {
      DropAllHomes(Drop(w, order[0]), order[1..], p);
    }
  }

  /** What a bulk removal costs a resource: the cache's reference, if it was removed. */
  lemma DropAllCosts(w: World, order: seq<Slot>, p: Ptr)
    requires Inv(w) && p in w.refs.refs
    ensures var lost := if p in w.home && w.home[p] in order then 1 else 0;
            var w1 := DropAll(w, order);
            if w.refs.refs[p].visits == lost then p !in w1.refs.refs
            else p in w1.refs.refs && w1.refs.refs[p] == w.refs.refs[p].(visits := w.refs.refs[p].visits - lost)
  {
    var w1 := DropAll(w, order);
    DropAllKeeps(w, order);
    DropAllLeaves(w, order);
    DropAllHomes(w, order, p);
    assert CountOk(w, p) && CountOk(w1, p);
    if p in w.home && w.home[p] !in order {
      assert w.home[p] in w1.store;
    }
    assert p in w1.home <==> p in w.home && w.home[p] !in order;
    hide DropAll, Counted, Shaped, Linked;
  }

  /** A collection leaves exactly the messages at or above the bound, and every other entry; each
      entry it removes costs its pointer one reference, and nothing else loses any. */
  lemma CollectExactly(w: World, shard: nat, now: nat, order: seq<Slot>, p: Ptr)
    requires Inv(w) && Enabled(w, Collect(shard, now, order))
    ensures var w1 := Next(w, Collect(shard, now, order));
            && (forall slot :: slot in w1.store <==>
                  slot in w.store && !(slot.kind == Message && slot.shard == shard && slot.id < DeleteBefore(now)))
            && (forall slot :: slot in w1.store ==> w1.store[slot] == w.store[slot])
            && w1.active == w.active && w1.leaked == w.leaked && w1.held == w.held && w1.claims == w.claims
    ensures p in w.refs.refs ==>
              var lost := if p in w.home && w.home[p] in order then 1 else 0;
              var w1 := Next(w, Collect(shard, now, order));
              if w.refs.refs[p].visits == lost then p !in w1.refs.refs
              else p in w1.refs.refs && w1.refs.refs[p] == w.refs.refs[p].(visits := w.refs.refs[p].visits - lost)
  {
    DropAllKeeps(w, order);
    DropAllLeaves(w, order);
    if p in w.refs.refs {
      DropAllCosts(w, order, p);
    }
    hide Inv, DropAll, DeleteBefore;
    forall slot
      ensures slot in order <==>
                slot in w.store && slot.kind == Message && slot.shard == shard && slot.id < DeleteBefore(now)
    {
      SweptIff(MessageIds(w, shard), now, slot.id);
    }
  }
}
