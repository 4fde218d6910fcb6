/** Every step of the cache keeps its invariant; what that means for pointers over whole runs. */
module CacheLaws {
  import opened Wrappers
  import opened CacheModel
  import R = Refcount

  // ------------------------------------------------------------ references, one at a time

  lemma OthersAgree(t: R.Table, op: R.Op, q: Ptr, plain: nat, claims: nat)
    requires q != op.p
    ensures R.Agrees(t, q, plain, claims) <==> R.Agrees(R.Do(t, op).0, q, plain, claims)
    ensures R.Once(t, q) <==> R.Once(R.Do(t, op).0, q)
  {
  }

  /** One reference or claim changes, and the table with it. */
  lemma OneCounted(w: World, w1: World, op: R.Op)
    requires Counted(w) && w1.refs == R.Do(w.refs, op).0
    requires (op.Incr? || op.Claim? ==> op.p in w.refs.refs) && R.Room(w.refs, op.p)
    requires (op.Decr? ==> Plain(w, op.p) > 0) && (op.Unclaim? ==> w.claims[op.p] > 0)
    requires Plain(w1, op.p) == Plain(w, op.p) + if op.Incr? || op.Take? then 1 else if op.Decr? then -1 else 0
    requires w1.claims[op.p] == w.claims[op.p] + if op.Claim? then 1 else if op.Unclaim? then -1 else 0
    requires forall q :: q != op.p ==> Plain(w1, q) == Plain(w, q) && w1.claims[q] == w.claims[q]
    ensures Counted(w1)
  {
    forall q
      ensures CountOk(w1, q)
    {
      assert CountOk(w, q);
      if q == op.p {
        R.StepAgrees(w.refs, op, q, Plain(w, q), w.claims[q]);
      } else {
        OthersAgree(w.refs, op, q, Plain(w, q), w.claims[q]);
      }
    }
  }

  /** Counts below the limit stay there; giving back always has room. */
  lemma RoomToGive(w: World, p: Ptr)
    requires Counted(w) && Plain(w, p) + w.claims[p] > 0
    ensures p in w.refs.refs && w.refs.refs[p] == R.Ref(Plain(w, p) + w.claims[p], w.claims[p])
  {
    assert CountOk(w, p);
  }

  lemma AbsentHasNone(w: World, p: Ptr)
    requires Counted(w) && p !in w.refs.refs
    ensures p !in w.home && p !in w.active && p !in w.leaked && w.held[p] == 0 && w.claims[p] == 0
  {
    assert CountOk(w, p);
  }

  lemma GiveCounted(w: World, w1: World, p: Ptr)
    requires Counted(w) && Plain(w, p) > 0 && w1.refs == R.DecrCall(w.refs, p).0 && w1.claims == w.claims
    requires Plain(w1, p) == Plain(w, p) - 1 && forall q :: q != p ==> Plain(w1, q) == Plain(w, q)
    ensures Counted(w1)
  {
    forall q
      ensures CountOk(w1, q)
    {
      assert CountOk(w, q);
    }
  }

  lemma UnclaimCounted(w: World, w1: World, p: Ptr)
    requires Counted(w) && w.claims[p] > 0 && w1.refs == R.UnclaimCall(w.refs, p).0
    requires w1.claims == w.claims - multiset{p} && forall q :: Plain(w1, q) == Plain(w, q)
    ensures Counted(w1)
  {
    forall q
      ensures CountOk(w1, q)
    {
      assert CountOk(w, q);
    }
  }

  // ------------------------------------------------------------------------- the maps

  lemma DropKeeps(w: World, slot: Slot)
    requires Inv(w)
    ensures Inv(Drop(w, slot)) && Drop(w, slot).store == w.store - {slot}
  {
    if slot in w.store {
      GiveCounted(w, Drop(w, slot), w.store[slot]);
    }
  }

  lemma {:induction false} DropAllKeeps(w: World, order: seq<Slot>)
    requires Inv(w)
    ensures Inv(DropAll(w, order))
    ensures DropAll(w, order).store == w.store - (set slot | slot in order)
    decreases |order|
  {
    if order != [] {
      DropKeeps(w, order[0]);
      hide Inv, Drop;
      DropAllKeeps(Drop(w, order[0]), order[1..]);
      SlotsSplit(order);
    }
  }

  lemma SlotsSplit(order: seq<Slot>)
    requires order != []
    ensures (set slot | slot in order) == {order[0]} + (set slot | slot in order[1..])
  {
    assert order == [order[0]] + order[1..];
  }

  lemma PutMessageKeeps(w: World, slot: Slot, p: Ptr)
    requires Inv(w) && slot !in w.store && slot.shard < w.total && p in w.channels
    requires p in w.refs.refs && R.Room(w.refs, p) && p !in w.home && p !in w.pending
    ensures Inv(PutMessage(w, slot, p))
  {
    OneCounted(w, PutMessage(w, slot, p), R.Incr(p));
  }

  /** A copy not yet in the map counts as one nobody can reach. */
  function Copied(w: World, copy: Ptr): World {
    w.(refs := R.AddCall(w.refs, copy), leaked := w.leaked + {copy})
  }

  lemma CopiedKeeps(w: World, copy: Ptr)
    requires Inv(w) && copy !in w.refs.refs
    ensures Inv(Copied(w, copy)) && copy !in w.leaked && copy !in w.home && copy !in w.pending && copy !in w.active
  {
    AbsentHasNone(w, copy);
    OneCounted(w, Copied(w, copy), R.Take(copy));
  }

  lemma PutGuildKeeps(w: World, slot: Slot, copy: Ptr)
    requires Inv(w) && slot !in w.store && slot.shard < w.total && slot.kind == Guild
    requires copy in w.leaked && copy !in w.home && copy !in w.pending
    ensures Inv(PutGuild(w, slot, copy).(leaked := w.leaked - {copy}))
  {
    var w1 := PutGuild(w, slot, copy).(leaked := w.leaked - {copy});
    forall q
      ensures CountOk(w1, q)
    {
      assert CountOk(w, q);
    }
  }

  lemma DropCopied(w: World, copy: Ptr, slot: Slot)
    requires Inv(w) && copy !in w.refs.refs
    ensures Drop(Copied(w, copy), slot) == Drop(w.(refs := R.AddCall(w.refs, copy)), slot).(leaked := w.leaked + {copy})
    ensures Drop(Copied(w, copy), slot).leaked - {copy} == w.leaked
    ensures copy !in Drop(Copied(w, copy), slot).home
  {
    AbsentHasNone(w, copy);
  }

  // ------------------------------------------------------------------------- the steps

  lemma SeenKeeps(w: World, p: Ptr)
    requires Inv(w) && p in w.pending
    ensures Inv(w.(pending := w.pending - {p})) && p in w.refs.refs && p !in w.home
  {
    assert CountOk(w, p);
    var w1 := w.(pending := w.pending - {p});
    forall q
      ensures CountOk(w1, q)
    {
      assert CountOk(w, q);
    }
  }

  lemma MessageKeeps(w: World, p: Ptr, event: Event, copy: Ptr)
    requires Inv(w) && p in w.refs.refs && p !in w.home && p !in w.pending && R.Room(w.refs, p)
    requires event.MessageCreate? || event.MessageUpdate? || event.MessageDelete?
    requires event.MessageDelete? || p in w.channels
    requires p in w.active
    ensures Inv(HandleEvent(w, p, event, copy))
  {
    var slot := MessageSlot(w, event.guild, event.id);
    DropKeeps(w, slot);
    if slot !in w.store {
      if !event.MessageDelete? {
        PutMessageKeeps(w, slot, p);
      }
    } else if event.MessageUpdate? && w.messagesOn {
      assert w.home[w.store[slot]] == slot;
      PutMessageKeeps(Drop(w, slot), slot, p);
    }
  }

  lemma GuildUpdateKeeps(w: World, slot: Slot, copy: Ptr)
    requires Inv(w) && copy !in w.refs.refs && slot.shard < w.total && slot.kind == Guild
    ensures Inv(PutGuild(Drop(w.(refs := R.AddCall(w.refs, copy)), slot), slot, copy))
  {
    CopiedKeeps(w, copy);
    DropCopied(w, copy, slot);
    DropKeeps(Copied(w, copy), slot);
    DropFrame(Copied(w, copy), slot);
    hide Inv, Drop;
    PutGuildKeeps(Drop(Copied(w, copy), slot), slot, copy);
  }

  lemma DropFrame(w: World, slot: Slot)
    ensures var w1 := Drop(w, slot);
            w1 == w.(refs := w1.refs, store := w1.store, home := w1.home)
  {
  }

  lemma GuildKeeps(w: World, p: Ptr, event: Event, copy: Ptr)
    requires Inv(w) && copy !in w.refs.refs
    requires event.GuildCreate? || event.GuildUpdate? || event.GuildDelete?
    ensures Inv(HandleEvent(w, p, event, copy))
  {
    var slot := GuildSlot(w, event.id);
    CopiedKeeps(w, copy);
    if event.GuildDelete? {
      DropKeeps(w, slot);
    } else if w.guildsOn && event.GuildUpdate? {
      GuildUpdateKeeps(w, slot, copy);
    } else if w.guildsOn && slot !in w.store {
      PutGuildKeeps(Copied(w, copy), slot, copy);
      assert w.leaked + {copy} - {copy} == w.leaked;
    }
    hide Inv;
  }

  lemma HandleKeeps(w: World, step: Step)
    requires Inv(w) && step.Handle? && Enabled(w, step)
    ensures Inv(Do(w, step))
  {
    var w1 := w.(pending := w.pending - {step.p});
    SeenKeeps(w, step.p);
    match step.event {
      case Ready(shard) => FrameInv(w1, w1.(valid := w1.valid[shard := true]));
      case Other =>
      case GuildCreate(_) => GuildKeeps(w1, step.p, step.event, step.copy);
      case GuildUpdate(_) => GuildKeeps(w1, step.p, step.event, step.copy);
      case GuildDelete(_) => GuildKeeps(w1, step.p, step.event, step.copy);
      case _ => MessageKeeps(w1, step.p, step.event, step.copy);
    }
  }

  /** Validity is no concern of the references. */
  lemma FrameInv(w: World, w1: World)
    requires Inv(w) && w1 == w.(valid := w1.valid) && |w1.valid| == |w.valid|
    ensures Inv(w1)
  {
    forall q
      ensures CountOk(w1, q)
    {
      assert CountOk(w, q);
    }
  }

  lemma ArriveKeeps(w: World, step: Step)
    requires Inv(w) && step.Arrive? && Enabled(w, step)
    ensures Inv(Do(w, step))
  {
    AbsentHasNone(w, step.p);
    OneCounted(w, Do(w, step), R.Take(step.p));
  }

  lemma ClaimedKeeps(w: World, p: Ptr)
    requires Inv(w) && p in w.refs.refs && R.Room(w.refs, p)
    ensures Inv(Claimed(w, Some(p)))
  {
    OneCounted(w, Claimed(w, Some(p)), R.Claim(p));
  }

  lemma FoundIsCached(w: World, channel: Snowflake, id: Snowflake)
    requires Inv(w)
    ensures FindMessage(w, channel, id).Some? ==> FindMessage(w, channel, id).value in w.home
    ensures FindGuild(w, id).Some? ==> FindGuild(w, id).value in w.home
  {
  }

  /** Requests take a reference, of a resource that is there or is added, and give one back. */
  lemma HoldKeeps(w: World, w1: World, p: Ptr, op: R.Op)
    requires Inv(w) && R.Room(w.refs, p)
    requires op == R.Take(p) || (op == R.Incr(p) && p in w.refs.refs)
    requires w1 == w.(refs := R.Do(w.refs, op).0, held := w.held + multiset{p})
    ensures Inv(w1)
  {
    OneCounted(w, w1, op);
  }

  lemma ReleaseKeeps(w: World, p: Ptr)
    requires Inv(w) && w.held[p] > 0
    ensures Inv(w.(refs := R.DecrCall(w.refs, p).0, held := w.held - multiset{p}))
  {
    GiveCounted(w, w.(refs := R.DecrCall(w.refs, p).0, held := w.held - multiset{p}), p);
  }

  lemma LeaveKeeps(w: World, p: Ptr)
    requires Inv(w) && p in w.active && p !in w.pending
    ensures Inv(w.(refs := R.DecrCall(w.refs, p).0, active := w.active - {p}))
  {
    GiveCounted(w, w.(refs := R.DecrCall(w.refs, p).0, active := w.active - {p}), p);
  }

  lemma UnclaimKeeps(w: World, p: Ptr)
    requires Inv(w) && w.claims[p] > 0
    ensures Inv(w.(refs := R.UnclaimCall(w.refs, p).0, claims := w.claims - multiset{p}))
  {
    UnclaimCounted(w, w.(refs := R.UnclaimCall(w.refs, p).0, claims := w.claims - multiset{p}), p);
  }

  /** Every step keeps the invariant. */
  lemma StepKeeps(w: World, step: Step)
    requires Inv(w) && Enabled(w, step)
    ensures Inv(Do(w, step))
  {
    match step
    case Arrive(_, _, _) => ArriveKeeps(w, step);
    case Handle(_, _, _) => HandleKeeps(w, step);
    case Leave(p) => LeaveKeeps(w, p);
    case Clear(_, order) => DropAllKeeps(w, order);
    case Mark(_, _) => FrameInv(w, Do(w, step));
    case Collect(_, _, order) => DropAllKeeps(w, order);
    case GetMessage(channel, id) =>
      FoundIsCached(w, channel, id);
      if FindMessage(w, channel, id).Some? {
        RoomToGive(w, FindMessage(w, channel, id).value);
        ClaimedKeeps(w, FindMessage(w, channel, id).value);
      }
    case GetGuild(id) =>
      FoundIsCached(w, 0, id);
      if FindGuild(w, id).Some? {
        RoomToGive(w, FindGuild(w, id).value);
        ClaimedKeeps(w, FindGuild(w, id).value);
      }
    case Claim(p) => ClaimedKeeps(w, p);
    case Unclaim(p) => UnclaimKeeps(w, p);
    case Keep(p) => HoldKeeps(w, Do(w, step), p, R.Incr(p));
    case Adopt(p) => HoldKeeps(w, Do(w, step), p, R.Take(p));
    case Release(p) => ReleaseKeeps(w, p);
  }
}
