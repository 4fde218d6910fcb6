/** The cache and the dispatch of events as the program runs them, refining CacheModel. */
module Cache {
  import opened Wrappers
  import opened CacheModel
  import opened CacheLaws
  import T = CacheTheorems
  import R = Refcount
  import Numbers

  lemma {:induction false} DropAllSnoc(w: World, order: seq<Slot>, slot: Slot)
    ensures DropAll(w, order + [slot]) == Drop(DropAll(w, order), slot)
    decreases |order|
  {
    if order == [] {
      assert [] + [slot] == [slot];
      assert [slot][1..] == [];
    } else {
      assert (order + [slot])[1..] == order[1..] + [slot];
      DropAllSnoc(Drop(w, order[0]), order[1..], slot);
    }
  }

  /** A bulk removal under way: `rest` is still to go. */
  ghost predicate Dropping(w0: World, w: World, order: seq<Slot>, all: set<Slot>, rest: set<Slot>) {
    w == DropAll(w0, order) && rest <= all && Enumerates(order, all - rest)
  }

  lemma DroppingNext(w0: World, w: World, order: seq<Slot>, all: set<Slot>, rest: set<Slot>, slot: Slot)
    requires Dropping(w0, w, order, all, rest) && slot in rest
    ensures Dropping(w0, Drop(w, slot), order + [slot], all, rest - {slot})
  {
    DropAllSnoc(w0, order, slot);
    assert slot !in order;
  }

  lemma {:induction false} ExtendRun(w: World, steps: seq<Step>, step: Step)
    requires Inv(w) && T.Legal(w, steps) && Enabled(T.After(w, steps), step)
    ensures T.Legal(w, steps + [step]) && T.After(w, steps + [step]) == T.Next(T.After(w, steps), step)
    decreases |steps|
  {
    hide Inv, Enabled, T.Next;
    if steps == [] {
      assert [] + [step] == [step];
      assert [step][1..] == [];
    } else {
      ExtendRun(T.Next(w, steps[0]), steps[1..], step);
      assert (steps + [step])[1..] == steps[1..] + [step];
    }
  }

  lemma UnclaimIs(w: World, p: Ptr)
    requires Inv(w) && w.claims[p] > 0
    ensures Enabled(w, Unclaim(p)) && R.UnclaimCall(w.refs, p).1 == R.OK
    ensures T.Next(w, Unclaim(p)) == w.(refs := R.UnclaimCall(w.refs, p).0, claims := w.claims - multiset{p})
  {
    T.NeverRefused(w, p);
    hide Inv, R.UnclaimCall;
  }

  class Client {
    const rc: R.Refcounter
    const total: nat
    const guildsOn: bool
    const messagesOn: bool

    var valid: seq<bool>
    var store: map<Slot, Ptr>
    var channels: map<Ptr, Snowflake>

    ghost var home: map<Ptr, Slot>
    ghost var active: set<Ptr>
    ghost var pending: map<Ptr, Event>
    ghost var leaked: set<Ptr>
    ghost var held: multiset<Ptr>
    /** What user code remembers of its claims. */
    var claims: multiset<Ptr>

    ghost function Snapshot(): World
      reads this, rc
    {
      World(rc.Snapshot(), total, valid, store, channels, guildsOn, messagesOn,
            home, active, pending, leaked, held, claims)
    }

    /** winecord_cache_enable */
    constructor (guilds: bool, messages: bool)
      ensures Snapshot() == Initial(1, guilds, messages) && Inv(Snapshot()) && fresh(rc)
    {
      rc := new R.Refcounter();
      total, guildsOn, messagesOn := 1, guilds, messages;
      valid, store, channels := seq(1, i => false), map[], map[];
      home, active, pending, leaked := map[], {}, map[], {};
      held, claims := multiset{}, multiset{};
      new;
      assert valid == Initial(1, guilds, messages).valid;
      T.InitialInv(1, guilds, messages);
    }

    // ------------------------------------------------------------------- the maps

    /** anomap_delete, with _on_map_changed or _on_guild_map_changed. */
    method Delete(slot: Slot)
      modifies this`store, this`home, rc
      ensures Snapshot() == Drop(old(Snapshot()), slot)
    {
      if slot in store {
        var p := store[slot];
        store := store - {slot};
        home := home - {p};
        var code := rc.Decr(p);
      }
    }

    /** anomap_upsert into a message map, with _on_map_changed. */
    method UpsertMessage(slot: Slot, p: Ptr)
      modifies this`store, this`home, rc
      ensures Snapshot() == PutMessage(Drop(old(Snapshot()), slot), slot, p)
    {
      ghost var w := Snapshot();
      if slot in store {
        var prev := store[slot];
        store := store[slot := p];
        home := home - {prev};
        var code := rc.Decr(prev);
      } else {
        store := store[slot := p];
      }
      home := home[p := slot];
      var code := rc.Incr(p);
      assert store == (w.store - {slot})[slot := p];
    }

    /** anomap_upsert into a guild map, with _on_guild_map_changed. */
    method UpsertGuild(slot: Slot, copy: Ptr)
      modifies this`store, this`home, rc
      ensures Snapshot() == PutGuild(Drop(old(Snapshot()), slot), slot, copy)
    {
      ghost var w := Snapshot();
      if slot in store {
        var prev := store[slot];
        store := store[slot := copy];
        home := home - {prev};
        var code := rc.Decr(prev);
      } else {
        store := store[slot := copy];
      }
      home := home[copy := slot];
      assert store == (w.store - {slot})[slot := copy];
    }

    // ---------------------------------------------------------------- the handlers

    /** The cache's callback for the event, if it has one. */
    method OnEvent(p: Ptr, event: Event) returns (ghost copy: Ptr)
      requires total > 0 && (event.Ready? ==> event.shard < |valid|)
      modifies this`valid, this`store, this`home, this`leaked, rc
      ensures copy !in old(rc.refs)
      ensures Snapshot() == HandleEvent(old(Snapshot()), p, event, copy)
    {
      var guild := Numbers.Unused(rc.refs.Keys);
      copy := guild;
      match event
      case Ready(shard) => valid := valid[shard := true];
      case MessageCreate(id, guildId, _) =>
        if messagesOn {
          var slot := Slot(Message, ShardOf(guildId, total), id);
          if slot !in store {
            Insert(slot, p);
          }
        }
      case MessageUpdate(id, guildId, _) =>
        if messagesOn {
          UpsertMessage(Slot(Message, ShardOf(guildId, total), id), p);
        }
      case MessageDelete(id, guildId) =>
        if messagesOn {
          Delete(Slot(Message, ShardOf(guildId, total), id));
        }
      case GuildCreate(id) =>
        if guildsOn {
          var slot := Slot(Guild, ShardOf(id, total), id);
          rc.Add(guild);
          if slot in store {
            leaked := leaked + {guild};
          } else {
            store := store[slot := guild];
            home := home[guild := slot];
          }
        }
      case GuildUpdate(id) =>
        if guildsOn {
          rc.Add(guild);
          UpsertGuild(Slot(Guild, ShardOf(id, total), id), guild);
        }
      case GuildDelete(id) =>
        if guildsOn {
          Delete(Slot(Guild, ShardOf(id, total), id));
        }
      case Other =>
    }

    /** anomap_insert into a message map, at a key that is not there. */
    method Insert(slot: Slot, p: Ptr)
      modifies this`store, this`home, rc
      ensures Snapshot() == PutMessage(old(Snapshot()), slot, p)
    {
      store := store[slot := p];
      home := home[p := slot];
      var code := rc.Incr(p);
    }

    // ----------------------------------------------------------- clearing and collecting

    /** Delete the given entries, in any order. */
    method DeleteAll(all: set<Slot>) returns (ghost order: seq<Slot>)
      modifies this`store, this`home, rc
      ensures Enumerates(order, all) && Snapshot() == DropAll(old(Snapshot()), order)
    {
      order := [];
      var rest := all;
      while rest != {}
        invariant Dropping(old(Snapshot()), Snapshot(), order, all, rest)
        decreases rest
      {
        var slot :| slot in rest;
        DroppingNext(old(Snapshot()), Snapshot(), order, all, rest, slot);
        hide Dropping, Drop;
        Delete(slot);
        order := order + [slot];
        rest := rest - {slot};
      }
      assert all - rest == all;
    }

    /** _winecord_shard_cache_cleanup */
    method ClearShard(shard: nat) returns (ghost order: seq<Slot>)
      modifies this`store, this`home, rc
      ensures Enumerates(order, Doomed(old(Snapshot()), Clear(shard, order)))
      ensures Snapshot() == DropAll(old(Snapshot()), order)
    {
      order := DeleteAll(set slot | slot in store && slot.shard == shard);
    }

    /** _on_shard_disconnected, in two sections under the lock. */
    method OnDisconnected(shard: nat, resumable: bool) returns (ghost steps: seq<Step>)
      requires Inv(Snapshot()) && shard < total
      modifies this`store, this`home, this`valid, rc
      ensures T.Legal(old(Snapshot()), steps) && Snapshot() == T.After(old(Snapshot()), steps)
      ensures resumable ==> store == old(store)
      ensures !resumable ==> forall slot :: slot in store <==> slot in old(store) && slot.shard != shard
      ensures valid == old(valid)[shard := false]
    {
      steps := [];
      if !resumable {
        steps := Cleared(shard);
      }
      ghost var step := Mark(shard, false);
      ExtendRun(old(Snapshot()), steps, step);
      valid := valid[shard := false];
      steps := steps + [step];
    }

    method Cleared(shard: nat) returns (ghost steps: seq<Step>)
      requires Inv(Snapshot()) && shard < total
      modifies this`store, this`home, rc
      ensures T.Legal(old(Snapshot()), steps) && Snapshot() == T.After(old(Snapshot()), steps) && Inv(Snapshot())
      ensures forall slot :: slot in store <==> slot in old(store) && slot.shard != shard
    {
      ghost var w := Snapshot();
      ghost var order := ClearShard(shard);
      ghost var step := Clear(shard, order);
      StepKeeps(w, step);
      DropAllKeeps(w, order);
      ExtendRun(w, [], step);
      assert [] + [step] == [step];
      steps := [step];
    }

    /** _on_shard_reconnected */
    method OnReconnected(shard: nat) returns (ghost steps: seq<Step>)
      requires Inv(Snapshot()) && shard < total
      modifies this`store, this`home, this`valid, rc
      ensures T.Legal(old(Snapshot()), steps) && Snapshot() == T.After(old(Snapshot()), steps)
      ensures forall slot :: slot in store <==> slot in old(store) && slot.shard != shard
      ensures valid == old(valid)[shard := true]
    {
      steps := Cleared(shard);
      ghost var step := Mark(shard, true);
      ExtendRun(old(Snapshot()), steps, step);
      valid := valid[shard := true];
      steps := steps + [step];
    }

    /** One shard's turn of _on_garbage_collection. */
    method CollectShard(shard: nat, now: nat) returns (ghost order: seq<Slot>)
      modifies this`store, this`home, rc
      ensures Enumerates(order, Doomed(old(Snapshot()), Collect(shard, now, order)))
      ensures Snapshot() == DropAll(old(Snapshot()), order)
    {
      ghost var w := Snapshot();
      var deleteBefore := DeleteBefore(now);
      var keys := set slot | slot in store && slot.kind == Message && slot.shard == shard :: slot.id;
      assert keys == MessageIds(w, shard);
      var idx: int := IndexOf(keys, deleteBefore);
      if idx != 0 {
        idx := idx - 1;
        var range := InRange(keys, idx);
        order := DeleteAll(set slot | slot in store && slot.kind == Message && slot.shard == shard && slot.id in range);
      } else {
        order := [];
      }
    }

    /** _on_garbage_collection; the result is what it leaves in its timer. */
    method OnGarbageCollection() returns (repeat: int, interval: int, ghost steps: seq<Step>)
      requires Inv(Snapshot())
      modifies this`store, this`home, rc
      ensures T.Legal(old(Snapshot()), steps) && Snapshot() == T.After(old(Snapshot()), steps)
      ensures |steps| == total
      ensures forall i :: 0 <= i < |steps| ==> steps[i].Collect? && steps[i].shard == i
      ensures repeat == 1 && interval == 60000
    {
      steps := [];
      for i := 0 to total
        invariant T.Legal(old(Snapshot()), steps) && Snapshot() == T.After(old(Snapshot()), steps)
        invariant |steps| == i
        invariant forall i :: 0 <= i < |steps| ==> steps[i].Collect? && steps[i].shard == i
      {
        var now: nat := *;
        ghost var w := Snapshot();
        ghost var order := CollectShard(i, now);
        ghost var step := Collect(i, now, order);
        hide Inv, DropAll, DeleteBefore;
        ExtendRun(old(Snapshot()), steps, step);
        steps := steps + [step];
      }
      repeat := 1;
      interval := 1000 * 60;
    }

    // ------------------------------------------------------------------ the getters

    /** winecord_claim, whose assertion needs the resource to be there. */
    method ClaimResource(p: Ptr)
      requires Inv(Snapshot()) && p in rc.refs && R.Room(rc.Snapshot(), p)
      modifies this`claims, rc
      ensures Snapshot() == Claimed(old(Snapshot()), Some(p))
    {
      var code := rc.Claim(p);
      assert code == R.OK;
      claims := claims + multiset{p};
    }

    /** winecord_unclaim, of a claim that is outstanding: its assertion holds. */
    method UnclaimResource(p: Ptr)
      requires Inv(Snapshot()) && claims[p] > 0
      modifies this`claims, rc
      ensures Enabled(old(Snapshot()), Unclaim(p))
      ensures Snapshot() == T.Next(old(Snapshot()), Unclaim(p))
    {
      UnclaimIs(Snapshot(), p);
      hide Inv, Enabled, T.Next, R.UnclaimCall;
      var code := rc.Unclaim(p);
      assert code == R.OK;
      claims := claims - multiset{p};
    }

    /** winecord_cache_get_channel_message */
    method GetChannelMessage(channel: Snowflake, id: Snowflake) returns (result: Option<Ptr>)
      requires Inv(Snapshot()) && Enabled(Snapshot(), GetMessage(channel, id))
      modifies this`claims, rc
      ensures result == FindMessage(old(Snapshot()), channel, id)
      ensures Snapshot() == T.Next(old(Snapshot()), GetMessage(channel, id))
    {
      FoundIsCached(Snapshot(), channel, id);
      ghost var w := Snapshot();
      for i := 0 to total
        invariant Snapshot() == w
        invariant FirstShard(w, id, 0) == FirstShard(w, id, i)
      {
        var slot := Slot(Message, i, id);
        if slot in store {
          var message := Some(store[slot]);
          var isValid := valid[i];
          if channels[store[slot]] != channel {
            message := None;
          }
          if message.Some? && isValid {
            RoomToGive(w, message.value);
            ClaimResource(message.value);
          }
          result := if isValid then message else None;
          return;
        }
      }
      result := None;
    }

    /** winecord_cache_get_guild */
    method CacheGetGuild(id: Snowflake) returns (result: Option<Ptr>)
      requires Inv(Snapshot()) && Enabled(Snapshot(), GetGuild(id))
      modifies this`claims, rc
      ensures result == FindGuild(old(Snapshot()), id)
      ensures Snapshot() == T.Next(old(Snapshot()), GetGuild(id))
    {
      FoundIsCached(Snapshot(), 0, id);
      var slot := Slot(Guild, ShardOf(id, total), id);
      result := None;
      if slot in store && valid[slot.shard] {
        RoomToGive(Snapshot(), store[slot]);
        ClaimResource(store[slot]);
        result := Some(store[slot]);
      }
    }

    // ---------------------------------------------------------------------- dispatch

    /** gateway_dispatch, up to the callbacks. */
    method Arrived(event: Event, consumed: bool) returns (p: Ptr)
      requires Inv(Snapshot()) && (event.Ready? ==> event.shard < total)
      modifies this`channels, this`active, this`pending, rc
      ensures Enabled(old(Snapshot()), Arrive(p, event, consumed))
      ensures Snapshot() == T.Next(old(Snapshot()), Arrive(p, event, consumed))
      ensures p in rc.refs && rc.refs[p] == R.Ref(1, 0)
    {
      p := Numbers.Unused(rc.refs.Keys);
      if event.MessageCreate? || event.MessageUpdate? {
        channels := channels[p := event.channel];
      }
      rc.Take(p);
      active := active + {p};
      pending := if consumed then pending else pending[p := event];
    }

    /** Some call of user code. */
    method UserCall(call: UserRequest) returns (ghost steps: seq<Step>)
      requires Inv(Snapshot())
      modifies this`claims, rc
      ensures T.Legal(old(Snapshot()), steps) && Snapshot() == T.After(old(Snapshot()), steps) && Inv(Snapshot())
      ensures forall i :: 0 <= i < |steps| ==> steps[i].GetMessage? || steps[i].GetGuild? || steps[i].Unclaim?
    {
      steps := [];
      ghost var w := Snapshot();
      match call
      case AskMessage(channel, id) =>
        if forall p :: p in rc.refs ==> rc.refs[p].visits < R.INT_MAX {
          MessageRoom(w, channel, id);
          var message := GetChannelMessage(channel, id);
          steps := OneStep(w, GetMessage(channel, id));
        }
      case AskGuild(id) =>
        if forall p :: p in rc.refs ==> rc.refs[p].visits < R.INT_MAX {
          GuildRoom(w, id);
          var guild := CacheGetGuild(id);
          steps := OneStep(w, GetGuild(id));
        }
      case GiveBack(p) =>
        if claims[p] > 0 {
          UnclaimResource(p);
          steps := OneStep(w, Unclaim(p));
        }
    }

    /** User code: any calls of the getters, and any giving back of what it has claimed. */
    method UserCode() returns (ghost steps: seq<Step>)
      requires Inv(Snapshot())
      modifies this`claims, rc
      ensures T.Legal(old(Snapshot()), steps) && Snapshot() == T.After(old(Snapshot()), steps) && Inv(Snapshot())
      ensures forall i :: 0 <= i < |steps| ==> steps[i].GetMessage? || steps[i].GetGuild? || steps[i].Unclaim?
    {
      steps := [];
      var calls: seq<UserRequest> := *;
      for i := 0 to |calls|
        invariant Inv(Snapshot())
        invariant T.Legal(old(Snapshot()), steps) && Snapshot() == T.After(old(Snapshot()), steps)
        invariant forall i :: 0 <= i < |steps| ==> steps[i].GetMessage? || steps[i].GetGuild? || steps[i].Unclaim?
      {
        hide Inv;
        ghost var more := UserCall(calls[i]);
        JoinRuns(old(Snapshot()), steps, more);
        steps := steps + more;
      }
    }

    /** The cache's callback, the first of the two. */
    method CacheCallback(p: Ptr, event: Event) returns (ghost step: Step)
      requires Inv(Snapshot()) && p in pending && pending[p] == event && R.Room(rc.Snapshot(), p)
      modifies this`valid, this`store, this`home, this`pending, this`leaked, rc
      ensures step.Handle? && step.p == p && step.event == event
      ensures Enabled(old(Snapshot()), step) && Snapshot() == T.Next(old(Snapshot()), step)
      ensures pending == old(pending) - {p}
    {
      ghost var w := Snapshot();
      hide Inv, HandleEvent;
      ShardInRange(w, p);
      pending := pending - {p};
      ghost var copy := OnEvent(p, event);
      step := Handle(p, event, copy);
    }

    /** The last reference of the dispatch is given back. */
    method Depart(p: Ptr)
      requires Inv(Snapshot()) && p in active && p !in pending
      modifies this`active, rc
      ensures Enabled(old(Snapshot()), Leave(p)) && Snapshot() == T.Next(old(Snapshot()), Leave(p))
      ensures active == old(active) - {p}
    {
      hide Inv, R.DecrCall;
      active := active - {p};
      var code := rc.Decr(p);
    }

    /** The event arrives, and the cache sees it unless a command consumes it. */
    method Begin(event: Event, consumed: bool) returns (p: Ptr, ghost steps: seq<Step>)
      requires Inv(Snapshot()) && (event.Ready? ==> event.shard < total)
      modifies this`valid, this`store, this`channels, this`home, this`active, this`pending, this`leaked, rc
      ensures T.Legal(old(Snapshot()), steps) && Snapshot() == T.After(old(Snapshot()), steps) && Inv(Snapshot())
      ensures |steps| >= 1 && steps[0] == Arrive(p, event, consumed)
      ensures !consumed ==> |steps| >= 2 && steps[1].Handle? && steps[1].p == p && steps[1].event == event
      ensures p !in old(rc.refs) && p !in old(active) && active == old(active) + {p} && p !in pending
    {
      hide Inv, Enabled, T.Next, T.Legal, T.After;
      ghost var w := Snapshot();
      AllAbsent(w);
      p := Arrived(event, consumed);
      ArrivedIs(w, p, event, consumed);
      steps := OneStep(w, Arrive(p, event, consumed));
      if !consumed {
        ghost var step := CacheCallback(p, event);
        ExtendRun(w, steps, step);
        steps := steps + [step];
      }
    }

    /** winecord_gateway_dispatch: the event is live for both callbacks, and afterwards exactly while
        somebody else holds it. */
    method Dispatch(event: Event, consumed: bool) returns (ghost p: Ptr, ghost steps: seq<Step>)
      requires Inv(Snapshot()) && (event.Ready? ==> event.shard < total)
      modifies this`valid, this`store, this`channels, this`home, this`active, this`pending, this`leaked, this`claims, rc
      ensures T.Legal(old(Snapshot()), steps) && Snapshot() == T.After(old(Snapshot()), steps) && Inv(Snapshot())
      ensures |steps| >= 2 && steps[0] == Arrive(p, event, consumed) && steps[|steps| - 1] == Leave(p)
      ensures !consumed ==> |steps| >= 3 && steps[1].Handle? && steps[1].p == p && steps[1].event == event
      ensures p !in old(rc.refs) && active == old(active)
      ensures p in rc.refs <==> Plain(Snapshot(), p) + claims[p] > 0
    {
      hide Inv, Enabled, T.Next, T.Legal, T.After, Plain;
      ghost var w := Snapshot();
      var q;
      q, steps := Begin(event, consumed);
      p := q;
      ghost var more := UserCode();
      JoinRuns(w, steps, more);
      steps := steps + more;
      Depart(q);
      ExtendRun(w, steps, Leave(p));
      steps := steps + [Leave(p)];
      Outlives(Snapshot(), p);
    }
  }

  lemma ShardInRange(w: World, p: Ptr)
    requires Inv(w) && p in w.pending
    ensures w.total > 0 && (w.pending[p].Ready? ==> w.pending[p].shard < |w.valid|)
  {
  }

  lemma AllAbsent(w: World)
    requires Inv(w)
    ensures forall p :: p !in w.refs.refs ==> p !in w.active && p !in w.pending
  {
    forall p | p !in w.refs.refs
      ensures p !in w.active && p !in w.pending
    {
      AbsentHasNone(w, p);
    }
  }

  lemma ArrivedIs(w: World, p: Ptr, event: Event, consumed: bool)
    requires Inv(w) && Enabled(w, Arrive(p, event, consumed))
    ensures var w1 := T.Next(w, Arrive(p, event, consumed));
            && w1.active == w.active + {p} && w1.pending == if consumed then w.pending else w.pending[p := event]
  {
  }

  lemma Outlives(w: World, p: Ptr)
    requires Inv(w)
    ensures p in w.refs.refs <==> Plain(w, p) + w.claims[p] > 0
  {
    assert CountOk(w, p);
  }

  datatype UserRequest =
    | AskMessage(channel: Snowflake, id: Snowflake)
    | AskGuild(id: Snowflake)
    | GiveBack(p: Ptr)

  ghost function OneStep(w: World, step: Step): (steps: seq<Step>)
    requires Inv(w) && Enabled(w, step)
    ensures steps == [step] && T.Legal(w, steps) && T.After(w, steps) == T.Next(w, step)
  {
    assert [step][1..] == [];
    [step]
  }

  lemma MessageRoom(w: World, channel: Snowflake, id: Snowflake)
    requires Inv(w) && forall p :: p in w.refs.refs ==> R.Room(w.refs, p)
    ensures Enabled(w, GetMessage(channel, id))
  {
    FoundIsCached(w, channel, id);
    hide FindMessage, Inv;
  }

  lemma GuildRoom(w: World, id: Snowflake)
    requires Inv(w) && forall p :: p in w.refs.refs ==> R.Room(w.refs, p)
    ensures Enabled(w, GetGuild(id))
  {
    FoundIsCached(w, 0, id);
    hide FindGuild, Inv;
  }

  lemma {:induction false} JoinRuns(w: World, steps: seq<Step>, more: seq<Step>)
    requires Inv(w) && T.Legal(w, steps) && T.Legal(T.After(w, steps), more)
    ensures T.Legal(w, steps + more) && T.After(w, steps + more) == T.After(T.After(w, steps), more)
    decreases |steps|
  {
    hide Inv, Enabled, T.Next;
    if steps == [] {
      assert [] + more == more;
    } else {
      JoinRuns(T.Next(w, steps[0]), steps[1..], more);
      assert (steps + more)[1..] == steps[1..] + more;
    }
  }
}
