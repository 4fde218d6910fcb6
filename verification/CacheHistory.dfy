/** The maps of the cache, and what its getters return, as functions of the history of events. */
module CacheHistory {
  import opened Wrappers
  import opened CacheModel
  import opened CacheLaws
  import opened CacheTheorems
  import R = Refcount

  /** What winecord_cache_enable was called with. */
  datatype Setup = Setup(total: nat, guildsOn: bool, messagesOn: bool)

  function SetupOf(w: World): Setup {
    Setup(w.total, w.guildsOn, w.messagesOn)
  }

  /** A cached resource, and the channel id if it is a message. */
  datatype Content = Content(p: Ptr, channel: Snowflake)

  function Lookup(w: World, slot: Slot): Option<Content>
    requires forall s :: s in w.store && s.kind == Message ==> w.store[s] in w.channels
  {
    if slot !in w.store then None
    else Some(Content(w.store[slot], if slot.kind == Message then w.channels[w.store[slot]] else 0))
  }

  /** The entry at `slot` after an event: created entries do not replace, updates do. */
  function EntryAfterEvent(before: Option<Content>, slot: Slot, p: Ptr, event: Event, copy: Ptr, u: Setup)
    : Option<Content>
    requires u.total > 0
  {
    match event
    case MessageCreate(id, guild, channel) =>
      if u.messagesOn && slot == Slot(Message, ShardOf(guild, u.total), id) && before.None?
      then Some(Content(p, channel)) else before
    case MessageUpdate(id, guild, channel) =>
      if u.messagesOn && slot == Slot(Message, ShardOf(guild, u.total), id)
      then Some(Content(p, channel)) else before
    case MessageDelete(id, guild) =>
      if u.messagesOn && slot == Slot(Message, ShardOf(guild, u.total), id) then None else before
    case GuildCreate(id) =>
      if u.guildsOn && slot == Slot(Guild, ShardOf(id, u.total), id) && before.None?
      then Some(Content(copy, 0)) else before
    case GuildUpdate(id) =>
      if u.guildsOn && slot == Slot(Guild, ShardOf(id, u.total), id) then Some(Content(copy, 0)) else before
    case GuildDelete(id) =>
      if u.guildsOn && slot == Slot(Guild, ShardOf(id, u.total), id) then None else before
    case Ready(_) => before
    case Other => before
  }

  function EntryAfterStep(before: Option<Content>, slot: Slot, step: Step, u: Setup): Option<Content>
    requires u.total > 0
  {
    match step
    case Handle(p, event, copy) => EntryAfterEvent(before, slot, p, event, copy, u)
    case Clear(shard, _) => if slot.shard == shard then None else before
    case Collect(shard, now, _) =>
      if slot.kind == Message && slot.shard == shard && slot.id < DeleteBefore(now) then None else before
    case _ => before
  }

  /** The fold of one entry over the history. */
  function Entry(before: Option<Content>, slot: Slot, steps: seq<Step>, u: Setup): Option<Content>
    requires u.total > 0
    decreases |steps|
  {
    if steps == [] then before else Entry(EntryAfterStep(before, slot, steps[0], u), slot, steps[1..], u)
  }

  /** Ready, resumed and reconnected shards are valid until they are disconnected. */
  function Validity(before: bool, shard: nat, steps: seq<Step>): bool
    decreases |steps|
  {
    if steps == [] then before else Validity(ValidAfterStep(before, shard, steps[0]), shard, steps[1..])
  }

  function ValidAfterStep(before: bool, shard: nat, step: Step): bool {
    match step
    case Handle(_, Ready(s), _) => before || s == shard
    case Mark(s, isValid) => if s == shard then isValid else before
    case _ => before
  }

  // ----------------------------------------------------------------------- refinement

  /** The channel id of every cached message is known. */
  ghost predicate Readable(w: World) {
    forall s :: s in w.store && s.kind == Message ==> w.store[s] in w.channels
  }

  lemma DropEntry(w: World, gone: Slot, slot: Slot)
    requires Readable(w)
    ensures var w1 := Drop(w, gone);
            && w1.channels == w.channels && SetupOf(w1) == SetupOf(w) && Readable(w1)
            && Lookup(w1, slot) == (if slot == gone then None else Lookup(w, slot))
  {
  }

  lemma PutEntry(w: World, put: Slot, p: Ptr, slot: Slot)
    requires Readable(w) && p in w.channels && put.kind == Message
    ensures var w1 := PutMessage(w, put, p);
            && w1.channels == w.channels && SetupOf(w1) == SetupOf(w) && Readable(w1)
            && Lookup(w1, slot) == if slot == put then Some(Content(p, w.channels[p])) else Lookup(w, slot)
  {
  }

  lemma PutGuildEntry(w: World, put: Slot, copy: Ptr, slot: Slot)
    requires Readable(w) && put.kind == Guild
    ensures var w1 := PutGuild(w, put, copy);
            && w1.channels == w.channels && SetupOf(w1) == SetupOf(w) && Readable(w1)
            && Lookup(w1, slot) == if slot == put then Some(Content(copy, 0)) else Lookup(w, slot)
  {
  }

  lemma MessageEntry(w: World, p: Ptr, event: Event, copy: Ptr, slot: Slot)
    requires Readable(w) && w.total > 0 && (event.MessageCreate? || event.MessageUpdate? || event.MessageDelete?)
    requires event.MessageDelete? || (p in w.channels && w.channels[p] == event.channel)
    ensures var w1 := HandleEvent(w, p, event, copy);
            && SetupOf(w1) == SetupOf(w) && Readable(w1)
            && Lookup(w1, slot) == EntryAfterEvent(Lookup(w, slot), slot, p, event, copy, SetupOf(w))
  {
    var at := MessageSlot(w, event.guild, event.id);
    DropEntry(w, at, slot);
    hide Readable;
    if !event.MessageDelete? {
      PutEntry(w, at, p, slot);
      PutEntry(Drop(w, at), at, p, slot);
    }
    hide Drop, PutMessage;
  }

  lemma GuildEntry(w: World, p: Ptr, event: Event, copy: Ptr, slot: Slot)
    requires Readable(w) && w.total > 0 && (event.GuildCreate? || event.GuildUpdate? || event.GuildDelete?)
    ensures var w1 := HandleEvent(w, p, event, copy);
            && SetupOf(w1) == SetupOf(w) && Readable(w1)
            && Lookup(w1, slot) == EntryAfterEvent(Lookup(w, slot), slot, p, event, copy, SetupOf(w))
  {
    var at := GuildSlot(w, event.id);
    var w0 := w.(refs := R.AddCall(w.refs, copy));
    assert Readable(w0) && Lookup(w0, slot) == Lookup(w, slot);
    DropEntry(w, at, slot);
    DropEntry(w0, at, slot);
    PutGuildEntry(w0, at, copy, slot);
    PutGuildEntry(Drop(w0, at), at, copy, slot);
    assert Readable(w0.(leaked := w.leaked + {copy}));
    hide Drop, PutGuild, Readable;
  }

  lemma BulkEntry(w: World, step: Step, slot: Slot)
    requires Inv(w) && Enabled(w, step) && (step.Clear? || step.Collect?)
    ensures var w1 := Do(w, step);
            Inv(w1) && SetupOf(w1) == SetupOf(w)
            && Lookup(w1, slot) == EntryAfterStep(Lookup(w, slot), slot, step, SetupOf(w))
  {
    DropAllKeeps(w, step.order);
    DropAllLeaves(w, step.order);
    if step.Collect? {
      SweptIff(MessageIds(w, step.shard), step.now, slot.id);
    }
    assert slot in step.order <==> slot in Doomed(w, step);
    hide Inv;
  }

  /** Memory is written only while it is new, so what is cached does not change under the cache. */
  lemma ArriveEntry(w: World, step: Step, slot: Slot)
    requires Inv(w) && step.Arrive? && Enabled(w, step)
    ensures Inv(Next(w, step)) && SetupOf(Next(w, step)) == SetupOf(w)
    ensures Lookup(Next(w, step), slot) == Lookup(w, slot)
  {
    AbsentHasNone(w, step.p);
  }

  lemma HandleEntry(w: World, p: Ptr, event: Event, copy: Ptr, slot: Slot)
    requires Inv(w) && Enabled(w, Handle(p, event, copy))
    ensures var w1 := Do(w, Handle(p, event, copy));
            && SetupOf(w1) == SetupOf(w) && Readable(w1)
            && Lookup(w1, slot) == EntryAfterEvent(Lookup(w, slot), slot, p, event, copy, SetupOf(w))
  {
    var w0 := w.(pending := w.pending - {p});
    assert Readable(w0) && Lookup(w0, slot) == Lookup(w, slot);
    hide Counted, Linked;
    if event.GuildCreate? || event.GuildUpdate? || event.GuildDelete? {
      hide Inv;
      GuildEntry(w0, p, event, copy, slot);
    } else if !event.Ready? && !event.Other? {
      MessageEntry(w0, p, event, copy, slot);
    }
  }

  lemma OtherEntry(w: World, step: Step, slot: Slot)
    requires Inv(w) && Enabled(w, step) && !step.Arrive? && !step.Handle? && !step.Clear? && !step.Collect?
    ensures SetupOf(Next(w, step)) == SetupOf(w)
    ensures Lookup(Next(w, step), slot) == Lookup(w, slot)
  {
    hide Counted, Linked, FindMessage, FindGuild;
    hide R.TakeCall, R.IncrCall, R.DecrCall, R.ClaimCall, R.UnclaimCall;
  }

  lemma StepEntry(w: World, step: Step, slot: Slot)
    requires Inv(w) && Enabled(w, step)
    ensures SetupOf(Next(w, step)) == SetupOf(w)
    ensures Lookup(Next(w, step), slot) == EntryAfterStep(Lookup(w, slot), slot, step, SetupOf(w))
  {
    hide Counted, Linked, Enabled, DropAll, HandleEvent, EntryAfterEvent, Lookup;
    match step
    case Arrive(_, _, _) => ArriveEntry(w, step, slot);
    case Handle(p, event, copy) => HandleEntry(w, p, event, copy, slot);
    case Clear(_, _) => BulkEntry(w, step, slot);
    case Collect(_, _, _) => BulkEntry(w, step, slot);
    case _ => OtherEntry(w, step, slot);
  }

  /** The maps are the fold over the history: for every key, over every run. */
  lemma {:induction false} CacheIsFold(w: World, steps: seq<Step>, slot: Slot)
    requires Inv(w) && Legal(w, steps)
    ensures SetupOf(After(w, steps)) == SetupOf(w)
    ensures Lookup(After(w, steps), slot) == Entry(Lookup(w, slot), slot, steps, SetupOf(w))
    decreases |steps|
  {
    if steps != [] {
      StepEntry(w, steps[0], slot);
      var w1 := Next(w, steps[0]);
      hide EntryAfterStep, Inv, Enabled, Next;
      CacheIsFold(w1, steps[1..], slot);
    }
  }

  lemma DropHome(w: World, slot: Slot, q: Ptr)
    ensures var w1 := Drop(w, slot);
            && w1 == w.(refs := w1.refs, store := w1.store, home := w1.home)
            && (q !in w.home ==> q !in w1.home)
  {
  }

  /** What the handler of an event leaves alone. */
  lemma HandleLeaves(w: World, p: Ptr, event: Event, copy: Ptr, q: Ptr)
    requires w.total > 0 && (event.Ready? ==> event.shard < |w.valid|)
    ensures var w1 := HandleEvent(w, p, event, copy);
            && w1.total == w.total && w1.active == w.active && w1.pending == w.pending
            && w1.valid == (if event.Ready? then w.valid[event.shard := true] else w.valid)
            && (q != p && q != copy && q !in w.home ==> q !in w1.home)
  {
    hide R.IncrCall, R.AddCall, Drop;
    match event
    case MessageUpdate(id, guild, _) => DropHome(w, MessageSlot(w, guild, id), q);
    case MessageDelete(id, guild) => DropHome(w, MessageSlot(w, guild, id), q);
    case GuildUpdate(id) => DropHome(w.(refs := R.AddCall(w.refs, copy)), GuildSlot(w, id), q);
    case GuildDelete(id) => DropHome(w, GuildSlot(w, id), q);
    case _ =>
  }

  lemma HandleValidity(w: World, step: Step, shard: nat)
    requires Inv(w) && Enabled(w, step) && shard < w.total && step.Handle?
    ensures Do(w, step).total == w.total && |Do(w, step).valid| == w.total
    ensures Do(w, step).valid[shard] == ValidAfterStep(w.valid[shard], shard, step)
  {
    hide HandleEvent, Counted, Linked, R.Room;
    HandleLeaves(w.(pending := w.pending - {step.p}), step.p, step.event, step.copy, step.p);
  }

  lemma OtherValidity(w: World, step: Step, shard: nat)
    requires Inv(w) && Enabled(w, step) && shard < w.total && !step.Handle?
    ensures Do(w, step).total == w.total && |Do(w, step).valid| == w.total
    ensures Do(w, step).valid[shard] == ValidAfterStep(w.valid[shard], shard, step)
  {
    hide Counted, Linked, Enumerates, Doomed, FindMessage, FindGuild, R.Room, DropAll;
    hide R.TakeCall, R.IncrCall, R.DecrCall, R.ClaimCall, R.UnclaimCall;
    match step
    case Clear(_, order) => DropAllLeaves(w, order);
    case Collect(_, _, order) => DropAllLeaves(w, order);
    case _ =>
  }

  lemma StepValidity(w: World, step: Step, shard: nat)
    requires Inv(w) && Enabled(w, step) && shard < w.total
    ensures Next(w, step).total == w.total
    ensures Next(w, step).valid[shard] == ValidAfterStep(w.valid[shard], shard, step)
  {
    hide Counted, Linked, Enabled, Do, ValidAfterStep;
    if step.Handle? {
      HandleValidity(w, step, shard);
    } else {
      OtherValidity(w, step, shard);
    }
  }

  lemma {:induction false} ValidityIsFold(w: World, steps: seq<Step>, shard: nat)
    requires Inv(w) && Legal(w, steps) && shard < w.total
    ensures After(w, steps).total == w.total
    ensures After(w, steps).valid[shard] == Validity(w.valid[shard], shard, steps)
    decreases |steps|
  {
    if steps != [] {
      StepValidity(w, steps[0], shard);
      var w1 := Next(w, steps[0]);
      hide Inv, Enabled, Next, ValidAfterStep;
      ValidityIsFold(w1, steps[1..], shard);
    }
  }

  // ------------------------------------------------------------------------- getters

  /** The message getter returns a message exactly when the first shard that has the id is valid and
      the message there is of the channel asked for. */
  lemma MessageGetterIff(w: World, channel: Snowflake, id: Snowflake, p: Ptr)
    requires Inv(w)
    ensures FindMessage(w, channel, id) == Some(p)
       <==> exists i | 0 <= i < w.total ::
              && Lookup(w, Slot(Message, i, id)) == Some(Content(p, channel)) && w.valid[i]
              && forall k :: 0 <= k < i ==> Slot(Message, k, id) !in w.store
  {
    var j := FirstShard(w, id, 0);
    if j < w.total {
      assert Slot(Message, j, id) in w.store;
    }
    if i :| 0 <= i < w.total && Lookup(w, Slot(Message, i, id)) == Some(Content(p, channel)) && w.valid[i]
            && forall k :: 0 <= k < i ==> Slot(Message, k, id) !in w.store {
      assert Slot(Message, i, id) in w.store;
      assert i == j;
    }
  }

  /** With the one shard the cache is created with: the getter returns what the history put there, if
      the shard is valid and the channel is right, and nothing otherwise. */
  lemma MessageGetterOverHistory(guildsOn: bool, messagesOn: bool, steps: seq<Step>,
                                 channel: Snowflake, id: Snowflake, p: Ptr)
    requires Inv(Initial(1, guildsOn, messagesOn)) && Legal(Initial(1, guildsOn, messagesOn), steps)
    ensures FindMessage(After(Initial(1, guildsOn, messagesOn), steps), channel, id) == Some(p)
       <==> Entry(None, Slot(Message, 0, id), steps, Setup(1, guildsOn, messagesOn)) == Some(Content(p, channel))
            && Validity(false, 0, steps)
  {
    var w := Initial(1, guildsOn, messagesOn);
    CacheIsFold(w, steps, Slot(Message, 0, id));
    ValidityIsFold(w, steps, 0);
    MessageGetterIff(After(w, steps), channel, id, p);
  }

  lemma GuildGetterOverHistory(total: nat, guildsOn: bool, messagesOn: bool, steps: seq<Step>, id: Snowflake, p: Ptr)
    requires total > 0 && Inv(Initial(total, guildsOn, messagesOn))
    requires Legal(Initial(total, guildsOn, messagesOn), steps)
    ensures var shard := id / 4194304 % total;
            FindGuild(After(Initial(total, guildsOn, messagesOn), steps), id) == Some(p) <==>
              Entry(None, Slot(Guild, shard, id), steps, Setup(total, guildsOn, messagesOn)) == Some(Content(p, 0))
              && Validity(false, shard, steps)
  {
    var w := Initial(total, guildsOn, messagesOn);
    CacheIsFold(w, steps, Slot(Guild, ShardOf(id, total), id));
    ValidityIsFold(w, steps, ShardOf(id, total));
  }

  // ---------------------------------------------------------------- consumed messages

  lemma HandleConsumed(w: World, step: Step, p: Ptr)
    requires Inv(w) && Enabled(w, step) && step.Handle?
    requires p in w.active && p !in w.pending && p !in w.home
    ensures var w1 := Do(w, step);
            p in w1.active && p !in w1.pending && p !in w1.home
  {
    assert CountOk(w, p);
    hide HandleEvent, Counted, CountOk, Linked, Shaped, R.Room;
    HandleLeaves(w.(pending := w.pending - {step.p}), step.p, step.event, step.copy, p);
  }

  lemma ConsumedStep(w: World, step: Step, p: Ptr)
    requires Inv(w) && Enabled(w, step) && step != Leave(p)
    requires p in w.active && p !in w.pending && p !in w.home
    ensures var w1 := Do(w, step);
            p in w1.active && p !in w1.pending && p !in w1.home
  {
    assert CountOk(w, p);
    hide HandleEvent, Counted, CountOk, Linked, Shaped, Enumerates, Doomed, FindMessage, FindGuild, DropAll, R.Room;
    hide R.TakeCall, R.IncrCall, R.DecrCall, R.ClaimCall, R.UnclaimCall;
    match step
    case Handle(_, _, _) => HandleConsumed(w, step, p);
    case Clear(_, order) => DropAllLeaves(w, order); DropAllHome(w, order, p);
    case Collect(_, _, order) => DropAllLeaves(w, order); DropAllHome(w, order, p);
    case _ =>
  }

  lemma {:induction false} DropAllHome(w: World, order: seq<Slot>, p: Ptr)
    requires p !in w.home
    ensures p !in DropAll(w, order).home
    decreases |order|
  {
    if order != [] {
      DropAllHome(Drop(w, order[0]), order[1..], p);
    }
  }

  lemma {:induction false} ConsumedRests(w: World, steps: seq<Step>, p: Ptr, slot: Slot)
    requires Inv(w) && Legal(w, steps) && forall i :: 0 <= i < |steps| ==> steps[i] != Leave(p)
    requires p in w.active && p !in w.pending && p !in w.home
    ensures var w1 := After(w, steps);
            p in w1.active && (slot in w1.store ==> w1.store[slot] != p)
    ensures forall i :: 0 <= i < |steps| ==> !(steps[i].Handle? && steps[i].p == p)
    decreases |steps|
  {
    if steps != [] {
      ConsumedStep(w, steps[0], p);
      var w1 := Next(w, steps[0]);
      assert !(steps[0].Handle? && steps[0].p == p);
      hide Inv, Enabled, Next;
      ConsumedRests(w1, steps[1..], p, slot);
    }
  }

  /** A message that a command consumed on its arrival is not handled and does not enter the cache,
      whatever happens until its dispatch ends. */
  lemma ConsumedStaysOut(w: World, p: Ptr, event: Event, steps: seq<Step>, slot: Slot)
    requires Inv(w) && Enabled(w, Arrive(p, event, true)) && Legal(Next(w, Arrive(p, event, true)), steps)
    requires forall i :: 0 <= i < |steps| ==> steps[i] != Leave(p)
    ensures var w1 := After(Next(w, Arrive(p, event, true)), steps);
            p in w1.active && (slot in w1.store ==> w1.store[slot] != p)
    ensures forall i :: 0 <= i < |steps| ==> !(steps[i].Handle? && steps[i].p == p)
  {
    assert CountOk(w, p);
    ConsumedRests(Next(w, Arrive(p, event, true)), steps, p, slot);
  }
}
