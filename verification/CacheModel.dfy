/**
 The message and guild cache, the dispatch of events and their references, as a state machine over
 one refcounter. A step is one section under a lock; steps of dispatches, requests, user code and
 the gateway interleave freely.
 */
module CacheModel {
  import opened Wrappers
  import R = Refcount

  type Ptr = R.Ptr
  type Snowflake = nat

  /** WINECORD_EPOCH, in ms. */
  const EPOCH: nat := 1420070400000
  const TEN_MINUTES: nat := 10 * 60 * 1000
  /** 2 to the power of 22, 42 and 64. */
  const TWO22: nat := 0x40_0000
  const TWO42: nat := 0x400_0000_0000
  const TWO64: nat := 0x1_0000_0000_0000_0000

  datatype Kind = Guild | Message

  /** A key of the guild or message map of a shard. */
  datatype Slot = Slot(kind: Kind, shard: nat, id: Snowflake)

  datatype Event =
    | Ready(shard: nat)
    | MessageCreate(id: Snowflake, guild: Snowflake, channel: Snowflake)
    | MessageUpdate(id: Snowflake, guild: Snowflake, channel: Snowflake)
    | MessageDelete(id: Snowflake, guild: Snowflake)
    | GuildCreate(id: Snowflake)
    | GuildUpdate(id: Snowflake)
    | GuildDelete(id: Snowflake)
    | Other

  /** `store` holds the maps of all shards and `channels` the channel id in each message. The rest is
      history, who holds references: `home` is where a resource is cached, `active` the events being
      dispatched and `pending` those the cache has not seen yet, `leaked` copies nobody can reach,
      `held` the references of requests and `claims` those of the user. */
  datatype World = World(
    refs: R.Table, total: nat, valid: seq<bool>, store: map<Slot, Ptr>, channels: map<Ptr, Snowflake>,
    guildsOn: bool, messagesOn: bool,
    home: map<Ptr, Slot>, active: set<Ptr>, pending: map<Ptr, Event>, leaked: set<Ptr>,
    held: multiset<Ptr>, claims: multiset<Ptr>)

  datatype Step =
    /** gateway_dispatch allocates the event; message commands may consume it. */
    | Arrive(p: Ptr, event: Event, consumed: bool)
    /** The cache's handler; `copy` is the copy it makes of a guild. */
    | Handle(p: Ptr, event: Event, copy: Ptr)
    /** The dispatch ends. */
    | Leave(p: Ptr)
    /** Clearing a shard, and setting its validity: disconnects, reconnects and resumes. */
    | Clear(shard: nat, order: seq<Slot>)
    | Mark(shard: nat, isValid: bool)
    | Collect(shard: nat, now: nat, order: seq<Slot>)
    | GetMessage(channel: Snowflake, id: Snowflake)
    | GetGuild(id: Snowflake)
    | Claim(p: Ptr)
    | Unclaim(p: Ptr)
    /** References of requests: kept resources, adopted user data, and giving either back. */
    | Keep(p: Ptr)
    | Adopt(p: Ptr)
    | Release(p: Ptr)

  // ------------------------------------------------------------------- the maps

  /** _calculate_shard */
  function ShardOf(guild: Snowflake, total: nat): nat
    requires total > 0
  {
    guild / TWO22 % total
  }

  /** anomap_delete, with the change callback. */
  function Drop(w: World, slot: Slot): World {
    if slot !in w.store then w
    else
      var p := w.store[slot];
      w.(store := w.store - {slot}, home := w.home - {p}, refs := R.DecrCall(w.refs, p).0)
  }

  function DropAll(w: World, order: seq<Slot>): World
    decreases |order|
  {
    if order == [] then w else DropAll(Drop(w, order[0]), order[1..])
  }

  /** The event is put at an empty key of the message map, whose callback counts a reference. */
  function PutMessage(w: World, slot: Slot, p: Ptr): World {
    w.(store := w.store[slot := p], home := w.home[p := slot], refs := R.IncrCall(w.refs, p).0)
  }

  /** The copy is put at an empty key of the guild map, whose callback counts nothing. */
  function PutGuild(w: World, slot: Slot, copy: Ptr): World {
    w.(store := w.store[slot := copy], home := w.home[copy := slot])
  }

  function MessageSlot(w: World, guild: Snowflake, id: Snowflake): Slot
    requires w.total > 0
  {
    Slot(Message, ShardOf(guild, w.total), id)
  }

  function GuildSlot(w: World, id: Snowflake): Slot
    requires w.total > 0
  {
    Slot(Guild, ShardOf(id, w.total), id)
  }

  /** The cache's handler of an event. */
  function HandleEvent(w: World, p: Ptr, event: Event, copy: Ptr): World
    requires w.total > 0 && (event.Ready? ==> event.shard < |w.valid|)
  {
    match event
    case Ready(shard) => w.(valid := w.valid[shard := true])
    case MessageCreate(id, guild, _) =>
      var slot := MessageSlot(w, guild, id);
      if !w.messagesOn || slot in w.store then w else PutMessage(w, slot, p)
    case MessageUpdate(id, guild, _) =>
      var slot := MessageSlot(w, guild, id);
      if !w.messagesOn then w else PutMessage(Drop(w, slot), slot, p)
    case MessageDelete(id, guild) =>
      if !w.messagesOn then w else Drop(w, MessageSlot(w, guild, id))
    case GuildCreate(id) =>
      var slot := GuildSlot(w, id);
      if !w.guildsOn then w
      else
        var w1 := w.(refs := R.AddCall(w.refs, copy));
        if slot in w.store then w1.(leaked := w.leaked + {copy}) else PutGuild(w1, slot, copy)
    case GuildUpdate(id) =>
      var slot := GuildSlot(w, id);
      if !w.guildsOn then w
      else PutGuild(Drop(w.(refs := R.AddCall(w.refs, copy)), slot), slot, copy)
    case GuildDelete(id) =>
      if !w.guildsOn then w else Drop(w, GuildSlot(w, id))
    case Other => w
  }

  // --------------------------------------------------------------- garbage collection

  /** anomap_index_of: how many keys come before `key`. */
  function IndexOf(keys: set<Snowflake>, key: Snowflake): nat {
    |set k | k in keys && k < key|
  }

  /** anomap_delete_range from 0 to `idx` inclusive. */
  function InRange(keys: set<Snowflake>, idx: nat): set<Snowflake> {
    set k | k in keys && IndexOf(keys, k) <= idx
  }

  /** delete_before, in 64-bit arithmetic. */
  function DeleteBefore(now: nat): Snowflake {
    (now - EPOCH - TEN_MINUTES) % TWO64 * TWO22 % TWO64
  }

  function MessageIds(w: World, shard: nat): set<Snowflake> {
    set slot | slot in w.store && slot.kind == Message && slot.shard == shard :: slot.id
  }

  /** The keys one collection removes from a message map. */
  function Swept(keys: set<Snowflake>, now: nat): set<Snowflake> {
    var idx := IndexOf(keys, DeleteBefore(now));
    if idx == 0 then {} else InRange(keys, idx - 1)
  }

  // ------------------------------------------------------------------- the getters

  /** The first shard, from `i` on, whose message map has the id. */
  function FirstShard(w: World, id: Snowflake, i: nat): (j: nat)
    requires i <= w.total
    ensures i <= j <= w.total
    ensures j < w.total ==> Slot(Message, j, id) in w.store
    ensures forall k :: i <= k < j ==> Slot(Message, k, id) !in w.store
    decreases w.total - i
  {
    if i == w.total || Slot(Message, i, id) in w.store then i else FirstShard(w, id, i + 1)
  }

  /** winecord_cache_get_channel_message */
  function FindMessage(w: World, channel: Snowflake, id: Snowflake): Option<Ptr>
    requires |w.valid| == w.total
    requires forall slot :: slot in w.store && slot.kind == Message ==> w.store[slot] in w.channels
  {
    var i := FirstShard(w, id, 0);
    if i == w.total then None
    else
      var p := w.store[Slot(Message, i, id)];
      if w.channels[p] == channel && w.valid[i] then Some(p) else None
  }

  /** winecord_cache_get_guild */
  function FindGuild(w: World, id: Snowflake): Option<Ptr>
    requires |w.valid| == w.total > 0
  {
    var slot := GuildSlot(w, id);
    if slot in w.store && w.valid[slot.shard] then Some(w.store[slot]) else None
  }

  /** What a getter returns is claimed for its caller. */
  function Claimed(w: World, found: Option<Ptr>): World {
    match found
    case None => w
    case Some(p) => w.(refs := R.ClaimCall(w.refs, p).0, claims := w.claims + multiset{p})
  }

  // -------------------------------------------------------------------- the invariant

  /** The plain references to `p`. */
  function Plain(w: World, p: Ptr): nat {
    (if p in w.home then 1 else 0) + (if p in w.active then 1 else 0)
    + (if p in w.leaked then 1 else 0) + w.held[p]
  }

  ghost predicate CountOk(w: World, p: Ptr) {
    R.Agrees(w.refs, p, Plain(w, p), w.claims[p]) && R.Once(w.refs, p)
  }

  /** The refcounter's count of every resource is the number of its holders. */
  ghost predicate Counted(w: World) {
    forall p :: CountOk(w, p)
  }

  /** `home` is the inverse of `store`. */
  ghost predicate Linked(w: World) {
    && (forall slot :: slot in w.store ==> w.store[slot] in w.home && w.home[w.store[slot]] == slot)
    && (forall p :: p in w.home ==> w.home[p] in w.store && w.store[w.home[p]] == p)
  }

  ghost predicate Shaped(w: World) {
    && w.total > 0 && |w.valid| == w.total
    && (forall slot :: slot in w.store ==> slot.shard < w.total)
    && (forall slot :: slot in w.store && slot.kind == Message ==> w.store[slot] in w.channels)
    && (forall p :: p in w.pending ==> p in w.active && p !in w.home)
    && (forall p :: p in w.pending && w.pending[p].Ready? ==> w.pending[p].shard < w.total)
    && (forall p :: p in w.pending && (w.pending[p].MessageCreate? || w.pending[p].MessageUpdate?) ==>
          p in w.channels && w.channels[p] == w.pending[p].channel)
  }

  ghost predicate Inv(w: World) {
    Counted(w) && Linked(w) && Shaped(w)
  }

  /** winecord_cache_enable, with the given number of shards. */
  function Initial(total: nat, guildsOn: bool, messagesOn: bool): World {
    World(R.EMPTY, total, seq(total, i => false), map[], map[], guildsOn, messagesOn,
          map[], {}, map[], {}, multiset{}, multiset{})
  }

  // ------------------------------------------------------------------------- steps

  ghost predicate Enumerates(order: seq<Slot>, slots: set<Slot>) {
    && (forall i, j :: 0 <= i < j < |order| ==> order[i] != order[j])
    && (forall slot :: slot in order <==> slot in slots)
  }

  /** The entries a step removes in bulk. */
  function Doomed(w: World, step: Step): set<Slot> {
    match step
    case Clear(shard, _) => set slot | slot in w.store && slot.shard == shard
    case Collect(shard, now, _) =>
      set slot | slot in w.store && slot.kind == Message && slot.shard == shard
                 && slot.id in Swept(MessageIds(w, shard), now)
    case _ => {}
  }

  /** Memory is handed out only once, callers give back only what they hold, and counts stay below
      the limit. */
  ghost predicate Enabled(w: World, step: Step)
    requires Inv(w)
  {
    match step
    case Arrive(p, event, _) => p !in w.refs.refs && (event.Ready? ==> event.shard < w.total)
    case Handle(p, event, copy) =>
      p in w.pending && w.pending[p] == event && copy !in w.refs.refs && R.Room(w.refs, p)
    case Leave(p) => p in w.active && p !in w.pending
    case Clear(shard, order) => shard < w.total && Enumerates(order, Doomed(w, step))
    case Mark(shard, _) => shard < w.total
    case Collect(shard, now, order) => shard < w.total && Enumerates(order, Doomed(w, step))
    case GetMessage(channel, id) =>
      var found := FindMessage(w, channel, id);
      found.Some? ==> R.Room(w.refs, found.value)
    case GetGuild(id) =>
      var found := FindGuild(w, id);
      found.Some? ==> R.Room(w.refs, found.value)
    case Claim(p) => p in w.refs.refs && R.Room(w.refs, p)
    case Unclaim(p) => w.claims[p] > 0
    case Keep(p) => p in w.refs.refs && R.Room(w.refs, p)
    case Adopt(p) => R.Room(w.refs, p)
    case Release(p) => w.held[p] > 0
  }

  /** The channel id a message event carries into memory. */
  function Stored(channels: map<Ptr, Snowflake>, p: Ptr, event: Event): map<Ptr, Snowflake> {
    if event.MessageCreate? || event.MessageUpdate? then channels[p := event.channel] else channels
  }

  ghost function Do(w: World, step: Step): World
    requires Inv(w) && Enabled(w, step)
  {
    match step
    case Arrive(p, event, consumed) =>
      w.(refs := R.TakeCall(w.refs, p), active := w.active + {p}, channels := Stored(w.channels, p, event),
         pending := if consumed then w.pending else w.pending[p := event])
    case Handle(p, event, copy) => HandleEvent(w.(pending := w.pending - {p}), p, event, copy)
    case Leave(p) => w.(refs := R.DecrCall(w.refs, p).0, active := w.active - {p})
    case Clear(_, order) => DropAll(w, order)
    case Mark(shard, isValid) => w.(valid := w.valid[shard := isValid])
    case Collect(_, _, order) => DropAll(w, order)
    case GetMessage(channel, id) => Claimed(w, FindMessage(w, channel, id))
    case GetGuild(id) => Claimed(w, FindGuild(w, id))
    case Claim(p) => Claimed(w, Some(p))
    case Unclaim(p) => w.(refs := R.UnclaimCall(w.refs, p).0, claims := w.claims - multiset{p})
    case Keep(p) => w.(refs := R.IncrCall(w.refs, p).0, held := w.held + multiset{p})
    case Adopt(p) => w.(refs := R.TakeCall(w.refs, p), held := w.held + multiset{p})
    case Release(p) => w.(refs := R.DecrCall(w.refs, p).0, held := w.held - multiset{p})
  }
}
