/** What the timer API promises, proved of every call and of every turn of the loop. */
module TimerLaws {
  import opened TimerQueue

  // ------------------------------------------------------------ well-formedness

  /** Keys are -1 or a time; the id stored with a timer is its own or still unset; GET is never stored. */
  ghost predicate EntryOk(id: TimerId, e: Entry) {
    e.key >= -1 && (e.timer.id == 0 || e.timer.id == id) && !e.timer.flags.get
  }

  ghost predicate WellFormed(s: State) {
    0 !in s.q && forall id :: id in s.q ==> EntryOk(id, s.q[id])
  }

  lemma CtlKeeps(s: State, arg: Timer, now: nat, newId: TimerId)
    requires WellFormed(s)
    ensures WellFormed(CtlCall(s, arg, now, newId).0)
    ensures s.q.Keys <= CtlCall(s, arg, now, newId).0.q.Keys
    ensures CtlCall(s, arg, now, newId).0.active == s.active
  {
  }

  lemma ApplyKeeps(s: State, op: Op)
    requires WellFormed(s)
    ensures WellFormed(Apply(s, op).0)
    ensures s.q.Keys <= Apply(s, op).0.q.Keys
    ensures Apply(s, op).0.active == s.active
  {
    match op
    case Ctl(arg, now, newId) => CtlKeeps(s, arg, now, newId);
    case Start(id, now, newId) =>
      if id in s.q {
        var t := s.q[id].timer;
        CtlKeeps(DisableUpdate(s, id), if t.delay < 0 then t.(delay := 0) else t, now, newId);
        hide CtlCall;
      }
    case Stop(_) =>
    case AddFlags(_, _, _) =>
  }

  lemma {:induction false} ApplyAllKeeps(s: State, ops: seq<Op>)
    requires WellFormed(s)
    ensures WellFormed(ApplyAll(s, ops))
    ensures s.q.Keys <= ApplyAll(s, ops).q.Keys
    ensures ApplyAll(s, ops).active == s.active
    decreases |ops|
  {
    if ops != [] {
      ApplyKeeps(s, ops[0]);
      ApplyAllKeeps(Apply(s, ops[0]).0, ops[1..]);
    }
  }

  lemma DeleteKeeps(s: State, t: Timer, rs: Reactions)
    requires WellFormed(s)
    ensures WellFormed(Delete(s, t, rs).s) && !Delete(s, t, rs).s.skip
  {
    ApplyAllKeeps(s.(q := s.q - {t.id}), rs.gone.ops);
  }

  lemma FinishKeeps(s: State, t: Timer, wasCanceled: bool, trigger: int, now: nat, rs: Reactions)
    requires WellFormed(s) && !s.skip && 0 <= trigger
    ensures WellFormed(Finish(s, t, wasCanceled, trigger, now, rs).s)
    ensures !Finish(s, t, wasCanceled, trigger, now, rs).s.skip
  {
    var expired := (t.flags.canceled || t.repeat == 0) && t.flags.deleteAuto;
    var delete := t.flags.delete || expired;
    var t1 := t.(flags := t.flags.(delete := delete, canceled := t.flags.canceled && !(delete && wasCanceled)));
    DeleteKeeps(s, t1, rs);
  }

  lemma StatusTurnKeeps(s: State, t: Timer, trigger: int, now: nat, rs: Reactions)
    requires WellFormed(s) && 0 <= trigger
    ensures WellFormed(StatusTurn(s, t, trigger, now, rs).s)
    ensures !StatusTurn(s, t, trigger, now, rs).s.skip
  {
    DeleteKeeps(s, t, rs);
    ApplyAllKeeps(s, rs.status.ops);
    var (s1, t1) := React(s, t, t.onStatus, rs.status);
    if !s1.skip {
      FinishKeeps(s1, t1.(flags := t1.flags.(tick := false)), t.flags.canceled, trigger, now, rs);
    }
  }

  lemma TickTurnKeeps(s: State, t: Timer, trigger: int, now: nat, rs: Reactions)
    requires WellFormed(s) && 0 <= trigger
    ensures WellFormed(TickTurn(s, t, trigger, now, rs).s)
    ensures !TickTurn(s, t, trigger, now, rs).s.skip
  {
    ApplyAllKeeps(s, rs.tick.ops);
    var (s1, t1) := React(s, Ticking(t), t.onTick, rs.tick);
    var t2 := t1.(flags := t1.flags.(tick := false));
    if !s1.skip {
      StatusTurnKeeps(s1, t2, trigger, now, rs);
      FinishKeeps(s1, t2, false, trigger, now, rs);
    }
  }

  /** Whatever callbacks do, a turn leaves legal keys and no `skip_update_phase` behind. */
  lemma TurnKeeps(s: State, id: TimerId, now: nat, rs: Reactions)
    requires WellFormed(s) && id in s.q && 0 <= s.q[id].key
    ensures WellFormed(TurnOf(s, id, now, rs).s)
    ensures !TurnOf(s, id, now, rs).s.skip
  {
    var t := s.q[id].timer.(id := id);
    StatusTurnKeeps(s.(active := id), t, s.q[id].key, now, rs);
    TickTurnKeeps(s.(active := id), t, s.q[id].key, now, rs);
  }

  /** No pass is running and no update is to be skipped. */
  ghost predicate Settled(s: State) {
    WellFormed(s) && s.active == 0 && !s.skip
  }

  lemma DoKeeps(s: State, step: Step)
    requires Settled(s) && Enabled(s, step)
    ensures Settled(Do(s, step).s)
  {
    match step
    case Turn(id, now, rs) => TurnKeeps(s, id, now, rs);
    case Call(op) => ApplyKeeps(s, op);
  }

  /** Every reachable state of the queue is well formed. */
  lemma {:induction false} ReplayKeeps(s: State, steps: seq<Step>)
    requires Settled(s) && Legal(s, steps)
    ensures Settled(Replay(s, steps).s)
    decreases |steps|
  {
    if steps != [] {
      DoKeeps(s, steps[0]);
      ReplayKeeps(Do(s, steps[0]).s, steps[1..]);
    }
  }

  // ------------------------------------------------------------------ reentrancy

  /** The calls that make the loop discard its local copy of the timer `id`. */
  predicate Claims(s: State, op: Op, id: TimerId) {
    match op
    case Ctl(arg, _, _) => arg.id == id && arg.flags != NO_FLAGS.(get := true)
    case Start(i, _, _) => i == id
    case Stop(i) => i == id
    case AddFlags(i, _, _) => i == id
  }

  /** While a callback of `id` runs, `skip_update_phase` is set exactly when some call claims `id`. */
  lemma {:induction false} SkipIffClaimed(s: State, ops: seq<Op>, id: TimerId)
    requires WellFormed(s) && s.active == id && id in s.q
    ensures ApplyAll(s, ops).skip <==> s.skip || exists i :: 0 <= i < |ops| && Claims(s, ops[i], id)
    decreases |ops|
  {
    if ops != [] {
      var s1 := Apply(s, ops[0]).0;
      ApplyKeeps(s, ops[0]);
      SkipIffClaimed(s1, ops[1..], id);
      assert s1.skip <==> s.skip || Claims(s, ops[0], id);
      assert forall i :: 0 <= i < |ops| - 1 ==> ops[1..][i] == ops[i + 1];
      assert forall i :: 0 < i < |ops| ==> ops[i] == ops[1..][i - 1];
    }
  }

  /** An on_tick callback that claims its own timer has the last word: the queue is what its
      calls made of it, whatever the callback left in the loop's local copy. */
  lemma ClaimingCallbackWins(s: State, id: TimerId, now: nat, rs: Reactions, k: nat)
    requires WellFormed(s) && !s.skip && id in s.q
    requires !HasStatus(s.q[id].timer) && s.q[id].timer.onTick != NULL
    requires k < |rs.tick.ops| && Claims(s, rs.tick.ops[k], id)
    ensures TurnOf(s, id, now, rs).s.q == ApplyAll(s.(active := id), rs.tick.ops).q
    ensures TurnOf(s, id, now, rs).events == [Tick(id, s.q[id].timer.onTick, s.q[id].key, now)]
  {
    SkipIffClaimed(s.(active := id), rs.tick.ops, id);
  }

  /** The same of the status callback of a canceled timer. */
  lemma ClaimingStatusWins(s: State, id: TimerId, now: nat, rs: Reactions, k: nat)
    requires WellFormed(s) && !s.skip && id in s.q
    requires s.q[id].timer.flags.canceled && !s.q[id].timer.flags.delete && s.q[id].timer.onStatus != NULL
    requires k < |rs.status.ops| && Claims(s, rs.status.ops[k], id)
    ensures TurnOf(s, id, now, rs).s.q == ApplyAll(s.(active := id), rs.status.ops).q
    ensures TurnOf(s, id, now, rs).events == [Status(id, s.q[id].timer.onStatus, true, false)]
  {
    SkipIffClaimed(s.(active := id), rs.status.ops, id);
  }

  /** And of the status callback that follows a tick callback which canceled its copy (`goto restart`). */
  lemma RestartedCallbackWins(s: State, id: TimerId, now: nat, rs: Reactions, k: nat)
    requires WellFormed(s) && !s.skip && id in s.q
    requires !HasStatus(s.q[id].timer) && s.q[id].timer.onTick != NULL
    requires forall i :: 0 <= i < |rs.tick.ops| ==> !Claims(s, rs.tick.ops[i], id)
    requires rs.tick.copy.flags.canceled && !rs.tick.copy.flags.delete && rs.tick.copy.onStatus != NULL
    requires k < |rs.status.ops| && Claims(s, rs.status.ops[k], id)
    ensures TurnOf(s, id, now, rs).s.q == ApplyAll(ApplyAll(s.(active := id), rs.tick.ops), rs.status.ops).q
    ensures TurnOf(s, id, now, rs).events ==
              [Tick(id, s.q[id].timer.onTick, s.q[id].key, now), Status(id, rs.tick.copy.onStatus, true, false)]
  {
    var s0 := s.(active := id);
    SkipIffClaimed(s0, rs.tick.ops, id);
    ApplyAllKeeps(s0, rs.tick.ops);
    SkipIffClaimed(ApplyAll(s0, rs.tick.ops), rs.status.ops, id);
    hide ApplyAll, WellFormed;
  }

  /** A callback that leaves its own timer alone, but whose copy has expired or asks for deletion, has
      the timer removed, with one status callback that is told of the deletion. */
  lemma UnclaimedCopyDeleted(s: State, id: TimerId, now: nat, rs: Reactions)
    requires WellFormed(s) && !s.skip && id in s.q
    requires !HasStatus(s.q[id].timer) && s.q[id].timer.onTick != NULL
    requires forall i :: 0 <= i < |rs.tick.ops| ==> !Claims(s, rs.tick.ops[i], id)
    requires !rs.tick.copy.flags.canceled
    requires rs.tick.copy.flags.delete || (rs.tick.copy.repeat == 0 && rs.tick.copy.flags.deleteAuto)
    ensures var s1 := ApplyAll(s.(active := id), rs.tick.ops);
            var s2 := s1.(q := s1.q - {id});
            var cb := rs.tick.copy.onStatus;
            && TurnOf(s, id, now, rs).s.q == (if cb == NULL then s2 else ApplyAll(s2, rs.gone.ops)).q
            && TurnOf(s, id, now, rs).events ==
                 [Tick(id, s.q[id].timer.onTick, s.q[id].key, now), Status(id, cb, false, true)]
  {
    SkipIffClaimed(s.(active := id), rs.tick.ops, id);
    hide ApplyAll, WellFormed, Claims, StatusTurn;
  }

  /** A callback that leaves its own timer alone has every other timer as its calls left it, and its own
      timer as the local copy says: armed for one interval after the turn or the trigger, or, without
      repeats left, an interval or a delay, disarmed. */
  lemma UnclaimedCopyWritten(s: State, id: TimerId, now: nat, rs: Reactions)
    requires WellFormed(s) && !s.skip && id in s.q
    requires !HasStatus(s.q[id].timer) && s.q[id].timer.onTick != NULL
    requires forall i :: 0 <= i < |rs.tick.ops| ==> !Claims(s, rs.tick.ops[i], id)
    requires !HasStatus(rs.tick.copy) && !(rs.tick.copy.repeat == 0 && rs.tick.copy.flags.deleteAuto)
    ensures var q1 := ApplyAll(s.(active := id), rs.tick.ops).q;
            var t := rs.tick.copy.(id := id, flags := Allowed(rs.tick.copy.flags));
            var from := if t.flags.fixed then s.q[id].key else now;
            var key := if t.delay == -1 || t.interval < 0 || t.repeat == 0 then -1
                       else if t.flags.micro then from + t.interval
                       else from + 1000 * t.interval;
            TurnOf(s, id, now, rs).s.q == q1[id := Entry(key, t)]
  {
    SkipIffClaimed(s.(active := id), rs.tick.ops, id);
    ApplyAllKeeps(s.(active := id), rs.tick.ops);
    var (s1, t1) := React(s.(active := id), Ticking(s.q[id].timer.(id := id)), s.q[id].timer.onTick, rs.tick);
    CopyWritten(s1, t1.(flags := t1.flags.(tick := false)), s.q[id].key, now, rs);
    hide ApplyAll, StatusTurn, WellFormed, Claims, Finish;
  }

  lemma CopyWritten(s: State, copy: Timer, trigger: int, now: nat, rs: Reactions)
    requires copy.id in s.q && !HasStatus(copy) && !(copy.repeat == 0 && copy.flags.deleteAuto)
    ensures var t := copy.(flags := Allowed(copy.flags));
            Finish(s, copy, false, trigger, now, rs).s.q == s.q[copy.id := Entry(NextKey(t, trigger, now), t)]
  {
  }

  /** The calls that write or create the entry `id`. */
  predicate Touches(op: Op, id: TimerId) {
    match op
    case Ctl(arg, _, newId) => arg.id == id || newId == id
    case Start(i, _, newId) => i == id || newId == id
    case Stop(i) => i == id
    case AddFlags(i, _, _) => i == id
  }

  predicate Untouched(ops: seq<Op>, id: TimerId) {
    forall i :: 0 <= i < |ops| ==> !Touches(ops[i], id)
  }

  ghost predicate SameEntry(q: map<TimerId, Entry>, p: map<TimerId, Entry>, id: TimerId) {
    (id in q <==> id in p) && (id in q ==> q[id] == p[id])
  }

  lemma {:induction false} UntouchedStays(s: State, ops: seq<Op>, id: TimerId)
    requires WellFormed(s) && id != 0 && Untouched(ops, id)
    ensures SameEntry(s.q, ApplyAll(s, ops).q, id)
    ensures s.active == id ==> ApplyAll(s, ops).skip == s.skip
    decreases |ops|
  {
    if ops != [] {
      var s1 := Apply(s, ops[0]).0;
      ApplyKeeps(s, ops[0]);
      assert !Touches(ops[0], id);
      UntouchedStays(s1, ops[1..], id);
    }
  }

  lemma {:induction false} ApplyAllSplit(s: State, a: seq<Op>, b: seq<Op>)
    ensures ApplyAll(s, a + b) == ApplyAll(ApplyAll(s, a), b)
    decreases |a|
  {
    if a == [] {
      assert a + b == b;
    } else {
      assert (a + b)[1..] == a[1..] + b;
      ApplyAllSplit(Apply(s, a[0]).0, a[1..], b);
    }
  }

  /** Whatever calls a callback makes, the entry `id` ends as the last call that touched it wrote it. */
  lemma LastCallWins(s: State, before: seq<Op>, op: Op, after: seq<Op>, id: TimerId)
    requires WellFormed(s) && id != 0 && Untouched(after, id)
    ensures var written := Apply(ApplyAll(s, before), op).0;
            SameEntry(written.q, ApplyAll(s, before + [op] + after).q, id)
  {
    ApplyAllKeeps(s, before);
    ApplyKeeps(ApplyAll(s, before), op);
    ApplyAllSplit(s, before + [op], after);
    ApplyAllSplit(s, before, [op]);
    assert ApplyAll(ApplyAll(s, before), [op]) == Apply(ApplyAll(s, before), op).0;
    UntouchedStays(Apply(ApplyAll(s, before), op).0, after, id);
  }

  /** winecord_timer_start goes by the id in the stored timer: with it the call restarts the entry,
      without it the call pushes a second timer and leaves the first as it was. */
  lemma StartByStoredId(s: State, id: TimerId, now: nat, newId: TimerId)
    requires WellFormed(s) && id in s.q && newId !in s.q && newId != 0
    ensures var s1 := Apply(s, Start(id, now, newId)).0;
            var started := Apply(s, Start(id, now, newId)).1;
            && (started == id <==> s.q[id].timer.id == id)
            && (s.q[id].timer.id != id ==> started == newId && s1.q.Keys == s.q.Keys + {newId} && s1.q[id] == s.q[id])
            && (s.q[id].timer.id == id ==> s1.q.Keys == s.q.Keys && s1.q[id].key >= 0)
  {
    assert EntryOk(id, s.q[id]);
  }

  // ------------------------------------------------------- the life of a timer

  /** Callbacks of `id` in a history. */
  function EventsOf(events: seq<Event>, id: TimerId): seq<Event> {
    if events == [] then []
    else if events[0].id == id then [events[0]] + EventsOf(events[1..], id)
    else EventsOf(events[1..], id)
  }

  lemma {:induction false} EventsOfSplit(a: seq<Event>, b: seq<Event>, id: TimerId)
    ensures EventsOf(a + b, id) == EventsOf(a, id) + EventsOf(b, id)
  {
    if a == [] {
      assert a + b == b;
    } else {
      assert (a + b)[1..] == a[1..] + b;
      EventsOfSplit(a[1..], b, id);
    }
  }

  /** Nothing but the loop itself interferes with `id` in this step. */
  predicate Undisturbed(s: State, step: Step, id: TimerId) {
    match step
    case Call(op) => !Touches(op, id)
    case Turn(i, _, rs) =>
      && Untouched(rs.tick.ops, id) && Untouched(rs.status.ops, id) && Untouched(rs.gone.ops, id)
      && (i == id && id in s.q ==> rs.tick.copy == Ticking(s.q[id].timer.(id := id)))
  }

  predicate AllUndisturbed(s: State, steps: seq<Step>, id: TimerId)
    requires Legal(s, steps)
    decreases |steps|
  {
    steps == []
    || (Undisturbed(s, steps[0], id) && AllUndisturbed(Do(s, steps[0]).s, steps[1..], id))
  }

  /** An armed timer that deletes itself after `repeat` ticks. */
  predicate SelfDeleting(e: Entry) {
    && e.key >= 0 && e.timer.flags.deleteAuto && !HasStatus(e.timer)
    && e.timer.delay >= 0 && e.timer.interval >= 0 && e.timer.repeat >= 0
  }

  /** The trigger that follows a tick at `now` whose own trigger was `trigger`. */
  function Following(t: Timer, trigger: int, now: nat): int {
    (if t.flags.fixed then trigger else now) + Micros(t.flags, t.interval)
  }

  /** The callbacks a timer with `n` repeats left is allowed to have had: due ticks in order and,
      once they are used up, a single deletion. `alive` says the timer is still in the queue. */
  predicate LifeStory(evs: seq<Event>, t: Timer, n: nat, trigger: int, alive: bool)
    decreases |evs|
  {
    if evs == [] then alive
    else
      && evs[0].Tick? && evs[0] == Tick(t.id, t.onTick, trigger, evs[0].now) && trigger <= evs[0].now
      && if n <= 1 then !alive && evs[1..] == [Status(t.id, t.onStatus, false, true)]
         else LifeStory(evs[1..], t, n - 1, Following(t, trigger, evs[0].now), alive)
  }

  lemma {:induction false} OtherEvents(events: seq<Event>, id: TimerId)
    requires forall i :: 0 <= i < |events| ==> events[i].id != id
    ensures EventsOf(events, id) == []
  {
    if events != [] {
      OtherEvents(events[1..], id);
    }
  }

  /** Every callback of a turn is a callback of the timer whose turn it is. */
  lemma TurnEventsOwn(s: State, id: TimerId, now: nat, rs: Reactions)
    requires id in s.q
    ensures forall i :: 0 <= i < |TurnOf(s, id, now, rs).events| ==> TurnOf(s, id, now, rs).events[i].id == id
    ensures |TurnOf(s, id, now, rs).events| <= 3
  {
  }

  lemma DeleteElsewhere(s: State, t: Timer, rs: Reactions, id: TimerId)
    requires WellFormed(s) && id != 0 && t.id != id && Untouched(rs.gone.ops, id)
    ensures SameEntry(s.q, Delete(s, t, rs).s.q, id)
  {
    UntouchedStays(s.(q := s.q - {t.id}), rs.gone.ops, id);
  }

  lemma FinishElsewhere(s: State, t: Timer, wasCanceled: bool, trigger: int, now: nat, rs: Reactions, id: TimerId)
    requires WellFormed(s) && id != 0 && t.id != id && Untouched(rs.gone.ops, id)
    ensures SameEntry(s.q, Finish(s, t, wasCanceled, trigger, now, rs).s.q, id)
  {
    var expired := (t.flags.canceled || t.repeat == 0) && t.flags.deleteAuto;
    var delete := t.flags.delete || expired;
    var t1 := t.(flags := t.flags.(delete := delete, canceled := t.flags.canceled && !(delete && wasCanceled)));
    DeleteElsewhere(s, t1, rs, id);
  }

  lemma StatusTurnElsewhere(s: State, t: Timer, trigger: int, now: nat, rs: Reactions, id: TimerId)
    requires WellFormed(s) && id != 0 && t.id != id
    requires Untouched(rs.status.ops, id) && Untouched(rs.gone.ops, id)
    ensures SameEntry(s.q, StatusTurn(s, t, trigger, now, rs).s.q, id)
  {
    DeleteElsewhere(s, t, rs, id);
    ApplyAllKeeps(s, rs.status.ops);
    UntouchedStays(s, rs.status.ops, id);
    var (s1, t1) := React(s, t, t.onStatus, rs.status);
    FinishElsewhere(s1, t1.(flags := t1.flags.(tick := false)), t.flags.canceled, trigger, now, rs, id);
  }

  /** The turn of one timer leaves the entry of another alone, unless a callback touches it. */
  lemma TurnElsewhere(s: State, other: TimerId, now: nat, rs: Reactions, id: TimerId)
    requires WellFormed(s) && other in s.q && other != id && id != 0
    requires Untouched(rs.tick.ops, id) && Untouched(rs.status.ops, id) && Untouched(rs.gone.ops, id)
    ensures SameEntry(s.q, TurnOf(s, other, now, rs).s.q, id)
  {
    var s0 := s.(active := other);
    var t := s.q[other].timer.(id := other);
    StatusTurnElsewhere(s0, t, s.q[other].key, now, rs, id);
    ApplyAllKeeps(s0, rs.tick.ops);
    UntouchedStays(s0, rs.tick.ops, id);
    var (s1, t1) := React(s0, Ticking(t), t.onTick, rs.tick);
    var t2 := t1.(flags := t1.flags.(tick := false));
    StatusTurnElsewhere(s1, t2, s.q[other].key, now, rs, id);
    FinishElsewhere(s1, t2, false, s.q[other].key, now, rs, id);
  }

  /** The turn of an undisturbed self-deleting timer: one tick, then either the next trigger
      with one repeat fewer, or the deletion. */
  lemma OwnTurn(s: State, id: TimerId, now: nat, rs: Reactions)
    requires Settled(s) && id in s.q && SelfDeleting(s.q[id])
    requires Undisturbed(s, Turn(id, now, rs), id)
    ensures var t := s.q[id].timer.(id := id);
            var o := TurnOf(s, id, now, rs);
            if t.repeat <= 1 then
              && id !in o.s.q
              && o.events == [Tick(id, t.onTick, s.q[id].key, now), Status(id, t.onStatus, false, true)]
            else
              && id in o.s.q && SelfDeleting(o.s.q[id])
              && o.events == [Tick(id, t.onTick, s.q[id].key, now)]
              && o.s.q[id].key == Following(t, s.q[id].key, now)
              && o.s.q[id].timer == t.(repeat := t.repeat - 1, flags := Allowed(t.flags))
  {
    var s0 := s.(active := id);
    ApplyAllKeeps(s0, rs.tick.ops);
    UntouchedStays(s0, rs.tick.ops, id);
    var (s1, t1) := React(s0, Ticking(s.q[id].timer.(id := id)), s.q[id].timer.onTick, rs.tick);
    hide ApplyAll, StatusTurn, WellFormed;
    assert t1 == Ticking(s.q[id].timer.(id := id));
    assert !s1.skip;
    var gone := s1.(q := s1.q - {id});
    assert id !in gone.q;
    UntouchedStays(gone, rs.gone.ops, id);
  }

  /** The same timer, for the purpose of its callbacks and its triggers. */
  predicate SameKind(t: Timer, u: Timer) {
    && t.onTick == u.onTick && t.onStatus == u.onStatus && t.interval == u.interval
    && t.flags.fixed == u.flags.fixed && t.flags.micro == u.flags.micro
  }

  lemma {:induction false} LifeStoryOfKind(evs: seq<Event>, t: Timer, u: Timer, n: nat, trigger: int, alive: bool)
    requires t.id == u.id && SameKind(t, u) && LifeStory(evs, t, n, trigger, alive)
    ensures LifeStory(evs, u, n, trigger, alive)
    decreases |evs|
  {
    if evs != [] && n > 1 {
      LifeStoryOfKind(evs[1..], t, u, n - 1, Following(t, trigger, evs[0].now), alive);
    }
  }

  /** Once deleted, a timer has no further callback. */
  lemma {:induction false} GoneStaysGone(s: State, steps: seq<Step>, id: TimerId)
    requires Settled(s) && id != 0 && id !in s.q
    requires Legal(s, steps) && AllUndisturbed(s, steps, id)
    ensures id !in Replay(s, steps).s.q
    ensures EventsOf(Replay(s, steps).events, id) == []
    decreases |steps|
  {
    if steps != [] {
      var o := Do(s, steps[0]);
      DoKeeps(s, steps[0]);
      QuietStep(s, steps[0], id);
      GoneStaysGone(o.s, steps[1..], id);
      EventsOfSplit(o.events, Replay(o.s, steps[1..]).events, id);
    }
  }

  /** A step that is not the turn of `id` and does not touch it changes nothing about it. */
  lemma QuietStep(s: State, step: Step, id: TimerId)
    requires Settled(s) && id != 0 && Enabled(s, step) && Undisturbed(s, step, id)
    requires step.Turn? ==> step.id != id
    ensures SameEntry(s.q, Do(s, step).s.q, id)
    ensures EventsOf(Do(s, step).events, id) == []
  {
    match step
    case Turn(i, now, rs) =>
      TurnElsewhere(s, i, now, rs, id);
      TurnEventsOwn(s, i, now, rs);
      OtherEvents(TurnOf(s, i, now, rs).events, id);
    case Call(op) =>
      UntouchedStays(s, [op], id);
      assert ApplyAll(s, [op]) == Apply(s, op).0;
  }

  /** Over any history that leaves it alone, however the passes are cut, a self-deleting timer
      ticks when due, in order, and is deleted exactly once, after its last tick. */
  lemma {:induction false} LifeOfTimer(s: State, steps: seq<Step>, id: TimerId)
    requires Settled(s) && id in s.q && SelfDeleting(s.q[id])
    requires Legal(s, steps) && AllUndisturbed(s, steps, id)
    ensures LifeStory(EventsOf(Replay(s, steps).events, id), s.q[id].timer.(id := id), s.q[id].timer.repeat,
                      s.q[id].key, id in Replay(s, steps).s.q)
    decreases |steps|
  {
    if steps != [] {
      var o := Do(s, steps[0]);
      var rest := Replay(o.s, steps[1..]);
      var evs := EventsOf(rest.events, id);
      var alive := id in rest.s.q;
      DoKeeps(s, steps[0]);
      assert id != 0;
      EventsOfSplit(o.events, rest.events, id);
      hide Do, SelfDeleting, Undisturbed, Settled, LifeStory;
      if steps[0].Turn? && steps[0].id == id {
        OwnStep(s, steps[0], id, evs, alive);
        if id in o.s.q {
          LifeOfTimer(o.s, steps[1..], id);
        } else {
          GoneStaysGone(o.s, steps[1..], id);
          assert o.events + [] == o.events;
        }
      } else {
        QuietStep(s, steps[0], id);
        LifeOfTimer(o.s, steps[1..], id);
        assert [] + evs == evs;
      }
    }
  }

  /** The timer's own turn puts a tick, and at the end the deletion, before the rest of its story. */
  lemma OwnStep(s: State, step: Step, id: TimerId, evs: seq<Event>, alive: bool)
    requires Settled(s) && id in s.q && SelfDeleting(s.q[id])
    requires step.Turn? && step.id == id && Enabled(s, step) && Undisturbed(s, step, id)
    ensures var o := Do(s, step);
            var t := s.q[id].timer.(id := id);
            && EventsOf(o.events, id) == o.events
            && (id !in o.s.q ==> LifeStory(o.events, t, t.repeat, s.q[id].key, false))
            && (id in o.s.q ==>
                  SelfDeleting(o.s.q[id])
                  && var e := o.s.q[id];
                     LifeStory(evs, e.timer.(id := id), e.timer.repeat, e.key, alive) ==>
                       LifeStory(o.events + evs, t, t.repeat, s.q[id].key, alive))
  {
    var o := Do(s, step);
    var t := s.q[id].timer.(id := id);
    OwnTurn(s, id, step.now, step.rs);
    hide TurnOf, Undisturbed, Settled, LifeStory;
    OwnEvents(o.events, id);
    if t.repeat <= 1 {
      LastTick(o.events, t, t.repeat, s.q[id].key);
    } else {
      var e := o.s.q[id];
      if LifeStory(evs, e.timer.(id := id), e.timer.repeat, e.key, alive) {
        LifeStoryOfKind(evs, e.timer.(id := id), t, t.repeat - 1, e.key, alive);
        TickThenStory(o.events[0], evs, t, t.repeat, s.q[id].key, alive);
      }
    }
  }

  lemma {:induction false} OwnEvents(events: seq<Event>, id: TimerId)
    requires forall i :: 0 <= i < |events| ==> events[i].id == id
    ensures EventsOf(events, id) == events
  {
    if events != [] {
      OwnEvents(events[1..], id);
    }
  }

  lemma LastTick(evs: seq<Event>, t: Timer, n: nat, trigger: int)
    requires |evs| == 2 && n <= 1 && evs[0].Tick? && trigger <= evs[0].now
    requires evs[0] == Tick(t.id, t.onTick, trigger, evs[0].now) && evs[1] == Status(t.id, t.onStatus, false, true)
    ensures LifeStory(evs, t, n, trigger, false)
  {
    assert evs[1..] == [evs[1]];
  }

  lemma TickThenStory(first: Event, evs: seq<Event>, t: Timer, n: nat, trigger: int, alive: bool)
    requires first.Tick? && first == Tick(t.id, t.onTick, trigger, first.now) && trigger <= first.now && n > 1
    requires LifeStory(evs, t, n - 1, Following(t, trigger, first.now), alive)
    ensures LifeStory([first] + evs, t, n, trigger, alive)
  {
    assert ([first] + evs)[1..] == evs;
  }

  function Ticks(evs: seq<Event>): nat {
    if evs == [] then 0 else (if evs[0].Tick? then 1 else 0) + Ticks(evs[1..])
  }

  function Max(a: int, b: int): int {
    if a < b then b else a
  }

  /** The story in numbers: max(1, n) ticks in all, then one deletion; never more before. */
  lemma {:induction false} StoryCounts(evs: seq<Event>, t: Timer, n: nat, trigger: int, alive: bool)
    requires LifeStory(evs, t, n, trigger, alive)
    ensures alive ==> Ticks(evs) == |evs| < Max(1, n)
    ensures !alive ==> Ticks(evs) == Max(1, n) == |evs| - 1 && evs[|evs| - 1] == Status(t.id, t.onStatus, false, true)
    decreases |evs|
  {
    if evs != [] {
      if n <= 1 {
        if !alive {
          assert evs == [evs[0], Status(t.id, t.onStatus, false, true)];
          assert Ticks(evs[1..]) == 0 + Ticks(evs[1..][1..]);
        }
      } else {
        StoryCounts(evs[1..], t, n - 1, Following(t, trigger, evs[0].now), alive);
      }
    }
  }

  /** With INTERVAL_FIXED the k-th trigger is the first one plus k intervals, without drift;
      in every case a tick is never early. */
  lemma {:induction false} StoryTriggers(evs: seq<Event>, t: Timer, n: nat, trigger: int, alive: bool, k: nat)
    requires LifeStory(evs, t, n, trigger, alive) && k < |evs| && evs[k].Tick?
    ensures evs[k].trigger <= evs[k].now
    ensures t.flags.fixed ==> evs[k].trigger == trigger + k * Micros(t.flags, t.interval)
    decreases |evs|
  {
    if k > 0 {
      assert n > 1;
      StoryTriggers(evs[1..], t, n - 1, Following(t, trigger, evs[0].now), alive, k - 1);
      var step := Micros(t.flags, t.interval);
      assert k * step == step + (k - 1) * step;
    }
  }

  /** Main result for one-shot and repeating timers: created with DELETE_AUTO, a delay, an interval
      and a repeat count that are not negative, and left alone from then on, the timer ticks at most
      max(1, n) times, never early; it has left the queue exactly when it has ticked max(1, n) times
      and then been deleted. */
  lemma TicksExactly(s: State, arg: Timer, now: nat, id: TimerId, steps: seq<Step>)
    requires Settled(s) && arg.id == 0 && id != 0 && id !in s.q
    requires arg.flags.deleteAuto && !HasStatus(arg) && arg.delay >= 0 && arg.interval >= 0 && arg.repeat >= 0
    requires Legal(Apply(s, Ctl(arg, now, id)).0, steps)
    requires AllUndisturbed(Apply(s, Ctl(arg, now, id)).0, steps, id)
    ensures var s1 := Apply(s, Ctl(arg, now, id)).0;
            var evs := EventsOf(Replay(s1, steps).events, id);
            && Apply(s, Ctl(arg, now, id)).1 == id
            && Ticks(evs) <= Max(1, arg.repeat)
            && (id in Replay(s1, steps).s.q <==> Ticks(evs) < Max(1, arg.repeat))
            && |evs| == Ticks(evs) + (if id in Replay(s1, steps).s.q then 0 else 1)
            && (id !in Replay(s1, steps).s.q ==> evs != [] && evs[|evs| - 1] == Status(id, arg.onStatus, false, true))
            && (evs != [] ==> evs[0].Tick? && evs[0].trigger == now + Micros(arg.flags, arg.delay))
            && forall k :: 0 <= k < |evs| && evs[k].Tick? ==>
                 && evs[k].trigger <= evs[k].now
                 && (arg.flags.fixed ==>
                       evs[k].trigger == now + Micros(arg.flags, arg.delay) + k * Micros(arg.flags, arg.interval))
  {
    var s1 := Apply(s, Ctl(arg, now, id)).0;
    ApplyKeeps(s, Ctl(arg, now, id));
    LifeOfTimer(s1, steps, id);
    var t := s1.q[id].timer.(id := id);
    var evs := EventsOf(Replay(s1, steps).events, id);
    var alive := id in Replay(s1, steps).s.q;
    StoryCounts(evs, t, t.repeat, s1.q[id].key, alive);
    forall k | 0 <= k < |evs| && evs[k].Tick?
      ensures evs[k].trigger <= evs[k].now
      ensures arg.flags.fixed ==> evs[k].trigger == s1.q[id].key + k * Micros(arg.flags, arg.interval)
    {
      StoryTriggers(evs, t, t.repeat, s1.q[id].key, alive, k);
    }
  }

  /** A timer that is not armed stays in the queue as it is, and silent, until someone touches it. */
  lemma {:induction false} DisarmedIsSilent(s: State, steps: seq<Step>, id: TimerId)
    requires Settled(s) && id in s.q && s.q[id].key < 0
    requires Legal(s, steps) && AllUndisturbed(s, steps, id)
    ensures SameEntry(s.q, Replay(s, steps).s.q, id) && EventsOf(Replay(s, steps).events, id) == []
    decreases |steps|
  {
    if steps != [] {
      var o := Do(s, steps[0]);
      assert id != 0;
      DoKeeps(s, steps[0]);
      QuietStep(s, steps[0], id);
      EventsOfSplit(o.events, Replay(o.s, steps[1..]).events, id);
      hide Do, Undisturbed, Settled;
      DisarmedIsSilent(o.s, steps[1..], id);
    }
  }

  /** A stopped timer makes no callback, and keeps what was set, until it is started again. */
  lemma StoppedIsSilent(s: State, steps: seq<Step>, id: TimerId)
    requires Settled(s) && id in s.q
    requires Legal(Apply(s, Stop(id)).0, steps) && AllUndisturbed(Apply(s, Stop(id)).0, steps, id)
    ensures var o := Replay(Apply(s, Stop(id)).0, steps);
            id in o.s.q && o.s.q[id].timer == s.q[id].timer && EventsOf(o.events, id) == []
  {
    ApplyKeeps(s, Stop(id));
    DisarmedIsSilent(Apply(s, Stop(id)).0, steps, id);
  }

  // ------------------------------------------------------------------ cancelling

  /** Cancelling a self-deleting timer runs its status callback exactly twice, first with
      CANCELED, then with DELETE alone, and removes it; it never ticks. */
  lemma CancelThenDelete(s: State, id: TimerId, now: nat, rs: Reactions)
    requires Settled(s) && id in s.q && SelfDeleting(s.q[id])
    requires Untouched(rs.status.ops, id) && Untouched(rs.gone.ops, id)
    requires rs.status.copy == s.q[id].timer.(id := id, flags := s.q[id].timer.flags.(canceled := true))
    ensures var s1 := Apply(s, AddFlags(id, true, false)).0;
            var o := TurnOf(s1, id, now, rs);
            && s1.q[id].key == 0
            && o.events ==
                 [Status(id, s.q[id].timer.onStatus, true, false), Status(id, s.q[id].timer.onStatus, false, true)]
            && id !in o.s.q
  {
    var s0 := Apply(s, AddFlags(id, true, false)).0.(active := id);
    ApplyKeeps(s, AddFlags(id, true, false));
    ApplyAllKeeps(s0, rs.status.ops);
    UntouchedStays(s0, rs.status.ops, id);
    var t := s0.q[id].timer.(id := id);
    var (s1, t1) := React(s0, t, t.onStatus, rs.status);
    assert t1 == t && !s1.skip;
    UntouchedStays(s1.(q := s1.q - {id}), rs.gone.ops, id);
  }

  /** A callback that sets `repeat` to 1 and asks for an interval renews its timer: it is never
      deleted and its next trigger lies that interval after the turn (the heartbeat and the
      cache's collection both live this way). */
  lemma RenewedByCallback(s: State, id: TimerId, now: nat, rs: Reactions, interval: nat)
    requires Settled(s) && id in s.q && SelfDeleting(s.q[id]) && s.q[id].timer.onTick != NULL
    requires !s.q[id].timer.flags.fixed && Untouched(rs.tick.ops, id)
    requires rs.tick.copy == Ticking(s.q[id].timer.(id := id)).(repeat := 1, interval := interval)
    ensures var o := TurnOf(s, id, now, rs);
            && id in o.s.q && SelfDeleting(o.s.q[id])
            && o.s.q[id].key == now + Micros(s.q[id].timer.flags, interval)
            && o.s.q[id].timer.onTick == s.q[id].timer.onTick && !o.s.q[id].timer.flags.fixed
            && o.events == [Tick(id, s.q[id].timer.onTick, s.q[id].key, now)]
  {
    var s0 := s.(active := id);
    ApplyAllKeeps(s0, rs.tick.ops);
    UntouchedStays(s0, rs.tick.ops, id);
  }

  /** No on_tick callback is called before its trigger, in any history. */
  lemma {:induction false} NeverEarly(s: State, steps: seq<Step>, k: nat)
    requires Legal(s, steps) && k < |Replay(s, steps).events| && Replay(s, steps).events[k].Tick?
    ensures 0 <= Replay(s, steps).events[k].trigger <= Replay(s, steps).events[k].now
    decreases |steps|
  {
    var own := Do(s, steps[0]).events;
    if k < |own| {
      TickIsDue(s, steps[0], k);
    } else {
      NeverEarly(Do(s, steps[0]).s, steps[1..], k - |own|);
    }
  }

  lemma TickIsDue(s: State, step: Step, k: nat)
    requires Enabled(s, step) && k < |Do(s, step).events| && Do(s, step).events[k].Tick?
    ensures 0 <= Do(s, step).events[k].trigger <= Do(s, step).events[k].now
  {
    hide ApplyAll;
  }
}
