/** Timers that repeat without end, and timers that stay in the queue disarmed. */
module TimerEndless {
  import opened TimerQueue
  import opened TimerLaws

  /** An armed timer whose repeat count is negative. */
  predicate Endless(e: Entry) {
    && e.key >= 0 && !HasStatus(e.timer)
    && e.timer.delay >= 0 && e.timer.interval >= 0 && e.timer.repeat < 0
  }

  /** A duration of the timer, in microseconds: given in those, or in ms. */
  function Length(t: Timer, duration: int): int {
    if t.flags.micro then duration else 1000 * duration
  }

  /** The trigger one interval after a tick: counted from its trigger, or from the turn. */
  function OneIntervalOn(t: Timer, tick: Event): int
    requires tick.Tick?
  {
    Length(t, t.interval) + if t.flags.fixed then tick.trigger else tick.now
  }

  /** The turn of an undisturbed endless timer: one tick, and it is armed again. */
  lemma EndlessTurn(s: State, id: TimerId, now: nat, rs: Reactions)
    requires Settled(s) && id in s.q && Endless(s.q[id])
    requires Undisturbed(s, Turn(id, now, rs), id)
    ensures var t := s.q[id].timer.(id := id);
            var tick := Tick(id, t.onTick, s.q[id].key, now);
            var o := TurnOf(s, id, now, rs);
            && o.events == [tick] && id in o.s.q && Endless(o.s.q[id])
            && o.s.q[id] == Entry(OneIntervalOn(t, tick), t.(flags := Allowed(t.flags)))
  {
    var s0 := s.(active := id);
    assert WellFormed(s0) && id != 0;
    hide ApplyAll, StatusTurn, Delete, WellFormed;
    ApplyAllKeeps(s0, rs.tick.ops);
    UntouchedStays(s0, rs.tick.ops, id);
    var (s1, t1) := React(s0, Ticking(s.q[id].timer.(id := id)), s.q[id].timer.onTick, rs.tick);
    assert t1 == Ticking(s.q[id].timer.(id := id)) && !s1.skip && id in s1.q;
  }

  /** How many of the steps are turns of the timer. */
  function TurnsOf(steps: seq<Step>, id: TimerId): nat {
    if steps == [] then 0
    else (if steps[0].Turn? && steps[0].id == id then 1 else 0) + TurnsOf(steps[1..], id)
  }

  /** Due ticks in order, each one interval after the one before; the next is due at `next`. */
  predicate EndlessStory(evs: seq<Event>, t: Timer, trigger: int, next: int) {
    if evs == [] then next == trigger
    else
      && evs[0].Tick? && evs[0] == Tick(t.id, t.onTick, trigger, evs[0].now) && trigger <= evs[0].now
      && EndlessStory(evs[1..], t, OneIntervalOn(t, evs[0]), next)
  }

  lemma {:induction false} StoryOfKind(evs: seq<Event>, t: Timer, u: Timer, trigger: int, next: int)
    requires t.id == u.id && SameKind(t, u) && EndlessStory(evs, t, trigger, next)
    ensures EndlessStory(evs, u, trigger, next)
  {
    if evs != [] {
      StoryOfKind(evs[1..], t, u, OneIntervalOn(t, evs[0]), next);
    }
  }

  lemma EndlessOwnStep(s: State, step: Step, id: TimerId)
    requires Settled(s) && id in s.q && Endless(s.q[id])
    requires step.Turn? && step.id == id && Enabled(s, step) && Undisturbed(s, step, id)
    ensures var o := Do(s, step);
            var t := s.q[id].timer.(id := id);
            && EventsOf(o.events, id) == o.events == [Tick(id, t.onTick, s.q[id].key, step.now)]
            && id in o.s.q && Endless(o.s.q[id]) && SameKind(o.s.q[id].timer, t)
            && o.s.q[id].key == OneIntervalOn(t, o.events[0])
  {
    EndlessTurn(s, id, step.now, step.rs);
    var o := Do(s, step);
    hide TurnOf, Undisturbed, Settled, Endless, EndlessStory;
    OwnEvents(o.events, id);
  }

  /** The timer's own turn puts a tick before the rest of its story. */
  lemma EndlessOwnStory(s: State, step: Step, id: TimerId, evs: seq<Event>, next: int)
    requires Settled(s) && id in s.q && Endless(s.q[id])
    requires step.Turn? && step.id == id && Enabled(s, step) && Undisturbed(s, step, id)
    requires id in Do(s, step).s.q
    requires EndlessStory(evs, Do(s, step).s.q[id].timer.(id := id), Do(s, step).s.q[id].key, next)
    ensures EndlessStory(Do(s, step).events + evs, s.q[id].timer.(id := id), s.q[id].key, next)
  {
    EndlessOwnStep(s, step, id);
    var o := Do(s, step);
    hide Do, Undisturbed, Settled, Endless, EndlessStory;
    var t := s.q[id].timer.(id := id);
    StoryOfKind(evs, o.s.q[id].timer.(id := id), t, o.s.q[id].key, next);
    TickFirst(o.events[0], evs, t, s.q[id].key, next);
  }

  lemma TickFirst(tick: Event, evs: seq<Event>, t: Timer, trigger: int, next: int)
    requires tick.Tick? && tick == Tick(t.id, t.onTick, trigger, tick.now) && trigger <= tick.now
    requires EndlessStory(evs, t, OneIntervalOn(t, tick), next)
    ensures EndlessStory([tick] + evs, t, trigger, next)
  {
    assert ([tick] + evs)[1..] == evs;
  }

  /** Over any history that leaves it alone an endless timer is never removed, ticks on each of its
      turns, in order and when due, and stays armed for one interval after its last tick. */
  lemma {:induction false} LifeOfEndless(s: State, steps: seq<Step>, id: TimerId)
    requires Settled(s) && id in s.q && Endless(s.q[id])
    requires Legal(s, steps) && AllUndisturbed(s, steps, id)
    ensures var o := Replay(s, steps);
            var evs := EventsOf(o.events, id);
            && id in o.s.q && Endless(o.s.q[id]) && SameKind(o.s.q[id].timer, s.q[id].timer)
            && |evs| == TurnsOf(steps, id)
            && EndlessStory(evs, s.q[id].timer.(id := id), s.q[id].key, o.s.q[id].key)
    decreases |steps|
  {
    if steps != [] {
      var o := Do(s, steps[0]);
      var rest := Replay(o.s, steps[1..]);
      var evs := EventsOf(rest.events, id);
      assert id != 0;
      DoKeeps(s, steps[0]);
      EventsOfSplit(o.events, rest.events, id);
      hide Do, Endless, Undisturbed, Settled, EndlessStory;
      if steps[0].Turn? && steps[0].id == id {
        EndlessOwnStep(s, steps[0], id);
        LifeOfEndless(o.s, steps[1..], id);
        EndlessOwnStory(s, steps[0], id, evs, rest.s.q[id].key);
      } else {
        QuietStep(s, steps[0], id);
        LifeOfEndless(o.s, steps[1..], id);
        assert [] + evs == evs;
      }
    }
  }

  /** The k-th callback is a tick that is not early, due at `first`, or one interval after the last one. */
  predicate InTurn(evs: seq<Event>, t: Timer, first: int, k: nat)
    requires k < |evs|
  {
    && evs[k].Tick? && evs[k].id == t.id && evs[k].cb == t.onTick && evs[k].trigger <= evs[k].now
    && (k == 0 ==> evs[k].trigger == first)
    && (k > 0 && evs[k - 1].Tick? ==> evs[k].trigger == OneIntervalOn(t, evs[k - 1]))
  }

  /** When the tick that follows those in `evs` is due. */
  function NextDue(evs: seq<Event>, t: Timer, first: int): int {
    if evs == [] then first
    else if evs[|evs| - 1].Tick? then OneIntervalOn(t, evs[|evs| - 1])
    else -1
  }

  lemma {:induction false} EndlessTicks(evs: seq<Event>, t: Timer, first: int, next: int, k: nat)
    requires EndlessStory(evs, t, first, next) && k < |evs|
    ensures InTurn(evs, t, first, k)
  {
    if k > 0 {
      EndlessTicks(evs[1..], t, OneIntervalOn(t, evs[0]), next, k - 1);
    }
  }

  lemma {:induction false} EndlessNext(evs: seq<Event>, t: Timer, first: int, next: int)
    requires EndlessStory(evs, t, first, next)
    ensures next == NextDue(evs, t, first)
  {
    if evs != [] {
      EndlessNext(evs[1..], t, OneIntervalOn(t, evs[0]), next);
    }
  }

  /** Main result for endless timers: created with a negative repeat count, a delay and an interval, and
      left alone from then on, the timer stays in the queue, armed, ticks on each of its turns, first after
      its delay and then one interval after each tick or its trigger, and has no other callback. */
  lemma TicksForever(s: State, arg: Timer, now: nat, id: TimerId, steps: seq<Step>)
    requires Settled(s) && arg.id == 0 && id != 0 && id !in s.q
    requires !HasStatus(arg) && arg.delay >= 0 && arg.interval >= 0 && arg.repeat < 0
    requires Legal(Apply(s, Ctl(arg, now, id)).0, steps)
    requires AllUndisturbed(Apply(s, Ctl(arg, now, id)).0, steps, id)
    ensures var o := Replay(Apply(s, Ctl(arg, now, id)).0, steps);
            var evs := EventsOf(o.events, id);
            var first := now + Length(arg, arg.delay);
            && |evs| == TurnsOf(steps, id)
            && id in o.s.q && o.s.q[id].key == NextDue(evs, arg, first) >= 0
            && forall k :: 0 <= k < |evs| ==> InTurn(evs, arg.(id := id), first, k)
  {
    var s1 := Apply(s, Ctl(arg, now, id)).0;
    ApplyKeeps(s, Ctl(arg, now, id));
    var first := now + Length(arg, arg.delay);
    assert Endless(s1.q[id]) && s1.q[id].key == first;
    var t := arg.(id := id);
    assert SameKind(s1.q[id].timer, t);
    LifeOfEndless(s1, steps, id);
    var evs := EventsOf(Replay(s1, steps).events, id);
    var next := Replay(s1, steps).s.q[id].key;
    assert next >= 0;
    hide *;
    StoryOfKind(evs, s1.q[id].timer.(id := id), t, first, next);
    EndlessNext(evs, t, first, next);
    NextDueOfKind(evs, t, arg, first);
    forall k | 0 <= k < |evs|
      ensures InTurn(evs, t, first, k)
    {
      EndlessTicks(evs, t, first, next, k);
    }
  }

  lemma NextDueOfKind(evs: seq<Event>, t: Timer, u: Timer, first: int)
    requires SameKind(t, u)
    ensures NextDue(evs, t, first) == NextDue(evs, u, first)
  {
  }

  // ---------------------------------------------------------------------- disarmed

  /** After a tick callback that leaves its own timer alone and whose copy has run out of repeats, or has
      no interval or delay, and is not to be deleted: the timer stays, disarmed. */
  lemma ExhaustedIsDisarmed(s: State, id: TimerId, now: nat, rs: Reactions)
    requires WellFormed(s) && !s.skip && id in s.q
    requires !HasStatus(s.q[id].timer) && s.q[id].timer.onTick != NULL
    requires forall i :: 0 <= i < |rs.tick.ops| ==> !Claims(s, rs.tick.ops[i], id)
    requires !HasStatus(rs.tick.copy)
    requires rs.tick.copy.repeat == 0 || rs.tick.copy.interval < 0 || rs.tick.copy.delay == -1
    requires !(rs.tick.copy.repeat == 0 && rs.tick.copy.flags.deleteAuto)
    ensures var o := TurnOf(s, id, now, rs);
            && id in o.s.q && o.s.q[id].key == -1
            && o.events == [Tick(id, s.q[id].timer.onTick, s.q[id].key, now)]
  {
    UnclaimedCopyWritten(s, id, now, rs);
    SkipIffClaimed(s.(active := id), rs.tick.ops, id);
    hide ApplyAll, WellFormed, Claims, StatusTurn;
  }

  /** A canceled timer without DELETE_AUTO whose status callback leaves it canceled: it stays in the
      queue, disarmed and no longer marked as canceled. */
  lemma CanceledIsDisarmed(s: State, id: TimerId, now: nat, rs: Reactions)
    requires WellFormed(s) && !s.skip && id in s.q
    requires s.q[id].timer.flags.canceled && !s.q[id].timer.flags.delete && s.q[id].timer.onStatus != NULL
    requires forall i :: 0 <= i < |rs.status.ops| ==> !Claims(s, rs.status.ops[i], id)
    requires rs.status.copy.flags.canceled && !rs.status.copy.flags.delete && !rs.status.copy.flags.deleteAuto
    ensures var o := TurnOf(s, id, now, rs);
            && id in o.s.q && o.s.q[id].key == -1 && !o.s.q[id].timer.flags.canceled
            && o.s.q[id].timer.repeat == rs.status.copy.repeat
            && o.events == [Status(id, s.q[id].timer.onStatus, true, false)]
  {
    SkipIffClaimed(s.(active := id), rs.status.ops, id);
    ApplyAllKeeps(s.(active := id), rs.status.ops);
    hide ApplyAll, WellFormed, Claims, TickTurn, Delete;
  }

  /** The same by the restart edge: a tick callback cancels its copy. */
  lemma CancelingIsDisarmed(s: State, id: TimerId, now: nat, rs: Reactions)
    requires WellFormed(s) && !s.skip && id in s.q
    requires !HasStatus(s.q[id].timer) && s.q[id].timer.onTick != NULL
    requires forall i :: 0 <= i < |rs.tick.ops| ==> !Claims(s, rs.tick.ops[i], id)
    requires forall i :: 0 <= i < |rs.status.ops| ==> !Claims(s, rs.status.ops[i], id)
    requires rs.tick.copy.flags.canceled && !rs.tick.copy.flags.delete && rs.tick.copy.onStatus != NULL
    requires rs.status.copy.flags.canceled && !rs.status.copy.flags.delete && !rs.status.copy.flags.deleteAuto
    ensures var o := TurnOf(s, id, now, rs);
            && id in o.s.q && o.s.q[id].key == -1 && !o.s.q[id].timer.flags.canceled
            && o.events == [Tick(id, s.q[id].timer.onTick, s.q[id].key, now),
                            Status(id, rs.tick.copy.onStatus, true, false)]
  {
    var s0 := s.(active := id);
    SkipIffClaimed(s0, rs.tick.ops, id);
    ApplyAllKeeps(s0, rs.tick.ops);
    SkipIffClaimed(ApplyAll(s0, rs.tick.ops), rs.status.ops, id);
    ApplyAllKeeps(ApplyAll(s0, rs.tick.ops), rs.status.ops);
    hide ApplyAll, WellFormed, Claims, Delete;
  }
}
