/** When winecord_timer_start restarts the timer it is given, and when it pushes a second one. */
module TimerIds {
  import opened TimerQueue
  import opened TimerLaws

  /** The timer stored in the entry `id` carries its own id. */
  predicate Stored(s: State, id: TimerId) {
    id in s.q && s.q[id].timer.id == id
  }

  /** A ctl call for `id` that is not a mere query. */
  predicate Names(op: Op, id: TimerId) {
    op.Ctl? && op.arg.id == id && op.arg.flags != NO_FLAGS.(get := true)
  }

  predicate NamedIn(ops: seq<Op>, id: TimerId) {
    exists i :: 0 <= i < |ops| && Names(ops[i], id)
  }

  lemma OpStored(s: State, op: Op, id: TimerId)
    requires WellFormed(s) && id in s.q
    ensures id in Apply(s, op).0.q
    ensures Stored(Apply(s, op).0, id) <==> Stored(s, id) || Names(op, id)
  {
  }

  /** Of all the calls only a ctl call that names the timer gives its entry the id: start, stop,
      cancel and delete write back what is stored. */
  lemma {:induction false} OpsStored(s: State, ops: seq<Op>, id: TimerId)
    requires WellFormed(s) && id in s.q
    ensures WellFormed(ApplyAll(s, ops)) && id in ApplyAll(s, ops).q
    ensures Stored(ApplyAll(s, ops), id) <==> Stored(s, id) || NamedIn(ops, id)
    decreases |ops|
  {
    if ops != [] {
      OpStored(s, ops[0], id);
      ApplyKeeps(s, ops[0]);
      NamedSplit(ops[..1], ops[1..], id);
      assert ops == ops[..1] + ops[1..];
      hide Apply, Names;
      OpsStored(Apply(s, ops[0]).0, ops[1..], id);
    }
  }

  lemma NamedSplit(a: seq<Op>, b: seq<Op>, id: TimerId)
    ensures NamedIn(a + b, id) <==> NamedIn(a, id) || NamedIn(b, id)
    ensures |a| == 1 ==> (NamedIn(a, id) <==> Names(a[0], id))
    ensures !NamedIn([], id)
  {
    var ops := a + b;
    if NamedIn(a, id) {
      var i :| 0 <= i < |a| && Names(a[i], id);
      assert ops[i] == a[i];
    }
    if NamedIn(b, id) {
      var i :| 0 <= i < |b| && Names(b[i], id);
      assert ops[|a| + i] == b[i];
    }
  }

  // ------------------------------------------------------------- what a turn does to ids

  /** The calls the callbacks of a turn make, and whether the loop wrote its copy back. */
  datatype Trace = Trace(ops: seq<Op>, written: bool)

  function Made(cb: Callback, r: Reaction): seq<Op> {
    if cb == NULL then [] else r.ops
  }

  function FinishTrace(t: Timer, rs: Reactions): Trace {
    if t.flags.delete || ((t.flags.canceled || t.repeat == 0) && t.flags.deleteAuto)
    then Trace(Made(t.onStatus, rs.gone), false)
    else Trace([], true)
  }

  function After(ops: seq<Op>, trace: Trace): Trace {
    trace.(ops := ops + trace.ops)
  }

  function StatusTrace(s: State, t: Timer, rs: Reactions): Trace {
    if t.flags.delete then Trace(Made(t.onStatus, rs.gone), false)
    else
      var (s1, t1) := React(s, t, t.onStatus, rs.status);
      After(Made(t.onStatus, rs.status), if s1.skip then Trace([], false) else FinishTrace(t1, rs))
  }

  function TurnTrace(s: State, id: TimerId, rs: Reactions): Trace
    requires id in s.q
  {
    var s0 := s.(active := id);
    var t := s.q[id].timer.(id := id);
    if HasStatus(t) then StatusTrace(s0, t, rs)
    else
      var (s1, t1) := React(s0, Ticking(t), t.onTick, rs.tick);
      After(Made(t.onTick, rs.tick),
            if s1.skip then Trace([], false)
            else if t1.flags.canceled then StatusTrace(s1, t1.(flags := t1.flags.(tick := false)), rs)
            else FinishTrace(t1, rs))
  }

  /** A status callback that announces the deletion of `id`. */
  predicate Deleted(events: seq<Event>, id: TimerId) {
    exists k :: 0 <= k < |events| && events[k].id == id && events[k].Status? && events[k].deleted
  }

  lemma DeletedSplit(a: seq<Event>, b: seq<Event>, id: TimerId)
    ensures Deleted(a + b, id) <==> Deleted(a, id) || Deleted(b, id)
  {
    var events := a + b;
    if Deleted(a, id) {
      var k :| 0 <= k < |a| && a[k].id == id && a[k].Status? && a[k].deleted;
      assert events[k] == a[k];
    }
    if Deleted(b, id) {
      var k :| 0 <= k < |b| && b[k].id == id && b[k].Status? && b[k].deleted;
      assert events[|a| + k] == b[k];
    }
  }

  /** After a part of the turn of `i` that began in `s`, the entry `id` is as the trace says. */
  ghost predicate Tells(s: State, o: Outcome, i: TimerId, trace: Trace, id: TimerId) {
    !Deleted(o.events, id) ==>
      && WellFormed(o.s) && id in o.s.q
      && (Stored(o.s, id) <==> Stored(s, id) || NamedIn(trace.ops, id) || (i == id && trace.written))
  }

  lemma ReactStored(s: State, t: Timer, cb: Callback, r: Reaction, id: TimerId)
    requires WellFormed(s) && id in s.q
    ensures var s1 := React(s, t, cb, r).0;
            WellFormed(s1) && id in s1.q && (Stored(s1, id) <==> Stored(s, id) || NamedIn(Made(cb, r), id))
    ensures React(s, t, cb, r).1.id == t.id
  {
    OpsStored(s, r.ops, id);
    NamedSplit([], [], id);
  }

  lemma DeleteTells(s: State, t: Timer, rs: Reactions, id: TimerId)
    requires WellFormed(s) && id in s.q
    ensures Tells(s, Delete(s, t, rs), t.id, Trace(Made(t.onStatus, rs.gone), false), id)
  {
    var o := Delete(s, t, rs);
    if id == t.id {
      assert o.events[0].deleted;
    } else {
      ReactStored(s.(q := s.q - {t.id}), t, t.onStatus, rs.gone, id);
    }
  }

  lemma FinishTells(s: State, t: Timer, wasCanceled: bool, trigger: int, now: nat, rs: Reactions, id: TimerId)
    requires WellFormed(s) && !s.skip && id in s.q && t.id in s.q && trigger >= 0
    ensures Tells(s, Finish(s, t, wasCanceled, trigger, now, rs), t.id, FinishTrace(t, rs), id)
  {
    var delete := t.flags.delete || ((t.flags.canceled || t.repeat == 0) && t.flags.deleteAuto);
    if delete {
      var t1 := t.(flags := t.flags.(delete := true, canceled := t.flags.canceled && !wasCanceled));
      DeleteTells(s, t1, rs, id);
      assert Finish(s, t, wasCanceled, trigger, now, rs) == Delete(s, t1, rs);
    } else {
      FinishKeeps(s, t, wasCanceled, trigger, now, rs);
      NamedSplit([], [], id);
    }
  }

  /** What follows a callback. */
  lemma TellsAfter(s: State, s1: State, called: seq<Event>, o: Outcome, i: TimerId, ops: seq<Op>,
                   trace: Trace, id: TimerId)
    requires Stored(s1, id) <==> Stored(s, id) || NamedIn(ops, id)
    requires Tells(s1, o, i, trace, id)
    ensures Tells(s, Outcome(o.s, called + o.events), i, After(ops, trace), id)
  {
    DeletedSplit(called, o.events, id);
    NamedSplit(ops, trace.ops, id);
  }

  lemma SkipTells(s: State, s1: State, called: seq<Event>, i: TimerId, ops: seq<Op>, id: TimerId)
    requires WellFormed(s1) && id in s1.q && (Stored(s1, id) <==> Stored(s, id) || NamedIn(ops, id))
    ensures Tells(s, Outcome(s1.(skip := false), called), i, After(ops, Trace([], false)), id)
  {
    NamedSplit(ops, [], id);
    assert ops + [] == ops;
  }

  lemma StatusTells(s: State, t: Timer, trigger: int, now: nat, rs: Reactions, id: TimerId)
    requires WellFormed(s) && id in s.q && t.id in s.q && trigger >= 0
    ensures Tells(s, StatusTurn(s, t, trigger, now, rs), t.id, StatusTrace(s, t, rs), id)
  {
    if t.flags.delete {
      DeleteTells(s, t, rs, id);
    } else {
      var (s1, t1) := React(s, t, t.onStatus, rs.status);
      var called := [Status(t.id, t.onStatus, t.flags.canceled, false)];
      var ops := Made(t.onStatus, rs.status);
      ReactStored(s, t, t.onStatus, rs.status, id);
      ReactStored(s, t, t.onStatus, rs.status, t.id);
      hide React, Tells, Finish, FinishTrace;
      if s1.skip {
        SkipTells(s, s1, called, t.id, ops, id);
      } else {
        var t2 := t1.(flags := t1.flags.(tick := false));
        FinishTells(s1, t2, t.flags.canceled, trigger, now, rs, id);
        TickBit(t1, rs);
        TellsAfter(s, s1, called, Finish(s1, t2, t.flags.canceled, trigger, now, rs), t.id, ops,
                   FinishTrace(t2, rs), id);
      }
    }
  }

  lemma TickBit(t: Timer, rs: Reactions)
    ensures FinishTrace(t.(flags := t.flags.(tick := false)), rs) == FinishTrace(t, rs)
  {
  }

  lemma TickTells(s: State, t: Timer, trigger: int, now: nat, rs: Reactions, id: TimerId)
    requires WellFormed(s) && id in s.q && t.id in s.q && trigger >= 0
    ensures var (s1, t1) := React(s, Ticking(t), t.onTick, rs.tick);
            Tells(s, TickTurn(s, t, trigger, now, rs), t.id,
                  After(Made(t.onTick, rs.tick),
                        if s1.skip then Trace([], false)
                        else if t1.flags.canceled then StatusTrace(s1, t1.(flags := t1.flags.(tick := false)), rs)
                        else FinishTrace(t1, rs)), id)
  {
    var (s1, t1) := React(s, Ticking(t), t.onTick, rs.tick);
    var called := [Tick(t.id, t.onTick, trigger, now)];
    var ops := Made(t.onTick, rs.tick);
    var t2 := t1.(flags := t1.flags.(tick := false));
    ReactStored(s, Ticking(t), t.onTick, rs.tick, id);
    ReactStored(s, Ticking(t), t.onTick, rs.tick, t.id);
    hide React, Tells, Finish, FinishTrace, StatusTurn, StatusTrace;
    if s1.skip {
      SkipTells(s, s1, called, t.id, ops, id);
    } else if t1.flags.canceled {
      StatusTells(s1, t2, trigger, now, rs, id);
      TellsAfter(s, s1, called, StatusTurn(s1, t2, trigger, now, rs), t.id, ops, StatusTrace(s1, t2, rs), id);
    } else {
      FinishTells(s1, t2, false, trigger, now, rs, id);
      TickBit(t1, rs);
      TellsAfter(s, s1, called, Finish(s1, t2, false, trigger, now, rs), t.id, ops, FinishTrace(t2, rs), id);
    }
  }

  // ----------------------------------------------------------------------- histories

  /** The step gives the entry its id: a ctl call names the timer, in or outside a callback, or a
      turn of the loop writes the copy back. */
  predicate Sets(s: State, step: Step, id: TimerId)
    requires Enabled(s, step)
  {
    match step
    case Call(op) => Names(op, id)
    case Turn(i, _, rs) =>
      NamedIn(TurnTrace(s, i, rs).ops, id) || (i == id && TurnTrace(s, i, rs).written)
  }

  predicate EverSet(s: State, steps: seq<Step>, id: TimerId)
    requires Legal(s, steps)
    decreases |steps|
  {
    steps != [] && (Sets(s, steps[0], id) || EverSet(Do(s, steps[0]).s, steps[1..], id))
  }

  lemma StepStored(s: State, step: Step, id: TimerId)
    requires Settled(s) && Enabled(s, step) && id in s.q && !Deleted(Do(s, step).events, id)
    ensures id in Do(s, step).s.q
    ensures Stored(Do(s, step).s, id) <==> Stored(s, id) || Sets(s, step, id)
  {
    match step
    case Call(op) => OpStored(s, op, id);
    case Turn(i, now, rs) =>
      var s0 := s.(active := i);
      var t := s.q[i].timer.(id := i);
      assert Stored(s0, id) <==> Stored(s, id);
      if HasStatus(t) {
        StatusTells(s0, t, s.q[i].key, now, rs, id);
      } else {
        TickTells(s0, t, s.q[i].key, now, rs, id);
      }
      hide StatusTurn, TickTurn, StatusTrace, React, FinishTrace;
  }

  lemma {:induction false} StoredIff(s: State, steps: seq<Step>, id: TimerId)
    requires Settled(s) && id in s.q && Legal(s, steps) && !Deleted(Replay(s, steps).events, id)
    ensures id in Replay(s, steps).s.q
    ensures Stored(Replay(s, steps).s, id) <==> Stored(s, id) || EverSet(s, steps, id)
    decreases |steps|
  {
    if steps != [] {
      var o := Do(s, steps[0]);
      DeletedSplit(o.events, Replay(o.s, steps[1..]).events, id);
      StepStored(s, steps[0], id);
      DoKeeps(s, steps[0]);
      hide Do, Sets, Stored, Settled, Enabled, Deleted;
      StoredIff(o.s, steps[1..], id);
    }
  }

  /** A timer that was pushed and not deleted since is restarted in place by winecord_timer_start if and
      only if, since the push, a ctl call named it or a turn of the loop wrote it back. Otherwise,
      whatever was stopped, canceled or started meanwhile, the call pushes a second timer and leaves
      the first as it is. */
  lemma StartInPlaceIff(s0: State, arg: Timer, now: nat, id: TimerId, steps: seq<Step>, later: nat, newId: TimerId)
    requires Settled(s0) && arg.id == 0 && id != 0 && id !in s0.q
    requires Legal(Apply(s0, Ctl(arg, now, id)).0, steps)
    requires !Deleted(Replay(Apply(s0, Ctl(arg, now, id)).0, steps).events, id)
    requires newId != 0 && newId !in Replay(Apply(s0, Ctl(arg, now, id)).0, steps).s.q
    ensures var s := Apply(s0, Ctl(arg, now, id)).0;
            var s1 := Replay(s, steps).s;
            var (s2, started) := Apply(s1, Start(id, later, newId));
            && id in s1.q
            && (started == id <==> EverSet(s, steps, id))
            && (EverSet(s, steps, id) ==> s2.q.Keys == s1.q.Keys && s2.q[id].key >= 0)
            && (!EverSet(s, steps, id) ==>
                  started == newId && s2.q.Keys == s1.q.Keys + {newId} && s2.q[id] == s1.q[id])
  {
    var s := Apply(s0, Ctl(arg, now, id)).0;
    ApplyKeeps(s0, Ctl(arg, now, id));
    assert Settled(s) && id in s.q && !Stored(s, id);
    StoredIff(s, steps, id);
    ReplayKeeps(s, steps);
    hide Replay, Legal, EverSet;
    StartByStoredId(Replay(s, steps).s, id, later, newId);
  }

  /** Stopping rewrites the entry and yet leaves it without its id: a timer that is pushed, stopped and
      started again stays stopped, beside a new one. So does one that is canceled and started. */
  lemma StoppedStartsAnother(arg: Timer, now: nat)
    requires arg.id == 0 && arg.delay >= 0
    ensures var s := Apply(Apply(State(map[], 0, false), Ctl(arg, now, 1)).0, Stop(1)).0;
            var (s1, started) := Apply(s, Start(1, now, 2));
            started == 2 && 1 in s1.q && s1.q[1].key == -1 && 2 in s1.q
    ensures var s := Apply(Apply(State(map[], 0, false), Ctl(arg, now, 1)).0, AddFlags(1, true, false)).0;
            var (s1, started) := Apply(s, Start(1, now, 2));
            started == 2 && 1 in s1.q && s1.q[1].timer.flags.canceled && 2 in s1.q
  {
    var s := Apply(State(map[], 0, false), Ctl(arg, now, 1)).0;
    StartByStoredId(Apply(s, Stop(1)).0, 1, now, 2);
    StartByStoredId(Apply(s, AddFlags(1, true, false)).0, 1, now, 2);
  }
}
