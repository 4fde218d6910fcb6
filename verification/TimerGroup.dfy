/** The timer group as the program runs it: fields updated in place, refining TimerQueue. */
module TimerGroup {
  import opened TimerQueue
  import opened TimerLaws
  import Numbers

  const MAX_ITERATIONS: nat := 100000
  /** Microseconds after which a pass gives up. */
  const TIME_BUDGET: nat := 10000

  /** Every turn of a pass is that of a head of the queue that is due. */
  ghost predicate Pass(s: State, steps: seq<Step>)
    decreases |steps|
  {
    steps == []
    || (&& steps[0].Turn? && Enabled(s, steps[0]) && IsHead(s.q, steps[0].id)
        && Pass(Do(s, steps[0]).s, steps[1..]))
  }

  lemma {:induction false} PassIsLegal(s: State, steps: seq<Step>)
    requires Pass(s, steps)
    ensures Legal(s, steps)
    decreases |steps|
  {
    if steps != [] {
      PassIsLegal(Do(s, steps[0]).s, steps[1..]);
    }
  }

  /** A pass may be extended by the turn of a due head. */
  lemma {:induction false} ExtendPass(s: State, steps: seq<Step>, step: Step)
    requires Pass(s, steps) && Legal(s, steps)
    requires step.Turn? && Enabled(Replay(s, steps).s, step) && IsHead(Replay(s, steps).s.q, step.id)
    ensures Pass(s, steps + [step]) && Legal(s, steps + [step])
    ensures var o := Do(Replay(s, steps).s, step);
            Replay(s, steps + [step]) == Outcome(o.s, Replay(s, steps).events + o.events)
    decreases |steps|
  {
    hide Do, Enabled, IsHead;
    if steps == [] {
      assert [step][1..] == [];
      assert [] + [step] == [step];
    } else {
      var s1 := Do(s, steps[0]);
      ExtendPass(s1.s, steps[1..], step);
      assert (steps + [step])[1..] == steps[1..] + [step];
      var rest := Replay(s1.s, steps[1..]);
      var o := Do(rest.s, step);
      assert s1.events + (rest.events + o.events) == (s1.events + rest.events) + o.events;
    }
  }

  lemma EmptyPass(s: State)
    ensures Pass(s, []) && Legal(s, []) && Replay(s, []) == Outcome(s, [])
  {
  }

  lemma ApplyCtl(s: State, arg: Timer)
    ensures forall now, newId :: Apply(s, Ctl(arg, now, newId)) == CtlCall(s, arg, now, newId)
  {
  }

  lemma ApplyAllSnoc(s: State, ops: seq<Op>, op: Op)
    ensures ApplyAll(s, ops + [op]) == Apply(ApplyAll(s, ops), op).0
  {
    ApplyAllSplit(s, ops, [op]);
    assert ApplyAll(ApplyAll(s, ops), [op]) == Apply(ApplyAll(s, ops), op).0;
  }

  ghost function AnyReactions(): Reactions {
    var t := Timer(0, NULL, NULL, 0, 0, 0, 0, NO_FLAGS);
    Reactions(Reaction([], t), Reaction([], t), Reaction([], t))
  }

  /** When the head is not due, no timer is. */
  lemma NothingDue(s: State, id: TimerId, now: nat)
    requires WellFormed(s) && IsHead(s.q, id) && (s.q[id].key > now || s.q[id].key == -1)
    ensures forall j :: j in s.q && 0 <= s.q[j].key ==> now < s.q[j].key
  {
    HeadDecidesDue(s.q, id, now);
  }

  /** The log has one status callback for each of the timers, canceled and deleted, and nothing else. */
  ghost predicate CanceledOnce(log: seq<Event>, timers: set<TimerId>) {
    && (forall k :: 0 <= k < |log| ==> log[k].Status? && log[k].canceled && log[k].deleted && log[k].id in timers)
    && (forall i, j :: 0 <= i < j < |log| ==> log[i].id != log[j].id)
    && (forall id :: id in timers ==> exists k :: 0 <= k < |log| && log[k].id == id)
  }

  lemma CanceledNext(log: seq<Event>, timers: set<TimerId>, event: Event)
    requires CanceledOnce(log, timers) && event.id !in timers
    requires event.Status? && event.canceled && event.deleted
    ensures CanceledOnce(log + [event], timers + {event.id})
  {
    var log1 := log + [event];
    assert log1[|log|] == event;
    forall id | id in timers
      ensures exists k :: 0 <= k < |log1| && log1[k].id == id
    {
      var k :| 0 <= k < |log| && log[k].id == id;
      assert log1[k].id == id;
    }
  }

  /** The event of calling `cb` on this copy of a timer. */
  predicate Describes(event: Event, cb: Callback, timer: Timer) {
    && event.id == timer.id && event.cb == cb
    && (event.Tick? ==> timer.flags.tick)
    && (event.Status? ==> event.canceled == timer.flags.canceled && event.deleted == timer.flags.delete)
  }

  /** The state and the callbacks of the class are those of the step machine. */
  ghost predicate Yields(o: Outcome, s: State, before: seq<Event>, log: seq<Event>) {
    o.s == s && log == before + o.events
  }

  lemma Regroup<V>(a: seq<V>, b: seq<V>, c: seq<V>)
    ensures a + b + c == a + (b + c)
  {
  }

  /** An API call as a caller makes it, before the clock is read and an id is allotted. */
  datatype Request =
    | SetTimer(arg: Timer)
    | StartTimer(id: TimerId)
    | StopTimer(id: TimerId)
    | FlagTimer(id: TimerId, canceled: bool, delete: bool)

  class Timers {
    var q: map<TimerId, Entry>
    var active: TimerId
    var skip: bool
    /** No further entry may be pushed. */
    var full: bool
    var clock: nat
    /** The callbacks made so far. */
    ghost var log: seq<Event>

    ghost function Snapshot(): State
      reads this
    {
      State(q, active, skip)
    }

    constructor ()
      ensures Settled(Snapshot()) && q == map[] && !full && log == []
    {
      q := map[];
      active, skip, full, clock, log := 0, false, false, 0, [];
    }

    /** The clock never goes back. */
    method Timestamp() returns (now: nat)
      modifies this`clock
      ensures now == clock && old(clock) <= clock
    {
      var elapsed: int := *;
      if elapsed > 0 {
        clock := clock + elapsed;
      }
      now := clock;
    }

    /** Some id that is not in use. */
    method UnusedId() returns (id: TimerId)
      ensures id != 0 && id !in q
    {
      id := Numbers.Unused(q.Keys + {0});
    }

    /** priority_queue_push: any unused id, or 0 if there is no room. */
    method Push(key: int, timer: Timer) returns (id: TimerId)
      modifies this`q
      ensures id != 0 ==> id !in old(q)
      ensures q == if id == 0 then old(q) else old(q)[id := Entry(key, timer)]
      ensures id == 0 <==> full
    {
      if full {
        return 0;
      }
      id := *;
      if id == 0 || id in q {
        id := UnusedId();
      }
      q := q[id := Entry(key, timer)];
    }

    /** The key of a timer that is set now; the clock is read only if there is a delay. */
    method KeyOf(timer: Timer) returns (key: int, ghost now: nat)
      modifies this`clock
      ensures old(clock) <= now <= clock && key == CtlKey(timer, now)
    {
      now := clock;
      key := -1;
      if timer.delay >= 0 {
        var seen := Timestamp();
        now := seen;
        key := seen + Micros(timer.flags, timer.delay);
      }
      if timer.flags.delete || timer.flags.canceled {
        key := 0;
      }
    }

    /** Push the timer or update its entry. */
    method Store(timer: Timer, key: int) returns (id: TimerId, ghost newId: TimerId)
      requires timer.id != 0 ==> timer.id in q
      modifies this`q, this`skip
      ensures timer.id == 0 ==>
                && (newId == 0 <==> full) && (newId != 0 ==> newId !in old(q))
                && id == newId && skip == old(skip)
      ensures timer.id == 0 ==> q == if newId == 0 then old(q) else old(q)[newId := Entry(key, timer)]
      ensures timer.id != 0 ==> q == old(q)[timer.id := Entry(key, timer)] && id == timer.id
      ensures timer.id != 0 ==> skip == (old(skip) || active == timer.id)
    {
      newId := 0;
      if timer.id == 0 {
        id := Push(key, timer);
        newId := id;
      } else {
        if active != 0 && active == timer.id {
          skip := true;
        }
        q := q[timer.id := Entry(key, timer)];
        id := timer.id;
      }
    }

    method CtlNoLock(arg: Timer) returns (id: TimerId, fetched: Timer, ghost op: Op)
      modifies this`q, this`skip, this`clock
      ensures op.Ctl? && op.arg == arg && old(clock) <= op.now <= clock
      ensures (Snapshot(), id) == Apply(old(Snapshot()), op)
      ensures fetched == if arg.id != 0 && arg.id in old(q) && arg.flags.get
                         then old(q)[arg.id].timer.(id := arg.id) else arg
      ensures full ==> q.Keys == old(q).Keys
      ensures arg.id == 0 && !full ==> op.newId != 0 && op.newId !in old(q)
    {
      ApplyCtl(Snapshot(), arg);
      hide Apply;
      var timer := arg;
      fetched := arg;
      op := Ctl(arg, clock, 0);
      if timer.id != 0 {
        if timer.id !in q {
          return 0, fetched, op;
        }
        if timer.flags.get {
          fetched := q[timer.id].timer.(id := timer.id);
          if timer.flags == NO_FLAGS.(get := true) {
            return timer.id, fetched, op;
          }
        }
      }
      var key;
      ghost var now, newId;
      key, now := KeyOf(timer);
      hide CtlKey;
      timer := timer.(flags := timer.flags.(tick := false, get := false));
      id, newId := Store(timer, key);
      op := Ctl(arg, now, newId);
    }

    method DisableUpdateIfActive(id: TimerId)
      modifies this`skip
      ensures Snapshot() == DisableUpdate(old(Snapshot()), id)
    {
      if active == 0 {
        return;
      }
      if active == id {
        skip := true;
      }
    }

    method StartNow(id: TimerId) returns (result: bool, ghost op: Op)
      modifies this`q, this`skip, this`clock
      ensures op.Start? && op.id == id && old(clock) <= clock
      ensures Snapshot() == Apply(old(Snapshot()), op).0
      ensures result <==> Apply(old(Snapshot()), op).1 != 0
      ensures full ==> q.Keys == old(q).Keys
    {
      result := false;
      op := Start(id, clock, 0);
      DisableUpdateIfActive(id);
      if id in q {
        var timer := q[id].timer;
        if timer.delay < 0 {
          timer := timer.(delay := 0);
        }
        var started, fetched;
        ghost var ctl;
        started, fetched, ctl := CtlNoLock(timer);
        op := Start(id, ctl.now, ctl.newId);
        result := started != 0;
      }
    }

    method StopNow(id: TimerId) returns (result: bool)
      modifies this`q, this`skip
      ensures Snapshot() == Apply(old(Snapshot()), Stop(id)).0
      ensures result <==> id in old(q)
      ensures q.Keys == old(q).Keys
    {
      result := false;
      DisableUpdateIfActive(id);
      if id in q {
        q := q[id := Entry(-1, q[id].timer)];
        result := true;
      }
    }

    method AddStatus(id: TimerId, canceled: bool, delete: bool) returns (result: bool)
      modifies this`q, this`skip
      ensures Snapshot() == Apply(old(Snapshot()), AddFlags(id, canceled, delete)).0
      ensures result <==> id in old(q)
      ensures q.Keys == old(q).Keys
    {
      result := false;
      DisableUpdateIfActive(id);
      if id in q {
        var timer := q[id].timer;
        if canceled {
          timer := timer.(flags := timer.flags.(canceled := true));
        }
        if delete {
          timer := timer.(flags := timer.flags.(delete := true));
        }
        q := q[id := Entry(0, timer)];
        result := true;
      }
    }

    method Perform(request: Request) returns (ghost op: Op)
      modifies this`q, this`skip, this`clock
      ensures Snapshot() == Apply(old(Snapshot()), op).0 && old(clock) <= clock
      ensures full ==> q.Keys == old(q).Keys
    {
      match request
      case SetTimer(arg) =>
        var id, fetched;
        id, fetched, op := CtlNoLock(arg);
      case StartTimer(id) =>
        var result;
        result, op := StartNow(id);
      case StopTimer(id) =>
        var result := StopNow(id);
        op := Stop(id);
      case FlagTimer(id, canceled, delete) =>
        var result := AddStatus(id, canceled, delete);
        op := AddFlags(id, canceled, delete);
    }

    /** Any callback: it makes whatever calls it likes, takes any time, and leaves anything in
        the copy it was handed. */
    method Invoke(timer: Timer) returns (after: Timer, ghost r: Reaction)
      modifies this`q, this`skip, this`clock
      ensures Snapshot() == ApplyAll(old(Snapshot()), r.ops)
      ensures after == r.copy.(id := timer.id)
      ensures old(clock) <= clock
      ensures full ==> q.Keys == old(q).Keys
    {
      ghost var ops: seq<Op> := [];
      var requests: seq<Request> := *;
      for i := 0 to |requests|
        invariant Snapshot() == ApplyAll(old(Snapshot()), ops)
        invariant old(clock) <= clock
        invariant full ==> q.Keys == old(q).Keys
      {
        ghost var op := Perform(requests[i]);
        ApplyAllSnoc(old(Snapshot()), ops, op);
        ops := ops + [op];
      }
      after := *;
      after := after.(id := timer.id);
      r := Reaction(ops, after);
    }

    /** Invoke `cb` unless it is null; `event` says on which timer, and with which flags. */
    method InvokeIfSet(cb: Callback, timer: Timer, ghost event: Event) returns (after: Timer, ghost r: Reaction)
      requires Describes(event, cb, timer)
      modifies this`q, this`skip, this`clock, this`log
      ensures (Snapshot(), after) == React(old(Snapshot()), timer, cb, r)
      ensures log == old(log) + [event]
      ensures old(clock) <= clock
      ensures full ==> q.Keys == old(q).Keys
    {
      after, r := timer, Reaction([], timer);
      log := log + [event];
      if cb != NULL {
        after, r := Invoke(timer);
      }
    }

    /** TIMER_TRY_DELETE, taken. */
    method DeleteTimer(timer: Timer) returns (ghost gone: Reaction)
      requires timer.flags.delete
      modifies this`q, this`skip, this`clock, this`log
      ensures forall rs: Reactions :: rs.gone == gone ==>
                Yields(Delete(old(Snapshot()), timer, rs), Snapshot(), old(log), log)
      ensures old(clock) <= clock && old(log) <= log
    {
      q := q - {timer.id};
      var after;
      after, gone := InvokeIfSet(timer.onStatus, timer, Status(timer.id, timer.onStatus, timer.flags.canceled, true));
      skip := false;
    }

    /** The update phase, once `skip_update_phase` is known not to be set. */
    method UpdatePhase(copy: Timer, wasCanceled: bool, trigger: int, now: nat) returns (ghost gone: Reaction)
      modifies this`q, this`skip, this`clock, this`log
      ensures forall rs: Reactions :: rs.gone == gone ==>
                Yields(Finish(old(Snapshot()), copy, wasCanceled, trigger, now, rs), Snapshot(), old(log), log)
      ensures old(clock) <= clock && old(log) <= log
    {
      var timer := copy;
      gone := Reaction([], copy);
      if (timer.flags.canceled || timer.repeat == 0) && timer.flags.deleteAuto {
        timer := timer.(flags := timer.flags.(delete := true));
      }
      if timer.flags.delete && wasCanceled {
        timer := timer.(flags := timer.flags.(canceled := false));
      }
      if timer.flags.delete {
        gone := DeleteTimer(timer);
        return;
      }
      var next := -1;
      if timer.delay != -1 && timer.interval >= 0 && timer.repeat != 0 && !timer.flags.canceled {
        next := (if timer.flags.fixed then trigger else now) + Micros(timer.flags, timer.interval);
      }
      timer := timer.(flags := Allowed(timer.flags));
      if timer.id in q {
        q := q[timer.id := Entry(next, timer)];
      }
      assert log + [] == log;
    }

    /** A turn entered with a status flag set, directly or by `goto restart`. */
    method StatusChanged(copy: Timer, trigger: int, now: nat) returns (ghost status: Reaction, ghost gone: Reaction)
      modifies this`q, this`skip, this`clock, this`log
      ensures forall rs: Reactions :: rs.status == status && rs.gone == gone ==>
                Yields(StatusTurn(old(Snapshot()), copy, trigger, now, rs), Snapshot(), old(log), log)
      ensures old(clock) <= clock && old(log) <= log
    {
      status, gone := Reaction([], copy), Reaction([], copy);
      if copy.flags.delete {
        gone := DeleteTimer(copy);
        return;
      }
      var timer;
      ghost var event := Status(copy.id, copy.onStatus, copy.flags.canceled, false);
      timer, status := InvokeIfSet(copy.onStatus, copy, event);
      timer := timer.(flags := timer.flags.(tick := false));
      if skip {
        skip := false;
        return;
      }
      ghost var between := log;
      gone := UpdatePhase(timer, copy.flags.canceled, trigger, now);
      Regroup(old(log), [event], log[|between|..]);
    }

    /** A turn entered with no status flag set. */
    method TickDue(copy: Timer, trigger: int, now: nat) returns (ghost rs: Reactions)
      modifies this`q, this`skip, this`clock, this`log
      ensures Yields(TickTurn(old(Snapshot()), copy, trigger, now, rs), Snapshot(), old(log), log)
      ensures old(clock) <= clock
    {
      var timer := copy;
      if timer.repeat > 0 {
        timer := timer.(repeat := timer.repeat - 1);
      }
      timer := timer.(flags := timer.flags.(tick := true));
      ghost var event := Tick(copy.id, copy.onTick, trigger, now);
      ghost var tick, status, gone;
      timer, tick := InvokeIfSet(copy.onTick, timer, event);
      rs := Reactions(tick, Reaction([], copy), Reaction([], copy));
      timer := timer.(flags := timer.flags.(tick := false));
      if skip {
        skip := false;
        return;
      }
      ghost var between := log;
      if timer.flags.canceled {
        status, gone := StatusChanged(timer, trigger, now);
        rs := Reactions(tick, status, gone);
      } else {
        gone := UpdatePhase(timer, false, trigger, now);
        rs := rs.(gone := gone);
      }
      Regroup(old(log), [event], log[|between|..]);
    }

    /** priority_queue_peek: which of several equal heads comes first is left open. */
    method Peek() returns (id: TimerId)
      requires 0 !in q
      ensures id == 0 <==> q == map[]
      ensures id != 0 ==> IsHead(q, id)
    {
      id := 0;
      var rest := q.Keys;
      while rest != {}
        invariant rest <= q.Keys
        invariant id == 0 ==> rest == q.Keys
        invariant id != 0 ==> id in q && forall j :: j in q && j !in rest ==> Compare(q[id].key, q[j].key) <= 0
        decreases rest
      {
        var j :| j in rest;
        if id == 0 || Compare(q[j].key, q[id].key) < 0 {
          if id != 0 {
            forall i | i in q && i !in rest
              ensures Compare(q[j].key, q[i].key) <= 0
            {
              CompareIsTotalPreorder(q[j].key, q[id].key, q[i].key);
            }
          }
          id := j;
        } else {
          CompareIsTotalPreorder(q[j].key, q[id].key, 0);
        }
        rest := rest - {j};
      }
    }

    /** The body of the loop, from the label `restart` on. */
    method Turn(id: TimerId, now: nat) returns (ghost step: Step)
      requires Settled(Snapshot().(active := 0)) && active == id
      requires Enabled(Snapshot(), Step.Turn(id, now, AnyReactions()))
      modifies this`q, this`skip, this`clock, this`log
      ensures step.Turn? && step.id == id && step.now == now
      ensures Enabled(old(Snapshot()).(active := 0), step)
      ensures Yields(Do(old(Snapshot()).(active := 0), step), Snapshot().(active := 0), old(log), log)
      ensures Settled(Snapshot().(active := 0)) && old(clock) <= clock
    {
      ghost var before := Snapshot().(active := 0);
      var trigger := q[id].key;
      var timer := q[id].timer.(id := id);
      ghost var rs;
      if HasStatus(timer) {
        ghost var status, gone;
        status, gone := StatusChanged(timer, trigger, now);
        rs := Reactions(status, status, gone);
      } else {
        rs := TickDue(timer, trigger, now);
      }
      step := Step.Turn(id, now, rs);
      DoKeeps(before, step);
    }

    /** winecord_timers_run. The pass replays as turns of due heads, one after the other, and makes the
        callbacks of that replay; it ends because one of its two budgets is used up or because nothing
        was due at `seen`, the clock value it had last read. */
    method Run() returns (ghost steps: seq<Step>, ghost seen: nat)
      requires Settled(Snapshot())
      modifies this`q, this`active, this`skip, this`clock, this`log
      ensures Settled(Snapshot())
      ensures Pass(old(Snapshot()), steps) && Legal(old(Snapshot()), steps)
      ensures Yields(Replay(old(Snapshot()), steps), Snapshot(), old(log), log)
      ensures |steps| <= 100000 && old(clock) <= clock
      ensures forall i :: 0 <= i < |steps| ==> steps[i].Turn? && old(clock) <= steps[i].now <= clock
      ensures
        || |steps| == 100000
        || clock - old(clock) > 10000
        || (old(clock) <= seen <= clock && forall id :: id in q && 0 <= q[id].key ==> seen < q[id].key)
    {
      ghost var s0 := Snapshot();
      EmptyPass(s0);
      hide Pass, Legal, Replay, Do;
      var now := Timestamp();
      var startTime := now;
      steps := [];
      skip := false;
      var maxIterations := MAX_ITERATIONS;
      var id := Peek();
      while id != 0 && maxIterations > 0
        invariant Pass(s0, steps) && Legal(s0, steps)
        invariant Yields(Replay(s0, steps), Snapshot().(active := 0), old(log), log)
        invariant Settled(Snapshot().(active := 0))
        invariant |steps| == MAX_ITERATIONS - maxIterations && maxIterations >= 0
        invariant old(clock) <= startTime <= now <= clock
        invariant forall i :: 0 <= i < |steps| ==> steps[i].Turn? && old(clock) <= steps[i].now <= clock
        invariant id == 0 <==> q == map[]
        invariant id != 0 ==> IsHead(q, id)
        decreases maxIterations
      {
        var trigger := q[id].key;
        active := id;
        if maxIterations % 32 == 0 {
          now := Timestamp();
          if now - startTime > TIME_BUDGET {
            break;
          }
        }
        if trigger > now || trigger == -1 {
          NothingDue(Snapshot().(active := 0), id, now);
          break;
        }
        ghost var between := log;
        ghost var step := Turn(id, now);
        ExtendPass(s0, steps, step);
        Regroup(old(log), Replay(s0, steps).events, log[|between|..]);
        steps := steps + [step];
        maxIterations := maxIterations - 1;
        id := Peek();
      }
      active := 0;
      seen := now;
    }

    /** One turn of timers_cancel_all's loop. */
    method CancelHead(id: TimerId) returns (ghost event: Event)
      requires id in q && full
      modifies this`q, this`skip, this`clock, this`log
      ensures q.Keys == old(q).Keys - {id} && log == old(log) + [event]
      ensures event.Status? && event.id == id && event.canceled && event.deleted
    {
      var timer := q[id].timer.(id := id);
      q := q - {id};
      timer := timer.(flags := timer.flags.(canceled := true, delete := true));
      event := Status(id, timer.onStatus, true, true);
      var after;
      ghost var r;
      after, r := InvokeIfSet(timer.onStatus, timer, event);
    }

    /** timers_cancel_all, after the queue's capacity was set to 0: every timer is removed, and
        each has its status callback run once, as canceled and deleted. */
    method CancelAll() returns (ghost canceled: seq<Event>)
      requires Settled(Snapshot()) && full
      modifies this`q, this`skip, this`clock, this`log
      ensures q == map[] && log == old(log) + canceled && CanceledOnce(canceled, old(q).Keys)
    {
      canceled := [];
      var id := Peek();
      while id != 0
        invariant 0 !in q && q.Keys <= old(q).Keys && full
        invariant id == 0 <==> q == map[]
        invariant id != 0 ==> id in q
        invariant log == old(log) + canceled && CanceledOnce(canceled, old(q).Keys - q.Keys)
        decreases q.Keys
      {
        ghost var gone := old(q).Keys - q.Keys;
        ghost var event := CancelHead(id);
        CanceledNext(canceled, gone, event);
        hide CanceledOnce;
        assert old(q).Keys - q.Keys == gone + {id};
        Regroup(old(log), canceled, [event]);
        canceled := canceled + [event];
        id := Peek();
      }
      assert old(q).Keys - q.Keys == old(q).Keys;
    }
  }

  /** winecord_timers_get_next_trigger. `free[i]` says whether the i-th lock could be taken. With
      every lock free the result is the earliest wait over all groups, cut to `maxTime` and to 0;
      with one taken it is 0. */
  method GetNextTrigger(groups: seq<Timers>, free: seq<bool>, now: int, maxTime: int) returns (wait: int)
    requires |free| == |groups| && maxTime >= 0
    requires forall i :: 0 <= i < |groups| ==> 0 !in groups[i].q
    ensures 0 <= wait <= maxTime
    ensures (exists i :: 0 <= i < |groups| && !free[i]) ==> wait == 0
    ensures forall i, id :: 0 <= i < |groups| && id in groups[i].q && groups[i].q[id].key >= 0 ==>
              wait <= Max(0, groups[i].q[id].key - now)
    ensures
      || wait == maxTime
      || (exists i :: 0 <= i < |groups| && !free[i])
      || (exists i, id :: 0 <= i < |groups| && id in groups[i].q && groups[i].q[id].key >= 0
            && wait == Max(0, groups[i].q[id].key - now))
  {
    if maxTime == 0 {
      return 0;
    }
    wait := maxTime;
    for n := 0 to |groups|
      invariant 0 <= wait <= maxTime
      invariant forall i :: 0 <= i < n ==> free[i]
      invariant forall i, id :: 0 <= i < n && id in groups[i].q && groups[i].q[id].key >= 0 ==>
                  wait <= Max(0, groups[i].q[id].key - now)
      invariant
        || wait == maxTime
        || (exists i, id :: 0 <= i < |groups| && id in groups[i].q && groups[i].q[id].key >= 0
              && wait == Max(0, groups[i].q[id].key - now))
    {
      if !free[n] {
        return 0;
      }
      var id := groups[n].Peek();
      if id != 0 {
        var trigger := groups[n].q[id].key;
        assert forall j :: j in groups[n].q ==> Compare(trigger, groups[n].q[j].key) <= 0;
        if trigger >= 0 {
          if trigger <= now {
            wait := 0;
            assert wait == Max(0, groups[n].q[id].key - now);
          } else if wait > trigger - now {
            wait := trigger - now;
            assert wait == Max(0, groups[n].q[id].key - now);
          }
        }
      }
    }
  }
}
