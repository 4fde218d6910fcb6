/**
 The timer scheduler as a state machine over its priority queue: one step is either a
 call of the timer API or one turn of the run loop. Callbacks are arbitrary: a turn is
 given, for every callback it makes, the API calls that callback performs and the value
 it leaves in the loop's local copy of the timer.
 */
module TimerQueue {

  type TimerId = nat
  /** A function pointer; `NULL` stands for the null pointer. */
  type Callback = nat

  const NULL: Callback := 0

  datatype Flags = Flags(
    micro: bool, delete: bool, deleteAuto: bool, fixed: bool,
    tick: bool, canceled: bool, get: bool)

  const NO_FLAGS := Flags(false, false, false, false, false, false, false)

  datatype Timer = Timer(
    id: TimerId, onTick: Callback, onStatus: Callback, data: nat,
    delay: int, interval: int, repeat: int, flags: Flags)

  datatype Entry = Entry(key: int, timer: Timer)

  /** `active` is the id in the loop's local copy, 0 while no pass is running. */
  datatype State = State(q: map<TimerId, Entry>, active: TimerId, skip: bool)

  /** One call of the timer API; `now` is the clock it reads, `newId` the id a push returns. */
  datatype Op =
    | Ctl(arg: Timer, now: nat, newId: TimerId)
    | Start(id: TimerId, now: nat, newId: TimerId)
    | Stop(id: TimerId)
    | AddFlags(id: TimerId, canceled: bool, delete: bool)

  /** What one callback did. */
  datatype Reaction = Reaction(ops: seq<Op>, copy: Timer)

  /** The callbacks one turn of the loop can make: tick, cancel status, delete status. */
  datatype Reactions = Reactions(tick: Reaction, status: Reaction, gone: Reaction)

  datatype Event =
    | Tick(id: TimerId, cb: Callback, trigger: int, now: nat)
    | Status(id: TimerId, cb: Callback, canceled: bool, deleted: bool)

  datatype Outcome = Outcome(s: State, events: seq<Event>)

  datatype Step =
    | Turn(id: TimerId, now: nat, rs: Reactions)
    | Call(op: Op)

  // ---------------------------------------------------------------- comparator

  /** cmp_timers: the order of the queue's keys. */
  function Compare(l: int, r: int): int {
    if l == r || (l < 0 && r < 0) then 0
    else if l < 0 then 1
    else if r < 0 then -1
    else if l > r then 1 else -1
  }

  /** The order the comparator is meant to be: disarmed keys last and all alike. */
  ghost predicate Before(l: int, r: int) {
    r < 0 || (0 <= l <= r)
  }

  /** The comparator is a total preorder in which every negative key is equal and last. */
  lemma CompareIsTotalPreorder(a: int, b: int, c: int)
    ensures Compare(a, b) <= 0 <==> Before(a, b)
    ensures Compare(a, b) == -Compare(b, a)
    ensures Compare(a, b) <= 0 && Compare(b, c) <= 0 ==> Compare(a, c) <= 0
    ensures a < 0 && 0 <= b ==> Compare(a, b) > 0
    ensures a < 0 && b < 0 ==> Compare(a, b) == 0
  {
  }

  /** What priority_queue_peek may return: any entry whose key no other key precedes. */
  ghost predicate IsHead(q: map<TimerId, Entry>, id: TimerId) {
    id in q && forall j :: j in q ==> Compare(q[id].key, q[j].key) <= 0
  }

  /** A head that is not due shows that no entry is due. */
  lemma HeadDecidesDue(q: map<TimerId, Entry>, id: TimerId, now: int)
    requires IsHead(q, id)
    ensures (exists j :: j in q && 0 <= q[j].key <= now) <==> 0 <= q[id].key <= now
  {
    assert forall j :: j in q ==> Compare(q[id].key, q[j].key) <= 0;
  }

  // ------------------------------------------------------------------ the calls

  /** A duration in the timer's own unit, in microseconds. */
  function Micros(flags: Flags, time: int): int {
    if flags.micro then time else time * 1000
  }

  /** Keep only the flags a user may set. */
  function Allowed(flags: Flags): Flags {
    flags.(tick := false, canceled := false, get := false)
  }

  /** The key _winecord_timer_ctl_no_lock computes. */
  function CtlKey(arg: Timer, now: nat): int {
    if arg.flags.delete || arg.flags.canceled then 0
    else if arg.delay >= 0 then now + Micros(arg.flags, arg.delay)
    else -1
  }

  /** `_winecord_timer_ctl_no_lock`; a push fails, returning 0, when the queue is full. */
  function CtlCall(s: State, arg: Timer, now: nat, newId: TimerId): (r: (State, TimerId)) {
    var entry := Entry(CtlKey(arg, now), arg.(flags := Allowed(arg.flags).(canceled := arg.flags.canceled)));
    if arg.id == 0 then
      if newId == 0 || newId in s.q then (s, 0)
      else (s.(q := s.q[newId := entry]), newId)
    else if arg.id !in s.q then (s, 0)
    else if arg.flags == NO_FLAGS.(get := true) then (s, arg.id)
    else (s.(q := s.q[arg.id := entry], skip := s.skip || s.active == arg.id), arg.id)
  }

  /** `winecord_timer_disable_update_if_active` */
  function DisableUpdate(s: State, id: TimerId): State {
    s.(skip := s.skip || (s.active != 0 && s.active == id))
  }

  /** The state after one API call, and the value it returns. */
  function Apply(s: State, op: Op): (r: (State, TimerId)) {
    match op
    case Ctl(arg, now, newId) => CtlCall(s, arg, now, newId)
    case Start(id, now, newId) =>
      var s1 := DisableUpdate(s, id);
      if id !in s.q then (s1, 0)
      else
        var t := s.q[id].timer;
        CtlCall(s1, if t.delay < 0 then t.(delay := 0) else t, now, newId)
    case Stop(id) =>
      var s1 := DisableUpdate(s, id);
      if id !in s.q then (s1, 0)
      else (s1.(q := s.q[id := s.q[id].(key := -1)]), id)
    case AddFlags(id, canceled, delete) =>
      var s1 := DisableUpdate(s, id);
      if id !in s.q then (s1, 0)
      else
        var t := s.q[id].timer;
        var f := t.flags.(canceled := t.flags.canceled || canceled, delete := t.flags.delete || delete);
        (s1.(q := s.q[id := Entry(0, t.(flags := f))]), id)
  }

  function ApplyAll(s: State, ops: seq<Op>): State
    decreases |ops|
  {
    if ops == [] then s else ApplyAll(Apply(s, ops[0]).0, ops[1..])
  }

  // ------------------------------------------------------- one turn of the loop

  /** Call `cb`, unless it is null, on the local copy `t`; the callback keeps the id. */
  function React(s: State, t: Timer, cb: Callback, r: Reaction): (State, Timer) {
    if cb == NULL then (s, t) else (ApplyAll(s, r.ops), r.copy.(id := t.id))
  }

  /** TIMER_TRY_DELETE, taken. */
  function Delete(s: State, t: Timer, rs: Reactions): Outcome {
    var s1 := React(s.(q := s.q - {t.id}), t, t.onStatus, rs.gone).0;
    Outcome(s1.(skip := false), [Status(t.id, t.onStatus, t.flags.canceled, true)])
  }

  /** The key an undeleted timer is given when its turn is over. */
  function NextKey(t: Timer, trigger: int, now: nat): int {
    if t.delay != -1 && t.interval >= 0 && t.repeat != 0 && !t.flags.canceled then
      (if t.flags.fixed then trigger else now) + Micros(t.flags, t.interval)
    else -1
  }

  /** The update phase: expire, delete, or write the local copy back. */
  function Finish(s: State, t: Timer, wasCanceled: bool, trigger: int, now: nat, rs: Reactions): Outcome {
    var expired := (t.flags.canceled || t.repeat == 0) && t.flags.deleteAuto;
    var delete := t.flags.delete || expired;
    var t1 := t.(flags := t.flags.(delete := delete, canceled := t.flags.canceled && !(delete && wasCanceled)));
    if delete then Delete(s, t1, rs)
    else
      var entry := Entry(NextKey(t1, trigger, now), t1.(flags := Allowed(t1.flags)));
      Outcome(if t.id in s.q then s.(q := s.q[t.id := entry]) else s, [])
  }

  /** The turn of a timer whose status flags are set (also reached by `goto restart`). */
  function StatusTurn(s: State, t: Timer, trigger: int, now: nat, rs: Reactions): Outcome {
    if t.flags.delete then Delete(s, t, rs)
    else
      var (s1, t1) := React(s, t, t.onStatus, rs.status);
      var called := [Status(t.id, t.onStatus, t.flags.canceled, false)];
      if s1.skip then Outcome(s1.(skip := false), called)
      else
        var o := Finish(s1, t1.(flags := t1.flags.(tick := false)), t.flags.canceled, trigger, now, rs);
        Outcome(o.s, called + o.events)
  }

  /** The local copy as an on_tick callback finds it. */
  function Ticking(t: Timer): Timer {
    t.(repeat := if t.repeat > 0 then t.repeat - 1 else t.repeat, flags := t.flags.(tick := true))
  }

  /** The turn of a timer with no status flag. */
  function TickTurn(s: State, t: Timer, trigger: int, now: nat, rs: Reactions): Outcome {
    var (s1, t1) := React(s, Ticking(t), t.onTick, rs.tick);
    var called := [Tick(t.id, t.onTick, trigger, now)];
    var t2 := t1.(flags := t1.flags.(tick := false));
    if s1.skip then Outcome(s1.(skip := false), called)
    else
      var o := if t2.flags.canceled then StatusTurn(s1, t2, trigger, now, rs)
               else Finish(s1, t2, false, trigger, now, rs);
      Outcome(o.s, called + o.events)
  }

  function HasStatus(t: Timer): bool {
    t.flags.canceled || t.flags.delete
  }

  /** One iteration of the loop of winecord_timers_run on the head `id`. */
  function TurnOf(s: State, id: TimerId, now: nat, rs: Reactions): Outcome
    requires id in s.q
  {
    var s1 := s.(active := id);
    var t := s.q[id].timer.(id := id);
    if HasStatus(t) then StatusTurn(s1, t, s.q[id].key, now, rs)
    else TickTurn(s1, t, s.q[id].key, now, rs)
  }

  // ----------------------------------------------------------------- histories

  predicate Enabled(s: State, step: Step) {
    step.Turn? ==> step.id in s.q && 0 <= s.q[step.id].key <= step.now
  }

  /** Between turns nobody can observe which timer was active last. */
  function Do(s: State, step: Step): Outcome
    requires Enabled(s, step)
  {
    match step
    case Turn(id, now, rs) =>
      var o := TurnOf(s, id, now, rs);
      Outcome(o.s.(active := 0), o.events)
    case Call(op) => Outcome(Apply(s, op).0, [])
  }

  predicate Legal(s: State, steps: seq<Step>)
    decreases |steps|
  {
    steps == [] || (Enabled(s, steps[0]) && Legal(Do(s, steps[0]).s, steps[1..]))
  }

  /** The state and the callbacks of a whole history. */
  function Replay(s: State, steps: seq<Step>): Outcome
    requires Legal(s, steps)
    decreases |steps|
  {
    if steps == [] then Outcome(s, [])
    else
      var o := Do(s, steps[0]);
      var rest := Replay(o.s, steps[1..]);
      Outcome(rest.s, o.events + rest.events)
  }
}
