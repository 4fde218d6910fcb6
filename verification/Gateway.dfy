/** The gateway session as the program runs it, refining SessionModel, and the loop of winecord_run. */
module Gateway {
  import opened SessionModel
  import opened SessionCourse
  import TimerGroup

  /** The bits of a session's status. */
  const OFFLINE: bv8 := 0
  const RESUMABLE: bv8 := 1
  const SHUTDOWN: bv8 := 2

  lemma Bits(status: bv8)
    requires status & 3 == status
    ensures (status | RESUMABLE) & RESUMABLE != 0 && (status | SHUTDOWN) & SHUTDOWN != 0
    ensures (status & !RESUMABLE) & RESUMABLE == 0 && (status & RESUMABLE) & SHUTDOWN == 0
    ensures status & RESUMABLE != 0 ==> (status ^ RESUMABLE) & RESUMABLE == 0
    ensures (status ^ RESUMABLE) & SHUTDOWN == status & SHUTDOWN
    ensures (status | RESUMABLE) & SHUTDOWN == status & SHUTDOWN
    ensures (status & !RESUMABLE) & SHUTDOWN == status & SHUTDOWN
    ensures (status | SHUTDOWN) & RESUMABLE == status & RESUMABLE
    ensures (status & RESUMABLE) & RESUMABLE == status & RESUMABLE
    ensures status == SHUTDOWN <==> status & SHUTDOWN != 0 && status & RESUMABLE == 0
    ensures (status | RESUMABLE) & 3 == status | RESUMABLE && (status | SHUTDOWN) & 3 == status | SHUTDOWN
    ensures (status & !RESUMABLE) & 3 == status & !RESUMABLE && (status & RESUMABLE) & 3 == status & RESUMABLE
    ensures (status ^ RESUMABLE) & 3 == status ^ RESUMABLE
  {
  }

  /** The steps `steps` lead from `s0` to `s`, with the actions `log` after those of `log0`. */
  ghost predicate Leads(s0: Session, log0: seq<Action>, steps: seq<Step>, s: Session, log: seq<Action>) {
    Legal(s0, steps) && s == Replay(s0, steps).s && log == log0 + Replay(s0, steps).actions
  }

  lemma {:induction false} ExtendRun(s: Session, steps: seq<Step>, step: Step)
    requires Legal(s, steps) && Enabled(Replay(s, steps).s, step)
    ensures Legal(s, steps + [step])
    ensures var o := Do(Replay(s, steps).s, step);
            Replay(s, steps + [step]) == Outcome(o.s, Replay(s, steps).actions + o.actions)
    decreases |steps|
  {
    hide Enabled, Do;
    if steps == [] {
      assert [] + [step] == [step];
      assert [step][1..] == [];
    } else {
      var o := Do(s, steps[0]);
      ExtendRun(o.s, steps[1..], step);
      assert (steps + [step])[1..] == steps[1..] + [step];
      var rest := Replay(o.s, steps[1..]);
      var last := Do(rest.s, step);
      assert o.actions + (rest.actions + last.actions) == o.actions + rest.actions + last.actions;
    }
  }

  lemma Associate(a: seq<Step>, b: seq<Step>, c: seq<Step>)
    ensures a + (b + c) == a + b + c
  {
  }

  lemma ExtendLeads(s0: Session, log0: seq<Action>, steps: seq<Step>, s: Session, log: seq<Action>,
                    step: Step, s1: Session, log1: seq<Action>)
    requires Leads(s0, log0, steps, s, log) && Enabled(s, step)
    requires s1 == Do(s, step).s && log1 == log + Do(s, step).actions
    ensures Leads(s0, log0, steps + [step], s1, log1)
  {
    hide Enabled, Do;
    ExtendRun(s0, steps, step);
    var a := Replay(s0, steps).actions;
    assert log0 + a + Do(s, step).actions == log0 + (a + Do(s, step).actions);
  }

  class Client {
    var status: bv8
    var ready: bool
    var enable: bool
    var attempt: nat
    var limit: int
    var acknowledged: bool
    ghost var phase: Phase
    ghost var log: seq<Action>

    ghost predicate Valid()
      reads this
    {
      status & 3 == status
    }

    ghost function Snapshot(): Session
      reads this
    {
      Session(phase, status & RESUMABLE != 0, status & SHUTDOWN != 0, enable, attempt, limit, ready, acknowledged)
    }

    /** gateway_init */
    constructor ()
      ensures Valid() && Snapshot() == INITIAL && log == []
    {
      status, ready, enable, attempt, limit, acknowledged := OFFLINE, false, true, 0, -1, true;
      phase, log := Returned, [];
    }

    // ------------------------------------------------------------------- sending

    method GatewayReconnect(resume: bool)
      requires Valid()
      modifies this`enable, this`status, this`log
      ensures Valid()
      ensures var o := SessionModel.GatewayReconnect(old(Snapshot()), resume);
              Snapshot() == o.s && log == old(log) + o.actions
    {
      enable := true;
      status := SHUTDOWN;
      var opcode := Normal;
      if resume {
        SetResumable(true);
        opcode := Reconnect;
      }
      log := log + [Close(opcode)];
    }

    method SendResume()
      requires Valid() && status & RESUMABLE != 0
      modifies this`status, this`log
      ensures Valid() && Snapshot() == old(Snapshot()).(resumable := false) && log == old(log) + [Resume]
    {
      Bits(status);
      status := status ^ RESUMABLE;
      log := log + [Resume];
    }

    method SendHeartbeat(sent: bool)
      requires Valid()
      modifies this`enable, this`status, this`acknowledged, this`log
      ensures Valid()
      ensures var o := SessionModel.SendHeartbeat(old(Snapshot()), sent);
              Snapshot() == o.s && log == old(log) + o.actions
    {
      if !acknowledged {
        acknowledged := true;
        GatewayReconnect(false);
        return;
      }
      if sent {
        log := log + [Heartbeat];
        acknowledged := false;
      }
    }

    // ------------------------------------------------------------------- receiving

    method OnHello()
      requires Valid()
      modifies this`status, this`log
      ensures Valid()
      ensures var o := SessionModel.OnEvent(old(Snapshot()), Hello);
              Snapshot() == o.s && log == old(log) + o.actions
    {
      if status & RESUMABLE != 0 {
        SendResume();
      } else {
        log := log + [Identify];
      }
    }

    /** READY and RESUMED. */
    method OnDispatch(event: Event)
      requires Valid() && (event.Ready? || event.Resumed?)
      modifies this
      ensures Valid()
      ensures var o := SessionModel.OnEvent(old(Snapshot()), event);
              Snapshot() == o.s && log == old(log) + o.actions
    {
      ready := true;
      attempt := 0;
      if event.Resumed? {
        log := log + [TellResumed];
      }
      SendHeartbeat(event.sent);
    }

    method OnInvalidSession(isFalse: bool)
      requires Valid()
      modifies this`enable, this`status, this`log
      ensures Valid()
      ensures var o := SessionModel.OnEvent(old(Snapshot()), InvalidSession(isFalse));
              Snapshot() == o.s && log == old(log) + o.actions
    {
      enable := true;
      status := SHUTDOWN;
      var opcode := Normal;
      if !isFalse {
        SetResumable(true);
        opcode := Reconnect;
      }
      log := log + [Close(opcode)];
    }

    method OnReconnect()
      requires Valid()
      modifies this`enable, this`status, this`log
      ensures Valid()
      ensures var o := SessionModel.OnEvent(old(Snapshot()), ReconnectRequest);
              Snapshot() == o.s && log == old(log) + o.actions
    {
      status := RESUMABLE | SHUTDOWN;
      enable := true;
      log := log + [Close(Reconnect)];
    }

    /** `status |= RESUMABLE` or `status &= ~RESUMABLE`. */
    method SetResumable(value: bool)
      requires Valid()
      modifies this`status
      ensures Valid() && Snapshot() == old(Snapshot()).(resumable := value)
    {
      Bits(status);
      status := if value then status | RESUMABLE else status & !RESUMABLE;
    }

    /** `status |= SHUTDOWN` */
    method SetShutdown()
      requires Valid()
      modifies this`status
      ensures Valid() && Snapshot() == old(Snapshot()).(shutdown := true)
    {
      Bits(status);
      status := status | SHUTDOWN;
    }

    /** `gw->session->retry.enable = value` */
    method SetEnable(value: bool)
      requires Valid()
      modifies this`enable
      ensures Valid() && Snapshot() == old(Snapshot()).(enable := value)
    {
      enable := value;
    }

    /** The switch of _ws_on_close. */
    method Decide(opcode: CloseCode)
      requires Valid()
      modifies this`enable, this`status
      ensures Valid()
      ensures Snapshot() == old(Snapshot()).(resumable := IsResumable(opcode), enable := !IsFatal(opcode))
    {
      hide Valid, Snapshot;
      match opcode
      case AuthenticationFailed | ShardingRequired | InvalidApiVersion
         | InvalidIntents | InvalidShard | DisallowedIntents =>
        SetResumable(false);
        SetEnable(false);
      case UnknownError | UnknownOpcode | DecodeError | NotAuthenticated
         | AlreadyAuthenticated | RateLimited | Normal =>
        SetResumable(true);
        SetEnable(true);
      case Reconnect | InvalidSequence | SessionTimedOut | OtherCode =>
        SetResumable(false);
        SetEnable(true);
    }

    /** _ws_on_close */
    method WsOnClose(opcode: CloseCode)
      requires Valid()
      modifies this`enable, this`status, this`log
      ensures Valid()
      ensures var o := OnClose(old(Snapshot()), opcode);
              Snapshot() == o.s && log == old(log) + o.actions
    {
      if status & SHUTDOWN == 0 {
        SetShutdown();
        Decide(opcode);
      }
      log := log + [TellDisconnected(status & RESUMABLE != 0)];
    }

    /** _winecord_on_heartbeat_timeout; the result is the timer's new interval (ms). */
    method OnHeartbeatTimeout(connected: bool, sent: bool, nextHeartbeat: int, now: int) returns (interval: int)
      requires Valid()
      modifies this`enable, this`status, this`acknowledged, this`log
      ensures Valid()
      ensures var o := SessionModel.OnEvent(old(Snapshot()), HeartbeatTimeout(connected, sent));
              Snapshot() == o.s && log == old(log) + o.actions
      ensures interval >= 1 && now + interval >= nextHeartbeat && (interval > 1 ==> now + interval == nextHeartbeat)
    {
      if connected && status & SHUTDOWN == 0 && ready {
        SendHeartbeat(sent);
      }
      interval := nextHeartbeat - now;
      if interval < 1 {
        interval := 1;
      }
    }

    /** _ws_on_text, _ws_on_close and the heartbeat timer. */
    method Receive(event: Event)
      requires Valid()
      modifies this
      ensures Valid()
      ensures var o := SessionModel.OnEvent(old(Snapshot()), event);
              Snapshot() == o.s && log == old(log) + o.actions
    {
      match event
      case Hello => OnHello();
      case Ready(_) => OnDispatch(event);
      case Resumed(_) => OnDispatch(event);
      case InvalidSession(isFalse) => OnInvalidSession(isFalse);
      case ReconnectRequest => OnReconnect();
      case HeartbeatAck => acknowledged := true;
      case Closed(code) => WsOnClose(code);
      case HeartbeatTimeout(connected, sent) =>
        var nextHeartbeat, now := *, *;
        var interval := OnHeartbeatTimeout(connected, sent, nextHeartbeat, now);
    }

    // ------------------------------------------------------------------ user calls

    /** winecord_shutdown */
    method Shutdown()
      requires Valid()
      modifies this`enable, this`status, this`log
      ensures Valid()
      ensures var o := SessionModel.Shutdown(old(Snapshot()));
              Snapshot() == o.s && log == old(log) + o.actions
    {
      Bits(status);
      if status != SHUTDOWN {
        enable := false;
        status := SHUTDOWN;
        log := log + [Close(Normal)];
      }
    }

    // ---------------------------------------------------------------- start and end

    /** gateway_start */
    method Start(preparation: Preparation) returns (ok: bool)
      modifies this`phase
      ensures Snapshot() == StartCall(old(Snapshot()), preparation)
      ensures ok <==> phase == Inside
    {
      ok := attempt != limit && preparation.Fetched?;
      phase := if ok then Inside else Returned;
    }

    /** gateway_end */
    method End() returns (over: bool)
      requires Valid()
      modifies this
      ensures Valid() && log == old(log)
      ensures Snapshot() == EndCall(old(Snapshot()))
      ensures over <==> phase == Returned
    {
      Bits(status);
      status := status & RESUMABLE;
      ready := false;
      if !enable {
        status := OFFLINE;
        ready := false;
        enable := false;
        attempt := 0;
        phase := Returned;
        return true;
      }
      attempt := attempt + 1;
      phase := Between;
      over := false;
    }

    // ---------------------------------------------------------------------- the loop

    /** One input, in a session. */
    method Take(input: Input)
      requires Valid() && phase == Inside
      modifies this
      ensures Valid() && phase == Inside && Enabled(old(Snapshot()), input)
      ensures Snapshot() == Do(old(Snapshot()), input).s
      ensures log == old(log) + Do(old(Snapshot()), input).actions
    {
      InputKeepsPhase(Snapshot(), input);
      hide Valid, OnEvent;
      match input
      case Arrive(event) => Receive(event);
      case UserShutdown => Shutdown();
      case UserReconnect(resume) => GatewayReconnect(resume);
    }

    /** Everything that comes in during one turn of the inner loop, before the status is looked at. */
    method Poll(inputs: seq<Input>, ghost s0: Session, ghost log0: seq<Action>, ghost known: seq<Step>)
      requires Valid() && phase == Inside && Leads(s0, log0, known, Snapshot(), log)
      modifies this
      ensures Valid() && phase == Inside && Snapshot() == Took(old(Snapshot()), inputs)
      ensures Leads(s0, log0, known + inputs, Snapshot(), log)
    {
      ghost var steps := known;
      assert inputs[0..] == inputs;
      for i := 0 to |inputs|
        invariant Valid() && phase == Inside && Leads(s0, log0, steps, Snapshot(), log)
        invariant Took(Snapshot(), inputs[i..]) == Took(old(Snapshot()), inputs)
        invariant steps + inputs[i..] == known + inputs
      {
        hide Leads, Do, Enabled;
        ghost var s, l := Snapshot(), log;
        Take(inputs[i]);
        ExtendLeads(s0, log0, steps, s, l, inputs[i], Snapshot(), log);
        ghost var rest := inputs[i..];
        assert rest[0] == inputs[i] && rest[1..] == inputs[i + 1..];
        Associate(steps, [inputs[i]], inputs[i + 1..]);
        steps := steps + [inputs[i]];
      }
      assert inputs[|inputs|..] == [];
      assert steps + [] == steps;
    }

    /** The inner loop. `left` says that it was left by itself, and not because no turns are left. */
    method SessionLoop(turns: seq<LoopTurn>, ghost preparations: seq<Preparation>,
                       ghost s0: Session, ghost log0: seq<Action>, ghost known: seq<Step>)
      returns (left: bool, rest: seq<LoopTurn>, ghost steps: seq<Step>)
      requires Valid() && phase == Inside && Leads(s0, log0, known, Snapshot(), log)
      modifies this
      ensures Valid() && phase == Inside && Leads(s0, log0, steps, Snapshot(), log)
      ensures known + InSession(old(Snapshot()), preparations, turns)
           == steps + if left then Leaving(Snapshot(), preparations, rest) else []
      ensures if left then |rest| < |turns| else rest == []
    {
      left, rest, steps := false, turns, known;
      while !left && rest != []
        invariant Valid() && phase == Inside && Leads(s0, log0, steps, Snapshot(), log)
        invariant known + InSession(old(Snapshot()), preparations, turns)
               == steps + if left then Leaving(Snapshot(), preparations, rest)
                          else InSession(Snapshot(), preparations, rest)
        invariant |rest| <= |turns| && (left ==> |rest| < |turns|)
        decreases |rest|
      {
        hide Leads, Leaving;
        ghost var s := Snapshot();
        ghost var now := rest[0].inputs;
        Poll(rest[0].inputs, s0, log0, steps);
        left := status & SHUTDOWN != 0 || rest[0].failed;
        Associate(steps, now, if left then Leaving(Snapshot(), preparations, rest[1..])
                              else InSession(Snapshot(), preparations, rest[1..]));
        steps := steps + now;
        rest := rest[1..];
      }
    }

    /** winecord_run, as long as there are preparations to try and turns of the inner loop to take: it does
        just what its course says, for anything that comes in, and is finished when it returns. */
    method Run(preparations: seq<Preparation>, turns: seq<LoopTurn>) returns (finished: bool, ghost steps: seq<Step>)
      requires Valid() && phase == Returned
      modifies this
      ensures Valid() && Leads(old(Snapshot()), old(log), steps, Snapshot(), log)
      ensures steps == [Step.Run] + Course(old(Snapshot()).(phase := Between), preparations, turns)
      ensures finished <==> phase == Returned
    {
      ghost var s0, log0 := Snapshot(), log;
      phase := Between;
      ghost var all := [Step.Run] + Course(Snapshot(), preparations, turns);
      steps := [Step.Run];
      assert [Step.Run][1..] == [];
      assert Leads(s0, log0, steps, Snapshot(), log);
      var toTry, toTake := preparations, turns;
      while toTry != []
        invariant Valid() && phase == Between && Leads(s0, log0, steps, Snapshot(), log)
        invariant all == steps + Course(Snapshot(), toTry, toTake)
        decreases |toTry|
      {
        hide Leads, Leaving, InSession, Course, Valid, Do, EndCall;
        var ok, left, over;
        ok, steps := StartSession(toTry, toTake, s0, log0, steps);
        if !ok {
          assert steps + [] == steps;
          return true, steps;
        }
        toTry := toTry[1..];
        left, toTake, steps := SessionLoop(toTake, toTry, s0, log0, steps);
        if !left {
          assert steps + [] == steps;
          return false, steps;
        }
        over, steps := LeaveSession(toTry, toTake, s0, log0, steps);
        if over {
          return true, steps;
        }
      }
      assert steps + [] == steps;
      finished := false;
    }

    /** The start of a session, in winecord_run. */
    method StartSession(preparations: seq<Preparation>, ghost turns: seq<LoopTurn>,
                        ghost s0: Session, ghost log0: seq<Action>, ghost known: seq<Step>)
      returns (ok: bool, ghost steps: seq<Step>)
      requires Valid() && phase == Between && Leads(s0, log0, known, Snapshot(), log) && preparations != []
      modifies this`phase
      ensures Valid() && Leads(s0, log0, steps, Snapshot(), log) && phase == (if ok then Inside else Returned)
      ensures known + Course(old(Snapshot()), preparations, turns)
           == steps + if ok then InSession(Snapshot(), preparations[1..], turns) else []
    {
      ghost var s := Snapshot();
      ghost var first := Step.Start(preparations[0]);
      ok := Start(preparations[0]);
      ExtendLeads(s0, log0, known, s, log, first, Snapshot(), log);
      hide Leads, InSession;
      Associate(known, [first], if ok then InSession(Snapshot(), preparations[1..], turns) else []);
      steps := known + [first];
    }

    /** The end of a session, in winecord_run. */
    method LeaveSession(ghost preparations: seq<Preparation>, ghost turns: seq<LoopTurn>,
                        ghost s0: Session, ghost log0: seq<Action>, ghost known: seq<Step>)
      returns (over: bool, ghost steps: seq<Step>)
      requires Valid() && phase == Inside && Leads(s0, log0, known, Snapshot(), log)
      modifies this
      ensures Valid() && Leads(s0, log0, steps, Snapshot(), log) && phase == (if over then Returned else Between)
      ensures known + Leaving(old(Snapshot()), preparations, turns)
           == steps + if over then [] else Course(Snapshot(), preparations, turns)
    {
      ghost var s := Snapshot();
      ghost var last := Leave(!s.shutdown);
      assert Enabled(s, last);
      over := End();
      ExtendLeads(s0, log0, known, s, log, last, Snapshot(), log);
      hide Leads, Course;
      Associate(known, [last], if over then [] else Course(Snapshot(), preparations, turns));
      steps := known + [last];
    }
  }

  // --------------------------------------------------------------------- poll and sleep

  /** The time (ms) winecord_run polls for: never beyond the time left to an armed timer, and, when
      nothing is in the way, no shorter than whole milliseconds force it to be. */
  method PollTime(groups: seq<TimerGroup.Timers>, free: seq<bool>, now: int, onIdle: bool) returns (ms: int)
    requires |free| == |groups| && forall i :: 0 <= i < |groups| ==> 0 !in groups[i].q
    ensures 0 <= ms <= 60000
    ensures forall i, id :: 0 <= i < |groups| && id in groups[i].q && groups[i].q[id].key >= 0 && ms > 0 ==>
              now + ms * 1000 <= groups[i].q[id].key
    ensures
      || ms == 60000 || onIdle
      || (exists i :: 0 <= i < |groups| && !free[i])
      || (exists i, id :: 0 <= i < |groups| && id in groups[i].q && groups[i].q[id].key >= 0
            && groups[i].q[id].key < now + (ms + 1) * 1000)
  {
    var time := 0;
    if !onIdle {
      time := TimerGroup.GetNextTrigger(groups, free, now, 60000000);
    }
    ms := time / 1000;
  }

  /** The time (us) it then sleeps if polling brought nothing. */
  method SleepTime(groups: seq<TimerGroup.Timers>, free: seq<bool>, now: int, pollResult: int, onIdle: bool)
    returns (us: int)
    requires |free| == |groups| && forall i :: 0 <= i < |groups| ==> 0 !in groups[i].q
    ensures 0 <= us < 1000
    ensures us > 0 ==> pollResult == 0 && !onIdle && forall i :: 0 <= i < |groups| ==> free[i]
    ensures us > 0 ==>
              && (exists i, id :: 0 <= i < |groups| && id in groups[i].q && groups[i].q[id].key == now + us)
              && (forall i, id :: 0 <= i < |groups| && id in groups[i].q && groups[i].q[id].key >= 0 ==>
                    now + us <= groups[i].q[id].key)
  {
    us := 0;
    if pollResult == 0 && !onIdle {
      var sleep := TimerGroup.GetNextTrigger(groups, free, now, 1000);
      if sleep > 0 && sleep < 1000 {
        us := sleep;
      }
    }
  }
}
