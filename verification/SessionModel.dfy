/**
 The gateway session as a state machine: winecord_run starts and ends sessions, and while one is on,
 messages and close frames from the server, the heartbeat timer and user calls arrive in any order.
 */
module SessionModel {
  import opened Wrappers

  /** Where winecord_run is: not running, about to start a session, or inside the loop of one. */
  datatype Phase = Returned | Between | Inside

  /** `resumable` and `shutdown` are the bits of `status`, `enable`, `attempt` and `limit` those of `retry`. */
  datatype Session = Session(
    phase: Phase, resumable: bool, shutdown: bool,
    enable: bool, attempt: nat, limit: int,
    ready: bool, acknowledged: bool)

  datatype CloseCode =
    | Normal | Reconnect
    | InvalidSequence | SessionTimedOut
    | AuthenticationFailed | ShardingRequired | InvalidApiVersion | InvalidIntents | InvalidShard | DisallowedIntents
    | UnknownError | UnknownOpcode | DecodeError | NotAuthenticated | AlreadyAuthenticated | RateLimited
    | OtherCode

  /** What gateway_start finds out before it opens a connection. */
  datatype Preparation = Fetched | BadAuth | RateLimit

  /** What arrives while a session is on; `sent` says whether a frame could be sent. */
  datatype Event =
    | Hello
    | Ready(sent: bool)
    | Resumed(sent: bool)
    | InvalidSession(isFalse: bool)
    | ReconnectRequest
    | HeartbeatAck
    | Closed(code: CloseCode)
    | HeartbeatTimeout(connected: bool, sent: bool)

  datatype Step =
    | Run
    | Start(preparation: Preparation)
    | Arrive(event: Event)
    | UserShutdown
    | UserReconnect(resume: bool)
    /** The inner loop is left, by a shut down status or a failed transfer, and gateway_end is called. */
    | Leave(failed: bool)

  /** What the session sends, or tells the cache. */
  datatype Action =
    | Identify
    | Resume
    | Heartbeat
    | Close(code: CloseCode)
    | TellDisconnected(resumable: bool)
    | TellResumed

  datatype Outcome = Outcome(s: Session, actions: seq<Action>)

  /** gateway_init */
  const INITIAL := Session(Returned, false, false, true, 0, -1, false, true)

  predicate IsFatal(code: CloseCode) {
    code.AuthenticationFailed? || code.ShardingRequired? || code.InvalidApiVersion?
    || code.InvalidIntents? || code.InvalidShard? || code.DisallowedIntents?
  }

  predicate IsResumable(code: CloseCode) {
    code.Normal? || code.UnknownError? || code.UnknownOpcode? || code.DecodeError?
    || code.NotAuthenticated? || code.AlreadyAuthenticated? || code.RateLimited?
  }

  /** gateway_reconnect */
  function GatewayReconnect(s: Session, resume: bool): Outcome {
    Outcome(s.(enable := true, shutdown := true, resumable := resume), [Close(if resume then Reconnect else Normal)])
  }

  /** send_heartbeat */
  function SendHeartbeat(s: Session, sent: bool): Outcome {
    if !s.acknowledged then GatewayReconnect(s.(acknowledged := true), false)
    else if sent then Outcome(s.(acknowledged := false), [Heartbeat])
    else Outcome(s, [])
  }

  /** _ws_on_close */
  function OnClose(s: Session, code: CloseCode): Outcome {
    var s1 :=
      if s.shutdown then s
      else s.(shutdown := true, resumable := IsResumable(code), enable := !IsFatal(code));
    Outcome(s1, [TellDisconnected(s1.resumable)])
  }

  function OnEvent(s: Session, event: Event): Outcome {
    match event
    case Hello =>
      if s.resumable then Outcome(s.(resumable := false), [Resume]) else Outcome(s, [Identify])
    case Ready(sent) => SendHeartbeat(s.(ready := true, attempt := 0), sent)
    case Resumed(sent) =>
      var o := SendHeartbeat(s.(ready := true, attempt := 0), sent);
      o.(actions := [TellResumed] + o.actions)
    case InvalidSession(isFalse) =>
      Outcome(s.(enable := true, shutdown := true, resumable := !isFalse),
              [Close(if isFalse then Normal else Reconnect)])
    case ReconnectRequest =>
      Outcome(s.(enable := true, shutdown := true, resumable := true), [Close(Reconnect)])
    case HeartbeatAck => Outcome(s.(acknowledged := true), [])
    case Closed(code) => OnClose(s, code)
    case HeartbeatTimeout(connected, sent) =>
      if connected && !s.shutdown && s.ready then SendHeartbeat(s, sent) else Outcome(s, [])
  }

  /** gateway_start */
  function StartCall(s: Session, preparation: Preparation): Session {
    if s.attempt == s.limit || !preparation.Fetched? then s.(phase := Returned) else s.(phase := Inside)
  }

  /** gateway_end */
  function EndCall(s: Session): Session {
    if !s.enable then s.(phase := Returned, resumable := false, shutdown := false, ready := false, attempt := 0)
    else s.(phase := Between, shutdown := false, ready := false, attempt := s.attempt + 1)
  }

  /** winecord_shutdown, which does nothing when the status is just SHUTDOWN. */
  function Shutdown(s: Session): Outcome {
    if s.shutdown && !s.resumable then Outcome(s, [])
    else Outcome(s.(enable := false, shutdown := true, resumable := false), [Close(Normal)])
  }

  /** The session gets ready. */
  predicate Succeeds(step: Step) {
    step.Arrive? && (step.event.Ready? || step.event.Resumed?)
  }

  predicate Enabled(s: Session, step: Step) {
    match step
    case Run => s.phase == Returned
    case Start(_) => s.phase == Between
    case Arrive(_) => s.phase == Inside
    case Leave(failed) => s.phase == Inside && (failed || s.shutdown)
    case UserShutdown => true
    case UserReconnect(_) => true
  }

  function Do(s: Session, step: Step): Outcome
    requires Enabled(s, step)
  {
    match step
    case Run => Outcome(s.(phase := Between), [])
    case Start(preparation) => Outcome(StartCall(s, preparation), [])
    case Arrive(event) => OnEvent(s, event)
    case UserShutdown => Shutdown(s)
    case UserReconnect(resume) => GatewayReconnect(s, resume)
    case Leave(_) => Outcome(EndCall(s), [])
  }

  predicate Legal(s: Session, steps: seq<Step>)
    decreases |steps|
  {
    steps == [] || (Enabled(s, steps[0]) && Legal(Do(s, steps[0]).s, steps[1..]))
  }

  function Replay(s: Session, steps: seq<Step>): Outcome
    requires Legal(s, steps)
    decreases |steps|
  {
    if steps == [] then Outcome(s, [])
    else
      var o := Do(s, steps[0]);
      var rest := Replay(o.s, steps[1..]);
      Outcome(rest.s, o.actions + rest.actions)
  }

  // ----------------------------------------------------------------------- counting

  function Count(actions: seq<Action>, action: Action): nat {
    if actions == [] then 0 else (if actions[0] == action then 1 else 0) + Count(actions[1..], action)
  }

  lemma {:induction false} CountAdds(a: seq<Action>, b: seq<Action>, action: Action)
    ensures Count(a + b, action) == Count(a, action) + Count(b, action)
  {
    if a == [] {
      assert a + b == b;
    } else {
      CountAdds(a[1..], b, action);
      assert (a + b)[1..] == a[1..] + b;
    }
  }

  /** No step does more than two things. */
  lemma FewActions(s: Session, step: Step, action: Action)
    requires Enabled(s, step)
    ensures var a := Do(s, step).actions;
            |a| <= 2
            && Count(a, action) ==
                 (if |a| > 0 && a[0] == action then 1 else 0) + (if |a| > 1 && a[1] == action then 1 else 0)
  {
    var a := Do(s, step).actions;
    assert |a| <= 2;
    hide Do;
    if a != [] {
      var b := a[1..];
      assert Count(a, action) == (if a[0] == action then 1 else 0) + Count(b, action);
      if b != [] {
        assert b[1..] == [];
        assert Count(b, action) == if b[0] == action then 1 else 0;
      }
    }
  }

  // ------------------------------------------------------------------------- resume

  /** The step makes the session resumable. */
  predicate Grants(s: Session, step: Step) {
    match step
    case Arrive(InvalidSession(isFalse)) => !isFalse
    case Arrive(ReconnectRequest) => true
    case Arrive(Closed(code)) => !s.shutdown && IsResumable(code)
    case UserReconnect(resume) => resume
    case _ => false
  }

  function GrantCount(s: Session, steps: seq<Step>): nat
    requires Legal(s, steps)
    decreases |steps|
  {
    if steps == [] then 0 else (if Grants(s, steps[0]) then 1 else 0) + GrantCount(Do(s, steps[0]).s, steps[1..])
  }

  function Bit(b: bool): nat {
    if b then 1 else 0
  }

  lemma StepResumes(s: Session, step: Step)
    requires Enabled(s, step)
    ensures Count(Do(s, step).actions, Resume) + Bit(Do(s, step).s.resumable) <= Bit(s.resumable) + Bit(Grants(s, step))
    ensures Resume in Do(s, step).actions <==> step == Arrive(Hello) && s.resumable
    ensures Resume in Do(s, step).actions ==> !Do(s, step).s.resumable
  {
    FewActions(s, step, Resume);
    hide Count;
  }

  /** RESUME is sent only from a resumable status and uses it up: over any run there are no more
      RESUMEs than occasions on which the session was made resumable. */
  lemma {:induction false} ResumesAreGranted(s: Session, steps: seq<Step>)
    requires Legal(s, steps)
    ensures var o := Replay(s, steps);
            Count(o.actions, Resume) + Bit(o.s.resumable) <= Bit(s.resumable) + GrantCount(s, steps)
    decreases |steps|
  {
    if steps != [] {
      StepResumes(s, steps[0]);
      var o := Do(s, steps[0]);
      ResumesAreGranted(o.s, steps[1..]);
      CountAdds(o.actions, Replay(o.s, steps[1..]).actions, Resume);
    }
  }

  /** The step takes away that the session is resumable. */
  predicate TakesAway(s: Session, step: Step) {
    match step
    case Arrive(Hello) => true
    case Arrive(InvalidSession(isFalse)) => isFalse
    case Arrive(Closed(code)) => !s.shutdown && !IsResumable(code)
    case UserReconnect(resume) => !resume
    case UserShutdown => true
    case Leave(_) => !s.enable
    case _ => Zombie(s, step)
  }

  /** Which steps make the session resumable, and which take that away: all others leave it alone. */
  lemma ResumableIff(s: Session, step: Step)
    requires Enabled(s, step)
    ensures Do(s, step).s.resumable <==> Grants(s, step) || (s.resumable && !TakesAway(s, step))
  {
  }

  predicate NoneTakesAway(s: Session, steps: seq<Step>)
    requires Legal(s, steps)
    decreases |steps|
  {
    steps == [] || (!TakesAway(s, steps[0]) && NoneTakesAway(Do(s, steps[0]).s, steps[1..]))
  }

  predicate NoneGrants(s: Session, steps: seq<Step>)
    requires Legal(s, steps)
    decreases |steps|
  {
    steps == [] || (!Grants(s, steps[0]) && NoneGrants(Do(s, steps[0]).s, steps[1..]))
  }

  lemma ToldAsItIs(s: Session, step: Step, resumable: bool)
    requires Enabled(s, step)
    ensures TellDisconnected(resumable) in Do(s, step).actions ==> Do(s, step).s.resumable == resumable
  {
  }

  /** While nothing takes it away, a resumable session stays so, over closes, ends and starts of sessions,
      and the cache is never told otherwise; the next hello is answered by RESUME. */
  lemma {:induction false} ResumableStands(s: Session, steps: seq<Step>)
    requires Legal(s, steps) && s.resumable && NoneTakesAway(s, steps)
    ensures var o := Replay(s, steps);
            && o.s.resumable && TellDisconnected(false) !in o.actions
            && Do(o.s.(phase := Inside), Arrive(Hello)).actions == [Resume]
    decreases |steps|
  {
    if steps != [] {
      ResumableIff(s, steps[0]);
      ToldAsItIs(s, steps[0], false);
      hide Do, TakesAway;
      ResumableStands(Do(s, steps[0]).s, steps[1..]);
    }
  }

  /** And while nothing grants it, one that is not resumable stays so: the next hello is answered by
      IDENTIFY. */
  lemma {:induction false} UnresumableStands(s: Session, steps: seq<Step>)
    requires Legal(s, steps) && !s.resumable && NoneGrants(s, steps)
    ensures var o := Replay(s, steps);
            && !o.s.resumable && TellDisconnected(true) !in o.actions
            && Do(o.s.(phase := Inside), Arrive(Hello)).actions == [Identify]
    decreases |steps|
  {
    if steps != [] {
      ResumableIff(s, steps[0]);
      ToldAsItIs(s, steps[0], true);
      hide Do, Grants;
      UnresumableStands(Do(s, steps[0]).s, steps[1..]);
    }
  }

  /** The reconnects that the server or the user asks for, and whether they are to resume. */
  function Asked(step: Step): Option<bool> {
    match step
    case Arrive(ReconnectRequest) => Some(true)
    case Arrive(InvalidSession(isFalse)) => Some(!isFalse)
    case UserReconnect(resume) => Some(resume)
    case _ => None
  }

  /** A reconnect that was asked for with resuming resumes, and one without does not: over whatever follows
      that neither takes that away nor grants it again, close frames with any code, ends and starts. */
  lemma ReconnectsAsAsked(s: Session, step: Step, steps: seq<Step>)
    requires Enabled(s, step) && Asked(step).Some? && Legal(Do(s, step).s, steps)
    requires if Asked(step).value then NoneTakesAway(Do(s, step).s, steps) else NoneGrants(Do(s, step).s, steps)
    ensures var o := Replay(Do(s, step).s, steps);
            var resume := Asked(step).value;
            && TellDisconnected(!resume) !in o.actions
            && Do(o.s.(phase := Inside), Arrive(Hello)).actions == [if resume then Resume else Identify]
  {
    if Asked(step).value {
      ResumableStands(Do(s, step).s, steps);
    } else {
      UnresumableStands(Do(s, step).s, steps);
    }
  }

  lemma LastStep(s: Session, step: Step)
    requires Enabled(s, step)
    ensures Legal(s, [step]) && Replay(s, [step]) == Do(s, step)
  {
    assert [step][1..] == [];
    assert Do(s, step).actions + [] == Do(s, step).actions;
  }

  lemma FirstStep(s: Session, step: Step, steps: seq<Step>)
    requires Enabled(s, step) && Legal(Do(s, step).s, steps)
    ensures Legal(s, [step] + steps)
    ensures var rest := Replay(Do(s, step).s, steps);
            Replay(s, [step] + steps) == Outcome(rest.s, Do(s, step).actions + rest.actions)
  {
    assert ([step] + steps)[1..] == steps;
  }

  /** The ordinary course: the close frame the client sends, the one it gets back, with whatever code, and
      the next session. */
  lemma ReconnectCourse(s: Session, step: Step, code: CloseCode, failed: bool)
    requires s.phase == Inside && Asked(step).Some? && s.attempt + 1 != s.limit
    ensures var resume := Asked(step).value;
            var s1 := Do(s, step).s;
            var steps := [Arrive(Closed(code)), Leave(failed), Start(Fetched), Arrive(Hello)];
            && Do(s, step).actions == [Close(if resume then Reconnect else Normal)]
            && Legal(s1, steps)
            && Replay(s1, steps).actions == [TellDisconnected(resume), if resume then Resume else Identify]
            && Replay(s1, steps).s.phase == Inside && !Replay(s1, steps).s.shutdown
            && Replay(s1, steps).s.attempt == s.attempt + 1
  {
    var resume := Asked(step).value;
    var s1 := s.(enable := true, shutdown := true, resumable := resume);
    AskedOutcome(s, step);
    var s2 := s1.(phase := Between, shutdown := false, ready := false, attempt := s.attempt + 1);
    assert Do(s1, Arrive(Closed(code))) == Outcome(s1, [TellDisconnected(resume)]);
    assert Do(s1, Leave(failed)) == Outcome(s2, []);
    assert Do(s2, Start(Fetched)) == Outcome(s2.(phase := Inside), []);
    FourSteps(s1, Arrive(Closed(code)), Leave(failed), Start(Fetched), Arrive(Hello));
  }

  lemma AskedOutcome(s: Session, step: Step)
    requires Enabled(s, step) && Asked(step).Some?
    ensures var resume := Asked(step).value;
            Do(s, step) == Outcome(s.(enable := true, shutdown := true, resumable := resume),
                                   [Close(if resume then Reconnect else Normal)])
  {
  }

  lemma FourSteps(s: Session, a: Step, b: Step, c: Step, d: Step)
    requires Enabled(s, a) && Enabled(Do(s, a).s, b) && Enabled(Do(Do(s, a).s, b).s, c)
    requires Enabled(Do(Do(Do(s, a).s, b).s, c).s, d)
    ensures Legal(s, [a, b, c, d])
    ensures var (x, y) := (Do(s, a), Do(Do(s, a).s, b));
            var z := Do(y.s, c);
            Replay(s, [a, b, c, d]) == Outcome(Do(z.s, d).s, x.actions + (y.actions + (z.actions + Do(z.s, d).actions)))
  {
    hide Do, Enabled, Legal, Replay;
    var s1, s2 := Do(s, a).s, Do(Do(s, a).s, b).s;
    var s3 := Do(s2, c).s;
    LastStep(s3, d);
    FirstStep(s2, c, [d]);
    FirstStep(s1, b, [c] + [d]);
    FirstStep(s, a, [b] + ([c] + [d]));
    assert [a, b, c, d] == [a] + ([b] + ([c] + [d]));
  }

  // ---------------------------------------------------------------------- heartbeats

  /** A heartbeat is due while the last one has not been acknowledged. */
  predicate Zombie(s: Session, step: Step) {
    !s.acknowledged
    && match step
       case Arrive(Ready(_)) => true
       case Arrive(Resumed(_)) => true
       case Arrive(HeartbeatTimeout(connected, _)) => connected && !s.shutdown && s.ready
       case _ => false
  }

  /** What makes the next heartbeat possible: an acknowledgement, or the reconnect in its stead. */
  function Renewals(s: Session, steps: seq<Step>): nat
    requires Legal(s, steps)
    decreases |steps|
  {
    if steps == [] then 0
    else Bit(steps[0] == Arrive(HeartbeatAck) || Zombie(s, steps[0])) + Renewals(Do(s, steps[0]).s, steps[1..])
  }

  /** A due heartbeat is sent only if the last one was acknowledged; otherwise exactly one reconnect
      is triggered instead, which does not resume. */
  lemma ZombieReconnects(s: Session, step: Step)
    requires Enabled(s, step)
    ensures Heartbeat in Do(s, step).actions ==> s.acknowledged && !Do(s, step).s.acknowledged
    ensures Zombie(s, step) ==>
              && Count(Do(s, step).actions, Close(Normal)) == 1 && Heartbeat !in Do(s, step).actions
              && Do(s, step).s.shutdown && Do(s, step).s.enable
              && !Do(s, step).s.resumable && Do(s, step).s.acknowledged
  {
    if Zombie(s, step) {
      assert Do(s, step).actions == (if step.event.Resumed? then [TellResumed] else []) + [Close(Normal)];
      FewActions(s, step, Close(Normal));
      hide Count;
    } else {
      HeartbeatIff(s, step);
    }
  }

  lemma HeartbeatIff(s: Session, step: Step)
    requires Enabled(s, step)
    ensures Heartbeat in Do(s, step).actions ==> s.acknowledged && !Do(s, step).s.acknowledged
  {
  }

  lemma AcknowledgedAgain(s: Session, step: Step)
    requires Enabled(s, step)
    ensures Do(s, step).s.acknowledged ==> s.acknowledged || step == Arrive(HeartbeatAck) || Zombie(s, step)
    ensures |Do(s, step).actions| > 1 ==> Do(s, step).actions[0] == TellResumed
  {
  }

  lemma StepHeartbeats(s: Session, step: Step)
    requires Enabled(s, step)
    ensures Count(Do(s, step).actions, Heartbeat) + Bit(Do(s, step).s.acknowledged)
         <= Bit(s.acknowledged) + Bit(step == Arrive(HeartbeatAck) || Zombie(s, step))
  {
    FewActions(s, step, Heartbeat);
    HeartbeatIff(s, step);
    AcknowledgedAgain(s, step);
    hide Count, Do, Zombie;
  }

  /** Over any run every heartbeat but one is matched by an acknowledgement or a reconnect. */
  lemma {:induction false} HeartbeatsAreAcknowledged(s: Session, steps: seq<Step>)
    requires Legal(s, steps)
    ensures var o := Replay(s, steps);
            Count(o.actions, Heartbeat) + Bit(o.s.acknowledged) <= Bit(s.acknowledged) + Renewals(s, steps)
    decreases |steps|
  {
    if steps != [] {
      StepHeartbeats(s, steps[0]);
      var o := Do(s, steps[0]);
      HeartbeatsAreAcknowledged(o.s, steps[1..]);
      CountAdds(o.actions, Replay(o.s, steps[1..]).actions, Heartbeat);
    }
  }

  /** A session gets ready by READY or RESUMED and stays so until it ends. */
  lemma ReadyIff(s: Session, step: Step)
    requires Enabled(s, step)
    ensures Do(s, step).s.ready <==> Succeeds(step) || (s.ready && !step.Leave?)
  {
  }

  lemma {:induction false} ReadyStands(s: Session, steps: seq<Step>)
    requires Legal(s, steps) && s.ready && forall i :: 0 <= i < |steps| ==> !steps[i].Leave?
    ensures Replay(s, steps).s.ready
    decreases |steps|
  {
    if steps != [] {
      assert !steps[0].Leave?;
      ReadyIff(s, steps[0]);
      hide Do;
      ReadyStands(Do(s, steps[0]).s, steps[1..]);
    }
  }

  /** From READY or RESUMED to the end of the session, unless it is being closed, each timer tick on an
      open connection sends a heartbeat if the last one was acknowledged, and reconnects otherwise. */
  lemma HeartbeatsOnTicks(s: Session, event: Event, steps: seq<Step>, sent: bool)
    requires s.phase == Inside && (event.Ready? || event.Resumed?) && Legal(Do(s, Arrive(event)).s, steps)
    requires forall i :: 0 <= i < |steps| ==> !steps[i].Leave?
    ensures Replay(Do(s, Arrive(event)).s, steps).s.phase == Inside
    ensures var s1 := Replay(Do(s, Arrive(event)).s, steps).s;
            var beat := Arrive(HeartbeatTimeout(true, sent));
            Do(s1, Arrive(HeartbeatTimeout(false, sent))) == Outcome(s1, [])
            && if s1.shutdown then Do(s1, beat) == Outcome(s1, [])
               else if !s1.acknowledged then Do(s1, beat).actions == [Close(Normal)] && Do(s1, beat).s.shutdown
               else Do(s1, beat) == Outcome(s1.(acknowledged := !sent), if sent then [Heartbeat] else [])
  {
    ReadyIff(s, Arrive(event));
    ReadyStands(Do(s, Arrive(event)).s, steps);
    LastsInside(Do(s, Arrive(event)).s, steps);
  }

  lemma {:induction false} LastsInside(s: Session, steps: seq<Step>)
    requires Legal(s, steps) && s.phase == Inside && forall i :: 0 <= i < |steps| ==> !steps[i].Leave?
    ensures Replay(s, steps).s.phase == Inside
    decreases |steps|
  {
    if steps != [] {
      assert !steps[0].Leave?;
      if steps[0].Arrive? {
        EventKeeps(s, steps[0].event);
      }
      LastsInside(Do(s, steps[0]).s, steps[1..]);
    }
  }

  /** A session that never got ready, since the last one ended, sends no heartbeat on ticks. */
  lemma NoHeartbeatBefore(s: Session, failed: bool, steps: seq<Step>, connected: bool, sent: bool)
    requires Enabled(s, Leave(failed)) && Legal(Do(s, Leave(failed)).s, steps)
    requires forall i :: 0 <= i < |steps| ==> !Succeeds(steps[i])
    ensures var s1 := Replay(Do(s, Leave(failed)).s, steps).s;
            s1.phase == Inside ==> Do(s1, Arrive(HeartbeatTimeout(connected, sent))) == Outcome(s1, [])
  {
    OutstandingStays(Do(s, Leave(failed)).s, steps);
  }

  lemma StepUnready(s: Session, step: Step)
    requires Enabled(s, step) && !s.ready && !Succeeds(step)
    ensures !Do(s, step).s.ready
    ensures Do(s, step).s.acknowledged <==> s.acknowledged || step == Arrive(HeartbeatAck)
  {
  }

  /** While no session gets ready, only an acknowledgement from the server clears an outstanding
      heartbeat; starting a session does not. */
  lemma {:induction false} OutstandingStays(s: Session, steps: seq<Step>)
    requires Legal(s, steps) && !s.ready && forall i :: 0 <= i < |steps| ==> !Succeeds(steps[i])
    ensures !Replay(s, steps).s.ready
    ensures Replay(s, steps).s.acknowledged <==> s.acknowledged || Arrive(HeartbeatAck) in steps
    decreases |steps|
  {
    if steps != [] {
      assert !Succeeds(steps[0]);
      StepUnready(s, steps[0]);
      hide Do, Succeeds;
      OutstandingStays(Do(s, steps[0]).s, steps[1..]);
      assert steps == [steps[0]] + steps[1..];
    }
  }

  /** Whatever comes between the end of a session and the READY or RESUMED of a later one: the later
      one is given up at once, by a reconnect, exactly if the earlier one ended with a heartbeat
      outstanding and no acknowledgement has come since. */
  lemma ReadyGivesUpIff(s: Session, failed: bool, steps: seq<Step>, event: Event)
    requires Enabled(s, Leave(failed)) && Legal(Do(s, Leave(failed)).s, steps)
    requires forall i :: 0 <= i < |steps| ==> !Succeeds(steps[i])
    requires event.Ready? || event.Resumed?
    ensures var s1 := Replay(Do(s, Leave(failed)).s, steps).s;
            s1.phase == Inside && !s1.shutdown ==>
              && (Do(s1, Arrive(event)).s.shutdown <==> !s.acknowledged && Arrive(HeartbeatAck) !in steps)
              && (Close(Normal) in Do(s1, Arrive(event)).actions <==> !s.acknowledged && Arrive(HeartbeatAck) !in steps)
  {
    OutstandingStays(Do(s, Leave(failed)).s, steps);
  }

  /** A first session, which gets ready, sends its heartbeat and is closed before that is acknowledged. */
  const CLOSED_SESSION :=
    [Run, Start(Fetched), Arrive(Hello), Arrive(Ready(true)), Arrive(Closed(Normal)), Leave(false)]

  /** The next session, which resumes. */
  const RESUMED_SESSION := [Start(Fetched), Arrive(Hello), Arrive(Resumed(true))]

  lemma ClosedSession()
    ensures Legal(INITIAL, CLOSED_SESSION)
    ensures var o := Replay(INITIAL, CLOSED_SESSION);
            && o.s == Session(Between, true, false, true, 1, -1, false, false)
            && o.actions == [Identify, Heartbeat, TellDisconnected(true)]
  {
  }

  /** Run one after the other from the beginning, they end in the client giving up what it resumed. */
  lemma GivesUpRun()
    ensures Legal(INITIAL, CLOSED_SESSION)
    ensures var s := Replay(INITIAL, CLOSED_SESSION).s;
            && Legal(s, RESUMED_SESSION)
            && Replay(s, RESUMED_SESSION).actions == [Resume, TellResumed, Close(Normal)]
            && Replay(s, RESUMED_SESSION).s.shutdown && !Replay(s, RESUMED_SESSION).s.resumable
  {
    ClosedSession();
    hide CLOSED_SESSION;
  }

  // ------------------------------------------------------------------------ retrying

  /** The step allows another attempt. */
  predicate Reenables(s: Session, step: Step) {
    match step
    case Arrive(InvalidSession(_)) => true
    case Arrive(ReconnectRequest) => true
    case Arrive(Closed(code)) => !s.shutdown && !IsFatal(code)
    case UserReconnect(_) => true
    case _ => Zombie(s, step)
  }

  predicate NeverReenabled(s: Session, steps: seq<Step>)
    requires Legal(s, steps)
    decreases |steps|
  {
    steps == [] || (!Reenables(s, steps[0]) && NeverReenabled(Do(s, steps[0]).s, steps[1..]))
  }

  lemma ReenablesIff(s: Session, step: Step)
    requires Enabled(s, step) && !s.enable
    ensures Do(s, step).s.enable <==> Reenables(s, step)
  {
  }

  /** Once retrying is disabled, the session at hand is the last of this winecord_run, unless a later
      step enables it again: the run does not go back to starting sessions. */
  lemma {:induction false} DisabledEnds(s: Session, steps: seq<Step>)
    requires Legal(s, steps) && !s.enable && s.phase != Between && NeverReenabled(s, steps)
    requires forall i :: 0 <= i < |steps| ==> !steps[i].Run?
    ensures var s1 := Replay(s, steps).s;
            && !s1.enable && s1.phase != Between
            && (s.phase == Returned ==> s1.phase == Returned)
            && (s.phase == Inside && s1.phase == Returned ==> s1.attempt == 0 && !s1.ready)
    decreases |steps|
  {
    if steps != [] {
      ReenablesIff(s, steps[0]);
      assert !steps[0].Run?;
      DisabledEnds(Do(s, steps[0]).s, steps[1..]);
      if s.phase == Inside && Do(s, steps[0]).s.phase == Returned {
        ReturnedRests(Do(s, steps[0]).s, steps[1..]);
      }
    }
  }

  /** Outside winecord_run nothing but the status and the permission to retry can change. */
  lemma {:induction false} ReturnedRests(s: Session, steps: seq<Step>)
    requires Legal(s, steps) && s.phase == Returned && forall i :: 0 <= i < |steps| ==> !steps[i].Run?
    ensures var s1 := Replay(s, steps).s;
            s1.phase == Returned && s1.attempt == s.attempt && s1.ready == s.ready && s1.limit == s.limit
    decreases |steps|
  {
    if steps != [] {
      assert !steps[0].Run?;
      ReturnedRests(Do(s, steps[0]).s, steps[1..]);
    }
  }

  /** A fatal close code ends winecord_run if no later step enables retrying again; any other close of
      a session that is on lets it go on. */
  lemma FatalCloseEnds(s: Session, code: CloseCode, steps: seq<Step>)
    requires s.phase == Inside && !s.shutdown && IsFatal(code)
    requires Legal(s, [Arrive(Closed(code))] + steps) && NeverReenabled(s, [Arrive(Closed(code))] + steps)
    requires forall i :: 0 <= i < |steps| ==> !steps[i].Run?
    ensures var s1 := Replay(s, [Arrive(Closed(code))] + steps).s;
            && !s1.enable && s1.phase != Between
            && (s1.phase == Inside ==> EndCall(s1).phase == Returned)
  {
    assert ([Arrive(Closed(code))] + steps)[1..] == steps;
    DisabledEnds(Do(s, Arrive(Closed(code))).s, steps);
  }

  /** What becomes of a session after a close frame, by its code. */
  lemma CloseDecides(s: Session, code: CloseCode)
    requires s.phase == Inside && !s.shutdown
    ensures var s1 := Do(s, Arrive(Closed(code))).s;
            && (EndCall(s1).phase == Returned <==> IsFatal(code))
            && (Do(EndCall(s1).(phase := Inside), Arrive(Hello)).actions == [Resume] <==> IsResumable(code))
  {
  }

  /** The cache is told of each close once, and that it may keep its content exactly when the next
      session would begin with RESUME. */
  lemma CacheIsTold(s: Session, step: Step)
    requires Enabled(s, step)
    ensures forall r :: TellDisconnected(r) in Do(s, step).actions ==> step.Arrive? && step.event.Closed?
    ensures step.Arrive? && step.event.Closed? ==>
              && Do(s, step).actions == [TellDisconnected(Do(s, step).s.resumable)]
              && (Do(s, step).s.enable ==>
                    (Do(s, step).s.resumable <==>
                       Do(EndCall(Do(s, step).s).(phase := Inside), Arrive(Hello)).actions == [Resume]))
  {
  }

  /** A session is begun exactly if there are attempts left and the preparation succeeds; otherwise
      winecord_run returns. */
  lemma StartIff(s: Session, preparation: Preparation)
    requires s.phase == Between
    ensures var s1 := Do(s, Start(preparation)).s;
            && (s1.phase == Inside <==> s.attempt != s.limit && preparation != BadAuth && preparation != RateLimit)
            && (s1.phase != Inside ==> s1.phase == Returned)
            && s1.(phase := Between) == s
  {
  }

  /** The course of a session that a close frame ends, by its code: a fatal one ends winecord_run; after
      the others the next session resumes or identifies itself anew. */
  lemma CloseCourse(s: Session, code: CloseCode, failed: bool)
    requires s.phase == Inside && !s.shutdown && s.attempt + 1 != s.limit
    ensures var fatal := code in {AuthenticationFailed, ShardingRequired, InvalidApiVersion, InvalidIntents,
                                  InvalidShard, DisallowedIntents};
            var resumes := code in {Normal, UnknownError, UnknownOpcode, DecodeError, NotAuthenticated,
                                    AlreadyAuthenticated, RateLimited};
            var s1 := Do(s, Arrive(Closed(code))).s;
            && Do(s, Arrive(Closed(code))).actions == [TellDisconnected(resumes)] && Enabled(s1, Leave(failed))
            && var s2 := Do(s1, Leave(failed)).s;
               if fatal then s2.phase == Returned && !s2.enable && !s2.resumable
               else
                 && Legal(s2, [Start(Fetched), Arrive(Hello)])
                 && Replay(s2, [Start(Fetched), Arrive(Hello)]).actions == [if resumes then Resume else Identify]
  {
    var s1 := Do(s, Arrive(Closed(code))).s;
    var s2 := Do(s1, Leave(failed)).s;
    if s2.phase == Between {
      var s3 := s2.(phase := Inside);
      assert Do(s2, Start(Fetched)) == Outcome(s3, []);
      LastStep(s3, Arrive(Hello));
      FirstStep(s2, Start(Fetched), [Arrive(Hello)]);
      assert [Start(Fetched)] + [Arrive(Hello)] == [Start(Fetched), Arrive(Hello)];
    }
  }

  /** A transfer that fails ends its session too; nothing is told, and the next one resumes only if that
      was already due. */
  lemma LostConnection(s: Session)
    requires s.phase == Inside && s.enable && s.attempt + 1 != s.limit
    ensures Enabled(s, Leave(true)) && (Enabled(s, Leave(false)) <==> s.shutdown)
    ensures var s1 := Do(s, Leave(true)).s;
            && Do(s, Leave(true)).actions == [] && s1.phase == Between && s1.attempt == s.attempt + 1
            && Do(s1, Start(Fetched)).s.phase == Inside
            && Do(Do(s1, Start(Fetched)).s, Arrive(Hello)).actions == [if s.resumable then Resume else Identify]
  {
  }

  /** The course of winecord_shutdown, in a session that is not being closed for good: the close frame, the
      one that comes back, whatever its code, and the end of winecord_run. */
  lemma ShutdownCourse(s: Session, code: CloseCode, failed: bool)
    requires s.phase == Inside && !(s.shutdown && !s.resumable)
    ensures var s1 := Do(s, UserShutdown).s;
            && Do(s, UserShutdown).actions == [Close(Normal)]
            && Do(s1, Arrive(Closed(code))) == Outcome(s1, [TellDisconnected(false)])
            && Enabled(s1, Leave(failed)) && Do(s1, Leave(failed)).s.phase == Returned
  {
  }

  /** The user leaves the status alone while no session is on. */
  predicate UserWaits(s: Session, step: Step) {
    step.UserShutdown? || step.UserReconnect? ==> s.phase == Inside
  }

  predicate UserAlwaysWaits(s: Session, steps: seq<Step>)
    requires Legal(s, steps)
    decreases |steps|
  {
    steps == [] || (UserWaits(s, steps[0]) && UserAlwaysWaits(Do(s, steps[0]).s, steps[1..]))
  }

  /** Between sessions nothing is ready or about to be shut down, so that each session starts open, in this
      winecord_run and in later ones. */
  lemma {:induction false} StartsOpen(s: Session, steps: seq<Step>)
    requires Legal(s, steps) && UserAlwaysWaits(s, steps) && (s.phase != Inside ==> !s.shutdown && !s.ready)
    ensures var s1 := Replay(s, steps).s;
            s1.phase != Inside ==> !s1.shutdown && !s1.ready
    decreases |steps|
  {
    if steps != [] {
      StepOpen(s, steps[0]);
      hide Do, UserWaits;
      StartsOpen(Do(s, steps[0]).s, steps[1..]);
    }
  }

  lemma StepOpen(s: Session, step: Step)
    requires Enabled(s, step) && UserWaits(s, step) && (s.phase != Inside ==> !s.shutdown && !s.ready)
    ensures var s1 := Do(s, step).s;
            s1.phase != Inside ==> !s1.shutdown && !s1.ready
  {
    if step.Arrive? {
      EventKeeps(s, step.event);
      hide OnEvent;
    }
  }

  /** winecord_shutdown is lost exactly when the session is already being closed without resuming: if
      that was for a reconnect, the client connects again. */
  lemma ShutdownIgnoredIff(s: Session)
    ensures Do(s, UserShutdown).s.enable <==> s.enable && s.shutdown && !s.resumable
    ensures Do(s, UserReconnect(false)).s.enable && Do(Do(s, UserReconnect(false)).s, UserShutdown).s.enable
  {
  }

  // ------------------------------------------------------------------- bounded retries

  /** With a limit, the attempts stay within it, and below it while a session is on. */
  predicate Bounded(s: Session) {
    s.limit >= 0 ==> s.attempt <= s.limit && (s.phase == Inside ==> s.attempt < s.limit)
  }

  /** The step begins a session. */
  predicate Begins(s: Session, step: Step)
    requires Enabled(s, step)
  {
    step.Start? && Do(s, step).s.phase == Inside
  }

  function Sessions(s: Session, steps: seq<Step>): nat
    requires Legal(s, steps)
    decreases |steps|
  {
    if steps == [] then 0 else Bit(Begins(s, steps[0])) + Sessions(Do(s, steps[0]).s, steps[1..])
  }

  lemma {:induction false} DisabledSessions(s: Session, steps: seq<Step>)
    requires Legal(s, steps) && !s.enable && NeverReenabled(s, steps)
    requires forall i :: 0 <= i < |steps| ==> !steps[i].Run?
    ensures Sessions(s, steps) <= Bit(s.phase == Between)
    decreases |steps|
  {
    if steps != [] {
      ReenablesIff(s, steps[0]);
      assert !steps[0].Run?;
      DisabledSessions(Do(s, steps[0]).s, steps[1..]);
    }
  }

  /** Leaving winecord_run by gateway_end leaves retrying disabled, so a further run, unless something
      enables it again, makes do with one session, whatever that one ends of. */
  lemma SecondRunTriesOnce(s: Session, failed: bool, steps: seq<Step>)
    requires s.phase == Inside && !s.enable && Legal(s, [Leave(failed), Run] + steps)
    requires NeverReenabled(s, [Leave(failed), Run] + steps)
    requires forall i :: 0 <= i < |steps| ==> !steps[i].Run?
    ensures Sessions(s, [Leave(failed), Run] + steps) <= 1
  {
    var s1 := Do(s, Leave(failed)).s;
    assert ([Leave(failed), Run] + steps)[1..] == [Run] + steps;
    assert ([Run] + steps)[1..] == steps;
    DisabledSessions(Do(s1, Run).s, steps);
  }

  lemma EventKeeps(s: Session, event: Event)
    ensures var s1 := OnEvent(s, event).s;
            && s1.phase == s.phase && s1.limit == s.limit
            && s1.attempt == if event.Ready? || event.Resumed? then 0 else s.attempt
  {
  }

  lemma StepBounded(s: Session, step: Step)
    requires Enabled(s, step)
    ensures Do(s, step).s.limit == s.limit
    ensures Bounded(s) ==> Bounded(Do(s, step).s)
  {
    if step.Arrive? {
      EventKeeps(s, step.event);
      hide OnEvent;
    }
  }

  /** The limit is tested for equality only, yet no step of any run gets past it. */
  lemma {:induction false} AttemptsBounded(s: Session, steps: seq<Step>)
    requires Legal(s, steps) && Bounded(s)
    ensures Bounded(Replay(s, steps).s) && Replay(s, steps).s.limit == s.limit
    decreases |steps|
  {
    if steps != [] {
      StepBounded(s, steps[0]);
      hide Do, Bounded;
      AttemptsBounded(Do(s, steps[0]).s, steps[1..]);
    }
  }

  /** Attempts used, the session that is on included. */
  function Used(s: Session): nat {
    s.attempt + Bit(s.phase == Inside)
  }

  lemma StepUses(s: Session, step: Step)
    requires Enabled(s, step) && s.phase != Returned && !Succeeds(step) && !step.Run?
    ensures Do(s, step).s.phase != Returned ==> Used(s) + Bit(Begins(s, step)) == Used(Do(s, step).s)
  {
    if step.Arrive? {
      EventKeeps(s, step.event);
      hide OnEvent;
    }
  }

  /** No session begins once winecord_run has returned. */
  lemma {:induction false} ReturnedSessions(s: Session, steps: seq<Step>)
    requires Legal(s, steps) && s.phase == Returned && forall i :: 0 <= i < |steps| ==> !steps[i].Run?
    ensures Sessions(s, steps) == 0
    decreases |steps|
  {
    if steps != [] {
      assert !steps[0].Run?;
      ReturnedSessions(Do(s, steps[0]).s, steps[1..]);
    }
  }

  /** A non-negative limit L allows at most L sessions in a row that neither get ready nor resume,
      counted from the last success or from the beginning. */
  lemma {:induction false} AtMostLimitSessions(s: Session, steps: seq<Step>)
    requires Legal(s, steps) && Bounded(s) && s.limit >= 0 && s.phase != Returned
    requires forall i :: 0 <= i < |steps| ==> !Succeeds(steps[i]) && !steps[i].Run?
    ensures Used(s) + Sessions(s, steps) <= s.limit
    decreases |steps|
  {
    if steps != [] {
      assert !Succeeds(steps[0]) && !steps[0].Run?;
      var s1 := Do(s, steps[0]).s;
      StepUses(s, steps[0]);
      StepBounded(s, steps[0]);
      assert s1.phase == Returned ==> !Begins(s, steps[0]);
      hide Do, Begins;
      if s1.phase == Returned {
        ReturnedSessions(s1, steps[1..]);
      } else {
        AtMostLimitSessions(s1, steps[1..]);
      }
    }
  }

  /** Without a limit, as by default, starting is never refused for the number of attempts. */
  lemma NeverRefusedByDefault(s: Session, steps: seq<Step>)
    requires Legal(s, steps) && s.limit < 0
    ensures var s1 := Replay(s, steps).s;
            s1.phase == Between ==> Do(s1, Start(Fetched)).s.phase == Inside
  {
    LimitStands(s, steps);
  }

  lemma {:induction false} LimitStands(s: Session, steps: seq<Step>)
    requires Legal(s, steps)
    ensures Replay(s, steps).s.limit == s.limit
    decreases |steps|
  {
    if steps != [] {
      StepBounded(s, steps[0]);
      hide Do;
      LimitStands(Do(s, steps[0]).s, steps[1..]);
    }
  }

  /** Once the attempts are used up no later run starts a session: the count is reset only by a
      session that gets ready, or by the end of one. */
  lemma {:induction false} ExhaustionLasts(s: Session, steps: seq<Step>)
    requires Legal(s, steps) && s.attempt == s.limit && s.phase != Inside
    ensures Replay(s, steps).s.phase != Inside && Replay(s, steps).s.attempt == s.limit && Sessions(s, steps) == 0
    decreases |steps|
  {
    if steps != [] {
      ExhaustionLasts(Do(s, steps[0]).s, steps[1..]);
    }
  }
}
