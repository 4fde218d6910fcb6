/** The course of winecord_run: what its two nested loops do, as a function of what reaches them. */
module SessionCourse {
  import opened SessionModel

  /** What reaches the client while it polls: an event of the session, or a call of the user. */
  type Input = step: Step | step.Arrive? || step.UserShutdown? || step.UserReconnect? witness UserShutdown

  /** One turn of the inner loop: what comes in, and whether the transfers fail after it. */
  datatype LoopTurn = LoopTurn(inputs: seq<Input>, failed: bool)

  lemma InputKeepsPhase(s: Session, input: Input)
    requires s.phase == Inside
    ensures Enabled(s, input) && Do(s, input).s.phase == Inside
  {
    if input.Arrive? {
      EventKeeps(s, input.event);
      hide OnEvent;
    }
  }

  /** The session after all that comes in. */
  function Took(s: Session, inputs: seq<Input>): (s1: Session)
    requires s.phase == Inside
    ensures s1.phase == Inside
    decreases |inputs|
  {
    if inputs == [] then s
    else
      InputKeepsPhase(s, inputs[0]);
      Took(Do(s, inputs[0]).s, inputs[1..])
  }

  /** From where a session is to be started: it is started, if there is a preparation left to try. */
  function Course(s: Session, preparations: seq<Preparation>, turns: seq<LoopTurn>): seq<Step>
    requires s.phase == Between
    decreases |turns|, |preparations|, 0
  {
    if preparations == [] then []
    else
      var s1 := Do(s, Start(preparations[0])).s;
      [Start(preparations[0])]
      + if s1.phase == Inside then InSession(s1, preparations[1..], turns) else []
  }

  /** Inside a session: turn after turn, until one leaves it shut down or with a failed transfer. */
  function InSession(s: Session, preparations: seq<Preparation>, turns: seq<LoopTurn>): seq<Step>
    requires s.phase == Inside
    decreases |turns|, |preparations|, 1
  {
    if turns == [] then []
    else
      var s1 := Took(s, turns[0].inputs);
      turns[0].inputs
      + if s1.shutdown || turns[0].failed then Leaving(s1, preparations, turns[1..])
        else InSession(s1, preparations, turns[1..])
  }

  /** The session is left: winecord_run returns, or goes on to the next one. */
  function Leaving(s: Session, preparations: seq<Preparation>, turns: seq<LoopTurn>): seq<Step>
    requires s.phase == Inside
    decreases |turns|, |preparations|, 2
  {
    var s1 := EndCall(s);
    [Leave(!s.shutdown)] + if s1.phase == Between then Course(s1, preparations, turns) else []
  }

  // ------------------------------------------------------------------ what the course is

  lemma {:induction false} JoinSteps(s: Session, a: seq<Step>, b: seq<Step>)
    requires Legal(s, a) && Legal(Replay(s, a).s, b)
    ensures Legal(s, a + b) && Replay(s, a + b).s == Replay(Replay(s, a).s, b).s
    decreases |a|
  {
    if a == [] {
      assert a + b == b;
    } else {
      assert (a + b)[1..] == a[1..] + b;
      hide Enabled, Do;
      JoinSteps(Do(s, a[0]).s, a[1..], b);
    }
  }

  lemma {:induction false} InputsLegal(s: Session, inputs: seq<Input>)
    requires s.phase == Inside
    ensures Legal(s, inputs) && Replay(s, inputs).s == Took(s, inputs)
    ensures Starts(inputs) == 0
    decreases |inputs|
  {
    if inputs != [] {
      InputKeepsPhase(s, inputs[0]);
      var step := inputs[0];
      assert !step.Start?;
      InputsLegal(Do(s, step).s, inputs[1..]);
      hide Enabled, Do;
      FirstStep(s, step, inputs[1..]);
      assert inputs == [step] + inputs[1..];
    }
  }

  function Starts(steps: seq<Step>): nat {
    if steps == [] then 0 else (if steps[0].Start? then 1 else 0) + Starts(steps[1..])
  }

  lemma {:induction false} StartsAdd(a: seq<Step>, b: seq<Step>)
    ensures Starts(a + b) == Starts(a) + Starts(b)
  {
    if a == [] {
      assert a + b == b;
    } else {
      assert (a + b)[1..] == a[1..] + b;
      StartsAdd(a[1..], b);
    }
  }

  /** The course is a legal run that goes on as long as it can: it ends with winecord_run returned, or in
      the middle of a session for want of turns, or between sessions once all preparations were tried. */
  lemma {:induction false} CourseEnds(s: Session, preparations: seq<Preparation>, turns: seq<LoopTurn>)
    requires s.phase == Between
    ensures var steps := Course(s, preparations, turns);
            && Legal(s, steps) && Starts(steps) <= |preparations|
            && (Replay(s, steps).s.phase == Between ==> Starts(steps) == |preparations|)
    decreases |turns|, |preparations|, 0
  {
    if preparations != [] {
      var step := Start(preparations[0]);
      var s1 := Do(s, step).s;
      var more := if s1.phase == Inside then InSession(s1, preparations[1..], turns) else [];
      if s1.phase == Inside {
        SessionEnds(s1, preparations[1..], turns);
      }
      hide Do, InSession;
      FirstStep(s, step, more);
      StartsAdd([step], more);
      assert [step][1..] == [];
    }
  }

  lemma {:induction false} SessionEnds(s: Session, preparations: seq<Preparation>, turns: seq<LoopTurn>)
    requires s.phase == Inside
    ensures var steps := InSession(s, preparations, turns);
            && Legal(s, steps) && Starts(steps) <= |preparations|
            && (Replay(s, steps).s.phase == Between ==> Starts(steps) == |preparations|)
    decreases |turns|, |preparations|, 1
  {
    if turns != [] {
      var inputs := turns[0].inputs;
      var s1 := Took(s, inputs);
      InputsLegal(s, inputs);
      var leaves := s1.shutdown || turns[0].failed;
      var more := if leaves then Leaving(s1, preparations, turns[1..]) else InSession(s1, preparations, turns[1..]);
      if leaves {
        LeavingEnds(s1, preparations, turns[1..]);
      } else {
        SessionEnds(s1, preparations, turns[1..]);
      }
      hide Took, Leaving;
      JoinSteps(s, inputs, more);
      StartsAdd(inputs, more);
    }
  }

  lemma {:induction false} LeavingEnds(s: Session, preparations: seq<Preparation>, turns: seq<LoopTurn>)
    requires s.phase == Inside
    ensures var steps := Leaving(s, preparations, turns);
            && Legal(s, steps) && Starts(steps) <= |preparations|
            && (Replay(s, steps).s.phase == Between ==> Starts(steps) == |preparations|)
    decreases |turns|, |preparations|, 2
  {
    var last := Leave(!s.shutdown);
    var s1 := Do(s, last).s;
    var more := if s1.phase == Between then Course(s1, preparations, turns) else [];
    assert s1 == EndCall(s);
    if s1.phase == Between {
      CourseEnds(s1, preparations, turns);
    }
    hide Do, Course;
    FirstStep(s, last, more);
    StartsAdd([last], more);
    assert [last][1..] == [];
  }

  /** A turn of the inner loop takes all that comes in, in order, and then leaves the session exactly if that
      shut it down or the transfers failed. */
  lemma TurnLeavesIff(s: Session, preparations: seq<Preparation>, turn: LoopTurn)
    requires s.phase == Inside
    ensures var steps := InSession(s, preparations, [turn]);
            && turn.inputs <= steps
            && (steps == turn.inputs <==> !turn.failed && !Took(s, turn.inputs).shutdown)
            && (|steps| > |turn.inputs| ==> steps[|turn.inputs|].Leave?)
  {
    InputsLegal(s, turn.inputs);
    var leaving := Leaving(Took(s, turn.inputs), preparations, []);
    assert leaving[0].Leave?;
    hide Took, Leaving;
    assert [turn][1..] == [];
  }
}
