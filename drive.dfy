/** The movement helpers of the controller. Each one converts its units,
    issues one drive command, pauses half a second if the command returns,
    reports an error if it raises, and stops the drive in a `finally`. The
    drive itself is a recorder of the calls made to it. */
module Drive {
  import opened Units

  /** One call made to the drive, or the pause after a completed move. */
  datatype Event =
    | Forward(speedFactor: real, meters: real)
    | Backward(speedFactor: real, meters: real)
    | Rotate(radians: real, maxSpeedFactor: real)
    | Stop
    | Pause(seconds: real)
  {
    /** The event sets the robot moving. */
    predicate IsCommand() { Forward? || Backward? || Rotate? }
  }

  /** How a drive command ends: it returns; it raises an Exception, which the
      helper catches; or it raises a BaseException such as KeyboardInterrupt,
      which passes through the helper once its `finally` has run. */
  datatype CommandOutcome = Completed | Raised | Interrupted

  /** The settle time after a completed move. */
  const SettleSeconds: real := 0.5

  /** The drive controller, reduced to the calls made to it, in order. */
  class Robot {
    var trace: seq<Event>

    constructor ()
      ensures trace == []
    {
      trace := [];
    }

    method Forward(speedFactor: real, meters: real)
      modifies this
      ensures trace == old(trace) + [Event.Forward(speedFactor, meters)]
    {
      trace := trace + [Event.Forward(speedFactor, meters)];
    }

    method Backward(speedFactor: real, meters: real)
      modifies this
      ensures trace == old(trace) + [Event.Backward(speedFactor, meters)]
    {
      trace := trace + [Event.Backward(speedFactor, meters)];
    }

    method Rotate(radians: real, maxSpeedFactor: real)
      modifies this
      ensures trace == old(trace) + [Event.Rotate(radians, maxSpeedFactor)]
    {
      trace := trace + [Event.Rotate(radians, maxSpeedFactor)];
    }

    /** Always safe to call. */
    method Stop()
      modifies this
      ensures trace == old(trace) + [Event.Stop]
    {
      trace := trace + [Event.Stop];
    }

    /** time.sleep, recorded rather than waited. */
    method Sleep(seconds: real)
      modifies this
      ensures trace == old(trace) + [Pause(seconds)]
    {
      trace := trace + [Pause(seconds)];
    }
  }

  /** The calls one movement helper makes: the command, the pause if the
      command completed, and the stop from the `finally`. */
  function MoveEvents(command: Event, outcome: CommandOutcome): seq<Event>
  {
    [command] + (if outcome == Completed then [Pause(SettleSeconds)] else []) + [Stop]
  }

  /** The number of commands in a trace. */
  function CommandCount(events: seq<Event>): nat
  {
    if events == [] then 0
    else (if events[0].IsCommand() then 1 else 0) + CommandCount(events[1..])
  }

  /** The number of stops in a trace. */
  function StopCount(events: seq<Event>): nat
  {
    if events == [] then 0
    else (if events[0].Stop? then 1 else 0) + StopCount(events[1..])
  }

  /** A trace made of whole movements, one after another: each command is
      followed by its stop, with at most the settle pause in between. */
  ghost predicate Bracketed(events: seq<Event>)
    decreases |events|
  {
    || events == []
    || (&& |events| >= 2 && events[0].IsCommand() && events[1] == Stop
        && Bracketed(events[2..]))
    || (&& |events| >= 3 && events[0].IsCommand() && events[1] == Pause(SettleSeconds)
        && events[2] == Stop && Bracketed(events[3..]))
  }

  /** One movement issues exactly one command, which comes first, and exactly
      one stop, which comes last; the pause is there only on success. */
  lemma MoveEventsShape(command: Event, outcome: CommandOutcome)
    requires command.IsCommand()
    ensures var events := MoveEvents(command, outcome);
      && events[0] == command
      && events[|events| - 1] == Stop
      && CommandCount(events) == 1
      && StopCount(events) == 1
      && (Pause(SettleSeconds) in events <==> outcome == Completed)
      && Bracketed(events)
      && (SafeCommand(command) ==> forall e :: e in events ==> SafeCommand(e))
  {
    var events := MoveEvents(command, outcome);
    var middle := if outcome == Completed then [Pause(SettleSeconds)] else [];
    assert events == [command] + middle + [Stop];
    CountsAppend([command] + middle, [Stop]);
    CountsAppend([command], middle);
    CountsOfOne(command);
    CountsOfOne(Stop);
    if outcome == Completed {
      CountsOfOne(Pause(SettleSeconds));
      assert events == [command, Pause(SettleSeconds), Stop];
      assert events[3..] == [];
    } else {
      assert middle == [] && [command] + middle == [command];
      assert events == [command, Stop];
      assert events[2..] == [];
    }
  }

  /** The counts of a one-call trace. */
  lemma CountsOfOne(e: Event)
    ensures CommandCount([e]) == (if e.IsCommand() then 1 else 0)
    ensures StopCount([e]) == (if e.Stop? then 1 else 0)
  {
    assert [e][1..] == [];
  }

  /** Whole movements one after another make a trace of whole movements. */
  lemma {:induction false} BracketedAppend(a: seq<Event>, b: seq<Event>)
    requires Bracketed(a) && Bracketed(b)
    ensures Bracketed(a + b)
  {
    if a == [] {
      assert a + b == b;
    } else if |a| >= 2 && a[0].IsCommand() && a[1] == Stop && Bracketed(a[2..]) {
      BracketedAppend(a[2..], b);
      assert (a + b)[2..] == a[2..] + b;
    } else {
      BracketedAppend(a[3..], b);
      assert (a + b)[3..] == a[3..] + b;
    }
  }

  /** In a trace of whole movements, no command is left without its stop:
      the next call is the stop, or the settle pause and then the stop. */
  lemma {:induction false} BracketedCommandIsStopped(events: seq<Event>, i: nat)
    requires Bracketed(events)
    requires i < |events| && events[i].IsCommand()
    ensures || (i + 1 < |events| && events[i + 1] == Stop)
            || (i + 2 < |events| && events[i + 1] == Pause(SettleSeconds) && events[i + 2] == Stop)
  {
    if |events| >= 2 && events[0].IsCommand() && events[1] == Stop && Bracketed(events[2..]) {
      if i >= 2 {
        BracketedCommandIsStopped(events[2..], i - 2);
      }
    } else {
      if i >= 3 {
        BracketedCommandIsStopped(events[3..], i - 3);
      }
    }
  }

  /** A trace of whole movements holds as many stops as commands and, unless
      empty, ends with a stop. */
  lemma {:induction false} BracketedBalanced(events: seq<Event>)
    requires Bracketed(events)
    ensures CommandCount(events) == StopCount(events)
    ensures events != [] ==> events[|events| - 1] == Stop
  {
    if events == [] {
    } else if |events| >= 2 && events[0].IsCommand() && events[1] == Stop && Bracketed(events[2..]) {
      BracketedBalanced(events[2..]);
      assert events[1..][1..] == events[2..];
    } else {
      BracketedBalanced(events[3..]);
      assert events[1..][1..][1..] == events[3..];
    }
  }

  /** Counting commands and stops distributes over concatenation. */
  lemma {:induction false} CountsAppend(a: seq<Event>, b: seq<Event>)
    ensures CommandCount(a + b) == CommandCount(a) + CommandCount(b)
    ensures StopCount(a + b) == StopCount(a) + StopCount(b)
    decreases |a|
  {
    if a == [] {
      assert a + b == b;
    } else {
      CountsAppend(a[1..], b);
      assert (a + b)[1..] == a[1..] + b;
    }
  }

  /** Whole movements, followed by one more stop when `extraStop` holds. */
  ghost predicate BracketedThenStop(events: seq<Event>, extraStop: bool)
  {
    if extraStop then
      events != [] && events[|events| - 1] == Stop && Bracketed(events[..|events| - 1])
    else
      Bracketed(events)
  }

  /** One more movement in front keeps the shape. */
  lemma PrependMovement(command: Event, outcome: CommandOutcome, rest: seq<Event>, extraStop: bool)
    requires command.IsCommand() && BracketedThenStop(rest, extraStop)
    ensures BracketedThenStop(MoveEvents(command, outcome) + rest, extraStop)
  {
    var here := MoveEvents(command, outcome);
    MoveEventsShape(command, outcome);
    if extraStop {
      var body := rest[..|rest| - 1];
      BracketedAppend(here, body);
      assert rest == body + [Stop];
      assert here + rest == (here + body) + [Stop];
      assert (here + rest)[..|here + rest| - 1] == here + body;
    } else {
      BracketedAppend(here, rest);
    }
  }

  /** The robot is never left moving: every command is followed by a stop,
      at once or after the settle pause, and the last call, if any, is a stop. */
  predicate NeverLeftMoving(events: seq<Event>)
  {
    && (forall i :: 0 <= i < |events| && events[i].IsCommand() ==> StoppedAfter(events, i))
    && (events != [] ==> events[|events| - 1] == Stop)
  }

  /** The call at `i` is followed by a stop, at once or after the settle pause. */
  predicate StoppedAfter(events: seq<Event>, i: nat)
  {
    || (i + 1 < |events| && events[i + 1] == Stop)
    || (i + 2 < |events| && events[i + 1] == Pause(SettleSeconds) && events[i + 2] == Stop)
  }

  /** Whole movements, possibly followed by one more stop: every command is
      followed by its stop, at once or after the settle pause; the trace, if
      not empty, ends with a stop; and it holds one stop per command plus the
      extra one. */
  lemma {:induction false} StoppedMovements(events: seq<Event>, extraStop: bool)
    requires BracketedThenStop(events, extraStop)
    ensures NeverLeftMoving(events)
    ensures StopCount(events) == CommandCount(events) + (if extraStop then 1 else 0)
  {
    if extraStop {
      var body := events[..|events| - 1];
      assert events == body + [Stop];
      BracketedNeverLeftMoving(body);
      NeverLeftMovingThenStop(body);
      BracketedBalanced(body);
      CountsAppend(body, [Stop]);
      CountsOfOne(Stop);
    } else {
      BracketedNeverLeftMoving(events);
      BracketedBalanced(events);
    }
  }

  lemma {:induction false} BracketedNeverLeftMoving(events: seq<Event>)
    requires Bracketed(events)
    ensures NeverLeftMoving(events)
  {
    BracketedBalanced(events);
    forall i | 0 <= i < |events| && events[i].IsCommand()
      ensures StoppedAfter(events, i)
    {
      BracketedCommandIsStopped(events, i);
    }
  }

  lemma NeverLeftMovingThenStop(events: seq<Event>)
    requires NeverLeftMoving(events)
    ensures NeverLeftMoving(events + [Stop])
  {
    var longer := events + [Stop];
    forall i | 0 <= i < |longer| && longer[i].IsCommand()
      ensures StoppedAfter(longer, i)
    {
      if i + 1 < |events| {
        assert StoppedAfter(events, i);
        assert longer[i] == events[i] && longer[i + 1] == events[i + 1];
        if i + 2 < |events| {
          assert longer[i + 2] == events[i + 2];
        }
      } else {
        assert longer[i + 1] == Stop;
      }
    }
    assert longer[|longer| - 1] == Stop;
  }

  /** The body shared by the three helpers: the command inside `try`, the
      pause only when it returns, the stop in `finally`. Reports whether an
      exception escapes the helper. */
  method Dispatch(robot: Robot, command: Event, outcome: CommandOutcome) returns (escaped: bool)
    requires command.IsCommand()
    modifies robot
    ensures robot.trace == old(robot.trace) + MoveEvents(command, outcome)
    ensures escaped <==> outcome == Interrupted
  {
    match command {
      case Forward(s, m) => robot.Forward(s, m);
      case Backward(s, m) => robot.Backward(s, m);
      case Rotate(r, s) => robot.Rotate(r, s);
    }
    if outcome == Completed {
      robot.Sleep(SettleSeconds);
    }
    robot.Stop();
    escaped := outcome == Interrupted;
  }

  /** The command move_forward issues. */
  function ForwardCommand(speedPercent: real, inches: real): Event
  {
    Event.Forward(PercentToSpeedFactor(speedPercent), InchesToMeters(inches))
  }

  /** The command move_backward issues. */
  function BackwardCommand(speedPercent: real, inches: real): Event
  {
    Event.Backward(PercentToSpeedFactor(speedPercent), InchesToMeters(inches))
  }

  /** The command rotate_in_place issues: the speed factor goes in as the
      maximum speed factor. */
  function RotateCommand(speedPercent: real, degrees: real): Event
  {
    Event.Rotate(DegreesToRadians(degrees), PercentToSpeedFactor(speedPercent))
  }

  /** The command's arguments are within what the drive accepts: speed
      factors in [0, 1], distances and angles strictly positive. */
  predicate SafeCommand(e: Event)
  {
    match e
    case Forward(s, m) => 0.0 <= s <= 1.0 && m > 0.0
    case Backward(s, m) => 0.0 <= s <= 1.0 && m > 0.0
    case Rotate(r, s) => r > 0.0 && 0.0 <= s <= 1.0
    case Stop => true
    case Pause(t) => t == SettleSeconds
  }

  /** Positive inputs give commands the drive accepts, whatever the speed. */
  lemma CommandsAreSafe(speedPercent: real, magnitude: real)
    requires magnitude > 0.0
    ensures SafeCommand(ForwardCommand(speedPercent, magnitude))
    ensures SafeCommand(BackwardCommand(speedPercent, magnitude))
    ensures SafeCommand(RotateCommand(speedPercent, magnitude))
  {
  }

  method MoveForward(robot: Robot, speedPercent: real, inches: real, outcome: CommandOutcome) returns (escaped: bool)
    modifies robot
    ensures robot.trace == old(robot.trace) + MoveEvents(ForwardCommand(speedPercent, inches), outcome)
    ensures escaped <==> outcome == Interrupted
  {
    var speedFactor := PercentToSpeedFactor(speedPercent);
    var meters := InchesToMeters(inches);
    escaped := Dispatch(robot, Event.Forward(speedFactor, meters), outcome);
  }

  method MoveBackward(robot: Robot, speedPercent: real, inches: real, outcome: CommandOutcome) returns (escaped: bool)
    modifies robot
    ensures robot.trace == old(robot.trace) + MoveEvents(BackwardCommand(speedPercent, inches), outcome)
    ensures escaped <==> outcome == Interrupted
  {
    var speedFactor := PercentToSpeedFactor(speedPercent);
    var meters := InchesToMeters(inches);
    escaped := Dispatch(robot, Event.Backward(speedFactor, meters), outcome);
  }

  method RotateInPlace(robot: Robot, speedPercent: real, degrees: real, outcome: CommandOutcome) returns (escaped: bool)
    modifies robot
    ensures robot.trace == old(robot.trace) + MoveEvents(RotateCommand(speedPercent, degrees), outcome)
    ensures escaped <==> outcome == Interrupted
  {
    var speedFactor := PercentToSpeedFactor(speedPercent);
    var radians := DegreesToRadians(degrees);
    escaped := Dispatch(robot, Event.Rotate(radians, speedFactor), outcome);
  }
}
