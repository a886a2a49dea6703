/** The main control loop: ask for a movement type, a speed, then a distance
    or an angle, and run the movement; stop at the first prompt that is
    cancelled, then stop the drive once more before shutting down. */
module Controller {
  import opened Units
  import opened Prompts
  import opened Drive

  /** How the loop ends: a prompt was cancelled and the shutdown stop was
      issued; the input ended inside a prompt (EOFError leaves `main` with no
      shutdown stop); or a drive command raised a BaseException, which leaves
      `main` once the helper's `finally` has stopped the drive. */
  datatype Ending = ShutDown | InputEnded | Aborted

  /** What the loop does from some position in the input on: the calls made
      to the drive, how it ended, the position just after the last line it
      read, and how many movements it ran. */
  datatype Run = Run(events: seq<Event>, ending: Ending, next: nat, movements: nat)

  /** The command the helper for `kind` issues. */
  function Command(kind: Movement, percent: real, magnitude: real): Event
  {
    match kind
    case Forward => ForwardCommand(percent, magnitude)
    case Backward => BackwardCommand(percent, magnitude)
    case Rotate => RotateCommand(percent, magnitude)
  }

  /** One pass of the loop: either `main` leaves the loop (with the calls made
      in the pass and how it ended), or the pass ran one movement and the loop
      goes round again; `next` is the position just after the last line the
      pass read. */
  datatype Pass =
    | Leave(events: seq<Event>, ending: Ending, next: nat)
    | Again(events: seq<Event>, next: nat)

  /** Which prompt of a pass comes next, with the answers given so far. */
  datatype Asking =
    | AskMovement
    | AskSpeed(movement: Movement)
    | AskSize(movement: Movement, percent: real)

  /** The number of prompts still to come after the current one. */
  function Remaining(asking: Asking): (n: nat)
    ensures n <= 2
  {
    match asking
    case AskMovement => 2
    case AskSpeed(_) => 1
    case AskSize(_, _) => 0
  }

  /** One pass of the loop of `main`, reading from line `at`, where
      `outcome` is how the drive command of this pass ends, if it issues one. */
  function Iteration(lines: seq<string>, at: nat, parse: string -> Option<real>,
                     outcome: CommandOutcome): (p: Pass)
    requires at <= |lines|
    ensures at <= p.next <= |lines|
    ensures p.Again? || p.ending != InputEnded ==> p.next > at
  {
    Prompting(lines, at, parse, outcome, AskMovement)
  }

  /** The rest of a pass from the prompt `asking` on: the movement type, then
      the speed, then the distance or angle (both read by the prompt for a
      positive number); a cancelled prompt or the end of the input leaves the
      loop before the drive is called. */
  function Prompting(lines: seq<string>, at: nat, parse: string -> Option<real>,
                     outcome: CommandOutcome, asking: Asking): (p: Pass)
    requires at <= |lines|
    ensures at <= p.next <= |lines|
    ensures p.Again? || p.ending != InputEnded ==> p.next > at
    decreases Remaining(asking)
  {
    match asking
    case AskMovement =>
      var kind := FirstDecision(lines, at, DecideMovement);
      (match kind.reply
       case EndOfInput => Leave([], InputEnded, kind.next)
       case Cancelled => Leave([], ShutDown, kind.next)
       case Accepted(movement) => Prompting(lines, kind.next, parse, outcome, AskSpeed(movement)))
    case AskSpeed(movement) =>
      var speed := FirstDecision(lines, at, SpeedDecider(parse));
      (match speed.reply
       case EndOfInput => Leave([], InputEnded, speed.next)
       case Cancelled => Leave([], ShutDown, speed.next)
       case Accepted(percent) => Prompting(lines, speed.next, parse, outcome, AskSize(movement, percent)))
    case AskSize(movement, percent) =>
      var size := FirstDecision(lines, at, PositiveDecider(parse));
      match size.reply
      case EndOfInput => Leave([], InputEnded, size.next)
      case Cancelled => Leave([], ShutDown, size.next)
      case Accepted(magnitude) =>
        var here := MoveEvents(Command(movement, percent, magnitude), outcome);
        if outcome == Interrupted then Leave(here, Aborted, size.next)
        else Again(here, size.next)
  }

  /** The loop of `main` from line `at` on, at the prompt `asking` of the pass
      that runs movement number `moves` (counted from 0), followed by the
      shutdown stop when the loop is left through a cancelled prompt. */
  function Session(lines: seq<string>, at: nat, parse: string -> Option<real>,
                   outcomes: nat -> CommandOutcome, moves: nat, asking: Asking): (r: Run)
    requires at <= |lines|
    ensures at <= r.next <= |lines|
    decreases |lines| - at, 1
  {
    match asking
    case AskMovement => FromMovementPrompt(lines, at, parse, outcomes, moves)
    case AskSpeed(movement) => FromSpeedPrompt(lines, at, parse, outcomes, moves, movement)
    case AskSize(movement, percent) => FromSizePrompt(lines, at, parse, outcomes, moves, movement, percent)
  }

  /** The loop from the movement-type prompt on. */
  function FromMovementPrompt(lines: seq<string>, at: nat, parse: string -> Option<real>,
                              outcomes: nat -> CommandOutcome, moves: nat): (r: Run)
    requires at <= |lines|
    ensures at <= r.next <= |lines|
    decreases |lines| - at, 0
  {
    var kind := FirstDecision(lines, at, DecideMovement);
    match kind.reply
    case EndOfInput => Run([], InputEnded, kind.next, 0)
    case Cancelled => Run([Stop], ShutDown, kind.next, 0)
    case Accepted(movement) => Session(lines, kind.next, parse, outcomes, moves, AskSpeed(movement))
  }

  /** The loop from the speed prompt on, once `movement` was chosen. */
  function FromSpeedPrompt(lines: seq<string>, at: nat, parse: string -> Option<real>,
                           outcomes: nat -> CommandOutcome, moves: nat, movement: Movement): (r: Run)
    requires at <= |lines|
    ensures at <= r.next <= |lines|
    decreases |lines| - at, 0
  {
    var speed := FirstDecision(lines, at, SpeedDecider(parse));
    match speed.reply
    case EndOfInput => Run([], InputEnded, speed.next, 0)
    case Cancelled => Run([Stop], ShutDown, speed.next, 0)
    case Accepted(percent) => Session(lines, speed.next, parse, outcomes, moves, AskSize(movement, percent))
  }

  /** The loop from the distance or angle prompt on, then the movement with
      its outcome, then the rest of the loop unless it was interrupted. */
  function FromSizePrompt(lines: seq<string>, at: nat, parse: string -> Option<real>,
                          outcomes: nat -> CommandOutcome, moves: nat, movement: Movement, percent: real): (r: Run)
    requires at <= |lines|
    ensures at <= r.next <= |lines|
    decreases |lines| - at, 0
  {
    var size := FirstDecision(lines, at, PositiveDecider(parse));
    match size.reply
    case EndOfInput => Run([], InputEnded, size.next, 0)
    case Cancelled => Run([Stop], ShutDown, size.next, 0)
    case Accepted(magnitude) =>
      var here := MoveEvents(Command(movement, percent, magnitude), outcomes(moves));
      if outcomes(moves) == Interrupted then Run(here, Aborted, size.next, 1)
      else
        var rest := Session(lines, size.next, parse, outcomes, moves + 1, AskMovement);
        Run(here + rest.events, rest.ending, rest.next, rest.movements + 1)
  }

  /** What the loop does once a pass has ended: the pass's calls, then either
      the shutdown stop or the rest of the loop. */
  function AfterPass(lines: seq<string>, parse: string -> Option<real>,
                     outcomes: nat -> CommandOutcome, moves: nat, p: Pass): Run
    requires p.next <= |lines|
  {
    match p
    case Leave(events, ending, next) =>
      Run(events + (if ending == ShutDown then [Stop] else []), ending, next, if ending == Aborted then 1 else 0)
    case Again(events, next) =>
      var rest := Session(lines, next, parse, outcomes, moves + 1, AskMovement);
      Run(events + rest.events, rest.ending, rest.next, rest.movements + 1)
  }

  /** The loop is its passes one after another: from any prompt on, it does
      what the rest of the pass does, then what the loop does after it. */
  lemma {:induction false} SessionUnrolls(lines: seq<string>, at: nat, parse: string -> Option<real>,
                                          outcomes: nat -> CommandOutcome, moves: nat, asking: Asking)
    requires at <= |lines|
    ensures Session(lines, at, parse, outcomes, moves, asking)
         == AfterPass(lines, parse, outcomes, moves, Prompting(lines, at, parse, outcomes(moves), asking))
    decreases Remaining(asking)
  {
    match asking
    case AskMovement =>
      var kind := FirstDecision(lines, at, DecideMovement);
      if kind.reply.Accepted? {
        SessionUnrolls(lines, kind.next, parse, outcomes, moves, AskSpeed(kind.reply.value));
      }
    case AskSpeed(movement) =>
      var speed := FirstDecision(lines, at, SpeedDecider(parse));
      if speed.reply.Accepted? {
        SessionUnrolls(lines, speed.next, parse, outcomes, moves, AskSize(movement, speed.reply.value));
      }
    case AskSize(_, _) =>
  }

  /** The drive is never left moving by the loop: its calls are whole
      movements one after another, followed by the shutdown stop exactly
      when the loop was left through a cancelled prompt. */
  lemma {:induction false} SessionIsBracketed(lines: seq<string>, at: nat, parse: string -> Option<real>,
                                               outcomes: nat -> CommandOutcome, moves: nat, asking: Asking)
    requires at <= |lines|
    ensures var r := Session(lines, at, parse, outcomes, moves, asking);
      BracketedThenStop(r.events, r.ending == ShutDown)
    decreases |lines| - at
  {
    assert [Stop][..0] == [];
    match asking
    case AskMovement =>
      var kind := FirstDecision(lines, at, DecideMovement);
      if kind.reply.Accepted? {
        SessionIsBracketed(lines, kind.next, parse, outcomes, moves, AskSpeed(kind.reply.value));
      }
    case AskSpeed(movement) =>
      var speed := FirstDecision(lines, at, SpeedDecider(parse));
      if speed.reply.Accepted? {
        SessionIsBracketed(lines, speed.next, parse, outcomes, moves, AskSize(movement, speed.reply.value));
      }
    case AskSize(movement, percent) =>
      var size := FirstDecision(lines, at, PositiveDecider(parse));
      if size.reply.Accepted? {
        var command := Command(movement, percent, size.reply.value);
        MoveEventsShape(command, outcomes(moves));
        if outcomes(moves) != Interrupted {
          SessionIsBracketed(lines, size.next, parse, outcomes, moves + 1, AskMovement);
          var rest := Session(lines, size.next, parse, outcomes, moves + 1, AskMovement);
          PrependMovement(command, outcomes(moves), rest.events, rest.ending == ShutDown);
        }
      }
  }

  /** Every command the loop sends is followed by its stop, either at once or
      after the settle pause; the last call, if any, is a stop; and there is
      one stop per command plus the shutdown stop. */
  lemma {:induction false} SessionStopsEveryCommand(lines: seq<string>, at: nat, parse: string -> Option<real>,
                                                    outcomes: nat -> CommandOutcome, moves: nat, asking: Asking)
    requires at <= |lines|
    ensures NeverLeftMoving(Session(lines, at, parse, outcomes, moves, asking).events)
    ensures var r := Session(lines, at, parse, outcomes, moves, asking);
      StopCount(r.events) == CommandCount(r.events) + (if r.ending == ShutDown then 1 else 0)
  {
    var r := Session(lines, at, parse, outcomes, moves, asking);
    SessionIsBracketed(lines, at, parse, outcomes, moves, asking);
    StoppedMovements(r.events, r.ending == ShutDown);
  }

  /** Every call the loop makes to the drive is within what the drive
      accepts, whatever the operator typed. */
  lemma {:induction false} SessionIsSafe(lines: seq<string>, at: nat, parse: string -> Option<real>,
                                          outcomes: nat -> CommandOutcome, moves: nat, asking: Asking)
    requires at <= |lines|
    ensures forall e :: e in Session(lines, at, parse, outcomes, moves, asking).events ==> SafeCommand(e)
    decreases |lines| - at
  {
    match asking
    case AskMovement =>
      var kind := FirstDecision(lines, at, DecideMovement);
      if kind.reply.Accepted? {
        SessionIsSafe(lines, kind.next, parse, outcomes, moves, AskSpeed(kind.reply.value));
      }
    case AskSpeed(movement) =>
      var speed := FirstDecision(lines, at, SpeedDecider(parse));
      if speed.reply.Accepted? {
        SessionIsSafe(lines, speed.next, parse, outcomes, moves, AskSize(movement, speed.reply.value));
      }
    case AskSize(movement, percent) =>
      var size := FirstDecision(lines, at, PositiveDecider(parse));
      PositivePromptMeaning(lines, at, parse);
      if size.reply.Accepted? {
        var command := Command(movement, percent, size.reply.value);
        CommandsAreSafe(percent, size.reply.value);
        MoveEventsShape(command, outcomes(moves));
        if outcomes(moves) != Interrupted {
          SessionIsSafe(lines, size.next, parse, outcomes, moves + 1, AskMovement);
        }
      }
  }

  /** The loop shuts down only on a line reading "exit", the last line it
      read. */
  lemma {:induction false} SessionShutsDownOnExit(lines: seq<string>, at: nat, parse: string -> Option<real>,
                                                  outcomes: nat -> CommandOutcome, moves: nat, asking: Asking)
    requires at <= |lines|
    ensures var r := Session(lines, at, parse, outcomes, moves, asking);
      r.ending == ShutDown ==> at < r.next && IsExitCommand(lines[r.next - 1])
    decreases |lines| - at
  {
    var r := Session(lines, at, parse, outcomes, moves, asking);
    match asking
    case AskMovement =>
      var kind := FirstDecision(lines, at, DecideMovement);
      if kind.reply.Accepted? {
        SessionShutsDownOnExit(lines, kind.next, parse, outcomes, moves, AskSpeed(kind.reply.value));
      } else if kind.reply.Cancelled? {
        MovementPromptMeaning(lines, at);
      }
    case AskSpeed(movement) =>
      var speed := FirstDecision(lines, at, SpeedDecider(parse));
      if speed.reply.Accepted? {
        SessionShutsDownOnExit(lines, speed.next, parse, outcomes, moves, AskSize(movement, speed.reply.value));
      } else if speed.reply.Cancelled? {
        SpeedPromptMeaning(lines, at, parse);
      }
    case AskSize(movement, percent) =>
      var size := FirstDecision(lines, at, PositiveDecider(parse));
      if size.reply.Accepted? && outcomes(moves) != Interrupted {
        SessionShutsDownOnExit(lines, size.next, parse, outcomes, moves + 1, AskMovement);
      } else if size.reply.Cancelled? {
        PositivePromptMeaning(lines, at, parse);
      }
  }

  /** "exit" typed at any prompt ends the loop: a line reading "exit" is never
      read past, and once it is read the loop shuts down there. */
  lemma {:induction false} SessionEndsOnExit(lines: seq<string>, at: nat, parse: string -> Option<real>,
                                             outcomes: nat -> CommandOutcome, moves: nat, asking: Asking, i: nat)
    requires at <= i < |lines| && IsExitCommand(lines[i])
    ensures var r := Session(lines, at, parse, outcomes, moves, asking);
      i < r.next ==> r.ending == ShutDown && r.next == i + 1
    decreases |lines| - at
  {
    match asking
    case AskMovement =>
      var kind := FirstDecision(lines, at, DecideMovement);
      DecideMovementMeaning(lines[i]);
      QuitStopsPrompt(lines, at, DecideMovement, i);
      if kind.reply.Accepted? {
        SessionEndsOnExit(lines, kind.next, parse, outcomes, moves, AskSpeed(kind.reply.value), i);
      }
    case AskSpeed(movement) =>
      var speed := FirstDecision(lines, at, SpeedDecider(parse));
      DecideSpeedMeaning(parse, lines[i]);
      QuitStopsPrompt(lines, at, SpeedDecider(parse), i);
      if speed.reply.Accepted? {
        SessionEndsOnExit(lines, speed.next, parse, outcomes, moves, AskSize(movement, speed.reply.value), i);
      }
    case AskSize(_, _) =>
      var size := FirstDecision(lines, at, PositiveDecider(parse));
      DecidePositiveMeaning(parse, lines[i]);
      QuitStopsPrompt(lines, at, PositiveDecider(parse), i);
      if size.reply.Accepted? && outcomes(moves) != Interrupted {
        SessionEndsOnExit(lines, size.next, parse, outcomes, moves + 1, AskMovement, i);
      }
  }

  /** The loop ends without the shutdown stop, other than by an interrupted
      command, only when every line was read. */
  lemma {:induction false} SessionInputEnded(lines: seq<string>, at: nat, parse: string -> Option<real>,
                                             outcomes: nat -> CommandOutcome, moves: nat, asking: Asking)
    requires at <= |lines|
    ensures var r := Session(lines, at, parse, outcomes, moves, asking);
      r.ending == InputEnded ==> r.next == |lines|
    decreases |lines| - at
  {
    match asking
    case AskMovement =>
      var kind := FirstDecision(lines, at, DecideMovement);
      if kind.reply.Accepted? {
        SessionInputEnded(lines, kind.next, parse, outcomes, moves, AskSpeed(kind.reply.value));
      }
    case AskSpeed(movement) =>
      var speed := FirstDecision(lines, at, SpeedDecider(parse));
      if speed.reply.Accepted? {
        SessionInputEnded(lines, speed.next, parse, outcomes, moves, AskSize(movement, speed.reply.value));
      }
    case AskSize(_, _) =>
      var size := FirstDecision(lines, at, PositiveDecider(parse));
      if size.reply.Accepted? && outcomes(moves) != Interrupted {
        SessionInputEnded(lines, size.next, parse, outcomes, moves + 1, AskMovement);
      }
  }

  /** Each movement reads a line at each of the three prompts of its pass
      (counted from the current prompt on), and the loop is aborted only by
      a movement. */
  lemma {:induction false} SessionReadsPerMovement(lines: seq<string>, at: nat, parse: string -> Option<real>,
                                                   outcomes: nat -> CommandOutcome, moves: nat, asking: Asking)
    requires at <= |lines|
    ensures var r := Session(lines, at, parse, outcomes, moves, asking);
      && 3 * r.movements + Remaining(asking) <= r.next - at + 2
      && (r.ending == Aborted ==> r.movements >= 1)
    decreases |lines| - at
  {
    match asking
    case AskMovement =>
      var kind := FirstDecision(lines, at, DecideMovement);
      if kind.reply.Accepted? {
        SessionReadsPerMovement(lines, kind.next, parse, outcomes, moves, AskSpeed(kind.reply.value));
      }
    case AskSpeed(movement) =>
      var speed := FirstDecision(lines, at, SpeedDecider(parse));
      if speed.reply.Accepted? {
        SessionReadsPerMovement(lines, speed.next, parse, outcomes, moves, AskSize(movement, speed.reply.value));
      }
    case AskSize(_, _) =>
      var size := FirstDecision(lines, at, PositiveDecider(parse));
      if size.reply.Accepted? && outcomes(moves) != Interrupted {
        SessionReadsPerMovement(lines, size.next, parse, outcomes, moves + 1, AskMovement);
      }
  }

  /** The loop goes on after every command that was not interrupted and
      stops after the first that was. */
  lemma {:induction false} SessionRunsUntilInterrupted(lines: seq<string>, at: nat, parse: string -> Option<real>,
                                                       outcomes: nat -> CommandOutcome, moves: nat, asking: Asking)
    requires at <= |lines|
    ensures var r := Session(lines, at, parse, outcomes, moves, asking);
      forall k :: moves <= k < moves + r.movements ==>
        (outcomes(k) == Interrupted <==> r.ending == Aborted && k == moves + r.movements - 1)
    decreases |lines| - at
  {
    match asking
    case AskMovement =>
      var kind := FirstDecision(lines, at, DecideMovement);
      if kind.reply.Accepted? {
        SessionRunsUntilInterrupted(lines, kind.next, parse, outcomes, moves, AskSpeed(kind.reply.value));
      }
    case AskSpeed(movement) =>
      var speed := FirstDecision(lines, at, SpeedDecider(parse));
      if speed.reply.Accepted? {
        SessionRunsUntilInterrupted(lines, speed.next, parse, outcomes, moves, AskSize(movement, speed.reply.value));
      }
    case AskSize(movement, percent) =>
      var size := FirstDecision(lines, at, PositiveDecider(parse));
      if size.reply.Accepted? && outcomes(moves) != Interrupted {
        var r := FromSizePrompt(lines, at, parse, outcomes, moves, movement, percent);
        var rest := Session(lines, size.next, parse, outcomes, moves + 1, AskMovement);
        SessionRunsUntilInterrupted(lines, size.next, parse, outcomes, moves + 1, AskMovement);
        SessionReadsPerMovement(lines, size.next, parse, outcomes, moves + 1, AskMovement);
        assert r.movements == rest.movements + 1 && r.ending == rest.ending;
      }
  }

  /** The movements the loop counts are the commands sent to the drive. */
  lemma {:induction false} SessionCountsCommands(lines: seq<string>, at: nat, parse: string -> Option<real>,
                                                 outcomes: nat -> CommandOutcome, moves: nat, asking: Asking)
    requires at <= |lines|
    ensures var r := Session(lines, at, parse, outcomes, moves, asking);
      CommandCount(r.events) == r.movements
    decreases |lines| - at
  {
    CountsOfOne(Stop);
    match asking
    case AskMovement =>
      var kind := FirstDecision(lines, at, DecideMovement);
      if kind.reply.Accepted? {
        SessionCountsCommands(lines, kind.next, parse, outcomes, moves, AskSpeed(kind.reply.value));
      }
    case AskSpeed(movement) =>
      var speed := FirstDecision(lines, at, SpeedDecider(parse));
      if speed.reply.Accepted? {
        SessionCountsCommands(lines, speed.next, parse, outcomes, moves, AskSize(movement, speed.reply.value));
      }
    case AskSize(movement, percent) =>
      var size := FirstDecision(lines, at, PositiveDecider(parse));
      if size.reply.Accepted? {
        var command := Command(movement, percent, size.reply.value);
        MoveEventsShape(command, outcomes(moves));
        if outcomes(moves) != Interrupted {
          var rest := Session(lines, size.next, parse, outcomes, moves + 1, AskMovement);
          SessionCountsCommands(lines, size.next, parse, outcomes, moves + 1, AskMovement);
          CountsAppend(MoveEvents(command, outcomes(moves)), rest.events);
        }
      }
  }

  /** Lines after the one where the loop stopped are never read: unless the
      input ran out, the loop does the same whatever follows. */
  lemma {:induction false} SessionIgnoresLaterLines(lines: seq<string>, extra: seq<string>, at: nat,
                                                    parse: string -> Option<real>,
                                                    outcomes: nat -> CommandOutcome, moves: nat, asking: Asking)
    requires at <= |lines|
    requires Session(lines, at, parse, outcomes, moves, asking).ending != InputEnded
    ensures Session(lines + extra, at, parse, outcomes, moves, asking)
         == Session(lines, at, parse, outcomes, moves, asking)
    decreases |lines| - at
  {
    match asking
    case AskMovement =>
      var kind := FirstDecision(lines, at, DecideMovement);
      FirstDecisionIgnoresLaterLines(lines, extra, at, DecideMovement);
      if kind.reply.Accepted? {
        SessionIgnoresLaterLines(lines, extra, kind.next, parse, outcomes, moves, AskSpeed(kind.reply.value));
      }
    case AskSpeed(movement) =>
      var speed := FirstDecision(lines, at, SpeedDecider(parse));
      FirstDecisionIgnoresLaterLines(lines, extra, at, SpeedDecider(parse));
      if speed.reply.Accepted? {
        SessionIgnoresLaterLines(lines, extra, speed.next, parse, outcomes, moves, AskSize(movement, speed.reply.value));
      }
    case AskSize(_, _) =>
      var size := FirstDecision(lines, at, PositiveDecider(parse));
      FirstDecisionIgnoresLaterLines(lines, extra, at, PositiveDecider(parse));
      if size.reply.Accepted? && outcomes(moves) != Interrupted {
        SessionIgnoresLaterLines(lines, extra, size.next, parse, outcomes, moves + 1, AskMovement);
      }
  }

  /** "exit" at the movement prompt shuts down at once: the only call to the
      drive is the shutdown stop. */
  lemma {:induction false} ExitAtOnce(lines: seq<string>, at: nat, parse: string -> Option<real>,
                                      outcomes: nat -> CommandOutcome, moves: nat)
    requires at < |lines| && IsExitCommand(lines[at])
    ensures Session(lines, at, parse, outcomes, moves, AskMovement) == Run([Stop], ShutDown, at + 1, 0)
  {
    DecideMovementMeaning(lines[at]);
  }

  /** One pass of the loop body of `main`, reading from line `at`. */
  method MainPass(robot: Robot, lines: seq<string>, at: nat, parse: string -> Option<real>,
                  outcome: CommandOutcome)
    returns (leave: bool, ending: Ending, next: nat)
    requires at <= |lines|
    modifies robot
    ensures var p := Iteration(lines, at, parse, outcome);
      && robot.trace == old(robot.trace) + p.events
      && leave == p.Leave? && next == p.next
      && (p.Leave? ==> ending == p.ending)
  {
    var movement;
    movement, next := GetMovementType(lines, at);
    if movement.EndOfInput? {
      return true, InputEnded, next;
    }
    if movement.Cancelled? {
      return true, ShutDown, next;
    }
    var kind := movement.value;
    var speed;
    speed, next := GetSpeedPercent(lines, next, parse);
    if speed.EndOfInput? {
      return true, InputEnded, next;
    }
    if speed.Cancelled? {
      return true, ShutDown, next;
    }
    var escaped := false;
    if kind.Forward? || kind.Backward? {
      var distance;
      distance, next := GetPositiveNumber(lines, next, parse);
      if distance.EndOfInput? {
        return true, InputEnded, next;
      }
      if distance.Cancelled? {
        return true, ShutDown, next;
      }
      if kind.Forward? {
        escaped := MoveForward(robot, speed.value, distance.value, outcome);
      } else {
        escaped := MoveBackward(robot, speed.value, distance.value, outcome);
      }
    } else if kind.Rotate? {
      var angle;
      angle, next := GetPositiveNumber(lines, next, parse);
      if angle.EndOfInput? {
        return true, InputEnded, next;
      }
      if angle.Cancelled? {
        return true, ShutDown, next;
      }
      escaped := RotateInPlace(robot, speed.value, angle.value, outcome);
    }
    leave, ending := escaped, Aborted;
  }

  /** A proof step of RunController's loop: regrouping a concatenation. */
  lemma AppendAssociates<T>(a: seq<T>, b: seq<T>, c: seq<T>)
    ensures a + (b + c) == (a + b) + c
  {
  }

  /** `main` after the drive controller is set up: the loop, then the
      shutdown stop once a prompt is cancelled. */
  method RunController(robot: Robot, lines: seq<string>, parse: string -> Option<real>,
                       outcomes: nat -> CommandOutcome) returns (ending: Ending, next: nat)
    modifies robot
    ensures var s := Session(lines, 0, parse, outcomes, 0, AskMovement);
      robot.trace == old(robot.trace) + s.events && ending == s.ending && next == s.next
  {
    ghost var whole := Session(lines, 0, parse, outcomes, 0, AskMovement);
    var moves: nat := 0;
    next := 0;
    while true
      invariant next <= |lines|
      invariant var rest := Session(lines, next, parse, outcomes, moves, AskMovement);
        && old(robot.trace) + whole.events == robot.trace + rest.events
        && whole.ending == rest.ending
        && whole.next == rest.next
      decreases |lines| - next
    {
      ghost var trace0, pass := robot.trace, Iteration(lines, next, parse, outcomes(moves));
      SessionUnrolls(lines, next, parse, outcomes, moves, AskMovement);
      var leave, passEnding;
      leave, passEnding, next := MainPass(robot, lines, next, parse, outcomes(moves));
      if leave {
        if passEnding == ShutDown {
          break;
        }
        return passEnding, next;
      }
      AppendAssociates(trace0, pass.events, Session(lines, next, parse, outcomes, moves + 1, AskMovement).events);
      moves := moves + 1;
    }
    robot.Stop();
    ending := ShutDown;
  }
}
