# Pi-top precision movement controller, modelled in Dafny

`movement_sequence_builder.py` is a text-driven controller for a pi-top
robot. It prompts for a movement type, a speed and a distance or angle. It
converts inches to meters, degrees to radians and a speed percentage to a
speed factor. It issues one drive command per movement, always followed by a
stop. On the first cancelled prompt it leaves its loop and stops the drive
once more. This project models that file and proves what it guarantees.

The model has four modules, one per part of the program:

- `Units` (`units.dfy`): the three conversion helpers, as functions on exact
  reals.
- `Prompts` (`prompts.dfy`): the three input prompts.
  - The operator's input is a finite sequence of lines read through a cursor.
  - Each prompt is a method, specified by the function `FirstDecision`.
  - `FirstDecision` returns the decision on the first line the prompt does not
    reject, together with the cursor after it.
  - `strip()` and `lower()` are modelled as far as the prompts' comparisons
    need.
- `Drive` (`drive.dfy`): the three movement helpers.
  - The drive controller is a class `Robot` whose `trace` records every call
    made to it.
  - How the drive command ends is a parameter: it returns, raises an
    `Exception` (which the helper catches), or raises a `BaseException` such
    as `KeyboardInterrupt` (which leaves the helper once its `finally` has
    run).
- `Controller` (`controller.dfy`): the loop of `main`.
  - The method `RunController` changes the robot's trace.
  - It is proved against the function `Session`, which follows the loop
    prompt by prompt.
  - The lemmas about `Session` state what the loop guarantees.
  - `Session` is also proved equal to running the loop body `Iteration` pass
    after pass, and that loop body is what `MainPass` implements.

The environment is passed in as parameters:
- the lines typed;
- `parse`, the result of `float()` on a string (`None` where it raises
  `ValueError`);
- `outcomes(k)`, how the k-th drive command ends.

## Model

| member | source | states |
|---|---|---|
| Units.InchesToMeters | movement_sequence_builder.py:18-28 | the distance in meters is positive exactly when the distance in inches is, and zero exactly when it is |
| Units.DegreesToRadians | movement_sequence_builder.py:31-41 | the angle in radians is positive exactly when the angle in degrees is, and zero exactly when it is |
| Units.PercentToSpeedFactor | movement_sequence_builder.py:44-56 | the factor is in [0, 1] for every input; it is 0 below 0 %, 1 above 100 %, and percent / 100 in between |
| Units.ConversionsAreLinear | movement_sequence_builder.py:18-41 | both conversions preserve sums and scalar multiples |
| Units.ConversionsStrictlyIncrease | movement_sequence_builder.py:18-41 | both conversions are strictly increasing |
| Units.ConversionExamples | movement_sequence_builder.py:18-41 | 12 in is 0.3048 m, 0 in is 0 m, 180 degrees is pi and 90 degrees is pi / 2 |
| Units.SpeedFactorMonotone | movement_sequence_builder.py:54-56 | the speed factor never decreases as the percentage grows |
| Prompts.TrimStartMeaning | movement_sequence_builder.py:75 | stripping the front removes exactly a prefix of whitespace and leaves no whitespace at the front |
| Prompts.TrimEndMeaning | movement_sequence_builder.py:75 | stripping the back removes exactly a suffix of whitespace and leaves no whitespace at the back |
| Prompts.StripMeaning | movement_sequence_builder.py:75 | `strip()` returns a slice of the line with only whitespace around it and none at either end |
| Prompts.LowerMatchesWord | movement_sequence_builder.py:123 | `lower()` turns a line into a lower-case ASCII word exactly when the line spells that word letter by letter, each letter in either case |
| Prompts.LowerExamples | movement_sequence_builder.py:120-123 | the valid words are lower-case ASCII; "EXIT", "Exit", "Forward" and "ROTATE" lower-case to the words the prompts accept, and "exit!" does not |
| Prompts.DecidePositiveMeaning | movement_sequence_builder.py:75-87 | a line cancels the distance/angle prompt exactly when it reads "exit", and it is accepted exactly when `float()` reads a number > 0 from it, with that number as the value |
| Prompts.DecideSpeedMeaning | movement_sequence_builder.py:99-110 | a line cancels the speed prompt exactly when it reads "exit", and it is accepted exactly when `float()` reads a number in [0, 100] from it |
| Prompts.DecideMovementMeaning | movement_sequence_builder.py:120-128 | a line cancels exactly when it reads "exit"; it is rejected exactly when it is none of the valid words; an accepted movement's word is the line, stripped and lower-cased |
| Prompts.FirstDecision | movement_sequence_builder.py:73-87 | the cursor never moves back or past the input; the input ends only with every line read; any other reply reads at least one line |
| Prompts.FirstDecisionIsFirst | movement_sequence_builder.py:73-87 | every line before the deciding one was rejected, and the reply is the deciding line's verdict |
| Prompts.QuitStopsPrompt | movement_sequence_builder.py:73-79 | a prompt never reads past a line it quits on, and when it reaches that line it returns `None` |
| Prompts.FirstDecisionIgnoresLaterLines | movement_sequence_builder.py:73-87 | once a prompt has decided, lines after the input given do not change its reply |
| Prompts.AcceptFirst | movement_sequence_builder.py:73-87 | the read-and-retry loop returns exactly `FirstDecision` |
| Prompts.PositivePromptMeaning | movement_sequence_builder.py:73-87 | an accepted distance or angle is > 0 and is the number read from the last line read; a cancellation comes from a line reading "exit" |
| Prompts.PositivePromptRejects | movement_sequence_builder.py:81-87 | the lines skipped are exactly non-"exit" lines that are not numbers > 0; the input runs out exactly when every remaining line is such a line |
| Prompts.SpeedPromptMeaning | movement_sequence_builder.py:97-110 | an accepted speed is in [0, 100] and is the number read from the last line read; a cancellation comes from a line reading "exit" |
| Prompts.SpeedPromptRejects | movement_sequence_builder.py:104-110 | the lines skipped are exactly non-"exit" lines that are not numbers in [0, 100]; the input runs out exactly when every remaining line is such a line |
| Prompts.MovementPromptMeaning | movement_sequence_builder.py:122-126 | an accepted movement is the one whose word the last line read spells; a cancellation comes from a line reading "exit" |
| Prompts.MovementPromptRejects | movement_sequence_builder.py:122-128 | the lines skipped are exactly those that are none of "forward", "backward", "rotate", "exit"; the input runs out exactly when every remaining line is such a line |
| Prompts.GetPositiveNumber | movement_sequence_builder.py:59-87 | returns a number > 0 read from the line it stopped at, or `None` on "exit", having skipped only lines it rejects |
| Prompts.GetSpeedPercent | movement_sequence_builder.py:90-110 | returns a number in [0, 100] read from the line it stopped at, or `None` on "exit", having skipped only lines it rejects |
| Prompts.GetMovementType | movement_sequence_builder.py:113-128 | returns only forward, backward or rotate, spelled by the line it stopped at, or `None` on "exit", having skipped only invalid words |
| Drive.Robot.Forward | movement_sequence_builder.py:146 | the drive records one forward command with its speed factor and distance |
| Drive.Robot.Backward | movement_sequence_builder.py:170 | the drive records one backward command with its speed factor and distance |
| Drive.Robot.Rotate | movement_sequence_builder.py:194 | the drive records one rotation with its angle and maximum speed factor |
| Drive.Robot.Stop | movement_sequence_builder.py:152 | the drive records one stop |
| Drive.Robot.Sleep | movement_sequence_builder.py:148 | the pause is recorded with its duration |
| Drive.MoveEventsShape | movement_sequence_builder.py:145-152 | one movement makes exactly one command, first, and exactly one stop, last; the pause appears exactly when the command returned; the calls form a whole movement; a safe command gives only safe calls |
| Drive.Dispatch | movement_sequence_builder.py:145-152 | the calls are the command, the pause only if it returned, then the stop, whatever the outcome; an exception escapes exactly when the command was interrupted |
| Drive.CommandsAreSafe | movement_sequence_builder.py:140-141 | for a positive distance or angle, every helper's command has a speed factor in [0, 1] and a positive distance or angle, whatever the speed typed |
| Drive.MoveForward | movement_sequence_builder.py:131-152 | the calls are `forward(factor, meters)` with the converted values, the pause on success, then the stop |
| Drive.MoveBackward | movement_sequence_builder.py:155-176 | the calls are `backward(factor, meters)` with the converted values, the pause on success, then the stop |
| Drive.RotateInPlace | movement_sequence_builder.py:179-200 | the calls are `rotate(radians, max_speed_factor=factor)` with the converted values, the pause on success, then the stop |
| Controller.Iteration | movement_sequence_builder.py:228-254 | one pass of the loop never moves the cursor back; a pass that does not end on the end of the input reads at least one line |
| Controller.Prompting | movement_sequence_builder.py:228-254 | the same for the rest of a pass from any of its three prompts |
| Controller.Session | movement_sequence_builder.py:227-259 | the loop never moves the cursor back or past the input |
| Controller.FromMovementPrompt | movement_sequence_builder.py:229-231 | the same, from the movement-type prompt |
| Controller.FromSpeedPrompt | movement_sequence_builder.py:234-236 | the same, from the speed prompt |
| Controller.FromSizePrompt | movement_sequence_builder.py:239-254 | the same, from the distance or angle prompt |
| Controller.SessionUnrolls | movement_sequence_builder.py:227-255 | the loop is its passes one after another: what one pass does, then the shutdown stop or the next passes |
| Controller.SessionIsBracketed | movement_sequence_builder.py:227-259 | the calls the loop makes are whole movements, each command with its own stop, plus the shutdown stop exactly when a prompt was cancelled |
| Controller.SessionStopsEveryCommand | movement_sequence_builder.py:227-259 | the drive is never left moving: every command is followed by a stop, at once or after the pause, and the last call is a stop; there is one stop per command, plus one at shutdown |
| Controller.SessionIsSafe | movement_sequence_builder.py:239-254 | every call the loop makes has a speed factor in [0, 1] and a positive distance or angle, whatever was typed |
| Controller.SessionShutsDownOnExit | movement_sequence_builder.py:229-242 | the loop shuts down only on a line reading "exit", the last line it read |
| Controller.SessionEndsOnExit | movement_sequence_builder.py:227-242 | as the banner announces ("exit" at any time quits), "exit" typed at any prompt ends the loop: a line reading "exit" is never read past, and once it is read the loop shuts down right after it |
| Controller.SessionInputEnded | movement_sequence_builder.py:227-255 | the loop ends on the end of the input only after reading every line |
| Controller.SessionReadsPerMovement | movement_sequence_builder.py:227-254 | every movement reads at least one line at each of its three prompts, and only a movement can abort the loop |
| Controller.SessionRunsUntilInterrupted | movement_sequence_builder.py:227-254 | the loop goes on after every command that returned or raised an `Exception`, and stops right after the first one that was interrupted |
| Controller.SessionCountsCommands | movement_sequence_builder.py:227-254 | the number of commands sent to the drive is the number of movements run |
| Controller.SessionIgnoresLaterLines | movement_sequence_builder.py:227-255 | unless the input ran out, the loop never reads past the line where it stopped |
| Controller.ExitAtOnce | movement_sequence_builder.py:229-231 | "exit" at the first prompt makes the shutdown stop the only call to the drive |
| Controller.MainPass | movement_sequence_builder.py:228-254 | one pass of the loop body makes the calls of `Iteration` and reports whether the loop is left and how |
| Controller.RunController | movement_sequence_builder.py:226-259 | the drive receives exactly the calls of `Session` from the first line on, ending the same way |

## Left out

- The `pitop.robotics.DriveController` hardware is not part of this model.
  - The drive is a recorder of the calls made to it.
  - Whether a move reached its distance is not modelled.
  - Nothing is modelled of `drive.stop()` itself raising.
- Setting up the drive controller, and its failure path (lines 218-224), are
  left out. `RunController` starts from a drive that was set up.
- `print()` output (the banner, the warnings and the progress messages) is
  left out. It does not change what the program does.
- `input()` is a sequence of lines.
  - When the lines run out, `EOFError` leaves `main` through the open prompt.
    No prompt catches it, and there is then no shutdown stop (ending
    `InputEnded`).
  - A `KeyboardInterrupt` typed at a prompt is not modelled.
- `float()` is the parameter `parse`.
  - NaN, infinities and IEEE rounding are not modelled.
  - The conversions are exact real arithmetic.
- `time.sleep(0.5)` is recorded as a `Pause` event rather than waited.
- An exception raised during the pause is not modelled. Only the drive command
  has an outcome.
- `Prompts.Lower` maps only the characters whose lower-case form is an ASCII
  letter: A-Z and the Kelvin sign. Every other character is kept.
  - So it agrees with `str.lower()` on whether the result equals "exit",
    "forward", "backward" or "rotate". It does not agree on the rest of the
    result.
  - U+0130 lower-cases in Python to two characters. Neither version can then
    be an ASCII word.
- The movement type is an enumeration of three values, so the case where
  `main` receives none of them cannot occur. In the source that case falls
  through both tests at lines 239 and 249.
- Controller.SessionStopsEveryCommand: the shutdown stop is there only when a
  prompt was cancelled. This is weaker than "`drive.stop()` is always issued
  at shutdown", because the source does not promise more.
  - An `EOFError` at a prompt leaves `main` before line 259.
  - So does a `BaseException` from a drive command.
  - In both cases the last call is still a stop: the one from the helper's
    `finally`, or none at all when no command was issued.
