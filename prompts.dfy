/** The three input prompts of the controller. Each reads one line at a time
    until it can accept one. The operator's input is a finite sequence of
    lines read from a cursor; a prompt reports the value it accepted, a
    cancellation ("exit"), or that the input ended before either, together
    with the cursor just after the last line it read. */
module Prompts {

  /** The result of Python's float() on a string: a number, or None where it
      raises ValueError. */
  datatype Option<T> = None | Some(value: T)

  /** What a prompt makes of one line. */
  datatype Decision<T> = Take(value: T) | Quit | Retry

  /** What a prompt returns: a value, None on "exit", or the end of the input
      (Python's input() raises EOFError, which no prompt catches). */
  datatype Reply<T> = Accepted(value: T) | Cancelled | EndOfInput

  /** A prompt's reply and the position in the input just after the last
      line it read. */
  datatype Prompted<T> = Prompted(reply: Reply<T>, next: nat)

  // ---------------------------------------------------------------------------
  // Python's str.strip() and str.lower()
  // ---------------------------------------------------------------------------

  /** The characters for which Python's str.isspace() holds. */
  predicate IsSpace(c: char)
  {
    c in {'\t', '\n', '\U{0B}', '\U{0C}', '\r', '\U{1C}', '\U{1D}', '\U{1E}', '\U{1F}', ' ',
          '\U{85}', '\U{A0}', '\U{1680}', '\U{2000}', '\U{2001}', '\U{2002}', '\U{2003}',
          '\U{2004}', '\U{2005}', '\U{2006}', '\U{2007}', '\U{2008}', '\U{2009}', '\U{200A}',
          '\U{2028}', '\U{2029}', '\U{202F}', '\U{205F}', '\U{3000}'}
  }

  /** s without its leading whitespace. */
  function TrimStart(s: string): string
  {
    if s != [] && IsSpace(s[0]) then TrimStart(s[1..]) else s
  }

  /** s without its trailing whitespace. */
  function TrimEnd(s: string): string
  {
    if s != [] && IsSpace(s[|s| - 1]) then TrimEnd(s[..|s| - 1]) else s
  }

  /** Python's str.strip() with no argument. */
  function Strip(s: string): string
  {
    TrimEnd(TrimStart(s))
  }

  lemma {:induction false} TrimStartMeaning(s: string)
    ensures var r := TrimStart(s);
      && |r| <= |s| && r == s[|s| - |r|..]
      && (forall k :: 0 <= k < |s| - |r| ==> IsSpace(s[k]))
      && (r == [] || !IsSpace(r[0]))
  {
    if s != [] && IsSpace(s[0]) {
      var t := s[1..];
      TrimStartMeaning(t);
      var r := TrimStart(t);
      assert t[|t| - |r|..] == s[|s| - |r|..];
      forall k | 0 <= k < |s| - |r|
        ensures IsSpace(s[k])
      {
        if k > 0 {
          assert s[k] == t[k - 1];
        }
      }
    }
  }

  lemma {:induction false} TrimEndMeaning(s: string)
    ensures var r := TrimEnd(s);
      && |r| <= |s| && r == s[..|r|]
      && (forall k :: |r| <= k < |s| ==> IsSpace(s[k]))
      && (r == [] || !IsSpace(r[|r| - 1]))
  {
    if s != [] && IsSpace(s[|s| - 1]) {
      var t := s[..|s| - 1];
      TrimEndMeaning(t);
      var r := TrimEnd(t);
      assert t[..|r|] == s[..|r|];
      forall k | |r| <= k < |s|
        ensures IsSpace(s[k])
      {
        if k < |t| {
          assert s[k] == t[k];
        }
      }
    }
  }

  /** strip() keeps the part of the line that starts at some `i`, drops only
      whitespace around it, and leaves no whitespace at either end. */
  lemma StripMeaning(s: string) returns (i: nat)
    ensures var r := Strip(s);
      && i + |r| <= |s| && r == s[i..i + |r|]
      && (forall k :: 0 <= k < i ==> IsSpace(s[k]))
      && (forall k :: i + |r| <= k < |s| ==> IsSpace(s[k]))
      && (r == [] || (!IsSpace(r[0]) && !IsSpace(r[|r| - 1])))
  {
    var t := TrimStart(s);
    var r := TrimEnd(t);
    TrimStartMeaning(s);
    TrimEndMeaning(t);
    i := |s| - |t|;
    assert t == s[i..];
    assert r == t[..|r|];
    forall k | i + |r| <= k < |s|
      ensures IsSpace(s[k])
    {
      assert s[k] == t[k - i];
    }
    assert r == [] || r[0] == t[0];
  }

  /** The lower-case form of one character, for the characters whose Python
      lower-case form is an ASCII letter; every other character is kept. */
  function LowerChar(c: char): char
  {
    if 'A' <= c <= 'Z' then (c as int + 32) as char
    else if c == '\U{212A}' then 'k'  // KELVIN SIGN
    else c
  }

  /** Python's str.lower(), as far as it decides whether the result is a
      word written in ASCII letters. */
  function Lower(s: string): string
  {
    seq(|s|, i requires 0 <= i < |s| => LowerChar(s[i]))
  }

  /** A word written in lower-case ASCII letters, as the prompts compare against. */
  predicate IsLowerAscii(w: string)
  {
    forall k :: 0 <= k < |w| ==> 'a' <= w[k] <= 'z'
  }

  /** c is the lower-case ASCII letter l, or a character whose lower-case form is l. */
  predicate LowersTo(c: char, l: char)
  {
    c == l || c as int + 32 == l as int || (l == 'k' && c == '\U{212A}')
  }

  /** Lower-casing a line gives a lower-case ASCII word exactly when the line
      spells that word letter by letter, in either case. */
  lemma {:induction false} LowerMatchesWord(s: string, w: string)
    requires IsLowerAscii(w)
    ensures Lower(s) == w <==> |s| == |w| && forall k :: 0 <= k < |s| ==> LowersTo(s[k], w[k])
  {
    if |s| == |w| && forall k :: 0 <= k < |s| ==> LowersTo(s[k], w[k]) {
      forall k | 0 <= k < |s|
        ensures Lower(s)[k] == w[k]
      {
        assert LowersTo(s[k], w[k]);
      }
    }
  }

  /** The words the prompts compare against are lower-case ASCII, and the
      cases an operator may type them in all lower-case to the same word. */
  lemma LowerExamples()
    ensures forall w :: w in ValidTypes ==> IsLowerAscii(w)
    ensures Lower("EXIT") == "exit" && Lower("Exit") == "exit"
    ensures Lower("Forward") == "forward" && Lower("ROTATE") == "rotate"
    ensures Lower("exit!") != "exit"
  {
  }

  /** The line cancels the prompt: after strip() and lower() it reads "exit". */
  predicate IsExitCommand(line: string)
  {
    Lower(Strip(line)) == "exit"
  }

  // ---------------------------------------------------------------------------
  // The decision each prompt takes on one line
  // ---------------------------------------------------------------------------

  /** get_positive_number: "exit" cancels; a line float() cannot read, or a
      number <= 0, is rejected; any other number is accepted. */
  function DecidePositive(parse: string -> Option<real>, line: string): Decision<real>
  {
    var input := Strip(line);
    if Lower(input) == "exit" then Quit
    else match parse(input)
      case None => Retry
      case Some(value) => if value <= 0.0 then Retry else Take(value)
  }

  /** get_speed_percent: "exit" cancels; a line float() cannot read, or a
      number outside [0, 100], is rejected; any other number is accepted. */
  function DecideSpeed(parse: string -> Option<real>, line: string): Decision<real>
  {
    var input := Strip(line);
    if Lower(input) == "exit" then Quit
    else match parse(input)
      case None => Retry
      case Some(value) => if value < 0.0 || value > 100.0 then Retry else Take(value)
  }

  /** The three movement types get_movement_type returns. */
  datatype Movement = Forward | Backward | Rotate

  /** The word get_movement_type returns for each movement type. */
  function Word(m: Movement): string
  {
    match m
    case Forward => "forward"
    case Backward => "backward"
    case Rotate => "rotate"
  }

  /** The words get_movement_type accepts. */
  const ValidTypes: seq<string> := ["forward", "backward", "rotate", "exit"]

  /** get_movement_type: the stripped, lower-cased line must be one of the
      valid types; "exit" cancels, the other three are accepted. */
  function DecideMovement(line: string): Decision<Movement>
  {
    var input := Lower(Strip(line));
    if input == "forward" then Take(Forward)
    else if input == "backward" then Take(Backward)
    else if input == "rotate" then Take(Rotate)
    else if input == "exit" then Quit
    else Retry
  }

  function PositiveDecider(parse: string -> Option<real>): string -> Decision<real>
  {
    line => DecidePositive(parse, line)
  }

  function SpeedDecider(parse: string -> Option<real>): string -> Decision<real>
  {
    line => DecideSpeed(parse, line)
  }

  lemma DecidePositiveMeaning(parse: string -> Option<real>, line: string)
    ensures DecidePositive(parse, line).Quit? <==> IsExitCommand(line)
    ensures DecidePositive(parse, line).Take? <==>
      !IsExitCommand(line) && parse(Strip(line)).Some? && parse(Strip(line)).value > 0.0
    ensures DecidePositive(parse, line).Take? ==>
      DecidePositive(parse, line).value == parse(Strip(line)).value
  {
  }

  lemma DecideSpeedMeaning(parse: string -> Option<real>, line: string)
    ensures DecideSpeed(parse, line).Quit? <==> IsExitCommand(line)
    ensures DecideSpeed(parse, line).Take? <==>
      !IsExitCommand(line) && parse(Strip(line)).Some? &&
      0.0 <= parse(Strip(line)).value <= 100.0
    ensures DecideSpeed(parse, line).Take? ==>
      DecideSpeed(parse, line).value == parse(Strip(line)).value
  {
  }

  lemma DecideMovementMeaning(line: string)
    ensures DecideMovement(line).Quit? <==> IsExitCommand(line)
    ensures DecideMovement(line).Retry? <==> Lower(Strip(line)) !in ValidTypes
    ensures DecideMovement(line).Take? ==> Word(DecideMovement(line).value) == Lower(Strip(line))
  {
  }

  // ---------------------------------------------------------------------------
  // The acceptance loop
  // ---------------------------------------------------------------------------

  /** The prompt's answer when reading starts at line `at`: the first line
      that is not rejected decides, and reading stops just after it; when
      every remaining line is rejected the input ends. */
  function FirstDecision<T>(lines: seq<string>, at: nat, decide: string -> Decision<T>): (p: Prompted<T>)
    requires at <= |lines|
    ensures at <= p.next <= |lines|
    ensures p.reply.EndOfInput? ==> p.next == |lines|
    ensures !p.reply.EndOfInput? ==> p.next > at
    decreases |lines| - at
  {
    if at == |lines| then Prompted(EndOfInput, at)
    else match decide(lines[at])
      case Take(v) => Prompted(Accepted(v), at + 1)
      case Quit => Prompted(Cancelled, at + 1)
      case Retry => FirstDecision(lines, at + 1, decide)
  }

  /** FirstDecision returns the verdict of the first line not rejected, and
      every line before it was rejected; the input ends exactly when every
      remaining line is rejected. */
  lemma {:induction false} FirstDecisionIsFirst<T>(lines: seq<string>, at: nat, decide: string -> Decision<T>)
    requires at <= |lines|
    ensures var p := FirstDecision(lines, at, decide);
      && (forall i :: at <= i < p.next - 1 ==> decide(lines[i]).Retry?)
      && (p.reply.Accepted? ==> decide(lines[p.next - 1]) == Take(p.reply.value))
      && (p.reply.Cancelled? ==> decide(lines[p.next - 1]) == Quit)
      && (p.reply.EndOfInput? <==> forall i :: at <= i < |lines| ==> decide(lines[i]).Retry?)
    decreases |lines| - at
  {
    if at < |lines| && decide(lines[at]).Retry? {
      FirstDecisionIsFirst(lines, at + 1, decide);
    }
  }

  /** A line the prompt quits on is never read past: the prompt stops at or
      before it, and when it reaches it the prompt is cancelled. */
  lemma QuitStopsPrompt<T>(lines: seq<string>, at: nat, decide: string -> Decision<T>, i: nat)
    requires at <= i < |lines| && decide(lines[i]).Quit?
    ensures var p := FirstDecision(lines, at, decide);
      p.next <= i + 1 && (p.next == i + 1 ==> p.reply.Cancelled?)
  {
    FirstDecisionIsFirst(lines, at, decide);
  }

  /** Lines after the deciding one are never read: the answer stays the same
      whatever follows in the input. */
  lemma {:induction false} FirstDecisionIgnoresLaterLines<T>(lines: seq<string>, extra: seq<string>, at: nat,
                                                             decide: string -> Decision<T>)
    requires at <= |lines|
    requires !FirstDecision(lines, at, decide).reply.EndOfInput?
    ensures FirstDecision(lines + extra, at, decide) == FirstDecision(lines, at, decide)
    decreases |lines| - at
  {
    assert (lines + extra)[at] == lines[at];
    if decide(lines[at]).Retry? {
      FirstDecisionIgnoresLaterLines(lines, extra, at + 1, decide);
    }
  }

  /** The loop shared by the three prompts: read a line, decide, repeat while
      the line is rejected. */
  method AcceptFirst<T>(lines: seq<string>, at: nat, decide: string -> Decision<T>) returns (reply: Reply<T>, next: nat)
    requires at <= |lines|
    ensures Prompted(reply, next) == FirstDecision(lines, at, decide)
  {
    next := at;
    while true
      invariant at <= next <= |lines|
      invariant FirstDecision(lines, at, decide) == FirstDecision(lines, next, decide)
      decreases |lines| - next
    {
      if next == |lines| {
        return EndOfInput, next;
      }
      var line := lines[next];
      next := next + 1;
      match decide(line)
      case Take(v) => return Accepted(v), next;
      case Quit => return Cancelled, next;
      case Retry =>
    }
  }

  /** What get_positive_number's answer means: a number > 0 read from the
      last line it read, or a cancellation by a line reading "exit". */
  lemma PositivePromptMeaning(lines: seq<string>, at: nat, parse: string -> Option<real>)
    requires at <= |lines|
    ensures var p := FirstDecision(lines, at, PositiveDecider(parse));
      && (p.reply.Accepted? ==>
            p.reply.value > 0.0 && parse(Strip(lines[p.next - 1])) == Some(p.reply.value))
      && (p.reply.Cancelled? ==> IsExitCommand(lines[p.next - 1]))
  {
    var p := FirstDecision(lines, at, PositiveDecider(parse));
    FirstDecisionIsFirst(lines, at, PositiveDecider(parse));
    if !p.reply.EndOfInput? {
      DecidePositiveMeaning(parse, lines[p.next - 1]);
    }
  }

  /** A line get_positive_number rejects: not "exit", and not a number > 0. */
  predicate RejectedAsPositive(parse: string -> Option<real>, line: string)
  {
    !IsExitCommand(line) && (parse(Strip(line)).None? || parse(Strip(line)).value <= 0.0)
  }

  /** get_positive_number reads past exactly the lines it rejects, and the
      input runs out exactly when every remaining line is rejected. */
  lemma PositivePromptRejects(lines: seq<string>, at: nat, parse: string -> Option<real>)
    requires at <= |lines|
    ensures var p := FirstDecision(lines, at, PositiveDecider(parse));
      && (forall i :: at <= i < p.next - 1 ==> RejectedAsPositive(parse, lines[i]))
      && (p.reply.EndOfInput? <==> forall i :: at <= i < |lines| ==> RejectedAsPositive(parse, lines[i]))
  {
    FirstDecisionIsFirst(lines, at, PositiveDecider(parse));
    forall i | at <= i < |lines|
      ensures DecidePositive(parse, lines[i]).Retry? <==> RejectedAsPositive(parse, lines[i])
    {
      DecidePositiveMeaning(parse, lines[i]);
    }
  }

  /** What get_speed_percent's answer means: a number in [0, 100] read from
      the last line it read, or a cancellation by a line reading "exit". */
  lemma SpeedPromptMeaning(lines: seq<string>, at: nat, parse: string -> Option<real>)
    requires at <= |lines|
    ensures var p := FirstDecision(lines, at, SpeedDecider(parse));
      && (p.reply.Accepted? ==>
            0.0 <= p.reply.value <= 100.0 && parse(Strip(lines[p.next - 1])) == Some(p.reply.value))
      && (p.reply.Cancelled? ==> IsExitCommand(lines[p.next - 1]))
  {
    var p := FirstDecision(lines, at, SpeedDecider(parse));
    FirstDecisionIsFirst(lines, at, SpeedDecider(parse));
    if !p.reply.EndOfInput? {
      DecideSpeedMeaning(parse, lines[p.next - 1]);
    }
  }

  /** A line get_speed_percent rejects: not "exit", and not a number in [0, 100]. */
  predicate RejectedAsSpeed(parse: string -> Option<real>, line: string)
  {
    && !IsExitCommand(line)
    && (parse(Strip(line)).None? || parse(Strip(line)).value < 0.0 || parse(Strip(line)).value > 100.0)
  }

  /** get_speed_percent reads past exactly the lines it rejects, and the input
      runs out exactly when every remaining line is rejected. */
  lemma SpeedPromptRejects(lines: seq<string>, at: nat, parse: string -> Option<real>)
    requires at <= |lines|
    ensures var p := FirstDecision(lines, at, SpeedDecider(parse));
      && (forall i :: at <= i < p.next - 1 ==> RejectedAsSpeed(parse, lines[i]))
      && (p.reply.EndOfInput? <==> forall i :: at <= i < |lines| ==> RejectedAsSpeed(parse, lines[i]))
  {
    FirstDecisionIsFirst(lines, at, SpeedDecider(parse));
    forall i | at <= i < |lines|
      ensures DecideSpeed(parse, lines[i]).Retry? <==> RejectedAsSpeed(parse, lines[i])
    {
      DecideSpeedMeaning(parse, lines[i]);
    }
  }

  /** What get_movement_type's answer means: the movement whose word the last
      line it read spells, or a cancellation by a line reading "exit". */
  lemma MovementPromptMeaning(lines: seq<string>, at: nat)
    requires at <= |lines|
    ensures var p := FirstDecision(lines, at, DecideMovement);
      && (p.reply.Accepted? ==> Word(p.reply.value) == Lower(Strip(lines[p.next - 1])))
      && (p.reply.Cancelled? ==> IsExitCommand(lines[p.next - 1]))
  {
    var p := FirstDecision(lines, at, DecideMovement);
    FirstDecisionIsFirst(lines, at, DecideMovement);
    if !p.reply.EndOfInput? {
      DecideMovementMeaning(lines[p.next - 1]);
    }
  }

  /** get_movement_type reads past exactly the lines that are none of the
      valid words, and the input runs out exactly when every remaining line
      is such a line. */
  lemma MovementPromptRejects(lines: seq<string>, at: nat)
    requires at <= |lines|
    ensures var p := FirstDecision(lines, at, DecideMovement);
      && (forall i :: at <= i < p.next - 1 ==> Lower(Strip(lines[i])) !in ValidTypes)
      && (p.reply.EndOfInput? <==> forall i :: at <= i < |lines| ==> Lower(Strip(lines[i])) !in ValidTypes)
  {
    FirstDecisionIsFirst(lines, at, DecideMovement);
    forall i | at <= i < |lines|
      ensures DecideMovement(lines[i]).Retry? <==> Lower(Strip(lines[i])) !in ValidTypes
    {
      DecideMovementMeaning(lines[i]);
    }
  }

  /** get_positive_number: None exactly on a line reading "exit" before any
      acceptable number; otherwise a number > 0. */
  method GetPositiveNumber(lines: seq<string>, at: nat, parse: string -> Option<real>) returns (reply: Reply<real>, next: nat)
    requires at <= |lines|
    ensures Prompted(reply, next) == FirstDecision(lines, at, PositiveDecider(parse))
    ensures at <= next <= |lines|
    ensures reply.Accepted? ==> reply.value > 0.0 && parse(Strip(lines[next - 1])) == Some(reply.value)
    ensures reply.Cancelled? ==> IsExitCommand(lines[next - 1])
    ensures forall i :: at <= i < next - 1 ==> RejectedAsPositive(parse, lines[i])
  {
    reply, next := AcceptFirst(lines, at, PositiveDecider(parse));
    PositivePromptMeaning(lines, at, parse);
    PositivePromptRejects(lines, at, parse);
  }

  /** get_speed_percent: None exactly on a line reading "exit" before any
      acceptable number; otherwise a number in [0, 100]. */
  method GetSpeedPercent(lines: seq<string>, at: nat, parse: string -> Option<real>) returns (reply: Reply<real>, next: nat)
    requires at <= |lines|
    ensures Prompted(reply, next) == FirstDecision(lines, at, SpeedDecider(parse))
    ensures at <= next <= |lines|
    ensures reply.Accepted? ==>
      0.0 <= reply.value <= 100.0 && parse(Strip(lines[next - 1])) == Some(reply.value)
    ensures reply.Cancelled? ==> IsExitCommand(lines[next - 1])
    ensures forall i :: at <= i < next - 1 ==> RejectedAsSpeed(parse, lines[i])
  {
    reply, next := AcceptFirst(lines, at, SpeedDecider(parse));
    SpeedPromptMeaning(lines, at, parse);
    SpeedPromptRejects(lines, at, parse);
  }

  /** get_movement_type: only "forward", "backward" or "rotate", or None on
      "exit"; every other line is rejected. */
  method GetMovementType(lines: seq<string>, at: nat) returns (reply: Reply<Movement>, next: nat)
    requires at <= |lines|
    ensures Prompted(reply, next) == FirstDecision(lines, at, DecideMovement)
    ensures at <= next <= |lines|
    ensures reply.Accepted? ==> Word(reply.value) == Lower(Strip(lines[next - 1]))
    ensures reply.Cancelled? ==> IsExitCommand(lines[next - 1])
    ensures forall i :: at <= i < next - 1 ==> Lower(Strip(lines[i])) !in ValidTypes
  {
    reply, next := AcceptFirst(lines, at, DecideMovement);
    MovementPromptMeaning(lines, at);
    MovementPromptRejects(lines, at);
  }
}
