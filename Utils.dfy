/**
 * The Bix input reader: every prompt for user input goes through it, and each
 * prompt is meant first to (re)schedule the idle-session termination task, so
 * that a user who gives no input for the configured idle timeout has the
 * session terminated with the IDLE_SESSION_TIMEOUT outcome. Class Reader
 * models that intent; the code as written is modelled at the end.
 *
 * Time is a clock in milliseconds. The user's input is the sequence of lines
 * still to be typed, each with the time at which it reaches the program; an
 * empty sequence is a user who never types again. The static state of the
 * Java class becomes the fields of class Reader.
 */
module Utils {
  import opened Enums
  import opened JavaString

  function Min(a: int, b: int): int { if a <= b then a else b }
  function Max(a: int, b: int): int { if a >= b then a else b }

  // ---------------------------------------------------------------------
  // Idle timeout bound

  /** The bound setIdleTimeoutDuration applies: min(upper, max(lower, n)). */
  function Clamp(lower: int, upper: int, n: int): (r: int)
    requires lower <= upper
    ensures lower <= r <= upper
    ensures lower <= n <= upper ==> r == n
    ensures n < lower ==> r == lower
    ensures n > upper ==> r == upper
  {
    Min(upper, Max(lower, n))
  }

  /** Clamping a clamped value changes nothing. */
  lemma ClampIdempotent(lower: int, upper: int, n: int)
    requires lower <= upper
    ensures Clamp(lower, upper, Clamp(lower, upper, n)) == Clamp(lower, upper, n)
  {
  }

  /** A larger request never yields a shorter timeout. */
  lemma ClampMonotonic(lower: int, upper: int, n: int, m: int)
    requires lower <= upper && n <= m
    ensures Clamp(lower, upper, n) <= Clamp(lower, upper, m)
  {
  }

  // ---------------------------------------------------------------------
  // Decisions on one line of input

  /** A trimmed line that reads "Y" or "YES" in any letter case. */
  predicate IsYesWord(t: string)
  {
    && (|t| == 1 || |t| == 3)
    && (t[0] == 'y' || t[0] == 'Y')
    && (|t| == 3 ==> (t[1] == 'e' || t[1] == 'E') && (t[2] == 's' || t[2] == 'S'))
  }

  /** A trimmed line that reads "N" or "NO" in any letter case. */
  predicate IsNoWord(t: string)
  {
    && (|t| == 1 || |t| == 2)
    && (t[0] == 'n' || t[0] == 'N')
    && (|t| == 2 ==> t[1] == 'o' || t[1] == 'O')
  }

  /** The decision getConfirmation takes on one line: the line is trimmed and
      upper-cased; Y or YES is yes, N or NO is no, an empty line is the default
      answer, and anything else is invalid (None), which re-prompts. */
  function ConfirmDecision(line: string, defaultNo: bool): (r: Option<bool>)
    ensures Trim(line) == [] ==> r == Some(!defaultNo)
    ensures Trim(line) != [] ==> (r == Some(true) <==> IsYesWord(Trim(line)))
    ensures Trim(line) != [] ==> (r == Some(false) <==> IsNoWord(Trim(line)))
    ensures Trim(line) != [] ==> (r == None <==> !IsYesWord(Trim(line)) && !IsNoWord(Trim(line)))
  {
    var t := Trim(line);
    var choice := UpperAscii(t);
    UpperWords(t);
    if choice == "Y" || choice == "YES" then Some(true)
    else if choice == "N" || choice == "NO" then Some(false)
    else if choice == [] then Some(!defaultNo)
    else None
  }

  /** Which lines upper-case to the four words of the decision rule. */
  lemma UpperWords(t: string)
    ensures UpperAscii(t) == "Y" || UpperAscii(t) == "YES" <==> IsYesWord(t)
    ensures UpperAscii(t) == "N" || UpperAscii(t) == "NO" <==> IsNoWord(t)
    ensures UpperAscii(t) == [] <==> t == []
  {
    var u := UpperAscii(t);
    if |t| == 1 {
      assert u == [u[0]];
    } else if |t| == 2 {
      assert u == [u[0], u[1]];
    } else if |t| == 3 {
      assert u == [u[0], u[1], u[2]];
    }
  }

  /** An explicit answer does not depend on the default. */
  lemma ExplicitAnswerIgnoresDefault(line: string)
    requires Trim(line) != []
    ensures ConfirmDecision(line, true) == ConfirmDecision(line, false)
  {
  }

  /** Blank padding around the answer does not change the decision. */
  lemma ConfirmIgnoresPadding(p: string, line: string, q: string, defaultNo: bool)
    requires AllBlank(p) && AllBlank(q)
    ensures ConfirmDecision(p + line + q, defaultNo) == ConfirmDecision(line, defaultNo)
  {
    TrimIgnoresPadding(p, line, q);
  }

  /** The answer is read without regard to (ASCII) letter case. */
  lemma ConfirmIgnoresCase(line: string, defaultNo: bool)
    ensures ConfirmDecision(UpperAscii(line), defaultNo) == ConfirmDecision(line, defaultNo)
  {
    TrimUpperCommute(line);
    UpperIdempotent(Trim(line));
  }

  /** Lines that answer yes. */
  lemma ConfirmYesExamples(defaultNo: bool)
    ensures ConfirmDecision("y", defaultNo) == Some(true)
    ensures ConfirmDecision("Yes", defaultNo) == Some(true)
  {
    assert Trim("y") == "y" by { TrimIs("y", 0, 1); }
    assert UpperAscii("y") == "Y";
    assert Trim("Yes") == "Yes" by { TrimIs("Yes", 0, 3); }
    assert UpperAscii("Yes") == "YES";
  }

  /** Lines that answer no. */
  lemma ConfirmNoExamples(defaultNo: bool)
    ensures ConfirmDecision("no", defaultNo) == Some(false)
    ensures ConfirmDecision("N", defaultNo) == Some(false)
  {
    assert Trim("no") == "no" by { TrimIs("no", 0, 2); }
    assert UpperAscii("no") == "NO";
    assert Trim("N") == "N" by { TrimIs("N", 0, 1); }
    assert UpperAscii("N") == "N";
  }

  /** Blank lines take the default; other words are invalid. */
  lemma ConfirmDefaultAndInvalidExamples(defaultNo: bool)
    ensures ConfirmDecision("   ", defaultNo) == Some(!defaultNo)
    ensures ConfirmDecision("yess", defaultNo) == None
  {
    assert AllBlank("   ");
    assert Trim("yess") == "yess" by { TrimIs("yess", 0, 4); }
    assert UpperAscii("yess") == "YESS";
  }

  /** The character readChar returns: the first character of the trimmed
      line, or None where charAt(0) of the empty string would throw. */
  function FirstChar(line: string): (r: Option<char>)
    ensures r.None? <==> AllBlank(line)
    ensures r.Some? ==> !IsBlank(r.value)
    ensures r.Some? ==> exists k :: 0 <= k < |line| && line[k] == r.value && AllBlank(line[..k])
  {
    var t := Trim(line);
    if t == [] then None else Some(t[0])
  }

  // ---------------------------------------------------------------------
  // One prompted read, and the confirmation loop

  /** A line the user types and the time (ms) at which it reaches the program. */
  datatype InputLine = InputLine(arrival: int, text: string)

  /** What one blocking read sees: the text of the line (None when the
      termination task ran first), the lines left, and the time afterwards. */
  datatype ReadStep = ReadStep(line: Option<string>, rest: seq<InputLine>, clock: int)

  /** A read that starts at `now` while the termination task is due at `due`:
      the next line is returned when it is available before `due`; otherwise
      the task runs at `due` (on a tie the task wins). */
  function PromptedRead(lines: seq<InputLine>, now: int, due: int): (step: ReadStep)
    ensures step.line.Some? ==>
              lines != [] && step.line.value == lines[0].text && step.rest == lines[1..]
              && step.clock == Max(now, lines[0].arrival) && now <= step.clock < due
    ensures step.line.None? ==>
              step.rest == lines && step.clock == due
              && (lines == [] || Max(now, lines[0].arrival) >= due)
  {
    if lines != [] && Max(now, lines[0].arrival) < due then
      ReadStep(Some(lines[0].text), lines[1..], Max(now, lines[0].arrival))
    else
      ReadStep(None, lines, due)
  }

  /** Where getConfirmation's prompt loop ends: the answer (None when the
      session was terminated while waiting), how many lines it read, when it
      last prompted, and the time at the end. */
  datatype LoopEnd = LoopEnd(answer: Option<bool>, consumed: nat, lastPrompt: int, clock: int)

  /** getConfirmation's loop, first prompting at `now` with a timeout of `ms`
      milliseconds per prompt: invalid lines re-prompt. */
  function ConfirmLoop(lines: seq<InputLine>, now: int, ms: int, defaultNo: bool): (e: LoopEnd)
    ensures e.consumed <= |lines|
    ensures now <= e.lastPrompt
    decreases |lines|
  {
    var step := PromptedRead(lines, now, now + ms);
    match step.line
    case None => LoopEnd(None, 0, now, step.clock)
    case Some(text) =>
      match ConfirmDecision(text, defaultNo)
      case Some(b) => LoopEnd(Some(b), 1, now, step.clock)
      case None =>
        var e := ConfirmLoop(step.rest, step.clock, ms, defaultNo);
        e.(consumed := e.consumed + 1)
  }

  /** The loop answers with the decision on the last line it read, and every
      line before that was invalid (and re-prompted). */
  lemma {:induction false} ConfirmLoopAnswer(lines: seq<InputLine>, now: int, ms: int, defaultNo: bool)
    ensures var e := ConfirmLoop(lines, now, ms, defaultNo);
            e.answer.Some? ==> 1 <= e.consumed && ConfirmDecision(lines[e.consumed - 1].text, defaultNo) == e.answer
    ensures var e := ConfirmLoop(lines, now, ms, defaultNo);
            forall k :: 0 <= k < e.consumed && (e.answer.None? || k < e.consumed - 1) ==>
              ConfirmDecision(lines[k].text, defaultNo) == None
    decreases |lines|
  {
    var step := PromptedRead(lines, now, now + ms);
    if step.line.Some? && ConfirmDecision(step.line.value, defaultNo).None? {
      ConfirmLoopAnswer(step.rest, step.clock, ms, defaultNo);
      var e := ConfirmLoop(step.rest, step.clock, ms, defaultNo);
      forall k | 1 <= k < e.consumed + 1
        ensures lines[k].text == step.rest[k - 1].text
      {
      }
    }
  }

  /** The loop gives up only when the user stayed idle for a whole timeout
      after its last prompt. */
  lemma {:induction false} ConfirmLoopTimesOutOnlyWhenIdle(lines: seq<InputLine>, now: int, ms: int, defaultNo: bool)
    ensures var e := ConfirmLoop(lines, now, ms, defaultNo);
            e.answer.None? ==>
              e.clock == e.lastPrompt + ms
              && (e.consumed == |lines| || Max(e.lastPrompt, lines[e.consumed].arrival) >= e.lastPrompt + ms)
    decreases |lines|
  {
    var step := PromptedRead(lines, now, now + ms);
    if step.line.Some? && ConfirmDecision(step.line.value, defaultNo).None? {
      ConfirmLoopTimesOutOnlyWhenIdle(step.rest, step.clock, ms, defaultNo);
      var e := ConfirmLoop(step.rest, step.clock, ms, defaultNo);
      if e.consumed < |step.rest| {
        assert lines[e.consumed + 1] == step.rest[e.consumed];
      }
    }
  }

  /** Input made only of invalid answers never yields an answer. */
  lemma InvalidInputNeverAnswers(lines: seq<InputLine>, now: int, ms: int, defaultNo: bool)
    requires forall k :: 0 <= k < |lines| ==> ConfirmDecision(lines[k].text, defaultNo) == None
    ensures ConfirmLoop(lines, now, ms, defaultNo).answer == None
  {
    ConfirmLoopAnswer(lines, now, ms, defaultNo);
  }

  // ---------------------------------------------------------------------
  // The reader and its idle-session monitor

  /** The outcome of a read: a value, the termination of the session, the
      failure of reading from the closed scanner, or (readChar) no character. */
  datatype ReadResult<+T> = Got(value: T) | Terminated(status: StatusCode) | ScannerClosed | NoCharacter

  class Reader {
    /** IDLE_TIMEOUT_DURATION_LOWER_LIMIT and _UPPER_LIMIT, in seconds. */
    const lower: int
    const upper: int
    /** IDLE_TIMEOUT_DURATION, in seconds. */
    var timeout: int
    /** Current time, in milliseconds. */
    var clock: int
    /** The termination task is scheduled, and runs at `deadline` (ms). */
    var armed: bool
    var deadline: int
    /** The termination task has run: the scanner is closed, the session over. */
    var terminated: bool
    /** Lines the user is still to type. */
    var input: seq<InputLine>

    ghost predicate Valid()
      reads this
    {
      && 0 <= lower <= upper
      && 0 <= timeout <= upper
      && (timeout == 0 || lower <= timeout)
      && (armed ==> clock <= deadline)
      && (terminated ==> !armed)
    }

    /** The state when the class is loaded: the timeout field holds Java's
        default 0 and nothing is scheduled yet. */
    constructor (lower: int, upper: int, input: seq<InputLine>, start: int)
      requires 0 <= lower <= upper
      ensures Valid()
      ensures this.lower == lower && this.upper == upper && this.input == input
      ensures timeout == 0 && clock == start && !armed && !terminated
    {
      this.lower, this.upper := lower, upper;
      timeout, clock := 0, start;
      armed, deadline, terminated := false, start, false;
      this.input := input;
    }

    /** setIdleTimeoutDuration: stores the request bounded to [lower, upper]
        and returns the stored value; a scheduled termination keeps its time. */
    method SetIdleTimeoutDuration(newTimeout: int) returns (r: int)
      requires Valid()
      modifies this`timeout
      ensures Valid()
      ensures r == timeout && lower <= r <= upper
      ensures r == Clamp(lower, upper, newTimeout)
    {
      timeout := Clamp(lower, upper, newTimeout);
      r := timeout;
    }

    /** startIdleSessionMonitor: records user activity now. Any pending
        termination is replaced by one timeout * 1000 ms from now. */
    method StartIdleSessionMonitor()
      requires Valid() && !terminated
      modifies this`armed, this`deadline
      ensures Valid()
      ensures armed && deadline == clock + timeout * 1000
    {
      armed := true;
      deadline := clock + timeout * 1000;
    }

    /** The termination task runs at its deadline: the scanner is closed and
        the session ends with IDLE_SESSION_TIMEOUT. */
    method Fire() returns (status: StatusCode)
      requires Valid() && armed
      modifies this`armed, this`terminated, this`clock
      ensures Valid()
      ensures terminated && !armed && clock == deadline
      ensures status == IdleSessionTimeout
    {
      clock := deadline;
      armed, terminated := false, true;
      status := IdleSessionTimeout;
    }

    /** Time passes without a read until `now`; the termination task runs if
        its deadline falls in that interval, and only then. */
    method Elapse(now: int) returns (outcome: Option<StatusCode>)
      requires Valid() && clock <= now
      modifies this`armed, this`terminated, this`clock
      ensures Valid() && clock == now
      ensures outcome.Some? <==> old(armed) && deadline <= now
      ensures outcome.Some? ==> outcome.value == IdleSessionTimeout && terminated && !armed
      ensures outcome.None? ==> armed == old(armed) && terminated == old(terminated)
    {
      outcome := None;
      if armed && deadline <= now {
        var status := Fire();
        outcome := Some(status);
      }
      clock := now;
    }

    /** The blocking nextLine(): the next line if it comes before the
        scheduled termination, otherwise the termination. */
    method AwaitLine() returns (line: Option<string>)
      requires Valid() && armed
      modifies this`armed, this`terminated, this`clock, this`input
      ensures Valid()
      ensures var step := PromptedRead(old(input), old(clock), deadline);
              line == step.line && input == step.rest && clock == step.clock
              && armed == line.Some? && terminated == line.None?
    {
      if input != [] && Max(clock, input[0].arrival) < deadline {
        line := Some(input[0].text);
        clock := Max(clock, input[0].arrival);
        input := input[1..];
      } else {
        var _ := Fire();
        line := None;
      }
    }

    /** The state after a prompted read that started at `start`. */
    ghost predicate AfterRead(step: ReadStep, start: int)
      reads this
    {
      && deadline == start + timeout * 1000
      && input == step.rest && clock == step.clock
      && armed == step.line.Some? && terminated == step.line.None?
    }

    /** The two steps every read starts with: startIdleSessionMonitor(),
        then a blocking nextLine() that the termination task may cut short. */
    method PromptedLine() returns (line: Option<string>)
      requires Valid() && !terminated
      modifies this`armed, this`deadline, this`terminated, this`clock, this`input
      ensures Valid()
      ensures var step := PromptedRead(old(input), old(clock), old(clock) + timeout * 1000);
              AfterRead(step, old(clock)) && line == step.line
    {
      StartIdleSessionMonitor();
      line := AwaitLine();
    }

    /** readString: records activity, then reads a line and trims it. */
    method ReadString() returns (r: ReadResult<string>)
      requires Valid()
      modifies this`armed, this`deadline, this`terminated, this`clock, this`input
      ensures Valid()
      ensures old(terminated) ==> r == ScannerClosed && unchanged(this)
      ensures !old(terminated) ==>
                var step := PromptedRead(old(input), old(clock), old(clock) + timeout * 1000);
                AfterRead(step, old(clock))
                && r == (if step.line.Some? then Got(Trim(step.line.value)) else Terminated(IdleSessionTimeout))
    {
      if terminated {
        return ScannerClosed;
      }
      var line := PromptedLine();
      r := if line.Some? then Got(Trim(line.value)) else Terminated(IdleSessionTimeout);
    }

    /** readChar: records activity, then reads a line and returns the first
        character of the trimmed line; a blank line has none. */
    method ReadChar() returns (r: ReadResult<char>)
      requires Valid()
      modifies this`armed, this`deadline, this`terminated, this`clock, this`input
      ensures Valid()
      ensures old(terminated) ==> r == ScannerClosed && unchanged(this)
      ensures !old(terminated) ==>
                var step := PromptedRead(old(input), old(clock), old(clock) + timeout * 1000);
                AfterRead(step, old(clock))
                && r == (if step.line.None? then Terminated(IdleSessionTimeout)
                         else if FirstChar(step.line.value).Some? then Got(FirstChar(step.line.value).value)
                         else NoCharacter)
    {
      if terminated {
        return ScannerClosed;
      }
      var line := PromptedLine();
      if line.None? {
        r := Terminated(IdleSessionTimeout);
      } else {
        var c := FirstChar(line.value);
        r := if c.Some? then Got(c.value) else NoCharacter;
      }
    }

    /** readPassword: records activity, then reads a line as typed. */
    method ReadPassword() returns (r: ReadResult<string>)
      requires Valid()
      modifies this`armed, this`deadline, this`terminated, this`clock, this`input
      ensures Valid()
      ensures old(terminated) ==> r == ScannerClosed && unchanged(this)
      ensures !old(terminated) ==>
                var step := PromptedRead(old(input), old(clock), old(clock) + timeout * 1000);
                AfterRead(step, old(clock))
                && r == (if step.line.Some? then Got(step.line.value) else Terminated(IdleSessionTimeout))
    {
      if terminated {
        return ScannerClosed;
      }
      var line := PromptedLine();
      r := if line.Some? then Got(line.value) else Terminated(IdleSessionTimeout);
    }

    /** getConfirmation: prompts until a line gives a decision, recording
        activity before every read, or until the session is terminated. */
    method GetConfirmation(defaultNo: bool) returns (r: ReadResult<bool>)
      requires Valid()
      modifies this`armed, this`deadline, this`terminated, this`clock, this`input
      ensures Valid()
      ensures old(terminated) ==> r == ScannerClosed && unchanged(this)
      ensures !old(terminated) ==>
                var e := ConfirmLoop(old(input), old(clock), timeout * 1000, defaultNo);
                && input == old(input)[e.consumed..] && clock == e.clock
                && deadline == e.lastPrompt + timeout * 1000
                && armed == e.answer.Some? && terminated == e.answer.None?
                && r == (if e.answer.Some? then Got(e.answer.value) else Terminated(IdleSessionTimeout))
    {
      if terminated {
        return ScannerClosed;
      }
      ghost var ms := timeout * 1000;
      ghost var whole := ConfirmLoop(input, clock, ms, defaultNo);
      ghost var consumed := 0;
      while true
        invariant Valid() && !terminated && ms == timeout * 1000
        invariant consumed <= |old(input)| && input == old(input)[consumed..]
        invariant var e := ConfirmLoop(input, clock, ms, defaultNo);
                  && whole.answer == e.answer && whole.consumed == e.consumed + consumed
                  && whole.lastPrompt == e.lastPrompt && whole.clock == e.clock
        decreases |input|
      {
        ghost var rest, now := input, clock;
        var line := PromptedLine();
        if line.None? {
          assert ConfirmLoop(rest, now, ms, defaultNo) == LoopEnd(None, 0, now, clock);
          return Terminated(IdleSessionTimeout);
        }
        var decision := ConfirmDecision(line.value, defaultNo);
        assert input == rest[1..] == old(input)[consumed + 1..];
        if decision.Some? {
          assert ConfirmLoop(rest, now, ms, defaultNo) == LoopEnd(decision, 1, now, clock);
          return Got(decision.value);
        }
        consumed := consumed + 1;
      }
    }
  }

  // ---------------------------------------------------------------------
  // startIdleSessionMonitor as written

  /** The part of java.util.Timer's and TimerTask's state that decides whether
      Timer.schedule succeeds: a cancelled timer takes no more tasks, and a
      task that was scheduled once cannot be scheduled again. */
  datatype TimerState = TimerState(timerCancelled: bool, taskScheduled: bool)

  datatype ScheduleResult = Scheduled(state: TimerState) | IllegalStateException

  function Schedule(t: TimerState): (r: ScheduleResult)
    ensures r.Scheduled? <==> !t.timerCancelled && !t.taskScheduled
  {
    if t.timerCancelled || t.taskScheduled then IllegalStateException
    else Scheduled(t.(taskScheduled := true))
  }

  /** The method as written: Timer.cancel() on the timer, then
      Timer.schedule of the same task on that timer. It throws whatever
      state the timer and the task are in. */
  function StartIdleSessionMonitorAsWritten(t: TimerState): (r: ScheduleResult)
    ensures r == IllegalStateException
  {
    Schedule(t.(timerCancelled := true))
  }

  /** The first read already throws: on the timer and task as the class
      creates them, schedule() alone would succeed, but the method as
      written does not. */
  lemma FirstReadThrows()
    ensures Schedule(TimerState(false, false)).Scheduled?
    ensures StartIdleSessionMonitorAsWritten(TimerState(false, false)) == IllegalStateException
  {
  }

  // ---------------------------------------------------------------------
  // A session

  /** Limits [30, 600] s; requests of 5 s and 9999 s become 30 s and 600 s.
      A first read at 0 ms is answered at 599999 ms, which pushes the
      termination to 1199999 ms; the user then stays idle. */
  method IdleSessionScenario() returns (low: int, high: int, first: ReadResult<string>,
                                        second: ReadResult<string>, end: int)
    ensures low == 30 && high == 600
    ensures first == Got("yes")
    ensures second == Terminated(IdleSessionTimeout) && end == 1_199_999
  {
    var reader := new Reader(30, 600, [InputLine(599_999, "yes")], 0);
    low := reader.SetIdleTimeoutDuration(5);
    high := reader.SetIdleTimeoutDuration(9999);
    first := reader.ReadString();
    assert Trim("yes") == "yes" by { TrimIs("yes", 0, 3); }
    assert reader.deadline == 600_000 && reader.clock == 599_999;
    second := reader.ReadString();
    end := reader.clock;
  }
}
