# Bix: idle-session reader and status codes

Bix is a console password vault. This project models two parts of it in Dafny.

- **The input reader** (`bix.utils.Reader`). Every prompt for user input goes
  through it. Before each blocking read, the reader is meant to reschedule the
  task that terminates the session, so that a user who types nothing for
  `IDLE_TIMEOUT_DURATION` seconds has the session ended with the
  `IDLE_SESSION_TIMEOUT` outcome. As written, the rescheduling throws instead
  (see Findings); the class models the intent, and a separate function models
  the code as written. The reader also turns a typed line into an
  answer to a yes/no confirmation, or into a single character.
- **The status taxonomy** (`StatusCode`). This is the closed set of outcomes a
  session can end with. Each outcome has a numeric code and a message. The
  codes follow a documented numbering scheme:
  - the hundreds digit is the group;
  - the tens digit is the subgroup;
  - the unknown error of a group ends in `00`.

The model has three modules.

- `Enums` holds the status codes as a datatype.
  - It has the getters and `values()`/`ordinal()`.
  - Its lemmas prove the numbering scheme, and that no two outcomes share a code or a message.
- `JavaString` models `String.trim()` and `toUpperCase(Locale.ROOT)`.
  - `trim()` is written as the two index loops that strip the characters at
    or below U+0020.
  - `toUpperCase` is restricted to ASCII letters.
  - Its lemmas show what `trim()` removes and keeps, that blank padding does not
    change the result, that `trim()` is idempotent, and that it commutes with
    upper-casing.
- `Utils` models `Reader`.
  - The static state of the Java class becomes the fields of class `Reader`:
    the timeout, the current time, the scheduled termination and its deadline,
    whether the session was terminated, and the lines the user has yet to type.
  - While the session is live, each read is a method that first records
    activity, then blocks until the next line arrives or the termination task
    runs. Once the session has ended, a read records nothing and returns
    `ScannerClosed`.
  - The pure parts are functions with lemmas about them: the clamp of the
    timeout, the decision on one confirmation line, and the first-character
    rule of `readChar`.

Time is a clock in milliseconds. The user's input is a sequence of lines, each
with the time at which it reaches the program; an empty sequence is a user
who never types again. A read that starts at time `t` returns the next line
if the line arrives before `t + timeout * 1000`. Otherwise the termination
task runs at that deadline and the read ends the session.

The enum has twelve constants: 0, 100, 110, 111, 112, 120, 121, 200, 210,
300, 310 and 400. The numbering-scheme comment does not say that
`SAFE_TERMINATION` (0) and `IDLE_SESSION_TIMEOUT` (400) also end in `00`.
The lemma `Enums.UnknownEndsInDoubleZero` states which codes end in `00`.

## Model

| member | source | states |
|---|---|---|
| Enums.Code | src/main/java/com/bix/enums/StatusCode.java:23-48 | the status code of each constant; 0 exactly for SAFE_TERMINATION, every other code in [100, 499] |
| Enums.Message | src/main/java/com/bix/enums/StatusCode.java:23-48 | the message of each constant; every message is a non-empty sentence ending in a full stop |
| Enums.GroupOf | src/main/java/com/bix/enums/StatusCode.java:22-48 | the section a constant is declared under: safe termination and the idle timeout alone in theirs, the not-found and access-error codes in the resource section, no unknown error in sections 0 or 4 |
| Enums.GroupNumber | src/main/java/com/bix/enums/StatusCode.java:22-47 | the number each section comment gives its group, one of 0 to 4 |
| Enums.WithMessageLength | src/main/java/com/bix/enums/StatusCode.java:23-48 | the constant whose message has a given length; only lengths 17 to 64 name one |
| Enums.MessageIdentifies | src/main/java/com/bix/enums/StatusCode.java:23-48 | every message's length leads back to its own constant |
| Enums.MessageInjective | src/main/java/com/bix/enums/StatusCode.java:23-48 | two constants with the same message are the same constant |
| Enums.Ordinal | src/main/java/com/bix/enums/StatusCode.java:20-48 | the declaration position of each constant, below 12 |
| Enums.Values | src/main/java/com/bix/enums/StatusCode.java:20-48 | all twelve constants in declaration order, each at its ordinal |
| Enums.CodesAscending | src/main/java/com/bix/enums/StatusCode.java:23-48 | codes rise strictly along the declaration order |
| Enums.CodeInjective | src/main/java/com/bix/enums/StatusCode.java:23-48 | two constants with the same status code are the same constant |
| Enums.GroupDigit | src/main/java/com/bix/enums/StatusCode.java:8-48 | code / 100 is the number of the group the constant is declared under |
| Enums.ResourceSubgroupDigit | src/main/java/com/bix/enums/StatusCode.java:13-35 | in group 1 the tens digit is 1 exactly for the not-found codes and 2 exactly for the access-error codes |
| Enums.UnknownEndsInDoubleZero | src/main/java/com/bix/enums/StatusCode.java:16-48 | every unknown error ends in 00; a code ends in 00 exactly for the unknown errors, safe termination and the idle timeout |
| Enums.UnknownPerErrorGroup | src/main/java/com/bix/enums/StatusCode.java:16-43 | each error group 1-3 has an unknown error coded group * 100 |
| Enums.IdleTimeoutGroup | src/main/java/com/bix/enums/StatusCode.java:47-48 | group 4 holds IDLE_SESSION_TIMEOUT and nothing else |
| JavaString.TrimStart | src/main/java/bix/utils/Reader.java:83 | the first loop of trim(): the index of the first non-blank character from a position on, everything skipped being blank |
| JavaString.TrimEnd | src/main/java/bix/utils/Reader.java:83 | the second loop of trim(): the end after stepping back over blanks, never past the start, everything dropped being blank |
| JavaString.LeadingBlanks | src/main/java/bix/utils/Reader.java:83 | the length of the blank prefix: all blank, and the next character is not |
| JavaString.TrimmedEnd | src/main/java/bix/utils/Reader.java:83 | where the kept text ends: everything after it is blank and the character before it is not |
| JavaString.Trim | src/main/java/bix/utils/Reader.java:83 | trim() is empty exactly for an all-blank line; otherwise it starts and ends with a non-blank character |
| JavaString.TrimIs | src/main/java/bix/utils/Reader.java:83 | trim() returns exactly the slice between a blank prefix and a blank suffix that stop at non-blank characters |
| JavaString.TrimRemovesOnlyBlanks | src/main/java/bix/utils/Reader.java:83 | a line is its blank prefix, then trim() of it, then a blank suffix |
| JavaString.TrimIgnoresPadding | src/main/java/bix/utils/Reader.java:83 | adding blanks on either side of a line does not change trim() |
| JavaString.TrimIdempotent | src/main/java/bix/utils/Reader.java:83 | trim() of a trimmed line is the line |
| JavaString.UpperChar | src/main/java/bix/utils/Reader.java:146 | a-z map to the letter at the same place in A-Z, every other character is unchanged; the result is never a-z and is blank exactly when the original is |
| JavaString.UpperAscii | src/main/java/bix/utils/Reader.java:146 | upper-casing keeps the length and upper-cases each character in place |
| JavaString.TrimUpperCommute | src/main/java/bix/utils/Reader.java:146 | trimming then upper-casing is upper-casing then trimming |
| JavaString.UpperIdempotent | src/main/java/bix/utils/Reader.java:146 | upper-casing twice is upper-casing once |
| Utils.Clamp | src/main/java/bix/utils/Reader.java:68-70 | the bounded timeout lies in [lower, upper]; a request in range is kept, one below gives lower, one above gives upper |
| Utils.ClampIdempotent | src/main/java/bix/utils/Reader.java:68-72 | bounding an already bounded timeout changes nothing |
| Utils.ClampMonotonic | src/main/java/bix/utils/Reader.java:68-70 | a larger request never yields a shorter timeout |
| Utils.ConfirmDecision | src/main/java/bix/utils/Reader.java:146-161 | a blank line gives the default answer; otherwise the answer is yes exactly when the trimmed line is Y or YES in any letter case, no exactly when it is N or NO in any letter case, and invalid (re-prompt) exactly when it is neither |
| Utils.UpperWords | src/main/java/bix/utils/Reader.java:146-154 | a line upper-cases to Y or YES exactly when it is one of those in any letter case, likewise N or NO, and to the empty string only when empty |
| Utils.ExplicitAnswerIgnoresDefault | src/main/java/bix/utils/Reader.java:148-158 | for a non-blank line the decision does not depend on defaultNo |
| Utils.ConfirmIgnoresPadding | src/main/java/bix/utils/Reader.java:146 | blank padding around the answer does not change the decision |
| Utils.ConfirmIgnoresCase | src/main/java/bix/utils/Reader.java:146 | upper-casing the line first does not change the decision |
| Utils.ConfirmYesExamples | src/main/java/bix/utils/Reader.java:148-151 | "y" and "Yes" answer yes |
| Utils.ConfirmNoExamples | src/main/java/bix/utils/Reader.java:152-154 | "no" and "N" answer no |
| Utils.ConfirmDefaultAndInvalidExamples | src/main/java/bix/utils/Reader.java:155-161 | a blank line takes the default answer; "yess" is invalid |
| Utils.FirstChar | src/main/java/bix/utils/Reader.java:94 | there is no character exactly when the line is blank; otherwise it is non-blank and is the first character after a blank prefix |
| Utils.PromptedRead | src/main/java/bix/utils/Reader.java:40-56 | a read returns the next line when it arrives before the termination is due, leaving the rest, at the later of the prompt time and the line's arrival; otherwise the termination runs at its due time and no line is taken |
| Utils.ConfirmLoop | src/main/java/bix/utils/Reader.java:139-164 | the prompt loop reads at most the lines there are and last prompts no earlier than it started |
| Utils.ConfirmLoopAnswer | src/main/java/bix/utils/Reader.java:140-163 | an answer is the decision on the last line read, and every line before it was invalid |
| Utils.ConfirmLoopTimesOutOnlyWhenIdle | src/main/java/bix/utils/Reader.java:140-163 | without an answer the loop ended a full timeout after its last prompt, with no line arriving before then |
| Utils.InvalidInputNeverAnswers | src/main/java/bix/utils/Reader.java:155-163 | input made only of invalid answers never yields an answer |
| Utils.Reader.constructor | src/main/java/bix/utils/Reader.java:34-38 | the state when the class is loaded: timeout 0, nothing scheduled, session live |
| Utils.Reader.SetIdleTimeoutDuration | src/main/java/bix/utils/Reader.java:66-73 | stores the bounded request and returns the stored value, within [lower, upper] |
| Utils.Reader.StartIdleSessionMonitor | src/main/java/bix/utils/Reader.java:166-186 | after activity the termination is scheduled timeout * 1000 ms from now, replacing any earlier deadline |
| Utils.Reader.Fire | src/main/java/bix/utils/Reader.java:50-55 | the termination task runs at its deadline and ends the session with IDLE_SESSION_TIMEOUT |
| Utils.Reader.Elapse | src/main/java/bix/utils/Reader.java:40-56 | as time passes, the termination runs exactly when it is scheduled and its deadline has been reached |
| Utils.Reader.AwaitLine | src/main/java/bix/utils/Reader.java:83 | the blocking nextLine(): the next line if it arrives before the deadline, otherwise the termination |
| Utils.Reader.PromptedLine | src/main/java/bix/utils/Reader.java:82-83 | every read first records activity, then blocks: the deadline is the start time plus the timeout |
| Utils.Reader.ReadString | src/main/java/bix/utils/Reader.java:80-84 | readString records activity, then returns the trimmed line or the termination |
| Utils.Reader.ReadChar | src/main/java/bix/utils/Reader.java:91-95 | readChar records activity, then returns the first character of the trimmed line, no character for a blank line, or the termination |
| Utils.Reader.ReadPassword | src/main/java/bix/utils/Reader.java:121-125 | readPassword records activity, then returns the line as typed or the termination |
| Utils.Reader.GetConfirmation | src/main/java/bix/utils/Reader.java:139-164 | the loop's final state and answer are those of the prompt-loop function over the same input |
| Utils.Schedule | src/main/java/bix/utils/Reader.java:185 | Timer.schedule succeeds exactly on a live timer with a task not yet scheduled |
| Utils.StartIdleSessionMonitorAsWritten | src/main/java/bix/utils/Reader.java:178-186 | cancel() followed by schedule() on the same timer throws, whatever state timer and task are in |
| Utils.FirstReadThrows | src/main/java/bix/utils/Reader.java:49-56 | on the timer and task as the class creates them, schedule() alone succeeds but the method as written throws |
| Utils.IdleSessionScenario | src/main/java/bix/utils/Reader.java:66-186 | limits [30, 600]: requests of 5 and 9999 become 30 and 600; a line answered just before the deadline pushes the termination back by the full timeout |

## Left out

- Console output is not modelled. This covers the `printf` prompts and the "Invalid response provided." message.
- The line splitting done by `Scanner` is not modelled: the input is given as a sequence of lines.
- `readInt` is not modelled. It depends on the integer parsing of `Scanner.nextInt` and its `InputMismatchException`.
- `readPassword` with no system console (`System.console()` returning null) would throw `NullPointerException`. The model assumes a console is present.
- End of input on `System.in` (`NoSuchElementException`) is not modelled. An exhausted input is a user who never types again.
- `Timer` runs its task on a separate thread. The model decides the race between the task and the next line by time, and the task wins a tie.
- Arithmetic on Timer's clock can overflow; the model uses unbounded integers.
- `Controller.terminateSession` is not part of this model. Termination is modelled as reporting `IDLE_SESSION_TIMEOUT` and closing the scanner.
- After termination a read returns `ScannerClosed`, standing for the exception a closed `Scanner` throws.
- Utils.Reader.ReadPassword: after termination it returns `ScannerClosed` like the other reads. The source reads the password through `System.console()`, not through the Scanner, so closing the Scanner would not stop it; the model does not give the console a state of its own.
- Utils.FirstChar: Java strings are UTF-16, so for a line whose first non-blank character lies outside the Basic Multilingual Plane, `charAt(0)` returns the high surrogate of that character. The model's `char` is a whole Unicode scalar value, and it returns the whole character instead.
- Utils.Reader.ReadChar: returns the character `Utils.FirstChar` gives. For a first non-blank character outside the Basic Multilingual Plane, Java's `charAt(0)` returns only the high surrogate of the UTF-16 string, while the model returns the whole character.
- `Reader.java` imports `bix.enums.StatusCode`, while the enum given is declared in `com.bix.enums`. The model treats them as the same enum.
- The Constants class that declares `IDLE_TIMEOUT_DURATION_LOWER_LIMIT` and `IDLE_TIMEOUT_DURATION_UPPER_LIMIT` is not part of this model. The limits are constructor parameters with `0 <= lower <= upper`; a negative delay would make `Timer.schedule` throw.
- `com/bix/utils/Constants.java` holds only strings and names, with no logic to verify.
- `ColumnNotFoundException.java` holds only one message concatenation.
- The vault engine (key derivation, record cipher, vault store) is not part of this model.
- JavaString.UpperChar: upper-cases ASCII letters only. Full Unicode case mapping is not modelled; for instance, Java maps U+017F (long s) to 'S'.
- Utils.Reader.StartIdleSessionMonitor: follows the documented intent (cancel the pending termination and schedule a new one). It does not follow the `Timer.cancel()` call as written; see Findings.

## Findings

| source | as written | input that shows it | evidently intended | confidence | as-written member | corrected member |
|---|---|---|---|---|---|---|
| src/main/java/bix/utils/Reader.java:181-185 | `Timer.cancel()` then `schedule()` of the same task on that timer, which throws `IllegalStateException` | the first call of any read: the timer is cancelled before the task is scheduled | cancel the pending termination and schedule it `IDLE_TIMEOUT_DURATION * 1000` ms from now | high; not executed | Utils.StartIdleSessionMonitorAsWritten (shown by Utils.FirstReadThrows) | Utils.Reader.StartIdleSessionMonitor |
