/**
 * The management OS's log line format (management_os/entrypoint/logger.go):
 * the time between brackets, the level name upper-cased and coloured with
 * an ANSI escape chosen by the level, and the message. The levels are
 * logrus's uint32 levels, whose names come from its MarshalText.
 */
module Logger {
  import Text

  const PANIC_LEVEL: nat := 0
  const FATAL_LEVEL: nat := 1
  const ERROR_LEVEL: nat := 2
  const WARN_LEVEL: nat := 3
  const INFO_LEVEL: nat := 4
  const DEBUG_LEVEL: nat := 5
  const TRACE_LEVEL: nat := 6

  const BLUE: nat := 34
  const YELLOW: nat := 33
  const RED: nat := 31
  const BBLACK: nat := 90

  const ESC: char := '\U{1b}'

  /** Level.String: the MarshalText name, or "unknown" for a value without one. */
  function LevelName(level: nat): (r: string)
    ensures level > TRACE_LEVEL <==> r == "unknown"
    ensures Text.HasNoUpper(r)
  {
    if level == PANIC_LEVEL then "panic"
    else if level == FATAL_LEVEL then "fatal"
    else if level == ERROR_LEVEL then "error"
    else if level == WARN_LEVEL then "warning"
    else if level == INFO_LEVEL then "info"
    else if level == DEBUG_LEVEL then "debug"
    else if level == TRACE_LEVEL then "trace"
    else "unknown"
  }

  /** The colour of a level: grey for debug and trace, yellow for warnings, red for errors and worse, blue otherwise. */
  function LevelColor(level: nat): (c: nat)
    ensures c in {BBLACK, YELLOW, RED, BLUE}
    ensures c == BBLACK <==> level in {DEBUG_LEVEL, TRACE_LEVEL}
    ensures c == YELLOW <==> level == WARN_LEVEL
    ensures c == RED <==> level in {ERROR_LEVEL, FATAL_LEVEL, PANIC_LEVEL}
    ensures c == BLUE <==> !(level in {DEBUG_LEVEL, TRACE_LEVEL, WARN_LEVEL, ERROR_LEVEL, FATAL_LEVEL, PANIC_LEVEL})
  {
    if level == DEBUG_LEVEL || level == TRACE_LEVEL then BBLACK
    else if level == WARN_LEVEL then YELLOW
    else if level == ERROR_LEVEL || level == FATAL_LEVEL || level == PANIC_LEVEL then RED
    else BLUE
  }

  /** The part of a line before the message: time, separator, coloured level, separator. */
  function Header(time: string, level: nat): string
  {
    Stamp(time) + Badge(level)
  }

  /** The time part of a line: "[<time>] - ". */
  function Stamp(time: string): string
  {
    "[" + time + "] - "
  }

  /** The level part of a line: the upper-case level name in its colour, then " - ". */
  function Badge(level: nat): string
  {
    [ESC] + "[" + Text.Decimal(LevelColor(level)) + "m" + Text.ToUpper(LevelName(level)) + [ESC] + "[0m - "
  }

  /**
   * Format: "[<time>] - ESC[<colour>m<LEVEL>ESC[0m - <message>\n", with the
   * time already in the formatter's layout; the error is always nil.
   */
  function Format(time: string, level: nat, msg: string): (r: string)
    ensures Text.HasPrefix(r, Stamp(time))
    ensures |r| > |msg| && r[|r| - 1] == '\n' && r[|r| - 1 - |msg|..|r| - 1] == msg
    ensures |Stamp(time)| <= |r| - 1 - |msg| && r[|Stamp(time)|..|r| - 1 - |msg|] == Badge(level)
  {
    var stamp, badge := Stamp(time), Badge(level);
    var r := stamp + badge + msg + "\n";
    assert r[..|stamp|] == stamp;
    assert r[|stamp|..|r| - 1 - |msg|] == badge;
    assert r[|r| - 1 - |msg|..|r| - 1] == msg;
    r
  }

  /** Two lines with the same time and level carry the same message exactly when they are equal. */
  lemma FormatInjective(time: string, level: nat, m1: string, m2: string)
    ensures Format(time, level, m1) == Format(time, level, m2) <==> m1 == m2
  {
    if Format(time, level, m1) == Format(time, level, m2) {
      var h := Header(time, level);
      assert Format(time, level, m1)[|h|..] == m1 + "\n";
      assert Format(time, level, m2)[|h|..] == m2 + "\n";
      assert m1 == (m1 + "\n")[..|m1|];
      assert m2 == (m2 + "\n")[..|m2|];
    }
  }

  /** A warning is written in yellow (code 33) as "WARNING". */
  lemma WarningHeader(time: string)
    ensures Header(time, WARN_LEVEL) ==
      "[" + time + "] - " + [ESC] + "[" + "33" + "m" + "WARNING" + [ESC] + "[0m - "
  {
    assert Text.Decimal(33) == "33" by {
      assert Text.Numeral(33, 10) == Text.Numeral(3, 10) + [Text.DigitChar(3)];
    }
    UpperWarning();
  }

  lemma UpperWarning()
    ensures Text.ToUpper(LevelName(WARN_LEVEL)) == "WARNING"
  {
  }
}
