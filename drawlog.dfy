/**
 * The log classifier of Lottery.WatchDraw (solotto.js:209-225). The
 * websocket subscription and its reconnect timer are not modelled: the
 * notifications it delivers are the parameter `notifications`, in order.
 */
module DrawLog {
  import opened Primitives
  import opened JsText

  const WINNING_PATTERN: string := "Program log: Winning ticket number: "
  const FEE_PATTERN: string := "Program log: Fee amount: "

  /** One logsNotifications message: the transaction signature and its log lines. */
  datatype Notification = Notification(signature: string, logs: seq<string>)

  /** The payload of a 'draw' event; None for a winning number that parsed to NaN. */
  datatype DrawEvent = DrawEvent(winningTicketNumber: Option<int>, signature: string)

  /** The number a winning line carries: the pattern removed once, then parseInt. */
  function LineNumber(line: string): Option<int> {
    ParseInt(ReplaceFirst(line, WINNING_PATTERN, ""))
  }

  /**
   * The winning number after the scan: that of the last line holding the
   * winning pattern, 0 when there is none.
   */
  function WinningNumber(logs: seq<string>): Option<int> {
    if logs == [] then Some(0)
    else if Includes(logs[|logs| - 1], WINNING_PATTERN) then LineNumber(logs[|logs| - 1])
    else WinningNumber(logs[..|logs| - 1])
  }

  /** Some line holds the fee pattern: the notification is a draw. */
  predicate HasFeeLine(logs: seq<string>) {
    exists i :: 0 <= i < |logs| && Includes(logs[i], FEE_PATTERN)
  }

  /** The inner loop of solotto.js:215-222 over one notification's lines. */
  method ClassifyLogs(logs: seq<string>) returns (winningTicketNumber: Option<int>, isDraw: bool)
    ensures winningTicketNumber == WinningNumber(logs)
    ensures isDraw <==> HasFeeLine(logs)
  {
    winningTicketNumber := Some(0);
    isDraw := false;
    var i := 0;
    while i < |logs|
      invariant 0 <= i <= |logs|
      invariant winningTicketNumber == WinningNumber(logs[..i])
      invariant isDraw <==> HasFeeLine(logs[..i])
    {
      winningTicketNumber, isDraw := ScanLine(logs[i], winningTicketNumber, isDraw);
      ScanStep(logs, i);
      i := i + 1;
    }
    assert logs[..i] == logs;
  }

  /** The body of the inner loop for one line. */
  method ScanLine(log: string, winningIn: Option<int>, isDrawIn: bool) returns (winningTicketNumber: Option<int>, isDraw: bool)
    ensures winningTicketNumber == if Includes(log, WINNING_PATTERN) then LineNumber(log) else winningIn
    ensures isDraw == (isDrawIn || Includes(log, FEE_PATTERN))
  {
    winningTicketNumber, isDraw := winningIn, isDrawIn;
    if Includes(log, WINNING_PATTERN) {
      winningTicketNumber := ParseInt(ReplaceFirst(log, WINNING_PATTERN, ""));
    }
    if Includes(log, FEE_PATTERN) {
      isDraw := true;
    }
  }

  /** What one more line does to the scan's two results. */
  lemma ScanStep(logs: seq<string>, i: nat)
    requires i < |logs|
    ensures WinningNumber(logs[..i + 1])
            == if Includes(logs[i], WINNING_PATTERN) then LineNumber(logs[i]) else WinningNumber(logs[..i])
    ensures HasFeeLine(logs[..i + 1]) <==> HasFeeLine(logs[..i]) || Includes(logs[i], FEE_PATTERN)
  {
    var next := logs[..i + 1];
    assert next[..i] == logs[..i];
    assert next[i] == logs[i];
    FeeLineAppend(logs[..i], logs[i]);
    assert next == logs[..i] + [logs[i]];
  }

  /** A list of lines plus one more holds a fee line exactly when either part does. */
  lemma FeeLineAppend(front: seq<string>, line: string)
    ensures HasFeeLine(front + [line]) <==> HasFeeLine(front) || Includes(line, FEE_PATTERN)
  {
    var next := front + [line];
    if HasFeeLine(next) && !Includes(line, FEE_PATTERN) {
      var j :| 0 <= j < |next| && Includes(next[j], FEE_PATTERN);
      assert j < |front| && front[j] == next[j];
    }
    if HasFeeLine(front) {
      var j :| 0 <= j < |front| && Includes(front[j], FEE_PATTERN);
      assert next[j] == front[j];
    }
    if Includes(line, FEE_PATTERN) {
      assert next[|front|] == line;
    }
  }

  /** The 'draw' events the notifications give, in order. */
  function Draws(notifications: seq<Notification>): seq<DrawEvent> {
    if notifications == [] then []
    else
      var last := notifications[|notifications| - 1];
      Draws(notifications[..|notifications| - 1])
      + (if HasFeeLine(last.logs) then [DrawEvent(WinningNumber(last.logs), last.signature)] else [])
  }

  /**
   * The outer loop of solotto.js:209-225: classify each notification's
   * lines and emit a 'draw' event for each that is a draw.
   */
  method WatchNotifications(notifications: seq<Notification>) returns (events: seq<DrawEvent>)
    ensures events == Draws(notifications)
  {
    events := [];
    var k := 0;
    while k < |notifications|
      invariant 0 <= k <= |notifications|
      invariant events == Draws(notifications[..k])
    {
      var noti := notifications[k];
      var winningTicketNumber, isDraw := ClassifyLogs(noti.logs);
      if isDraw {
        events := events + [DrawEvent(winningTicketNumber, noti.signature)];
      }
      assert notifications[..k + 1][..k] == notifications[..k];
      k := k + 1;
    }
    assert notifications[..k] == notifications;
  }

  // ---------------------------------------------------------------------
  // Properties
  // ---------------------------------------------------------------------

  /** Without a winning line the number stays at its default, 0. */
  lemma {:induction false} NoWinningLineIsZero(logs: seq<string>)
    requires forall i :: 0 <= i < |logs| ==> !Includes(logs[i], WINNING_PATTERN)
    ensures WinningNumber(logs) == Some(0)
    decreases |logs|
  {
    if logs != [] {
      NoWinningLineIsZero(logs[..|logs| - 1]);
    }
  }

  /** The last winning line decides the number: earlier ones are overwritten. */
  lemma {:induction false} LastWinningLineWins(logs: seq<string>, i: nat)
    requires i < |logs| && Includes(logs[i], WINNING_PATTERN)
    requires forall j :: i < j < |logs| ==> !Includes(logs[j], WINNING_PATTERN)
    ensures WinningNumber(logs) == LineNumber(logs[i])
    decreases |logs|
  {
    if i < |logs| - 1 {
      var front := logs[..|logs| - 1];
      assert front[i] == logs[i];
      forall j | i < j < |front| ensures !Includes(front[j], WINNING_PATTERN) {
        assert front[j] == logs[j];
      }
      LastWinningLineWins(front, i);
    }
  }

  /** A winning line exactly as the program logs it gives back the number written in it. */
  lemma WinningLineReadsBack(n: int)
    ensures Includes(WINNING_PATTERN + IntText(n), WINNING_PATTERN)
    ensures LineNumber(WINNING_PATTERN + IntText(n)) == Some(n)
  {
    assert (WINNING_PATTERN + IntText(n))[..|WINNING_PATTERN|] == WINNING_PATTERN;
    ReplacePrefix(WINNING_PATTERN, IntText(n));
    ParseIntText(n);
  }

  /**
   * Every draw notification gives its event, and every event comes from a
   * draw notification with that signature and winning number.
   */
  lemma {:induction false} DrawsExact(notifications: seq<Notification>)
    ensures forall k :: 0 <= k < |notifications| && HasFeeLine(notifications[k].logs) ==>
      DrawEvent(WinningNumber(notifications[k].logs), notifications[k].signature) in Draws(notifications)
    ensures forall e :: e in Draws(notifications) ==>
      exists k :: 0 <= k < |notifications| && HasFeeLine(notifications[k].logs)
                  && e == DrawEvent(WinningNumber(notifications[k].logs), notifications[k].signature)
    decreases |notifications|
  {
    if notifications != [] {
      var front := notifications[..|notifications| - 1];
      DrawsExact(front);
      forall k | 0 <= k < |front| ensures front[k] == notifications[k] { }
    }
  }
}
