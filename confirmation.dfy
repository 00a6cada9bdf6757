/**
 * The confirmation poller LotteryNetwork.Status (solotto.js:87-123). Each
 * tick of the interval timer reads the signature's status; the answers the
 * node gives, one per tick, are the parameter `statuses`. The promise
 * resolves once: later calls of resolve are ignored, and clearInterval stops
 * further ticks.
 */
module Confirmation {
  import opened Primitives
  import opened JsText

  /**
   * One answer of getSignatureStatuses: nothing usable (a null or
   * undefined value or confirmation status), or a confirmation status and
   * whether the transaction's err is non-null.
   */
  datatype Observation = Missing | Reported(confirmationStatus: string, failed: bool)

  /**
   * The poller between ticks: the counter `start`, what the promise
   * resolved with, whether the timer was cleared, and the ticks so far.
   */
  datatype PollState = PollState(start: int, outcome: Option<string>, cleared: bool, ticks: nat)

  const INITIAL: PollState := PollState(1, None, false, 0)

  const PROGRAM_ERROR: string := "program error!"
  const FINALIZED: string := "finalized"
  const WAIT_SUFFIX: string := " seconds max wait reached"
  /** Status(sig, max = 10, int = 3): every call in the library takes these defaults. */
  const DEFAULT_MAX: int := 10
  const DEFAULT_INTERVAL: int := 3

  /** The timeout message: String(max * interval), then the suffix; parseInt reads the product back. */
  function TimeoutMessage(max: int, interval: int): (s: string)
    ensures |s| > |WAIT_SUFFIX| && s[|s| - |WAIT_SUFFIX|..] == WAIT_SUFFIX
    ensures ParseInt(s) == Some(max * interval)
  {
    TextThenSuffix(max * interval, WAIT_SUFFIX);
    IntText(max * interval) + WAIT_SUFFIX
  }

  /** resolve(v): only the first call decides the promise. */
  function Resolve(p: PollState, v: string): (q: PollState)
    ensures q.outcome == (if p.outcome.None? then Some(v) else p.outcome)
    ensures q.start == p.start && q.cleared == p.cleared && q.ticks == p.ticks
  {
    if p.outcome.None? then p.(outcome := Some(v)) else p
  }

  /** A status that neither resets the counter nor finishes the wait. */
  predicate Quiet(o: Observation) {
    o.Missing? || (o.confirmationStatus != "processed" && o.confirmationStatus != "confirmed"
                   && o.confirmationStatus != "finalized")
  }

  /**
   * One run of the interval callback: processed and confirmed reset the
   * counter to 1; finalized resolves ("program error!" first when the
   * transaction failed) and clears; then the counter goes up, and reaching
   * max + 1 resolves with the timeout message and clears.
   */
  function Tick(p: PollState, o: Observation, max: int, interval: int): (q: PollState)
    ensures q.ticks == p.ticks + 1
  {
    var p1 :=
      if Quiet(o) then p
      else if o.confirmationStatus == "processed" || o.confirmationStatus == "confirmed" then p.(start := 1)
      else
        var q := if o.failed then Resolve(p.(cleared := true), PROGRAM_ERROR) else p;
        Resolve(q, FINALIZED).(cleared := true);
    var p2 := p1.(start := p1.start + 1, ticks := p1.ticks + 1);
    if p2.start == max + 1 then Resolve(p2, TimeoutMessage(max, interval)).(cleared := true) else p2
  }

  /** Ticks over the answers in order until the timer is cleared or the answers run out. */
  function Run(p: PollState, statuses: seq<Observation>, max: int, interval: int): (q: PollState)
    ensures q.ticks <= p.ticks + |statuses|
    ensures p.cleared ==> q == p
    decreases |statuses|
  {
    if p.cleared || statuses == [] then p else Run(Tick(p, statuses[0], max, interval), statuses[1..], max, interval)
  }

  /**
   * Status (solotto.js:87-123) over the answers the node gives: the value
   * the promise resolved with (None while it is still pending when the
   * answers run out) and how many times the status was read.
   */
  method Status(statuses: seq<Observation>, max: int := DEFAULT_MAX, interval: int := DEFAULT_INTERVAL) returns (outcome: Option<string>, polls: nat)
    ensures outcome == Run(INITIAL, statuses, max, interval).outcome
    ensures polls == Run(INITIAL, statuses, max, interval).ticks
  {
    var start := 1;
    outcome := None;
    var cleared := false;
    polls := 0;
    while polls < |statuses| && !cleared
      invariant 0 <= polls <= |statuses|
      invariant Run(PollState(start, outcome, cleared, polls), statuses[polls..], max, interval)
                == Run(INITIAL, statuses, max, interval)
      decreases |statuses| - polls
    {
      ghost var before := PollState(start, outcome, cleared, polls);
      var txStatus := statuses[polls];
      if txStatus.Missing? {
      } else if txStatus.confirmationStatus == "processed" {
        start := 1;
      } else if txStatus.confirmationStatus == "confirmed" {
        start := 1;
      } else if txStatus.confirmationStatus == "finalized" {
        if txStatus.failed {
          if outcome.None? { outcome := Some(PROGRAM_ERROR); }
          cleared := true;
        }
        if outcome.None? { outcome := Some(FINALIZED); }
        cleared := true;
      }
      start := start + 1;
      if start == max + 1 {
        if outcome.None? { outcome := Some(TimeoutMessage(max, interval)); }
        cleared := true;
      }
      assert PollState(start, outcome, cleared, polls + 1) == Tick(before, txStatus, max, interval);
      assert statuses[polls..][1..] == statuses[polls + 1..];
      polls := polls + 1;
    }
  }

  // ---------------------------------------------------------------------
  // Properties
  // ---------------------------------------------------------------------

  /** Running over two lists of answers is running over the first, then the second. */
  lemma {:induction false} RunAppend(p: PollState, a: seq<Observation>, b: seq<Observation>, max: int, interval: int)
    ensures Run(p, a + b, max, interval) == Run(Run(p, a, max, interval), b, max, interval)
    decreases |a|
  {
    if p.cleared || a == [] {
      assert a + b == b || p.cleared;
    } else {
      assert (a + b)[0] == a[0];
      assert (a + b)[1..] == a[1..] + b;
      RunAppend(Tick(p, a[0], max, interval), a[1..], b, max, interval);
    }
  }

  /**
   * The promise settles once: when the first answers already settled it,
   * no later answer changes the outcome or causes another read.
   */
  lemma FirstResolutionWins(a: seq<Observation>, b: seq<Observation>, max: int, interval: int)
    requires Run(INITIAL, a, max, interval).cleared
    ensures Run(INITIAL, a + b, max, interval) == Run(INITIAL, a, max, interval)
  {
    RunAppend(INITIAL, a, b, max, interval);
  }

  /** The timer is cleared exactly when the promise settles. */
  lemma {:induction false} ClearedIffSettled(p: PollState, statuses: seq<Observation>, max: int, interval: int)
    requires p.cleared <==> p.outcome.Some?
    ensures Run(p, statuses, max, interval).cleared <==> Run(p, statuses, max, interval).outcome.Some?
    decreases |statuses|
  {
    if !p.cleared && statuses != [] {
      ClearedIffSettled(Tick(p, statuses[0], max, interval), statuses[1..], max, interval);
    }
  }

  /**
   * A finalized answer settles the wait on that tick: with "program error!"
   * when the transaction failed and "finalized" otherwise.
   */
  lemma FinalizedSettles(p: PollState, o: Observation, max: int, interval: int)
    requires !p.cleared && p.outcome.None?
    requires o.Reported? && o.confirmationStatus == "finalized"
    ensures Tick(p, o, max, interval).cleared
    ensures Tick(p, o, max, interval).outcome == Some(if o.failed then PROGRAM_ERROR else FINALIZED)
  {
  }

  /**
   * A processed or confirmed answer restarts the count: the counter is 2
   * after that tick, so the timeout comes max - 1 quiet ticks later; with
   * max of 1 it comes on this very tick.
   */
  lemma ResetRestartsCount(p: PollState, o: Observation, max: int, interval: int)
    requires !p.cleared && p.outcome.None?
    requires o.Reported? && (o.confirmationStatus == "processed" || o.confirmationStatus == "confirmed")
    ensures max != 1 ==> Tick(p, o, max, interval) == PollState(2, None, false, p.ticks + 1)
    ensures max == 1 ==> Tick(p, o, max, interval).outcome == Some(TimeoutMessage(max, interval))
  {
  }

  /**
   * From a counter of `start` (at most max), quiet answers time the wait
   * out after exactly max + 1 - start ticks, with the timeout message.
   */
  lemma {:induction false} QuietTimesOut(p: PollState, statuses: seq<Observation>, max: int, interval: int)
    requires !p.cleared && p.outcome.None? && 1 <= p.start <= max
    requires |statuses| >= max + 1 - p.start
    requires forall i :: 0 <= i < |statuses| ==> Quiet(statuses[i])
    ensures Run(p, statuses, max, interval).outcome == Some(TimeoutMessage(max, interval))
    ensures Run(p, statuses, max, interval).ticks == p.ticks + (max + 1 - p.start)
    decreases max - p.start
  {
    var q := Tick(p, statuses[0], max, interval);
    assert Quiet(statuses[0]);
    if p.start < max {
      assert q == PollState(p.start + 1, None, false, p.ticks + 1);
      QuietTimesOut(q, statuses[1..], max, interval);
    }
  }

  /**
   * With no answer that resets or finishes, Status times out on read
   * number max exactly, saying max * interval seconds.
   */
  lemma TimeoutAtMax(statuses: seq<Observation>, max: int, interval: int)
    requires max >= 1 && |statuses| >= max
    requires forall i :: 0 <= i < |statuses| ==> Quiet(statuses[i])
    ensures Run(INITIAL, statuses, max, interval).outcome == Some(TimeoutMessage(max, interval))
    ensures Run(INITIAL, statuses, max, interval).ticks == max
  {
    QuietTimesOut(INITIAL, statuses, max, interval);
  }

  /** String(30) is "30". */
  lemma ThirtyText()
    ensures IntText(DEFAULT_MAX * DEFAULT_INTERVAL) == "30"
  {
    assert NatText(3) == [DigitChar(3)];
    assert NatText(30) == NatText(3) + [DigitChar(0)];
  }

  /** With the defaults the timeout message reads "30 seconds max wait reached". */
  lemma DefaultTimeoutMessage()
    ensures TimeoutMessage(DEFAULT_MAX, DEFAULT_INTERVAL) == "30" + WAIT_SUFFIX
  {
    ThirtyText();
  }

  /**
   * `Status(sig)` as the library calls it (solotto.js:291, 328, 630): with
   * no confirmation in sight it gives up on the tenth read, after 30 seconds.
   */
  method BareStatusTimesOut(statuses: seq<Observation>) returns (outcome: Option<string>, polls: nat)
    requires |statuses| >= DEFAULT_MAX
    requires forall i :: 0 <= i < |statuses| ==> Quiet(statuses[i])
    ensures outcome == Some("30" + WAIT_SUFFIX) && polls == 10
  {
    outcome, polls := Status(statuses);
    TimeoutAtMax(statuses, DEFAULT_MAX, DEFAULT_INTERVAL);
    DefaultTimeoutMessage();
  }

  /**
   * With max below 1 the counter, which never drops below 1 before the
   * increment, never reaches max + 1: only a finalized answer ends the wait.
   */
  lemma {:induction false} NoTimeoutBelowOne(p: PollState, statuses: seq<Observation>, max: int, interval: int)
    requires max <= 0 && p.start >= 1
    requires p.outcome.None? || p.outcome == Some(FINALIZED) || p.outcome == Some(PROGRAM_ERROR)
    ensures var o := Run(p, statuses, max, interval).outcome;
      o.None? || o == Some(FINALIZED) || o == Some(PROGRAM_ERROR)
    decreases |statuses|
  {
    if !p.cleared && statuses != [] {
      var q := Tick(p, statuses[0], max, interval);
      assert q.start >= 2;
      NoTimeoutBelowOne(q, statuses[1..], max, interval);
    }
  }
}
