/** Wake-on-connect: the gateway resumes a sandbox and polls until it shows a pod
    address or the wait times out. */
module Wake {
  import opened Base

  const POLL_INTERVAL: int := 2 * SECOND
  const DEFAULT_WAKE_TIMEOUT: int := 180 * SECOND

  /** The configured timeout, three minutes when it is left at zero. */
  function WakeTimeout(configured: int): int {
    if configured == 0 then DEFAULT_WAKE_TIMEOUT else configured
  }

  /** What the gateway sees of a sandbox. */
  datatype Seen = Seen(name: string, podIP: string, wantsRunning: bool)

  datatype Outcome = Connected(sb: Seen) | ResumeFailed | TimedOut | Cancelled

  /** Each wait between two polls lets at least the poll interval pass. */
  ghost predicate Advances(clock: nat -> int) {
    forall i: nat, j: nat :: i <= j ==> clock(j) - clock(i) >= (j - i) * POLL_INTERVAL
  }

  predicate Dialable(s: Seen) {
    s.podIP != ""
  }

  /** The answer of poll `i` is a sandbox that can be dialled. */
  predicate Answers(poll: nat -> Option<Seen>, i: nat) {
    poll(i).Some? && Dialable(poll(i).value)
  }

  /** Poll `i` ends the loop. */
  predicate Stops(poll: nat -> Option<Seen>, clock: nat -> int, cancelled: nat -> bool, deadline: int, i: nat) {
    Answers(poll, i) || clock(i) > deadline || cancelled(i)
  }

  /** `poll(i)` is what the i-th lookup returns (None on any error), `clock(i)` the
      time read after it, `cancelled(i)` whether the connection is gone by the end
      of the wait that follows. The result is decided by the first poll that stops
      the loop, and every such behaviour stops it within timeout/2s + 2 polls, where
      the timeout is the configured one or, at zero, three minutes. */
  method WakeAndWait(sb: Seen, configured: int, resumeOk: bool, begin: int,
                     poll: nat -> Option<Seen>, clock: nat -> int, cancelled: nat -> bool)
    returns (r: Outcome, polls: nat)
    requires Advances(clock) && begin <= clock(0)
    ensures r.Connected? ==> Dialable(r.sb)
    ensures (sb.podIP != "" && sb.wantsRunning) <==> (polls == 0 && r == Connected(sb))
    ensures r == ResumeFailed <==> !(sb.podIP != "" && sb.wantsRunning) && !(sb.wantsRunning || resumeOk)
    ensures polls <= Max(1, (if configured == 0 then 180 * SECOND else configured) / (2 * SECOND) + 2)
    ensures var deadline := begin + if configured == 0 then 180 * SECOND else configured;
            polls > 0 ==>
              && Stops(poll, clock, cancelled, deadline, polls - 1)
              && (forall i: nat :: i < polls - 1 ==> !Stops(poll, clock, cancelled, deadline, i))
              && (r.Connected? <==> Answers(poll, polls - 1))
              && (r.Connected? ==> r.sb == poll(polls - 1).value)
              && (r.TimedOut? <==> !Answers(poll, polls - 1) && clock(polls - 1) > deadline)
  {
    polls := 0;
    if sb.podIP != "" && sb.wantsRunning { return Connected(sb), 0; }
    if !sb.wantsRunning && !resumeOk { return ResumeFailed, 0; }
    var timeout := WakeTimeout(configured);
    var deadline := begin + timeout;
    while true
      invariant forall i: nat :: i < polls ==> !Stops(poll, clock, cancelled, deadline, i)
      invariant polls > 0 ==> (polls - 1) * POLL_INTERVAL <= timeout
      decreases Max(0, timeout / POLL_INTERVAL + 2) - polls
    {
      PollBound(clock, begin, timeout, polls);
      var answer := poll(polls);
      polls := polls + 1;
      if answer.Some? && answer.value.podIP != "" { return Connected(answer.value), polls; }
      if clock(polls - 1) > deadline { return TimedOut, polls; }
      if cancelled(polls - 1) { return Cancelled, polls; }
    }
  }

  /** How many polls fit before the deadline. */
  lemma PollBound(clock: nat -> int, begin: int, timeout: int, polls: nat)
    requires Advances(clock) && begin <= clock(0)
    requires polls > 0 ==> (polls - 1) * POLL_INTERVAL <= timeout
    ensures polls + 1 <= Max(1, timeout / POLL_INTERVAL + 2)
    ensures clock(polls) <= begin + timeout ==> polls * POLL_INTERVAL <= timeout
  {
    assert clock(polls) - clock(0) >= polls * POLL_INTERVAL;
  }
}
