/** Idle timeouts, heartbeat intervals and the reaper's deadline. */
module Timeouts {
  import opened Base
  import opened SessionModel

  const HEARTBEAT_FLOOR: Duration := 60 * SECOND

  /** Go's `d / 4`: truncated toward zero. */
  function Quarter(d: int): (r: int)
    ensures d >= 0 ==> 4 * r <= d < 4 * r + 4
    ensures d <= 0 ==> 4 * r - 4 < d <= 4 * r
  {
    if d >= 0 then d / 4 else -((-d) / 4)
  }

  /** The gateway sees only the sandbox override. */
  function GatewayIdleTimeout(override: Option<Duration>): Duration {
    if override.Some? then override.value else 0
  }

  /** A quarter of the idle timeout, but never less than 60s. */
  function HeartbeatInterval(idle: Duration): (r: Duration)
    ensures idle >= 240 * SECOND ==> 4 * r <= idle < 4 * r + 4
    ensures idle < 240 * SECOND ==> r == 60 * SECOND
  {
    var quarter := Quarter(idle);
    assert FitsInt64(idle);
    if quarter > HEARTBEAT_FLOOR then quarter else HEARTBEAT_FLOOR
  }

  /** The controller falls back to the template default. */
  function EffectiveIdleTimeout(override: Option<Duration>, default: Option<Duration>): Duration {
    if override.Some? then override.value
    else if default.Some? then default.value
    else 0
  }

  /** A session opened by the gateway for a sandbox with this override. */
  predicate Stamped(x: Session, override: Option<Duration>) {
    x.interval == Some(HeartbeatInterval(GatewayIdleTimeout(override)))
  }

  /** The stamp is a quarter of the override, rounded down, or 60s when that is less
      or the sandbox has no override. */
  lemma StampExactly(x: Session, override: Option<Duration>)
    requires x.interval.Some?
    ensures Stamped(x, override) <==>
              if override.Some? && override.value >= 240 * SECOND
              then 4 * x.interval.value <= override.value < 4 * x.interval.value + 4
              else x.interval.value == 60 * SECOND
  {
    var idle := GatewayIdleTimeout(override);
    assert idle >= 240 * SECOND ==> 4 * HeartbeatInterval(idle) <= idle < 4 * HeartbeatInterval(idle) + 4;
  }

  /** The session `sid` as the gateway leaves it when it has opened it. */
  predicate OpenedFor(s: Sys, sid: string, sandbox: string, override: Option<Duration>) {
    && sid in s.sessions && s.sessions[sid].sandbox == sandbox && Stamped(s.sessions[sid], override)
    && s.sessions[sid].status.state == Active
    && s.sessions[sid].status.start.Some? && s.sessions[sid].status.last == s.sessions[sid].status.start
  }

  /** The reaper's deadline never overflows and never outlasts the idle timeout
      the controller uses, unless the 60s floor applies. */
  lemma ReapDeadlineBound(x: Session, override: Option<Duration>, default: Option<Duration>)
    requires Stamped(x, override)
    ensures ReapDeadline(x) == 3 * x.interval.value
    ensures 180 * SECOND <= ReapDeadline(x) <= Max(180 * SECOND, EffectiveIdleTimeout(override, default))
    ensures ReapDeadline(x) <= if override.Some? then Max(180 * SECOND, override.value) else 180 * SECOND
  {
    var idle := GatewayIdleTimeout(override);
    assert FitsInt64(3 * x.interval.value);
  }

  /** The reaper closes an Active session exactly when three of its intervals have passed
      since its last sign of life, three minutes if it carries none; intervals of more than
      a third of int64 wrap around. */
  lemma ReapsExactly(x: Session, now: Time)
    requires x.status.state == Active && x.status.last.Some? && x.status.last.value > 0
    ensures var three := if x.interval.Some? && x.interval.value > 0 then 3 * x.interval.value else 180 * SECOND;
            Write(Reap, x, now).Some? <==>
              now - x.status.last.value > if three <= INT64_MAX then three else three - 0x1_0000_0000_0000_0000
  {
    var three := if x.interval.Some? && x.interval.value > 0 then 3 * x.interval.value else 180 * SECOND;
    assert ReapDeadline(x) == Wrap64(three);
    if three > INT64_MAX { assert three - INT64_MIN == (three - INT64_MIN - 0x1_0000_0000_0000_0000) + 0x1_0000_0000_0000_0000; }
  }

  /** When the reaper asks to be woken again for a session it does not close; zero
      means never. */
  function ReapRequeue(x: Session, now: Time): int {
    ReapDeadline(x) - (now - LastSeen(x))
  }

  /** Looking at the deadline to the nanosecond, the reaper neither closes the
      session nor asks to be woken again; at every other time it does one of them. */
  lemma ReaperStallsExactly(x: Session, now: Time)
    requires x.status.state == Active && LastSeen(x) != 0
    ensures Write(Reap, x, now).None? && ReapRequeue(x, now) <= 0 <==> now == LastSeen(x) + ReapDeadline(x)
  {
  }
}
