/** Why the session of a living gateway is never reaped, and when it can be. */
module LiveSessions {
  import opened Base
  import opened SessionModel
  import opened Timeouts

  /** One heartbeat: the clock it wrote, when the write landed, or lost. */
  datatype Pulse = Pulse(stamp: Time, landed: Time, lost: bool)

  /** The heartbeats of one session, made by one goroutine one after the other: at
      multiples of `interval` from `start`, late by at most `slack`, never more than `k`
      in a row lost. Beat zero is the write that opened the session. */
  ghost predicate Beating(beats: nat -> Pulse, start: Time, interval: nat, k: nat, slack: nat) {
    && !beats(0).lost
    && (forall i: nat :: OnSchedule(beats, i, start, interval, slack))
    && (forall i: nat :: OneByOne(beats, i))
    && (forall i: nat :: Survives(beats, i, k))
  }

  predicate InWindow(p: Pulse, from: Time, slack: nat) {
    from <= p.stamp <= p.landed <= from + slack
  }

  predicate OnSchedule(beats: nat -> Pulse, i: nat, start: Time, interval: nat, slack: nat) {
    InWindow(beats(i), start + i * interval, slack)
  }

  predicate OneByOne(beats: nat -> Pulse, i: nat) {
    beats(i).landed <= beats(i + 1).stamp
  }

  ghost predicate Survives(beats: nat -> Pulse, i: nat, k: nat) {
    exists j: nat :: i < j <= i + k + 1 && !beats(j).lost
  }

  /** The first beat from `i` on that is not lost, looking at `more` further ones. */
  function FirstFrom(beats: nat -> Pulse, i: nat, more: nat): nat
    decreases more
  {
    if more == 0 || !beats(i).lost then i else FirstFrom(beats, i + 1, more - 1)
  }

  /** The beat that lands after beat `n`. */
  function NextBeat(beats: nat -> Pulse, n: nat, k: nat): nat {
    FirstFrom(beats, n + 1, k)
  }

  lemma {:induction false} FirstFromFinds(beats: nat -> Pulse, i: nat, more: nat, j: nat)
    requires i <= j <= i + more && !beats(j).lost
    ensures var f := FirstFrom(beats, i, more); i <= f <= j && !beats(f).lost
    decreases more
  {
    if more > 0 && beats(i).lost { FirstFromFinds(beats, i + 1, more - 1, j); }
  }

  lemma NextBeatFinds(beats: nat -> Pulse, n: nat, k: nat)
    requires Survives(beats, n, k)
    ensures var m := NextBeat(beats, n, k); n < m <= n + k + 1 && !beats(m).lost
  {
    var j: nat :| n < j <= n + k + 1 && !beats(j).lost;
    FirstFromFinds(beats, n + 1, k, j);
  }

  lemma {:induction false} LandingsOrdered(beats: nat -> Pulse, start: Time, interval: nat, k: nat, slack: nat, i: nat, j: nat)
    requires Beating(beats, start, interval, k, slack) && i < j
    ensures beats(i).landed <= beats(j).stamp
    decreases j
  {
    assert OneByOne(beats, i);
    if i + 1 < j {
      LandingsOrdered(beats, start, interval, k, slack, i, j - 1);
      assert OnSchedule(beats, j - 1, start, interval, slack);
      assert OneByOne(beats, j - 1);
    }
  }

  // -------------------------------------------------------------------- runs

  /** What may happen to the session while its gateway lives and its last landed beat
      is `n`: the next beat that is not lost is written with its stamp when it lands,
      time does not pass that landing without it, nobody but the reaper tries to close
      the session, and it is not deleted. All else is free. */
  predicate Keeps(s: Sys, e: Event, sid: string, beats: nat -> Pulse, k: nat, n: nat) {
    match e
    case Commit(h, w, t) =>
      h.sid == sid ==>
        w.Reap? || (w.Beat? && t == beats(NextBeat(beats, n, k)).stamp && s.now == beats(NextBeat(beats, n, k)).landed)
    case Delete(x) => x != sid
    case Tick(to) => to <= beats(NextBeat(beats, n, k)).landed
    case _ => true
  }

  predicate IsBeat(e: Event, sid: string) {
    e.Commit? && e.h.sid == sid && e.w.Beat?
  }

  predicate IsReap(e: Event, sid: string) {
    e.Commit? && e.h.sid == sid && e.w.Reap?
  }

  function Landed(e: Event, sid: string, beats: nat -> Pulse, k: nat, n: nat): nat {
    if IsBeat(e, sid) then NextBeat(beats, n, k) else n
  }

  ghost predicate LiveRun(s: Sys, es: seq<Event>, sid: string, beats: nat -> Pulse, k: nat, n: nat)
    requires Legal(s, es)
    decreases |es|
  {
    es == []
    || (Keeps(s, es[0], sid, beats, k, n)
        && LiveRun(Apply(s, es[0]), es[1..], sid, beats, k, Landed(es[0], sid, beats, k, n)))
  }

  /** The stored session carries the stamp of beat `n`, the latest to land. */
  ghost predicate Shows(s: Sys, sid: string, interval: Duration, beats: nat -> Pulse, k: nat, n: nat) {
    && sid in s.sessions && s.sessions[sid].status.state == Active && s.sessions[sid].interval == Some(interval)
    && s.sessions[sid].status.last == Some(beats(n).stamp)
    && beats(n).landed <= s.now <= beats(NextBeat(beats, n, k)).landed
  }

  lemma MulLe(a: nat, b: nat, m: nat)
    requires a <= b
    ensures a * m <= b * m
  {
  }

  lemma MulSplit(a: nat, b: nat, m: nat)
    ensures (a + b) * m == a * m + b * m
  {
  }

  /** Between two beats that land there are at most `(k+1)*interval + slack`. */
  lemma GapBound(beats: nat -> Pulse, start: Time, interval: nat, k: nat, slack: nat, n: nat)
    requires Beating(beats, start, interval, k, slack)
    ensures var m := NextBeat(beats, n, k);
            n < m && beats(n).landed <= beats(m).stamp <= beats(m).landed <= beats(n).stamp + (k + 1) * interval + slack
  {
    var m := NextBeat(beats, n, k);
    assert Survives(beats, n, k);
    NextBeatFinds(beats, n, k);
    LandingsOrdered(beats, start, interval, k, slack, n, m);
    assert OnSchedule(beats, n, start, interval, slack) && OnSchedule(beats, m, start, interval, slack);
    WindowGap(beats(n), beats(m), start, n, m, k, interval, slack);
  }

  lemma WindowGap(p: Pulse, q: Pulse, start: Time, n: nat, m: nat, k: nat, interval: nat, slack: nat)
    requires m <= n + k + 1
    requires InWindow(p, start + n * interval, slack) && InWindow(q, start + m * interval, slack)
    ensures q.landed <= p.stamp + (k + 1) * interval + slack
  {
    MulLe(m, n + (k + 1), interval);
    MulSplit(n, k + 1, interval);
  }

  /** No write of the reaper on the session is accepted, whenever it read and whatever
      clock it sampled. */
  lemma ReapRefused(s: Sys, e: Event, sid: string, override: Option<Duration>,
                    beats: nat -> Pulse, start: Time, k: nat, slack: nat, n: nat)
    requires Inv(s) && IsReap(e, sid)
    requires var i := HeartbeatInterval(GatewayIdleTimeout(override));
             Beating(beats, start, i, k, slack) && (k + 1) * i + slack <= 3 * i && Shows(s, sid, i, beats, k, n)
    ensures !Enabled(s, e)
  {
    ReapDeadlineBound(s.sessions[sid], override, None);
    GapBound(beats, start, HeartbeatInterval(GatewayIdleTimeout(override)), k, slack, n);
    assert e.h in s.held ==> HeldOk(s, e.h);
  }

  lemma ShowsStep(s: Sys, e: Event, sid: string, interval: Duration,
                  beats: nat -> Pulse, start: Time, k: nat, slack: nat, n: nat)
    requires Inv(s) && Enabled(s, e) && Keeps(s, e, sid, beats, k, n) && !IsReap(e, sid) && interval >= 0
    requires Beating(beats, start, interval, k, slack) && Shows(s, sid, interval, beats, k, n)
    ensures Shows(Apply(s, e), sid, interval, beats, k, Landed(e, sid, beats, k, n))
  {
    if IsBeat(e, sid) {
      assert HeldOk(s, e.h);
      GapBound(beats, start, interval, k, slack, NextBeat(beats, n, k));
    }
  }

  ghost predicate NoReap(es: seq<Event>, sid: string) {
    forall i :: 0 <= i < |es| ==> !IsReap(es[i], sid)
  }

  /** In every run of all actors in which the gateway of an open session lives, with at
      most `k` beats in a row lost and (k+1) intervals plus the lateness within three
      intervals, the reaper never closes the session: it stays Active throughout and
      shows the latest beat that landed. */
  lemma {:induction false} LiveNeverReaped(s: Sys, es: seq<Event>, sid: string, override: Option<Duration>,
                                           beats: nat -> Pulse, start: Time, k: nat, slack: nat, n: nat)
    returns (m: nat)
    requires Inv(s) && Legal(s, es) && LiveRun(s, es, sid, beats, k, n)
    requires var i := HeartbeatInterval(GatewayIdleTimeout(override));
             Beating(beats, start, i, k, slack) && (k + 1) * i + slack <= 3 * i && Shows(s, sid, i, beats, k, n)
    ensures NoReap(es, sid)
    ensures n <= m && Shows(Exec(s, es), sid, HeartbeatInterval(GatewayIdleTimeout(override)), beats, k, m)
    decreases |es|
  {
    var i := HeartbeatInterval(GatewayIdleTimeout(override));
    m := n;
    if es != [] {
      if IsReap(es[0], sid) { ReapRefused(s, es[0], sid, override, beats, start, k, slack, n); }
      InvStep(s, es[0]);
      ShowsStep(s, es[0], sid, i, beats, start, k, slack, n);
      GapBound(beats, start, i, k, slack, n);
      m := LiveNeverReaped(Apply(s, es[0]), es[1..], sid, override, beats, start, k, slack, Landed(es[0], sid, beats, k, n));
      assert forall j :: 0 < j < |es| ==> es[j] == es[1..][j - 1];
    }
  }

  /** A session the gateway has just opened, for a sandbox with any override, whose beats
      from then on keep to the margin: it is never reaped and stays Active in every run. */
  lemma OpenedNeverReaped(s: Sys, es: seq<Event>, sid: string, sandbox: string, override: Option<Duration>,
                          beats: nat -> Pulse, k: nat, slack: nat)
    requires Inv(s) && OpenedFor(s, sid, sandbox, override) && Legal(s, es) && LiveRun(s, es, sid, beats, k, 0)
    requires beats(0) == Pulse(s.sessions[sid].status.last.value, s.now, false)
    requires var i := s.sessions[sid].interval.value;
             i >= 0 && Beating(beats, s.sessions[sid].status.last.value, i, k, slack) && (k + 1) * i + slack <= 3 * i
    ensures NoReap(es, sid)
    ensures var s' := Exec(s, es);
            sid in s'.sessions && s'.sessions[sid].status.state == Active && s'.sessions[sid].sandbox == sandbox
  {
    var i := HeartbeatInterval(GatewayIdleTimeout(override));
    GapBound(beats, s.sessions[sid].status.last.value, i, k, slack, 0);
    assert Shows(s, sid, i, beats, k, 0);
    var m := LiveNeverReaped(s, es, sid, override, beats, s.sessions[sid].status.last.value, k, slack, 0);
    forall j | 0 <= j < |es| ensures !(es[j].Delete? && es[j].sid == sid) {
      LiveRunDeletesNothing(s, es, sid, beats, k, 0, j);
    }
    BelongsAlong(s, es, sid);
  }

  /** Sessions never change sandbox. */
  lemma {:induction false} BelongsAlong(s: Sys, es: seq<Event>, sid: string)
    requires Legal(s, es) && sid in s.sessions
    requires forall i :: 0 <= i < |es| ==> !(es[i].Delete? && es[i].sid == sid)
    ensures sid in Exec(s, es).sessions
    ensures Exec(s, es).sessions[sid].sandbox == s.sessions[sid].sandbox
    ensures Exec(s, es).sessions[sid].interval == s.sessions[sid].interval
    decreases |es|
  {
    if es != [] { BelongsAlong(Apply(s, es[0]), es[1..], sid); }
  }

  lemma {:induction false} LiveRunDeletesNothing(s: Sys, es: seq<Event>, sid: string, beats: nat -> Pulse, k: nat, n: nat, i: nat)
    requires Legal(s, es) && LiveRun(s, es, sid, beats, k, n) && i < |es|
    ensures !(es[i].Delete? && es[i].sid == sid)
    decreases |es|
  {
    if i > 0 {
      LiveRunDeletesNothing(Apply(s, es[0]), es[1..], sid, beats, k, Landed(es[0], sid, beats, k, n), i - 1);
    }
  }

  // ------------------------------------------------------- the margin is exact

  /** Beats 1 to `k` are lost and all later ones are as late as allowed. */
  function LateBeats(interval: nat, k: nat, slack: nat): nat -> Pulse {
    (i: nat) =>
      if i == 0 then Pulse(1, 1, false)
      else if i <= k then Pulse(1 + i * interval, 1 + i * interval, true)
      else Pulse(1 + i * interval + slack, 1 + i * interval + slack, false)
  }

  lemma LateBeatsBeat(interval: nat, k: nat, slack: nat)
    ensures Beating(LateBeats(interval, k, slack), 1, interval, k, slack)
    ensures NextBeat(LateBeats(interval, k, slack), 0, k) == k + 1
  {
    var beats := LateBeats(interval, k, slack);
    forall i: nat ensures OneByOne(beats, i) { assert (i + 1) * interval == i * interval + interval; }
    forall i: nat ensures Survives(beats, i, k) {
      var j := if i < k + 1 then k + 1 else i + 1;
      assert i < j <= i + k + 1 && !beats(j).lost;
    }
    assert Survives(beats, 0, k);
    NextBeatFinds(beats, 0, k);
  }

  /** The session "s" just opened in an empty store. */
  function JustOpened(interval: Duration): Sys {
    var x := Session(1, 1, 1, "a", Some(interval), NEW_STATUS);
    var st := Status(Active, Some(1), Some(1), None, "");
    Sys(1, 2, map["s" := x.(rv := 2, status := st)], {Held("s", x, 1, true)}, [Entry(1, NEW_STATUS, st, MarkActive)])
  }

  lemma JustOpenedReached(interval: Duration)
    ensures var h := Held("s", Session(1, 1, 1, "a", Some(interval), NEW_STATUS), 1, true);
            var es := [Create("s", "a", Some(interval)), Commit(h, MarkActive, 1)];
            Legal(INIT, es) && Exec(INIT, es) == JustOpened(interval)
  {
    var h := Held("s", Session(1, 1, 1, "a", Some(interval), NEW_STATUS), 1, true);
    var e0, e1 := Create("s", "a", Some(interval)), Commit(h, MarkActive, 1);
    var s1 := Sys(1, 1, map["s" := h.copy], {h}, []);
    assert Apply(INIT, e0) == s1;
    assert Apply(s1, e1) == JustOpened(interval);
    assert [e0, e1][1..] == [e1] && [e1][1..] == [];
    assert Legal(JustOpened(interval), []) && Exec(JustOpened(interval), []) == JustOpened(interval);
    assert Legal(s1, [e1]) && Exec(s1, [e1]) == JustOpened(interval);
  }

  /** The reaper looks a nanosecond after its deadline. */
  function ReapingRun(interval: Duration): seq<Event>
    requires interval >= 0
  {
    var t := 2 + 3 * interval;
    [Tick(t), Read("s"), Commit(Held("s", JustOpened(interval).sessions["s"], t, false), Reap, t)]
  }

  /** A run with a living gateway that ends with its session reaped. */
  ghost predicate ReapedAlive(s: Sys, es: seq<Event>, sid: string, beats: nat -> Pulse, k: nat, n: nat) {
    && Legal(s, es) && LiveRun(s, es, sid, beats, k, n) && !NoReap(es, sid)
    && sid in Exec(s, es).sessions && Exec(s, es).sessions[sid].status.state == Closed
  }

  lemma ReapingRunReaps(i: Duration, beats: nat -> Pulse, k: nat)
    requires 60 * SECOND <= i && ReapDeadline(JustOpened(i).sessions["s"]) == 3 * i
    requires 2 + 3 * i <= beats(NextBeat(beats, 0, k)).landed
    ensures ReapedAlive(JustOpened(i), ReapingRun(i), "s", beats, k, 0)
  {
    var s, es := JustOpened(i), ReapingRun(i);
    var s1 := Apply(s, es[0]);
    var s2 := Apply(s1, es[1]);
    assert Enabled(s2, es[2]);
    var s3 := Apply(s2, es[2]);
    assert es[1..] == [es[1], es[2]] && [es[1], es[2]][1..] == [es[2]] && [es[2]][1..] == [];
    assert Legal(s3, []) && LiveRun(s3, [], "s", beats, k, 0) && Exec(s3, []) == s3;
    assert Legal(s2, [es[2]]) && LiveRun(s2, [es[2]], "s", beats, k, 0) && Exec(s2, [es[2]]) == s3;
    assert Legal(s1, es[1..]) && LiveRun(s1, es[1..], "s", beats, k, 0) && Exec(s1, es[1..]) == s3;
    assert Legal(s, es) && LiveRun(s, es, "s", beats, k, 0) && Exec(s, es) == s3;
    assert IsReap(es[2], "s");
  }

  /** The margin is exact: for every other `k` and lateness there is a gateway that
      keeps to them and whose session is reaped. */
  lemma MarginIsExact(override: Option<Duration>, k: nat, slack: nat)
    requires var i := HeartbeatInterval(GatewayIdleTimeout(override)); (k + 1) * i + slack > 3 * i
    ensures var i := HeartbeatInterval(GatewayIdleTimeout(override));
            var beats := LateBeats(i, k, slack);
            && Beating(beats, 1, i, k, slack) && Shows(JustOpened(i), "s", i, beats, k, 0)
            && ReapedAlive(JustOpened(i), ReapingRun(i), "s", beats, k, 0)
    ensures exists es :: Legal(INIT, es) && Exec(INIT, es) == JustOpened(HeartbeatInterval(GatewayIdleTimeout(override)))
  {
    var i := HeartbeatInterval(GatewayIdleTimeout(override));
    JustOpenedReached(i);
    LateBeatsBeat(i, k, slack);
    ReapDeadlineBound(JustOpened(i).sessions["s"], override, None);
    ReapingRunReaps(i, LateBeats(i, k, slack), k);
  }

  // ---------------------------------------------------------- the reaper stalls

  /** A run from the empty store after which the reaper looks exactly at the deadline: it
      does not close the session, and the requeue it asks for is none. */
  lemma StallReachable() returns (es: seq<Event>)
    ensures Legal(INIT, es) && "s" in Exec(INIT, es).sessions
    ensures var s := Exec(INIT, es);
            var x := s.sessions["s"];
            x.status.state == Active && Write(Reap, x, s.now).None? && ReapRequeue(x, s.now) == 0
  {
    var i: Duration := 60 * SECOND;
    var h := Held("s", Session(1, 1, 1, "a", Some(i), NEW_STATUS), 1, true);
    JustOpenedReached(i);
    var e0, e1, e2 := Create("s", "a", Some(i)), Commit(h, MarkActive, 1), Tick(1 + 180 * SECOND);
    es := [e0, e1, e2];
    var s1 := Apply(INIT, e0);
    var s2 := JustOpened(i);
    var s3 := s2.(now := 1 + 180 * SECOND);
    assert es[1..] == [e1, e2] && [e1, e2][1..] == [e2] && [e2][1..] == [];
    assert [e0, e1][1..] == [e1] && [e1][1..] == [];
    assert Legal(s1, [e1]) && Apply(s1, e1) == s2;
    assert Legal(s3, []) && Exec(s3, []) == s3;
    assert Legal(s2, [e2]) && Exec(s2, [e2]) == s3;
    assert Legal(s1, [e1, e2]) && Exec(s1, [e1, e2]) == s3;
    assert FitsInt64(180 * SECOND);
  }
}
