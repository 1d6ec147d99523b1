/** SandboxSession objects under concurrent writers.

    Every writer reads an object and later sends a status update that the API
    server accepts only if the object still has the resourceVersion that was
    read. Between the read and the write any other actor may act. The module
    models that as a transition system: `held` remembers every copy any actor
    ever read, and a `Commit` may use any of them. */
module SessionModel {
  import opened Base

  // ---------------------------------------------------------------- objects

  datatype State = Unset | Active | Closed

  const DISCONNECTED := "Disconnected"
  const STALE_HEARTBEAT := "StaleHeartbeat"
  const SANDBOX_DELETED := "SandboxDeleted"

  datatype Status = Status(state: State, start: Option<Time>, last: Option<Time>,
                           end: Option<Time>, reason: string)

  const NEW_STATUS := Status(Unset, None, None, None, "")

  datatype Session = Session(uid: nat, rv: nat, created: Time, sandbox: string,
                             interval: Option<Duration>, status: Status)

  const DEFAULT_INTERVAL: Duration := 60 * SECOND
  const STALE_FACTOR: int := 3

  function LastSeen(s: Session): Time {
    if s.status.last.Some? then s.status.last.value
    else if s.status.start.Some? then s.status.start.value
    else s.created
  }

  function ReapInterval(s: Session): Duration {
    if s.interval.Some? && s.interval.value > 0 then s.interval.value else DEFAULT_INTERVAL
  }

  /** How long after the last sign of life a session counts as stale. */
  function ReapDeadline(s: Session): Duration {
    Wrap64(STALE_FACTOR * ReapInterval(s))
  }

  predicate Stale(s: Session, now: Time) {
    LastSeen(s) != 0 && now - LastSeen(s) > ReapDeadline(s)
  }

  // ---------------------------------------------------------------- writers

  datatype Writer =
    | MarkActive              // second half of the gateway's CreateSession
    | Beat                    // gateway heartbeat
    | Close(why: string)      // gateway closer
    | Reap                    // stale reaper
    | Sweep                   // sandbox finalizer

  /** The status a writer computes from the copy it read and the clock it
      sampled; None when it decides not to write. */
  function Write(w: Writer, s: Session, t: Time): Option<Status> {
    match w
    case MarkActive => Some(s.status.(state := Active, start := Some(t), last := Some(t)))
    case Beat =>
      if s.status.state == Active then Some(s.status.(last := Some(t))) else None
    case Close(why) =>
      if s.status.state != Closed
      then Some(s.status.(state := Closed, end := Some(t), reason := why)) else None
    case Reap =>
      if s.status.state == Active && Stale(s, t)
      then Some(s.status.(state := Closed, end := Some(LastSeen(s)), reason := STALE_HEARTBEAT))
      else None
    case Sweep =>
      if s.status.state == Active
      then Some(s.status.(state := Closed, end := Some(t), reason := SANDBOX_DELETED)) else None
  }

  // ----------------------------------------------------- transition system

  /** A copy some actor holds: read at `at`; `mine` marks the creator's copy. */
  datatype Held = Held(sid: string, copy: Session, at: Time, mine: bool)

  /** One accepted status write and who made it. */
  datatype Entry = Entry(uid: nat, before: Status, after: Status, writer: Writer)

  datatype Sys = Sys(now: Time, rev: nat, sessions: map<string, Session>,
                     held: set<Held>, log: seq<Entry>)

  datatype Event =
    | Tick(to: Time)
    | Create(sid: string, sandbox: string, interval: Option<Duration>)
    | Read(sid: string)
    | List
    | Commit(h: Held, w: Writer, t: Time)
    | Delete(sid: string)

  const INIT := Sys(1, 0, map[], {}, [])

  ghost predicate Enabled(s: Sys, e: Event) {
    match e
    case Tick(to) => s.now <= to
    case Create(sid, _, _) => sid !in s.sessions
    case Read(sid) => sid in s.sessions
    case List => true
    case Commit(h, w, t) =>
      && h in s.held && h.at <= t <= s.now
      && (w.MarkActive? ==> h.mine)
      && Write(w, h.copy, t).Some?
      && h.sid in s.sessions && s.sessions[h.sid].rv == h.copy.rv
    case Delete(sid) => sid in s.sessions
  }

  function Fresh(s: Sys, sandbox: string, interval: Option<Duration>): Session {
    Session(s.rev + 1, s.rev + 1, s.now, sandbox, interval, NEW_STATUS)
  }

  function Copies(s: Sys): set<Held> {
    set sid | sid in s.sessions :: Held(sid, s.sessions[sid], s.now, false)
  }

  function Committed(s: Sys, h: Held, w: Writer, t: Time): Session
    requires h.sid in s.sessions && Write(w, h.copy, t).Some?
  {
    s.sessions[h.sid].(rv := s.rev + 1, status := Write(w, h.copy, t).value)
  }

  function Apply(s: Sys, e: Event): Sys
    requires Enabled(s, e)
  {
    match e
    case Tick(to) => s.(now := to)
    case Create(sid, sandbox, interval) =>
      var x := Fresh(s, sandbox, interval);
      s.(rev := s.rev + 1, sessions := s.sessions[sid := x],
         held := s.held + {Held(sid, x, s.now, true)})
    case Read(sid) => s.(held := s.held + {Held(sid, s.sessions[sid], s.now, false)})
    case List => s.(held := s.held + Copies(s))
    case Commit(h, w, t) =>
      var x := Committed(s, h, w, t);
      s.(rev := s.rev + 1, sessions := s.sessions[h.sid := x],
         log := s.log + [Entry(x.uid, s.sessions[h.sid].status, x.status, w)])
    case Delete(sid) => s.(rev := s.rev + 1, sessions := s.sessions - {sid})
  }

  ghost predicate Legal(s: Sys, es: seq<Event>)
    decreases |es|
  {
    es == [] || (Enabled(s, es[0]) && Legal(Apply(s, es[0]), es[1..]))
  }

  ghost function Exec(s: Sys, es: seq<Event>): Sys
    requires Legal(s, es)
    decreases |es|
  {
    if es == [] then s else Exec(Apply(s, es[0]), es[1..])
  }

  // -------------------------------------------------------------- invariant

  /** What a stored (or copied) session looks like when the clock reads `now`. */
  ghost predicate Ordered(x: Session, now: Time) {
    && 0 < x.created <= now
    && match x.status.state {
         case Unset => x.status == NEW_STATUS
         case Active =>
           && x.status.start.Some? && x.status.last.Some? && x.status.end.None?
           && x.status.reason == ""
           && x.created <= x.status.start.value <= x.status.last.value <= now
         case Closed =>
           && x.status.end.Some? && x.created <= x.status.end.value <= now
           && x.status.start.Some? == x.status.last.Some?
           && (x.status.start.Some? ==>
                 x.created <= x.status.start.value <= x.status.last.value <= x.status.end.value)
       }
  }

  ghost predicate StoredOk(s: Sys, sid: string)
    requires sid in s.sessions
  {
    var x := s.sessions[sid];
    x.uid <= x.rv <= s.rev && Ordered(x, s.now)
  }

  /** A copy whose version is still current is the stored object. */
  ghost predicate HeldOk(s: Sys, h: Held) {
    && h.copy.rv <= s.rev && h.at <= s.now
    && Ordered(h.copy, h.at)
    && (h.mine ==> h.copy.status == NEW_STATUS)
    && (h.sid in s.sessions && s.sessions[h.sid].rv == h.copy.rv ==> s.sessions[h.sid] == h.copy)
  }

  ghost predicate Distinct(s: Sys) {
    forall a, b :: a in s.sessions && b in s.sessions && s.sessions[a].uid == s.sessions[b].uid ==> a == b
  }

  /** How many accepted writes closed the session with this uid. */
  ghost function Closings(log: seq<Entry>, uid: nat): nat {
    if log == [] then 0
    else Closings(log[..|log| - 1], uid)
         + (var x := log[|log| - 1]; if x.uid == uid && x.after.end.Some? then 1 else 0)
  }

  /** A write by the reaper dates the end at the last heartbeat. */
  ghost predicate EntryOk(x: Entry) {
    x.writer.Reap? ==> x.after.end == x.after.last && x.after.end.Some? && x.after.reason == STALE_HEARTBEAT
  }

  /** The closing write of a stored session is the one its status shows. */
  ghost predicate ShowsClosing(s: Sys, x: Entry) {
    forall sid :: sid in s.sessions && s.sessions[sid].uid == x.uid && x.after.end.Some? ==>
                    x.after == s.sessions[sid].status
  }

  ghost predicate LogOk(s: Sys) {
    && (forall i :: 0 <= i < |s.log| ==> s.log[i].uid <= s.rev && EntryOk(s.log[i]) && ShowsClosing(s, s.log[i]))
    && (forall sid :: sid in s.sessions ==>
          Closings(s.log, s.sessions[sid].uid) == if s.sessions[sid].status.state == Closed then 1 else 0)
    && (forall u: nat :: Closings(s.log, u) <= 1)
    && (forall u: nat :: u > s.rev ==> Closings(s.log, u) == 0)
  }

  ghost predicate Inv(s: Sys) {
    && 0 < s.now
    && (forall sid :: sid in s.sessions ==> StoredOk(s, sid))
    && (forall h :: h in s.held ==> HeldOk(s, h))
    && Distinct(s)
    && LogOk(s)
  }

  /** No writer breaks the order of timestamps, whatever the delay between the
      read and the write. */
  lemma WriteKeepsOrder(w: Writer, x: Session, at: Time, t: Time, now: Time)
    requires Ordered(x, at) && at <= t <= now
    requires w.MarkActive? ==> x.status == NEW_STATUS
    requires Write(w, x, t).Some?
    ensures Ordered(x.(status := Write(w, x, t).value), now)
    ensures x.status.state != Closed
    ensures EntryOk(Entry(x.uid, x.status, Write(w, x, t).value, w))
  {
  }

  lemma ClosingsAppend(log: seq<Entry>, x: Entry, uid: nat)
    ensures Closings(log + [x], uid)
            == Closings(log, uid) + if x.uid == uid && x.after.end.Some? then 1 else 0
  {
    assert (log + [x])[..|log|] == log;
  }

  lemma CommitKeepsLog(s: Sys, h: Held, w: Writer, t: Time)
    requires Inv(s) && Enabled(s, Commit(h, w, t))
    ensures LogOk(Apply(s, Commit(h, w, t)))
  {
    var s' := Apply(s, Commit(h, w, t));
    var x := s.sessions[h.sid];
    WriteKeepsOrder(w, h.copy, h.at, t, s.now);
    var entry := s'.log[|s.log|];
    forall u: nat
      ensures Closings(s'.log, u) == Closings(s.log, u) + if entry.uid == u && entry.after.end.Some? then 1 else 0
    {
      ClosingsAppend(s.log, entry, u);
    }
    assert entry.after.end.Some? <==> entry.after.state == Closed;
    forall i | 0 <= i < |s'.log| ensures s'.log[i].uid <= s'.rev && EntryOk(s'.log[i]) && ShowsClosing(s', s'.log[i]) {
      CommitKeepsEntry(s, h, w, t, i);
    }
  }

  lemma CommitKeepsEntry(s: Sys, h: Held, w: Writer, t: Time, i: nat)
    requires Inv(s) && Enabled(s, Commit(h, w, t)) && i <= |s.log|
    ensures var s' := Apply(s, Commit(h, w, t));
            s'.log[i].uid <= s'.rev && EntryOk(s'.log[i]) && ShowsClosing(s', s'.log[i])
  {
    var s' := Apply(s, Commit(h, w, t));
    assert HeldOk(s, h) && StoredOk(s, h.sid);
    WriteKeepsOrder(w, h.copy, h.at, t, s.now);
    assert Distinct(s);
    if i < |s.log| {
      assert s'.log[i] == s.log[i] && ShowsClosing(s, s.log[i]);
    }
  }

  lemma StoredStep(s: Sys, e: Event, sid: string)
    requires Inv(s) && Enabled(s, e) && sid in Apply(s, e).sessions
    ensures StoredOk(Apply(s, e), sid)
  {
    if e.Commit? && sid == e.h.sid {
      WriteKeepsOrder(e.w, e.h.copy, e.h.at, e.t, s.now);
    } else if !(e.Create? && sid == e.sid) {
      assert StoredOk(s, sid);
    }
  }

  lemma HeldStep(s: Sys, e: Event, h: Held)
    requires Inv(s) && Enabled(s, e) && h in Apply(s, e).held
    ensures HeldOk(Apply(s, e), h)
  {
    if h in s.held {
      assert HeldOk(s, h);
    } else if e.Read? || e.List? {
      assert StoredOk(s, h.sid);
    }
  }

  lemma LogStep(s: Sys, e: Event)
    requires Inv(s) && Enabled(s, e)
    ensures LogOk(Apply(s, e))
  {
    if e.Commit? {
      CommitKeepsLog(s, e.h, e.w, e.t);
    } else {
      forall i | 0 <= i < |s.log| ensures ShowsClosing(Apply(s, e), s.log[i]) { assert ShowsClosing(s, s.log[i]); }
    }
  }

  lemma DistinctStep(s: Sys, e: Event)
    requires Inv(s) && Enabled(s, e)
    ensures Distinct(Apply(s, e))
  {
    var s' := Apply(s, e);
    forall a, b | a in s'.sessions && b in s'.sessions && s'.sessions[a].uid == s'.sessions[b].uid
      ensures a == b
    {
      if e.Create? {
        if a != e.sid { assert StoredOk(s, a); }
        if b != e.sid { assert StoredOk(s, b); }
      }
    }
  }

  lemma InvStep(s: Sys, e: Event)
    requires Inv(s) && Enabled(s, e)
    ensures Inv(Apply(s, e))
  {
    var s' := Apply(s, e);
    forall sid | sid in s'.sessions ensures StoredOk(s', sid) { StoredStep(s, e, sid); }
    forall h | h in s'.held ensures HeldOk(s', h) { HeldStep(s, e, h); }
    DistinctStep(s, e);
    LogStep(s, e);
  }

  // --------------------------------------------------------- whole-run laws

  /** The invariant holds in every later state. */
  lemma {:induction false} InvAlways(s: Sys, es: seq<Event>)
    requires Inv(s) && Legal(s, es)
    ensures Inv(Exec(s, es))
    decreases |es|
  {
    if es != [] {
      InvStep(s, es[0]);
      InvAlways(Apply(s, es[0]), es[1..]);
    }
  }

  /** From the empty store on, in every interleaving of the writers: the timestamps
      of every session are ordered, an open session has no end and no reason, a
      session closed by the reaper ended at its last heartbeat, and every session is
      closed by at most one accepted write, exactly one once it is Closed. */
  lemma TimestampsOrdered(es: seq<Event>, sid: string)
    requires Legal(INIT, es) && sid in Exec(INIT, es).sessions
    ensures var s := Exec(INIT, es);
            var x := s.sessions[sid];
            && Ordered(x, s.now)
            && Closings(s.log, x.uid) == (if x.status.state == Closed then 1 else 0)
            && (forall i :: 0 <= i < |s.log| && s.log[i].uid == x.uid && s.log[i].after.end.Some? ==>
                  s.log[i].after == x.status && (s.log[i].writer.Reap? ==> x.status.end == x.status.last))
  {
    InvAlways(INIT, es);
    var s := Exec(INIT, es);
    assert StoredOk(s, sid);
    forall i | 0 <= i < |s.log| && s.log[i].uid == s.sessions[sid].uid && s.log[i].after.end.Some?
      ensures s.log[i].after == s.sessions[sid].status
    {
      assert ShowsClosing(s, s.log[i]);
    }
  }

  /** What a later state may show of a session stored earlier. */
  ghost predicate Later(x: Session, s': Sys, sid: string) {
    sid in s'.sessions && s'.sessions[sid].uid == x.uid ==>
      var y := s'.sessions[sid];
      && (x.status.state == Closed ==> y.status == x.status)
      && (x.status.state == Active ==> y.status.state != Unset)
      && (x.status.start.Some? ==> y.status.start == x.status.start)
      && (x.status.last.Some? ==> y.status.last.Some? && x.status.last.value <= y.status.last.value)
  }

  /** What a writer may change of the copy it read. */
  lemma WriteKeepsLater(w: Writer, y: Session, at: Time, t: Time)
    requires Ordered(y, at) && at <= t && Write(w, y, t).Some? && (w.MarkActive? ==> y.status == NEW_STATUS)
    ensures var st := Write(w, y, t).value;
            && y.status.state != Closed
            && st.state != Unset
            && (y.status.start.Some? ==> st.start == y.status.start)
            && (y.status.last.Some? ==> st.last.Some? && y.status.last.value <= st.last.value)
  {
  }

  lemma LaterStep(x: Session, s: Sys, e: Event, sid: string)
    requires Inv(s) && Enabled(s, e) && x.uid <= s.rev && Later(x, s, sid)
    ensures Later(x, Apply(s, e), sid)
  {
    if e.Commit? && e.h.sid == sid {
      assert HeldOk(s, e.h);
      WriteKeepsLater(e.w, e.h.copy, e.h.at, e.t);
      var y, y' := s.sessions[sid], Apply(s, e).sessions[sid];
      assert y == e.h.copy && y'.uid == y.uid && Some(y'.status) == Write(e.w, y, e.t);
    } else if sid in Apply(s, e).sessions && !(e.Create? && e.sid == sid) {
      assert sid in s.sessions && Apply(s, e).sessions[sid] == s.sessions[sid];
    }
  }

  lemma {:induction false} LaterAlways(x: Session, s: Sys, es: seq<Event>, sid: string)
    requires Inv(s) && Legal(s, es) && x.uid <= s.rev && Later(x, s, sid)
    ensures Later(x, Exec(s, es), sid)
    decreases |es|
  {
    if es != [] {
      InvStep(s, es[0]);
      LaterStep(x, s, es[0], sid);
      LaterAlways(x, Apply(s, es[0]), es[1..], sid);
    }
  }

  /** In every interleaving a Closed session stays exactly as it was closed
      until it is deleted, and its heartbeat never moves backwards. */
  lemma ClosedIsFinal(es: seq<Event>, more: seq<Event>, sid: string)
    requires Legal(INIT, es) && Legal(Exec(INIT, es), more)
    ensures var s, s' := Exec(INIT, es), Exec(Exec(INIT, es), more);
            sid in s.sessions ==>
              && Later(s.sessions[sid], s', sid)
              && (s.sessions[sid].status.state == Closed ==> Closings(s'.log, s.sessions[sid].uid) == 1)
  {
    InvAlways(INIT, es);
    var s := Exec(INIT, es);
    if sid in s.sessions {
      var x := s.sessions[sid];
      LaterAlways(x, s, more, sid);
      if x.status.state == Closed {
        ClosingsKept(s, more, x.uid);
        InvAlways(s, more);
      }
    }
  }

  lemma {:induction false} ClosingsKept(s: Sys, es: seq<Event>, uid: nat)
    requires Legal(s, es)
    ensures Closings(Exec(s, es).log, uid) >= Closings(s.log, uid)
    decreases |es|
  {
    if es != [] {
      var s' := Apply(s, es[0]);
      if es[0].Commit? { ClosingsAppend(s.log, s'.log[|s.log|], uid); }
      ClosingsKept(s', es[1..], uid);
    }
  }
}
