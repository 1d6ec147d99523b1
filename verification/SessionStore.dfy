/** The operations that write SandboxSession objects, run against an API server
    that other actors use at the same time. Each operation is proved to be a
    run of the transition system in `SessionModel`, so every law of that system
    holds of the code. */
module SessionStore {
  import opened Base
  import opened SessionModel
  import opened Timeouts

  /** `b` can follow `a` through steps of any actors. */
  ghost predicate Reach(a: Sys, b: Sys) {
    exists es :: Legal(a, es) && Exec(a, es) == b
  }

  lemma ReachRefl(a: Sys)
    ensures Reach(a, a)
  {
    assert Legal(a, []) && Exec(a, []) == a;
  }

  lemma ReachOne(a: Sys, e: Event)
    requires Enabled(a, e)
    ensures Reach(a, Apply(a, e))
  {
    assert Legal(Apply(a, e), []);
    assert [e][1..] == [];
    assert Legal(a, [e]) && Exec(a, [e]) == Apply(a, e);
  }

  lemma {:induction false} ExecConcat(a: Sys, es: seq<Event>, fs: seq<Event>)
    requires Legal(a, es) && Legal(Exec(a, es), fs)
    ensures Legal(a, es + fs) && Exec(a, es + fs) == Exec(Exec(a, es), fs)
    decreases |es|
  {
    if es == [] {
      assert es + fs == fs;
    } else {
      assert (es + fs)[1..] == es[1..] + fs;
      ExecConcat(Apply(a, es[0]), es[1..], fs);
    }
  }

  lemma ReachTrans(a: Sys, b: Sys, c: Sys)
    requires Reach(a, b) && Reach(b, c)
    ensures Reach(a, c)
  {
    var es :| Legal(a, es) && Exec(a, es) == b;
    var fs :| Legal(b, fs) && Exec(b, fs) == c;
    ExecConcat(a, es, fs);
  }

  /** A later state keeps the invariant, and the sessions it stores are the old
      ones or newly created ones. */
  lemma ReachKeeps(a: Sys, b: Sys)
    requires Inv(a) && Reach(a, b)
    ensures Inv(b) && a.rev <= b.rev
    ensures forall sid :: sid in a.sessions ==> Later(a.sessions[sid], b, sid)
    ensures forall sid :: sid in b.sessions ==> Same(a, b, sid)
  {
    var es :| Legal(a, es) && Exec(a, es) == b;
    InvAlways(a, es);
    SameAlways(a, es);
    forall sid | sid in a.sessions ensures Later(a.sessions[sid], b, sid) {
      assert StoredOk(a, sid);
      LaterAlways(a.sessions[sid], a, es, sid);
    }
  }

  ghost predicate Same(a: Sys, b: Sys, sid: string)
    requires sid in b.sessions
  {
    b.sessions[sid].uid > a.rev || (sid in a.sessions && a.sessions[sid].uid == b.sessions[sid].uid)
  }

  lemma {:induction false} SameAlways(a: Sys, es: seq<Event>)
    requires Legal(a, es)
    ensures a.rev <= Exec(a, es).rev
    ensures forall sid :: sid in Exec(a, es).sessions ==> Same(a, Exec(a, es), sid)
    decreases |es|
  {
    if es != [] {
      var m := Apply(a, es[0]);
      SameAlways(m, es[1..]);
      forall sid | sid in Exec(m, es[1..]).sessions ensures Same(a, Exec(a, es), sid) {
        assert Same(m, Exec(m, es[1..]), sid);
      }
    }
  }

  /** An object whose version is not newer than `a` has not changed since. */
  ghost predicate Untouched(a: Sys, b: Sys, sid: string)
    requires sid in b.sessions
  {
    b.sessions[sid].rv > a.rev || (sid in a.sessions && b.sessions[sid] == a.sessions[sid])
  }

  lemma {:induction false} UntouchedAlways(a: Sys, es: seq<Event>)
    requires Legal(a, es)
    ensures a.rev <= Exec(a, es).rev
    ensures forall sid :: sid in Exec(a, es).sessions ==> Untouched(a, Exec(a, es), sid)
    decreases |es|
  {
    if es != [] {
      var m := Apply(a, es[0]);
      UntouchedAlways(m, es[1..]);
      forall sid | sid in Exec(m, es[1..]).sessions ensures Untouched(a, Exec(a, es), sid) {
        assert Untouched(m, Exec(m, es[1..]), sid);
      }
    }
  }

  /** The resourceVersion tells whether an object has changed. */
  lemma VersionTells(a: Sys, b: Sys, sid: string)
    requires Reach(a, b) && sid in b.sessions
    ensures Untouched(a, b, sid)
  {
    var es :| Legal(a, es) && Exec(a, es) == b;
    UntouchedAlways(a, es);
  }

  /** The sweep is about these sessions only. */
  predicate IsOpen(x: Session, sandbox: string) {
    x.sandbox == sandbox && x.status.state == Active
  }

  /** A listed Active session of `sandbox` that is still there in `s` was closed by the
      sweep at `t`. */
  ghost predicate Ended(items: map<string, Session>, sandbox: string, t: Time, s: Sys, sid: string) {
    && sid in items && IsOpen(items[sid], sandbox)
    && sid in s.sessions && s.sessions[sid].uid == items[sid].uid
    ==> s.sessions[sid].status
        == items[sid].status.(state := Closed, end := Some(t), reason := "SandboxDeleted")
  }

  /** An ended session stays ended in every later state. */
  lemma EndedKept(items: map<string, Session>, sandbox: string, t: Time, a: Sys, b: Sys)
    requires Inv(a) && Reach(a, b)
    requires forall sid :: sid in items ==> items[sid].uid <= a.rev
    ensures forall sid :: Ended(items, sandbox, t, a, sid) ==> Ended(items, sandbox, t, b, sid)
  {
    ReachKeeps(a, b);
    forall sid | Ended(items, sandbox, t, a, sid) ensures Ended(items, sandbox, t, b, sid) {
      if sid in b.sessions { assert Same(a, b, sid); }
    }
  }

  datatype Outcome = Skipped | Written | Conflict | Missing | Failed

  /** The API server as the controllers and the gateway see it. */
  class ApiServer {
    var now: Time
    var rev: nat
    var sessions: map<string, Session>
    ghost var held: set<Held>
    ghost var log: seq<Entry>

    ghost function View(): Sys
      reads this
    {
      Sys(now, rev, sessions, held, log)
    }

    constructor ()
      ensures View() == INIT
    {
      now, rev, sessions, held, log := 1, 0, map[], {}, [];
    }

    /** Anything other actors may do between two calls of one operation; nothing
        when they are quiet. */
    method Interfere(quiet: bool := false)
      modifies this
      ensures Reach(old(View()), View()) && (quiet ==> View() == old(View()))
      ensures old(held) <= held && old(now) <= now
    {
      ReachRefl(View());
    }

    method Get(sid: string, fault: Fault) returns (r: Option<Session>, err: bool, ghost at: Time)
      modifies this`held
      ensures Reach(old(View()), View()) && old(held) <= held
      ensures err == (fault != Fine) && at == now
      ensures !err && sid in sessions ==>
        r == Some(sessions[sid]) && Held(sid, sessions[sid], at, false) in held
      ensures err || sid !in sessions ==> r == None
    {
      at, err, r := now, fault != Fine, None;
      ReachRefl(View());
      if !err && sid in sessions {
        r := Some(sessions[sid]);
        ReachOne(View(), Read(sid));
        held := held + {Held(sid, sessions[sid], now, false)};
      }
    }

    /** Status().Update: accepted only against the version that was read. */
    method UpdateStatus(sid: string, copy: Session, st: Status, fault: Fault,
                        ghost h: Held, ghost w: Writer, ghost t: Time)
      returns (out: Outcome)
      requires h in held && h.sid == sid && h.copy == copy && h.at <= t <= now
      requires w.MarkActive? ==> h.mine
      requires Write(w, copy, t) == Some(st)
      modifies this`sessions, this`rev, this`log
      ensures Reach(old(View()), View())
      ensures out != Skipped
      ensures out == Written ==> sid in old(sessions) && sid in sessions
      ensures out == Written ==> old(sessions)[sid].rv == copy.rv
      ensures out == Written ==> sessions[sid] == old(sessions)[sid].(rv := sessions[sid].rv, status := st)
      ensures out == Missing ==> sid !in sessions
      ensures out == Conflict || out == Missing || fault == Refused ==> View() == old(View())
      ensures fault == Fine ==> out != Failed
      ensures fault == Fine && sid in old(sessions) && old(sessions)[sid].rv == copy.rv ==> out == Written
      ensures forall a :: a != sid && a in old(sessions) ==> a in sessions && sessions[a] == old(sessions)[a]
    {
      ReachRefl(View());
      if fault == Refused { return Failed; }
      if sid !in sessions { return Missing; }
      if sessions[sid].rv != copy.rv { return Conflict; }
      ReachOne(View(), Commit(h, w, t));
      var was := sessions[sid];
      var x := was.(rv := rev + 1, status := st);
      rev := rev + 1;
      sessions := sessions[sid := x];
      log := log + [Entry(x.uid, was.status, x.status, w)];
      out := if fault == Lost then Failed else Written;
    }

    // ------------------------------------------------------------- gateway

    /** Create: the API server accepts a name that is not taken. */
    method Post(sid: string, sandbox: string, interval: Option<Duration>, fault: Fault)
      returns (x: Session, out: Outcome, ghost h: Held)
      modifies this
      ensures Reach(old(View()), View()) && now == old(now)
      ensures out == Written || out == Conflict || out == Failed
      ensures fault == Refused ==> out == Failed
      ensures fault == Refused || sid in old(sessions) ==> out != Written && View() == old(View())
      ensures fault == Fine && sid !in old(sessions) ==> out == Written
      ensures fault != Refused && sid !in old(sessions) ==>
        && sessions == old(sessions)[sid := x] && rev == x.rv && h in held
        && h == Held(sid, x, now, true) && x == Session(x.uid, x.rv, now, sandbox, interval, NEW_STATUS)
    {
      ReachRefl(View());
      x := Session(rev + 1, rev + 1, now, sandbox, interval, NEW_STATUS);
      h := Held(sid, x, now, true);
      if fault == Refused { return x, Failed, h; }
      if sid in sessions { return x, Conflict, h; }
      ReachOne(View(), Create(sid, sandbox, interval));
      rev := rev + 1;
      sessions := sessions[sid := x];
      held := held + {h};
      out := if fault == Lost then Failed else Written;
    }

    /** Create the record, then mark it Active. */
    method CreateSession(sid: string, sandbox: string, interval: Option<Duration>, create: Fault, update: Fault,
                         quiet: bool := false)
      returns (out: Outcome)
      modifies this
      ensures Reach(old(View()), View())
      ensures out == Written ==> sid in sessions && sid !in old(sessions)
      ensures out == Written ==>
        sessions[sid].sandbox == sandbox && sessions[sid].interval == interval && sessions[sid].created == old(now)
      ensures out == Written ==>
        var st := sessions[sid].status;
        && st.state == Active && st.start.Some? && st.last == st.start && old(now) <= st.start.value <= now
        && st.end.None? && st.reason == ""
      ensures create == Refused ==> out == Failed && View() == old(View())
      ensures sid in old(sessions) ==> View() == old(View()) && out != Written
      ensures quiet && create == Fine && update == Fine && sid !in old(sessions) ==> out == Written
      ensures quiet ==> forall a :: a != sid && a in old(sessions) ==> a in sessions && sessions[a] == old(sessions)[a]
    {
      ghost var s0 := View();
      var x: Session;
      ghost var h: Held;
      x, out, h := Post(sid, sandbox, interval, create);
      if out != Written { return; }
      ghost var s1 := View();
      Interfere(quiet);
      var t := now;
      ghost var s2 := View();
      Interfere(quiet);
      ReachTrans(s1, s2, View());
      ReachTrans(s0, s1, View());
      ghost var s3 := View();
      if sid in sessions { VersionTells(s1, s3, sid); }
      var st := x.status.(state := Active, start := Some(t), last := Some(t));
      out := UpdateStatus(sid, x, st, update, h, MarkActive, t);
      ReachTrans(s0, s3, View());
    }

    /** Open a session for a sandbox with this override, stamped with its heartbeat
        interval. */
    method OpenSession(sid: string, sandbox: string, override: Option<Duration>, create: Fault, update: Fault,
                       quiet: bool := false)
      returns (out: Outcome)
      modifies this
      ensures Reach(old(View()), View())
      ensures out == Written ==> OpenedFor(View(), sid, sandbox, override)
      ensures out == Written ==> sid !in old(sessions) && old(now) <= sessions[sid].status.start.value <= now
      ensures out != Written && sid in old(sessions) ==> View() == old(View())
      ensures quiet && create == Fine && update == Fine && sid !in old(sessions) ==> out == Written
    {
      var interval := HeartbeatInterval(GatewayIdleTimeout(override));
      out := CreateSession(sid, sandbox, Some(interval), create, update, quiet);
    }

    /** Advance the heartbeat of an Active session, and nothing else of it. */
    method Heartbeat(sid: string, get: Fault, update: Fault, quiet: bool := false) returns (out: Outcome)
      modifies this
      ensures Reach(old(View()), View())
      ensures out == Written ==>
        && sid in old(sessions) && old(sessions)[sid].status.state == Active && sid in sessions
        && sessions[sid].status == old(sessions)[sid].status.(last := sessions[sid].status.last)
        && sessions[sid].status.last.Some? && old(now) <= sessions[sid].status.last.value <= now
      ensures out == Skipped <==> get == Fine && sid in old(sessions) && old(sessions)[sid].status.state != Active
      ensures quiet && get == Fine && update == Fine && sid in old(sessions) && old(sessions)[sid].status.state == Active ==>
                out == Written
      ensures quiet ==> forall a :: a != sid && a in old(sessions) ==> a in sessions && sessions[a] == old(sessions)[a]
    {
      ghost var s0 := View();
      var copy, err, at := Get(sid, get);
      if err { return Failed; }
      if copy.None? { return Missing; }
      if copy.value.status.state != Active { return Skipped; }
      ghost var s1 := View();
      Interfere(quiet);
      var t := now;
      ReachTrans(s0, s1, View());
      ghost var s2 := View();
      Interfere(quiet);
      ReachTrans(s0, s2, View());
      ghost var s3 := View();
      out := UpdateStatus(sid, copy.value, copy.value.status.(last := Some(t)), update,
                          Held(sid, copy.value, at, false), Beat, t);
      ReachTrans(s0, s3, View());
    }

    /** Close a session that is not Closed: state, end and reason, and nothing else. */
    method CloseSession(sid: string, why: string, get: Fault, update: Fault, quiet: bool := false) returns (out: Outcome)
      modifies this
      ensures Reach(old(View()), View())
      ensures out == Written ==>
        && sid in old(sessions) && old(sessions)[sid].status.state != Closed && sid in sessions
        && sessions[sid].status == old(sessions)[sid].status.(state := Closed, end := sessions[sid].status.end, reason := why)
        && sessions[sid].status.end.Some? && old(now) <= sessions[sid].status.end.value <= now
      ensures out == Skipped <==> get == Fine && sid in old(sessions) && old(sessions)[sid].status.state == Closed
      ensures quiet && get == Fine && update == Fine && sid in old(sessions) && old(sessions)[sid].status.state != Closed ==>
                out == Written
      ensures quiet ==> forall a :: a != sid && a in old(sessions) ==> a in sessions && sessions[a] == old(sessions)[a]
    {
      ghost var s0 := View();
      var copy, err, at := Get(sid, get);
      if err { return Failed; }
      if copy.None? { return Missing; }
      if copy.value.status.state == Closed { return Skipped; }
      ghost var s1 := View();
      Interfere(quiet);
      var t := now;
      ReachTrans(s0, s1, View());
      ghost var s2 := View();
      Interfere(quiet);
      ReachTrans(s0, s2, View());
      ghost var s3 := View();
      out := UpdateStatus(sid, copy.value,
                          copy.value.status.(state := Closed, end := Some(t), reason := why), update,
                          Held(sid, copy.value, at, false), Close(why), t);
      ReachTrans(s0, s3, View());
    }

    // --------------------------------------------------------- stale reaper

    /** Reap a session whose heartbeats went stale, or ask to be woken again. */
    method ReconcileActive(sid: string, get: Fault, update: Fault, quiet: bool := false)
      returns (out: Outcome, requeueAfter: Option<int>)
      modifies this
      ensures Reach(old(View()), View())
      ensures out == Written ==>
        && sid in old(sessions) && sid in sessions
        && sessions[sid].status == old(sessions)[sid].status.(state := Closed, end := Some(LastSeen(old(sessions)[sid])),
                                                              reason := "StaleHeartbeat")
        && old(sessions)[sid].status.state == Active && Stale(old(sessions)[sid], now)
      ensures quiet && get == Fine && update == Fine && sid in old(sessions) ==>
        (out == Written <==> old(sessions)[sid].status.state == Active && Stale(old(sessions)[sid], old(now)))
      ensures quiet ==> forall a :: a != sid && a in old(sessions) ==> a in sessions && sessions[a] == old(sessions)[a]
      ensures requeueAfter.Some? <==>
        out == Skipped && get == Fine && sid in old(sessions) && old(sessions)[sid].status.state == Active
      ensures requeueAfter.Some? && LastSeen(old(sessions)[sid]) != 0 ==>
        && now <= LastSeen(old(sessions)[sid]) + ReapDeadline(old(sessions)[sid])
        && requeueAfter.value == LastSeen(old(sessions)[sid]) + ReapDeadline(old(sessions)[sid]) - now
    {
      ghost var s0 := View();
      requeueAfter := None;
      var copy, err, at := Get(sid, get);
      if err { out := Failed; return; }
      if copy.None? { out := Missing; return; }
      var x := copy.value;
      if x.status.state != Active { out := Skipped; return; }
      var deadline := ReapDeadline(x);
      ghost var s1 := View();
      Interfere(quiet);
      ReachTrans(s0, s1, View());
      var t: int, last: int := now, LastSeen(x);
      if last == 0 { out, requeueAfter := Skipped, Some(deadline); return; }
      var elapsed: int := t - last;
      if elapsed <= deadline { out, requeueAfter := Skipped, Some(deadline - elapsed); return; }
      ghost var s2 := View();
      Interfere(quiet);
      ReachTrans(s0, s2, View());
      ghost var s3 := View();
      out := UpdateStatus(sid, x,
                          x.status.(state := Closed, end := Some(last), reason := STALE_HEARTBEAT), update,
                          Held(sid, x, at, false), Reap, t);
      ReachTrans(s0, s3, View());
    }

    // ---------------------------------------------------- sandbox finalizer

    method ListAll(fault: Fault) returns (items: map<string, Session>, err: bool, ghost at: Time)
      modifies this`held
      ensures Reach(old(View()), View()) && old(held) <= held
      ensures err == (fault != Fine) && at == now && items == sessions
      ensures !err ==> forall sid :: sid in items ==> Held(sid, items[sid], at, false) in held
    {
      at, err, items := now, fault != Fine, sessions;
      ReachRefl(View());
      if !err {
        ReachOne(View(), List);
        held := held + (set sid | sid in sessions :: Held(sid, sessions[sid], now, false));
      }
    }

    /** Close every listed Active session of the sandbox. On success each of
        them is Closed or gone, whatever other actors did meanwhile; without
        failures and with the others quiet it succeeds. */
    method CloseSessions(sandbox: string, list: Fault, faults: string -> Fault, quiet: bool := false) returns (ok: bool)
      requires Inv(View())
      modifies this
      ensures Reach(old(View()), View()) && Inv(View())
      ensures ok ==> forall sid :: Ended(old(sessions), sandbox, old(now), View(), sid)
      ensures quiet && list == Fine && (forall sid :: faults(sid) == Fine) ==> ok
      ensures quiet ==> forall sid :: sid in old(sessions) && !IsOpen(old(sessions)[sid], sandbox) ==>
                          sid in sessions && sessions[sid] == old(sessions)[sid]
    {
      ghost var s0 := View();
      var items, err, at := ListAll(list);
      ReachKeeps(s0, View());
      if err { return false; }
      forall sid | sid in items ensures items[sid].uid <= rev { assert StoredOk(s0, sid); }
      ok := SweepAll(items, sandbox, now, faults, quiet, at, s0);
    }

    /** The loop of `CloseSessions`, over the listed sessions in any order. */
    method SweepAll(items: map<string, Session>, sandbox: string, t: Time, faults: string -> Fault, quiet: bool,
                    ghost at: Time, ghost s0: Sys)
      returns (ok: bool)
      requires Sweeping(items, sandbox, s0, at, t, View()) && (quiet ==> sessions == items)
      modifies this
      ensures Sweeping(items, sandbox, s0, at, t, View())
      ensures ok ==> EndedBut(items, sandbox, t, {}, View())
      ensures quiet ==> Spared(items, sandbox, {}, View())
      ensures quiet && (forall sid :: faults(sid) == Fine) ==> ok
    {
      var todo := items.Keys;
      while todo != {}
        invariant todo <= items.Keys
        invariant Sweeping(items, sandbox, s0, at, t, View())
        invariant EndedBut(items, sandbox, t, todo, View())
        invariant quiet ==> Spared(items, sandbox, todo, View())
        decreases |todo|
      {
        var sid :| sid in todo;
        ghost var s1 := View();
        var done := SweepOne(items, sid, sandbox, t, faults(sid), quiet, at, s0);
        if quiet { SparedStep(items, sandbox, todo, sid, s1, View()); }
        todo := todo - {sid};
        if !done { return false; }
      }
      return true;
    }

    /** One step of `CloseSessions`, other actors included. */
    method SweepOne(items: map<string, Session>, sid: string, sandbox: string, t: Time, fault: Fault,
                    quiet: bool, ghost at: Time, ghost s0: Sys)
      returns (done: bool)
      requires sid in items && Sweeping(items, sandbox, s0, at, t, View())
      modifies this
      ensures Sweeping(items, sandbox, s0, at, t, View())
      ensures forall a :: Ended(items, sandbox, t, old(View()), a) ==> Ended(items, sandbox, t, View(), a)
      ensures done ==> Ended(items, sandbox, t, View(), sid)
      ensures quiet && fault == Fine && sid in old(sessions) && old(sessions)[sid] == items[sid] ==> done
      ensures quiet ==> forall a :: a in old(sessions) && (a != sid || !IsOpen(items[sid], sandbox)) ==>
                          a in sessions && sessions[a] == old(sessions)[a]
    {
      ghost var s1 := View();
      Interfere(quiet);
      ReachTrans(s0, s1, View());
      ReachKeeps(s1, View());
      EndedKept(items, sandbox, t, s1, View());
      var x := items[sid];
      if x.sandbox != sandbox || x.status.state != Active { return true; }
      ghost var s2 := View();
      var st := x.status.(state := Closed, end := Some(t), reason := SANDBOX_DELETED);
      var out := UpdateStatus(sid, x, st, fault, Held(sid, x, at, false), Sweep, t);
      ReachTrans(s0, s2, View());
      ReachKeeps(s2, View());
      EndedKept(items, sandbox, t, s2, View());
      done := out == Written || out == Missing;
    }
  }

  ghost predicate EndedBut(items: map<string, Session>, sandbox: string, t: Time, todo: set<string>, s: Sys) {
    forall sid :: sid !in todo ==> Ended(items, sandbox, t, s, sid)
  }

  /** The sessions still to be swept, and those that are not the sweep's, are as listed. */
  ghost predicate Spared(items: map<string, Session>, sandbox: string, todo: set<string>, s: Sys) {
    forall sid :: sid in items && (sid in todo || !IsOpen(items[sid], sandbox)) ==>
                    sid in s.sessions && s.sessions[sid] == items[sid]
  }

  lemma SparedStep(items: map<string, Session>, sandbox: string, todo: set<string>, sid: string, a: Sys, b: Sys)
    requires sid in items && Spared(items, sandbox, todo, a)
    requires forall x :: x in a.sessions && (x != sid || !IsOpen(items[sid], sandbox)) ==>
                           x in b.sessions && b.sessions[x] == a.sessions[x]
    ensures Spared(items, sandbox, todo - {sid}, b)
  {
  }

  /** What holds between two steps of `CloseSessions`. */
  ghost predicate Sweeping(items: map<string, Session>, sandbox: string, s0: Sys, at: Time, t: Time, s: Sys) {
    && Reach(s0, s) && Inv(s) && at <= t <= s.now
    && (forall sid :: sid in items ==> items[sid].uid <= s.rev)
    && (forall sid :: sid in items ==> Held(sid, items[sid], at, false) in s.held)
  }
}
