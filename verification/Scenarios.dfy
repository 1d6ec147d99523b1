/** Concrete runs from a new sandbox, shared by the counterexamples. */
module Scenarios {
  import opened Base
  import opened SandboxPass
  import opened Lifecycle
  import SM = SessionModel

  const T1 := Template("image-1", Some(60 * SECOND))
  const T2 := Template("image-2", Some(60 * SECOND))
  const HOME := HomeOk("kubepark-home-a")
  const START := Start("a", Spec(Run, None), Some(T1))

  const READY_POD := Some(Pod(PodRunning, Some(true), "10.0.0.1", false, T1, ""))

  /** The pod has been created and nothing else happened. */
  predicate IsMade(w: World) {
    && w.pod == Some(NewPod(T1, "")) && w.work.Resting? && w.keeper.Idling? && w.collected == {}
    && w.sb.Some? && !w.sb.value.deleting && w.sb.value.finalizer && w.sb.value.spec == Spec(Run, None)
    && w.sb.value.status.lastActivity == None && w.sb.value.status.hash == Some(T1)
    && w.sb.value.status.phase == Provisioning
    && w.template == Some(T1) && w.name == "a" && w.sess == SM.INIT.(rev := w.sess.rev)
  }

  /** A running sandbox with a ready pod and an idle clock that shows 1; the sessions
      and the clock are anything. */
  predicate Serves(w: World) {
    && w.pod == READY_POD && w.work.Resting? && w.keeper.Idling? && w.collected == {}
    && w.sb.Some? && !w.sb.value.deleting && w.sb.value.finalizer && w.sb.value.spec == Spec(Run, None)
    && w.sb.value.status.lastActivity == Some(1) && w.sb.value.status.hash == Some(T1)
    && w.sb.value.status.phase == Running && w.sb.value.status.podIP == "10.0.0.1" && Holds(w.sb.value.status, Ready)
    && w.template == Some(T1) && w.name == "a"
  }

  lemma Made() returns (w: World)
    ensures Leads(START, w) && IsMade(w)
  {
    w := FullPass(START, HOME, RbacNone);
    FullPassLeads(START, HOME, RbacNone);
    FullPassStores(START, HOME, RbacNone);
    var env := EnvOf(START, HOME, RbacNone);
    assert ActiveSet(env.sessions, "a") == {};
    PrepareFacts(env, NEW_STATUS);
    var p := PrepareSpec(env, NEW_STATUS);
    assert p.Go? && p.status.account == "";
  }

  /** ... and with the pod ready, at any time. */
  lemma ReadyPassOut(env: Env, st: Status)
    requires env == Env("a", Spec(Run, None), Some(T1), HOME, RbacNone, env.sessions, env.now, env.now, env.now, NO_FAULTS)
    requires ActiveSet(env.sessions, "a") == {} && st.lastActivity == None && st.phase == Provisioning && st.hash == Some(T1)
    ensures var out := ReconcileSpec(env, st, READY_POD);
            && out.pod == READY_POD && out.status.phase == Running && out.status.podIP == "10.0.0.1"
            && out.status.lastActivity == Some(env.now) && out.status.hash == Some(T1) && Holds(out.status, Ready)
  {
    PrepareFacts(env, st);
    var p := PrepareSpec(env, st);
    assert p.Go? && p.status.phase == Provisioning;
    var st' := p.status.(active := 0);
    var live := LiveSpec(env, T1, st'.(podName := PodName("a")), READY_POD.value);
    assert live.phase == Running && live.podIP == "10.0.0.1" && live.lastActivity == Some(env.now) && Holds(live, Ready);
    assert RunSpec(env, T1, p.status.account, st', READY_POD).status == live;
  }

  lemma Up() returns (w: World)
    ensures Leads(START, w) && Serves(w) && w.sess == SM.INIT.(rev := w.sess.rev)
  {
    var made := Made();
    var ready := made.(pod := READY_POD);
    LeadsThen(START, made, Kubelet(READY_POD));
    w := FullPass(ready, HOME, RbacNone);
    FullPassLeads(ready, HOME, RbacNone);
    LeadsTrans(START, ready, w);
    FullPassStores(ready, HOME, RbacNone);
    assert ActiveSet(ready.sess.sessions, "a") == {};
    ReadyPassOut(EnvOf(ready, HOME, RbacNone), made.sb.value.status);
  }

  // ------------------------------------------------------------- a session

  function NewSession(s: SM.Sys): SM.Session {
    SM.Session(s.rev + 1, s.rev + 1, s.now, "a", Some(60 * SECOND), SM.NEW_STATUS)
  }

  function OpenStatus(t: Time): SM.Status {
    SM.Status(SM.Active, Some(t), Some(t), None, "")
  }

  /** `s` with one session "s" of the sandbox, just opened. */
  function Opened(s: SM.Sys): SM.Sys {
    var x := NewSession(s);
    SM.Sys(s.now, s.rev + 2, map["s" := x.(rv := s.rev + 2, status := OpenStatus(s.now))],
           {SM.Held("s", x, s.now, true)}, [SM.Entry(x.uid, SM.NEW_STATUS, OpenStatus(s.now), SM.MarkActive)])
  }

  lemma SessionOpens(w: World)
    requires w.sess == SM.Sys(w.sess.now, w.sess.rev, map[], {}, [])
    ensures Leads(w, w.(sess := Opened(w.sess)))
  {
    var s := w.sess;
    var h := SM.Held("s", NewSession(s), s.now, true);
    var create, mark := SM.Create("s", "a", Some(60 * SECOND)), SM.Commit(h, SM.MarkActive, s.now);
    var s1 := SM.Sys(s.now, s.rev + 1, map["s" := NewSession(s)], {h}, []);
    assert SM.Apply(s, create) == s1;
    assert SM.Apply(s1, mark) == Opened(s);
    LeadsOne(w, Session(create));
    LeadsThen(w, w.(sess := s1), Session(mark));
  }

  /** The session "s" of `s`, read and closed at time `t`. */
  function Ended(s: SM.Sys, t: Time): SM.Sys
    requires "s" in s.sessions
  {
    var x := s.sessions["s"];
    var st := x.status.(state := SM.Closed, end := Some(t), reason := SM.DISCONNECTED);
    SM.Sys(t, s.rev + 1, s.sessions["s" := x.(rv := s.rev + 1, status := st)],
           s.held + {SM.Held("s", x, t, false)}, s.log + [SM.Entry(x.uid, x.status, st, SM.Close(SM.DISCONNECTED))])
  }

  lemma SessionEnds(w: World, t: Time)
    requires "s" in w.sess.sessions && w.sess.sessions["s"].status.state != SM.Closed && w.sess.now <= t
    ensures Leads(w, w.(sess := Ended(w.sess, t)))
  {
    var s := w.sess;
    var h := SM.Held("s", s.sessions["s"], t, false);
    var close := SM.Commit(h, SM.Close(SM.DISCONNECTED), t);
    var s1, s2 := s.(now := t), s.(now := t, held := s.held + {h});
    LeadsOne(w, Session(SM.Tick(t)));
    LeadsThen(w, w.(sess := s1), Session(SM.Read("s")));
    assert SM.Apply(s2, close) == Ended(s, t);
    LeadsThen(w, w.(sess := s2), Session(close));
  }

  /** Up since 1, one session that has just closed after 100s, its end not yet on the
      idle clock. */
  lemma JustClosed() returns (w: World)
    ensures Leads(START, w) && Serves(w) && w.sess.now == 100 * SECOND && w.sess.sessions.Keys == {"s"}
    ensures var x := w.sess.sessions["s"];
            x.sandbox == "a" && x.status.state == SM.Closed && x.status.end == Some(100 * SECOND)
  {
    var up := Up();
    SessionOpens(up);
    var open := up.(sess := Opened(up.sess));
    LeadsTrans(START, up, open);
    SessionEnds(open, 100 * SECOND);
    w := open.(sess := Ended(open.sess, 100 * SECOND));
    LeadsTrans(START, open, w);
  }
}
