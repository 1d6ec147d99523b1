/** When a sandbox may lose its pod: idle suspension is never early, except for
    what happens between the calls of the deciding pass. */
module IdleSafety {
  import opened Base
  import opened SandboxPass
  import opened Lifecycle
  import opened Scenarios
  import SM = SessionModel

  /** A pass takes a live pod away only to stop the sandbox or because it is idle. */
  lemma PassLosesPod(e: Env, st: Status, pod: Option<Pod>)
    requires LivePod(pod) && Deletes(pod, ReconcileSpec(e, st, pod))
    ensures e.spec.desired == Stop
            || (ActiveSet(e.sessions, e.name) == {} && IdleExpired(st.lastActivity, Timeout(e), e.now))
  {
    PrepareFacts(e, st);
    var p := PrepareSpec(e, st);
    if p.Go? && e.spec.desired == Run {
      DriveLosesPod(e, p.t, p.status, pod);
    }
  }

  lemma DriveLosesPod(e: Env, t: Template, st: Status, pod: Option<Pod>)
    requires LivePod(pod) && Deletes(pod, DriveSpec(e, t, st.account, st, pod)) && e.spec.desired == Run
    ensures ActiveSet(e.sessions, e.name) == {}
    ensures IdleExpired(st.lastActivity, IdleLimit(e.spec, Some(t)), e.now)
  {
    assert RunSpec(e, t, st.account, st.(active := |ActiveSet(e.sessions, e.name)|), pod).pod == pod;
  }

  ghost predicate ClosedAt(w: World, sid: string, end: Time) {
    Mine(w, sid) && w.sess.sessions[sid].status.state == SM.Closed && w.sess.sessions[sid].status.end == Some(end)
  }

  /** A moment at which the sandbox was last in use: the stored idle clock, or the end
      of a session, stored or collected. */
  ghost predicate Used(w: World, m: Time) {
    || (w.sb.Some? && w.sb.value.status.lastActivity == Some(m))
    || (exists sid :: ClosedAt(w, sid, m))
    || m in w.collected
  }

  /** The pod of a wanted sandbox is taken away by one of kubepark's own steps. */
  ghost predicate TakesPod(w: World, e: Event) {
    && Lifecycle.Enabled(w, e) && !e.Kubelet?
    && LivePod(w.pod) && !LivePod(Lifecycle.Apply(w, e).pod)
    && w.sb.Some? && !w.sb.value.deleting && w.sb.value.spec.desired == Run
  }

  /** The idle timeout in force now. */
  function LimitNow(w: World): Duration
    requires w.sb.Some?
  {
    IdleLimit(w.sb.value.spec, w.template)
  }

  /** Taking the pod now is right: a timeout is in force, the idle clock is set, no
      session is open, and the sandbox was last in use longer ago than the timeout. */
  ghost predicate Right(w: World)
    requires w.sb.Some?
  {
    && LimitNow(w) > 0 && w.sb.value.status.lastActivity.Some?
    && (forall sid :: !Connected(w, sid))
    && (forall m: Time :: Used(w, m) ==> m + LimitNow(w) < w.sess.now)
  }

  // ------------------------------------------- what the deciding pass read

  predicate ReadAsWanted(w: World)
    requires w.work.Passing?
  {
    w.work.copy.spec.desired == Run
  }

  function LimitRead(w: World): Duration
    requires w.work.Passing?
  {
    IdleLimit(w.work.copy.spec, w.work.env.template)
  }

  function ClockRead(w: World): Option<Time>
    requires w.work.Passing?
  {
    w.work.copy.status.lastActivity
  }

  /** Only the pod step of a reconcile pass takes it. */
  lemma OnlyTouchTakes(w: World, e: Event)
    requires WorkOk(w) && SeenOk(w) && TakesPod(w, e)
    ensures e.Touch? && LivePod(w.work.seen) && Deletes(w.work.seen, PassOut(w, e.ran))
  {
    assert e.Touch? || e.FinPod?;
  }

  /** A pass takes the pod only if it read the sandbox as stopped, or the sessions it
      listed hold no Active one and the idle clock it read had expired when it sampled
      the clock. */
  lemma TakenWhenIdle(w: World, e: Event)
    requires WorkOk(w) && SeenOk(w) && TakesPod(w, e)
    ensures e.Touch? && w.work.Passing? && w.work.env.now <= w.sess.now
    ensures ReadAsWanted(w) ==>
              ActiveSet(w.work.env.sessions, w.name) == {} && IdleExpired(ClockRead(w), LimitRead(w), w.work.env.now)
  {
    OnlyTouchTakes(w, e);
    PassLosesPod(w.work.env.(ran := e.ran, done := w.sess.now), w.work.copy.status, w.work.seen);
  }

  /** The pass knew of the session: it was Active in the list it decided by. */
  ghost predicate KnewOf(w: World, sid: string)
    requires w.work.Passing?
  {
    ReadAsWanted(w) && sid in ActiveSet(w.work.env.sessions, w.name)
  }

  /** The pass tested this moment: it read the sandbox as wanted, the idle clock it read
      shows the moment, and it used a timeout at least as long as the one in force. */
  ghost predicate Tested(w: World, m: Time)
    requires w.sb.Some? && w.work.Passing?
  {
    ReadAsWanted(w) && Reached(ClockRead(w), m) && LimitNow(w) <= LimitRead(w)
  }

  /** A timeout and an idle clock are in force, the pass knew of every open session, and
      every moment of use that it did not test is old enough anyway. */
  ghost predicate NothingMissed(w: World)
    requires w.sb.Some? && w.work.Passing?
  {
    && LimitNow(w) > 0 && w.sb.value.status.lastActivity.Some?
    && (forall sid :: Connected(w, sid) ==> KnewOf(w, sid))
    && (forall m: Time :: Used(w, m) && !Tested(w, m) ==> m + LimitNow(w) < w.sess.now)
  }

  /** A suspension is right exactly when its pass missed nothing. */
  lemma EarlyExactly(w: World, e: Event)
    requires WorkOk(w) && SeenOk(w) && TakesPod(w, e)
    ensures w.work.Passing? && (Right(w) <==> NothingMissed(w))
  {
    TakenWhenIdle(w, e);
    assert forall sid :: !KnewOf(w, sid);
    assert forall m: Time :: Tested(w, m) ==> m + LimitNow(w) < w.sess.now;
  }

  /** The pass decided by what is in force: it read the sandbox as wanted and with the
      timeout now in force or a longer one, the idle clock it read shows every moment of
      use, and no session became Active after its list. */
  ghost predicate DecidedByPresent(w: World)
    requires w.sb.Some? && w.work.Passing?
  {
    && ReadAsWanted(w) && 0 < LimitNow(w) <= LimitRead(w) && w.sb.value.status.lastActivity.Some?
    && (forall m: Time :: Used(w, m) ==> Reached(ClockRead(w), m))
    && (forall sid :: Connected(w, sid) ==> KnewOf(w, sid))
  }

  /** Idle suspension is never early: in every run kubepark takes the pod of a wanted
      sandbox only in a pass, and rightly if that pass decided by what is in force. */
  lemma NeverSuspendedEarly(name: string, spec: Spec, t: Option<Template>, es: seq<Event>, e: Event)
    requires Lifecycle.Legal(Start(name, spec, t), es) && TakesPod(Lifecycle.Exec(Start(name, spec, t), es), e)
    ensures var w := Lifecycle.Exec(Start(name, spec, t), es);
            w.work.Passing? && (DecidedByPresent(w) ==> Right(w))
  {
    StartInv(name, spec, t);
    Lifecycle.InvAlways(Start(name, spec, t), es);
    RightIfByPresent(Lifecycle.Exec(Start(name, spec, t), es), e);
  }

  lemma RightIfByPresent(w: World, e: Event)
    requires WorkOk(w) && SeenOk(w) && TakesPod(w, e)
    ensures w.work.Passing? && (DecidedByPresent(w) ==> Right(w))
  {
    EarlyExactly(w, e);
    if DecidedByPresent(w) {
      assert forall m: Time :: Used(w, m) ==> Tested(w, m);
    }
  }

  // --------------------------------------------------------- without a limit

  /** Wanted, and the idle limit is switched off: by the override when `off`, else by
      the lack of both limits. */
  predicate SpecUnlimited(spec: Spec, off: bool) {
    spec.desired == Run && if off then spec.idle.Some? && spec.idle.value <= 0 else spec.idle.None?
  }

  predicate TemplateUnlimited(t: Option<Template>, off: bool) {
    off || t.None? || t.value.idle.None? || t.value.idle.value <= 0
  }

  /** Every edit leaves it so. */
  predicate Unlimited(e: Event, off: bool) {
    match e
    case Edit(spec) => SpecUnlimited(spec, off)
    case EditTemplate(t) => TemplateUnlimited(t, off)
    case _ => true
  }

  predicate Unslept(p: Phase) {
    p != Suspending && p != Suspended && p != Resuming
  }

  predicate NeverLimited(w: World, off: bool) {
    && TemplateUnlimited(w.template, off)
    && (w.sb.Some? ==> SpecUnlimited(w.sb.value.spec, off) && Unslept(w.sb.value.status.phase))
    && (!w.work.Resting? ==> SpecUnlimited(w.work.copy.spec, off) && Unslept(w.work.copy.status.phase))
    && (w.work.Passing? ==> w.work.env.spec == w.work.copy.spec && TemplateUnlimited(w.work.env.template, off))
    && (w.work.Acted? ==> Unslept(w.work.next.phase))
  }

  lemma UnlimitedPass(e: Env, st: Status, pod: Option<Pod>, off: bool)
    requires SpecUnlimited(e.spec, off) && TemplateUnlimited(e.template, off) && Unslept(st.phase)
    ensures var out := ReconcileSpec(e, st, pod);
            Unslept(out.status.phase) && (LivePod(pod) ==> !Deletes(pod, out))
  {
    PrepareFacts(e, st);
    var p := PrepareSpec(e, st);
    if p.Go? {
      UnlimitedRun(e, p.t, p.status.account, p.status.(active := |ActiveSet(e.sessions, e.name)|), pod);
    }
  }

  lemma UnlimitedRun(e: Env, t: Template, account: string, st: Status, pod: Option<Pod>)
    requires Unslept(st.phase)
    ensures var out := RunSpec(e, t, account, st, pod);
            Unslept(out.status.phase) && (LivePod(pod) ==> out.pod == pod)
  {
  }

  lemma UnlimitedTouch(w: World, ran: Time, off: bool)
    requires NeverLimited(w, off) && AtStage(w, Looked)
    ensures NeverLimited(Touched(w, ran), off)
    ensures LivePod(w.work.seen) ==> !Deletes(w.work.seen, PassOut(w, ran))
  {
    UnlimitedPass(w.work.env.(ran := ran, done := w.sess.now), w.work.copy.status, w.work.seen, off);
  }

  lemma UnlimitedWorker(w: World, e: Event, off: bool)
    requires NeverLimited(w, off) && Lifecycle.Enabled(w, e) && OfWorker(e) && !e.Touch?
    ensures NeverLimited(Lifecycle.Apply(w, e), off)
  {
  }

  lemma UnlimitedOthers(w: World, e: Event, off: bool)
    requires NeverLimited(w, off) && Lifecycle.Enabled(w, e) && Unlimited(e, off) && !OfWorker(e)
    ensures NeverLimited(Lifecycle.Apply(w, e), off)
  {
  }

  lemma UnlimitedStep(w: World, e: Event, off: bool)
    requires NeverLimited(w, off) && Lifecycle.Enabled(w, e) && Unlimited(e, off)
    ensures NeverLimited(Lifecycle.Apply(w, e), off)
  {
    if e.Touch? {
      UnlimitedTouch(w, e.ran, off);
    } else if OfWorker(e) {
      UnlimitedWorker(w, e, off);
    } else {
      UnlimitedOthers(w, e, off);
    }
  }

  lemma {:induction false} UnlimitedAlways(w: World, es: seq<Event>, off: bool)
    requires NeverLimited(w, off) && Lifecycle.Legal(w, es)
    requires forall i :: 0 <= i < |es| ==> Unlimited(es[i], off)
    ensures NeverLimited(Lifecycle.Exec(w, es), off)
    decreases |es|
  {
    if es != [] {
      UnlimitedStep(w, es[0], off);
      UnlimitedAlways(Lifecycle.Apply(w, es[0]), es[1..], off);
    }
  }

  lemma UnlimitedTakesNothing(w: World, e: Event, off: bool)
    requires WorkOk(w) && SeenOk(w) && NeverLimited(w, off)
    ensures !TakesPod(w, e)
  {
    if TakesPod(w, e) {
      OnlyTouchTakes(w, e);
      UnlimitedTouch(w, e.ran, off);
    }
  }

  /** Without a limit a sandbox is never suspended: in every run in which it is always
      wanted and its override is not positive, or it has no override and its templates
      have no positive default, kubepark never takes its pod and never stores Suspending,
      Suspended or Resuming. */
  lemma NeverSuspendedWithoutLimit(name: string, spec: Spec, t: Option<Template>, es: seq<Event>, e: Event, off: bool)
    requires SpecUnlimited(spec, off) && TemplateUnlimited(t, off)
    requires forall i :: 0 <= i < |es| ==> Unlimited(es[i], off)
    requires Lifecycle.Legal(Start(name, spec, t), es)
    ensures var w := Lifecycle.Exec(Start(name, spec, t), es);
            !TakesPod(w, e) && (w.sb.Some? ==> Unslept(w.sb.value.status.phase))
  {
    var w := Lifecycle.Exec(Start(name, spec, t), es);
    StartInv(name, spec, t);
    Lifecycle.InvAlways(Start(name, spec, t), es);
    UnlimitedAlways(Start(name, spec, t), es, off);
    UnlimitedTakesNothing(w, e, off);
  }

  // ------------------------------------------------------ the clock rewound

  /** The end of a session closed at 1 is on its way to an idle clock that is not set
      yet; 50s later the pod becomes ready. */
  lemma CloseBeforeReady() returns (w: World)
    ensures Leads(START, w) && w.keeper == Bumping("s", 1, None) && w.sess.now == 50 * SECOND
    ensures w.pod == READY_POD && w.work.Resting? && w.template == Some(T1) && w.name == "a"
    ensures w.sb.Some? && !w.sb.value.deleting && w.sb.value.spec == Spec(Run, None) && ActiveSet(w.sess.sessions, "a") == {}
    ensures var st := w.sb.value.status; st.lastActivity == None && st.phase == Provisioning && st.hash == Some(T1)
  {
    var made := Made();
    SessionOpens(made);
    var w1 := made.(sess := Opened(made.sess));
    LeadsTrans(START, made, w1);
    SessionEnds(w1, 1);
    var w2 := w1.(sess := Ended(w1.sess, 1));
    LeadsTrans(START, w1, w2);
    var w3 := w2.(keeper := Bumping("s", 1, None));
    LeadsThen(START, w2, KeepRead("s"));
    var w4 := w3.(sess := w3.sess.(now := 50 * SECOND));
    LeadsThen(START, w3, Session(SM.Tick(50 * SECOND)));
    w := w4.(pod := READY_POD);
    LeadsThen(START, w4, Kubelet(READY_POD));
  }

  /** The idle clock can run backwards: a pass then starts it at 50s, and the patch
      sets it to 1. */
  lemma ClockCanRewind() returns (w: World)
    ensures Leads(START, w) && Rewinds(w, KeepPatch(Fine))
    ensures w.sb.Some? && w.sb.value.status.lastActivity == Some(50 * SECOND)
    ensures Lifecycle.Patched(w, Fine).sb.value.status.lastActivity == Some(1)
  {
    var u := CloseBeforeReady();
    w := FullPass(u, HOME, RbacNone);
    FullPassLeads(u, HOME, RbacNone);
    LeadsTrans(START, u, w);
    FullPassStores(u, HOME, RbacNone);
    ReadyPassOut(EnvOf(u, HOME, RbacNone), u.sb.value.status);
  }

  // ---------------------------------------------------------- the five races

  const TAKE := Touch(100 * SECOND)

  /** A pass that has looked at the ready pod of an expired sandbox without listed
      sessions. */
  predicate AboutToTake(w: World, u: World)
    requires Serves(u)
  {
    && w.work.Passing? && w.work == Passing(u.sb.value, Looked, w.work.env, READY_POD)
    && w.pod == READY_POD && w.sess.now == 100 * SECOND && w.template == Some(T1)
    && w.work.env == Env("a", Spec(Run, None), Some(T1), HOME, RbacNone, w.work.env.sessions,
                         w.sess.now, w.sess.now, w.sess.now, NO_FAULTS)
    && ActiveSet(w.work.env.sessions, "a") == {}
    && w.sb.Some? && !w.sb.value.deleting && w.sb.value.spec.desired == Run
  }

  lemma ExpiredOut(env: Env, st: Status)
    requires env == Env("a", Spec(Run, None), Some(T1), HOME, RbacNone, env.sessions, env.now, env.now, env.now, NO_FAULTS)
    requires env.now == 100 * SECOND && ActiveSet(env.sessions, "a") == {} && st.lastActivity == Some(1)
    ensures Deletes(READY_POD, ReconcileSpec(env, st, READY_POD))
  {
    PrepareFacts(env, st);
    var p := PrepareSpec(env, st);
    assert p.Go? && DriveSpec(env, T1, p.status.account, p.status, READY_POD).pod.value.terminating;
  }

  lemma ExpiredPassTakes(w: World, u: World)
    requires Serves(u) && AboutToTake(w, u)
    ensures TakesPod(w, TAKE) && ReadAsWanted(w) && LimitRead(w) == 60 * SECOND && ClockRead(w) == Some(1)
  {
    ExpiredOut(w.work.env, u.sb.value.status);
    assert w.work.env.(ran := 100 * SECOND, done := w.sess.now) == w.work.env;
  }

  /** A close that has not reached the idle clock: the pod is taken in the very
      nanosecond the session ended, with a 60s timeout. */
  lemma UnpropagatedCloseSuspendsAtOnce() returns (w: World)
    ensures Leads(START, w) && TakesPod(w, TAKE) && !Right(w)
    ensures w.work.Passing? && w.work.copy == w.sb.value && w.work.env.template == w.template
    ensures ClosedAt(w, "s", w.sess.now) && (forall sid :: !Connected(w, sid))
  {
    var u := JustClosed();
    w := LookedAt(u, HOME, RbacNone, NO_FAULTS);
    LookedAtLeads(u, HOME, RbacNone, NO_FAULTS);
    LeadsTrans(START, u, w);
    assert ActiveSet(w.work.env.sessions, "a") == {};
    ExpiredPassTakes(w, u);
    assert ClosedAt(w, "s", w.sess.now) && Used(w, w.sess.now);
  }

  /** A close that reaches it only after the pass has read it. */
  lemma StaleReadSuspendsAtOnce() returns (w: World)
    ensures Leads(START, w) && TakesPod(w, TAKE) && !Right(w)
    ensures w.work.Passing? && ReadAsWanted(w) && LimitNow(w) == LimitRead(w) == 60 * SECOND
    ensures w.sb.value.status.lastActivity == Some(w.sess.now) && (forall sid :: !Connected(w, sid))
  {
    var u := JustClosed();
    var w1 := u.(work := Reading(u.sb.value));
    LeadsThen(START, u, Begin);
    var w2 := w1.(keeper := Bumping("s", 100 * SECOND, Some(1)));
    LeadsThen(START, w1, KeepRead("s"));
    var w3 := Lifecycle.Patched(w2, Fine);
    LeadsThen(START, w2, KeepPatch(Fine));
    ReadsLead(w3, HOME, RbacNone, NO_FAULTS);
    w := w3.(work := Passing(u.sb.value, Looked, EnvFor(w3, u.sb.value.spec, HOME, RbacNone, NO_FAULTS), w3.pod));
    LeadsTrans(START, w3, w);
    assert ActiveSet(w.work.env.sessions, "a") == {};
    ExpiredPassTakes(w, u);
    assert Used(w, w.sess.now);
  }

  /** An expired sandbox without sessions. */
  lemma Late() returns (u: World)
    ensures Leads(START, u) && Serves(u) && u.sess == SM.Sys(100 * SECOND, u.sess.rev, map[], {}, [])
  {
    var up := Up();
    u := up.(sess := up.sess.(now := 100 * SECOND));
    LeadsThen(START, up, Session(SM.Tick(100 * SECOND)));
  }

  /** ... whose pass has listed them. */
  lemma ListedLate() returns (w: World, u: World)
    ensures Serves(u) && u.sess == SM.Sys(100 * SECOND, u.sess.rev, map[], {}, [])
    ensures w == u.(work := Passing(u.sb.value, Lifecycle.Listed, EnvOf(u, HOME, RbacNone), None)) && Leads(START, w)
  {
    u := Late();
    var w1 := u.(work := Reading(u.sb.value));
    LeadsThen(START, u, Begin);
    var env := EnvOf(u, HOME, RbacNone);
    var w2 := u.(work := Passing(u.sb.value, Fetched, env.(sessions := map[]), None));
    LeadsThen(START, w1, Fetch(HOME, RbacNone, NO_FAULTS));
    w := u.(work := Passing(u.sb.value, Lifecycle.Listed, env, None));
    LeadsThen(START, w2, ListSessions);
  }

  /** A session that opens between the pass's list and its delete loses the pod it was
      just opened for. */
  lemma OpenedAfterListLosesPod() returns (w: World)
    ensures Leads(START, w) && TakesPod(w, TAKE) && !Right(w)
    ensures w.work.Passing? && w.work.copy == w.sb.value && w.work.env.template == w.template && Connected(w, "s")
  {
    var w1, u := ListedLate();
    SessionOpens(w1);
    var w2 := w1.(sess := Opened(w1.sess));
    LeadsTrans(START, w1, w2);
    var w3 := w2.(work := w2.work.(stage := Sampled));
    LeadsThen(START, w2, Sample);
    w := w2.(work := w2.work.(stage := Looked, seen := READY_POD));
    LeadsThen(START, w3, Look);
    assert ActiveSet(w.work.env.sessions, "a") == {};
    ExpiredPassTakes(w, u);
    assert Connected(w, "s");
  }

  /** A timeout that is raised or switched off after the pass has read the sandbox: the
      pod is taken by the old one. */
  lemma TimeoutEditedTooLate(idle: Duration) returns (w: World)
    requires idle <= 0 || 100 * SECOND <= idle
    ensures Leads(START, w) && TakesPod(w, TAKE) && !Right(w) && LimitNow(w) == idle
    ensures w.work.Passing? && ReadAsWanted(w) && LimitRead(w) == 60 * SECOND
    ensures w.sb.value.status.lastActivity == ClockRead(w) && w.sess.sessions == map[]
  {
    var u := Late();
    var w1 := u.(work := Reading(u.sb.value));
    LeadsThen(START, u, Begin);
    var w2 := Put(w1, u.sb.value.(spec := Spec(Run, Some(idle))));
    LeadsThen(START, w1, Edit(Spec(Run, Some(idle))));
    ReadsLead(w2, HOME, RbacNone, NO_FAULTS);
    w := w2.(work := Passing(u.sb.value, Looked, EnvFor(w2, u.sb.value.spec, HOME, RbacNone, NO_FAULTS), w2.pod));
    LeadsTrans(START, w2, w);
    assert ActiveSet(w.work.env.sessions, "a") == {};
    ExpiredPassTakes(w, u);
    assert Used(w, 1);
  }

  lemma StoppedOut(env: Env, st: Status)
    requires env == Env("a", Spec(Stop, None), Some(T1), HOME, RbacNone, env.sessions, env.now, env.now, env.now, NO_FAULTS)
    ensures Deletes(READY_POD, ReconcileSpec(env, st, READY_POD))
  {
    PrepareFacts(env, st);
    assert PrepareSpec(env, st).Go?;
  }

  /** A sandbox that is started again after a pass has read it as stopped: a session is
      opened and the desired state set back, as the gateway does, and the pod is taken
      from under the session. */
  lemma ReadStoppedLosesPod() returns (w: World)
    ensures Leads(START, w) && TakesPod(w, Touch(1)) && !Right(w)
    ensures w.work.Passing? && !ReadAsWanted(w) && Connected(w, "s") && "s" in ActiveSet(w.work.env.sessions, "a")
  {
    var u := StartedAgain();
    ReadsLead(u, HOME, RbacNone, NO_FAULTS);
    w := u.(work := Passing(u.work.copy, Looked, EnvFor(u, Spec(Stop, None), HOME, RbacNone, NO_FAULTS), u.pod));
    LeadsTrans(START, u, w);
    StoppedOut(w.work.env, w.work.copy.status);
    assert PassOut(w, 1) == ReconcileSpec(w.work.env, w.work.copy.status, READY_POD);
    assert Connected(w, "s");
  }

  /** A pass has read the sandbox as stopped; then a session opened and the sandbox was
      started again. */
  lemma StartedAgain() returns (w: World)
    ensures Leads(START, w) && w.work.Reading? && w.work.copy.spec == Spec(Stop, None) && w.sess.now == 1
    ensures w.pod == READY_POD && w.template == Some(T1) && w.name == "a"
    ensures w.sb.Some? && !w.sb.value.deleting && w.sb.value.spec == Spec(Run, None)
    ensures "s" in w.sess.sessions && IsActive(w.sess.sessions["s"], "a")
  {
    var u := Up();
    var w1 := Put(u, u.sb.value.(spec := Spec(Stop, None)));
    LeadsThen(START, u, Edit(Spec(Stop, None)));
    var w2 := w1.(work := Reading(w1.sb.value));
    LeadsThen(START, w1, Begin);
    SessionOpens(w2);
    var w3 := w2.(sess := Opened(w2.sess));
    LeadsTrans(START, w2, w3);
    w := Put(w3, w3.sb.value.(spec := Spec(Run, None)));
    LeadsThen(START, w3, Edit(Spec(Run, None)));
  }
}
