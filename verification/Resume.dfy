/** A sandbox with an Active session wakes up, stays awake and publishes its pod
    address, whatever API calls fail on the way. */
module Resume {
  import opened Base
  import opened SandboxPass
  import opened Lifecycle
  import opened Scenarios
  import SM = SessionModel
  import Wake

  predicate AwakePhase(p: Phase) {
    p == Suspended || p == Resuming || p == Provisioning || p == Running
  }

  predicate Provisioned(rbac: Rbac) {
    rbac.RbacNone? || rbac.RbacBound?
  }

  /** The user keeps wanting the sandbox, and template, home and RBAC stay valid;
      API calls may fail at any time. */
  predicate Willing(e: Event) {
    match e
    case Edit(spec) => spec.desired == Run
    case EditTemplate(t) => t.Some?
    case DeleteSandbox => false
    case Fetch(home, rbac, _) => home.HomeOk? && Provisioned(rbac)
    case _ => true
  }

  ghost predicate WillingRun(w: World, es: seq<Event>, sid: string)
    requires Legal(w, es)
    decreases |es|
  {
    Connected(w, sid) && (es == [] || (Willing(es[0]) && WillingRun(Apply(w, es[0]), es[1..], sid)))
  }

  /** A pass in flight is safe for the session: it has not listed the sessions yet,
      or found this one Active. */
  predicate Harmless(env: Env, stage: Stage, sid: string) {
    && env.template.Some? && env.home.HomeOk? && Provisioned(env.rbac)
    && (stage != Fetched ==> sid in env.sessions && IsActive(env.sessions[sid], env.name))
  }

  /** Wanted, and nothing in flight that could put it to sleep. */
  predicate Awake(w: World, sid: string) {
    && w.sb.Some? && !w.sb.value.deleting && w.sb.value.spec.desired == Run && w.template.Some?
    && AwakePhase(w.sb.value.status.phase)
    && match w.work {
         case Resting => true
         case Finalizing(_) => false
         case Reading(copy) => copy.spec.desired == Run && AwakePhase(copy.status.phase)
         case Passing(copy, stage, env, _) =>
           copy.spec.desired == Run && AwakePhase(copy.status.phase) && Harmless(env, stage, sid)
         case Acted(copy, next, _, _, _) =>
           && AwakePhase(copy.status.phase) && AwakePhase(next.phase)
           && (next.phase == Suspended ==> copy.status.phase == Suspended)
       }
  }

  /** With an Active session a pass never suspends. */
  lemma PassStaysAwake(e: Env, st: Status, pod: Option<Pod>, sid: string)
    requires sid in e.sessions && IsActive(e.sessions[sid], e.name)
    requires e.spec.desired == Run && e.template.Some? && e.home.HomeOk? && Provisioned(e.rbac)
    requires AwakePhase(st.phase)
    ensures var out := ReconcileSpec(e, st, pod);
            && AwakePhase(out.status.phase)
            && (out.status.phase == Suspended ==> st.phase == Suspended)
            && (LivePod(pod) ==> !Deletes(pod, out))
  {
    PrepareFacts(e, st);
    var p := PrepareSpec(e, st);
    assert sid in ActiveSet(e.sessions, e.name);
    if p.Go? && !e.faults.list {
      RunStaysAwake(e, p.t, p.status.account, p.status.(active := |ActiveSet(e.sessions, e.name)|), pod);
    }
  }

  lemma RunStaysAwake(e: Env, t: Template, account: string, st: Status, pod: Option<Pod>)
    requires AwakePhase(st.phase)
    ensures var out := RunSpec(e, t, account, st, pod);
            && AwakePhase(out.status.phase)
            && (out.status.phase == Suspended ==> out.status.phase == st.phase)
            && (LivePod(pod) ==> out.pod == pod)
  {
    if pod.Some? {
      assert forall s :: LiveSpec(e, t, s, pod.value).phase in {Running, Resuming, Provisioning};
    }
  }

  lemma TouchStaysAwake(w: World, ran: Time, sid: string)
    requires WorkOk(w) && SeenOk(w) && Awake(w, sid) && AtStage(w, Looked)
    ensures var w' := Touched(w, ran);
            Awake(w', sid) && w'.sb == w.sb && (LivePod(w.pod) ==> LivePod(w'.pod))
  {
    PassStaysAwake(w.work.env.(ran := ran, done := w.sess.now), w.work.copy.status, w.work.seen, sid);
  }

  lemma WrittenStaysAwake(w: World, fault: Fault, sid: string)
    requires WorkOk(w) && Awake(w, sid) && w.work.Acted?
    ensures var w' := Written(w, fault);
            Awake(w', sid) && (w'.sb.value.status.phase == Suspended ==> w.sb.value.status.phase == Suspended)
  {
  }

  /** One step of a willing run. */
  ghost predicate StepAwake(w: World, e: Event, sid: string)
    requires w.sb.Some? && Enabled(w, e)
  {
    var w' := Apply(w, e);
    && Awake(w', sid)
    && (w'.sb.value.status.phase == Suspended ==> w.sb.value.status.phase == Suspended)
    && (LivePod(w.pod) && !e.Kubelet? ==> LivePod(w'.pod))
  }

  lemma ReadStaysAwake(w: World, e: Event, sid: string)
    requires WorkOk(w) && Awake(w, sid) && Connected(w, sid) && Enabled(w, e) && Willing(e)
    requires e.Begin? || e.Fetch? || e.ListSessions? || e.Sample? || e.Look?
    ensures StepAwake(w, e, sid)
  {
  }

  lemma OthersStayAwake(w: World, e: Event, sid: string)
    requires Awake(w, sid) && Enabled(w, e) && Willing(e) && !OfWorker(e)
    ensures StepAwake(w, e, sid)
  {
    StepFrame(w, e);
  }

  lemma AwakeStep(w: World, e: Event, sid: string)
    requires WorkOk(w) && SeenOk(w) && Awake(w, sid) && Connected(w, sid) && Enabled(w, e) && Willing(e)
    ensures StepAwake(w, e, sid)
  {
    if e.Touch? {
      TouchStaysAwake(w, e.ran, sid);
    } else if e.WriteBack? {
      WrittenStaysAwake(w, e.fault, sid);
    } else if OfWorker(e) {
      ReadStaysAwake(w, e, sid);
    } else {
      OthersStayAwake(w, e, sid);
    }
  }

  /** Along a run no kubepark step takes a live pod away. */
  ghost predicate PodSafe(w: World, es: seq<Event>)
    requires Legal(w, es)
    decreases |es|
  {
    es != [] ==>
      && (LivePod(w.pod) && !es[0].Kubelet? ==> LivePod(Apply(w, es[0]).pod))
      && PodSafe(Apply(w, es[0]), es[1..])
  }

  /** While a session stays Active, and unless a pass in flight had already listed the
      sessions without it: in every run with arbitrary API failures no reconcile
      suspends the sandbox, none takes a live pod, and once it has left Suspended it
      never returns there. */
  lemma {:induction false} StaysAwake(w: World, es: seq<Event>, sid: string)
    requires Inv(w) && Awake(w, sid) && Legal(w, es) && WillingRun(w, es, sid)
    ensures Awake(Exec(w, es), sid) && PodSafe(w, es)
    ensures Exec(w, es).sb.value.status.phase == Suspended ==> w.sb.value.status.phase == Suspended
    decreases |es|
  {
    if es != [] {
      InvStep(w, es[0]);
      AwakeStep(w, es[0], sid);
      StaysAwake(Apply(w, es[0]), es[1..], sid);
    }
  }

  // --------------------------------------------------------------- progress

  /** With an Active session and nothing failing, a pass is `run`. */
  lemma ConnectedPass(e: Env, st: Status, pod: Option<Pod>, sid: string)
    requires Settled(e) && e.spec.desired == Run && e.faults == NO_FAULTS
    requires sid in e.sessions && IsActive(e.sessions[sid], e.name)
    ensures var p := PrepareSpec(e, st);
            && p.Go? && p.status.phase == st.phase && e.template == Some(p.t)
            && var st' := p.status.(active := |ActiveSet(e.sessions, e.name)|);
               var out := RunSpec(e, p.t, p.status.account, st', pod);
               ReconcileSpec(e, st, pod).status == out.status && ReconcileSpec(e, st, pod).pod == out.pod
  {
    PrepareFacts(e, st);
    assert sid in ActiveSet(e.sessions, e.name);
  }

  /** From Suspended, the first pass creates the pod from the current template
      and enters Resuming. */
  lemma FirstPassResumes(w: World, home: Home, rbac: Rbac, sid: string)
    requires Awake(w, sid) && w.work.Resting? && Connected(w, sid)
    requires home.HomeOk? && Provisioned(rbac)
    requires w.sb.value.status.phase == Suspended && w.pod.None?
    ensures var w' := FullPass(w, home, rbac);
            && w'.sb.Some? && w'.sb.value.status.phase == Resuming
            && w'.pod.Some? && LivePod(w'.pod) && w.template == Some(w'.pod.value.built)
  {
    ConnectedPass(EnvOf(w, home, rbac), w.sb.value.status, w.pod, sid);
    FullPassStores(w, home, rbac);
  }

  /** What the gateway's poll reads. */
  function GatewaySees(w: World): Wake.Seen
    requires w.sb.Some?
  {
    Wake.Seen(w.name, w.sb.value.status.podIP, w.sb.value.spec.desired == Run)
  }

  /** Once the pod is ready, the next pass publishes its address, and the gateway's
      next poll returns. */
  lemma ReadyPodPublished(w: World, home: Home, rbac: Rbac, sid: string)
    requires Awake(w, sid) && w.work.Resting? && Connected(w, sid)
    requires home.HomeOk? && Provisioned(rbac)
    requires w.pod.Some? && IsPodReady(w.pod.value) && w.pod.value.ip != ""
    ensures var w' := FullPass(w, home, rbac);
            && w'.sb.Some? && w'.sb.value.status.phase == Running
            && w'.sb.value.status.podIP == w.pod.value.ip && w'.pod == w.pod
            && Wake.Dialable(GatewaySees(w'))
  {
    var e := EnvOf(w, home, rbac);
    ReadyPass(e, w.sb.value.status, w.pod.value, sid);
    FullPassStores(w, home, rbac);
  }

  lemma ReadyPass(e: Env, st: Status, p: Pod, sid: string)
    requires Settled(e) && e.spec.desired == Run && e.faults == NO_FAULTS
    requires sid in e.sessions && IsActive(e.sessions[sid], e.name)
    requires IsPodReady(p)
    ensures var out := ReconcileSpec(e, st, Some(p));
            out.status.phase == Running && out.status.podIP == p.ip && out.pod == Some(p)
  {
    ConnectedPass(e, st, Some(p), sid);
  }

  /** Flipping `desiredState` alone does not wake an idle-expired sandbox: without
      an Active session the pass suspends it again. */
  lemma FlagAloneDoesNotResume(w: World, home: Home, rbac: Rbac)
    requires w.sb.Some? && !w.sb.value.deleting && w.sb.value.spec.desired == Run && w.template.Some?
    requires w.work.Resting? && w.pod.None?
    requires home.HomeOk? && Provisioned(rbac)
    requires ActiveSet(w.sess.sessions, w.name) == {}
    requires IdleExpired(w.sb.value.status.lastActivity, Timeout(EnvOf(w, home, rbac)), w.sess.now)
    ensures var w' := FullPass(w, home, rbac);
            w'.sb.Some? && w'.sb.value.status.phase == Suspended && w'.pod.None?
  {
    FullPassStores(w, home, rbac);
    PrepareFacts(EnvOf(w, home, rbac), w.sb.value.status);
  }

  /** A run in which that happens: the sandbox goes idle and is suspended, the user stops
      it and starts it again, and the next pass leaves it suspended. */
  lemma RestartDoesNotResume() returns (w: World)
    ensures Leads(START, w) && w.work.Resting? && w.pod.None?
    ensures w.sb.Some? && w.sb.value.spec.desired == Run && w.sb.value.status.phase == Suspended
  {
    var u := GoneIdle();
    var w1 := Put(u, u.sb.value.(spec := Spec(Stop, None)));
    LeadsThen(START, u, Edit(Spec(Stop, None)));
    var w2 := Put(w1, w1.sb.value.(spec := Spec(Run, None)));
    LeadsThen(START, w1, Edit(Spec(Run, None)));
    w := FullPass(w2, HOME, RbacNone);
    FullPassLeads(w2, HOME, RbacNone);
    LeadsTrans(START, w2, w);
    FlagAloneDoesNotResume(w2, HOME, RbacNone);
    FullPassStores(w2, HOME, RbacNone);
  }

  /** An idle sandbox whose pod was told to stop and is gone. */
  lemma GoneIdle() returns (w: World)
    ensures Leads(START, w) && w.work.Resting? && w.pod.None? && w.template == Some(T1) && w.name == "a"
    ensures w.sb.Some? && !w.sb.value.deleting && w.sb.value.spec == Spec(Run, None)
    ensures w.sb.value.status.lastActivity == Some(1) && w.sess.now == 100 * SECOND && ActiveSet(w.sess.sessions, "a") == {}
  {
    var up := Up();
    var late := up.(sess := up.sess.(now := 100 * SECOND));
    LeadsThen(START, up, Session(SM.Tick(100 * SECOND)));
    var w1 := FullPass(late, HOME, RbacNone);
    FullPassLeads(late, HOME, RbacNone);
    LeadsTrans(START, late, w1);
    FullPassStores(late, HOME, RbacNone);
    var env := EnvOf(late, HOME, RbacNone);
    PassKeepsClock(env, late.sb.value.status, late.pod);
    PassPod(env, late.sb.value.status, late.pod);
    LeadsThen(START, w1, Kubelet(None));
    w := w1.(pod := None);
    assert ActiveSet(w.sess.sessions, "a") == {};
  }
}
