/** Template edits never touch a running pod; drift is reported exactly, unless the
    outcome of a pod creation was lost. */
module TemplatePinning {
  import opened Base
  import opened SandboxPass
  import opened Lifecycle
  import opened Scenarios

  /** `out` keeps the pod's template, and pins the hash of a pod it creates. */
  predicate Pins(out: Out, t: Option<Template>, st: Status, pod: Option<Pod>) {
    && (out.created ==> pod.None? && out.pod.Some? && t == Some(out.pod.value.built))
    && (out.created && !out.err ==> out.status.hash == t)
    && (!out.created ==> out.status.hash == st.hash && out.pod.Some? == pod.Some?)
    && (pod.Some? ==> out.pod.Some? && out.pod.value.built == pod.value.built && !out.created)
  }

  /** What a pass does to the pinned hash and to the pod's template. */
  lemma PassPins(e: Env, st: Status, pod: Option<Pod>)
    ensures Pins(ReconcileSpec(e, st, pod), e.template, st, pod)
  {
    PrepareFacts(e, st);
    var p := PrepareSpec(e, st);
    if p.Go? { DrivePins(e, p.t, p.status.account, p.status, pod); }
  }

  lemma DrivePins(e: Env, t: Template, account: string, st: Status, pod: Option<Pod>)
    ensures Pins(DriveSpec(e, t, account, st, pod), Some(t), st, pod)
  {
    var st' := st.(active := |ActiveSet(e.sessions, e.name)|);
    assert Pins(SuspendSpec(e, st, pod), Some(t), st, pod);
    assert Pins(SuspendSpec(e, st', pod), Some(t), st', pod);
    RunPins(e, t, account, st', pod);
  }

  lemma RunPins(e: Env, t: Template, account: string, st: Status, pod: Option<Pod>)
    ensures Pins(RunSpec(e, t, account, st, pod), Some(t), st, pod)
  {
    if pod.Some? { LiveKeepsHash(e, t, st.(podName := PodName(e.name)), pod.value); }
  }

  lemma LiveKeepsHash(e: Env, t: Template, st: Status, p: Pod)
    ensures LiveSpec(e, t, st, p).hash == st.hash
  {
  }

  // ------------------------------------------------------- the pinned hash

  /** The hash that speaks for the current pod: in the store, or on its way there. */
  function PinnedHash(w: World): Option<Template> {
    if w.work.Acted? && w.work.created then w.work.next.hash
    else if w.sb.Some? then w.sb.value.status.hash
    else None
  }

  ghost predicate PinOk(w: World) {
    w.sb.Some? ==>
      && (w.pod.Some? ==> PinnedHash(w) == Some(w.pod.value.built))
      && (!w.work.Resting? ==> w.work.copy.status.hash == w.sb.value.status.hash)
      && (AtStage(w, Looked) && w.work.seen.Some? ==> w.work.copy.status.hash == Some(w.work.seen.value.built))
      && (w.work.Acted? && !w.work.created ==> w.work.next.hash == w.work.copy.status.hash)
  }

  /** No step of the run loses the outcome of a pod creation: the create call is
      not reported failed after taking effect, and the status write that follows
      it succeeds. */
  ghost predicate Faithful(w: World, e: Event) {
    match e
    case Crash => !(w.work.Acted? && w.work.created)
    case WriteBack(fault) => w.work.Acted? && w.work.created ==> fault != Refused && Current(w, w.work.copy)
    case Touch(ran) => w.work.Passing? ==> var out := PassOut(w, ran); out.created ==> !out.err
    case _ => true
  }

  ghost predicate FaithfulRun(w: World, es: seq<Event>)
    requires Legal(w, es)
    decreases |es|
  {
    es == [] || (Faithful(w, es[0]) && FaithfulRun(Apply(w, es[0]), es[1..]))
  }

  lemma TouchPins(w: World, ran: Time)
    requires SeenOk(w) && PinOk(w) && AtStage(w, Looked) && Faithful(w, Touch(ran))
    ensures PinOk(Touched(w, ran))
  {
    PassPins(w.work.env.(ran := ran, done := w.sess.now), w.work.copy.status, w.work.seen);
  }

  lemma WrittenPins(w: World, fault: Fault)
    requires WorkOk(w) && PinOk(w) && w.work.Acted? && Faithful(w, WriteBack(fault))
    ensures PinOk(Written(w, fault))
  {
  }

  lemma MarkedPins(w: World, fault: Fault)
    requires PinOk(w) && w.work.Finalizing?
    ensures PinOk(Marked(w, fault))
  {
  }

  lemma ReadPins(w: World, e: Event)
    requires WorkOk(w) && PinOk(w) && Enabled(w, e) && (e.Begin? || e.Fetch? || e.ListSessions? || e.Sample? || e.Look?)
    ensures PinOk(Apply(w, e))
  {
  }

  lemma OthersPin(w: World, e: Event)
    requires PinOk(w) && Enabled(w, e) && Faithful(w, e) && !OfWorker(e)
    ensures PinOk(Apply(w, e))
  {
    StepFrame(w, e);
  }

  lemma PinStep(w: World, e: Event)
    requires WorkOk(w) && SeenOk(w) && PinOk(w) && Enabled(w, e) && Faithful(w, e)
    ensures PinOk(Apply(w, e))
  {
    if e.Touch? {
      TouchPins(w, e.ran);
    } else if e.WriteBack? {
      WrittenPins(w, e.fault);
    } else if e.FinMark? {
      MarkedPins(w, e.fault);
    } else if !OfWorker(e) {
      OthersPin(w, e);
    } else if !e.FinBegin? && !e.FinPod? && !e.FinEnd? {
      ReadPins(w, e);
    }
  }

  /** The pinned hash always names the template the pod was built from. */
  lemma {:induction false} PinnedAlways(w: World, es: seq<Event>)
    requires Inv(w) && PinOk(w) && Legal(w, es) && FaithfulRun(w, es)
    ensures PinOk(Exec(w, es))
    decreases |es|
  {
    if es != [] {
      InvStep(w, es[0]);
      PinStep(w, es[0]);
      PinnedAlways(Apply(w, es[0]), es[1..]);
    }
  }

  // --------------------------------------------------- the pod's template

  /** No step, template edits included, changes the template of an existing pod; a
      pod that appears was built by a pass from the template it had fetched. */
  lemma PodKeepsTemplate(w: World, e: Event)
    requires Enabled(w, e) && SeenOk(w)
    ensures var w' := Apply(w, e);
            && (w.pod.Some? && w'.pod.Some? ==> w'.pod.value.built == w.pod.value.built)
            && (w.pod.None? && w'.pod.Some? ==> e.Touch? && w.work.env.template == Some(w'.pod.value.built))
  {
    if e.Touch? {
      PassPins(w.work.env.(ran := e.ran, done := w.sess.now), w.work.copy.status, w.work.seen);
    }
  }

  /** The templates stored since the last pass began. */
  ghost function Window(w: World, es: seq<Event>, since: set<Option<Template>>): set<Option<Template>>
    requires Legal(w, es)
    decreases |es|
  {
    if es == [] then since
    else
      var w' := Apply(w, es[0]);
      Window(w', es[1..], if es[0].Begin? then {w'.template} else since + {w'.template})
  }

  lemma {:induction false} FetchedInWindow(w: World, es: seq<Event>, since: set<Option<Template>>)
    requires Legal(w, es) && w.template in since && (w.work.Passing? ==> w.work.env.template in since)
    ensures var w' := Exec(w, es);
            w'.work.Passing? ==> w'.work.env.template in Window(w, es, since)
    decreases |es|
  {
    if es != [] {
      var w' := Apply(w, es[0]);
      assert w'.work.Passing? && !es[0].Fetch? ==> w.work.Passing? && w'.work.env.template == w.work.env.template;
      assert w'.work.Passing? ==> !es[0].Begin?;
      FetchedInWindow(w', es[1..], if es[0].Begin? then {w'.template} else since + {w'.template});
    }
  }

  /** So every pod ever created was built from a template that was the current one at
      some moment of the pass that created it. */
  lemma BuiltFromCurrentTemplate(name: string, spec: Spec, t: Option<Template>, es: seq<Event>, e: Event)
    requires Legal(Start(name, spec, t), es)
    requires var w := Exec(Start(name, spec, t), es);
             Enabled(w, e) && w.pod.None? && Apply(w, e).pod.Some?
    ensures var w := Exec(Start(name, spec, t), es);
            Some(Apply(w, e).pod.value.built) in Window(Start(name, spec, t), es, {t})
  {
    StartInv(name, spec, t);
    InvAlways(Start(name, spec, t), es);
    FetchedInWindow(Start(name, spec, t), es, {t});
    PodKeepsTemplate(Exec(Start(name, spec, t), es), e);
  }

  // --------------------------------------------------------------- reports

  /** A pass that reaches a live pod. */
  ghost predicate ReachesPod(e: Env, st: Status, pod: Option<Pod>) {
    && Settled(e) && e.spec.desired == Run && !e.faults.list && !e.faults.getPod
    && pod.Some? && !Dead(pod.value)
    && !(ActiveSet(e.sessions, e.name) == {} && IdleExpired(st.lastActivity, Timeout(e), e.now))
  }

  lemma DriftReported(e: Env, st: Status, pod: Option<Pod>)
    requires ReachesPod(e, st, pod)
    ensures var out := ReconcileSpec(e, st, pod).status;
            && (Holds(out, TemplateOutdated) <==> st.hash.Some? && st.hash != e.template)
            && (Denied(out, TemplateOutdated) <==> st.hash.None? || st.hash == e.template)
  {
    PrepareFacts(e, st);
    var p := PrepareSpec(e, st);
    var st' := p.status.(active := |ActiveSet(e.sessions, e.name)|);
    assert RunSpec(e, p.t, p.status.account, st', pod).status == LiveSpec(e, p.t, st'.(podName := PodName(e.name)), pod.value);
  }

  /** The report speaks the truth about the pod it saw and the template it fetched. */
  ghost predicate ReportsTruly(out: Status, e: Env, pod: Pod) {
    && (Holds(out, TemplateOutdated) <==> e.template != Some(pod.built))
    && (Denied(out, TemplateOutdated) <==> e.template == Some(pod.built))
  }

  /** In every faithful run, each pass over a live pod reports TemplateOutdated
      True exactly when the template it fetched differs from the one the pod was
      built from. */
  lemma OutdatedExactly(name: string, spec: Spec, t: Option<Template>, es: seq<Event>, w: World, ran: Time)
    requires Legal(Start(name, spec, t), es) && FaithfulRun(Start(name, spec, t), es)
    requires w == Exec(Start(name, spec, t), es) && w.sb.Some? && AtStage(w, Looked)
    requires ReachesPod(w.work.env, w.work.copy.status, w.work.seen)
    ensures ReportsTruly(PassOut(w, ran).status, w.work.env, w.work.seen.value)
  {
    StartInv(name, spec, t);
    PinnedAlways(Start(name, spec, t), es);
    DriftReported(w.work.env.(ran := ran, done := w.sess.now), w.work.copy.status, w.work.seen);
  }

  /** In any run, faithful or not, the report is true exactly when the stored hash
      and the pod's own template agree on whether the template changed; an empty hash
      says it never did. */
  lemma ReportTrueExactly(e: Env, st: Status, pod: Pod)
    requires ReachesPod(e, st, Some(pod))
    ensures ReportsTruly(ReconcileSpec(e, st, Some(pod)).status, e, pod) <==>
              ((st.hash.Some? && st.hash != e.template) <==> e.template != Some(pod.built))
  {
    DriftReported(e, st, Some(pod));
  }

  // ------------------------------------------------------------- lost writes

  const LOST_CREATE := NO_FAULTS.(podWrite := Lost)

  /** A wanted sandbox without pod and without activity to expire. */
  predicate Podless(w: World) {
    && w.name == "a" && w.work.Resting? && w.pod.None? && w.template.Some?
    && w.sb.Some? && !w.sb.value.deleting && w.sb.value.spec == Spec(Run, None)
    && ActiveSet(w.sess.sessions, "a") == {} && w.sess.now == 1
    && w.sb.value.status.lastActivity in {None, Some(1)}
  }

  lemma LostCreateOut(env: Env, st: Status)
    requires env == Env("a", Spec(Run, None), env.template, HOME, RbacNone, env.sessions, 1, 1, 1, LOST_CREATE)
    requires env.template.Some? && ActiveSet(env.sessions, "a") == {} && st.lastActivity in {None, Some(1)}
    ensures var out := ReconcileSpec(env, st, None);
            out.created && out.pod == Some(NewPod(env.template.value, "")) && out.status.hash == st.hash
            && out.status.lastActivity == st.lastActivity
  {
    PrepareFacts(env, st);
    var p := PrepareSpec(env, st);
    assert p.Go? && p.status.account == "";
    assert !IdleExpired(st.lastActivity, Timeout(env), 1);
  }

  /** The pass creates the pod, is told that it failed, and stores no hash. */
  lemma LostCreate(w: World) returns (w': World)
    requires Podless(w)
    ensures Leads(w, w') && w'.pod == Some(NewPod(w.template.value, ""))
    ensures w'.work.Resting? && w'.template == w.template && w'.name == "a" && w'.sess == w.sess.(rev := w'.sess.rev)
    ensures w'.sb.Some? && !w'.sb.value.deleting && w'.sb.value.spec == Spec(Run, None)
    ensures var st, st' := w.sb.value.status, w'.sb.value.status;
            st'.hash == st.hash && st'.lastActivity == st.lastActivity
  {
    var w2 := LookedAt(w, HOME, RbacNone, LOST_CREATE);
    LookedAtLeads(w, HOME, RbacNone, LOST_CREATE);
    var env := w2.work.env;
    LostCreateOut(env, w.sb.value.status);
    LeadsThen(w, w2, Touch(1));
    var out := PassOut(w2, 1);
    assert out == ReconcileSpec(env, w.sb.value.status, None);
    var w3 := w2.(pod := out.pod, work := Acted(w2.work.copy, out.status, true, out.err, out.requeue));
    assert Touched(w2, 1) == w3;
    w' := Written(w3, Fine);
    LeadsThen(w, w3, WriteBack(Fine));
  }

  /** ... after which the pod becomes ready, the template is edited, and a pass that
      fails nowhere reports. */
  lemma ReportAfterLostCreate(w: World, now: Template) returns (w': World)
    requires Podless(w)
    ensures Leads(w, w') && w'.pod.Some? && LivePod(w'.pod) && w.template == Some(w'.pod.value.built)
    ensures w'.template == Some(now) && w'.sb.Some?
    ensures var st := w.sb.value.status;
            && (Holds(w'.sb.value.status, TemplateOutdated) <==> st.hash.Some? && st.hash != Some(now))
            && (Denied(w'.sb.value.status, TemplateOutdated) <==> st.hash.None? || st.hash == Some(now))
  {
    var w1 := LostCreate(w);
    var p := Some(Pod(PodRunning, Some(true), "10.0.0.1", false, w.template.value, ""));
    var w2 := w1.(pod := p);
    LeadsThen(w, w1, Kubelet(p));
    var w3 := w2.(template := Some(now));
    LeadsThen(w, w2, EditTemplate(Some(now)));
    w' := FullPass(w3, HOME, RbacNone);
    FullPassLeads(w3, HOME, RbacNone);
    LeadsTrans(w, w3, w');
    FullPassStores(w3, HOME, RbacNone);
    var env := EnvOf(w3, HOME, RbacNone);
    assert !IdleExpired(w3.sb.value.status.lastActivity, Timeout(env), env.now);
    DriftReported(env, w3.sb.value.status, p);
    ReportKeepsPod(env, w3.sb.value.status, p);
  }

  lemma ReportKeepsPod(e: Env, st: Status, pod: Option<Pod>)
    requires ReachesPod(e, st, pod)
    ensures ReconcileSpec(e, st, pod).pod == pod
  {
    PrepareFacts(e, st);
    var p := PrepareSpec(e, st);
    assert RunSpec(e, p.t, p.status.account, p.status.(active := |ActiveSet(e.sessions, e.name)|), pod).pod == pod;
  }

  /** The first creation's outcome is lost: drift is never reported, whatever the
      template becomes. */
  lemma LostCreateHidesDrift() returns (w: World)
    ensures Leads(START, w) && w.sb.Some? && LivePod(w.pod) && w.template != Some(w.pod.value.built)
    ensures Denied(w.sb.value.status, TemplateOutdated)
  {
    w := ReportAfterLostCreate(START, T2);
  }

  /** A later creation's outcome is lost: drift is reported of a pod built from the
      current template, or hidden when the template is edited back. */
  lemma LostCreateMisreports() returns (alarm: World, hidden: World)
    ensures Leads(START, alarm) && alarm.sb.Some? && LivePod(alarm.pod) && alarm.template == Some(alarm.pod.value.built)
    ensures Holds(alarm.sb.value.status, TemplateOutdated)
    ensures Leads(START, hidden) && hidden.sb.Some? && LivePod(hidden.pod) && hidden.template != Some(hidden.pod.value.built)
    ensures Denied(hidden.sb.value.status, TemplateOutdated)
  {
    var up := Up();
    LeadsThen(START, up, Kubelet(None));
    var gone := up.(pod := None);
    LeadsThen(START, gone, EditTemplate(Some(T2)));
    var edited := gone.(template := Some(T2));
    assert ActiveSet(edited.sess.sessions, "a") == {};
    alarm := ReportAfterLostCreate(edited, T2);
    LeadsTrans(START, edited, alarm);
    hidden := ReportAfterLostCreate(edited, T1);
    LeadsTrans(START, edited, hidden);
  }
}
