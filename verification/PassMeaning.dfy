/** What a pass makes of the sandbox, read off from the outside: one table over what
    it finds, for every field of the status, the pod and what the pass returns. */
module PassMeaning {
  import opened Base
  import opened SandboxPass
  import opened Lifecycle
  import opened Scenarios
  import SM = SessionModel

  /** No call of the pass fails. */
  predicate Smooth(e: Env) {
    e.faults == NO_FAULTS && !e.home.HomeError? && !e.rbac.RbacError?
  }

  /** Idle for longer than the override allows or, without one, than the template's
      default; a limit that is not set or not positive never runs out. */
  predicate IdleTooLong(e: Env, st: Status) {
    && st.lastActivity.Some?
    && if e.spec.idle.Some? then e.spec.idle.value > 0 && e.now - st.lastActivity.value > e.spec.idle.value
       else e.template.Some? && e.template.value.idle.Some?
            && e.template.value.idle.value > 0 && e.now - st.lastActivity.value > e.template.value.idle.value
  }

  /** The Active sessions of the sandbox. */
  function OpenSessions(e: Env): set<string> {
    set sid | sid in e.sessions && e.sessions[sid].sandbox == e.name && e.sessions[sid].status.state == SM.Active
  }

  lemma OpenAreActive(e: Env)
    ensures OpenSessions(e) == ActiveSet(e.sessions, e.name)
  {
  }

  /** The sandbox is to be asleep: stopped by its owner, or idle for too long. */
  ghost predicate Sleeps(e: Env, st: Status) {
    e.spec.desired == Stop || (OpenSessions(e) == {} && IdleTooLong(e, st))
  }

  /** Template, home and RBAC are as the pod needs them. */
  predicate InOrder(e: Env) {
    e.template.Some? && e.home.HomeOk? && (e.rbac.RbacNone? || e.rbac.RbacBound?)
  }

  predicate PodUp(p: Pod) {
    p.phase == PodRunning && p.ready == Some(true)
  }

  predicate PodOver(p: Pod) {
    p.phase == PodSucceeded || p.phase == PodFailed
  }

  /** The phase, as a table over what the pass finds. */
  ghost function PhaseTable(e: Env, st: Status, pod: Option<Pod>): Phase {
    if !InOrder(e) then Pending
    else if Sleeps(e, st) then (if pod.None? then Suspended else Suspending)
    else if pod.None? then (if st.phase in {Suspended, Suspending, Resuming} then Resuming else Provisioning)
    else if PodUp(pod.value) then Running
    else if st.phase == Resuming && !PodOver(pod.value) then Resuming
    else Provisioning
  }

  function CondAt(st: Status, c: CondType): Option<Cond> {
    if c in st.conds then Some(st.conds[c]) else None
  }

  /** Home and RBAC: what was found, if the pass got that far. */
  function HomeTable(e: Env, st: Status): Option<Cond> {
    if e.template.None? then CondAt(st, HomeReady)
    else match e.home
      case HomeOk(_) => Some(Cond(true, WhileProvisioning))
      case HomeTaken => Some(Cond(false, ClaimInUse))
      case HomeMissing => Some(Cond(false, InvalidRef))
      case HomeError => CondAt(st, HomeReady)
  }

  function RbacTable(e: Env, st: Status): Option<Cond> {
    if e.template.None? || !e.home.HomeOk? then CondAt(st, RBACReady)
    else match e.rbac
      case RbacDeleted => Some(Cond(false, ProfileDeleted))
      case RbacForbidden => Some(Cond(false, ProfileNotPermitted))
      case RbacError => CondAt(st, RBACReady)
      case _ => Some(Cond(true, WhileRunning))
  }

  ghost function PodReadyTable(e: Env, st: Status, pod: Option<Pod>): Option<Cond> {
    if !InOrder(e) || (Sleeps(e, st) && pod.Some?) then CondAt(st, PodReady)
    else if Sleeps(e, st) then Some(Cond(false, WhileSuspended))
    else if pod.Some? && PodUp(pod.value) then Some(Cond(true, WhileRunning))
    else Some(Cond(false, WhileProvisioning))
  }

  /** Ready survives a pass that neither runs nor fully suspends the sandbox. */
  ghost predicate ReadyKept(e: Env, st: Status, pod: Option<Pod>) {
    || (e.template.Some? && !e.home.HomeOk?)
    || (InOrder(e) && pod.Some? && (Sleeps(e, st) || PodOver(pod.value)))
  }

  ghost function ReadyTable(e: Env, st: Status, pod: Option<Pod>): Option<Cond> {
    if ReadyKept(e, st, pod) then CondAt(st, Ready)
    else if e.template.None? then Some(Cond(false, InvalidRef))
    else if !InOrder(e) then Some(Cond(false, WhileProvisioning))
    else PodReadyTable(e, st, pod)
  }

  ghost function DriftTable(e: Env, st: Status, pod: Option<Pod>): Option<Cond> {
    if !InOrder(e) || Sleeps(e, st) || pod.None? || PodOver(pod.value) then CondAt(st, TemplateOutdated)
    else if st.hash.Some? && st.hash != e.template then Some(Cond(true, Outdated))
    else Some(Cond(false, UpToDate))
  }

  /** The pod: told to stop, created, or left alone. */
  ghost function PodTable(e: Env, st: Status, pod: Option<Pod>): Option<Pod> {
    if !InOrder(e) then pod
    else if Sleeps(e, st) then Stopping(pod)
    else if pod.None? then Some(Pod(PodPending, None, "", false, e.template.value, AccountTable(e, st)))
    else if PodOver(pod.value) then Stopping(pod)
    else pod
  }

  function AccountTable(e: Env, st: Status): string {
    if e.template.None? || !e.home.HomeOk? || e.rbac.RbacError? then st.account
    else if e.rbac.RbacBound? then e.rbac.account else ""
  }

  /** The idle clock starts when the sandbox enters Running without one. */
  ghost function ClockTable(e: Env, st: Status, pod: Option<Pod>): Option<Time> {
    if PhaseTable(e, st, pod) == Running && st.phase != Running && st.lastActivity.None? then Some(e.ran)
    else st.lastActivity
  }

  /** When the pass asks to be called again: 30s on a taken claim, 10s on a dead pod, at
      the idle deadline but not within a second, else not at all. */
  ghost function RequeueTable(e: Env, st: Status, pod: Option<Pod>): int {
    var clock := ClockTable(e, st, pod);
    if e.template.Some? && e.home.HomeTaken? then 30 * SECOND
    else if !InOrder(e) || Sleeps(e, st) || pod.None? then 0
    else if PodOver(pod.value) then 10 * SECOND
    else if !PodUp(pod.value) || OpenSessions(e) != {} || clock.None? then 0
    else if e.spec.idle.Some? then
      (if e.spec.idle.value > 0 then Max(e.spec.idle.value - (e.done - clock.value), SECOND) else 0)
    else if e.template.value.idle.Some? && e.template.value.idle.value > 0 then
      Max(e.template.value.idle.value - (e.done - clock.value), SECOND)
    else 0
  }

  /** The address is kept, not cleared, exactly when the pass stops before the pod
      or recreates a pod that vanished. */
  ghost predicate AddressKept(e: Env, st: Status, pod: Option<Pod>) {
    !InOrder(e) || (!Sleeps(e, st) && pod.None?)
  }

  ghost function AddressTable(e: Env, st: Status, pod: Option<Pod>): string {
    if InOrder(e) && !Sleeps(e, st) && pod.Some? && PodUp(pod.value) then pod.value.ip
    else if AddressKept(e, st, pod) then st.podIP else ""
  }

  /** Phase, address, conditions, idle clock and the number of Active sessions. */
  ghost predicate Shows(st': Status, e: Env, st: Status, pod: Option<Pod>) {
    && st'.phase == PhaseTable(e, st, pod)
    && st'.podIP == AddressTable(e, st, pod)
    && CondAt(st', HomeReady) == HomeTable(e, st)
    && CondAt(st', RBACReady) == RbacTable(e, st)
    && CondAt(st', PodReady) == PodReadyTable(e, st, pod)
    && CondAt(st', Ready) == ReadyTable(e, st, pod)
    && CondAt(st', TemplateOutdated) == DriftTable(e, st, pod)
    && st'.lastActivity == ClockTable(e, st, pod)
    && st'.active == (if InOrder(e) && e.spec.desired == Run then |OpenSessions(e)| else st.active)
  }

  /** The names the status carries, and the template it pins. */
  ghost predicate Names(st': Status, e: Env, st: Status, pod: Option<Pod>) {
    && st'.account == AccountTable(e, st)
    && st'.pvcName == (if e.template.Some? && e.home.HomeOk? then e.home.claim else st.pvcName)
    && st'.podName == (if !InOrder(e) || (Sleeps(e, st) && pod.Some?) then st.podName
                       else if Sleeps(e, st) then "" else "kubepark-sb-" + e.name)
    && st'.hash == (if InOrder(e) && !Sleeps(e, st) && pod.None? then e.template else st.hash)
  }

  /** A call before the pod fails. */
  predicate PrepareFails(e: Env) {
    e.faults.template
    || (e.template.Some?
        && (e.home.HomeError? || (e.home.HomeOk? && (e.faults.hostKey || e.faults.policy || e.rbac.RbacError?))))
  }

  /** The pass writes the pod: stops one that is not stopping yet, or creates one. */
  ghost predicate WritesPod(e: Env, st: Status, pod: Option<Pod>) {
    if Sleeps(e, st) then pod.Some? && !pod.value.terminating
    else pod.None? || (PodOver(pod.value) && !pod.value.terminating)
  }

  /** A call on the sessions or the pod fails. */
  ghost predicate DriveFails(e: Env, st: Status, pod: Option<Pod>) {
    || (e.spec.desired == Run && e.faults.list) || e.faults.getPod
    || (e.faults.podWrite != Fine && WritesPod(e, st, pod))
  }

  /** Some call that the pass makes fails. */
  ghost predicate CallFails(e: Env, st: Status, pod: Option<Pod>) {
    PrepareFails(e) || (InOrder(e) && DriveFails(e, st, pod))
  }

  /** All of what a pass leaves and returns when no call that it makes fails. */
  ghost predicate Outcome(out: Out, e: Env, st: Status, pod: Option<Pod>) {
    && Shows(out.status, e, st, pod) && Names(out.status, e, st, pod)
    && out.pod == PodTable(e, st, pod)
    && (out.created <==> InOrder(e) && !Sleeps(e, st) && pod.None?)
    && !out.err && out.requeue == RequeueTable(e, st, pod)
  }

  /** What the first half of the pass leaves for the second. */
  ghost predicate Prepared(st': Status, e: Env, st: Status) {
    && CondAt(st', HomeReady) == HomeTable(e, st) && CondAt(st', RBACReady) == RbacTable(e, st)
    && st'.account == AccountTable(e, st)
    && st'.pvcName == (if e.template.Some? && e.home.HomeOk? then e.home.claim else st.pvcName)
    && st' == st.(phase := st'.phase, conds := st'.conds, pvcName := st'.pvcName, account := st'.account)
    && CondAt(st', PodReady) == CondAt(st, PodReady) && CondAt(st', TemplateOutdated) == CondAt(st, TemplateOutdated)
  }

  lemma PrepareTable(e: Env, st: Status)
    requires !PrepareFails(e)
    ensures var p := PrepareSpec(e, st);
            && Prepared(p.status, e, st)
            && (p.Go? <==> Settled(e))
            && (p.Go? ==> e.template == Some(p.t) && p.status.phase == st.phase && CondAt(p.status, Ready) == CondAt(st, Ready))
            && (p.Halt? ==> && !p.err && p.status.phase == Pending
                            && p.requeue == (if e.template.Some? && e.home.HomeTaken? then 30 * SECOND else 0)
                            && CondAt(p.status, Ready) == ReadyTable(e, st, None))
  {
  }

  /** Claim, account and their conditions are already those of this pass. */
  ghost predicate UpToPod(e: Env, st: Status) {
    Settled(e) && Prepared(st, e, st)
  }

  lemma SuspendTable(e: Env, st: Status, pod: Option<Pod>)
    requires !DriveFails(e, st, pod) && UpToPod(e, st) && Sleeps(e, st)
    requires e.spec.desired == Run ==> st.active == |OpenSessions(e)|
    ensures Outcome(SuspendSpec(e, st, pod), e, st, pod)
  {
  }

  lemma LiveUp(e: Env, t: Template, st: Status, p: Pod)
    requires UpToPod(e, st) && !Sleeps(e, st) && e.template == Some(t) && PodUp(p)
    requires st.active == |OpenSessions(e)| && st.podName == PodName(e.name)
    ensures Shows(LiveSpec(e, t, st, p), e, st, Some(p)) && Names(LiveSpec(e, t, st, p), e, st, Some(p))
  {
  }

  lemma LiveWaiting(e: Env, t: Template, st: Status, p: Pod)
    requires UpToPod(e, st) && !Sleeps(e, st) && e.template == Some(t) && !PodUp(p) && !PodOver(p)
    requires st.active == |OpenSessions(e)| && st.podName == PodName(e.name)
    ensures Shows(LiveSpec(e, t, st, p), e, st, Some(p)) && Names(LiveSpec(e, t, st, p), e, st, Some(p))
  {
  }

  /** Everything but the requeue at the idle deadline. */
  lemma RunTable(e: Env, t: Template, st: Status, pod: Option<Pod>)
    requires !DriveFails(e, st, pod) && UpToPod(e, st) && !Sleeps(e, st) && e.template == Some(t)
    requires st.active == |OpenSessions(e)|
    ensures var out := RunSpec(e, t, st.account, st, pod);
            && Shows(out.status, e, st, pod) && Names(out.status, e, st, pod)
            && out.pod == PodTable(e, st, pod) && !out.err && (out.created <==> pod.None?)
            && out.requeue == if pod.Some? && Dead(pod.value) then 10 * SECOND else 0
  {
    if pod.Some? && !PodOver(pod.value) {
      var st' := st.(podName := PodName(e.name));
      if PodUp(pod.value) { LiveUp(e, t, st', pod.value); } else { LiveWaiting(e, t, st', pod.value); }
    }
  }

  /** The same with the requeue at the idle deadline. */
  lemma RunOutcome(e: Env, t: Template, st: Status, pod: Option<Pod>)
    requires !DriveFails(e, st, pod) && UpToPod(e, st) && !Sleeps(e, st) && e.template == Some(t)
    requires st.active == |ActiveSet(e.sessions, e.name)|
    ensures Outcome(DriveSpec(e, t, st.account, st, pod), e, st, pod)
  {
    OpenAreActive(e);
    var active := ActiveSet(e.sessions, e.name);
    assert |active| == 0 <==> active == {};
    assert st.(active := |active|) == st;
    RunTable(e, t, st, pod);
  }

  /** No table looks at the number of Active sessions stored before. */
  lemma RowOutcome(out: Out, e: Env, st: Status, st': Status, pod: Option<Pod>)
    requires st' == st.(active := st'.active) && InOrder(e) && e.spec.desired == Run && Outcome(out, e, st', pod)
    ensures Outcome(out, e, st, pod)
  {
  }

  lemma DriveTable(e: Env, t: Template, st: Status, pod: Option<Pod>)
    requires !DriveFails(e, st, pod) && UpToPod(e, st) && e.template == Some(t)
    ensures Outcome(DriveSpec(e, t, st.account, st, pod), e, st, pod)
  {
    OpenAreActive(e);
    var active := ActiveSet(e.sessions, e.name);
    assert |active| == 0 <==> active == {};
    var st' := st.(active := |active|);
    if e.spec.desired == Stop {
      SuspendTable(e, st, pod);
    } else if Sleeps(e, st') {
      SuspendTable(e, st', pod);
      RowOutcome(SuspendSpec(e, st', pod), e, st, st', pod);
    } else {
      RunTable(e, t, st', pod);
      RunOutcome(e, t, st', pod);
      RowOutcome(DriveSpec(e, t, st.account, st, pod), e, st, st', pod);
    }
  }

  lemma HaltTable(e: Env, st: Status, pod: Option<Pod>)
    requires !PrepareFails(e) && !InOrder(e)
    ensures Outcome(ReconcileSpec(e, st, pod), e, st, pod)
  {
    PrepareTable(e, st);
  }

  lemma PreparedOutcome(out: Out, e: Env, st: Status, st': Status, pod: Option<Pod>)
    requires Prepared(st', e, st) && InOrder(e) && st'.phase == st.phase && CondAt(st', Ready) == CondAt(st, Ready)
    requires Outcome(out, e, st', pod)
    ensures Outcome(out, e, st, pod)
  {
  }

  /** The whole outcome of a pass in which no call fails, as a table over what it found. */
  lemma PassTable(e: Env, st: Status, pod: Option<Pod>)
    requires !CallFails(e, st, pod)
    ensures Outcome(ReconcileSpec(e, st, pod), e, st, pod)
  {
    if !InOrder(e) {
      HaltTable(e, st, pod);
    } else {
      PrepareTable(e, st);
      var p := PrepareSpec(e, st);
      DriveTable(e, p.t, p.status, pod);
      PreparedOutcome(ReconcileSpec(e, st, pod), e, st, p.status, pod);
    }
  }

  /** What a pass cut short by a failing call leaves: it asks for no requeue, decides
      nothing about the pod's conditions, the idle clock and the pinned template, and has
      written the pod only if the failing call did so before its answer was lost. */
  ghost predicate CutShort(out: Out, e: Env, st: Status, pod: Option<Pod>) {
    && out.err && out.requeue == 0
    && CondAt(out.status, Ready) == CondAt(st, Ready) && CondAt(out.status, PodReady) == CondAt(st, PodReady)
    && CondAt(out.status, TemplateOutdated) == CondAt(st, TemplateOutdated)
    && out.status.lastActivity == st.lastActivity && out.status.hash == st.hash
    && (out.status.phase == st.phase || (out.status.phase == Suspending && Settled(e) && Sleeps(e, st)))
    && (out.status.podIP == st.podIP || (out.status.podIP == "" && Settled(e) && Sleeps(e, st)))
    && (e.faults.template ==> out.status == st)
    && (!e.faults.template ==> CondAt(out.status, HomeReady) == HomeTable(e, st))
    && (if e.faults.template || e.faults.hostKey || e.faults.policy
        then CondAt(out.status, RBACReady) == CondAt(st, RBACReady) && out.status.account == st.account
        else CondAt(out.status, RBACReady) == RbacTable(e, st) && out.status.account == AccountTable(e, st))
    && out.pod == if Settled(e) && WroteAnyway(e, st, pod) then PodTable(e, st, pod) else pod
  }

  ghost predicate WroteAnyway(e: Env, st: Status, pod: Option<Pod>) {
    && WritesPod(e, st, pod) && e.faults.podWrite == Lost
    && !e.faults.getPod && !(e.spec.desired == Run && e.faults.list)
  }

  lemma SuspendCutShort(e: Env, st: Status, pod: Option<Pod>)
    requires UpToPod(e, st) && Sleeps(e, st) && DriveFails(e, st, pod) && !(e.spec.desired == Run && e.faults.list)
    ensures CutShort(SuspendSpec(e, st, pod), e, st, pod)
  {
  }

  lemma RunCutShort(e: Env, t: Template, st: Status, pod: Option<Pod>)
    requires UpToPod(e, st) && !Sleeps(e, st) && e.template == Some(t) && DriveFails(e, st, pod) && !e.faults.list
    ensures CutShort(RunSpec(e, t, st.account, st, pod), e, st, pod)
  {
  }

  lemma DriveCutShort(e: Env, t: Template, st: Status, pod: Option<Pod>)
    requires UpToPod(e, st) && e.template == Some(t) && DriveFails(e, st, pod)
    ensures CutShort(DriveSpec(e, t, st.account, st, pod), e, st, pod)
  {
    OpenAreActive(e);
    var active := ActiveSet(e.sessions, e.name);
    assert |active| == 0 <==> active == {};
    var st' := st.(active := |active|);
    if e.spec.desired == Stop {
      SuspendCutShort(e, st, pod);
    } else if !e.faults.list {
      if Sleeps(e, st') { SuspendCutShort(e, st', pod); } else { RunCutShort(e, t, st', pod); }
    }
  }

  /** Exactly when some call that the pass makes fails it returns an error and is cut
      short; otherwise its outcome is the table's. */
  lemma PassErrsExactly(e: Env, st: Status, pod: Option<Pod>)
    ensures var out := ReconcileSpec(e, st, pod);
            if CallFails(e, st, pod) then CutShort(out, e, st, pod) else Outcome(out, e, st, pod)
  {
    if !CallFails(e, st, pod) {
      PassTable(e, st, pod);
    } else if !PrepareFails(e) {
      PrepareTable(e, st);
      var p := PrepareSpec(e, st);
      DriveCutShort(e, p.t, p.status, pod);
    }
  }

  /** The same but for the template that is pinned, the drift that is reported and what
      a new pod is built from. */
  ghost predicate SameButTemplate(out: Out, out': Out) {
    && out'.status == out.status.(hash := out'.status.hash, conds := out'.status.conds)
    && out'.err == out.err && out'.requeue == out.requeue && out'.created == out.created
    && out'.pod.Some? == out.pod.Some?
    && (out.pod.Some? ==> out'.pod.value == out.pod.value.(built := out'.pod.value.built))
    && (!out.created ==> out'.pod == out.pod)
  }

  lemma RunAlike(e: Env, t: Template, e': Env, t': Template, account: string, st: Status, pod: Option<Pod>)
    requires e' == e.(template := e'.template)
    ensures SameButTemplate(RunSpec(e, t, account, st, pod), RunSpec(e', t', account, st, pod))
  {
    if pod.Some? { LiveAlike(e, t, e', t', st.(podName := PodName(e.name)), pod.value); }
  }

  lemma LiveAlike(e: Env, t: Template, e': Env, t': Template, st: Status, p: Pod)
    requires e' == e.(template := e'.template)
    ensures var st1, st2 := LiveSpec(e, t, st, p), LiveSpec(e', t', st, p);
            st2 == st1.(hash := st2.hash, conds := st2.conds)
  {
  }

  lemma DriveAlike(e: Env, t: Template, e': Env, t': Template, account: string, st: Status, pod: Option<Pod>)
    requires e' == e.(template := e'.template) && e.spec.idle.Some?
    ensures SameButTemplate(DriveSpec(e, t, account, st, pod), DriveSpec(e', t', account, st, pod))
  {
    RunAlike(e, t, e', t', account, st.(active := |ActiveSet(e.sessions, e.name)|), pod);
  }

  /** An override decides alone: with one, the template's idle default changes nothing of
      what a pass does. */
  lemma OverrideDecides(e: Env, idle: Option<Duration>, st: Status, pod: Option<Pod>)
    requires e.spec.idle.Some? && e.template.Some?
    ensures var e' := e.(template := Some(e.template.value.(idle := idle)));
            SameButTemplate(ReconcileSpec(e, st, pod), ReconcileSpec(e', st, pod))
  {
    var e' := e.(template := Some(e.template.value.(idle := idle)));
    var p, p' := PrepareSpec(e, st), PrepareSpec(e', st);
    assert p.Go? == p'.Go? && p.status == p'.status;
    if p.Go? { DriveAlike(e, p.t, e', p'.t, p.status.account, p.status, pod); }
  }

  /** Ready holds exactly when the phase is Running or it was carried over. */
  lemma ReadyExactly(e: Env, st: Status, pod: Option<Pod>)
    requires !CallFails(e, st, pod)
    ensures var out := ReconcileSpec(e, st, pod).status;
            Holds(out, Ready) <==> out.phase == Running || (Holds(st, Ready) && ReadyKept(e, st, pod))
  {
    PassTable(e, st, pod);
  }

  /** A pod is created only for a wanted sandbox whose template, home and RBAC are
      settled, and runs as the account RBAC bound in this very pass, or as none: it
      never starts with stale credentials. */
  lemma CreatedPodCredentials(e: Env, st: Status, pod: Option<Pod>)
    requires ReconcileSpec(e, st, pod).created
    ensures Settled(e) && e.spec.desired == Run && pod.None?
    ensures var p := ReconcileSpec(e, st, pod).pod;
            p.Some? && Some(p.value.built) == e.template
            && p.value.account == (if e.rbac.RbacBound? then e.rbac.account else "")
  {
    PrepareFacts(e, st);
    AccountFromRbac(e, st);
  }

  lemma AccountFromRbac(e: Env, st: Status)
    requires PrepareSpec(e, st).Go?
    ensures PrepareSpec(e, st).status.account == (if e.rbac.RbacBound? then e.rbac.account else "")
  {
  }

  /** Pod death is not sandbox death: a smooth pass over a dead pod of a wanted
      sandbox deletes it, and the pass after it has vanished creates a new one. */
  lemma DeadPodReplaced(e: Env, st: Status, p: Pod, e': Env)
    requires Smooth(e) && Settled(e) && !Sleeps(e, st) && Dead(p)
    requires Smooth(e') && Settled(e') && !Sleeps(e', ReconcileSpec(e, st, Some(p)).status)
    ensures var out := ReconcileSpec(e, st, Some(p));
            && out.pod == Some(p.(terminating := true)) && out.requeue == 10 * SECOND
            && ReconcileSpec(e', out.status, None).created
            && LivePod(ReconcileSpec(e', out.status, None).pod)
  {
    var out := ReconcileSpec(e, st, Some(p));
    PassTable(e, st, Some(p));
    assert out.pod == Some(p.(terminating := true)) && out.requeue == 10 * SECOND;
    PassTable(e', out.status, None);
  }

  // ----------------------------------------- what the status does not prove

  /** A published address does not prove a ready pod: the pod vanishes, and the smooth
      pass that recreates it keeps publishing the old one's address. */
  lemma AddressWithoutReadyPod() returns (w: World)
    ensures Leads(START, w) && w.work.Resting? && w.sb.Some? && w.sb.value.status.podIP != ""
    ensures w.pod.Some? && !IsPodReady(w.pod.value)
  {
    var up := Up();
    var gone := up.(pod := None);
    LeadsThen(START, up, Kubelet(None));
    w := FullPass(gone, HOME, RbacNone);
    FullPassLeads(gone, HOME, RbacNone);
    LeadsTrans(START, gone, w);
    FullPassStores(gone, HOME, RbacNone);
    var env, st := EnvOf(gone, HOME, RbacNone), gone.sb.value.status;
    assert ActiveSet(env.sessions, env.name) == {} && !Sleeps(env, st);
    PassTable(env, st, None);
    SmoothCreates(env, st);
  }

  lemma SmoothCreates(e: Env, st: Status)
    requires Smooth(e) && Settled(e) && !Sleeps(e, st)
    ensures var out := ReconcileSpec(e, st, None);
            out.created && out.pod.Some? && !IsPodReady(out.pod.value)
  {
    PrepareFacts(e, st);
    var p := PrepareSpec(e, st);
    assert Sleeps(e, p.status) <==> Sleeps(e, st);
  }

  /** A True Ready condition does not prove a pod: an idle sandbox is told to stop and
      its pod is gone, and Ready is still True. */
  lemma ReadyWithoutPod() returns (w: World)
    ensures Leads(START, w) && w.work.Resting? && w.sb.Some? && Holds(w.sb.value.status, Ready)
    ensures w.sb.value.status.phase == Suspending && w.pod.None?
  {
    var up := Up();
    var late := up.(sess := up.sess.(now := 100 * SECOND));
    LeadsThen(START, up, Session(SM.Tick(100 * SECOND)));
    var w1 := FullPass(late, HOME, RbacNone);
    FullPassLeads(late, HOME, RbacNone);
    LeadsTrans(START, late, w1);
    FullPassStores(late, HOME, RbacNone);
    var env, st := EnvOf(late, HOME, RbacNone), late.sb.value.status;
    assert ActiveSet(env.sessions, env.name) == {} && Sleeps(env, st);
    PassTable(env, st, late.pod);
    PassPod(env, st, late.pod);
    LeadsThen(START, w1, Kubelet(None));
    w := w1.(pod := None);
  }
}
