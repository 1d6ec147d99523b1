/** One pass of the sandbox reconciler: the status copy it edits in memory and
    the executor pod it creates or deletes. The home volume and the RBAC
    translation have their own modules; a pass sees only how they ended. */
module SandboxPass {
  import opened Base
  import opened Timeouts
  import SM = SessionModel

  // ---------------------------------------------------------------- objects

  datatype Phase = NoPhase | Pending | Provisioning | Running | Suspending | Suspended
                 | Resuming | Failed | Terminating

  datatype CondType = Ready | PodReady | HomeReady | RBACReady | TemplateOutdated

  datatype Reason = InvalidRef | ClaimInUse | ProfileNotPermitted | ProfileDeleted
                  | WhileProvisioning | WhileSuspended | WhileRunning | UpToDate | Outdated

  datatype Cond = Cond(ok: bool, reason: Reason)

  /** A template spec; `body` stands for everything but the idle default. The
      template hash is modelled as the spec itself (an injective hash), with
      None for the empty hash. */
  datatype Template = Template(body: string, idle: Option<Duration>)

  datatype Desired = Run | Stop

  datatype Spec = Spec(desired: Desired, idle: Option<Duration>)

  datatype Status = Status(phase: Phase, conds: map<CondType, Cond>, podName: string, pvcName: string,
                           account: string, podIP: string, hash: Option<Template>,
                           lastActivity: Option<Time>, active: nat)

  const NEW_STATUS := Status(NoPhase, map[], "", "", "", "", None, None, 0)

  datatype PodPhase = PodPending | PodRunning | PodSucceeded | PodFailed | PodUnknown

  /** `ready` is the status of the pod's Ready condition, if it has one. */
  datatype Pod = Pod(phase: PodPhase, ready: Option<bool>, ip: string, terminating: bool,
                     built: Template, account: string)

  function PodName(sandbox: string): string {
    "kubepark-sb-" + sandbox
  }

  predicate IsPodReady(p: Pod) {
    p.phase == PodRunning && p.ready == Some(true)
  }

  predicate Dead(p: Pod) {
    p.phase == PodFailed || p.phase == PodSucceeded
  }

  /** A pod that runs or may still run and nobody asked to stop. */
  predicate LivePod(p: Option<Pod>) {
    p.Some? && !p.value.terminating && !Dead(p.value)
  }

  function NewPod(t: Template, account: string): Pod {
    Pod(PodPending, None, "", false, t, account)
  }

  // ---------------------------------------------------- what a pass is given

  datatype Home = HomeError | HomeTaken | HomeMissing | HomeOk(claim: string)
  datatype Rbac = RbacError | RbacNone | RbacDeleted | RbacForbidden | RbacBound(account: string)

  /** Which API calls of the pass fail. A pass writes the pod at most once. */
  datatype Faults = Faults(template: bool, hostKey: bool, policy: bool, list: bool, getPod: bool, podWrite: Fault)

  const NO_FAULTS := Faults(false, false, false, false, false, Fine)

  /** What the calls of the pass returned. The clock is sampled three times: `now`
      for the idle test, `ran` to start the idle clock, `done` for the requeue. */
  datatype Env = Env(name: string, spec: Spec, template: Option<Template>, home: Home, rbac: Rbac,
                     sessions: map<string, SM.Session>, now: Time, ran: Time, done: Time, faults: Faults)

  datatype Out = Out(status: Status, pod: Option<Pod>, err: bool, requeue: int, created: bool)

  // ----------------------------------------------------------------- helpers

  predicate IsActive(x: SM.Session, name: string) {
    x.sandbox == name && x.status.state == SM.Active
  }

  function ActiveSet(sessions: map<string, SM.Session>, name: string): set<string> {
    set sid | sid in sessions && IsActive(sessions[sid], name)
  }

  predicate IdleExpired(last: Option<Time>, timeout: Duration, now: Time) {
    timeout > 0 && last.Some? && now - last.value > timeout
  }

  /** The idle timeout in force for a sandbox and its template. */
  function IdleLimit(spec: Spec, t: Option<Template>): Duration {
    EffectiveIdleTimeout(spec.idle, if t.Some? then t.value.idle else None)
  }

  function Timeout(e: Env): Duration {
    IdleLimit(e.spec, e.template)
  }

  function SetCond(st: Status, c: CondType, ok: bool, r: Reason): Status {
    st.(conds := st.conds[c := Cond(ok, r)])
  }

  // ----------------------------------------------------------- specification

  function SuspendSpec(e: Env, st0: Status, pod: Option<Pod>): Out {
    var st := st0.(podIP := "");
    if e.faults.getPod then Out(st, pod, true, 0, false)
    else if pod.None? then
      Out(SetCond(SetCond(st.(phase := Suspended, podName := ""), PodReady, false, WhileSuspended),
                  Ready, false, WhileSuspended),
          pod, false, 0, false)
    else
      var st' := st.(phase := Suspending);
      if pod.value.terminating then Out(st', pod, false, 0, false)
      else
        Out(st', if e.faults.podWrite == Refused then pod else Some(pod.value.(terminating := true)),
            e.faults.podWrite != Fine, 0, false)
  }

  predicate Wakes(p: Phase) {
    p == Suspended || p == Suspending || p == Resuming
  }

  function CreateSpec(e: Env, t: Template, account: string, st: Status): Out {
    if e.faults.podWrite == Refused then Out(st, None, true, 0, false)
    else if e.faults.podWrite == Lost then Out(st, Some(NewPod(t, account)), true, 0, true)
    else
      var st' := st.(hash := Some(t), podName := PodName(e.name),
                     phase := if Wakes(st.phase) then Resuming else Provisioning);
      Out(SetCond(SetCond(st', PodReady, false, WhileProvisioning), Ready, false, WhileProvisioning),
          Some(NewPod(t, account)), false, 0, true)
  }

  function DeadSpec(e: Env, st: Status, p: Pod): Out {
    if !p.terminating && e.faults.podWrite != Fine then
      Out(st, Some(if e.faults.podWrite == Lost then p.(terminating := true) else p), true, 0, false)
    else
      Out(SetCond(st.(phase := Provisioning, podIP := ""), PodReady, false, WhileProvisioning),
          Some(p.(terminating := true)), false, 10 * SECOND, false)
  }

  function LiveSpec(e: Env, t: Template, st: Status, p: Pod): Status {
    var st' :=
      if IsPodReady(p) then
        var st1 := if st.phase == Running then st
                   else st.(phase := Running,
                            lastActivity := if st.lastActivity.None? then Some(e.ran) else st.lastActivity);
        SetCond(SetCond(st1.(podIP := p.ip), PodReady, true, WhileRunning), Ready, true, WhileRunning)
      else
        var st1 := if st.phase == Resuming then st else st.(phase := Provisioning);
        SetCond(SetCond(st1.(podIP := ""), PodReady, false, WhileProvisioning), Ready, false, WhileProvisioning);
    if st'.hash.Some? && st'.hash != Some(t)
    then SetCond(st', TemplateOutdated, true, Outdated)
    else SetCond(st', TemplateOutdated, false, UpToDate)
  }

  function RunSpec(e: Env, t: Template, account: string, st: Status, pod: Option<Pod>): Out {
    if e.faults.getPod then Out(st, pod, true, 0, false)
    else if pod.None? then CreateSpec(e, t, account, st)
    else
      var st' := st.(podName := PodName(e.name));
      if Dead(pod.value) then DeadSpec(e, st', pod.value)
      else Out(LiveSpec(e, t, st', pod.value), pod, false, 0, false)
  }

  /** The desired-state machine, once template, home and RBAC are settled. */
  function DriveSpec(e: Env, t: Template, account: string, st: Status, pod: Option<Pod>): Out {
    if e.spec.desired == Stop then SuspendSpec(e, st, pod)
    else if e.faults.list then Out(st, pod, true, 0, false)
    else
      var active := |ActiveSet(e.sessions, e.name)|;
      var st' := st.(active := active);
      var timeout := EffectiveIdleTimeout(e.spec.idle, t.idle);
      if active == 0 && IdleExpired(st'.lastActivity, timeout, e.now) then SuspendSpec(e, st', pod)
      else
        var out := RunSpec(e, t, account, st', pod);
        if !out.err && out.requeue == 0 && active == 0 && timeout > 0
           && out.status.phase == Running && out.status.lastActivity.Some?
        then out.(requeue := Max(timeout - (e.done - out.status.lastActivity.value), SECOND))
        else out
  }

  function HomeSpec(h: Home, st: Status): (Status, bool) {
    match h
    case HomeError => (st, false)
    case HomeTaken => (SetCond(st.(phase := Pending), HomeReady, false, ClaimInUse), false)
    case HomeMissing => (SetCond(st.(phase := Pending), HomeReady, false, InvalidRef), false)
    case HomeOk(claim) => (SetCond(st.(pvcName := claim), HomeReady, true, WhileProvisioning), true)
  }

  function RbacSpec(r: Rbac, st: Status): (Status, bool) {
    match r
    case RbacError => (st, false)
    case RbacNone => (SetCond(st.(account := ""), RBACReady, true, WhileRunning), true)
    case RbacDeleted => (SetCond(st.(account := ""), RBACReady, false, ProfileDeleted), false)
    case RbacForbidden => (SetCond(st.(account := ""), RBACReady, false, ProfileNotPermitted), false)
    case RbacBound(a) => (SetCond(st.(account := a), RBACReady, true, WhileRunning), true)
  }

  /** How the first half of a pass ends: it stops, or goes on to the pod. */
  datatype Prep = Halt(status: Status, err: bool, requeue: int) | Go(status: Status, t: Template)

  function PrepareSpec(e: Env, st: Status): Prep {
    if e.faults.template then Halt(st, true, 0)
    else if e.template.None? then
      Halt(SetCond(st.(phase := Pending), Ready, false, InvalidRef), false, 0)
    else
      var (st1, homeOk) := HomeSpec(e.home, st);
      if !homeOk then
        Halt(st1, e.home.HomeError?, if e.home.HomeTaken? then 30 * SECOND else 0)
      else if e.faults.hostKey || e.faults.policy then Halt(st1, true, 0)
      else
        var (st2, rbacOk) := RbacSpec(e.rbac, st1);
        if e.rbac.RbacError? then Halt(st2, true, 0)
        else if !rbacOk then
          Halt(SetCond(st2.(phase := Pending), Ready, false, WhileProvisioning), false, 0)
        else Go(st2, e.template.value)
  }

  function ReconcileSpec(e: Env, st: Status, pod: Option<Pod>): Out {
    match PrepareSpec(e, st)
    case Halt(st', err, requeue) => Out(st', pod, err, requeue, false)
    case Go(st', t) => DriveSpec(e, t, st'.account, st', pod)
  }

  // ---------------------------------------------------------- implementation

  /** Count a sandbox's Active sessions from the live list, in any order. */
  method ActiveSessionCount(sessions: map<string, SM.Session>, name: string) returns (n: nat)
    ensures n == |ActiveSet(sessions, name)|
    ensures n == 0 <==> forall sid :: sid in sessions ==> !IsActive(sessions[sid], name)
  {
    n := 0;
    var todo := sessions.Keys;
    ghost var seen: set<string> := {};
    while todo != {}
      invariant todo <= sessions.Keys && n == |seen|
      invariant forall sid :: sid in seen <==> sid in ActiveSet(sessions, name) && sid !in todo
      decreases |todo|
    {
      var sid :| sid in todo;
      todo := todo - {sid};
      if IsActive(sessions[sid], name) {
        n := n + 1;
        seen := seen + {sid};
      }
    }
    assert seen == ActiveSet(sessions, name);
    assert n == 0 ==> seen == {};
    forall sid | sid in sessions && IsActive(sessions[sid], name) ensures n != 0 {
      assert sid in seen;
    }
  }

  /** The pass as the code runs it: fields updated in place, early returns. */
  class Pass {
    var status: Status
    var pod: Option<Pod>
    var created: bool

    constructor (st: Status, p: Option<Pod>)
      ensures status == st && pod == p && !created
    {
      status, pod, created := st, p, false;
    }

    ghost function Result(err: bool, requeue: int): Out
      reads this
    {
      Out(status, pod, err, requeue, created)
    }

    method Set(c: CondType, ok: bool, r: Reason)
      modifies this`status
      ensures status == SetCond(old(status), c, ok, r)
    {
      status := status.(conds := status.conds[c := Cond(ok, r)]);
    }

    method DeletePod(fault: Fault) returns (err: bool)
      requires pod.Some?
      modifies this`pod
      ensures pod == if fault == Refused then old(pod) else Some(old(pod).value.(terminating := true))
      ensures err == (fault != Fine)
    {
      if fault != Refused { pod := Some(pod.value.(terminating := true)); }
      err := fault != Fine;
    }

    method Suspend(e: Env) returns (err: bool)
      requires !created
      modifies this
      ensures Result(err, 0) == SuspendSpec(e, old(status), old(pod))
    {
      status := status.(podIP := "");
      if e.faults.getPod { return true; }
      if pod.None? {
        status := status.(phase := Suspended);
        status := status.(podName := "");
        Set(PodReady, false, WhileSuspended);
        Set(Ready, false, WhileSuspended);
        return false;
      }
      status := status.(phase := Suspending);
      if !pod.value.terminating {
        err := DeletePod(e.faults.podWrite);
        return;
      }
      return false;
    }

    method RunPod(e: Env, t: Template, account: string) returns (err: bool, requeue: int)
      requires !created
      modifies this
      ensures Result(err, requeue) == RunSpec(e, t, account, old(status), old(pod))
    {
      if e.faults.getPod { return true, 0; }
      if pod.None? {
        var resuming := status.phase == Suspended || status.phase == Suspending || status.phase == Resuming;
        if e.faults.podWrite == Refused { return true, 0; }
        pod := Some(NewPod(t, account));
        created := true;
        if e.faults.podWrite == Lost { return true, 0; }
        status := status.(hash := Some(t));
        status := status.(podName := PodName(e.name));
        status := status.(phase := if resuming then Resuming else Provisioning);
        Set(PodReady, false, WhileProvisioning);
        Set(Ready, false, WhileProvisioning);
        return false, 0;
      }
      status := status.(podName := PodName(e.name));
      if Dead(pod.value) {
        if !pod.value.terminating {
          err := DeletePod(e.faults.podWrite);
          if err { return true, 0; }
        }
        status := status.(phase := Provisioning);
        status := status.(podIP := "");
        Set(PodReady, false, WhileProvisioning);
        return false, 10 * SECOND;
      }
      if IsPodReady(pod.value) {
        if status.phase != Running {
          status := status.(phase := Running);
          if status.lastActivity.None? { status := status.(lastActivity := Some(e.ran)); }
        }
        status := status.(podIP := pod.value.ip);
        Set(PodReady, true, WhileRunning);
        Set(Ready, true, WhileRunning);
      } else {
        if status.phase != Resuming { status := status.(phase := Provisioning); }
        status := status.(podIP := "");
        Set(PodReady, false, WhileProvisioning);
        Set(Ready, false, WhileProvisioning);
      }
      if status.hash.Some? && status.hash != Some(t) {
        Set(TemplateOutdated, true, Outdated);
      } else {
        Set(TemplateOutdated, false, UpToDate);
      }
      return false, 0;
    }

    method Reconcile(e: Env) returns (err: bool, requeue: int)
      requires !created
      modifies this
      ensures Result(err, requeue) == ReconcileSpec(e, old(status), old(pod))
    {
      if e.faults.template { return true, 0; }
      if e.template.None? {
        status := status.(phase := Pending);
        Set(Ready, false, InvalidRef);
        return false, 0;
      }
      var t := e.template.value;
      match e.home {
        case HomeError => return true, 0;
        case HomeTaken =>
          status := status.(phase := Pending);
          Set(HomeReady, false, ClaimInUse);
          return false, 30 * SECOND;
        case HomeMissing =>
          status := status.(phase := Pending);
          Set(HomeReady, false, InvalidRef);
          return false, 0;
        case HomeOk(claim) =>
          status := status.(pvcName := claim);
          Set(HomeReady, true, WhileProvisioning);
      }
      if e.faults.hostKey { return true, 0; }
      if e.faults.policy { return true, 0; }
      var account := "";
      match e.rbac {
        case RbacError => return true, 0;
        case RbacNone =>
          status := status.(account := "");
          Set(RBACReady, true, WhileRunning);
        case RbacDeleted =>
          status := status.(account := "");
          Set(RBACReady, false, ProfileDeleted);
          status := status.(phase := Pending);
          Set(Ready, false, WhileProvisioning);
          return false, 0;
        case RbacForbidden =>
          status := status.(account := "");
          Set(RBACReady, false, ProfileNotPermitted);
          status := status.(phase := Pending);
          Set(Ready, false, WhileProvisioning);
          return false, 0;
        case RbacBound(a) =>
          account := a;
          status := status.(account := a);
          Set(RBACReady, true, WhileRunning);
      }
      err, requeue := Drive(e, t, account);
    }

    method Drive(e: Env, t: Template, account: string) returns (err: bool, requeue: int)
      requires !created
      modifies this
      ensures Result(err, requeue) == DriveSpec(e, t, account, old(status), old(pod))
    {
      if e.spec.desired == Stop {
        err := Suspend(e);
        return err, 0;
      }
      if e.faults.list { return true, 0; }
      var active := ActiveSessionCount(e.sessions, e.name);
      status := status.(active := active);
      var timeout := EffectiveIdleTimeout(e.spec.idle, t.idle);
      if active == 0 && IdleExpired(status.lastActivity, timeout, e.now) {
        err := Suspend(e);
        return err, 0;
      }
      err, requeue := RunPod(e, t, account);
      if err { return; }
      if requeue == 0 && active == 0 && timeout > 0 && status.phase == Running && status.lastActivity.Some? {
        requeue := Max(timeout - (e.done - status.lastActivity.value), SECOND);
      }
    }
  }

  // ------------------------------------------------------- status invariant

  predicate Holds(st: Status, c: CondType) {
    c in st.conds && st.conds[c].ok
  }

  predicate Denied(st: Status, c: CondType) {
    c in st.conds && !st.conds[c].ok
  }

  /** What a persisted status promises its readers. */
  ghost predicate StatusOk(st: Status) {
    && (Wakes(st.phase) ==> st.podIP == "")
    && (st.phase == Running ==>
          Holds(st, Ready) && Holds(st, PodReady) && Holds(st, HomeReady) && Holds(st, RBACReady)
          && st.lastActivity.Some?)
    && (st.phase == Suspended ==> Denied(st, Ready) && Denied(st, PodReady))
    && st.phase != Failed
  }

  lemma SuspendKeepsStatus(e: Env, st: Status, pod: Option<Pod>)
    requires StatusOk(st)
    ensures StatusOk(SuspendSpec(e, st, pod).status)
    ensures SuspendSpec(e, st, pod).status.phase in {st.phase, Suspending, Suspended}
  {
  }

  lemma LiveKeepsStatus(e: Env, t: Template, st: Status, p: Pod)
    requires StatusOk(st) && Holds(st, HomeReady) && Holds(st, RBACReady)
    ensures StatusOk(LiveSpec(e, t, st, p))
    ensures LiveSpec(e, t, st, p).phase in {Running, Resuming, Provisioning}
  {
  }

  lemma RunKeepsStatus(e: Env, t: Template, account: string, st: Status, pod: Option<Pod>)
    requires StatusOk(st) && Holds(st, HomeReady) && Holds(st, RBACReady)
    ensures StatusOk(RunSpec(e, t, account, st, pod).status)
    ensures RunSpec(e, t, account, st, pod).status.phase in {st.phase, Running, Resuming, Provisioning}
  {
    if pod.Some? { LiveKeepsStatus(e, t, st.(podName := PodName(e.name)), pod.value); }
  }

  lemma DriveKeepsStatus(e: Env, t: Template, account: string, st: Status, pod: Option<Pod>)
    requires StatusOk(st) && Holds(st, HomeReady) && Holds(st, RBACReady)
    ensures StatusOk(DriveSpec(e, t, account, st, pod).status)
    ensures st.phase != Terminating ==> DriveSpec(e, t, account, st, pod).status.phase != Terminating
  {
    var st' := st.(active := |ActiveSet(e.sessions, e.name)|);
    SuspendKeepsStatus(e, st, pod);
    SuspendKeepsStatus(e, st', pod);
    RunKeepsStatus(e, t, account, st', pod);
  }

  /** The first half of a pass touches the phase, the conditions and the names of
      claim and account only, and goes on exactly when template, home, host key,
      policy and RBAC are in order. */
  lemma PrepareFacts(e: Env, st: Status)
    ensures var p := PrepareSpec(e, st);
            && p.status == st.(phase := p.status.phase, conds := p.status.conds,
                               pvcName := p.status.pvcName, account := p.status.account)
            && (p.status.phase == st.phase || p.status.phase == Pending)
            && (StatusOk(st) ==> StatusOk(p.status))
            && (p.Go? ==> e.template == Some(p.t) && p.status.phase == st.phase
                          && Holds(p.status, HomeReady) && Holds(p.status, RBACReady))
            && (p.Go? <==> Settled(e))
  {
  }

  /** Everything the pass needs before the pod is in order. */
  predicate Settled(e: Env) {
    && !e.faults.template && !e.faults.hostKey && !e.faults.policy
    && e.template.Some? && e.home.HomeOk? && (e.rbac.RbacNone? || e.rbac.RbacBound?)
  }

  /** Every pass, complete or cut short by any failing call, leaves a status
      that may be persisted. */
  lemma PassKeepsStatus(e: Env, st: Status, pod: Option<Pod>)
    requires StatusOk(st)
    ensures StatusOk(ReconcileSpec(e, st, pod).status)
    ensures st.phase != Terminating ==> ReconcileSpec(e, st, pod).status.phase != Terminating
  {
    PrepareFacts(e, st);
    var p := PrepareSpec(e, st);
    if p.Go? { DriveKeepsStatus(e, p.t, p.status.account, p.status, pod); }
  }

  // -------------------------------------------------------------- idle clock

  /** The idle clock is never unset and never moves backwards. */
  predicate ClockKept(a: Option<Time>, b: Option<Time>) {
    a.Some? ==> b.Some? && a.value <= b.value
  }

  lemma DriveKeepsClock(e: Env, t: Template, account: string, st: Status, pod: Option<Pod>)
    ensures var out := DriveSpec(e, t, account, st, pod).status;
            out.lastActivity == st.lastActivity || (st.lastActivity.None? && out.lastActivity == Some(e.ran))
  {
    if pod.Some? { LiveKeepsClock(e, t, st.(active := |ActiveSet(e.sessions, e.name)|, podName := PodName(e.name)), pod.value); }
  }

  lemma LiveKeepsClock(e: Env, t: Template, st: Status, p: Pod)
    ensures var out := LiveSpec(e, t, st, p);
            out.lastActivity == st.lastActivity || (st.lastActivity.None? && out.lastActivity == Some(e.ran))
  {
  }

  /** A pass starts an idle clock that is not set and never changes one that is. */
  lemma PassKeepsClock(e: Env, st: Status, pod: Option<Pod>)
    ensures var out := ReconcileSpec(e, st, pod).status;
            out.lastActivity == st.lastActivity || (st.lastActivity.None? && out.lastActivity == Some(e.ran))
  {
    PrepareFacts(e, st);
    var p := PrepareSpec(e, st);
    if p.Go? { DriveKeepsClock(e, p.t, p.status.account, p.status, pod); }
  }
}
