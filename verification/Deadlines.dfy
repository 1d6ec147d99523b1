/** Timed runs: an idle sandbox is told to stop on time, and a gateway crash delays
    that by a bounded amount, in every run whose queues and passes are timely. */
module Deadlines {
  import opened Base
  import opened Timeouts
  import opened SandboxPass
  import opened Lifecycle
  import opened Resume
  import opened Scenarios
  import SM = SessionModel

  /** What the work queue owes the sandbox: a pass due at a time, or never; or a pass
      that is running since `begun` and whether another one was asked for meanwhile. */
  datatype Plan = Waiting(due: Option<Time>) | Busy(begun: Time, again: bool)

  /** The situation of a run: a queued pass starts at most `slack` after it is due and
      takes at most `span`; `open` is the session a dead gateway left Active, with last
      heartbeat `beat`, which the reaper closes by `closeBy`; no end of a session is
      later than `top`; `limit` is the idle timeout. */
  datatype Scene = Scene(slack: nat, span: nat, open: Option<string>, beat: Time, closeBy: Time, top: Time, limit: Duration)

  ghost predicate StillOpen(w: World, c: Scene) {
    c.open.Some? && Connected(w, c.open.value)
  }

  // ------------------------------------------------------------ timely runs

  /** No new session of the sandbox, and its Active one gets nothing but the reaper. */
  predicate CalmSession(w: World, ev: SM.Event, c: Scene) {
    match ev
    case Create(_, sandbox, _) => sandbox != w.name
    case Commit(h, by_, _) => Mine(w, h.sid) ==> by_.Reap? && c.open == Some(h.sid)
    case _ => true
  }

  /** Time passes only as far as the queue, the running pass and the reaper allow. */
  ghost predicate OnTime(w: World, plan: Plan, to: Time, c: Scene) {
    && (plan.Busy? ==> to <= plan.begun + c.span)
    && (plan.Waiting? && plan.due.Some? ==> to <= plan.due.value + c.slack)
    && (StillOpen(w, c) ==> to <= c.closeBy)
  }

  /** The sandbox, its template and its pod are left alone and the calls of a pass up
      to the pod succeed; status writes, and everything the session reconciler does,
      may fail or conflict. */
  ghost predicate Calm(w: World, plan: Plan, e: Event, c: Scene) {
    match e
    case Session(ev) => CalmSession(w, ev, c) && (ev.Tick? ==> OnTime(w, plan, ev.to, c))
    case Fetch(home, rbac, faults) => home.HomeOk? && Provisioned(rbac) && faults == NO_FAULTS
    case Edit(_) => false
    case EditTemplate(_) => false
    case DeleteSandbox => false
    case Kubelet(_) => false
    case Crash => false
    case _ => true
  }

  function Earlier(due: Option<Time>, now: Time): Time {
    if due.Some? && due.value <= now then due.value else now
  }

  /** The status write failed or conflicted. */
  predicate WriteFails(w: World, fault: Fault)
    requires w.work.Acted?
  {
    w.work.next != w.work.copy.status && (fault != Fine || !Current(w, w.work.copy))
  }

  /** A close of a session wakes the sandbox; a finished pass is followed by the one
      that was asked for meanwhile, by a retry, or by the requeue it returned. */
  function Next(plan: Plan, w: World, e: Event): Plan {
    match e
    case Session(Commit(h, Reap, _)) =>
      if !Mine(w, h.sid) then plan
      else if plan.Waiting? then Waiting(Some(Earlier(plan.due, w.sess.now)))
      else plan.(again := true)
    case Begin => Busy(w.sess.now, false)
    case WriteBack(fault) =>
      if !w.work.Acted? then plan
      else if w.work.err || WriteFails(w, fault) || (plan.Busy? && plan.again) then Waiting(Some(w.sess.now))
      else if w.work.requeue > 0 then Waiting(Some(w.sess.now + w.work.requeue))
      else Waiting(None)
    case _ => plan
  }

  /** Nothing is assumed once the pod has been told to stop. */
  ghost predicate TimelyRun(w: World, plan: Plan, es: seq<Event>, c: Scene)
    requires Legal(w, es)
    decreases |es|
  {
    es == [] || !LivePod(w.pod)
    || (Calm(w, plan, es[0], c) && TimelyRun(Apply(w, es[0]), Next(plan, w, es[0]), es[1..], c))
  }

  /** The pod is told to stop somewhere along the run. */
  ghost predicate StopsIn(w: World, es: seq<Event>)
    requires Legal(w, es)
    decreases |es|
  {
    !LivePod(w.pod) || (es != [] && StopsIn(Apply(w, es[0]), es[1..]))
  }

  // ---------------------------------------------------------- one calm pass

  predicate RunningStatus(st: Status, c: Scene) {
    st.phase == Running && st.lastActivity.Some? && st.lastActivity.value <= c.top
  }

  /** A pass over a running sandbox with a ready pod and the idle limit of its override
      or, without one, of its template: it deletes the pod exactly when it
      listed no Active session and the strict comparison says expired; otherwise it
      changes nothing that matters and asks to be called at the deadline, but not
      within a second, unless a session is Active. */
  lemma RunningPass(e: Env, st: Status, pod: Option<Pod>, limit: Duration)
    requires Settled(e) && e.spec.desired == Run && e.faults == NO_FAULTS
    requires limit > 0 && (if e.spec.idle.Some? then e.spec.idle else e.template.value.idle) == Some(limit)
    requires st.phase == Running && st.lastActivity.Some? && LivePod(pod) && IsPodReady(pod.value)
    ensures var out := ReconcileSpec(e, st, pod);
            var idle := ActiveSet(e.sessions, e.name) == {};
            if idle && e.now - st.lastActivity.value > limit then
              out.status.phase == Suspending && out.status.podIP == "" && Deletes(pod, out)
            else
              && out.pod == pod && !out.err && !out.created
              && out.status.phase == Running && out.status.lastActivity == st.lastActivity
              && out.requeue == if idle then Max(limit - (e.done - st.lastActivity.value), SECOND) else 0
  {
    PrepareFacts(e, st);
    var p := PrepareSpec(e, st);
    var st' := p.status.(active := |ActiveSet(e.sessions, e.name)|);
    var live := LiveSpec(e, p.t, st'.(podName := PodName(e.name)), pod.value);
    assert live.phase == Running && live.lastActivity == st.lastActivity;
    assert RunSpec(e, p.t, p.status.account, st', pod) == Out(live, pod, false, 0, false);
  }

  // --------------------------------------------------------------- invariant

  /** The sandbox and its pod. */
  ghost predicate Serving(w: World, c: Scene) {
    && w.sb.Some? && !w.sb.value.deleting && w.sb.value.spec.desired == Run && w.template.Some?
    && IdleLimit(w.sb.value.spec, w.template) == c.limit > 0
    && RunningStatus(w.sb.value.status, c)
    && LivePod(w.pod) && IsPodReady(w.pod.value)
  }

  /** The worker. */
  ghost predicate Working(w: World, c: Scene)
    requires w.sb.Some?
  {
    && !w.work.Finalizing?
    && (!w.work.Resting? ==> w.work.copy.spec == w.sb.value.spec && RunningStatus(w.work.copy.status, c))
    && (w.work.Passing? ==> PassScene(w, w.work.env, w.work.stage, w.work.seen))
    && (w.work.Acted? ==> RunningStatus(w.work.next, c) && !w.work.err)
  }

  ghost predicate PassScene(w: World, env: Env, stage: Stage, seen: Option<Pod>) {
    && env.template == w.template && env.home.HomeOk? && Provisioned(env.rbac) && env.faults == NO_FAULTS
    && (stage == Looked ==> seen == w.pod)
  }

  /** The sessions: at most `open` is Active, and no end is later than `top`. */
  ghost predicate SessionScene(w: World, c: Scene) {
    forall sid :: Mine(w, sid) ==>
      var x := w.sess.sessions[sid];
      && (x.status.state == SM.Active ==> c.open == Some(sid) && SM.LastSeen(x) == c.beat)
      && (x.status.end.Some? ==> x.status.end.value <= c.top)
  }

  /** No due time is later than this once the open session has closed. */
  function Latest(c: Scene): int {
    Max(c.closeBy, c.top + c.limit + SECOND) + c.span
  }

  /** The clock, the queue and the worker. */
  ghost predicate Timing(w: World, plan: Plan, c: Scene) {
    && (plan.Busy? <==> !w.work.Resting?)
    && (plan.Busy? ==> plan.begun <= w.sess.now <= plan.begun + c.span)
    && (plan.Waiting? && plan.due.Some? ==> w.sess.now <= plan.due.value + c.slack)
    && (w.work.Passing? ==> plan.begun <= w.work.env.now)
    && (if StillOpen(w, c) then w.sess.now <= c.closeBy
        else if plan.Waiting? then plan.due.Some? && plan.due.value <= Latest(c)
        else plan.begun <= Latest(c) + c.slack
             && (if plan.again then plan.begun <= c.closeBy else FreshPass(w, plan, c)))
  }

  /** A pass that began after the open session had closed. */
  ghost predicate FreshPass(w: World, plan: Plan, c: Scene)
    requires plan.Busy?
  {
    && (w.work.Passing? && w.work.stage != Fetched ==> ActiveSet(w.work.env.sessions, w.name) == {})
    && (w.work.Acted? ==> && w.work.requeue > 0 && plan.begun <= c.top + c.limit
                          && plan.begun + c.span + w.work.requeue <= Latest(c))
  }

  ghost predicate J(w: World, plan: Plan, c: Scene) {
    && Serving(w, c) && Working(w, c) && SessionScene(w, c) && Timing(w, plan, c)
    && (c.open.Some? ==> c.beat <= c.top)
  }

  // ------------------------------------------------------------------- steps

  lemma NoneActive(w: World, c: Scene)
    requires SessionScene(w, c) && !StillOpen(w, c)
    ensures ActiveSet(w.sess.sessions, w.name) == {}
  {
    forall sid | sid in w.sess.sessions ensures !IsActive(w.sess.sessions[sid], w.name) {
      assert Mine(w, sid) || w.sess.sessions[sid].sandbox != w.name;
    }
  }

  /** What a calm step does to a session of the sandbox: the reaper closes the open one,
      dated at its last heartbeat; nothing else happens. */
  lemma OwnSession(w: World, ev: SM.Event, c: Scene, sid: string)
    requires SM.Inv(w.sess) && SM.Enabled(w.sess, ev) && !ev.Delete? && CalmSession(w, ev, c)
    requires var s' := SM.Apply(w.sess, ev); sid in s'.sessions && s'.sessions[sid].sandbox == w.name
    ensures Mine(w, sid)
    ensures var x, y := w.sess.sessions[sid], SM.Apply(w.sess, ev).sessions[sid];
            || y == x
            || (&& ev.Commit? && ev.w.Reap? && ev.h.sid == sid && c.open == Some(sid)
                && x.status.state == SM.Active && y.status.state == SM.Closed && y.status.end == Some(SM.LastSeen(x)))
  {
    if ev.Commit? { assert SM.HeldOk(w.sess, ev.h); }
  }

  lemma SessionStep(w: World, ev: SM.Event, c: Scene)
    requires SM.Inv(w.sess) && SessionScene(w, c) && SM.Enabled(w.sess, ev) && !ev.Delete? && CalmSession(w, ev, c)
    requires c.open.Some? ==> c.beat <= c.top
    ensures var w' := w.(sess := SM.Apply(w.sess, ev));
            && SessionScene(w', c) && (StillOpen(w', c) ==> StillOpen(w, c))
            && (StillOpen(w, c) && !StillOpen(w', c) ==> ev.Commit? && ev.w.Reap? && Mine(w, ev.h.sid))
  {
    var w' := w.(sess := SM.Apply(w.sess, ev));
    forall sid | Mine(w', sid)
      ensures var x := w'.sess.sessions[sid];
              && (x.status.state == SM.Active ==> c.open == Some(sid) && SM.LastSeen(x) == c.beat)
              && (x.status.end.Some? ==> x.status.end.value <= c.top)
    {
      OwnSession(w, ev, c, sid);
    }
    if c.open.Some? && Mine(w', c.open.value) { OwnSession(w, ev, c, c.open.value); }
  }

  /** The scene is the same when neither the sessions nor the time changed. */
  lemma SameSessions(w: World, w': World, c: Scene)
    requires SessionScene(w, c) && w'.name == w.name && w'.sess.sessions == w.sess.sessions
    ensures SessionScene(w', c) && (StillOpen(w', c) <==> StillOpen(w, c))
  {
    forall sid | Mine(w', sid) ensures Mine(w, sid) {}
  }

  /** A tick, or a step of the sessions that does not wake the sandbox. */
  lemma QuietSessionStep(w: World, plan: Plan, ev: SM.Event, c: Scene)
    requires SM.Inv(w.sess) && J(w, plan, c) && SM.Enabled(w.sess, ev) && !ev.Delete?
    requires CalmSession(w, ev, c) && (ev.Tick? ==> OnTime(w, plan, ev.to, c))
    requires !(ev.Commit? && ev.w.Reap? && Mine(w, ev.h.sid))
    ensures J(w.(sess := SM.Apply(w.sess, ev)), plan, c)
  {
    SessionStep(w, ev, c);
  }

  lemma ReapStep(w: World, plan: Plan, ev: SM.Event, c: Scene)
    requires SM.Inv(w.sess) && J(w, plan, c) && SM.Enabled(w.sess, ev) && CalmSession(w, ev, c)
    requires ev.Commit? && ev.w.Reap? && Mine(w, ev.h.sid)
    ensures J(w.(sess := SM.Apply(w.sess, ev)), Next(plan, w, Session(ev)), c)
  {
    SessionStep(w, ev, c);
    assert SM.HeldOk(w.sess, ev.h);
    assert StillOpen(w, c);
  }

  lemma PatchStep(w: World, plan: Plan, fault: Fault, c: Scene)
    requires J(w, plan, c) && KeeperOk(w) && w.keeper.Bumping?
    ensures J(Patched(w, fault), plan, c)
  {
    assert Mine(w, w.keeper.sid);
    SameSessions(w, Patched(w, fault), c);
  }

  lemma CollectStep(w: World, plan: Plan, fault: Fault, c: Scene)
    requires J(w, plan, c) && KeeperOk(w) && w.keeper.Bumped?
    ensures J(KeepingCollect(w, fault), plan, c)
  {
    var w' := KeepingCollect(w, fault);
    forall sid | Mine(w', sid) ensures Mine(w, sid) && w'.sess.sessions[sid] == w.sess.sessions[sid] {}
    assert StillOpen(w, c) ==> w.keeper.sid != c.open.value;
    assert StillOpen(w', c) <==> StillOpen(w, c);
  }

  lemma KeepReadStep(w: World, plan: Plan, sid: string, c: Scene)
    requires J(w, plan, c) && Enabled(w, KeepRead(sid))
    ensures J(KeepingRead(w, sid), plan, c)
  {
    SameSessions(w, KeepingRead(w, sid), c);
  }

  lemma BeginStep(w: World, plan: Plan, c: Scene)
    requires J(w, plan, c) && w.work.Resting?
    ensures J(Begun(w), Busy(w.sess.now, false), c)
  {
    SameSessions(w, Begun(w), c);
  }

  lemma ReadStep(w: World, plan: Plan, e: Event, c: Scene)
    requires J(w, plan, c) && Enabled(w, e) && Calm(w, plan, e, c) && (e.Fetch? || e.ListSessions? || e.Sample? || e.Look?)
    ensures J(Apply(w, e), plan, c)
  {
    if !StillOpen(w, c) { NoneActive(w, c); }
    SameSessions(w, Apply(w, e), c);
  }

  lemma TouchStep(w: World, plan: Plan, ran: Time, c: Scene)
    requires J(w, plan, c) && WorkOk(w) && AtStage(w, Looked) && LivePod(Touched(w, ran).pod)
    ensures J(Touched(w, ran), plan, c)
  {
    var w' := Touched(w, ran);
    var env := w.work.env.(ran := ran, done := w.sess.now);
    RunningPass(env, w.work.copy.status, w.pod, c.limit);
    SameSessions(w, w', c);
    assert w'.work.next.lastActivity == w.work.copy.status.lastActivity;
  }

  lemma WrittenScene(w: World, fault: Fault, c: Scene)
    requires Serving(w, c) && Working(w, c) && w.work.Acted?
    ensures Serving(Written(w, fault), c) && Working(Written(w, fault), c)
  {
  }

  lemma WriteStep(w: World, plan: Plan, fault: Fault, c: Scene)
    requires J(w, plan, c) && w.work.Acted?
    ensures J(Written(w, fault), Next(plan, w, WriteBack(fault)), c)
  {
    var w', plan' := Written(w, fault), Next(plan, w, WriteBack(fault));
    WrittenScene(w, fault, c);
    SameSessions(w, w', c);
    assert w'.sess.now == w.sess.now && w'.work.Resting? && plan'.Waiting?;
  }

  lemma WorkerJStep(w: World, plan: Plan, e: Event, c: Scene)
    requires J(w, plan, c) && WorkOk(w) && Enabled(w, e) && Calm(w, plan, e, c) && OfWorker(e) && LivePod(Apply(w, e).pod)
    ensures J(Apply(w, e), Next(plan, w, e), c)
  {
    if e.Begin? {
      BeginStep(w, plan, c);
    } else if e.Touch? {
      TouchStep(w, plan, e.ran, c);
    } else if e.WriteBack? {
      WriteStep(w, plan, e.fault, c);
    } else {
      ReadStep(w, plan, e, c);
    }
  }

  lemma OthersJStep(w: World, plan: Plan, e: Event, c: Scene)
    requires Inv(w) && J(w, plan, c) && Enabled(w, e) && Calm(w, plan, e, c) && !OfWorker(e)
    ensures J(Apply(w, e), Next(plan, w, e), c)
  {
    match e
    case Session(ev) =>
      if ev.Commit? && ev.w.Reap? && Mine(w, ev.h.sid) {
        ReapStep(w, plan, ev, c);
      } else {
        QuietSessionStep(w, plan, ev, c);
      }
    case KeepRead(sid) => KeepReadStep(w, plan, sid, c);
    case KeepPatch(fault) => PatchStep(w, plan, fault, c);
    case KeepCollect(fault) => CollectStep(w, plan, fault, c);
    case KeepCrash => SameSessions(w, w.(keeper := Idling), c);
  }

  lemma JStep(w: World, plan: Plan, e: Event, c: Scene)
    requires Inv(w) && J(w, plan, c) && Enabled(w, e) && Calm(w, plan, e, c) && LivePod(Apply(w, e).pod)
    ensures Inv(Apply(w, e)) && J(Apply(w, e), Next(plan, w, e), c)
  {
    if OfWorker(e) { WorkerJStep(w, plan, e, c); } else { OthersJStep(w, plan, e, c); }
    InvStep(w, e);
  }

  /** In every timely run the pod has been told to stop, or it is not yet this late. */
  lemma {:induction false} StopsByDeadline(w: World, plan: Plan, es: seq<Event>, c: Scene)
    requires Inv(w) && J(w, plan, c) && Legal(w, es) && TimelyRun(w, plan, es, c)
    ensures StopsIn(w, es) || Exec(w, es).sess.now <= Latest(c) + c.slack + c.span
    decreases |es|
  {
    if es != [] && LivePod(Apply(w, es[0]).pod) {
      JStep(w, plan, es[0], c);
      StopsByDeadline(Apply(w, es[0]), Next(plan, w, es[0]), es[1..], c);
    }
  }

  /** The step that stops the pod is that of a pass which listed no Active session and
      sampled the clock past the deadline; it is about to store Suspending without an
      address. */
  ghost predicate Suspends(w: World, e: Event, c: Scene) {
    && e.Touch? && w.work.Passing? && w.work.copy.status.lastActivity.Some?
    && PassOut(w, e.ran).status.phase == Suspending && PassOut(w, e.ran).status.podIP == ""
    && ActiveSet(w.work.env.sessions, w.name) == {}
    && w.work.env.now - w.work.copy.status.lastActivity.value > c.limit
  }

  /** The first step along the run that stops the pod suspends the sandbox. */
  ghost predicate StopsBySuspending(w: World, es: seq<Event>, c: Scene)
    requires Legal(w, es)
    decreases |es|
  {
    es != [] && LivePod(w.pod) ==>
      if LivePod(Apply(w, es[0]).pod) then StopsBySuspending(Apply(w, es[0]), es[1..], c) else Suspends(w, es[0], c)
  }

  lemma StopStep(w: World, plan: Plan, e: Event, c: Scene)
    requires J(w, plan, c) && WorkOk(w) && Enabled(w, e) && Calm(w, plan, e, c) && !LivePod(Apply(w, e).pod)
    ensures Suspends(w, e, c)
  {
    assert e.Touch?;
    RunningPass(w.work.env.(ran := e.ran, done := w.sess.now), w.work.copy.status, w.pod, c.limit);
  }

  /** In every timely run the pod is stopped by a suspension, not otherwise. */
  lemma {:induction false} StopIsSuspension(w: World, plan: Plan, es: seq<Event>, c: Scene)
    requires Inv(w) && J(w, plan, c) && Legal(w, es) && TimelyRun(w, plan, es, c)
    ensures StopsBySuspending(w, es, c)
    decreases |es|
  {
    if es != [] && LivePod(w.pod) {
      if LivePod(Apply(w, es[0]).pod) {
        JStep(w, plan, es[0], c);
        StopIsSuspension(Apply(w, es[0]), Next(plan, w, es[0]), es[1..], c);
      } else {
        StopStep(w, plan, es[0], c);
      }
    }
  }

  // --------------------------------------------------------------- theorems

  /** Every close of a session of the sandbox has reached its idle clock. */
  ghost predicate ClosesReached(w: World)
    requires w.sb.Some?
  {
    forall sid :: Mine(w, sid) && w.sess.sessions[sid].status.end.Some? ==>
      Reached(w.sb.value.status.lastActivity, w.sess.sessions[sid].status.end.value)
  }

  /** The idle limit of a sandbox: its override or, without one, its template's. */
  function LimitSet(w: World): Option<Duration>
    requires w.sb.Some? && w.template.Some?
  {
    if w.sb.value.spec.idle.Some? then w.sb.value.spec.idle else w.template.value.idle
  }

  /** A wanted, running sandbox with a ready pod, an idle timeout and an idle clock. */
  ghost predicate Runs(w: World) {
    && Inv(w) && w.sb.Some? && !w.sb.value.deleting && w.sb.value.spec.desired == Run && w.template.Some?
    && w.sb.value.status.phase == Running && LimitSet(w).Some? && LimitSet(w).value > 0
    && LivePod(w.pod) && IsPodReady(w.pod.value) && ClosesReached(w)
  }

  ghost function Since(w: World): Time
    requires Runs(w)
  {
    w.sb.value.status.lastActivity.value
  }

  ghost function Limit(w: World): Duration
    requires Runs(w)
  {
    LimitSet(w).value
  }

  /** The scene of an idle sandbox. */
  ghost function IdleScene(w: World, slack: nat, span: nat): Scene
    requires Runs(w)
  {
    Scene(slack, span, None, 0, 0, Since(w), Limit(w))
  }

  /** When the last pass over an idle sandbox, before its deadline, asked to be called
      again. */
  ghost function Asked(w: World): Time
    requires Runs(w)
  {
    var due: int := w.sess.now + Max(Limit(w) - (w.sess.now - Since(w)), SECOND);
    if due < 0 then 0 else due
  }

  lemma AskedByPass(w: World, home: Home, rbac: Rbac)
    requires Runs(w) && ActiveSet(w.sess.sessions, w.name) == {}
    requires w.sess.now - Since(w) <= Limit(w) && home.HomeOk? && Provisioned(rbac)
    ensures w.sess.now + ReconcileSpec(EnvOf(w, home, rbac), w.sb.value.status, w.pod).requeue == Asked(w)
  {
    RunningPass(EnvOf(w, home, rbac), w.sb.value.status, w.pod, Limit(w));
  }

  /** An idle sandbox whose last pass asked to be called again: in every timely run it
      is told to stop before its idle time exceeds the timeout by more than a second,
      the lateness of the queue and the duration of two passes. The second is what a
      pass waits at least, and what the strict comparison can cost. */
  lemma DeadlineMet(w: World, es: seq<Event>, slack: nat, span: nat)
    requires Runs(w) && w.work.Resting? && ActiveSet(w.sess.sessions, w.name) == {}
    requires w.sess.now - Since(w) <= Limit(w)
    requires Legal(w, es) && TimelyRun(w, Waiting(Some(Asked(w))), es, IdleScene(w, slack, span))
    ensures StopsIn(w, es) || Exec(w, es).sess.now <= Since(w) + Limit(w) + SECOND + slack + 2 * span
    ensures Some(Limit(w)) == if w.sb.value.spec.idle.Some? then w.sb.value.spec.idle else w.template.value.idle
    ensures StopsBySuspending(w, es, IdleScene(w, slack, span))
  {
    IdleStart(w, slack, span);
    StopsByDeadline(w, Waiting(Some(Asked(w))), es, IdleScene(w, slack, span));
    StopIsSuspension(w, Waiting(Some(Asked(w))), es, IdleScene(w, slack, span));
  }

  lemma IdleStart(w: World, slack: nat, span: nat)
    requires Runs(w) && w.work.Resting? && ActiveSet(w.sess.sessions, w.name) == {}
    requires w.sess.now - Since(w) <= Limit(w)
    ensures J(w, Waiting(Some(Asked(w))), IdleScene(w, slack, span))
  {
    forall sid | Mine(w, sid) ensures w.sess.sessions[sid].status.state != SM.Active {
      assert sid !in ActiveSet(w.sess.sessions, w.name);
    }
    assert SessionScene(w, IdleScene(w, slack, span));
  }

  // ---------------------------------------------------- at most two requeues

  /** Passes begin only when due, and status writes do not fail. */
  ghost predicate PunctualRun(w: World, plan: Plan, es: seq<Event>)
    requires Legal(w, es)
    decreases |es|
  {
    es == [] || !LivePod(w.pod)
    || (&& (es[0].Begin? ==> plan.Waiting? && plan.due.Some? && plan.due.value <= w.sess.now)
        && (es[0].WriteBack? ==> es[0].fault == Fine)
        && PunctualRun(Apply(w, es[0]), Next(plan, w, es[0]), es[1..]))
  }

  /** How many passes begin before the pod is told to stop. */
  ghost function Passes(w: World, es: seq<Event>): nat
    requires Legal(w, es)
    decreases |es|
  {
    if es == [] || !LivePod(w.pod) then 0
    else (if es[0].Begin? then 1 else 0) + Passes(Apply(w, es[0]), es[1..])
  }

  /** Nobody else writes the sandbox, and `left` more passes are enough: two from the
      deadline on, one after it. */
  ghost predicate Enough(w: World, plan: Plan, c: Scene, left: nat) {
    && c.open.None? && w.sb.Some? && ClosesReached(w) && !w.keeper.Bumping?
    && (!w.work.Resting? ==> w.sb == Some(w.work.copy))
    && (match plan
        case Waiting(due) => due.Some? && ((left == 2 && due.value >= c.top + c.limit) || (left == 1 && due.value > c.top + c.limit))
        case Busy(begun, again) =>
          && !again
          && ((left == 1 && begun >= c.top + c.limit) || (left == 0 && begun > c.top + c.limit && !w.work.Acted?))
          && (w.work.Acted? ==> w.work.requeue == SECOND && w.work.next.lastActivity == w.work.copy.status.lastActivity))
  }

  lemma EnoughTouch(w: World, plan: Plan, ran: Time, c: Scene, left: nat)
    requires J(w, plan, c) && WorkOk(w) && Enough(w, plan, c, left) && AtStage(w, Looked) && LivePod(Touched(w, ran).pod)
    ensures Enough(Touched(w, ran), plan, c, left)
  {
    var w' := Touched(w, ran);
    RunningPass(w.work.env.(ran := ran, done := w.sess.now), w.work.copy.status, w.pod, c.limit);
    assert forall sid :: Mine(w', sid) ==> Mine(w, sid);
  }

  lemma EnoughWrite(w: World, plan: Plan, c: Scene, left: nat)
    requires J(w, plan, c) && Enough(w, plan, c, left) && w.work.Acted?
    ensures Enough(Written(w, Fine), Next(plan, w, WriteBack(Fine)), c, left)
  {
    var w' := Written(w, Fine);
    assert forall sid :: Mine(w', sid) ==> Mine(w, sid);
    assert w'.sb.value.status.lastActivity == w.sb.value.status.lastActivity;
  }

  lemma EnoughRead(w: World, plan: Plan, e: Event, c: Scene, left: nat)
    requires J(w, plan, c) && Enough(w, plan, c, left) && Enabled(w, e) && OfWorker(e)
    requires e.Fetch? || e.ListSessions? || e.Sample? || e.Look?
    ensures Enough(Apply(w, e), plan, c, left)
  {
    var w' := Apply(w, e);
    assert forall sid :: Mine(w', sid) ==> Mine(w, sid);
  }

  lemma EnoughBegin(w: World, plan: Plan, c: Scene, left: nat)
    requires J(w, plan, c) && Enough(w, plan, c, left) && w.work.Resting?
    requires plan.Waiting? && plan.due.Some? && plan.due.value <= w.sess.now
    ensures left > 0 && Enough(Begun(w), Busy(w.sess.now, false), c, left - 1)
  {
    var w' := Begun(w);
    assert forall sid :: Mine(w', sid) ==> Mine(w, sid);
  }

  lemma EnoughSession(w: World, plan: Plan, ev: SM.Event, c: Scene, left: nat)
    requires SM.Inv(w.sess) && J(w, plan, c) && Enough(w, plan, c, left) && SM.Enabled(w.sess, ev) && !ev.Delete?
    requires CalmSession(w, ev, c)
    ensures Next(plan, w, Session(ev)) == plan && Enough(w.(sess := SM.Apply(w.sess, ev)), plan, c, left)
  {
    var w' := w.(sess := SM.Apply(w.sess, ev));
    forall sid | Mine(w', sid) ensures Mine(w, sid) && w'.sess.sessions[sid].status == w.sess.sessions[sid].status {}
  }

  lemma EnoughKeeper(w: World, plan: Plan, e: Event, c: Scene, left: nat)
    requires KeeperOk(w) && Enough(w, plan, c, left) && Enabled(w, e)
    requires e.KeepRead? || e.KeepPatch? || e.KeepCollect? || e.KeepCrash?
    ensures Enough(Apply(w, e), plan, c, left)
  {
    var w' := Apply(w, e);
    forall sid | Mine(w', sid) ensures Mine(w, sid) && w'.sess.sessions[sid] == w.sess.sessions[sid] {}
    if e.KeepRead? { assert Mine(w, e.sid) || w.sess.sessions[e.sid].sandbox != w.name; }
  }

  lemma EnoughOthers(w: World, plan: Plan, e: Event, c: Scene, left: nat)
    requires Inv(w) && J(w, plan, c) && Enough(w, plan, c, left) && Enabled(w, e) && Calm(w, plan, e, c) && !OfWorker(e)
    ensures Next(plan, w, e) == plan && Enough(Apply(w, e), plan, c, left)
  {
    if e.Session? {
      EnoughSession(w, plan, e.ev, c, left);
    } else {
      EnoughKeeper(w, plan, e, c, left);
    }
  }

  lemma EnoughWorker(w: World, plan: Plan, e: Event, c: Scene, left: nat)
    requires WorkOk(w) && J(w, plan, c) && Enough(w, plan, c, left) && Enabled(w, e) && OfWorker(e) && !e.Begin?
    requires LivePod(Apply(w, e).pod) && (e.WriteBack? ==> e.fault == Fine)
    ensures Enough(Apply(w, e), Next(plan, w, e), c, left)
  {
    if e.Touch? {
      EnoughTouch(w, plan, e.ran, c, left);
    } else if e.WriteBack? {
      EnoughWrite(w, plan, c, left);
    } else {
      EnoughRead(w, plan, e, c, left);
    }
  }

  lemma EnoughStep(w: World, plan: Plan, e: Event, c: Scene, left: nat) returns (rest: nat)
    requires Inv(w) && J(w, plan, c) && Enough(w, plan, c, left) && Enabled(w, e) && Calm(w, plan, e, c)
    requires LivePod(Apply(w, e).pod)
    requires e.Begin? ==> plan.Waiting? && plan.due.Some? && plan.due.value <= w.sess.now
    requires e.WriteBack? ==> e.fault == Fine
    ensures rest + (if e.Begin? then 1 else 0) == left && Enough(Apply(w, e), Next(plan, w, e), c, rest)
  {
    rest := left;
    if e.Begin? {
      EnoughBegin(w, plan, c, left);
      rest := left - 1;
    } else if OfWorker(e) {
      EnoughWorker(w, plan, e, c, left);
    } else {
      EnoughOthers(w, plan, e, c, left);
    }
  }

  lemma {:induction false} PassesSuffice(w: World, plan: Plan, es: seq<Event>, c: Scene, left: nat)
    requires Inv(w) && J(w, plan, c) && Enough(w, plan, c, left) && Legal(w, es)
    requires TimelyRun(w, plan, es, c) && PunctualRun(w, plan, es)
    ensures Passes(w, es) <= left
    decreases |es|
  {
    if es != [] && LivePod(w.pod) {
      if LivePod(Apply(w, es[0]).pod) {
        var rest := EnoughStep(w, plan, es[0], c, left);
        JStep(w, plan, es[0], c);
        PassesSuffice(Apply(w, es[0]), Next(plan, w, es[0]), es[1..], c, rest);
      } else {
        StopStep(w, plan, es[0], c);
      }
    }
  }

  /** If passes begin only when due, status writes succeed and no patch of the idle clock
      is on its way, an idle sandbox is told to stop by its second pass at the latest: the
      first one finds the timeout not yet exceeded only when it looks exactly at the
      deadline. */
  lemma TwoPassesSuffice(w: World, es: seq<Event>, slack: nat, span: nat)
    requires Runs(w) && w.work.Resting? && !w.keeper.Bumping? && ActiveSet(w.sess.sessions, w.name) == {}
    requires w.sess.now - Since(w) <= Limit(w)
    requires Legal(w, es) && TimelyRun(w, Waiting(Some(Asked(w))), es, IdleScene(w, slack, span))
    requires PunctualRun(w, Waiting(Some(Asked(w))), es)
    ensures Passes(w, es) <= 2
  {
    IdleStart(w, slack, span);
    PassesSuffice(w, Waiting(Some(Asked(w))), es, IdleScene(w, slack, span), 2);
  }

  // ------------------------------------------- timely runs do get there

  /** Some timely run from here stops the pod. */
  ghost predicate CanStop(w: World, plan: Plan, c: Scene) {
    exists es :: Legal(w, es) && TimelyRun(w, plan, es, c) && StopsIn(w, es)
  }

  lemma CanStopNow(w: World, plan: Plan, c: Scene)
    requires !LivePod(w.pod)
    ensures CanStop(w, plan, c)
  {
    assert Legal(w, []) && TimelyRun(w, plan, [], c) && StopsIn(w, []);
  }

  lemma CanStopAfter(w: World, plan: Plan, e: Event, c: Scene)
    requires Enabled(w, e) && Calm(w, plan, e, c) && CanStop(Apply(w, e), Next(plan, w, e), c)
    ensures CanStop(w, plan, c)
  {
    var es :| Legal(Apply(w, e), es) && TimelyRun(Apply(w, e), Next(plan, w, e), es, c) && StopsIn(Apply(w, e), es);
    var fs := [e] + es;
    assert fs[0] == e && fs[1..] == es;
    assert Legal(w, fs) && TimelyRun(w, plan, fs, c) && StopsIn(w, fs);
  }

  lemma ReadsCanStop(w: World, plan: Plan, home: Home, rbac: Rbac, c: Scene)
    requires w.work.Reading? && home.HomeOk? && Provisioned(rbac)
    requires var env := EnvFor(w, w.work.copy.spec, home, rbac, NO_FAULTS);
             CanStop(w.(work := Passing(w.work.copy, Looked, env, w.pod)), plan, c)
    ensures CanStop(w, plan, c)
  {
    var copy, env := w.work.copy, EnvFor(w, w.work.copy.spec, home, rbac, NO_FAULTS);
    CanStopAfter(w.(work := Passing(copy, Sampled, env, None)), plan, Look, c);
    CanStopAfter(w.(work := Passing(copy, Listed, env, None)), plan, Sample, c);
    CanStopAfter(w.(work := Passing(copy, Fetched, env.(sessions := map[]), None)), plan, ListSessions, c);
    CanStopAfter(w, plan, Fetch(home, rbac, NO_FAULTS), c);
  }

  /** A wanted, running sandbox with a ready pod, a timeout and no open session. */
  ghost predicate Unused(w: World) {
    && w.sb.Some? && !w.sb.value.deleting && w.sb.value.spec.desired == Run && w.template.Some?
    && w.sb.value.status.phase == Running && w.sb.value.status.lastActivity.Some?
    && IdleLimit(w.sb.value.spec, w.template) > 0
    && LivePod(w.pod) && IsPodReady(w.pod.value) && ActiveSet(w.sess.sessions, w.name) == {}
  }

  /** The last moment at which its idle timeout has not passed. */
  ghost function Deadline(w: World): int
    requires w.sb.Some? && w.sb.value.status.lastActivity.Some?
  {
    w.sb.value.status.lastActivity.value + IdleLimit(w.sb.value.spec, w.template)
  }

  /** A pass that begins after the deadline stops the pod within the instant. */
  lemma ExpiredPassStops(w: World, plan: Plan, home: Home, rbac: Rbac, c: Scene)
    requires Unused(w) && w.work.Resting? && w.sess.now > Deadline(w) && home.HomeOk? && Provisioned(rbac)
    ensures CanStop(w, plan, c)
  {
    var busy := Busy(w.sess.now, false);
    var w1 := LookedAt(w, home, rbac, NO_FAULTS);
    var env := w1.work.env;
    RunningPass(env, w.sb.value.status, w.pod, IdleLimit(w.sb.value.spec, w.template));
    assert PassOut(w1, w.sess.now) == ReconcileSpec(env, w.sb.value.status, w.pod);
    CanStopNow(Touched(w1, w.sess.now), busy, c);
    CanStopAfter(w1, busy, Touch(w.sess.now), c);
    ReadsCanStop(Begun(w), busy, home, rbac, c);
    CanStopAfter(w, plan, Begin, c);
  }

  /** A pass due at the deadline or later, and a queue that may be late at all. */
  lemma DuePassStops(w: World, due: Time, home: Home, rbac: Rbac, c: Scene)
    requires Unused(w) && w.work.Resting? && w.sess.now <= Deadline(w) <= due && c.slack > 0 && !StillOpen(w, c)
    requires home.HomeOk? && Provisioned(rbac)
    ensures CanStop(w, Waiting(Some(due)), c)
  {
    var tick := Session(SM.Tick(Deadline(w) + 1));
    var w' := w.(sess := w.sess.(now := Deadline(w) + 1));
    assert Apply(w, tick) == w';
    ExpiredPassStops(w', Waiting(Some(due)), home, rbac, c);
    CanStopAfter(w, Waiting(Some(due)), tick, c);
  }

  /** What a pass before the deadline computes: nothing that matters changes, and it asks
      to be called not before the deadline. */
  lemma EarlyOut(w: World, home: Home, rbac: Rbac) returns (out: Out)
    requires Unused(w) && w.sess.now <= Deadline(w) && home.HomeOk? && Provisioned(rbac)
    ensures out == PassOut(LookedAt(w, home, rbac, NO_FAULTS), w.sess.now)
    ensures out.pod == w.pod && !out.err && !out.created && out.requeue > 0 && w.sess.now + out.requeue >= Deadline(w)
    ensures out.status.phase == Running && out.status.lastActivity == w.sb.value.status.lastActivity
  {
    var w1 := LookedAt(w, home, rbac, NO_FAULTS);
    RunningPass(w1.work.env, w.sb.value.status, w.pod, IdleLimit(w.sb.value.spec, w.template));
    out := PassOut(w1, w.sess.now);
    assert out == ReconcileSpec(w1.work.env, w.sb.value.status, w.pod);
  }

  /** The world after that pass's pod step. */
  function EarlyActed(w1: World, out: Out): World
    requires w1.sb.Some?
  {
    w1.(work := Acted(w1.sb.value, out.status, false, false, out.requeue))
  }

  lemma EarlyTouch(w: World, home: Home, rbac: Rbac, out: Out)
    requires w.sb.Some? && out == PassOut(LookedAt(w, home, rbac, NO_FAULTS), w.sess.now)
    requires out.pod == w.pod && !out.err && !out.created
    ensures var w1 := LookedAt(w, home, rbac, NO_FAULTS);
            Touched(w1, w.sess.now) == EarlyActed(w1, out)
  {
  }

  /** ... and after its status write. */
  lemma EarlyWritten(w: World, home: Home, rbac: Rbac, out: Out, c: Scene)
    requires Unused(w) && !StillOpen(w, c) && out.status.phase == Running && out.requeue > 0
    requires out.status.lastActivity == w.sb.value.status.lastActivity
    ensures var w2 := EarlyActed(LookedAt(w, home, rbac, NO_FAULTS), out);
            var w3 := Written(w2, Fine);
            && Next(Busy(w.sess.now, false), w2, WriteBack(Fine)) == Waiting(Some(w.sess.now + out.requeue))
            && Unused(w3) && w3.work.Resting? && Deadline(w3) == Deadline(w) && w3.sess.now == w.sess.now && !StillOpen(w3, c)
  {
  }

  /** An undisturbed pass before the deadline, and the one it asked for. */
  lemma EarlyPassThenStops(w: World, plan: Plan, home: Home, rbac: Rbac, c: Scene)
    requires Unused(w) && w.work.Resting? && w.sess.now <= Deadline(w) && c.slack > 0 && !StillOpen(w, c)
    requires home.HomeOk? && Provisioned(rbac)
    ensures CanStop(w, plan, c)
  {
    var busy := Busy(w.sess.now, false);
    var out := EarlyOut(w, home, rbac);
    EarlyTouch(w, home, rbac, out);
    EarlyWritten(w, home, rbac, out, c);
    var w1 := LookedAt(w, home, rbac, NO_FAULTS);
    var w2 := EarlyActed(w1, out);
    DuePassStops(Written(w2, Fine), w.sess.now + out.requeue, home, rbac, c);
    CanStopAfter(w2, busy, WriteBack(Fine), c);
    CanStopAfter(w1, busy, Touch(w.sess.now), c);
    ReadsCanStop(Begun(w), busy, home, rbac, c);
    CanStopAfter(w, plan, Begin, c);
  }

  lemma RunsUnused(w: World)
    requires Runs(w) && ActiveSet(w.sess.sessions, w.name) == {}
    ensures Unused(w) && Deadline(w) == Since(w) + Limit(w)
  {
  }

  /** With a queue that may be late at all, the deadline is met by a single pass. */
  lemma DeadlineReachable(w: World, slack: nat, span: nat)
    requires Runs(w) && w.work.Resting? && ActiveSet(w.sess.sessions, w.name) == {}
    requires w.sess.now - Since(w) <= Limit(w) && slack > 0
    ensures CanStop(w, Waiting(Some(Asked(w))), IdleScene(w, slack, span))
  {
    RunsUnused(w);
    DuePassStops(w, Asked(w), HOME, RbacNone, IdleScene(w, slack, span));
  }

  /** `sid` is the only Active session, stamped by the gateway for this sandbox. */
  ghost predicate Orphaned(w: World, sid: string) {
    && Runs(w) && ActiveSet(w.sess.sessions, w.name) == {sid}
    && sid in w.sess.sessions && Stamped(w.sess.sessions[sid], w.sb.value.spec.idle)
  }

  /** The scene after the gateway died: the reaper looks again after its deadline (not
      at it, where it stalls) and at most `slack` late. */
  ghost function CrashScene(w: World, sid: string, slack: nat, span: nat): Scene
    requires Orphaned(w, sid)
  {
    var x := w.sess.sessions[sid];
    var beat := SM.LastSeen(x);
    var closeBy := beat + SM.ReapDeadline(x) + slack;
    Scene(slack, span, Some(sid), beat, if closeBy < 0 then 0 else closeBy,
          if beat > Since(w) then beat else Since(w), Limit(w))
  }

  /** A gateway that dies keeps its sandbox up no longer than max(180s, timeout) + 1s
      past the later of its last heartbeat and the idle clock, plus twice the lateness
      of the queues and the duration of two passes: in every timely run, whatever the
      order of reaper, idle-clock patch, collections and passes, whatever pass is in
      flight, and whatever status write fails or conflicts. */
  lemma SuspendedAfterCrash(w: World, sid: string, plan: Plan, es: seq<Event>, slack: nat, span: nat)
    requires Orphaned(w, sid)
    requires var c := CrashScene(w, sid, slack, span); Working(w, c) && Timing(w, plan, c)
    requires Legal(w, es) && TimelyRun(w, plan, es, CrashScene(w, sid, slack, span))
    ensures StopsIn(w, es)
            || Exec(w, es).sess.now <= Max(SM.LastSeen(w.sess.sessions[sid]), Since(w)) + Max(180 * SECOND, Limit(w))
                                       + SECOND + 2 * slack + 2 * span
    ensures StopsBySuspending(w, es, CrashScene(w, sid, slack, span))
  {
    var c := CrashScene(w, sid, slack, span);
    ReapDeadlineBound(w.sess.sessions[sid], w.sb.value.spec.idle, w.template.value.idle);
    assert sid in ActiveSet(w.sess.sessions, w.name);
    forall a | Mine(w, a) && w.sess.sessions[a].status.state == SM.Active ensures a == sid {
      assert a in ActiveSet(w.sess.sessions, w.name);
    }
    assert SessionScene(w, c);
    StopsByDeadline(w, plan, es, c);
    StopIsSuspension(w, plan, es, c);
  }

  /** The reaper's read and write, a nanosecond or more after the deadline. */
  lemma ReapEvents(w: World, sid: string, t: Time) returns (read: Event, reap: Event, w': World)
    requires SM.Inv(w.sess) && Connected(w, sid) && w.sess.now == t && SM.Stale(w.sess.sessions[sid], t)
    requires ActiveSet(w.sess.sessions, w.name) == {sid}
    ensures read == Session(SM.Read(sid)) && Enabled(w, read)
    ensures reap.Session? && reap.ev.Commit? && reap.ev.w == SM.Reap && reap.ev.h.sid == sid
    ensures Enabled(Apply(w, read), reap) && w' == Apply(Apply(w, read), reap)
    ensures w' == w.(sess := w'.sess) && w'.sess.now == t && ActiveSet(w'.sess.sessions, w.name) == {}
  {
    read := Session(SM.Read(sid));
    var h := SM.Held(sid, w.sess.sessions[sid], t, false);
    reap := Session(SM.Commit(h, SM.Reap, t));
    w' := Apply(Apply(w, read), reap);
    forall a | a in w'.sess.sessions ensures !IsActive(w'.sess.sessions[a], w.name) {
      if a != sid { assert a !in ActiveSet(w.sess.sessions, w.name); }
    }
  }

  /** With queues that may be late at all, some timely run from every orphan stops the
      pod: the reaper closes the session, and a pass or two do the rest. */
  lemma OrphanCanStop(w: World, sid: string, slack: nat, span: nat)
    requires Orphaned(w, sid) && w.work.Resting? && slack > 0
    requires Timing(w, Waiting(None), CrashScene(w, sid, slack, span))
    ensures CanStop(w, Waiting(None), CrashScene(w, sid, slack, span))
  {
    var c := CrashScene(w, sid, slack, span);
    var x := w.sess.sessions[sid];
    assert sid in ActiveSet(w.sess.sessions, w.name) && SM.StoredOk(w.sess, sid);
    ReapDeadlineBound(x, w.sb.value.spec.idle, w.template.value.idle);
    var t: Time := Max(w.sess.now, SM.LastSeen(x) + SM.ReapDeadline(x) + 1);
    var tick := Session(SM.Tick(t));
    InvStep(w, tick);
    var w1 := w.(sess := w.sess.(now := t));
    assert Apply(w, tick) == w1;
    ReapedCanStop(w1, sid, HOME, RbacNone, c);
    CanStopAfter(w, Waiting(None), tick, c);
  }

  lemma ReapedCanStop(w: World, sid: string, home: Home, rbac: Rbac, c: Scene)
    requires SM.Inv(w.sess) && Connected(w, sid) && SM.Stale(w.sess.sessions[sid], w.sess.now)
    requires ActiveSet(w.sess.sessions, w.name) == {sid} && c.open == Some(sid) && c.slack > 0
    requires w.work.Resting? && home.HomeOk? && Provisioned(rbac)
    requires Unused(w.(sess := w.sess.(sessions := map[])))
    ensures CanStop(w, Waiting(None), c)
  {
    var read, reap, w1 := ReapEvents(w, sid, w.sess.now);
    var plan := Waiting(Some(w.sess.now));
    assert !StillOpen(w1, c) by { assert sid !in ActiveSet(w1.sess.sessions, w1.name); }
    if w1.sess.now > Deadline(w1) {
      ExpiredPassStops(w1, plan, home, rbac, c);
    } else {
      EarlyPassThenStops(w1, plan, home, rbac, c);
    }
    assert Next(Waiting(None), Apply(w, read), reap) == plan;
    CanStopAfter(Apply(w, read), Waiting(None), reap, c);
    CanStopAfter(w, Waiting(None), read, c);
  }

  // ------------------------------------------ the theorems speak of something

  lemma ReachableRuns(w: World)
    requires Leads(START, w) && Serves(w)
    requires forall sid :: sid in w.sess.sessions ==> w.sess.sessions[sid].status.end.None?
    ensures Runs(w) && Since(w) == 1 && Limit(w) == 60 * SECOND
  {
    var es :| Legal(START, es) && Exec(START, es) == w;
    StartInv("a", Spec(Run, None), Some(T1));
    InvAlways(START, es);
  }

  /** A reachable sandbox that `DeadlineMet` is about. */
  lemma IdleSandboxReachable() returns (w: World)
    ensures Leads(START, w) && Runs(w) && w.work.Resting? && ActiveSet(w.sess.sessions, w.name) == {}
    ensures w.sess.now - Since(w) <= Limit(w)
  {
    w := Up();
    ReachableRuns(w);
  }

  /** A reachable sandbox that `SuspendedAfterCrash` is about. */
  lemma OrphanReachable(slack: nat, span: nat) returns (w: World)
    ensures Leads(START, w) && Orphaned(w, "s")
    ensures var c := CrashScene(w, "s", slack, span); Working(w, c) && Timing(w, Waiting(None), c)
  {
    var up := Up();
    SessionOpens(up);
    w := up.(sess := Opened(up.sess));
    LeadsTrans(START, up, w);
    ReachableRuns(w);
    assert ActiveSet(w.sess.sessions, w.name) == {"s"};
    ReapDeadlineBound(w.sess.sessions["s"], None, None);
  }
}
