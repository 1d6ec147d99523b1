/** One sandbox, its pod, its template and its sessions in one API store, with
    every actor's steps interleaved. A pass of the sandbox reconciler is one step
    per API call or clock sample: read the sandbox, fetch the template, list the
    sessions, sample the clock, look at the pod, touch it, and compare-and-swap the
    status. The finalizer, the session reconciler, the gateway, the user, the
    kubelet and the clock act in between. */
module Lifecycle {
  import opened Base
  import opened SandboxPass
  import SM = SessionModel

  datatype Sandbox = Sandbox(rv: nat, spec: Spec, status: Status, deleting: bool, finalizer: bool)

  /** The last call a pass has made. */
  datatype Stage = Fetched | Listed | Sampled | Looked

  /** What the single reconcile worker of the sandbox is doing. `seen` is the pod
      as the pass found it; `err` and `requeue` are what the pass will return. */
  datatype Work =
    | Resting
    | Reading(copy: Sandbox)
    | Passing(copy: Sandbox, stage: Stage, env: Env, seen: Option<Pod>)
    | Acted(copy: Sandbox, next: Status, created: bool, err: bool, requeue: int)
    | Finalizing(copy: Sandbox)

  /** What the single worker of the session reconciler is doing with a closed
      session: `clock` is the idle clock it read, `mine` tells whether the session
      is one of this sandbox. */
  datatype Keeper =
    | Idling
    | Bumping(sid: string, end: Time, clock: Option<Time>)
    | Bumped(sid: string, end: Time, mine: bool)

  /** `collected` records the EndTime of every session of this sandbox that was
      garbage-collected. */
  datatype World = World(name: string, sb: Option<Sandbox>, template: Option<Template>, pod: Option<Pod>,
                         sess: SM.Sys, work: Work, keeper: Keeper, collected: set<Time>)

  const CLOSED_RETENTION: int := 168 * 3600 * SECOND

  datatype Event =
    | Session(ev: SM.Event)                                  // gateway, reaper, clock
    | KeepRead(sid: string)                                  // session reconciler reads the sandbox
    | KeepPatch(fault: Fault)                                // ... advances the idle clock
    | KeepCollect(fault: Fault)                              // ... collects the session
    | Edit(spec: Spec)                                       // user or gateway changes the spec
    | EditTemplate(t: Option<Template>)
    | DeleteSandbox
    | Kubelet(p: Option<Pod>)
    | Begin                                                  // reconciler reads the sandbox
    | Fetch(home: Home, rbac: Rbac, faults: Faults)          // ... and the template; home and RBAC
    | ListSessions
    | Sample                                                 // ... the clock of the idle test
    | Look                                                   // ... the pod
    | Touch(ran: Time)                                       // ... writes the pod
    | WriteBack(fault: Fault)                                // ... persists the status
    | Crash                                                  // the reconcile worker stops short
    | KeepCrash                                              // the session reconciler does
    | FinBegin | FinMark(fault: Fault) | FinPod | FinEnd(fault: Fault)

  function Start(name: string, spec: Spec, t: Option<Template>): World {
    World(name, Some(Sandbox(0, spec, NEW_STATUS, false, false)), t, None, SM.INIT, Resting, Idling, {})
  }

  /** `sid` is a session of this sandbox, or an Active one. */
  predicate Mine(w: World, sid: string) {
    sid in w.sess.sessions && w.sess.sessions[sid].sandbox == w.name
  }

  predicate Connected(w: World, sid: string) {
    sid in w.sess.sessions && IsActive(w.sess.sessions[sid], w.name)
  }

  // ------------------------------------------------------------------ steps

  predicate Current(w: World, copy: Sandbox) {
    w.sb.Some? && w.sb.value.rv == copy.rv
  }

  predicate AtStage(w: World, s: Stage) {
    w.work.Passing? && w.work.stage == s
  }

  ghost predicate Enabled(w: World, e: Event) {
    match e
    case Session(ev) => !ev.Delete? && SM.Enabled(w.sess, ev)
    case KeepRead(sid) =>
      w.keeper.Idling? && sid in w.sess.sessions && w.sess.sessions[sid].status.state == SM.Closed
      && w.sess.sessions[sid].status.end.Some?
    case KeepPatch(_) => w.keeper.Bumping?
    case KeepCollect(_) => w.keeper.Bumped?
    case Edit(_) => w.sb.Some?
    case EditTemplate(_) => true
    case DeleteSandbox => w.sb.Some? && !w.sb.value.deleting
    case Kubelet(p) =>
      w.pod.Some? && (p.Some? ==> p.value.built == w.pod.value.built && p.value.account == w.pod.value.account
                                  && (w.pod.value.terminating ==> p.value.terminating)
                                  && (Dead(w.pod.value) ==> Dead(p.value)))
    case Begin => w.work.Resting? && w.sb.Some? && !w.sb.value.deleting
    case Fetch(_, _, _) => w.work.Reading?
    case ListSessions => AtStage(w, Fetched)
    case Sample => AtStage(w, Listed)
    case Look => AtStage(w, Sampled)
    case Touch(ran) => AtStage(w, Looked) && w.work.env.now <= ran <= w.sess.now
    case WriteBack(_) => w.work.Acted?
    case Crash => true
    case KeepCrash => true
    case FinBegin => w.work.Resting? && w.sb.Some? && w.sb.value.deleting && w.sb.value.finalizer
    case FinMark(_) => w.work.Finalizing? && w.work.copy.status.phase != Terminating
    case FinPod => w.work.Finalizing? && w.work.copy.status.phase == Terminating
    case FinEnd(_) => w.work.Finalizing? && w.work.copy.status.phase == Terminating
  }

  /** Store a new version of the sandbox. */
  function Put(w: World, sb: Sandbox): World {
    w.(sb := Some(sb.(rv := w.sess.rev + 1)), sess := w.sess.(rev := w.sess.rev + 1))
  }

  predicate Reached(clock: Option<Time>, end: Time) {
    clock.Some? && end <= clock.value
  }

  /** The session reconciler's read: the end is on its way to the idle clock, or
      there is nothing to advance. */
  ghost function KeepingRead(w: World, sid: string): World
    requires Enabled(w, KeepRead(sid))
  {
    var x := w.sess.sessions[sid];
    var end := x.status.end.value;
    if x.sandbox == w.name && w.sb.Some? && !Reached(w.sb.value.status.lastActivity, end)
    then w.(keeper := Bumping(sid, end, w.sb.value.status.lastActivity))
    else w.(keeper := Bumped(sid, end, x.sandbox == w.name))
  }

  /** The merge patch: it carries no version, so it lands whatever happened since
      the read. */
  function Patched(w: World, fault: Fault): World
    requires w.keeper.Bumping?
  {
    var k := w.keeper;
    if fault == Refused then w.(keeper := Idling)
    else
      var w1 := if w.sb.None? then w
                else Put(w, w.sb.value.(status := w.sb.value.status.(lastActivity := Some(k.end))));
      w1.(keeper := if fault == Lost then Idling else Bumped(k.sid, k.end, true))
  }

  /** Collect the session once it is old enough. */
  ghost function KeepingCollect(w: World, fault: Fault): World
    requires w.keeper.Bumped?
  {
    var k := w.keeper;
    var w1 := w.(keeper := Idling);
    if fault == Refused || w.sess.now - k.end < CLOSED_RETENTION || k.sid !in w.sess.sessions then w1
    else w1.(sess := SM.Apply(w.sess, SM.Delete(k.sid)),
             collected := if k.mine then w.collected + {k.end} else w.collected)
  }

  function Stopping(p: Option<Pod>): Option<Pod> {
    if p.Some? then Some(p.value.(terminating := true)) else None
  }

  /** The reconciler's read; a missing finalizer is added first. */
  function Begun(w: World): World
    requires w.sb.Some?
  {
    var w1 := if w.sb.value.finalizer then w else Put(w, w.sb.value.(finalizer := true));
    w1.(work := Reading(w1.sb.value))
  }

  function EnvAtFetch(w: World, home: Home, rbac: Rbac, faults: Faults): Env
    requires w.work.Reading?
  {
    Env(w.name, w.work.copy.spec, w.template, home, rbac, map[], w.sess.now, w.sess.now, w.sess.now, faults)
  }

  /** What the pass computes from everything it read. */
  function PassOut(w: World, ran: Time): Out
    requires w.work.Passing?
  {
    ReconcileSpec(w.work.env.(ran := ran, done := w.sess.now), w.work.copy.status, w.work.seen)
  }

  /** The pass deletes the pod it saw. */
  predicate Deletes(seen: Option<Pod>, out: Out) {
    !out.created && seen.Some? && !seen.value.terminating && out.pod.Some? && out.pod.value.terminating
  }

  /** The pod once the pass's write has landed: a delete of a pod that is gone and
      a create of one that exists change nothing. */
  function PodAfter(pod: Option<Pod>, seen: Option<Pod>, out: Out): Option<Pod> {
    if out.created then (if pod.None? then out.pod else pod)
    else if Deletes(seen, out) then Stopping(pod)
    else pod
  }

  function Touched(w: World, ran: Time): World
    requires w.work.Passing?
  {
    var out := PassOut(w, ran);
    w.(pod := PodAfter(w.pod, w.work.seen, out), work := Acted(w.work.copy, out.status, out.created, out.err, out.requeue))
  }

  /** The status write: skipped when nothing changed, accepted only against the
      version that was read. */
  function Written(w: World, fault: Fault): World
    requires w.work.Acted?
  {
    if fault != Refused && w.work.next != w.work.copy.status && Current(w, w.work.copy)
    then Put(w, w.sb.value.(status := w.work.next)).(work := Resting)
    else w.(work := Resting)
  }

  /** The finalizer's first write. */
  function Marked(w: World, fault: Fault): World
    requires w.work.Finalizing?
  {
    var st := w.work.copy.status.(phase := Terminating);
    if fault == Refused then w.(work := Resting)
    else if w.sb.None? then w.(work := Finalizing(w.work.copy.(status := st)))
    else if !Current(w, w.work.copy) then w.(work := Resting)
    else
      var w1 := Put(w, w.sb.value.(status := st));
      w1.(work := if fault == Lost then Resting else Finalizing(w1.sb.value))
  }

  ghost function Apply(w: World, e: Event): World
    requires Enabled(w, e)
  {
    match e
    case Session(ev) => w.(sess := SM.Apply(w.sess, ev))
    case KeepRead(sid) => KeepingRead(w, sid)
    case KeepPatch(fault) => Patched(w, fault)
    case KeepCollect(fault) => KeepingCollect(w, fault)
    case Edit(spec) => Put(w, w.sb.value.(spec := spec))
    case EditTemplate(t) => w.(template := t)
    case DeleteSandbox =>
      if w.sb.value.finalizer then Put(w, w.sb.value.(deleting := true)) else w.(sb := None)
    case Kubelet(p) => w.(pod := p)
    case Begin => Begun(w)
    case Fetch(home, rbac, faults) =>
      w.(work := Passing(w.work.copy, Fetched, EnvAtFetch(w, home, rbac, faults), None))
    case ListSessions =>
      w.(work := w.work.(stage := Listed, env := w.work.env.(sessions := w.sess.sessions)))
    case Sample => w.(work := w.work.(stage := Sampled, env := w.work.env.(now := w.sess.now)))
    case Look => w.(work := w.work.(stage := Looked, seen := w.pod))
    case Touch(ran) => Touched(w, ran)
    case WriteBack(fault) => Written(w, fault)
    case Crash => w.(work := Resting)
    case KeepCrash => w.(keeper := Idling)
    case FinBegin => w.(work := Finalizing(w.sb.value))
    case FinMark(fault) => Marked(w, fault)
    case FinPod => w.(pod := Stopping(w.pod))
    case FinEnd(fault) =>
      if fault != Refused && Current(w, w.work.copy) then w.(sb := None, work := Resting)
      else w.(work := Resting)
  }

  ghost predicate Legal(w: World, es: seq<Event>)
    decreases |es|
  {
    es == [] || (Enabled(w, es[0]) && Legal(Apply(w, es[0]), es[1..]))
  }

  ghost function Exec(w: World, es: seq<Event>): World
    requires Legal(w, es)
    decreases |es|
  {
    if es == [] then w else Exec(Apply(w, es[0]), es[1..])
  }

  // ------------------------------------------------------------ reachability

  /** `b` can follow `a`. */
  ghost predicate Leads(a: World, b: World) {
    exists es :: Legal(a, es) && Exec(a, es) == b
  }

  lemma LeadsRefl(a: World)
    ensures Leads(a, a)
  {
    assert Legal(a, []) && Exec(a, []) == a;
  }

  lemma LeadsOne(a: World, e: Event)
    requires Enabled(a, e)
    ensures Leads(a, Apply(a, e))
  {
    var b := Apply(a, e);
    assert Legal(b, []) && [e][1..] == [];
    assert Legal(a, [e]) && Exec(a, [e]) == b;
  }

  lemma {:induction false} ExecConcat(a: World, es: seq<Event>, fs: seq<Event>)
    requires Legal(a, es) && Legal(Exec(a, es), fs)
    ensures Legal(a, es + fs) && Exec(a, es + fs) == Exec(Exec(a, es), fs)
    decreases |es|
  {
    if es == [] {
      assert es + fs == fs;
    } else {
      assert (es + fs)[1..] == es[1..] + fs;
      ExecConcat(Apply(a, es[0]), es[1..], fs);
    }
  }

  lemma LeadsTrans(a: World, b: World, c: World)
    requires Leads(a, b) && Leads(b, c)
    ensures Leads(a, c)
  {
    var es :| Legal(a, es) && Exec(a, es) == b;
    var fs :| Legal(b, fs) && Exec(b, fs) == c;
    ExecConcat(a, es, fs);
  }

  lemma LeadsThen(a: World, b: World, e: Event)
    requires Leads(a, b) && Enabled(b, e)
    ensures Leads(a, Apply(b, e))
  {
    LeadsOne(b, e);
    LeadsTrans(a, b, Apply(b, e));
  }

  // ---------------------------------------------------- an undisturbed pass

  /** What an undisturbed, fault-free pass that starts now reads. */
  function EnvOf(w: World, home: Home, rbac: Rbac): Env
    requires w.sb.Some?
  {
    EnvFor(w, w.sb.value.spec, home, rbac, NO_FAULTS)
  }

  function EnvFor(w: World, spec: Spec, home: Home, rbac: Rbac, faults: Faults): Env {
    Env(w.name, spec, w.template, home, rbac, w.sess.sessions, w.sess.now, w.sess.now, w.sess.now, faults)
  }

  /** The worker has just looked at the pod, all reads having happened at once. */
  function LookedAt(w: World, home: Home, rbac: Rbac, faults: Faults): World
    requires w.sb.Some?
  {
    var w1 := Begun(w);
    w1.(work := Passing(w1.sb.value, Looked, EnvFor(w1, w1.sb.value.spec, home, rbac, faults), w1.pod))
  }

  /** One pass in which no call fails and nobody acts in between. */
  function FullPass(w: World, home: Home, rbac: Rbac): World
    requires w.sb.Some?
  {
    Written(Touched(LookedAt(w, home, rbac, NO_FAULTS), w.sess.now), Fine)
  }

  lemma LookedAtLeads(w: World, home: Home, rbac: Rbac, faults: Faults)
    requires Enabled(w, Begin)
    ensures Leads(w, LookedAt(w, home, rbac, faults))
  {
    var w1 := Begun(w);
    LeadsOne(w, Begin);
    ReadsLead(w1, home, rbac, faults);
    LeadsTrans(w, w1, LookedAt(w, home, rbac, faults));
  }

  lemma ReadsLead(w: World, home: Home, rbac: Rbac, faults: Faults)
    requires w.work.Reading?
    ensures Leads(w, w.(work := Passing(w.work.copy, Looked, EnvFor(w, w.work.copy.spec, home, rbac, faults), w.pod)))
  {
    var env := EnvFor(w, w.work.copy.spec, home, rbac, faults);
    var w1 := w.(work := Passing(w.work.copy, Fetched, env.(sessions := map[]), None));
    LeadsOne(w, Fetch(home, rbac, faults));
    var w2 := w.(work := Passing(w.work.copy, Listed, env, None));
    LeadsThen(w, w1, ListSessions);
    var w3 := w.(work := Passing(w.work.copy, Sampled, env, None));
    LeadsThen(w, w2, Sample);
    LeadsThen(w, w3, Look);
  }

  lemma FullPassLeads(w: World, home: Home, rbac: Rbac)
    requires Enabled(w, Begin)
    ensures Leads(w, FullPass(w, home, rbac))
  {
    LookedAtLeads(w, home, rbac, NO_FAULTS);
    var w1 := LookedAt(w, home, rbac, NO_FAULTS);
    LeadsThen(w, w1, Touch(w.sess.now));
    LeadsThen(w, Apply(w1, Touch(w.sess.now)), WriteBack(Fine));
  }

  /** A pass keeps, deletes or creates the pod; nothing else. */
  lemma PassPod(e: Env, st: Status, pod: Option<Pod>)
    ensures var out := ReconcileSpec(e, st, pod);
            out.pod == PodAfter(pod, pod, out) && (out.created ==> pod.None? && out.pod.Some?)
  {
    var p := PrepareSpec(e, st);
    if p.Go? { DrivePod(e, p.t, p.status.account, p.status, pod); }
  }

  lemma DrivePod(e: Env, t: Template, account: string, st: Status, pod: Option<Pod>)
    ensures var out := DriveSpec(e, t, account, st, pod);
            out.pod == PodAfter(pod, pod, out) && (out.created ==> pod.None? && out.pod.Some?)
  {
    var st' := st.(active := |ActiveSet(e.sessions, e.name)|);
    var out := RunSpec(e, t, account, st', pod);
    assert out.pod == PodAfter(pod, pod, out) && (out.created ==> pod.None? && out.pod.Some?);
  }

  /** An undisturbed pass stores what the reconciler computes from the stored status. */
  lemma FullPassStores(w: World, home: Home, rbac: Rbac)
    requires w.sb.Some?
    ensures var out := ReconcileSpec(EnvOf(w, home, rbac), w.sb.value.status, w.pod);
            var w' := FullPass(w, home, rbac);
            && w'.work.Resting? && w'.sb.Some? && w'.pod == out.pod
            && w'.sb.value == w.sb.value.(status := out.status, finalizer := true, rv := w'.sb.value.rv)
            && w'.template == w.template && w'.name == w.name && w'.collected == w.collected && w'.keeper == w.keeper
            && w'.sess == w.sess.(rev := w'.sess.rev)
  {
    var w1 := LookedAt(w, home, rbac, NO_FAULTS);
    assert w1.work.copy == w1.sb.value;
    PassPod(EnvOf(w, home, rbac), w.sb.value.status, w.pod);
    assert PassOut(w1, w.sess.now) == ReconcileSpec(EnvOf(w, home, rbac), w.sb.value.status, w.pod);
  }

  // -------------------------------------------------------------- invariant

  ghost predicate SandboxOk(sb: Sandbox, w: World) {
    && sb.rv <= w.sess.rev
    && StatusOk(sb.status)
    && (sb.status.phase == Terminating ==> sb.deleting)
    && (sb.status.lastActivity.Some? ==> sb.status.lastActivity.value <= w.sess.now)
  }

  /** The worker's copy: valid in itself, and the stored object if its version
      is still the stored one. */
  ghost predicate CopyOk(w: World, copy: Sandbox) {
    SandboxOk(copy, w) && (Current(w, copy) ==> w.sb.value == copy)
  }

  ghost predicate WorkOk(w: World) {
    match w.work
    case Resting => true
    case Finalizing(copy) => CopyOk(w, copy) && copy.deleting && (w.sb.Some? ==> w.sb.value.deleting)
    case Reading(copy) => CopyOk(w, copy) && !copy.deleting
    case Passing(copy, _, env, _) =>
      CopyOk(w, copy) && !copy.deleting && env.name == w.name && env.spec == copy.spec && env.now <= w.sess.now
    case Acted(copy, next, _, _, _) =>
      && CopyOk(w, copy) && !copy.deleting
      && StatusOk(next) && next.phase != Terminating
      && ClockStarted(copy.status.lastActivity, next.lastActivity)
      && (next.lastActivity.Some? ==> next.lastActivity.value <= w.sess.now)
  }

  /** What a pass may do to the idle clock. */
  predicate ClockStarted(a: Option<Time>, b: Option<Time>) {
    a.Some? ==> b == a
  }

  /** The session in the keeper's hands stays the closed session it read; nobody
      else moves an idle clock it found set; nothing was collected before the idle
      clock was set. */
  ghost predicate KeeperOk(w: World) {
    !w.keeper.Idling? ==>
      && InHand(w, w.keeper.sid, w.keeper.end)
      && match w.keeper
         case Bumping(sid, end, clock) =>
           && w.sess.sessions[sid].sandbox == w.name
           && (w.sb.Some? && clock.Some? ==> w.sb.value.status.lastActivity == clock && clock.value < end)
           && (w.sb.Some? && clock.None? ==> w.collected == {})
         case Bumped(sid, end, mine) =>
           && mine == (w.sess.sessions[sid].sandbox == w.name)
           && (w.sb.Some? && mine ==> Reached(w.sb.value.status.lastActivity, end))
         case _ => true
  }

  ghost predicate InHand(w: World, sid: string, end: Time) {
    sid in w.sess.sessions && w.sess.sessions[sid].status.state == SM.Closed
    && w.sess.sessions[sid].status.end == Some(end)
  }

  /** What the pass saw of the pod: only the worker creates pods, and neither a
      deletion nor the death of a pod is undone. */
  predicate SeenOk(w: World) {
    AtStage(w, Looked) && w.pod.Some? ==>
      var seen := w.work.seen;
      && seen.Some? && seen.value.built == w.pod.value.built
      && (seen.value.terminating ==> w.pod.value.terminating) && (Dead(seen.value) ==> Dead(w.pod.value))
  }

  /** Collected sessions are covered by the idle clock. */
  ghost predicate CollectedOk(w: World) {
    w.sb.Some? ==> forall end :: end in w.collected ==> Reached(w.sb.value.status.lastActivity, end)
  }

  /** The part of the invariant about the sandbox. */
  ghost predicate CoreInv(w: World) {
    (w.sb.Some? ==> SandboxOk(w.sb.value, w)) && WorkOk(w) && SeenOk(w) && KeeperOk(w) && CollectedOk(w)
  }

  ghost predicate Inv(w: World) {
    SM.Inv(w.sess) && CoreInv(w)
  }

  lemma StartInv(name: string, spec: Spec, t: Option<Template>)
    ensures Inv(Start(name, spec, t))
  {
  }

  // ----------------------------------------------------------- sessions' part

  lemma PutKeepsSessions(w: World, sb: Sandbox)
    requires SM.Inv(w.sess)
    ensures SM.Inv(Put(w, sb).sess)
  {
    var s, s' := w.sess, Put(w, sb).sess;
    forall sid | sid in s'.sessions ensures SM.StoredOk(s', sid) { assert SM.StoredOk(s, sid); }
    forall h | h in s'.held ensures SM.HeldOk(s', h) { assert SM.HeldOk(s, h); }
    assert SM.Distinct(s') by { assert SM.Distinct(s); }
    assert SM.LogOk(s') by {
      forall i | 0 <= i < |s'.log| ensures SM.ShowsClosing(s', s'.log[i]) { assert SM.ShowsClosing(s, s.log[i]); }
    }
  }

  lemma SessionsStep(w: World, e: Event)
    requires Inv(w) && Enabled(w, e)
    ensures SM.Inv(Apply(w, e).sess)
  {
    match e
    case Session(ev) => SM.InvStep(w.sess, ev);
    case KeepPatch(_) =>
      if w.sb.Some? { PutKeepsSessions(w, w.sb.value.(status := w.sb.value.status.(lastActivity := Some(w.keeper.end)))); }
    case KeepCollect(_) => if w.keeper.sid in w.sess.sessions { SM.InvStep(w.sess, SM.Delete(w.keeper.sid)); }
    case Edit(spec) => PutKeepsSessions(w, w.sb.value.(spec := spec));
    case DeleteSandbox => PutKeepsSessions(w, w.sb.value.(deleting := true));
    case Begin => PutKeepsSessions(w, w.sb.value.(finalizer := true));
    case WriteBack(_) =>
      if w.sb.Some? { PutKeepsSessions(w, w.sb.value.(status := w.work.next)); }
    case FinMark(_) =>
      if w.sb.Some? { PutKeepsSessions(w, w.sb.value.(status := w.work.copy.status.(phase := Terminating))); }
    case _ =>
  }

  // ----------------------------------------------------------- sandbox's part

  /** What one step other than the keeper's patch may do to the stored sandbox. */
  ghost predicate SandboxKept(w: World, w': World) {
    w'.sb.Some? ==>
      && SandboxOk(w'.sb.value, w')
      && w.sb.Some?
      && (w.sb.value.deleting ==> w'.sb.value.deleting)
      && (w.sb.value.status.phase == Terminating ==> w'.sb.value.status.phase == Terminating)
      && (w.sb.value != w'.sb.value ==> w'.sb.value.rv > w.sess.rev)
  }

  /** The idle clock is never unset and, once set, never moved. */
  ghost predicate ClockFixed(w: World, w': World) {
    w.sb.Some? && w'.sb.Some? ==> ClockStarted(w.sb.value.status.lastActivity, w'.sb.value.status.lastActivity)
  }

  lemma PatchedKeepsSandbox(w: World, fault: Fault)
    requires (w.sb.Some? ==> SandboxOk(w.sb.value, w)) && w.keeper.Bumping? && w.keeper.end <= w.sess.now
    ensures SandboxKept(w, Patched(w, fault))
  {
  }

  lemma WrittenKeepsSandbox(w: World, fault: Fault)
    requires (w.sb.Some? ==> SandboxOk(w.sb.value, w)) && WorkOk(w) && w.work.Acted?
    ensures SandboxKept(w, Written(w, fault)) && ClockFixed(w, Written(w, fault))
  {
  }

  lemma MarkedKeepsSandbox(w: World, fault: Fault)
    requires (w.sb.Some? ==> SandboxOk(w.sb.value, w)) && WorkOk(w) && w.work.Finalizing?
    ensures SandboxKept(w, Marked(w, fault)) && ClockFixed(w, Marked(w, fault))
  {
  }

  lemma SandboxStep(w: World, e: Event)
    requires (w.sb.Some? ==> SandboxOk(w.sb.value, w)) && WorkOk(w) && Enabled(w, e)
    requires e.KeepPatch? ==> w.keeper.end <= w.sess.now
    ensures SandboxKept(w, Apply(w, e)) && (!e.KeepPatch? ==> ClockFixed(w, Apply(w, e)))
  {
    match e
    case KeepPatch(fault) => PatchedKeepsSandbox(w, fault);
    case WriteBack(fault) => WrittenKeepsSandbox(w, fault);
    case FinMark(fault) => MarkedKeepsSandbox(w, fault);
    case _ =>
  }

  /** The end of the session in hand has passed. */
  lemma HandInPast(w: World)
    requires SM.Inv(w.sess) && KeeperOk(w) && !w.keeper.Idling?
    ensures w.keeper.end <= w.sess.now
  {
    assert SM.StoredOk(w.sess, w.keeper.sid);
  }

  /** A closed session is never touched but by its collection. */
  lemma ClosedKept(s: SM.Sys, ev: SM.Event, sid: string)
    requires SM.Inv(s) && SM.Enabled(s, ev) && !ev.Delete? && sid in s.sessions && s.sessions[sid].status.state == SM.Closed
    ensures var s' := SM.Apply(s, ev); sid in s'.sessions && s'.sessions[sid] == s.sessions[sid]
  {
    if ev.Commit? {
      assert SM.HeldOk(s, ev.h);
      SM.WriteKeepsLater(ev.w, ev.h.copy, ev.h.at, ev.t);
      assert ev.h.sid != sid;
    }
  }

  /** Which steps touch the sessions, the keeper, the worker and the collected ends. */
  lemma StepFrame(w: World, e: Event)
    requires Enabled(w, e)
    ensures !e.Session? && !e.KeepCollect? ==> Apply(w, e).sess.sessions == w.sess.sessions
    ensures !e.KeepRead? && !e.KeepPatch? && !e.KeepCollect? && !e.KeepCrash? ==> Apply(w, e).keeper == w.keeper
    ensures !e.KeepCollect? ==> Apply(w, e).collected == w.collected
    ensures Apply(w, e).name == w.name
    ensures !OfWorker(e) && !e.Crash? ==> Apply(w, e).work == w.work
    ensures w.sess.now <= Apply(w, e).sess.now && w.sess.rev <= Apply(w, e).sess.rev
  {
  }

  /** What the keeper relies on survives steps that leave it and its session alone. */
  lemma KeeperFramed(w: World, w': World)
    requires KeeperOk(w) && w'.keeper == w.keeper && w'.name == w.name && w'.collected == w.collected
    requires w'.sb.Some? ==> w.sb.Some?
    requires ClockFixed(w, w')
    requires !w.keeper.Idling? ==>
               w.keeper.sid in w'.sess.sessions && w'.sess.sessions[w.keeper.sid] == w.sess.sessions[w.keeper.sid]
    ensures KeeperOk(w')
  {
  }

  lemma KeeperReadOk(w: World, sid: string)
    requires CollectedOk(w) && Enabled(w, KeepRead(sid))
    ensures KeeperOk(KeepingRead(w, sid))
  {
  }

  lemma KeeperPatchOk(w: World, fault: Fault)
    requires KeeperOk(w) && w.keeper.Bumping?
    ensures KeeperOk(Patched(w, fault))
  {
  }

  lemma KeeperStep(w: World, e: Event)
    requires Inv(w) && Enabled(w, e)
    requires !e.KeepPatch? ==> SandboxKept(w, Apply(w, e)) && ClockFixed(w, Apply(w, e))
    ensures KeeperOk(Apply(w, e))
  {
    if e.KeepRead? {
      KeeperReadOk(w, e.sid);
    } else if e.KeepPatch? {
      KeeperPatchOk(w, e.fault);
    } else if !e.KeepCollect? && !e.KeepCrash? {
      StepFrame(w, e);
      if e.Session? && !w.keeper.Idling? { ClosedKept(w.sess, e.ev, w.keeper.sid); }
      KeeperFramed(w, Apply(w, e));
    }
  }

  lemma CollectedStep(w: World, e: Event)
    requires Inv(w) && Enabled(w, e)
    ensures CollectedOk(Apply(w, e))
  {
    if !w.keeper.Idling? { HandInPast(w); }
    SandboxStep(w, e);
  }

  /** A copy that was valid stays valid, whoever writes meanwhile. */
  lemma CopyKept(w: World, w': World, copy: Sandbox)
    requires CopyOk(w, copy) && SandboxKept(w, w')
    requires w.sess.now <= w'.sess.now && w.sess.rev <= w'.sess.rev
    ensures CopyOk(w', copy)
  {
  }

  /** The status a pass is about to persist. */
  lemma TouchKeepsWork(w: World, ran: Time)
    requires WorkOk(w) && Enabled(w, Touch(ran))
    ensures WorkOk(Touched(w, ran))
  {
    var env := w.work.env.(ran := ran, done := w.sess.now);
    PassKeepsStatus(env, w.work.copy.status, w.work.seen);
    PassKeepsClock(env, w.work.copy.status, w.work.seen);
  }

  lemma WorkFramed(w: World, w': World)
    requires WorkOk(w) && w'.work == w.work && w'.name == w.name && SandboxKept(w, w')
    requires w.sess.now <= w'.sess.now && w.sess.rev <= w'.sess.rev
    ensures WorkOk(w')
  {
    if !w.work.Resting? { CopyKept(w, w', w.work.copy); }
  }

  /** The steps of the reconcile worker. */
  predicate OfWorker(e: Event) {
    e.Begin? || e.Fetch? || e.ListSessions? || e.Sample? || e.Look? || e.Touch? || e.WriteBack?
    || e.FinBegin? || e.FinMark? || e.FinPod? || e.FinEnd?
  }

  lemma BegunKeepsWork(w: World)
    requires w.sb.Some? && SandboxOk(w.sb.value, w) && !w.sb.value.deleting
    ensures WorkOk(Begun(w))
  {
  }

  lemma MarkedKeepsWork(w: World, fault: Fault)
    requires (w.sb.Some? ==> SandboxOk(w.sb.value, w)) && WorkOk(w) && w.work.Finalizing?
    ensures WorkOk(Marked(w, fault))
  {
  }

  lemma ReadKeepsWork(w: World, e: Event)
    requires WorkOk(w) && Enabled(w, e) && (e.Fetch? || e.ListSessions? || e.Sample? || e.Look?)
    ensures WorkOk(Apply(w, e))
  {
    assert Current(w, w.work.copy) ==> w.sb.value == w.work.copy;
  }

  lemma WorkerStep(w: World, e: Event)
    requires (w.sb.Some? ==> SandboxOk(w.sb.value, w)) && WorkOk(w) && Enabled(w, e) && OfWorker(e)
    ensures WorkOk(Apply(w, e))
  {
    match e
    case Begin => BegunKeepsWork(w);
    case Touch(ran) => TouchKeepsWork(w, ran);
    case FinMark(fault) => MarkedKeepsWork(w, fault);
    case FinPod => WorkFramed(w, w.(pod := Stopping(w.pod)));
    case FinBegin =>
    case FinEnd(_) =>
    case WriteBack(_) =>
    case _ => ReadKeepsWork(w, e);
  }

  lemma WorkStep(w: World, e: Event)
    requires (w.sb.Some? ==> SandboxOk(w.sb.value, w)) && WorkOk(w) && Enabled(w, e)
    requires SandboxKept(w, Apply(w, e))
    ensures WorkOk(Apply(w, e))
  {
    if OfWorker(e) {
      WorkerStep(w, e);
    } else if !e.Crash? {
      StepFrame(w, e);
      WorkFramed(w, Apply(w, e));
    }
  }

  lemma SeenStep(w: World, e: Event)
    requires SeenOk(w) && Enabled(w, e)
    ensures SeenOk(Apply(w, e))
  {
    var w' := Apply(w, e);
    if AtStage(w', Looked) && !e.Look? && !e.Kubelet? {
      assert w'.work == w.work && w'.pod == w.pod;
    }
  }

  lemma InvStep(w: World, e: Event)
    requires Inv(w) && Enabled(w, e)
    ensures Inv(Apply(w, e))
  {
    if !w.keeper.Idling? { HandInPast(w); }
    SessionsStep(w, e);
    SandboxStep(w, e);
    WorkStep(w, e);
    SeenStep(w, e);
    KeeperStep(w, e);
    CollectedStep(w, e);
  }

  // --------------------------------------------------------- whole-run laws

  /** In every later state, API failures and lost races included: Suspending,
      Suspended and Resuming show no pod IP; Running shows all four conditions
      True and a started idle clock; Suspended shows Ready and PodReady False;
      Failed never appears; Terminating only on a sandbox being deleted. */
  lemma {:induction false} InvAlways(w: World, es: seq<Event>)
    requires Inv(w) && Legal(w, es)
    ensures Inv(Exec(w, es))
    decreases |es|
  {
    if es != [] {
      InvStep(w, es[0]);
      InvAlways(Apply(w, es[0]), es[1..]);
    }
  }

  /** So every status ever persisted for a sandbox since its creation is sound. */
  lemma PersistedStatusSound(name: string, spec: Spec, t: Option<Template>, es: seq<Event>)
    requires Legal(Start(name, spec, t), es)
    ensures var w := Exec(Start(name, spec, t), es);
            w.sb.Some? ==> StatusOk(w.sb.value.status) && (w.sb.value.status.phase == Terminating ==> w.sb.value.deleting)
  {
    StartInv(name, spec, t);
    InvAlways(Start(name, spec, t), es);
  }

  /** A run in which no patch of the idle clock lands after another actor started
      the clock that the patch's read had found unset. */
  ghost predicate ClockUndisturbed(w: World, es: seq<Event>)
    requires Legal(w, es)
    decreases |es|
  {
    es == [] || (!Rewinds(w, es[0]) && ClockUndisturbed(Apply(w, es[0]), es[1..]))
  }

  /** A patch about to land found no idle clock, and a later one is stored now. */
  predicate Rewinds(w: World, e: Event) {
    e.KeepPatch? && e.fault != Refused && w.keeper.Bumping? && w.keeper.clock.None?
    && w.sb.Some? && w.sb.value.status.lastActivity.Some? && w.keeper.end < w.sb.value.status.lastActivity.value
  }

  /** The idle clock runs backwards exactly at such a patch. */
  lemma RewindsExactly(w: World, e: Event)
    requires Inv(w) && Enabled(w, e)
    ensures Apply(w, e).sb.Some? ==> w.sb.Some?
    ensures Apply(w, e).sb.Some? ==>
              (!ClockKept(w.sb.value.status.lastActivity, Apply(w, e).sb.value.status.lastActivity) <==> Rewinds(w, e))
  {
    if !w.keeper.Idling? { HandInPast(w); }
    SandboxStep(w, e);
  }

  /** Along a run a terminating sandbox never shows another phase again, and the
      idle clock never runs backwards unless a patch of it was disturbed. */
  lemma {:induction false} HistoryKept(w: World, es: seq<Event>)
    requires Inv(w) && Legal(w, es)
    ensures var w' := Exec(w, es);
            w'.sb.Some? ==>
              && w.sb.Some? && StatusOk(w'.sb.value.status)
              && (w.sb.value.status.phase == Terminating ==> w'.sb.value.status.phase == Terminating)
              && (ClockUndisturbed(w, es) ==> ClockKept(w.sb.value.status.lastActivity, w'.sb.value.status.lastActivity))
    decreases |es|
  {
    if es != [] {
      InvStep(w, es[0]);
      StepKept(w, es[0]);
      HistoryKept(Apply(w, es[0]), es[1..]);
    }
  }

  lemma StepKept(w: World, e: Event)
    requires Inv(w) && Enabled(w, e)
    ensures SandboxKept(w, Apply(w, e))
    ensures Apply(w, e).sb.Some? && !Rewinds(w, e) ==>
              ClockKept(w.sb.value.status.lastActivity, Apply(w, e).sb.value.status.lastActivity)
  {
    if !w.keeper.Idling? { HandInPast(w); }
    SandboxStep(w, e);
    RewindsExactly(w, e);
  }
}
