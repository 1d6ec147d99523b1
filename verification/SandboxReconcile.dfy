/** The operations that write the sandbox object, run against a store that other
    actors use between any two of their API calls. Each is proved to be a run of
    `Lifecycle`, so every law of that system holds of the code. */
module SandboxReconcile {
  import opened Base
  import opened SandboxPass
  import opened Lifecycle
  import SM = SessionModel

  class ApiStore {
    var w: World

    constructor (name: string, spec: Spec, t: Option<Template>)
      ensures w == Start(name, spec, t)
    {
      w := Start(name, spec, t);
    }

    /** Anything actors other than the sandbox reconciler may do between two of its
        calls; nothing when they are quiet. */
    method OthersAct(quiet: bool)
      modifies this
      ensures Leads(old(w), w) && w.work == old(w.work) && w.name == old(w.name) && old(w.sess.now) <= w.sess.now
      ensures quiet ==> w == old(w)
    {
      LeadsRefl(w);
    }

    /** ... or actors other than the session reconciler between two of its calls. */
    method OthersActOnKeeper(quiet: bool)
      modifies this
      ensures Leads(old(w), w) && w.keeper == old(w.keeper) && w.name == old(w.name) && old(w.sess.now) <= w.sess.now
      ensures quiet ==> w == old(w)
    {
      LeadsRefl(w);
    }

    // ---------------------------------------------------- sandbox reconciler

    /** Read the sandbox, adding the finalizer if it is missing. */
    method ReadSandbox(get: Fault, addFinalizer: Fault) returns (err: bool, found: bool)
      requires w.work.Resting? && (w.sb.Some? ==> !w.sb.value.deleting)
      modifies this
      ensures Leads(old(w), w) && w.name == old(w).name
      ensures if found then w.work.Reading? && w.sb == Some(w.work.copy) && w.work.copy.finalizer else w.work.Resting?
      ensures get != Fine || old(w).sb.None? ==> w == old(w) && !found && (err <==> get != Fine)
      ensures get == Fine && old(w).sb.Some? && !old(w).sb.value.finalizer && addFinalizer != Fine ==> err && !found
      ensures get == Fine && old(w).sb.Some? && (addFinalizer == Fine || old(w).sb.value.finalizer) ==>
                found && !err && w == Begun(old(w))
    {
      LeadsRefl(w);
      if get != Fine { return true, false; }
      if w.sb.None? { return false, false; }
      var adding := !w.sb.value.finalizer;
      if adding && addFinalizer == Refused { return true, false; }
      LeadsOne(w, Begin);
      w := Begun(w);
      if adding && addFinalizer == Lost {
        LeadsThen(old(w), w, Crash);
        w := w.(work := Resting);
        return true, false;
      }
      return false, true;
    }

    /** The calls of a pass up to the pod, each at its own instant. Calls that an early
        exit would skip are made and their answers ignored. */
    method ReadEverything(home: Home, rbac: Rbac, faults: Faults, quiet: bool)
      requires w.work.Reading?
      modifies this
      ensures Leads(old(w), w) && AtStage(w, Looked) && w.work.copy == old(w).work.copy && w.name == old(w).name
      ensures w.work.env.now <= w.sess.now
      ensures quiet ==>
                var env := EnvFor(old(w), old(w).work.copy.spec, home, rbac, faults);
                w == old(w).(work := Passing(old(w).work.copy, Looked, env, old(w).pod))
    {
      ghost var w0 := w;
      OthersAct(quiet);
      LeadsThen(w0, w, Fetch(home, rbac, faults));
      w := w.(work := Passing(w.work.copy, Fetched, EnvAtFetch(w, home, rbac, faults), None));
      ghost var w1 := w;
      OthersAct(quiet);
      LeadsTrans(w0, w1, w);
      LeadsThen(w0, w, ListSessions);
      w := w.(work := w.work.(stage := Listed, env := w.work.env.(sessions := w.sess.sessions)));
      ghost var w2 := w;
      OthersAct(quiet);
      LeadsTrans(w0, w2, w);
      LeadsThen(w0, w, Sample);
      w := w.(work := w.work.(stage := Sampled, env := w.work.env.(now := w.sess.now)));
      ghost var w3 := w;
      OthersAct(quiet);
      LeadsTrans(w0, w3, w);
      LeadsThen(w0, w, Look);
      w := w.(work := w.work.(stage := Looked, seen := w.pod));
    }

    /** Compute the next status in memory and write the pod. */
    method TouchPod(quiet: bool) returns (err: bool, requeue: int)
      requires AtStage(w, Looked) && w.work.env.now <= w.sess.now
      modifies this
      ensures Leads(old(w), w) && w.work.Acted? && w.work.copy == old(w).work.copy && w.name == old(w).name
      ensures quiet ==> w == Touched(old(w), old(w).sess.now)
      ensures quiet ==> err == PassOut(old(w), old(w).sess.now).err && requeue == PassOut(old(w), old(w).sess.now).requeue
    {
      ghost var w0 := w;
      OthersAct(quiet);
      var ran := w.sess.now;
      ghost var w1 := w;
      OthersAct(quiet);
      LeadsTrans(w0, w1, w);
      var copy, seen := w.work.copy, w.work.seen;
      var pass := new Pass(copy.status, seen);
      err, requeue := pass.Reconcile(w.work.env.(ran := ran, done := w.sess.now));
      LeadsThen(w0, w, Touch(ran));
      var pod := w.pod;
      if pass.created {
        if pod.None? { pod := pass.pod; }
      } else if seen.Some? && !seen.value.terminating && pass.pod.Some? && pass.pod.value.terminating {
        if pod.Some? { pod := Some(pod.value.(terminating := true)); }
      }
      w := w.(pod := pod, work := Acted(copy, pass.status, pass.created, err, requeue));
    }

    /** One pass of the sandbox reconciler over a sandbox that is not being deleted:
        read, compute, write the pod, and persist the status against the version that
        was read, even after an error. With the others quiet it is one undisturbed
        pass, whatever calls fail, and returns an error exactly when one of them did. */
    method Reconcile(home: Home, rbac: Rbac, get: Fault, addFinalizer: Fault, faults: Faults, write: Fault,
                     quiet: bool)
      returns (err: bool, requeue: int)
      requires w.work.Resting? && (w.sb.Some? ==> !w.sb.value.deleting)
      modifies this
      ensures Leads(old(w), w) && w.work.Resting?
      ensures get != Fine || old(w).sb.None? ==> w == old(w)
      ensures quiet && get == Fine && old(w).sb.Some? && (addFinalizer == Fine || old(w).sb.value.finalizer) ==>
                var st := old(w).sb.value.status;
                var out := ReconcileSpec(EnvFor(old(w), old(w).sb.value.spec, home, rbac, faults), st, old(w).pod);
                && w == Written(Touched(LookedAt(old(w), home, rbac, faults), old(w).sess.now), write)
                && requeue == out.requeue && (err <==> out.err || (write != Fine && out.status != st))
      ensures get == Fine && old(w).sb.None? ==> !err && requeue == 0
      ensures get != Fine ==> err
      ensures get == Fine && old(w).sb.Some? && !old(w).sb.value.finalizer && addFinalizer != Fine ==> err
    {
      ghost var w0 := w;
      var found;
      err, found := ReadSandbox(get, addFinalizer);
      if !found { return err, 0; }
      ghost var w1 := w;
      ReadEverything(home, rbac, faults, quiet);
      LeadsTrans(w0, w1, w);
      ghost var w2 := w;
      err, requeue := TouchPod(quiet);
      LeadsTrans(w0, w2, w);
      ghost var w3 := w;
      OthersAct(quiet);
      LeadsTrans(w0, w3, w);
      ghost var w4 := w;
      var failed := PatchStatus(write);
      LeadsTrans(w0, w4, w);
      err := err || failed;
    }

    /** Write the status back unless it is unchanged; a conflict is an error. */
    method PatchStatus(write: Fault) returns (err: bool)
      requires w.work.Acted?
      modifies this
      ensures Leads(old(w), w) && w == Written(old(w), write)
      ensures old(w).work.next == old(w).work.copy.status ==> !err && w == old(w).(work := Resting)
      ensures old(w).work.next != old(w).work.copy.status ==>
                (err <==> write == Refused || (old(w).sb.Some? && (write == Lost || old(w).sb.value.rv != old(w).work.copy.rv)))
      ensures old(w).work.next != old(w).work.copy.status && !err && old(w).sb.Some? ==>
                w.sb.Some? && w.sb.value.status == old(w).work.next
    {
      LeadsOne(w, WriteBack(write));
      var copy, next := w.work.copy, w.work.next;
      if next == copy.status {
        w := w.(work := Resting);
        return false;
      }
      if write == Refused || w.sb.None? {
        err := write == Refused;
        w := w.(work := Resting);
        return;
      }
      if w.sb.value.rv != copy.rv {
        w := w.(work := Resting);
        return true;
      }
      w := Put(w, w.sb.value.(status := next)).(work := Resting);
      err := write == Lost;
    }

    // ---------------------------------------------------- session reconciler

    /** Advance the sandbox's idle clock to a closed session's end: read the sandbox,
        compare, then patch without a version. Undisturbed, the clock becomes the
        later of the two times. */
    method BumpSandboxActivity(sid: string, get: Fault, patch: Fault, quiet: bool) returns (err: bool)
      requires w.keeper.Idling? && sid in w.sess.sessions
      requires w.sess.sessions[sid].status.state == SM.Closed && w.sess.sessions[sid].status.end.Some?
      modifies this
      ensures Leads(old(w), w) && w.name == old(w).name
      ensures if err then w.keeper.Idling?
              else w.keeper == Bumped(sid, old(w).sess.sessions[sid].status.end.value, old(w).sess.sessions[sid].sandbox == w.name)
      ensures get == Fine && patch == Fine ==> !err
      ensures quiet ==> w.sess.sessions == old(w).sess.sessions && w.sess.now == old(w).sess.now
      ensures quiet && old(w).sess.sessions[sid].sandbox != w.name ==> w.sb == old(w).sb
      ensures quiet && !err && old(w).sb.Some? && old(w).sess.sessions[sid].sandbox == w.name ==>
                var clock, end := old(w).sb.value.status.lastActivity, old(w).sess.sessions[sid].status.end.value;
                w.sb.Some? && w.sb.value.status
                  == old(w).sb.value.status.(lastActivity := Some(if clock.Some? then Max(clock.value, end) else end))
    {
      LeadsRefl(w);
      ghost var w0 := w;
      if get != Fine { return true; }
      LeadsOne(w, KeepRead(sid));
      var x := w.sess.sessions[sid];
      var end := x.status.end.value;
      if x.sandbox != w.name || w.sb.None? {
        w := w.(keeper := Bumped(sid, end, x.sandbox == w.name));
        return false;
      }
      var clock := w.sb.value.status.lastActivity;
      if clock.Some? && !(end > clock.value) {
        w := w.(keeper := Bumped(sid, end, true));
        return false;
      }
      w := w.(keeper := Bumping(sid, end, clock));
      ghost var w1 := w;
      OthersActOnKeeper(quiet);
      LeadsTrans(w0, w1, w);
      LeadsThen(w0, w, KeepPatch(patch));
      if patch == Refused {
        w := w.(keeper := Idling);
        return true;
      }
      if w.sb.Some? {
        w := Put(w, w.sb.value.(status := w.sb.value.status.(lastActivity := Some(end))));
      }
      w := w.(keeper := if patch == Lost then Idling else Bumped(sid, end, true));
      err := patch == Lost;
    }

    /** Propagate a closed session's end, then collect the session once it is old. */
    method ReconcileClosed(sid: string, get: Fault, patch: Fault, collect: Fault, quiet: bool)
      returns (err: bool, requeue: int)
      requires w.keeper.Idling? && sid in w.sess.sessions && w.sess.sessions[sid].status.state == SM.Closed
      modifies this
      ensures Leads(old(w), w) && w.keeper.Idling?
      ensures old(w).sess.sessions[sid].status.end.None? ==> w == old(w)
      ensures requeue > 0 ==>
                var end := old(w).sess.sessions[sid].status.end;
                !err && end.Some? && requeue == 168 * 3600 * SECOND - (w.sess.now - end.value)
      ensures !err && old(w).sess.sessions[sid].status.end.Some? ==> (requeue > 0 || sid !in w.sess.sessions)
      ensures quiet && sid !in w.sess.sessions ==>
                w.sess.now - old(w).sess.sessions[sid].status.end.value >= 168 * 3600 * SECOND
      ensures quiet && sid !in w.sess.sessions && old(w).sb.Some? && old(w).sess.sessions[sid].sandbox == old(w).name ==>
                w.sb.Some? && Reached(w.sb.value.status.lastActivity, old(w).sess.sessions[sid].status.end.value)
    {
      LeadsRefl(w);
      ghost var w0 := w;
      if w.sess.sessions[sid].status.end.None? { return false, 0; }
      var end := w.sess.sessions[sid].status.end.value;
      err := BumpSandboxActivity(sid, get, patch, quiet);
      if err { return true, 0; }
      ghost var w1 := w;
      OthersActOnKeeper(quiet);
      LeadsTrans(w0, w1, w);
      ghost var w2 := w;
      err, requeue := CollectOld(collect);
      LeadsTrans(w0, w2, w);
    }

    /** Delete the session in hand if it is past its retention. */
    method CollectOld(collect: Fault) returns (err: bool, requeue: int)
      requires w.keeper.Bumped?
      modifies this
      ensures Leads(old(w), w) && w == KeepingCollect(old(w), collect)
      ensures requeue > 0 ==> !err && requeue == 168 * 3600 * SECOND - (w.sess.now - old(w).keeper.end)
      ensures !err ==> requeue > 0 || old(w).keeper.sid !in w.sess.sessions
      ensures old(w).keeper.sid in old(w).sess.sessions && old(w).keeper.sid !in w.sess.sessions ==>
                w.sess.now - old(w).keeper.end >= 168 * 3600 * SECOND
    {
      LeadsOne(w, KeepCollect(collect));
      var k := w.keeper;
      w := w.(keeper := Idling);
      var age: int := (w.sess.now as int) - (k.end as int);
      if age < CLOSED_RETENTION { return false, CLOSED_RETENTION - age; }
      if collect == Refused { return true, 0; }
      if k.sid in w.sess.sessions {
        w := w.(sess := w.sess.(rev := w.sess.rev + 1, sessions := w.sess.sessions - {k.sid}),
                collected := if k.mine then w.collected + {k.end} else w.collected);
      }
      return collect == Lost, 0;
    }

    // --------------------------------------------------------------- gateway

    /** The gateway asks for a sandbox to run again, judging by the copy it read
        earlier; the patch carries only the desired state. */
    method SetDesiredRunning(seen: Spec, fault: Fault) returns (err: bool)
      modifies this
      ensures Leads(old(w), w)
      ensures seen.desired == Run ==> w == old(w) && !err
      ensures seen.desired == Stop && !err ==>
                old(w).sb.Some? && w.sb.Some? && w.sb.value.spec == old(w).sb.value.spec.(desired := Run)
      ensures w.sb.Some? == old(w).sb.Some? && (w.sb.Some? ==> w.sb.value.status == old(w).sb.value.status)
    {
      LeadsRefl(w);
      if seen.desired == Run { return false; }
      if fault == Refused || w.sb.None? { return true; }
      LeadsOne(w, Edit(w.sb.value.spec.(desired := Run)));
      w := Put(w, w.sb.value.(spec := w.sb.value.spec.(desired := Run)));
      err := fault == Lost;
    }
  }
}
