/** Deleting a sandbox: the finalizer is the last thing to go, and only the home
    volume kubepark created is ever deleted. */
module Finalize {
  import opened Base
  import opened RbacModel
  import R = RbacSync
  import SM = SessionModel
  import SS = SessionStore
  import Claims

  datatype Child = PodChild | HostKeyChild | PolicyChild | AccountChild

  const CHILDREN := [PodChild, HostKeyChild, PolicyChild, AccountChild]

  datatype Policy = Retain | DeleteHome

  /** `existing` is home.existingClaim, empty when kubepark creates the claim. */
  datatype Home = Home(existing: string, policy: Policy)

  datatype Claim = Claim(orphan: bool, terminating: bool)

  datatype Call = MarkTerminating | DeleteChild(c: Child) | ListSessions | GetClaim | WriteClaim | RemoveFinalizer

  /** How the calls of one attempt end. */
  datatype Plan = Plan(own: Call -> Fault, rbac: R.Plan, session: string -> Fault)

  ghost predicate Reliable(plan: Plan) {
    (forall c :: plan.own(c) == Fine) && R.Reliable(plan.rbac) && (forall sid :: plan.session(sid) == Fine)
  }

  /** Objects being torn down. `children` maps an existing child to whether it is
      terminating. */
  datatype View = View(finalizer: bool, children: map<Child, bool>, bindings: Bindings, sess: SM.Sys,
                       claims: map<string, Claim>)

  ghost predicate ChildrenDown(children: map<Child, bool>) {
    forall c :: c in children ==> children[c]
  }

  ghost predicate BindingsGone(bindings: Bindings, uid: string) {
    forall k :: k in bindings ==> !Labelled(bindings[k].labels, LABEL_SANDBOX_UID, uid)
  }

  /** What must hold when the finalizer goes: children deleted or terminating, no
      RoleBinding with the sandbox's UID, every session listed before closed. */
  ghost predicate Down(v: View, v': View, sb: Owner) {
    ChildrenDown(v'.children) && BindingsGone(v'.bindings, sb.uid) && SessionsEnded(v.sess, v'.sess, sb)
  }

  /** Every session of the sandbox that was Active in `s` is gone in `s'` or was closed
      there for the sandbox's deletion, at the time of `s`. */
  ghost predicate SessionsEnded(s: SM.Sys, s': SM.Sys, sb: Owner) {
    forall sid :: SS.Ended(s.sessions, sb.name, s.now, s', sid)
  }

  /** No claim is touched except the generated one of a sandbox without an existing claim;
      it is newly deleted only under policy Delete and newly orphaned only otherwise. */
  ghost predicate ClaimSafe(before: Claim, after: Claim, generated: bool, home: Option<Home>) {
    && (after != before ==> generated && (home.None? || home.value.existing == ""))
    && (after.terminating != before.terminating ==> after.terminating && home.Some? && home.value.policy == DeleteHome)
    && (after.orphan != before.orphan ==> after.orphan && (home.None? || home.value.policy == Retain))
  }

  ghost predicate ClaimsSafe(v: View, v': View, sb: Owner, home: Option<Home>) {
    && v'.claims.Keys == v.claims.Keys
    && forall c :: c in v.claims ==> ClaimSafe(v.claims[c], v'.claims[c], c == Claims.GeneratedClaim(sb.name), home)
  }

  /** The generated claim has met its fate: terminating under policy Delete, orphaned
      without a home section or under policy Retain. */
  ghost predicate ClaimSettled(claims: map<string, Claim>, sb: Owner, home: Option<Home>) {
    var c := Claims.GeneratedClaim(sb.name);
    c in claims ==>
      && (home.None? ==> claims[c].orphan)
      && (home.Some? && home.value.existing == "" && home.value.policy == Retain ==> claims[c].orphan)
      && (home.Some? && home.value.existing == "" && home.value.policy == DeleteHome ==> claims[c].terminating)
  }

  /** One attempt, finished or cut short anywhere. */
  ghost predicate Attempt(v: View, v': View, sb: Owner, home: Option<Home>) {
    && (v.finalizer && !v'.finalizer ==> Down(v, v', sb) && ClaimSettled(v'.claims, sb, home))
    && (!v.finalizer ==> v' == v)
    && ClaimsSafe(v, v', sb, home)
    && (forall c :: c in v'.children <==> c in v.children)
    && (forall c :: c in v.children && v.children[c] ==> v'.children[c])
    && (forall k :: k in v.bindings && !Labelled(v.bindings[k].labels, LABEL_SANDBOX_UID, sb.uid) ==>
          k in v'.bindings && v'.bindings[k] == v.bindings[k])
    && SS.Reach(v.sess, v'.sess)
  }

  class Teardown {
    const sb: Owner
    const home: Option<Home>
    const cluster: R.Cluster
    const api: SS.ApiServer
    var finalizer: bool
    var terminating: bool
    var children: map<Child, bool>
    var claims: map<string, Claim>

    constructor (sb: Owner, home: Option<Home>, cluster: R.Cluster, api: SS.ApiServer,
                 children: map<Child, bool>, claims: map<string, Claim>)
      ensures this.sb == sb && this.home == home && this.cluster == cluster && this.api == api
      ensures finalizer && !terminating && this.children == children && this.claims == claims
    {
      this.sb, this.home, this.cluster, this.api := sb, home, cluster, api;
      this.finalizer, this.terminating, this.children, this.claims := true, false, children, claims;
    }

    ghost function Now(): View
      reads this, cluster, api
    {
      View(finalizer, children, cluster.bindings, api.View(), claims)
    }

    /** Delete the namespace-local children in order, stopping at an error. */
    method DeleteChildren(plan: Plan) returns (ok: bool)
      modifies this`children
      ensures forall c :: c in children <==> c in old(children)
      ensures forall c :: c in children && old(children)[c] ==> children[c]
      ensures ok ==> ChildrenDown(children)
      ensures Reliable(plan) ==> ok
    {
      for i := 0 to |CHILDREN|
        invariant forall c :: c in children <==> c in old(children)
        invariant forall c :: c in children && old(children)[c] ==> children[c]
        invariant forall j :: 0 <= j < i && CHILDREN[j] in children ==> children[CHILDREN[j]]
      {
        var c := CHILDREN[i];
        if plan.own(DeleteChild(c)) == Refused { return false; }
        if c in children { children := children[c := true]; }
        if plan.own(DeleteChild(c)) == Lost { return false; }
      }
      forall c | c in children ensures children[c] {
        assert c == CHILDREN[0] || c == CHILDREN[1] || c == CHILDREN[2] || c == CHILDREN[3];
      }
      return true;
    }

    /** Delete or orphan the generated claim; an existing claim is left alone. */
    method ApplyHomeRetainPolicy(plan: Plan) returns (ok: bool)
      modifies this`claims
      ensures claims.Keys == old(claims).Keys
      ensures forall c :: c in claims ==>
                ClaimSafe(old(claims)[c], claims[c], c == Claims.GeneratedClaim(sb.name), home)
      ensures ok ==> ClaimSettled(claims, sb, home)
      ensures Reliable(plan) ==> ok
    {
      if home.Some? && home.value.existing != "" { return true; }
      var c := Claims.GeneratedClaim(sb.name);
      if plan.own(GetClaim) != Fine { return false; }
      if c !in claims { return true; }
      if plan.own(WriteClaim) == Refused { return false; }
      if home.Some? && home.value.policy == DeleteHome {
        claims := claims[c := claims[c].(terminating := true)];
      } else {
        claims := claims[c := claims[c].(orphan := true)];
      }
      return plan.own(WriteClaim) == Fine;
    }

    /** Everything before the home volume. */
    method Clean(plan: Plan, quiet: bool) returns (ok: bool)
      requires SM.Inv(api.View())
      modifies this`children, cluster`bindings, api
      ensures SM.Inv(api.View()) && SS.Reach(old(api.View()), api.View())
      ensures forall c :: c in children <==> c in old(children)
      ensures forall c :: c in children && old(children)[c] ==> children[c]
      ensures forall k :: k in old(cluster.bindings) && !Labelled(old(cluster.bindings)[k].labels, LABEL_SANDBOX_UID, sb.uid) ==>
                k in cluster.bindings && cluster.bindings[k] == old(cluster.bindings)[k]
      ensures ok ==> ChildrenDown(children) && BindingsGone(cluster.bindings, sb.uid)
      ensures ok ==> forall sid :: SS.Ended(old(api.sessions), sb.name, old(api.now), api.View(), sid)
      ensures Reliable(plan) && quiet ==> ok
    {
      SS.ReachRefl(api.View());
      ok := DeleteChildren(plan);
      if !ok { return; }
      ghost var gone: set<Key>;
      ok, gone := cluster.GcRBAC(sb.uid, {}, plan.rbac);
      if !ok { return; }
      ok := api.CloseSessions(sb.name, plan.own(ListSessions), plan.session, quiet);
    }

    /** One attempt. With no failing call and the other actors quiet it completes. */
    method Finalize(plan: Plan, quiet: bool) returns (ok: bool)
      requires SM.Inv(api.View())
      modifies this, cluster`bindings, api
      ensures Attempt(old(Now()), Now(), sb, home)
      ensures SM.Inv(api.View())
      ensures Reliable(plan) && quiet ==> ok
      ensures ok ==> !finalizer
      ensures !terminating ==> Now() == old(Now())
      ensures old(finalizer) && !finalizer ==> terminating
    {
      SS.ReachRefl(api.View());
      if !finalizer { return true; }
      if !terminating {
        if plan.own(MarkTerminating) == Refused { return false; }
        terminating := true;
        if plan.own(MarkTerminating) == Lost { return false; }
      }
      ok := Clean(plan, quiet);
      if !ok { return; }
      ok := ApplyHomeRetainPolicy(plan);
      if !ok { return; }
      if plan.own(RemoveFinalizer) == Refused { return false; }
      finalizer := false;
      ok := plan.own(RemoveFinalizer) == Fine;
    }
  }

  // --------------------------------------------------------- whole teardowns

  /** What may happen between attempts: children and terminating claims vanish, other
      objects change, but nobody recreates a child or the generated claim, labels a
      binding with this UID or restores the finalizer. */
  ghost predicate Between(v: View, v': View, sb: Owner) {
    && v'.finalizer == v.finalizer
    && (forall c :: c in v'.children ==> c in v.children && (v.children[c] ==> v'.children[c]))
    && (BindingsGone(v.bindings, sb.uid) ==> BindingsGone(v'.bindings, sb.uid))
    && SS.Reach(v.sess, v'.sess)
    && (forall c :: c in v.claims && c in v'.claims ==> v'.claims[c] == v.claims[c])
    && (forall c :: c in v.claims && c !in v'.claims ==> v.claims[c].terminating)
    && (Claims.GeneratedClaim(sb.name) in v'.claims ==> Claims.GeneratedClaim(sb.name) in v.claims)
  }

  ghost predicate Step(v: View, v': View, sb: Owner, home: Option<Home>) {
    Attempt(v, v', sb, home) || Between(v, v', sb)
  }

  ghost predicate Run(vs: seq<View>, sb: Owner, home: Option<Home>) {
    |vs| > 0 && forall i :: 0 <= i < |vs| - 1 ==> Step(vs[i], vs[i + 1], sb, home)
  }

  /** Over any sequence of attempts, each failing wherever it likes: once the
      finalizer is gone, the children are gone or terminating, no RoleBinding with
      the UID is left, and every session listed by the completing attempt is
      closed or gone. */
  lemma {:induction false} FinalizerGoesLast(vs: seq<View>, sb: Owner, home: Option<Home>) returns (i: nat)
    requires Run(vs, sb, home) && vs[0].finalizer && !vs[|vs| - 1].finalizer && SM.Inv(vs[0].sess)
    ensures i < |vs| - 1 && vs[i].finalizer && !vs[i + 1].finalizer && Down(vs[i], vs[i + 1], sb)
    ensures ChildrenDown(vs[|vs| - 1].children) && BindingsGone(vs[|vs| - 1].bindings, sb.uid)
    ensures SessionsEnded(vs[i].sess, vs[|vs| - 1].sess, sb)
    decreases |vs|
  {
    var n := |vs| - 1;
    var rest := vs[..n];
    assert Step(vs[n - 1], vs[n], sb, home);
    if vs[n - 1].finalizer {
      i := n - 1;
    } else {
      RunPrefix(vs, sb, home, n);
      i := FinalizerGoesLast(rest, sb, home);
      SessionsStayOk(vs, sb, home, n - 1);
      SessionsStayOk(vs, sb, home, i);
      EndedStays(vs[i], vs[n - 1], vs[n], sb);
    }
  }

  lemma EndedStays(v: View, a: View, b: View, sb: Owner)
    requires SM.Inv(v.sess) && SM.Inv(a.sess) && SS.Reach(a.sess, b.sess) && v.sess.rev <= a.sess.rev
    requires SessionsEnded(v.sess, a.sess, sb)
    ensures SessionsEnded(v.sess, b.sess, sb)
  {
    forall sid | sid in v.sess.sessions ensures v.sess.sessions[sid].uid <= a.sess.rev { assert SM.StoredOk(v.sess, sid); }
    SS.EndedKept(v.sess.sessions, sb.name, v.sess.now, a.sess, b.sess);
  }

  lemma {:induction false} SessionsStayOk(vs: seq<View>, sb: Owner, home: Option<Home>, n: nat)
    requires Run(vs, sb, home) && n < |vs| && SM.Inv(vs[0].sess)
    ensures SM.Inv(vs[n].sess)
    ensures forall i :: 0 <= i <= n ==> vs[i].sess.rev <= vs[n].sess.rev
  {
    if n > 0 {
      SessionsStayOk(vs, sb, home, n - 1);
      assert Step(vs[n - 1], vs[n], sb, home);
      SS.ReachKeeps(vs[n - 1].sess, vs[n].sess);
    }
  }

  /** Over any sequence of attempts a claim stays, and is not deleted, unless it is the
      generated one of a sandbox whose home section names no existing claim and asks for
      Delete; with an existing claim no claim is touched at all. */
  lemma {:induction false} OnlyOwnClaimDeleted(vs: seq<View>, sb: Owner, home: Option<Home>, c: string)
    requires Run(vs, sb, home) && c in vs[0].claims && !vs[0].claims[c].terminating
    ensures c !in vs[|vs| - 1].claims || vs[|vs| - 1].claims[c].terminating ==>
              c == Claims.GeneratedClaim(sb.name) && home.Some? && home.value.existing == "" && home.value.policy == DeleteHome
    ensures c != Claims.GeneratedClaim(sb.name) || (home.Some? && home.value.existing != "") ==>
              c in vs[|vs| - 1].claims && vs[|vs| - 1].claims[c] == vs[0].claims[c]
    decreases |vs|
  {
    var n := |vs| - 1;
    if n > 0 {
      var rest := vs[..n];
      RunPrefix(vs, sb, home, n);
      OnlyOwnClaimDeleted(rest, sb, home, c);
      assert Step(vs[n - 1], vs[n], sb, home);
    }
  }

  lemma RunPrefix(vs: seq<View>, sb: Owner, home: Option<Home>, n: nat)
    requires Run(vs, sb, home) && 0 < n <= |vs|
    ensures Run(vs[..n], sb, home)
  {
    forall j | 0 <= j < n - 1 ensures Step(vs[..n][j], vs[..n][j + 1], sb, home) { assert Step(vs[j], vs[j + 1], sb, home); }
  }

  /** Over any sequence of attempts: once the finalizer is gone the generated claim, if it
      is still there, is terminating under policy Delete and orphaned under policy Retain
      or without a home section. */
  lemma {:induction false} HomeFate(vs: seq<View>, sb: Owner, home: Option<Home>)
    requires Run(vs, sb, home) && vs[0].finalizer && !vs[|vs| - 1].finalizer
    ensures ClaimSettled(vs[|vs| - 1].claims, sb, home)
    decreases |vs|
  {
    var n := |vs| - 1;
    assert Step(vs[n - 1], vs[n], sb, home);
    if !vs[n - 1].finalizer {
      RunPrefix(vs, sb, home, n);
      HomeFate(vs[..n], sb, home);
    }
  }

  /** A completed teardown under policy Retain, or without a home section, keeps the home
      volume: it is there, orphaned and not deleted. */
  lemma RetainedHomeKept(vs: seq<View>, sb: Owner, home: Option<Home>)
    requires Run(vs, sb, home) && vs[0].finalizer && !vs[|vs| - 1].finalizer
    requires home.None? || (home.value.existing == "" && home.value.policy == Retain)
    requires var c := Claims.GeneratedClaim(sb.name); c in vs[0].claims && !vs[0].claims[c].terminating
    ensures var c, last := Claims.GeneratedClaim(sb.name), vs[|vs| - 1].claims;
            c in last && last[c].orphan && !last[c].terminating
  {
    HomeFate(vs, sb, home);
    OnlyOwnClaimDeleted(vs, sb, home, Claims.GeneratedClaim(sb.name));
  }
}
