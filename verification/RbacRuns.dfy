/** The RBAC objects over whole histories: any number of profiles and sandboxes, any
    passes of both controllers, finished or interrupted, in any order, from an empty
    cluster. */
module RbacRuns {
  import opened RbacModel
  import opened RbacSync
  import opened RbacTheorems

  /** `reg` holds the sandboxes that exist. */
  datatype State = State(roles: Roles, bindings: Bindings, reg: set<Owner>)

  const EMPTY := State(map[], map[], {})

  datatype Step =
    | Sync(p: Profile, namespaces: set<string>, roles: Roles)   // a pass of the profile controller
    | Drop(p: Profile, gone: set<Key>)                          // the profile's finalizer
    | Bind(sb: Owner, p: Profile, bindings: Bindings)           // a pass of the sandbox controller
    | Register(sb: Owner)                                       // a sandbox is created
    | Unregister(sb: Owner)                                     // ... and goes after its teardown
    | DeleteNamespace(ns: string)                               // ... with everything in it
    | Others(roles: Roles, bindings: Bindings)                  // objects kubepark does not own

  /** The namespaces that the profiles of a sandbox may ever grant. */
  type Reach = Owner -> set<string>

  /** Nothing in the object looks like kubepark's. */
  ghost predicate ForeignRole(k: Key, r: Role) {
    LABEL_PROFILE !in r.labels && forall q :: k.name != RoleName(q)
  }

  ghost predicate ForeignBinding(k: Key, b: Binding) {
    && LABEL_SANDBOX_UID !in b.labels && !Labelled(b.labels, LABEL_MANAGED_BY, MANAGED_BY)
    && forall n :: k.name != BindingName(n)
  }

  ghost predicate Enabled(s: State, e: Step, reach: Reach) {
    match e
    case Sync(p, namespaces, roles) => RolesBetween(p, namespaces, s.roles, roles)
    case Drop(p, gone) => forall k :: k in gone && k in s.roles ==> Labelled(s.roles[k].labels, LABEL_PROFILE, p.name)
    case Bind(sb, p, bindings) =>
      && sb in s.reg && GrantNamespaceSet(p.grants) <= reach(sb)
      && BindingsBetween(sb, p, GrantNamespaceSet(p.grants), s.bindings, bindings)
    case Register(sb) => RegistryOk(s.reg + {sb}) && sb !in s.reg && Apart(s.reg + {sb}, reach)
    case Unregister(sb) => forall k :: k in s.bindings ==> !Labelled(s.bindings[k].labels, LABEL_SANDBOX_UID, sb.uid)
    case DeleteNamespace(_) => true
    case Others(roles, bindings) =>
      && (forall k :: k in s.roles && (k !in roles || roles[k] != s.roles[k]) ==> ForeignRole(k, s.roles[k]))
      && (forall k :: k in roles && (k !in s.roles || roles[k] != s.roles[k]) ==> ForeignRole(k, roles[k]))
      && (forall k :: k in s.bindings && (k !in bindings || bindings[k] != s.bindings[k]) ==> ForeignBinding(k, s.bindings[k]))
      && (forall k :: k in bindings && (k !in s.bindings || bindings[k] != s.bindings[k]) ==> ForeignBinding(k, bindings[k]))
  }

  /** Sandboxes of the same name never share a grant namespace. */
  ghost predicate Apart(reg: set<Owner>, reach: Reach) {
    forall s, t :: s in reg && t in reg && s != t && s.name == t.name ==> reach(s) !! reach(t)
  }

  function Outside<X>(m: map<Key, X>, ns: string): map<Key, X> {
    map k | k in m && k.ns != ns :: m[k]
  }

  function Apply(s: State, e: Step): State {
    match e
    case Sync(_, _, roles) => s.(roles := roles)
    case Drop(_, gone) => s.(roles := s.roles - gone)
    case Bind(_, _, bindings) => s.(bindings := bindings)
    case Register(sb) => s.(reg := s.reg + {sb})
    case Unregister(sb) => s.(reg := s.reg - {sb})
    case DeleteNamespace(ns) => s.(roles := Outside(s.roles, ns), bindings := Outside(s.bindings, ns))
    case Others(roles, bindings) => s.(roles := roles, bindings := bindings)
  }

  ghost predicate Legal(s: State, es: seq<Step>, reach: Reach)
    decreases |es|
  {
    es == [] || (Enabled(s, es[0], reach) && Legal(Apply(s, es[0]), es[1..], reach))
  }

  function Exec(s: State, es: seq<Step>): State
    decreases |es|
  {
    if es == [] then s else Exec(Apply(s, es[0]), es[1..])
  }

  // --------------------------------------------------------------- invariant

  /** Every binding is one sandbox's own, within its reach, or not kubepark's at all. */
  ghost predicate Accounted(k: Key, b: Binding, reg: set<Owner>, reach: Reach) {
    ForeignBinding(k, b) || exists s :: s in reg && OwnedBy(k, b, s) && k.ns in reach(s)
  }

  ghost predicate Inv(s: State, reach: Reach) {
    && RegistryOk(s.reg) && Apart(s.reg, reach) && RolesTidy(s.roles)
    && forall k :: k in s.bindings ==> Accounted(k, s.bindings[k], s.reg, reach)
  }

  lemma AccountedIsTidy(s: State, reach: Reach)
    requires Inv(s, reach)
    ensures BindingsTidy(s.bindings, s.reg)
  {
    forall k | k in s.bindings ensures BindingTidy(k, s.bindings[k], s.reg) {
      var b := s.bindings[k];
      assert Accounted(k, b, s.reg, reach);
      if !ForeignBinding(k, b) {
        var o :| o in s.reg && OwnedBy(k, b, o) && k.ns in reach(o);
        forall t | t in s.reg && Labelled(b.labels, LABEL_SANDBOX_UID, t.uid) ensures OwnedBy(k, b, t) {
          assert t == o;
        }
      }
    }
  }

  lemma AccountedNoCollision(s: State, reach: Reach, sb: Owner, keep: set<string>)
    requires Inv(s, reach) && sb in s.reg && keep <= reach(sb)
    ensures NoCollision(s.bindings, sb, keep)
  {
    forall ns | ns in keep && BindingKey(sb, ns) in s.bindings
      ensures Labelled(s.bindings[BindingKey(sb, ns)].labels, LABEL_SANDBOX_UID, sb.uid)
    {
      var k := BindingKey(sb, ns);
      assert Accounted(k, s.bindings[k], s.reg, reach);
      assert !ForeignBinding(k, s.bindings[k]);
      var o :| o in s.reg && OwnedBy(k, s.bindings[k], o) && k.ns in reach(o);
      BindingNameInjective(o.name, sb.name);
      assert o != sb ==> reach(o) !! reach(sb);
    }
  }

  lemma BindKeeps(s: State, e: Step, reach: Reach)
    requires Inv(s, reach) && Enabled(s, e, reach) && e.Bind?
    ensures Inv(Apply(s, e), reach)
  {
    var keep := GrantNamespaceSet(e.p.grants);
    AccountedIsTidy(s, reach);
    AccountedNoCollision(s, reach, e.sb, keep);
    forall k | k in e.bindings ensures Accounted(k, e.bindings[k], s.reg, reach) {
      assert BindingBetween(e.sb, e.p, keep, s.bindings, e.bindings, k);
      if k in s.bindings && e.bindings[k] == s.bindings[k] {
        assert Accounted(k, s.bindings[k], s.reg, reach);
      } else {
        assert k == BindingKey(e.sb, k.ns);
        BoundOneTidy(e.sb, e.p, k.ns, s.bindings, s.reg, keep);
      }
    }
  }

  lemma RolesKeep(s: State, e: Step, reach: Reach)
    requires Inv(s, reach) && Enabled(s, e, reach)
    ensures RolesTidy(Apply(s, e).roles)
  {
    match e
    case Sync(p, namespaces, roles) => SyncStaysTidy(p, namespaces, s.roles, roles);
    case Drop(_, gone) =>
      forall k | k in s.roles - gone ensures RoleTidy(k, (s.roles - gone)[k]) { assert RoleTidy(k, s.roles[k]); }
    case DeleteNamespace(ns) =>
      forall k | k in Outside(s.roles, ns) ensures RoleTidy(k, Outside(s.roles, ns)[k]) { assert RoleTidy(k, s.roles[k]); }
    case Others(roles, _) =>
      forall k | k in roles ensures RoleTidy(k, roles[k]) {
        if k in s.roles && roles[k] == s.roles[k] { assert RoleTidy(k, s.roles[k]); }
      }
    case _ =>
  }

  lemma RegistryKeeps(s: State, e: Step, reach: Reach)
    requires Inv(s, reach) && Enabled(s, e, reach) && !e.Bind?
    ensures Inv(Apply(s, e), reach)
  {
    var s' := Apply(s, e);
    RolesKeep(s, e, reach);
    forall k | k in s'.bindings ensures Accounted(k, s'.bindings[k], s'.reg, reach) {
      if k in s.bindings && s'.bindings[k] == s.bindings[k] { assert Accounted(k, s.bindings[k], s.reg, reach); }
    }
  }

  lemma InvStep(s: State, e: Step, reach: Reach)
    requires Inv(s, reach) && Enabled(s, e, reach)
    ensures Inv(Apply(s, e), reach)
  {
    if e.Bind? { BindKeeps(s, e, reach); } else { RegistryKeeps(s, e, reach); }
  }

  /** Every history keeps the cluster tidy. */
  lemma {:induction false} InvAlways(s: State, es: seq<Step>, reach: Reach)
    requires Inv(s, reach) && Legal(s, es, reach)
    ensures Inv(Exec(s, es), reach)
    decreases |es|
  {
    if es != [] {
      InvStep(s, es[0], reach);
      InvAlways(Apply(s, es[0]), es[1..], reach);
    }
  }

  // ------------------------------------------------------ what later steps keep

  /** The Roles of a profile are as the last sync left them: in place in its grant
      namespaces among `nss`, absent from the others. */
  ghost predicate RolesInPlace(roles: Roles, p: Profile, nss: set<string>) {
    forall ns :: ns in GrantNamespaceSet(p.grants) ==> RoleInPlace(roles, p, ns, ns in nss)
  }

  ghost predicate RoleInPlace(roles: Roles, p: Profile, ns: string, present: bool) {
    if present then RoleKey(p, ns) in roles && roles[RoleKey(p, ns)].rules == RulesFor(p, ns)
    else RoleKey(p, ns) !in roles
  }

  /** The sandbox's bindings are those of the profile in its grant namespaces among
      `nss`: all of them, and no other. */
  ghost predicate BindingsInPlace(bs: Bindings, sb: Owner, p: Profile, nss: set<string>) {
    && (forall ns :: ns in GrantNamespaceSet(p.grants) && ns in nss ==> BindingInPlace(bs, sb, p, ns))
    && (forall k :: k in bs && OwnedBy(k, bs[k], sb) ==> k.ns in GrantNamespaceSet(p.grants) && k.ns in nss)
  }

  ghost predicate BindingInPlace(bs: Bindings, sb: Owner, p: Profile, ns: string) {
    var k := BindingKey(sb, ns);
    k in bs && OwnedBy(k, bs[k], sb) && bs[k].roleRef == RoleRef("Role", RoleName(p.name))
  }

  /** The namespaces that are left of `nss`. */
  function Left(nss: set<string>, e: Step): set<string> {
    if e.DeleteNamespace? then nss - {e.ns} else nss
  }

  /** A step that leaves the profile as it is: one for another profile, or another
      pass, finished or not, for this one that finds the same grant namespaces. */
  predicate ProfileSame(e: Step, p: Profile, nss: set<string>) {
    match e
    case Sync(q, namespaces, _) => q.name != p.name || (q == p && Applied(p, namespaces) == Applied(p, nss))
    case Drop(q, _) => q.name != p.name
    case _ => true
  }

  /** A step that leaves the sandbox with its profile: one for another sandbox, or
      another pass, finished or not, with the same profile and no namespace lost. */
  predicate SandboxSame(e: Step, sb: Owner, p: Profile, nss: set<string>) {
    match e
    case Bind(o, q, _) => o != sb || (q == p && GrantNamespaceSet(p.grants) <= nss)
    case Unregister(o) => o != sb
    case _ => true
  }

  lemma RoleStays(s: State, e: Step, reach: Reach, p: Profile, nss: set<string>, ns: string)
    requires Inv(s, reach) && Enabled(s, e, reach) && ProfileSame(e, p, nss)
    requires ns in GrantNamespaceSet(p.grants) && RoleInPlace(s.roles, p, ns, ns in nss)
    ensures RoleInPlace(Apply(s, e).roles, p, ns, ns in Left(nss, e))
  {
    var k := RoleKey(p, ns);
    if k in s.roles { assert RoleTidy(k, s.roles[k]); }
    match e
    case Sync(q, namespaces, roles) =>
      if q == p {
        assert ns in Applied(p, namespaces) <==> ns in nss;
        assert RoleBetween(p, namespaces, s.roles, roles, k);
      } else {
        SyncStaysTidy(q, namespaces, s.roles, roles);
        if k.name == RoleName(q.name) { RoleNameInjective(p.name, q.name); }
      }
    case Drop(q, _) =>
      if k in s.roles && Labelled(s.roles[k].labels, LABEL_PROFILE, q.name) { RoleNameInjective(p.name, q.name); }
    case _ =>
  }

  lemma OwnBindingStays(s: State, e: Step, reach: Reach, sb: Owner, k: Key)
    requires Inv(s, reach) && Enabled(s, e, reach) && sb in s.reg && (e.Bind? ==> e.sb != sb)
    requires k in s.bindings && OwnedBy(k, s.bindings[k], sb) && e != DeleteNamespace(k.ns)
    ensures k in Apply(s, e).bindings && Apply(s, e).bindings[k] == s.bindings[k]
  {
    if e.Bind? {
      var keep := GrantNamespaceSet(e.p.grants);
      AccountedIsTidy(s, reach);
      AccountedNoCollision(s, reach, e.sb, keep);
      BindStaysTidy(e.sb, e.p, keep, s.bindings, e.bindings, s.reg);
    }
  }

  lemma NoNewOwnBinding(s: State, e: Step, reach: Reach, sb: Owner, k: Key)
    requires Inv(s, reach) && Enabled(s, e, reach) && sb in s.reg && (e.Bind? ==> e.sb != sb)
    requires k in Apply(s, e).bindings && OwnedBy(k, Apply(s, e).bindings[k], sb)
    ensures k in s.bindings && s.bindings[k] == Apply(s, e).bindings[k] && e != DeleteNamespace(k.ns)
  {
    if e.Bind? {
      var keep := GrantNamespaceSet(e.p.grants);
      assert BindingBetween(e.sb, e.p, keep, s.bindings, e.bindings, k);
      AccountedIsTidy(s, reach);
      AccountedNoCollision(s, reach, e.sb, keep);
      if k.name == BindingName(e.sb.name) && k.ns in keep {
        assert k == BindingKey(e.sb, k.ns);
        BoundOneTidy(e.sb, e.p, k.ns, s.bindings, s.reg, keep);
      }
    }
  }

  /** Another pass with the same profile, interrupted anywhere, changes no binding. */
  lemma RebindKeeps(s: State, e: Step, reach: Reach, sb: Owner, p: Profile, nss: set<string>)
    requires Inv(s, reach) && Enabled(s, e, reach) && e.Bind? && e.sb == sb && e.p == p
    requires GrantNamespaceSet(p.grants) <= nss && BindingsInPlace(s.bindings, sb, p, nss)
    ensures BindingsInPlace(e.bindings, sb, p, nss)
  {
    var keep := GrantNamespaceSet(p.grants);
    forall ns | ns in keep ensures BindingInPlace(e.bindings, sb, p, ns) {
      assert BindingInPlace(s.bindings, sb, p, ns);
      assert BindingBetween(sb, p, keep, s.bindings, e.bindings, BindingKey(sb, ns));
    }
    forall k | k in e.bindings && OwnedBy(k, e.bindings[k], sb) ensures k.ns in keep && k.ns in nss {
      assert BindingBetween(sb, p, keep, s.bindings, e.bindings, k);
    }
  }

  lemma BindingsStay(s: State, e: Step, reach: Reach, sb: Owner, p: Profile, nss: set<string>)
    requires Inv(s, reach) && Enabled(s, e, reach) && SandboxSame(e, sb, p, nss) && sb in s.reg
    requires BindingsInPlace(s.bindings, sb, p, nss)
    ensures BindingsInPlace(Apply(s, e).bindings, sb, p, Left(nss, e)) && sb in Apply(s, e).reg
  {
    var s', left := Apply(s, e), Left(nss, e);
    if e.Bind? && e.sb == sb {
      RebindKeeps(s, e, reach, sb, p, nss);
    } else {
      forall ns | ns in GrantNamespaceSet(p.grants) && ns in left ensures BindingInPlace(s'.bindings, sb, p, ns) {
        assert BindingInPlace(s.bindings, sb, p, ns);
        OwnBindingStays(s, e, reach, sb, BindingKey(sb, ns));
      }
      forall k | k in s'.bindings && OwnedBy(k, s'.bindings[k], sb)
        ensures k.ns in GrantNamespaceSet(p.grants) && k.ns in left
      {
        NoNewOwnBinding(s, e, reach, sb, k);
      }
    }
  }

  // ---------------------------------------------------------- along histories

  function LeftAfter(nss: set<string>, es: seq<Step>): set<string>
    decreases |es|
  {
    if es == [] then nss else LeftAfter(Left(nss, es[0]), es[1..])
  }

  predicate LeavesProfile(es: seq<Step>, p: Profile, nss: set<string>)
    decreases |es|
  {
    es == [] || (ProfileSame(es[0], p, nss) && LeavesProfile(es[1..], p, Left(nss, es[0])))
  }

  predicate LeavesSandbox(es: seq<Step>, sb: Owner, p: Profile, nss: set<string>)
    decreases |es|
  {
    es == [] || (SandboxSame(es[0], sb, p, nss) && LeavesSandbox(es[1..], sb, p, Left(nss, es[0])))
  }

  lemma {:induction false} RolesStayAlong(s: State, es: seq<Step>, reach: Reach, p: Profile, nss: set<string>)
    requires Inv(s, reach) && Legal(s, es, reach) && RolesInPlace(s.roles, p, nss) && LeavesProfile(es, p, nss)
    ensures RolesInPlace(Exec(s, es).roles, p, LeftAfter(nss, es))
    decreases |es|
  {
    if es != [] {
      forall ns | ns in GrantNamespaceSet(p.grants)
        ensures RoleInPlace(Apply(s, es[0]).roles, p, ns, ns in Left(nss, es[0]))
      {
        assert RoleInPlace(s.roles, p, ns, ns in nss);
        RoleStays(s, es[0], reach, p, nss, ns);
      }
      InvStep(s, es[0], reach);
      RolesStayAlong(Apply(s, es[0]), es[1..], reach, p, Left(nss, es[0]));
    }
  }

  lemma {:induction false} BindingsStayAlong(s: State, es: seq<Step>, reach: Reach, sb: Owner, p: Profile, nss: set<string>)
    requires Inv(s, reach) && Legal(s, es, reach) && sb in s.reg
    requires BindingsInPlace(s.bindings, sb, p, nss) && LeavesSandbox(es, sb, p, nss)
    ensures BindingsInPlace(Exec(s, es).bindings, sb, p, LeftAfter(nss, es)) && sb in Exec(s, es).reg
    decreases |es|
  {
    if es != [] {
      BindingsStay(s, es[0], reach, sb, p, nss);
      InvStep(s, es[0], reach);
      BindingsStayAlong(Apply(s, es[0]), es[1..], reach, sb, p, Left(nss, es[0]));
    }
  }

  // ---------------------------------------------------------------- theorems

  /** With Roles and bindings in place the account is allowed exactly what the profile
      declares in the namespaces that have both. */
  lemma InPlaceIsExact(s: State, reach: Reach, sb: Owner, p: Profile, synced: set<string>, bound: set<string>, ns: string, a: Action)
    requires Inv(s, reach) && sb in s.reg
    requires RolesInPlace(s.roles, p, synced) && BindingsInPlace(s.bindings, sb, p, bound)
    ensures Allowed(s.roles, s.bindings, Account(sb), ns, a) <==> Granted(p, ns, a) && ns in synced && ns in bound
  {
    AccountedIsTidy(s, reach);
    RulesForExact(p, ns, a);
    if Granted(p, ns, a) && ns in synced && ns in bound {
      var g :| g in p.grants && ns in g.namespaces && SomeRuleAllows(g.rules, a);
      assert ns in GrantNamespaceSet(p.grants);
      assert RoleInPlace(s.roles, p, ns, true) && BindingInPlace(s.bindings, sb, p, ns);
      assert Permits(s.roles, s.bindings, Key(ns, BindingName(sb.name)), Account(sb), a);
    }
    if Allowed(s.roles, s.bindings, Account(sb), ns, a) {
      var name :| Permits(s.roles, s.bindings, Key(ns, name), Account(sb), a);
      var k := Key(ns, name);
      AccountIsOwn(s.bindings, s.reg, sb, k);
      assert k == BindingKey(sb, ns);
      assert BindingInPlace(s.bindings, sb, p, ns) && RoleInPlace(s.roles, p, ns, ns in synced);
    }
  }

  /** A successful pass puts the Roles, or the bindings, in place. */
  lemma SyncedInPlace(roles: Roles, p: Profile, namespaces: set<string>)
    requires RolesTidy(roles)
    ensures RolesInPlace(Synced(p, namespaces, roles), p, namespaces)
  {
    forall ns | ns in GrantNamespaceSet(p.grants) ensures RoleInPlace(Synced(p, namespaces, roles), p, ns, ns in namespaces) {
      var k, after := RoleKey(p, ns), Synced(p, namespaces, roles);
      SyncedRolesExactly(p, namespaces, roles, k);
      SyncedBetween(p, namespaces, roles);
      SyncStaysTidy(p, namespaces, roles, after);
      if k in after { assert RoleTidy(k, after[k]); }
    }
  }

  lemma BoundInPlace(s: State, reach: Reach, sb: Owner, p: Profile)
    requires Inv(s, reach) && sb in s.reg && GrantNamespaceSet(p.grants) <= reach(sb)
    ensures BindingsInPlace(BoundAll(sb, p, s.bindings), sb, p, GrantNamespaceSet(p.grants))
    ensures Enabled(s, Bind(sb, p, BoundAll(sb, p, s.bindings)), reach)
  {
    var keep, bs := GrantNamespaceSet(p.grants), BoundAll(sb, p, s.bindings);
    AccountedIsTidy(s, reach);
    AccountedNoCollision(s, reach, sb, keep);
    BoundAllBetween(sb, p, s.bindings);
    forall ns | ns in keep ensures BindingInPlace(bs, sb, p, ns) { BoundAllAt(sb, p, s.bindings, s.reg, ns); }
    forall k | k in bs && OwnedBy(k, bs[k], sb) ensures k.ns in keep {
      assert k !in ObsoleteBindings(sb.uid, Bound(sb, p, s.bindings, keep), keep);
    }
  }

  lemma {:induction false} Split(s: State, es: seq<Step>, reach: Reach, i: nat)
    requires Legal(s, es, reach) && i < |es|
    ensures Legal(s, es[..i], reach)
    ensures var m := Exec(s, es[..i]);
            && Enabled(m, es[i], reach) && Legal(Apply(m, es[i]), es[i + 1..], reach)
            && Exec(s, es) == Exec(Apply(m, es[i]), es[i + 1..])
    decreases i
  {
    if i > 0 {
      Split(Apply(s, es[0]), es[1..], reach, i - 1);
      assert es[1..][..i - 1] == es[..i][1..] && es[1..][i - 1] == es[i] && es[1..][i..] == es[i + 1..];
      assert es[..i] != [] && es[..i][0] == es[0];
    }
  }

  /** Step `i` of the history is a successful pass of the profile controller for `p`, and
      every later step leaves the profile as it is. */
  ghost predicate SyncedAt(es: seq<Step>, i: nat, p: Profile) {
    && i < |es| && es[i].Sync? && es[i].p == p
    && es[i].roles == Synced(p, es[i].namespaces, Exec(EMPTY, es[..i]).roles)
    && LeavesProfile(es[i + 1..], p, es[i].namespaces)
  }

  /** Step `j` is a successful pass of the sandbox controller for `sb` with `p`, and every
      later step leaves the sandbox as it is. */
  ghost predicate BoundAt(es: seq<Step>, j: nat, sb: Owner, p: Profile) {
    && j < |es| && es[j] == Bind(sb, p, BoundAll(sb, p, Exec(EMPTY, es[..j]).bindings))
    && LeavesSandbox(es[j + 1..], sb, p, GrantNamespaceSet(p.grants))
  }

  lemma SyncedHistory(reach: Reach, es: seq<Step>, i: nat, p: Profile)
    requires Legal(EMPTY, es, reach) && SyncedAt(es, i, p)
    ensures RolesInPlace(Exec(EMPTY, es).roles, p, LeftAfter(es[i].namespaces, es[i + 1..]))
  {
    Split(EMPTY, es, reach, i);
    var s := Exec(EMPTY, es[..i]);
    InvAlways(EMPTY, es[..i], reach);
    InvStep(s, es[i], reach);
    SyncedInPlace(s.roles, p, es[i].namespaces);
    RolesStayAlong(Apply(s, es[i]), es[i + 1..], reach, p, es[i].namespaces);
  }

  lemma BoundHistory(reach: Reach, es: seq<Step>, j: nat, sb: Owner, p: Profile)
    requires Legal(EMPTY, es, reach) && BoundAt(es, j, sb, p)
    ensures sb in Exec(EMPTY, es).reg
    ensures BindingsInPlace(Exec(EMPTY, es).bindings, sb, p, LeftAfter(GrantNamespaceSet(p.grants), es[j + 1..]))
  {
    Split(EMPTY, es, reach, j);
    var s := Exec(EMPTY, es[..j]);
    InvAlways(EMPTY, es[..j], reach);
    InvStep(s, es[j], reach);
    BoundInPlace(s, reach, sb, p);
    BindingsStayAlong(Apply(s, es[j]), es[j + 1..], reach, sb, p, GrantNamespaceSet(p.grants));
  }

  /** The main theorem over histories. In every history from the empty cluster in which
      the profile controller has succeeded for a profile, the sandbox controller has
      succeeded for a sandbox with it, in either order and with any passes in between,
      and both have stayed as they were since, interrupted passes for them included: the
      sandbox's account is allowed an action in a namespace exactly when the profile
      grants it and the namespace existed at that sync and has not been deleted since
      either pass. Assumed is only that sandboxes of the same name never share a grant
      namespace and that nobody else uses kubepark's names and labels. */
  lemma TranslationPreservesMeaning(reach: Reach, es: seq<Step>, i: nat, j: nat, p: Profile, sb: Owner, ns: string, a: Action)
    requires Legal(EMPTY, es, reach) && SyncedAt(es, i, p) && BoundAt(es, j, sb, p)
    ensures var s := Exec(EMPTY, es);
            Allowed(s.roles, s.bindings, Account(sb), ns, a) <==>
              && Granted(p, ns, a)
              && ns in LeftAfter(es[i].namespaces, es[i + 1..])
              && ns in LeftAfter(GrantNamespaceSet(p.grants), es[j + 1..])
  {
    InvAlways(EMPTY, es, reach);
    SyncedHistory(reach, es, i, p);
    BoundHistory(reach, es, j, sb, p);
    InPlaceIsExact(Exec(EMPTY, es), reach, sb, p, LeftAfter(es[i].namespaces, es[i + 1..]),
                   LeftAfter(GrantNamespaceSet(p.grants), es[j + 1..]), ns, a);
  }

  /** A sync that finds no grant namespace succeeds; the namespaces appear; the bind
      succeeds. */
  ghost function LateNamespaces(p: Profile, sb: Owner): seq<Step> {
    [Register(sb), Sync(p, {}, Synced(p, {}, map[])), Bind(sb, p, BoundAll(sb, p, map[]))]
  }

  /** Success of both controllers is not enough: after that history, whatever the profile
      and the sandbox, nothing that is granted is allowed. */
  lemma MissingNamespaceDeniesAccess(reach: Reach, p: Profile, sb: Owner, ns: string, a: Action)
    requires GrantNamespaceSet(p.grants) <= reach(sb)
    ensures var es := LateNamespaces(p, sb);
            && Legal(EMPTY, es, reach) && SyncedAt(es, 1, p) && BoundAt(es, 2, sb, p)
            && !Allowed(Exec(EMPTY, es).roles, Exec(EMPTY, es).bindings, Account(sb), ns, a)
  {
    var es := LateNamespaces(p, sb);
    var s1 := State(map[], map[], {sb});
    var s2 := s1.(roles := es[1].roles);
    var s3 := s2.(bindings := es[2].bindings);
    assert Apply(EMPTY, es[0]) == s1;
    SyncedBetween(p, {}, map[]);
    BoundAllBetween(sb, p, map[]);
    assert es[1..] == [es[1], es[2]] && [es[1], es[2]][1..] == [es[2]] && [es[2]][1..] == [];
    assert Legal(s3, [], reach) && Legal(s2, [es[2]], reach) && Legal(s1, es[1..], reach) && Legal(EMPTY, es, reach);
    assert es[..1] == [es[0]] && es[..1][1..] == [] && Exec(EMPTY, es[..1]) == s1;
    assert es[..2] == [es[0], es[1]] && es[..2][1..] == [es[1]] && Exec(s1, [es[1]]) == s2;
    assert Exec(EMPTY, es[..2]) == s2;
    assert es[2..] == [es[2]] && es[3..] == [];
    assert LeavesProfile(es[2..], p, {}) && LeftAfter({}, es[2..]) == {};
    TranslationPreservesMeaning(reach, es, 1, 2, p, sb, ns, a);
  }

  /** Step `j` is a successful pass of the sandbox controller for `sb`, which names `ref`
      while the profiles are these, and every later step leaves that as it is. */
  ghost predicate ReconciledAt(es: seq<Step>, j: nat, sb: Owner, ref: string, profiles: map<string, Profile>) {
    BoundAt(es, j, sb, Usable(sb, ref, profiles))
  }

  /** In every history: once a pass has succeeded for a sandbox that names no profile, a
      missing one or one that does not permit its namespace, and as long as that stays so,
      its account is allowed nothing through kubepark's objects. */
  lemma NoProfileNoAccessEver(reach: Reach, es: seq<Step>, j: nat, sb: Owner, ref: string, profiles: map<string, Profile>,
                              ns: string, a: Action)
    requires Legal(EMPTY, es, reach) && ReconciledAt(es, j, sb, ref, profiles)
    requires ref == "" || ref !in profiles || sb.ns !in profiles[ref].allowed
    ensures !Allowed(Exec(EMPTY, es).roles, Exec(EMPTY, es).bindings, Account(sb), ns, a)
  {
    var s := Exec(EMPTY, es);
    InvAlways(EMPTY, es, reach);
    BoundHistory(reach, es, j, sb, NO_PROFILE);
    AccountedIsTidy(s, reach);
    if Allowed(s.roles, s.bindings, Account(sb), ns, a) {
      var name :| Permits(s.roles, s.bindings, Key(ns, name), Account(sb), a);
      AccountIsOwn(s.bindings, s.reg, sb, Key(ns, name));
    }
  }

  /** ... and for one that names a profile which permits its namespace the account is
      allowed exactly what that profile grants, as above. */
  lemma PermittedProfileIsMeaning(reach: Reach, es: seq<Step>, i: nat, j: nat, sb: Owner, ref: string,
                                  profiles: map<string, Profile>, ns: string, a: Action)
    requires ref != "" && ref in profiles && sb.ns in profiles[ref].allowed
    requires Legal(EMPTY, es, reach) && SyncedAt(es, i, profiles[ref]) && ReconciledAt(es, j, sb, ref, profiles)
    ensures var s := Exec(EMPTY, es);
            Allowed(s.roles, s.bindings, Account(sb), ns, a) <==>
              && Granted(profiles[ref], ns, a)
              && ns in LeftAfter(es[i].namespaces, es[i + 1..])
              && ns in LeftAfter(GrantNamespaceSet(profiles[ref].grants), es[j + 1..])
  {
    TranslationPreservesMeaning(reach, es, i, j, profiles[ref], sb, ns, a);
  }

  /** A pass for a refused sandbox, finished or interrupted, never gives its account an
      access it did not have. */
  lemma RefusalGrantsNothing(reach: Reach, s: State, e: Step, sb: Owner, ref: string, profiles: map<string, Profile>,
                             ns: string, a: Action)
    requires Inv(s, reach) && Enabled(s, e, reach) && e.Bind? && e.sb == sb && e.p == Usable(sb, ref, profiles)
    requires ref == "" || ref !in profiles || sb.ns !in profiles[ref].allowed
    requires Allowed(Apply(s, e).roles, Apply(s, e).bindings, Account(sb), ns, a)
    ensures Allowed(s.roles, s.bindings, Account(sb), ns, a)
  {
    var name :| Permits(s.roles, e.bindings, Key(ns, name), Account(sb), a);
    assert BindingBetween(sb, e.p, GrantNamespaceSet(e.p.grants), s.bindings, e.bindings, Key(ns, name));
    assert Permits(s.roles, s.bindings, Key(ns, name), Account(sb), a);
  }
}
