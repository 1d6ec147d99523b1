/** What one pass of either controller keeps and leaves: tidy labels, exact Roles,
    other owners' objects untouched. */
module RbacTheorems {
  import opened RbacModel
  import opened RbacSync

  // -------------------------------------------------------------- cluster tidiness

  /** A Role carries the label of profile `q` exactly when it has q's Role name. */
  ghost predicate RoleTidy(k: Key, r: Role) {
    forall q :: Labelled(r.labels, LABEL_PROFILE, q) <==> k.name == RoleName(q)
  }

  ghost predicate RolesTidy(roles: Roles) {
    forall k :: k in roles ==> RoleTidy(k, roles[k])
  }

  /** UIDs are unique, and so are names within a namespace. */
  ghost predicate RegistryOk(reg: set<Owner>) {
    forall s, t :: s in reg && t in reg && (s.uid == t.uid || (s.ns == t.ns && s.name == t.name)) ==> s == t
  }

  ghost predicate OwnedBy(k: Key, b: Binding, s: Owner) {
    && Labelled(b.labels, LABEL_SANDBOX_UID, s.uid) && Labelled(b.labels, LABEL_MANAGED_BY, MANAGED_BY)
    && k.name == BindingName(s.name) && b.subjects == [Account(s)]
  }

  /** Every binding kubepark manages belongs to a registered sandbox, and a
      sandbox's label appears on its own bindings only. */
  ghost predicate BindingTidy(k: Key, b: Binding, reg: set<Owner>) {
    && (Labelled(b.labels, LABEL_MANAGED_BY, MANAGED_BY) ==> exists s :: s in reg && OwnedBy(k, b, s))
    && (forall s :: s in reg && Labelled(b.labels, LABEL_SANDBOX_UID, s.uid) ==> OwnedBy(k, b, s))
  }

  ghost predicate BindingsTidy(bs: Bindings, reg: set<Owner>) {
    forall k :: k in bs ==> BindingTidy(k, bs[k], reg)
  }

  /** No one else's binding sits at this sandbox's name in the namespaces it is
      about to bind: in particular no sandbox of the same name in another
      namespace shares a grant namespace with it. */
  ghost predicate NoCollision(bs: Bindings, sb: Owner, keep: set<string>) {
    forall ns :: ns in keep && BindingKey(sb, ns) in bs ==>
                   Labelled(bs[BindingKey(sb, ns)].labels, LABEL_SANDBOX_UID, sb.uid)
  }

  // ------------------------------------- every pass, finished or not, stays tidy

  lemma RoleNameInjective(a: string, b: string)
    requires RoleName(a) == RoleName(b)
    ensures a == b
  {
    assert RoleName(a)[|"kubepark-ap-"|..] == a && RoleName(b)[|"kubepark-ap-"|..] == b;
  }

  lemma BindingNameInjective(a: string, b: string)
    requires BindingName(a) == BindingName(b)
    ensures a == b
  {
    assert BindingName(a)[|"kubepark-sb-"|..] == a && BindingName(b)[|"kubepark-sb-"|..] == b;
  }

  lemma PatchedRoleTidy(p: Profile, ns: string, before: Roles)
    requires RolesTidy(before)
    ensures RoleTidy(RoleKey(p, ns), PatchRole(p, ns, before))
  {
    var k, r := RoleKey(p, ns), PatchRole(p, ns, before);
    if k in before {
      assert RoleTidy(k, before[k]);
      assert Labelled(before[k].labels, LABEL_PROFILE, p.name);
      assert r.labels == before[k].labels;
    } else {
      forall q ensures Labelled(r.labels, LABEL_PROFILE, q) <==> k.name == RoleName(q) {
        if k.name == RoleName(q) { RoleNameInjective(p.name, q); }
      }
    }
  }

  /** Any pass of the profile controller, interrupted anywhere, leaves tidy Roles
      and does not touch the Roles of other profiles or of anyone else. */
  lemma SyncStaysTidy(p: Profile, namespaces: set<string>, before: Roles, after: Roles)
    requires RolesTidy(before) && RolesBetween(p, namespaces, before, after)
    ensures RolesTidy(after)
    ensures forall k: Key :: k.name != RoleName(p.name) ==>
              (k in after <==> k in before) && (k in before ==> after[k] == before[k])
  {
    forall k | k in after ensures RoleTidy(k, after[k]) {
      assert RoleBetween(p, namespaces, before, after, k);
      if k.name == RoleName(p.name) { PatchedRoleTidy(p, k.ns, before); }
    }
    forall k: Key | k.name != RoleName(p.name)
      ensures (k in after <==> k in before) && (k in before ==> after[k] == before[k])
    {
      assert RoleBetween(p, namespaces, before, after, k);
      if k in before { assert RoleTidy(k, before[k]); }
    }
  }

  lemma BoundOneTidy(sb: Owner, p: Profile, ns: string, before: Bindings, reg: set<Owner>, keep: set<string>)
    requires RegistryOk(reg) && sb in reg && BindingsTidy(before, reg)
    requires NoCollision(before, sb, keep) && ns in keep
    ensures var b := BindOne(sb, p, ns, before);
            OwnedBy(BindingKey(sb, ns), b, sb) && BindingTidy(BindingKey(sb, ns), b, reg)
  {
    var k, b := BindingKey(sb, ns), BindOne(sb, p, ns, before);
    if k in before { assert BindingTidy(k, before[k], reg); }
    assert OwnedBy(k, b, sb);
    forall s | s in reg && Labelled(b.labels, LABEL_SANDBOX_UID, s.uid) ensures OwnedBy(k, b, s) {
      assert s == sb;
    }
  }

  /** Any pass of the sandbox controller, interrupted anywhere, leaves tidy
      bindings and does not touch the bindings of other sandboxes. */
  lemma BindStaysTidy(sb: Owner, p: Profile, keep: set<string>, before: Bindings, after: Bindings, reg: set<Owner>)
    requires RegistryOk(reg) && sb in reg && BindingsTidy(before, reg) && NoCollision(before, sb, keep)
    requires BindingsBetween(sb, p, keep, before, after)
    ensures BindingsTidy(after, reg) && NoCollision(after, sb, keep)
    ensures forall k, s :: s in reg && s != sb && k in before && OwnedBy(k, before[k], s) ==>
                             k in after && after[k] == before[k]
  {
    forall k | k in after
      ensures BindingTidy(k, after[k], reg)
      ensures k.name == BindingName(sb.name) && k.ns in keep ==> Labelled(after[k].labels, LABEL_SANDBOX_UID, sb.uid)
    {
      assert BindingBetween(sb, p, keep, before, after, k);
      if k in before { assert BindingTidy(k, before[k], reg); }
      if k.name == BindingName(sb.name) && k.ns in keep {
        assert k == BindingKey(sb, k.ns);
        BoundOneTidy(sb, p, k.ns, before, reg, keep);
      }
    }
    forall k, s | s in reg && s != sb && k in before && OwnedBy(k, before[k], s)
      ensures k in after && after[k] == before[k]
    {
      assert BindingBetween(sb, p, keep, before, after, k);
      assert k.name == BindingName(sb.name) ==> k == BindingKey(sb, k.ns);
    }
  }

  // ------------------------------------------------- after a successful pass

  lemma SyncedRoleAt(p: Profile, namespaces: set<string>, before: Roles, ns: string)
    requires ns in Applied(p, namespaces)
    ensures var k := RoleKey(p, ns);
            k in Synced(p, namespaces, before) && Synced(p, namespaces, before)[k].rules == RulesFor(p, ns)
  {
    assert RoleKey(p, ns) in RoleKeys(p, Applied(p, namespaces));
  }

  /** Who a managed binding of this account belongs to. */
  lemma AccountIsOwn(bs: Bindings, reg: set<Owner>, sb: Owner, k: Key)
    requires RegistryOk(reg) && sb in reg && BindingsTidy(bs, reg)
    requires k in bs && Labelled(bs[k].labels, LABEL_MANAGED_BY, MANAGED_BY) && Account(sb) in bs[k].subjects
    ensures OwnedBy(k, bs[k], sb)
  {
    assert BindingTidy(k, bs[k], reg);
    var s :| s in reg && OwnedBy(k, bs[k], s);
    assert Account(s) == Account(sb);
    BindingNameInjective(s.name, sb.name);
  }

  lemma BoundAllBetween(sb: Owner, p: Profile, before: Bindings)
    ensures var keep := GrantNamespaceSet(p.grants);
            BindingsBetween(sb, p, keep, before, BoundAll(sb, p, before))
  {
    var keep := GrantNamespaceSet(p.grants);
    var mid := Bound(sb, p, before, keep);
    BoundBetween(sb, p, keep, before, keep);
    FewerBetween(sb, p, keep, before, mid, ObsoleteBindings(sb.uid, mid, keep));
  }

  lemma BoundAllValue(sb: Owner, p: Profile, before: Bindings, ns: string)
    requires ns in GrantNamespaceSet(p.grants)
    ensures var k := BindingKey(sb, ns);
            k in BoundAll(sb, p, before) && BoundAll(sb, p, before)[k] == BindOne(sb, p, ns, before)
    ensures var k := Key(ns, "kubepark-sb-" + sb.name);
            k in BoundAll(sb, p, before)
            && (k !in before ==>
                  BoundAll(sb, p, before)[k]
                  == Binding(map["kubepark.dev/sandbox-uid" := sb.uid, "kubepark.dev/profile" := p.name,
                                 "app.kubernetes.io/managed-by" := "kubepark"],
                             RoleRef("Role", "kubepark-ap-" + p.name),
                             [Subject("ServiceAccount", "kubepark-sb-" + sb.name, sb.ns)]))
  {
    assert BindingKey(sb, ns) in BindingKeys(sb, GrantNamespaceSet(p.grants));
  }

  lemma BoundAllAt(sb: Owner, p: Profile, before: Bindings, reg: set<Owner>, ns: string)
    requires RegistryOk(reg) && sb in reg && BindingsTidy(before, reg)
    requires ns in GrantNamespaceSet(p.grants) && NoCollision(before, sb, GrantNamespaceSet(p.grants))
    ensures var k := BindingKey(sb, ns);
            && k in BoundAll(sb, p, before) && OwnedBy(k, BoundAll(sb, p, before)[k], sb)
            && BoundAll(sb, p, before)[k].roleRef == RoleRef("Role", RoleName(p.name))
  {
    BoundAllValue(sb, p, before, ns);
    BoundOneTidy(sb, p, ns, before, reg, GrantNamespaceSet(p.grants));
  }

  /** With no profile, a missing one or a forbidden one, a successful pass leaves
      the account without any access through kubepark's objects. */
  lemma NoProfileNoAccess(sb: Owner, reg: set<Owner>, roles: Roles, bindings0: Bindings, ns: string, a: Action)
    requires RegistryOk(reg) && sb in reg && BindingsTidy(bindings0, reg)
    ensures !Allowed(roles, Collected(sb.uid, bindings0, {}), Account(sb), ns, a)
  {
    var bindings := Collected(sb.uid, bindings0, {});
    forall name ensures !Permits(roles, bindings, Key(ns, name), Account(sb), a) {
      var k := Key(ns, name);
      if Permits(roles, bindings, k, Account(sb), a) {
        AccountIsOwn(bindings0, reg, sb, k);
      }
    }
  }

  /** A deleted profile's Roles are gone, so bindings that still refer to them
      grant nothing. */
  lemma DeletedProfileGrantsNothing(p: Profile, roles: Roles, bindings: Bindings, k: Key, who: Subject, a: Action)
    requires RolesTidy(roles)
    requires forall r :: r in roles ==> !Labelled(roles[r].labels, LABEL_PROFILE, p.name)
    requires k in bindings && bindings[k].roleRef == RoleRef("Role", RoleName(p.name))
    ensures !Permits(roles, bindings, k, who, a)
  {
    var r := Key(k.ns, RoleName(p.name));
    assert r in roles ==> RoleTidy(r, roles[r]);
  }

  // ------------------------------------------------- convergence, idempotence

  /** After success the profile's labelled Roles are exactly one per existing grant
      namespace, each holding the in-order concatenation of its rules. */
  lemma SyncedRolesExactly(p: Profile, namespaces: set<string>, before: Roles, k: Key)
    requires RolesTidy(before)
    ensures var after := Synced(p, namespaces, before);
            && ((k in after && Labelled(after[k].labels, LABEL_PROFILE, p.name))
                <==> k.name == RoleName(p.name) && k.ns in GrantNamespaceSet(p.grants) && k.ns in namespaces)
            && (k in after && Labelled(after[k].labels, LABEL_PROFILE, p.name) ==> after[k].rules == RulesFor(p, k.ns))
    ensures var after := Synced(p, namespaces, before);
            k in after && k.name == "kubepark-ap-" + p.name ==>
              after[k].labels == if k in before then before[k].labels
                                 else map["kubepark.dev/profile" := p.name, "app.kubernetes.io/managed-by" := "kubepark"]
  {
    var applied := Applied(p, namespaces);
    var patched, after := Patched(p, before, applied), Synced(p, namespaces, before);
    SyncedBetween(p, namespaces, before);
    SyncStaysTidy(p, namespaces, before, after);
    if k.name == RoleName(p.name) && k.ns in applied {
      assert k == RoleKey(p, k.ns);
      SyncedRoleAt(p, namespaces, before, k.ns);
      assert RoleTidy(k, after[k]);
    }
    if k in after && Labelled(after[k].labels, LABEL_PROFILE, p.name) {
      assert RoleTidy(k, after[k]);
      assert k !in ObsoleteRoles(p, patched, applied);
    }
  }

  lemma SyncedBetween(p: Profile, namespaces: set<string>, before: Roles)
    ensures RolesBetween(p, namespaces, before, Synced(p, namespaces, before))
  {
    var applied := Applied(p, namespaces);
    ObsoleteBetween(p, namespaces, before, ObsoleteRoles(p, Patched(p, before, applied), applied));
  }

  /** A second pass changes no Role. */
  lemma SyncIdempotent(p: Profile, namespaces: set<string>, before: Roles)
    requires RolesTidy(before)
    ensures Synced(p, namespaces, Synced(p, namespaces, before)) == Synced(p, namespaces, before)
  {
    var applied := Applied(p, namespaces);
    var once := Synced(p, namespaces, before);
    forall k | k in RoleKeys(p, applied) ensures k in once && PatchRole(p, k.ns, once) == once[k] {
      SyncedRoleAt(p, namespaces, before, k.ns);
    }
    assert Patched(p, once, applied) == once;
    forall k ensures k !in ObsoleteRoles(p, once, applied) {
      if k in once { SyncedRolesExactly(p, namespaces, before, k); }
    }
    assert ObsoleteRoles(p, once, applied) == {};
    assert once - {} == once;
  }

  /** A second pass changes no RoleBinding. */
  lemma BindIdempotent(sb: Owner, p: Profile, reg: set<Owner>, before: Bindings)
    requires RegistryOk(reg) && sb in reg && BindingsTidy(before, reg) && NoCollision(before, sb, GrantNamespaceSet(p.grants))
    ensures BoundAll(sb, p, BoundAll(sb, p, before)) == BoundAll(sb, p, before)
  {
    var keep := GrantNamespaceSet(p.grants);
    var once := BoundAll(sb, p, before);
    forall k | k in BindingKeys(sb, keep) ensures k in once && BindOne(sb, p, k.ns, once) == once[k] {
      BoundAllAt(sb, p, before, reg, k.ns);
    }
    assert Bound(sb, p, once, keep) == once;
    assert ObsoleteBindings(sb.uid, once, keep) == {};
    assert once - {} == once;
  }

  /** Why collisions must be excluded: of two sandboxes of the same name in different
      namespaces, the first one's binding at `ns` survives the second one's pass
      exactly when the second one's profile does not grant anything there. */
  lemma SameNameTakesOverExactly(first: Owner, second: Owner, p: Profile, bindings: Bindings, ns: string)
    requires first.name == second.name && first.ns != second.ns && first.uid != second.uid
    requires BindingKey(first, ns) in bindings && OwnedBy(BindingKey(first, ns), bindings[BindingKey(first, ns)], first)
    ensures var k, after := BindingKey(first, ns), BoundAll(second, p, bindings);
            && (k in after && after[k] == bindings[k] <==> ns !in GrantNamespaceSet(p.grants))
            && (ns in GrantNamespaceSet(p.grants) ==> k in after && after[k].subjects == [Account(second)])
  {
    var k, keep := BindingKey(first, ns), GrantNamespaceSet(p.grants);
    BindingKeysAt(second, keep, k);
    if ns in keep { BoundAllValue(second, p, bindings, ns); }
  }

  /** And what that leads to: the next collection for the first one that does not keep
      `ns` deletes the second one's binding exactly when its Role was the same, because
      the correction kept the first one's label. */
  lemma TakenBindingIsCollectedExactly(first: Owner, second: Owner, p: Profile, bindings: Bindings, ns: string,
                                       keep: set<string>)
    requires first.name == second.name && first.ns != second.ns && first.uid != second.uid
    requires BindingKey(first, ns) in bindings && OwnedBy(BindingKey(first, ns), bindings[BindingKey(first, ns)], first)
    requires ns in GrantNamespaceSet(p.grants) && ns !in keep
    ensures var k, after := BindingKey(second, ns), BoundAll(second, p, bindings);
            k !in Collected(first.uid, after, keep) <==> bindings[k].roleRef == RoleRef("Role", RoleName(p.name))
  {
    BoundAllValue(second, p, bindings, ns);
  }
}
