/** The two controllers that compile AccessProfiles into RBAC: one keeps a Role per
    grant namespace, the other binds each sandbox's ServiceAccount to it. */
module RbacSync {
  import opened Base
  import opened RbacModel
  import SP = SandboxPass

  datatype Call =
    | GetNamespace(ns: string) | GetRole(ns: string) | WriteRole(ns: string) | ListRoles | DeleteRole(k: Key)
    | GetProfile | CreateAccount | GetBinding(ns: string) | DropBinding(ns: string) | WriteBinding(ns: string)
    | ListBindings | DeleteBinding(k: Key)

  /** How each call of a pass ends. */
  type Plan = Call -> Fault

  ghost predicate Reliable(plan: Plan) {
    forall c :: plan(c) == Fine
  }

  // ------------------------------------------------- roles: what is computed

  function RoleLabels(p: Profile): map<string, string> {
    map[LABEL_PROFILE := p.name, LABEL_MANAGED_BY := MANAGED_BY]
  }

  function RoleKey(p: Profile, ns: string): Key {
    Key(ns, RoleName(p.name))
  }

  /** The Role the pass leaves at a grant namespace. */
  function PatchRole(p: Profile, ns: string, before: Roles): Role {
    var k, rules := RoleKey(p, ns), RulesFor(p, ns);
    if k !in before then Role(RoleLabels(p), rules)
    else if before[k].rules == rules then before[k]
    else Role(if before[k].labels == map[] then RoleLabels(p) else before[k].labels, rules)
  }

  function RoleKeys(p: Profile, done: set<string>): set<Key> {
    set ns | ns in done :: RoleKey(p, ns)
  }

  function Patched(p: Profile, before: Roles, done: set<string>): Roles {
    before + map k | k in RoleKeys(p, done) :: PatchRole(p, k.ns, before)
  }

  function ObsoleteRoles(p: Profile, roles: Roles, applied: set<string>): set<Key> {
    set k | k in roles && Labelled(roles[k].labels, LABEL_PROFILE, p.name) && k.ns !in applied
  }

  /** Grant namespaces that exist. */
  function Applied(p: Profile, namespaces: set<string>): set<string> {
    GrantNamespaceSet(p.grants) * namespaces
  }

  /** The Roles after a successful pass. */
  function Synced(p: Profile, namespaces: set<string>, before: Roles): Roles {
    var applied := Applied(p, namespaces);
    var patched := Patched(p, before, applied);
    patched - ObsoleteRoles(p, patched, applied)
  }

  lemma PatchedStep(p: Profile, before: Roles, done: set<string>, ns: string)
    requires ns !in done
    ensures Patched(p, before, done + {ns}) == Patched(p, before, done)[RoleKey(p, ns) := PatchRole(p, ns, before)]
    ensures RoleKey(p, ns) in Patched(p, before, done) <==> RoleKey(p, ns) in before
    ensures RoleKey(p, ns) in before ==> Patched(p, before, done)[RoleKey(p, ns)] == before[RoleKey(p, ns)]
  {
    forall k ensures k in RoleKeys(p, done + {ns}) <==> k in RoleKeys(p, done) || k == RoleKey(p, ns) {
      RoleKeysAt(p, done, k);
      RoleKeysAt(p, done + {ns}, k);
    }
    RoleKeysAt(p, done, RoleKey(p, ns));
  }

  lemma RoleKeysAt(p: Profile, done: set<string>, k: Key)
    ensures k in RoleKeys(p, done) <==> k.name == RoleName(p.name) && k.ns in done
  {
    assert k.name == RoleName(p.name) ==> k == RoleKey(p, k.ns);
  }

  /** A state a pass over the Roles may leave behind, finished or not. */
  ghost predicate RoleBetween(p: Profile, namespaces: set<string>, before: Roles, after: Roles, k: Key) {
    if k.name == RoleName(p.name) && k.ns in Applied(p, namespaces) then
      && (k in before ==> k in after)
      && (k in after ==> after[k] == PatchRole(p, k.ns, before) || (k in before && after[k] == before[k]))
    else if k in before && Labelled(before[k].labels, LABEL_PROFILE, p.name) && k.ns !in Applied(p, namespaces) then
      k in after ==> after[k] == before[k]
    else
      (k in after <==> k in before) && (k in before ==> after[k] == before[k])
  }

  ghost predicate RolesBetween(p: Profile, namespaces: set<string>, before: Roles, after: Roles) {
    forall k :: RoleBetween(p, namespaces, before, after, k)
  }

  lemma PatchedBetween(p: Profile, namespaces: set<string>, before: Roles, done: set<string>)
    requires done <= Applied(p, namespaces)
    ensures RolesBetween(p, namespaces, before, Patched(p, before, done))
  {
    forall k ensures RoleBetween(p, namespaces, before, Patched(p, before, done), k) {
      RoleKeysAt(p, done, k);
    }
  }

  lemma ObsoleteBetween(p: Profile, namespaces: set<string>, before: Roles, gone: set<Key>)
    requires var patched := Patched(p, before, Applied(p, namespaces));
             gone <= ObsoleteRoles(p, patched, Applied(p, namespaces))
    ensures RolesBetween(p, namespaces, before, Patched(p, before, Applied(p, namespaces)) - gone)
  {
    var applied := Applied(p, namespaces);
    var patched := Patched(p, before, applied);
    PatchedBetween(p, namespaces, before, applied);
    forall k ensures RoleBetween(p, namespaces, before, patched - gone, k) {
      assert RoleBetween(p, namespaces, before, patched, k);
    }
  }

  // ---------------------------------------------- bindings: what is computed

  function BindingKey(sb: Owner, ns: string): Key {
    Key(ns, BindingName(sb.name))
  }

  function DesiredBinding(sb: Owner, p: Profile): Binding {
    Binding(map[LABEL_SANDBOX_UID := sb.uid, LABEL_PROFILE := p.name, LABEL_MANAGED_BY := MANAGED_BY],
            RoleRef("Role", RoleName(p.name)), [Account(sb)])
  }

  /** The RoleBinding the pass leaves at a grant namespace: replaced when its
      roleRef drifted, corrected when only its subjects did. */
  function BindOne(sb: Owner, p: Profile, ns: string, before: Bindings): Binding {
    var k, d := BindingKey(sb, ns), DesiredBinding(sb, p);
    if k in before && before[k].roleRef == d.roleRef then before[k].(subjects := d.subjects) else d
  }

  function BindingKeys(sb: Owner, done: set<string>): set<Key> {
    set ns | ns in done :: BindingKey(sb, ns)
  }

  function Bound(sb: Owner, p: Profile, before: Bindings, done: set<string>): Bindings {
    before + map k | k in BindingKeys(sb, done) :: BindOne(sb, p, k.ns, before)
  }

  function ObsoleteBindings(uid: string, bs: Bindings, keep: set<string>): set<Key> {
    set k | k in bs && Labelled(bs[k].labels, LABEL_SANDBOX_UID, uid) && k.ns !in keep
  }

  function Collected(uid: string, bs: Bindings, keep: set<string>): Bindings {
    bs - ObsoleteBindings(uid, bs, keep)
  }

  /** The RoleBindings after a successful pass for a permitted profile. */
  function BoundAll(sb: Owner, p: Profile, before: Bindings): Bindings {
    var keep := GrantNamespaceSet(p.grants);
    Collected(sb.uid, Bound(sb, p, before, keep), keep)
  }

  lemma BoundStep(sb: Owner, p: Profile, before: Bindings, done: set<string>, ns: string)
    requires ns !in done
    ensures Bound(sb, p, before, done + {ns}) == Bound(sb, p, before, done)[BindingKey(sb, ns) := BindOne(sb, p, ns, before)]
    ensures BindingKey(sb, ns) in Bound(sb, p, before, done) <==> BindingKey(sb, ns) in before
    ensures BindingKey(sb, ns) in before ==> Bound(sb, p, before, done)[BindingKey(sb, ns)] == before[BindingKey(sb, ns)]
  {
    forall k ensures k in BindingKeys(sb, done + {ns}) <==> k in BindingKeys(sb, done) || k == BindingKey(sb, ns) {
      BindingKeysAt(sb, done, k);
      BindingKeysAt(sb, done + {ns}, k);
    }
    BindingKeysAt(sb, done, BindingKey(sb, ns));
  }

  lemma BindingKeysAt(sb: Owner, done: set<string>, k: Key)
    ensures k in BindingKeys(sb, done) <==> k.name == BindingName(sb.name) && k.ns in done
  {
    assert k.name == BindingName(sb.name) ==> k == BindingKey(sb, k.ns);
  }

  /** The binding at `k` refers to the profile's Role already. */
  predicate RefersTo(p: Profile, bs: Bindings, k: Key) {
    k in bs && bs[k].roleRef == RoleRef("Role", RoleName(p.name))
  }

  /** A state a pass over the RoleBindings may leave behind, finished or not. Only a
      binding being replaced may be missing. */
  ghost predicate BindingBetween(sb: Owner, p: Profile, keep: set<string>, before: Bindings, after: Bindings, k: Key) {
    if k.name == BindingName(sb.name) && k.ns in keep then
      && (RefersTo(p, before, k) ==> k in after)
      && (k in after ==> after[k] == BindOne(sb, p, k.ns, before) || (k in before && after[k] == before[k]))
    else if k in before && Labelled(before[k].labels, LABEL_SANDBOX_UID, sb.uid) && k.ns !in keep then
      k in after ==> after[k] == before[k]
    else
      (k in after <==> k in before) && (k in before ==> after[k] == before[k])
  }

  ghost predicate BindingsBetween(sb: Owner, p: Profile, keep: set<string>, before: Bindings, after: Bindings) {
    forall k :: BindingBetween(sb, p, keep, before, after, k)
  }

  lemma BoundBetween(sb: Owner, p: Profile, keep: set<string>, before: Bindings, done: set<string>)
    requires done <= keep
    ensures BindingsBetween(sb, p, keep, before, Bound(sb, p, before, done))
  {
    forall k ensures BindingBetween(sb, p, keep, before, Bound(sb, p, before, done), k) {
      BindingKeysAt(sb, done, k);
    }
  }

  lemma FewerBetween(sb: Owner, p: Profile, keep: set<string>, before: Bindings, mid: Bindings, gone: set<Key>)
    requires BindingsBetween(sb, p, keep, before, mid)
    requires forall k :: k in gone && k in mid ==>
               (k.name == BindingName(sb.name) && k.ns in keep && !RefersTo(p, before, k))
               || (Labelled(mid[k].labels, LABEL_SANDBOX_UID, sb.uid) && k.ns !in keep)
    ensures BindingsBetween(sb, p, keep, before, mid - gone)
  {
    forall k ensures BindingBetween(sb, p, keep, before, mid - gone, k) {
      assert BindingBetween(sb, p, keep, before, mid, k);
    }
  }

  // ---------------------------------------------------------- implementation

  /** The deduplicated namespaces of a profile, in order of first mention. */
  method GrantNamespaces(p: Profile) returns (out: seq<string>)
    ensures forall ns :: ns in out <==> ns in GrantNamespaceSet(p.grants)
    ensures forall i, j :: 0 <= i < j < |out| ==> out[i] != out[j]
  {
    out := [];
    for i := 0 to |p.grants|
      invariant forall ns :: ns in out <==> ns in GrantNamespaceSet(p.grants[..i])
      invariant forall a, b :: 0 <= a < b < |out| ==> out[a] != out[b]
    {
      var g := p.grants[i];
      for j := 0 to |g.namespaces|
        invariant forall ns :: ns in out <==> ns in GrantNamespaceSet(p.grants[..i]) || ns in g.namespaces[..j]
        invariant forall a, b :: 0 <= a < b < |out| ==> out[a] != out[b]
      {
        assert g.namespaces[..j + 1] == g.namespaces[..j] + [g.namespaces[j]];
        if g.namespaces[j] !in out { out := out + [g.namespaces[j]]; }
      }
      assert g.namespaces[..|g.namespaces|] == g.namespaces;
      GrantSetStep(p.grants, i);
    }
    assert p.grants[..|p.grants|] == p.grants;
  }

  lemma GrantSetStep(grants: seq<Grant>, i: nat)
    requires i < |grants|
    ensures GrantNamespaceSet(grants[..i + 1])
            == GrantNamespaceSet(grants[..i]) + set ns | ns in grants[i].namespaces
  {
    assert grants[..i + 1] == grants[..i] + [grants[i]];
    forall ns | ns in grants[i].namespaces ensures ns in GrantNamespaceSet(grants[..i + 1]) {
      assert grants[i] in grants[..i + 1];
    }
    forall ns | ns in GrantNamespaceSet(grants[..i]) ensures ns in GrantNamespaceSet(grants[..i + 1]) {
      var g :| g in grants[..i] && ns in g.namespaces;
      assert g in grants[..i + 1];
    }
  }

  function RulesAt(m: map<string, seq<Rule>>, ns: string): seq<Rule> {
    if ns in m then m[ns] else []
  }

  method AppendRules(m0: map<string, seq<Rule>>, ns: string, rules: seq<Rule>) returns (m: map<string, seq<Rule>>)
    ensures forall x :: x in m <==> x in m0 || x == ns
    ensures forall x :: RulesAt(m, x) == if x == ns then RulesAt(m0, x) + rules else RulesAt(m0, x)
  {
    m := m0[ns := RulesAt(m0, ns) + rules];
  }

  /** `m` is `m0` with the rules of the first `j` namespaces of `g` appended. */
  ghost predicate Appended(m0: map<string, seq<Rule>>, m: map<string, seq<Rule>>, g: Grant, j: nat)
    requires j <= |g.namespaces|
  {
    && (forall x {:trigger x in m} :: x in m <==> x in m0 || x in g.namespaces[..j])
    && (forall x {:trigger RulesAt(m, x)} :: RulesAt(m, x) == RulesAt(m0, x) + Contribution(g.namespaces, j, x, g.rules))
  }

  lemma ContributionStep(have: seq<Rule>, g: Grant, j: nat, x: string)
    requires j < |g.namespaces|
    ensures have + Contribution(g.namespaces, j + 1, x, g.rules)
            == if g.namespaces[j] == x then (have + Contribution(g.namespaces, j, x, g.rules)) + g.rules
               else have + Contribution(g.namespaces, j, x, g.rules)
  {
    var c := Contribution(g.namespaces, j, x, g.rules);
    assert (have + c) + g.rules == have + (c + g.rules);
    assert c + [] == c;
  }

  lemma AppendedStep(m0: map<string, seq<Rule>>, m: map<string, seq<Rule>>, m': map<string, seq<Rule>>, g: Grant, j: nat)
    requires j < |g.namespaces| && Appended(m0, m, g, j)
    requires forall x :: x in m' <==> x in m || x == g.namespaces[j]
    requires forall x :: RulesAt(m', x) == if x == g.namespaces[j] then RulesAt(m, x) + g.rules else RulesAt(m, x)
    ensures Appended(m0, m', g, j + 1)
  {
    forall x ensures x in m' <==> x in m0 || x in g.namespaces[..j + 1] {
      PrefixStep(g.namespaces, j, x);
    }
    forall x ensures RulesAt(m', x) == RulesAt(m0, x) + Contribution(g.namespaces, j + 1, x, g.rules) {
      ContributionStep(RulesAt(m0, x), g, j, x);
    }
  }

  lemma PrefixStep(xs: seq<string>, j: nat, x: string)
    requires j < |xs|
    ensures x in xs[..j + 1] <==> x in xs[..j] || x == xs[j]
  {
    assert xs[..j + 1] == xs[..j] + [xs[j]];
  }

  /** Append one grant's rules to each of its namespaces. */
  method AddGrant(m0: map<string, seq<Rule>>, g: Grant) returns (m: map<string, seq<Rule>>)
    ensures forall ns :: ns in m <==> ns in m0 || ns in g.namespaces
    ensures forall ns :: RulesAt(m, ns) == RulesAt(m0, ns) + Contribution(g.namespaces, |g.namespaces|, ns, g.rules)
  {
    m := m0;
    for j := 0 to |g.namespaces|
      invariant Appended(m0, m, g, j)
    {
      ghost var was := m;
      m := AppendRules(m, g.namespaces[j], g.rules);
      AppendedStep(m0, was, m, g, j);
    }
    assert g.namespaces[..|g.namespaces|] == g.namespaces;
  }

  /** Union the rules of each namespace, grant by grant. */
  method CompileRules(p: Profile) returns (m: map<string, seq<Rule>>)
    ensures m.Keys == GrantNamespaceSet(p.grants)
    ensures forall ns :: ns in m ==> m[ns] == RulesFor(p, ns)
  {
    m := map[];
    for i := 0 to |p.grants|
      invariant m.Keys == GrantNamespaceSet(p.grants[..i])
      invariant forall ns :: RulesAt(m, ns) == RulesUpTo(p.grants, i, ns)
    {
      m := AddGrant(m, p.grants[i]);
      GrantSetStep(p.grants, i);
    }
    assert p.grants[..|p.grants|] == p.grants;
    forall ns | ns in m ensures m[ns] == RulesFor(p, ns) {
      assert RulesAt(m, ns) == RulesUpTo(p.grants, |p.grants|, ns);
    }
  }

  class Cluster {
    var namespaces: set<string>
    var roles: Roles
    var bindings: Bindings
    var accounts: set<Key>

    constructor (nss: set<string>, rs: Roles, bs: Bindings, acs: set<Key>)
      ensures namespaces == nss && roles == rs && bindings == bs && accounts == acs
    {
      namespaces, roles, bindings, accounts := nss, rs, bs, acs;
    }

    // ------------------------------------------- AccessProfile controller

    method ApplyRole(p: Profile, ns: string, rules: seq<Rule>, plan: Plan,
                     ghost before: Roles, ghost done: set<string>)
      returns (ok: bool)
      requires ns in namespaces && rules == RulesFor(p, ns)
      requires ns !in done && roles == Patched(p, before, done)
      modifies this`roles
      ensures roles == Patched(p, before, done) || roles == Patched(p, before, done + {ns})
      ensures ok ==> roles == Patched(p, before, done + {ns})
      ensures Reliable(plan) ==> ok
    {
      PatchedStep(p, before, done, ns);
      var k := Key(ns, RoleName(p.name));
      if plan(GetRole(ns)) != Fine { return false; }
      if k !in roles {
        if plan(WriteRole(ns)) == Refused { return false; }
        roles := roles[k := Role(RoleLabels(p), rules)];
        return plan(WriteRole(ns)) == Fine;
      }
      var existing := roles[k];
      if existing.rules != rules {
        if plan(WriteRole(ns)) == Refused { return false; }
        existing := existing.(rules := rules);
        if existing.labels == map[] { existing := existing.(labels := RoleLabels(p)); }
        roles := roles[k := existing];
        return plan(WriteRole(ns)) == Fine;
      }
      assert roles == roles[k := existing];
      return true;
    }

    /** One Role per existing grant namespace with the concatenation of its rules;
        Roles of the profile elsewhere are removed. The order in which the map of
        namespaces is visited does not matter. */
    method SyncRoles(p: Profile, plan: Plan) returns (ok: bool, missing: set<string>)
      modifies this`roles
      ensures ok ==> roles == Synced(p, namespaces, old(roles))
      ensures ok ==> missing == GrantNamespaceSet(p.grants) - namespaces
      ensures RolesBetween(p, namespaces, old(roles), roles)
      ensures Reliable(plan) ==> ok
    {
      ghost var before := roles;
      missing := {};
      var rulesByNS := CompileRules(p);
      var todo := rulesByNS.Keys;
      var applied: set<string> := {};
      PatchedNothing(p, before);
      while todo != {}
        invariant todo <= rulesByNS.Keys
        invariant forall ns :: ns in applied <==> ns in rulesByNS && ns !in todo && ns in namespaces
        invariant forall ns :: ns in missing <==> ns in rulesByNS && ns !in todo && ns !in namespaces
        invariant roles == Patched(p, before, applied)
        decreases |todo|
      {
        var ns :| ns in todo;
        todo := todo - {ns};
        if plan(GetNamespace(ns)) != Fine {
          PatchedBetween(p, namespaces, before, applied);
          return false, {};
        }
        if ns !in namespaces {
          missing := missing + {ns};
          continue;
        }
        ok := ApplyRole(p, ns, rulesByNS[ns], plan, before, applied);
        if !ok {
          PatchedBetween(p, namespaces, before, applied);
          PatchedBetween(p, namespaces, before, applied + {ns});
          return false, {};
        }
        applied := applied + {ns};
      }
      assert applied == Applied(p, namespaces);
      ok := CollectRoles(p, applied, plan, before);
    }

    /** Delete the profile's Roles outside the applied namespaces. */
    method CollectRoles(p: Profile, applied: set<string>, plan: Plan, ghost before: Roles) returns (ok: bool)
      requires applied == Applied(p, namespaces) && roles == Patched(p, before, applied)
      modifies this`roles
      ensures ok ==> roles == Synced(p, namespaces, before)
      ensures RolesBetween(p, namespaces, before, roles)
      ensures Reliable(plan) ==> ok
    {
      ghost var gone: set<Key>;
      ok, gone := DropRoles(p, applied, plan);
      ObsoleteBetween(p, namespaces, before, gone);
    }

    method DropRoles(p: Profile, applied: set<string>, plan: Plan) returns (ok: bool, ghost gone: set<Key>)
      modifies this`roles
      ensures gone <= ObsoleteRoles(p, old(roles), applied) && roles == old(roles) - gone
      ensures ok ==> gone == ObsoleteRoles(p, old(roles), applied)
      ensures Reliable(plan) ==> ok
    {
      var listed := roles;
      ghost var obsolete := ObsoleteRoles(p, listed, applied);
      gone := {};
      assert listed - {} == listed;
      if plan(ListRoles) != Fine { return false, {}; }
      var todo := set k | k in listed && Labelled(listed[k].labels, LABEL_PROFILE, p.name);
      while todo != {}
        invariant forall k :: k in todo ==> k in listed && Labelled(listed[k].labels, LABEL_PROFILE, p.name)
        invariant forall k :: k in gone <==> k in obsolete && k !in todo
        invariant roles == listed - gone
        decreases |todo|
      {
        var k :| k in todo;
        todo := todo - {k};
        if k.ns in applied { continue; }
        if plan(DeleteRole(k)) == Refused { return false, gone; }
        MinusStep(listed, gone, k);
        roles := roles - {k};
        gone := gone + {k};
        if plan(DeleteRole(k)) == Lost { return false, gone; }
      }
      assert gone == obsolete;
      return true, gone;
    }

    /** Profile deletion: remove every Role carrying its label. */
    method FinalizeProfile(p: Profile, plan: Plan) returns (ok: bool)
      modifies this`roles
      ensures ok ==> forall k :: k in roles ==> !Labelled(roles[k].labels, LABEL_PROFILE, p.name)
      ensures forall k :: k in roles ==> k in old(roles) && roles[k] == old(roles)[k]
      ensures forall k :: k in old(roles) && !Labelled(old(roles)[k].labels, LABEL_PROFILE, p.name) ==> k in roles
      ensures Reliable(plan) ==> ok
    {
      ghost var gone: set<Key>;
      ok, gone := DropRoles(p, {}, plan);
    }

    // ---------------------------------------------------- sandbox controller

    /** Create the RoleBinding, replace it if its roleRef drifted, or correct its
        subjects. */
    method ApplyRoleBinding(sb: Owner, p: Profile, ns: string, plan: Plan, ghost before: Bindings, ghost done: set<string>)
      returns (ok: bool)
      requires ns !in done && bindings == Bound(sb, p, before, done)
      requires forall k :: k in bindings ==> k.ns in namespaces
      modifies this`bindings
      ensures ok ==> bindings == Bound(sb, p, before, done + {ns}) && ns in namespaces
      ensures bindings == Bound(sb, p, before, done) || bindings == Bound(sb, p, before, done + {ns})
              || (bindings == Bound(sb, p, before, done) - {BindingKey(sb, ns)} && !RefersTo(p, before, BindingKey(sb, ns)))
      ensures Reliable(plan) && ns in namespaces ==> ok
    {
      BoundStep(sb, p, before, done, ns);
      var k, desired := Key(ns, BindingName(sb.name)), DesiredBinding(sb, p);
      if plan(GetBinding(ns)) != Fine { return false; }
      if k !in bindings {
        if plan(WriteBinding(ns)) == Refused || ns !in namespaces { return false; }
        bindings := bindings[k := desired];
        return plan(WriteBinding(ns)) == Fine;
      }
      var existing := bindings[k];
      if existing.roleRef != desired.roleRef {
        if plan(DropBinding(ns)) == Refused { return false; }
        ghost var was := bindings;
        bindings := bindings - {k};
        if plan(DropBinding(ns)) == Lost { return false; }
        if plan(WriteBinding(ns)) == Refused { return false; }
        bindings := bindings[k := desired];
        assert bindings == was[k := desired];
        return plan(WriteBinding(ns)) == Fine;
      }
      if existing.subjects != desired.subjects {
        if plan(WriteBinding(ns)) == Refused { return false; }
        bindings := bindings[k := existing.(subjects := desired.subjects)];
        return plan(WriteBinding(ns)) == Fine;
      }
      assert existing == existing.(subjects := desired.subjects);
      assert bindings == bindings[k := existing];
      return true;
    }

    /** Delete the sandbox's RoleBindings outside `keep`, found by label. */
    method GcRBAC(uid: string, keep: set<string>, plan: Plan) returns (ok: bool, ghost gone: set<Key>)
      modifies this`bindings
      ensures gone <= ObsoleteBindings(uid, old(bindings), keep) && bindings == old(bindings) - gone
      ensures ok ==> bindings == Collected(uid, old(bindings), keep)
      ensures Reliable(plan) ==> ok
    {
      var listed := bindings;
      ghost var obsolete := ObsoleteBindings(uid, listed, keep);
      gone := {};
      assert listed - {} == listed;
      if plan(ListBindings) != Fine { return false, {}; }
      var todo := set k | k in listed && Labelled(listed[k].labels, LABEL_SANDBOX_UID, uid);
      while todo != {}
        invariant forall k :: k in todo ==> k in listed && Labelled(listed[k].labels, LABEL_SANDBOX_UID, uid)
        invariant forall k :: k in gone <==> k in obsolete && k !in todo
        invariant bindings == listed - gone
        decreases |todo|
      {
        var k :| k in todo;
        todo := todo - {k};
        if k.ns in keep { continue; }
        if plan(DeleteBinding(k)) == Refused { return false, gone; }
        MinusStep(listed, gone, k);
        bindings := bindings - {k};
        gone := gone + {k};
        if plan(DeleteBinding(k)) == Lost { return false, gone; }
      }
      assert gone == obsolete;
      return true, gone;
    }

    /** Bind the account in every grant namespace. */
    method BindNamespaces(sb: Owner, p: Profile, plan: Plan) returns (ok: bool)
      requires forall k :: k in bindings ==> k.ns in namespaces
      modifies this`bindings
      ensures ok ==> bindings == Bound(sb, p, old(bindings), GrantNamespaceSet(p.grants))
      ensures ok ==> GrantNamespaceSet(p.grants) <= namespaces
      ensures BindingsBetween(sb, p, GrantNamespaceSet(p.grants), old(bindings), bindings)
      ensures Reliable(plan) && GrantNamespaceSet(p.grants) <= namespaces ==> ok
    {
      ghost var before, keep := bindings, GrantNamespaceSet(p.grants);
      var desired := GrantNamespaces(p);
      ghost var done: set<string> := {};
      assert Bound(sb, p, before, {}) == before;
      for i := 0 to |desired|
        invariant forall ns :: ns in done <==> ns in desired[..i]
        invariant done <= namespaces && bindings == Bound(sb, p, before, done)
        invariant forall k :: k in bindings ==> k.ns in namespaces
      {
        var ns := desired[i];
        assert desired[..i + 1] == desired[..i] + [ns];
        ok := ApplyRoleBinding(sb, p, ns, plan, before, done);
        if !ok {
          BoundBetween(sb, p, keep, before, done);
          BoundBetween(sb, p, keep, before, done + {ns});
          if !RefersTo(p, before, BindingKey(sb, ns)) {
            FewerBetween(sb, p, keep, before, Bound(sb, p, before, done), {BindingKey(sb, ns)});
          }
          return false;
        }
        done := done + {ns};
      }
      assert desired[..|desired|] == desired;
      assert done == keep;
      BoundBetween(sb, p, keep, before, done);
      return true;
    }

    /** Translate the referenced profile for one sandbox. */
    method ReconcileRBAC(sb: Owner, ref: string, profiles: map<string, Profile>, plan: Plan) returns (r: SP.Rbac)
      requires forall k :: k in bindings ==> k.ns in namespaces
      modifies this`bindings, this`accounts
      ensures !r.RbacError? ==> (r.RbacNone? <==> ref == "")
      ensures !r.RbacError? ==> (r.RbacDeleted? <==> ref != "" && ref !in profiles)
      ensures !r.RbacError? ==> (r.RbacForbidden? <==> ref != "" && ref in profiles && sb.ns !in profiles[ref].allowed)
      ensures !r.RbacError? && !r.RbacBound? ==>
                bindings == Collected(sb.uid, old(bindings), {}) && accounts == old(accounts)
      ensures r.RbacBound? ==> ref != "" && ref in profiles && sb.ns in profiles[ref].allowed
      ensures r.RbacBound? ==>
                && r.account == AccountName(sb.name) && Key(sb.ns, r.account) in accounts
                && bindings == BoundAll(sb, profiles[ref], old(bindings))
                && GrantNamespaceSet(profiles[ref].grants) <= namespaces
      ensures ref == "" || ref !in profiles || sb.ns !in profiles[ref].allowed ==>
                BindingsBetween(sb, NO_PROFILE, {}, old(bindings), bindings) && accounts == old(accounts)
      ensures ref != "" && ref in profiles && sb.ns in profiles[ref].allowed ==>
                BindingsBetween(sb, profiles[ref], GrantNamespaceSet(profiles[ref].grants), old(bindings), bindings)
      ensures !r.RbacError? ==> bindings == BoundAll(sb, Usable(sb, ref, profiles), old(bindings))
      ensures Reliable(plan) && GrantNamespaceSet(Usable(sb, ref, profiles).grants) <= namespaces ==> !r.RbacError?
    {
      ghost var before := bindings;
      BoundBetween(sb, NO_PROFILE, {}, before, {});
      assert Bound(sb, NO_PROFILE, before, {}) == before;
      if ref == "" {
        var ok, gone := GcRBAC(sb.uid, {}, plan);
        FewerBetween(sb, NO_PROFILE, {}, before, before, gone);
        return if ok then SP.RbacNone else SP.RbacError;
      }
      if plan(GetProfile) != Fine {
        var p := Usable(sb, ref, profiles);
        BoundBetween(sb, p, GrantNamespaceSet(p.grants), before, {});
        assert Bound(sb, p, before, {}) == before;
        return SP.RbacError;
      }
      if ref !in profiles || sb.ns !in profiles[ref].allowed {
        var ok, gone := GcRBAC(sb.uid, {}, plan);
        FewerBetween(sb, NO_PROFILE, {}, before, before, gone);
        return if !ok then SP.RbacError else if ref !in profiles then SP.RbacDeleted else SP.RbacForbidden;
      }
      r := BindProfile(sb, profiles[ref], plan);
    }

    /** The permitted case: account, bindings, garbage collection. */
    method BindProfile(sb: Owner, p: Profile, plan: Plan) returns (r: SP.Rbac)
      requires forall k :: k in bindings ==> k.ns in namespaces
      modifies this`bindings, this`accounts
      ensures r.RbacError? || r == SP.RbacBound(AccountName(sb.name))
      ensures r.RbacBound? ==>
                && Key(sb.ns, AccountName(sb.name)) in accounts
                && bindings == BoundAll(sb, p, old(bindings)) && GrantNamespaceSet(p.grants) <= namespaces
      ensures BindingsBetween(sb, p, GrantNamespaceSet(p.grants), old(bindings), bindings)
      ensures Reliable(plan) && GrantNamespaceSet(p.grants) <= namespaces ==> !r.RbacError?
    {
      ghost var before, keep := bindings, GrantNamespaceSet(p.grants);
      BoundBetween(sb, p, keep, before, {});
      assert Bound(sb, p, before, {}) == before;
      if plan(CreateAccount) == Refused { return SP.RbacError; }
      accounts := accounts + {Key(sb.ns, AccountName(sb.name))};
      if plan(CreateAccount) == Lost { return SP.RbacError; }
      var ok := BindNamespaces(sb, p, plan);
      if !ok { return SP.RbacError; }
      ghost var mid := bindings;
      var desired := GrantNamespaces(p);
      var names := set ns | ns in desired;
      assert names == keep;
      var done, gone := GcRBAC(sb.uid, names, plan);
      FewerBetween(sb, p, keep, before, mid, gone);
      return if done then SP.RbacBound(AccountName(sb.name)) else SP.RbacError;
    }
  }

  const NO_PROFILE := Profile("", [], [])

  /** The profile a sandbox is bound to: the one it names, if it exists and permits the
      sandbox's namespace; else the one that grants nothing. */
  function Usable(sb: Owner, ref: string, profiles: map<string, Profile>): Profile {
    if ref != "" && ref in profiles && sb.ns in profiles[ref].allowed then profiles[ref] else NO_PROFILE
  }

  lemma MinusStep<X>(m: map<Key, X>, gone: set<Key>, k: Key)
    ensures (m - gone) - {k} == m - (gone + {k})
  {
  }

  lemma PatchedNothing(p: Profile, before: Roles)
    ensures Patched(p, before, {}) == before
  {
  }
}
