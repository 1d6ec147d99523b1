/** Kubernetes RBAC objects, how they are evaluated, and what an AccessProfile
    declares. */
module RbacModel {

  // ------------------------------------------------------------ access rules

  datatype Rule = Rule(verbs: seq<string>, groups: seq<string>, resources: seq<string>, names: seq<string>)

  datatype Action = Action(verb: string, group: string, resource: string, sub: string, name: string)

  predicate Lists(xs: seq<string>, x: string) {
    x in xs || "*" in xs
  }

  predicate ResourceMatches(xs: seq<string>, a: Action) {
    || Lists(xs, if a.sub == "" then a.resource else a.resource + "/" + a.sub)
    || (a.sub != "" && "*/" + a.sub in xs)
  }

  predicate Allows(r: Rule, a: Action) {
    Lists(r.verbs, a.verb) && Lists(r.groups, a.group) && ResourceMatches(r.resources, a)
    && (r.names == [] || a.name in r.names)
  }

  ghost predicate SomeRuleAllows(rules: seq<Rule>, a: Action) {
    exists r :: r in rules && Allows(r, a)
  }

  // ----------------------------------------------------------------- profile

  datatype Grant = Grant(namespaces: seq<string>, rules: seq<Rule>)

  datatype Profile = Profile(name: string, grants: seq<Grant>, allowed: seq<string>)

  /** What the profile declares. */
  ghost predicate Granted(p: Profile, ns: string, a: Action) {
    exists g :: g in p.grants && ns in g.namespaces && SomeRuleAllows(g.rules, a)
  }

  function GrantNamespaceSet(grants: seq<Grant>): set<string> {
    set g, ns | g in grants && ns in g.namespaces :: ns
  }

  // ----------------------------------------------------------------- objects

  datatype Key = Key(ns: string, name: string)

  datatype Role = Role(labels: map<string, string>, rules: seq<Rule>)

  datatype RoleRef = RoleRef(kind: string, name: string)

  datatype Subject = Subject(kind: string, name: string, ns: string)

  datatype Binding = Binding(labels: map<string, string>, roleRef: RoleRef, subjects: seq<Subject>)

  type Roles = map<Key, Role>
  type Bindings = map<Key, Binding>

  const LABEL_PROFILE := "kubepark.dev/profile"
  const LABEL_SANDBOX_UID := "kubepark.dev/sandbox-uid"
  const LABEL_MANAGED_BY := "app.kubernetes.io/managed-by"
  const MANAGED_BY := "kubepark"

  function RoleName(profile: string): string {
    "kubepark-ap-" + profile
  }

  function BindingName(sandbox: string): string {
    "kubepark-sb-" + sandbox
  }

  function AccountName(sandbox: string): string {
    "kubepark-sb-" + sandbox
  }

  predicate Labelled(labels: map<string, string>, label_: string, value: string) {
    label_ in labels && labels[label_] == value
  }

  /** A sandbox as RBAC sees it. */
  datatype Owner = Owner(ns: string, name: string, uid: string)

  function Account(sb: Owner): Subject {
    Subject("ServiceAccount", AccountName(sb.name), sb.ns)
  }

  // -------------------------------------------------------------- evaluation

  /** The binding at `k` lets `who` do `a` in its namespace. */
  ghost predicate Permits(roles: Roles, bindings: Bindings, k: Key, who: Subject, a: Action) {
    && k in bindings && Labelled(bindings[k].labels, LABEL_MANAGED_BY, MANAGED_BY)
    && who in bindings[k].subjects && bindings[k].roleRef.kind == "Role"
    && Key(k.ns, bindings[k].roleRef.name) in roles
    && SomeRuleAllows(roles[Key(k.ns, bindings[k].roleRef.name)].rules, a)
  }

  /** RBAC evaluation through the objects kubepark manages. */
  ghost predicate Allowed(roles: Roles, bindings: Bindings, who: Subject, ns: string, a: Action) {
    exists name :: Permits(roles, bindings, Key(ns, name), who, a)
  }

  // ----------------------------------------------- compiling grants to rules

  /** Rules the first `n` namespaces of a grant contribute to `ns`. */
  function Contribution(namespaces: seq<string>, n: nat, ns: string, rules: seq<Rule>): seq<Rule>
    requires n <= |namespaces|
  {
    if n == 0 then []
    else Contribution(namespaces, n - 1, ns, rules) + if namespaces[n - 1] == ns then rules else []
  }

  /** Rules the first `n` grants contribute to `ns`, in order. */
  function RulesUpTo(grants: seq<Grant>, n: nat, ns: string): seq<Rule>
    requires n <= |grants|
  {
    if n == 0 then []
    else
      var g := grants[n - 1];
      RulesUpTo(grants, n - 1, ns) + Contribution(g.namespaces, |g.namespaces|, ns, g.rules)
  }

  function RulesFor(p: Profile, ns: string): seq<Rule> {
    RulesUpTo(p.grants, |p.grants|, ns)
  }

  lemma SomeRuleConcat(xs: seq<Rule>, ys: seq<Rule>, a: Action)
    ensures SomeRuleAllows(xs + ys, a) <==> SomeRuleAllows(xs, a) || SomeRuleAllows(ys, a)
  {
    if SomeRuleAllows(xs, a) {
      var r :| r in xs && Allows(r, a);
      assert r in xs + ys;
    }
    if SomeRuleAllows(ys, a) {
      var r :| r in ys && Allows(r, a);
      assert r in xs + ys;
    }
  }

  lemma {:induction false} ContributionAllows(namespaces: seq<string>, n: nat, ns: string, rules: seq<Rule>, a: Action)
    requires n <= |namespaces|
    ensures SomeRuleAllows(Contribution(namespaces, n, ns, rules), a)
            <==> ns in namespaces[..n] && SomeRuleAllows(rules, a)
  {
    if n > 0 {
      ContributionAllows(namespaces, n - 1, ns, rules, a);
      assert namespaces[..n] == namespaces[..n - 1] + [namespaces[n - 1]];
      SomeRuleConcat(Contribution(namespaces, n - 1, ns, rules), if namespaces[n - 1] == ns then rules else [], a);
    }
  }

  lemma {:induction false} RulesUpToAllow(grants: seq<Grant>, n: nat, ns: string, a: Action)
    requires n <= |grants|
    ensures SomeRuleAllows(RulesUpTo(grants, n, ns), a)
            <==> exists g :: g in grants[..n] && ns in g.namespaces && SomeRuleAllows(g.rules, a)
  {
    if n > 0 {
      var g := grants[n - 1];
      RulesUpToAllow(grants, n - 1, ns, a);
      ContributionAllows(g.namespaces, |g.namespaces|, ns, g.rules, a);
      assert g.namespaces[..|g.namespaces|] == g.namespaces;
      assert grants[..n] == grants[..n - 1] + [g];
      SomeRuleConcat(RulesUpTo(grants, n - 1, ns), Contribution(g.namespaces, |g.namespaces|, ns, g.rules), a);
      assert forall x :: x in grants[..n] <==> x in grants[..n - 1] || x == g;
    }
  }

  /** The compiled rules of a namespace allow exactly what the grants declare. */
  lemma RulesForExact(p: Profile, ns: string, a: Action)
    ensures SomeRuleAllows(RulesFor(p, ns), a) <==> Granted(p, ns, a)
  {
    RulesUpToAllow(p.grants, |p.grants|, ns, a);
    assert p.grants[..|p.grants|] == p.grants;
  }
}
